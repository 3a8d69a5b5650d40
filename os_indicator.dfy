/**
  The OS-mode indicator and default-layer switcher of the Keychron C3 Pro,
  as pure state transitions. Each callback the firmware framework invokes
  is a function from the keyboard-level state before the call to the state
  after it; the class in module C3Pro performs the same updates in place
  and is proved against these functions.

  Two indicator pins show which default layer is active: layer mask 1<<0
  lights the MAC pin, layer mask 1<<2 lights the WIN pin. An OS-switch key
  flips both layer bits, persists the mask and re-arms two timers: a
  2000 ms window during which the pins stay lit, and a 300 ms-paced blink
  sequence that flashes the whole LED matrix off and on.
*/
module OsIndicator {
  import opened Timer

  datatype Option<T> = None | Some(value: T)

  /** Length of the steady-lit window after a switch, in ms; the pins are
      suppressed once strictly more than this has elapsed. */
  const DisableTime: uint32 := 2000
  /** A blink step needs strictly more than this many ms since the last one. */
  const BlinkPeriod: uint32 := 300
  /** A blink step that finds the counter above this value ends the sequence. */
  const BlinkLast: uint8 := 5

  /** Default-layer mask that lights the MAC pin. */
  const MacLayer: bv32 := 1 << 0
  /** Default-layer mask that lights the WIN pin (also the fallback at start-up). */
  const WinLayer: bv32 := 1 << 2

  /** Matrix flag values of the framework: every LED enabled, and none. */
  const FlagAll: bv8 := 0xFF
  const FlagNone: bv8 := 0x00

  /**
    Everything the callbacks read and write.
    blinkTimer   start of the current blink step; 0 means no sequence runs
    blinkCount   blink steps taken so far in the sequence
    windowTimer  start of the steady-lit window; 0 means not yet started
    suppressed   the latch that turns the indicator pins off
    layer        the in-memory default-layer mask
    stored       the default-layer mask kept in persistent storage
    mac, win     the electrical levels of the two indicator pins
    flags        the LED/RGB matrix flags
  */
  datatype State = State(
    blinkTimer: uint32,
    blinkCount: uint8,
    windowTimer: uint32,
    suppressed: bool,
    layer: bv32,
    stored: bv32,
    mac: bool,
    win: bool,
    flags: bv8)

  /** What the matrix overlay writes to every LED: all off, or all at full
      (full brightness on a single-colour matrix, red on an RGB matrix). */
  datatype Frame = AllOff | AllFull

  /** The keycodes the key handler distinguishes. MatrixToggle stands for
      the backlight toggle of a single-colour matrix and the RGB toggle of
      an RGB matrix, whichever the build enables. */
  datatype Keycode = OsSwitch | MatrixToggle | Other(code: uint16)

  /** Requests the matrix toggle makes of the matrix driver. */
  datatype DriverCalls = DriverCalls(blankAll: bool, raiseVal: bool)

  /** The outcome of one key event: the new state, whether the framework
      should go on processing the key, and the driver requests made. */
  datatype Handled = Handled(next: State, cont: bool, calls: DriverCalls)

  /** The invariant the two default layers are meant to keep: exactly one of
      bit 0 and bit 2 is set. */
  predicate OneOsBit(layer: bv32) {
    layer & (MacLayer | WinLayer) == MacLayer || layer & (MacLayer | WinLayer) == WinLayer
  }

  /** The pins show the MAC indication (MAC lit, WIN dark) at polarity `on`. */
  predicate ShowsMac(s: State, on: bool) { s.mac == on && s.win == !on }

  /** The pins show the WIN indication (WIN lit, MAC dark) at polarity `on`. */
  predicate ShowsWin(s: State, on: bool) { s.win == on && s.mac == !on }

  /** Both pins are driven to their off level. */
  predicate Dark(s: State, on: bool) { s.mac == !on && s.win == !on }

  /** A tick at `now` takes a blink step: a sequence runs and strictly more
      than the blink period has passed since the last step. */
  predicate BlinkDue(s: State, now: uint32) {
    s.blinkTimer != 0 && Elapsed(now, s.blinkTimer) > BlinkPeriod
  }

  /** The state at power-on, before any callback: the module statics are
      zero, the in-memory default layer is empty, persistent storage holds
      `stored`, and the pins and matrix flags are at whatever level they
      come up in. */
  function Boot(stored: bv32, mac: bool, win: bool, flags: bv8): (r: State)
    ensures r.blinkCount == 0 && r.blinkTimer == 0 && r.windowTimer == 0 && !r.suppressed
    ensures r.layer == 0 && r.stored == stored
  {
    State(0, 0, 0, false, 0, stored, mac, win, flags)
  }

  /**
    keyboard_post_init_kb: drives both pins off and restores the default
    layer from storage, falling back to the WIN layer when storage holds 0.
  */
  function PostInit(s: State, on: bool): (r: State)
    ensures Dark(r, on)
    ensures s.stored != 0 ==> r.layer == s.stored
    ensures s.stored == 0 ==> r.layer == WinLayer
    ensures r.layer != 0
    ensures r == s.(layer := r.layer, mac := r.mac, win := r.win)
  {
    var layer := if s.stored != 0 then s.stored else WinLayer;
    s.(mac := !on, win := !on, layer := layer)
  }

  /**
    housekeeping_task_kb, one tick at clock reading `now`: start the window
    if it has not started, latch the suppression once the window has run
    out, drive the pins from the layer, and take a blink step when one is due.
  */
  function Housekeeping(s: State, now: uint32, on: bool): (r: State)
    // the window starts lazily, at the first tick that finds it unset
    ensures s.windowTimer != 0 ==> r.windowTimer == s.windowTimer
    ensures s.windowTimer == 0 ==> r.windowTimer == now
    // the latch: never cleared by a tick, set exactly when the window has run out
    ensures s.suppressed ==> r.suppressed
    ensures !s.suppressed ==> (r.suppressed <==> Elapsed(now, r.windowTimer) > DisableTime)
    ensures s.windowTimer == 0 ==> r.suppressed == s.suppressed
    // the pins
    ensures r.suppressed ==> Dark(r, on)
    ensures !r.suppressed && s.layer == MacLayer ==> ShowsMac(r, on)
    ensures !r.suppressed && s.layer == WinLayer ==> ShowsWin(r, on)
    ensures !r.suppressed && s.layer != MacLayer && s.layer != WinLayer ==> r.mac == s.mac && r.win == s.win
    // the blink sequence
    ensures !BlinkDue(s, now) ==> r.blinkCount == s.blinkCount && r.blinkTimer == s.blinkTimer
    ensures BlinkDue(s, now) && s.blinkCount <= BlinkLast ==> r.blinkCount == s.blinkCount + 1 && r.blinkTimer == now
    ensures BlinkDue(s, now) && s.blinkCount > BlinkLast ==> r.blinkCount == 0 && r.blinkTimer == 0
    ensures s.blinkCount <= BlinkLast + 1 ==> r.blinkCount <= BlinkLast + 1
    // nothing else changes
    ensures r.layer == s.layer && r.stored == s.stored && r.flags == s.flags
  {
    var window := if s.windowTimer == 0 then now else s.windowTimer;
    var suppressed := s.suppressed || Elapsed(now, window) > DisableTime;
    var (mac, win) :=
      if suppressed then (!on, !on)
      else if s.layer == MacLayer then (on, !on)
      else if s.layer == WinLayer then (!on, on)
      else (s.mac, s.win);
    // The source post-increments an 8-bit counter and compares the old
    // value; any value above BlinkLast is reset, so the increment never wraps.
    var (timer, count) :=
      if !BlinkDue(s, now) then (s.blinkTimer, s.blinkCount)
      else if s.blinkCount > BlinkLast then (0, 0)
      else (now, s.blinkCount + 1);
    s.(windowTimer := window, suppressed := suppressed, mac := mac, win := win,
       blinkTimer := timer, blinkCount := count)
  }

  /**
    The KC_OSSW press: flip both default-layer bits, persist the new mask,
    re-arm both timers at `now` and clear the latch.
  */
  function Switch(s: State, now: uint32): (r: State)
    ensures r.layer == s.layer ^ (MacLayer | WinLayer)
    ensures s.layer == MacLayer ==> r.layer == WinLayer
    ensures s.layer == WinLayer ==> r.layer == MacLayer
    ensures OneOsBit(s.layer) ==> OneOsBit(r.layer)
    ensures r.stored == r.layer
    ensures r.blinkTimer == now && r.windowTimer == now && !r.suppressed
    ensures r.blinkCount == s.blinkCount && r.mac == s.mac && r.win == s.win && r.flags == s.flags
  {
    var layer := s.layer ^ MacLayer;
    var layer' := layer ^ WinLayer;
    s.(layer := layer', stored := layer', blinkTimer := now, windowTimer := now, suppressed := false)
  }

  /**
    The matrix toggle (BL_TOGG / RGB_TOG): on a press, all-enabled flags
    become none and the matrix is blanked, any other flags become all; on
    press and release alike, a zero brightness `val` forces the flags back
    to all and asks the driver to raise the brightness.
  */
  function ToggleMatrix(flags: bv8, pressed: bool, val: uint8): (r: (bv8, DriverCalls))
    ensures val == 0 ==> r.0 == FlagAll && r.1.raiseVal
    ensures val != 0 && pressed ==> (r.0 == FlagNone <==> flags == FlagAll) && (r.0 == FlagAll <==> flags != FlagAll)
    ensures val != 0 && !pressed ==> r.0 == flags && !r.1.raiseVal
    ensures r.1.blankAll <==> pressed && flags == FlagAll
    ensures r.1.raiseVal <==> val == 0
  {
    var flags' := if !pressed then flags else if flags == FlagAll then FlagNone else FlagAll;
    var blank := pressed && flags == FlagAll;
    if val == 0 then (FlagAll, DriverCalls(blank, true)) else (flags', DriverCalls(blank, false))
  }

  /**
    process_record_kb: the user hook runs first and can stop processing;
    then the OS-switch key and the matrix toggle are handled here and stop
    processing, and every other key continues to the framework.
  */
  function ProcessRecord(s: State, key: Keycode, pressed: bool, userContinue: bool, now: uint32, val: uint8): (r: Handled)
    ensures !userContinue ==> !r.cont && r.next == s && r.calls == DriverCalls(false, false)
    ensures userContinue && key.Other? ==> r.cont && r.next == s && r.calls == DriverCalls(false, false)
    ensures userContinue && key == OsSwitch ==> !r.cont && r.calls == DriverCalls(false, false)
    ensures userContinue && key == OsSwitch && pressed ==> r.next == Switch(s, now)
    ensures userContinue && key == OsSwitch && !pressed ==> r.next == s
    ensures userContinue && key == MatrixToggle ==>
      !r.cont && r.next == s.(flags := ToggleMatrix(s.flags, pressed, val).0) &&
      r.calls == ToggleMatrix(s.flags, pressed, val).1
  {
    if !userContinue then Handled(s, false, DriverCalls(false, false))
    else match key
      case MatrixToggle =>
        var (flags, calls) := ToggleMatrix(s.flags, pressed, val);
        Handled(s.(flags := flags), false, calls)
      case OsSwitch =>
        Handled(if pressed then Switch(s, now) else s, false, DriverCalls(false, false))
      case Other(_) => Handled(s, true, DriverCalls(false, false))
  }

  /**
    The frame the indicator overlay paints while a blink sequence shows:
    nothing while the counter is 0, all off on an odd count, all full on
    an even one.
  */
  function Overlay(count: uint8): (r: Option<Frame>)
    ensures r == None <==> count == 0
    ensures r == Some(AllOff) <==> count % 2 == 1
    ensures r == Some(AllFull) <==> count != 0 && count % 2 == 0
  {
    if count == 0 then None
    else if count % 2 == 1 then Some(AllOff)
    else Some(AllFull)
  }

  /** suspend_power_down_kb: both pins off, nothing else changes. */
  function Suspend(s: State, on: bool): (r: State)
    ensures Dark(r, on)
    ensures r == s.(mac := r.mac, win := r.win)
  {
    s.(mac := !on, win := !on)
  }

  /**
    A run of housekeeping ticks at the clock readings `nows`, in order.
    No tick touches the layer, the stored mask or the matrix flags; the
    blink counter stays within 0..6; the latch, once set, stays set and
    keeps the pins dark.
  */
  function Run(s: State, nows: seq<uint32>, on: bool): (r: State)
    ensures r.layer == s.layer && r.stored == s.stored && r.flags == s.flags
    ensures s.blinkCount <= BlinkLast + 1 ==> r.blinkCount <= BlinkLast + 1
    ensures s.suppressed ==> r.suppressed
    ensures nows != [] && r.suppressed ==> Dark(r, on)
    decreases |nows|
  {
    if nows == [] then s else Run(Housekeeping(s, nows[0], on), nows[1..], on)
  }
}
