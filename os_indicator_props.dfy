/**
  Properties of the OS-mode indicator that relate several callbacks: a
  press followed by ticks, two presses, a power cycle, a whole blink
  sequence.
*/
module OsIndicatorProps {
  import opened Timer
  import opened OsIndicator

  /** Two OS-switch presses restore the original default layer. */
  lemma SwitchTwiceRestoresLayer(s: State, t1: uint32, t2: uint32)
    ensures Switch(Switch(s, t1), t2).layer == s.layer
    ensures Switch(Switch(s, t1), t2).stored == s.layer
  {
  }

  /**
    A press leaves persistent storage holding the new layer, so a power
    cycle followed by post-init restores it; the only mask the press can
    leave that post-init would not restore is 0, reached only from the
    mask 0b101 (both OS bits and no other bit).
  */
  lemma PowerCycleRestoresLayer(s: State, now: uint32, mac: bool, win: bool, flags: bv8, on: bool)
    ensures var pressed := Switch(s, now);
      var booted := PostInit(Boot(pressed.stored, mac, win, flags), on);
      (booted.layer == pressed.layer <==> s.layer != (MacLayer | WinLayer)) &&
      (s.layer == (MacLayer | WinLayer) ==> booted.layer == WinLayer)
  {
  }

  /**
    Starting with blank storage, post-init selects the WIN layer, and the
    first tick lights the WIN pin: the tick that starts the window cannot
    suppress the pins.
  */
  lemma BlankStorageShowsWin(mac: bool, win: bool, flags: bv8, now: uint32, on: bool)
    ensures var r := Housekeeping(PostInit(Boot(0, mac, win, flags), on), now, on);
      r.layer == WinLayer && !r.suppressed && ShowsWin(r, on) && r.windowTimer == now
  {
  }

  /** Every tick reading lies within the window that started at `start`. */
  ghost predicate WithinWindow(start: uint32, nows: seq<uint32>) {
    forall i | 0 <= i < |nows| :: Elapsed(nows[i], start) <= DisableTime
  }

  /**
    While the window that started at a nonzero time has not run out, no
    tick suppresses the pins, and after any tick they show the layer.
  */
  lemma {:induction false} LitThroughoutWindow(s: State, nows: seq<uint32>, on: bool)
    requires s.windowTimer != 0 && !s.suppressed
    requires WithinWindow(s.windowTimer, nows)
    ensures !Run(s, nows, on).suppressed
    ensures Run(s, nows, on).windowTimer == s.windowTimer
    ensures nows != [] && s.layer == MacLayer ==> ShowsMac(Run(s, nows, on), on)
    ensures nows != [] && s.layer == WinLayer ==> ShowsWin(Run(s, nows, on), on)
    decreases |nows|
  {
    if nows != [] {
      var next := Housekeeping(s, nows[0], on);
      assert Elapsed(nows[0], s.windowTimer) <= DisableTime;
      assert WithinWindow(next.windowTimer, nows[1..]) by {
        forall i | 0 <= i < |nows[1..]| ensures Elapsed(nows[1..][i], s.windowTimer) <= DisableTime {
          assert nows[1..][i] == nows[i + 1];
        }
      }
      LitThroughoutWindow(next, nows[1..], on);
    }
  }

  /**
    Once a tick finds strictly more than the window's length elapsed, the
    pins go dark and stay dark for every later tick.
  */
  lemma DarkOnceWindowEnds(s: State, nows: seq<uint32>, on: bool)
    requires s.windowTimer != 0 && nows != []
    requires Elapsed(nows[0], s.windowTimer) > DisableTime
    ensures Run(s, nows, on).suppressed && Dark(Run(s, nows, on), on)
  {
  }

  /**
    An OS-switch press at a nonzero clock reading, from either OS layer,
    makes every tick of the following window show the other layer.
  */
  lemma SwitchShowsOtherLayer(s: State, now: uint32, nows: seq<uint32>, on: bool)
    requires now != 0 && nows != []
    requires WithinWindow(now, nows)
    ensures s.layer == MacLayer ==> ShowsWin(Run(Switch(s, now), nows, on), on)
    ensures s.layer == WinLayer ==> ShowsMac(Run(Switch(s, now), nows, on), on)
  {
    LitThroughoutWindow(Switch(s, now), nows, on);
  }

  /**
    Each reading is a due blink step after the previous one: strictly more
    than the blink period after it, and nonzero except possibly the last
    (a step at reading 0 would leave the sequence unset).
  */
  ghost predicate Paced(prev: uint32, nows: seq<uint32>)
    decreases |nows|
  {
    nows == [] ||
    (Elapsed(nows[0], prev) > BlinkPeriod && (|nows| > 1 ==> nows[0] != 0) && Paced(nows[0], nows[1..]))
  }

  /**
    A running blink sequence at count k, given 7 - k paced ticks, counts
    up by one per tick through 6 and then ends: counter and timer both 0.
  */
  lemma {:induction false} BlinkSequenceEnds(s: State, nows: seq<uint32>, on: bool)
    requires s.blinkTimer != 0 && s.blinkCount <= BlinkLast + 1
    requires |nows| == 7 - s.blinkCount as int
    requires Paced(s.blinkTimer, nows)
    ensures forall i | 0 < i < |nows| :: Run(s, nows[..i], on).blinkCount as int == s.blinkCount as int + i
    ensures Run(s, nows, on).blinkCount == 0 && Run(s, nows, on).blinkTimer == 0
    decreases |nows|
  {
    var next := Housekeeping(s, nows[0], on);
    assert BlinkDue(s, nows[0]);
    if s.blinkCount == BlinkLast + 1 {
      assert nows[1..] == [];
    } else {
      assert next.blinkCount == s.blinkCount + 1 && next.blinkTimer == nows[0] != 0;
      BlinkSequenceEnds(next, nows[1..], on);
      forall i | 0 < i < |nows| ensures Run(s, nows[..i], on).blinkCount as int == s.blinkCount as int + i {
        assert nows[..i][0] == nows[0];
        assert nows[..i][1..] == nows[1..][..i - 1];
        if i > 1 {
          assert Run(s, nows[..i], on) == Run(next, nows[1..][..i - 1], on);
        } else {
          assert Run(s, nows[..i], on) == Run(next, [], on);
        }
      }
    }
  }

  /**
    After a press at a nonzero reading with no sequence running, seven
    paced ticks show the overlay frames off, full, off, full, off, full
    (six toggles) and then nothing.
  */
  lemma PressBlinksSixTimes(s: State, now: uint32, nows: seq<uint32>, on: bool)
    requires now != 0 && s.blinkCount == 0
    requires |nows| == 7 && Paced(now, nows)
    ensures forall i | 0 < i < 7 ::
              Overlay(Run(Switch(s, now), nows[..i], on).blinkCount) == Some(if i % 2 == 1 then AllOff else AllFull)
    ensures Overlay(Run(Switch(s, now), nows, on).blinkCount) == None
  {
    BlinkSequenceEnds(Switch(s, now), nows, on);
  }

  /**
    The 0-as-unset convention of the blink timer: a due step taken at
    clock reading 0 in mid-sequence leaves a nonzero count with an unset
    timer, and from then on no tick changes the count, so the overlay
    keeps painting the same frame until the next OS-switch press.
  */
  lemma {:induction false} BlinkFreezesAtReadingZero(s: State, nows: seq<uint32>, on: bool)
    requires BlinkDue(s, 0) && s.blinkCount <= BlinkLast
    ensures var frozen := Housekeeping(s, 0, on);
      frozen.blinkCount != 0 && frozen.blinkTimer == 0 &&
      Run(frozen, nows, on).blinkCount == frozen.blinkCount &&
      Overlay(Run(frozen, nows, on).blinkCount) == Overlay(s.blinkCount + 1)
  {
    StaysIdle(Housekeeping(s, 0, on), nows, on);
  }

  /**
    The 0-as-unset convention at a press: a press at clock reading 0 leaves
    both timers unset, so no blink sequence starts (no run of ticks moves
    the counter), and the window starts afresh at the next tick, which
    therefore cannot suppress the pins.
  */
  lemma PressAtZeroNoBlink(s: State, t: uint32, nows: seq<uint32>, on: bool)
    ensures Switch(s, 0).blinkTimer == 0 && Switch(s, 0).windowTimer == 0
    ensures Run(Switch(s, 0), nows, on).blinkCount == s.blinkCount
    ensures Housekeeping(Switch(s, 0), t, on).windowTimer == t && !Housekeeping(Switch(s, 0), t, on).suppressed
  {
    StaysIdle(Switch(s, 0), nows, on);
  }

  /** With the blink timer unset, no tick moves the blink counter. */
  lemma {:induction false} StaysIdle(s: State, nows: seq<uint32>, on: bool)
    requires s.blinkTimer == 0
    ensures Run(s, nows, on).blinkCount == s.blinkCount && Run(s, nows, on).blinkTimer == 0
    decreases |nows|
  {
    if nows != [] {
      StaysIdle(Housekeeping(s, nows[0], on), nows[1..], on);
    }
  }

  /** Consecutive counts of a running sequence paint opposite frames. */
  lemma OverlayAlternates(count: uint8)
    requires 0 < count < BlinkLast + 1
    ensures Overlay(count) != None && Overlay(count + 1) != None
    ensures Overlay(count) != Overlay(count + 1)
  {
  }

  /** A matrix toggle pressed twice from all-enabled flags returns to
      all-enabled, at any brightness. */
  lemma MatrixToggleTwice(val: uint8)
    ensures ToggleMatrix(ToggleMatrix(FlagAll, true, val).0, true, val).0 == FlagAll
  {
  }
}
