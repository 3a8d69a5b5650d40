/**
  The keyboard-level callbacks of the Keychron C3 Pro as the firmware runs
  them: one object holds the module statics, the default-layer state, the
  persistent-storage copies and the pin levels, and each callback updates
  them in place. Every callback except EeconfigInit is proved to perform
  exactly the transition its pure counterpart in OsIndicator describes;
  EeconfigInit states its effect on the stored configuration directly.

  The framework's clock is not read here: each callback that needs the
  time takes one reading `now` as a parameter. The user-level hooks the
  callbacks chain to are parameters too (their boolean verdicts) or do
  nothing.
*/
module C3Pro {
  import opened Timer
  import opened OsIndicator

  /** The persisted keymap configuration: the N-key-rollover flag and the
      other option bits, kept opaque. */
  datatype KeymapConfig = KeymapConfig(nkro: bool, otherBits: bv16)

  class Keyboard {
    /** The pin level that lights an indicator LED. */
    const onLevel: bool
    /** Size of the keyboard-specific block of persistent storage. */
    const kbDataSize: nat

    /** Start of the current blink step; 0 means no blink sequence runs. */
    var blinkTimer: uint32
    /** Blink steps taken in the current sequence. */
    var blinkCount: uint8
    /** Start of the steady-lit window; 0 means not yet started. */
    var windowTimer: uint32
    /** Latch that keeps both indicator pins off. */
    var suppressed: bool
    /** The in-memory default-layer mask. */
    var layer: bv32
    /** The default-layer mask in persistent storage. */
    var storedLayer: bv32
    /** Levels of the MAC and WIN indicator pins. */
    var macPin: bool
    var winPin: bool
    /** Flags of the LED/RGB matrix. */
    var matrixFlags: bv8
    /** The in-memory keymap configuration and its persisted copy. */
    var keymap: KeymapConfig
    var storedKeymap: KeymapConfig
    /** The keyboard-specific word of persistent storage. */
    var kbData: uint32

    /** The OS-indicator part of the object as a value. */
    ghost function Snapshot(): State
      reads this
    {
      State(blinkTimer, blinkCount, windowTimer, suppressed, layer, storedLayer, macPin, winPin, matrixFlags)
    }

    /**
      Power-on: the statics start at zero and the default layer is empty;
      persistent storage and the pins hold what they held.
    */
    constructor (onLevel: bool, kbDataSize: nat, storedLayer: bv32, storedKeymap: KeymapConfig, kbData: uint32,
                 keymap: KeymapConfig, mac: bool, win: bool, flags: bv8)
      ensures Snapshot() == Boot(storedLayer, mac, win, flags)
      ensures this.onLevel == onLevel && this.kbDataSize == kbDataSize
      ensures this.keymap == keymap && this.storedKeymap == storedKeymap && this.kbData == kbData
    {
      this.onLevel := onLevel;
      this.kbDataSize := kbDataSize;
      blinkTimer, blinkCount, windowTimer, suppressed := 0, 0, 0, false;
      layer := 0;
      this.storedLayer := storedLayer;
      macPin, winPin := mac, win;
      matrixFlags := flags;
      this.keymap, this.storedKeymap, this.kbData := keymap, storedKeymap, kbData;
    }

    /** keyboard_post_init_kb: both pins off, then the default layer from
        storage or, when storage holds 0, the WIN layer. */
    method PostInit()
      modifies this`macPin, this`winPin, this`layer
      ensures Snapshot() == OsIndicator.PostInit(old(Snapshot()), onLevel)
      ensures layer != 0
    {
      macPin := !onLevel;
      winPin := !onLevel;
      var lastLayer := storedLayer;
      if lastLayer != 0 {
        layer := lastLayer;
      } else {
        layer := WinLayer;
      }
    }

    /**
      eeconfig_init_kb: blank the keyboard-specific word when the build
      reserves no keyboard block, then read the keymap configuration back,
      set N-key rollover and persist it.
    */
    method EeconfigInit()
      modifies this`kbData, this`keymap, this`storedKeymap
      ensures kbDataSize == 0 ==> kbData == 0
      ensures kbDataSize != 0 ==> kbData == old(kbData)
      ensures keymap == storedKeymap == old(storedKeymap).(nkro := true)
    {
      if kbDataSize == 0 {
        kbData := 0;
      }
      keymap := storedKeymap;
      keymap := keymap.(nkro := true);
      storedKeymap := keymap;
    }

    /** housekeeping_task_kb, one tick at clock reading `now`. */
    method Housekeeping(now: uint32)
      modifies this`windowTimer, this`suppressed, this`macPin, this`winPin, this`blinkTimer, this`blinkCount
      ensures Snapshot() == OsIndicator.Housekeeping(old(Snapshot()), now, onLevel)
    {
      if windowTimer == 0 {
        windowTimer := now;
      }

      if !suppressed && Elapsed(now, windowTimer) > DisableTime {
        suppressed := true;
      }

      if !suppressed {
        if layer == MacLayer {
          macPin := onLevel;
          winPin := !onLevel;
        }
        if layer == WinLayer {
          macPin := !onLevel;
          winPin := onLevel;
        }
      } else {
        macPin := !onLevel;
        winPin := !onLevel;
      }

      if blinkTimer != 0 && Elapsed(now, blinkTimer) > BlinkPeriod {
        var previous := blinkCount;
        if previous > BlinkLast {
          blinkCount := 0;
          blinkTimer := 0;
        } else {
          blinkCount := previous + 1;
          blinkTimer := now;
        }
      }
    }

    /**
      process_record_kb for one event of `key` (`pressed` tells press from
      release); `userContinue` is the verdict of the user-level handler,
      `now` the clock reading and `val` the matrix brightness. Returns
      whether the framework should go on processing the key, and the
      requests made of the matrix driver.
    */
    method ProcessRecord(key: Keycode, pressed: bool, userContinue: bool, now: uint32, val: uint8)
      returns (cont: bool, calls: DriverCalls)
      modifies this`layer, this`storedLayer, this`blinkTimer, this`windowTimer, this`suppressed, this`matrixFlags
      ensures var h := OsIndicator.ProcessRecord(old(Snapshot()), key, pressed, userContinue, now, val);
        Snapshot() == h.next && cont == h.cont && calls == h.calls
    {
      calls := DriverCalls(false, false);
      if !userContinue {
        return false, calls;
      }

      match key {
        case MatrixToggle =>
          var blank := false;
          if pressed {
            if matrixFlags == FlagAll {
              matrixFlags := FlagNone;
              blank := true;
            } else {
              matrixFlags := FlagAll;
            }
          }
          var raise := false;
          if val == 0 {
            matrixFlags := FlagAll;
            raise := true;
          }
          return false, DriverCalls(blank, raise);
        case OsSwitch =>
          if pressed {
            layer := layer ^ MacLayer;
            layer := layer ^ WinLayer;
            storedLayer := layer;
            blinkTimer := now;
            windowTimer := now;
            suppressed := false;
          }
          return false, calls;
        case Other(_) =>
          return true, calls;
      }
    }

    /**
      led_matrix_indicators_kb / rgb_matrix_indicators_kb: unless the
      user-level hook stops it, paint the blink frame over the whole matrix
      while a blink sequence shows, and let lower-priority indicators run.
    */
    method MatrixIndicators(userContinue: bool) returns (cont: bool, frame: Option<Frame>)
      ensures cont == userContinue
      ensures !userContinue ==> frame == None
      ensures userContinue ==> frame == Overlay(blinkCount)
    {
      if !userContinue {
        return false, None;
      }
      frame := None;
      if blinkCount != 0 {
        frame := Some(if blinkCount % 2 == 1 then AllOff else AllFull);
      }
      return true, frame;
    }

    /** suspend_power_down_kb: both indicator pins off. */
    method SuspendPowerDown()
      modifies this`macPin, this`winPin
      ensures Snapshot() == Suspend(old(Snapshot()), onLevel)
    {
      winPin := !onLevel;
      macPin := !onLevel;
    }
  }
}
