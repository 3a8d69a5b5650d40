# Keychron C3 Pro OS-mode indicator and layer switcher, in Dafny

This project models the keyboard-level callbacks of the Keychron C3 Pro
firmware (`keyboards/keychron/c3_pro/c3_pro.c`). The keyboard has two
default layers, one for macOS and one for Windows, and two indicator LEDs,
the MAC pin and the WIN pin. A dedicated OS-switch key (`KC_OSSW`) flips
between the two layers and saves the choice in persistent storage. After a
switch the indicator of the active layer stays lit for a 2000 ms window and
is then suppressed. The whole LED matrix also flashes off and on, one step
at a time, each strictly more than 300 ms after the last, six times.

The model has four modules:

- `Timer` (`timer.dfy`): 32-bit, 16-bit and 8-bit unsigned integers and `Elapsed`.
  `Elapsed` measures time on the wrapping millisecond clock.
- `OsIndicator` (`os_indicator.dfy`): the state the callbacks touch, as a
  datatype. Each callback is a pure transition function whose contract
  states what the callback does.
- `OsIndicatorProps` (`os_indicator_props.dfy`): properties that span
  several callbacks. They cover the steady-lit window, the six-step blink
  sequence, two presses, a power cycle and start-up with blank storage.
- `C3Pro` (`c3_pro.dfy`): the class `Keyboard`. Its fields are the module
  statics, the default-layer mask, the persisted copies and the pin levels.
  Its methods update those fields in place, as the C code does. Each
  method other than `EeconfigInit` is proved to perform the transition of
  its `OsIndicator` counterpart; `EeconfigInit` states its effect on the
  stored configuration directly.

Inputs the firmware gets from elsewhere become parameters:

- the clock reading `now`, one per callback;
- the verdicts of the user-level hooks;
- the matrix brightness `val`;
- the pin polarity `onLevel`, which is `LED_OS_PIN_ON_STATE` from the board header.

Some behaviours of the code worth stating outright:

- Layer mask `1<<0` lights the MAC pin and layer mask `1<<2` lights the WIN
  pin. Post-init falls back to `1<<2`, so a keyboard booting with blank
  storage lights the WIN pin (`BlankStorageShowsWin`).
- A tick that is not suppressed, with a layer mask that is neither `1<<0`
  nor `1<<2`, leaves both pins as they were; it does not turn them off.
- The pins are suppressed only once strictly more than 2000 ms have
  elapsed. At exactly 2000 ms they are still lit.
- An OS-switch press re-arms the blink timer but does not reset the blink
  counter. A press during a running sequence continues it from the current count.

The blink timer and the window timer use 0 to mean "not set". A clock
reading of 0 therefore has two side effects:

- A blink step that falls exactly on reading 0 leaves a nonzero count with
  an unset timer. The overlay then keeps painting one frame until the next
  OS-switch press (`BlinkFreezesAtReadingZero`).
- An OS-switch press at reading 0 leaves both timers unset. No blink
  sequence starts, and the steady-lit window starts at the next tick
  instead of at the press (`PressAtZeroNoBlink`).

## Model

| member | source | states |
|---|---|---|
| `Timer.Elapsed` | keyboards/keychron/c3_pro/c3_pro.c:58 | the elapsed time is the unique 32-bit duration that, added to the start modulo 2^32, gives the current reading; it is plain subtraction when no wrap occurred and 0 exactly when the readings are equal |
| `OsIndicator.Boot` | keyboards/keychron/c3_pro/c3_pro.c:19-23 | at power-on both timers, the counter and the latch are zero and the in-memory default layer is empty, while storage keeps its mask |
| `OsIndicator.PostInit` | keyboards/keychron/c3_pro/c3_pro.c:25-39 | post-init drives both pins off and selects the stored mask when it is nonzero, else `1<<2`, so the layer is nonzero afterwards; nothing else changes |
| `OsIndicator.Housekeeping` | keyboards/keychron/c3_pro/c3_pro.c:53-86 | one tick: a zero window start becomes `now`, so that tick cannot suppress; the latch is never cleared and is set exactly when strictly more than 2000 ms have elapsed since the window start; suppressed pins are dark; `1<<0` shows MAC and `1<<2` shows WIN; any other mask leaves the pins unchanged; the counter and blink timer change only when the timer is set and strictly more than 300 ms have elapsed, and then either rise by one with the timer at `now` or, when the count is above 5, both become 0; a count of at most 6 stays at most 6; the layer, stored mask and matrix flags are untouched |
| `OsIndicator.Switch` | keyboards/keychron/c3_pro/c3_pro.c:132-140 | an OS-switch press XORs the layer with `0b101`, swapping `1<<0` and `1<<2` and keeping "exactly one OS bit set"; storage holds the new layer; both timers become `now`; the latch is cleared; counter, pins and flags are untouched |
| `OsIndicator.ToggleMatrix` | keyboards/keychron/c3_pro/c3_pro.c:94-131 | on a press, all-enabled flags become none (and the matrix is blanked) and any other flags become all; a release keeps the flags; with brightness 0 the flags end as all; the brightness is raised exactly when it is 0 |
| `OsIndicator.ProcessRecord` | keyboards/keychron/c3_pro/c3_pro.c:88-145 | a user handler that stops processing makes the key handler return false with no change; the OS-switch key returns false on press and release, switching on a press and changing nothing on a release; the matrix toggle returns false and changes only the flags; every other key returns true with no change |
| `OsIndicator.Overlay` | keyboards/keychron/c3_pro/c3_pro.c:153-154 | no frame while the counter is 0; all-off on an odd count; all-full on a nonzero even count |
| `OsIndicator.Suspend` | keyboards/keychron/c3_pro/c3_pro.c:172-176 | suspend leaves both pins dark and changes nothing else |
| `OsIndicator.Run` | keyboards/keychron/c3_pro/c3_pro.c:53-86 | any run of ticks keeps the layer, stored mask and flags; keeps the counter at most 6 if it started at most 6; never clears the latch; and once the latch is set, the pins are dark |
| `OsIndicatorProps.SwitchTwiceRestoresLayer` | keyboards/keychron/c3_pro/c3_pro.c:134-136 | two OS-switch presses restore the original layer, and storage then holds it |
| `OsIndicatorProps.PowerCycleRestoresLayer` | keyboards/keychron/c3_pro/c3_pro.c:31-36 | after a press, a power cycle and post-init restore the switched layer, except when the layer is exactly `0b101` (both OS bits and no other bit); only then does the press store 0, and post-init falls back to `1<<2` |
| `OsIndicatorProps.BlankStorageShowsWin` | keyboards/keychron/c3_pro/c3_pro.c:31-36 | with blank storage, post-init and the first tick select `1<<2` and light the WIN pin with the latch clear, at any clock reading |
| `OsIndicatorProps.LitThroughoutWindow` | keyboards/keychron/c3_pro/c3_pro.c:54-74 | while every tick is at most 2000 ms after a nonzero window start, the latch stays clear, the window start is kept and the pins show the layer |
| `OsIndicatorProps.DarkOnceWindowEnds` | keyboards/keychron/c3_pro/c3_pro.c:58-60 | the first tick strictly more than 2000 ms after the window start sets the latch, and every later tick leaves the pins dark |
| `OsIndicatorProps.SwitchShowsOtherLayer` | keyboards/keychron/c3_pro/c3_pro.c:132-139 | after a press at a nonzero reading, every tick within the next 2000 ms shows the other OS layer on the pins |
| `OsIndicatorProps.BlinkSequenceEnds` | keyboards/keychron/c3_pro/c3_pro.c:76-83 | a running sequence at count k, given 7 - k due ticks, counts up by one per tick to 6 and then ends with counter and timer both 0 |
| `OsIndicatorProps.PressBlinksSixTimes` | keyboards/keychron/c3_pro/c3_pro.c:137 | after a press at a nonzero clock reading from a state with blink count 0, seven due ticks show off, full, off, full, off, full and then no frame |
| `OsIndicatorProps.BlinkFreezesAtReadingZero` | keyboards/keychron/c3_pro/c3_pro.c:81 | a due blink step at clock reading 0 leaves a nonzero count and an unset timer; no later tick moves the count, so the overlay keeps its frame |
| `OsIndicatorProps.PressAtZeroNoBlink` | keyboards/keychron/c3_pro/c3_pro.c:137-138 | a press at clock reading 0 leaves both timers unset; no later run of ticks moves the blink counter; the next tick starts the window at its own reading and does not suppress |
| `OsIndicatorProps.StaysIdle` | keyboards/keychron/c3_pro/c3_pro.c:76 | with the blink timer unset, no run of ticks moves the counter or sets the timer |
| `OsIndicatorProps.OverlayAlternates` | keyboards/keychron/c3_pro/c3_pro.c:153-154 | consecutive counts 1..6 paint opposite frames |
| `OsIndicatorProps.MatrixToggleTwice` | keyboards/keychron/c3_pro/c3_pro.c:97-105 | at any brightness, two presses of the matrix toggle from all-enabled flags return to all-enabled |
| `C3Pro.Keyboard.constructor` | keyboards/keychron/c3_pro/c3_pro.c:19-23 | the object starts in the power-on state `Boot` |
| `C3Pro.Keyboard.PostInit` | keyboards/keychron/c3_pro/c3_pro.c:25-39 | updates the fields in place exactly as `OsIndicator.PostInit` |
| `C3Pro.Keyboard.EeconfigInit` | keyboards/keychron/c3_pro/c3_pro.c:41-51 | with no keyboard block, the keyboard word of storage becomes 0, otherwise it is kept; the in-memory and persisted keymap configuration both become the stored one with N-key rollover set |
| `C3Pro.Keyboard.Housekeeping` | keyboards/keychron/c3_pro/c3_pro.c:53-86 | updates the fields in place exactly as `OsIndicator.Housekeeping` |
| `C3Pro.Keyboard.ProcessRecord` | keyboards/keychron/c3_pro/c3_pro.c:88-145 | updates the fields and returns the verdict and driver requests exactly as `OsIndicator.ProcessRecord` |
| `C3Pro.Keyboard.MatrixIndicators` | keyboards/keychron/c3_pro/c3_pro.c:147-170 | returns the user hook's verdict; paints nothing when that verdict is false; otherwise paints `Overlay` of the counter |
| `C3Pro.Keyboard.SuspendPowerDown` | keyboards/keychron/c3_pro/c3_pro.c:172-176 | updates the fields in place exactly as `OsIndicator.Suspend` |

## Left out

- Pin configuration (`setPinOutputPushPull`) is left out. A pin is modelled only by the level last written to it.
- The user-level hooks are left out. `keyboard_post_init_user`, `eeconfig_init_user`, `housekeeping_task_user` and `suspend_power_down_user` do nothing here. The verdicts of `process_record_user` and of the indicator hooks are boolean parameters.
- The clock is not modelled as a device. The C code reads it several times within one callback. The model takes one reading `now` per callback, so all reads within a callback are assumed equal.
- `default_layer_set` and `default_layer_xor` are modelled as plain assignments to a 32-bit mask. A framework hook that rewrites the default-layer state is not part of this model.
- Persistent storage of the default layer is modelled as one 32-bit field. It is written only by an OS-switch press, which also sets the in-memory layer to the same mask; post-init sets the in-memory layer without writing storage. Storage width is the framework's and is not part of this model.
- The LED matrix and RGB matrix builds are collapsed into one matrix. `BL_TOGG` and `RGB_TOG` become one toggle key. The "full" frame stands for `UINT8_MAX` on the LED matrix and `RGB_RED` on the RGB matrix. A build with neither matrix, where these keys fall through to the default branch, is not modelled.
- `OsIndicator.ToggleMatrix`: the matrix driver's brightness is an input, and the model does not track its value. Blanking the matrix and the brightness step are returned as requests (`DriverCalls`); the contract states when each is made, and what the driver then does is not modelled. `LED_FLAG_ALL` and `LED_FLAG_NONE` take the framework's values 0xFF and 0x00.
- `C3Pro.Keyboard.EeconfigInit`: the bit layout of the keymap configuration is the framework's. The model keeps the N-key-rollover flag and treats the other bits as opaque.
- The framework's dispatch loop, USB/HID and matrix scanning are out of scope.
