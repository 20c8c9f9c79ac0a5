# Klingelanlage poll-loop bookkeeping, in Dafny

A model of the state-keeping core of the Klingelanlage doorbell controller. This
is an Arduino board that watches five door buttons and drives a door-strike relay
and two breathing indicator LEDs. The core is the set of small routines in
`utility.h` that the main loop calls on every pass. They act on two globals:

- an application flag byte. Its bits are read and written with `bGetState` and
  `SetState`. `STATE_KLINGEL_ROUTINE` is bit 2 and `STATE_KLINGEL_PUSHED` is
  bit 4. `bitRead`/`bitSet` take these constants as bit positions, not as masks.
- the timer record `structTimings` (`Klingelanlage.h:59-64`). It holds three
  32-bit millisecond counters and a running-mask byte `bytState`. The counters
  are `u_lngLaufzeit` (uptime), `u_lngLeuchtdauer` (lamp duration, timer id 1)
  and `u_lngEntpreller` (debounce, timer id 2).

The modules:

- `StateBits` (`state_bits.dfy`) holds `bGetState` as `GetState`. It also holds
  `SetState` as a method on a `StateByte` object, which stands for the byte the
  source's `uint8_t *` points to. `WithBit` is the value `SetState` leaves behind.
- `Timings` (`timings.dfy`) models the globals as a value `State`: flags, mask,
  and a sequence of three counters indexed by timer id. It defines what
  `TimerControl`, `ResetRoutine` and `UpdateTimings` do to that value. It also
  runs sequences of those calls (`Event`s) from boot.
- `Board` (`board.dfy`) has the class `Controller`. Its fields are the two state
  bytes and a three-element counter array, and its methods update them in place
  as the source does. `Snap()` reads the fields into a `State` value. Each
  method is proved to turn `Snap()` into exactly the result of its `Timings`
  function.
- `Lamp` (`lamp.dfy`) holds `bButtonPushed` and the mode choice of
  `LeuchtRoutine`.

The code is modelled as written, quirks included:

- `TimerControl` never changes the running mask. Its start branch sets the bit
  only when it is already set. Its stop branch clears the bit only when it is
  already clear, and only then zeroes the counter.
- In `UpdateTimings` the per-timer loop `for (i = 0; i >= 7; i++)` never
  iterates. Only the uptime counter moves. `x + (now - x)` wraps modulo 2^32, so
  the uptime counter becomes exactly `now`.
- The reset threshold is `0xFFA0` ms, about 65 s. The reset is requested before
  any timer arithmetic.

Because the first two quirks are evidently bugs (see "## Findings"), `Timings`
and `Board` also carry corrected versions with the intended behaviour proved:

- `TimerControlIntended` / `TimerControlFixed`
- `TickIntended` / `UpdateTimingsFixed`

Counters are `uint32`, a subset of `int` with explicit wrap-around (`Add32`,
`Sub32`). `millis()` becomes a parameter `now`. `ResetFunc()` becomes a returned
"reset requested" flag. In runs of events, that flag restarts the globals at
`Boot`.

Where the code and its own comments disagree, the model follows the code:

- The parameter doc of `TimerControl` (utility.h:132) says `true` starts the
  timer. As written, a call with `true` never starts a stopped timer.
- The comment above the loop in `UpdateTimings` (utility.h:114) says all timers
  are updated as needed. As written, the loop never runs, so only the uptime
  counter advances.
- The comment above the overflow check (utility.h:106) says the overflow comes
  every few days. The threshold at utility.h:107 is `0xFFA0` ms, about 65 s.

Names the source uses but does not define in its headers are read as follows:

- `STATE_TIMER_LEUCHTDAUER` and `STATE_TIMER_ENTPRELLER` are read as the timer
  ids 1 and 2 (`TIMER_LEUCHTDAUER`, `TIMER_ENTPRELLER`).
- `ADRESS_STATES_GENERIC` is read as the application flag byte.
- `ADRESS_STATES_TIMER` is read as the record's `bytState`.

The sketch file that defines them is not part of this model.

## Model

| member | source | states |
|---|---|---|
| `StateBits.GetState` | utility.h:11-14 | bit `pos` of the byte, read by shift-and-mask, is set exactly when the byte has the single-bit mask for `pos` set; reading changes nothing |
| `StateBits.Mask` | utility.h:27-31 | the single-bit byte `bitSet`/`bitClear` use for position `pos` is `1 << pos` |
| `StateBits.WithBit` | utility.h:23-34 | after setting or clearing, bit `pos` equals the requested value and every other bit equals its old value |
| `StateBits.SetState` | utility.h:23-34 | updates the pointed-to byte in place to `WithBit` of its old value: bit `pos` becomes `b`, other bits unchanged |
| `StateBits.BitsDetermineByte` | utility.h:11-14 | two bytes on which `bGetState` agrees at all eight positions are equal |
| `StateBits.WithBitUnique` | utility.h:23-34 | `SetState`'s result is the only byte with bit `pos` = `b` and all other bits as before |
| `StateBits.WithOwnBit` | utility.h:23-34 | setting a bit to the value it already has leaves the byte unchanged |
| `StateBits.WithBitIdempotent` | utility.h:23-34 | repeating a `SetState` call is a no-op |
| `Timings.Add32` | Klingelanlage.h:60-62 | unsigned long addition is addition modulo 2^32 |
| `Timings.Sub32` | utility.h:112 | unsigned long subtraction is subtraction modulo 2^32 |
| `Timings.TimerControlAsWritten` | utility.h:134-154 | as written: flags and running mask never change; counters other than `id` are untouched; counter `id` becomes 0 exactly when stopping a timer whose bit is clear |
| `Timings.AsWrittenStartFromBoot` | utility.h:136-141 | as written, starting the lamp timer at boot leaves it stopped, while the intended code starts it |
| `Timings.TimerControlIntended` | utility.h:134-154 | corrected: afterwards the running bit of `id` equals `start`; other bits, flags and other counters are unchanged; the counter is zeroed exactly when a running timer is stopped; a call in the already-requested state is a no-op |
| `Timings.StopAfterStart` | utility.h:143-152 | corrected: stop after start leaves the timer's bit clear and its counter 0, other counters and flags untouched |
| `Timings.ControlIdempotent` | utility.h:134-154 | corrected: starting twice equals starting once, stopping twice equals stopping once |
| `Timings.Reset` | utility.h:81-89 | lamp and debounce bits and the KLINGEL_PUSHED and KLINGEL_ROUTINE flags are clear, other bits unchanged; counters become [uptime, 0, 0] |
| `Timings.ResetIdempotent` | utility.h:81-89 | calling ResetRoutine twice equals calling it once |
| `Timings.CatchUp` | utility.h:111-113 | adding `now - x` to `x` modulo 2^32 yields `now` for every `x` and `now` |
| `Timings.AdvanceUptime` | utility.h:111-113 | uptime counter becomes exactly `now`; other counters, mask and flags unchanged |
| `Timings.TickAsWritten` | utility.h:104-126 | a reset is requested exactly when `now > 0xFFA0`; otherwise uptime becomes `now` and, the loop never running, the lamp and debounce counters, mask and flags are unchanged |
| `Timings.CatchUpTwice` | utility.h:112-122 | adding two successive elapsed spans modulo 2^32 equals adding the whole span |
| `Timings.TickIntended` | utility.h:104-126 | corrected: reset exactly when `now > 0xFFA0`; otherwise uptime becomes `now` and each running timer gains `now - uptime` modulo 2^32, stopped ones unchanged |
| `Timings.AsWrittenStaysFrozen` | utility.h:104-154 | as written, from any state with no running bit, zero lamp/debounce counters and uptime at most 0xFFA0, every sequence of TimerControl, ResetRoutine and UpdateTimings calls keeps it so |
| `Timings.AsWrittenRunningTimerStalls` | utility.h:114-124 | as written, a running timer's counter does not change over any sequence of non-resetting ticks |
| `Timings.AsWrittenLampTimerStallsAt100ms` | utility.h:118 | with the lamp timer running from boot, a tick at 100 ms leaves it at 0 as written and at 100 in the corrected code |
| `Timings.IntendedRunningTimerAdds` | utility.h:111-124 | corrected: over any non-resetting run of ticks a running timer gains exactly the uptime elapsed over the run (additivity), modulo 2^32 |
| `Timings.IntendedTickAdds` | utility.h:111-124 | corrected: one non-resetting tick sets uptime to `now` and adds the elapsed time to a running timer |
| `Timings.IntendedStoppedTimerHolds` | utility.h:114-124 | corrected: a stopped timer stays stopped and unchanged over any non-resetting run of ticks |
| `Board.Controller.constructor` | Klingelanlage.h:66-67 | the globals start all zero |
| `Board.Controller.TimerControl` | utility.h:134-154 | the in-place update has exactly the effect of `TimerControlAsWritten` |
| `Board.Controller.TimerControlFixed` | utility.h:134-154 | the in-place update with both guards negated has exactly the effect of `TimerControlIntended` |
| `Board.Controller.ResetRoutine` | utility.h:81-89 | the four `SetState` calls and two counter writes have exactly the effect of `Reset` |
| `Board.Controller.UpdateTimings` | utility.h:104-126 | returns "reset requested" exactly when `now > 0xFFA0` and then leaves the globals as they were; otherwise has exactly the effect of `TickAsWritten` |
| `Board.Controller.UpdateTimingsFixed` | utility.h:104-126 | the same with a loop over timer slots 1 and 2; has exactly the effect of `TickIntended` |
| `Lamp.ButtonPushed` | utility.h:96-99 | a button counts as pushed exactly when at least one of the five inputs reads LOW |
| `Lamp.LeuchtRoutine` | utility.h:59-76 | both LEDs get the same output: fast breathing iff a button is pushed, normal breathing iff none is pushed and KLINGEL_PUSHED is set, LOW iff all inputs are HIGH and the flag is clear |
| `Lamp.LeuchtRoutineReadsPushedOnly` | utility.h:67 | of the flag byte only the KLINGEL_PUSHED bit affects the lamp mode |
| `Lamp.DarkAfterReset` | utility.h:59-89 | after ResetRoutine the LEDs are LOW unless a button is held, in which case they breathe fast |

## Left out

- `intAnalogValue` (utility.h:41-54) computes the triangular brightness with `float` and `fmod`. Its constants `CONST_MIN_ANALOG`, `CONST_MAX_ANALOG`, `CONST_LEUCHTFREQUENZ` and `CONST_LEUCHT_MULT` are not in the modelled headers. `LeuchtRoutine` therefore returns the period it would pass, not a brightness, and the periodicity and symmetry of the pulse are not modelled.
- Hardware I/O is not modelled. `digitalRead` becomes the five `Buttons` levels, `millis()` the parameter `now`, and `analogWrite`/`digitalWrite` the returned `LampDrive`. `ResetFunc()` becomes the `resetRequested` result.
- `Board.Controller.UpdateTimings` reads `millis()` once. The source reads it twice, for the comparison and for the subtraction. A millisecond passing between the two reads is not modelled.
- `volatile` and the interrupt input `IN_KLINGEL` are not modelled: they concern an interrupt handler, which is concurrency.
- The source reaches counter `i` by offsetting a `long *` from the start of the record. The model indexes the counter array instead. Ids outside 0..2 would write over `bytState` or past the record; `TimerId` excludes them.
- Bit positions outside 0..7 are excluded by `BitPos`. In C they are not all undefined. `bitRead` shifts the byte after promotion to the board's 16-bit `int`, so positions 8..15 read 0. `bitSet` and `bitClear` shift `1UL` and truncate the result into the `uint8_t`, so positions 8..31 change nothing. Only negative positions, positions of 16 and up for reads, and positions of 32 and up for writes are undefined. The header defines `STATE_DOOR_OPEN` (8), `STATE_DENSITY_TOGGLE` (16) and `STATE_DEBUG` (32) as state positions (Klingelanlage.h:117-119). Passed to `bGetState` or `SetState`, `STATE_DOOR_OPEN` would always read false and could never be set. None of the modelled routines passes them; their callers are not part of this model.
- `StartRoutine`, `InteruptKlingeln` and `CheckKlingel` are declared in Klingelanlage.h:72-79, but their bodies are not part of this model. So the debounce and door-open sequencing, and the scenarios built on it, are not modelled.
- Steuerung2_0.h is an older copy of the header with no logic. Pin numbers and speed constants (Klingelanlage.h:88-108) play no part in the modelled routines.

## Findings

| source | as written | input that shows it | evidently intended | confidence | as-written member | corrected member |
|---|---|---|---|---|---|---|
| utility.h:136-152 | `TimerControl` sets the running bit only if it is already set, and clears it (zeroing the counter) only if it is already clear; the mask never changes | `TimerControl(TIMER_LEUCHTDAUER, true)` at boot: the lamp timer stays stopped (`AsWrittenStartFromBoot`), and from boot no call sequence ever sets a running bit (`AsWrittenStaysFrozen`) | start a stopped timer; stop a running one, zeroing its counter | high, not executed | `Timings.TimerControlAsWritten` | `Timings.TimerControlIntended` |
| utility.h:118 | the per-timer loop `for (i = 0; i >= 7; i++)` fails its guard at `i = 0`, so no timer counter ever advances | lamp timer running from boot, tick at 100 ms: its counter stays 0 (`AsWrittenLampTimerStallsAt100ms`, `AsWrittenRunningTimerStalls`) | visit the timer slots and add the elapsed time to each running one | high, not executed | `Timings.TickAsWritten` | `Timings.TickIntended` |
