# DMX timer — a Dafny model of the sketch's state machine

The sketch (`src/main.cpp`) is an Arduino DMX timer. The operator sets minutes,
then seconds, with a rotary encoder. Each setting is confirmed with the
encoder's push switch. The second press starts a run. DMX channel 1 goes to 255
and then toggles between 255 and 0 each time the set interval elapses. A press
during the run writes 0 and goes back to setting minutes.

This project models one call of `loop()` as a pure function `DmxTimer.Step` on
an immutable state record. The record holds `currentState`, `minutesValue`,
`secondsValue`, `dmxIsOn`, `phaseStart`, `lastButtonTime`, the encoder position
and the last value written to channel 1. The project proves what the code
promises: settings stay in range, the state advances only on a debounced press,
the output toggles on the interval, and only a press leaves the run.

Files:

- `platform.dfy` (module `Platform`): integer semantics of the AVR target. `int`
  is 16 bits wide, and `long` and `unsigned long` are 32 bits wide. The module
  has wrapping conversions, unsigned 32-bit subtraction, C++ truncating
  division and Arduino's `constrain`.
- `button.dfy` (module `Button`): the debounce of `buttonPressed`.
- `timer.dfy` (module `DmxTimer`): the state, `startDmxPhase`, the three
  branches of `loop()`, the step and runs of steps.
- `timer_proofs.dfy` (module `TimerProofs`): properties of the step and of runs
  of steps.

Modelling choices:

- The DMX channel (1) and the on-intensity (255) are constants, as in the code.
  `repeatCycle` is the constant `true`. The phase check `ServiceTimer` takes
  the repeat flag as a parameter, so the branch that `repeatCycle` switches off
  is still modelled and stated (`OneShotRunEndsAfterOffPhase`).
- The encoder position is a counter in the state. Between two iterations the
  knob moves it by `turn` counts. That value is an input, and the counter is a
  32-bit `long` that wraps. Because the position is state, the reset at line 48
  has an effect. So does the missing reset when a run is stopped: the next
  minutes reading starts from wherever the seconds setting left the knob.
- `myEnc.read() / 4` truncates toward zero. `(int)steps` wraps to 16 bits.
  Both are written out. After the clamp to [0, 59], truncating and flooring
  division agree (`ReadingIgnoresRounding`). The 16-bit cast does make a long
  turn wrap around (`ReadingWrapsOnLongTurn`): forward from 2^15 detents
  (2^17 counts), backward from 2^15 + 1 detents (-2^17 - 4 counts).
- Elapsed time and the debounce window are both computed as unsigned 32-bit
  differences, so they stay correct across the `millis()` wrap.
- The quiet interval after a press is 200 ms, and the comparison is strict
  (`> 200`, line 94). A run toggles the output on and off with the same single
  interval for both phases (lines 65-75).

## Model

| member | source | states |
|---|---|---|
| Platform.Sub32 | src/main.cpp:65 | `unsigned long` subtraction: the true difference, or that difference plus 2^32 when it is negative |
| Platform.ToInt32 | src/main.cpp:45 | the 32-bit `long` encoder position: congruent to its argument modulo 2^32, and the identity on the 32-bit range |
| Platform.ToInt16 | src/main.cpp:46 | the `(int)` cast: congruent to its argument modulo 2^16, and the identity on the 16-bit range |
| Platform.ToUInt32 | src/main.cpp:65 | the `(unsigned long)` cast and the wrap of `* 1000UL`: congruent to its argument modulo 2^32, and the identity on [0, 2^32) |
| Platform.TruncDiv | src/main.cpp:45 | C++ `/` by a positive divisor: the quotient rounds toward zero for both signs of the dividend |
| Platform.Constrain | src/main.cpp:46 | `constrain` returns a value in [lo, hi] that is the nearest such value to its argument |
| Platform.ConstrainHidesRounding | src/main.cpp:45-46 | after the clamp to [0, hi], truncating and Euclidean division give the same value |
| Button.ButtonPressed | src/main.cpp:91-101 | a press is accepted iff the line is LOW and strictly more than 200 ms have passed on the wrapping clock; only an acceptance moves `lastButtonTime`, to `t` |
| Button.AcceptedPressesAreSpaced | src/main.cpp:94-95 | two presses accepted one after the other are more than 200 ms apart |
| Button.ReleasedLineIsIgnored | src/main.cpp:92 | a HIGH line is never a press and leaves the state unchanged |
| Button.RejectedPollIsStable | src/main.cpp:94-100 | a rejected poll changes nothing, so repeating it gives the same verdict |
| Button.DebounceAcrossClockWrap | src/main.cpp:94 | when the clock has wrapped since the last accepted press (t < last), a press is accepted iff (2^32 - last) + t > 200 |
| DmxTimer.Init | src/main.cpp:18-40 | the power-up state is setting minutes with channel 1 at 0, and it satisfies the invariant |
| DmxTimer.Reading | src/main.cpp:45-46 | a setting read from the encoder is in [0, 59]: whole detents for 0 to 239 counts, 59 from 240 up to 2^17 counts, 0 from -2^17 counts up to 3 |
| DmxTimer.StartDmxPhase | src/main.cpp:85-89 | sets `dmxIsOn`, writes 255 or 0 to match, restarts the phase clock at `now`, and changes nothing else |
| DmxTimer.Threshold | src/main.cpp:64-65 | for settings in [0, 59] the phase length is (min*60+sec)*1000 ms, which is at most 3,599,000 and so does not wrap |
| DmxTimer.Expired | src/main.cpp:65 | the phase has expired iff the milliseconds since `phaseStart`, counted across a clock wrap, reach the phase length |
| DmxTimer.ServiceTimer | src/main.cpp:65-76 | if the phase has not expired the state is unchanged; an expired phase flips the output and restarts the clock when the output was on or when repeating; otherwise it returns to MINUTES with 0 written |
| DmxTimer.StepMinutes | src/main.cpp:44-52 | minutes are read from the encoder; a press resets the encoder and selects SECONDS; seconds, output and phase clock are untouched |
| DmxTimer.StepSeconds | src/main.cpp:53-61 | seconds are read from the encoder; a press enters RUN with the output on, 255 written and the clock started; without a press the output is untouched |
| DmxTimer.StepRun | src/main.cpp:62-82 | the output flips and the clock restarts iff the phase expired; a press ends in MINUTES with 0 written; without one the state stays RUN |
| DmxTimer.Step | src/main.cpp:43-83 | the state advances MINUTES, SECONDS, RUN, MINUTES exactly on an accepted press, and the invariant is preserved |
| DmxTimer.Trace | src/main.cpp:43-83 | repeated iterations preserve the invariant |
| TimerProofs.SettingIsClamped | src/main.cpp:44-55 | after an iteration in MINUTES or SECONDS both settings lie in [0, 59], and the one being set is read from the encoder |
| TimerProofs.ReadingIgnoresRounding | src/main.cpp:45-46 | within the 16-bit range, reading with C++ truncation equals reading with floor division |
| TimerProofs.ReadingWrapsOnLongTurn | src/main.cpp:45-46 | the cast wraps: 2^15 detents forward (2^17 counts) read 0, 2^15 + 1 detents backward (-2^17 - 4 counts) read 59, while -2^15 detents still read 0 |
| TimerProofs.MinutesPressSelectsSeconds | src/main.cpp:47-50 | a press in MINUTES selects SECONDS, resets the encoder to 0, and leaves the seconds, the output, `dmxIsOn` and the phase clock unchanged |
| TimerProofs.SecondsPressStartsRun | src/main.cpp:56-59 | a press in SECONDS enters RUN with `dmxIsOn`, 255 written and `phaseStart = now` |
| TimerProofs.SettingWithoutPressKeepsOutput | src/main.cpp:44-60 | without an accepted press, a setting state is kept and the output, the phase clock and the debounce time are untouched |
| TimerProofs.RunTogglesOnlyWhenIntervalElapsed | src/main.cpp:63-76 | in a valid run without a press, the output and clock are unchanged while elapsed < (min*60+sec)*1000; once it is reached, the output flips between 255 and 0 and the clock restarts at `now` |
| TimerProofs.TimerNeverEndsRun | src/main.cpp:65-75 | with `repeatCycle` true, the phase check never leaves RUN |
| TimerProofs.OneShotRunEndsAfterOffPhase | src/main.cpp:69-71 | without repeating, an expired off-phase returns to MINUTES with 0 written |
| TimerProofs.RunEndsExactlyOnPress | src/main.cpp:77-80 | RUN is left iff a press is accepted, and then for MINUTES with 0 as the last write, even after a toggle in the same iteration |
| TimerProofs.StopKeepsEncoderAndFlag | src/main.cpp:77-80 | stopping a run neither resets the encoder nor clears `dmxIsOn` |
| TimerProofs.FirstWindowAfterBoot | src/main.cpp:27-28 | `lastButtonTime` is 0 at power-up, so the first iteration accepts a press iff the line is LOW and more than 200 ms have passed since boot |
| TimerProofs.StateChangesAreDebounced | src/main.cpp:91-98 | two consecutive iterations that both change the state are more than 200 ms apart |
| TimerProofs.ReachableStatesAreValid | src/main.cpp:18-89 | in every state reachable from power-up, the settings are in [0, 59] and channel 1 was last written 255 iff the state is RUN with `dmxIsOn`, and 0 otherwise |
| TimerProofs.RunWithoutPressStaysRun | src/main.cpp:62-82 | however long a run lasts without an accepted press, it stays in RUN with the settings and the debounce time unchanged |
| TimerProofs.FiveSecondSession | src/main.cpp:43-89 | a concrete 0:05 session passes through the expected states: 255 from the start press, 0 five seconds later (not 4.999 s later), 255 five seconds after that, then stopped by a press with 0 written |

## Left out

- `drawScreen` and all display calls (lines 32-34, 51, 60, 81, 103-119). They are output only and hold no logic.
- Pin setup and library initialisation (lines 8-14, 31, 36-37). These are hardware configuration.
- The wait for the switch's release (line 96) is a blocking hardware wait. An accepted press is treated as an instantaneous event.
- `millis()` is an input of each iteration. All reads of it within one `loop()` call are taken to be the same instant. In the code, `startDmxPhase` (line 88) and `buttonPressed` (line 93) read the clock again.
- DmxTimer.StepSeconds: the first on-phase is timed from the press, not from the release. In the code, `startDmxPhase(true)` (line 58) runs after `buttonPressed()` has waited for the release (line 96), so `phaseStart` is the release time. So in the code the first on-phase lasts longer by however long the switch is held. The model drops the release wait, so it starts the phase clock at the press.
- The Encoder and DmxSimple library internals are not modelled. The quadrature decoding becomes a count of turns per iteration. A bus write becomes the recorded last value of channel 1.
