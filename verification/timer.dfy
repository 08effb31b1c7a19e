/**
 The timer state machine of the sketch: one call of `loop()` as a pure step.

 The operator sets minutes, then seconds, with the rotary encoder (one detent is
 four encoder counts), pressing the encoder switch after each. The second press
 starts the run: DMX channel 1 goes to full intensity, and every time the set
 interval elapses it toggles between 255 and 0. A press during the run stops it,
 writes 0 and returns to setting minutes.

 Hardware is reduced to values: the encoder position is a counter in the state
 that the knob moves by `turn` counts between two iterations, the switch line
 and `millis()` are inputs of each iteration, and a DMX write is recorded as the
 last value written to channel 1 (the only channel the sketch drives).
 */
module DmxTimer {
  import opened Platform
  import opened Button

  /** Value written to channel 1 while the output is on. */
  const OnIntensity: UInt8 := 255
  /** The sketch's `repeatCycle`: fixed, never changed at run time. */
  const RepeatCycle: bool := true

  datatype TimerState = Minutes | Seconds | Run

  /** The sketch's globals, plus the encoder position and the last DMX value written. */
  datatype Timer = Timer(
    state: TimerState,
    minutes: Int16,
    seconds: Int16,
    dmxIsOn: bool,
    phaseStart: UInt32,
    lastButtonTime: UInt32,
    encoder: Int32,
    dmx: UInt8)

  /** What one iteration observes: the encoder counts turned since the previous
      iteration, whether the switch line reads LOW, and `millis()`. */
  datatype Tick = Tick(turn: int, buttonLow: bool, now: UInt32)

  /** The invariant of every reachable state: both settings inside [0, 59], and the
      last value written to channel 1 is full intensity exactly while running with
      the output on. */
  predicate Valid(s: Timer)
  {
    && 0 <= s.minutes <= 59
    && 0 <= s.seconds <= 59
    && s.dmx == (if s.state == Run && s.dmxIsOn then OnIntensity else 0)
  }

  /** State after the global initialisers and `setup()`: setting minutes, all values 0,
      channel 1 written 0 and the encoder position reset. */
  function Init(): (s: Timer)
    ensures Valid(s)
    ensures s.state == Minutes && s.dmx == 0
  {
    Timer(Minutes, 0, 0, false, 0, 0, 0, 0)
  }

  /** The state the switch moves to: minutes, seconds, run, and back to minutes. */
  function Advance(st: TimerState): TimerState
  {
    match st
    case Minutes => Seconds
    case Seconds => Run
    case Run => Minutes
  }

  /** A setting read from the encoder: `constrain((int)(myEnc.read() / 4), 0, 59)`.
      Within the range the knob can reasonably reach it is the number of whole detents,
      clamped; the 16-bit `int` cast wraps from 2^15 detents forward (2^17 counts) and
      from 2^15 + 1 detents backward (below -2^17 - 3 counts). */
  function Reading(count: Int32): (r: Int16)
    ensures 0 <= r <= 59
    ensures 0 <= count < 240 ==> r == count / 4
    ensures 240 <= count < 0x2_0000 ==> r == 59
    ensures -0x2_0000 <= count < 4 ==> r == 0
  {
    Constrain(ToInt16(TruncDiv(count, 4)), 0, 59)
  }

  /** `startDmxPhase(turnOn)`: record the output flag, write 255 or 0 to channel 1 and
      restart the phase clock. Nothing else changes. */
  function StartDmxPhase(s: Timer, turnOn: bool, now: UInt32): (r: Timer)
    ensures r.dmxIsOn == turnOn && r.phaseStart == now
    ensures r.dmx == (if turnOn then OnIntensity else 0)
    ensures r.state == s.state && r.minutes == s.minutes && r.seconds == s.seconds
    ensures r.lastButtonTime == s.lastButtonTime && r.encoder == s.encoder
  {
    s.(dmxIsOn := turnOn, dmx := if turnOn then OnIntensity else 0, phaseStart := now)
  }

  /** Phase length in milliseconds, `(unsigned long)totalSeconds * 1000UL` with the
      16-bit `int totalSeconds = minutesValue * 60 + secondsValue`. For settings in
      [0, 59] nothing wraps and the length is at most 59:59, which fits in 32 bits. */
  function Threshold(minutes: Int16, seconds: Int16): (r: UInt32)
    ensures 0 <= minutes <= 59 && 0 <= seconds <= 59 ==> r == (minutes * 60 + seconds) * 1000
    ensures 0 <= minutes <= 59 && 0 <= seconds <= 59 ==> r <= 3_599_000
  {
    ToUInt32(ToUInt32(ToInt16(minutes * 60 + seconds)) * 1000)
  }

  /** The current phase has lasted its full length: the milliseconds since `phaseStart`,
      counted across a wrap of the clock, reach the phase length. */
  function Expired(s: Timer, now: UInt32): (e: bool)
    ensures s.phaseStart <= now ==> (e <==> now - s.phaseStart >= Threshold(s.minutes, s.seconds))
    ensures now < s.phaseStart ==> (e <==> (TwoTo32 - s.phaseStart) + now >= Threshold(s.minutes, s.seconds))
  {
    Sub32(now, s.phaseStart) >= Threshold(s.minutes, s.seconds)
  }

  /** The phase check of the RUN branch, with `repeatCycle` as a parameter: an expired
      on-phase turns the output off; an expired off-phase turns it on again when
      repeating, and otherwise leaves RUN with 0 written. */
  function ServiceTimer(s: Timer, now: UInt32, repeat: bool): (r: Timer)
    ensures !Expired(s, now) ==> r == s
    ensures Expired(s, now) && (s.dmxIsOn || repeat) ==>
      && r.state == s.state
      && r.dmxIsOn == !s.dmxIsOn
      && r.phaseStart == now
      && r.dmx == (if r.dmxIsOn then OnIntensity else 0)
    ensures Expired(s, now) && !s.dmxIsOn && !repeat ==>
      && r.state == Minutes
      && r.dmx == 0
      && r.dmxIsOn == s.dmxIsOn
      && r.phaseStart == s.phaseStart
    ensures r.minutes == s.minutes && r.seconds == s.seconds
    ensures r.lastButtonTime == s.lastButtonTime && r.encoder == s.encoder
  {
    if !Expired(s, now) then s
    else if s.dmxIsOn then StartDmxPhase(s, false, now)
    else if !repeat then s.(state := Minutes, dmx := 0)
    else StartDmxPhase(s, true, now)
  }

  /** The MINUTES branch: read the minutes from the encoder; on a press reset the encoder
      and move on to the seconds. */
  function StepMinutes(s: Timer, low: bool, now: UInt32): (r: Timer)
    requires s.state == Minutes
    ensures var p := ButtonPressed(s.lastButtonTime, low, now);
      && r.minutes == Reading(s.encoder)
      && r.lastButtonTime == p.lastButtonTime
      && (p.pressed ==> r.state == Seconds && r.encoder == 0)
      && (!p.pressed ==> r.state == Minutes && r.encoder == s.encoder)
    ensures r.seconds == s.seconds && r.dmxIsOn == s.dmxIsOn
    ensures r.phaseStart == s.phaseStart && r.dmx == s.dmx
  {
    var p := ButtonPressed(s.lastButtonTime, low, now);
    var s1 := s.(minutes := Reading(s.encoder), lastButtonTime := p.lastButtonTime);
    if p.pressed then s1.(encoder := 0, state := Seconds) else s1
  }

  /** The SECONDS branch: read the seconds from the encoder; on a press start the run
      with the output on. The phase clock starts at the press (the sketch reads the
      clock again after waiting for the release, which this model leaves out). */
  function StepSeconds(s: Timer, low: bool, now: UInt32): (r: Timer)
    requires s.state == Seconds
    ensures var p := ButtonPressed(s.lastButtonTime, low, now);
      && r.seconds == Reading(s.encoder)
      && r.lastButtonTime == p.lastButtonTime
      && (p.pressed ==> r.state == Run && r.dmxIsOn && r.dmx == OnIntensity && r.phaseStart == now)
      && (!p.pressed ==> r.state == Seconds && r.dmxIsOn == s.dmxIsOn && r.dmx == s.dmx && r.phaseStart == s.phaseStart)
    ensures r.minutes == s.minutes && r.encoder == s.encoder
  {
    var p := ButtonPressed(s.lastButtonTime, low, now);
    var s1 := s.(seconds := Reading(s.encoder), lastButtonTime := p.lastButtonTime);
    if p.pressed then StartDmxPhase(s1.(state := Run), true, now) else s1
  }

  /** The RUN branch: the phase check first, then the switch. A press ends the run with
      0 written, whatever the phase check did; the phase check alone never ends it. */
  function StepRun(s: Timer, low: bool, now: UInt32): (r: Timer)
    requires s.state == Run
    ensures var p := ButtonPressed(s.lastButtonTime, low, now);
      && r.lastButtonTime == p.lastButtonTime
      && r.state == (if p.pressed then Minutes else Run)
      && r.dmxIsOn == (if Expired(s, now) then !s.dmxIsOn else s.dmxIsOn)
      && r.phaseStart == (if Expired(s, now) then now else s.phaseStart)
      && (p.pressed ==> r.dmx == 0)
      && (!p.pressed && Expired(s, now) ==> r.dmx == (if r.dmxIsOn then OnIntensity else 0))
      && (!p.pressed && !Expired(s, now) ==> r.dmx == s.dmx)
    ensures r.minutes == s.minutes && r.seconds == s.seconds && r.encoder == s.encoder
  {
    var s1 := ServiceTimer(s, now, RepeatCycle);
    var p := ButtonPressed(s1.lastButtonTime, low, now);
    var s2 := s1.(lastButtonTime := p.lastButtonTime);
    if p.pressed then s2.(state := Minutes, dmx := 0) else s2
  }

  /** Whether the iteration `t` accepts a press of the switch. */
  predicate Pressed(s: Timer, t: Tick)
  {
    ButtonPressed(s.lastButtonTime, t.buttonLow, t.now).pressed
  }

  /** The encoder position after the knob has moved `t.turn` counts: the Encoder
      library keeps it in a 32-bit `long`, which wraps. */
  function Moved(s: Timer, t: Tick): Int32
  {
    ToInt32(s.encoder + t.turn)
  }

  /** One call of `loop()`. The knob's movement since the last call is added to the
      encoder position first (a 32-bit counter), then the branch of the current state runs.
      The state advances exactly on an accepted press, and the invariant is kept. */
  function Step(s: Timer, t: Tick): (r: Timer)
    ensures r.state == (if Pressed(s, t) then Advance(s.state) else s.state)
    ensures Valid(s) ==> Valid(r)
  {
    var s0 := s.(encoder := Moved(s, t));
    match s.state
    case Minutes => StepMinutes(s0, t.buttonLow, t.now)
    case Seconds => StepSeconds(s0, t.buttonLow, t.now)
    case Run => StepRun(s0, t.buttonLow, t.now)
  }

  /** The state after running `loop()` once per tick, in order. */
  function Trace(s: Timer, ticks: seq<Tick>): (r: Timer)
    ensures Valid(s) ==> Valid(r)
    decreases |ticks|
  {
    if |ticks| == 0 then s else Trace(Step(s, ticks[0]), ticks[1..])
  }
}
