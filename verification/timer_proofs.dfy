/**
 Properties of the timer state machine over one iteration and over runs of
 iterations.
 */
module TimerProofs {
  import opened Platform
  import opened Button
  import opened DmxTimer

  // ---------------------------------------------------------------------------
  // Setting

  /** After an iteration that sets a value, both settings lie in [0, 59], and the one
      being set is the clamped detent count of the encoder, whatever was stored before. */
  lemma SettingIsClamped(s: Timer, t: Tick)
    requires s.state == Minutes || s.state == Seconds
    requires 0 <= s.minutes <= 59 && 0 <= s.seconds <= 59
    ensures var r := Step(s, t);
      && 0 <= r.minutes <= 59 && 0 <= r.seconds <= 59
      && (s.state == Minutes ==> r.minutes == Reading(Moved(s, t)) && r.seconds == s.seconds)
      && (s.state == Seconds ==> r.seconds == Reading(Moved(s, t)) && r.minutes == s.minutes)
  {
  }

  /** Rounding toward zero, as C++ does, or toward minus infinity, as Dafny does, gives
      the same setting: the clamp to [0, 59] hides the difference wherever the 16-bit
      cast does not wrap. */
  lemma ReadingIgnoresRounding(count: Int32)
    requires -0x2_0000 <= count < 0x2_0000
    ensures Reading(count) == Constrain(count / 4, 0, 59)
  {
  }

  /** The `(int)` cast of the detent count wraps: 2^15 detents forward (2^17 counts) read
      as 0, and 2^15 + 1 detents backward (-2^17 - 4 counts) read as 59. At exactly -2^15
      detents the count still fits in `int` and reads 0. */
  lemma ReadingWrapsOnLongTurn()
    ensures Reading(0x2_0000) == 0
    ensures Reading(-0x2_0004) == 59
    ensures Reading(-0x2_0000) == 0
  {
  }

  // ---------------------------------------------------------------------------
  // Advancing

  /** A press while setting minutes moves on to the seconds and resets the encoder; only
      the minutes (read before the press) and the debounce time change besides. */
  lemma MinutesPressSelectsSeconds(s: Timer, t: Tick)
    requires s.state == Minutes && Pressed(s, t)
    ensures var r := Step(s, t);
      && r.state == Seconds
      && r.encoder == 0
      && r.lastButtonTime == t.now
      && r.minutes == Reading(Moved(s, t))
      && r.seconds == s.seconds && r.dmxIsOn == s.dmxIsOn
      && r.phaseStart == s.phaseStart && r.dmx == s.dmx
  {
  }

  /** A press while setting seconds starts the run: output on, 255 written to channel 1,
      phase clock started now. The encoder keeps its position. */
  lemma SecondsPressStartsRun(s: Timer, t: Tick)
    requires s.state == Seconds && Pressed(s, t)
    ensures var r := Step(s, t);
      && r.state == Run
      && r.dmxIsOn && r.dmx == OnIntensity
      && r.phaseStart == t.now
      && r.lastButtonTime == t.now
      && r.seconds == Reading(Moved(s, t))
      && r.minutes == s.minutes
      && r.encoder == Moved(s, t)
  {
  }

  /** Without an accepted press a setting state is kept and the output is not touched. */
  lemma SettingWithoutPressKeepsOutput(s: Timer, t: Tick)
    requires s.state == Minutes || s.state == Seconds
    requires !Pressed(s, t)
    ensures var r := Step(s, t);
      && r.state == s.state
      && r.dmxIsOn == s.dmxIsOn && r.dmx == s.dmx && r.phaseStart == s.phaseStart
      && r.lastButtonTime == s.lastButtonTime
      && r.encoder == Moved(s, t)
  {
  }

  // ---------------------------------------------------------------------------
  // Running

  /** Within a valid run and without a press, the output keeps its phase until the set
      interval has elapsed on the wrapping clock; then it flips between 255 and 0 and
      the phase clock restarts now. */
  lemma RunTogglesOnlyWhenIntervalElapsed(s: Timer, t: Tick)
    requires Valid(s) && s.state == Run && !Pressed(s, t)
    ensures var r := Step(s, t);
      var expired := Sub32(t.now, s.phaseStart) >= (s.minutes * 60 + s.seconds) * 1000;
      && r.state == Run
      && (!expired ==> r.dmxIsOn == s.dmxIsOn && r.phaseStart == s.phaseStart && r.dmx == s.dmx)
      && (expired ==> r.dmxIsOn == !s.dmxIsOn && r.phaseStart == t.now && r.dmx == OnIntensity - s.dmx)
  {
  }

  /** With `repeatCycle` set, the phase check never leaves RUN. */
  lemma TimerNeverEndsRun(s: Timer, now: UInt32)
    requires s.state == Run
    ensures ServiceTimer(s, now, RepeatCycle).state == Run
  {
  }

  /** The branch `repeatCycle` switches off: without repeating, an expired off-phase
      would return to setting minutes with 0 written. */
  lemma OneShotRunEndsAfterOffPhase(s: Timer, now: UInt32)
    requires s.state == Run && !s.dmxIsOn && Expired(s, now)
    ensures ServiceTimer(s, now, false).state == Minutes
    ensures ServiceTimer(s, now, false).dmx == 0
  {
  }

  /** RUN is left exactly when a press is accepted, and then always for MINUTES with 0 as
      the last value written, even if the output was toggled earlier in the same iteration. */
  lemma RunEndsExactlyOnPress(s: Timer, t: Tick)
    requires s.state == Run
    ensures Step(s, t).state != Run <==> Pressed(s, t)
    ensures Pressed(s, t) ==> Step(s, t).state == Minutes && Step(s, t).dmx == 0
  {
  }

  /** Stopping the run neither resets the encoder nor clears `dmxIsOn`: the next minutes
      reading starts from the position left by the seconds setting, and the flag keeps
      the phase the run was in. */
  lemma StopKeepsEncoderAndFlag(s: Timer, t: Tick)
    requires s.state == Run && Pressed(s, t) && !Expired(s, t.now)
    ensures Step(s, t).encoder == Moved(s, t)
    ensures Step(s, t).dmxIsOn == s.dmxIsOn
  {
  }

  /** `lastButtonTime` starts at 0 at power-up, so the first iteration accepts a press
      iff the line is LOW and more than `DebounceMs` milliseconds have passed since boot. */
  lemma FirstWindowAfterBoot(t: Tick)
    ensures Init().lastButtonTime == 0
    ensures Pressed(Init(), t) <==> t.buttonLow && t.now > DebounceMs
  {
  }

  /** Two iterations in a row that both change the state are more than the debounce
      interval apart on the wrapping clock. */
  lemma StateChangesAreDebounced(s: Timer, t1: Tick, t2: Tick)
    requires Step(s, t1).state != s.state
    requires Step(Step(s, t1), t2).state != Step(s, t1).state
    ensures Sub32(t2.now, t1.now) > DebounceMs
  {
  }

  // ---------------------------------------------------------------------------
  // Runs of iterations

  /** Running two tick sequences one after the other is running their concatenation. */
  lemma {:induction false} TraceAppend(s: Timer, a: seq<Tick>, b: seq<Tick>)
    ensures Trace(s, a + b) == Trace(Trace(s, a), b)
    decreases |a|
  {
    if |a| == 0 {
      assert a + b == b;
    } else {
      assert (a + b)[1..] == a[1..] + b;
      TraceAppend(Step(s, a[0]), a[1..], b);
    }
  }

  /** Every state reachable from power-up satisfies the invariant: settings in [0, 59],
      and channel 1 last written 255 exactly while running with the output on, 0 otherwise. */
  lemma ReachableStatesAreValid(ticks: seq<Tick>)
    ensures Valid(Trace(Init(), ticks))
    ensures Trace(Init(), ticks).dmx == OnIntensity <==>
      Trace(Init(), ticks).state == Run && Trace(Init(), ticks).dmxIsOn
  {
  }

  /** A run in which no press is accepted stays in RUN, with the settings and the debounce
      time untouched, however much time passes. */
  lemma {:induction false} RunWithoutPressStaysRun(s: Timer, ticks: seq<Tick>)
    requires s.state == Run
    requires forall i :: 0 <= i < |ticks| ==> !Pressed(Trace(s, ticks[..i]), ticks[i])
    ensures Trace(s, ticks).state == Run
    ensures Trace(s, ticks).minutes == s.minutes && Trace(s, ticks).seconds == s.seconds
    ensures Trace(s, ticks).lastButtonTime == s.lastButtonTime
    decreases |ticks|
  {
    if |ticks| > 0 {
      var s1 := Step(s, ticks[0]);
      assert Trace(s, ticks[..0]) == s;
      assert !Pressed(s, ticks[0]);
      assert s1.minutes == s.minutes && s1.seconds == s.seconds;
      assert s1.lastButtonTime == s.lastButtonTime;
      var rest := ticks[1..];
      forall i | 0 <= i < |rest|
        ensures !Pressed(Trace(s1, rest[..i]), rest[i])
      {
        assert ticks[..i + 1][1..] == rest[..i];
        assert Trace(s, ticks[..i + 1]) == Trace(s1, rest[..i]);
        assert rest[i] == ticks[i + 1];
      }
      RunWithoutPressStaysRun(s1, rest);
    }
  }

  /** A complete session: press at 1 s to select the seconds, turn five detents, press at
      1.3 s to start a 0:05 run; the output goes off at 6.3 s (not at 6.299 s) and on again
      at 11.3 s, and a press at 11.4 s stops it with 0 written, leaving `dmxIsOn` set. */
  function Session(): seq<Tick>
  {
    [Tick(0, true, 1000), Tick(20, false, 1100), Tick(0, true, 1300), Tick(0, false, 6299),
     Tick(0, false, 6300), Tick(0, false, 11300), Tick(0, true, 11400)]
  }

  /** The state after the first `n` iterations of the session. */
  function SessionState(n: nat): Timer
  {
    match n
    case 0 => Init()
    case 1 => Timer(Seconds, 0, 0, false, 0, 1000, 0, 0)
    case 2 => Timer(Seconds, 0, 5, false, 0, 1000, 20, 0)
    case 3 => Timer(Run, 0, 5, true, 1300, 1300, 20, 255)
    case 4 => Timer(Run, 0, 5, true, 1300, 1300, 20, 255)
    case 5 => Timer(Run, 0, 5, false, 6300, 1300, 20, 0)
    case 6 => Timer(Run, 0, 5, true, 11300, 1300, 20, 255)
    case _ => Timer(Minutes, 0, 5, true, 11300, 11400, 20, 0)
  }

  lemma SessionSteps(n: nat)
    requires n < |Session()|
    ensures Step(SessionState(n), Session()[n]) == SessionState(n + 1)
  {
  }

  /** Running the session from power-up passes through the listed states. */
  lemma {:induction false} FiveSecondSession(n: nat)
    requires n <= |Session()|
    ensures Trace(Init(), Session()[..n]) == SessionState(n)
  {
    if n > 0 {
      FiveSecondSession(n - 1);
      SessionSteps(n - 1);
      TraceAppend(Init(), Session()[..n - 1], [Session()[n - 1]]);
      assert Session()[..n - 1] + [Session()[n - 1]] == Session()[..n];
    }
  }
}
