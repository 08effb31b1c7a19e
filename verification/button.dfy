/**
 The push-button debounce of the encoder switch (`buttonPressed`).

 The switch line is active-low with a pull-up. A poll accepts a press when the
 line reads LOW and strictly more than `DebounceMs` milliseconds have passed,
 on the wrapping 32-bit millisecond clock, since the last accepted press. Only
 an accepted press moves the remembered time; the sketch then waits for the
 release, which this model treats as instantaneous.
 */
module Button {
  import opened Platform

  /** Quiet interval after an accepted press, in milliseconds. */
  const DebounceMs: UInt32 := 200

  /** Outcome of one poll: whether a press was accepted, and the new `lastButtonTime`. */
  datatype Poll = Poll(pressed: bool, lastButtonTime: UInt32)

  /** One poll of the switch at time `t`, the line reading LOW when `low` holds. */
  function ButtonPressed(lastButtonTime: UInt32, low: bool, t: UInt32): (p: Poll)
    ensures p.pressed <==> low && Sub32(t, lastButtonTime) > DebounceMs
    ensures p.pressed ==> p.lastButtonTime == t
    ensures !p.pressed ==> p.lastButtonTime == lastButtonTime
  {
    if low && Sub32(t, lastButtonTime) > DebounceMs then Poll(true, t) else Poll(false, lastButtonTime)
  }

  /** Two accepted presses in a row are more than `DebounceMs` apart, measured on the wrapping clock. */
  lemma AcceptedPressesAreSpaced(last: UInt32, t1: UInt32, low2: bool, t2: UInt32)
    requires ButtonPressed(last, true, t1).pressed
    requires ButtonPressed(ButtonPressed(last, true, t1).lastButtonTime, low2, t2).pressed
    ensures Sub32(t2, t1) > DebounceMs
    ensures t1 != t2
  {
  }

  /** A released line is never a press, and the state is untouched. */
  lemma ReleasedLineIsIgnored(last: UInt32, t: UInt32)
    ensures ButtonPressed(last, false, t) == Poll(false, last)
  {
  }

  /** Repeating a rejected poll at the same instant gives the same verdict: a rejected poll
      leaves nothing behind that could change the next one. */
  lemma RejectedPollIsStable(last: UInt32, low: bool, t: UInt32)
    requires !ButtonPressed(last, low, t).pressed
    ensures ButtonPressed(ButtonPressed(last, low, t).lastButtonTime, low, t) == ButtonPressed(last, low, t)
  {
  }

  /** The unsigned subtraction keeps the window correct across the 49.7-day clock wrap:
      when the clock has wrapped since the last accepted press, the time elapsed is the
      rest of the old clock period plus the new reading, and the press is accepted iff
      that exceeds the quiet interval. */
  lemma DebounceAcrossClockWrap(last: UInt32, t: UInt32)
    requires t < last
    ensures ButtonPressed(last, true, t).pressed <==> (TwoTo32 - last) + t > DebounceMs
  {
  }
}
