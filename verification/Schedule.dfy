/** When a schedule fires next. Times are UTC microseconds since 1970-01-01. */
module Schedule {
  import opened Common

  const DAY: Time := 86_400_000_000

  datatype Rule =
    | Interval(seconds: real)
    | Daily(timeOfDay: Time)
  {
    /** The checks made when a schedule is built; a time of day is below 24 hours. */
    predicate Valid() {
      match this
      case Interval(seconds) => seconds > 0.0
      case Daily(timeOfDay) => 0 <= timeOfDay < DAY
    }

    /** The interval survives rounding to microseconds. A daily rule always moves on. */
    predicate Advances() {
      Interval? ==> seconds > 0.000_000_5
    }
  }

  datatype Schedule = Schedule(id: string, rule: Rule, enabled: bool)

  /** Seconds to microseconds, rounding half to even. */
  function ToMicros(seconds: real): Time {
    var micros := seconds * 1_000_000.0;
    var whole := micros.Floor;
    var rest := micros - whole as real;
    if rest < 0.5 || (rest == 0.5 && whole % 2 == 0) then whole else whole + 1
  }

  function DateOf(at: Time): int { at / DAY }

  function ComputeNextRun(rule: Rule, after: Time): Time {
    match rule
    case Interval(seconds) => after + ToMicros(seconds)
    case Daily(timeOfDay) =>
      var candidate := DateOf(after) * DAY + timeOfDay;
      if candidate <= after then candidate + DAY else candidate
  }

  /** The next run lies strictly after the given time exactly when the interval survives rounding. */
  lemma {:induction false} NextRunIsLaterIffAdvances(rule: Rule, after: Time)
    requires rule.Valid()
    ensures ComputeNextRun(rule, after) >= after
    ensures ComputeNextRun(rule, after) > after <==> rule.Advances()
  {
    match rule
    case Interval(seconds) =>
      var micros := seconds * 1_000_000.0;
      var whole := micros.Floor;
      assert whole as real <= micros < whole as real + 1.0;
    case Daily(timeOfDay) =>
  }

  /** An interval adds its seconds, to the nearest microsecond and to the even one of two. */
  lemma {:induction false} IntervalIsExact(seconds: real, after: Time)
    ensures
      var step, exact := ComputeNextRun(Interval(seconds), after) - after, seconds * 1_000_000.0;
      && step as real - 0.5 <= exact <= step as real + 0.5
      && (step as real - 0.5 == exact || exact == step as real + 0.5 ==> step % 2 == 0)
  {
    var whole := (seconds * 1_000_000.0).Floor;
    assert whole as real <= seconds * 1_000_000.0 < whole as real + 1.0;
  }

  /** An accepted interval that fires again at the very same instant. */
  lemma {:induction false} TinyIntervalStandsStill(after: Time)
    ensures Interval(0.000_000_4).Valid() && ComputeNextRun(Interval(0.000_000_4), after) == after
  {
    assert (0.000_000_4 * 1_000_000.0).Floor == 0;
  }

  /** A daily rule picks the first instant after the given one whose time of day is the rule's. */
  lemma {:induction false} DailyNextIsFirst(timeOfDay: Time, after: Time, other: Time)
    requires 0 <= timeOfDay < DAY
    ensures var next := ComputeNextRun(Daily(timeOfDay), after);
      && after < next <= after + DAY && next % DAY == timeOfDay
      && (after < other && other % DAY == timeOfDay ==> next <= other)
  {
  }

  /** Two successive slots of a daily rule fall on different dates, so it has at most one per date. */
  lemma {:induction false} DailySlotsHaveTheirOwnDates(timeOfDay: Time, slot: Time, now: Time)
    requires 0 <= timeOfDay < DAY && slot % DAY == timeOfDay && slot <= now
    ensures DateOf(slot) < DateOf(ComputeNextRun(Daily(timeOfDay), now))
  {
    DailyNextIsFirst(timeOfDay, now, slot);
  }
}
