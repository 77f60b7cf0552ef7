/** Slot keys: the string under which exactly one run may claim a scheduled trigger. */
module Idempotency {
  import opened Common
  import opened Schedule
  import opened Text

  const MAX_KEY_LENGTH := 255

  // ---------------- calendar ----------------

  /** Proleptic Gregorian ordinal of 1970-01-01; ordinal 1 is 0001-01-01. */
  const EPOCH := 719_163

  /** The instants a timestamp can name: years 1 to 9999. */
  predicate InCalendar(at: Time) { 1 <= DateOf(at) + EPOCH <= 3_652_059 }

  datatype Date = Date(year: nat, month: nat, day: nat)

  predicate IsLeap(y: int) { y % 4 == 0 && (y % 100 != 0 || y % 400 == 0) }

  function YearDays(y: nat): nat { if IsLeap(y) then 366 else 365 }

  function DaysBeforeYear(y: nat): nat {
    if y <= 1 then 0 else DaysBeforeYear(y - 1) + YearDays(y - 1)
  }

  function DaysInMonth(y: int, m: nat): nat {
    if m == 2 then (if IsLeap(y) then 29 else 28)
    else if m in {4, 6, 9, 11} then 30 else 31
  }

  function DaysBeforeMonth(y: int, m: nat): nat {
    if m <= 1 then 0 else DaysBeforeMonth(y, m - 1) + DaysInMonth(y, m - 1)
  }

  /** The days before a year in closed form: leap days come every 4 years, not every 100, but every 400. */
  lemma {:induction false} DaysBeforeYearClosed(y: nat)
    requires y >= 1
    ensures DaysBeforeYear(y) == (y - 1) * 365 + (y - 1) / 4 - (y - 1) / 100 + (y - 1) / 400
  {
    if y > 1 {
      DaysBeforeYearClosed(y - 1);
      LeapDays(y - 1);
    }
  }

  lemma {:induction false} LeapDays(y: int)
    ensures y / 4 - y / 100 + y / 400
      == (y - 1) / 4 - (y - 1) / 100 + (y - 1) / 400 + (if IsLeap(y) then 1 else 0)
  {
    Carry(y, 4);
    Carry(y, 100);
    Carry(y, 400);
    Divides(y, 100, 4);
    Divides(y, 4, 25);
  }

  lemma {:induction false} Carry(y: int, k: int)
    requires k in {4, 100, 400}
    ensures y / k == (y - 1) / k + (if y % k == 0 then 1 else 0)
  {
  }

  lemma {:induction false} Divides(y: int, k: int, m: int)
    requires (k == 100 && m == 4) || (k == 4 && m == 25)
    ensures y % (k * m) == 0 ==> y % k == 0
  {
  }

  /** The year holding the given ordinal, searched upwards from `y`. */
  function YearFrom(ordinal: int, y: nat): nat
    requires y >= 1 && DaysBeforeYear(y) < ordinal
    decreases ordinal - DaysBeforeYear(y)
  {
    if ordinal <= DaysBeforeYear(y + 1) then y else YearFrom(ordinal, y + 1)
  }

  function MonthFrom(y: int, rest: nat, m: nat): nat
    requires 1 <= m <= 12
    decreases 12 - m
  {
    if m == 12 || rest <= DaysBeforeMonth(y, m + 1) then m else MonthFrom(y, rest, m + 1)
  }

  function FromOrdinal(ordinal: int): Date
    requires ordinal >= 1
  {
    var y := YearFrom(ordinal, 1);
    YearFromIsRight(ordinal, 1);
    var rest := ordinal - DaysBeforeYear(y);
    var m := MonthFrom(y, rest, 1);
    MonthFromIsRight(y, rest, 1);
    Date(y, m, rest - DaysBeforeMonth(y, m))
  }

  function ToOrdinal(d: Date): int {
    DaysBeforeYear(d.year) + DaysBeforeMonth(d.year, d.month) + d.day
  }

  lemma {:induction false} YearFromIsRight(ordinal: int, y: nat)
    requires y >= 1 && DaysBeforeYear(y) < ordinal
    ensures var r := YearFrom(ordinal, y); y <= r && DaysBeforeYear(r) < ordinal <= DaysBeforeYear(r + 1)
    decreases ordinal - DaysBeforeYear(y)
  {
    if ordinal > DaysBeforeYear(y + 1) {
      YearFromIsRight(ordinal, y + 1);
    }
  }

  lemma {:induction false} MonthFromIsRight(y: int, rest: nat, m: nat)
    requires 1 <= m <= 12 && DaysBeforeMonth(y, m) < rest
    ensures var r := MonthFrom(y, rest, m);
      && m <= r <= 12 && DaysBeforeMonth(y, r) < rest
      && (r < 12 ==> rest <= DaysBeforeMonth(y, r + 1))
    decreases 12 - m
  {
    if m < 12 && rest > DaysBeforeMonth(y, m + 1) {
      MonthFromIsRight(y, rest, m + 1);
    }
  }

  lemma {:induction false} MonthsFillTheYear(y: int)
    ensures DaysBeforeMonth(y, 13) == if IsLeap(y) then 366 else 365
  {
    assert DaysBeforeMonth(y, 2) == 31;
    assert DaysBeforeMonth(y, 3) == 31 + DaysInMonth(y, 2);
    assert DaysBeforeMonth(y, 5) == DaysBeforeMonth(y, 3) + 61;
    assert DaysBeforeMonth(y, 7) == DaysBeforeMonth(y, 5) + 61;
    assert DaysBeforeMonth(y, 9) == DaysBeforeMonth(y, 7) + 62;
    assert DaysBeforeMonth(y, 11) == DaysBeforeMonth(y, 9) + 61;
    assert DaysBeforeMonth(y, 13) == DaysBeforeMonth(y, 11) + 61;
  }

  /** The computed date is a real calendar date and names its ordinal, so distinct days get distinct dates. */
  lemma {:induction false} DateRoundTrip(ordinal: int)
    requires ordinal >= 1
    ensures var d := FromOrdinal(ordinal);
      && ToOrdinal(d) == ordinal
      && d.year >= 1 && 1 <= d.month <= 12 && 1 <= d.day <= DaysInMonth(d.year, d.month)
  {
    var d := FromOrdinal(ordinal);
    YearFromIsRight(ordinal, 1);
    var rest := ordinal - DaysBeforeYear(d.year);
    MonthFromIsRight(d.year, rest, 1);
    MonthsFillTheYear(d.year);
    assert DaysBeforeMonth(d.year, d.month + 1) == DaysBeforeMonth(d.year, d.month) + DaysInMonth(d.year, d.month);
  }

  lemma {:induction false} YearsAddUp(y: nat, z: nat)
    requires y <= z
    ensures DaysBeforeYear(y) <= DaysBeforeYear(z)
    decreases z - y
  {
    if y < z {
      YearsAddUp(y, z - 1);
    }
  }

  lemma {:induction false} YearFitsFourDigits(ordinal: int)
    requires 1 <= ordinal <= 3_652_059
    ensures FromOrdinal(ordinal).year <= 9999
  {
    YearFromIsRight(ordinal, 1);
    var y := FromOrdinal(ordinal).year;
    DaysBeforeYearClosed(10_000);
    if y > 9999 {
      YearsAddUp(10_000, y);
    }
  }

  function IsoDate(d: Date): string {
    Padded(d.year, 4) + "-" + Padded(d.month, 2) + "-" + Padded(d.day, 2)
  }

  /** The date part of a key: always ten characters, and it determines the day. */
  function DateText(at: Time): string
    requires InCalendar(at)
  {
    IsoDate(FromOrdinal(DateOf(at) + EPOCH))
  }

  lemma {:induction false} DateTextWidth(at: Time)
    requires InCalendar(at)
    ensures |DateText(at)| == 10
    ensures var d := FromOrdinal(DateOf(at) + EPOCH);
      && DateText(at)[..4] == Padded(d.year, 4)
      && DateText(at)[5..7] == Padded(d.month, 2)
      && DateText(at)[8..10] == Padded(d.day, 2)
  {
    var d := FromOrdinal(DateOf(at) + EPOCH);
    DateRoundTrip(DateOf(at) + EPOCH);
    YearFitsFourDigits(DateOf(at) + EPOCH);
    FixedWidths(d.year, d.month, d.day);
    DatePieces(Padded(d.year, 4), Padded(d.month, 2), Padded(d.day, 2));
  }

  lemma {:induction false} FixedWidths(year: nat, month: nat, day: nat)
    requires year < 10_000 && month < 100 && day < 100
    ensures |Padded(year, 4)| == 4 && |Padded(month, 2)| == 2 && |Padded(day, 2)| == 2
  {
    assert Pow10(2) == 100;
    assert Pow10(4) == 10_000;
    PaddedWidth(year, 4);
    PaddedWidth(month, 2);
    PaddedWidth(day, 2);
  }

  lemma {:induction false} DatePieces(y: string, m: string, d: string)
    requires |y| == 4 && |m| == 2 && |d| == 2
    ensures var t := y + "-" + m + "-" + d; |t| == 10 && t[..4] == y && t[5..7] == m && t[8..10] == d
  {
  }

  lemma {:induction false} DateTextInjective(s: Time, t: Time)
    requires InCalendar(s) && InCalendar(t) && DateText(s) == DateText(t)
    ensures DateOf(s) == DateOf(t)
  {
    DateTextWidth(s);
    DateTextWidth(t);
    var d, e := FromOrdinal(DateOf(s) + EPOCH), FromOrdinal(DateOf(t) + EPOCH);
    PaddedInjective(d.year, e.year, 4);
    PaddedInjective(d.month, e.month, 2);
    PaddedInjective(d.day, e.day, 2);
    DateRoundTrip(DateOf(s) + EPOCH);
    DateRoundTrip(DateOf(t) + EPOCH);
  }

  // ---------------- time of day ----------------

  function SecondOfDay(at: Time): nat { (at % DAY) / 1_000_000 }

  /** Hours, minutes, seconds and six digits of microseconds. */
  function ClockText(at: Time): string {
    var s := SecondOfDay(at);
    Padded(s / 3600, 2) + Padded(s / 60 % 60, 2) + Padded(s % 60, 2) + "." + Padded(at % 1_000_000, 6)
  }

  lemma {:induction false} ClockTextWidth(at: Time)
    ensures |ClockText(at)| == 13
    ensures var s, c := SecondOfDay(at), ClockText(at);
      && c[..2] == Padded(s / 3600, 2) && c[2..4] == Padded(s / 60 % 60, 2)
      && c[4..6] == Padded(s % 60, 2) && c[7..13] == Padded(at % 1_000_000, 6)
  {
    var s := SecondOfDay(at);
    FixedWidths(0, s / 3600, s / 60 % 60);
    FixedWidths(0, 0, s % 60);
    assert Pow10(6) == 1_000_000;
    PaddedWidth(at % 1_000_000, 6);
    ClockPieces(Padded(s / 3600, 2), Padded(s / 60 % 60, 2), Padded(s % 60, 2), Padded(at % 1_000_000, 6));
  }

  lemma {:induction false} ClockPieces(h: string, m: string, s: string, u: string)
    requires |h| == 2 && |m| == 2 && |s| == 2 && |u| == 6
    ensures
      var c := h + m + s + "." + u;
      |c| == 13 && c[..2] == h && c[2..4] == m && c[4..6] == s && c[7..13] == u
  {
  }

  /** The text depends on the time of day alone. */
  lemma {:induction false} ClockTextOfDay(at: Time)
    ensures ClockText(at % DAY) == ClockText(at)
  {
    var t := at % DAY;
    assert t % DAY == t && t % 1_000_000 == at % 1_000_000;
  }

  lemma {:induction false} ClockTextInjective(s: Time, t: Time)
    requires ClockText(s) == ClockText(t)
    ensures s % DAY == t % DAY
  {
    ClockTextWidth(s);
    ClockTextWidth(t);
    var a, b := SecondOfDay(s), SecondOfDay(t);
    PaddedInjective(a / 3600, b / 3600, 2);
    PaddedInjective(a / 60 % 60, b / 60 % 60, 2);
    PaddedInjective(a % 60, b % 60, 2);
    PaddedInjective(s % 1_000_000, t % 1_000_000, 6);
    SecondsAgree(a, b);
    MicrosOfDay(s);
    MicrosOfDay(t);
  }

  lemma {:induction false} SecondsAgree(a: nat, b: nat)
    requires a / 3600 == b / 3600 && a / 60 % 60 == b / 60 % 60 && a % 60 == b % 60
    ensures a == b
  {
    assert a / 60 / 60 == a / 3600 && b / 60 / 60 == b / 3600;
  }

  lemma {:induction false} MicrosOfDay(t: Time)
    ensures t % DAY == SecondOfDay(t) * 1_000_000 + t % 1_000_000
  {
    assert DAY == 86_400 * 1_000_000;
    assert t % DAY % 1_000_000 == t % 1_000_000;
  }

  // ---------------- keys ----------------

  datatype KeyError = EmptyJobId | BlankPartition | KeyTooLong

  predicate IsSpace(c: char) {
    || '\t' <= c <= '\r' || '\U{1c}' <= c <= ' ' || c == '\U{85}' || c == '\U{a0}' || c == '\U{1680}'
    || '\U{2000}' <= c <= '\U{200a}' || c == '\U{2028}' || c == '\U{2029}' || c == '\U{202f}'
    || c == '\U{205f}' || c == '\U{3000}'
  }

  predicate IsBlank(s: string) { forall i :: 0 <= i < |s| ==> IsSpace(s[i]) }

  function BuildKey(job: string, date: string, partition: Option<string>): Result<string, KeyError> {
    if job == "" then Err(EmptyJobId)
    else if partition.Some? && IsBlank(partition.value) then Err(BlankPartition)
    else
      var key := job + ":" + date + (if partition.Some? then ":" + partition.value else "");
      if |key| > MAX_KEY_LENGTH then Err(KeyTooLong) else Ok(key)
  }

  function Partition(s: Schedule, at: Time): string {
    if s.rule.Daily? then s.id else s.id + "@" + ClockText(at)
  }

  /** Derived from the planned trigger time, so every instance names the slot alike. */
  function ScheduledKey(job: string, s: Schedule, at: Time): Result<string, KeyError>
    requires InCalendar(at)
  {
    BuildKey(job, DateText(at), Some(Partition(s, at)))
  }

  /** What of the trigger time a key records: the UTC date, or the exact microsecond. */
  function SlotOf(s: Schedule, at: Time): int {
    if s.rule.Daily? then DateOf(at) else at
  }

  predicate SameSlot(j1: string, s1: Schedule, t1: Time, j2: string, s2: Schedule, t2: Time) {
    && j1 == j2 && s1.id == s2.id && (s1.rule.Daily? <==> s2.rule.Daily?)
    && SlotOf(s1, t1) == SlotOf(s2, t2)
  }

  /** `s` begins with `head`, which ends there or is followed by a colon. */
  predicate Heads(head: string, s: string) { head <= s && (|s| == |head| || s[|head|] == ':') }

  /** The longer job id is the shorter one, a colon and a date, and nothing or a colon and more. */
  ghost predicate Continues(longer: string, shorter: string) {
    exists at: Time :: InCalendar(at) && Heads(shorter + ":" + DateText(at), longer)
  }

  /** Two different job ids whose keys can be confused. */
  ghost predicate JobsClash(j1: string, j2: string) { Continues(j1, j2) || Continues(j2, j1) }

  /** A daily schedule id that reads like an interval schedule's partition. */
  ghost predicate Mimics(daily: Schedule, interval: Schedule) {
    daily.rule.Daily? && interval.rule.Interval? && exists at: Time :: daily.id == interval.id + "@" + ClockText(at)
  }

  ghost predicate SchedulesClash(s1: Schedule, s2: Schedule) { Mimics(s1, s2) || Mimics(s2, s1) }

  lemma {:induction false} DateTextHasNoColon(at: Time)
    requires InCalendar(at)
    ensures ':' !in DateText(at)
  {
    var d := FromOrdinal(DateOf(at) + EPOCH);
    PaddedIsDigits(d.year, 4);
    PaddedIsDigits(d.month, 2);
    PaddedIsDigits(d.day, 2);
  }

  /** In one string read both ways, the longer job id swallows the shorter one's colon and date. */
  lemma {:induction false} LongerJobSwallowsDate(j1: string, d1: string, p1: string, j2: string, d2: string, p2: string)
    requires ':' !in d1 && |j1| < |j2|
    requires j1 + ":" + d1 + (":" + p1) == j2 + ":" + d2 + (":" + p2)
    ensures Heads(j1 + ":" + d1, j2)
  {
    var k, head := j1 + ":" + d1 + (":" + p1), j1 + ":" + d1;
    assert k == j2 + ":" + d2 + (":" + p2);
    assert k[|j2|] == ':' && k[|head|] == ':';
    assert forall i :: |j1| < i < |head| ==> k[i] == d1[i - |j1| - 1] && k[i] != ':';
    assert |j2| >= |head|;
    assert j2 == k[..|j2|] && head == k[..|head|];
  }

  /** Partitions agree exactly when id, kind and time of day do, unless one schedule mimics the other. */
  lemma {:induction false} PartitionsAgree(s1: Schedule, t1: Time, s2: Schedule, t2: Time)
    requires !SchedulesClash(s1, s2) && Partition(s1, t1) == Partition(s2, t2)
    ensures s1.id == s2.id && (s1.rule.Daily? <==> s2.rule.Daily?)
    ensures s1.rule.Interval? ==> ClockText(t1) == ClockText(t2)
  {
    var p, q := Partition(s1, t1), Partition(s2, t2);
    ClockTextWidth(t1);
    ClockTextWidth(t2);
    assert s1.rule.Daily? && s2.rule.Interval? ==> s1.id == s2.id + "@" + ClockText(t2);
    assert s2.rule.Daily? && s1.rule.Interval? ==> s2.id == s1.id + "@" + ClockText(t1);
    if s1.rule.Interval? {
      assert |s1.id| == |s2.id|;
      assert s1.id == p[..|s1.id|] && s2.id == q[..|s2.id|];
      assert ClockText(t1) == p[|s1.id| + 1..] && ClockText(t2) == q[|s2.id| + 1..];
    }
  }

  /**
   Two stored keys are the same string exactly when job, schedule and slot agree, unless the two job
   ids or the two schedule ids clash.
   */
  lemma {:induction false} KeysAgreeExactlyOnSlots(
    j1: string, s1: Schedule, t1: Time, j2: string, s2: Schedule, t2: Time)
    requires InCalendar(t1) && InCalendar(t2) && !JobsClash(j1, j2) && !SchedulesClash(s1, s2)
    requires ScheduledKey(j1, s1, t1).Ok? && ScheduledKey(j2, s2, t2).Ok?
    ensures ScheduledKey(j1, s1, t1) == ScheduledKey(j2, s2, t2) <==> SameSlot(j1, s1, t1, j2, s2, t2)
  {
    DateTextWidth(t1);
    DateTextWidth(t2);
    if ScheduledKey(j1, s1, t1) == ScheduledKey(j2, s2, t2) {
      EqualKeysEqualJobs(j1, t1, Partition(s1, t1), j2, t2, Partition(s2, t2));
      KeyPieces(j1, DateText(t1), Partition(s1, t1), j2, DateText(t2), Partition(s2, t2));
      DateTextInjective(t1, t2);
      PartitionsAgree(s1, t1, s2, t2);
      if s1.rule.Interval? {
        ClockTextInjective(t1, t2);
      }
    }
  }

  lemma {:induction false} EqualKeysEqualJobs(j1: string, t1: Time, p1: string, j2: string, t2: Time, p2: string)
    requires InCalendar(t1) && InCalendar(t2) && !JobsClash(j1, j2)
    requires j1 + ":" + DateText(t1) + (":" + p1) == j2 + ":" + DateText(t2) + (":" + p2)
    ensures |j1| == |j2|
  {
    DateTextHasNoColon(t1);
    DateTextHasNoColon(t2);
    if |j1| < |j2| {
      LongerJobSwallowsDate(j1, DateText(t1), p1, j2, DateText(t2), p2);
    } else if |j2| < |j1| {
      LongerJobSwallowsDate(j2, DateText(t2), p2, j1, DateText(t1), p1);
    }
  }

  lemma {:induction false} KeyPieces(j1: string, d1: string, p1: string, j2: string, d2: string, p2: string)
    requires |j1| == |j2| && |d1| == |d2|
    requires j1 + ":" + d1 + (":" + p1) == j2 + ":" + d2 + (":" + p2)
    ensures j1 == j2 && d1 == d2 && p1 == p2
  {
    var k := j1 + ":" + d1 + (":" + p1);
    var n := |j1|;
    assert j1 == k[..n] && j2 == k[..n];
    assert d1 == k[n + 1..n + 1 + |d1|] && d2 == k[n + 1..n + 1 + |d1|];
    assert p1 == k[n + 2 + |d1|..] && p2 == k[n + 2 + |d1|..];
  }

  // ---------------- exactly which ids clash ----------------

  /** Both triggers have a key, and it is the same one. */
  ghost predicate SharesKey(j1: string, s1: Schedule, t1: Time, j2: string, s2: Schedule, t2: Time) {
    && InCalendar(t1) && InCalendar(t2)
    && ScheduledKey(j1, s1, t1).Ok? && ScheduledKey(j1, s1, t1) == ScheduledKey(j2, s2, t2)
  }

  /** The longest job id that leaves room for a date and a schedule id. */
  const MAX_JOB_ID := 242

  lemma {:induction false} KeyLength(job: string, s: Schedule, at: Time)
    requires InCalendar(at) && ScheduledKey(job, s, at).Ok?
    ensures |job| + 12 + |s.id| <= MAX_KEY_LENGTH && |job| <= MAX_JOB_ID
    ensures ScheduledKey(job, s, at).value == job + ":" + DateText(at) + (":" + Partition(s, at))
  {
    DateTextWidth(at);
    if s.id == "" {
      assert IsBlank("");
    }
  }

  /** The schedule id under which the shorter job gets the longer job's key. */
  function BorrowedId(longer: string, n: nat, date: string): string
    requires n <= |longer|
  {
    (longer[n..] + ":" + date + ":s")[1..]
  }

  /** A continued job id of acceptable length does share a key with the job id it continues. */
  lemma {:induction false} ContinuedJobsShare(j1: string, j2: string, at: Time)
    requires j1 != "" && InCalendar(at) && Heads(j1 + ":" + DateText(at), j2) && |j2| <= MAX_JOB_ID
    ensures
      var s1 := Schedule(BorrowedId(j2, |j1| + 1 + |DateText(at)|, DateText(at)), Daily(0), true);
      SharesKey(j1, s1, at, j2, Schedule("s", Daily(0), true), at)
  {
    var date := DateText(at);
    DateTextWidth(at);
    var n := |j1| + 1 + |date|;
    var s1, s2 := Schedule(BorrowedId(j2, n, date), Daily(0), true), Schedule("s", Daily(0), true);
    var tail := j2[n..] + ":" + date + ":s";
    assert tail[0] == ':' && tail == ":" + s1.id;
    assert s1.id[|s1.id| - 1] == 's' && s2.id[0] == 's' && !IsSpace('s');
    assert j2 == j1 + ":" + date + j2[n..];
    assert j1 + ":" + date + (":" + s1.id) == j2 + ":" + date + (":" + s2.id);
  }

  /** Two job ids can share a key exactly when the longer continues the shorter and leaves room for a key. */
  lemma {:induction false} JobsShareKeyExactly(j1: string, j2: string)
    requires j1 != "" && |j1| < |j2|
    ensures (exists s1, t1, s2, t2 :: SharesKey(j1, s1, t1, j2, s2, t2)) <==> Continues(j2, j1) && |j2| <= MAX_JOB_ID
  {
    if s1, t1, s2, t2 :| SharesKey(j1, s1, t1, j2, s2, t2) {
      KeyLength(j1, s1, t1);
      KeyLength(j2, s2, t2);
      DateTextHasNoColon(t1);
      LongerJobSwallowsDate(j1, DateText(t1), Partition(s1, t1), j2, DateText(t2), Partition(s2, t2));
    }
    if Continues(j2, j1) && |j2| <= MAX_JOB_ID {
      var at: Time :| InCalendar(at) && Heads(j1 + ":" + DateText(at), j2);
      ContinuedJobsShare(j1, j2, at);
    }
  }

  /** A mimicking schedule shares a key with the schedule it mimics, whatever the job. */
  lemma {:induction false} MimicsShare(daily: Schedule, interval: Schedule, at: Time)
    requires daily.rule.Daily? && interval.rule.Interval? && daily.id == interval.id + "@" + ClockText(at)
    requires |daily.id| <= MAX_JOB_ID
    ensures SharesKey("j", daily, at % DAY, "j", interval, at % DAY)
  {
    var t := at % DAY;
    ClockTextOfDay(at);
    DateTextWidth(t);
    assert daily.id[|interval.id|] == '@' && !IsSpace('@');
    assert Partition(interval, t) == daily.id;
  }

  /** A daily and an interval schedule can share a key of one job exactly when the daily one mimics the other. */
  lemma {:induction false} SchedulesShareKeyExactly(daily: Schedule, interval: Schedule)
    requires daily.rule.Daily? && interval.rule.Interval?
    ensures (exists j, t1, t2 :: SharesKey(j, daily, t1, j, interval, t2))
      <==> Mimics(daily, interval) && |daily.id| <= MAX_JOB_ID
  {
    if j, t1, t2 :| SharesKey(j, daily, t1, j, interval, t2) {
      KeyLength(j, daily, t1);
      KeyLength(j, interval, t2);
      DateTextWidth(t1);
      DateTextWidth(t2);
      KeyPieces(j, DateText(t1), daily.id, j, DateText(t2), Partition(interval, t2));
    }
    if Mimics(daily, interval) && |daily.id| <= MAX_JOB_ID {
      var at: Time :| daily.id == interval.id + "@" + ClockText(at);
      MimicsShare(daily, interval, at);
    }
  }

  /** Colons in a job id let two different triggers share one key. */
  lemma {:induction false} ColonInJobIdCollides(at: Time)
    requires InCalendar(at)
    ensures
      var date := DateText(at);
      var s1, s2 := Schedule(date + ":s", Daily(0), true), Schedule("s", Daily(0), true);
      s1.id != s2.id && SharesKey("j", s1, at, "j:" + date, s2, at)
  {
    var date := DateText(at);
    DateTextWidth(at);
    var s1, s2 := Schedule(date + ":s", Daily(0), true), Schedule("s", Daily(0), true);
    assert s1.id[11] == 's' && s2.id[0] == 's';
    assert "j" + ":" + date + (":" + s1.id) == "j:" + date + ":" + date + (":" + s2.id);
  }

  /** An at sign in a daily schedule id lets it take an interval schedule's slot. */
  lemma {:induction false} AtSignInDailyIdCollides(at: Time, seconds: real)
    ensures
      var daily, interval := Schedule("s@" + ClockText(at), Daily(0), true), Schedule("s", Interval(seconds), true);
      SharesKey("j", daily, at % DAY, "j", interval, at % DAY)
  {
    var daily, interval := Schedule("s@" + ClockText(at), Daily(0), true), Schedule("s", Interval(seconds), true);
    ClockTextWidth(at);
    assert daily.id == interval.id + "@" + ClockText(at);
    MimicsShare(daily, interval, at);
  }

  /** The ids make a key: the job id is not empty, a daily schedule id not blank, and together they leave room. */
  predicate KeyFits(job: string, s: Schedule) {
    && job != "" && (s.rule.Daily? ==> !IsBlank(s.id))
    && |job| + |s.id| + (if s.rule.Daily? then 12 else 26) <= MAX_KEY_LENGTH
  }

  /** Exactly when building a scheduled key raises; callers can check it on the ids alone. */
  lemma {:induction false} KeyErrorsExactly(job: string, s: Schedule, at: Time)
    requires InCalendar(at)
    ensures ScheduledKey(job, s, at).Err? <==> !KeyFits(job, s)
  {
    DateTextWidth(at);
    ClockTextWidth(at);
    if s.rule.Interval? {
      assert Partition(s, at)[|s.id|] == '@' && !IsSpace('@');
    }
  }

  // ---------------- what a key says ----------------

  /** Ten characters `YYYY-MM-DD` that name this day, counted in days since 1970-01-01. */
  ghost predicate SpellsDate(text: string, day: int) {
    && |text| == 10 && text[4] == '-' && text[7] == '-'
    && var y, m, d := Value(text[..4]), Value(text[5..7]), Value(text[8..]);
       && y >= 1 && 1 <= m <= 12 && 1 <= d <= DaysInMonth(y, m)
       && (y - 1) * 365 + (y - 1) / 4 - (y - 1) / 100 + (y - 1) / 400 + DaysBeforeMonth(y, m) + d - 719_163 == day
  }

  /** Thirteen characters `HHMMSS.ffffff` that name this microsecond of a day. */
  ghost predicate SpellsClock(text: string, micros: int) {
    && |text| == 13 && text[6] == '.'
    && var h, m, s, u := Value(text[..2]), Value(text[2..4]), Value(text[4..6]), Value(text[7..]);
       m < 60 && s < 60 && u < 1_000_000 && ((h * 60 + m) * 60 + s) * 1_000_000 + u == micros
  }

  lemma {:induction false} DateTextSpells(at: Time)
    requires InCalendar(at)
    ensures SpellsDate(DateText(at), DateOf(at))
  {
    var d := FromOrdinal(DateOf(at) + EPOCH);
    DateTextWidth(at);
    DateRoundTrip(DateOf(at) + EPOCH);
    DaysBeforeYearClosed(d.year);
    assert DateText(at)[8..] == DateText(at)[8..10];
    PaddedRoundTrip(d.year, 4);
    PaddedRoundTrip(d.month, 2);
    PaddedRoundTrip(d.day, 2);
  }

  lemma {:induction false} ClockTextSpells(at: Time)
    ensures SpellsClock(ClockText(at), at % DAY)
  {
    var s := SecondOfDay(at);
    ClockTextWidth(at);
    assert ClockText(at)[7..] == ClockText(at)[7..13];
    PaddedRoundTrip(s / 3600, 2);
    PaddedRoundTrip(s / 60 % 60, 2);
    PaddedRoundTrip(s % 60, 2);
    PaddedRoundTrip(at % 1_000_000, 6);
    MicrosOfDay(at);
    assert s / 60 / 60 == s / 3600;
  }

  /** A key is the job id, the UTC date of the slot and the schedule id, and for an interval the time of day. */
  lemma {:induction false} KeySpellsOut(job: string, s: Schedule, at: Time) returns (date: string, clock: string)
    requires InCalendar(at) && ScheduledKey(job, s, at).Ok?
    ensures SpellsDate(date, DateOf(at)) && SpellsClock(clock, at % DAY)
    ensures ScheduledKey(job, s, at).value ==
      job + ":" + date + (":" + if s.rule.Daily? then s.id else s.id + "@" + clock)
  {
    date, clock := DateText(at), ClockText(at);
    DateTextSpells(at);
    ClockTextSpells(at);
    KeyLength(job, s, at);
  }
}
