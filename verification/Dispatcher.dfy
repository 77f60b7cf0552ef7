/**
 The dispatcher's tick: pop what is due, claim and publish each trigger, push its next slot.
 The injected callbacks and the queue answer from outside; a tick is correct for all their answers.
 */
module Dispatcher {
  import opened Common
  import opened Schedule
  import opened Models
  import opened Idempotency
  import opened TimerHeap
  import Text

  /** A due slot carries nothing besides its trigger. */
  type Slot = Entry<()>

  datatype Claim = Won | Lost | Raised

  datatype Reply = Reply(claim: Claim, publishRaises: bool)

  datatype Sent = Sent(trigger: Trigger, slot: Time, key: string, run: RunId)

  datatype Desk = Desk(heap: seq<Slot>, nextSeq: nat, sent: seq<Sent>, nextRun: RunId)

  function Push(d: Desk, at: Time, t: Trigger): Desk {
    d.(heap := Insert(d.heap, Entry(at, d.nextSeq, t, ())), nextSeq := d.nextSeq + 1)
  }

  /** What becomes of one due entry: is it published, and when is it due again. */
  datatype Verdict = Verdict(publish: Option<string>, draws: bool, next: Result<Time, Failure>)

  function KeyOf(e: Slot): Result<string, KeyError>
    requires InCalendar(e.at)
  {
    ScheduledKey(e.trigger.job.id, e.trigger.schedule, e.at)
  }

  /** The branches of one dispatch. `claims` says whether a claim callback is installed. */
  function Judge(claims: bool, e: Slot, now: Time, reply: Reply): Verdict
    requires InCalendar(e.at)
  {
    if !e.trigger.Enabled() then Verdict(None, false, NextSlot(e.trigger, now))
    else if KeyOf(e).Err? then Verdict(None, false, Err(BadKey(KeyOf(e).error)))
    else if claims && !reply.claim.Won? then Verdict(None, true, NextSlot(e.trigger, now))
    else if reply.publishRaises then Verdict(None, true, Ok(e.at))
    else Verdict(Some(KeyOf(e).value), true, NextSlot(e.trigger, now))
  }

  /** The entry is enabled, its ids make a key, and the slot was won if it was to be claimed. */
  predicate IsWon(claims: bool, e: Slot, reply: Reply) {
    e.trigger.Enabled() && KeyFits(e.trigger.job.id, e.trigger.schedule) && (claims ==> reply.claim.Won?)
  }

  predicate IsPublished(claims: bool, e: Slot, reply: Reply) { IsWon(claims, e, reply) && !reply.publishRaises }

  /** The slot was won but could not be published. */
  predicate Bounces(claims: bool, e: Slot, reply: Reply) { IsWon(claims, e, reply) && reply.publishRaises }

  /** A run id is drawn for every enabled entry with a key, before its slot is claimed. */
  predicate IsDrawn(e: Slot) { e.trigger.Enabled() && KeyFits(e.trigger.job.id, e.trigger.schedule) }

  /** A slot that could not be published is tried again; every other entry waits for its next slot. */
  function DueAgain(claims: bool, e: Slot, now: Time, reply: Reply): Time {
    if Bounces(claims, e, reply) then e.at else ComputeNextRun(e.trigger.schedule.rule, now)
  }

  /** The ids of an enabled entry make no key, or its next slot is past the calendar. */
  predicate EntryRaises(claims: bool, e: Slot, now: Time, reply: Reply) {
    || (e.trigger.Enabled() && !KeyFits(e.trigger.job.id, e.trigger.schedule))
    || !InCalendar(DueAgain(claims, e, now, reply))
  }

  /** Exactly when an exception leaves the tick at this entry. */
  lemma {:induction false} JudgeFailsExactly(claims: bool, e: Slot, now: Time, reply: Reply)
    requires InCalendar(e.at)
    ensures Judge(claims, e, now, reply).next.Err? <==> EntryRaises(claims, e, now, reply)
  {
    KeyErrorsExactly(e.trigger.job.id, e.trigger.schedule, e.at);
  }

  /** What the verdict says of an entry, read off the entry and the answers. */
  lemma {:induction false} JudgeMeans(claims: bool, e: Slot, now: Time, reply: Reply)
    requires InCalendar(e.at)
    ensures
      var v := Judge(claims, e, now, reply);
      && (v.publish.Some? <==> IsPublished(claims, e, reply)) && (v.draws <==> IsDrawn(e))
      && (v.publish.Some? ==> KeyOf(e) == Ok(v.publish.value))
      && (v.next.Ok? ==> v.next.value == DueAgain(claims, e, now, reply))
  {
    KeyErrorsExactly(e.trigger.job.id, e.trigger.schedule, e.at);
  }

  function Handle(d: Desk, e: Slot, v: Verdict): Handled<Desk> {
    match v.next
    case Err(f) => Handled(Told(d, e, v), Some(f))
    case Ok(at) => Handled(Push(Told(d, e, v), at, e.trigger), None)
  }

  /** The desk once the entry's run is drawn and its message published, as far as the verdict goes. */
  function Told(d: Desk, e: Slot, v: Verdict): Desk {
    d.(nextRun := if v.draws then d.nextRun + 1 else d.nextRun,
       sent := d.sent + if v.publish.None? then [] else [Sent(e.trigger, e.at, v.publish.value, d.nextRun)])
  }

  function Judgements(claims: bool, due: seq<Slot>, now: Time, replies: nat -> Reply): seq<Verdict>
    requires forall i :: 0 <= i < |due| ==> InCalendar(due[i].at)
  {
    seq(|due|, i requires 0 <= i < |due| => Judge(claims, due[i], now, replies(i)))
  }

  // ---------------- what every desk satisfies ----------------

  /** The order in which one trigger's slots come: strict unless its interval rounds to nothing. */
  predicate Earlier(t: Trigger, a: Time, b: Time) {
    a <= b && (t.schedule.rule.Advances() ==> a < b)
  }

  /** A daily slot lies on the rule's time of day. */
  predicate Aligned(e: Slot) {
    && InCalendar(e.at) && e.trigger.schedule.rule.Valid()
    && (e.trigger.schedule.rule.Daily? ==> e.at % DAY == e.trigger.schedule.rule.timeOfDay)
  }

  predicate AfterAllSent(sent: seq<Sent>, e: Slot) {
    forall i :: 0 <= i < |sent| && sent[i].trigger == e.trigger ==> Earlier(e.trigger, sent[i].slot, e.at)
  }

  predicate SentOk(s: Sent) {
    && InCalendar(s.slot) && s.trigger.schedule.rule.Valid()
    && (s.trigger.schedule.rule.Daily? ==> s.slot % DAY == s.trigger.schedule.rule.timeOfDay)
    && ScheduledKey(s.trigger.job.id, s.trigger.schedule, s.slot) == Ok(s.key)
  }

  predicate AllSentOk(sent: seq<Sent>) { forall i :: 0 <= i < |sent| ==> SentOk(sent[i]) }

  predicate SlotsAscend(sent: seq<Sent>) {
    forall i, j :: 0 <= i < j < |sent| && sent[i].trigger == sent[j].trigger ==>
      Earlier(sent[i].trigger, sent[i].slot, sent[j].slot)
  }

  predicate RunsAscend(sent: seq<Sent>) { forall i, j :: 0 <= i < j < |sent| ==> sent[i].run < sent[j].run }

  predicate SentInOrder(sent: seq<Sent>) { AllSentOk(sent) && SlotsAscend(sent) && RunsAscend(sent) }

  /** `pending` are the entries popped by the current tick and not handled yet. */
  ghost predicate DeskOk(reg: seq<Trigger>, d: Desk, pending: seq<Slot>) {
    && Registered(reg) && Items(d.heap) + Items(pending) <= multiset(reg)
    && Ordered(d.heap) && Numbered(d.heap, d.nextSeq)
    && (forall e :: e in d.heap || e in pending ==> Aligned(e) && AfterAllSent(d.sent, e))
    && SentInOrder(d.sent)
    && (forall i :: 0 <= i < |d.sent| ==> d.sent[i].run < d.nextRun && d.sent[i].trigger.origin < |reg|)
  }

  /** Pushing a later slot of the trigger at hand keeps everything in order. */
  lemma {:induction false} PushKeeps(reg: seq<Trigger>, d: Desk, e: Slot, rest: seq<Slot>)
    requires DeskOk(reg, d, [e] + rest)
    ensures DeskOk(reg, Push(d, e.at, e.trigger), rest)
  {
    var x := Entry(e.at, d.nextSeq, e.trigger, ());
    InsertKeepsOrder(d.heap, x);
    InsertKeepsNumbers(d.heap, x);
    ItemsInsert(d.heap, x);
    ItemsCons(e, rest);
    assert e in [e] + rest;
    assert Aligned(e) && AfterAllSent(d.sent, e);
    forall y | y in Insert(d.heap, x) || y in rest ensures Aligned(y) && AfterAllSent(d.sent, y) {
      InsertHas(d.heap, x, y);
      assert y in rest ==> y in [e] + rest;
    }
  }

  lemma {:induction false} SlotsStillAscend(sent: seq<Sent>, s: Sent, e: Slot)
    requires SlotsAscend(sent) && s.trigger == e.trigger && s.slot == e.at && AfterAllSent(sent, e)
    ensures SlotsAscend(sent + [s])
  {
  }

  lemma {:induction false} RunsStillAscend(sent: seq<Sent>, s: Sent)
    requires RunsAscend(sent) && forall i :: 0 <= i < |sent| ==> sent[i].run < s.run
    ensures RunsAscend(sent + [s])
  {
  }

  lemma {:induction false} SentGrows(sent: seq<Sent>, s: Sent, e: Slot)
    requires SentInOrder(sent) && SentOk(s) && s.trigger == e.trigger && s.slot == e.at && AfterAllSent(sent, e)
    requires forall i :: 0 <= i < |sent| ==> sent[i].run < s.run
    ensures SentInOrder(sent + [s])
  {
    SlotsStillAscend(sent, s, e);
    RunsStillAscend(sent, s);
  }

  /** Recording the entry's own slot as sent: all that is left of the trigger is later. */
  lemma {:induction false} SendKeeps(reg: seq<Trigger>, d: Desk, e: Slot, rest: seq<Slot>, key: string)
    requires DeskOk(reg, d, [e] + rest) && SentOk(Sent(e.trigger, e.at, key, d.nextRun))
    ensures var sent := d.sent + [Sent(e.trigger, e.at, key, d.nextRun)];
      && SentInOrder(sent)
      && (forall x :: x in d.heap || x in rest ==> AfterAllSent(sent, x))
  {
    var s := Sent(e.trigger, e.at, key, d.nextRun);
    assert e in [e] + rest;
    SentGrows(d.sent, s, e);
    forall x | x in d.heap || x in rest ensures AfterAllSent(d.sent + [s], x) {
      assert x in rest ==> x in [e] + rest;
      assert AfterAllSent(d.sent, x);
      OthersDiffer(reg, d.heap, e, rest, x);
    }
  }

  /** What the proofs need to know of a verdict. */
  ghost predicate Sound(e: Slot, v: Verdict) {
    && (v.publish.Some? ==> v.draws && SentOk(Sent(e.trigger, e.at, v.publish.value, 0)))
    && (v.next.Ok? ==>
          && Aligned(e.(at := v.next.value)) && e.at <= v.next.value
          && (v.publish.Some? ==> Earlier(e.trigger, e.at, v.next.value)))
  }

  lemma {:induction false} JudgeIsSound(claims: bool, e: Slot, now: Time, reply: Reply)
    requires Aligned(e) && e.at <= now
    ensures Sound(e, Judge(claims, e, now, reply))
  {
    NextRunIsLaterIffAdvances(e.trigger.schedule.rule, now);
    if e.trigger.schedule.rule.Daily? {
      DailyNextIsFirst(e.trigger.schedule.rule.timeOfDay, now, e.at);
    }
  }

  lemma {:induction false} DropPending(reg: seq<Trigger>, d: Desk, e: Slot, rest: seq<Slot>)
    requires DeskOk(reg, d, [e] + rest)
    ensures DeskOk(reg, d, rest)
  {
    ItemsCons(e, rest);
    assert forall x :: x in rest ==> x in [e] + rest;
  }

  /** The same trigger, due later. */
  lemma {:induction false} MovePending(reg: seq<Trigger>, d: Desk, e: Slot, rest: seq<Slot>, at: Time)
    requires DeskOk(reg, d, [e] + rest)
    requires e.at <= at && Aligned(e.(at := at))
    ensures DeskOk(reg, d, [e.(at := at)] + rest)
  {
    ItemsCons(e, rest);
    ItemsCons(e.(at := at), rest);
    assert e in [e] + rest && AfterAllSent(d.sent, e);
    assert AfterAllSent(d.sent, e.(at := at));
    assert forall x :: x in rest ==> x in [e] + rest;
  }

  /** The desk once the entry's own slot is recorded as sent. */
  function WithSent(d: Desk, e: Slot, key: string): Desk {
    d.(sent := d.sent + [Sent(e.trigger, e.at, key, d.nextRun)], nextRun := d.nextRun + 1)
  }

  lemma {:induction false} SendDropsPending(reg: seq<Trigger>, d: Desk, e: Slot, rest: seq<Slot>, key: string)
    requires DeskOk(reg, d, [e] + rest) && SentOk(Sent(e.trigger, e.at, key, 0))
    ensures DeskOk(reg, WithSent(d, e, key), rest)
  {
    assert SentOk(Sent(e.trigger, e.at, key, d.nextRun));
    ItemsCons(e, rest);
    OriginIsKnown(reg, e.trigger, Items(d.heap) + Items([e] + rest));
    SendKeeps(reg, d, e, rest, key);
    DropPending(reg, d, e, rest);
  }

  lemma {:induction false} SendMovesPending(reg: seq<Trigger>, d: Desk, e: Slot, rest: seq<Slot>, key: string, at: Time)
    requires DeskOk(reg, d, [e] + rest) && SentOk(Sent(e.trigger, e.at, key, 0))
    requires Earlier(e.trigger, e.at, at) && Aligned(e.(at := at))
    ensures DeskOk(reg, WithSent(d, e, key), [e.(at := at)] + rest)
  {
    var x := e.(at := at);
    assert e in [e] + rest && AfterAllSent(d.sent, e);
    SendDropsPending(reg, d, e, rest, key);
    ItemsCons(e, rest);
    ItemsCons(x, rest);
    assert AfterAllSent(WithSent(d, e, key).sent, x);
  }

  lemma {:induction false} HandleSentKeeps(reg: seq<Trigger>, d: Desk, e: Slot, rest: seq<Slot>, v: Verdict)
    requires DeskOk(reg, d, [e] + rest) && Sound(e, v) && v.publish.Some?
    ensures DeskOk(reg, Handle(d, e, v).desk, rest)
  {
    var key := v.publish.value;
    assert Told(d, e, v) == WithSent(d, e, key);
    if v.next.Ok? {
      var x := e.(at := v.next.value);
      SendMovesPending(reg, d, e, rest, key, x.at);
      PushKeeps(reg, WithSent(d, e, key), x, rest);
    } else {
      SendDropsPending(reg, d, e, rest, key);
    }
  }

  lemma {:induction false} DrawKeeps(reg: seq<Trigger>, d: Desk, e: Slot, rest: seq<Slot>, v: Verdict)
    requires DeskOk(reg, d, [e] + rest) && v.publish.None?
    ensures DeskOk(reg, Told(d, e, v), [e] + rest)
  {
    assert d.sent + [] == d.sent;
  }

  lemma {:induction false} HandleKeeps(reg: seq<Trigger>, d: Desk, e: Slot, rest: seq<Slot>, v: Verdict)
    requires DeskOk(reg, d, [e] + rest) && Sound(e, v)
    ensures DeskOk(reg, Handle(d, e, v).desk, rest)
  {
    if v.publish.Some? {
      HandleSentKeeps(reg, d, e, rest, v);
    } else {
      DrawKeeps(reg, d, e, rest, v);
      if v.next.Ok? {
        MovePending(reg, Told(d, e, v), e, rest, v.next.value);
        PushKeeps(reg, Told(d, e, v), e.(at := v.next.value), rest);
      } else {
        DropPending(reg, Told(d, e, v), e, rest);
      }
    }
  }

  // ---------------- whole ticks ----------------

  ghost predicate AllSound(due: seq<Slot>, vs: seq<Verdict>)
    requires |due| == |vs|
  {
    forall i {:trigger Sound(due[i], vs[i])} :: 0 <= i < |due| ==> Sound(due[i], vs[i])
  }

  lemma {:induction false} HandleAllKeeps(reg: seq<Trigger>, d: Desk, due: seq<Slot>, vs: seq<Verdict>, n: nat)
    requires DeskOk(reg, d, due) && n <= |due| == |vs| && AllSound(due, vs)
    ensures DeskOk(reg, HandleAll(Handle, d, due, vs, n).desk, due[n..])
  {
    assert due[0..] == due && HandleAll(Handle, d, due, vs, 0).desk == d;
    if n > 0 {
      HandleAllKeeps(reg, d, due, vs, n - 1);
      HandleOneMoreKeeps(reg, d, due, vs, n - 1);
    }
  }

  lemma {:induction false} HandleOneMoreKeeps(reg: seq<Trigger>, d: Desk, due: seq<Slot>, vs: seq<Verdict>, n: nat)
    requires n < |due| == |vs| && AllSound(due, vs) && DeskOk(reg, HandleAll(Handle, d, due, vs, n).desk, due[n..])
    ensures DeskOk(reg, HandleAll(Handle, d, due, vs, n + 1).desk, due[n + 1..])
  {
    var before, after := HandleAll(Handle, d, due, vs, n), HandleAll(Handle, d, due, vs, n + 1);
    assert after == if before.failure.Some? then before else Handle(before.desk, due[n], vs[n]);
    assert due[n..][1..] == due[n + 1..] && Sound(due[n], vs[n]);
    HandleNextKeeps(reg, before, due[n..], vs[n]);
  }

  lemma {:induction false} HandleNextKeeps(reg: seq<Trigger>, before: Handled<Desk>, pending: seq<Slot>, v: Verdict)
    requires pending != [] && DeskOk(reg, before.desk, pending) && Sound(pending[0], v)
    ensures DeskOk(reg, (if before.failure.Some? then before else Handle(before.desk, pending[0], v)).desk,
      pending[1..])
  {
    var e, rest := pending[0], pending[1..];
    assert pending == [e] + rest;
    if before.failure.Some? {
      DropPending(reg, before.desk, e, rest);
    } else {
      HandleKeeps(reg, before.desk, e, rest, v);
    }
  }

  predicate Fails(v: Verdict) { v.next.Err? }

  function HeapOf(d: Desk): seq<Slot> { d.heap }

  /** The slots published by the first `n` entries, in order. */
  function Announced(due: seq<Slot>, vs: seq<Verdict>, n: nat): seq<(Trigger, Time)>
    requires n <= |due| == |vs|
  {
    if n == 0 then []
    else Announced(due, vs, n - 1) + SlotOf(due[n - 1], vs[n - 1])
  }

  function SlotOf(e: Slot, v: Verdict): seq<(Trigger, Time)> {
    if v.publish.Some? then [(e.trigger, e.at)] else []
  }

  function SlotsOf(sent: seq<Sent>): seq<(Trigger, Time)> {
    seq(|sent|, i requires 0 <= i < |sent| => (sent[i].trigger, sent[i].slot))
  }

  lemma {:induction false} SlotsOfAppend(sent: seq<Sent>, s: Sent)
    ensures SlotsOf(sent + [s]) == SlotsOf(sent) + [(s.trigger, s.slot)]
  {
  }

  lemma {:induction false} PlaceKept(d: Desk, e: Slot, v: Verdict)
    ensures KeepsPlace(Handle, HeapOf, Fails, d, e, v)
  {
    if v.next.Ok? {
      ItemsInsert(d.heap, Entry(v.next.value, d.nextSeq, e.trigger, ()));
    }
  }

  /** Whatever the verdict, an entry raises or its pair keeps its one place in the heap. */
  lemma {:induction false} PlacesKept()
    ensures AllKeepPlaces(Handle, HeapOf, Fails)
  {
    forall d, e, v ensures KeepsPlace(Handle, HeapOf, Fails, d, e, v) {
      PlaceKept(d, e, v);
    }
  }

  function SlotsSent(d: Desk): seq<(Trigger, Time)> { SlotsOf(d.sent) }

  /** The slots sent once the first `k` entries are handled. */
  function ExpectedSlots(d: Desk, due: seq<Slot>, vs: seq<Verdict>): nat -> seq<(Trigger, Time)>
    requires |due| == |vs|
  {
    (k: nat) => SlotsOf(d.sent) + if k <= |due| then Announced(due, vs, k) else []
  }

  /** The published slots are those of the entries handled, in the same order. */
  lemma {:induction false} TickPublishesInOrder(d: Desk, due: seq<Slot>, vs: seq<Verdict>, n: nat)
    requires n <= |due| == |vs|
    ensures SlotsOf(HandleAll(Handle, d, due, vs, n).desk.sent)
      == SlotsOf(d.sent) + Announced(due, vs, Begun(Fails, vs, n))
  {
    PlacesKept();
    forall x, k: nat | k < |due| ensures Tracks(Handle, SlotsSent, ExpectedSlots(d, due, vs), due, vs, x, k) {
      PublishesOne(x, due[k], vs[k]);
      var a, b, c := SlotsOf(d.sent), Announced(due, vs, k), SlotOf(due[k], vs[k]);
      assert (a + b) + c == a + (b + c);
    }
    assert SlotsOf(d.sent) + [] == SlotsOf(d.sent);
    TickFollows(Handle, HeapOf, Fails, SlotsSent, ExpectedSlots(d, due, vs), d, due, vs, n);
  }

  /** What was sent before a tick is still there, unchanged, after it. */
  lemma {:induction false} SentOnlyGrows(d: Desk, due: seq<Slot>, vs: seq<Verdict>, n: nat)
    requires n <= |due| == |vs|
    ensures d.sent <= HandleAll(Handle, d, due, vs, n).desk.sent
  {
    PlacesKept();
    var view, always := (x: Desk) => d.sent <= x.sent, (k: nat) => true;
    forall x, k: nat | k < |due| ensures Tracks(Handle, view, always, due, vs, x, k) {
    }
    TickFollows(Handle, HeapOf, Fails, view, always, d, due, vs, n);
  }

  lemma {:induction false} PublishesOne(d: Desk, e: Slot, v: Verdict)
    ensures SlotsOf(Handle(d, e, v).desk.sent) == SlotsOf(d.sent) + SlotOf(e, v)
  {
    if v.publish.Some? {
      SlotsOfAppend(d.sent, Sent(e.trigger, e.at, v.publish.value, d.nextRun));
    } else {
      assert d.sent + [] == d.sent;
    }
  }

  /** Every entry of the new heap was there before or is the next slot of a handled entry. */
  lemma {:induction false} HeapIsExplained(d: Desk, due: seq<Slot>, vs: seq<Verdict>, n: nat, x: Slot)
    requires n <= |due| == |vs| && x in HandleAll(Handle, d, due, vs, n).desk.heap
    ensures x in d.heap || exists i :: 0 <= i < n && x.trigger == due[i].trigger && vs[i].next == Ok(x.at)
  {
    if n > 0 {
      var before := HandleAll(Handle, d, due, vs, n - 1);
      if x in before.desk.heap {
        HeapIsExplained(d, due, vs, n - 1, x);
      } else {
        InsertHas(before.desk.heap, Entry(vs[n - 1].next.value, before.desk.nextSeq, due[n - 1].trigger, ()), x);
      }
    }
  }

  /** Entry `i` was put back at its own slot because its publication raised. */
  predicate PutBack(claims: bool, due: seq<Slot>, replies: nat -> Reply, i: nat, x: Slot) {
    && i < |due| && Bounces(claims, due[i], replies(i))
    && x.trigger == due[i].trigger && x.at == due[i].at
  }

  /** After a tick an entry is still due only if it was put back, or its interval rounds to nothing. */
  lemma {:induction false} LeftDue(d: Desk, claims: bool, due: seq<Slot>, now: Time, replies: nat -> Reply, x: Slot)
    requires forall i :: 0 <= i < |due| ==> InCalendar(due[i].at) && Aligned(due[i])
    requires forall e :: e in d.heap ==> e.at > now
    requires x in HandleAll(Handle, d, due, Judgements(claims, due, now, replies), |due|).desk.heap && x.at <= now
    ensures !x.trigger.schedule.rule.Advances() || exists i :: 0 <= i < |due| && PutBack(claims, due, replies, i, x)
  {
    var vs := Judgements(claims, due, now, replies);
    HeapIsExplained(d, due, vs, |due|, x);
    var i :| 0 <= i < |due| && x.trigger == due[i].trigger && vs[i].next == Ok(x.at);
    assert Aligned(due[i]);
    if x.trigger.schedule.rule.Advances() {
      StillDue(claims, due[i], now, replies(i), x.at);
      assert PutBack(claims, due, replies, i, x);
    }
  }

  lemma {:induction false} StillDue(claims: bool, e: Slot, now: Time, reply: Reply, at: Time)
    requires Aligned(e) && e.trigger.schedule.rule.Advances() && Judge(claims, e, now, reply).next == Ok(at)
      && at <= now
    ensures Bounces(claims, e, reply) && at == e.at
  {
    JudgeMeans(claims, e, now, reply);
    NextRunIsLaterIffAdvances(e.trigger.schedule.rule, now);
  }

  /**
   One trigger never publishes a slot twice: its slots strictly increase over any sequence of ticks,
   whatever the clock does, a daily one gets at most one slot per date, and no two share a key.
   */
  lemma {:induction false} SlotsNeverRecur(reg: seq<Trigger>, d: Desk, i: nat, j: nat)
    requires DeskOk(reg, d, []) && i < j < |d.sent|
    requires d.sent[i].trigger == d.sent[j].trigger && d.sent[i].trigger.schedule.rule.Advances()
    ensures d.sent[i].slot < d.sent[j].slot
    ensures d.sent[i].trigger.schedule.rule.Daily? ==> DateOf(d.sent[i].slot) < DateOf(d.sent[j].slot)
    ensures d.sent[i].key != d.sent[j].key
  {
    var a, b := d.sent[i], d.sent[j];
    assert SentOk(a) && SentOk(b) && Earlier(a.trigger, a.slot, b.slot);
    var t := a.trigger;
    NoIdClashesWithItself(t.job.id);
    KeysAgreeExactlyOnSlots(t.job.id, t.schedule, a.slot, t.job.id, t.schedule, b.slot);
  }

  lemma {:induction false} NoIdClashesWithItself(job: string)
    ensures !JobsClash(job, job)
  {
  }

  /** A trigger whose key would be too long: the tick that finds it due raises and drops it from the heap. */
  lemma {:induction false} LongIdLosesTrigger(now: Time, reply: Reply)
    requires InCalendar(now)
    ensures
      var t := Trigger(0, Job(Text.Zeros(300), true, RetryPolicy(1, Fixed, 0, 0)), Schedule("s", Daily(0), true));
      var e := Entry(now, 0, t, ());
      HandleAll(Handle, Desk([], 1, [], 0), [e], [Judge(true, e, now, reply)], 1)
        == Handled(Desk([], 1, [], 0), Some(BadKey(KeyTooLong)))
  {
    var t := Trigger(0, Job(Text.Zeros(300), true, RetryPolicy(1, Fixed, 0, 0)), Schedule("s", Daily(0), true));
    var e := Entry(now, 0, t, ());
    LongIdHasNoKey(e);
    FailingEntry(Desk([], 1, [], 0), e, Judge(true, e, now, reply), BadKey(KeyTooLong));
  }

  lemma {:induction false} LongIdHasNoKey(e: Slot)
    requires InCalendar(e.at) && e.trigger.job.id == Text.Zeros(300) && e.trigger.schedule.id == "s"
    ensures KeyOf(e) == Err(KeyTooLong)
  {
    Text.ZerosAreZero(300);
    KeyErrorsExactly(e.trigger.job.id, e.trigger.schedule, e.at);
    assert !IsSpace(e.trigger.schedule.id[0]) && !IsSpace('@');
    assert e.trigger.schedule.rule.Interval? ==> Partition(e.trigger.schedule, e.at)[1] == '@';
    DateTextWidth(e.at);
  }

  lemma {:induction false} FailingEntry(d: Desk, e: Slot, v: Verdict, f: Failure)
    requires v == Verdict(None, false, Err(f))
    ensures HandleAll(Handle, d, [e], [v], 1) == Handled(d, Some(f))
  {
    assert HandleAll(Handle, d, [e], [v], 0) == Handled(d, None);
    assert d.sent + [] == d.sent;
  }

  // ---------------- the dispatcher ----------------

  ghost predicate Dated(h: seq<Slot>) { forall i :: 0 <= i < |h| ==> InCalendar(h[i].at) }

  /**
   The popped entries are handled in order up to the first that raises; each of those keeps exactly
   one place in the heap, and the slots published are theirs, in the same order.
   */
  ghost predicate Processed(before: Desk, after: Desk, failure: Option<Failure>, now: Time, vs: seq<Verdict>)
    requires |vs| == DueCount(before.heap, now)
  {
    var due, waiting, c := Due(before.heap, now), Waiting(before.heap, now), FirstFailing(Fails, vs, |vs|);
    && (failure.Some? <==> c < |due|)
    && Items(after.heap) == Items(waiting) + Items(due[..c])
    && (failure.None? ==> Items(after.heap) == Items(before.heap))
    && before.sent <= after.sent
    && SlotsOf(after.sent) == SlotsOf(before.sent) + Announced(due, vs, Begun(Fails, vs, |vs|))
  }

  /** What is still due after a tick was put back at its own slot because publishing raised. */
  ghost predicate OnlyPutBackIsDue(before: Desk, after: Desk, claims: bool, now: Time, replies: nat -> Reply) {
    forall x :: x in after.heap && x.at <= now && x.trigger.schedule.rule.Advances() ==>
      exists i :: 0 <= i < DueCount(before.heap, now) && PutBack(claims, Due(before.heap, now), replies, i, x)
  }

  lemma {:induction false} PopKeeps(reg: seq<Trigger>, d: Desk, now: Time)
    requires DeskOk(reg, d, [])
    ensures DeskOk(reg, d.(heap := Waiting(d.heap, now)), Due(d.heap, now)) && Dated(Due(d.heap, now))
    ensures Items(d.heap) == Items(Due(d.heap, now)) + Items(Waiting(d.heap, now))
    ensures forall i :: 0 <= i < DueCount(d.heap, now) ==> Aligned(Due(d.heap, now)[i]) && Due(d.heap, now)[i].at <= now
  {
    DueExactly(d.heap, now);
    ItemsConcat(Due(d.heap, now), Waiting(d.heap, now));
    assert Triggers<()>([]) == [];
    var due, waiting := Due(d.heap, now), Waiting(d.heap, now);
    forall e | e in waiting || e in due ensures e in d.heap && Aligned(e) && AfterAllSent(d.sent, e) {
      assert e in due + waiting;
    }
  }

  /** The heap with its due front removed. */
  function PopFront(d: Desk, now: Time): Desk { d.(heap := Waiting(d.heap, now)) }

  lemma {:induction false} TickKeeps(reg: seq<Trigger>, d: Desk, claims: bool, now: Time, replies: nat -> Reply)
    requires DeskOk(reg, d, []) && Dated(Due(d.heap, now))
    ensures
      var due := Due(d.heap, now);
      DeskOk(reg, HandleAll(Handle, PopFront(d, now), due, Judgements(claims, due, now, replies), |due|).desk, [])
  {
    PopKeeps(reg, d, now);
    var due := Due(d.heap, now);
    var vs := Judgements(claims, due, now, replies);
    forall i | 0 <= i < |due| ensures Sound(due[i], vs[i]) {
      JudgeIsSound(claims, due[i], now, replies(i));
    }
    HandleAllKeeps(reg, PopFront(d, now), due, vs, |due|);
    assert due[|due|..] == [];
  }

  lemma {:induction false} TickLeavesDue(reg: seq<Trigger>, d: Desk, claims: bool, now: Time,
                                         replies: nat -> Reply, x: Slot)
    requires DeskOk(reg, d, []) && Dated(Due(d.heap, now))
    requires x in HandleAll(Handle, PopFront(d, now), Due(d.heap, now),
      Judgements(claims, Due(d.heap, now), now, replies), DueCount(d.heap, now)).desk.heap
    requires x.at <= now && x.trigger.schedule.rule.Advances()
    ensures exists i :: 0 <= i < DueCount(d.heap, now) && PutBack(claims, Due(d.heap, now), replies, i, x)
  {
    PopKeeps(reg, d, now);
    DueExactly(d.heap, now);
    LeftDue(PopFront(d, now), claims, Due(d.heap, now), now, replies, x);
  }

  lemma {:induction false} TickIsProcessed(reg: seq<Trigger>, d: Desk, now: Time, vs: seq<Verdict>)
    requires DeskOk(reg, d, []) && |vs| == DueCount(d.heap, now)
    ensures
      var r := HandleAll(Handle, PopFront(d, now), Due(d.heap, now), vs, |vs|);
      Processed(d, r.desk, r.failure, now, vs)
  {
    var due := Due(d.heap, now);
    PlacesKept();
    StopsAtFirstFailing(Handle, HeapOf, Fails, PopFront(d, now), due, vs, |due|);
    TickConserves(Handle, HeapOf, Fails, PopFront(d, now), due, vs, |due|);
    TickPublishesInOrder(PopFront(d, now), due, vs, |due|);
    SentOnlyGrows(PopFront(d, now), due, vs, |due|);
    PopSplits(reg, d, now);
    assert due[..|due|] == due;
  }

  lemma {:induction false} PopSplits(reg: seq<Trigger>, d: Desk, now: Time)
    requires DeskOk(reg, d, [])
    ensures Items(d.heap) == Items(Waiting(d.heap, now)) + Items(Due(d.heap, now))
  {
    PopKeeps(reg, d, now);
  }

  lemma {:induction false} TickLeavesOnlyPutBack(reg: seq<Trigger>, d: Desk, claims: bool, now: Time,
                                                 replies: nat -> Reply)
    requires DeskOk(reg, d, []) && Dated(Due(d.heap, now))
    ensures
      var due := Due(d.heap, now);
      var r := HandleAll(Handle, PopFront(d, now), due, Judgements(claims, due, now, replies), |due|);
      OnlyPutBackIsDue(d, r.desk, claims, now, replies)
  {
    var due := Due(d.heap, now);
    var r := HandleAll(Handle, PopFront(d, now), due, Judgements(claims, due, now, replies), |due|);
    forall x | x in r.desk.heap && x.at <= now && x.trigger.schedule.rule.Advances()
      ensures exists i :: 0 <= i < |due| && PutBack(claims, due, replies, i, x)
    {
      TickLeavesDue(reg, d, claims, now, replies, x);
    }
  }

  ghost predicate Judged(claims: bool, due: seq<Slot>, now: Time, replies: nat -> Reply, vs: seq<Verdict>)
    requires |vs| == |due|
  {
    && Dated(due)
    && forall i {:trigger Judge(claims, due[i], now, replies(i))} ::
         0 <= i < |due| ==> vs[i] == Judge(claims, due[i], now, replies(i))
  }

  // ---------------- a tick on its inputs alone ----------------

  /** The first of the first `n` entries that raises, or `n`. */
  function FirstRaising(claims: bool, due: seq<Slot>, now: Time, replies: nat -> Reply, n: nat): (c: nat)
    requires n <= |due|
    ensures c <= n && (c < n ==> EntryRaises(claims, due[c], now, replies(c)))
    ensures forall i :: 0 <= i < c ==> !EntryRaises(claims, due[i], now, replies(i))
  {
    if n == 0 then 0
    else
      var c := FirstRaising(claims, due, now, replies, n - 1);
      if c < n - 1 || EntryRaises(claims, due[n - 1], now, replies(n - 1)) then c else n
  }

  /** How many run ids the first `n` entries draw. */
  function DrawnBy(due: seq<Slot>, n: nat): nat
    requires n <= |due|
  {
    if n == 0 then 0 else DrawnBy(due, n - 1) + if IsDrawn(due[n - 1]) then 1 else 0
  }

  /** The message of one entry under its key and a new run, if it is published. */
  function MessageOf(claims: bool, e: Slot, reply: Reply, run: RunId): seq<Sent> {
    if !IsPublished(claims, e, reply) || !InCalendar(e.at) || KeyOf(e).Err? then []
    else [Sent(e.trigger, e.at, KeyOf(e).value, run)]
  }

  /** The message of the `k`-th entry. */
  function Messages(claims: bool, first: RunId, due: seq<Slot>, replies: nat -> Reply): nat -> seq<Sent> {
    (k: nat) => if k < |due| then MessageOf(claims, due[k], replies(k), first + DrawnBy(due, k)) else []
  }

  lemma {:induction false} MessageMeans(claims: bool, e: Slot, reply: Reply, run: RunId)
    requires InCalendar(e.at)
    ensures IsPublished(claims, e, reply) <==> MessageOf(claims, e, reply, run) != []
    ensures forall s :: s in MessageOf(claims, e, reply, run) ==>
      s.trigger == e.trigger && s.slot == e.at && s.run == run && KeyOf(e) == Ok(s.key)
  {
    KeyErrorsExactly(e.trigger.job.id, e.trigger.schedule, e.at);
  }

  lemma {:induction false} PartMeans(claims: bool, first: RunId, due: seq<Slot>, replies: nat -> Reply, k: nat,
                                     parts: nat -> seq<Sent>)
    requires k < |due| && InCalendar(due[k].at) && parts == Messages(claims, first, due, replies)
    ensures MustBeSent(claims, due[k], replies(k)) <==> parts(k) != []
    ensures forall s :: s in parts(k) ==> SentAs(due[k], s)
  {
    MessageMeans(claims, due[k], replies(k), first + DrawnBy(due, k));
  }

  /** The message names the entry's trigger, slot and key. */
  ghost predicate SentAs(e: Slot, s: Sent) {
    s.trigger == e.trigger && s.slot == e.at && InCalendar(e.at) && KeyOf(e) == Ok(s.key)
  }

  /** The pair of a handled entry has one entry: the same slot if it bounced, else its next one. */
  ghost predicate Continued(heap: seq<Slot>, claims: bool, e: Slot, now: Time, reply: Reply) {
    exists x :: x in heap && x.trigger == e.trigger && x.at == DueAgain(claims, e, now, reply)
      && forall y :: y in heap && y.trigger == e.trigger ==> y == x
  }

  /** How many due entries are begun: all up to and including the first that raises. */
  function BeganBy(claims: bool, due: seq<Slot>, now: Time, replies: nat -> Reply): (m: nat)
    ensures m <= |due|
  {
    var c := FirstRaising(claims, due, now, replies, |due|);
    if c < |due| then c + 1 else c
  }

  /** Every entry handled without an exception goes on with one entry, and what is not due stays. */
  ghost predicate Placed(before: Desk, after: Desk, claims: bool, now: Time, replies: nat -> Reply) {
    var due := Due(before.heap, now);
    && (forall x :: x in before.heap && x.at > now ==> x in after.heap)
    && forall k {:trigger replies(k)} :: 0 <= k < FirstRaising(claims, due, now, replies, |due|) ==>
         Continued(after.heap, claims, due[k], now, replies(k))
  }

  /**
   What a tick does, on the heap, the clock and the answers alone: the entries due at the start are handled in
   order up to the first that raises, exactly the won slots whose publication did not raise are sent, in that
   order, and each handled pair goes on with exactly one entry.
   */
  ghost predicate TickDone(before: Desk, after: Desk, failure: Option<Failure>, claims: bool, now: Time,
                           replies: nat -> Reply)
  {
    var due := Due(before.heap, now);
    && Dated(due)
    && var c := FirstRaising(claims, due, now, replies, |due|);
       var m := BeganBy(claims, due, now, replies);
       && (failure.Some? <==> c < |due|)
       && Items(after.heap) == Items(Waiting(before.heap, now)) + Items(due[..c])
       && (failure.None? ==> Items(after.heap) == Items(before.heap))
       && after.sent == before.sent + Joined(Messages(claims, before.nextRun, due, replies), m)
       && after.nextRun == before.nextRun + DrawnBy(due, m)
       && Placed(before, after, claims, now, replies)
  }

  /** Verdicts and inputs agree on the first entry that raises. */
  lemma {:induction false} SameFirst(claims: bool, due: seq<Slot>, now: Time, replies: nat -> Reply,
                                     vs: seq<Verdict>, n: nat)
    requires |vs| == |due| && Judged(claims, due, now, replies, vs) && n <= |due|
    ensures FirstFailing(Fails, vs, n) == FirstRaising(claims, due, now, replies, n)
  {
    if n > 0 {
      SameFirst(claims, due, now, replies, vs, n - 1);
      assert vs[n - 1] == Judge(claims, due[n - 1], now, replies(n - 1));
      JudgeFailsExactly(claims, due[n - 1], now, replies(n - 1));
    }
  }

  /** The messages and run ids once the first `k` entries are handled. */
  datatype Tally = Tally(sent: seq<Sent>, nextRun: RunId)

  function TallyOf(d: Desk): Tally { Tally(d.sent, d.nextRun) }

  ghost function ExpectedTally(d: Desk, claims: bool, due: seq<Slot>, replies: nat -> Reply): nat -> Tally
    requires Dated(due)
  {
    (k: nat) =>
      if k <= |due| then Tally(d.sent + Joined(Messages(claims, d.nextRun, due, replies), k),
        d.nextRun + DrawnBy(due, k))
      else TallyOf(d)
  }

  lemma {:induction false} SendsOne(d: Desk, claims: bool, due: seq<Slot>, now: Time, replies: nat -> Reply,
                                    vs: seq<Verdict>, x: Desk, k: nat)
    requires |vs| == |due| && Judged(claims, due, now, replies, vs) && k < |due|
    ensures Tracks(Handle, TallyOf, ExpectedTally(d, claims, due, replies), due, vs, x, k)
  {
    assert vs[k] == Judge(claims, due[k], now, replies(k));
    JudgeMeans(claims, due[k], now, replies(k));
    var a, b := d.sent, Joined(Messages(claims, d.nextRun, due, replies), k);
    var c := Messages(claims, d.nextRun, due, replies)(k);
    assert (a + b) + c == a + (b + c);
  }

  /** A tick sends exactly the messages of the entries it began, in due order, and draws run ids in that order. */
  lemma {:induction false} TickSends(d: Desk, claims: bool, due: seq<Slot>, now: Time, replies: nat -> Reply,
                                     vs: seq<Verdict>)
    requires |vs| == |due| && Judged(claims, due, now, replies, vs)
    ensures
      var r, m := HandleAll(Handle, d, due, vs, |due|), Begun(Fails, vs, |due|);
      && r.desk.sent == d.sent + Joined(Messages(claims, d.nextRun, due, replies), m)
      && r.desk.nextRun == d.nextRun + DrawnBy(due, m)
  {
    PlacesKept();
    var expected := ExpectedTally(d, claims, due, replies);
    forall x, k: nat | k < |due| ensures Tracks(Handle, TallyOf, expected, due, vs, x, k) {
      SendsOne(d, claims, due, now, replies, vs, x, k);
    }
    assert d.sent + [] == d.sent;
    TickFollows(Handle, HeapOf, Fails, TallyOf, expected, d, due, vs, |due|);
  }

  /** What was pushed stays in the heap until the end of the tick. */
  lemma {:induction false} HeapOnlyGrows(d: Desk, due: seq<Slot>, vs: seq<Verdict>, k: nat, n: nat, x: Slot)
    requires k <= n <= |due| == |vs| && x in HandleAll(Handle, d, due, vs, k).desk.heap
    ensures x in HandleAll(Handle, d, due, vs, n).desk.heap
    decreases n
  {
    if k < n {
      HeapOnlyGrows(d, due, vs, k, n - 1, x);
      PushKeepsEntries(HandleAll(Handle, d, due, vs, n - 1).desk, due[n - 1], vs[n - 1], x);
    }
  }

  lemma {:induction false} PushKeepsEntries(d: Desk, e: Slot, v: Verdict, x: Slot)
    ensures x in d.heap ==> x in Handle(d, e, v).desk.heap
    ensures v.next.Ok? ==> Entry(v.next.value, d.nextSeq, e.trigger, ()) in Handle(d, e, v).desk.heap
  {
    if v.next.Ok? {
      var y := Entry(v.next.value, d.nextSeq, e.trigger, ());
      InsertHas(d.heap, y, x);
      InsertHas(d.heap, y, y);
    }
  }

  /** The entry pushed for the `k`-th popped one is in the heap at the end. */
  lemma {:induction false} PushedFor(d: Desk, due: seq<Slot>, vs: seq<Verdict>, k: nat) returns (x: Slot)
    requires k < FirstFailing(Fails, vs, |vs|) && |due| == |vs|
    ensures x in HandleAll(Handle, d, due, vs, |due|).desk.heap && x.trigger == due[k].trigger
    ensures vs[k].next == Ok(x.at)
  {
    var before := HandleAll(Handle, d, due, vs, k);
    PlacesKept();
    assert FirstFailing(Fails, vs, k) == k && !Fails(vs[k]);
    StopsAtFirstFailing(Handle, HeapOf, Fails, d, due, vs, k);
    x := Entry(vs[k].next.value, before.desk.nextSeq, due[k].trigger, ());
    PushKeepsEntries(before.desk, due[k], vs[k], x);
    assert HandleAll(Handle, d, due, vs, k + 1) == Handle(before.desk, due[k], vs[k]);
    HeapOnlyGrows(d, due, vs, k + 1, |due|, x);
  }

  lemma {:induction false} LaterStays(d: Desk, now: Time, vs: seq<Verdict>, x: Slot)
    requires Ordered(d.heap) && |vs| == DueCount(d.heap, now) && x in d.heap && x.at > now
    ensures x in HandleAll(Handle, PopFront(d, now), Due(d.heap, now), vs, |vs|).desk.heap
  {
    DueExactly(d.heap, now);
    assert x in Due(d.heap, now) + Waiting(d.heap, now);
    HeapOnlyGrows(PopFront(d, now), Due(d.heap, now), vs, 0, |vs|, x);
  }

  lemma {:induction false} EntryContinued(reg: seq<Trigger>, d: Desk, claims: bool, now: Time, replies: nat -> Reply,
                                          vs: seq<Verdict>, k: nat)
    requires |vs| == DueCount(d.heap, now) && Judged(claims, Due(d.heap, now), now, replies, vs) && Registered(reg)
    requires Items(HandleAll(Handle, PopFront(d, now), Due(d.heap, now), vs, |vs|).desk.heap) <= multiset(reg)
    requires k < FirstFailing(Fails, vs, |vs|)
    ensures
      var due := Due(d.heap, now);
      Continued(HandleAll(Handle, PopFront(d, now), due, vs, |vs|).desk.heap, claims, due[k], now, replies(k))
  {
    var due := Due(d.heap, now);
    var heap := HandleAll(Handle, PopFront(d, now), due, vs, |vs|).desk.heap;
    var x := PushedFor(PopFront(d, now), due, vs, k);
    assert vs[k] == Judge(claims, due[k], now, replies(k));
    JudgeMeans(claims, due[k], now, replies(k));
    forall y | y in heap && y.trigger == due[k].trigger ensures y == x {
      OneEntryPerPair(reg, heap, x, y);
    }
  }

  lemma {:induction false} TickIsDone(reg: seq<Trigger>, d: Desk, claims: bool, now: Time, replies: nat -> Reply,
                                      vs: seq<Verdict>)
    requires |vs| == DueCount(d.heap, now) && Judged(claims, Due(d.heap, now), now, replies, vs)
    requires Registered(reg) && Ordered(d.heap)
    requires
      var r := HandleAll(Handle, PopFront(d, now), Due(d.heap, now), vs, |vs|);
      Processed(d, r.desk, r.failure, now, vs) && Items(r.desk.heap) <= multiset(reg)
    ensures
      var r := HandleAll(Handle, PopFront(d, now), Due(d.heap, now), vs, |vs|);
      TickDone(d, r.desk, r.failure, claims, now, replies)
  {
    SameFirst(claims, Due(d.heap, now), now, replies, vs, |vs|);
    TickSends(PopFront(d, now), claims, Due(d.heap, now), now, replies, vs);
    TickPlaces(reg, d, claims, now, replies, vs);
  }

  lemma {:induction false} TickPlaces(reg: seq<Trigger>, d: Desk, claims: bool, now: Time, replies: nat -> Reply,
                                      vs: seq<Verdict>)
    requires |vs| == DueCount(d.heap, now) && Judged(claims, Due(d.heap, now), now, replies, vs)
    requires Registered(reg) && Ordered(d.heap)
    requires Items(HandleAll(Handle, PopFront(d, now), Due(d.heap, now), vs, |vs|).desk.heap) <= multiset(reg)
    ensures Placed(d, HandleAll(Handle, PopFront(d, now), Due(d.heap, now), vs, |vs|).desk, claims, now, replies)
  {
    var due := Due(d.heap, now);
    var heap := HandleAll(Handle, PopFront(d, now), due, vs, |vs|).desk.heap;
    SameFirst(claims, due, now, replies, vs, |due|);
    forall x | x in d.heap && x.at > now ensures x in heap {
      LaterStays(d, now, vs, x);
    }
    forall k | 0 <= k < FirstRaising(claims, due, now, replies, |due|)
      ensures Continued(heap, claims, due[k], now, replies(k))
    {
      EntryContinued(reg, d, claims, now, replies, vs, k);
    }
  }

  /** A tick has sent this message for the trigger. */
  ghost predicate SentFor(before: Desk, after: Desk, t: Trigger, s: Sent) {
    before.sent <= after.sent && s in after.sent[|before.sent|..] && s.trigger == t
  }

  /** Enabled, with a key, won if a claim is made, and published without an exception. */
  ghost predicate MustBeSent(claims: bool, e: Slot, reply: Reply) {
    && e.trigger.schedule.enabled && e.trigger.job.enabled && KeyFits(e.trigger.job.id, e.trigger.schedule)
    && (claims ==> reply.claim == Won) && !reply.publishRaises
  }

  lemma {:induction false} BeganExactly(claims: bool, due: seq<Slot>, now: Time, replies: nat -> Reply, i: nat)
    requires i < |due|
    ensures i < BeganBy(claims, due, now, replies) <==>
      forall k :: 0 <= k < i ==> !EntryRaises(claims, due[k], now, replies(k))
  {
    var c := FirstRaising(claims, due, now, replies, |due|);
    assert c < i ==> EntryRaises(claims, due[c], now, replies(c));
  }

  lemma {:induction false} SentOnlyIf(reg: seq<Trigger>, before: Desk, after: Desk, claims: bool, now: Time,
                                      replies: nat -> Reply, parts: nat -> seq<Sent>, m: nat, i: nat, s: Sent)
    requires Registered(reg) && Items(before.heap) <= multiset(reg) && NewlySent(before, after, parts, m)
    requires m <= DueCount(before.heap, now) && i < DueCount(before.heap, now) && Dated(Due(before.heap, now))
    requires parts == Messages(claims, before.nextRun, Due(before.heap, now), replies)
    requires SentFor(before, after, Due(before.heap, now)[i].trigger, s)
    ensures
      var due := Due(before.heap, now);
      i < m && MustBeSent(claims, due[i], replies(i)) && SentAs(due[i], s)
  {
    var due := Due(before.heap, now);
    DueIsRegistered(reg, before.heap, now);
    var k := JoinedWhich(parts, m, s);
    PartMeans(claims, before.nextRun, due, replies, k, parts);
    OnePlacePerPair(reg, due, i, k);
  }

  lemma {:induction false} SentIf(before: Desk, after: Desk, claims: bool, due: seq<Slot>, replies: nat -> Reply,
                                  parts: nat -> seq<Sent>, m: nat, i: nat)
    returns (s: Sent)
    requires NewlySent(before, after, parts, m) && i < m <= |due| && Dated(due)
    requires parts == Messages(claims, before.nextRun, due, replies) && MustBeSent(claims, due[i], replies(i))
    ensures SentFor(before, after, due[i].trigger, s)
  {
    PartMeans(claims, before.nextRun, due, replies, i, parts);
    s := parts(i)[0];
    JoinedHas(parts, m, i, s);
  }

  /** The slot of the `i`-th due entry is published if and only if no earlier entry raised and it must be sent. */
  lemma {:induction false} PublishedExactly(reg: seq<Trigger>, before: Desk, after: Desk, failure: Option<Failure>,
                                            claims: bool, now: Time, replies: nat -> Reply, i: nat)
    requires Registered(reg) && Items(before.heap) <= multiset(reg)
    requires TickDone(before, after, failure, claims, now, replies) && i < DueCount(before.heap, now)
    ensures
      var due := Due(before.heap, now);
      (exists s :: SentFor(before, after, due[i].trigger, s)) <==>
        && (forall k :: 0 <= k < i ==> !EntryRaises(claims, due[k], now, replies(k)))
        && MustBeSent(claims, due[i], replies(i))
    ensures
      var e := Due(before.heap, now)[i];
      forall s :: SentFor(before, after, e.trigger, s) ==> SentAs(e, s)
  {
    var due, m := Due(before.heap, now), BeganBy(claims, Due(before.heap, now), now, replies);
    var parts := Messages(claims, before.nextRun, due, replies);
    BeganExactly(claims, due, now, replies, i);
    SentIsNew(before, after, failure, claims, now, replies);
    forall s | SentFor(before, after, due[i].trigger, s)
      ensures i < m && MustBeSent(claims, due[i], replies(i)) && SentAs(due[i], s)
    {
      SentOnlyIf(reg, before, after, claims, now, replies, parts, m, i, s);
    }
    if i < m && MustBeSent(claims, due[i], replies(i)) {
      var s := SentIf(before, after, claims, due, replies, parts, m, i);
    }
  }

  ghost predicate NewlySent(before: Desk, after: Desk, parts: nat -> seq<Sent>, m: nat) {
    before.sent <= after.sent && after.sent[|before.sent|..] == Joined(parts, m)
  }

  lemma {:induction false} SentIsNew(before: Desk, after: Desk, failure: Option<Failure>, claims: bool, now: Time,
                                     replies: nat -> Reply)
    requires TickDone(before, after, failure, claims, now, replies)
    ensures
      var due := Due(before.heap, now);
      && Dated(due)
      && NewlySent(before, after, Messages(claims, before.nextRun, due, replies), BeganBy(claims, due, now, replies))
  {
  }

  lemma {:induction false} DueIsRegistered(reg: seq<Trigger>, heap: seq<Slot>, now: Time)
    requires Items(heap) <= multiset(reg)
    ensures Items(Due(heap, now)) <= multiset(reg)
  {
    assert heap == Due(heap, now) + Waiting(heap, now);
    ItemsConcat(Due(heap, now), Waiting(heap, now));
  }

  /** All that a tick from this desk will do and keep. */
  lemma {:induction false} TickPlan(reg: seq<Trigger>, d: Desk, claims: bool, now: Time, replies: nat -> Reply)
    requires DeskOk(reg, d, [])
    ensures Dated(Due(d.heap, now))
    ensures
      var due := Due(d.heap, now);
      var r := HandleAll(Handle, PopFront(d, now), due, Judgements(claims, due, now, replies), |due|);
      && DeskOk(reg, r.desk, []) && TickDone(d, r.desk, r.failure, claims, now, replies)
      && OnlyPutBackIsDue(d, r.desk, claims, now, replies)
  {
    PopKeeps(reg, d, now);
    TickKeeps(reg, d, claims, now, replies);
    TickLeavesOnlyPutBack(reg, d, claims, now, replies);
    var vs := Judgements(claims, Due(d.heap, now), now, replies);
    TickIsProcessed(reg, d, now, vs);
    assert Triggers<()>([]) == [];
    TickIsDone(reg, d, claims, now, replies, vs);
  }

  /** The runs answered are those published since `from`, in order. */
  predicate Reports(sent: seq<Sent>, from: nat, runs: seq<RunId>) {
    |sent| == from + |runs| && forall i :: 0 <= i < |runs| ==> sent[from + i].run == runs[i]
  }

  /** Where a handled entry goes next, and the run published for it. */
  datatype Tried = Tried(at: Time, run: Option<RunId>)

  class Dispatcher {
    const claims: bool
    var heap: seq<Slot>
    var nextSeq: nat
    var nextRun: RunId
    var sent: seq<Sent>
    var registered: seq<Trigger>

    ghost function TheDesk(): Desk reads this { Desk(heap, nextSeq, sent, nextRun) }

    ghost predicate Valid() reads this { DeskOk(registered, TheDesk(), []) }

    constructor (claims: bool)
      ensures Valid() && this.claims == claims && registered == [] && sent == []
    {
      this.claims := claims;
      heap, nextSeq, nextRun, sent, registered := [], 0, 0, [], [];
    }

    method Add(job: Job, schedule: Schedule, now: Time) returns (ok: bool)
      requires Valid() && schedule.rule.Valid()
      modifies this
      ensures Valid() && sent == old(sent)
      ensures ok <==> InCalendar(ComputeNextRun(schedule.rule, now))
      ensures var t := Trigger(old(|registered|), job, schedule);
        if ok then
          && registered == old(registered) + [t] && Items(heap) == old(Items(heap)) + multiset{t}
          && multiset(heap) == old(multiset(heap))
               + multiset{Entry(ComputeNextRun(schedule.rule, now), old(nextSeq), t, ())}
        else registered == old(registered) && heap == old(heap)
    {
      var at := ComputeNextRun(schedule.rule, now);
      ok := InCalendar(at);
      if ok {
        var t := Trigger(|registered|, job, schedule);
        ghost var after := Push(TheDesk(), at, t);
        AddKeeps(registered, TheDesk(), t, now);
        var _ := PushEntry(at, t);
        registered := registered + [t];
        assert TheDesk() == after;
      }
    }

    /** Handles the `k`-th popped entry; answers the run published for it. */
    method DispatchEntry(due: seq<Slot>, k: nat, now: Time, replies: nat -> Reply, ghost vs: seq<Verdict>)
      returns (r: Result<Option<RunId>, Failure>)
      requires k < |due| == |vs| && Judged(claims, due, now, replies, vs)
      modifies this
      ensures registered == old(registered)
      ensures Handle(old(TheDesk()), due[k], vs[k]) == Handled(TheDesk(), if r.Err? then Some(r.error) else None)
      ensures r.Err? <==> EntryRaises(claims, due[k], now, replies(k))
      ensures r.Ok? ==> (r.value == if IsPublished(claims, due[k], replies(k)) then Some(old(nextRun)) else None)
      ensures sent == old(sent) + MessageOf(claims, due[k], replies(k), old(nextRun))
      ensures nextRun == old(nextRun) + if IsDrawn(due[k]) then 1 else 0
      ensures r.Ok? ==> Reports(sent, old(|sent|), if r.value.Some? then [r.value.value] else [])
    {
      var e, reply := due[k], replies(k);
      assert vs[k] == Judge(claims, due[k], now, replies(k));
      JudgeFailsExactly(claims, due[k], now, replies(k));
      JudgeMeans(claims, due[k], now, replies(k));
      var tried := ClaimAndPublish(e, now, reply);
      if tried.Err? {
        return Err(tried.error);
      }
      var ok := PushEntry(tried.value.at, e.trigger);
      r := if ok then Ok(tried.value.run) else Err(Overflow);
    }

    /** Claims and publishes the slot unless it is skipped; answers when the trigger is due again. */
    method ClaimAndPublish(e: Slot, now: Time, reply: Reply) returns (r: Result<Tried, Failure>)
      requires InCalendar(e.at)
      modifies this`nextRun, this`sent
      ensures var v := Judge(claims, e, now, reply);
        && TheDesk() == Told(old(TheDesk()), e, v)
        && (r.Err? ==> v.next == Err(r.error))
        && (r.Ok? ==>
              && v.next == (if InCalendar(r.value.at) then Ok(r.value.at) else Err(Overflow))
              && r.value.run == (if v.publish.Some? then Some(old(nextRun)) else None))
    {
      var at := ComputeNextRun(e.trigger.schedule.rule, now);
      if !e.trigger.Enabled() {
        return Ok(Tried(at, None));
      }
      var key := KeyOf(e);
      if key.Err? {
        return Err(BadKey(key.error));
      }
      var run := nextRun;
      nextRun := nextRun + 1;
      if claims && !reply.claim.Won? {
        return Ok(Tried(at, None));
      }
      if reply.publishRaises {
        return Ok(Tried(e.at, None));
      }
      sent := sent + [Sent(e.trigger, e.at, key.value, run)];
      r := Ok(Tried(at, Some(run)));
    }

    method PushEntry(at: Time, t: Trigger) returns (ok: bool)
      modifies this`heap, this`nextSeq
      ensures ok <==> InCalendar(at)
      ensures TheDesk() == if ok then Push(old(TheDesk()), at, t) else old(TheDesk())
    {
      ok := InCalendar(at);
      if ok {
        heap, nextSeq := Insert(heap, Entry(at, nextSeq, t, ())), nextSeq + 1;
      }
    }

    /** The loop over the popped entries: in order, stopping at the first exception. */
    method DispatchAll(due: seq<Slot>, now: Time, replies: nat -> Reply, ghost vs: seq<Verdict>)
      returns (runs: seq<RunId>, failure: Option<Failure>)
      requires |vs| == |due| && Judged(claims, due, now, replies, vs)
      modifies this
      ensures registered == old(registered)
      ensures HandleAll(Handle, old(TheDesk()), due, vs, |due|) == Handled(TheDesk(), failure)
      ensures failure.None? ==> Reports(sent, old(|sent|), runs)
    {
      ghost var start := TheDesk();
      runs, failure := [], None;
      for k := 0 to |due|
        invariant registered == old(registered) && failure.None?
        invariant HandleAll(Handle, start, due, vs, k) == Handled(TheDesk(), None)
        invariant Reports(sent, old(|sent|), runs)
      {
        var r := DispatchEntry(due, k, now, replies, vs);
        if r.Err? {
          HandleAllStops(Handle, start, due, vs, k + 1, |due|);
          return runs, Some(r.error);
        }
        if r.value.Some? {
          runs := runs + [r.value.value];
        }
      }
    }

    method Tick(now: Time, replies: nat -> Reply) returns (runs: seq<RunId>, failure: Option<Failure>)
      requires Valid()
      modifies this
      ensures Valid() && registered == old(registered)
      ensures TickDone(old(TheDesk()), TheDesk(), failure, claims, now, replies)
      ensures OnlyPutBackIsDue(old(TheDesk()), TheDesk(), claims, now, replies)
      ensures old(sent) <= sent && (failure.None? ==> Reports(sent, old(|sent|), runs))
    {
      TickPlan(registered, TheDesk(), claims, now, replies);
      var due;
      due, heap := PopDue(heap, now);
      runs, failure := DispatchAll(due, now, replies, Judgements(claims, due, now, replies));
    }
  }

  lemma {:induction false} AddKeeps(reg: seq<Trigger>, d: Desk, t: Trigger, now: Time)
    requires DeskOk(reg, d, []) && t.origin == |reg| && t.schedule.rule.Valid()
    requires InCalendar(ComputeNextRun(t.schedule.rule, now))
    ensures var after := Push(d, ComputeNextRun(t.schedule.rule, now), t);
      && DeskOk(reg + [t], after, []) && Items(after.heap) == Items(d.heap) + multiset{t}
      && multiset(after.heap) == multiset(d.heap)
        + multiset{Entry(ComputeNextRun(t.schedule.rule, now), d.nextSeq, t, ())}
  {
    var e := Entry(ComputeNextRun(t.schedule.rule, now), d.nextSeq, t, ());
    InsertAdds(d.heap, e);
    ItemsInsert(d.heap, e);
    ItemsCons(e, []);
    assert Triggers<()>([]) == [] && [e] + [] == [e];
    if t.schedule.rule.Daily? {
      DailyNextIsFirst(t.schedule.rule.timeOfDay, now, now);
    }
    assert Aligned(e) && AfterAllSent(d.sent, e);
    assert DeskOk(reg + [t], d, [e] + []);
    PushKeeps(reg + [t], d, e, []);
  }
}
