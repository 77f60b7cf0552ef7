/**
 The single-process scheduler: regular and retry entries in one heap, attempts run inside the tick.
 Claims, handlers and clocks answer from outside; every tick is correct for all their answers.
 */
module Scheduler {
  import opened Common
  import opened StateMachine
  import opened Schedule
  import opened Models
  import opened Idempotency
  import opened TimerHeap
  import Executor
  import Text

  /** A regular trigger is attempt 1 without a run; a retry carries the run it continues. */
  datatype Chain = Chain(attempt: nat, run: Option<RunId>)

  const REGULAR := Chain(1, None)

  type Place = Entry<Chain>

  datatype Claim = Won | Lost | Raised

  /** The answers of one trigger; `clock` is read again when a retry is scheduled. */
  datatype Reply = Reply(claim: Claim, starts: bool, end: Executor.HandlerEnd, clock: Time)

  datatype Record = Record(trigger: Trigger, run: RunId, attempt: nat, status: JobStatus)

  datatype Desk = Desk(heap: seq<Place>, nextSeq: nat, nextRun: RunId, log: seq<Record>)

  /** What becomes of one due entry: a run id drawn, an attempt executed, and its next place in the heap. */
  datatype Verdict = Verdict(draws: bool, executed: Option<JobStatus>, retries: bool, next: Result<Time, Failure>)

  function RetrySlot(e: Place, clock: Time): Result<Time, Failure>
    requires e.what.attempt >= 1
  {
    var at := clock + Delay(e.trigger.job.policy, e.what.attempt);
    if InCalendar(at) then Ok(at) else Err(Overflow)
  }

  function KeyOf(e: Place): Result<string, KeyError>
    requires InCalendar(e.at)
  {
    ScheduledKey(e.trigger.job.id, e.trigger.schedule, e.at)
  }

  /** The branches of the tick's loop body. */
  function Judge(claims: bool, e: Place, now: Time, reply: Reply): Verdict
    requires InCalendar(e.at) && e.what.attempt >= 1
  {
    var regular, first := NextSlot(e.trigger, now), e.what.attempt == 1;
    if !e.trigger.Enabled() then Verdict(false, None, false, regular)
    else if first && claims && KeyOf(e).Err? then Verdict(false, None, false, Err(BadKey(KeyOf(e).error)))
    else if first && claims && !reply.claim.Won? then Verdict(true, None, false, regular)
    else
      var draws := (first && claims) || e.what.run.None?;
      var status := Executor.StatusAfter(e.trigger.job.policy, e.what.attempt, reply.end);
      if !reply.starts then Verdict(draws, None, false, regular)
      else if status.Retrying? then Verdict(draws, Some(status), true, RetrySlot(e, reply.clock))
      else Verdict(draws, Some(status), false, regular)
  }

  /** The entry is enabled, and a slot that is to be claimed has a key and was won. */
  predicate IsAdmitted(claims: bool, e: Place, reply: Reply) {
    && e.trigger.Enabled()
    && (e.what.attempt == 1 && claims ==> KeyFits(e.trigger.job.id, e.trigger.schedule) && reply.claim.Won?)
  }

  predicate IsExecuted(claims: bool, e: Place, reply: Reply) { IsAdmitted(claims, e, reply) && reply.starts }

  /** The attempt is executed, fails and may be retried. */
  predicate IsRetried(claims: bool, e: Place, reply: Reply) {
    IsExecuted(claims, e, reply) && reply.end.RaisedOther? && e.what.attempt < e.trigger.job.policy.maxAttempts
  }

  /** A run id is drawn for every enabled regular entry, before its slot is claimed. */
  predicate IsDrawn(claims: bool, e: Place) {
    e.trigger.Enabled() && e.what.attempt == 1 && (claims ==> KeyFits(e.trigger.job.id, e.trigger.schedule))
  }

  /** How an executed attempt ends. */
  function EndStatus(e: Place, reply: Reply): JobStatus {
    if reply.end.Returned? then Success
    else if reply.end.RaisedCanceled? then Canceled
    else if e.what.attempt < e.trigger.job.policy.maxAttempts then Retrying
    else Failed
  }

  /** When the entry is to be due again: at the retry time, or at the next slot. */
  function DueAgain(claims: bool, e: Place, now: Time, reply: Reply): Time
    requires e.what.attempt >= 1
  {
    if IsRetried(claims, e, reply) then reply.clock + Delay(e.trigger.job.policy, e.what.attempt)
    else ComputeNextRun(e.trigger.schedule.rule, now)
  }

  /** An enabled first attempt needs a claim and its ids make no key, or the next due time is past the calendar. */
  predicate EntryRaises(claims: bool, e: Place, now: Time, reply: Reply)
    requires e.what.attempt >= 1
  {
    || (e.trigger.Enabled() && claims && e.what.attempt == 1 && !KeyFits(e.trigger.job.id, e.trigger.schedule))
    || !InCalendar(DueAgain(claims, e, now, reply))
  }

  /** Exactly when an exception leaves the tick at this entry. */
  lemma {:induction false} JudgeFailsExactly(claims: bool, e: Place, now: Time, reply: Reply)
    requires InCalendar(e.at) && e.what.attempt >= 1
    ensures Judge(claims, e, now, reply).next.Err? <==> EntryRaises(claims, e, now, reply)
  {
    KeyErrorsExactly(e.trigger.job.id, e.trigger.schedule, e.at);
  }

  /** What the verdict says of an entry, read off the entry and the answers. */
  lemma {:induction false} JudgeMeans(claims: bool, e: Place, now: Time, reply: Reply)
    requires InCalendar(e.at) && e.what.attempt >= 1 && (e.what.run.None? <==> e.what.attempt == 1)
    ensures
      var v := Judge(claims, e, now, reply);
      && (v.draws <==> IsDrawn(claims, e)) && (v.retries <==> IsRetried(claims, e, reply))
      && v.executed == (if IsExecuted(claims, e, reply) then Some(EndStatus(e, reply)) else None)
      && (v.next.Ok? ==> v.next.value == DueAgain(claims, e, now, reply))
  {
    KeyErrorsExactly(e.trigger.job.id, e.trigger.schedule, e.at);
  }

  function RunOf(d: Desk, e: Place, v: Verdict): RunId {
    if v.draws || e.what.run.None? then d.nextRun else e.what.run.value
  }

  function Handle(d: Desk, e: Place, v: Verdict): Handled<Desk> {
    var ran := Ran(d, e, v);
    match v.next
    case Err(f) => Handled(ran, Some(f))
    case Ok(at) =>
      var x := Entry(at, d.nextSeq, e.trigger, NextChain(d, e, v));
      Handled(ran.(heap := Insert(d.heap, x), nextSeq := d.nextSeq + 1), None)
  }

  /** The desk once the entry's run is drawn and its attempt executed, as far as the verdict goes. */
  function Ran(d: Desk, e: Place, v: Verdict): Desk {
    d.(nextRun := if v.draws then d.nextRun + 1 else d.nextRun, log := d.log + RecordOf(RunOf(d, e, v), e, v))
  }

  function RecordOf(run: RunId, e: Place, v: Verdict): seq<Record> {
    if v.executed.None? then [] else [Record(e.trigger, run, e.what.attempt, v.executed.value)]
  }

  /** A retry continues its run; everything else starts afresh. */
  function NextChain(d: Desk, e: Place, v: Verdict): Chain {
    if v.retries then Chain(e.what.attempt + 1, Some(RunOf(d, e, v))) else REGULAR
  }

  // ---------------- histories of runs ----------------

  /** What was executed under one run id, in order. */
  function Of(log: seq<Record>, run: RunId): seq<Record> {
    if log == [] then []
    else
      var last := log[|log| - 1];
      Of(log[..|log| - 1], run) + if last.run == run then [last] else []
  }

  lemma {:induction false} OfAppend(log: seq<Record>, x: Record, run: RunId)
    ensures Of(log + [x], run) == Of(log, run) + if x.run == run then [x] else []
  {
    assert (log + [x])[..|log|] == log;
  }

  /** Attempts 1, 2, ... of one trigger, within its policy, all retried but perhaps the last. */
  ghost predicate IsHistory(s: seq<Record>) {
    forall i :: 0 <= i < |s| ==>
      && s[i].attempt == i + 1 && s[i].trigger == s[0].trigger
      && s[i].attempt <= s[i].trigger.job.policy.maxAttempts
      && (i < |s| - 1 ==> s[i].status.Retrying?)
  }

  ghost predicate Histories(log: seq<Record>) {
    forall r: RunId :: IsHistory(Of(log, r))
  }

  /** A history that its next attempt may continue. */
  ghost predicate IsOpen(s: seq<Record>, t: Trigger, next: nat) {
    && next == |s| + 1 && next <= t.job.policy.maxAttempts
    && IsHistory(s) && forall i :: 0 <= i < |s| ==> s[i].status.Retrying? && s[i].trigger == t
  }

  /** Run ids already drawn, and the trigger each was drawn for. */
  ghost predicate ChainOk(log: seq<Record>, nextRun: RunId, owners: map<RunId, Trigger>, e: Place) {
    && InCalendar(e.at) && e.trigger.job.policy.Valid() && e.trigger.schedule.rule.Valid()
    && if e.what.run.None? then e.what == REGULAR
       else
         var r := e.what.run.value;
         r < nextRun && r in owners && owners[r] == e.trigger && e.what.attempt > 1
           && IsOpen(Of(log, r), e.trigger, e.what.attempt)
  }

  ghost predicate LogOk(log: seq<Record>, nextRun: RunId) {
    && (forall i :: 0 <= i < |log| ==> log[i].run < nextRun)
    && Histories(log)
  }

  /** `pending` are the entries popped by the current tick and not handled yet. */
  ghost predicate DeskOk(reg: seq<Trigger>, owners: map<RunId, Trigger>, d: Desk, pending: seq<Place>) {
    && Registered(reg) && Items(d.heap) + Items(pending) <= multiset(reg)
    && Ordered(d.heap) && Numbered(d.heap, d.nextSeq)
    && (forall e :: e in d.heap || e in pending ==> ChainOk(d.log, d.nextRun, owners, e))
    && LogOk(d.log, d.nextRun)
  }

  lemma {:induction false} OfUndrawn(log: seq<Record>, r: RunId)
    requires forall i :: 0 <= i < |log| ==> log[i].run < r
    ensures Of(log, r) == []
  {
    if log != [] {
      OfUndrawn(log[..|log| - 1], r);
    }
  }

  // ---------------- one entry ----------------

  /** What the proofs need to know of a verdict. */
  ghost predicate Sound(e: Place, v: Verdict) {
    && (e.what.run.Some? ==> !v.draws)
    && (v.executed.Some? && e.what.run.None? ==> v.draws)
    && (v.next.Ok? ==> InCalendar(v.next.value))
    && (v.retries <==> v.executed == Some(Retrying))
    && (v.retries ==> e.what.attempt < e.trigger.job.policy.maxAttempts)
  }

  lemma {:induction false} JudgeIsSound(claims: bool, e: Place, now: Time, reply: Reply)
    requires InCalendar(e.at) && e.what.attempt >= 1 && (e.what.run.None? <==> e.what == REGULAR)
    requires e.what.run.Some? ==> e.what.attempt > 1
    ensures Sound(e, Judge(claims, e, now, reply))
  {
  }

  /** The owner of a run drawn for this entry. */
  function Owners(owners: map<RunId, Trigger>, d: Desk, e: Place, v: Verdict): map<RunId, Trigger> {
    if v.draws then owners[d.nextRun := e.trigger] else owners
  }

  /** The history the entry at hand continues. */
  lemma {:induction false} Current(d: Desk, owners: map<RunId, Trigger>, e: Place, v: Verdict)
    requires LogOk(d.log, d.nextRun) && ChainOk(d.log, d.nextRun, owners, e) && Sound(e, v) && v.executed.Some?
    ensures IsOpen(Of(d.log, RunOf(d, e, v)), e.trigger, e.what.attempt)
    ensures var run := RunOf(d, e, v); run in Owners(owners, d, e, v) && Owners(owners, d, e, v)[run] == e.trigger
  {
    if e.what.run.None? {
      OfUndrawn(d.log, d.nextRun);
    }
  }

  lemma {:induction false} HistoryGrows(log: seq<Record>, x: Record, r: RunId)
    requires IsHistory(Of(log, r)) && IsOpen(Of(log, x.run), x.trigger, x.attempt)
    ensures IsHistory(Of(log + [x], r))
  {
    OfAppend(log, x, r);
  }

  lemma {:induction false} LogGrows(d: Desk, owners: map<RunId, Trigger>, e: Place, v: Verdict)
    requires LogOk(d.log, d.nextRun) && ChainOk(d.log, d.nextRun, owners, e) && Sound(e, v)
    ensures LogOk(Handle(d, e, v).desk.log, Handle(d, e, v).desk.nextRun)
  {
    assert d.log + [] == d.log;
    if v.executed.Some? {
      Current(d, owners, e, v);
      var x := Record(e.trigger, RunOf(d, e, v), e.what.attempt, v.executed.value);
      forall r: RunId ensures IsHistory(Of(d.log + [x], r)) {
        HistoryGrows(d.log, x, r);
      }
    }
  }

  /** Another trigger's chain is untouched. */
  lemma {:induction false} OtherChainKept(d: Desk, owners: map<RunId, Trigger>, e: Place, v: Verdict, y: Place)
    requires LogOk(d.log, d.nextRun) && ChainOk(d.log, d.nextRun, owners, e) && Sound(e, v)
    requires ChainOk(d.log, d.nextRun, owners, y) && y.trigger != e.trigger
    ensures ChainOk(Handle(d, e, v).desk.log, Handle(d, e, v).desk.nextRun, Owners(owners, d, e, v), y)
  {
    assert d.log + [] == d.log;
    if v.executed.Some? {
      Current(d, owners, e, v);
      if y.what.run.Some? {
        OfAppend(d.log, Record(e.trigger, RunOf(d, e, v), e.what.attempt, v.executed.value), y.what.run.value);
      }
    }
  }

  /** The entry pushed for the trigger at hand carries on its run, or starts afresh. */
  lemma {:induction false} NextChainOk(d: Desk, owners: map<RunId, Trigger>, e: Place, v: Verdict)
    requires LogOk(d.log, d.nextRun) && ChainOk(d.log, d.nextRun, owners, e) && Sound(e, v) && v.next.Ok?
    ensures
      ChainOk(Handle(d, e, v).desk.log, Handle(d, e, v).desk.nextRun, Owners(owners, d, e, v),
              Entry(v.next.value, d.nextSeq, e.trigger, NextChain(d, e, v)))
  {
    if v.retries {
      Current(d, owners, e, v);
      OpenGrows(d.log, Record(e.trigger, RunOf(d, e, v), e.what.attempt, v.executed.value));
    }
  }

  lemma {:induction false} OpenGrows(log: seq<Record>, x: Record)
    requires IsOpen(Of(log, x.run), x.trigger, x.attempt) && x.status.Retrying?
      && x.attempt < x.trigger.job.policy.maxAttempts
    ensures IsOpen(Of(log + [x], x.run), x.trigger, x.attempt + 1)
  {
    OfAppend(log, x, x.run);
  }

  lemma {:induction false} HandleKeeps(reg: seq<Trigger>, owners: map<RunId, Trigger>, d: Desk, e: Place,
                                       rest: seq<Place>, v: Verdict)
    requires DeskOk(reg, owners, d, [e] + rest) && Sound(e, v)
    ensures DeskOk(reg, Owners(owners, d, e, v), Handle(d, e, v).desk, rest)
  {
    var after, os := Handle(d, e, v).desk, Owners(owners, d, e, v);
    assert e in [e] + rest;
    LogGrows(d, owners, e, v);
    ItemsCons(e, rest);
    forall y | y in d.heap || y in rest ensures ChainOk(after.log, after.nextRun, os, y) {
      assert y in rest ==> y in [e] + rest;
      OthersDiffer(reg, d.heap, e, rest, y);
      OtherChainKept(d, owners, e, v, y);
    }
    if v.next.Ok? {
      NextChainOk(d, owners, e, v);
      var x := Entry(v.next.value, d.nextSeq, e.trigger, NextChain(d, e, v));
      assert after.heap == Insert(d.heap, x);
      InsertKeepsOrder(d.heap, x);
      InsertKeepsNumbers(d.heap, x);
      ItemsInsert(d.heap, x);
      forall y | y in after.heap ensures ChainOk(after.log, after.nextRun, os, y) {
        InsertHas(d.heap, x, y);
      }
    }
  }

  // ---------------- whole ticks ----------------

  lemma {:induction false} DropPending(reg: seq<Trigger>, owners: map<RunId, Trigger>, d: Desk, e: Place,
                                       rest: seq<Place>)
    requires DeskOk(reg, owners, d, [e] + rest)
    ensures DeskOk(reg, owners, d, rest)
  {
    ItemsCons(e, rest);
    assert forall x :: x in rest ==> x in [e] + rest;
  }

  lemma {:induction false} HandleAllKeeps(reg: seq<Trigger>, owners: map<RunId, Trigger>, d: Desk, due: seq<Place>,
                                          vs: seq<Verdict>, n: nat)
    returns (os: map<RunId, Trigger>)
    requires DeskOk(reg, owners, d, due) && n <= |due| == |vs|
    requires forall i :: 0 <= i < |due| ==> Sound(due[i], vs[i])
    ensures DeskOk(reg, os, HandleAll(Handle, d, due, vs, n).desk, due[n..])
  {
    if n == 0 {
      assert due[0..] == due;
      os := owners;
    } else {
      os := HandleAllKeeps(reg, owners, d, due, vs, n - 1);
      assert due[n - 1..][1..] == due[n..];
      os := HandleNextKeeps(reg, os, HandleAll(Handle, d, due, vs, n - 1), due[n - 1..], vs[n - 1]);
    }
  }

  lemma {:induction false} HandleNextKeeps(reg: seq<Trigger>, owners: map<RunId, Trigger>, before: Handled<Desk>,
                                           pending: seq<Place>, v: Verdict)
    returns (os: map<RunId, Trigger>)
    requires pending != [] && DeskOk(reg, owners, before.desk, pending) && Sound(pending[0], v)
    ensures DeskOk(reg, os, (if before.failure.Some? then before else Handle(before.desk, pending[0], v)).desk,
      pending[1..])
  {
    var e, rest := pending[0], pending[1..];
    assert pending == [e] + rest;
    if before.failure.Some? {
      DropPending(reg, owners, before.desk, e, rest);
      os := owners;
    } else {
      HandleKeeps(reg, owners, before.desk, e, rest, v);
      os := Owners(owners, before.desk, e, v);
    }
  }

  // ---------------- which runs wait for another attempt ----------------

  /** The last execution of the run ended RETRYING. */
  ghost predicate Waits(log: seq<Record>, r: RunId) {
    var s := Of(log, r);
    s != [] && s[|s| - 1].status.Retrying?
  }

  ghost predicate HasNext(heap: seq<Place>, pending: seq<Place>, r: RunId) {
    exists e :: (e in heap || e in pending) && e.what.run == Some(r)
  }

  /** A run waits exactly when an entry continues it, or its next attempt was due and did not start. */
  ghost predicate RunAccounted(d: Desk, pending: seq<Place>, stranded: set<RunId>, r: RunId) {
    && (Waits(d.log, r) <==> r in stranded || HasNext(d.heap, pending, r))
    && (r in stranded ==> !HasNext(d.heap, pending, r))
  }

  ghost predicate Accounted(d: Desk, pending: seq<Place>, stranded: set<RunId>) {
    forall r: RunId :: RunAccounted(d, pending, stranded, r)
  }

  /** The run of a retry that was due and did not start. */
  function StrandedBy(e: Place, v: Verdict): set<RunId> {
    if e.what.run.Some? && v.executed.None? then {e.what.run.value} else {}
  }

  lemma {:induction false} NextWaits(reg: seq<Trigger>, owners: map<RunId, Trigger>, d: Desk, pending: seq<Place>,
                                     r: RunId)
    requires DeskOk(reg, owners, d, pending) && HasNext(d.heap, pending, r)
    ensures Waits(d.log, r)
  {
    var e :| (e in d.heap || e in pending) && e.what.run == Some(r);
    assert ChainOk(d.log, d.nextRun, owners, e);
  }

  /** No other entry continues the run of the entry at hand. */
  lemma {:induction false} OnlyOneContinues(reg: seq<Trigger>, owners: map<RunId, Trigger>, d: Desk, e: Place,
                                            rest: seq<Place>, y: Place)
    requires DeskOk(reg, owners, d, [e] + rest) && (y in d.heap || y in rest) && e.what.run.Some?
    ensures y.what.run != e.what.run
  {
    assert e in [e] + rest && (y in rest ==> y in [e] + rest);
    assert ChainOk(d.log, d.nextRun, owners, e) && ChainOk(d.log, d.nextRun, owners, y);
    OthersDiffer(reg, d.heap, e, rest, y);
  }

  lemma {:induction false} LogOfHandled(d: Desk, e: Place, v: Verdict, r: RunId)
    ensures
      Of(Handle(d, e, v).desk.log, r) ==
        Of(d.log, r) + if r == RunOf(d, e, v) then RecordOf(r, e, v) else []
  {
    assert d.log + [] == d.log;
    if v.executed.Some? {
      OfAppend(d.log, Record(e.trigger, RunOf(d, e, v), e.what.attempt, v.executed.value), r);
    }
  }

  /** What continues a run once the entry at hand is handled. */
  lemma {:induction false} NextOfHandled(d: Desk, e: Place, rest: seq<Place>, v: Verdict, r: RunId)
    requires v.next.Ok?
    ensures HasNext(Handle(d, e, v).desk.heap, rest, r) <==>
      HasNext(d.heap, rest, r) || (v.retries && r == RunOf(d, e, v))
  {
    var x, heap := Entry(v.next.value, d.nextSeq, e.trigger, NextChain(d, e, v)), Handle(d, e, v).desk.heap;
    assert forall y :: y in heap <==> y in d.heap || y == x by {
      forall y ensures y in heap <==> y in d.heap || y == x {
        InsertHas(d.heap, x, y);
      }
    }
    if HasNext(d.heap, rest, r) {
      var y :| (y in d.heap || y in rest) && y.what.run == Some(r);
      assert y in heap || y in rest;
    }
    if v.retries && r == RunOf(d, e, v) {
      assert x in heap && x.what.run == Some(r);
    }
  }

  lemma {:induction false} NextOfPending(d: Desk, e: Place, rest: seq<Place>, r: RunId)
    ensures HasNext(d.heap, [e] + rest, r) <==> HasNext(d.heap, rest, r) || e.what.run == Some(r)
  {
    assert e in [e] + rest;
    if HasNext(d.heap, rest, r) {
      var y :| (y in d.heap || y in rest) && y.what.run == Some(r);
      assert y in d.heap || y in [e] + rest;
    }
  }

  lemma {:induction false} HandleAccounts(reg: seq<Trigger>, owners: map<RunId, Trigger>, d: Desk, e: Place,
                                          rest: seq<Place>, v: Verdict, stranded: set<RunId>, r: RunId)
    requires DeskOk(reg, owners, d, [e] + rest) && Sound(e, v) && v.next.Ok? && Accounted(d, [e] + rest, stranded)
    ensures RunAccounted(Handle(d, e, v).desk, rest, stranded + StrandedBy(e, v), r)
  {
    LogOfHandled(d, e, v, r);
    NextOfHandled(d, e, rest, v, r);
    NextOfPending(d, e, rest, r);
    assert RunAccounted(d, [e] + rest, stranded, r);
    if e.what.run == Some(r) && HasNext(d.heap, rest, r) {
      var y :| (y in d.heap || y in rest) && y.what.run == Some(r);
      OnlyOneContinues(reg, owners, d, e, rest, y);
    }
    if e.what.run.None? {
      OfUndrawn(d.log, d.nextRun);
    }
  }

  /** The runs of retries among the first `n` entries that did not start. */
  ghost function StrandedIn(claims: bool, due: seq<Place>, replies: nat -> Reply, n: nat): set<RunId>
    requires n <= |due|
  {
    set k | 0 <= k < n && due[k].what.run.Some? && !IsExecuted(claims, due[k], replies(k)) :: due[k].what.run.value
  }

  lemma {:induction false} OneMoreStranded(claims: bool, due: seq<Place>, now: Time, replies: nat -> Reply,
                                           vs: seq<Verdict>, n: nat)
    requires Judged(claims, due, now, replies, vs) && n < |due|
    ensures StrandedIn(claims, due, replies, n + 1) == StrandedIn(claims, due, replies, n) + StrandedBy(due[n], vs[n])
  {
    assert vs[n] == Judge(claims, due[n], now, replies(n));
    JudgeMeans(claims, due[n], now, replies(n));
  }

  lemma {:induction false} HandleAllAccounts(reg: seq<Trigger>, owners: map<RunId, Trigger>, d: Desk, claims: bool,
                                             due: seq<Place>, now: Time, replies: nat -> Reply, vs: seq<Verdict>,
                                             n: nat, stranded: set<RunId>)
    requires DeskOk(reg, owners, d, due) && Judged(claims, due, now, replies, vs) && Accounted(d, due, stranded)
    requires n <= |due| && HandleAll(Handle, d, due, vs, n).failure.None?
    ensures
      Accounted(HandleAll(Handle, d, due, vs, n).desk, due[n..], stranded + StrandedIn(claims, due, replies, n))
  {
    if n == 0 {
      NoneStranded(claims, due, replies, stranded);
    } else {
      LastStep(d, due, vs, n - 1);
      HandleAllAccounts(reg, owners, d, claims, due, now, replies, vs, n - 1, stranded);
      StepAccounts(reg, owners, d, claims, due, now, replies, vs, n - 1, stranded);
    }
  }

  lemma {:induction false} StepAccounts(reg: seq<Trigger>, owners: map<RunId, Trigger>, d: Desk, claims: bool,
                                        due: seq<Place>, now: Time, replies: nat -> Reply, vs: seq<Verdict>,
                                        n: nat, stranded: set<RunId>)
    requires DeskOk(reg, owners, d, due) && Judged(claims, due, now, replies, vs)
    requires n < |due| && vs[n].next.Ok?
    requires Accounted(HandleAll(Handle, d, due, vs, n).desk, due[n..], stranded + StrandedIn(claims, due, replies, n))
    ensures
      Accounted(Handle(HandleAll(Handle, d, due, vs, n).desk, due[n], vs[n]).desk, due[n + 1..],
                stranded + StrandedIn(claims, due, replies, n + 1))
  {
    JudgedIsSound(claims, due, now, replies, vs);
    var os := HandleAllKeeps(reg, owners, d, due, vs, n);
    HandleOneMoreAccounts(reg, os, HandleAll(Handle, d, due, vs, n).desk, claims, due, now, replies, vs, n, stranded);
  }

  lemma {:induction false} NoneStranded(claims: bool, due: seq<Place>, replies: nat -> Reply, stranded: set<RunId>)
    ensures due[0..] == due && stranded + StrandedIn(claims, due, replies, 0) == stranded
  {
  }

  lemma {:induction false} LastStep(d: Desk, due: seq<Place>, vs: seq<Verdict>, n: nat)
    requires n < |due| == |vs| && HandleAll(Handle, d, due, vs, n + 1).failure.None?
    ensures HandleAll(Handle, d, due, vs, n).failure.None? && vs[n].next.Ok?
    ensures HandleAll(Handle, d, due, vs, n + 1) == Handle(HandleAll(Handle, d, due, vs, n).desk, due[n], vs[n])
  {
  }

  lemma {:induction false} HandleOneMoreAccounts(reg: seq<Trigger>, owners: map<RunId, Trigger>, d: Desk, claims: bool,
                                                 due: seq<Place>, now: Time, replies: nat -> Reply, vs: seq<Verdict>,
                                                 n: nat, stranded: set<RunId>)
    requires n < |due| && Judged(claims, due, now, replies, vs) && DeskOk(reg, owners, d, due[n..]) && vs[n].next.Ok?
    requires Sound(due[n], vs[n]) && Accounted(d, due[n..], stranded + StrandedIn(claims, due, replies, n))
    ensures
      Accounted(Handle(d, due[n], vs[n]).desk, due[n + 1..], stranded + StrandedIn(claims, due, replies, n + 1))
  {
    OneMoreStranded(claims, due, now, replies, vs, n);
    var lost := stranded + StrandedIn(claims, due, replies, n);
    assert stranded + StrandedIn(claims, due, replies, n + 1) == lost + StrandedBy(due[n], vs[n]);
    HandleNextAccounts(reg, owners, d, due[n..], vs[n], lost);
    assert due[n..][1..] == due[n + 1..];
  }

  lemma {:induction false} HandleNextAccounts(reg: seq<Trigger>, owners: map<RunId, Trigger>, d: Desk,
                                              pending: seq<Place>, v: Verdict, stranded: set<RunId>)
    requires pending != [] && DeskOk(reg, owners, d, pending) && Sound(pending[0], v) && v.next.Ok?
    requires Accounted(d, pending, stranded)
    ensures Accounted(Handle(d, pending[0], v).desk, pending[1..], stranded + StrandedBy(pending[0], v))
  {
    assert pending == [pending[0]] + pending[1..];
    forall r: RunId
      ensures RunAccounted(Handle(d, pending[0], v).desk, pending[1..], stranded + StrandedBy(pending[0], v), r)
    {
      HandleAccounts(reg, owners, d, pending[0], pending[1..], v, stranded, r);
    }
  }

  lemma {:induction false} PopAccounts(d: Desk, now: Time, stranded: set<RunId>)
    requires Ordered(d.heap) && Accounted(d, [], stranded)
    ensures Accounted(PopFront(d, now), Due(d.heap, now), stranded)
  {
    DueExactly(d.heap, now);
    var due, waiting := Due(d.heap, now), Waiting(d.heap, now);
    forall r: RunId ensures RunAccounted(PopFront(d, now), due, stranded, r) {
      assert RunAccounted(d, [], stranded, r);
      if HasNext(d.heap, [], r) {
        var e :| e in d.heap && e.what.run == Some(r);
        assert e in due + waiting;
      }
      if HasNext(waiting, due, r) {
        var e :| (e in waiting || e in due) && e.what.run == Some(r);
        assert e in due + waiting;
      }
    }
  }

  /** A tick that does not raise accounts for every run. */
  lemma {:induction false} TickAccounts(reg: seq<Trigger>, owners: map<RunId, Trigger>, d: Desk, claims: bool,
                                        now: Time, replies: nat -> Reply, vs: seq<Verdict>, stranded: set<RunId>)
    requires DeskOk(reg, owners, d, []) && Judged(claims, Due(d.heap, now), now, replies, vs)
    requires Accounted(d, [], stranded)
    requires HandleAll(Handle, PopFront(d, now), Due(d.heap, now), vs, |vs|).failure.None?
    ensures
      var due := Due(d.heap, now);
      Accounted(HandleAll(Handle, PopFront(d, now), due, vs, |vs|).desk, [],
                stranded + StrandedIn(claims, due, replies, |due|))
  {
    var due := Due(d.heap, now);
    PopKeeps(reg, owners, d, now);
    PopAccounts(d, now, stranded);
    HandleAllAccounts(reg, owners, PopFront(d, now), claims, due, now, replies, vs, |due|, stranded);
    assert due[|due|..] == [];
  }

  predicate Fails(v: Verdict) { v.next.Err? }

  function HeapOf(d: Desk): seq<Place> { d.heap }

  lemma {:induction false} PlaceKept(d: Desk, e: Place, v: Verdict)
    ensures KeepsPlace(Handle, HeapOf, Fails, d, e, v)
  {
    if v.next.Ok? {
      ItemsInsert(d.heap, Entry(v.next.value, d.nextSeq, e.trigger, NextChain(d, e, v)));
    }
  }

  /** Whatever the verdict, an entry raises or its pair keeps its one place in the heap. */
  lemma {:induction false} PlacesKept()
    ensures AllKeepPlaces(Handle, HeapOf, Fails)
  {
    forall d, e, v ensures KeepsPlace(Handle, HeapOf, Fails, d, e, v) {
      PlaceKept(d, e, v);
    }
  }

  /** How many run ids the first `n` entries draw. */
  function Draws(vs: seq<Verdict>, n: nat): nat
    requires n <= |vs|
  {
    if n == 0 then 0 else Draws(vs, n - 1) + if vs[n - 1].draws then 1 else 0
  }

  /** The run of the `i`-th entry: the one it continues, or the next one drawn. */
  function RunAt(first: RunId, due: seq<Place>, vs: seq<Verdict>, i: nat): RunId
    requires i < |due| == |vs|
  {
    if vs[i].draws || due[i].what.run.None? then first + Draws(vs, i) else due[i].what.run.value
  }

  /** The executions of the first `n` entries, in order. */
  function Executed(first: RunId, due: seq<Place>, vs: seq<Verdict>, n: nat): seq<Record>
    requires n <= |due| == |vs|
  {
    if n == 0 then []
    else Executed(first, due, vs, n - 1) + RecordOf(RunAt(first, due, vs, n - 1), due[n - 1], vs[n - 1])
  }

  datatype Tally = Tally(log: seq<Record>, nextRun: RunId)

  function TallyOf(d: Desk): Tally { Tally(d.log, d.nextRun) }

  /** The log and the run ids once the first `k` entries are handled. */
  function ExpectedTally(d: Desk, due: seq<Place>, vs: seq<Verdict>): nat -> Tally
    requires |due| == |vs|
  {
    (k: nat) =>
      if k <= |due| then Tally(d.log + Executed(d.nextRun, due, vs, k), d.nextRun + Draws(vs, k)) else TallyOf(d)
  }

  lemma {:induction false} ExecutesOne(d: Desk, due: seq<Place>, vs: seq<Verdict>, x: Desk, k: nat)
    requires k < |due| == |vs|
    ensures Tracks(Handle, TallyOf, ExpectedTally(d, due, vs), due, vs, x, k)
  {
    var a, b := d.log, Executed(d.nextRun, due, vs, k);
    var c := RecordOf(RunAt(d.nextRun, due, vs, k), due[k], vs[k]);
    assert (a + b) + c == a + (b + c);
  }

  /** A tick appends exactly the executions of the entries it began, in due order, and draws run ids in that order. */
  lemma {:induction false} TickExecutesInOrder(d: Desk, due: seq<Place>, vs: seq<Verdict>, n: nat)
    requires n <= |due| == |vs|
    ensures
      var r, m := HandleAll(Handle, d, due, vs, n), Begun(Fails, vs, n);
      r.desk.log == d.log + Executed(d.nextRun, due, vs, m) && r.desk.nextRun == d.nextRun + Draws(vs, m)
  {
    PlacesKept();
    forall x, k: nat | k < |due| ensures Tracks(Handle, TallyOf, ExpectedTally(d, due, vs), due, vs, x, k) {
      ExecutesOne(d, due, vs, x, k);
    }
    assert d.log + [] == d.log;
    TickFollows(Handle, HeapOf, Fails, TallyOf, ExpectedTally(d, due, vs), d, due, vs, n);
  }

  // ---------------- whole histories ----------------

  lemma {:induction false} PrefixIsHistory(log: seq<Record>)
    requires Histories(log) && log != []
    ensures Histories(log[..|log| - 1])
  {
    var init, last := log[..|log| - 1], log[|log| - 1];
    assert log == init + [last];
    forall r: RunId ensures IsHistory(Of(init, r)) {
      OfAppend(init, last, r);
      assert IsHistory(Of(log, r));
      var s := Of(init, r);
      assert forall i :: 0 <= i < |s| ==> Of(log, r)[i] == s[i];
    }
  }

  /** Within one run the attempts executed later have larger numbers: no pair is executed twice. */
  lemma {:induction false} AttemptsNeverRepeat(log: seq<Record>, i: nat, j: nat)
    requires Histories(log) && i < j < |log| && log[i].run == log[j].run
    ensures log[i].attempt < log[j].attempt && log[i].status.Retrying?
    ensures log[i].trigger == log[j].trigger
  {
    PrefixIsHistory(log);
    var init, r := log[..|log| - 1], log[i].run;
    assert log == init + [log[|log| - 1]];
    OfAppend(init, log[|log| - 1], r);
    assert IsHistory(Of(log, r));
    if j < |log| - 1 {
      AttemptsNeverRepeat(init, i, j);
    } else {
      InHistory(init, i);
      assert Of(log, r)[|Of(log, r)| - 1] == log[j];
      assert Of(log, r)[log[i].attempt - 1] == log[i];
    }
  }

  /** A record sits in its run's history at the place its attempt number says. */
  lemma {:induction false} InHistory(log: seq<Record>, i: nat)
    requires Histories(log) && i < |log|
    ensures var s := Of(log, log[i].run); 1 <= log[i].attempt <= |s| && s[log[i].attempt - 1] == log[i]
  {
    var r, init := log[i].run, log[..|log| - 1];
    assert log == init + [log[|log| - 1]];
    OfAppend(init, log[|log| - 1], r);
    assert IsHistory(Of(log, r));
    if i < |log| - 1 {
      PrefixIsHistory(log);
      InHistory(init, i);
    } else {
      assert Of(log, r)[|Of(log, r)| - 1] == log[i];
    }
  }

  // ---------------- the scheduler ----------------

  predicate Judgeable(e: Place) {
    && InCalendar(e.at) && e.what.attempt >= 1
    && (e.what.run.None? <==> e.what == REGULAR) && (e.what.run.Some? ==> e.what.attempt > 1)
  }

  ghost predicate Judged(claims: bool, due: seq<Place>, now: Time, replies: nat -> Reply, vs: seq<Verdict>) {
    && |vs| == |due| && (forall i :: 0 <= i < |due| ==> Judgeable(due[i]))
    && forall i {:trigger Judge(claims, due[i], now, replies(i))} ::
         0 <= i < |due| ==> vs[i] == Judge(claims, due[i], now, replies(i))
  }

  lemma {:induction false} JudgedIsSound(claims: bool, due: seq<Place>, now: Time, replies: nat -> Reply,
                                         vs: seq<Verdict>)
    requires Judged(claims, due, now, replies, vs)
    ensures forall i :: 0 <= i < |due| ==> Sound(due[i], vs[i])
  {
    forall i | 0 <= i < |due| ensures Sound(due[i], vs[i]) {
      assert vs[i] == Judge(claims, due[i], now, replies(i));
      JudgeIsSound(claims, due[i], now, replies(i));
    }
  }

  ghost function Verdicts(claims: bool, due: seq<Place>, now: Time, replies: nat -> Reply): seq<Verdict>
    requires forall i :: 0 <= i < |due| ==> Judgeable(due[i])
  {
    seq(|due|, i requires 0 <= i < |due| && Judgeable(due[i]) => Judge(claims, due[i], now, replies(i)))
  }

  lemma {:induction false} VerdictsAreJudged(claims: bool, due: seq<Place>, now: Time, replies: nat -> Reply)
    requires forall i :: 0 <= i < |due| ==> Judgeable(due[i])
    ensures Judged(claims, due, now, replies, Verdicts(claims, due, now, replies))
  {
  }

  /** A tick raises exactly when one of the entries due at its start does, on what can be read off beforehand. */
  lemma {:induction false} TickRaisesExactly(claims: bool, due: seq<Place>, now: Time, replies: nat -> Reply,
                                             vs: seq<Verdict>)
    requires Judged(claims, due, now, replies, vs)
    ensures FirstFailing(Fails, vs, |vs|) < |due| <==>
      exists k :: 0 <= k < |due| && EntryRaises(claims, due[k], now, replies(k))
  {
    forall k | 0 <= k < |due| ensures Fails(vs[k]) <==> EntryRaises(claims, due[k], now, replies(k)) {
      assert vs[k] == Judge(claims, due[k], now, replies(k));
      JudgeFailsExactly(claims, due[k], now, replies(k));
    }
  }

  /** The heap with its due front removed. */
  function PopFront(d: Desk, now: Time): Desk { d.(heap := Waiting(d.heap, now)) }

  lemma {:induction false} PopKeeps(reg: seq<Trigger>, owners: map<RunId, Trigger>, d: Desk, now: Time)
    requires DeskOk(reg, owners, d, [])
    ensures DeskOk(reg, owners, PopFront(d, now), Due(d.heap, now))
    ensures Items(d.heap) == Items(Waiting(d.heap, now)) + Items(Due(d.heap, now))
    ensures forall i :: 0 <= i < DueCount(d.heap, now) ==> Judgeable(Due(d.heap, now)[i])
  {
    DueExactly(d.heap, now);
    var due, waiting := Due(d.heap, now), Waiting(d.heap, now);
    ItemsConcat(due, waiting);
    assert Triggers<Chain>([]) == [];
    forall e | e in waiting || e in due ensures e in d.heap && ChainOk(d.log, d.nextRun, owners, e) {
      assert e in due + waiting;
    }
    forall i | 0 <= i < |due| ensures Judgeable(due[i]) {
      assert due[i] in due;
    }
  }

  /** The entries due at the start are handled in order; unless one raises, every pair keeps its place. */
  ghost predicate Processed(before: Desk, after: Desk, failure: Option<Failure>, now: Time, vs: seq<Verdict>)
    requires |vs| == DueCount(before.heap, now)
  {
    var due, c := Due(before.heap, now), FirstFailing(Fails, vs, |vs|);
    && (failure.Some? <==> c < |due|)
    && Items(after.heap) == Items(Waiting(before.heap, now)) + Items(due[..c])
    && (failure.None? ==> Items(after.heap) == Items(before.heap))
    && after.log == before.log + Executed(before.nextRun, due, vs, Begun(Fails, vs, |vs|))
    && after.nextRun == before.nextRun + Draws(vs, Begun(Fails, vs, |vs|))
  }

  // ---------------- a tick on its inputs alone ----------------

  ghost predicate AllJudgeable(due: seq<Place>) { forall i :: 0 <= i < |due| ==> Judgeable(due[i]) }

  /** The first of the first `n` entries that raises, or `n`. */
  function FirstRaising(claims: bool, due: seq<Place>, now: Time, replies: nat -> Reply, n: nat): (c: nat)
    requires n <= |due| && forall i :: 0 <= i < |due| ==> due[i].what.attempt >= 1
    ensures c <= n && (c < n ==> EntryRaises(claims, due[c], now, replies(c)))
    ensures forall i :: 0 <= i < c ==> !EntryRaises(claims, due[i], now, replies(i))
  {
    if n == 0 then 0
    else
      var c := FirstRaising(claims, due, now, replies, n - 1);
      if c < n - 1 || EntryRaises(claims, due[n - 1], now, replies(n - 1)) then c else n
  }

  /** How many run ids the first `n` entries draw. */
  function DrawnBy(claims: bool, due: seq<Place>, n: nat): nat
    requires n <= |due|
  {
    if n == 0 then 0 else DrawnBy(claims, due, n - 1) + if IsDrawn(claims, due[n - 1]) then 1 else 0
  }

  /** The run of the `k`-th entry: the one it continues, or the next one drawn. */
  function RunBy(claims: bool, first: RunId, due: seq<Place>, k: nat): RunId
    requires k < |due|
  {
    if due[k].what.run.Some? then due[k].what.run.value else first + DrawnBy(claims, due, k)
  }

  /** The executions of the first `n` entries, in order. */
  function LoggedBy(claims: bool, first: RunId, due: seq<Place>, replies: nat -> Reply, n: nat): seq<Record>
    requires n <= |due|
  {
    if n == 0 then []
    else
      var e, reply := due[n - 1], replies(n - 1);
      LoggedBy(claims, first, due, replies, n - 1)
      + if !IsExecuted(claims, e, reply) then []
        else [Record(e.trigger, RunBy(claims, first, due, n - 1), e.what.attempt, EndStatus(e, reply))]
  }

  /** The pair of a handled entry has one entry: the next attempt of the run, or a regular one at its next slot. */
  ghost predicate Continued(heap: seq<Place>, claims: bool, e: Place, now: Time, reply: Reply, run: RunId)
    requires e.what.attempt >= 1
  {
    exists x :: x in heap && x.trigger == e.trigger && ContinuedBy(x, claims, e, now, reply, run)
      && forall y :: y in heap && y.trigger == e.trigger ==> y == x
  }

  predicate ContinuedBy(x: Place, claims: bool, e: Place, now: Time, reply: Reply, run: RunId)
    requires e.what.attempt >= 1
  {
    if IsRetried(claims, e, reply) then
      x.what == Chain(e.what.attempt + 1, Some(run))
        && x.at == reply.clock + Delay(e.trigger.job.policy, e.what.attempt)
    else x.what == Chain(1, None) && x.at == ComputeNextRun(e.trigger.schedule.rule, now)
  }

  /**
   What a tick does, on the heap, the clocks and the answers alone: the entries due at the start are handled
   in order up to the first that raises, their executions are logged in that order, and each handled pair
   goes on with exactly one entry.
   */
  ghost predicate TickDone(before: Desk, after: Desk, failure: Option<Failure>, claims: bool, now: Time,
                           replies: nat -> Reply)
  {
    var due := Due(before.heap, now);
    && AllJudgeable(due)
    && var c := FirstRaising(claims, due, now, replies, |due|);
       var m := if c < |due| then c + 1 else c;
       && (failure.Some? <==> c < |due|)
       && Items(after.heap) == Items(Waiting(before.heap, now)) + Items(due[..c])
       && (failure.None? ==> Items(after.heap) == Items(before.heap))
       && after.log == before.log + LoggedBy(claims, before.nextRun, due, replies, m)
       && after.nextRun == before.nextRun + DrawnBy(claims, due, m)
       && (forall x :: x in before.heap && x.at > now ==> x in after.heap)
       && forall k {:trigger RunBy(claims, before.nextRun, due, k)} :: 0 <= k < c ==>
            Continued(after.heap, claims, due[k], now, replies(k), RunBy(claims, before.nextRun, due, k))
  }

  /** Verdicts and inputs agree on the first entry that raises. */
  lemma {:induction false} SameFirst(claims: bool, due: seq<Place>, now: Time, replies: nat -> Reply,
                                     vs: seq<Verdict>, n: nat)
    requires Judged(claims, due, now, replies, vs) && n <= |due|
    ensures FirstFailing(Fails, vs, n) == FirstRaising(claims, due, now, replies, n)
  {
    if n > 0 {
      SameFirst(claims, due, now, replies, vs, n - 1);
      assert vs[n - 1] == Judge(claims, due[n - 1], now, replies(n - 1));
      JudgeFailsExactly(claims, due[n - 1], now, replies(n - 1));
    }
  }

  /** ... on what is drawn and executed ... */
  lemma {:induction false} SameLog(claims: bool, first: RunId, due: seq<Place>, now: Time, replies: nat -> Reply,
                                   vs: seq<Verdict>, n: nat)
    requires Judged(claims, due, now, replies, vs) && n <= |due|
    ensures Draws(vs, n) == DrawnBy(claims, due, n)
    ensures Executed(first, due, vs, n) == LoggedBy(claims, first, due, replies, n)
  {
    if n > 0 {
      SameLog(claims, first, due, now, replies, vs, n - 1);
      SameRun(claims, first, due, now, replies, vs, n - 1);
    }
  }

  lemma {:induction false} SameRun(claims: bool, first: RunId, due: seq<Place>, now: Time, replies: nat -> Reply,
                                   vs: seq<Verdict>, k: nat)
    requires Judged(claims, due, now, replies, vs) && k < |due| && Draws(vs, k) == DrawnBy(claims, due, k)
    ensures RunAt(first, due, vs, k) == RunBy(claims, first, due, k)
    ensures vs[k].draws <==> IsDrawn(claims, due[k])
    ensures vs[k].retries <==> IsRetried(claims, due[k], replies(k))
    ensures vs[k].executed ==
      if IsExecuted(claims, due[k], replies(k)) then Some(EndStatus(due[k], replies(k))) else None
    ensures vs[k].next.Ok? ==> vs[k].next.value == DueAgain(claims, due[k], now, replies(k))
  {
    assert vs[k] == Judge(claims, due[k], now, replies(k));
    JudgeMeans(claims, due[k], now, replies(k));
  }

  /** What was pushed stays in the heap until the end of the tick. */
  lemma {:induction false} HeapOnlyGrows(d: Desk, due: seq<Place>, vs: seq<Verdict>, k: nat, n: nat, x: Place)
    requires k <= n <= |due| == |vs| && x in HandleAll(Handle, d, due, vs, k).desk.heap
    ensures x in HandleAll(Handle, d, due, vs, n).desk.heap
    decreases n
  {
    if k < n {
      HeapOnlyGrows(d, due, vs, k, n - 1, x);
      PushKeepsEntries(HandleAll(Handle, d, due, vs, n - 1).desk, due[n - 1], vs[n - 1], x);
    }
  }

  lemma {:induction false} PushKeepsEntries(d: Desk, e: Place, v: Verdict, x: Place)
    ensures x in d.heap ==> x in Handle(d, e, v).desk.heap
    ensures v.next.Ok? ==> Entry(v.next.value, d.nextSeq, e.trigger, NextChain(d, e, v)) in Handle(d, e, v).desk.heap
  {
    if v.next.Ok? {
      var y := Entry(v.next.value, d.nextSeq, e.trigger, NextChain(d, e, v));
      InsertHas(d.heap, y, x);
      InsertHas(d.heap, y, y);
    }
  }

  /** The entry pushed for the `k`-th popped one is in the heap at the end, with the run of its turn. */
  lemma {:induction false} PushedFor(d: Desk, due: seq<Place>, vs: seq<Verdict>, k: nat) returns (x: Place)
    requires k < FirstFailing(Fails, vs, |vs|) && |due| == |vs|
    ensures x in HandleAll(Handle, d, due, vs, |due|).desk.heap && x.trigger == due[k].trigger
    ensures vs[k].next.Ok? && x.at == vs[k].next.value
    ensures x.what == if vs[k].retries then Chain(due[k].what.attempt + 1,
      Some(RunAt(d.nextRun, due, vs, k))) else REGULAR
  {
    var before := HandleAll(Handle, d, due, vs, k);
    PlacesKept();
    EarlierFirst(vs, k);
    StopsAtFirstFailing(Handle, HeapOf, Fails, d, due, vs, k);
    TickExecutesInOrder(d, due, vs, k);
    x := Entry(vs[k].next.value, before.desk.nextSeq, due[k].trigger, NextChain(before.desk, due[k], vs[k]));
    PushKeepsEntries(before.desk, due[k], vs[k], x);
    assert HandleAll(Handle, d, due, vs, k + 1) == Handle(before.desk, due[k], vs[k]);
    HeapOnlyGrows(d, due, vs, k + 1, |due|, x);
  }

  lemma {:induction false} EarlierFirst(vs: seq<Verdict>, k: nat)
    requires k < FirstFailing(Fails, vs, |vs|)
    ensures FirstFailing(Fails, vs, k) == k && Begun(Fails, vs, k) == k && !Fails(vs[k])
  {
  }

  lemma {:induction false} TickIsDone(reg: seq<Trigger>, d: Desk, claims: bool, now: Time, replies: nat -> Reply,
                                      vs: seq<Verdict>)
    requires Judged(claims, Due(d.heap, now), now, replies, vs) && Registered(reg) && Ordered(d.heap)
    requires
      var r := HandleAll(Handle, PopFront(d, now), Due(d.heap, now), vs, |vs|);
      Processed(d, r.desk, r.failure, now, vs) && Items(r.desk.heap) <= multiset(reg)
    ensures
      var r := HandleAll(Handle, PopFront(d, now), Due(d.heap, now), vs, |vs|);
      TickDone(d, r.desk, r.failure, claims, now, replies)
  {
    var due := Due(d.heap, now);
    var r := HandleAll(Handle, PopFront(d, now), due, vs, |vs|);
    SameFirst(claims, due, now, replies, vs, |due|);
    var c := FirstRaising(claims, due, now, replies, |due|);
    SameLog(claims, d.nextRun, due, now, replies, vs, Begun(Fails, vs, |vs|));
    forall x | x in d.heap && x.at > now ensures x in r.desk.heap {
      LaterStays(d, now, vs, x);
    }
    forall k | 0 <= k < c
      ensures Continued(r.desk.heap, claims, due[k], now, replies(k), RunBy(claims, d.nextRun, due, k))
    {
      EntryContinued(reg, d, claims, now, replies, vs, k);
    }
  }

  lemma {:induction false} LaterStays(d: Desk, now: Time, vs: seq<Verdict>, x: Place)
    requires Ordered(d.heap) && |vs| == DueCount(d.heap, now) && x in d.heap && x.at > now
    ensures x in HandleAll(Handle, PopFront(d, now), Due(d.heap, now), vs, |vs|).desk.heap
  {
    DueExactly(d.heap, now);
    assert x in Due(d.heap, now) + Waiting(d.heap, now);
    HeapOnlyGrows(PopFront(d, now), Due(d.heap, now), vs, 0, |vs|, x);
  }

  lemma {:induction false} EntryContinued(reg: seq<Trigger>, d: Desk, claims: bool, now: Time, replies: nat -> Reply,
                                          vs: seq<Verdict>, k: nat)
    requires Judged(claims, Due(d.heap, now), now, replies, vs) && Registered(reg)
    requires Items(HandleAll(Handle, PopFront(d, now), Due(d.heap, now), vs, |vs|).desk.heap) <= multiset(reg)
    requires k < FirstFailing(Fails, vs, |vs|)
    ensures
      var due := Due(d.heap, now);
      Continued(HandleAll(Handle, PopFront(d, now), due, vs, |vs|).desk.heap, claims, due[k], now, replies(k),
                RunBy(claims, d.nextRun, due, k))
  {
    var due := Due(d.heap, now);
    var heap := HandleAll(Handle, PopFront(d, now), due, vs, |vs|).desk.heap;
    var x := PushedFor(PopFront(d, now), due, vs, k);
    SameLog(claims, d.nextRun, due, now, replies, vs, k);
    SameRun(claims, d.nextRun, due, now, replies, vs, k);
    assert ContinuedBy(x, claims, due[k], now, replies(k), RunBy(claims, d.nextRun, due, k));
    forall y | y in heap && y.trigger == due[k].trigger ensures y == x {
      OneEntryPerPair(reg, heap, x, y);
    }
  }

  lemma {:induction false} TickKeeps(reg: seq<Trigger>, owners: map<RunId, Trigger>, d: Desk, claims: bool,
                                     now: Time, replies: nat -> Reply, vs: seq<Verdict>)
    returns (os: map<RunId, Trigger>)
    requires DeskOk(reg, owners, d, []) && Judged(claims, Due(d.heap, now), now, replies, vs)
    ensures
      var r := HandleAll(Handle, PopFront(d, now), Due(d.heap, now), vs, |vs|);
      DeskOk(reg, os, r.desk, []) && Processed(d, r.desk, r.failure, now, vs)
  {
    var due := Due(d.heap, now);
    PopKeeps(reg, owners, d, now);
    JudgedIsSound(claims, due, now, replies, vs);
    os := HandleAllKeeps(reg, owners, PopFront(d, now), due, vs, |due|);
    PlacesKept();
    StopsAtFirstFailing(Handle, HeapOf, Fails, PopFront(d, now), due, vs, |due|);
    TickConserves(Handle, HeapOf, Fails, PopFront(d, now), due, vs, |due|);
    TickExecutesInOrder(PopFront(d, now), due, vs, |due|);
    assert due[..|due|] == due && due[|due|..] == [];
  }

  /** All that a tick of a scheduler with this past will do. */
  lemma {:induction false} TickPlan(claims: bool, events: seq<Event>, reg: seq<Trigger>, d: Desk, now: Time,
                                    replies: nat -> Reply)
    returns (vs: seq<Verdict>)
    requires var w := RunEvents(claims, events); w.reg == reg && w.desk == d
    ensures Ordered(d.heap) && Judged(claims, Due(d.heap, now), now, replies, vs)
    ensures
      var r := HandleAll(Handle, PopFront(d, now), Due(d.heap, now), vs, |vs|);
      var w := RunEvents(claims, events + [TickAt(now, replies)]);
      && w.reg == reg && w.desk == r.desk && TickDone(d, r.desk, r.failure, claims, now, replies)
      && d.log <= r.desk.log && d.nextRun <= r.desk.nextRun
  {
    var owners := RunIsOk(claims, events);
    vs := DeskPlan(reg, owners, d, claims, now, replies);
    TickEvent(claims, events, reg, d, now, replies, vs);
  }

  lemma {:induction false} DeskPlan(reg: seq<Trigger>, owners: map<RunId, Trigger>, d: Desk, claims: bool,
                                    now: Time, replies: nat -> Reply)
    returns (vs: seq<Verdict>)
    requires DeskOk(reg, owners, d, [])
    ensures Judged(claims, Due(d.heap, now), now, replies, vs)
    ensures
      var r := HandleAll(Handle, PopFront(d, now), Due(d.heap, now), vs, |vs|);
      && TickDone(d, r.desk, r.failure, claims, now, replies)
      && d.log <= r.desk.log && d.nextRun <= r.desk.nextRun
  {
    PopKeeps(reg, owners, d, now);
    VerdictsAreJudged(claims, Due(d.heap, now), now, replies);
    vs := Verdicts(claims, Due(d.heap, now), now, replies);
    var _ := TickKeeps(reg, owners, d, claims, now, replies, vs);
    assert Triggers<Chain>([]) == [];
    TickIsDone(reg, d, claims, now, replies, vs);
  }

  datatype Next = Next(at: Time, what: Chain)

  class Scheduler {
    const claims: bool
    var heap: seq<Place>
    var nextSeq: nat
    var nextRun: RunId
    var log: seq<Record>
    var active: set<RunId>
    var registered: seq<Trigger>
    ghost var events: seq<Event>

    ghost function TheDesk(): Desk reads this { Desk(heap, nextSeq, nextRun, log) }

    /** What is stored is what the registrations and ticks so far leave; so `HistoryOfAnyRun` is about this object. */
    ghost predicate Valid() reads this {
      && active == {}
      && var w := RunEvents(claims, events); w.reg == registered && w.desk == TheDesk()
    }

    constructor (claims: bool)
      ensures Valid() && this.claims == claims && registered == [] && log == []
    {
      this.claims := claims;
      heap, nextSeq, nextRun, log, active, registered := [], 0, 0, [], {}, [];
      events := [];
    }

    method Add(job: Job, schedule: Schedule, now: Time) returns (ok: bool)
      requires Valid() && schedule.rule.Valid() && job.policy.Valid()
      modifies this
      ensures Valid() && log == old(log) && events == old(events) + [Registration(job, schedule, now)]
      ensures ok <==> InCalendar(ComputeNextRun(schedule.rule, now))
      ensures var t := Trigger(old(|registered|), job, schedule);
        if ok then
          && registered == old(registered) + [t] && Items(heap) == old(Items(heap)) + multiset{t}
          && multiset(heap) == old(multiset(heap))
               + multiset{Entry(ComputeNextRun(schedule.rule, now), old(nextSeq), t, Chain(1, None))}
        else registered == old(registered) && heap == old(heap)
    {
      var at := ComputeNextRun(schedule.rule, now);
      AddEvent(claims, events, registered, TheDesk(), job, schedule, now);
      events := events + [Registration(job, schedule, now)];
      ok := InCalendar(at);
      if ok {
        var t := Trigger(|registered|, job, schedule);
        ghost var after := PushedFirst(TheDesk(), t, at);
        var _ := Push(at, t, REGULAR);
        registered := registered + [t];
        assert TheDesk() == after;
      }
    }

    method Push(at: Time, t: Trigger, what: Chain) returns (ok: bool)
      modifies this`heap, this`nextSeq
      ensures ok <==> InCalendar(at)
      ensures !ok ==> heap == old(heap) && nextSeq == old(nextSeq)
      ensures ok ==> heap == Insert(old(heap), Entry(at, old(nextSeq), t, what)) && nextSeq == old(nextSeq) + 1
    {
      ok := InCalendar(at);
      if ok {
        heap, nextSeq := Insert(heap, Entry(at, nextSeq, t, what)), nextSeq + 1;
      }
    }

    /** Runs the attempt of an entry that was not skipped; answers its status when it started. */
    method Execute(e: Place, run: RunId, reply: Reply) returns (status: Option<JobStatus>)
      requires active == {}
      modifies this`log, this`active
      ensures active == {}
      ensures status ==
        if !reply.starts then None
        else Some(Executor.StatusAfter(e.trigger.job.policy, e.what.attempt, reply.end))
      ensures log == old(log) + if status.None? then [] else [Record(e.trigger, run, e.what.attempt, status.value)]
    {
      active := active + {run};
      var r, _ := Executor.Conclude(e.trigger.job.policy, e.what.attempt, reply.starts, false, reply.end);
      active := active - {run};
      if r.Err? {
        return None;
      }
      log := log + [Record(e.trigger, run, e.what.attempt, r.value.status)];
      status := Some(r.value.status);
    }

    /** The body of the tick's loop. */
    method TriggerEntry(due: seq<Place>, k: nat, now: Time, replies: nat -> Reply, ghost vs: seq<Verdict>)
      returns (failure: Option<Failure>)
      requires Judged(claims, due, now, replies, vs) && k < |due| && active == {}
      modifies this`heap, this`nextSeq, this`nextRun, this`log, this`active
      ensures active == {}
      ensures Handle(old(TheDesk()), due[k], vs[k]) == Handled(TheDesk(), failure)
    {
      var e := due[k];
      assert vs[k] == Judge(claims, due[k], now, replies(k));
      var r := Attend(e, now, replies(k));
      if r.Err? {
        return Some(r.error);
      }
      var ok := Push(r.value.at, e.trigger, r.value.what);
      failure := if ok then None else Some(Overflow);
    }

    /**
     The run to execute: a new one, claimed if it is to be, or the one continued; nothing when the claim is
     not won.
     */
    method DrawRun(e: Place, reply: Reply) returns (r: Result<Option<RunId>, Failure>)
      requires Judgeable(e)
      modifies this`nextRun
      ensures
        var claimed := e.what.attempt == 1 && claims;
        if claimed && KeyOf(e).Err? then r == Err(BadKey(KeyOf(e).error)) && nextRun == old(nextRun)
        else
          var draws := claimed || e.what.run.None?;
          && r.Ok? && nextRun == old(nextRun) + (if draws then 1 else 0)
          && r.value == if claimed && !reply.claim.Won? then None else if draws then Some(old(nextRun)) else e.what.run
    {
      var run := e.what.run;
      if e.what.attempt == 1 && claims {
        var key := KeyOf(e);
        if key.Err? {
          return Err(BadKey(key.error));
        }
        run, nextRun := Some(nextRun), nextRun + 1;
        if !reply.claim.Won? {
          return Ok(None);
        }
      }
      if run.None? {
        run, nextRun := Some(nextRun), nextRun + 1;
      }
      r := Ok(run);
    }

    /** Claims and runs the entry unless it is skipped; answers where it goes next. */
    method Attend(e: Place, now: Time, reply: Reply) returns (r: Result<Next, Failure>)
      requires Judgeable(e) && active == {}
      modifies this`nextRun, this`log, this`active
      ensures active == {}
      ensures var v, was := Judge(claims, e, now, reply), old(TheDesk());
        && TheDesk() == Ran(was, e, v)
        && (r.Err? ==> v.next == Err(r.error))
        && (r.Ok? ==>
              && v.next == (if InCalendar(r.value.at) then Ok(r.value.at) else Err(Overflow))
              && r.value.what == NextChain(was, e, v))
    {
      r := Ok(Next(ComputeNextRun(e.trigger.schedule.rule, now), REGULAR));
      if !e.trigger.Enabled() {
        return;
      }
      var drawn := DrawRun(e, reply);
      if drawn.Err? {
        return Err(drawn.error);
      }
      var run := drawn.value;
      if run.None? {
        return;
      }
      var status := Execute(e, run.value, reply);
      if status == Some(Retrying) {
        r := Ok(Next(reply.clock + Delay(e.trigger.job.policy, e.what.attempt), Chain(e.what.attempt + 1, run)));
      }
    }

    /** One tick: everything due at its start, in order. The records appended to `log` are its executions. */
    method Tick(now: Time, replies: nat -> Reply) returns (failure: Option<Failure>)
      requires Valid()
      modifies this
      ensures Valid() && registered == old(registered) && events == old(events) + [TickAt(now, replies)]
      ensures TickDone(old(TheDesk()), TheDesk(), failure, claims, now, replies)
      ensures old(log) <= log && old(nextRun) <= nextRun
    {
      ghost var vs := TickPlan(claims, events, registered, TheDesk(), now, replies);
      failure := PopAndTrigger(now, replies, vs);
      events := events + [TickAt(now, replies)];
    }

    method PopAndTrigger(now: Time, replies: nat -> Reply, ghost vs: seq<Verdict>) returns (failure: Option<Failure>)
      requires Ordered(heap) && Judged(claims, Due(heap, now), now, replies, vs) && active == {}
      modifies this`heap, this`nextSeq, this`nextRun, this`log, this`active
      ensures active == {}
      ensures HandleAll(Handle, PopFront(old(TheDesk()), now), Due(old(heap), now), vs, |vs|)
        == Handled(TheDesk(), failure)
    {
      var due;
      due, heap := PopDue(heap, now);
      failure := TriggerAll(due, now, replies, vs);
    }

    method TriggerAll(due: seq<Place>, now: Time, replies: nat -> Reply, ghost vs: seq<Verdict>)
      returns (failure: Option<Failure>)
      requires Judged(claims, due, now, replies, vs) && active == {}
      modifies this`heap, this`nextSeq, this`nextRun, this`log, this`active
      ensures active == {}
      ensures HandleAll(Handle, old(TheDesk()), due, vs, |due|) == Handled(TheDesk(), failure)
    {
      ghost var start := TheDesk();
      failure := None;
      for k := 0 to |due|
        invariant active == {} && failure.None?
        invariant HandleAll(Handle, start, due, vs, k) == Handled(TheDesk(), None)
      {
        failure := TriggerEntry(due, k, now, replies, vs);
        if failure.Some? {
          HandleAllStops(Handle, start, due, vs, k + 1, |due|);
          return;
        }
      }
    }
  }

  lemma {:induction false} AddKeeps(reg: seq<Trigger>, owners: map<RunId, Trigger>, d: Desk, t: Trigger, at: Time)
    requires DeskOk(reg, owners, d, []) && t.origin == |reg| && t.schedule.rule.Valid() && t.job.policy.Valid()
      && InCalendar(at)
    ensures DeskOk(reg + [t], owners, PushedFirst(d, t, at), [])
    ensures Items(PushedFirst(d, t, at).heap) == Items(d.heap) + multiset{t}
  {
    var x := Entry(at, d.nextSeq, t, REGULAR);
    InsertKeepsOrder(d.heap, x);
    InsertKeepsNumbers(d.heap, x);
    ItemsInsert(d.heap, x);
    assert Triggers<Chain>([]) == [];
    forall y | y in Insert(d.heap, x) ensures ChainOk(d.log, d.nextRun, owners, y) {
      InsertHas(d.heap, x, y);
    }
  }

  // ---------------- any sequence of registrations and ticks ----------------

  datatype Event = Registration(job: Job, schedule: Schedule, now: Time) | TickAt(now: Time, replies: nat -> Reply)

  /**
   A scheduler so far: whether an exception ever left one of its ticks, and the runs whose retry was due and
   did not start.
   */
  datatype World = World(reg: seq<Trigger>, desk: Desk, raised: bool, stranded: set<RunId>)

  const NEWBORN := World([], Desk([], 0, 0, []), false, {})

  predicate Acceptable(job: Job, schedule: Schedule, now: Time) {
    schedule.rule.Valid() && job.policy.Valid() && InCalendar(ComputeNextRun(schedule.rule, now))
  }

  ghost function AfterEvent(claims: bool, w: World, ev: Event): World {
    match ev
    case Registration(job, schedule, now) =>
      if !Acceptable(job, schedule, now) then w
      else WithPair(w, Trigger(|w.reg|, job, schedule), ComputeNextRun(schedule.rule, now))
    case TickAt(now, replies) =>
      var due := Due(w.desk.heap, now);
      if exists i :: 0 <= i < |due| && !Judgeable(due[i]) then w
      else
        var r := HandleAll(Handle, PopFront(w.desk, now), due, Verdicts(claims, due, now, replies), |due|);
        World(w.reg, r.desk, w.raised || r.failure.Some?, w.stranded + StrandedIn(claims, due, replies, |due|))
  }

  ghost function RunEvents(claims: bool, events: seq<Event>): World {
    if events == [] then NEWBORN else AfterEvent(claims, RunEvents(claims, events[..|events| - 1]),
      events[|events| - 1])
  }

  ghost predicate WorldOk(w: World, owners: map<RunId, Trigger>) {
    DeskOk(w.reg, owners, w.desk, []) && NothingLost(w)
  }

  /** Unless a tick raised, every registered pair is in the heap and every waiting run is accounted for. */
  ghost predicate NothingLost(w: World) {
    !w.raised ==> Items(w.desk.heap) == multiset(w.reg) && Accounted(w.desk, [], w.stranded)
  }

  /** The world once an accepted pair is registered. */
  ghost function WithPair(w: World, t: Trigger, at: Time): World {
    World(w.reg + [t], PushedFirst(w.desk, t, at), w.raised, w.stranded)
  }

  /** The desk with a regular entry pushed. */
  function PushedFirst(d: Desk, t: Trigger, at: Time): Desk {
    d.(heap := Insert(d.heap, Entry(at, d.nextSeq, t, REGULAR)), nextSeq := d.nextSeq + 1)
  }

  /** All that registering a pair does and keeps. */
  lemma {:induction false} AddEvent(claims: bool, events: seq<Event>, reg: seq<Trigger>, d: Desk,
                                    job: Job, schedule: Schedule, now: Time)
    requires schedule.rule.Valid() && job.policy.Valid()
    requires var w := RunEvents(claims, events); w.reg == reg && w.desk == d
    ensures
      var w := RunEvents(claims, events + [Registration(job, schedule, now)]);
      var at, t := ComputeNextRun(schedule.rule, now), Trigger(|reg|, job, schedule);
      var x, after := Entry(at, d.nextSeq, t, REGULAR), PushedFirst(d, t, at);
      if InCalendar(at) then
        && w.reg == reg + [t] && w.desk == after
        && multiset(after.heap) == multiset(d.heap) + multiset{x}
        && Items(after.heap) == Items(d.heap) + multiset{t}
      else w.reg == reg && w.desk == d
  {
    NextEvent(claims, events, Registration(job, schedule, now));
    var at, t := ComputeNextRun(schedule.rule, now), Trigger(|reg|, job, schedule);
    if InCalendar(at) {
      InsertAdds(d.heap, Entry(at, d.nextSeq, t, REGULAR));
      ItemsInsert(d.heap, Entry(at, d.nextSeq, t, REGULAR));
    }
  }

  lemma {:induction false} PairKeeps(w: World, owners: map<RunId, Trigger>, t: Trigger, at: Time)
    requires WorldOk(w, owners) && t.origin == |w.reg| && t.schedule.rule.Valid() && t.job.policy.Valid()
      && InCalendar(at)
    ensures WorldOk(WithPair(w, t, at), owners)
  {
    AddKeeps(w.reg, owners, w.desk, t, at);
    PairAccounts(w, t, at);
  }

  lemma {:induction false} PairAccounts(w: World, t: Trigger, at: Time)
    requires NothingLost(w)
    ensures NothingLost(WithPair(w, t, at))
  {
    ItemsInsert(w.desk.heap, Entry(at, w.desk.nextSeq, t, REGULAR));
    RegistrationAccounts(w.desk, Entry(at, w.desk.nextSeq, t, REGULAR), w.stranded);
  }

  lemma {:induction false} RegistrationKeeps(claims: bool, w: World, owners: map<RunId, Trigger>, ev: Event)
    requires WorldOk(w, owners) && ev.Registration?
    ensures WorldOk(AfterEvent(claims, w, ev), owners) && AfterEvent(claims, w, ev).desk.log == w.desk.log
  {
    if Acceptable(ev.job, ev.schedule, ev.now) {
      PairKeeps(w, owners, Trigger(|w.reg|, ev.job, ev.schedule), ComputeNextRun(ev.schedule.rule, ev.now));
    }
  }

  lemma {:induction false} NextEvent(claims: bool, events: seq<Event>, ev: Event)
    ensures RunEvents(claims, events + [ev]) == AfterEvent(claims, RunEvents(claims, events), ev)
  {
    assert (events + [ev])[..|events|] == events;
  }

  lemma {:induction false} TickEvent(claims: bool, events: seq<Event>, reg: seq<Trigger>, d: Desk, now: Time,
                                     replies: nat -> Reply, vs: seq<Verdict>)
    requires var w := RunEvents(claims, events); w.reg == reg && w.desk == d
    requires Judged(claims, Due(d.heap, now), now, replies, vs)
    ensures
      var w := RunEvents(claims, events + [TickAt(now, replies)]);
      w.reg == reg && w.desk == HandleAll(Handle, PopFront(d, now), Due(d.heap, now), vs, |vs|).desk
  {
    var due := Due(d.heap, now);
    NextEvent(claims, events, TickAt(now, replies));
    VerdictsAreJudged(claims, due, now, replies);
    forall i | 0 <= i < |due| ensures Verdicts(claims, due, now, replies)[i] == vs[i] {
      assert vs[i] == Judge(claims, due[i], now, replies(i));
    }
    assert Verdicts(claims, due, now, replies) == vs;
  }

  lemma {:induction false} RegistrationAccounts(d: Desk, x: Place, stranded: set<RunId>)
    requires x.what == REGULAR
    ensures Accounted(d, [], stranded) ==>
      Accounted(d.(heap := Insert(d.heap, x), nextSeq := d.nextSeq + 1), [], stranded)
  {
    var after := d.(heap := Insert(d.heap, x), nextSeq := d.nextSeq + 1);
    forall r: RunId ensures RunAccounted(d, [], stranded, r) ==> RunAccounted(after, [], stranded, r) {
      if HasNext(d.heap, [], r) {
        var e :| e in d.heap && e.what.run == Some(r);
        InsertHas(d.heap, x, e);
      }
      if HasNext(after.heap, [], r) {
        var e :| e in after.heap && e.what.run == Some(r);
        InsertHas(d.heap, x, e);
      }
    }
  }

  lemma {:induction false} TickEventKeeps(claims: bool, w: World, owners: map<RunId, Trigger>, ev: Event)
    returns (os: map<RunId, Trigger>)
    requires WorldOk(w, owners) && ev.TickAt?
    ensures WorldOk(AfterEvent(claims, w, ev), os) && w.desk.log <= AfterEvent(claims, w, ev).desk.log
  {
    var due := Due(w.desk.heap, ev.now);
    PopKeeps(w.reg, owners, w.desk, ev.now);
    VerdictsAreJudged(claims, due, ev.now, ev.replies);
    var vs := Verdicts(claims, due, ev.now, ev.replies);
    os := TickKeeps(w.reg, owners, w.desk, claims, ev.now, ev.replies, vs);
    if !AfterEvent(claims, w, ev).raised {
      TickAccounts(w.reg, owners, w.desk, claims, ev.now, ev.replies, vs, w.stranded);
    }
  }

  lemma {:induction false} RunIsOk(claims: bool, events: seq<Event>) returns (owners: map<RunId, Trigger>)
    ensures WorldOk(RunEvents(claims, events), owners)
  {
    if events == [] {
      owners := map[];
      assert Triggers<Chain>([]) == [];
    } else {
      var w, ev := RunEvents(claims, events[..|events| - 1]), events[|events| - 1];
      owners := RunIsOk(claims, events[..|events| - 1]);
      if ev.Registration? {
        RegistrationKeeps(claims, w, owners, ev);
      } else {
        owners := TickEventKeeps(claims, w, owners, ev);
      }
    }
  }

  lemma {:induction false} LogOnlyGrows(claims: bool, events: seq<Event>, m: nat)
    requires m <= |events|
    ensures RunEvents(claims, events[..m]).desk.log <= RunEvents(claims, events).desk.log
  {
    if m == |events| {
      assert events[..m] == events;
    } else {
      var init, ev := events[..|events| - 1], events[|events| - 1];
      assert init[..m] == events[..m];
      LogOnlyGrows(claims, init, m);
      var owners := RunIsOk(claims, init);
      if ev.Registration? {
        RegistrationKeeps(claims, RunEvents(claims, init), owners, ev);
      } else {
        var _ := TickEventKeeps(claims, RunEvents(claims, init), owners, ev);
      }
    }
  }

  // ---------------- which runs keep every pair ----------------

  /** The pairs registered by a sequence of events. */
  function RegisteredBy(events: seq<Event>): seq<Trigger> {
    if events == [] then []
    else
      var init, ev := RegisteredBy(events[..|events| - 1]), events[|events| - 1];
      if ev.Registration? && Acceptable(ev.job, ev.schedule, ev.now) then
        init + [Trigger(|init|, ev.job, ev.schedule)]
      else init
  }

  /** The clocks of a tick leave room for every registered pair's next slot and for every retry delay. */
  ghost predicate Timely(reg: seq<Trigger>, ev: Event) {
    ev.TickAt? ==> forall t :: t in reg ==>
      && InCalendar(ComputeNextRun(t.schedule.rule, ev.now))
      && forall k: nat, n: nat :: n >= 1 ==> InCalendar(ev.replies(k).clock + Delay(t.job.policy, n))
  }

  /** Known from the events alone: the registered ids make keys if keys are claimed, and the clocks leave room. */
  ghost predicate SafeEvents(claims: bool, events: seq<Event>) {
    && (claims ==> forall t :: t in RegisteredBy(events) && t.Enabled() ==> KeyFits(t.job.id, t.schedule))
    && forall m :: 0 <= m < |events| ==> Timely(RegisteredBy(events[..m]), events[m])
  }

  lemma {:induction false} RegisteredAre(claims: bool, events: seq<Event>)
    ensures RunEvents(claims, events).reg == RegisteredBy(events)
  {
    if events != [] {
      RegisteredAre(claims, events[..|events| - 1]);
    }
  }

  lemma {:induction false} SafeBefore(claims: bool, events: seq<Event>)
    requires SafeEvents(claims, events) && events != []
    ensures SafeEvents(claims, events[..|events| - 1])
    ensures Timely(RegisteredBy(events[..|events| - 1]), events[|events| - 1])
  {
    var init := events[..|events| - 1];
    forall m | 0 <= m < |init| ensures Timely(RegisteredBy(init[..m]), init[m]) {
      assert init[..m] == events[..m];
      assert Timely(RegisteredBy(events[..m]), events[m]);
    }
    assert Timely(RegisteredBy(events[..|init|]), events[|init|]);
  }

  /** An entry of a registered pair raises nothing in a timely tick with keys that can be built. */
  lemma {:induction false} SafeEntry(claims: bool, reg: seq<Trigger>, e: Place, ev: Event, k: nat)
    requires ev.TickAt? && Timely(reg, ev) && e.trigger in reg && e.what.attempt >= 1
    requires claims && e.trigger.Enabled() ==> KeyFits(e.trigger.job.id, e.trigger.schedule)
    ensures !EntryRaises(claims, e, ev.now, ev.replies(k))
  {
  }

  lemma {:induction false} SafeTick(claims: bool, w: World, owners: map<RunId, Trigger>, ev: Event)
    requires WorldOk(w, owners) && ev.TickAt? && Timely(w.reg, ev)
    requires claims ==> forall t :: t in w.reg && t.Enabled() ==> KeyFits(t.job.id, t.schedule)
    ensures AfterEvent(claims, w, ev).raised == w.raised
  {
    var due := Due(w.desk.heap, ev.now);
    PopKeeps(w.reg, owners, w.desk, ev.now);
    VerdictsAreJudged(claims, due, ev.now, ev.replies);
    var vs := Verdicts(claims, due, ev.now, ev.replies);
    TickRaisesExactly(claims, due, ev.now, ev.replies, vs);
    forall k | 0 <= k < |due| ensures !EntryRaises(claims, due[k], ev.now, ev.replies(k)) {
      DueIsRegistered(w, owners, ev.now, k);
      SafeEntry(claims, w.reg, due[k], ev, k);
    }
    PlacesKept();
    StopsAtFirstFailing(Handle, HeapOf, Fails, PopFront(w.desk, ev.now), due, vs, |due|);
  }

  lemma {:induction false} DueIsRegistered(w: World, owners: map<RunId, Trigger>, now: Time, k: nat)
    requires WorldOk(w, owners) && k < DueCount(w.desk.heap, now)
    ensures Due(w.desk.heap, now)[k].trigger in w.reg
  {
    assert w.desk.heap[k] in w.desk.heap;
    ItemsHas(w.desk.heap, w.desk.heap[k]);
    assert Triggers<Chain>([]) == [];
    assert w.desk.heap[k].trigger in multiset(w.reg);
  }

  /** No exception leaves a tick of a safe run. */
  lemma {:induction false} SafeNeverRaises(claims: bool, events: seq<Event>)
    requires SafeEvents(claims, events)
    ensures !RunEvents(claims, events).raised
  {
    if events != [] {
      var init, ev := events[..|events| - 1], events[|events| - 1];
      SafeBefore(claims, events);
      SafeNeverRaises(claims, init);
      RegisteredAre(claims, init);
      if ev.TickAt? {
        var owners := RunIsOk(claims, init);
        SafeTick(claims, RunEvents(claims, init), owners, ev);
      }
    }
  }

  /**
   Over any sequence of registrations and ticks, whatever claims, handlers and clocks answer: what was
   executed is never forgotten, each run's executions are 1, 2, ..., all but the last RETRYING, and no attempt
   is executed twice. As long as no tick raised, which none of a safe run does, the heap holds exactly the
   registered pairs, and the last execution of a run is RETRYING exactly while the heap holds an entry that
   continues it, or for good when its next attempt was due and did not start.
   */
  lemma {:induction false} HistoryOfAnyRun(claims: bool, events: seq<Event>, m: nat)
    requires m <= |events|
    ensures
      var w := RunEvents(claims, events);
      && RunEvents(claims, events[..m]).desk.log <= w.desk.log
      && Histories(w.desk.log)
      && w.reg == RegisteredBy(events) && NothingLost(w)
      && (SafeEvents(claims, events) ==> !w.raised)
      && forall i, j :: 0 <= i < j < |w.desk.log| && w.desk.log[i].run == w.desk.log[j].run ==>
           w.desk.log[i].attempt < w.desk.log[j].attempt && w.desk.log[i].status.Retrying?
  {
    var owners := RunIsOk(claims, events);
    LogOnlyGrows(claims, events, m);
    RegisteredAre(claims, events);
    if SafeEvents(claims, events) {
      SafeNeverRaises(claims, events);
    }
    var log := RunEvents(claims, events).desk.log;
    forall i, j | 0 <= i < j < |log| && log[i].run == log[j].run
      ensures log[i].attempt < log[j].attempt && log[i].status.Retrying?
    {
      AttemptsNeverRepeat(log, i, j);
    }
  }

  /** Registering one pair and ticking when its first slot is due. */
  function OnePairRun(job: Job, schedule: Schedule, now: Time, replies: nat -> Reply): seq<Event> {
    [Registration(job, schedule, now), TickAt(ComputeNextRun(schedule.rule, now), replies)]
  }

  /**
   One enabled pair and clocks that leave room: its first tick raises, and the pair is gone from the heap,
   exactly when slots are claimed and its ids make no key.
   */
  lemma {:induction false} FirstTickLosesPairExactly(claims: bool, job: Job, schedule: Schedule, now: Time,
                                                     replies: nat -> Reply)
    requires Acceptable(job, schedule, now) && job.enabled && schedule.enabled
    requires Timely([Trigger(0, job, schedule)], TickAt(ComputeNextRun(schedule.rule, now), replies))
    ensures
      var w := RunEvents(claims, OnePairRun(job, schedule, now, replies));
      && w.reg == [Trigger(0, job, schedule)]
      && (w.raised <==> claims && !KeyFits(job.id, schedule))
      && Items(w.desk.heap) == if w.raised then multiset{} else multiset{Trigger(0, job, schedule)}
  {
    var slot, t := ComputeNextRun(schedule.rule, now), Trigger(0, job, schedule);
    OnePairSteps(claims, job, schedule, now, replies);
    TickOfOnePair(claims, Entry(slot, 0, t, REGULAR), replies);
  }

  /** The world right after one pair is registered. */
  function OnePairWorld(e: Place): World { World([e.trigger], Desk([e], 1, 0, []), false, {}) }

  lemma {:induction false} OnePairSteps(claims: bool, job: Job, schedule: Schedule, now: Time, replies: nat -> Reply)
    requires Acceptable(job, schedule, now)
    ensures
      var slot := ComputeNextRun(schedule.rule, now);
      RunEvents(claims, OnePairRun(job, schedule, now, replies)) ==
        AfterEvent(claims, OnePairWorld(Entry(slot, 0, Trigger(0, job, schedule), REGULAR)), TickAt(slot, replies))
  {
    var events := OnePairRun(job, schedule, now, replies);
    var first := events[..1];
    assert first[..0] == [] && first[0] == events[0];
    assert RunEvents(claims, []) == NEWBORN;
    assert RunEvents(claims, first)
      == OnePairWorld(Entry(ComputeNextRun(schedule.rule, now), 0, Trigger(0, job, schedule), REGULAR));
  }

  lemma {:induction false} TickOfOnePair(claims: bool, e: Place, replies: nat -> Reply)
    requires e.what == REGULAR && InCalendar(e.at)
    ensures
      var w := AfterEvent(claims, OnePairWorld(e), TickAt(e.at, replies));
      && w.reg == [e.trigger] && (w.raised <==> EntryRaises(claims, e, e.at, replies(0)))
      && Items(w.desk.heap) == if w.raised then multiset{} else multiset{e.trigger}
  {
    OneEntryDue(e);
    var vs := Verdicts(claims, [e], e.at, replies);
    VerdictsAreJudged(claims, [e], e.at, replies);
    TickRaisesExactly(claims, [e], e.at, replies, vs);
    assert [e][0] == e;
    OneEntryTick(Desk([], 1, 0, []), e, vs);
  }

  lemma {:induction false} OneEntryDue(e: Place)
    ensures Due([e], e.at) == [e] && Waiting([e], e.at) == []
  {
    assert DueCount([e], e.at) == 1;
  }

  lemma {:induction false} OneEntryTick(d: Desk, e: Place, vs: seq<Verdict>)
    requires |vs| == 1 && d.heap == []
    ensures
      var r := HandleAll(Handle, d, [e], vs, 1);
      && (r.failure.Some? <==> FirstFailing(Fails, vs, 1) < 1)
      && Items(r.desk.heap) == if r.failure.Some? then multiset{} else multiset{e.trigger}
  {
    PlacesKept();
    StopsAtFirstFailing(Handle, HeapOf, Fails, d, [e], vs, 1);
    TickConserves(Handle, HeapOf, Fails, d, [e], vs, 1);
    assert Triggers<Chain>([]) == [] && Triggers([e]) == [e.trigger];
    assert [e][..0] == [] && [e][..1] == [e];
  }

  /** A job id of 300 characters, with a claim callback: the tick raises and the pair is never due again. */
  lemma {:induction false} LongIdLosesPair(policy: RetryPolicy, now: Time, replies: nat -> Reply)
    requires
      var job, schedule := Job(Text.Zeros(300), true, policy), Schedule("s", Daily(0), true);
      && Acceptable(job, schedule, now)
      && Timely([Trigger(0, job, schedule)], TickAt(ComputeNextRun(schedule.rule, now), replies))
    ensures
      var job, schedule := Job(Text.Zeros(300), true, policy), Schedule("s", Daily(0), true);
      var w := RunEvents(true, OnePairRun(job, schedule, now, replies));
      w.raised && Items(w.desk.heap) == multiset{}
  {
    var job, schedule := Job(Text.Zeros(300), true, policy), Schedule("s", Daily(0), true);
    Text.ZerosAreZero(300);
    FirstTickLosesPairExactly(true, job, schedule, now, replies);
  }
}
