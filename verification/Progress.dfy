/**
 A run cannot go on for ever: a natural number, computed from the attempts a run has left and from
 how far its messages have come, falls with every action that works on the run, and rises only when
 a worker stops in the middle or a failed publication puts a schedule back.
 */
module Progress {
  import opened Common
  import opened StateMachine
  import opened Repositories
  import opened Protocol
  import opened Invariant

  /** Work that may still follow from a failure of this attempt. */
  function Budget(h: History, a: Attempt): nat {
    var max := if a.run in h.runs then h.MaxAttempts(h.runs[a.run]) else 0;
    if a.number < max then 10 * (max - a.number) else 0
  }

  function StageOf(pc: WorkerPc): nat {
    match pc
    case Idle => 6
    case Fetched(_) => 5
    case Known(_) => 4
    case Cleared(_) => 3
    case Executing(_) => 2
    case Finishing(_) => 1
  }

  /** How far a queued message still has to go to its acknowledgement. */
  function Stage(q: Queue, workers: map<WorkerId, WorkerPc>, id: MessageId): nat {
    if id in q.pending then
      var pc := WorkerAt(workers, q.pending[id].consumer);
      if !pc.Idle? && pc.id == id then StageOf(pc) else 6
    else if id in q.ready then 7
    else 0
  }

  function MessageWeight(s: State, r: RunId, id: MessageId): nat requires id < |s.h.log| {
    var m := s.h.log[id];
    if m.run != r || Stage(s.q, s.workers, id) == 0 then 0
    else Stage(s.q, s.workers, id) + if s.db.Handled(m) then 0 else Budget(s.h, m.Id())
  }

  ghost predicate Carried(sweepers: map<SweeperId, SweeperPc>, a: Attempt) {
    exists p :: InFlight(SweeperAt(sweepers, p)) && SweeperAt(sweepers, p).ex.Id() == a
  }

  /** The weight of a retry schedule, stored or taken by a sweeper. */
  ghost function RetryWeight(h: History, rows: Table, sweepers: map<SweeperId, SweeperPc>, a: Attempt): nat {
    if HasSchedule(rows, a) then Budget(h, a)
    else if Carried(sweepers, a) && Budget(h, a) > 0 then Budget(h, a) - 1
    else 0
  }

  ghost predicate Pledged(dispatchers: map<DispatcherId, DispatcherPc>, r: RunId) {
    exists d :: Claiming(DispatcherAt(dispatchers, d)) && DispatcherAt(dispatchers, d).run == r
  }

  ghost function ClaimWeight(s: State, r: RunId): nat {
    if Pledged(s.dispatchers, r) then Budget(s.h, Attempt(r, 0)) else 0
  }

  function Limit(h: History, r: RunId): nat {
    if r in h.runs then h.MaxAttempts(h.runs[r]) else 0
  }

  ghost function MessageWeights(s: State, r: RunId): seq<nat> {
    seq(|s.h.log|, i requires 0 <= i < |s.h.log| => MessageWeight(s, r, i))
  }

  ghost function RetryWeights(s: State, r: RunId): seq<nat> {
    seq(Limit(s.h, r), i requires 0 <= i => RetryWeight(s.h, s.db.rows, s.sweepers, Attempt(r, i)))
  }

  /** The work a run may still cause. */
  ghost function Work(s: State, r: RunId): nat {
    Sum(MessageWeights(s, r)) + Sum(RetryWeights(s, r)) + ClaimWeight(s, r)
  }

  // ---------------- comparing two states ----------------

  /** No retry of the run weighs more than before, except possibly that of attempt `k`. */
  ghost predicate RetriesNoWorse(s: State, t: State, r: RunId, k: Option<nat>) {
    && Limit(t.h, r) == Limit(s.h, r)
    && forall n: nat {:trigger Attempt(r, n)} :: Some(n) != k ==>
         RetryWeight(t.h, t.db.rows, t.sweepers, Attempt(r, n))
           <= RetryWeight(s.h, s.db.rows, s.sweepers, Attempt(r, n))
  }

  ghost predicate MessagesNoWorse(s: State, t: State, r: RunId) {
    && |t.h.log| >= |s.h.log|
    && forall id :: 0 <= id < |s.h.log| ==> MessageWeight(t, r, id) <= MessageWeight(s, r, id)
  }

  lemma {:induction false} RetrySums(s: State, t: State, r: RunId, k: Option<nat>)
    requires RetriesNoWorse(s, t, r, k) && (k.Some? ==> k.value < Limit(s.h, r))
    ensures k.None? ==> Sum(RetryWeights(t, r)) <= Sum(RetryWeights(s, r))
    ensures k.Some? ==>
      Sum(RetryWeights(t, r)) + RetryWeight(s.h, s.db.rows, s.sweepers, Attempt(r, k.value))
        <= Sum(RetryWeights(s, r)) + RetryWeight(t.h, t.db.rows, t.sweepers, Attempt(r, k.value))
  {
    if k.None? {
      SumMonotone(RetryWeights(t, r), RetryWeights(s, r));
    } else {
      SumAllBut(RetryWeights(t, r), RetryWeights(s, r), k.value);
    }
  }

  lemma {:induction false} MessageSums(s: State, t: State, r: RunId, k: MessageId)
    requires MessagesNoWorse(s, t, r) && |t.h.log| == |s.h.log| && k < |s.h.log|
    ensures Sum(MessageWeights(t, r)) + MessageWeight(s, r, k) <= Sum(MessageWeights(s, r)) + MessageWeight(t, r, k)
  {
    SumAllBut(MessageWeights(t, r), MessageWeights(s, r), k);
  }

  /** Nothing about the run got worse. */
  lemma {:induction false} NoWorse(s: State, t: State, r: RunId)
    requires MessagesNoWorse(s, t, r) && |t.h.log| == |s.h.log|
    requires RetriesNoWorse(s, t, r, None) && ClaimWeight(t, r) <= ClaimWeight(s, r)
    ensures Work(t, r) <= Work(s, r)
  {
    SumMonotone(MessageWeights(t, r), MessageWeights(s, r));
    RetrySums(s, t, r, None);
  }

  /** One message came closer to its end and nothing else got worse. */
  lemma {:induction false} Better(s: State, t: State, r: RunId, k: MessageId)
    requires MessagesNoWorse(s, t, r) && |t.h.log| == |s.h.log|
    requires RetriesNoWorse(s, t, r, None) && ClaimWeight(t, r) <= ClaimWeight(s, r)
    requires k < |s.h.log| && MessageWeight(t, r, k) < MessageWeight(s, r, k)
    ensures Work(t, r) < Work(s, r)
  {
    MessageSums(s, t, r, k);
    RetrySums(s, t, r, None);
  }

  function One(b: bool): nat { if b then 1 else 0 }

  // ---------------- workers and their messages ----------------

  /** A worker that goes on with its message brings that message closer to its acknowledgement. */
  lemma {:induction false} StageFalls(s: State, w: WorkerId, pc: WorkerPc, id: MessageId)
    requires Inv(s) && !s.Worker(w).Idle? && !pc.Idle? && pc.id == s.Worker(w).id
    ensures id == pc.id ==>
      && Stage(s.q, s.workers, id) == StageOf(s.Worker(w))
      && Stage(s.q, s.workers[w := pc], id) == StageOf(pc)
    ensures id != pc.id ==> Stage(s.q, s.workers[w := pc], id) == Stage(s.q, s.workers, id)
  {
    assert WorkerOk(s, w, s.Worker(w));
  }

  lemma {:induction false} WorkerMoves(s: State, w: WorkerId, pc: WorkerPc, r: RunId)
    requires Inv(s) && s.Holds(w) && !pc.Idle? && pc.id == s.Worker(w).id
    requires StageOf(pc) < StageOf(s.Worker(w))
    ensures Work(s.SetWorker(w, pc), r) + One(s.Held(w).run == r) <= Work(s, r)
  {
    var t := s.SetWorker(w, pc);
    forall id | 0 <= id < |s.h.log| ensures MessageWeight(t, r, id) <= MessageWeight(s, r, id) {
      StageFalls(s, w, pc, id);
    }
    StageFalls(s, w, pc, pc.id);
    if s.Held(w).run == r {
      Better(s, t, r, pc.id);
    } else {
      NoWorse(s, t, r);
    }
  }

  lemma {:induction false} ConsumeWork(s: State, w: WorkerId, r: RunId)
    requires Inv(s) && s.Worker(w).Idle? && s.q.ready != []
    ensures s.q.ready[0] < |s.h.log|
    ensures Work(ConsumeStep(s, w), r) + One(s.h.log[s.q.ready[0]].run == r) <= Work(s, r)
  {
    var t, k := ConsumeStep(s, w), s.q.ready[0];
    assert k in s.q.ready;
    forall id | 0 <= id < |s.h.log| ensures MessageWeight(t, r, id) <= MessageWeight(s, r, id) {
      assert id in t.q.ready ==> id in s.q.ready;
    }
    if s.h.log[k].run == r {
      Better(s, t, r, k);
    } else {
      NoWorse(s, t, r);
    }
  }

  lemma {:induction false} TakeOverWork(s: State, w: WorkerId, k: MessageId, stale: Time, r: RunId)
    requires Inv(s) && CanTakeOver(s, w, k, stale)
    ensures k < |s.h.log|
    ensures Work(TakeOverStep(s, w, k), r) + One(s.h.log[k].run == r) <= Work(s, r)
  {
    var t := TakeOverStep(s, w, k);
    TakeOverHitsNoLiveHolder(s, w, k, stale, s.q.pending[k].consumer);
    forall id | 0 <= id < |s.h.log| ensures MessageWeight(t, r, id) <= MessageWeight(s, r, id) {
    }
    if s.h.log[k].run == r {
      Better(s, t, r, k);
    } else {
      NoWorse(s, t, r);
    }
  }

  lemma {:induction false} AckWork(s: State, w: WorkerId, r: RunId)
    requires Inv(s) && s.Worker(w).Finishing? && s.Holds(w)
    ensures Work(AckStep(s, w), r) + One(s.Held(w).run == r) <= Work(s, r)
  {
    var t, k := AckStep(s, w), s.Worker(w).id;
    assert WorkerOk(s, w, s.Worker(w));
    forall id | 0 <= id < |s.h.log| ensures MessageWeight(t, r, id) <= MessageWeight(s, r, id) {
    }
    if s.Held(w).run == r {
      Better(s, t, r, k);
    } else {
      NoWorse(s, t, r);
    }
  }

  lemma {:induction false} StopStage(s: State, w: WorkerId, r: RunId, id: MessageId)
    requires Inv(s) && id < |s.h.log|
    ensures MessageWeight(s.SetWorker(w, Idle), r, id) <= MessageWeight(s, r, id) + 5
    ensures s.Worker(w).Idle? || s.Worker(w).id != id || s.h.log[id].run != r ==>
      MessageWeight(s.SetWorker(w, Idle), r, id) == MessageWeight(s, r, id)
  {
  }

  /** A worker that stops puts its message back to waiting for a takeover, at most five stages. */
  lemma {:induction false} StopWorkerWork(s: State, w: WorkerId, r: RunId)
    requires Inv(s)
    ensures Work(s.SetWorker(w, Idle), r) <= Work(s, r) + 5 * One(s.Holds(w) && s.Held(w).run == r)
  {
    var t := s.SetWorker(w, Idle);
    assert WorkerOk(s, w, s.Worker(w));
    forall id | 0 <= id < |s.h.log| && (s.Worker(w).Idle? || s.Worker(w).id != id || s.h.log[id].run != r)
      ensures MessageWeight(t, r, id) == MessageWeight(s, r, id)
    {
      StopStage(s, w, r, id);
    }
    if s.Holds(w) && s.Held(w).run == r {
      StopStage(s, w, r, s.Worker(w).id);
      SumAllBut(MessageWeights(t, r), MessageWeights(s, r), s.Worker(w).id);
      RetrySums(s, t, r, None);
    } else {
      NoWorse(s, t, r);
    }
  }

  /** Before its row is settled, an attempt that a worker holds carries its whole budget and no schedule. */
  lemma {:induction false} OpenAttempt(s: State, w: WorkerId)
    requires Inv(s) && s.Holds(w) && (s.Worker(w).Cleared? || s.Worker(w).Executing?)
    requires CanUpsert(s.db, s.Held(w))
    ensures var m := s.Held(w);
      && !s.db.Handled(m) && !HasSchedule(s.db.rows, m.Id()) && !Carried(s.sweepers, m.Id())
      && (m.attempt < s.h.MaxAttempts(m.job) ==> m.attempt < Limit(s.h, m.run))
  {
    var m := s.Held(w);
    HolderAlone(s, w);
    assert MessageOk(s.h, s.db.jobs, s.db.keys, m, s.Worker(w).id);
    assert m.Id() in s.db.rows ==> RowOk(s.h, s.db.jobs, m.Id(), s.db.rows[m.Id()]);
  }

  /** Writing the row of the held attempt changes the weight of no other message and no other retry. */
  lemma {:induction false} UpsertElsewhere(s: State, w: WorkerId, ex: Execution, pc: WorkerPc, r: RunId)
    requires Inv(s) && s.Holds(w) && (s.Worker(w).Cleared? || s.Worker(w).Executing?)
    requires CanUpsert(s.db, s.Held(w)) && WorkerRow(s.h, s.Held(w), ex)
    requires !pc.Idle? && pc.id == s.Worker(w).id && StageOf(pc) < StageOf(s.Worker(w))
    ensures var t := s.SetRows(Upsert(s.db.rows, ex)).SetWorker(w, pc);
      && RetriesNoWorse(s, t, r, if ex.run == r then Some(ex.attempt) else None)
      && MessagesNoWorse(s, t, r)
  {
    var t, k := s.SetRows(Upsert(s.db.rows, ex)).SetWorker(w, pc), s.Worker(w).id;
    OpenAttempt(s, w);
    forall id | 0 <= id < |s.h.log| ensures MessageWeight(t, r, id) <= MessageWeight(s, r, id) {
      StageFalls(s, w, pc, id);
      if s.h.log[id].Id() == ex.Id() {
        AttemptsAreDistinct(s, id, k);
      }
    }
  }

  lemma {:induction false} PersistStartedWork(s: State, w: WorkerId, at: Time, r: RunId)
    requires Inv(s) && s.Worker(w).Cleared? && s.Holds(w) && CanUpsert(s.db, s.Held(w))
    ensures Work(PersistStartedStep(s, w, at), r) + One(s.Held(w).run == r) <= Work(s, r)
  {
    var ex, pc := StartedRow(s.h, s.Held(w), at), Executing(s.Worker(w).id);
    var t := PersistStartedStep(s, w, at);
    OpenAttempt(s, w);
    UpsertElsewhere(s, w, ex, pc, r);
    StageFalls(s, w, pc, pc.id);
    if s.Held(w).run == r {
      Better(s, t, r, pc.id);
    } else {
      NoWorse(s, t, r);
    }
  }

  /** What a settled attempt gives up pays for the schedule it may leave behind. */
  lemma {:induction false} PersistFinalWork(s: State, w: WorkerId, o: Outcome, t0: Time, t1: Time, r: RunId)
    requires Inv(s) && CanPersistFinal(s, w, o)
    ensures Work(PersistFinalStep(s, w, o, t0, t1), r) + One(s.Held(w).run == r) <= Work(s, r)
  {
    var m := s.Held(w);
    var ex, pc := FinalRow(s.h, m, o, t0, t1), Finishing(s.Worker(w).id);
    var t := PersistFinalStep(s, w, o, t0, t1);
    if m.run == r && ex.status.Retrying? {
      PersistRetryWork(s, w, o, t0, t1);
      return;
    }
    OpenAttempt(s, w);
    UpsertElsewhere(s, w, ex, pc, r);
    StageFalls(s, w, pc, pc.id);
    if m.run != r {
      NoWorse(s, t, r);
    } else {
      assert RetriesNoWorse(s, t, r, None);
      Better(s, t, r, pc.id);
    }
  }

  lemma {:induction false} PersistRetryWork(s: State, w: WorkerId, o: Outcome, t0: Time, t1: Time)
    requires Inv(s) && CanPersistFinal(s, w, o) && FinalStatus(s.h, s.Held(w), o).Retrying?
    ensures Work(PersistFinalStep(s, w, o, t0, t1), s.Held(w).run) + 1 <= Work(s, s.Held(w).run)
  {
    var m := s.Held(w);
    var ex, pc := FinalRow(s.h, m, o, t0, t1), Finishing(s.Worker(w).id);
    var t := PersistFinalStep(s, w, o, t0, t1);
    OpenAttempt(s, w);
    UpsertElsewhere(s, w, ex, pc, m.run);
    StageFalls(s, w, pc, pc.id);
    Traded(s, t, m.run, m.attempt, pc.id);
  }

  /** One message and one retry of the run change; together they lose weight. */
  lemma {:induction false} Traded(s: State, t: State, r: RunId, n: nat, id: MessageId)
    requires RetriesNoWorse(s, t, r, Some(n)) && n < Limit(s.h, r)
    requires MessagesNoWorse(s, t, r) && |t.h.log| == |s.h.log| && id < |s.h.log|
    requires ClaimWeight(t, r) <= ClaimWeight(s, r)
    requires
      var a := Attempt(r, n);
      MessageWeight(t, r, id) + RetryWeight(t.h, t.db.rows, t.sweepers, a) + 1
        <= MessageWeight(s, r, id) + RetryWeight(s.h, s.db.rows, s.sweepers, a)
    ensures Work(t, r) + 1 <= Work(s, r)
  {
    RetrySums(s, t, r, Some(n));
    MessageSums(s, t, r, id);
  }

  /** One retry of the run changes and nothing else got worse: the work falls by what the retry loses. */
  lemma {:induction false} RetryFell(s: State, t: State, r: RunId, n: nat)
    requires RetriesNoWorse(s, t, r, Some(n)) && n < Limit(s.h, r)
    requires MessagesNoWorse(s, t, r) && |t.h.log| == |s.h.log| && ClaimWeight(t, r) <= ClaimWeight(s, r)
    ensures
      var a := Attempt(r, n);
      Work(t, r) + RetryWeight(s.h, s.db.rows, s.sweepers, a)
        <= Work(s, r) + RetryWeight(t.h, t.db.rows, t.sweepers, a)
  {
    RetrySums(s, t, r, Some(n));
    SumMonotone(MessageWeights(t, r), MessageWeights(s, r));
  }

  // ---------------- sweepers ----------------

  lemma {:induction false} CarriedUpdate(m: map<SweeperId, SweeperPc>, p: SweeperId, pc: SweeperPc, a: Attempt)
    ensures Carried(m[p := pc], a) ==> Carried(m, a) || (InFlight(pc) && pc.ex.Id() == a)
    ensures InFlight(pc) && pc.ex.Id() == a ==> Carried(m[p := pc], a)
    ensures Carried(m, a) && !(InFlight(SweeperAt(m, p)) && SweeperAt(m, p).ex.Id() == a) ==> Carried(m[p := pc], a)
  {
    var m' := m[p := pc];
    if Carried(m', a) {
      var q :| InFlight(SweeperAt(m', q)) && SweeperAt(m', q).ex.Id() == a;
      assert q != p ==> SweeperAt(m, q) == SweeperAt(m', q);
    }
    if Carried(m, a) {
      var q :| InFlight(SweeperAt(m, q)) && SweeperAt(m, q).ex.Id() == a;
      assert q != p ==> SweeperAt(m', q) == SweeperAt(m, q);
    }
    assert SweeperAt(m', p) == pc;
  }

  /** A sweeper that drops or keeps its flight. */
  lemma {:induction false} SetSweeperWork(s: State, p: SweeperId, pc: SweeperPc, r: RunId)
    requires InFlight(pc) ==> SameFlight(pc, SweeperAt(s.sweepers, p))
    ensures Work(s.SetSweeper(p, pc), r) <= Work(s, r)
  {
    var t := s.SetSweeper(p, pc);
    forall n: nat ensures RetryWeight(t.h, t.db.rows, t.sweepers, Attempt(r, n))
                       <= RetryWeight(s.h, s.db.rows, s.sweepers, Attempt(r, n)) {
      CarriedUpdate(s.sweepers, p, pc, Attempt(r, n));
    }
    NoWorse(s, t, r);
  }

  /** Rows that keep their status and their job weigh the same for messages. */
  lemma {:induction false} ScheduleElsewhere(s: State, t: State, a: Attempt, at: Option<Time>, r: RunId)
    requires a in s.db.rows && t.db == s.db.(rows := s.db.rows[a := s.db.rows[a].(nextRetryAt := at)])
    requires t.h == s.h && t.q == s.q && t.workers == s.workers
    ensures MessagesNoWorse(s, t, r)
  {
  }

  lemma {:induction false} ClaimDueRetries(s: State, p: SweeperId, r: RunId)
    requires CanClaimDue(s, p) && HasSchedule(s.db.rows, s.Sweeper(p).due[0].Id())
    ensures
      var a := s.Sweeper(p).due[0].Id();
      RetriesNoWorse(s, ClaimDueStep(s, p), r, if a.run == r then Some(a.number) else None)
  {
    var t, a := ClaimDueStep(s, p), s.Sweeper(p).due[0].Id();
    forall n: nat | Attempt(r, n) != a
      ensures RetryWeight(t.h, t.db.rows, t.sweepers, Attempt(r, n))
        <= RetryWeight(s.h, s.db.rows, s.sweepers, Attempt(r, n))
    {
      CarriedUpdate(s.sweepers, p, t.Sweeper(p), Attempt(r, n));
    }
  }

  lemma {:induction false} ClaimDueWork(s: State, p: SweeperId, r: RunId)
    requires Inv(s) && CanClaimDue(s, p)
    ensures var ex := s.Sweeper(p).due[0];
      Work(ClaimDueStep(s, p), r) + One(HasSchedule(s.db.rows, ex.Id()) && ex.run == r) <= Work(s, r)
  {
    var pc, t := SweeperAt(s.sweepers, p), ClaimDueStep(s, p);
    var ex := pc.due[0];
    var a := ex.Id();
    if HasSchedule(s.db.rows, a) {
      assert RowOk(s.h, s.db.jobs, a, s.db.rows[a]);
      ScheduleElsewhere(s, t, a, None, r);
      ClaimDueRetries(s, p, r);
      if ex.run == r {
        RetryFell(s, t, r, ex.attempt);
      } else {
        NoWorse(s, t, r);
      }
    } else {
      SetSweeperWork(s, p, Listed(pc.due[1..]), r);
    }
  }

  /** Putting a schedule back costs the one unit its claim had saved. */
  lemma {:induction false} RestoreRetryWork(s: State, p: SweeperId, r: RunId)
    requires Inv(s) && s.Sweeper(p).Bounced?
    ensures Work(RestoreRetryStep(s, p), r) <= Work(s, r) + One(s.Sweeper(p).ex.run == r)
  {
    var pc, t := SweeperAt(s.sweepers, p), RestoreRetryStep(s, p);
    var a := pc.ex.Id();
    assert SweeperOk(s.h, s.db.jobs, s.db.rows, pc);
    if a in s.db.rows {
      ScheduleElsewhere(s, t, a, pc.ex.nextRetryAt, r);
      forall n: nat | Attempt(r, n) != a
        ensures RetryWeight(t.h, t.db.rows, t.sweepers, Attempt(r, n))
          <= RetryWeight(s.h, s.db.rows, s.sweepers, Attempt(r, n))
      {
        CarriedUpdate(s.sweepers, p, Listed(pc.rest), Attempt(r, n));
      }
      SumMonotone(MessageWeights(t, r), MessageWeights(s, r));
      if a.run == r {
        assert Carried(s.sweepers, a);
        RetrySums(s, t, r, Some(a.number));
      } else {
        RetrySums(s, t, r, None);
      }
    } else {
      SetSweeperWork(s, p, Listed(pc.rest), r);
    }
  }

  // ---------------- publishing ----------------

  lemma {:induction false} PublishWeights(s: State, m: Message, r: RunId)
    requires Inv(s)
    ensures var t := s.Publish(m);
      && |t.h.log| == |s.h.log| + 1
      && Sum(MessageWeights(t, r)) == Sum(MessageWeights(s, r)) + MessageWeight(t, r, |s.h.log|)
      && MessageWeight(t, r, |s.h.log|)
         == if m.run != r then 0 else 7 + if s.db.Handled(m) then 0 else Budget(s.h, m.Id())
  {
    var t, n := s.Publish(m), |s.h.log|;
    assert t.q.ready[|s.q.ready|] == n;
    forall id | 0 <= id < n ensures MessageWeight(t, r, id) == MessageWeight(s, r, id) {
      assert t.h.log[id] == s.h.log[id];
      assert id in t.q.ready <==> id in s.q.ready;
    }
    assert MessageWeights(t, r) == MessageWeights(s, r) + [MessageWeight(t, r, n)];
    SumAppend(MessageWeights(s, r), MessageWeight(t, r, n));
  }

  lemma {:induction false} PublishKeepsRetries(s: State, m: Message, r: RunId)
    ensures RetryWeights(s.Publish(m), r) == RetryWeights(s, r) && ClaimWeight(s.Publish(m), r) == ClaimWeight(s, r)
  {
  }

  /** Publishing adds the new message's weight and nothing else. */
  lemma {:induction false} PublishWork(s: State, m: Message, r: RunId)
    requires Inv(s)
    ensures Work(s.Publish(m), r) == Work(s, r)
      + if m.run != r then 0 else 7 + if s.db.Handled(m) then 0 else Budget(s.h, m.Id())
  {
    PublishWeights(s, m, r);
    PublishKeepsRetries(s, m, r);
  }

  /** A flight is carried by one sweeper only. */
  lemma {:induction false} NotCarriedAfter(s: State, p: SweeperId)
    requires Inv(s) && InFlight(s.Sweeper(p))
    ensures !Carried(s.sweepers[p := Listed(s.Sweeper(p).rest)], s.Sweeper(p).ex.Id())
  {
    var pc := SweeperAt(s.sweepers, p);
    var m := s.sweepers[p := Listed(pc.rest)];
    forall q ensures !(InFlight(SweeperAt(m, q)) && SweeperAt(m, q).ex.Id() == pc.ex.Id()) {
      assert SameFlight(SweeperAt(s.sweepers, q), pc) ==> q == p;
    }
  }

  lemma {:induction false} DropFlightRetries(s: State, p: SweeperId, r: RunId)
    requires InFlight(s.Sweeper(p))
    ensures RetriesNoWorse(s, s.SetSweeper(p, Listed(s.Sweeper(p).rest)), r, None)
  {
    var pc := SweeperAt(s.sweepers, p);
    var t := s.SetSweeper(p, Listed(pc.rest));
    forall n: nat
      ensures RetryWeight(t.h, t.db.rows, t.sweepers, Attempt(r, n))
        <= RetryWeight(s.h, s.db.rows, s.sweepers, Attempt(r, n))
    {
      CarriedUpdate(s.sweepers, p, Listed(pc.rest), Attempt(r, n));
    }
  }

  lemma {:induction false} DropFlightWork(s: State, p: SweeperId, r: RunId)
    requires Inv(s) && InFlight(s.Sweeper(p))
    ensures var pc := s.Sweeper(p);
      Work(s.SetSweeper(p, Listed(pc.rest)), r) + (if pc.ex.run == r then Budget(s.h, pc.ex.Id()) - 1 else 0)
        <= Work(s, r)
  {
    var pc := SweeperAt(s.sweepers, p);
    var a, t := pc.ex.Id(), s.SetSweeper(p, Listed(pc.rest));
    assert SweeperOk(s.h, s.db.jobs, s.db.rows, pc);
    DropFlightRetries(s, p, r);
    if a.run == r {
      NotCarriedAfter(s, p);
      assert Carried(s.sweepers, a);
      RetryFell(s, t, r, a.number);
    } else {
      NoWorse(s, t, r);
    }
  }

  lemma {:induction false} PublishDroppedWork(s: State, p: SweeperId, m: Message, r: RunId)
    requires Inv(s) && InFlight(s.Sweeper(p))
    ensures
      var t := s.SetSweeper(p, Listed(s.Sweeper(p).rest));
      Work(t.Publish(m), r) == Work(t, r)
        + if m.run != r then 0 else 7 + if s.db.Handled(m) then 0 else Budget(s.h, m.Id())
  {
    SetSweeperKeeps(s, p, Listed(s.Sweeper(p).rest));
    PublishWork(s.SetSweeper(p, Listed(s.Sweeper(p).rest)), m, r);
  }

  lemma {:induction false} PublishRetryWork(s: State, p: SweeperId, r: RunId)
    requires Inv(s) && s.Sweeper(p).Taken?
    ensures Work(PublishRetryStep(s, p), r) + One(s.Sweeper(p).ex.run == r) <= Work(s, r)
  {
    var pc := SweeperAt(s.sweepers, p);
    var m := Message(pc.ex.job, pc.ex.run, pc.ex.attempt + 1, None);
    var s1 := s.SetSweeper(p, Listed(pc.rest));
    assert SweeperOk(s.h, s.db.jobs, s.db.rows, pc);
    DropFlightWork(s, p, r);
    PublishDroppedWork(s, p, m, r);
    assert PublishRetryStep(s, p) == s1.Publish(m);
  }

  // ---------------- dispatchers ----------------

  lemma {:induction false} PledgedUpdate(m: map<DispatcherId, DispatcherPc>, d: DispatcherId, pc: DispatcherPc,
                                         r: RunId)
    ensures Pledged(m[d := pc], r) ==> Pledged(m, r) || (Claiming(pc) && pc.run == r)
    ensures Claiming(pc) && pc.run == r ==> Pledged(m[d := pc], r)
  {
    var m' := m[d := pc];
    if Pledged(m', r) {
      var e :| Claiming(DispatcherAt(m', e)) && DispatcherAt(m', e).run == r;
      assert e != d ==> DispatcherAt(m, e) == DispatcherAt(m', e);
    }
    assert DispatcherAt(m', d) == pc;
  }

  /** A run is drawn by one dispatcher only. */
  lemma {:induction false} NotPledgedAfter(s: State, d: DispatcherId, pc: DispatcherPc)
    requires Inv(s) && Claiming(s.Dispatcher(d)) && !Claiming(pc)
    ensures !Pledged(s.dispatchers[d := pc], s.Dispatcher(d).run)
  {
    var c, m := DispatcherAt(s.dispatchers, d), s.dispatchers[d := pc];
    forall e ensures !(Claiming(DispatcherAt(m, e)) && DispatcherAt(m, e).run == c.run) {
      assert Clash(DispatcherAt(s.dispatchers, e), c) ==> e == d;
    }
  }

  /** A dispatcher that keeps its run or gives it up; the database may lose or gain keys meanwhile. */
  lemma {:induction false} SetDispatcherWork(s: State, d: DispatcherId, pc: DispatcherPc,
                                             keys: map<SlotKey, RunId>, r: RunId)
    requires Inv(s) && (Claiming(pc) ==> Claiming(s.Dispatcher(d)) && pc.run == s.Dispatcher(d).run)
    ensures Work(s.SetKeys(keys).SetDispatcher(d, pc), r)
            + (if Claiming(s.Dispatcher(d)) && !Claiming(pc) && s.Dispatcher(d).run == r
               then Budget(s.h, Attempt(r, 0)) else 0) <= Work(s, r)
  {
    var t, c := s.SetKeys(keys).SetDispatcher(d, pc), DispatcherAt(s.dispatchers, d);
    PledgedUpdate(s.dispatchers, d, pc, r);
    assert MessageWeights(t, r) == MessageWeights(s, r);
    RetrySums(s, t, r, None);
    if Claiming(c) && c.run == r {
      assert Pledged(s.dispatchers, r);
      if !Claiming(pc) {
        NotPledgedAfter(s, d, pc);
      }
    }
  }

  /** The drawn run pays for its first message. */
  lemma {:induction false} PublishDrawnWork(s: State, d: DispatcherId, r: RunId)
    requires Inv(s) && s.Dispatcher(d).Claimed?
    ensures var c := s.Dispatcher(d);
      Work(s.SetDispatcher(d, Ready).Publish(Message(c.key.job, c.run, 1, Some(c.key))), r) + One(c.run == r)
        <= Work(s, r)
  {
    var c := DispatcherAt(s.dispatchers, d);
    var m := Message(c.key.job, c.run, 1, Some(c.key));
    assert DispatcherOk(s.h, s.db.jobs, s.db.keys, c);
    SetDispatcherWork(s, d, Ready, s.db.keys, r);
    StopDispatcherKeeps(s, d);
    PublishWork(s.SetDispatcher(d, Ready), m, r);
  }

  lemma {:induction false} PublishSlotWork(s: State, d: DispatcherId, r: RunId)
    requires Inv(s) && s.Dispatcher(d).Claimed?
    ensures Work(PublishSlotStep(s, d), r) + One(s.Dispatcher(d).run == r) <= Work(s, r)
  {
    var c := DispatcherAt(s.dispatchers, d);
    var m, pc := Message(c.key.job, c.run, 1, Some(c.key)), Announced(c.key.job, c.run);
    var s1 := s.SetDispatcher(d, Ready).Publish(m);
    PublishDrawnWork(s, d, r);
    AnnounceWork(s, d, r);
    assert PublishSlotStep(s, d) == s1.SetDispatcher(d, pc);
  }

  /** Turning from the published message to its QUEUED row costs nothing. */
  lemma {:induction false} AnnounceWork(s: State, d: DispatcherId, r: RunId)
    requires Inv(s) && s.Dispatcher(d).Claimed?
    ensures
      var c := s.Dispatcher(d);
      var s1 := s.SetDispatcher(d, Ready).Publish(Message(c.key.job, c.run, 1, Some(c.key)));
      Work(s1.SetDispatcher(d, Announced(c.key.job, c.run)), r) <= Work(s1, r)
  {
    var c := DispatcherAt(s.dispatchers, d);
    var s1 := s.SetDispatcher(d, Ready).Publish(Message(c.key.job, c.run, 1, Some(c.key)));
    PublishClaimKeeps(s, d);
    SetDispatcherWork(s1, d, Announced(c.key.job, c.run), s1.db.keys, r);
  }

  /** A drawn run starts with ten units of work for each attempt its policy allows. */
  lemma {:induction false} ClaimSlotWork(s: State, d: DispatcherId, k: SlotKey, x: RunId, r: RunId)
    requires Inv(s) && CanClaimSlot(s, d, k, x)
    ensures r != x ==> Work(ClaimSlotStep(s, d, k, x), r) <= Work(s, r)
    ensures r == x ==> Work(ClaimSlotStep(s, d, k, x), r) == 10 * s.h.MaxAttempts(k.job)
  {
    var t := ClaimSlotStep(s, d, k, x);
    PledgedUpdate(s.dispatchers, d, Claimed(k, x), r);
    if r != x {
      forall id | 0 <= id < |s.h.log| ensures MessageWeight(t, r, id) == MessageWeight(s, r, id) {
      }
      NoWorse(s, t, r);
    } else {
      FreshRunWeighsNothing(s, t, x);
    }
  }

  lemma {:induction false} FreshRunWeighsNothing(s: State, t: State, x: RunId)
    requires Inv(s) && x !in s.h.runs
    requires t.h == s.h.(runs := t.h.runs) && t.db.rows == s.db.rows && t.sweepers == s.sweepers
    ensures Sum(MessageWeights(t, x)) == 0 && Sum(RetryWeights(t, x)) == 0
  {
    forall id | 0 <= id < |s.h.log| ensures MessageWeight(t, x, id) == 0 {
      assert MessageOk(s.h, s.db.jobs, s.db.keys, s.h.log[id], id);
    }
    SumZero(MessageWeights(t, x));
    forall n: nat ensures RetryWeight(t.h, t.db.rows, t.sweepers, Attempt(x, n)) == 0 {
      FreshRunUnpublished(s.h, s.db, Attempt(x, n));
      forall p ensures !(InFlight(SweeperAt(s.sweepers, p)) && SweeperAt(s.sweepers, p).ex.Id() == Attempt(x, n)) {
        assert SweeperOk(s.h, s.db.jobs, s.db.rows, SweeperAt(s.sweepers, p));
      }
    }
    SumZero(RetryWeights(t, x));
  }

  // ---------------- operators ----------------

  lemma {:induction false} InsertQueuedWork(s: State, d: DispatcherId, r: RunId)
    requires Inv(s) && s.Dispatcher(d).Announced?
    ensures Work(InsertQueuedStep(s, d), r) <= Work(s, r)
  {
    var t, c := InsertQueuedStep(s, d), DispatcherAt(s.dispatchers, d);
    PledgedUpdate(s.dispatchers, d, Ready, r);
    forall id | 0 <= id < |s.h.log| ensures MessageWeight(t, r, id) <= MessageWeight(s, r, id) {
      assert MessageOk(s.h, s.db.jobs, s.db.keys, s.h.log[id], id);
    }
    NoWorse(s, t, r);
  }

  lemma {:induction false} AddJobWork(s: State, j: JobId, n: nat, r: RunId)
    requires Inv(s) && j !in s.h.policies
    ensures Work(AddJobStep(s, j, n), r) <= Work(s, r)
  {
    var t := AddJobStep(s, j, n);
    forall id | 0 <= id < |s.h.log| ensures MessageWeight(t, r, id) <= MessageWeight(s, r, id) {
      assert MessageOk(s.h, s.db.jobs, s.db.keys, s.h.log[id], id);
    }
    NoWorse(s, t, r);
  }

  lemma {:induction false} DeleteJobWork(s: State, j: JobId, r: RunId)
    requires Inv(s)
    ensures Work(DeleteJobStep(s, j), r) <= Work(s, r)
  {
    var t := DeleteJobStep(s, j);
    forall id | 0 <= id < |s.h.log| ensures MessageWeight(t, r, id) <= MessageWeight(s, r, id) {
      DeleteJobKeepsHandled(s, j, id);
    }
    NoWorse(s, t, r);
  }

  lemma {:induction false} RequestCancelWork(s: State, a: Attempt, at: Time, r: RunId)
    requires Inv(s) && a in s.db.rows
    ensures Work(RequestCancelStep(s, a, at), r) <= Work(s, r)
  {
    NoWorse(s, RequestCancelStep(s, a, at), r);
  }

  lemma {:induction false} RecoverWork(s: State, at: Time, r: RunId)
    requires Inv(s)
    ensures Work(RecoverStep(s, at), r) <= Work(s, r)
  {
    NoWorse(s, RecoverStep(s, at), r);
  }

  lemma {:induction false} ClockWork(s: State, dt: Time, r: RunId)
    ensures Work(s.(now := s.now + dt), r) == Work(s, r)
  {
    var t := s.(now := s.now + dt);
    assert MessageWeights(t, r) == MessageWeights(s, r) && RetryWeights(t, r) == RetryWeights(s, r);
  }

  lemma {:induction false} RenewWork(s: State, w: WorkerId, r: RunId)
    requires !s.Worker(w).Idle?
    ensures Work(RenewStep(s, w), r) <= Work(s, r)
  {
    NoWorse(s, RenewStep(s, w), r);
  }

  // ---------------- every action, every run ----------------

  /** The action works on the run: it brings a message, a schedule or a drawn run of it further. */
  ghost predicate Advances(s: State, a: Action, r: RunId) {
    match a
    case Consume(_) => s.q.ready != [] && s.q.ready[0] < |s.h.log| && s.h.log[s.q.ready[0]].run == r
    case TakeOver(_, id, _) => id < |s.h.log| && s.h.log[id].run == r
    case ReadJob(w) => s.Holds(w) && s.Held(w).run == r
    case CheckDuplicate(w) => s.Holds(w) && s.Held(w).run == r
    case PersistStarted(w, _) => s.Holds(w) && s.Held(w).run == r
    case PersistFinal(w, _, _, _) => s.Holds(w) && s.Held(w).run == r
    case Ack(w) => s.Holds(w) && s.Held(w).run == r
    case ClaimDue(p) => CanClaimDue(s, p) && s.Sweeper(p).due[0].run == r
      && HasSchedule(s.db.rows, s.Sweeper(p).due[0].Id())
    case PublishRetry(p) => s.Sweeper(p).Taken? && s.Sweeper(p).ex.run == r
    case PublishSlot(d) => s.Dispatcher(d).Claimed? && s.Dispatcher(d).run == r
    case ReleaseSlot(d) => s.Dispatcher(d).Refused? && s.Dispatcher(d).run == r
    case _ => false
  }

  /** The action takes the run back: its worker stopped half-way, or its retry could not be published. */
  ghost predicate SetsBack(s: State, a: Action, r: RunId) {
    match a
    case StopWorker(w) => s.Holds(w) && s.Held(w).run == r
    case RestoreRetry(p) => s.Sweeper(p).Bounced? && s.Sweeper(p).ex.run == r
    case _ => false
  }

  lemma {:induction false} QueueStepWork(s: State, a: Action, r: RunId)
    requires Inv(s) && Enabled(s, a) && (a.Consume? || a.TakeOver? || a.Renew? || a.StopWorker?)
    ensures Work(Apply(s, a), r) + One(Advances(s, a, r)) <= Work(s, r) + 5 * One(SetsBack(s, a, r))
  {
    match a
    case Consume(w) => ConsumeWork(s, w, r);
    case TakeOver(w, id, stale) => TakeOverWork(s, w, id, stale, r);
    case Renew(w) => RenewWork(s, w, r);
    case StopWorker(w) => StopWorkerWork(s, w, r);
  }

  lemma {:induction false} WorkerStepWork(s: State, a: Action, r: RunId)
    requires Inv(s) && Enabled(s, a) && IsWorkerAction(a)
    ensures Work(Apply(s, a), r) + One(Advances(s, a, r)) <= Work(s, r) + 5 * One(SetsBack(s, a, r))
  {
    if a.Consume? || a.TakeOver? || a.Renew? || a.StopWorker? {
      QueueStepWork(s, a, r);
    } else {
      HandlingStepWork(s, a, r);
    }
  }

  lemma {:induction false} HandlingStepWork(s: State, a: Action, r: RunId)
    requires Inv(s) && Enabled(s, a)
    requires a.ReadJob? || a.CheckDuplicate? || a.PersistStarted? || a.PersistFinal? || a.Ack?
    ensures Work(Apply(s, a), r) + One(Advances(s, a, r)) <= Work(s, r)
  {
    match a
    case ReadJob(w) => WorkerMoves(s, w, ReadJobStep(s, w).Worker(w), r);
    case CheckDuplicate(w) => WorkerMoves(s, w, CheckDuplicateStep(s, w).Worker(w), r);
    case PersistStarted(w, at) => PersistStartedWork(s, w, at, r);
    case PersistFinal(w, o, t0, t1) => PersistFinalWork(s, w, o, t0, t1, r);
    case Ack(w) =>
      assert WorkerOk(s, w, s.Worker(w));
      AckWork(s, w, r);
  }

  lemma {:induction false} SweeperStepWork(s: State, a: Action, r: RunId)
    requires Inv(s) && Enabled(s, a) && IsSweeperAction(a)
    ensures Work(Apply(s, a), r) + One(Advances(s, a, r)) <= Work(s, r) + 5 * One(SetsBack(s, a, r))
  {
    match a
    case ListDue(p, _, due) => SetSweeperWork(s, p, Listed(due), r);
    case ClaimDue(p) => ClaimDueWork(s, p, r);
    case PublishRetry(p) => PublishRetryWork(s, p, r);
    case PublishRetryFails(p) => SetSweeperWork(s, p, Bounced(s.Sweeper(p).ex, s.Sweeper(p).rest), r);
    case RestoreRetry(p) => RestoreRetryWork(s, p, r);
    case StopSweeper(p) => SetSweeperWork(s, p, Listed([]), r);
  }

  lemma {:induction false} DispatcherStepWork(s: State, a: Action, r: RunId)
    requires Inv(s) && Enabled(s, a) && IsDispatcherAction(a) && !(a.ClaimSlot? && a.run == r)
    ensures Work(Apply(s, a), r) + One(Advances(s, a, r)) <= Work(s, r)
  {
    match a
    case ClaimSlot(d, k, x) => ClaimSlotWork(s, d, k, x, r);
    case PublishSlot(d) => PublishSlotWork(s, d, r);
    case PublishSlotFails(d) =>
      SetDispatcherWork(s, d, Refused(s.Dispatcher(d).key, s.Dispatcher(d).run), s.db.keys, r);
    case ReleaseSlot(d) =>
      assert DispatcherOk(s.h, s.db.jobs, s.db.keys, DispatcherAt(s.dispatchers, d));
      SetDispatcherWork(s, d, Ready, s.db.keys - {s.Dispatcher(d).key}, r);
    case InsertQueued(d) => InsertQueuedWork(s, d, r);
    case StopDispatcher(d) => SetDispatcherWork(s, d, Ready, s.db.keys, r);
  }

  /** The work of a run falls with every action on it and grows only when it is set back. */
  lemma {:induction false} StepWork(s: State, a: Action, r: RunId)
    requires Inv(s) && Enabled(s, a) && !(a.ClaimSlot? && a.run == r)
    ensures Work(Apply(s, a), r) + One(Advances(s, a, r)) <= Work(s, r) + 5 * One(SetsBack(s, a, r))
  {
    if IsWorkerAction(a) {
      WorkerStepWork(s, a, r);
    } else if IsSweeperAction(a) {
      SweeperStepWork(s, a, r);
    } else if IsDispatcherAction(a) {
      DispatcherStepWork(s, a, r);
    } else {
      OperatorStepWork(s, a, r);
    }
  }

  lemma {:induction false} OperatorStepWork(s: State, a: Action, r: RunId)
    requires Inv(s) && Enabled(s, a)
    requires !IsWorkerAction(a) && !IsSweeperAction(a) && !IsDispatcherAction(a)
    ensures Work(Apply(s, a), r) + One(Advances(s, a, r)) <= Work(s, r)
  {
    match a
    case AddJob(j, n) => AddJobWork(s, j, n, r);
    case DeleteJob(j) => DeleteJobWork(s, j, r);
    case Advance(dt) => ClockWork(s, dt, r);
    case RequestCancel(t, at) => RequestCancelWork(s, t, at, r);
    case Recover(at) => RecoverWork(s, at, r);
  }

  ghost function Advancements(states: seq<State>, actions: seq<Action>, r: RunId): nat
    requires |states| == |actions| + 1
  {
    if actions == [] then 0
    else One(Advances(states[0], actions[0], r)) + Advancements(states[1..], actions[1..], r)
  }

  ghost function Setbacks(states: seq<State>, actions: seq<Action>, r: RunId): nat
    requires |states| == |actions| + 1
  {
    if actions == [] then 0
    else One(SetsBack(states[0], actions[0], r)) + Setbacks(states[1..], actions[1..], r)
  }

  lemma {:induction false} WorkBoundsTrace(states: seq<State>, actions: seq<Action>, r: RunId)
    requires IsTrace(states, actions) && Inv(states[0]) && r in states[0].h.runs
    ensures Advancements(states, actions, r) + Work(states[|actions|], r)
            <= Work(states[0], r) + 5 * Setbacks(states, actions, r)
    decreases |actions|
  {
    if actions != [] {
      TraceTail(states, actions);
      StepWork(states[0], actions[0], r);
      StepKeeps(states[0], actions[0]);
      RunStaysDrawn(states[0], actions[0], r);
      WorkBoundsTrace(states[1..], actions[1..], r);
    }
  }

  /** Run ids are never forgotten, hence never drawn twice. */
  lemma {:induction false} RunStaysDrawn(s: State, a: Action, r: RunId)
    requires Enabled(s, a) && r in s.h.runs
    ensures r in Apply(s, a).h.runs && !(a.ClaimSlot? && a.run == r)
  {
  }

  /**
   Termination of a run: from the moment a dispatcher draws it, at most ten actions per attempt its
   policy allows ever work on it, plus five for every time it is set back.
   */
  lemma {:induction false} RunsTerminate(states: seq<State>, actions: seq<Action>, d: DispatcherId, k: SlotKey,
                                         r: RunId)
    requires IsTrace(states, actions) && Inv(states[0])
    requires actions != [] && actions[0] == ClaimSlot(d, k, r)
    ensures Advancements(states, actions, r)
            <= 10 * states[0].h.MaxAttempts(k.job) + 5 * Setbacks(states, actions, r)
  {
    TraceTail(states, actions);
    StepKeeps(states[0], actions[0]);
    ClaimSlotWork(states[0], d, k, r, r);
    WorkBoundsTrace(states[1..], actions[1..], r);
  }

  // ---------------- a run at rest ----------------

  /** Nothing of the run is queued, scheduled, taken by a sweeper or drawn by a dispatcher. */
  ghost predicate AtRest(s: State, r: RunId) {
    && (forall id :: 0 <= id < |s.h.log| && s.h.log[id].run == r ==> !s.q.Outstanding(id))
    && (forall a :: HasSchedule(s.db.rows, a) ==> a.run != r)
    && (forall a :: Carried(s.sweepers, a) ==> a.run != r)
    && !Pledged(s.dispatchers, r)
  }

  lemma {:induction false} CarriedHasBudget(s: State, a: Attempt)
    requires Inv(s) && (Carried(s.sweepers, a) || HasSchedule(s.db.rows, a))
    ensures a.run in s.h.runs && a.number < Limit(s.h, a.run) && Budget(s.h, a) >= 10
  {
    if HasSchedule(s.db.rows, a) {
      assert RowOk(s.h, s.db.jobs, a, s.db.rows[a]);
    } else {
      var p :| InFlight(SweeperAt(s.sweepers, p)) && SweeperAt(s.sweepers, p).ex.Id() == a;
      assert SweeperOk(s.h, s.db.jobs, s.db.rows, SweeperAt(s.sweepers, p));
    }
  }

  lemma {:induction false} NoWorkAtRest(s: State, r: RunId)
    requires Inv(s) && AtRest(s, r)
    ensures Work(s, r) == 0
  {
    SumZero(MessageWeights(s, r));
    forall n: nat ensures RetryWeight(s.h, s.db.rows, s.sweepers, Attempt(r, n)) == 0 {
      assert Attempt(r, n).run == r;
    }
    SumZero(RetryWeights(s, r));
  }

  /** The measure is zero exactly when the run is at rest. */
  lemma {:induction false} RestIffNoWork(s: State, r: RunId)
    requires Inv(s)
    ensures Work(s, r) == 0 <==> AtRest(s, r)
  {
    if AtRest(s, r) {
      NoWorkAtRest(s, r);
    }
    if Work(s, r) == 0 {
      forall id | 0 <= id < |s.h.log| && s.h.log[id].run == r ensures !s.q.Outstanding(id) {
        SumBounds(MessageWeights(s, r), id);
      }
      forall a | Carried(s.sweepers, a) || HasSchedule(s.db.rows, a) ensures a.run != r {
        CarriedHasBudget(s, a);
        if a.run == r {
          SumBounds(RetryWeights(s, r), a.number);
        }
      }
      forall d ensures !(Claiming(DispatcherAt(s.dispatchers, d)) && DispatcherAt(s.dispatchers, d).run == r) {
        assert DispatcherOk(s.h, s.db.jobs, s.db.keys, DispatcherAt(s.dispatchers, d));
        assert Claiming(DispatcherAt(s.dispatchers, d)) && DispatcherAt(s.dispatchers, d).run == r ==>
          Pledged(s.dispatchers, r);
      }
    }
  }
}
