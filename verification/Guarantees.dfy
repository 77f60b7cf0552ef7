/** What queue mode promises in every reachable state and over every run. */
module Guarantees {
  import opened Common
  import opened StateMachine
  import opened Repositories
  import opened Protocol
  import opened Invariant
  import Recovery

  // ---------------- one live continuation per run ----------------

  /** The three ways in which a run can still go on. */
  datatype Continuation =
    | LiveMessage(id: MessageId)
    | DueRow(attempt: Attempt)
    | Flight(sweeper: SweeperId)

  /** A queued message not yet handled, a stored retry schedule, or a schedule taken by a sweeper. */
  ghost predicate Continues(s: State, r: RunId, c: Continuation) {
    match c
    case LiveMessage(id) =>
      id < |s.h.log| && s.q.Outstanding(id) && s.h.log[id].run == r && !s.db.Handled(s.h.log[id])
    case DueRow(a) =>
      a.run == r && a in s.db.rows && s.db.rows[a].status.Retrying? && s.db.rows[a].nextRetryAt.Some?
    case Flight(p) =>
      InFlight(s.Sweeper(p)) && s.Sweeper(p).ex.run == r
  }

  /** Published attempts of a run have no gaps, whether or not the job is still stored. */
  lemma {:induction false} SentDown(s: State, a: Attempt, n: nat)
    requires Inv(s) && a in s.h.sent && 1 <= n <= a.number
    ensures Attempt(a.run, n) in s.h.sent
    decreases a.number
  {
    if n < a.number {
      SentMessage(s.h, s.db, a);
      SentDown(s, Attempt(a.run, a.number - 1), n);
    }
  }

  /** The attempt a continuation is about: the one to execute, or the one that failed. */
  ghost function About(s: State, c: Continuation): Attempt
    requires exists r :: Continues(s, r, c)
  {
    match c
    case LiveMessage(id) => s.h.log[id].Id()
    case DueRow(a) => a
    case Flight(p) => s.Sweeper(p).ex.Id()
  }

  /** A message whose attempt is still open is the last one published for its run. */
  lemma {:induction false} LiveIsLast(s: State, r: RunId, id: MessageId, b: Attempt)
    requires Inv(s) && Continues(s, r, LiveMessage(id)) && b.run == r && b in s.h.sent
    ensures b.number <= s.h.log[id].attempt
  {
    var m := s.h.log[id];
    assert MessageOk(s.h, s.db.jobs, s.db.keys, m, id);
    if b.number > m.attempt {
      SentDown(s, b, m.attempt + 1);
      SentMessage(s.h, s.db, m.Id().Next());
    }
  }

  /** An attempt waiting for its retry is the last one published for its run. */
  lemma {:induction false} WaitingIsLast(s: State, a: Attempt, b: Attempt)
    requires Inv(s) && a in s.h.sent && a.Next() !in s.h.sent && b.run == a.run && b in s.h.sent
    ensures b.number <= a.number
  {
    if b.number > a.number {
      SentDown(s, b, a.number + 1);
    }
  }

  /** What each kind of continuation says about the history and about its row. */
  lemma {:induction false} ContinuationFacts(s: State, r: RunId, c: Continuation)
    requires Inv(s) && Continues(s, r, c)
    ensures About(s, c).run == r && About(s, c) in s.h.sent
    ensures !c.LiveMessage? ==> About(s, c).Next() !in s.h.sent
    ensures c.LiveMessage? ==> !s.db.HandledAttempt(About(s, c)) && s.h.runs[r] in s.db.jobs && r in s.h.runs
    ensures c.Flight? ==> r in s.h.runs && s.h.runs[r] == s.Sweeper(c.sweeper).ex.job
    ensures c.DueRow? ==> HasSchedule(s.db.rows, About(s, c))
    ensures c.Flight? ==>
      if About(s, c) in s.db.rows then Relayed(s.db.rows, About(s, c)) else s.h.runs[r] !in s.db.jobs
  {
    match c
    case LiveMessage(id) =>
      assert MessageOk(s.h, s.db.jobs, s.db.keys, s.h.log[id], id);
    case DueRow(a) =>
      assert RowOk(s.h, s.db.jobs, a, s.db.rows[a]);
    case Flight(p) =>
      assert SweeperOk(s.h, s.db.jobs, s.db.rows, SweeperAt(s.sweepers, p));
  }

  /** All continuations of a run are about the same attempt. */
  lemma {:induction false} ContinuationsAgree(s: State, r: RunId, c: Continuation, e: Continuation)
    requires Inv(s) && Continues(s, r, c) && Continues(s, r, e)
    ensures About(s, c) == About(s, e)
  {
    ContinuationFacts(s, r, c);
    ContinuationFacts(s, r, e);
    if c.LiveMessage? {
      LiveIsLast(s, r, c.id, About(s, e));
    } else {
      WaitingIsLast(s, About(s, c), About(s, e));
    }
    if e.LiveMessage? {
      LiveIsLast(s, r, e.id, About(s, c));
    } else {
      WaitingIsLast(s, About(s, e), About(s, c));
    }
  }

  /**
   Single live continuation: a run never has two ways to go on, whatever the interleaving of any
   number of workers, sweepers and dispatchers and wherever they stop.
   */
  lemma {:induction false} SingleContinuation(s: State, r: RunId, c: Continuation, e: Continuation)
    requires Reachable(s) && Continues(s, r, c) && Continues(s, r, e)
    ensures c == e
  {
    ReachableInv(s);
    ContinuationsAgree(s, r, c, e);
    ContinuationFacts(s, r, c);
    ContinuationFacts(s, r, e);
    if c.LiveMessage? && e.LiveMessage? {
      AttemptsAreDistinct(s, c.id, e.id);
    } else if c.Flight? && e.Flight? {
      assert SameFlight(SweeperAt(s.sweepers, c.sweeper), SweeperAt(s.sweepers, e.sweeper));
    }
  }

  /** No attempt is ever published twice. */
  lemma {:induction false} NoAttemptPublishedTwice(s: State, i: MessageId, j: MessageId)
    requires Reachable(s) && i < j < |s.h.log|
    ensures s.h.log[i].Id() != s.h.log[j].Id()
  {
    ReachableInv(s);
    if s.h.log[i].Id() == s.h.log[j].Id() {
      AttemptsAreDistinct(s, i, j);
    }
  }

  /** Two workers are never between their two writes for the same run at the same time. */
  lemma {:induction false} ExclusiveExecution(s: State, w: WorkerId, v: WorkerId)
    requires Reachable(s) && s.Worker(w).Executing? && s.Worker(v).Executing?
    requires s.Holds(w) && s.Holds(v) && s.Held(w).run == s.Held(v).run
    ensures w == v
  {
    ReachableInv(s);
    assert WorkerOk(s, w, s.Worker(w)) && WorkerOk(s, v, s.Worker(v));
    assert ExecutionOk(s.h.log, s.h.sent, s.sweepers, WorkerAt(s.workers, w));
    assert ExecutionOk(s.h.log, s.h.sent, s.sweepers, WorkerAt(s.workers, v));
    var a, b := s.Held(w).Id(), s.Held(v).Id();
    assert MessageOk(s.h, s.db.jobs, s.db.keys, s.Held(w), s.Worker(w).id);
    assert MessageOk(s.h, s.db.jobs, s.db.keys, s.Held(v), s.Worker(v).id);
    WaitingIsLast(s, a, b);
    WaitingIsLast(s, b, a);
    AttemptsAreDistinct(s, s.Worker(w).id, s.Worker(v).id);
  }

  // ---------------- nothing is lost ----------------

  /**
   Every published message is in exactly one of ready, pending and acked, and it was acked only
   after its attempt was settled in the database or its job deleted.
   */
  lemma {:induction false} NoLostWork(s: State, id: MessageId)
    requires Reachable(s) && id < |s.h.log|
    ensures id in s.q.ready || id in s.q.pending || id in s.q.acked
    ensures !(id in s.q.ready && id in s.q.pending)
    ensures !(id in s.q.ready && id in s.q.acked)
    ensures !(id in s.q.pending && id in s.q.acked)
    ensures id in s.q.acked ==> s.h.log[id].job !in s.db.jobs || s.db.HandledAttempt(s.h.log[id].Id())
  {
    ReachableInv(s);
  }

  /** The stored attempts of a run are 1..n for some n within the policy, all but the last given up for a retry. */
  lemma {:induction false} AttemptChain(s: State, a: Attempt)
    requires Reachable(s) && a in s.db.rows
    ensures 1 <= a.number <= s.h.MaxAttempts(s.db.rows[a].job)
    ensures forall n :: 1 <= n < a.number ==> Relayed(s.db.rows, Attempt(a.run, n))
  {
    ReachableInv(s);
    assert RowOk(s.h, s.db.jobs, a, s.db.rows[a]);
    SentMessage(s.h, s.db, a);
    forall n | 1 <= n < a.number ensures Relayed(s.db.rows, Attempt(a.run, n)) {
      ChainDown(s, a, n);
    }
  }

  // ---------------- one message per slot ----------------

  /** At most one message is ever published for a slot, and while the job is stored its key belongs to that run. */
  lemma {:induction false} OneMessagePerSlot(s: State, i: MessageId, j: MessageId)
    requires Reachable(s) && i < |s.h.log| && j < |s.h.log|
    requires s.h.log[i].key.Some? && s.h.log[i].key == s.h.log[j].key
    ensures i == j
    ensures s.h.log[i].job in s.db.jobs ==>
      s.h.log[i].key.value in s.db.keys && s.db.keys[s.h.log[i].key.value] == s.h.log[i].run
  {
    ReachableInv(s);
    assert MessageOk(s.h, s.db.jobs, s.db.keys, s.h.log[i], i);
    assert MessageOk(s.h, s.db.jobs, s.db.keys, s.h.log[j], j);
  }

  // ---------------- a slot whose release failed ----------------

  /** The key is stored under a run that was never published and that no dispatcher still has in hand. */
  ghost predicate Forfeited(s: State, k: SlotKey, r: RunId) {
    && k in s.db.keys && s.db.keys[k] == r && k !in s.h.slots
    && r in s.h.runs && Attempt(r, 1) !in s.h.sent && NotInHand(s.dispatchers, r)
  }

  predicate InHand(pc: DispatcherPc, r: RunId) { Claiming(pc) && pc.run == r }

  ghost predicate NotInHand(m: map<DispatcherId, DispatcherPc>, r: RunId) {
    forall d :: !InHand(DispatcherAt(m, d), r)
  }

  lemma {:induction false} NotInHandUpdate(m: map<DispatcherId, DispatcherPc>, d: DispatcherId, pc: DispatcherPc,
                                           r: RunId)
    requires NotInHand(m, r) && !InHand(pc, r)
    ensures NotInHand(m[d := pc], r)
  {
    var m' := m[d := pc];
    forall e ensures !InHand(DispatcherAt(m', e), r) {
      assert e != d ==> DispatcherAt(m', e) == DispatcherAt(m, e);
    }
  }

  /** The only actions that give a forfeited slot back. */
  predicate Frees(a: Action, k: SlotKey) { a.Recover? || a == DeleteJob(k.job) }

  /** When publishing and then releasing raise, the slot is forfeited. */
  lemma {:induction false} RaisingReleaseForfeits(s: State, d: DispatcherId)
    requires Inv(s) && s.Dispatcher(d).Refused? && s.Dispatcher(d).key.job in s.db.jobs
    ensures Forfeited(s.SetDispatcher(d, Ready), s.Dispatcher(d).key, s.Dispatcher(d).run)
  {
    var pc, t := DispatcherAt(s.dispatchers, d), s.SetDispatcher(d, Ready);
    assert DispatcherOk(s.h, s.db.jobs, s.db.keys, pc);
    forall e ensures !InHand(DispatcherAt(t.dispatchers, e), pc.run) {
      assert e != d ==> DispatcherAt(t.dispatchers, e) == DispatcherAt(s.dispatchers, e);
      assert Clash(DispatcherAt(s.dispatchers, e), pc) ==> e == d;
    }
  }

  /** A run that was never published has no row. */
  lemma {:induction false} UnpublishedHasNoRow(s: State, r: RunId)
    requires Inv(s) && Attempt(r, 1) !in s.h.sent
    ensures !HasRun(s.db.rows, r) && forall b :: b in s.h.sent ==> b.run != r
  {
    forall b | b in s.h.sent ensures b.run != r {
      SentMessage(s.h, s.db, b);
      if b.run == r {
        SentDown(s, b, 1);
      }
    }
    forall b | b in s.db.rows ensures b.run != r {
      assert RowOk(s.h, s.db.jobs, b, s.db.rows[b]);
    }
  }

  /** A forfeited slot is freed by recovery and by the deletion of its job. */
  lemma {:induction false} FreedSlot(s: State, a: Action, k: SlotKey, r: RunId)
    requires Inv(s) && Enabled(s, a) && Forfeited(s, k, r) && Frees(a, k)
    ensures k !in Apply(s, a).db.keys
  {
    UnpublishedHasNoRow(s, r);
  }

  lemma {:induction false} DispatchersLeaveForfeited(s: State, a: Action, k: SlotKey, r: RunId)
    requires Inv(s) && Enabled(s, a) && Forfeited(s, k, r) && IsDispatcherAction(a)
    ensures Forfeited(Apply(s, a), k, r)
  {
    var d := a.d;
    var pc, t := DispatcherAt(s.dispatchers, d), Apply(s, a);
    assert !InHand(pc, r) && DispatcherOk(s.h, s.db.jobs, s.db.keys, pc);
    assert k.job in s.db.jobs;
    NotInHandUpdate(s.dispatchers, d, DispatcherAt(t.dispatchers, d), r);
    assert t.dispatchers == s.dispatchers[d := DispatcherAt(t.dispatchers, d)];
  }

  lemma {:induction false} OthersLeaveForfeited(s: State, a: Action, k: SlotKey, r: RunId)
    requires Enabled(s, a) && Forfeited(s, k, r) && k.job in s.db.jobs
    requires !IsDispatcherAction(a) && !a.PublishRetry? && !Frees(a, k)
    ensures Forfeited(Apply(s, a), k, r)
  {
  }

  lemma {:induction false} RetriesLeaveForfeited(s: State, p: SweeperId, k: SlotKey, r: RunId)
    requires Inv(s) && s.Sweeper(p).Taken? && Forfeited(s, k, r)
    ensures Forfeited(PublishRetryStep(s, p), k, r)
  {
    assert SweeperOk(s.h, s.db.jobs, s.db.rows, SweeperAt(s.sweepers, p));
  }

  /** Nothing else touches it: nobody can claim it, and no other dispatcher's release is for this key. */
  lemma {:induction false} ForfeitedStays(s: State, a: Action, k: SlotKey, r: RunId)
    requires Inv(s) && Enabled(s, a) && Forfeited(s, k, r) && !Frees(a, k)
    ensures Forfeited(Apply(s, a), k, r)
  {
    if IsDispatcherAction(a) {
      DispatchersLeaveForfeited(s, a, k, r);
    } else if a.PublishRetry? {
      RetriesLeaveForfeited(s, a.p, k, r);
    } else {
      OthersLeaveForfeited(s, a, k, r);
    }
  }

  /**
   Over every run: a slot whose release failed stays claimed and unpublished exactly as long as neither a
   recovery nor the deletion of its job happens.
   */
  lemma {:induction false} ForfeitedUntilFreed(states: seq<State>, actions: seq<Action>, k: SlotKey, r: RunId)
    requires IsTrace(states, actions) && Inv(states[0]) && Forfeited(states[0], k, r)
    ensures (forall a :: a in actions ==> !Frees(a, k)) ==>
      Forfeited(states[|actions|], k, r) && k !in states[|actions|].h.slots
    ensures actions != [] && (forall a :: a in actions[..|actions| - 1] ==> !Frees(a, k)) ==>
      (k in states[|actions|].db.keys <==> !Frees(actions[|actions| - 1], k))
    decreases |actions|
  {
    if actions != [] {
      TraceTail(states, actions);
      StepKeeps(states[0], actions[0]);
      if Frees(actions[0], k) {
        FreedSlot(states[0], actions[0], k, r);
        assert actions[0] in actions && (|actions| > 1 ==> actions[0] in actions[..|actions| - 1]);
      } else {
        ForfeitedStays(states[0], actions[0], k, r);
        var rest := actions[1..];
        assert forall a :: a in rest ==> a in actions;
        if rest != [] {
          assert rest[..|rest| - 1] == actions[..|actions| - 1][1..];
        }
        ForfeitedUntilFreed(states[1..], rest, k, r);
      }
    }
  }

  // ---------------- leases ----------------

  /** Every live holder beat within its own heartbeat interval, and will not have missed a beat after `dt`. */
  ghost predicate Punctual(s: State, dt: Time, beats: map<WorkerId, Time>) {
    && dt >= 0
    && forall w | w in s.workers ::
         !s.Worker(w).Idle? && s.Worker(w).id in s.q.pending ==>
           w in beats && s.now + dt - s.q.pending[s.Worker(w).id].deliveredAt <= beats[w]
  }

  /** Punctual beats keep every lease exactly when every heartbeat is below the shortest lease of any worker. */
  lemma {:induction false} HeartbeatsSufficeExactly(beats: map<WorkerId, Time>, minStale: Time)
    requires minStale > 0
    ensures (forall s: State, dt: Time :: s.minStale == minStale && Punctual(s, dt, beats) ==> CanAdvance(s, dt))
      <==> forall w :: w in beats ==> beats[w] < minStale
  {
    if w :| w in beats && beats[w] >= minStale {
      var s := State(minStale, 0, Database({}, map[], map[]), Queue([], map[0 := Lease(w, 0, 1)], {}),
                     History(map[], map[], [], map[], map[]), map[w := Fetched(0)], map[], map[]);
      assert Punctual(s, beats[w], beats) && !CanAdvance(s, beats[w]);
    }
  }

  /** While live holders renew in time, no takeover hits them and every renewal of theirs succeeds. */
  lemma {:induction false} LeaseSafety(s: State, w: WorkerId)
    requires Reachable(s) && !s.Worker(w).Idle?
    ensures s.q.RenewSucceeds(w, s.Worker(w).id)
    ensures forall v, stale :: !CanTakeOver(s, v, s.Worker(w).id, stale)
    ensures forall v :: !s.Worker(v).Idle? && s.Worker(v).id == s.Worker(w).id ==> v == w
  {
    ReachableInv(s);
    assert WorkerOk(s, w, s.Worker(w));
    forall v | !s.Worker(v).Idle? && s.Worker(v).id == s.Worker(w).id ensures v == w {
      assert WorkerOk(s, v, s.Worker(v));
    }
  }

  // ---------------- stored rows never regress ----------------

  /** How far an attempt has come. The table alone would let a RUNNING row go back to QUEUED. */
  function Rank(status: JobStatus): nat {
    match status
    case Pending => 0
    case Queued => 1
    case Running => 2
    case Retrying => 3
    case Recoverable => 4
    case Success => 5
    case Failed => 5
    case Canceled => 5
  }

  /**
   How a stored row may change: its status stays or rises in rank, along the table; terminal rows
   and cancellation requests stay.
   */
  ghost predicate RowGoesForward(ex: Execution, ex': Execution) {
    && Reaches(ex.status, ex'.status)
    && (ex'.status == ex.status || Rank(ex.status) < Rank(ex'.status))
    && (ex.status.IsTerminal() ==> ex' == ex)
    && (ex.cancelRequested ==> ex'.cancelRequested)
    && ex'.job == ex.job && ex'.Id() == ex.Id()
  }

  ghost predicate RowsGoForward(t: Table, t': Table) {
    forall a :: a in t && a in t' ==> RowGoesForward(t[a], t'[a])
  }

  lemma {:induction false} SameRowGoesForward(ex: Execution)
    ensures RowGoesForward(ex, ex)
  {
    ReachesSelf(ex.status);
  }

  lemma {:induction false} ChangedRowGoesForward(t: Table, a: Attempt, ex: Execution)
    requires a in t ==> RowGoesForward(t[a], ex)
    ensures RowsGoForward(t, t[a := ex])
  {
    forall b | b in t ensures RowGoesForward(t[b], t[a := ex][b]) {
      SameRowGoesForward(t[b]);
    }
  }

  lemma {:induction false} KeptRowsGoForward(t: Table, t': Table)
    requires forall a :: a in t && a in t' ==> t'[a] == t[a]
    ensures RowsGoForward(t, t')
  {
    forall a | a in t && a in t' ensures RowGoesForward(t[a], t'[a]) {
      SameRowGoesForward(t[a]);
    }
  }

  /** A worker's write-back starts from a freshly built execution, yet never moves a row backwards. */
  lemma {:induction false} WorkerWriteGoesForward(s: State, w: WorkerId, ex: Execution)
    requires Inv(s) && s.Holds(w) && CanUpsert(s.db, s.Held(w)) && WorkerRow(s.h, s.Held(w), ex)
    requires (s.Worker(w).Cleared? && (ex.status.Running? || ex.status.Failed?))
             || (s.Worker(w).Executing? && CanTransition(Running, ex.status))
    ensures RowsGoForward(s.db.rows, Upsert(s.db.rows, ex))
  {
    HolderAlone(s, w);
    assert WorkerOk(s, w, s.Worker(w));
    var a := ex.Id();
    if a in s.db.rows {
      var was := s.db.rows[a].status;
      assert RowOk(s.h, s.db.jobs, a, s.db.rows[a]);
      assert was.Queued? || was.Running?;
      ReachesSelf(was);
      ReachesSelf(Running);
      ReachesStep(Queued, Running);
      if !ex.status.Running? {
        ReachesStep(Running, ex.status);
        ReachesTrans(was, Running, ex.status);
      }
      ChangedRowGoesForward(s.db.rows, a, WriteBack(s.db.rows[a], ex));
    } else {
      ChangedRowGoesForward(s.db.rows, a, ex);
    }
  }

  lemma {:induction false} CancelGoesForward(ex: Execution, at: Time)
    ensures RowGoesForward(ex, CancelRow(ex, at))
  {
    ReachesSelf(ex.status);
    if ex.status.Recoverable? {
      ReachesStep(Recoverable, Canceled);
    }
  }

  lemma {:induction false} RecoveryGoesForward(t: Table, at: Time)
    ensures RowsGoForward(t, Recovery.RecoveredRows(t, at))
  {
    forall a | a in t ensures RowGoesForward(t[a], Recovery.RecoveredRow(t, a, at)) {
      ReachesSelf(t[a].status);
      if t[a].status.Running? || t[a].status.Retrying? {
        ReachesStep(t[a].status, Recoverable);
      }
    }
  }

  lemma {:induction false} ScheduleGoesForward(s: State, a: Attempt, at: Option<Time>)
    requires Inv(s) && a in s.db.rows && (HasSchedule(s.db.rows, a) || s.db.rows[a].status.Retrying?)
    ensures RowsGoForward(s.db.rows, s.db.rows[a := s.db.rows[a].(nextRetryAt := at)])
  {
    assert RowOk(s.h, s.db.jobs, a, s.db.rows[a]);
    ReachesSelf(s.db.rows[a].status);
    ChangedRowGoesForward(s.db.rows, a, s.db.rows[a].(nextRetryAt := at));
  }

  lemma {:induction false} WorkerStepGoesForward(s: State, a: Action)
    requires Inv(s) && Enabled(s, a) && IsWorkerAction(a)
    ensures RowsGoForward(s.db.rows, Apply(s, a).db.rows)
  {
    match a
    case PersistStarted(w, at) =>
      WorkerWriteGoesForward(s, w, StartedRow(s.h, s.Held(w), at));
    case PersistFinal(w, o, t0, t1) =>
      WorkerWriteGoesForward(s, w, FinalRow(s.h, s.Held(w), o, t0, t1));
    case _ =>
      KeptRowsGoForward(s.db.rows, s.db.rows);
  }

  lemma {:induction false} SweeperStepGoesForward(s: State, a: Action)
    requires Inv(s) && Enabled(s, a) && IsSweeperAction(a)
    ensures RowsGoForward(s.db.rows, Apply(s, a).db.rows)
  {
    KeptRowsGoForward(s.db.rows, s.db.rows);
    match a
    case ClaimDue(p) =>
      var b := s.Sweeper(p).due[0].Id();
      if HasSchedule(s.db.rows, b) {
        ScheduleGoesForward(s, b, None);
      }
    case RestoreRetry(p) =>
      var ex := s.Sweeper(p).ex;
      assert SweeperOk(s.h, s.db.jobs, s.db.rows, SweeperAt(s.sweepers, p));
      if ex.Id() in s.db.rows {
        ScheduleGoesForward(s, ex.Id(), ex.nextRetryAt);
      }
    case _ =>
  }

  lemma {:induction false} OtherStepGoesForward(s: State, a: Action)
    requires Inv(s) && Enabled(s, a) && !IsWorkerAction(a) && !IsSweeperAction(a)
    ensures RowsGoForward(s.db.rows, Apply(s, a).db.rows)
  {
    var t := Apply(s, a);
    match a
    case RequestCancel(b, at) =>
      CancelGoesForward(s.db.rows[b], at);
      ChangedRowGoesForward(s.db.rows, b, CancelRow(s.db.rows[b], at));
    case Recover(at) =>
      RecoveryGoesForward(s.db.rows, at);
    case _ =>
      KeptRowsGoForward(s.db.rows, t.db.rows);
  }

  /**
   The dispatcher's late row, QUEUED and attempt 1 of the published run, is stored exactly when the attempt has
   none yet and its job is there; no other row changes.
   */
  lemma {:induction false} LateInsertOverwritesNothing(s: State, d: DispatcherId)
    requires Enabled(s, InsertQueued(d))
    ensures
      var c, rows := s.Dispatcher(d), Apply(s, InsertQueued(d)).db.rows;
      && (forall a :: a in s.db.rows ==> a in rows && rows[a] == s.db.rows[a])
      && (if Attempt(c.run, 1) !in s.db.rows && c.job in s.db.jobs then
            rows == s.db.rows[Attempt(c.run, 1) := Execution(c.job, c.run, 1, Queued, None, None, None, None,
              false, None)]
          else rows == s.db.rows)
  {
  }

  /** No action moves a stored row backwards. */
  lemma {:induction false} StepGoesForward(s: State, a: Action)
    requires Inv(s) && Enabled(s, a)
    ensures RowsGoForward(s.db.rows, Apply(s, a).db.rows)
  {
    if IsWorkerAction(a) {
      WorkerStepGoesForward(s, a);
    } else if IsSweeperAction(a) {
      SweeperStepGoesForward(s, a);
    } else {
      OtherStepGoesForward(s, a);
    }
  }

  /** The attempt's row is stored, or it went away with its job. */
  ghost predicate StoredOrGone(s: State, b: Attempt) {
    && b in s.h.sent && s.h.sent[b] < |s.h.log|
    && (b in s.db.rows || s.h.log[s.h.sent[b]].job !in s.db.jobs)
  }

  /** History is never rewritten, and a deleted job never comes back. */
  lemma {:induction false} HistoryGrows(s: State, a: Action)
    requires Inv(s) && Enabled(s, a)
    ensures s.h.log <= Apply(s, a).h.log
    ensures forall b :: b in s.h.sent ==> b in Apply(s, a).h.sent && Apply(s, a).h.sent[b] == s.h.sent[b]
    ensures forall j :: j in s.h.policies && j !in s.db.jobs ==> j !in Apply(s, a).db.jobs
  {
    match a
    case PublishSlot(d) =>
      assert DispatcherOk(s.h, s.db.jobs, s.db.keys, DispatcherAt(s.dispatchers, d));
    case PublishRetry(p) =>
      assert SweeperOk(s.h, s.db.jobs, s.db.rows, SweeperAt(s.sweepers, p));
    case _ =>
  }

  lemma {:induction false} StepStoredOrGone(s: State, a: Action, b: Attempt)
    requires Inv(s) && Enabled(s, a) && StoredOrGone(s, b)
    ensures StoredOrGone(Apply(s, a), b)
    ensures b !in s.db.rows ==> b !in Apply(s, a).db.rows
  {
    var t := Apply(s, a);
    StepKeeps(s, a);
    HistoryGrows(s, a);
    SentMessage(s.h, s.db, b);
    SentMessage(t.h, t.db, b);
    assert b in t.db.rows ==> RowOk(t.h, t.db.jobs, b, t.db.rows[b]);
    assert b in s.db.rows ==> RowOk(s.h, s.db.jobs, b, s.db.rows[b]);
  }

  /** One more step after a row went from `ex` to what is stored now. */
  lemma {:induction false} StepFromPast(s: State, a: Action, b: Attempt, ex: Execution)
    requires Inv(s) && Enabled(s, a) && StoredOrGone(s, b)
    requires b in s.db.rows ==> RowGoesForward(ex, s.db.rows[b])
    ensures StoredOrGone(Apply(s, a), b)
    ensures b in Apply(s, a).db.rows ==> RowGoesForward(ex, Apply(s, a).db.rows[b])
  {
    var t := Apply(s, a);
    StepStoredOrGone(s, a, b);
    StepGoesForward(s, a);
    if b in t.db.rows {
      ReachesTrans(ex.status, s.db.rows[b].status, t.db.rows[b].status);
    }
  }

  lemma {:induction false} TraceFromPast(states: seq<State>, actions: seq<Action>, j: nat, b: Attempt, ex: Execution)
    requires IsTrace(states, actions) && Inv(states[0]) && j <= |actions| && StoredOrGone(states[0], b)
    requires b in states[0].db.rows ==> RowGoesForward(ex, states[0].db.rows[b])
    ensures StoredOrGone(states[j], b)
    ensures b in states[j].db.rows ==> RowGoesForward(ex, states[j].db.rows[b])
  {
    if j > 0 {
      TraceTail(states, actions);
      StepKeeps(states[0], actions[0]);
      StepFromPast(states[0], actions[0], b, ex);
      TraceFromPast(states[1..], actions[1..], j - 1, b, ex);
    }
  }

  /** Over a whole run a row that is still stored has only moved forward; nothing is resurrected in between. */
  lemma {:induction false} RowsNeverRegress(states: seq<State>, actions: seq<Action>, i: nat, j: nat, b: Attempt)
    requires IsTrace(states, actions) && Inv(states[0]) && i <= j <= |actions|
    requires b in states[i].db.rows
    ensures StoredOrGone(states[j], b)
    ensures b in states[j].db.rows ==> RowGoesForward(states[i].db.rows[b], states[j].db.rows[b])
    decreases i
  {
    if i > 0 {
      TraceTail(states, actions);
      StepKeeps(states[0], actions[0]);
      RowsNeverRegress(states[1..], actions[1..], i - 1, j - 1, b);
    } else {
      assert RowOk(states[0].h, states[0].db.jobs, b, states[0].db.rows[b]);
      SentMessage(states[0].h, states[0].db, b);
      SameRowGoesForward(states[0].db.rows[b]);
      TraceFromPast(states, actions, j, b, states[0].db.rows[b]);
    }
  }

  // ---------------- recovery with messages in the queue ----------------

  /** The key of every published slot of a stored job belongs to the run it was published under. */
  ghost predicate KeysKept(s: State) {
    forall id :: 0 <= id < |s.h.log| && s.h.log[id].key.Some? && s.h.log[id].job in s.db.jobs ==>
      s.h.log[id].key.value in s.db.keys && s.db.keys[s.h.log[id].key.value] == s.h.log[id].run
  }

  /** Every published retry of a stored job follows an attempt that was given up for it. */
  ghost predicate ChainsKept(s: State) {
    forall id :: 0 <= id < |s.h.log| && s.h.log[id].attempt > 1 && s.h.log[id].job in s.db.jobs ==>
      Relayed(s.db.rows, Attempt(s.h.log[id].run, s.h.log[id].attempt - 1))
  }

  lemma {:induction false} PromisesHold(s: State)
    requires Inv(s)
    ensures KeysKept(s) && ChainsKept(s)
  {
    forall id | 0 <= id < |s.h.log| && s.h.log[id].attempt > 1 && s.h.log[id].job in s.db.jobs
      ensures Relayed(s.db.rows, Attempt(s.h.log[id].run, s.h.log[id].attempt - 1))
    {
      assert MessageOk(s.h, s.db.jobs, s.db.keys, s.h.log[id], id);
      SentMessage(s.h, s.db, s.h.log[id].Id());
    }
  }

  /** A published attempt of a stored job without a row costs one of the two promises at recovery. */
  lemma {:induction false} MissingRowBreaksPromise(s: State, at: Time, id: MessageId)
    requires Inv(s) && id < |s.h.log| && s.h.log[id].job in s.db.jobs && s.h.log[id].Id() !in s.db.rows
    ensures !KeysKept(RecoverStep(s, at)) || !ChainsKept(RecoverStep(s, at))
  {
    var m, t := s.h.log[id], RecoverStep(s, at);
    assert MessageOk(s.h, s.db.jobs, s.db.keys, m, id);
    forall b | b in s.db.rows && b.run == m.run ensures b.number < m.attempt {
      if b.number >= m.attempt {
        ChainDown(s, b, m.attempt);
      }
    }
    if m.attempt == 1 {
      forall b | b in s.db.rows ensures b.run != m.run {
        assert RowOk(s.h, s.db.jobs, b, s.db.rows[b]);
        SentMessage(s.h, s.db, b);
      }
      assert !HasRun(s.db.rows, m.run);
      assert m.key.value !in t.db.keys;
    } else {
      var a := Attempt(m.run, m.attempt - 1);
      SentMessage(s.h, s.db, m.Id());
      assert IsDangling(s.db.rows, a);
      assert t.db.rows[a].status.Recoverable?;
    }
  }

  /**
   With no process in the middle of anything, recovery keeps the two promises exactly when every message
   still queued has its attempt row. Otherwise the key of a published slot is freed, or an attempt whose
   retry is already queued is offered for manual resumption.
   */
  lemma {:induction false} RecoveryKeepsPromisesIffProjected(s: State, at: Time)
    requires Reachable(s) && Quiet(s)
    ensures KeysKept(RecoverStep(s, at)) && ChainsKept(RecoverStep(s, at)) <==> Projected(s)
  {
    ReachableInv(s);
    if Projected(s) {
      RecoverSafeIffProjected(s, at);
      PromisesHold(RecoverStep(s, at));
    } else {
      var id :| 0 <= id < |s.h.log| && s.q.Outstanding(id) && s.h.log[id].job in s.db.jobs
        && s.h.log[id].Id() !in s.db.rows;
      MissingRowBreaksPromise(s, at, id);
    }
  }

  const SLOT := SlotKey(0, 0, 0)

  const ANNOUNCED := Message(0, 0, 1, Some(SLOT))

  const FIRST := Attempt(0, 1)

  function HistoryOf(max: nat, log: seq<Message>, sent: map<Attempt, MessageId>,
                     slots: map<SlotKey, MessageId>): History {
    History(map[0 := max], map[0 := 0], log, sent, slots)
  }

  function BeforePublishing(max: nat): State {
    State(1, 0, Database({0}, map[SLOT := 0], map[]), Queue([], map[], {}),
          HistoryOf(max, [], map[], map[]), map[], map[], map[0 := Claimed(SLOT, 0)])
  }

  /** One job, one slot claimed and published, and the dispatcher stopped before storing the QUEUED row. */
  function Unprojected(max: nat): State {
    State(1, 0, Database({0}, map[SLOT := 0], map[]), Queue([0], map[], {}),
          HistoryOf(max, [ANNOUNCED], map[FIRST := 0], map[SLOT := 0]), map[], map[], map[0 := Ready])
  }

  function AfterPublishing(max: nat): State { Unprojected(max).SetDispatcher(0, Announced(0, 0)) }

  lemma {:induction false} BeforePublishingReachable(max: nat)
    requires max >= 1
    ensures Reachable(BeforePublishing(max))
  {
    var s0 := State(1, 0, Database({}, map[], map[]), Queue([], map[], {}),
                    History(map[], map[], [], map[], map[]), map[], map[], map[]);
    var states, none: seq<Action> := [s0], [];
    assert IsTrace(states, none) && states[|none|] == s0;
    var s1 := AddJobStep(s0, 0, max);
    ReachableStep(s0, AddJob(0, max), s1);
    var s2 := ClaimSlotStep(s1, 0, SLOT, 0);
    ReachableStep(s1, ClaimSlot(0, SLOT, 0), s2);
    assert s2 == BeforePublishing(max);
  }

  lemma {:induction false} AfterPublishingReachable(max: nat)
    requires max >= 1
    ensures Reachable(AfterPublishing(max))
  {
    BeforePublishingReachable(max);
    var s := BeforePublishing(max);
    assert PublishSlotStep(s, 0) == AfterPublishing(max);
    ReachableStep(s, PublishSlot(0), AfterPublishing(max));
  }

  lemma {:induction false} UnprojectedReachable(max: nat)
    requires max >= 1
    ensures Reachable(Unprojected(max))
  {
    AfterPublishingReachable(max);
    assert AfterPublishing(max).SetDispatcher(0, Ready) == Unprojected(max);
    ReachableStep(AfterPublishing(max), StopDispatcher(0), Unprojected(max));
  }

  /**
   The first promise lost: a dispatcher publishes a slot and stops before storing the QUEUED row;
   recovery, with no process running, takes the key for an orphan; the slot is published again.
   */
  lemma {:induction false} UnprojectedRecoveryRepublishesSlot()
    ensures var s := Unprojected(1);
      && Reachable(s) && Quiet(s) && !Projected(s)
      && CanClaimSlot(RecoverStep(s, 0), 0, SLOT, 1)
      && PublishSlotStep(ClaimSlotStep(RecoverStep(s, 0), 0, SLOT, 1), 0).h.log
         == [ANNOUNCED, Message(0, 1, 1, Some(SLOT))]
  {
    UnprojectedReachable(1);
    var s := Unprojected(1);
    assert s.q.ready[0] == 0 && s.q.Outstanding(0);
  }

  // A worker fails the first attempt of two, a sweeper publishes the second, and nobody is at work.

  const FAILED_ONCE := Execution(0, 0, 1, Retrying, Some(0), Some(0), Some("x"), Some(2), false, Some(0))

  const RETRY := Message(0, 0, 2, None)

  /** The system while the first attempt is handled; only rows, queue, worker and sweeper change. */
  function Midway(rows: Table, q: Queue, pc: WorkerPc, sweepers: map<SweeperId, SweeperPc>): State {
    State(1, 0, Database({0}, map[SLOT := 0], rows), q,
          HistoryOf(2, [ANNOUNCED], map[FIRST := 0], map[SLOT := 0]), map[0 := pc], sweepers, map[0 := Ready])
  }

  const DELIVERED := Queue([], map[0 := Lease(0, 0, 1)], {})

  lemma {:induction false} ClearedReachable()
    ensures Reachable(Midway(map[], DELIVERED, Known(0), map[]))
  {
    UnprojectedReachable(2);
    var s, t := Unprojected(2), Midway(map[], DELIVERED, Fetched(0), map[]);
    assert ConsumeStep(s, 0) == t;
    ReachableStep(s, Consume(0), t);
    var u := Midway(map[], DELIVERED, Known(0), map[]);
    assert ReadJobStep(t, 0) == u;
    ReachableStep(t, ReadJob(0), u);
  }

  lemma {:induction false} ExecutingReachable()
    ensures Reachable(Midway(map[FIRST := StartedRow(Unprojected(2).h, ANNOUNCED, 0)], DELIVERED, Executing(0), map[]))
  {
    ClearedReachable();
    var s, t := Midway(map[], DELIVERED, Known(0), map[]), Midway(map[], DELIVERED, Cleared(0), map[]);
    assert CheckDuplicateStep(s, 0) == t;
    ReachableStep(s, CheckDuplicate(0), t);
    var u := Midway(map[FIRST := StartedRow(Unprojected(2).h, ANNOUNCED, 0)], DELIVERED, Executing(0), map[]);
    assert PersistStartedStep(t, 0, 0) == u;
    ReachableStep(t, PersistStarted(0, 0), u);
  }

  lemma {:induction false} FailedReachable()
    ensures Reachable(Midway(map[FIRST := FAILED_ONCE], DELIVERED, Finishing(0), map[]))
  {
    ExecutingReachable();
    var s := Midway(map[FIRST := StartedRow(Unprojected(2).h, ANNOUNCED, 0)], DELIVERED, Executing(0), map[]);
    var t := Midway(map[FIRST := FAILED_ONCE], DELIVERED, Finishing(0), map[]);
    assert PersistFinalStep(s, 0, Raised("x", 0), 0, 0) == t;
    ReachableStep(s, PersistFinal(0, Raised("x", 0), 0, 0), t);
  }

  const ACKED := Queue([], map[], {0})

  lemma {:induction false} ListedReachable()
    ensures Reachable(Midway(map[FIRST := FAILED_ONCE], ACKED, Idle, map[0 := Listed([FAILED_ONCE])]))
  {
    FailedReachable();
    var s := Midway(map[FIRST := FAILED_ONCE], DELIVERED, Finishing(0), map[]);
    var t := Midway(map[FIRST := FAILED_ONCE], ACKED, Idle, map[]);
    assert AckStep(s, 0) == t;
    ReachableStep(s, Ack(0), t);
    var u := Midway(map[FIRST := FAILED_ONCE], ACKED, Idle, map[0 := Listed([FAILED_ONCE])]);
    assert t.SetSweeper(0, Listed([FAILED_ONCE])) == u;
    ReachableStep(t, ListDue(0, 0, [FAILED_ONCE]), u);
  }

  const RELAYED := FAILED_ONCE.(nextRetryAt := None)

  lemma {:induction false} TakenReachable()
    ensures Reachable(Midway(map[FIRST := RELAYED], ACKED, Idle, map[0 := Taken(FAILED_ONCE, [])]))
  {
    ListedReachable();
    ClaimIsStep();
    var s := Midway(map[FIRST := FAILED_ONCE], ACKED, Idle, map[0 := Listed([FAILED_ONCE])]);
    ReachableStep(s, ClaimDue(0), Midway(map[FIRST := RELAYED], ACKED, Idle, map[0 := Taken(FAILED_ONCE, [])]));
  }

  lemma {:induction false} ClaimIsStep()
    ensures Step(Midway(map[FIRST := FAILED_ONCE], ACKED, Idle, map[0 := Listed([FAILED_ONCE])]), ClaimDue(0),
                 Midway(map[FIRST := RELAYED], ACKED, Idle, map[0 := Taken(FAILED_ONCE, [])]))
  {
    var s := Midway(map[FIRST := FAILED_ONCE], ACKED, Idle, map[0 := Listed([FAILED_ONCE])]);
    var t := Midway(map[FIRST := RELAYED], ACKED, Idle, map[0 := Taken(FAILED_ONCE, [])]);
    assert HasSchedule(s.db.rows, FIRST) && FAILED_ONCE.Id() == FIRST;
    assert ClaimRetry(s.db.rows, FIRST) == t.db.rows && [FAILED_ONCE][1..] == [];
    assert ClaimDueStep(s, 0).sweepers == t.sweepers;
  }

  /** The retry is queued and its row not stored, as is usual until a worker takes it. */
  function RetryQueued(): State {
    State(1, 0, Database({0}, map[SLOT := 0], map[FIRST := RELAYED]), Queue([1], map[], {0}),
          HistoryOf(2, [ANNOUNCED, RETRY], map[FIRST := 0, Attempt(0, 2) := 1], map[SLOT := 0]),
          map[0 := Idle], map[0 := Listed([])], map[0 := Ready])
  }

  lemma {:induction false} RetryQueuedReachable()
    ensures Reachable(RetryQueued())
  {
    TakenReachable();
    var s := Midway(map[FIRST := RELAYED], ACKED, Idle, map[0 := Taken(FAILED_ONCE, [])]);
    assert PublishRetryStep(s, 0) == RetryQueued();
    ReachableStep(s, PublishRetry(0), RetryQueued());
  }

  /**
   The second promise lost: with a retry queued and nobody at work, recovery marks the attempt before it
   RECOVERABLE; canceling the run then reports it CANCELED while its retry is still to be executed.
   */
  lemma {:induction false} UnprojectedRecoveryCancelsLiveRun()
    ensures
      var s := RetryQueued();
      var t := RecoverStep(s, 0);
      && Reachable(s) && Quiet(s) && !Projected(s)
      && t.db.rows[FIRST].status.Recoverable? && CanRequestCancel(t, FIRST)
      && var u := RequestCancelStep(t, FIRST, 0);
         u.db.rows[FIRST].status.Canceled? && Continues(u, 0, LiveMessage(1))
  {
    RetryQueuedReachable();
    var s := RetryQueued();
    assert s.q.ready[0] == 1 && s.q.Outstanding(1);
    assert IsDangling(s.db.rows, FIRST);
  }
}
