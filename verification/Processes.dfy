/**
 The processes of queue mode as programs over the shared platform: a worker processing a delivery,
 a sweep over due retries, and one dispatch. Between any two of their transactions the other
 processes may do anything; whatever a program does is a sequence of protocol actions.
 */
module Processes {
  import opened Common
  import opened StateMachine
  import opened Repositories
  import opened Protocol
  import opened Invariant
  import Guarantees
  import Q = MemoryQueue

  /** Whose program counter stays put while the others act. */
  datatype Actor = TheWorker(w: WorkerId) | TheSweeper(p: SweeperId) | TheDispatcher(d: DispatcherId)

  predicate SamePc(who: Actor, s: State, t: State) {
    match who
    case TheWorker(w) => t.Worker(w) == s.Worker(w)
    case TheSweeper(p) => t.Sweeper(p) == s.Sweeper(p)
    case TheDispatcher(d) => t.Dispatcher(d) == s.Dispatcher(d)
  }

  /** What no action ever takes back. */
  ghost predicate Later(s: State, t: State) {
    && t.minStale == s.minStale && s.h.log <= t.h.log
    && s.q.acked <= t.q.acked
    && (forall b :: b in s.h.sent ==> b in t.h.sent)
    && (forall j :: j in s.h.policies ==> j in t.h.policies && (j !in s.db.jobs ==> j !in t.db.jobs))
  }

  lemma {:induction false} LaterTrans(s: State, t: State, u: State)
    requires Later(s, t) && Later(t, u)
    ensures Later(s, u)
  {
  }

  lemma {:induction false} StepIsLater(s: State, a: Action)
    requires Enabled(s, a)
    ensures Later(s, Apply(s, a))
  {
  }

  /**
   The actions a process takes itself, one after the other. Everything else is interference, the
   renewals made by the worker's own heartbeat thread included.
   */
  predicate IsOwn(who: Actor, a: Action) {
    match a
    case ClaimSlot(d, _, _) => who == TheDispatcher(d)
    case PublishSlot(d) => who == TheDispatcher(d)
    case PublishSlotFails(d) => who == TheDispatcher(d)
    case ReleaseSlot(d) => who == TheDispatcher(d)
    case InsertQueued(d) => who == TheDispatcher(d)
    case StopDispatcher(d) => who == TheDispatcher(d)
    case Consume(w) => who == TheWorker(w)
    case TakeOver(w, _, _) => who == TheWorker(w)
    case Renew(_) => false
    case ReadJob(w) => who == TheWorker(w)
    case CheckDuplicate(w) => who == TheWorker(w)
    case PersistStarted(w, _) => who == TheWorker(w)
    case PersistFinal(w, _, _, _) => who == TheWorker(w)
    case Ack(w) => who == TheWorker(w)
    case StopWorker(w) => who == TheWorker(w)
    case ListDue(p, _, _) => who == TheSweeper(p)
    case ClaimDue(p) => who == TheSweeper(p)
    case PublishRetry(p) => who == TheSweeper(p)
    case PublishRetryFails(p) => who == TheSweeper(p)
    case RestoreRetry(p) => who == TheSweeper(p)
    case StopSweeper(p) => who == TheSweeper(p)
    case _ => false
  }

  lemma {:induction false} OtherStepKeepsPc(s: State, a: Action, who: Actor)
    requires Enabled(s, a) && !IsOwn(who, a)
    ensures SamePc(who, s, Apply(s, a))
  {
  }

  /** Every run of the others' actions is one that `Platform.Interfere` allows for. */
  lemma {:induction false} InterferenceIsCovered(states: seq<State>, actions: seq<Action>, who: Actor)
    requires IsTrace(states, actions) && Reachable(states[0])
    requires forall a :: a in actions ==> !IsOwn(who, a)
    ensures Reachable(states[|actions|])
    ensures SamePc(who, states[0], states[|actions|]) && Later(states[0], states[|actions|])
  {
    if actions != [] {
      TraceTail(states, actions);
      ReachableStep(states[0], actions[0], states[1]);
      OtherStepKeepsPc(states[0], actions[0], who);
      StepIsLater(states[0], actions[0]);
      InterferenceIsCovered(states[1..], actions[1..], who);
      LaterTrans(states[0], states[1], states[|actions|]);
    }
  }

  class Platform {
    var state: State

    ghost predicate Valid() reads this { Reachable(state) }

    constructor (minStale: Time)
      requires minStale > 0
      ensures Valid() && Init(state) && state.minStale == minStale
    {
      state := State(minStale, 0, Database({}, map[], map[]), Queue([], map[], {}),
                     History(map[], map[], [], map[], map[]), map[], map[], map[]);
      new;
      ghost var states, none: seq<Action> := [state], [];
      assert IsTrace(states, none) && states[|none|] == state;
    }

    /** One atomic action of the protocol. */
    method Perform(a: Action)
      requires Valid() && Enabled(state, a)
      modifies this
      ensures Valid() && state == Apply(old(state), a) && Later(old(state), state)
    {
      ReachableStep(state, a, Apply(state, a));
      StepIsLater(state, a);
      state := Apply(state, a);
    }

    /** Any number of actions of the other processes; callers learn only what every such run guarantees. */
    method Interfere(ghost who: Actor)
      requires Valid()
      modifies this
      ensures Valid() && SamePc(who, old(state), state) && Later(old(state), state)
    {
    }
  }

  // ---------------- worker ----------------

  datatype Verdict = Finished | RetryScheduled | Dropped | Unrunnable | Duplicate

  /** Where a transaction or the queue may raise while a message is processed. */
  datatype Fault = ReadingJob | CheckingDuplicate | Starting | Settling | Acking

  /** The constructor's checks on the two intervals. */
  predicate ValidIntervals(staleAfter: Option<Time>, heartbeat: Option<Time>) {
    && (staleAfter.Some? ==> staleAfter.value > 0)
    && (heartbeat.Some? ==> heartbeat.value > 0)
    && (staleAfter.Some? && heartbeat.Some? ==> heartbeat.value < staleAfter.value)
  }

  /** The check compares a worker's heartbeat with its own lease only, which does not protect it from the others. */
  lemma {:induction false} OwnCheckIsNotEnough()
    ensures
      var slow, quick := (Some(10), Some(9)), (Some(5), Some(4));
      && ValidIntervals(slow.0, slow.1) && ValidIntervals(quick.0, quick.1)
      && exists s: State, dt: Time ::
           s.minStale == 5 && Guarantees.Punctual(s, dt, map[0 := 9, 1 := 4]) && !CanAdvance(s, dt)
  {
    var beats: map<WorkerId, Time> := map[0 := 9, 1 := 4];
    assert 0 in beats && beats[0] >= 5;
    Guarantees.HeartbeatsSufficeExactly(beats, 5);
  }

  class Worker {
    const name: WorkerId
    const staleAfter: Option<Time>
    const heartbeat: Option<Time>
    const reclaimInterval: Time
    var nextReclaimAt: Time

    constructor (name: WorkerId, staleAfter: Option<Time>, heartbeat: Option<Time>, reclaimInterval: Time)
      requires ValidIntervals(staleAfter, heartbeat)
      ensures this.name == name && this.staleAfter == staleAfter && this.heartbeat == heartbeat
      ensures this.reclaimInterval == reclaimInterval && nextReclaimAt == 0
    {
      this.name, this.staleAfter, this.heartbeat := name, staleAfter, heartbeat;
      this.reclaimInterval, nextReclaimAt := reclaimInterval, 0;
    }

    /**
     A stale message first, the oldest there is, a new one otherwise. Takeovers are looked for only
     when the throttle has run out, and it is wound up again exactly when none was found.
     */
    method NextDelivery(p: Platform, q: Q.MemoryQueue) returns (d: Option<Q.Delivery>)
      requires p.Valid() && p.state.Worker(name).Idle? && Q.Implements(q.Value(), p.state.q, p.state.h.log)
      requires staleAfter.Some? ==> staleAfter.value >= p.state.minStale
      modifies p, q, this
      ensures p.Valid() && Later(old(p.state), p.state) && Q.Implements(q.Value(), p.state.q, p.state.h.log)
      ensures d.None? ==> p.state == old(p.state) && p.state.q.ready == []
      ensures d.Some? ==> Holding(p.state, name, d.value)
      ensures
        var looks := staleAfter.Some? && p.state.now >= old(nextReclaimAt);
        var stale := if staleAfter.Some? then Q.StaleEntries(old(q.pending), p.state.now, staleAfter.value) else [];
        && nextReclaimAt == (if looks && stale == [] then p.state.now + reclaimInterval else old(nextReclaimAt))
        && (d.Some? && d.value.id in old(p.state.q.pending) <==> looks && stale != [])
        && (looks && stale != [] ==> d.value.id == stale[0].id)
    {
      if staleAfter.Some? && p.state.now >= nextReclaimAt {
        d := TakeOverStale(p, q);
        if d.Some? {
          return;
        }
        nextReclaimAt := p.state.now + reclaimInterval;
      }
      d := ConsumeNew(p, q);
    }

    method TakeOverStale(p: Platform, q: Q.MemoryQueue) returns (d: Option<Q.Delivery>)
      requires p.Valid() && p.state.Worker(name).Idle? && Q.Implements(q.Value(), p.state.q, p.state.h.log)
      requires staleAfter.Some? && staleAfter.value >= p.state.minStale
      modifies p, q
      ensures p.Valid() && Later(old(p.state), p.state) && p.state.now == old(p.state.now)
      ensures Q.Implements(q.Value(), p.state.q, p.state.h.log)
      ensures
        var stale := Q.StaleEntries(old(q.pending), p.state.now, staleAfter.value);
        if stale == [] then d.None? && p.state == old(p.state) && q.Value() == old(q.Value())
        else
          && d.Some? && d.value.id == stale[0].id && d.value.id in old(p.state.q.pending)
          && Holding(p.state, name, d.value)
    {
      var idle := staleAfter.value;
      ghost var c, stale := q.Value(), Q.StaleEntries(q.pending, p.state.now, idle);
      if stale != [] {
        Q.TakeOverImplements(c, p.state, name, idle);
      } else {
        Q.NothingStale(c.pending, name, p.state.now, idle);
      }
      var claimed := q.ClaimStale(name, p.state.now, idle, 1);
      if claimed == [] {
        return None;
      }
      d := Some(claimed[0]);
      p.Perform(TakeOver(name, claimed[0].id, idle));
      HoldsDelivery(p.state, name);
    }

    method ConsumeNew(p: Platform, q: Q.MemoryQueue) returns (d: Option<Q.Delivery>)
      requires p.Valid() && p.state.Worker(name).Idle? && Q.Implements(q.Value(), p.state.q, p.state.h.log)
      modifies p, q
      ensures p.Valid() && Later(old(p.state), p.state) && p.state.now == old(p.state.now)
      ensures Q.Implements(q.Value(), p.state.q, p.state.h.log)
      ensures d.None? ==> p.state == old(p.state) && p.state.q.ready == []
      ensures d.Some? ==> Holding(p.state, name, d.value) && d.value.id !in old(p.state.q.pending)
    {
      if q.ready != [] {
        Q.ConsumeImplements(q.Value(), p.state, name);
        ReachableInv(p.state);
        assert p.state.q.ready[0] in p.state.q.ready;
      }
      d := q.Consume(name, p.state.now);
      if d.Some? {
        p.Perform(Consume(name));
        HoldsDelivery(p.state, name);
      }
    }
  }

  /** The worker holds the delivered message, with its published payload, under its own fresh lease. */
  ghost predicate Holding(s: State, w: WorkerId, d: Q.Delivery) {
    s.Worker(w) == Fetched(d.id) && LeaseOk(s, w, d.id) && d.id < |s.h.log| && s.h.log[d.id] == d.message
      && d.consumer == w
  }

  lemma {:induction false} HoldsDelivery(s: State, w: WorkerId)
    requires Reachable(s) && s.Worker(w).Fetched?
    ensures LeaseOk(s, w, s.Worker(w).id) && s.Worker(w).id < |s.h.log|
  {
    ReachableInv(s);
    assert WorkerOk(s, w, s.Worker(w));
  }

  /** A worker is refused exactly when an interval is not positive or the heartbeat is not shorter than the lease. */
  method NewWorker(name: WorkerId, staleAfter: Option<Time>, heartbeat: Option<Time>, reclaimInterval: Time)
    returns (w: Option<Worker>)
    ensures w.None? <==>
      || (staleAfter.Some? && staleAfter.value <= 0) || (heartbeat.Some? && heartbeat.value <= 0)
      || (staleAfter.Some? && heartbeat.Some? && heartbeat.value >= staleAfter.value)
    ensures w.Some? ==>
      && fresh(w.value) && w.value.name == name
      && w.value.staleAfter == staleAfter && w.value.heartbeat == heartbeat
  {
    if !ValidIntervals(staleAfter, heartbeat) {
      return None;
    }
    var worker := new Worker(name, staleAfter, heartbeat, reclaimInterval);
    w := Some(worker);
  }

  /** The exception leaves the message pending and the worker free. */
  method Abandon(p: Platform, w: WorkerId)
    requires p.Valid() && !p.state.Worker(w).Idle?
    modifies p
    ensures p.Valid() && p.state.Worker(w).Idle? && Later(old(p.state), p.state)
    ensures old(p.state.Worker(w).id) in p.state.q.pending
  {
    ReachableInv(p.state);
    assert WorkerOk(p.state, w, p.state.Worker(w));
    p.Perform(StopWorker(w));
  }

  /** The message is acknowledged and needs no further execution. */
  predicate Settled(s: State, id: MessageId) {
    id < |s.h.log| && id in s.q.acked && s.db.Handled(s.h.log[id])
  }

  /** The acknowledgement, after others had their turn. If it raises, the message stays pending. */
  method Acknowledge(p: Platform, w: WorkerId, raises: bool) returns (ok: bool)
    requires p.Valid() && p.state.Worker(w).Finishing?
    modifies p
    ensures p.Valid() && p.state.Worker(w).Idle? && Later(old(p.state), p.state)
    ensures ok == !raises
    ensures ok ==> Settled(p.state, old(p.state.Worker(w).id))
    ensures !ok ==> old(p.state.Worker(w).id) in p.state.q.pending
  {
    p.Interfere(TheWorker(w));
    if raises {
      Abandon(p, w);
      return false;
    }
    ReachableInv(p.state);
    assert WorkerOk(p.state, w, p.state.Worker(w));
    p.Perform(Ack(w));
    return true;
  }

  /** The message's job was registered once and is stored no more. */
  predicate JobGone(s: State, id: MessageId) {
    id < |s.h.log| && s.h.log[id].job in s.h.policies && s.h.log[id].job !in s.db.jobs
  }

  /** Step 1: look the job up. Answers whether it is stored at this moment. */
  method LookUpJob(p: Platform, w: WorkerId, raises: bool) returns (r: Result<bool, Fault>)
    requires p.Valid() && p.state.Worker(w).Fetched?
    modifies p
    ensures p.Valid() && Later(old(p.state), p.state)
    ensures r.Err? <==> raises
    ensures var id := old(p.state.Worker(w).id);
      match r
      case Ok(true) => p.state.Worker(w) == Known(id) && JobStored(old(p.state), id)
      case Ok(false) => p.state.Worker(w) == Finishing(id) && JobGone(old(p.state), id) && JobGone(p.state, id)
      case Err(f) => f == ReadingJob && p.state.Worker(w).Idle? && id in p.state.q.pending
  {
    HolderFacts(p, w);
    if raises {
      Abandon(p, w);
      return Err(ReadingJob);
    }
    p.Perform(ReadJob(w));
    r := Ok(p.state.Worker(w).Known?);
  }

  predicate JobStored(s: State, id: MessageId) { id < |s.h.log| && s.h.log[id].job in s.db.jobs }

  /** A redelivered message is recognised by its attempt's row. */
  predicate AttemptHandled(s: State, id: MessageId) {
    && id < |s.h.log| && s.h.log[id].Id() in s.db.rows
    && s.db.rows[s.h.log[id].Id()].status in {Success, Failed, Canceled, Retrying, Recoverable}
  }

  /** Step 2: check for a duplicate, after others had their turn. Answers whether the attempt is still open. */
  method CheckForDuplicate(p: Platform, w: WorkerId, raises: bool) returns (r: Result<bool, Fault>, ghost seen: State)
    requires p.Valid() && p.state.Worker(w).Known?
    modifies p
    ensures p.Valid() && Later(old(p.state), p.state) && Moment(seen, p.state)
    ensures r.Err? <==> raises
    ensures var id := old(p.state.Worker(w).id);
      match r
      case Ok(isNew) =>
        p.state.Worker(w) == (if isNew then Cleared(id) else Finishing(id)) && (isNew <==> !AttemptHandled(seen, id))
      case Err(f) => f == CheckingDuplicate && p.state.Worker(w).Idle? && id in p.state.q.pending
  {
    p.Interfere(TheWorker(w));
    seen := p.state;
    HolderFacts(p, w);
    if raises {
      Abandon(p, w);
      return Err(CheckingDuplicate), seen;
    }
    OnlyItsOwnRow(seen, seen.Worker(w).id);
    p.Perform(CheckDuplicate(w));
    r := Ok(p.state.Worker(w).Cleared?);
  }

  /** The other reason for skipping, a key owned by another run, never applies. */
  lemma {:induction false} OnlyItsOwnRow(s: State, id: MessageId)
    requires Reachable(s) && id < |s.h.log|
    ensures IsDuplicate(s.db, s.h.log[id]) <==> AttemptHandled(s, id)
  {
    ReachableInv(s);
    KeyNeverOwnedByOther(s, id);
  }

  /** A state this process acted in, at or before `t`. */
  ghost predicate Moment(s: State, t: State) { Reachable(s) && Later(s, t) }

  /** The states in which a worker checked for a duplicate, made its first write, and made its last one. */
  datatype Visit = Visit(checked: State, began: State, settled: State)

  /** The write would have to insert a row for a job that is gone. */
  predicate Refused(s: State, id: MessageId) {
    id < |s.h.log| && s.h.log[id].Id() !in s.db.rows && s.h.log[id].job !in s.db.jobs
  }

  /** What the attempt's row says while its handler runs. */
  predicate RunningAt(s: State, id: MessageId, started: Time) {
    && id < |s.h.log| && s.h.log[id].Id() in s.db.rows
    && var ex := s.db.rows[s.h.log[id].Id()];
       ex.status == Running && ex.startedAt == Some(started) && ex.finishedAt == None && ex.error == None
         && ex.nextRetryAt == None
  }

  /** What the attempt's row says after the last write: how the handler ended, or that there is none. */
  predicate SettledAt(s: State, id: MessageId, registered: bool, o: Outcome, started: Time, finished: Time) {
    && id < |s.h.log| && s.h.log[id].Id() in s.db.rows
    && var m, ex := s.h.log[id], s.db.rows[s.h.log[id].Id()];
       && ex.startedAt == Some(started) && ex.finishedAt == Some(if registered then finished else started)
       && if !registered then ex.status == Failed && ex.error.Some? && ex.nextRetryAt == None
          else
            && ex.maxAttempts == Some(s.h.MaxAttempts(m.job))
            && (o.Succeeded? ==> ex.status == Success && ex.error == None && ex.nextRetryAt == None)
            && (o.Stopped? ==> ex.status == Canceled && ex.error == Some(o.error) && ex.nextRetryAt == None)
            && (o.Raised? && m.attempt < s.h.MaxAttempts(m.job) ==>
                  ex.status == Retrying && ex.error == Some(o.error) && ex.nextRetryAt == Some(o.retryAt))
            && (o.Raised? && m.attempt >= s.h.MaxAttempts(m.job) ==>
                  ex.status == Failed && ex.error == Some(o.error) && ex.nextRetryAt == None)
  }

  /** The attempt failed and its policy allows another one. */
  predicate ToBeRetried(s: State, id: MessageId, o: Outcome) {
    id < |s.h.log| && o.Raised? && s.h.log[id].attempt < s.h.MaxAttempts(s.h.log[id].job)
  }

  /** The verdict an executed attempt gets, by its outcome, with the rows it left at its two writes. */
  ghost predicate Executed(v: Verdict, visit: Visit, id: MessageId, registered: bool, o: Outcome, started: Time,
                           finished: Time)
  {
    && SettledAt(visit.settled, id, registered, o, started, finished)
    && (registered ==> RunningAt(visit.began, id, started))
    && v == if !registered then Unrunnable
            else if ToBeRetried(visit.settled, id, o) then RetryScheduled
            else Finished
  }

  /** An exception is one that was raised at that step, or a write refused because the job was deleted. */
  predicate Caused(f: Fault, faults: set<Fault>, visit: Visit, id: MessageId) {
    f in faults || (f == Starting && Refused(visit.began, id)) || (f == Settling && Refused(visit.settled, id))
  }

  /** A duplicate was handled when it was checked; any other verdict is that of the execution. */
  ghost predicate Answers(r: Result<Verdict, Fault>, faults: set<Fault>, visit: Visit, id: MessageId, t: State,
                          registered: bool, o: Outcome, started: Time, finished: Time)
  {
    match r
    case Err(f) => Caused(f, faults, visit, id)
    case Ok(Duplicate) => Moment(visit.checked, t) && AttemptHandled(visit.checked, id)
    case Ok(v) =>
      && Moment(visit.checked, t) && !AttemptHandled(visit.checked, id)
      && Moment(visit.settled, t) && Executed(v, visit, id, registered, o, started, finished)
  }

  /** No step on the way to this verdict raises. */
  predicate Unhindered(v: Verdict, faults: set<Fault>, registered: bool) {
    && ReadingJob !in faults && Acking !in faults
    && (!v.Dropped? ==> CheckingDuplicate !in faults)
    && (!v.Dropped? && !v.Duplicate? ==> Settling !in faults && (registered ==> Starting !in faults))
  }

  /**
   Processing one delivery. It either returns a verdict, and then the message is acknowledged with
   its attempt settled in the database or its job gone, or it raises, and then the message is still
   pending for a later takeover. Nothing is acknowledged on any other path.
   */
  method Process(p: Platform, w: WorkerId, faults: set<Fault>, registered: bool, outcome: Outcome, started: Time,
                 finished: Time)
    returns (r: Result<Verdict, Fault>, ghost visit: Visit)
    requires p.Valid() && p.state.Worker(w).Fetched? && !outcome.NotRegistered?
    modifies p
    ensures p.Valid() && p.state.Worker(w).Idle? && Later(old(p.state), p.state)
    ensures r.Ok? ==> Settled(p.state, old(p.state.Worker(w).id)) && Unhindered(r.value, faults, registered)
    ensures r.Err? ==> old(p.state.Worker(w).id) in p.state.q.pending
    ensures var id := old(p.state.Worker(w).id);
      if r == Ok(Dropped) then JobGone(old(p.state), id) && JobGone(p.state, id)
      else
        && (r.Ok? ==> JobStored(old(p.state), id))
        && Answers(r, faults, visit, id, p.state, registered, outcome, started, finished)
  {
    visit := Visit(p.state, p.state, p.state);
    var known := LookUpJob(p, w, ReadingJob in faults);
    if known.Err? {
      return Err(known.error), visit;
    }
    if !known.value {
      var acked := Acknowledge(p, w, Acking in faults);
      return if acked then Ok(Dropped) else Err(Acking), visit;
    }
    r, visit := ProcessKnown(p, w, faults, registered, outcome, started, finished);
  }

  method ProcessKnown(p: Platform, w: WorkerId, faults: set<Fault>, registered: bool, outcome: Outcome,
                      started: Time, finished: Time)
    returns (r: Result<Verdict, Fault>, ghost visit: Visit)
    requires p.Valid() && p.state.Worker(w).Known? && !outcome.NotRegistered?
    modifies p
    ensures p.Valid() && p.state.Worker(w).Idle? && Later(old(p.state), p.state)
    ensures r.Ok? ==> Settled(p.state, old(p.state.Worker(w).id)) && !r.value.Dropped?
    ensures r.Ok? ==> Unhindered(r.value, faults - {ReadingJob}, registered)
    ensures r.Err? ==> old(p.state.Worker(w).id) in p.state.q.pending
    ensures Answers(r, faults, visit, old(p.state.Worker(w).id), p.state, registered, outcome, started, finished)
  {
    var isNew, seen := CheckForDuplicate(p, w, CheckingDuplicate in faults);
    visit := Visit(seen, seen, seen);
    if isNew.Err? {
      return Err(isNew.error), visit;
    }
    if !isNew.value {
      var acked := Acknowledge(p, w, Acking in faults);
      return if acked then Ok(Duplicate) else Err(Acking), visit;
    }
    r, visit := ExecuteAndAcknowledge(p, w, faults, registered, outcome, started, finished, seen);
  }

  /** The execution under its lease, and the acknowledgement after it. */
  method ExecuteAndAcknowledge(p: Platform, w: WorkerId, faults: set<Fault>, registered: bool, outcome: Outcome,
                               started: Time, finished: Time, ghost seen: State)
    returns (r: Result<Verdict, Fault>, ghost visit: Visit)
    requires p.Valid() && p.state.Worker(w).Cleared? && !outcome.NotRegistered?
    modifies p
    ensures p.Valid() && p.state.Worker(w).Idle? && Later(old(p.state), p.state) && visit.checked == seen
    ensures r.Ok? ==> Acking !in faults && Settling !in faults && (registered ==> Starting !in faults)
    ensures r.Ok? ==>
      && Settled(p.state, old(p.state.Worker(w).id)) && Moment(visit.settled, p.state)
      && Executed(r.value, visit, old(p.state.Worker(w).id), registered, outcome, started, finished)
    ensures r.Err? ==>
      old(p.state.Worker(w).id) in p.state.q.pending && Caused(r.error, faults, visit, old(p.state.Worker(w).id))
  {
    ghost var began, settled;
    r, began, settled := ExecuteAndPersist(p, w, faults, registered, outcome, started, finished);
    visit := Visit(seen, began, settled);
    if r.Ok? {
      var acked := Acknowledge(p, w, Acking in faults);
      r := if acked then r else Err(Acking);
    }
  }

  /** The worker's own message, whatever happened meanwhile. */
  lemma {:induction false} HolderFacts(p: Platform, w: WorkerId)
    requires p.Valid() && !p.state.Worker(w).Idle?
    ensures p.state.Holds(w) && p.state.Worker(w).id in p.state.q.pending
    ensures p.state.Held(w).job in p.state.h.policies
  {
    ReachableInv(p.state);
    assert WorkerOk(p.state, w, p.state.Worker(w));
    assert MessageOk(p.state.h, p.state.db.jobs, p.state.db.keys, p.state.Held(w), p.state.Worker(w).id);
  }

  /** Runs the handler between the two persists, or fails the attempt when no handler is registered. */
  method ExecuteAndPersist(p: Platform, w: WorkerId, faults: set<Fault>, registered: bool, outcome: Outcome,
                           started: Time, finished: Time)
    returns (r: Result<Verdict, Fault>, ghost began: State, ghost settled: State)
    requires p.Valid() && p.state.Worker(w).Cleared? && !outcome.NotRegistered?
    modifies p
    ensures p.Valid() && Later(old(p.state), p.state)
    ensures var id := old(p.state.Worker(w).id);
      match r
      case Ok(v) =>
        && p.state.Worker(w) == Finishing(id) && settled == p.state
        && Settling !in faults && (registered ==> Starting !in faults)
        && Executed(v, Visit(began, began, settled), id, registered, outcome, started, finished)
      case Err(f) =>
        && p.state.Worker(w).Idle? && id in p.state.q.pending
        && f in {Starting, Settling} && Caused(f, faults, Visit(began, began, settled), id)
  {
    p.Interfere(TheWorker(w));
    began := p.state;
    if registered {
      r, began, settled := RunAttempt(p, w, faults, outcome, started, finished);
    } else {
      var missing := NotRegistered("handler not registered");
      var status;
      status, settled := Persist(p, w, missing, started, started, Settling in faults);
      r := if status.Ok? then Ok(Unrunnable) else Err(Settling);
    }
  }

  method RunAttempt(p: Platform, w: WorkerId, faults: set<Fault>, outcome: Outcome, started: Time, finished: Time)
    returns (r: Result<Verdict, Fault>, ghost began: State, ghost settled: State)
    requires p.Valid() && p.state.Worker(w).Cleared? && !outcome.NotRegistered?
    modifies p
    ensures p.Valid() && Later(old(p.state), p.state)
    ensures var id := old(p.state.Worker(w).id);
      match r
      case Ok(v) =>
        && p.state.Worker(w) == Finishing(id) && settled == p.state && Settling !in faults && Starting !in faults
        && Executed(v, Visit(began, began, settled), id, true, outcome, started, finished)
      case Err(f) =>
        && p.state.Worker(w).Idle? && id in p.state.q.pending
        && f in {Starting, Settling} && Caused(f, faults, Visit(began, began, settled), id)
  {
    began, settled := p.state, p.state;
    var running := Start(p, w, started, Starting in faults);
    if !running {
      return Err(Starting), began, settled;
    }
    began := p.state;
    p.Interfere(TheWorker(w));
    var status;
    status, settled := Persist(p, w, outcome, started, finished, Settling in faults);
    r := if status.Err? then Err(Settling) else Ok(if status.value.Retrying? then RetryScheduled else Finished);
  }

  /** The first write: the RUNNING row. It fails only with an exception, or when it must insert for a deleted job. */
  method Start(p: Platform, w: WorkerId, at: Time, raises: bool) returns (ok: bool)
    requires p.Valid() && p.state.Worker(w).Cleared?
    modifies p
    ensures p.Valid() && Later(old(p.state), p.state)
    ensures ok ==>
      && !raises && p.state.Worker(w) == Executing(old(p.state.Worker(w).id))
      && RunningAt(p.state, old(p.state.Worker(w).id), at)
    ensures !ok ==> p.state.Worker(w).Idle? && old(p.state.Worker(w).id) in p.state.q.pending
    ensures !ok ==> raises || Refused(old(p.state), old(p.state.Worker(w).id))
  {
    HolderFacts(p, w);
    if raises || !CanUpsert(p.state.db, p.state.Held(w)) {
      Abandon(p, w);
      return false;
    }
    p.Perform(PersistStarted(w, at));
    return true;
  }

  /** The last write: the settled row, with its retry schedule exactly when the attempt is to be retried. */
  method Persist(p: Platform, w: WorkerId, o: Outcome, started: Time, finished: Time, raises: bool)
    returns (r: Result<JobStatus, Fault>, ghost settled: State)
    requires p.Valid() && (if o.NotRegistered? then p.state.Worker(w).Cleared? else p.state.Worker(w).Executing?)
    requires o.NotRegistered? ==> finished == started
    modifies p
    ensures p.Valid() && Later(old(p.state), p.state)
    ensures var id := old(p.state.Worker(w).id);
      match r
      case Ok(status) =>
        && p.state.Worker(w) == Finishing(id) && settled == p.state && !raises
        && SettledAt(settled, id, !o.NotRegistered?, o, started, finished)
        && (status.Retrying? <==> ToBeRetried(settled, id, o))
      case Err(_) =>
        && p.state.Worker(w).Idle? && id in p.state.q.pending
        && settled == old(p.state) && (raises || Refused(settled, id))
  {
    settled := p.state;
    HolderFacts(p, w);
    if raises || !CanUpsert(p.state.db, p.state.Held(w)) {
      Abandon(p, w);
      return Err(Settling), settled;
    }
    r := Ok(FinalStatus(p.state.h, p.state.Held(w), o));
    p.Perform(PersistFinal(w, o, started, finished));
    settled := p.state;
  }

  // ---------------- sweeper ----------------

  /** What became of a listed row: its retry was published, was already taken, or is put back. */
  datatype Fate = Published | Lost | PutBack

  /** One row's turn: the states in which it was claimed, in which its message was to be published, and at its end. */
  datatype Turn = Turn(fate: Fate, claim: State, before: State, done: State)

  predicate ScheduledIn(s: State, a: Attempt) { a in s.db.rows && s.db.rows[a].nextRetryAt.Some? }

  /**
   The fate of a row, on what was stored when the sweeper claimed it and on whether publishing raised.
   A published message is the sweeper's own, for the next attempt, never published before.
   */
  ghost predicate TurnOk(sweeper: SweeperId, ex: Execution, rest: seq<Execution>, raises: bool, turn: Turn, t: State) {
    && Moment(turn.claim, t) && turn.claim.Sweeper(sweeper) == Listed([ex] + rest)
    && turn.fate == (if !ScheduledIn(turn.claim, ex.Id()) then Lost else if raises then PutBack else Published)
    && (turn.fate.Published? ==> Later(turn.claim, turn.before) && Publishes(turn.before, sweeper, ex, t))
    && (turn.fate.PutBack? ==> Moment(turn.done, t) && ScheduleBack(turn.done, ex))
  }

  /** The row, if it is still stored, has the schedule it was listed with. */
  predicate ScheduleBack(s: State, ex: Execution) {
    ex.Id() in s.db.rows ==> s.db.rows[ex.Id()].nextRetryAt == ex.nextRetryAt
  }

  /** In `s` the sweeper had claimed the row, and `t` is after its publication of the next attempt, or later. */
  ghost predicate Publishes(s: State, sweeper: SweeperId, ex: Execution, t: State) {
    && Reachable(s) && s.Sweeper(sweeper).Taken? && s.Sweeper(sweeper).ex == ex
    && Attempt(ex.run, ex.attempt + 1) !in s.h.sent
    && |s.h.log| < |t.h.log| && t.h.log[|s.h.log|] == Message(ex.job, ex.run, ex.attempt + 1, None)
  }

  /**
   Claim one listed row; the winner publishes its message, or puts the schedule back when that raises.
   If a message was published, the state on return is the one right after this sweeper's own publication.
   */
  method SweepOne(p: Platform, sweeper: SweeperId, raises: bool) returns (fate: Fate, ghost turn: Turn)
    requires p.Valid() && CanClaimDue(p.state, sweeper)
    modifies p
    ensures p.Valid() && Later(old(p.state), p.state) && turn.fate == fate && Later(old(p.state), turn.claim)
    ensures
      var due := old(p.state.Sweeper(sweeper).due);
      && p.state.Sweeper(sweeper) == Listed(due[1..])
      && TurnOk(sweeper, due[0], due[1..], raises, turn, p.state)
  {
    ghost var due := p.state.Sweeper(sweeper).due;
    assert due == [due[0]] + due[1..];
    var won, claim := ClaimListed(p, sweeper);
    turn := Turn(Lost, claim, claim, claim);
    fate := Lost;
    if won {
      p.Interfere(TheSweeper(sweeper));
      ghost var before := p.state;
      if raises {
        BounceTaken(p, sweeper);
        fate := PutBack;
      } else {
        PublishTaken(p, sweeper);
        fate := Published;
      }
      LaterSelf(p.state);
      turn := Turn(fate, claim, before, p.state);
    }
  }

  lemma {:induction false} LaterSelf(s: State)
    ensures Later(s, s)
  {
  }

  /** The conditional update decides: whoever clears the schedule owns the retry. */
  method ClaimListed(p: Platform, sweeper: SweeperId) returns (won: bool, ghost claim: State)
    requires p.Valid() && CanClaimDue(p.state, sweeper)
    modifies p
    ensures p.Valid() && Later(old(p.state), p.state) && Later(old(p.state), claim) && Moment(claim, p.state)
    ensures var due := old(p.state.Sweeper(sweeper).due);
      && claim.Sweeper(sweeper) == Listed(due)
      && (won <==> ScheduledIn(claim, due[0].Id()))
      && p.state.Sweeper(sweeper) == if won then Taken(due[0], due[1..]) else Listed(due[1..])
  {
    p.Interfere(TheSweeper(sweeper));
    claim := p.state;
    p.Perform(ClaimDue(sweeper));
    won := p.state.Sweeper(sweeper).Taken?;
  }

  method PublishTaken(p: Platform, sweeper: SweeperId)
    requires p.Valid() && p.state.Sweeper(sweeper).Taken?
    modifies p
    ensures p.Valid() && Later(old(p.state), p.state)
    ensures p.state.Sweeper(sweeper) == Listed(old(p.state.Sweeper(sweeper).rest))
    ensures Publishes(old(p.state), sweeper, old(p.state.Sweeper(sweeper).ex), p.state)
  {
    FlightIsUnpublished(p.state, sweeper);
    p.Perform(PublishRetry(sweeper));
  }

  method BounceTaken(p: Platform, sweeper: SweeperId)
    requires p.Valid() && p.state.Sweeper(sweeper).Taken?
    modifies p
    ensures p.Valid() && Later(old(p.state), p.state)
    ensures p.state.Sweeper(sweeper) == Listed(old(p.state.Sweeper(sweeper).rest))
    ensures ScheduleBack(p.state, old(p.state.Sweeper(sweeper).ex))
  {
    p.Perform(PublishRetryFails(sweeper));
    p.Interfere(TheSweeper(sweeper));
    p.Perform(RestoreRetry(sweeper));
  }

  /** The ids of the rows whose retry was published, in the order of the page. */
  function PublishedIds(due: seq<Execution>, turns: seq<Turn>): seq<Attempt>
    requires |turns| <= |due|
  {
    if turns == [] then []
    else
      var k := |turns| - 1;
      PublishedIds(due, turns[..k]) + if turns[k].fate.Published? then [due[k].Id()] else []
  }

  /** The first rows of the page have had their turns, one after the other, in the order of the page. */
  ghost predicate TurnsOk(start: State, sweeper: SweeperId, due: seq<Execution>, raises: Attempt -> bool,
                          turns: seq<Turn>, t: State)
    requires |turns| <= |due|
  {
    && (forall k {:trigger TurnAt(sweeper, due, raises, turns, k, t)} :: 0 <= k < |turns| ==>
          TurnAt(sweeper, due, raises, turns, k, t))
    && (forall k :: 0 <= k < |turns| ==> Later(start, turns[k].claim))
    && (forall j, k :: 0 <= j < k < |turns| ==> TurnAt(sweeper, due, raises, turns, j, turns[k].claim))
  }

  ghost predicate TurnAt(sweeper: SweeperId, due: seq<Execution>, raises: Attempt -> bool, turns: seq<Turn>, k: nat,
                         t: State)
    requires k < |turns| <= |due|
  {
    TurnOk(sweeper, due[k], due[k + 1..], raises(due[k].Id()), turns[k], t)
  }

  /**
   One sweep over a page of due rows. Every row has its turn, in order, and the attempts returned are
   exactly those whose retry this sweep published.
   */
  method SweepDueRetries(p: Platform, sweeper: SweeperId, now: Time, due: seq<Execution>, raises: Attempt -> bool)
    returns (published: seq<Attempt>, ghost turns: seq<Turn>)
    requires p.Valid() && CanListDue(p.state, sweeper, now, due)
    modifies p
    ensures p.Valid() && p.state.Sweeper(sweeper) == Listed([]) && Later(old(p.state), p.state)
    ensures |turns| == |due| && TurnsOk(old(p.state), sweeper, due, raises, turns, p.state)
    ensures published == PublishedIds(due, turns)
  {
    published, turns := [], [];
    p.Perform(ListDue(sweeper, now, due));
    for k := 0 to |due|
      invariant p.Valid() && p.state.Sweeper(sweeper) == Listed(due[k..]) && |turns| == k
      invariant Later(old(p.state), p.state) && TurnsOk(old(p.state), sweeper, due, raises, turns, p.state)
      invariant published == PublishedIds(due, turns)
    {
      ghost var was := p.state;
      assert due[k..][1..] == due[k + 1..] && due[k..][0] == due[k];
      var fate, turn := SweepOne(p, sweeper, raises(due[k].Id()));
      OneMoreTurn(old(p.state), was, p.state, sweeper, due, raises, turns, turn);
      assert (turns + [turn])[..k] == turns;
      turns := turns + [turn];
      if fate.Published? {
        published := published + [due[k].Id()];
      }
    }
  }

  lemma {:induction false} TurnStillOk(sweeper: SweeperId, ex: Execution, rest: seq<Execution>, raises: bool,
                                       turn: Turn,
                                       s: State, t: State)
    requires TurnOk(sweeper, ex, rest, raises, turn, s) && Later(s, t)
    ensures TurnOk(sweeper, ex, rest, raises, turn, t) && Later(turn.claim, s)
  {
    LaterTrans(turn.claim, s, t);
    if turn.fate.PutBack? {
      LaterTrans(turn.done, s, t);
    }
  }

  lemma {:induction false} OneMoreTurn(start: State, s: State, t: State, sweeper: SweeperId, due: seq<Execution>,
                                       raises: Attempt -> bool, turns: seq<Turn>, turn: Turn)
    requires |turns| < |due| && TurnsOk(start, sweeper, due, raises, turns, s) && Later(start, s) && Later(s, t)
    requires Later(s, turn.claim)
    requires var k := |turns|; TurnOk(sweeper, due[k], due[k + 1..], raises(due[k].Id()), turn, t)
    ensures TurnsOk(start, sweeper, due, raises, turns + [turn], t)
  {
    var more, n := turns + [turn], |turns|;
    forall k | 0 <= k < |more| ensures TurnAt(sweeper, due, raises, more, k, t) {
      if k < n {
        assert TurnAt(sweeper, due, raises, turns, k, s);
        TurnStillOk(sweeper, due[k], due[k + 1..], raises(due[k].Id()), turns[k], s, t);
      }
    }
    LaterTrans(start, s, turn.claim);
    forall j, k | 0 <= j < k < |more| ensures TurnAt(sweeper, due, raises, more, j, more[k].claim) {
      if k < n {
        assert TurnAt(sweeper, due, raises, turns, j, turns[k].claim);
      } else {
        assert TurnAt(sweeper, due, raises, turns, j, s);
        TurnStillOk(sweeper, due[j], due[j + 1..], raises(due[j].Id()), turns[j], s, turn.claim);
      }
    }
  }

  /** A published attempt was not published before the sweep. */
  lemma {:induction false} PublishedAreNew(start: State, t: State, sweeper: SweeperId, due: seq<Execution>,
                                           raises: Attempt -> bool, turns: seq<Turn>, k: nat)
    requires k < |turns| <= |due| && TurnsOk(start, sweeper, due, raises, turns, t) && turns[k].fate.Published?
    ensures due[k].Id().Next() !in start.h.sent
  {
    assert TurnAt(sweeper, due, raises, turns, k, t);
    LaterTrans(start, turns[k].claim, turns[k].before);
  }

  lemma {:induction false} MessageIsSent(s: State, id: MessageId)
    requires Reachable(s) && id < |s.h.log|
    ensures s.h.log[id].Id() in s.h.sent
  {
    ReachableInv(s);
    assert MessageOk(s.h, s.db.jobs, s.db.keys, s.h.log[id], id);
  }

  /** No attempt is answered twice. */
  lemma {:induction false} PublishedOnce(start: State, t: State, sweeper: SweeperId, due: seq<Execution>,
                                         raises: Attempt -> bool, turns: seq<Turn>, j: nat, k: nat)
    requires j < k < |turns| <= |due| && TurnsOk(start, sweeper, due, raises, turns, t)
    requires turns[j].fate.Published? && turns[k].fate.Published?
    ensures due[j].Id() != due[k].Id()
  {
    assert TurnAt(sweeper, due, raises, turns, k, t) && TurnAt(sweeper, due, raises, turns, j, turns[k].claim);
    var before, m := turns[k].before, |turns[j].before.h.log|;
    assert before.h.log[m] == Message(due[j].job, due[j].run, due[j].attempt + 1, None);
    MessageIsSent(before, m);
  }

  lemma {:induction false} FlightIsUnpublished(s: State, p: SweeperId)
    requires Reachable(s) && InFlight(s.Sweeper(p))
    ensures s.Sweeper(p).ex.Id().Next() !in s.h.sent
  {
    ReachableInv(s);
    assert SweeperOk(s.h, s.db.jobs, s.db.rows, SweeperAt(s.sweepers, p));
  }

  // ---------------- dispatcher ----------------

  datatype Trouble = Claiming | Publishing | Releasing | Storing

  datatype Dispatched = Skipped | Deferred | Sent(run: RunId)

  /**
   One dispatch of a due slot. `Sent` means the slot's one message is published under this run;
   `Deferred` means nothing was published, and the key is free again unless releasing raised too.
   */
  method Dispatch(p: Platform, d: DispatcherId, key: SlotKey, run: RunId, troubles: set<Trouble>)
    returns (r: Dispatched)
    requires p.Valid() && p.state.Dispatcher(d).Ready? && run !in p.state.h.runs
    modifies p
    ensures p.Valid() && p.state.Dispatcher(d).Ready? && Later(old(p.state), p.state)
    ensures
      var s := old(p.state);
      r == if Trouble.Claiming in troubles || key.job !in s.db.jobs || key in s.db.keys then Skipped
           else if Publishing in troubles then Deferred
           else Sent(run)
    ensures r.Skipped? ==> p.state == old(p.state)
    ensures r.Sent? ==> Message(key.job, run, 1, Some(key)) in p.state.h.log
    ensures r.Sent? && Storing !in troubles ==> Attempt(run, 1) in p.state.db.rows || key.job !in p.state.db.jobs
    ensures r.Deferred? && Releasing !in troubles ==> key !in p.state.db.keys
    ensures r.Deferred? && Releasing in troubles ==>
      key.job !in p.state.db.jobs || Guarantees.Forfeited(p.state, key, run)
  {
    if Trouble.Claiming in troubles || key.job !in p.state.db.jobs || key in p.state.db.keys {
      return Skipped;
    }
    p.Perform(ClaimSlot(d, key, run));
    p.Interfere(TheDispatcher(d));
    if Publishing in troubles {
      GiveSlotBack(p, d, Releasing in troubles);
      return Deferred;
    }
    PublishClaimed(p, d, Storing in troubles);
    r := Sent(run);
  }

  /** The publication raised: release the key, quietly keeping it when that raises too. */
  method GiveSlotBack(p: Platform, d: DispatcherId, raises: bool)
    requires p.Valid() && p.state.Dispatcher(d).Claimed?
    modifies p
    ensures p.Valid() && p.state.Dispatcher(d).Ready? && Later(old(p.state), p.state)
    ensures
      var c := old(p.state.Dispatcher(d));
      && (!raises ==> c.key !in p.state.db.keys)
      && (raises ==> c.key.job !in p.state.db.jobs || Guarantees.Forfeited(p.state, c.key, c.run))
  {
    p.Perform(PublishSlotFails(d));
    p.Interfere(TheDispatcher(d));
    if raises {
      LeaveSlot(p, d);
    } else {
      p.Perform(ReleaseSlot(d));
    }
  }

  /** Releasing raised: the slot stays claimed by a run that is never published. */
  method LeaveSlot(p: Platform, d: DispatcherId)
    requires p.Valid() && p.state.Dispatcher(d).Refused?
    modifies p
    ensures p.Valid() && p.state.Dispatcher(d).Ready? && Later(old(p.state), p.state)
    ensures
      var c := old(p.state.Dispatcher(d));
      c.key.job !in p.state.db.jobs || Guarantees.Forfeited(p.state, c.key, c.run)
  {
    ReachableInv(p.state);
    if p.state.Dispatcher(d).key.job in p.state.db.jobs {
      Guarantees.RaisingReleaseForfeits(p.state, d);
    }
    p.Perform(StopDispatcher(d));
  }

  method PublishClaimed(p: Platform, d: DispatcherId, raises: bool)
    requires p.Valid() && p.state.Dispatcher(d).Claimed?
    modifies p
    ensures p.Valid() && p.state.Dispatcher(d).Ready? && Later(old(p.state), p.state)
    ensures var c := old(p.state.Dispatcher(d));
      && Message(c.key.job, c.run, 1, Some(c.key)) in p.state.h.log
      && (!raises ==> Attempt(c.run, 1) in p.state.db.rows || c.key.job !in p.state.db.jobs)
  {
    ghost var id, c := |p.state.h.log|, p.state.Dispatcher(d);
    p.Perform(PublishSlot(d));
    assert p.state.h.log[id] == Message(c.key.job, c.run, 1, Some(c.key));
    p.Interfere(TheDispatcher(d));
    assert p.state.h.log[id] == Message(c.key.job, c.run, 1, Some(c.key));
    if raises {
      p.Perform(StopDispatcher(d));
    } else {
      p.Perform(InsertQueued(d));
    }
  }
}
