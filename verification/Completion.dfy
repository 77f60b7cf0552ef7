/**
 A run can always be brought to its end: as long as its job is stored, some sequence of ordinary actions,
 in which nothing goes wrong for the run, leaves nothing of it to do, however its handler ends.
 */
module Completion {
  import opened Common
  import opened StateMachine
  import opened Repositories
  import opened Protocol
  import opened Invariant
  import opened Progress

  /**
   Nothing goes wrong for the run: no publication fails, nothing is deleted, canceled or recovered, no
   process working on the run stops, and its attempts end with the given outcome.
   */
  ghost predicate Calm(s: State, a: Action, r: RunId, o: Outcome) {
    match a
    case DeleteJob(_) => false
    case Recover(_) => false
    case RequestCancel(_, _) => false
    case PublishSlotFails(_) => false
    case PublishRetryFails(_) => false
    case StopWorker(w) => !WorksOn(s, w, r)
    case StopSweeper(p) => !(InFlight(s.Sweeper(p)) && s.Sweeper(p).ex.run == r)
    case StopDispatcher(d) => !(Claiming(s.Dispatcher(d)) && s.Dispatcher(d).run == r)
    case PersistFinal(w, outcome, _, _) => WorksOn(s, w, r) ==> outcome == o
    case _ => true
  }

  /** The worker holds a message of the run. */
  predicate WorksOn(s: State, w: WorkerId, r: RunId) { s.Holds(w) && s.Held(w).run == r }

  ghost predicate CalmAt(states: seq<State>, actions: seq<Action>, r: RunId, o: Outcome, i: nat)
    requires |states| == |actions| + 1 && i < |actions|
  {
    Calm(states[i], actions[i], r, o)
  }

  ghost predicate AllCalm(states: seq<State>, actions: seq<Action>, r: RunId, o: Outcome)
    requires |states| == |actions| + 1
  {
    forall i {:trigger CalmAt(states, actions, r, o, i)} :: 0 <= i < |actions| ==> CalmAt(states, actions, r, o, i)
  }

  /** A run of the system, calm for `r`, leads from one state to the other. */
  ghost predicate CalmTo(s: State, t: State, r: RunId, o: Outcome) {
    exists states, actions ::
      IsTrace(states, actions) && states[0] == s && states[|actions|] == t && AllCalm(states, actions, r, o)
  }

  /** The run was drawn and its job is stored. */
  ghost predicate Alive(s: State, r: RunId) {
    Inv(s) && r in s.h.runs && s.h.runs[r] in s.db.jobs
  }

  lemma {:induction false} CalmStay(s: State, r: RunId, o: Outcome)
    ensures CalmTo(s, s, r, o)
  {
    var states, actions: seq<Action> := [s], [];
    assert IsTrace(states, actions) && AllCalm(states, actions, r, o) && states[|actions|] == s;
  }

  lemma {:induction false} CalmJoin(s: State, t: State, u: State, r: RunId, o: Outcome)
    requires CalmTo(s, t, r, o) && CalmTo(t, u, r, o)
    ensures CalmTo(s, u, r, o)
  {
    var ss, aa :| IsTrace(ss, aa) && ss[0] == s && ss[|aa|] == t && AllCalm(ss, aa, r, o);
    var tt, bb :| IsTrace(tt, bb) && tt[0] == t && tt[|bb|] == u && AllCalm(tt, bb, r, o);
    var states, actions := ss + tt[1..], aa + bb;
    forall i | 0 <= i < |actions| ensures StepAt(states, actions, i) && CalmAt(states, actions, r, o, i) {
      JoinedAt(ss, aa, tt, bb, i, r, o);
    }
    assert states[|aa| + |bb|] == u by {
      assert bb != [] ==> states[|aa| + |bb|] == tt[|bb|];
    }
    assert IsTrace(states, actions) && AllCalm(states, actions, r, o) && states[|actions|] == u;
  }

  /** Every step of two runs joined at a common state is a step of one of them. */
  lemma {:induction false} JoinedAt(ss: seq<State>, aa: seq<Action>, tt: seq<State>, bb: seq<Action>, i: nat,
                                    r: RunId, o: Outcome)
    requires IsTrace(ss, aa) && IsTrace(tt, bb) && ss[|aa|] == tt[0] && i < |aa + bb|
    requires AllCalm(ss, aa, r, o) && AllCalm(tt, bb, r, o)
    ensures StepAt(ss + tt[1..], aa + bb, i) && CalmAt(ss + tt[1..], aa + bb, r, o, i)
  {
    var states, actions := ss + tt[1..], aa + bb;
    if i < |aa| {
      assert StepAt(ss, aa, i) && CalmAt(ss, aa, r, o, i);
      assert states[i] == ss[i] && states[i + 1] == ss[i + 1] && actions[i] == aa[i];
    } else {
      var j := i - |aa|;
      assert StepAt(tt, bb, j) && CalmAt(tt, bb, r, o, j);
      assert states[i] == tt[j] && states[i + 1] == tt[j + 1] && actions[i] == bb[j];
    }
  }

  // ---------------- one calm step ----------------

  lemma {:induction false} CalmOnce(s: State, a: Action, r: RunId, o: Outcome)
    requires Enabled(s, a) && Calm(s, a, r, o)
    ensures CalmTo(s, Apply(s, a), r, o)
  {
    var states, actions := [s, Apply(s, a)], [a];
    assert StepAt(states, actions, 0) && CalmAt(states, actions, r, o, 0);
    assert IsTrace(states, actions) && AllCalm(states, actions, r, o) && states[|actions|] == Apply(s, a);
  }

  lemma {:induction false} JobsStay(s: State, a: Action)
    requires Enabled(s, a) && !a.DeleteJob?
    ensures s.db.jobs <= Apply(s, a).db.jobs
    ensures forall r :: r in s.h.runs ==> r in Apply(s, a).h.runs && Apply(s, a).h.runs[r] == s.h.runs[r]
  {
  }

  /** A calm step keeps the run alive; the measure falls when the step works on the run, and else does not rise. */
  lemma {:induction false} CalmStep(s: State, a: Action, r: RunId, o: Outcome)
    requires Alive(s, r) && Enabled(s, a) && Calm(s, a, r, o) && !a.RestoreRetry?
    ensures Alive(Apply(s, a), r) && CalmTo(s, Apply(s, a), r, o)
    ensures Work(Apply(s, a), r) + One(Advances(s, a, r)) <= Work(s, r)
  {
    StepKeeps(s, a);
    JobsStay(s, a);
    RunStaysDrawn(s, a, r);
    CalmOnce(s, a, r, o);
    StepWork(s, a, r);
    CalmSetsNothingBack(s, a, r, o);
  }

  lemma {:induction false} CalmSetsNothingBack(s: State, a: Action, r: RunId, o: Outcome)
    requires Calm(s, a, r, o) && !a.RestoreRetry?
    ensures !SetsBack(s, a, r)
  {
  }

  /** Some calm run from `s` ends where less work is left. */
  ghost predicate Falls(s: State, t: State, r: RunId, o: Outcome) {
    CalmTo(s, t, r, o) && Work(t, r) < Work(s, r)
  }

  lemma {:induction false} TraceKeepsAlive(states: seq<State>, actions: seq<Action>, i: nat, r: RunId, o: Outcome)
    requires IsTrace(states, actions) && AllCalm(states, actions, r, o) && Alive(states[0], r) && i <= |actions|
    ensures Alive(states[i], r)
  {
    if i > 0 {
      TraceKeepsAlive(states, actions, i - 1, r, o);
      assert StepAt(states, actions, i - 1) && CalmAt(states, actions, r, o, i - 1);
      StepKeepsAlive(states[i - 1], actions[i - 1], r, o);
    }
  }

  lemma {:induction false} StepKeepsAlive(s: State, a: Action, r: RunId, o: Outcome)
    requires Alive(s, r) && Enabled(s, a) && Calm(s, a, r, o)
    ensures Alive(Apply(s, a), r)
  {
    StepKeeps(s, a);
    JobsStay(s, a);
  }

  /** A run that is left in peace stays alive. */
  lemma {:induction false} CalmKeepsAlive(s: State, t: State, r: RunId, o: Outcome)
    requires Alive(s, r) && CalmTo(s, t, r, o)
    ensures Alive(t, r)
  {
    var states, actions :|
      IsTrace(states, actions) && states[0] == s && states[|actions|] == t && AllCalm(states, actions, r, o);
    TraceKeepsAlive(states, actions, |actions|, r, o);
  }

  lemma {:induction false} FallsAtOnce(s: State, a: Action, r: RunId, o: Outcome)
    requires Alive(s, r) && Enabled(s, a) && Calm(s, a, r, o) && Advances(s, a, r)
    ensures Falls(s, Apply(s, a), r, o)
  {
    CalmStep(s, a, r, o);
  }

  lemma {:induction false} FallsJoin(s: State, u: State, t: State, r: RunId, o: Outcome)
    requires CalmTo(s, u, r, o) && Work(u, r) <= Work(s, r) && Falls(u, t, r, o)
    ensures Falls(s, t, r, o)
  {
    CalmJoin(s, u, t, r, o);
  }

  // ---------------- drawn, scheduled and claimed work ----------------

  lemma {:induction false} DrawnFalls(s: State, d: DispatcherId, r: RunId, o: Outcome) returns (t: State)
    requires Alive(s, r) && Claiming(s.Dispatcher(d)) && s.Dispatcher(d).run == r
    ensures Falls(s, t, r, o)
  {
    var a := if s.Dispatcher(d).Claimed? then PublishSlot(d) else ReleaseSlot(d);
    FallsAtOnce(s, a, r, o);
    t := Apply(s, a);
  }

  lemma {:induction false} TakenFalls(s: State, p: SweeperId, r: RunId, o: Outcome) returns (t: State)
    requires Alive(s, r) && s.Sweeper(p).Taken? && s.Sweeper(p).ex.run == r
    ensures Falls(s, t, r, o) && t == PublishRetryStep(s, p)
  {
    FallsAtOnce(s, PublishRetry(p), r, o);
    t := PublishRetryStep(s, p);
  }

  /** There is always a process that is not in use. */
  lemma {:induction false} Unused(used: set<nat>) returns (n: nat)
    ensures n !in used && forall x :: x in used ==> x < n
  {
    n := 0;
    if used != {} {
      var x :| x in used;
      n := Unused(used - {x});
      n := if n <= x then x + 1 else n;
      assert forall y :: y in used ==> y == x || y in used - {x};
    }
  }

  /** A sweeper lists the schedule and claims it. */
  lemma {:induction false} ScheduleFalls(s: State, a: Attempt, o: Outcome) returns (t: State, p: SweeperId)
    requires Alive(s, a.run) && HasSchedule(s.db.rows, a)
    ensures Falls(s, t, a.run, o) && t.Sweeper(p).Taken? && t.Sweeper(p).ex.run == a.run
  {
    var ex := s.db.rows[a];
    assert RowOk(s.h, s.db.jobs, a, ex);
    p := Unused(s.sweepers.Keys);
    ListCalmly(s, p, ex, a.run, o);
    var u := s.SetSweeper(p, Listed([ex]));
    ClaimFalls(u, p, ex, a.run, o);
    t := ClaimDueStep(u, p);
    FallsJoin(s, u, t, a.run, o);
  }

  lemma {:induction false} ListCalmly(s: State, p: SweeperId, ex: Execution, r: RunId, o: Outcome)
    requires Alive(s, r) && p !in s.sweepers && ex.nextRetryAt.Some? && ex.status.Retrying?
    requires ex.Id() in s.db.rows && s.db.rows[ex.Id()] == ex
    ensures var t := s.SetSweeper(p, Listed([ex]));
      Alive(t, r) && CalmTo(s, t, r, o) && Work(t, r) <= Work(s, r)
  {
    CalmStep(s, ListDue(p, ex.nextRetryAt.value, [ex]), r, o);
  }

  lemma {:induction false} ClaimFalls(s: State, p: SweeperId, ex: Execution, r: RunId, o: Outcome)
    requires Alive(s, r) && s.Sweeper(p) == Listed([ex]) && ex.run == r && HasSchedule(s.db.rows, ex.Id())
    ensures Falls(s, ClaimDueStep(s, p), r, o) && ClaimDueStep(s, p).Sweeper(p) == Taken(ex, [])
  {
    ClaimAdvances(s, p, ex);
    FallsAtOnce(s, ClaimDue(p), r, o);
  }

  lemma {:induction false} ClaimAdvances(s: State, p: SweeperId, ex: Execution)
    requires s.Sweeper(p) == Listed([ex]) && HasSchedule(s.db.rows, ex.Id())
    ensures Enabled(s, ClaimDue(p)) && Apply(s, ClaimDue(p)) == ClaimDueStep(s, p) && Advances(s, ClaimDue(p), ex.run)
    ensures ClaimDueStep(s, p).Sweeper(p) == Taken(ex, [])
  {
  }

  lemma {:induction false} RestoreStep(s: State, p: SweeperId, r: RunId, o: Outcome)
    requires Alive(s, r) && s.Sweeper(p).Bounced? && s.Sweeper(p).ex.run == r
    ensures Alive(RestoreRetryStep(s, p), r) && CalmTo(s, RestoreRetryStep(s, p), r, o)
    ensures Work(RestoreRetryStep(s, p), r) <= Work(s, r) + 1
    ensures HasSchedule(RestoreRetryStep(s, p).db.rows, s.Sweeper(p).ex.Id())
  {
    assert SweeperOk(s.h, s.db.jobs, s.db.rows, SweeperAt(s.sweepers, p));
    StepKeeps(s, RestoreRetry(p));
    JobsStay(s, RestoreRetry(p));
    CalmOnce(s, RestoreRetry(p), r, o);
    RestoreRetryWork(s, p, r);
  }

  /** After a failed publication: the schedule is put back, claimed again and published. */
  lemma {:induction false} BouncedFalls(s: State, p: SweeperId, r: RunId, o: Outcome) returns (t: State)
    requires Alive(s, r) && s.Sweeper(p).Bounced? && s.Sweeper(p).ex.run == r
    ensures Falls(s, t, r, o)
  {
    RestoreStep(s, p, r, o);
    var u := RestoreRetryStep(s, p);
    var v, q := ScheduleFalls(u, s.Sweeper(p).ex.Id(), o);
    CalmKeepsAlive(u, v, r, o);
    t := TakenFalls(v, q, r, o);
    CalmJoin(s, u, v, r, o);
    CalmJoin(s, v, t, r, o);
  }

  // ---------------- messages ----------------

  lemma {:induction false} HeldJobStored(s: State, w: WorkerId, r: RunId)
    requires Alive(s, r) && WorksOn(s, w, r)
    ensures CanUpsert(s.db, s.Held(w))
  {
    assert MessageOk(s.h, s.db.jobs, s.db.keys, s.Held(w), s.Worker(w).id);
  }

  /** The action that brings a worker's message to its next stage. */
  function NextStage(s: State, w: WorkerId, o: Outcome): Action {
    match s.Worker(w)
    case Idle => Consume(w)
    case Fetched(_) => ReadJob(w)
    case Known(_) => CheckDuplicate(w)
    case Cleared(_) => PersistStarted(w, s.now)
    case Executing(_) => PersistFinal(w, o, s.now, s.now)
    case Finishing(_) => Ack(w)
  }

  /** A worker on the run can always go on: nothing refuses its writes while the job is stored. */
  lemma {:induction false} HolderFalls(s: State, w: WorkerId, r: RunId, o: Outcome) returns (t: State)
    requires Alive(s, r) && WorksOn(s, w, r) && !o.NotRegistered?
    ensures Falls(s, t, r, o)
  {
    HeldJobStored(s, w, r);
    assert Enabled(s, NextStage(s, w, o)) && Advances(s, NextStage(s, w, o), r);
    FallsAtOnce(s, NextStage(s, w, o), r, o);
    t := Apply(s, NextStage(s, w, o));
  }

  /** A message of the run waits at place `i`. */
  predicate ReadyAt(s: State, i: nat, r: RunId) {
    i < |s.q.ready| && s.q.ready[i] < |s.h.log| && s.h.log[s.q.ready[i]].run == r
  }

  lemma {:induction false} FreeWorker(s: State) returns (w: WorkerId)
    ensures w !in s.workers
  {
    w := Unused(s.workers.Keys);
  }

  lemma {:induction false} ReadyMovesUp(s: State, w: WorkerId, i: nat, r: RunId)
    requires ReadyAt(s, i, r) && i > 0
    ensures ReadyAt(ConsumeStep(s, w), i - 1, r)
  {
  }

  lemma {:induction false} ReadyFalls(s: State, i: nat, r: RunId, o: Outcome) returns (t: State)
    requires Alive(s, r) && ReadyAt(s, i, r)
    ensures Falls(s, t, r, o)
    decreases i, 1
  {
    if i == 0 {
      t := FrontFalls(s, r, o);
    } else {
      t := BehindFalls(s, i, r, o);
    }
  }

  lemma {:induction false} BehindFalls(s: State, i: nat, r: RunId, o: Outcome) returns (t: State)
    requires Alive(s, r) && ReadyAt(s, i, r) && i > 0
    ensures Falls(s, t, r, o)
    decreases i, 0
  {
    var u := ConsumeOne(s, i, r, o);
    t := ReadyFalls(u, i - 1, r, o);
    FallsJoin(s, u, t, r, o);
  }

  /** A free worker takes the message at the front, and the run's message moves up. */
  lemma {:induction false} ConsumeOne(s: State, i: nat, r: RunId, o: Outcome) returns (u: State)
    requires Alive(s, r) && ReadyAt(s, i, r) && i > 0
    ensures Alive(u, r) && CalmTo(s, u, r, o) && Work(u, r) <= Work(s, r) && ReadyAt(u, i - 1, r)
  {
    var w := FreeWorker(s);
    ConsumeCalmly(s, w, r, o);
    ReadyMovesUp(s, w, i, r);
    u := ConsumeStep(s, w);
  }

  lemma {:induction false} FrontFalls(s: State, r: RunId, o: Outcome) returns (t: State)
    requires Alive(s, r) && ReadyAt(s, 0, r)
    ensures Falls(s, t, r, o)
  {
    var w := FreeWorker(s);
    assert Enabled(s, Consume(w)) && Apply(s, Consume(w)) == ConsumeStep(s, w);
    FallsAtOnce(s, Consume(w), r, o);
    t := ConsumeStep(s, w);
  }

  lemma {:induction false} ConsumeCalmly(s: State, w: WorkerId, r: RunId, o: Outcome)
    requires Alive(s, r) && w !in s.workers && s.q.ready != []
    ensures Alive(ConsumeStep(s, w), r) && CalmTo(s, ConsumeStep(s, w), r, o)
    ensures Work(ConsumeStep(s, w), r) <= Work(s, r)
  {
    assert Enabled(s, Consume(w)) && Apply(s, Consume(w)) == ConsumeStep(s, w);
    CalmStep(s, Consume(w), r, o);
  }

  function Busy(s: State): set<WorkerId> { set w | w in s.workers && !s.workers[w].Idle? }

  lemma {:induction false} StopOther(s: State, w: WorkerId, r: RunId, o: Outcome)
    requires Alive(s, r) && !WorksOn(s, w, r)
    ensures Alive(s.SetWorker(w, Idle), r) && CalmTo(s, s.SetWorker(w, Idle), r, o)
    ensures Work(s.SetWorker(w, Idle), r) <= Work(s, r)
  {
    CalmStep(s, StopWorker(w), r, o);
  }

  /**
   A message of the run that no worker of the run holds: the others give way, its lease runs out, it is taken
   over.
   */
  lemma {:induction false} OrphanFalls(s: State, id: MessageId, r: RunId, o: Outcome) returns (t: State)
    requires Alive(s, r) && id in s.q.pending && id < |s.h.log| && s.h.log[id].run == r
    requires forall w :: !WorksOn(s, w, r)
    ensures Falls(s, t, r, o)
    decreases |Busy(s)|
  {
    if w :| w in Busy(s) {
      var u := s.SetWorker(w, Idle);
      assert Busy(u) == Busy(s) - {w};
      StopOther(s, w, r, o);
      forall v ensures !WorksOn(u, v, r) {
        assert v != w ==> u.Worker(v) == s.Worker(v) && !WorksOn(s, v, r);
      }
      t := OrphanFalls(u, id, r, o);
      FallsJoin(s, u, t, r, o);
    } else {
      t := IdleTakesOver(s, id, r, o);
    }
  }

  lemma {:induction false} IdleTakesOver(s: State, id: MessageId, r: RunId, o: Outcome) returns (t: State)
    requires Alive(s, r) && Busy(s) == {} && id in s.q.pending && id < |s.h.log| && s.h.log[id].run == r
    ensures Falls(s, t, r, o)
  {
    var ripe := s.q.pending[id].deliveredAt + s.minStale - s.now;
    var dt := if ripe > 0 then ripe else 0;
    NobodyIsBusy(s, dt);
    AdvanceCalmly(s, dt, r, o);
    var u := s.(now := s.now + dt);
    TakeOverFalls(u, id, r, o);
    t := TakeOverStep(u, 0, id);
    FallsJoin(s, u, t, r, o);
  }

  lemma {:induction false} NobodyIsBusy(s: State, dt: Time)
    requires Busy(s) == {} && dt >= 0
    ensures CanAdvance(s, dt) && s.Worker(0).Idle?
  {
    forall w | w in s.workers ensures s.Worker(w).Idle? {
      assert !s.workers[w].Idle? ==> w in Busy(s);
    }
  }

  lemma {:induction false} AdvanceCalmly(s: State, dt: Time, r: RunId, o: Outcome)
    requires Alive(s, r) && CanAdvance(s, dt)
    ensures var t := s.(now := s.now + dt);
      Alive(t, r) && CalmTo(s, t, r, o) && Work(t, r) <= Work(s, r)
  {
    assert Enabled(s, Advance(dt)) && Apply(s, Advance(dt)) == s.(now := s.now + dt);
    CalmStep(s, Advance(dt), r, o);
  }

  lemma {:induction false} TakeOverFalls(s: State, id: MessageId, r: RunId, o: Outcome)
    requires Alive(s, r) && s.Worker(0).Idle? && id in s.q.pending && id < |s.h.log| && s.h.log[id].run == r
    requires s.now - s.q.pending[id].deliveredAt >= s.minStale
    ensures Falls(s, TakeOverStep(s, 0, id), r, o)
  {
    FallsAtOnce(s, TakeOver(0, id, s.minStale), r, o);
  }

  lemma {:induction false} MessageFalls(s: State, id: MessageId, r: RunId, o: Outcome) returns (t: State)
    requires Alive(s, r) && id < |s.h.log| && s.h.log[id].run == r && s.q.Outstanding(id) && !o.NotRegistered?
    ensures Falls(s, t, r, o)
  {
    if w :| WorksOn(s, w, r) {
      t := HolderFalls(s, w, r, o);
    } else if id in s.q.pending {
      t := OrphanFalls(s, id, r, o);
    } else {
      var i :| 0 <= i < |s.q.ready| && s.q.ready[i] == id;
      t := ReadyFalls(s, i, r, o);
    }
  }

  // ---------------- the end of a run ----------------

  lemma {:induction false} FlightFalls(s: State, p: SweeperId, r: RunId, o: Outcome) returns (t: State)
    requires Alive(s, r) && InFlight(s.Sweeper(p)) && s.Sweeper(p).ex.run == r
    ensures Falls(s, t, r, o)
  {
    if s.Sweeper(p).Taken? {
      t := TakenFalls(s, p, r, o);
    } else {
      t := BouncedFalls(s, p, r, o);
    }
  }

  /**
   Work that is left can be done: while the run's job is stored, a calm run of the system leads to a state
   with strictly less work, whatever outcome its attempts are to have.
   */
  lemma {:induction false} WorkCanFall(s: State, r: RunId, o: Outcome) returns (t: State)
    requires Alive(s, r) && Work(s, r) > 0 && !o.NotRegistered?
    ensures Falls(s, t, r, o)
  {
    RestIffNoWork(s, r);
    if id :| 0 <= id < |s.h.log| && s.h.log[id].run == r && s.q.Outstanding(id) {
      t := MessageFalls(s, id, r, o);
    } else if a :| HasSchedule(s.db.rows, a) && a.run == r {
      var u, _ := ScheduleFalls(s, a, o);
      t := u;
    } else if a :| Carried(s.sweepers, a) && a.run == r {
      var p :| InFlight(SweeperAt(s.sweepers, p)) && SweeperAt(s.sweepers, p).ex.Id() == a;
      t := FlightFalls(s, p, r, o);
    } else {
      var d :| Claiming(DispatcherAt(s.dispatchers, d)) && DispatcherAt(s.dispatchers, d).run == r;
      t := DrawnFalls(s, d, r, o);
    }
  }

  lemma {:induction false} ComesToRest(s: State, r: RunId, o: Outcome) returns (t: State)
    requires Alive(s, r) && !o.NotRegistered?
    ensures CalmTo(s, t, r, o) && Alive(t, r) && AtRest(t, r)
    decreases Work(s, r)
  {
    if Work(s, r) == 0 {
      RestIffNoWork(s, r);
      CalmStay(s, r, o);
      t := s;
    } else {
      var u := WorkCanFall(s, r, o);
      CalmKeepsAlive(s, u, r, o);
      t := ComesToRest(u, r, o);
      CalmJoin(s, u, t, r, o);
    }
  }

  /**
   Every run can be finished: from every reachable state in which its job is stored, and for every way its
   attempts may end, some run of the system in which nothing goes wrong for it brings it to rest.
   */
  lemma {:induction false} EveryRunCanFinish(s: State, r: RunId, o: Outcome)
    requires Reachable(s) && r in s.h.runs && s.h.runs[r] in s.db.jobs && !o.NotRegistered?
    ensures exists t :: CalmTo(s, t, r, o) && AtRest(t, r)
  {
    ReachableInv(s);
    var t := ComesToRest(s, r, o);
  }
}
