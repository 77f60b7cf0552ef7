/** The inductive invariant of queue mode, and its preservation by every action. */
module Invariant {
  import opened Common
  import opened StateMachine
  import opened Repositories
  import opened Protocol
  import Recovery

  ghost predicate RegistryOk(h: History, jobs: set<JobId>) {
    && (forall j :: j in jobs ==> j in h.policies)
    && (forall j :: j in h.policies ==> h.policies[j] >= 1)
    && (forall r :: r in h.runs ==> h.runs[r] in h.policies)
  }

  /** The published ids are split between ready (in publishing order), pending and acked. */
  ghost predicate QueueOk(n: nat, q: Queue) {
    && (forall i, j :: 0 <= i < j < |q.ready| ==> q.ready[i] < q.ready[j])
    && (forall id :: id in q.ready ==> id < n && id !in q.pending && id !in q.acked)
    && (forall id :: id in q.pending ==> id < n && id !in q.acked)
    && (forall id :: id in q.acked ==> id < n)
    && (forall id :: 0 <= id < n ==> id in q.ready || id in q.pending || id in q.acked)
  }

  ghost predicate MessageOk(h: History, jobs: set<JobId>, keys: map<SlotKey, RunId>, m: Message, id: MessageId) {
    && 1 <= m.attempt <= h.MaxAttempts(m.job)
    && m.run in h.runs && h.runs[m.run] == m.job
    && m.Id() in h.sent && h.sent[m.Id()] == id
    && (m.key.Some? <==> m.attempt == 1)
    && (m.key.Some? ==>
          var k := m.key.value;
          && k.job == m.job && k in h.slots && h.slots[k] == id
          && (m.job in jobs ==> k in keys && keys[k] == m.run))
  }

  ghost predicate LogOk(h: History, jobs: set<JobId>, keys: map<SlotKey, RunId>) {
    forall id :: 0 <= id < |h.log| ==> MessageOk(h, jobs, keys, h.log[id], id)
  }

  /** The attempt failed for a retry whose schedule a sweeper has taken. */
  predicate Relayed(t: Table, a: Attempt) {
    a in t && t[a].status.Retrying? && t[a].nextRetryAt.None?
  }

  /** An attempt was published after the one before it was relayed. */
  ghost predicate SentAttemptOk(h: History, jobs: set<JobId>, rows: Table, a: Attempt, id: MessageId) {
    && id < |h.log| && h.log[id].Id() == a
    && (a.number > 1 ==> Attempt(a.run, a.number - 1) in h.sent)
    && (a.number > 1 && h.log[id].job in jobs ==> Relayed(rows, Attempt(a.run, a.number - 1)))
  }

  ghost predicate SentOk(h: History, jobs: set<JobId>, rows: Table) {
    forall a {:trigger SentAttemptOk(h, jobs, rows, a, h.sent[a])} :: a in h.sent ==>
      SentAttemptOk(h, jobs, rows, a, h.sent[a])
  }

  ghost predicate SlotsOk(h: History) {
    forall k :: k in h.slots ==> h.slots[k] < |h.log| && h.log[h.slots[k]].key == Some(k)
  }

  ghost predicate RowOk(h: History, jobs: set<JobId>, a: Attempt, ex: Execution) {
    && ex.Id() == a && a in h.sent
    && a.run in h.runs && h.runs[a.run] == ex.job && ex.job in jobs
    && !ex.status.Pending?
    && (ex.status.Retrying? ==> a.number < h.MaxAttempts(ex.job))
    && (ex.nextRetryAt.Some? ==> ex.status.Retrying? && a.Next() !in h.sent)
  }

  ghost predicate RowsOk(h: History, jobs: set<JobId>, rows: Table) {
    forall a {:trigger RowOk(h, jobs, a, rows[a])} :: a in rows ==> RowOk(h, jobs, a, rows[a])
  }

  ghost predicate KeysOk(h: History, jobs: set<JobId>, keys: map<SlotKey, RunId>) {
    forall k :: k in keys ==> k.job in jobs && keys[k] in h.runs && h.runs[keys[k]] == k.job
  }

  ghost predicate AckedOk(log: seq<Message>, db: Database, q: Queue) {
    forall id :: id in q.acked && id < |log| ==> db.Handled(log[id])
  }

  /** What a worker may rely on at each stage, whatever the others do meanwhile. */
  ghost predicate StageOk(db: Database, m: Message, pc: WorkerPc) {
    && (pc.Cleared? ==> !db.HandledAttempt(m.Id()))
    && (pc.Executing? ==>
          if m.Id() in db.rows then db.rows[m.Id()].status.Running? else m.job !in db.jobs)
    && (pc.Finishing? ==> db.Handled(m))
  }

  /** The worker's lease on its message is its own and has not run out. */
  ghost predicate LeaseOk(s: State, w: WorkerId, id: MessageId) {
    s.q.RenewSucceeds(w, id) && s.now - s.q.pending[id].deliveredAt < s.minStale
  }

  ghost predicate WorkerOk(s: State, w: WorkerId, pc: WorkerPc) {
    !pc.Idle? ==> pc.id < |s.h.log| && LeaseOk(s, w, pc.id) && StageOk(s.db, s.h.log[pc.id], pc)
  }

  ghost predicate WorkersOk(s: State) { forall w :: WorkerOk(s, w, s.Worker(w)) }

  ghost predicate SnapshotOk(h: History, ex: Execution) {
    ex.attempt >= 1 && ex.run in h.runs && h.runs[ex.run] == ex.job && ex.nextRetryAt.Some?
  }

  /** A schedule was cleared for a message that is not published yet. */
  predicate InFlight(pc: SweeperPc) { pc.Taken? || pc.Bounced? }

  function Waiting(pc: SweeperPc): seq<Execution> { if pc.Listed? then pc.due else pc.rest }

  ghost predicate FlightOk(h: History, jobs: set<JobId>, rows: Table, ex: Execution) {
    && ex.Id() in h.sent && ex.Id().Next() !in h.sent && ex.attempt < h.MaxAttempts(ex.job)
    && (if ex.Id() in rows then Relayed(rows, ex.Id()) else ex.job !in jobs)
  }

  ghost predicate SweeperOk(h: History, jobs: set<JobId>, rows: Table, pc: SweeperPc) {
    && (forall ex :: ex in Waiting(pc) ==> SnapshotOk(h, ex))
    && (InFlight(pc) ==> SnapshotOk(h, pc.ex) && FlightOk(h, jobs, rows, pc.ex))
  }

  predicate SameFlight(c: SweeperPc, e: SweeperPc) {
    InFlight(c) && InFlight(e) && c.ex.Id() == e.ex.Id()
  }

  ghost predicate SweepersOk(h: History, jobs: set<JobId>, rows: Table, m: map<SweeperId, SweeperPc>) {
    && (forall p :: SweeperOk(h, jobs, rows, SweeperAt(m, p)))
    && (forall p, q :: SameFlight(SweeperAt(m, p), SweeperAt(m, q)) ==> p == q)
  }

  /** An attempt that is being executed has no successor yet, published or about to be. */
  ghost predicate ExecutionOk(log: seq<Message>, sent: map<Attempt, MessageId>,
                              sweepers: map<SweeperId, SweeperPc>, pc: WorkerPc) {
    pc.Executing? && pc.id < |log| ==>
      && log[pc.id].Id().Next() !in sent
      && forall p :: InFlight(SweeperAt(sweepers, p)) ==> SweeperAt(sweepers, p).ex.Id() != log[pc.id].Id()
  }

  ghost predicate ExecutionsOk(log: seq<Message>, sent: map<Attempt, MessageId>,
                               sweepers: map<SweeperId, SweeperPc>, workers: map<WorkerId, WorkerPc>) {
    forall w :: ExecutionOk(log, sent, sweepers, WorkerAt(workers, w))
  }

  /** A dispatcher drew a run for a slot and has not published it. */
  predicate Claiming(pc: DispatcherPc) { pc.Claimed? || pc.Refused? }

  ghost predicate DispatcherOk(h: History, jobs: set<JobId>, keys: map<SlotKey, RunId>, pc: DispatcherPc) {
    && (Claiming(pc) ==>
          && pc.run in h.runs && h.runs[pc.run] == pc.key.job
          && Attempt(pc.run, 1) !in h.sent && pc.key !in h.slots
          && (pc.key.job in jobs ==> pc.key in keys && keys[pc.key] == pc.run))
    && (pc.Announced? ==>
          pc.run in h.runs && h.runs[pc.run] == pc.job && Attempt(pc.run, 1) in h.sent)
  }

  predicate Clash(c: DispatcherPc, e: DispatcherPc) {
    Claiming(c) && Claiming(e) && (c.key == e.key || c.run == e.run)
  }

  ghost predicate DispatchersOk(h: History, jobs: set<JobId>, keys: map<SlotKey, RunId>,
                                m: map<DispatcherId, DispatcherPc>) {
    && (forall d :: DispatcherOk(h, jobs, keys, DispatcherAt(m, d)))
    && (forall d, e :: Clash(DispatcherAt(m, d), DispatcherAt(m, e)) ==> d == e)
  }

  /** What the tables and the history owe each other. */
  ghost predicate StoreOk(h: History, db: Database) {
    && RegistryOk(h, db.jobs) && LogOk(h, db.jobs, db.keys) && SentOk(h, db.jobs, db.rows) && SlotsOk(h)
    && RowsOk(h, db.jobs, db.rows) && KeysOk(h, db.jobs, db.keys)
  }

  ghost predicate Inv(s: State) {
    && s.minStale > 0
    && StoreOk(s.h, s.db) && QueueOk(|s.h.log|, s.q) && AckedOk(s.h.log, s.db, s.q)
    && WorkersOk(s) && ExecutionsOk(s.h.log, s.h.sent, s.sweepers, s.workers)
    && SweepersOk(s.h, s.db.jobs, s.db.rows, s.sweepers)
    && DispatchersOk(s.h, s.db.jobs, s.db.keys, s.dispatchers)
  }

  lemma {:induction false} InitInv(s: State)
    requires Init(s)
    ensures Inv(s)
  {
  }

  // ---------------- the queue ----------------

  lemma {:induction false} PopKeepsQueue(n: nat, q: Queue, lease: Lease)
    requires QueueOk(n, q) && q.ready != []
    ensures QueueOk(n, q.(ready := q.ready[1..], pending := q.pending[q.ready[0] := lease]))
  {
    var r := q.ready[1..];
    assert q.ready[0] in q.ready;
    forall id | id in r ensures id in q.ready && id != q.ready[0] {
      var i :| 0 <= i < |r| && r[i] == id;
      assert q.ready[0] < q.ready[i + 1];
    }
    assert forall id :: id in q.ready ==> id == q.ready[0] || id in r;
  }

  lemma {:induction false} PushKeepsQueue(n: nat, q: Queue)
    requires QueueOk(n, q)
    ensures QueueOk(n + 1, q.(ready := q.ready + [n]))
  {
    var r := q.ready + [n];
    assert r[|q.ready|] == n;
    forall i, j | 0 <= i < j < |r| ensures r[i] < r[j] {
      assert q.ready[i] in q.ready;
    }
    assert forall id :: id in r <==> id in q.ready || id == n;
  }

  lemma {:induction false} ExecutionUpdate(s: State, w: WorkerId, pc: WorkerPc)
    requires ExecutionsOk(s.h.log, s.h.sent, s.sweepers, s.workers)
    requires ExecutionOk(s.h.log, s.h.sent, s.sweepers, pc)
    ensures ExecutionsOk(s.h.log, s.h.sent, s.sweepers, s.workers[w := pc])
  {
    var m := s.workers[w := pc];
    forall v ensures ExecutionOk(s.h.log, s.h.sent, s.sweepers, WorkerAt(m, v)) {
      assert v != w ==> ExecutionOk(s.h.log, s.h.sent, s.sweepers, WorkerAt(s.workers, v));
    }
  }

  lemma {:induction false} AdvanceKeeps(s: State, dt: Time)
    requires Inv(s) && CanAdvance(s, dt)
    ensures Inv(s.(now := s.now + dt))
  {
    var t := s.(now := s.now + dt);
    forall v ensures WorkerOk(t, v, t.Worker(v)) {
      assert WorkerOk(s, v, s.Worker(v));
    }
  }

  lemma {:induction false} ConsumeKeeps(s: State, w: WorkerId)
    requires Inv(s) && s.Worker(w).Idle? && s.q.ready != []
    ensures Inv(ConsumeStep(s, w))
  {
    var t := ConsumeStep(s, w);
    ExecutionUpdate(s, w, Fetched(s.q.ready[0]));
    assert s.q.ready[0] in s.q.ready;
    PopKeepsQueue(|s.h.log|, s.q, Lease(w, s.now, 1));
    forall v ensures WorkerOk(t, v, t.Worker(v)) {
      assert WorkerOk(s, v, s.Worker(v));
    }
  }

  /** A takeover never hits a message that a live worker holds. */
  lemma {:induction false} TakeOverHitsNoLiveHolder(s: State, w: WorkerId, id: MessageId, stale: Time, v: WorkerId)
    requires Inv(s) && CanTakeOver(s, w, id, stale)
    ensures !s.Worker(v).Idle? ==> s.Worker(v).id != id
  {
    assert WorkerOk(s, v, s.Worker(v));
  }

  lemma {:induction false} TakeOverKeeps(s: State, w: WorkerId, id: MessageId, stale: Time)
    requires Inv(s) && CanTakeOver(s, w, id, stale)
    ensures Inv(TakeOverStep(s, w, id))
  {
    var t := TakeOverStep(s, w, id);
    ExecutionUpdate(s, w, Fetched(id));
    forall v ensures WorkerOk(t, v, t.Worker(v)) {
      assert WorkerOk(s, v, s.Worker(v));
      TakeOverHitsNoLiveHolder(s, w, id, stale, v);
    }
  }

  lemma {:induction false} RenewKeeps(s: State, w: WorkerId)
    requires Inv(s) && !s.Worker(w).Idle?
    ensures Inv(RenewStep(s, w))
  {
    var t := RenewStep(s, w);
    forall v ensures WorkerOk(t, v, t.Worker(v)) {
      assert WorkerOk(s, v, s.Worker(v));
    }
  }

  lemma {:induction false} AckKeeps(s: State, w: WorkerId)
    requires Inv(s) && s.Worker(w).Finishing?
    ensures Inv(AckStep(s, w))
  {
    var t := AckStep(s, w);
    ExecutionUpdate(s, w, Idle);
    assert WorkerOk(s, w, s.Worker(w));
    forall v ensures WorkerOk(t, v, t.Worker(v)) {
      assert WorkerOk(s, v, s.Worker(v));
    }
  }

  // ---------------- one process moves, nothing else changes ----------------

  lemma {:induction false} SetWorkerKeeps(s: State, w: WorkerId, pc: WorkerPc)
    requires Inv(s) && WorkerOk(s, w, pc) && ExecutionOk(s.h.log, s.h.sent, s.sweepers, pc)
    ensures Inv(s.SetWorker(w, pc))
  {
    var t := s.SetWorker(w, pc);
    ExecutionUpdate(s, w, pc);
    forall v ensures WorkerOk(t, v, t.Worker(v)) {
      assert WorkerOk(s, v, s.Worker(v));
    }
  }

  /** Workers are indifferent to keys, to other processes and to new messages. */
  lemma {:induction false} WorkersFrame(s: State, t: State)
    requires WorkersOk(s) && s.h.log <= t.h.log
    requires t.minStale == s.minStale && t.now == s.now && t.q.pending == s.q.pending && t.workers == s.workers
    requires t.db.jobs == s.db.jobs && t.db.rows == s.db.rows
    ensures WorkersOk(t)
  {
    forall v ensures WorkerOk(t, v, t.Worker(v)) {
      assert WorkerOk(s, v, s.Worker(v));
    }
  }

  lemma {:induction false} SweeperUpdate(h: History, jobs: set<JobId>, rows: Table, m: map<SweeperId, SweeperPc>,
                      p: SweeperId, pc: SweeperPc)
    requires SweepersOk(h, jobs, rows, m) && SweeperOk(h, jobs, rows, pc)
    requires forall q :: q != p ==> !SameFlight(pc, SweeperAt(m, q))
    ensures SweepersOk(h, jobs, rows, m[p := pc])
  {
    var m' := m[p := pc];
    forall q ensures SweeperOk(h, jobs, rows, SweeperAt(m', q)) {
      assert q != p ==> SweeperOk(h, jobs, rows, SweeperAt(m, q));
    }
    forall q, r | SameFlight(SweeperAt(m', q), SweeperAt(m', r)) ensures q == r {
      assert SameFlight(SweeperAt(m, q), SweeperAt(m, r)) ==> q == r;
      assert q != p ==> !SameFlight(pc, SweeperAt(m, q));
      assert r != p ==> !SameFlight(pc, SweeperAt(m, r));
    }
  }

  lemma {:induction false} SetSweeperKeeps(s: State, p: SweeperId, pc: SweeperPc)
    requires Inv(s) && SweeperOk(s.h, s.db.jobs, s.db.rows, pc)
    requires forall q :: q != p ==> !SameFlight(pc, SweeperAt(s.sweepers, q))
    requires InFlight(pc) ==> forall w :: s.Worker(w).Executing? && s.Holds(w) ==> s.Held(w).Id() != pc.ex.Id()
    ensures Inv(s.SetSweeper(p, pc))
  {
    var m := s.sweepers[p := pc];
    forall w ensures ExecutionOk(s.h.log, s.h.sent, m, WorkerAt(s.workers, w)) {
      assert ExecutionOk(s.h.log, s.h.sent, s.sweepers, WorkerAt(s.workers, w));
      assert s.Worker(w) == WorkerAt(s.workers, w);
      assert forall q :: SweeperAt(m, q) == if q == p then pc else SweeperAt(s.sweepers, q);
    }
    WorkersFrame(s, s.SetSweeper(p, pc));
    SweeperUpdate(s.h, s.db.jobs, s.db.rows, s.sweepers, p, pc);
  }

  lemma {:induction false} DispatcherUpdate(h: History, jobs: set<JobId>, keys: map<SlotKey, RunId>,
                         m: map<DispatcherId, DispatcherPc>, d: DispatcherId, pc: DispatcherPc)
    requires DispatchersOk(h, jobs, keys, m) && DispatcherOk(h, jobs, keys, pc)
    requires forall e :: e != d ==> !Clash(pc, DispatcherAt(m, e))
    ensures DispatchersOk(h, jobs, keys, m[d := pc])
  {
    var m' := m[d := pc];
    forall e ensures DispatcherOk(h, jobs, keys, DispatcherAt(m', e)) {
      assert e != d ==> DispatcherOk(h, jobs, keys, DispatcherAt(m, e));
    }
    forall e, f | Clash(DispatcherAt(m', e), DispatcherAt(m', f)) ensures e == f {
      assert Clash(DispatcherAt(m, e), DispatcherAt(m, f)) ==> e == f;
      assert e != d ==> !Clash(pc, DispatcherAt(m, e));
      assert f != d ==> !Clash(pc, DispatcherAt(m, f));
    }
  }

  lemma {:induction false} SetDispatcherKeeps(s: State, d: DispatcherId, pc: DispatcherPc)
    requires Inv(s) && DispatcherOk(s.h, s.db.jobs, s.db.keys, pc)
    requires forall e :: e != d ==> !Clash(pc, DispatcherAt(s.dispatchers, e))
    ensures Inv(s.SetDispatcher(d, pc))
  {
    WorkersFrame(s, s.SetDispatcher(d, pc));
    DispatcherUpdate(s.h, s.db.jobs, s.db.keys, s.dispatchers, d, pc);
  }

  // ---------------- one message is published ----------------

  /** The message may be appended to the history: it is new, and it follows from what is stored. */
  ghost predicate Publishable(h: History, db: Database, m: Message) {
    && 1 <= m.attempt <= h.MaxAttempts(m.job) && m.Id() !in h.sent
    && m.run in h.runs && h.runs[m.run] == m.job
    && (m.key.Some? <==> m.attempt == 1)
    && (m.key.Some? ==>
          var k := m.key.value;
          k.job == m.job && k !in h.slots && (m.job in db.jobs ==> k in db.keys && db.keys[k] == m.run))
    && (m.attempt > 1 ==> Attempt(m.run, m.attempt - 1) in h.sent)
    && (m.attempt > 1 && m.job in db.jobs ==> Relayed(db.rows, Attempt(m.run, m.attempt - 1)))
  }

  /** What the history says about a published attempt. */
  lemma {:induction false} SentMessage(h: History, db: Database, a: Attempt)
    requires LogOk(h, db.jobs, db.keys) && SentOk(h, db.jobs, db.rows) && a in h.sent
    ensures h.sent[a] < |h.log| && h.log[h.sent[a]].Id() == a
    ensures MessageOk(h, db.jobs, db.keys, h.log[h.sent[a]], h.sent[a])
    ensures SentAttemptOk(h, db.jobs, db.rows, a, h.sent[a])
  {
    assert SentAttemptOk(h, db.jobs, db.rows, a, h.sent[a]);
  }

  lemma {:induction false} PublishKeepsLog(h: History, db: Database, m: Message)
    requires LogOk(h, db.jobs, db.keys) && Publishable(h, db, m)
    ensures LogOk(h.Publish(m), db.jobs, db.keys)
  {
    var g := h.Publish(m);
    forall id | 0 <= id < |g.log| ensures MessageOk(g, db.jobs, db.keys, g.log[id], id) {
      if id < |h.log| {
        assert MessageOk(h, db.jobs, db.keys, h.log[id], id);
      }
    }
  }

  lemma {:induction false} PublishKeepsSent(h: History, db: Database, m: Message)
    requires SentOk(h, db.jobs, db.rows) && SlotsOk(h) && Publishable(h, db, m)
    ensures SentOk(h.Publish(m), db.jobs, db.rows) && SlotsOk(h.Publish(m))
  {
    var g := h.Publish(m);
    forall a | a in g.sent ensures SentAttemptOk(g, db.jobs, db.rows, a, g.sent[a]) {
      if a != m.Id() {
        assert SentAttemptOk(h, db.jobs, db.rows, a, h.sent[a]);
      }
    }
  }

  /** No row with a schedule waits for a message that is publishable. */
  lemma {:induction false} PublishableIsNotScheduled(h: History, db: Database, m: Message, a: Attempt)
    requires StoreOk(h, db) && Publishable(h, db, m) && HasSchedule(db.rows, a)
    ensures a.Next() != m.Id()
  {
    assert RowOk(h, db.jobs, a, db.rows[a]);
    SentMessage(h, db, a);
  }

  lemma {:induction false} PublishKeepsRows(h: History, db: Database, m: Message)
    requires StoreOk(h, db) && Publishable(h, db, m)
    ensures RowsOk(h.Publish(m), db.jobs, db.rows)
  {
    var g := h.Publish(m);
    assert g.sent == h.sent[m.Id() := |h.log|] && g.runs == h.runs && g.policies == h.policies;
    forall a | a in db.rows ensures RowOk(g, db.jobs, a, db.rows[a]) {
      assert RowOk(h, db.jobs, a, db.rows[a]);
      if HasSchedule(db.rows, a) {
        PublishableIsNotScheduled(h, db, m, a);
      }
    }
  }

  lemma {:induction false} PublishKeepsExecutions(s: State, m: Message)
    requires Inv(s)
    requires forall w :: s.Worker(w).Executing? && s.Holds(w) ==> s.Held(w).Id().Next() != m.Id()
    ensures ExecutionsOk(s.h.Publish(m).log, s.h.Publish(m).sent, s.sweepers, s.workers)
  {
    forall w ensures ExecutionOk(s.h.Publish(m).log, s.h.Publish(m).sent, s.sweepers, WorkerAt(s.workers, w)) {
      assert ExecutionOk(s.h.log, s.h.sent, s.sweepers, WorkerAt(s.workers, w));
      assert WorkerOk(s, w, s.Worker(w));
    }
  }

  lemma {:induction false} PublishKeeps(s: State, m: Message)
    requires Inv(s) && Publishable(s.h, s.db, m)
    requires forall p :: InFlight(SweeperAt(s.sweepers, p)) ==>
               SweeperAt(s.sweepers, p).ex.Id().Next() != m.Id()
    requires forall d :: Claiming(DispatcherAt(s.dispatchers, d)) ==>
               && Attempt(DispatcherAt(s.dispatchers, d).run, 1) != m.Id()
               && Some(DispatcherAt(s.dispatchers, d).key) != m.key
    requires forall w :: s.Worker(w).Executing? && s.Holds(w) ==> s.Held(w).Id().Next() != m.Id()
    ensures Inv(s.Publish(m))
  {
    var t := s.Publish(m);
    PublishKeepsExecutions(s, m);
    PublishKeepsLog(s.h, s.db, m);
    PublishKeepsSent(s.h, s.db, m);
    PublishKeepsRows(s.h, s.db, m);
    PushKeepsQueue(|s.h.log|, s.q);
    WorkersFrame(s, t);
    forall p ensures SweeperOk(t.h, t.db.jobs, t.db.rows, SweeperAt(t.sweepers, p)) {
      assert SweeperOk(s.h, s.db.jobs, s.db.rows, SweeperAt(s.sweepers, p));
    }
    forall d ensures DispatcherOk(t.h, t.db.jobs, t.db.keys, DispatcherAt(t.dispatchers, d)) {
      assert DispatcherOk(s.h, s.db.jobs, s.db.keys, DispatcherAt(s.dispatchers, d));
    }
  }

  // ---------------- one row is written ----------------

  lemma {:induction false} SetRowKeepsSent(h: History, db: Database, a: Attempt, ex: Execution)
    requires LogOk(h, db.jobs, db.keys) && SentOk(h, db.jobs, db.rows)
    requires a.Next() in h.sent ==> ex.status.Retrying? && ex.nextRetryAt.None?
    ensures SentOk(h, db.jobs, db.rows[a := ex])
  {
    forall b | b in h.sent ensures SentAttemptOk(h, db.jobs, db.rows[a := ex], b, h.sent[b]) {
      SentMessage(h, db, b);
      assert b.number > 1 && Attempt(b.run, b.number - 1) == a ==> b == a.Next();
    }
  }

  lemma {:induction false} SetRowKeepsRows(h: History, jobs: set<JobId>, rows: Table, a: Attempt, ex: Execution)
    requires RowsOk(h, jobs, rows) && RowOk(h, jobs, a, ex)
    ensures RowsOk(h, jobs, rows[a := ex])
  {
    var t := rows[a := ex];
    forall b | b in t ensures RowOk(h, jobs, b, t[b]) {
      assert b != a ==> RowOk(h, jobs, b, rows[b]);
    }
  }

  /** Two messages for the same attempt are the same message. */
  lemma {:induction false} AttemptsAreDistinct(s: State, i: MessageId, j: MessageId)
    requires Inv(s) && i < |s.h.log| && j < |s.h.log| && s.h.log[i].Id() == s.h.log[j].Id()
    ensures i == j
  {
    assert MessageOk(s.h, s.db.jobs, s.db.keys, s.h.log[i], i);
    assert MessageOk(s.h, s.db.jobs, s.db.keys, s.h.log[j], j);
  }

  lemma {:induction false} SetRowKeepsAcked(s: State, a: Attempt, ex: Execution)
    requires LogOk(s.h, s.db.jobs, s.db.keys) && AckedOk(s.h.log, s.db, s.q) && a in s.h.sent
    requires s.h.sent[a] in s.q.acked ==> ex.status.IsHandled()
    ensures AckedOk(s.h.log, s.db.(rows := s.db.rows[a := ex]), s.q)
  {
    forall id | id in s.q.acked && id < |s.h.log|
      ensures s.db.(rows := s.db.rows[a := ex]).Handled(s.h.log[id])
    {
      assert s.db.Handled(s.h.log[id]);
      assert MessageOk(s.h, s.db.jobs, s.db.keys, s.h.log[id], id);
    }
  }

  lemma {:induction false} SetRowKeepsWorkers(s: State, a: Attempt, ex: Execution)
    requires WorkersOk(s)
    requires forall v :: s.Holds(v) && s.Held(v).Id() == a ==>
               StageOk(s.db.(rows := s.db.rows[a := ex]), s.Held(v), s.Worker(v))
    ensures WorkersOk(s.SetRows(s.db.rows[a := ex]))
  {
    var t := s.SetRows(s.db.rows[a := ex]);
    forall v ensures WorkerOk(t, v, t.Worker(v)) {
      assert WorkerOk(s, v, s.Worker(v));
      assert s.Holds(v) && s.Held(v).Id() == a ==> StageOk(t.db, s.Held(v), s.Worker(v));
    }
  }

  lemma {:induction false} SetRowKeepsSweepers(h: History, jobs: set<JobId>, rows: Table, m: map<SweeperId, SweeperPc>,
                            a: Attempt, ex: Execution)
    requires SweepersOk(h, jobs, rows, m)
    requires forall p :: InFlight(SweeperAt(m, p)) && SweeperAt(m, p).ex.Id() == a ==>
               ex.status.Retrying? && ex.nextRetryAt.None?
    ensures SweepersOk(h, jobs, rows[a := ex], m)
  {
    forall p ensures SweeperOk(h, jobs, rows[a := ex], SweeperAt(m, p)) {
      assert SweeperOk(h, jobs, rows, SweeperAt(m, p));
    }
  }

  /** A row may be rewritten when nobody relies on what it said. */
  lemma {:induction false} SetRowKeeps(s: State, a: Attempt, ex: Execution)
    requires Inv(s) && RowOk(s.h, s.db.jobs, a, ex)
    requires a.Next() in s.h.sent ==> ex.status.Retrying? && ex.nextRetryAt.None?
    requires s.h.sent[a] in s.q.acked ==> ex.status.IsHandled()
    requires forall v :: s.Holds(v) && s.Held(v).Id() == a ==>
               StageOk(s.db.(rows := s.db.rows[a := ex]), s.Held(v), s.Worker(v))
    requires forall p :: InFlight(SweeperAt(s.sweepers, p)) && SweeperAt(s.sweepers, p).ex.Id() == a ==>
               ex.status.Retrying? && ex.nextRetryAt.None?
    ensures Inv(s.SetRows(s.db.rows[a := ex]))
  {
    SetRowKeepsSent(s.h, s.db, a, ex);
    SetRowKeepsRows(s.h, s.db.jobs, s.db.rows, a, ex);
    SetRowKeepsAcked(s, a, ex);
    SetRowKeepsWorkers(s, a, ex);
    SetRowKeepsSweepers(s.h, s.db.jobs, s.db.rows, s.sweepers, a, ex);
  }

  // ---------------- worker ----------------

  lemma {:induction false} ReadJobKeeps(s: State, w: WorkerId)
    requires Inv(s) && s.Worker(w).Fetched? && s.Holds(w)
    ensures Inv(ReadJobStep(s, w))
  {
    assert WorkerOk(s, w, s.Worker(w));
    SetWorkerKeeps(s, w, ReadJobStep(s, w).Worker(w));
  }

  /** The owner check of a worker never fires: a published key still belongs to its run. */
  lemma {:induction false} KeyNeverOwnedByOther(s: State, id: MessageId)
    requires Inv(s) && id < |s.h.log|
    ensures !OwnedByOther(s.db, s.h.log[id])
  {
    assert MessageOk(s.h, s.db.jobs, s.db.keys, s.h.log[id], id);
    var m := s.h.log[id];
    assert m.key.Some? && m.key.value in s.db.keys ==> m.key.value.job in s.db.jobs;
  }

  lemma {:induction false} CheckDuplicateKeeps(s: State, w: WorkerId)
    requires Inv(s) && s.Worker(w).Known? && s.Holds(w)
    ensures Inv(CheckDuplicateStep(s, w))
  {
    assert WorkerOk(s, w, s.Worker(w));
    KeyNeverOwnedByOther(s, s.Worker(w).id);
    SetWorkerKeeps(s, w, CheckDuplicateStep(s, w).Worker(w));
  }

  /** While a worker may write its attempt's row, nobody else relies on that row. */
  lemma {:induction false} HolderAlone(s: State, w: WorkerId)
    requires Inv(s) && s.Holds(w) && (s.Worker(w).Cleared? || s.Worker(w).Executing?)
    requires CanUpsert(s.db, s.Held(w))
    ensures var a := s.Held(w).Id();
      && a in s.h.sent && s.h.sent[a] == s.Worker(w).id && s.h.sent[a] !in s.q.acked
      && s.Held(w).job in s.db.jobs && !s.db.HandledAttempt(a) && a.Next() !in s.h.sent
      && (forall v :: s.Holds(v) && s.Held(v).Id() == a ==> v == w)
      && (forall p :: InFlight(SweeperAt(s.sweepers, p)) ==> SweeperAt(s.sweepers, p).ex.Id() != a)
  {
    var m, a := s.Held(w), s.Held(w).Id();
    assert WorkerOk(s, w, s.Worker(w));
    assert MessageOk(s.h, s.db.jobs, s.db.keys, m, s.Worker(w).id);
    assert a in s.db.rows ==> RowOk(s.h, s.db.jobs, a, s.db.rows[a]);
    if a.Next() in s.h.sent {
      SentMessage(s.h, s.db, a.Next());
    }
    forall v | s.Holds(v) && s.Held(v).Id() == a ensures v == w {
      AttemptsAreDistinct(s, s.Worker(v).id, s.Worker(w).id);
      assert WorkerOk(s, v, s.Worker(v));
    }
    forall p | InFlight(SweeperAt(s.sweepers, p)) ensures SweeperAt(s.sweepers, p).ex.Id() != a {
      assert SweeperOk(s.h, s.db.jobs, s.db.rows, SweeperAt(s.sweepers, p));
    }
  }

  /** The rows a worker may write: its own attempt, started or settled. */
  ghost predicate WorkerRow(h: History, m: Message, ex: Execution) {
    && ex.job == m.job && ex.Id() == m.Id()
    && (ex.status.Running? || ex.status.IsHandled())
    && (ex.status.Retrying? ==> ex.attempt < h.MaxAttempts(ex.job))
    && (ex.nextRetryAt.Some? ==> ex.status.Retrying?)
  }

  /** Writing the row while the worker is set back to an undemanding stage. */
  lemma {:induction false} UpsertRowKeeps(s: State, w: WorkerId, ex: Execution)
    requires Inv(s) && s.Holds(w) && (s.Worker(w).Cleared? || s.Worker(w).Executing?)
    requires CanUpsert(s.db, s.Held(w)) && WorkerRow(s.h, s.Held(w), ex)
    ensures Inv(s.SetWorker(w, Fetched(s.Worker(w).id)).SetRows(Upsert(s.db.rows, ex)))
  {
    HolderAlone(s, w);
    assert WorkerOk(s, w, s.Worker(w));
    var id, a := s.Worker(w).id, ex.Id();
    var row := Upsert(s.db.rows, ex)[a];
    assert a in s.db.rows ==> RowOk(s.h, s.db.jobs, a, s.db.rows[a]);
    assert MessageOk(s.h, s.db.jobs, s.db.keys, s.Held(w), id);
    SetWorkerKeeps(s, w, Fetched(id));
    var s1 := s.SetWorker(w, Fetched(id));
    forall v | s1.Holds(v) && s1.Held(v).Id() == a ensures v == w {
      assert s.Holds(v) && s.Held(v).Id() == a;
    }
    SetRowKeeps(s1, a, row);
    assert Upsert(s.db.rows, ex) == s.db.rows[a := row];
  }

  lemma {:induction false} UpsertKeeps(s: State, w: WorkerId, ex: Execution, pc: WorkerPc)
    requires Inv(s) && s.Holds(w) && (s.Worker(w).Cleared? || s.Worker(w).Executing?)
    requires CanUpsert(s.db, s.Held(w)) && WorkerRow(s.h, s.Held(w), ex)
    requires pc == (if ex.status.Running? then Executing(s.Worker(w).id) else Finishing(s.Worker(w).id))
    ensures Inv(s.SetRows(Upsert(s.db.rows, ex)).SetWorker(w, pc))
  {
    HolderAlone(s, w);
    UpsertRowKeeps(s, w, ex);
    var s2 := s.SetWorker(w, Fetched(s.Worker(w).id)).SetRows(Upsert(s.db.rows, ex));
    assert WorkerOk(s2, w, s2.Worker(w));
    SetWorkerKeeps(s2, w, pc);
    assert s2.SetWorker(w, pc).workers == s.workers[w := pc];
  }

  lemma {:induction false} PersistStartedKeeps(s: State, w: WorkerId, at: Time)
    requires Inv(s) && s.Worker(w).Cleared? && s.Holds(w) && CanUpsert(s.db, s.Held(w))
    ensures Inv(PersistStartedStep(s, w, at))
  {
    UpsertKeeps(s, w, StartedRow(s.h, s.Held(w), at), Executing(s.Worker(w).id));
  }

  lemma {:induction false} PersistFinalKeeps(s: State, w: WorkerId, o: Outcome, started: Time, finished: Time)
    requires Inv(s) && CanPersistFinal(s, w, o)
    ensures Inv(PersistFinalStep(s, w, o, started, finished))
  {
    UpsertKeeps(s, w, FinalRow(s.h, s.Held(w), o, started, finished), Finishing(s.Worker(w).id));
  }

  // ---------------- sweeper ----------------

  lemma {:induction false} ListDueKeeps(s: State, p: SweeperId, now: Time, due: seq<Execution>)
    requires Inv(s) && CanListDue(s, p, now, due)
    ensures Inv(s.SetSweeper(p, Listed(due)))
  {
    forall ex | ex in due ensures SnapshotOk(s.h, ex) {
      assert RowOk(s.h, s.db.jobs, ex.Id(), s.db.rows[ex.Id()]);
      SentMessage(s.h, s.db, ex.Id());
    }
    SetSweeperKeeps(s, p, Listed(due));
  }

  /** A row with a schedule is nobody's flight yet. */
  lemma {:induction false} ScheduledIsNotInFlight(s: State, a: Attempt, p: SweeperId)
    requires Inv(s) && HasSchedule(s.db.rows, a) && InFlight(SweeperAt(s.sweepers, p))
    ensures SweeperAt(s.sweepers, p).ex.Id() != a
  {
    assert SweeperOk(s.h, s.db.jobs, s.db.rows, SweeperAt(s.sweepers, p));
  }

  /** The claim is exclusive: the winner becomes the only flight for the attempt. */
  lemma {:induction false} ClaimDueKeeps(s: State, p: SweeperId)
    requires Inv(s) && CanClaimDue(s, p)
    ensures Inv(ClaimDueStep(s, p))
  {
    var pc := s.Sweeper(p);
    var ex, rest := pc.due[0], pc.due[1..];
    var a := ex.Id();
    assert SweeperOk(s.h, s.db.jobs, s.db.rows, SweeperAt(s.sweepers, p));
    if HasSchedule(s.db.rows, a) {
      var row := s.db.rows[a].(nextRetryAt := None);
      assert RowOk(s.h, s.db.jobs, a, s.db.rows[a]);
      forall q | InFlight(SweeperAt(s.sweepers, q)) ensures SweeperAt(s.sweepers, q).ex.Id() != a {
        ScheduledIsNotInFlight(s, a, q);
      }
      ScheduleChangeKeeps(s, a, None);
      SetSweeperKeeps(s.SetRows(s.db.rows[a := row]), p, Taken(ex, rest));
    } else {
      SetSweeperKeeps(s, p, Listed(rest));
    }
  }

  /** Changing only the schedule of a row touches nobody but a sweeper in flight for it. */
  lemma {:induction false} ScheduleChangeKeeps(s: State, a: Attempt, at: Option<Time>)
    requires Inv(s) && a in s.db.rows && s.db.rows[a].status.Retrying?
    requires at.Some? ==> a.Next() !in s.h.sent
    requires forall p :: InFlight(SweeperAt(s.sweepers, p)) ==> SweeperAt(s.sweepers, p).ex.Id() != a
    ensures Inv(s.SetRows(s.db.rows[a := s.db.rows[a].(nextRetryAt := at)]))
  {
    var row := s.db.rows[a].(nextRetryAt := at);
    assert RowOk(s.h, s.db.jobs, a, s.db.rows[a]);
    forall v | s.Holds(v) && s.Held(v).Id() == a
      ensures StageOk(s.db.(rows := s.db.rows[a := row]), s.Held(v), s.Worker(v))
    {
      assert WorkerOk(s, v, s.Worker(v));
    }
    SetRowKeeps(s, a, row);
  }

  lemma {:induction false} PublishRetryKeeps(s: State, p: SweeperId)
    requires Inv(s) && s.Sweeper(p).Taken?
    ensures Inv(PublishRetryStep(s, p))
  {
    var pc := SweeperAt(s.sweepers, p);
    var m := Message(pc.ex.job, pc.ex.run, pc.ex.attempt + 1, None);
    assert SweeperOk(s.h, s.db.jobs, s.db.rows, pc);
    SetSweeperKeeps(s, p, Listed(pc.rest));
    var s1 := s.SetSweeper(p, Listed(pc.rest));
    forall q | InFlight(SweeperAt(s1.sweepers, q)) ensures SweeperAt(s1.sweepers, q).ex.Id().Next() != m.Id() {
      assert SameFlight(SweeperAt(s.sweepers, q), pc) ==> q == p;
    }
    PublishKeeps(s1, m);
    assert s1.Publish(m) == PublishRetryStep(s, p);
  }

  lemma {:induction false} PublishRetryFailsKeeps(s: State, p: SweeperId)
    requires Inv(s) && s.Sweeper(p).Taken?
    ensures Inv(PublishRetryFailsStep(s, p))
  {
    var pc := SweeperAt(s.sweepers, p);
    var pc' := Bounced(pc.ex, pc.rest);
    assert SweeperOk(s.h, s.db.jobs, s.db.rows, pc);
    forall q | q != p ensures !SameFlight(pc', SweeperAt(s.sweepers, q)) {
      assert !SameFlight(pc, SweeperAt(s.sweepers, q));
    }
    SetSweeperKeeps(s, p, pc');
  }

  lemma {:induction false} RestoreRetryKeeps(s: State, p: SweeperId)
    requires Inv(s) && s.Sweeper(p).Bounced?
    ensures Inv(RestoreRetryStep(s, p))
  {
    var pc := SweeperAt(s.sweepers, p);
    var a := pc.ex.Id();
    assert SweeperOk(s.h, s.db.jobs, s.db.rows, pc);
    SetSweeperKeeps(s, p, Listed(pc.rest));
    var s1 := s.SetSweeper(p, Listed(pc.rest));
    if a in s.db.rows {
      forall q | InFlight(SweeperAt(s1.sweepers, q)) ensures SweeperAt(s1.sweepers, q).ex.Id() != a {
        assert SameFlight(SweeperAt(s.sweepers, q), pc) ==> q == p;
      }
      ScheduleChangeKeeps(s1, a, pc.ex.nextRetryAt);
    }
  }

  lemma {:induction false} StopSweeperKeeps(s: State, p: SweeperId)
    requires Inv(s)
    ensures Inv(s.SetSweeper(p, Listed([])))
  {
    SetSweeperKeeps(s, p, Listed([]));
  }

  // ---------------- dispatcher ----------------

  /** A free key of a stored job was never published. */
  lemma {:induction false} FreeKeyUnpublished(h: History, db: Database, k: SlotKey)
    requires StoreOk(h, db) && k !in db.keys && k.job in db.jobs
    ensures k !in h.slots
  {
  }

  /** A run id that was never drawn was never published. */
  lemma {:induction false} FreshRunUnpublished(h: History, db: Database, a: Attempt)
    requires StoreOk(h, db) && a.run !in h.runs
    ensures a !in h.sent && a !in db.rows
  {
    assert a in db.rows ==> RowOk(h, db.jobs, a, db.rows[a]);
    assert a in h.sent ==> SentAttemptOk(h, db.jobs, db.rows, a, h.sent[a]);
    assert a in h.sent ==> MessageOk(h, db.jobs, db.keys, h.log[h.sent[a]], h.sent[a]);
  }

  lemma {:induction false} DrawRunKeepsStore(h: History, db: Database, k: SlotKey, r: RunId)
    requires StoreOk(h, db) && k !in db.keys && k.job in db.jobs && r !in h.runs
    ensures StoreOk(h.(runs := h.runs[r := k.job]), db.(keys := db.keys[k := r]))
  {
    var g, db' := h.(runs := h.runs[r := k.job]), db.(keys := db.keys[k := r]);
    FreeKeyUnpublished(h, db, k);
    forall id | 0 <= id < |g.log| ensures MessageOk(g, db'.jobs, db'.keys, g.log[id], id) {
      assert MessageOk(h, db.jobs, db.keys, h.log[id], id);
    }
    forall a | a in g.sent ensures SentAttemptOk(g, db'.jobs, db'.rows, a, g.sent[a]) {
      assert SentAttemptOk(h, db.jobs, db.rows, a, h.sent[a]);
    }
    forall a | a in db'.rows ensures RowOk(g, db'.jobs, a, db'.rows[a]) {
      assert RowOk(h, db.jobs, a, db.rows[a]);
    }
  }

  lemma {:induction false} ClaimSlotKeeps(s: State, d: DispatcherId, k: SlotKey, r: RunId)
    requires Inv(s) && CanClaimSlot(s, d, k, r)
    ensures Inv(ClaimSlotStep(s, d, k, r))
  {
    var t := s.(h := s.h.(runs := s.h.runs[r := k.job])).SetKeys(s.db.keys[k := r]);
    DrawRunKeepsStore(s.h, s.db, k, r);
    WorkersFrame(s, t);
    FreeKeyUnpublished(s.h, s.db, k);
    FreshRunUnpublished(s.h, s.db, Attempt(r, 1));
    forall p ensures SweeperOk(t.h, t.db.jobs, t.db.rows, SweeperAt(t.sweepers, p)) {
      assert SweeperOk(s.h, s.db.jobs, s.db.rows, SweeperAt(s.sweepers, p));
    }
    forall e ensures DispatcherOk(t.h, t.db.jobs, t.db.keys, DispatcherAt(t.dispatchers, e))
             ensures !Clash(Claimed(k, r), DispatcherAt(t.dispatchers, e))
    {
      assert DispatcherOk(s.h, s.db.jobs, s.db.keys, DispatcherAt(s.dispatchers, e));
    }
    SetDispatcherKeeps(t, d, Claimed(k, r));
  }

  lemma {:induction false} PublishClaimKeeps(s: State, d: DispatcherId)
    requires Inv(s) && s.Dispatcher(d).Claimed?
    ensures var c := s.Dispatcher(d);
      Inv(s.SetDispatcher(d, Ready).Publish(Message(c.key.job, c.run, 1, Some(c.key))))
  {
    var c := DispatcherAt(s.dispatchers, d);
    var m := Message(c.key.job, c.run, 1, Some(c.key));
    assert DispatcherOk(s.h, s.db.jobs, s.db.keys, c);
    SetDispatcherKeeps(s, d, Ready);
    var s1 := s.SetDispatcher(d, Ready);
    forall e | Claiming(DispatcherAt(s1.dispatchers, e))
      ensures Attempt(DispatcherAt(s1.dispatchers, e).run, 1) != m.Id()
      ensures Some(DispatcherAt(s1.dispatchers, e).key) != m.key
    {
      assert Clash(DispatcherAt(s.dispatchers, e), c) ==> e == d;
    }
    forall p | InFlight(SweeperAt(s1.sweepers, p)) ensures SweeperAt(s1.sweepers, p).ex.Id().Next() != m.Id() {
      assert SweeperOk(s.h, s.db.jobs, s.db.rows, SweeperAt(s.sweepers, p));
    }
    PublishKeeps(s1, m);
  }

  lemma {:induction false} PublishSlotKeeps(s: State, d: DispatcherId)
    requires Inv(s) && s.Dispatcher(d).Claimed?
    ensures Inv(PublishSlotStep(s, d))
  {
    var c := DispatcherAt(s.dispatchers, d);
    var s1 := s.SetDispatcher(d, Ready).Publish(Message(c.key.job, c.run, 1, Some(c.key)));
    assert DispatcherOk(s.h, s.db.jobs, s.db.keys, c);
    PublishClaimKeeps(s, d);
    SetDispatcherKeeps(s1, d, Announced(c.key.job, c.run));
    assert s1.SetDispatcher(d, Announced(c.key.job, c.run)).dispatchers
        == s.dispatchers[d := Announced(c.key.job, c.run)];
  }

  lemma {:induction false} PublishSlotFailsKeeps(s: State, d: DispatcherId)
    requires Inv(s) && s.Dispatcher(d).Claimed?
    ensures Inv(PublishSlotFailsStep(s, d))
  {
    var c := DispatcherAt(s.dispatchers, d);
    assert DispatcherOk(s.h, s.db.jobs, s.db.keys, c);
    forall e | e != d ensures !Clash(Refused(c.key, c.run), DispatcherAt(s.dispatchers, e)) {
      assert !Clash(c, DispatcherAt(s.dispatchers, e));
    }
    SetDispatcherKeeps(s, d, Refused(c.key, c.run));
  }

  lemma {:induction false} StopDispatcherKeeps(s: State, d: DispatcherId)
    requires Inv(s)
    ensures Inv(s.SetDispatcher(d, Ready))
  {
    SetDispatcherKeeps(s, d, Ready);
  }

  lemma {:induction false} DropKeyKeeps(s: State, k: SlotKey)
    requires Inv(s) && k !in s.h.slots
    requires forall d :: Claiming(DispatcherAt(s.dispatchers, d)) ==> DispatcherAt(s.dispatchers, d).key != k
    ensures Inv(s.SetKeys(s.db.keys - {k}))
  {
    var t := s.SetKeys(s.db.keys - {k});
    forall id | 0 <= id < |t.h.log| ensures MessageOk(t.h, t.db.jobs, t.db.keys, t.h.log[id], id) {
      assert MessageOk(s.h, s.db.jobs, s.db.keys, s.h.log[id], id);
    }
    WorkersFrame(s, t);
    forall e ensures DispatcherOk(t.h, t.db.jobs, t.db.keys, DispatcherAt(t.dispatchers, e)) {
      assert DispatcherOk(s.h, s.db.jobs, s.db.keys, DispatcherAt(s.dispatchers, e));
    }
  }

  /** Although `release` ignores the owner, the key it deletes is the releasing dispatcher's own. */
  lemma {:induction false} ReleaseSlotKeeps(s: State, d: DispatcherId)
    requires Inv(s) && s.Dispatcher(d).Refused?
    ensures Inv(ReleaseSlotStep(s, d))
  {
    var c := DispatcherAt(s.dispatchers, d);
    assert DispatcherOk(s.h, s.db.jobs, s.db.keys, c);
    SetDispatcherKeeps(s, d, Ready);
    var s1 := s.SetDispatcher(d, Ready);
    forall e | Claiming(DispatcherAt(s1.dispatchers, e)) ensures DispatcherAt(s1.dispatchers, e).key != c.key {
      assert Clash(DispatcherAt(s.dispatchers, e), c) ==> e == d;
    }
    DropKeyKeeps(s1, c.key);
  }

  lemma {:induction false} InsertQueuedKeeps(s: State, d: DispatcherId)
    requires Inv(s) && s.Dispatcher(d).Announced?
    ensures Inv(InsertQueuedStep(s, d))
  {
    var c := DispatcherAt(s.dispatchers, d);
    var a, row := Attempt(c.run, 1), QueuedRow(c.job, c.run);
    assert DispatcherOk(s.h, s.db.jobs, s.db.keys, c);
    SetDispatcherKeeps(s, d, Ready);
    var s1 := s.SetDispatcher(d, Ready);
    if a !in s.db.rows && c.job in s.db.jobs {
      SentMessage(s.h, s.db, a);
      if a.Next() in s.h.sent {
        SentMessage(s.h, s.db, a.Next());
      }
      forall v | s1.Holds(v) && s1.Held(v).Id() == a
        ensures StageOk(s1.db.(rows := s1.db.rows[a := row]), s1.Held(v), s1.Worker(v))
      {
        assert WorkerOk(s, v, s.Worker(v));
        AttemptsAreDistinct(s, s.Worker(v).id, s.h.sent[a]);
      }
      forall p | InFlight(SweeperAt(s1.sweepers, p)) ensures SweeperAt(s1.sweepers, p).ex.Id() != a {
        assert SweeperOk(s.h, s.db.jobs, s.db.rows, SweeperAt(s.sweepers, p));
      }
      SetRowKeeps(s1, a, row);
    }
  }

  // ---------------- operators ----------------

  lemma {:induction false} AddJobKeepsStore(h: History, db: Database, j: JobId, n: nat)
    requires StoreOk(h, db) && j !in h.policies && n >= 1
    ensures StoreOk(h.(policies := h.policies[j := n]), db.(jobs := db.jobs + {j}))
  {
    var g, db' := h.(policies := h.policies[j := n]), db.(jobs := db.jobs + {j});
    forall id | 0 <= id < |g.log| ensures MessageOk(g, db'.jobs, db'.keys, g.log[id], id) {
      assert MessageOk(h, db.jobs, db.keys, h.log[id], id);
    }
    forall a | a in g.sent ensures SentAttemptOk(g, db'.jobs, db'.rows, a, g.sent[a]) {
      SentMessage(h, db, a);
    }
    forall a | a in db'.rows ensures RowOk(g, db'.jobs, a, db'.rows[a]) {
      assert RowOk(h, db.jobs, a, db.rows[a]);
    }
  }

  lemma {:induction false} AddJobKeeps(s: State, j: JobId, n: nat)
    requires Inv(s) && j !in s.h.policies && n >= 1
    ensures Inv(AddJobStep(s, j, n))
  {
    var t := AddJobStep(s, j, n);
    AddJobKeepsStore(s.h, s.db, j, n);
    forall id | 0 <= id < |s.h.log| ensures s.h.log[id].job != j {
      assert MessageOk(s.h, s.db.jobs, s.db.keys, s.h.log[id], id);
    }
    forall v ensures WorkerOk(t, v, t.Worker(v)) {
      assert WorkerOk(s, v, s.Worker(v));
    }
    forall p ensures SweeperOk(t.h, t.db.jobs, t.db.rows, SweeperAt(t.sweepers, p)) {
      assert SweeperOk(s.h, s.db.jobs, s.db.rows, SweeperAt(s.sweepers, p));
    }
    forall e ensures DispatcherOk(t.h, t.db.jobs, t.db.keys, DispatcherAt(t.dispatchers, e)) {
      assert DispatcherOk(s.h, s.db.jobs, s.db.keys, DispatcherAt(s.dispatchers, e));
    }
  }

  lemma {:induction false} DeleteJobKeepsSent(s: State, j: JobId)
    requires StoreOk(s.h, s.db)
    ensures SentOk(s.h, DeleteJobStep(s, j).db.jobs, DeleteJobStep(s, j).db.rows)
  {
    var t := DeleteJobStep(s, j);
    forall a | a in s.h.sent ensures SentAttemptOk(s.h, t.db.jobs, t.db.rows, a, s.h.sent[a]) {
      SentMessage(s.h, s.db, a);
      if a.number > 1 && s.h.log[s.h.sent[a]].job in t.db.jobs {
        var b := Attempt(a.run, a.number - 1);
        assert RowOk(s.h, s.db.jobs, b, s.db.rows[b]);
      }
    }
  }

  lemma {:induction false} DeleteJobKeepsStore(s: State, j: JobId)
    requires StoreOk(s.h, s.db)
    ensures StoreOk(s.h, DeleteJobStep(s, j).db)
  {
    var t := DeleteJobStep(s, j);
    DeleteJobKeepsSent(s, j);
    forall id | 0 <= id < |s.h.log| ensures MessageOk(s.h, t.db.jobs, t.db.keys, s.h.log[id], id) {
      assert MessageOk(s.h, s.db.jobs, s.db.keys, s.h.log[id], id);
    }
    forall a | a in t.db.rows ensures RowOk(s.h, t.db.jobs, a, t.db.rows[a]) {
      assert RowOk(s.h, s.db.jobs, a, s.db.rows[a]);
    }
  }

  /** Deleting a job takes exactly the rows of its own messages. */
  lemma {:induction false} DeleteJobKeepsHandled(s: State, j: JobId, id: MessageId)
    requires Inv(s) && id < |s.h.log|
    ensures s.db.Handled(s.h.log[id]) ==> DeleteJobStep(s, j).db.Handled(s.h.log[id])
    ensures var m := s.h.log[id];
      m.job != j ==> (m.Id() in s.db.rows <==> m.Id() in DeleteJobStep(s, j).db.rows)
    ensures var m := s.h.log[id];
      m.job == j ==> m.Id() !in DeleteJobStep(s, j).db.rows
  {
    var m := s.h.log[id];
    assert MessageOk(s.h, s.db.jobs, s.db.keys, m, id);
    assert m.Id() in s.db.rows ==> RowOk(s.h, s.db.jobs, m.Id(), s.db.rows[m.Id()]);
  }

  lemma {:induction false} DeleteJobKeepsProcesses(s: State, j: JobId)
    requires Inv(s)
    ensures var t := DeleteJobStep(s, j);
      && SweepersOk(t.h, t.db.jobs, t.db.rows, t.sweepers)
      && DispatchersOk(t.h, t.db.jobs, t.db.keys, t.dispatchers)
  {
    var t := DeleteJobStep(s, j);
    forall p ensures SweeperOk(t.h, t.db.jobs, t.db.rows, SweeperAt(t.sweepers, p)) {
      var pc := SweeperAt(s.sweepers, p);
      assert SweeperOk(s.h, s.db.jobs, s.db.rows, pc);
      if InFlight(pc) && pc.ex.Id() in s.db.rows {
        assert RowOk(s.h, s.db.jobs, pc.ex.Id(), s.db.rows[pc.ex.Id()]);
      }
    }
    forall e ensures DispatcherOk(t.h, t.db.jobs, t.db.keys, DispatcherAt(t.dispatchers, e)) {
      assert DispatcherOk(s.h, s.db.jobs, s.db.keys, DispatcherAt(s.dispatchers, e));
    }
  }

  lemma {:induction false} DeleteJobKeeps(s: State, j: JobId)
    requires Inv(s)
    ensures Inv(DeleteJobStep(s, j))
  {
    var t := DeleteJobStep(s, j);
    DeleteJobKeepsStore(s, j);
    DeleteJobKeepsProcesses(s, j);
    forall id | id in t.q.acked && id < |t.h.log| ensures t.db.Handled(t.h.log[id]) {
      DeleteJobKeepsHandled(s, j, id);
    }
    forall v ensures WorkerOk(t, v, t.Worker(v)) {
      assert WorkerOk(s, v, s.Worker(v));
      if s.Holds(v) {
        DeleteJobKeepsHandled(s, j, s.Worker(v).id);
      }
    }
  }

  lemma {:induction false} RequestCancelKeeps(s: State, a: Attempt, at: Time)
    requires Inv(s) && CanRequestCancel(s, a)
    ensures Inv(RequestCancelStep(s, a, at))
  {
    var row := CancelRow(s.db.rows[a], at);
    assert RowOk(s.h, s.db.jobs, a, s.db.rows[a]);
    SentMessage(s.h, s.db, a);
    if a.Next() in s.h.sent {
      SentMessage(s.h, s.db, a.Next());
      assert MessageOk(s.h, s.db.jobs, s.db.keys, s.h.log[s.h.sent[a]], s.h.sent[a]);
    }
    forall v | s.Holds(v) && s.Held(v).Id() == a
      ensures StageOk(s.db.(rows := s.db.rows[a := row]), s.Held(v), s.Worker(v))
    {
      assert WorkerOk(s, v, s.Worker(v));
    }
    forall p | InFlight(SweeperAt(s.sweepers, p)) && SweeperAt(s.sweepers, p).ex.Id() == a
      ensures row.status.Retrying? && row.nextRetryAt.None?
    {
      assert SweeperOk(s.h, s.db.jobs, s.db.rows, SweeperAt(s.sweepers, p));
    }
    SetRowKeeps(s, a, row);
  }

  // ---------------- recovery ----------------

  /** A stored attempt of a run has all earlier attempts stored, each given up for its successor. */
  lemma {:induction false} ChainDown(s: State, a: Attempt, n: nat)
    requires Inv(s) && a in s.db.rows && 1 <= n <= a.number
    ensures Attempt(a.run, n) in s.db.rows
    ensures n < a.number ==> Relayed(s.db.rows, Attempt(a.run, n))
    decreases a.number
  {
    if n < a.number {
      assert RowOk(s.h, s.db.jobs, a, s.db.rows[a]);
      SentMessage(s.h, s.db, a);
      ChainDown(s, Attempt(a.run, a.number - 1), n);
    }
  }

  /** Before recovery, every published attempt of a stored job has its row. */
  lemma {:induction false} ProjectedRow(s: State, id: MessageId)
    requires Inv(s) && Projected(s) && id < |s.h.log| && s.h.log[id].job in s.db.jobs
    ensures s.h.log[id].Id() in s.db.rows
  {
    assert id in s.q.acked ==> s.db.Handled(s.h.log[id]);
    assert s.q.Outstanding(id) || id in s.q.acked;
  }

  lemma {:induction false} RecoverKeepsLog(s: State, at: Time)
    requires Inv(s) && Projected(s)
    ensures var t := RecoverStep(s, at); LogOk(t.h, t.db.jobs, t.db.keys) && KeysOk(t.h, t.db.jobs, t.db.keys)
  {
    var t := RecoverStep(s, at);
    forall id | 0 <= id < |s.h.log| ensures MessageOk(t.h, t.db.jobs, t.db.keys, s.h.log[id], id) {
      assert MessageOk(s.h, s.db.jobs, s.db.keys, s.h.log[id], id);
      if s.h.log[id].job in s.db.jobs {
        ProjectedRow(s, id);
      }
    }
  }

  lemma {:induction false} RecoverKeepsRows(s: State, at: Time)
    requires Inv(s) && Projected(s)
    ensures var t := RecoverStep(s, at); SentOk(t.h, t.db.jobs, t.db.rows) && RowsOk(t.h, t.db.jobs, t.db.rows)
  {
    var t := RecoverStep(s, at);
    forall a | a in s.h.sent ensures SentAttemptOk(t.h, t.db.jobs, t.db.rows, a, s.h.sent[a]) {
      SentMessage(s.h, s.db, a);
      if a.number > 1 && s.h.log[s.h.sent[a]].job in s.db.jobs {
        ProjectedRow(s, s.h.sent[a]);
        assert IsSuperseded(s.db.rows, Attempt(a.run, a.number - 1));
      }
    }
    forall a | a in t.db.rows ensures RowOk(t.h, t.db.jobs, a, t.db.rows[a]) {
      assert RowOk(s.h, s.db.jobs, a, s.db.rows[a]);
    }
  }

  lemma {:induction false} RecoverKeeps(s: State, at: Time)
    requires Inv(s) && Quiet(s) && Projected(s)
    ensures Inv(RecoverStep(s, at))
  {
    var t := RecoverStep(s, at);
    RecoverKeepsLog(s, at);
    RecoverKeepsRows(s, at);
    assert forall w :: t.Worker(w) == s.Worker(w);
    forall p ensures SweeperOk(t.h, t.db.jobs, t.db.rows, SweeperAt(t.sweepers, p)) {
      assert SweeperOk(s.h, s.db.jobs, s.db.rows, SweeperAt(s.sweepers, p)) && s.Sweeper(p).Listed?;
    }
    forall d ensures DispatcherOk(t.h, t.db.jobs, t.db.keys, DispatcherAt(t.dispatchers, d)) {
      assert s.Dispatcher(d).Ready?;
    }
  }

  /**
   Recovery keeps the invariant exactly when every message still queued has its attempt row;
   `Guarantees.RecoveryKeepsPromisesIffProjected` says which promises break otherwise.
   */
  lemma {:induction false} RecoverSafeIffProjected(s: State, at: Time)
    requires Inv(s) && Quiet(s)
    ensures Inv(RecoverStep(s, at)) <==> Projected(s)
  {
    if Projected(s) {
      RecoverKeeps(s, at);
    }
    if Inv(RecoverStep(s, at)) {
      forall id | 0 <= id < |s.h.log| && s.q.Outstanding(id) && s.h.log[id].job in s.db.jobs
        ensures s.h.log[id].Id() in s.db.rows
      {
        UnsafeUnlessProjected(s, at, id);
      }
    }
  }

  lemma {:induction false} UnsafeUnlessProjected(s: State, at: Time, id: MessageId)
    requires Inv(s) && Inv(RecoverStep(s, at)) && id < |s.h.log| && s.h.log[id].job in s.db.jobs
    ensures s.h.log[id].Id() in s.db.rows
  {
    var t, m := RecoverStep(s, at), s.h.log[id];
    assert MessageOk(t.h, t.db.jobs, t.db.keys, m, id);
    if m.attempt == 1 {
      assert HasRun(s.db.rows, m.run);
      var b :| b in s.db.rows && b.run == m.run;
      assert RowOk(s.h, s.db.jobs, b, s.db.rows[b]);
      SentMessage(s.h, s.db, b);
      ChainDown(s, b, 1);
    } else {
      SentMessage(t.h, t.db, m.Id());
      var a := Attempt(m.run, m.attempt - 1);
      assert IsSuperseded(s.db.rows, a);
      var b :| b in s.db.rows && b.run == a.run && b.number > a.number;
      ChainDown(s, b, m.attempt);
    }
  }

  // ---------------- every action, every run ----------------

  predicate IsWorkerAction(a: Action) {
    a.Consume? || a.TakeOver? || a.Renew? || a.ReadJob? || a.CheckDuplicate?
    || a.PersistStarted? || a.PersistFinal? || a.Ack? || a.StopWorker?
  }

  predicate IsSweeperAction(a: Action) {
    a.ListDue? || a.ClaimDue? || a.PublishRetry? || a.PublishRetryFails? || a.RestoreRetry? || a.StopSweeper?
  }

  predicate IsDispatcherAction(a: Action) {
    a.ClaimSlot? || a.PublishSlot? || a.PublishSlotFails? || a.ReleaseSlot? || a.InsertQueued?
    || a.StopDispatcher?
  }

  lemma {:induction false} WorkerStepKeeps(s: State, a: Action)
    requires Inv(s) && Enabled(s, a) && IsWorkerAction(a)
    ensures Inv(Apply(s, a))
  {
    match a
    case Consume(w) => ConsumeKeeps(s, w);
    case TakeOver(w, id, stale) => TakeOverKeeps(s, w, id, stale);
    case Renew(w) => RenewKeeps(s, w);
    case ReadJob(w) => ReadJobKeeps(s, w);
    case CheckDuplicate(w) => CheckDuplicateKeeps(s, w);
    case PersistStarted(w, at) => PersistStartedKeeps(s, w, at);
    case PersistFinal(w, o, t0, t1) => PersistFinalKeeps(s, w, o, t0, t1);
    case Ack(w) => AckKeeps(s, w);
    case StopWorker(w) => SetWorkerKeeps(s, w, Idle);
  }

  lemma {:induction false} SweeperStepKeeps(s: State, a: Action)
    requires Inv(s) && Enabled(s, a) && IsSweeperAction(a)
    ensures Inv(Apply(s, a))
  {
    match a
    case ListDue(p, now, due) => ListDueKeeps(s, p, now, due);
    case ClaimDue(p) => ClaimDueKeeps(s, p);
    case PublishRetry(p) => PublishRetryKeeps(s, p);
    case PublishRetryFails(p) => PublishRetryFailsKeeps(s, p);
    case RestoreRetry(p) => RestoreRetryKeeps(s, p);
    case StopSweeper(p) => StopSweeperKeeps(s, p);
  }

  lemma {:induction false} DispatcherStepKeeps(s: State, a: Action)
    requires Inv(s) && Enabled(s, a) && IsDispatcherAction(a)
    ensures Inv(Apply(s, a))
  {
    match a
    case ClaimSlot(d, k, r) => ClaimSlotKeeps(s, d, k, r);
    case PublishSlot(d) => PublishSlotKeeps(s, d);
    case PublishSlotFails(d) => PublishSlotFailsKeeps(s, d);
    case ReleaseSlot(d) => ReleaseSlotKeeps(s, d);
    case InsertQueued(d) => InsertQueuedKeeps(s, d);
    case StopDispatcher(d) => StopDispatcherKeeps(s, d);
  }

  lemma {:induction false} OperatorStepKeeps(s: State, a: Action)
    requires Inv(s) && Enabled(s, a)
    requires !IsWorkerAction(a) && !IsSweeperAction(a) && !IsDispatcherAction(a)
    ensures Inv(Apply(s, a))
  {
    match a
    case AddJob(j, n) => AddJobKeeps(s, j, n);
    case DeleteJob(j) => DeleteJobKeeps(s, j);
    case Advance(dt) => AdvanceKeeps(s, dt);
    case RequestCancel(t, at) => RequestCancelKeeps(s, t, at);
    case Recover(at) => RecoverKeeps(s, at);
  }

  /** Every action keeps the invariant. */
  lemma {:induction false} StepKeeps(s: State, a: Action)
    requires Inv(s) && Enabled(s, a)
    ensures Inv(Apply(s, a))
  {
    if IsWorkerAction(a) {
      WorkerStepKeeps(s, a);
    } else if IsSweeperAction(a) {
      SweeperStepKeeps(s, a);
    } else if IsDispatcherAction(a) {
      DispatcherStepKeeps(s, a);
    } else {
      OperatorStepKeeps(s, a);
    }
  }

  /** The first action of a run, and the run that remains. */
  lemma {:induction false} TraceTail(states: seq<State>, actions: seq<Action>)
    requires IsTrace(states, actions) && actions != []
    ensures Step(states[0], actions[0], states[1]) && IsTrace(states[1..], actions[1..])
  {
    assert StepAt(states, actions, 0);
    forall i | 0 <= i < |actions[1..]| ensures StepAt(states[1..], actions[1..], i) {
      assert StepAt(states, actions, i + 1);
    }
  }

  lemma {:induction false} TraceKeeps(states: seq<State>, actions: seq<Action>, i: nat)
    requires IsTrace(states, actions) && Inv(states[0]) && i <= |actions|
    ensures Inv(states[i])
  {
    if i > 0 {
      TraceTail(states, actions);
      StepKeeps(states[0], actions[0]);
      TraceKeeps(states[1..], actions[1..], i - 1);
    }
  }

  /** The invariant holds in every state any run reaches. */
  lemma {:induction false} ReachableInv(s: State)
    requires Reachable(s)
    ensures Inv(s)
  {
    var states, actions :| IsTrace(states, actions) && Init(states[0]) && states[|actions|] == s;
    InitInv(states[0]);
    TraceKeeps(states, actions, |actions|);
  }

  lemma {:induction false} TraceExtends(states: seq<State>, actions: seq<Action>, a: Action, t: State)
    requires IsTrace(states, actions) && Step(states[|actions|], a, t)
    ensures IsTrace(states + [t], actions + [a])
  {
    forall i | 0 <= i < |actions + [a]| ensures StepAt(states + [t], actions + [a], i) {
      if i < |actions| {
        assert StepAt(states, actions, i);
      }
    }
  }

  lemma {:induction false} ReachableStep(s: State, a: Action, t: State)
    requires Reachable(s) && Step(s, a, t)
    ensures Reachable(t)
  {
    var states, actions :| IsTrace(states, actions) && Init(states[0]) && states[|actions|] == s;
    TraceExtends(states, actions, a, t);
    assert (states + [t])[|actions + [a]|] == t;
  }
}
