/**
 Queue mode as one labelled transition system: dispatchers, the queue, workers, the database
 and retry sweepers, any number of each, interleaved arbitrarily and stopping at any point.
 One transaction, or one queue call, is one action.
 */
module Protocol {
  import opened Common
  import opened StateMachine
  import opened Repositories
  import Recovery

  type WorkerId = nat
  type SweeperId = nat
  type DispatcherId = nat
  /** A message id is the position of the message in the published log. */
  type MessageId = nat

  /** The slot a trigger stands for; `Idempotency.KeysAgreeExactlyOnSlots` ties it to the stored string. */
  datatype SlotKey = SlotKey(job: JobId, schedule: nat, slot: Time)

  datatype Message = Message(job: JobId, run: RunId, attempt: nat, key: Option<SlotKey>) {
    function Id(): Attempt { Attempt(run, attempt) }
  }

  datatype Database = Database(jobs: set<JobId>, keys: map<SlotKey, RunId>, rows: Table) {
    predicate HandledAttempt(a: Attempt) { a in rows && rows[a].status.IsHandled() }

    /** The message needs no further execution: its attempt was settled, or its job is gone. */
    predicate Handled(m: Message) { m.job !in jobs || HandledAttempt(m.Id()) }
  }

  datatype Lease = Lease(consumer: WorkerId, deliveredAt: Time, deliveries: nat)

  /** `acked` is history: the queue itself forgets an acknowledged message. */
  datatype Queue = Queue(ready: seq<MessageId>, pending: map<MessageId, Lease>, acked: set<MessageId>) {
    predicate Outstanding(id: MessageId) { id in ready || id in pending }

    /** `renew` answers true exactly when the message is pending under the worker's own name. */
    predicate RenewSucceeds(w: WorkerId, id: MessageId) {
      id in pending && pending[id].consumer == w
    }
  }

  /** What has happened so far, never forgotten by any action. */
  datatype History = History(
    policies: map<JobId, nat>,           // max_attempts of every job ever registered
    runs: map<RunId, JobId>,             // every run id ever drawn
    log: seq<Message>,                   // everything ever published
    sent: map<Attempt, MessageId>,       // where an attempt was last published
    slots: map<SlotKey, MessageId>)      // where a slot was last published
  {
    function MaxAttempts(j: JobId): nat { if j in policies then policies[j] else 1 }

    function Publish(m: Message): History {
      this.(log := log + [m], sent := sent[m.Id() := |log|],
            slots := if m.key.Some? then slots[m.key.value := |log|] else slots)
    }
  }

  /** How far a worker has come with the message it holds. */
  datatype WorkerPc =
    | Idle
    | Fetched(id: MessageId)    // delivered, job not looked up yet
    | Known(id: MessageId)      // the job exists
    | Cleared(id: MessageId)    // not a duplicate
    | Executing(id: MessageId)  // the RUNNING row is stored
    | Finishing(id: MessageId)  // only the acknowledgement is left

  datatype SweeperPc =
    | Listed(due: seq<Execution>)                    // rows still to try; idle when empty
    | Taken(ex: Execution, rest: seq<Execution>)     // schedule cleared, message not published
    | Bounced(ex: Execution, rest: seq<Execution>)   // publishing raised, schedule to be restored

  datatype DispatcherPc =
    | Ready
    | Claimed(key: SlotKey, run: RunId)      // key stored, message not published
    | Refused(key: SlotKey, run: RunId)      // publishing raised, key to be released
    | Announced(job: JobId, run: RunId)      // message published, QUEUED row not stored

  function WorkerAt(m: map<WorkerId, WorkerPc>, w: WorkerId): WorkerPc {
    if w in m then m[w] else Idle
  }

  function SweeperAt(m: map<SweeperId, SweeperPc>, p: SweeperId): SweeperPc {
    if p in m then m[p] else Listed([])
  }

  function DispatcherAt(m: map<DispatcherId, DispatcherPc>, d: DispatcherId): DispatcherPc {
    if d in m then m[d] else Ready
  }

  datatype State = State(
    minStale: Time,                      // the smallest stale_after of any worker
    now: Time,                           // the queue's clock
    db: Database,
    q: Queue,
    h: History,
    workers: map<WorkerId, WorkerPc>,
    sweepers: map<SweeperId, SweeperPc>,
    dispatchers: map<DispatcherId, DispatcherPc>)
  {
    function Worker(w: WorkerId): WorkerPc { WorkerAt(workers, w) }
    function Sweeper(p: SweeperId): SweeperPc { SweeperAt(sweepers, p) }
    function Dispatcher(d: DispatcherId): DispatcherPc { DispatcherAt(dispatchers, d) }

    /** The worker has a message; `Held` is that message. */
    predicate Holds(w: WorkerId) { !Worker(w).Idle? && Worker(w).id < |h.log| }
    function Held(w: WorkerId): Message requires Holds(w) { h.log[Worker(w).id] }

    function SetWorker(w: WorkerId, pc: WorkerPc): State { this.(workers := workers[w := pc]) }
    function SetSweeper(p: SweeperId, pc: SweeperPc): State { this.(sweepers := sweepers[p := pc]) }
    function SetDispatcher(d: DispatcherId, pc: DispatcherPc): State {
      this.(dispatchers := dispatchers[d := pc])
    }
    function SetRows(t: Table): State { this.(db := db.(rows := t)) }
    function SetKeys(m: map<SlotKey, RunId>): State { this.(db := db.(keys := m)) }

    function Publish(m: Message): State {
      this.(h := h.Publish(m), q := q.(ready := q.ready + [|h.log|]))
    }
  }

  ghost predicate Init(s: State) {
    && s.minStale > 0
    && s.db == Database({}, map[], map[])
    && s.q == Queue([], map[], {})
    && s.h == History(map[], map[], [], map[], map[])
    && s.workers == map[] && s.sweepers == map[] && s.dispatchers == map[]
  }

  /** How the handler ended; a handler missing from the registry never starts. */
  datatype Outcome =
    | Succeeded
    | Raised(error: string, retryAt: Time)
    | Stopped(error: string)
    | NotRegistered(error: string)

  datatype Action =
    | AddJob(job: JobId, maxAttempts: nat)
    | DeleteJob(job: JobId)
    | Advance(elapsed: Time)
    // dispatcher
    | ClaimSlot(d: DispatcherId, key: SlotKey, run: RunId)
    | PublishSlot(d: DispatcherId)
    | PublishSlotFails(d: DispatcherId)
    | ReleaseSlot(d: DispatcherId)
    | InsertQueued(d: DispatcherId)
    | StopDispatcher(d: DispatcherId)
    // worker
    | Consume(w: WorkerId)
    | TakeOver(w: WorkerId, id: MessageId, staleAfter: Time)
    | Renew(w: WorkerId)
    | ReadJob(w: WorkerId)
    | CheckDuplicate(w: WorkerId)
    | PersistStarted(w: WorkerId, at: Time)
    | PersistFinal(w: WorkerId, outcome: Outcome, started: Time, finished: Time)
    | Ack(w: WorkerId)
    | StopWorker(w: WorkerId)
    // sweeper
    | ListDue(p: SweeperId, now: Time, due: seq<Execution>)
    | ClaimDue(p: SweeperId)
    | PublishRetry(p: SweeperId)
    | PublishRetryFails(p: SweeperId)
    | RestoreRetry(p: SweeperId)
    | StopSweeper(p: SweeperId)
    // operators
    | RequestCancel(attempt: Attempt, at: Time)
    | Recover(at: Time)

  // ---------------- dispatcher ----------------

  /** `try_claim` inserted the key: it was free and its job is stored (foreign key). Run ids are fresh. */
  predicate CanClaimSlot(s: State, d: DispatcherId, key: SlotKey, run: RunId) {
    s.Dispatcher(d).Ready? && key !in s.db.keys && key.job in s.db.jobs && run !in s.h.runs
  }

  function ClaimSlotStep(s: State, d: DispatcherId, key: SlotKey, run: RunId): State {
    s.(h := s.h.(runs := s.h.runs[run := key.job]))
     .SetKeys(s.db.keys[key := run]).SetDispatcher(d, Claimed(key, run))
  }

  function PublishSlotStep(s: State, d: DispatcherId): State requires s.Dispatcher(d).Claimed? {
    var c := s.Dispatcher(d);
    s.Publish(Message(c.key.job, c.run, 1, Some(c.key))).SetDispatcher(d, Announced(c.key.job, c.run))
  }

  function PublishSlotFailsStep(s: State, d: DispatcherId): State requires s.Dispatcher(d).Claimed? {
    s.SetDispatcher(d, Refused(s.Dispatcher(d).key, s.Dispatcher(d).run))
  }

  /** `release` deletes by key alone, whoever owns it now. */
  function ReleaseSlotStep(s: State, d: DispatcherId): State requires s.Dispatcher(d).Refused? {
    s.SetKeys(s.db.keys - {s.Dispatcher(d).key}).SetDispatcher(d, Ready)
  }

  function QueuedRow(job: JobId, run: RunId): Execution {
    Execution(job, run, 1, Queued, None, None, None, None, false, None)
  }

  /** A plain insert: refused by the unique key when a worker was faster, by the foreign key when the job is gone. */
  function InsertQueuedStep(s: State, d: DispatcherId): State requires s.Dispatcher(d).Announced? {
    var c := s.Dispatcher(d);
    var t := if Attempt(c.run, 1) in s.db.rows || c.job !in s.db.jobs then s.db.rows
             else s.db.rows[Attempt(c.run, 1) := QueuedRow(c.job, c.run)];
    s.SetRows(t).SetDispatcher(d, Ready)
  }

  // ---------------- worker ----------------

  function ConsumeStep(s: State, w: WorkerId): State requires s.q.ready != [] {
    var id := s.q.ready[0];
    s.(q := s.q.(ready := s.q.ready[1..], pending := s.q.pending[id := Lease(w, s.now, 1)]))
     .SetWorker(w, Fetched(id))
  }

  predicate CanTakeOver(s: State, w: WorkerId, id: MessageId, staleAfter: Time) {
    && s.Worker(w).Idle? && staleAfter >= s.minStale
    && id in s.q.pending && s.now - s.q.pending[id].deliveredAt >= staleAfter
  }

  function TakeOverStep(s: State, w: WorkerId, id: MessageId): State requires id in s.q.pending {
    s.(q := s.q.(pending := s.q.pending[id := Lease(w, s.now, s.q.pending[id].deliveries + 1)]))
     .SetWorker(w, Fetched(id))
  }

  function RenewStep(s: State, w: WorkerId): State requires !s.Worker(w).Idle? {
    var id := s.Worker(w).id;
    if s.q.RenewSucceeds(w, id) then
      s.(q := s.q.(pending := s.q.pending[id := s.q.pending[id].(deliveredAt := s.now)]))
    else s
  }

  function ReadJobStep(s: State, w: WorkerId): State requires s.Holds(w) {
    var id := s.Worker(w).id;
    s.SetWorker(w, if s.Held(w).job in s.db.jobs then Known(id) else Finishing(id))
  }

  predicate OwnedByOther(db: Database, m: Message) {
    m.key.Some? && m.key.value in db.keys && db.keys[m.key.value] != m.run
  }

  predicate IsDuplicate(db: Database, m: Message) {
    db.HandledAttempt(m.Id()) || OwnedByOther(db, m)
  }

  function CheckDuplicateStep(s: State, w: WorkerId): State requires s.Holds(w) {
    var id := s.Worker(w).id;
    s.SetWorker(w, if IsDuplicate(s.db, s.Held(w)) then Finishing(id) else Cleared(id))
  }

  /** An upsert raises only when it has to insert and the job is gone. */
  predicate CanUpsert(db: Database, m: Message) { m.Id() in db.rows || m.job in db.jobs }

  function StartedRow(h: History, m: Message, at: Time): Execution {
    Execution(m.job, m.run, m.attempt, Running, Some(at), None, None,
              Some(h.MaxAttempts(m.job)), false, None)
  }

  function PersistStartedStep(s: State, w: WorkerId, at: Time): State requires s.Holds(w) {
    s.SetRows(Upsert(s.db.rows, StartedRow(s.h, s.Held(w), at)))
     .SetWorker(w, Executing(s.Worker(w).id))
  }

  function FinalStatus(h: History, m: Message, o: Outcome): JobStatus {
    match o
    case Succeeded => Success
    case Stopped(_) => Canceled
    case NotRegistered(_) => Failed
    case Raised(_, _) => if m.attempt < h.MaxAttempts(m.job) then Retrying else Failed
  }

  function FinalRow(h: History, m: Message, o: Outcome, started: Time, finished: Time): Execution {
    var status := FinalStatus(h, m, o);
    Execution(m.job, m.run, m.attempt, status, Some(started), Some(finished),
              if o.Succeeded? then None else Some(o.error),
              if o.NotRegistered? then None else Some(h.MaxAttempts(m.job)), false,
              if status.Retrying? then Some(o.retryAt) else None)
  }

  /** A registered handler ran, or the handler is missing and the attempt is failed at once. */
  predicate CanPersistFinal(s: State, w: WorkerId, o: Outcome) {
    && s.Holds(w) && CanUpsert(s.db, s.Held(w))
    && (if o.NotRegistered? then s.Worker(w).Cleared? else s.Worker(w).Executing?)
  }

  function PersistFinalStep(s: State, w: WorkerId, o: Outcome, started: Time, finished: Time): State
    requires s.Holds(w)
  {
    s.SetRows(Upsert(s.db.rows, FinalRow(s.h, s.Held(w), o, started, finished)))
     .SetWorker(w, Finishing(s.Worker(w).id))
  }

  function AckStep(s: State, w: WorkerId): State requires !s.Worker(w).Idle? {
    var id := s.Worker(w).id;
    s.(q := s.q.(pending := s.q.pending - {id},
                 acked := if id in s.q.pending then s.q.acked + {id} else s.q.acked))
     .SetWorker(w, Idle)
  }

  // ---------------- sweeper ----------------

  /** A page of due rows, read in one transaction; nothing is claimed yet. */
  predicate CanListDue(s: State, p: SweeperId, now: Time, due: seq<Execution>) {
    && s.Sweeper(p) == Listed([])
    && forall ex :: ex in due ==>
         ex.Id() in s.db.rows && s.db.rows[ex.Id()] == ex && IsDueRetry(ex, now)
  }

  predicate CanClaimDue(s: State, p: SweeperId) {
    s.Sweeper(p).Listed? && s.Sweeper(p).due != []
  }

  function ClaimDueStep(s: State, p: SweeperId): State requires CanClaimDue(s, p) {
    var ex, rest := s.Sweeper(p).due[0], s.Sweeper(p).due[1..];
    s.SetRows(ClaimRetry(s.db.rows, ex.Id()))
     .SetSweeper(p, if HasSchedule(s.db.rows, ex.Id()) then Taken(ex, rest) else Listed(rest))
  }

  function PublishRetryStep(s: State, p: SweeperId): State requires s.Sweeper(p).Taken? {
    var ex := s.Sweeper(p).ex;
    s.Publish(Message(ex.job, ex.run, ex.attempt + 1, None)).SetSweeper(p, Listed(s.Sweeper(p).rest))
  }

  function PublishRetryFailsStep(s: State, p: SweeperId): State requires s.Sweeper(p).Taken? {
    s.SetSweeper(p, Bounced(s.Sweeper(p).ex, s.Sweeper(p).rest))
  }

  function RestoreRetryStep(s: State, p: SweeperId): State requires s.Sweeper(p).Bounced? {
    var ex := s.Sweeper(p).ex;
    s.SetRows(SetNextRetryAt(s.db.rows, ex.Id(), ex.nextRetryAt))
     .SetSweeper(p, Listed(s.Sweeper(p).rest))
  }

  // ---------------- operators ----------------

  function AddJobStep(s: State, j: JobId, n: nat): State {
    s.(h := s.h.(policies := s.h.policies[j := n]), db := s.db.(jobs := s.db.jobs + {j}))
  }

  /** Foreign keys cascade: a deleted job takes its executions and idempotency keys with it. */
  function DeleteJobStep(s: State, j: JobId): State {
    s.(db := Database(s.db.jobs - {j},
                      map k | k in s.db.keys && k.job != j :: s.db.keys[k],
                      map a | a in s.db.rows && s.db.rows[a].job != j :: s.db.rows[a]))
  }

  predicate CanRequestCancel(s: State, a: Attempt) {
    a in s.db.rows && !IsSuperseded(s.db.rows, a)
  }

  function CancelRow(ex: Execution, at: Time): Execution {
    match ex.status
    case Running => ex.(cancelRequested := true)
    case Recoverable => ex.(status := Canceled, finishedAt := Some(at))
    case _ => ex
  }

  function RequestCancelStep(s: State, a: Attempt, at: Time): State requires a in s.db.rows {
    s.SetRows(s.db.rows[a := CancelRow(s.db.rows[a], at)])
  }

  /** Time passes only while every live holder is within the shortest lease (heartbeats are on time). */
  predicate CanAdvance(s: State, dt: Time) {
    && dt >= 0
    && forall w | w in s.workers ::
         !s.Worker(w).Idle? && s.Worker(w).id in s.q.pending ==>
           s.now + dt - s.q.pending[s.Worker(w).id].deliveredAt < s.minStale
  }

  /** No process is in the middle of anything. */
  ghost predicate Quiet(s: State) {
    && (forall w :: s.Worker(w).Idle?)
    && (forall p :: s.Sweeper(p).Listed?)
    && (forall d :: s.Dispatcher(d).Ready?)
  }

  /** Every message still in the queue already has its attempt row, or belongs to a deleted job. */
  ghost predicate Projected(s: State) {
    forall id :: 0 <= id < |s.h.log| && s.q.Outstanding(id) ==>
      s.h.log[id].job !in s.db.jobs || s.h.log[id].Id() in s.db.rows
  }

  function RecoverStep(s: State, at: Time): State {
    s.(db := s.db.(rows := Recovery.RecoveredRows(s.db.rows, at),
                   keys := Recovery.LiveKeys(s.db.keys, s.db.rows)))
  }

  // ---------------- the transition system ----------------

  ghost predicate Enabled(s: State, a: Action) {
    match a
    case AddJob(j, n) => j !in s.h.policies && n >= 1
    case DeleteJob(j) => j in s.db.jobs
    case Advance(dt) => CanAdvance(s, dt)
    case ClaimSlot(d, k, r) => CanClaimSlot(s, d, k, r)
    case PublishSlot(d) => s.Dispatcher(d).Claimed?
    case PublishSlotFails(d) => s.Dispatcher(d).Claimed?
    case ReleaseSlot(d) => s.Dispatcher(d).Refused?
    case InsertQueued(d) => s.Dispatcher(d).Announced?
    case StopDispatcher(d) => true
    case Consume(w) => s.Worker(w).Idle? && s.q.ready != []
    case TakeOver(w, id, stale) => CanTakeOver(s, w, id, stale)
    case Renew(w) => !s.Worker(w).Idle?
    case ReadJob(w) => s.Worker(w).Fetched? && s.Holds(w)
    case CheckDuplicate(w) => s.Worker(w).Known? && s.Holds(w)
    case PersistStarted(w, _) => s.Worker(w).Cleared? && s.Holds(w) && CanUpsert(s.db, s.Held(w))
    case PersistFinal(w, o, _, _) => CanPersistFinal(s, w, o)
    case Ack(w) => s.Worker(w).Finishing?
    case StopWorker(w) => true
    case ListDue(p, now, due) => CanListDue(s, p, now, due)
    case ClaimDue(p) => CanClaimDue(s, p)
    case PublishRetry(p) => s.Sweeper(p).Taken?
    case PublishRetryFails(p) => s.Sweeper(p).Taken?
    case RestoreRetry(p) => s.Sweeper(p).Bounced?
    case StopSweeper(p) => true
    case RequestCancel(t, _) => CanRequestCancel(s, t)
    case Recover(_) => Quiet(s) && Projected(s)
  }

  function Apply(s: State, a: Action): State
    requires Enabled(s, a)
  {
    match a
    case AddJob(j, n) => AddJobStep(s, j, n)
    case DeleteJob(j) => DeleteJobStep(s, j)
    case Advance(dt) => s.(now := s.now + dt)
    case ClaimSlot(d, k, r) => ClaimSlotStep(s, d, k, r)
    case PublishSlot(d) => PublishSlotStep(s, d)
    case PublishSlotFails(d) => PublishSlotFailsStep(s, d)
    case ReleaseSlot(d) => ReleaseSlotStep(s, d)
    case InsertQueued(d) => InsertQueuedStep(s, d)
    case StopDispatcher(d) => s.SetDispatcher(d, Ready)
    case Consume(w) => ConsumeStep(s, w)
    case TakeOver(w, id, _) => TakeOverStep(s, w, id)
    case Renew(w) => RenewStep(s, w)
    case ReadJob(w) => ReadJobStep(s, w)
    case CheckDuplicate(w) => CheckDuplicateStep(s, w)
    case PersistStarted(w, at) => PersistStartedStep(s, w, at)
    case PersistFinal(w, o, t0, t1) => PersistFinalStep(s, w, o, t0, t1)
    case Ack(w) => AckStep(s, w)
    case StopWorker(w) => s.SetWorker(w, Idle)
    case ListDue(p, _, due) => s.SetSweeper(p, Listed(due))
    case ClaimDue(p) => ClaimDueStep(s, p)
    case PublishRetry(p) => PublishRetryStep(s, p)
    case PublishRetryFails(p) => PublishRetryFailsStep(s, p)
    case RestoreRetry(p) => RestoreRetryStep(s, p)
    case StopSweeper(p) => s.SetSweeper(p, Listed([]))
    case RequestCancel(t, at) => RequestCancelStep(s, t, at)
    case Recover(at) => RecoverStep(s, at)
  }

  ghost predicate Step(s: State, a: Action, t: State) {
    Enabled(s, a) && t == Apply(s, a)
  }

  /** A finite run: states joined by enabled actions, starting anywhere. */
  ghost predicate IsTrace(states: seq<State>, actions: seq<Action>) {
    && |states| == |actions| + 1
    && forall i {:trigger StepAt(states, actions, i)} :: 0 <= i < |actions| ==> StepAt(states, actions, i)
  }

  ghost predicate StepAt(states: seq<State>, actions: seq<Action>, i: nat)
    requires |states| == |actions| + 1 && i < |actions|
  {
    Step(states[i], actions[i], states[i + 1])
  }

  /** The states some run reaches from an empty system. */
  ghost predicate Reachable(s: State) {
    exists states, actions :: IsTrace(states, actions) && Init(states[0]) && states[|actions|] == s
  }
}
