/**
 The in-memory queue: a deque of ready messages and an insertion-ordered table of pending ones.
 The n-th published message has id n, counting from zero; the original numbers them "1-0", "2-0", ...
 */
module MemoryQueue {
  import opened Common
  import opened Protocol
  import Invariant

  datatype Item = Item(id: MessageId, message: Message)

  datatype Entry = Entry(id: MessageId, message: Message, consumer: WorkerId, deliveredAt: Time, deliveries: nat)

  datatype Delivery = Delivery(id: MessageId, message: Message, consumer: WorkerId, deliveries: nat)

  datatype Contents = Contents(published: nat, ready: seq<Item>, pending: seq<Entry>)

  // ---------------- what each operation does to the contents ----------------

  function Published(c: Contents, m: Message): Contents {
    c.(published := c.published + 1, ready := c.ready + [Item(c.published, m)])
  }

  function Consumed(c: Contents, w: WorkerId, now: Time): Contents {
    if c.ready == [] then c
    else c.(ready := c.ready[1..],
            pending := c.pending + [Entry(c.ready[0].id, c.ready[0].message, w, now, 1)])
  }

  predicate IsPending(p: seq<Entry>, id: MessageId) {
    exists i :: 0 <= i < |p| && p[i].id == id
  }

  function Without(p: seq<Entry>, id: MessageId): seq<Entry> {
    if p == [] then []
    else if p[0].id == id then p[1..]
    else [p[0]] + Without(p[1..], id)
  }

  predicate IsStale(e: Entry, now: Time, idle: Time) { now - e.deliveredAt >= idle }

  /** The stale entries, in the order in which they were delivered. */
  function StaleEntries(p: seq<Entry>, now: Time, idle: Time): seq<Entry> {
    if p == [] then []
    else
      var e := p[|p| - 1];
      StaleEntries(p[..|p| - 1], now, idle) + if IsStale(e, now, idle) then [e] else []
  }

  /** How many stale entries a claim of at most `count` takes. */
  function Quota(p: seq<Entry>, now: Time, idle: Time, count: int): nat {
    var n := |StaleEntries(p, now, idle)|;
    if count < 0 then 0 else if n < count then n else count
  }

  /** An entry is taken over when it is stale and fewer than `count` stale ones precede it. */
  predicate IsTaken(p: seq<Entry>, i: nat, now: Time, idle: Time, count: int) requires i < |p| {
    IsStale(p[i], now, idle) && |StaleEntries(p[..i], now, idle)| < count
  }

  function TakenOver(e: Entry, w: WorkerId, now: Time): Entry {
    e.(consumer := w, deliveredAt := now, deliveries := e.deliveries + 1)
  }

  function AfterTakeover(p: seq<Entry>, w: WorkerId, now: Time, idle: Time, count: int): seq<Entry> {
    seq(|p|, i requires 0 <= i < |p| => if IsTaken(p, i, now, idle, count) then TakenOver(p[i], w, now) else p[i])
  }

  function Deliveries(es: seq<Entry>, w: WorkerId, now: Time): seq<Delivery> {
    seq(|es|, i requires 0 <= i < |es| => DeliveryOf(TakenOver(es[i], w, now)))
  }

  function DeliveryOf(e: Entry): Delivery { Delivery(e.id, e.message, e.consumer, e.deliveries) }

  predicate RenewSucceeds(p: seq<Entry>, id: MessageId, w: WorkerId) {
    exists i :: 0 <= i < |p| && p[i].id == id && p[i].consumer == w
  }

  function Renewed(p: seq<Entry>, id: MessageId, w: WorkerId, now: Time): seq<Entry> {
    seq(|p|, i requires 0 <= i < |p| => if p[i].id == id && p[i].consumer == w then p[i].(deliveredAt := now) else p[i])
  }

  /** Ids are unique: never two entries, never both ready and pending. */
  ghost predicate Valid(c: Contents) {
    && (forall i, j :: 0 <= i < j < |c.ready| ==> c.ready[i].id < c.ready[j].id)
    && (forall i :: 0 <= i < |c.ready| ==> c.ready[i].id < c.published)
    && (forall i :: 0 <= i < |c.pending| ==> c.pending[i].id < c.published)
    && DistinctIds(c.pending)
    && (forall i, j :: 0 <= i < |c.ready| && 0 <= j < |c.pending| ==> c.ready[i].id != c.pending[j].id)
  }

  const EMPTY := Contents(0, [], [])

  ghost predicate DistinctIds(p: seq<Entry>) {
    forall i, j :: 0 <= i < j < |p| ==> p[i].id != p[j].id
  }

  /** Removing an id removes its one entry and keeps the others. */
  lemma {:induction false} WithoutFacts(p: seq<Entry>, id: MessageId)
    requires DistinctIds(p)
    ensures forall e :: e in Without(p, id) <==> e in p && e.id != id
    ensures DistinctIds(Without(p, id))
  {
    if p != [] {
      var q, r := Without(p[1..], id), Without(p, id);
      assert forall i :: 0 <= i < |p[1..]| ==> p[1..][i] == p[i + 1];
      WithoutFacts(p[1..], id);
      assert p == [p[0]] + p[1..];
      assert forall e :: e in p[1..] ==> e.id != p[0].id;
      if p[0].id != id {
        forall i, j | 0 <= i < j < |r| ensures r[i].id != r[j].id {
          assert r[j] == q[j - 1] && q[j - 1] in q;
          assert i > 0 ==> r[i] == q[i - 1];
        }
      }
    }
  }

  lemma {:induction false} PublishKeepsValid(c: Contents, m: Message)
    requires Valid(c)
    ensures Valid(Published(c, m))
  {
  }

  lemma {:induction false} ConsumeKeepsValid(c: Contents, w: WorkerId, now: Time)
    requires Valid(c)
    ensures Valid(Consumed(c, w, now))
  {
  }

  lemma {:induction false} AckKeepsValid(c: Contents, id: MessageId)
    requires Valid(c)
    ensures Valid(c.(pending := Without(c.pending, id))) && !IsPending(Without(c.pending, id), id)
  {
    WithoutFacts(c.pending, id);
    var q := Without(c.pending, id);
    assert forall i :: 0 <= i < |q| ==> q[i] in q;
  }

  /** Rewriting entries without touching their ids is harmless. */
  lemma {:induction false} SameIdsKeepValid(c: Contents, p: seq<Entry>)
    requires Valid(c) && |p| == |c.pending|
    requires forall i :: 0 <= i < |p| ==> p[i].id == c.pending[i].id
    ensures Valid(c.(pending := p))
  {
  }

  /** The loop over the pending entries: claim from the front until `count` are claimed. */
  method TakeStale(p: seq<Entry>, w: WorkerId, now: Time, idle: Time, count: int)
    returns (q: seq<Entry>, claimed: seq<Delivery>)
    ensures q == AfterTakeover(p, w, now, idle, count)
    ensures claimed == Deliveries(StaleEntries(p, now, idle)[..Quota(p, now, idle, count)], w, now)
  {
    q, claimed := p, [];
    var i := 0;
    while i < |q|
      invariant 0 <= i <= |q| == |p|
      invariant claimed == Deliveries(StaleEntries(p[..i], now, idle), w, now)
      invariant claimed == [] || |claimed| <= count
      invariant TakenBefore(p, q, i, w, now, idle)
    {
      if |claimed| >= count {
        break;
      }
      OneMoreEntry(p, i, w, now, idle);
      if IsStale(q[i], now, idle) {
        q := q[i := TakenOver(q[i], w, now)];
        claimed := claimed + [DeliveryOf(q[i])];
      }
      i := i + 1;
    }
    AllTaken(p, q, i, w, now, idle, count);
  }

  /** The stale entries before place `i` are taken over, and nothing else changed. */
  ghost predicate TakenBefore(p: seq<Entry>, q: seq<Entry>, i: nat, w: WorkerId, now: Time, idle: Time)
    requires |q| == |p|
  {
    forall j :: 0 <= j < |p| ==>
      q[j] == if j < i && IsStale(p[j], now, idle) then TakenOver(p[j], w, now) else p[j]
  }

  lemma {:induction false} AllTaken(p: seq<Entry>, q: seq<Entry>, i: nat, w: WorkerId, now: Time, idle: Time,
                                    count: int)
    requires i <= |p| == |q| && TakenBefore(p, q, i, w, now, idle)
    requires |StaleEntries(p[..i], now, idle)| == 0 || |StaleEntries(p[..i], now, idle)| <= count
    requires i == |p| || |StaleEntries(p[..i], now, idle)| >= count
    ensures q == AfterTakeover(p, w, now, idle, count)
    ensures StaleEntries(p[..i], now, idle) == StaleEntries(p, now, idle)[..Quota(p, now, idle, count)]
  {
    TakenAreTheFirstStale(p, i, now, idle, count);
    assert |q| == |AfterTakeover(p, w, now, idle, count)|;
  }

  lemma {:induction false} OneMoreEntry(p: seq<Entry>, i: nat, w: WorkerId, now: Time, idle: Time)
    requires i < |p|
    ensures Deliveries(StaleEntries(p[..i + 1], now, idle), w, now) ==
      Deliveries(StaleEntries(p[..i], now, idle), w, now)
      + if IsStale(p[i], now, idle) then [DeliveryOf(TakenOver(p[i], w, now))] else []
  {
    assert p[..i + 1][..i] == p[..i];
  }

  // ---------------- a claim on the entries alone ----------------

  /** The places before `i` whose entry was delivered at least `idle` ago. */
  function StalePlaces(p: seq<Entry>, i: nat, now: Time, idle: Time): set<nat>
    requires i <= |p|
  {
    set j: nat | j < i && now - p[j].deliveredAt >= idle
  }

  /**
   Entries keep their places. Exactly those delivered at least `idle` ago with fewer than `count` such before
   them change hands, and they are answered in that order.
   */
  ghost predicate Claims(p: seq<Entry>, q: seq<Entry>, claimed: seq<Delivery>, w: WorkerId, now: Time, idle: Time,
                         count: int)
  {
    && |q| == |p|
    && (forall i :: 0 <= i < |p| ==> EntryClaims(p, q, claimed, w, now, idle, count, i))
    && var stale := |StalePlaces(p, |p|, now, idle)|;
       |claimed| == if count < 0 then 0 else if stale < count then stale else count
  }

  ghost predicate EntryClaims(p: seq<Entry>, q: seq<Entry>, claimed: seq<Delivery>, w: WorkerId, now: Time, idle: Time,
                              count: int, i: nat)
    requires i < |p| == |q|
  {
    var k := |StalePlaces(p, i, now, idle)|;
    if now - p[i].deliveredAt >= idle && k < count then
      && q[i] == p[i].(consumer := w, deliveredAt := now, deliveries := p[i].deliveries + 1)
      && k < |claimed| && claimed[k] == Delivery(p[i].id, p[i].message, w, p[i].deliveries + 1)
    else q[i] == p[i]
  }

  lemma {:induction false} StaleCount(p: seq<Entry>, i: nat, now: Time, idle: Time)
    requires i <= |p|
    ensures |StaleEntries(p[..i], now, idle)| == |StalePlaces(p, i, now, idle)|
  {
    if i == 0 {
      assert StalePlaces(p, 0, now, idle) == {};
    } else {
      StaleCount(p, i - 1, now, idle);
      assert p[..i][..i - 1] == p[..i - 1];
      var last: set<nat> := if IsStale(p[i - 1], now, idle) then {i - 1} else {};
      assert StalePlaces(p, i, now, idle) == StalePlaces(p, i - 1, now, idle) + last;
    }
  }

  /** A stale entry is found at its rank. */
  lemma {:induction false} StaleRank(p: seq<Entry>, i: nat, now: Time, idle: Time)
    requires i < |p| && IsStale(p[i], now, idle)
    ensures var k := |StaleEntries(p[..i], now, idle)|;
      k < |StaleEntries(p, now, idle)| && StaleEntries(p, now, idle)[k] == p[i]
  {
    assert p[..i + 1][..i] == p[..i] && p[..|p|] == p;
    StaleEntriesPrefix(p, i + 1, |p|, now, idle);
  }

  /** What a claim does, on the entries, the clock and the limits alone. */
  lemma {:induction false} ClaimMeans(p: seq<Entry>, w: WorkerId, now: Time, idle: Time, count: int)
    ensures
      var claimed := Deliveries(StaleEntries(p, now, idle)[..Quota(p, now, idle, count)], w, now);
      Claims(p, AfterTakeover(p, w, now, idle, count), claimed, w, now, idle, count)
  {
    var claimed := Deliveries(StaleEntries(p, now, idle)[..Quota(p, now, idle, count)], w, now);
    var q := AfterTakeover(p, w, now, idle, count);
    forall i | 0 <= i < |p| ensures EntryClaims(p, q, claimed, w, now, idle, count, i) {
      StaleCount(p, i, now, idle);
      if IsStale(p[i], now, idle) {
        StaleRank(p, i, now, idle);
      }
    }
    assert p[..|p|] == p;
    StaleCount(p, |p|, now, idle);
  }

  /** The implementation: fields updated in place, the clock passed in. */
  class MemoryQueue {
    var published: nat
    var ready: seq<Item>
    var pending: seq<Entry>

    ghost function Value(): Contents reads this { Contents(published, ready, pending) }

    constructor ()
      ensures Value() == EMPTY
    {
      published, ready, pending := 0, [], [];
    }

    method Publish(m: Message) returns (id: MessageId)
      requires Valid(Value())
      modifies this
      ensures Valid(Value()) && Value() == Published(old(Value()), m)
      ensures id == old(published)
      ensures published == id + 1 && pending == old(pending) && ready == old(ready) + [Item(id, m)]
    {
      PublishKeepsValid(Value(), m);
      id := published;
      ready := ready + [Item(id, m)];
      published := published + 1;
    }

    method Consume(w: WorkerId, now: Time) returns (d: Option<Delivery>)
      requires Valid(Value())
      modifies this
      ensures Valid(Value()) && Value() == Consumed(old(Value()), w, now)
      ensures d == if old(ready) == [] then None
                   else Some(Delivery(old(ready)[0].id, old(ready)[0].message, w, 1))
      ensures if d.None? then Value() == old(Value())
              else
                && published == old(published) && old(ready) == [Item(d.value.id, d.value.message)] + ready
                && pending == old(pending) + [Entry(d.value.id, d.value.message, w, now, 1)]
    {
      if ready == [] {
        return None;
      }
      ConsumeKeepsValid(Value(), w, now);
      var item := ready[0];
      ready := ready[1..];
      pending := pending + [Entry(item.id, item.message, w, now, 1)];
      return Some(Delivery(item.id, item.message, w, 1));
    }

    method Ack(id: MessageId) returns (removed: bool)
      requires Valid(Value())
      modifies this
      ensures Valid(Value()) && Value() == old(Value()).(pending := Without(old(pending), id))
      ensures removed <==> IsPending(old(pending), id)
      ensures !IsPending(pending, id) && forall e :: e in pending <==> e in old(pending) && e.id != id
    {
      AckKeepsValid(Value(), id);
      WithoutFacts(pending, id);
      removed := IsPending(pending, id);
      pending := Without(pending, id);
    }

    method ClaimStale(w: WorkerId, now: Time, idle: Time, count: int) returns (claimed: seq<Delivery>)
      requires Valid(Value())
      modifies this
      ensures Valid(Value())
      ensures Value() == old(Value()).(pending := AfterTakeover(old(pending), w, now, idle, count))
      ensures claimed == Deliveries(StaleEntries(old(pending), now, idle)[..Quota(old(pending), now, idle, count)],
        w, now)
      ensures Claims(old(pending), pending, claimed, w, now, idle, count)
    {
      ClaimMeans(pending, w, now, idle, count);
      SameIdsKeepValid(Value(), AfterTakeover(pending, w, now, idle, count));
      pending, claimed := TakeStale(pending, w, now, idle, count);
    }

    method Renew(id: MessageId, w: WorkerId, now: Time) returns (held: bool)
      requires Valid(Value())
      modifies this
      ensures Valid(Value()) && Value() == old(Value()).(pending := Renewed(old(pending), id, w, now))
      ensures held <==> RenewSucceeds(old(pending), id, w)
      ensures |pending| == |old(pending)| && forall i :: 0 <= i < |pending| ==>
        var e := old(pending)[i];
        pending[i] == if e.id == id && e.consumer == w then e.(deliveredAt := now) else e
    {
      SameIdsKeepValid(Value(), Renewed(pending, id, w, now));
      held := RenewSucceeds(pending, id, w);
      if held {
        pending := Renewed(pending, id, w, now);
      } else {
        assert pending == Renewed(pending, id, w, now);
      }
    }
  }

  lemma {:induction false} StaleEntriesPrefix(p: seq<Entry>, i: nat, j: nat, now: Time, idle: Time)
    requires i <= j <= |p|
    ensures StaleEntries(p[..i], now, idle) <= StaleEntries(p[..j], now, idle)
    decreases j
  {
    if i < j {
      StaleEntriesPrefix(p, i, j - 1, now, idle);
      assert p[..j][..j - 1] == p[..j - 1];
    }
  }

  /** Claiming stale entries from the front until `count` are claimed takes exactly the ones that are due. */
  lemma {:induction false} TakenAreTheFirstStale(p: seq<Entry>, i: nat, now: Time, idle: Time, count: int)
    requires i <= |p| && (|StaleEntries(p[..i], now, idle)| == 0 || |StaleEntries(p[..i], now, idle)| <= count)
    requires i == |p| || |StaleEntries(p[..i], now, idle)| >= count
    ensures forall j :: 0 <= j < |p| ==> (IsTaken(p, j, now, idle, count) <==> j < i && IsStale(p[j], now, idle))
    ensures StaleEntries(p[..i], now, idle) == StaleEntries(p, now, idle)[..Quota(p, now, idle, count)]
  {
    forall j | 0 <= j < |p|
      ensures IsTaken(p, j, now, idle, count) <==> j < i && IsStale(p[j], now, idle)
    {
      if j < i {
        StaleEntriesPrefix(p, j + 1, i, now, idle);
        assert p[..j + 1][..j] == p[..j];
      } else {
        StaleEntriesPrefix(p, i, j, now, idle);
      }
    }
    StaleEntriesPrefix(p, i, |p|, now, idle);
    assert p[..|p|] == p;
  }

  // ---------------- whole runs ----------------

  datatype Op =
    | Publish(m: Message)
    | Consume(w: WorkerId, now: Time)
    | Ack(id: MessageId)
    | ClaimStale(w: WorkerId, now: Time, idle: Time, count: int)
    | Renew(id: MessageId, w: WorkerId, now: Time)

  function Do(c: Contents, op: Op): Contents {
    match op
    case Publish(m) => Published(c, m)
    case Consume(w, now) => Consumed(c, w, now)
    case Ack(id) => c.(pending := Without(c.pending, id))
    case ClaimStale(w, now, idle, count) => c.(pending := AfterTakeover(c.pending, w, now, idle, count))
    case Renew(id, w, now) => c.(pending := Renewed(c.pending, id, w, now))
  }

  function Run(ops: seq<Op>): Contents {
    if ops == [] then EMPTY else Do(Run(ops[..|ops| - 1]), ops[|ops| - 1])
  }

  /** The operation takes over the message. */
  predicate Takes(c: Contents, op: Op, id: MessageId) {
    op.ClaimStale? && exists i ::
      0 <= i < |c.pending| && c.pending[i].id == id && IsTaken(c.pending, i, op.now, op.idle, op.count)
  }

  function Takeovers(ops: seq<Op>, id: MessageId): nat {
    if ops == [] then 0
    else Takeovers(ops[..|ops| - 1], id) + if Takes(Run(ops[..|ops| - 1]), ops[|ops| - 1], id) then 1 else 0
  }

  /** The messages handed out for the first time, in order. */
  function FirstDeliveries(ops: seq<Op>): seq<MessageId> {
    if ops == [] then []
    else
      var c := Run(ops[..|ops| - 1]);
      FirstDeliveries(ops[..|ops| - 1])
        + if ops[|ops| - 1].Consume? && c.ready != [] then [c.ready[0].id] else []
  }

  lemma {:induction false} DoKeepsValid(c: Contents, op: Op)
    requires Valid(c)
    ensures Valid(Do(c, op))
  {
    match op
    case Publish(m) => PublishKeepsValid(c, m);
    case Consume(w, now) => ConsumeKeepsValid(c, w, now);
    case Ack(id) => AckKeepsValid(c, id);
    case ClaimStale(w, now, idle, count) => SameIdsKeepValid(c, AfterTakeover(c.pending, w, now, idle, count));
    case Renew(id, w, now) => SameIdsKeepValid(c, Renewed(c.pending, id, w, now));
  }

  lemma {:induction false} RunValid(ops: seq<Op>)
    ensures Valid(Run(ops))
  {
    if ops != [] {
      var c, op := Run(ops[..|ops| - 1]), ops[|ops| - 1];
      RunValid(ops[..|ops| - 1]);
      DoKeepsValid(c, op);
    }
  }

  /** First deliveries follow publishing order without gaps: the k-th one is message k. */
  lemma {:induction false} FirstDeliveriesInOrder(ops: seq<Op>)
    ensures forall k :: 0 <= k < |FirstDeliveries(ops)| ==> FirstDeliveries(ops)[k] == k
    ensures |FirstDeliveries(ops)| + |Run(ops).ready| == Run(ops).published
    ensures forall i :: 0 <= i < |Run(ops).ready| ==> Run(ops).ready[i].id == |FirstDeliveries(ops)| + i
  {
    if ops != [] {
      FirstDeliveriesInOrder(ops[..|ops| - 1]);
    }
  }

  /** A message is taken over only after it was delivered. */
  lemma {:induction false} UndeliveredNotTaken(ops: seq<Op>, id: MessageId)
    requires id >= |FirstDeliveries(ops)|
    ensures Takeovers(ops, id) == 0 && !IsPending(Run(ops).pending, id)
  {
    if ops != [] {
      var before := ops[..|ops| - 1];
      FirstDeliveriesInOrder(before);
      UndeliveredNotTaken(before, id);
      StepPendingIds(Run(before), ops[|ops| - 1], id);
    }
  }

  /** Only a delivery makes a message pending. */
  lemma {:induction false} StepPendingIds(c: Contents, op: Op, id: MessageId)
    requires !IsPending(c.pending, id)
    requires op.Consume? && c.ready != [] ==> c.ready[0].id != id
    ensures !IsPending(Do(c, op).pending, id) && !Takes(c, op, id)
  {
    var p := Do(c, op).pending;
    if op.Ack? {
      WithoutIds(c.pending, op.id);
    }
    forall i | 0 <= i < |p| ensures p[i].id != id {
      if op.Ack? {
        assert p[i] in p;
      }
    }
  }

  lemma {:induction false} WithoutIds(p: seq<Entry>, id: MessageId)
    ensures forall e :: e in Without(p, id) ==> e in p
  {
    if p != [] {
      WithoutIds(p[1..], id);
    }
  }

  /** An entry's delivery count is one plus the number of times its message was taken over. */
  lemma {:induction false} DeliveryCount(ops: seq<Op>, e: Entry)
    requires e in Run(ops).pending
    ensures e.deliveries == 1 + Takeovers(ops, e.id)
  {
    var before := ops[..|ops| - 1];
    var c, op := Run(before), ops[|ops| - 1];
    RunValid(before);
    var i :| 0 <= i < |Run(ops).pending| && Run(ops).pending[i] == e;
    if op.Consume? && c.ready != [] && i == |c.pending| {
      FirstDeliveriesInOrder(before);
      UndeliveredNotTaken(before, e.id);
    } else if op.ClaimStale? || op.Renew? || op.Publish? || op.Consume? {
      DeliveryCount(before, c.pending[i]);
    } else {
      WithoutFacts(c.pending, op.id);
      DeliveryCount(before, e);
    }
  }

  /** After a takeover the previous holder's renewals fail until it claims the message again itself. */
  lemma {:induction false} LostLeaseStaysLost(c: Contents, ops: seq<Op>, id: MessageId, w: WorkerId)
    requires Valid(c) && !RenewSucceeds(c.pending, id, w)
    requires forall i :: 0 <= i < |c.ready| ==> c.ready[i].id != id
    requires id < c.published
    requires NeverReclaims(c, ops, id, w)
    ensures !RenewSucceeds(RunFrom(c, ops).pending, id, w)
    decreases |ops|
  {
    if ops != [] {
      DoKeepsValid(c, ops[0]);
      StepKeepsLeaseLost(c, ops[0], id, w);
      LostLeaseStaysLost(Do(c, ops[0]), ops[1..], id, w);
    }
  }

  function RunFrom(c: Contents, ops: seq<Op>): Contents decreases |ops| {
    if ops == [] then c else RunFrom(Do(c, ops[0]), ops[1..])
  }

  ghost predicate NeverReclaims(c: Contents, ops: seq<Op>, id: MessageId, w: WorkerId) decreases |ops| {
    ops != [] ==>
      && !(ops[0].ClaimStale? && ops[0].w == w && Takes(c, ops[0], id))
      && NeverReclaims(Do(c, ops[0]), ops[1..], id, w)
  }

  lemma {:induction false} StepKeepsLeaseLost(c: Contents, op: Op, id: MessageId, w: WorkerId)
    requires !RenewSucceeds(c.pending, id, w)
    requires op.Consume? && c.ready != [] ==> c.ready[0].id != id
    requires !(op.ClaimStale? && op.w == w && Takes(c, op, id))
    ensures !RenewSucceeds(Do(c, op).pending, id, w)
  {
    var p := Do(c, op).pending;
    if op.Ack? {
      WithoutIds(c.pending, op.id);
    }
    forall i | 0 <= i < |p| ensures !(p[i].id == id && p[i].consumer == w) {
      if op.Ack? {
        assert p[i] in p;
      }
    }
  }

  // ---------------- the queue of the protocol ----------------

  function LeaseOf(e: Entry): Lease { Lease(e.consumer, e.deliveredAt, e.deliveries) }

  /** The contents are what the protocol's queue says they are, with the messages of the published log. */
  ghost predicate Implements(c: Contents, q: Queue, log: seq<Message>) {
    && Valid(c) && c.published == |log|
    && |q.ready| == |c.ready|
    && (forall i :: 0 <= i < |c.ready| ==> q.ready[i] == c.ready[i].id && c.ready[i].message == log[c.ready[i].id])
    && (forall id :: id in q.pending ==> IsPending(c.pending, id))
    && (forall i :: 0 <= i < |c.pending| ==> Backed(c.pending[i], q, log))
  }

  ghost predicate Backed(e: Entry, q: Queue, log: seq<Message>) {
    e.id < |log| && e.message == log[e.id] && e.id in q.pending && q.pending[e.id] == LeaseOf(e)
  }

  lemma {:induction false} PublishImplements(c: Contents, s: State, m: Message)
    requires Implements(c, s.q, s.h.log)
    ensures Implements(Published(c, m), s.Publish(m).q, s.Publish(m).h.log)
  {
    PublishKeepsValid(c, m);
    var log := s.Publish(m).h.log;
    forall i | 0 <= i < |c.pending| ensures Backed(c.pending[i], s.Publish(m).q, log) {
      assert Backed(c.pending[i], s.q, s.h.log);
    }
  }

  lemma {:induction false} ConsumeImplements(c: Contents, s: State, w: WorkerId)
    requires Implements(c, s.q, s.h.log) && c.ready != []
    ensures Implements(Consumed(c, w, s.now), ConsumeStep(s, w).q, s.h.log)
    ensures c.ready[0].message == s.h.log[c.ready[0].id]
  {
    ConsumeKeepsValid(c, w, s.now);
    var p, q := Consumed(c, w, s.now).pending, ConsumeStep(s, w).q;
    forall id | id in q.pending ensures IsPending(p, id) {
      if id == c.ready[0].id {
        assert p[|c.pending|].id == id;
      } else {
        var i :| 0 <= i < |c.pending| && c.pending[i].id == id;
        assert p[i].id == id;
      }
    }
    forall i | 0 <= i < |p| ensures Backed(p[i], q, s.h.log) {
      assert i < |c.pending| ==> Backed(c.pending[i], s.q, s.h.log);
    }
  }

  lemma {:induction false} AckImplements(c: Contents, s: State, w: WorkerId)
    requires Implements(c, s.q, s.h.log) && !s.Worker(w).Idle?
    ensures Implements(c.(pending := Without(c.pending, s.Worker(w).id)), AckStep(s, w).q, s.h.log)
  {
    var k := s.Worker(w).id;
    var p, q := Without(c.pending, k), AckStep(s, w).q;
    AckKeepsValid(c, k);
    forall id | id in q.pending ensures IsPending(p, id) {
      StaysPending(c.pending, k, id);
    }
    WithoutFacts(c.pending, k);
    forall i | 0 <= i < |p| ensures Backed(p[i], q, s.h.log) {
      assert p[i] in p;
      var j :| 0 <= j < |c.pending| && c.pending[j] == p[i];
      assert Backed(c.pending[j], s.q, s.h.log);
    }
  }

  lemma {:induction false} StaysPending(p: seq<Entry>, gone: MessageId, id: MessageId)
    requires DistinctIds(p) && IsPending(p, id) && id != gone
    ensures IsPending(Without(p, gone), id)
  {
    WithoutFacts(p, gone);
    var i :| 0 <= i < |p| && p[i].id == id;
    assert p[i] in Without(p, gone);
  }

  /** Rewriting the one entry of a message, keeping its payload. */
  lemma {:induction false} OneEntryRewritten(c: Contents, q: Queue, log: seq<Message>, k: nat, e: Entry)
    requires Implements(c, q, log) && k < |c.pending| && e.id == c.pending[k].id && e.message == c.pending[k].message
    ensures Implements(c.(pending := c.pending[k := e]), q.(pending := q.pending[e.id := LeaseOf(e)]), log)
  {
    var p, q' := c.pending[k := e], q.(pending := q.pending[e.id := LeaseOf(e)]);
    SameIdsKeepValid(c, p);
    assert Backed(c.pending[k], q, log);
    forall j | j in q'.pending ensures IsPending(p, j) {
      var i :| 0 <= i < |c.pending| && c.pending[i].id == j;
      assert p[i].id == j;
    }
    forall i | 0 <= i < |p| ensures Backed(p[i], q', log) {
      assert Backed(c.pending[i], q, log);
      assert i != k ==> c.pending[i].id != c.pending[k].id;
    }
  }

  lemma {:induction false} RenewImplements(c: Contents, s: State, w: WorkerId)
    requires Implements(c, s.q, s.h.log) && !s.Worker(w).Idle?
    ensures Implements(c.(pending := Renewed(c.pending, s.Worker(w).id, w, s.now)), RenewStep(s, w).q, s.h.log)
    ensures s.q.RenewSucceeds(w, s.Worker(w).id) <==> RenewSucceeds(c.pending, s.Worker(w).id, w)
  {
    var id := s.Worker(w).id;
    RenewAgrees(c, s.q, s.h.log, id, w);
    if RenewSucceeds(c.pending, id, w) {
      var k :| 0 <= k < |c.pending| && c.pending[k].id == id && c.pending[k].consumer == w;
      var e := c.pending[k].(deliveredAt := s.now);
      assert Backed(c.pending[k], s.q, s.h.log);
      OneEntryRewritten(c, s.q, s.h.log, k, e);
      assert Renewed(c.pending, id, w, s.now) == c.pending[k := e];
    } else {
      assert Renewed(c.pending, id, w, s.now) == c.pending;
    }
  }

  lemma {:induction false} RenewAgrees(c: Contents, q: Queue, log: seq<Message>, id: MessageId, w: WorkerId)
    requires Implements(c, q, log)
    ensures q.RenewSucceeds(w, id) <==> RenewSucceeds(c.pending, id, w)
  {
    if id in q.pending {
      var i :| 0 <= i < |c.pending| && c.pending[i].id == id;
      assert Backed(c.pending[i], q, log);
    }
    if RenewSucceeds(c.pending, id, w) {
      var i :| 0 <= i < |c.pending| && c.pending[i].id == id && c.pending[i].consumer == w;
      assert Backed(c.pending[i], q, log);
    }
  }

  /** The first stale entry is at some place, everything before it is fresh. */
  lemma {:induction false} FirstStale(p: seq<Entry>, now: Time, idle: Time) returns (k: nat)
    requires StaleEntries(p, now, idle) != []
    ensures k < |p| && IsStale(p[k], now, idle) && StaleEntries(p, now, idle)[0] == p[k]
    ensures forall i :: 0 <= i < |p| ==> (IsTaken(p, i, now, idle, 1) <==> i == k)
  {
    k := 0;
    assert p[..|p|] == p;
    while !IsStale(p[k], now, idle)
      invariant k < |p| && StaleEntries(p[..k], now, idle) == []
      decreases |p| - k
    {
      assert p[..k + 1][..k] == p[..k];
      k := k + 1;
    }
    assert p[..k + 1][..k] == p[..k];
    forall i | 0 <= i < |p| && i != k ensures !IsTaken(p, i, now, idle, 1) {
      assert p[..i + 1][..i] == p[..i];
      if i < k {
        StaleEntriesPrefix(p, i + 1, k, now, idle);
      } else {
        StaleEntriesPrefix(p, k + 1, i, now, idle);
      }
    }
    StaleEntriesPrefix(p, k + 1, |p|, now, idle);
  }

  lemma {:induction false} TakesOldestStale(p: seq<Entry>, w: WorkerId, now: Time, idle: Time) returns (k: nat)
    requires StaleEntries(p, now, idle) != []
    ensures k < |p| && IsStale(p[k], now, idle) && StaleEntries(p, now, idle)[0] == p[k]
    ensures AfterTakeover(p, w, now, idle, 1) == p[k := TakenOver(p[k], w, now)]
  {
    k := FirstStale(p, now, idle);
  }

  lemma {:induction false} NothingStale(p: seq<Entry>, w: WorkerId, now: Time, idle: Time)
    requires StaleEntries(p, now, idle) == []
    ensures AfterTakeover(p, w, now, idle, 1) == p
  {
    forall i | 0 <= i < |p| ensures !IsStale(p[i], now, idle) {
      assert p[..|p|] == p && p[..i + 1][..i] == p[..i];
      StaleEntriesPrefix(p, i + 1, |p|, now, idle);
    }
  }

  /** A worker's claim of one stale message is a takeover of the protocol, of the oldest stale message. */
  lemma {:induction false} TakeOverImplements(c: Contents, s: State, w: WorkerId, idle: Time)
    requires Implements(c, s.q, s.h.log) && s.Worker(w).Idle? && idle >= s.minStale
    requires StaleEntries(c.pending, s.now, idle) != []
    ensures var e := StaleEntries(c.pending, s.now, idle)[0];
      && CanTakeOver(s, w, e.id, idle) && e.message == s.h.log[e.id]
      && Implements(c.(pending := AfterTakeover(c.pending, w, s.now, idle, 1)), TakeOverStep(s, w, e.id).q, s.h.log)
  {
    var k := TakesOldestStale(c.pending, w, s.now, idle);
    assert Backed(c.pending[k], s.q, s.h.log);
    OneEntryRewritten(c, s.q, s.h.log, k, TakenOver(c.pending[k], w, s.now));
  }

  // ---------------- whole runs of the protocol ----------------

  /** The queue call an action of the protocol makes, if any. */
  ghost function CallOf(s: State, a: Action): Option<Op>
    requires Enabled(s, a)
  {
    match a
    case PublishSlot(d) =>
      var pc := s.Dispatcher(d);
      Some(Publish(Message(pc.key.job, pc.run, 1, Some(pc.key))))
    case PublishRetry(p) =>
      var ex := s.Sweeper(p).ex;
      Some(Publish(Message(ex.job, ex.run, ex.attempt + 1, None)))
    case Consume(w) => Some(Op.Consume(w, s.now))
    case TakeOver(w, _, stale) => Some(ClaimStale(w, s.now, stale, 1))
    case Renew(w) => Some(Op.Renew(s.Worker(w).id, w, s.now))
    case Ack(w) => Some(Op.Ack(s.Worker(w).id))
    case _ => None
  }

  /** A takeover is of the message the queue hands out. */
  ghost predicate QueueChooses(c: Contents, s: State, a: Action) {
    a.TakeOver? ==>
      var stale := StaleEntries(c.pending, s.now, a.staleAfter);
      stale != [] && a.id == stale[0].id
  }

  ghost function AfterCall(c: Contents, s: State, a: Action): Contents
    requires Enabled(s, a)
  {
    var call := CallOf(s, a);
    if call.None? then c else Do(c, call.value)
  }

  lemma {:induction false} PublishStepImplements(c: Contents, s: State, a: Action)
    requires Implements(c, s.q, s.h.log) && Enabled(s, a) && (a.PublishSlot? || a.PublishRetry?)
    ensures Implements(AfterCall(c, s, a), Apply(s, a).q, Apply(s, a).h.log)
  {
    var m := CallOf(s, a).value.m;
    PublishImplements(c, s, m);
    assert Apply(s, a).q == s.Publish(m).q && Apply(s, a).h.log == s.Publish(m).h.log;
  }

  /** What the other calls do to the contents and to the protocol's queue. */
  lemma {:induction false} CallsOfWorkers(c: Contents, s: State, a: Action)
    requires Enabled(s, a)
    ensures a.Consume? ==>
      AfterCall(c, s, a) == Consumed(c, a.w, s.now) && Apply(s, a).q == ConsumeStep(s, a.w).q
    ensures a.TakeOver? ==>
      && AfterCall(c, s, a) == c.(pending := AfterTakeover(c.pending, a.w, s.now, a.staleAfter, 1))
      && Apply(s, a).q == TakeOverStep(s, a.w, a.id).q
    ensures a.Renew? ==>
      && AfterCall(c, s, a) == c.(pending := Renewed(c.pending, s.Worker(a.w).id, a.w, s.now))
      && Apply(s, a).q == RenewStep(s, a.w).q
    ensures a.Ack? ==>
      && AfterCall(c, s, a) == c.(pending := Without(c.pending, s.Worker(a.w).id))
      && Apply(s, a).q == AckStep(s, a.w).q
    ensures a.Consume? || a.TakeOver? || a.Renew? || a.Ack? ==> Apply(s, a).h == s.h
  {
  }

  lemma {:induction false} TakeOverStepImplements(c: Contents, s: State, a: Action)
    requires Implements(c, s.q, s.h.log) && Enabled(s, a) && QueueChooses(c, s, a) && a.TakeOver?
    ensures Implements(AfterCall(c, s, a), Apply(s, a).q, Apply(s, a).h.log)
  {
    CallsOfWorkers(c, s, a);
    assert CanTakeOver(s, a.w, a.id, a.staleAfter);
    TakeOverImplements(c, s, a.w, a.staleAfter);
  }

  lemma {:induction false} WorkerStepImplements(c: Contents, s: State, a: Action)
    requires Implements(c, s.q, s.h.log) && Enabled(s, a) && (a.Consume? || a.Renew? || a.Ack?)
    ensures Implements(AfterCall(c, s, a), Apply(s, a).q, Apply(s, a).h.log)
  {
    CallsOfWorkers(c, s, a);
    if a.Consume? {
      ConsumeImplements(c, s, a.w);
    } else if a.Renew? {
      RenewImplements(c, s, a.w);
    } else {
      AckImplements(c, s, a.w);
    }
  }

  lemma {:induction false} QueueStepImplements(c: Contents, s: State, a: Action)
    requires Implements(c, s.q, s.h.log) && Enabled(s, a) && QueueChooses(c, s, a) && CallOf(s, a).Some?
    ensures Implements(AfterCall(c, s, a), Apply(s, a).q, Apply(s, a).h.log)
  {
    if a.PublishSlot? || a.PublishRetry? {
      PublishStepImplements(c, s, a);
    } else if a.TakeOver? {
      TakeOverStepImplements(c, s, a);
    } else {
      WorkerStepImplements(c, s, a);
    }
  }

  lemma {:induction false} QuietStepImplements(s: State, a: Action)
    requires Enabled(s, a) && CallOf(s, a).None?
    ensures Apply(s, a).q == s.q && Apply(s, a).h.log == s.h.log
  {
  }

  /** The contents after the queue calls of a run. */
  ghost function AfterCalls(c: Contents, states: seq<State>, actions: seq<Action>): Contents
    requires IsTrace(states, actions)
    decreases |actions|
  {
    if actions == [] then c
    else
      Invariant.TraceTail(states, actions);
      AfterCalls(AfterCall(c, states[0], actions[0]), states[1..], actions[1..])
  }

  ghost predicate AllChosen(c: Contents, states: seq<State>, actions: seq<Action>)
    requires IsTrace(states, actions)
    decreases |actions|
  {
    actions == [] ||
    (Invariant.TraceTail(states, actions);
     && QueueChooses(c, states[0], actions[0])
     && AllChosen(AfterCall(c, states[0], actions[0]), states[1..], actions[1..]))
  }

  /** Put in place of the protocol's queue, the implementation stays equal to it over every run. */
  lemma {:induction false} QueueImplementsRuns(c: Contents, states: seq<State>, actions: seq<Action>)
    requires IsTrace(states, actions) && Implements(c, states[0].q, states[0].h.log) && AllChosen(c, states, actions)
    ensures Implements(AfterCalls(c, states, actions), states[|actions|].q, states[|actions|].h.log)
    decreases |actions|
  {
    if actions != [] {
      Invariant.TraceTail(states, actions);
      if CallOf(states[0], actions[0]).Some? {
        QueueStepImplements(c, states[0], actions[0]);
      } else {
        QuietStepImplements(states[0], actions[0]);
      }
      QueueImplementsRuns(AfterCall(c, states[0], actions[0]), states[1..], actions[1..]);
    }
  }

  /** From the empty system on: a new queue stays equal to the protocol's, as long as takeovers are its own choice. */
  lemma {:induction false} NewQueueImplementsRuns(states: seq<State>, actions: seq<Action>)
    requires IsTrace(states, actions) && Init(states[0]) && AllChosen(EMPTY, states, actions)
    ensures Implements(AfterCalls(EMPTY, states, actions), states[|actions|].q, states[|actions|].h.log)
  {
    EmptyImplements(states[0]);
    QueueImplementsRuns(EMPTY, states, actions);
  }

  /** A new queue implements the empty system's. */
  lemma {:induction false} EmptyImplements(s: State)
    requires Init(s)
    ensures Implements(EMPTY, s.q, s.h.log)
  {
  }
}
