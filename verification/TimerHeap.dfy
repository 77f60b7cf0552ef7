/**
 The heap both tickers keep, as the priority queue it implements: entries ordered by time and,
 within one instant, by the order in which they were pushed.
 */
module TimerHeap {
  import opened Common
  import opened Schedule
  import opened Models
  import opened Idempotency

  /** A registered pair; `origin` counts registrations, so that equal pairs can be told apart. */
  datatype Trigger = Trigger(origin: nat, job: Job, schedule: Schedule) {
    predicate Enabled() { schedule.enabled && job.enabled }
  }

  datatype Failure = BadKey(error: KeyError) | Overflow

  /** A time past the last representable day raises instead of being pushed. */
  function NextSlot(t: Trigger, now: Time): Result<Time, Failure> {
    var next := ComputeNextRun(t.schedule.rule, now);
    if InCalendar(next) then Ok(next) else Err(Overflow)
  }


  datatype Entry<T> = Entry(at: Time, seqNo: nat, trigger: Trigger, what: T)

  predicate Before<T>(a: Entry<T>, b: Entry<T>) {
    a.at < b.at || (a.at == b.at && a.seqNo < b.seqNo)
  }

  ghost predicate AllAfter<T>(x: Entry<T>, h: seq<Entry<T>>) {
    forall e :: e in h ==> Before(x, e)
  }

  ghost predicate Ordered<T>(h: seq<Entry<T>>) {
    h != [] ==> AllAfter(h[0], h[1..]) && Ordered(h[1..])
  }

  lemma {:induction false} OrderedMeans<T>(h: seq<Entry<T>>, i: nat, j: nat)
    requires Ordered(h) && i < j < |h|
    ensures Before(h[i], h[j])
  {
    if i == 0 {
      assert h[j] == h[1..][j - 1];
    } else {
      OrderedMeans(h[1..], i - 1, j - 1);
    }
  }

  /** Every sequence number was handed out already. */
  ghost predicate Numbered<T>(h: seq<Entry<T>>, next: nat) {
    forall e :: e in h ==> e.seqNo < next
  }

  function Insert<T>(h: seq<Entry<T>>, e: Entry<T>): seq<Entry<T>> {
    if h == [] || Before(e, h[0]) then [e] + h else [h[0]] + Insert(h[1..], e)
  }

  lemma {:induction false} InsertAdds<T>(h: seq<Entry<T>>, e: Entry<T>)
    ensures multiset(Insert(h, e)) == multiset(h) + multiset{e}
    ensures |Insert(h, e)| == |h| + 1
  {
    if h != [] && !Before(e, h[0]) {
      InsertAdds(h[1..], e);
      assert h == [h[0]] + h[1..];
    }
  }

  lemma {:induction false} InsertHas<T>(h: seq<Entry<T>>, e: Entry<T>, x: Entry<T>)
    ensures x in Insert(h, e) <==> x in h || x == e
  {
    InsertAdds(h, e);
    assert x in Insert(h, e) <==> x in multiset(Insert(h, e));
  }

  lemma {:induction false} InsertAllAfter<T>(x: Entry<T>, h: seq<Entry<T>>, e: Entry<T>)
    requires AllAfter(x, h) && Before(x, e)
    ensures AllAfter(x, Insert(h, e))
  {
    forall y | y in Insert(h, e) ensures Before(x, y) {
      InsertHas(h, e, y);
    }
  }

  lemma {:induction false} AllAfterCons<T>(x: Entry<T>, h: seq<Entry<T>>)
    requires h != [] && Before(x, h[0]) && AllAfter(h[0], h[1..])
    ensures AllAfter(x, h)
  {
    assert h == [h[0]] + h[1..];
  }

  lemma {:induction false} InsertKeepsOrder<T>(h: seq<Entry<T>>, e: Entry<T>)
    requires Ordered(h) && Numbered(h, e.seqNo)
    ensures Ordered(Insert(h, e))
  {
    if h != [] {
      if Before(e, h[0]) {
        AllAfterCons(e, h);
        assert ([e] + h)[1..] == h;
      } else {
        assert h[0] in h;
        InsertKeepsOrder(h[1..], e);
        InsertAllAfter(h[0], h[1..], e);
        assert Insert(h, e)[1..] == Insert(h[1..], e);
      }
    }
  }

  lemma {:induction false} InsertKeepsNumbers<T>(h: seq<Entry<T>>, e: Entry<T>)
    requires Numbered(h, e.seqNo)
    ensures Numbered(Insert(h, e), e.seqNo + 1)
  {
    forall y | y in Insert(h, e) ensures y.seqNo < e.seqNo + 1 {
      InsertHas(h, e, y);
    }
  }

  /** How many entries at the front are due. */
  function DueCount<T>(h: seq<Entry<T>>, now: Time): (n: nat)
    ensures n <= |h|
  {
    if h == [] || h[0].at > now then 0 else 1 + DueCount(h[1..], now)
  }

  function Due<T>(h: seq<Entry<T>>, now: Time): seq<Entry<T>> { h[..DueCount(h, now)] }

  function Waiting<T>(h: seq<Entry<T>>, now: Time): seq<Entry<T>> { h[DueCount(h, now)..] }

  /** The front of an ordered heap is exactly what is due. */
  lemma {:induction false} DueExactly<T>(h: seq<Entry<T>>, now: Time)
    requires Ordered(h)
    ensures h == Due(h, now) + Waiting(h, now)
    ensures forall e :: e in Due(h, now) ==> e.at <= now
    ensures forall e :: e in Waiting(h, now) ==> e.at > now
    ensures Ordered(Waiting(h, now))
  {
    if h != [] {
      if h[0].at > now {
        assert Waiting(h, now) == h == [h[0]] + h[1..];
      } else {
        DueExactly(h[1..], now);
        assert Due(h, now) == [h[0]] + Due(h[1..], now);
        assert Waiting(h, now) == Waiting(h[1..], now);
      }
    }
  }

  /** Popping the due front one entry at a time. */
  method PopDue<T>(h: seq<Entry<T>>, now: Time) returns (due: seq<Entry<T>>, rest: seq<Entry<T>>)
    requires Ordered(h)
    ensures due == Due(h, now) && rest == Waiting(h, now)
    ensures forall e :: e in due ==> e.at <= now
    ensures forall e :: e in rest ==> e.at > now
  {
    DueExactly(h, now);
    due, rest := [], h;
    while rest != [] && rest[0].at <= now
      invariant due + Due(rest, now) == Due(h, now) && Waiting(rest, now) == Waiting(h, now)
      decreases |rest|
    {
      assert Due(rest, now) == [rest[0]] + Due(rest[1..], now);
      assert Waiting(rest, now) == Waiting(rest[1..], now);
      due, rest := due + [rest[0]], rest[1..];
    }
  }

  // ---------------- who is in the heap ----------------

  function Triggers<T>(h: seq<Entry<T>>): seq<Trigger> {
    seq(|h|, i requires 0 <= i < |h| => h[i].trigger)
  }

  function Items<T>(h: seq<Entry<T>>): multiset<Trigger> { multiset(Triggers(h)) }

  lemma {:induction false} ItemsConcat<T>(g: seq<Entry<T>>, h: seq<Entry<T>>)
    ensures Items(g + h) == Items(g) + Items(h)
  {
    assert Triggers(g + h) == Triggers(g) + Triggers(h);
  }

  lemma {:induction false} ItemsCons<T>(e: Entry<T>, h: seq<Entry<T>>)
    ensures Items([e] + h) == multiset{e.trigger} + Items(h)
  {
    assert Triggers([e] + h) == [e.trigger] + Triggers(h);
  }

  lemma {:induction false} ItemsInsert<T>(h: seq<Entry<T>>, e: Entry<T>)
    ensures Items(Insert(h, e)) == Items(h) + multiset{e.trigger}
  {
    if h == [] || Before(e, h[0]) {
      ItemsCons(e, h);
    } else {
      ItemsInsert(h[1..], e);
      ItemsCons(h[0], Insert(h[1..], e));
      ItemsCons(h[0], h[1..]);
      assert h == [h[0]] + h[1..];
    }
  }

  lemma {:induction false} ItemsHas<T>(h: seq<Entry<T>>, e: Entry<T>)
    requires e in h
    ensures e.trigger in Items(h)
  {
    var i :| 0 <= i < |h| && h[i] == e;
    assert Triggers(h)[i] == e.trigger;
  }

  lemma {:induction false} SumsRegroup<X>(a: multiset<X>, b: multiset<X>, c: multiset<X>)
    ensures a + b + c == a + (b + c)
  {
  }

  lemma {:induction false} ItemsSnoc<T>(h: seq<Entry<T>>, n: nat)
    requires n < |h|
    ensures Items(h[..n + 1]) == Items(h[..n]) + multiset{h[n].trigger}
  {
    assert Triggers(h[..n + 1]) == Triggers(h[..n]) + [h[n].trigger];
  }

  ghost predicate Registered(reg: seq<Trigger>) {
    forall i :: 0 <= i < |reg| ==> reg[i].origin == i
  }

  lemma {:induction false} RegisteredOnce(reg: seq<Trigger>, t: Trigger)
    requires Registered(reg)
    ensures multiset(reg)[t] <= 1
  {
    if reg != [] {
      var init := reg[..|reg| - 1];
      RegisteredOnce(init, t);
      assert reg == init + [reg[|reg| - 1]];
      if multiset(init)[t] == 1 {
        assert t in init;
      }
    }
  }

  lemma {:induction false} OriginIsKnown(reg: seq<Trigger>, t: Trigger, m: multiset<Trigger>)
    requires Registered(reg) && t in m && m <= multiset(reg)
    ensures t.origin < |reg|
  {
    assert t in multiset(reg);
    var i :| 0 <= i < |reg| && reg[i] == t;
  }

  lemma {:induction false} OthersDiffer<T>(reg: seq<Trigger>, heap: seq<Entry<T>>, e: Entry<T>,
                                           rest: seq<Entry<T>>, x: Entry<T>)
    requires Registered(reg) && Items(heap) + Items([e] + rest) <= multiset(reg)
    requires x in heap || x in rest
    ensures x.trigger != e.trigger
  {
    ItemsCons(e, rest);
    RegisteredOnce(reg, e.trigger);
    assert (Items(heap) + Items([e] + rest))[e.trigger] <= 1;
    if x in heap {
      ItemsHas(heap, x);
    } else {
      ItemsHas(rest, x);
    }
  }

  /** A pair that was registered once has one entry. */
  lemma {:induction false} OneEntryPerPair<T>(reg: seq<Trigger>, heap: seq<Entry<T>>, x: Entry<T>, y: Entry<T>)
    requires Registered(reg) && Items(heap) <= multiset(reg) && x in heap && y in heap && x.trigger == y.trigger
    ensures x == y
  {
    var i :| 0 <= i < |heap| && heap[i] == x;
    var rest := heap[..i] + heap[i + 1..];
    assert heap == heap[..i] + [x] + heap[i + 1..];
    ItemsConcat(heap[..i] + [x], heap[i + 1..]);
    ItemsConcat(heap[..i], [x]);
    ItemsConcat(heap[..i], heap[i + 1..]);
    ItemsCons(x, []);
    assert [x] + [] == [x] && Triggers<T>([]) == [];
    assert Items(heap) == Items(rest) + multiset{x.trigger};
    RegisteredOnce(reg, x.trigger);
    if y in rest {
      ItemsHas(rest, y);
    }
  }

  /** ... and at one place only. */
  lemma {:induction false} OnePlacePerPair<T>(reg: seq<Trigger>, h: seq<Entry<T>>, i: nat, k: nat)
    requires Registered(reg) && Items(h) <= multiset(reg) && i < |h| && k < |h| && h[i].trigger == h[k].trigger
    ensures i == k
  {
    RegisteredOnce(reg, h[i].trigger);
    if i < k {
      TwiceCounted(Triggers(h), i, k);
    } else if k < i {
      TwiceCounted(Triggers(h), k, i);
    }
  }

  lemma {:induction false} TwiceCounted(s: seq<Trigger>, i: nat, k: nat)
    requires i < k < |s| && s[i] == s[k]
    ensures multiset(s)[s[i]] >= 2
  {
    var front, back := s[..k], s[k..];
    assert s == front + back && front[i] == s[i] && back[0] == s[i];
    assert s[i] in front && s[i] in back;
  }

  /** The first `n` parts, one after the other. */
  function Joined<X>(part: nat -> seq<X>, n: nat): seq<X> {
    if n == 0 then [] else Joined(part, n - 1) + part(n - 1)
  }

  lemma {:induction false} JoinedHas<X>(part: nat -> seq<X>, n: nat, k: nat, x: X)
    requires k < n && x in part(k)
    ensures x in Joined(part, n)
  {
    if k < n - 1 {
      JoinedHas(part, n - 1, k, x);
    }
  }

  lemma {:induction false} JoinedWhich<X>(part: nat -> seq<X>, n: nat, x: X) returns (k: nat)
    requires x in Joined(part, n)
    ensures k < n && x in part(k)
  {
    if x in Joined(part, n - 1) {
      k := JoinedWhich(part, n - 1, x);
    } else {
      k := n - 1;
    }
  }

  // ---------------- handling what was popped ----------------

  /** What handling popped entries leaves, and the exception that ended it, if any. */
  datatype Handled<D> = Handled(desk: D, failure: Option<Failure>)

  /** The first `n` due entries in order, stopping at the first exception. */
  function HandleAll<D, T, V>(handle: (D, Entry<T>, V) -> Handled<D>, d: D, due: seq<Entry<T>>, vs: seq<V>, n: nat)
    : Handled<D>
    requires n <= |due| == |vs|
  {
    if n == 0 then Handled(d, None)
    else
      var before := HandleAll(handle, d, due, vs, n - 1);
      if before.failure.Some? then before else handle(before.desk, due[n - 1], vs[n - 1])
  }

  lemma {:induction false} HandleAllStops<D, T, V>(
    handle: (D, Entry<T>, V) -> Handled<D>, d: D, due: seq<Entry<T>>, vs: seq<V>, m: nat, n: nat)
    requires m <= n <= |due| == |vs| && HandleAll(handle, d, due, vs, m).failure.Some?
    ensures HandleAll(handle, d, due, vs, n) == HandleAll(handle, d, due, vs, m)
    decreases n
  {
    if m < n {
      HandleAllStops(handle, d, due, vs, m, n - 1);
    }
  }

  /** The first entry that raises, or the number of entries. */
  function FirstFailing<V>(fails: V -> bool, vs: seq<V>, n: nat): (c: nat)
    requires n <= |vs|
    ensures c <= n && (c < n ==> fails(vs[c]))
    ensures forall i :: 0 <= i < c ==> !fails(vs[i])
  {
    if n == 0 then 0
    else
      var c := FirstFailing(fails, vs, n - 1);
      if c < n - 1 || fails(vs[n - 1]) then c else n
  }

  /** How many of the first `n` entries are begun: all up to and including the first that raises. */
  function Begun<V>(fails: V -> bool, vs: seq<V>, n: nat): (m: nat)
    requires n <= |vs|
    ensures m <= n
  {
    var c := FirstFailing(fails, vs, n);
    if c < n then c + 1 else n
  }

  lemma {:induction false} BegunStep<V>(fails: V -> bool, vs: seq<V>, n: nat)
    requires 0 < n <= |vs|
    ensures FirstFailing(fails, vs, n - 1) < n - 1 ==>
      Begun(fails, vs, n) == Begun(fails, vs, n - 1) && FirstFailing(fails, vs, n) == FirstFailing(fails, vs, n - 1)
    ensures FirstFailing(fails, vs, n - 1) == n - 1 ==> Begun(fails, vs, n) == n && Begun(fails, vs, n - 1) == n - 1
  {
  }

  /** Handling one entry raises exactly when its verdict says so, and otherwise keeps its pair's one place. */
  ghost predicate KeepsPlace<D, T, V>(
    handle: (D, Entry<T>, V) -> Handled<D>, heap: D -> seq<Entry<T>>, fails: V -> bool, d: D, e: Entry<T>, v: V)
  {
    var r := handle(d, e, v);
    && (r.failure.Some? <==> fails(v))
    && Items(heap(r.desk)) == Items(heap(d)) + if fails(v) then multiset{} else multiset{e.trigger}
  }

  ghost predicate AllKeepPlaces<D(!new), T(!new), V(!new)>(
    handle: (D, Entry<T>, V) -> Handled<D>, heap: D -> seq<Entry<T>>, fails: V -> bool)
  {
    forall d, e, v {:trigger KeepsPlace(handle, heap, fails, d, e, v)} :: KeepsPlace(handle, heap, fails, d, e, v)
  }

  /** A tick raises exactly when some due entry does. */
  lemma {:induction false} StopsAtFirstFailing<D(!new), T(!new), V(!new)>(
    handle: (D, Entry<T>, V) -> Handled<D>, heap: D -> seq<Entry<T>>, fails: V -> bool,
    d: D, due: seq<Entry<T>>, vs: seq<V>, n: nat)
    requires n <= |due| == |vs| && AllKeepPlaces(handle, heap, fails)
    ensures HandleAll(handle, d, due, vs, n).failure.Some? <==> FirstFailing(fails, vs, n) < n
  {
    if n > 0 {
      StopsAtFirstFailing(handle, heap, fails, d, due, vs, n - 1);
      BegunStep(fails, vs, n);
      var before := HandleAll(handle, d, due, vs, n - 1);
      assert KeepsPlace(handle, heap, fails, before.desk, due[n - 1], vs[n - 1]);
    }
  }

  /** The due entries are handled in order up to the first exception, and each keeps its pair's one place. */
  lemma {:induction false} TickConserves<D(!new), T(!new), V(!new)>(
    handle: (D, Entry<T>, V) -> Handled<D>, heap: D -> seq<Entry<T>>, fails: V -> bool,
    d: D, due: seq<Entry<T>>, vs: seq<V>, n: nat)
    requires n <= |due| == |vs| && AllKeepPlaces(handle, heap, fails)
    ensures Items(heap(HandleAll(handle, d, due, vs, n).desk))
      == Items(heap(d)) + Items(due[..FirstFailing(fails, vs, n)])
  {
    if n == 0 {
      assert Triggers(due[..0]) == [];
    } else {
      TickConserves(handle, heap, fails, d, due, vs, n - 1);
      StopsAtFirstFailing(handle, heap, fails, d, due, vs, n - 1);
      BegunStep(fails, vs, n);
      var before := HandleAll(handle, d, due, vs, n - 1);
      if before.failure.None? {
        assert KeepsPlace(handle, heap, fails, before.desk, due[n - 1], vs[n - 1]);
        ItemsSnoc(due, n - 1);
        SumsRegroup(Items(heap(d)), Items(due[..n - 1]), multiset{due[n - 1].trigger});
      }
    }
  }

  /** If the view of a desk is as expected before entry `k`, it is as expected after it. */
  ghost predicate Tracks<D, T, V, X>(
    handle: (D, Entry<T>, V) -> Handled<D>, view: D -> X, expected: nat -> X, due: seq<Entry<T>>, vs: seq<V>, d: D,
      k: nat)
    requires k < |due| == |vs|
  {
    view(d) == expected(k) ==> view(handle(d, due[k], vs[k]).desk) == expected(k + 1)
  }

  /** A view that follows its expectation entry by entry follows it over the whole tick. */
  lemma {:induction false} TickFollows<D(!new), T(!new), V(!new), X>(
    handle: (D, Entry<T>, V) -> Handled<D>, heap: D -> seq<Entry<T>>, fails: V -> bool, view: D -> X,
      expected: nat -> X,
    d: D, due: seq<Entry<T>>, vs: seq<V>, n: nat)
    requires n <= |due| == |vs| && AllKeepPlaces(handle, heap, fails) && view(d) == expected(0)
    requires forall x, k: nat {:trigger Tracks(handle, view, expected, due, vs, x, k)} ::
      k < |due| ==> Tracks(handle, view, expected, due, vs, x, k)
    ensures view(HandleAll(handle, d, due, vs, n).desk) == expected(Begun(fails, vs, n))
  {
    if n > 0 {
      TickFollows(handle, heap, fails, view, expected, d, due, vs, n - 1);
      StopsAtFirstFailing(handle, heap, fails, d, due, vs, n - 1);
      BegunStep(fails, vs, n);
      var before := HandleAll(handle, d, due, vs, n - 1);
      if before.failure.None? {
        assert Tracks(handle, view, expected, due, vs, before.desk, n - 1);
      }
    }
  }
}
