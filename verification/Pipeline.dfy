/** The order pipeline: validate, transform and aggregate, one order at a time, against its batch meaning. */
module Pipeline {
  import opened Common
  import Schedule
  import opened Quality

  datatype RawUser = RawUser(userId: string, region: string, registered: int, level: string)

  type Users = map<string, RawUser>

  /** Amounts are whole cents. */
  datatype CleanOrder = CleanOrder(orderId: string, userId: string, region: string, date: int, status: string,
    cents: int) {
    function Group(): Key { Key(date, region) }
  }

  datatype Key = Key(date: int, region: string)

  datatype Stat = Stat(orders: nat, paid: nat, cents: int)

  datatype PipelineError = NotValidated | UnknownUser

  // ---------------- rounding ----------------

  /** To the nearest integer, halves away from zero. */
  function RoundHalfUp(x: real): int {
    if x >= 0.0 then (x + 0.5).Floor else -((-x + 0.5).Floor)
  }

  function Distance(x: real, y: real): real { if x >= y then x - y else y - x }

  lemma {:induction false} RoundingIsClose(x: real)
    ensures Distance(RoundHalfUp(x) as real, x) <= 0.5
    ensures x >= 0.0 ==> RoundHalfUp(x) >= 0
  {
    if x >= 0.0 {
      var f := (x + 0.5).Floor;
      assert f as real <= x + 0.5 < f as real + 1.0;
    } else {
      var f := (-x + 0.5).Floor;
      assert f as real <= -x + 0.5 < f as real + 1.0;
    }
  }

  /** The nearest integer to `x`, and of two the one farther from zero. */
  predicate RoundedTo(n: int, x: real) {
    if x >= 0.0 then n as real - 0.5 <= x < n as real + 0.5 else n as real - 0.5 < x <= n as real + 0.5
  }

  lemma {:induction false} RoundsHalfUp(x: real)
    ensures RoundedTo(RoundHalfUp(x), x)
  {
    if x >= 0.0 {
      var f := (x + 0.5).Floor;
      assert f as real <= x + 0.5 < f as real + 1.0;
    } else {
      var f := (-x + 0.5).Floor;
      assert f as real <= -x + 0.5 < f as real + 1.0;
    }
  }

  // ---------------- transform ----------------

  /** The exact amount of an order in cents. */
  function ExactCents(o: RawOrder): real {
    o.quantity as real * o.unitPrice * (1.0 - o.discount) * 100.0
  }

  function TransformOne(o: RawOrder, users: Users): Result<CleanOrder, PipelineError> {
    if o.orderId.None? || o.createdAt.None? then Err(NotValidated)
    else if o.userId !in users then Err(UnknownUser)
    else Ok(CleanOrder(o.orderId.value, o.userId, users[o.userId].region, Schedule.DateOf(o.createdAt.value), o.status,
                       RoundHalfUp(ExactCents(o))))
  }

  /** When an order can be transformed, and every field of the result, from the order and its user. */
  lemma {:induction false} TransformFromFields(o: RawOrder, users: Users)
    ensures TransformOne(o, users) == Err(NotValidated) <==> o.orderId.None? || o.createdAt.None?
    ensures TransformOne(o, users) == Err(UnknownUser) <==>
      o.orderId.Some? && o.createdAt.Some? && o.userId !in users
    ensures TransformOne(o, users).Ok? ==>
      var c := TransformOne(o, users).value;
      && Some(c.orderId) == o.orderId && c.userId == o.userId && c.status == o.status
      && o.userId in users && c.region == users[o.userId].region
      && o.createdAt.Some? && c.date * Schedule.DAY <= o.createdAt.value < (c.date + 1) * Schedule.DAY
      && RoundedTo(c.cents, o.quantity as real * o.unitPrice * (1.0 - o.discount) * 100.0)
  {
    RoundsHalfUp(ExactCents(o));
  }

  /** Ordering `n` times as much costs `n` times as much, up to rounding. */
  lemma {:induction false} AmountIsLinear(o: RawOrder, users: Users, n: nat)
    requires TransformOne(o, users).Ok?
    ensures
      var more := TransformOne(o.(quantity := n * o.quantity), users);
      more.Ok? && Distance(more.value.cents as real, n as real * TransformOne(o, users).value.cents as real)
        <= 0.5 * (n + 1) as real
  {
    ExactScales(o, n);
    RoundingScales(ExactCents(o), ExactCents(o.(quantity := n * o.quantity)), n);
  }

  lemma {:induction false} RoundingScales(x: real, y: real, n: nat)
    requires y == n as real * x
    ensures Distance(RoundHalfUp(y) as real, n as real * RoundHalfUp(x) as real) <= 0.5 * (n + 1) as real
  {
    RoundingIsClose(x);
    RoundingIsClose(y);
    Scaled(RoundHalfUp(x) as real, x, n as real);
    Triangle(RoundHalfUp(y) as real, y, n as real * RoundHalfUp(x) as real, 0.5 * n as real);
  }

  lemma {:induction false} Triangle(x: real, y: real, z: real, d: real)
    requires Distance(x, y) <= 0.5 && Distance(z, y) <= d
    ensures Distance(x, z) <= d + 0.5
  {
  }

  lemma {:induction false} ExactScales(o: RawOrder, n: nat)
    ensures ExactCents(o.(quantity := n * o.quantity)) == n as real * ExactCents(o)
  {
    var q, m := o.quantity as real, n as real;
    assert (n * o.quantity) as real == m * q;
    Regroup(m, q, o.unitPrice, 1.0 - o.discount);
  }

  lemma {:induction false} Regroup(m: real, q: real, a: real, b: real)
    ensures (m * q) * a * b * 100.0 == m * (q * a * b * 100.0)
  {
    assert (m * q) * a == m * (q * a);
    assert (m * (q * a)) * b == m * ((q * a) * b);
  }

  lemma {:induction false} Scaled(x: real, y: real, n: real)
    requires Distance(x, y) <= 0.5 && n >= 0.0
    ensures Distance(n * x, n * y) <= 0.5 * n
  {
    ProductSign(n, 0.5 - (x - y));
    ProductSign(n, 0.5 - (y - x));
  }

  /** The whole stage at once, raising at the first order it cannot transform. */
  function TransformAll(s: seq<RawOrder>, users: Users): Result<seq<CleanOrder>, PipelineError> {
    if s == [] then Ok([])
    else
      var init := TransformAll(s[..|s| - 1], users);
      if init.Err? then init
      else
        var last := TransformOne(s[|s| - 1], users);
        if last.Err? then Err(last.error) else Ok(init.value + [last.value])
  }

  // ---------------- aggregate ----------------

  function OrdersIn(c: seq<CleanOrder>, k: Key): nat {
    if c == [] then 0
    else OrdersIn(c[..|c| - 1], k) + if c[|c| - 1].Group() == k then 1 else 0
  }

  function PaidIn(c: seq<CleanOrder>, k: Key): nat {
    if c == [] then 0
    else PaidIn(c[..|c| - 1], k) + if c[|c| - 1].Group() == k && c[|c| - 1].status == "PAID" then 1 else 0
  }

  function CentsIn(c: seq<CleanOrder>, k: Key): int {
    if c == [] then 0
    else
      var o := c[|c| - 1];
      CentsIn(c[..|c| - 1], k) + if o.Group() == k && o.status == "PAID" then o.cents else 0
  }

  function GroupsOf(c: seq<CleanOrder>): set<Key> {
    if c == [] then {} else GroupsOf(c[..|c| - 1]) + {c[|c| - 1].Group()}
  }

  /** The whole stage at once: one group per date and region that occurs. */
  function Aggregate(c: seq<CleanOrder>): map<Key, Stat> {
    map k | k in GroupsOf(c) :: Stat(OrdersIn(c, k), PaidIn(c, k), CentsIn(c, k))
  }

  function At(m: map<Key, int>, k: Key): int { if k in m then m[k] else 0 }

  ghost predicate Tallied(orders: map<Key, int>, paid: map<Key, int>, cents: map<Key, int>, seen: seq<CleanOrder>) {
    && orders.Keys == GroupsOf(seen)
    && forall k {:trigger TalliedAt(orders, paid, cents, seen, k)} :: TalliedAt(orders, paid, cents, seen, k)
  }

  ghost predicate TalliedAt(orders: map<Key, int>, paid: map<Key, int>, cents: map<Key, int>, seen: seq<CleanOrder>,
                            k: Key)
  {
    At(orders, k) == OrdersIn(seen, k) && At(paid, k) == PaidIn(seen, k) && At(cents, k) == CentsIn(seen, k)
  }

  /** Counting one more order keeps the counters in step with what was seen. */
  lemma {:induction false} TallyOne(orders: map<Key, int>, paid: map<Key, int>, cents: map<Key, int>,
                                    seen: seq<CleanOrder>, o: CleanOrder)
    requires Tallied(orders, paid, cents, seen)
    ensures
      var k, pays := o.Group(), o.status == "PAID";
      Tallied(orders[k := At(orders, k) + 1], if pays then paid[k := At(paid, k) + 1] else paid,
              if pays then cents[k := At(cents, k) + o.cents] else cents, seen + [o])
  {
    var k, pays, more := o.Group(), o.status == "PAID", seen + [o];
    assert more[..|seen|] == seen;
    var orders', paid' := orders[k := At(orders, k) + 1], if pays then paid[k := At(paid, k) + 1] else paid;
    var cents' := if pays then cents[k := At(cents, k) + o.cents] else cents;
    assert orders'.Keys == GroupsOf(more);
    forall x ensures TalliedAt(orders', paid', cents', more, x) {
      assert TalliedAt(orders, paid, cents, seen, x);
      AggregateSnoc(seen, o, x);
    }
  }

  /** The counters of the streaming stage. */
  class Totals {
    var orders: map<Key, int>
    var paid: map<Key, int>
    var cents: map<Key, int>
    ghost var seen: seq<CleanOrder>

    ghost predicate Valid() reads this { Tallied(orders, paid, cents, seen) }

    constructor ()
      ensures Valid() && seen == []
    {
      orders, paid, cents, seen := map[], map[], map[], [];
    }

    method Add(o: CleanOrder)
      requires Valid()
      modifies this
      ensures Valid() && seen == old(seen) + [o]
    {
      var k, pays := o.Group(), o.status == "PAID";
      TallyOne(orders, paid, cents, seen, o);
      orders, paid, cents :=
        orders[k := At(orders, k) + 1],
        if pays then paid[k := At(paid, k) + 1] else paid,
        if pays then cents[k := At(cents, k) + o.cents] else cents;
      seen := seen + [o];
    }

    method Stats() returns (m: map<Key, Stat>)
      requires Valid()
      ensures m == Aggregate(seen)
    {
      forall k ensures At(orders, k) == OrdersIn(seen, k) && At(paid, k) == PaidIn(seen, k)
        && At(cents, k) == CentsIn(seen, k) {
        assert TalliedAt(orders, paid, cents, seen, k);
      }
      m := map k | k in orders :: Stat(At(orders, k), At(paid, k), At(cents, k));
    }
  }

  ghost predicate Snoc(c: seq<CleanOrder>, o: CleanOrder, k: Key) {
    var mine, pays := o.Group() == k, o.Group() == k && o.status == "PAID";
    && OrdersIn(c + [o], k) == OrdersIn(c, k) + (if mine then 1 else 0)
    && PaidIn(c + [o], k) == PaidIn(c, k) + (if pays then 1 else 0)
    && CentsIn(c + [o], k) == CentsIn(c, k) + (if pays then o.cents else 0)
  }

  lemma {:induction false} AggregateSnoc(c: seq<CleanOrder>, o: CleanOrder, k: Key)
    ensures Snoc(c, o, k)
  {
    assert (c + [o])[..|c|] == c;
  }

  // ---------------- validate ----------------

  ghost predicate PassesAt(rules: seq<Rule>, s: seq<RawOrder>, k: nat)
    requires k < |s|
  {
    !IsQuarantined(ViolationsAt(rules, s, k))
  }

  ghost function Passes(rules: seq<Rule>, s: seq<RawOrder>): nat -> bool {
    (k: nat) => k < |s| && PassesAt(rules, s, k)
  }

  ghost function Found(rules: seq<Rule>, s: seq<RawOrder>): nat -> seq<Rule> {
    (k: nat) => if k < |s| then ViolationsAt(rules, s, k) else []
  }

  ghost function Kept(s: seq<RawOrder>, passes: nat -> bool, n: nat): seq<RawOrder>
    requires n <= |s|
  {
    if n == 0 then [] else Kept(s, passes, n - 1) + if passes(n - 1) then [s[n - 1]] else []
  }

  ghost function Dropped(s: seq<RawOrder>, passes: nat -> bool, found: nat -> seq<Rule>, n: nat): seq<Quarantined>
    requires n <= |s|
  {
    if n == 0 then []
    else
      Dropped(s, passes, found, n - 1) + if passes(n - 1) then [] else [Quarantined(s[n - 1], found(n - 1))]
  }

  /** The whole stage at once: the orders among the first `n` that pass, judged in the full stream. */
  ghost function Passing(rules: seq<Rule>, s: seq<RawOrder>, n: nat): seq<RawOrder>
    requires n <= |s|
  {
    Kept(s, Passes(rules, s), n)
  }

  datatype Quarantined = Quarantined(order: RawOrder, violations: seq<Rule>)

  ghost function QuarantinedIn(rules: seq<Rule>, s: seq<RawOrder>, n: nat): seq<Quarantined>
    requires n <= |s|
  {
    Dropped(s, Passes(rules, s), Found(rules, s), n)
  }

  /** A passing order violates no rule that quarantines. */
  lemma {:induction false} PassingSatisfies(rules: seq<Rule>, s: seq<RawOrder>, k: nat, r: Rule)
    requires k < |s| && PassesAt(rules, s, k) && r in rules && r.Severity() == Error
    ensures !ViolatedAt(r, s, k)
  {
    ViolationsAtHas(rules, s, k, r);
  }

  /** What passed can be transformed, and has every field the rules promise. */
  lemma {:induction false} PassingIsTransformable(users: Users, now: Time, s: seq<RawOrder>, k: nat)
    requires k < |s| && PassesAt(DefaultRules(users.Keys, now), s, k)
    ensures TransformOne(s[k], users).Ok?
    ensures s[k].quantity > 0 && s[k].unitPrice >= 0.0 && s[k].status in VALID_STATUSES
  {
    var rules := DefaultRules(users.Keys, now);
    PassingSatisfies(rules, s, k, NotNull(OrderId));
    PassingSatisfies(rules, s, k, NotNull(CreatedAt));
    PassingSatisfies(rules, s, k, Reference(UserId, users.Keys));
    PassingSatisfies(rules, s, k, Range(Quantity, 0.0, false));
    PassingSatisfies(rules, s, k, Range(UnitPrice, 0.0, true));
    PassingSatisfies(rules, s, k, Enum(Status, VALID_STATUSES));
  }

  /** No two orders that pass share an id; an id stays taken even when its first bearer was quarantined. */
  lemma {:induction false} PassingIdsAreDistinct(users: set<string>, now: Time, s: seq<RawOrder>, j: nat, k: nat)
    requires j < k < |s| && PassesAt(DefaultRules(users, now), s, k)
    ensures s[k].orderId.Some? && s[j].orderId != s[k].orderId
  {
    assert s[j].orderId == s[k].orderId ==> Get(s[j], OrderId) == Get(s[k], OrderId);
    PassingSatisfies(DefaultRules(users, now), s, k, NotNull(OrderId));
    PassingSatisfies(DefaultRules(users, now), s, k, Unique(OrderId));
    UniqueMeansFirst(OrderId, s, k);
  }

  lemma {:induction false} TransformSnoc(p: seq<RawOrder>, o: RawOrder, users: Users)
    requires TransformAll(p, users).Ok? && TransformOne(o, users).Ok?
    ensures TransformAll(p + [o], users) == Ok(TransformAll(p, users).value + [TransformOne(o, users).value])
  {
    assert (p + [o])[..|p|] == p;
  }

  /** Whatever these rules let pass can be transformed. */
  ghost predicate Guard(rules: seq<Rule>, users: Users) {
    forall s: seq<RawOrder>, k: nat {:trigger PassesAt(rules, s, k)} ::
      k < |s| && PassesAt(rules, s, k) ==> TransformOne(s[k], users).Ok?
  }

  lemma {:induction false} DefaultRulesGuard(users: Users, now: Time)
    ensures Guard(DefaultRules(users.Keys, now), users)
  {
    forall s: seq<RawOrder>, k: nat | k < |s| && PassesAt(DefaultRules(users.Keys, now), s, k)
      ensures TransformOne(s[k], users).Ok?
    {
      PassingIsTransformable(users, now, s, k);
    }
  }

  lemma {:induction false} KeptTransforms(s: seq<RawOrder>, passes: nat -> bool, users: Users, n: nat)
    requires n <= |s| && forall k: nat :: k < n && passes(k) ==> TransformOne(s[k], users).Ok?
    ensures var p := Kept(s, passes, n); TransformAll(p, users).Ok? && |TransformAll(p, users).value| == |p|
  {
    if n > 0 {
      KeptTransforms(s, passes, users, n - 1);
      if passes(n - 1) {
        TransformSnoc(Kept(s, passes, n - 1), s[n - 1], users);
      } else {
        assert Kept(s, passes, n) == Kept(s, passes, n - 1);
      }
    }
  }

  /** Behind rules that guard it, the transform stage never raises. */
  lemma {:induction false} GuardedTransforms(rules: seq<Rule>, users: Users, s: seq<RawOrder>, n: nat)
    requires n <= |s| && Guard(rules, users)
    ensures var p := Passing(rules, s, n); TransformAll(p, users).Ok? && |TransformAll(p, users).value| == |p|
  {
    forall k: nat | k < n && Passes(rules, s)(k) ensures TransformOne(s[k], users).Ok? {
      assert PassesAt(rules, s, k);
    }
    KeptTransforms(s, Passes(rules, s), users, n);
  }

  /** The transform stage never raises on what the default rules let pass, whatever the stream. */
  lemma {:induction false} TransformNeverRaises(users: Users, now: Time, s: seq<RawOrder>)
    ensures
      var p := Passing(DefaultRules(users.Keys, now), s, |s|);
      TransformAll(p, users).Ok? && |TransformAll(p, users).value| == |p|
  {
    DefaultRulesGuard(users, now);
    GuardedTransforms(DefaultRules(users.Keys, now), users, s, |s|);
  }

  // ---------------- the groups on the orders' fields ----------------

  /** Order `i` counts in a group: it is not quarantined, and has the group's date and its user the region. */
  ghost predicate Counts(users: Users, s: seq<RawOrder>, i: nat, k: Key)
    requires i < |s|
  {
    && !MustQuarantine(users.Keys, s, i)
    && s[i].createdAt.Some? && k.date == Schedule.DateOf(s[i].createdAt.value)
    && s[i].userId in users && k.region == users[s[i].userId].region
  }

  ghost function GroupPlaces(users: Users, s: seq<RawOrder>, k: Key, n: nat): set<nat>
    requires n <= |s|
  {
    set i: nat | i < n && Counts(users, s, i, k)
  }

  ghost function PaidPlaces(users: Users, s: seq<RawOrder>, k: Key, n: nat): set<nat>
    requires n <= |s|
  {
    set i: nat | i < n && Counts(users, s, i, k) && s[i].status == "PAID"
  }

  /** What each paid order of a group comes to, in cents and unrounded. */
  ghost function PaidCents(users: Users, s: seq<RawOrder>, k: Key): nat -> real {
    (i: nat) =>
      if i < |s| && Counts(users, s, i, k) && s[i].status == "PAID" then
        s[i].quantity as real * s[i].unitPrice * (1.0 - s[i].discount) * 100.0
      else 0.0
  }

  lemma {:induction false} OneMorePlace(users: Users, s: seq<RawOrder>, k: Key, n: nat)
    requires n < |s|
    ensures |GroupPlaces(users, s, k, n + 1)| == |GroupPlaces(users, s, k, n)| + if Counts(users, s, n, k) then 1 else 0
  {
    var before, last := GroupPlaces(users, s, k, n), if Counts(users, s, n, k) then {n} else {};
    assert GroupPlaces(users, s, k, n + 1) == before + last;
  }

  lemma {:induction false} OneMorePaid(users: Users, s: seq<RawOrder>, k: Key, n: nat)
    requires n < |s|
    ensures |PaidPlaces(users, s, k, n + 1)| ==
      |PaidPlaces(users, s, k, n)| + if Counts(users, s, n, k) && s[n].status == "PAID" then 1 else 0
  {
    var before, pays := PaidPlaces(users, s, k, n), Counts(users, s, n, k) && s[n].status == "PAID";
    var last := if pays then {n} else {};
    assert PaidPlaces(users, s, k, n + 1) == before + last;
  }

  /** An order passes exactly when no default rule condemns its fields, and then it joins its own group. */
  lemma {:induction false} PassesExactly(users: Users, now: Time, s: seq<RawOrder>, n: nat, k: Key)
    requires n < |s|
    ensures PassesAt(DefaultRules(users.Keys, now), s, n) <==> !MustQuarantine(users.Keys, s, n)
    ensures !MustQuarantine(users.Keys, s, n) ==> TransformOne(s[n], users).Ok?
    ensures Counts(users, s, n, k) <==>
      !MustQuarantine(users.Keys, s, n) && TransformOne(s[n], users).Ok? && TransformOne(s[n], users).value.Group() == k
  {
    QuarantinedExactly(users.Keys, now, s, n);
    CountsExactly(users, s, n, k);
  }

  lemma {:induction false} CountsExactly(users: Users, s: seq<RawOrder>, n: nat, k: Key)
    requires n < |s|
    ensures !MustQuarantine(users.Keys, s, n) ==> TransformOne(s[n], users).Ok?
    ensures Counts(users, s, n, k) <==>
      !MustQuarantine(users.Keys, s, n) && TransformOne(s[n], users).Ok? && TransformOne(s[n], users).value.Group() == k
  {
  }

  /** A group of the first `n` orders: its counts, and how close its total is to the exact one. */
  ghost predicate GroupIs(users: Users, s: seq<RawOrder>, k: Key, n: nat, c: seq<CleanOrder>)
    requires n <= |s|
  {
    && OrdersIn(c, k) == |GroupPlaces(users, s, k, n)|
    && PaidIn(c, k) == |PaidPlaces(users, s, k, n)|
    && Distance(CentsIn(c, k) as real, Total(PaidCents(users, s, k), n)) <= 0.5 * |PaidPlaces(users, s, k, n)| as real
  }

  lemma {:induction false} OneMoreInGroup(users: Users, s: seq<RawOrder>, k: Key, n: nat, c: seq<CleanOrder>)
    requires n < |s| && GroupIs(users, s, k, n, c) && !MustQuarantine(users.Keys, s, n)
    requires TransformOne(s[n], users).Ok?
    ensures GroupIs(users, s, k, n + 1, c + [TransformOne(s[n], users).value])
  {
    var x := TransformOne(s[n], users).value;
    AggregateSnoc(c, x, k);
    OneMorePlace(users, s, k, n);
    OneMorePaid(users, s, k, n);
    CountsExactly(users, s, n, k);
    RoundingIsClose(ExactCents(s[n]));
    NextPaidCents(users, s, k, n);
    var exact, paid := Total(PaidCents(users, s, k), n), |PaidPlaces(users, s, k, n)|;
    assert x.status == s[n].status;
    if Counts(users, s, n, k) && s[n].status == "PAID" {
      Closer(CentsIn(c, k), exact, paid, x.cents, ExactCents(s[n]));
      assert CentsIn(c + [x], k) == CentsIn(c, k) + x.cents;
      assert |PaidPlaces(users, s, k, n + 1)| == paid + 1;
    }
  }

  lemma {:induction false} NextPaidCents(users: Users, s: seq<RawOrder>, k: Key, n: nat)
    requires n < |s|
    ensures Total(PaidCents(users, s, k), n + 1) ==
      Total(PaidCents(users, s, k), n) + if Counts(users, s, n, k)
        && s[n].status == "PAID" then ExactCents(s[n]) else 0.0
  {
    assert PaidCents(users, s, k)(n) == if Counts(users, s, n, k)
      && s[n].status == "PAID" then ExactCents(s[n]) else 0.0;
  }

  lemma {:induction false} NoGroupYet(users: Users, s: seq<RawOrder>, k: Key)
    ensures TransformAll([], users) == Ok([]) && GroupIs(users, s, k, 0, [])
  {
    assert GroupPlaces(users, s, k, 0) == {} && PaidPlaces(users, s, k, 0) == {};
  }

  lemma {:induction false} SameGroup(users: Users, s: seq<RawOrder>, k: Key, n: nat, c: seq<CleanOrder>)
    requires n < |s| && GroupIs(users, s, k, n, c) && !Counts(users, s, n, k)
    ensures GroupIs(users, s, k, n + 1, c)
  {
    OneMorePlace(users, s, k, n);
    OneMorePaid(users, s, k, n);
    NextPaidCents(users, s, k, n);
  }

  /**
   The orders and paid orders of a group are numbered by the orders' own fields, and its total is within half a
   cent per paid order of quantity times price times one minus discount, summed over them.
   */
  lemma {:induction false} GmvIsClose(users: Users, now: Time, s: seq<RawOrder>, n: nat, k: Key)
    requires n <= |s|
    ensures
      var c := TransformAll(Passing(DefaultRules(users.Keys, now), s, n), users);
      c.Ok? && GroupIs(users, s, k, n, c.value)
  {
    var passes := Passes(DefaultRules(users.Keys, now), s);
    forall i: nat | i < |s| ensures passes(i) <==> !MustQuarantine(users.Keys, s, i) {
      PassesExactly(users, now, s, i, k);
    }
    GroupsFollow(passes, users, s, n, k);
  }

  lemma {:induction false} GroupsFollow(passes: nat -> bool, users: Users, s: seq<RawOrder>, n: nat, k: Key)
    requires n <= |s| && forall i: nat :: i < |s| ==> (passes(i) <==> !MustQuarantine(users.Keys, s, i))
    ensures var c := TransformAll(Kept(s, passes, n), users); c.Ok? && GroupIs(users, s, k, n, c.value)
  {
    if n == 0 {
      NoGroupYet(users, s, k);
    } else {
      GroupsFollow(passes, users, s, n - 1, k);
      GroupGoesOn(passes(n - 1), users, s, n - 1, k, Kept(s, passes, n - 1));
    }
  }

  lemma {:induction false} GroupGoesOn(passes: bool, users: Users, s: seq<RawOrder>, n: nat, k: Key, p: seq<RawOrder>)
    requires n < |s| && TransformAll(p, users).Ok? && GroupIs(users, s, k, n, TransformAll(p, users).value)
    requires passes <==> !MustQuarantine(users.Keys, s, n)
    ensures
      var more := p + if passes then [s[n]] else [];
      TransformAll(more, users).Ok? && GroupIs(users, s, k, n + 1, TransformAll(more, users).value)
  {
    CountsExactly(users, s, n, k);
    if passes {
      TransformSnoc(p, s[n], users);
      OneMoreInGroup(users, s, k, n, TransformAll(p, users).value);
    } else {
      assert p + [] == p;
      SameGroup(users, s, k, n, TransformAll(p, users).value);
    }
  }

  /** Which groups there are: those of the orders that count. */
  lemma {:induction false} GroupsExactly(c: seq<CleanOrder>, k: Key)
    ensures k in GroupsOf(c) <==> OrdersIn(c, k) > 0
  {
    if c != [] {
      GroupsExactly(c[..|c| - 1], k);
    }
  }

  lemma {:induction false} DroppedPlace(s: seq<RawOrder>, passes: nat -> bool, found: nat -> seq<Rule>, n: nat, i: nat)
    requires i < n <= |s| && !passes(i)
    ensures
      var d, at := Dropped(s, passes, found, n), |Dropped(s, passes, found, i)|;
      at < |d| && d[at] == Quarantined(s[i], found(i))
  {
    if i < n - 1 {
      DroppedPlace(s, passes, found, n - 1, i);
    }
  }

  /** The quarantined orders in stream order, each with the rules it violates. */
  lemma {:induction false} QuarantineFromFields(users: set<string>, now: Time, s: seq<RawOrder>, i: nat)
    requires i < |s| && MustQuarantine(users, s, i)
    ensures
      var q, at := QuarantinedIn(DefaultRules(users, now), s, |s|), |BadPlaces(users, s, i)|;
      at < |q| && q[at] == Quarantined(s[i], ViolationsAt(DefaultRules(users, now), s, i))
  {
    QuarantinedExactly(users, now, s, i);
    var rules := DefaultRules(users, now);
    DroppedPlace(s, Passes(rules, s), Found(rules, s), |s|, i);
    PassedOrQuarantined(DefaultRules(users, now), s, i);
    DefaultCounts(users, now, s, i);
  }

  // ---------------- the pipeline ----------------

  /** The mapping of users by id; a later user with the same id replaces an earlier one. */
  function ById(users: seq<RawUser>): Users {
    if users == [] then map[]
    else ById(users[..|users| - 1])[users[|users| - 1].userId := users[|users| - 1]]
  }

  /** `known` maps each user id to the last user of that id. */
  ghost predicate IsLookup(known: Users, users: seq<RawUser>) {
    && (forall i :: 0 <= i < |users| ==> users[i].userId in known)
    && forall id :: id in known ==> exists i :: IsLast(users, i, id) && known[id] == users[i]
  }

  ghost predicate IsLast(users: seq<RawUser>, i: int, id: string) {
    0 <= i < |users| && users[i].userId == id && forall j :: i < j < |users| ==> users[j].userId != id
  }

  lemma {:induction false} ByIdIsLookup(users: seq<RawUser>)
    ensures IsLookup(ById(users), users)
  {
    forall id | id in ById(users) ensures exists i :: IsLast(users, i, id) && ById(users)[id] == users[i] {
      var i := LastOf(users, id);
    }
    forall i | 0 <= i < |users| ensures users[i].userId in ById(users) {
      ByIdHas(users, i);
    }
  }

  lemma {:induction false} LastOf(users: seq<RawUser>, id: string) returns (i: int)
    requires id in ById(users)
    ensures IsLast(users, i, id) && ById(users)[id] == users[i]
  {
    if id == users[|users| - 1].userId {
      i := |users| - 1;
    } else {
      i := LastOf(users[..|users| - 1], id);
    }
  }

  lemma {:induction false} ByIdHas(users: seq<RawUser>, i: nat)
    requires i < |users|
    ensures users[i].userId in ById(users)
  {
    if i < |users| - 1 {
      ByIdHas(users[..|users| - 1], i);
    }
  }

  datatype PipelineResult = PipelineResult(quality: Report, stats: map<Key, Stat>)

  /** What the stream run must give: each stage applied in full to the result of the one before. */
  ghost predicate IsBatchRun(users: Users, now: Time, s: seq<RawOrder>, r: PipelineResult, q: seq<Quarantined>) {
    var rules := DefaultRules(users.Keys, now);
    var clean := TransformAll(Passing(rules, s, |s|), users);
    && Describes(r.quality, rules, s) && q == QuarantinedIn(rules, s, |s|)
    && clean.Ok? && r.stats == Aggregate(clean.value)
  }

  /** The same, on the orders' own fields: which are quarantined, how they are grouped, and what they come to. */
  ghost predicate FromFields(users: Users, now: Time, s: seq<RawOrder>, r: PipelineResult, q: seq<Quarantined>) {
    && r.quality.total == |s| && r.quality.warned == |FuturePlaces(now, s)|
    && r.quality.quarantined == |BadPlaces(users.Keys, s, |s|)| == |q|
    && (forall i: nat :: i < |s| && MustQuarantine(users.Keys, s, i) ==>
          |BadPlaces(users.Keys, s, i)| < |q| && q[|BadPlaces(users.Keys, s, i)|].order == s[i])
    && forall k {:trigger k in r.stats} {:trigger StatIs(users, s, k, r.stats)} :: StatIs(users, s, k, r.stats)
  }

  ghost predicate StatIs(users: Users, s: seq<RawOrder>, k: Key, stats: map<Key, Stat>) {
    && (k in stats <==> exists i: nat :: i < |s| && Counts(users, s, i, k))
    && (k in stats ==>
          && stats[k].orders == |GroupPlaces(users, s, k, |s|)| && stats[k].paid == |PaidPlaces(users, s, k, |s|)|
          && Distance(stats[k].cents as real, Total(PaidCents(users, s, k), |s|)) <= 0.5 * stats[k].paid as real)
  }

  lemma {:induction false} GroupNotEmpty(users: Users, s: seq<RawOrder>, k: Key)
    ensures |GroupPlaces(users, s, k, |s|)| > 0 <==> exists i: nat :: i < |s| && Counts(users, s, i, k)
  {
    var g := GroupPlaces(users, s, k, |s|);
    if i: nat :| i < |s| && Counts(users, s, i, k) {
      assert i in g;
    }
    if |g| > 0 {
      var i :| i in g;
    }
  }

  lemma {:induction false} StatFromFields(users: Users, now: Time, s: seq<RawOrder>, k: Key)
    ensures
      var c := TransformAll(Passing(DefaultRules(users.Keys, now), s, |s|), users);
      c.Ok? && StatIs(users, s, k, Aggregate(c.value))
  {
    GmvIsClose(users, now, s, |s|, k);
    GroupsExactly(TransformAll(Passing(DefaultRules(users.Keys, now), s, |s|), users).value, k);
    GroupNotEmpty(users, s, k);
  }

  /** A batch run gives what the orders' fields say. */
  lemma {:induction false} BatchFromFields(users: Users, now: Time, s: seq<RawOrder>, r: PipelineResult,
                                           q: seq<Quarantined>)
    requires IsBatchRun(users, now, s, r, q)
    ensures FromFields(users, now, s, r, q)
  {
    DefaultCounts(users.Keys, now, s, |s|);
    PassedOrQuarantined(DefaultRules(users.Keys, now), s, |s|);
    forall k ensures StatIs(users, s, k, r.stats) {
      StatFromFields(users, now, s, k);
    }
    forall i: nat | i < |s| && MustQuarantine(users.Keys, s, i)
      ensures |BadPlaces(users.Keys, s, i)| < |q| && q[|BadPlaces(users.Keys, s, i)|].order == s[i]
    {
      QuarantineFromFields(users.Keys, now, s, i);
    }
  }

  lemma {:induction false} KeptAlike(s: seq<RawOrder>, more: seq<RawOrder>, p: nat -> bool, q: nat -> bool,
                                     f: nat -> seq<Rule>, g: nat -> seq<Rule>, n: nat)
    requires n <= |s| <= |more| && forall k: nat :: k < n ==> s[k] == more[k] && p(k) == q(k) && f(k) == g(k)
    ensures Kept(s, p, n) == Kept(more, q, n) && Dropped(s, p, f, n) == Dropped(more, q, g, n)
  {
    if n > 0 {
      KeptAlike(s, more, p, q, f, g, n - 1);
    }
  }

  lemma {:induction false} StagePrefix(rules: seq<Rule>, s: seq<RawOrder>, o: RawOrder, n: nat)
    requires n <= |s|
    ensures Passing(rules, s + [o], n) == Passing(rules, s, n)
    ensures QuarantinedIn(rules, s + [o], n) == QuarantinedIn(rules, s, n)
  {
    var more := s + [o];
    forall k: nat | k < n
      ensures Passes(rules, s)(k) == Passes(rules, more)(k) && Found(rules, s)(k) == Found(rules, more)(k)
    {
      ViolationsPrefix(rules, s, o, k);
    }
    KeptAlike(s, more, Passes(rules, s), Passes(rules, more), Found(rules, s), Found(rules, more), n);
  }

  lemma {:induction false} DefaultNamesAreDistinct(users: set<string>, now: Time)
    ensures DistinctNames(DefaultRules(users, now))
  {
  }

  /** One order through all three lazy stages. */
  method Feed(checker: QualityChecker, totals: Totals, users: Users, o: RawOrder)
    returns (r: Result<Option<Quarantined>, PipelineError>)
    requires checker.Valid() && totals.Valid()
    modifies checker, totals
    ensures checker.Valid() && totals.Valid() && checker.stream == old(checker.stream) + [o]
    ensures
      var k := |old(checker.stream)|;
      var passes := PassesAt(checker.rules, checker.stream, k);
      if !passes then totals.seen == old(totals.seen)
        && r == Ok(Some(Quarantined(o, ViolationsAt(checker.rules, checker.stream, k))))
      else if TransformOne(o, users).Err? then r == Err(TransformOne(o, users).error)
      else totals.seen == old(totals.seen) + [TransformOne(o, users).value] && r == Ok(None)
  {
    var vs := checker.Check(o);
    if IsQuarantined(vs) {
      return Ok(Some(Quarantined(o, vs)));
    }
    var t := TransformOne(o, users);
    if t.Err? {
      return Err(t.error);
    }
    totals.Add(t.value);
    r := Ok(None);
  }

  /** One order more, behind rules that guard the transformation. */
  method FeedNext(checker: QualityChecker, totals: Totals, users: Users, o: RawOrder, before: seq<Quarantined>)
    returns (quarantine: seq<Quarantined>)
    requires checker.Valid() && totals.Valid() && Guard(checker.rules, users)
    requires Fed(checker.rules, users, checker.stream, totals.seen, before)
    modifies checker, totals
    ensures checker.Valid() && totals.Valid() && checker.stream == old(checker.stream) + [o]
    ensures Fed(checker.rules, users, checker.stream, totals.seen, quarantine)
  {
    FedNext(checker.rules, users, checker.stream, o, totals.seen, before);
    var fed := Feed(checker, totals, users, o);
    quarantine := if fed.value.Some? then before + [fed.value.value] else before;
  }

  /** The lazy stages over a whole stream, for any rules that guard the transformation. */
  method FeedAll(checker: QualityChecker, totals: Totals, users: Users, orders: seq<RawOrder>)
    returns (r: Result<seq<Quarantined>, PipelineError>)
    requires checker.Valid() && totals.Valid() && Guard(checker.rules, users) && checker.stream == []
      && totals.seen == []
    modifies checker, totals
    ensures checker.Valid() && totals.Valid() && checker.stream == orders
    ensures r == Ok(QuarantinedIn(checker.rules, orders, |orders|))
    ensures TransformAll(Passing(checker.rules, orders, |orders|), users) == Ok(totals.seen)
  {
    var quarantine := [];
    for n := 0 to |orders|
      invariant checker.Valid() && totals.Valid() && checker.stream == orders[..n]
      invariant Fed(checker.rules, users, orders[..n], totals.seen, quarantine)
    {
      assert orders[..n + 1] == orders[..n] + [orders[n]];
      quarantine := FeedNext(checker, totals, users, orders[n], quarantine);
    }
    assert orders[..|orders|] == orders;
    r := Ok(quarantine);
  }

  /** The lazy run never raises and equals the batch run, quarantine included. */
  method RunOrdersPipeline(orders: seq<RawOrder>, users: seq<RawUser>, now: Time)
    returns (r: Result<PipelineResult, PipelineError>, quarantine: seq<Quarantined>)
    ensures r.Ok? && IsBatchRun(ById(users), now, orders, r.value, quarantine)
    ensures IsLookup(ById(users), users) && FromFields(ById(users), now, orders, r.value, quarantine)
  {
    var known := ById(users);
    ByIdIsLookup(users);
    DefaultNamesAreDistinct(known.Keys, now);
    DefaultRulesGuard(known, now);
    var checker := new QualityChecker(DefaultRules(known.Keys, now));
    var totals := new Totals();
    var fed := FeedAll(checker, totals, known, orders);
    quarantine := fed.value;
    var report := checker.MakeReport();
    var stats := totals.Stats();
    r := Ok(PipelineResult(report, stats));
    BatchFromFields(known, now, orders, r.value, quarantine);
  }

  /** What the stages have let through and set aside of a stream. */
  ghost predicate Fed(rules: seq<Rule>, users: Users, s: seq<RawOrder>, seen: seq<CleanOrder>, q: seq<Quarantined>) {
    q == QuarantinedIn(rules, s, |s|) && TransformAll(Passing(rules, s, |s|), users) == Ok(seen)
  }

  lemma {:induction false} FedNext(rules: seq<Rule>, users: Users, s: seq<RawOrder>, o: RawOrder,
                                   seen: seq<CleanOrder>, q: seq<Quarantined>)
    requires Guard(rules, users) && Fed(rules, users, s, seen, q)
    ensures
      var more := s + [o];
      if PassesAt(rules, more, |s|) then
        TransformOne(o, users).Ok? && Fed(rules, users, more, seen + [TransformOne(o, users).value], q)
      else Fed(rules, users, more, seen, q + [Quarantined(o, ViolationsAt(rules, more, |s|))])
  {
    NextOrder(rules, users, s, o);
  }

  /** What one more order adds to each stage. */
  lemma {:induction false} NextOrder(rules: seq<Rule>, users: Users, s: seq<RawOrder>, o: RawOrder)
    requires Guard(rules, users)
    ensures
      var more := s + [o];
      var p, q := Passing(rules, s, |s|), QuarantinedIn(rules, s, |s|);
      && TransformAll(p, users).Ok?
      && (if PassesAt(rules, more, |s|) then
            && TransformOne(o, users).Ok? && QuarantinedIn(rules, more, |more|) == q
            && TransformAll(Passing(rules, more, |more|), users)
              == Ok(TransformAll(p, users).value + [TransformOne(o, users).value])
          else
            && QuarantinedIn(rules, more, |more|) == q + [Quarantined(o, ViolationsAt(rules, more, |s|))]
            && Passing(rules, more, |more|) == p)
  {
    StagePrefix(rules, s, o, |s|);
    GuardedTransforms(rules, users, s, |s|);
    assert (s + [o])[|s|] == o;
    if PassesAt(rules, s + [o], |s|) {
      TransformSnoc(Passing(rules, s, |s|), o, users);
    }
  }

  // ---------------- conservation and rounding ----------------

  lemma {:induction false} KeptOrDropped(s: seq<RawOrder>, passes: nat -> bool, found: nat -> seq<Rule>,
                                         count: nat -> nat, n: nat)
    requires n <= |s| && count(0) == 0
    requires forall k: nat :: k < n ==> count(k + 1) == count(k) + if passes(k) then 0 else 1
    ensures |Kept(s, passes, n)| + count(n) == n && |Dropped(s, passes, found, n)| == count(n)
  {
    if n > 0 {
      KeptOrDropped(s, passes, found, count, n - 1);
      assert count(n - 1 + 1) == count(n);
    }
  }

  lemma {:induction false} PassedOrQuarantined(rules: seq<Rule>, s: seq<RawOrder>, n: nat)
    requires n <= |s|
    ensures |Passing(rules, s, n)| + Count(rules, Error, s, n) == n
    ensures |QuarantinedIn(rules, s, n)| == Count(rules, Error, s, n)
  {
    var count := (k: nat) => if k <= |s| then Count(rules, Error, s, k) else 0;
    forall k: nat | k < n ensures count(k + 1) == count(k) + if Passes(rules, s)(k) then 0 else 1 {
      assert Count(rules, Error, s, k + 1) == Count(rules, Error, s, k) + if PassesAt(rules, s, k) then 0 else 1;
    }
    KeptOrDropped(s, Passes(rules, s), Found(rules, s), count, n);
  }

  ghost function SumOver(keys: set<Key>, c: seq<CleanOrder>): nat {
    if keys == {} then 0 else var k :| k in keys; OrdersIn(c, k) + SumOver(keys - {k}, c)
  }

  /** The sum does not depend on the order in which groups are taken. */
  lemma {:induction false} SumOverTakes(keys: set<Key>, c: seq<CleanOrder>, k: Key)
    requires k in keys
    ensures SumOver(keys, c) == OrdersIn(c, k) + SumOver(keys - {k}, c)
  {
    var first :| first in keys && SumOver(keys, c) == OrdersIn(c, first) + SumOver(keys - {first}, c);
    if first != k {
      SumOverTakes(keys - {first}, c, k);
      SumOverTakes(keys - {k}, c, first);
      assert keys - {first} - {k} == keys - {k} - {first};
    }
  }

  lemma {:induction false} SumOverElsewhere(keys: set<Key>, c: seq<CleanOrder>, o: CleanOrder)
    requires o.Group() !in keys
    ensures SumOver(keys, c + [o]) == SumOver(keys, c)
  {
    if keys != {} {
      var k :| k in keys;
      AggregateSnoc(c, o, k);
      SumOverElsewhere(keys - {k}, c, o);
      SumOverTakes(keys, c, k);
      SumOverTakes(keys, c + [o], k);
    }
  }

  lemma {:induction false} GroupsHoldAll(c: seq<CleanOrder>, k: Key)
    ensures k !in GroupsOf(c) ==> OrdersIn(c, k) == 0
  {
    if c != [] {
      GroupsHoldAll(c[..|c| - 1], k);
    }
  }

  lemma {:induction false} GroupsSumUp(c: seq<CleanOrder>)
    ensures SumOver(GroupsOf(c), c) == |c|
  {
    if c != [] {
      var init, o := c[..|c| - 1], c[|c| - 1];
      var k := o.Group();
      assert c == init + [o];
      GroupsSumUp(init);
      GroupsHoldAll(init, k);
      AggregateSnoc(init, o, k);
      SumOverTakes(GroupsOf(c), c, k);
      SumOverElsewhere(GroupsOf(c) - {k}, init, o);
      if k in GroupsOf(init) {
        SumOverTakes(GroupsOf(init), init, k);
        assert GroupsOf(c) == GroupsOf(init);
      } else {
        assert GroupsOf(c) - {k} == GroupsOf(init);
      }
    }
  }

  /** Every row is accounted for: the total is the quarantined rows plus the orders of all groups. */
  lemma {:induction false} RowsAreConserved(users: Users, now: Time, s: seq<RawOrder>, r: PipelineResult,
                                            q: seq<Quarantined>)
    requires IsBatchRun(users, now, s, r, q)
    ensures
      var clean := TransformAll(Passing(DefaultRules(users.Keys, now), s, |s|), users).value;
      && r.stats.Keys == GroupsOf(clean)
      && (forall k :: k in r.stats ==> r.stats[k].orders == OrdersIn(clean, k) && r.stats[k].paid <= r.stats[k].orders)
      && r.quality.total == r.quality.quarantined + SumOver(r.stats.Keys, clean)
      && r.quality.quarantined == |q|
  {
    var rules := DefaultRules(users.Keys, now);
    DefaultRulesGuard(users, now);
    GuardedTransforms(rules, users, s, |s|);
    PassedOrQuarantined(rules, s, |s|);
    var clean := TransformAll(Passing(rules, s, |s|), users).value;
    GroupsSumUp(clean);
    forall k ensures PaidIn(clean, k) <= OrdersIn(clean, k) {
      PaidAreOrders(clean, k);
    }
  }

  lemma {:induction false} PaidAreOrders(c: seq<CleanOrder>, k: Key)
    ensures PaidIn(c, k) <= OrdersIn(c, k)
  {
    if c != [] {
      PaidAreOrders(c[..|c| - 1], k);
    }
  }

  lemma {:induction false} Closer(cents: int, exact: real, paid: nat, more: int, moreExact: real)
    requires Distance(cents as real, exact) <= 0.5 * paid as real && Distance(more as real, moreExact) <= 0.5
    ensures Distance((cents + more) as real, exact + moreExact) <= 0.5 * (paid + 1) as real
  {
  }

  /** Average value of a paid order, rounded to the cent; zero when nothing was paid. */
  function AverageCents(s: Stat): int {
    if s.paid == 0 then 0 else RoundHalfUp(s.cents as real / s.paid as real)
  }

  /** The average is within half a cent of the exact quotient, and zero when nothing was paid. */
  lemma {:induction false} AverageIsClose(s: Stat)
    ensures s.paid > 0 ==> RoundedTo(AverageCents(s), s.cents as real / s.paid as real)
    ensures s.paid == 0 ==> AverageCents(s) == 0
  {
    if s.paid > 0 {
      RoundsHalfUp(s.cents as real / s.paid as real);
    }
  }

  lemma {:induction false} RoundsBelowZero(x: real)
    ensures RoundHalfUp(x) < 0 <==> x <= -0.5
  {
    if x < 0.0 {
      var f := (-x + 0.5).Floor;
      assert f as real <= -x + 0.5 < f as real + 1.0;
    } else {
      RoundingIsClose(x);
    }
  }

  lemma {:induction false} ProductSign(a: real, b: real)
    requires a >= 0.0 && b >= 0.0
    ensures a * b >= 0.0
  {
  }

  /**
   The discount is not checked, so an order that passes may have a negative amount: exactly when its
   exact amount is at most minus half a cent, which takes more than a full discount.
   */
  lemma {:induction false} NegativeAmountExactly(users: Users, now: Time, s: seq<RawOrder>, k: nat)
    requires k < |s| && PassesAt(DefaultRules(users.Keys, now), s, k)
    ensures TransformOne(s[k], users).Ok?
    ensures TransformOne(s[k], users).value.cents < 0 <==>
      s[k].quantity as real * s[k].unitPrice * (1.0 - s[k].discount) * 100.0 <= -0.5
    ensures s[k].discount <= 1.0 ==> TransformOne(s[k], users).value.cents >= 0
  {
    PassingIsTransformable(users, now, s, k);
    RoundsBelowZero(ExactCents(s[k]));
    if s[k].discount <= 1.0 {
      ProductSign(s[k].quantity as real, s[k].unitPrice);
      ProductSign(s[k].quantity as real * s[k].unitPrice, 1.0 - s[k].discount);
    }
  }

  lemma {:induction false} NegativeAmountPasses(now: Time)
    ensures
      var users := map["U000001" := RawUser("U000001", "NORTH", 0, "GOLD")];
      var s := [RawOrder(Some("O00000001"), "U000001", "P00001", 1, 1.0, 2.0, "PAID", Some(now))];
      PassesAt(DefaultRules(users.Keys, now), s, 0) && TransformOne(s[0], users).Ok?
        && TransformOne(s[0], users).value.cents == -100
  {
    var users := map["U000001" := RawUser("U000001", "NORTH", 0, "GOLD")];
    var s := [RawOrder(Some("O00000001"), "U000001", "P00001", 1, 1.0, 2.0, "PAID", Some(now))];
    var rules := DefaultRules(users.Keys, now);
    assert s[..0] == [];
    forall r | r in rules ensures !ViolatedAt(r, s, 0) {
    }
    var vs := ViolationsAt(rules, s, 0);
    if vs != [] {
      ViolationsAtHas(rules, s, 0, vs[0]);
    }
    assert ExactCents(s[0]) == -100.0;
    assert (100.0 + 0.5).Floor == 100;
  }
}
