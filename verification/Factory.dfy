/**
 The test-data generator over an arbitrary random tape, and its agreement with the quality rules:
 an order violates exactly the rule its label names, and a clean order violates none.
 */
module Factory {
  import opened Common
  import opened Text
  import opened Quality
  import Pipeline
  import Schedule

  datatype DirtyKind =
    MissingId | DuplicateId | BadQuantity | NegativePrice | BadStatus | OrphanUser | FutureTime | MissingTime

  const DAY_SECONDS := 86_400
  const SECOND: Time := 1_000_000

  const STATUSES := ["PAID", "CANCELED", "PENDING"]
  const DISCOUNTS := [0.00, 0.05, 0.10, 0.20]
  const BAD_QUANTITIES := [0, -1, -5]
  const BAD_STATUSES := ["UNKNOWN", "paid", "??"]
  const ORPHAN_USER_ID := "U999999"

  datatype Settings = Settings(users: nat, products: nat, now: Time)

  datatype SettingsError = BadUserPool | BadProductPool

  function Validate(s: Settings): Result<Settings, SettingsError> {
    if !(0 < s.users < 999_999) then Err(BadUserPool)
    else if s.products < 1 then Err(BadProductPool)
    else Ok(s)
  }

  /** Everything the generator may draw for one order; it uses the fields its branches ask for. */
  datatype Draw = Draw(
    user: nat, product: nat, quantity: int, cents: int, discount: nat, status: nat, age: nat,
    roll: real, kind: DirtyKind, badQuantity: nat, badStatus: nat, days: nat)

  predicate InRange(d: Draw, s: Settings) {
    && 1 <= d.user <= s.users && 1 <= d.product <= s.products
    && 1 <= d.quantity <= 10 && 500 <= d.cents <= 50_000
    && d.discount < |DISCOUNTS| && d.status < |STATUSES| && d.age <= 30 * DAY_SECONDS
    && 0.0 <= d.roll < 1.0 && d.badQuantity < |BAD_QUANTITIES| && d.badStatus < |BAD_STATUSES|
    && 1 <= d.days <= 30
  }

  type Tape = nat -> Draw

  ghost predicate TapeOk(t: Tape, s: Settings) { forall k: nat :: InRange(t(k), s) }

  function OrderName(i: nat): string { "O" + Padded(i, 8) }

  function UserName(i: nat): string { "U" + Padded(i, 6) }

  function UserNames(n: nat): set<string> { set i | 1 <= i <= n :: UserName(i) }

  /** Order number `i` before any dirt is injected. */
  function CleanOrder(s: Settings, i: nat, d: Draw): RawOrder
    requires InRange(d, s)
  {
    RawOrder(Some(OrderName(i)), UserName(d.user), "P" + Padded(d.product, 5), d.quantity,
             d.cents as real / 100.0, DISCOUNTS[d.discount], STATUSES[d.status], Some(s.now - d.age * SECOND))
  }

  /** The kind of dirt: drawn when the roll is below the ratio; without an earlier id there is nothing to repeat. */
  function Label(d: Draw, ratio: real, last: Option<string>): Option<DirtyKind> {
    if d.roll >= ratio then None
    else if d.kind.DuplicateId? && last.None? then Some(MissingId)
    else Some(d.kind)
  }

  function Spoil(o: RawOrder, kind: Option<DirtyKind>, s: Settings, d: Draw, last: Option<string>): RawOrder
    requires InRange(d, s)
  {
    if kind.None? then o
    else
      match kind.value
      case MissingId => o.(orderId := None)
      case DuplicateId => o.(orderId := last)
      case BadQuantity => o.(quantity := BAD_QUANTITIES[d.badQuantity])
      case NegativePrice => o.(unitPrice := -o.unitPrice)
      case BadStatus => o.(status := BAD_STATUSES[d.badStatus])
      case OrphanUser => o.(userId := ORPHAN_USER_ID)
      case FutureTime => o.(createdAt := Some(s.now + d.days * DAY_SECONDS * SECOND))
      case MissingTime => o.(createdAt := None)
  }

  /** The last id emitted in a stream. */
  function LastId(s: seq<RawOrder>): Option<string> {
    if s == [] then None
    else if s[|s| - 1].orderId.Some? then s[|s| - 1].orderId
    else LastId(s[..|s| - 1])
  }

  /** Each order is its clean form spoiled as its label says, knowing only what was emitted before it. */
  ghost predicate IsStream(s: Settings, t: Tape, ratio: real, orders: seq<RawOrder>, labels: seq<Option<DirtyKind>>)
    requires TapeOk(t, s)
  {
    |orders| == |labels| && forall k :: 0 <= k < |orders| ==> IsOrder(s, t(k), ratio, orders, labels[k], k)
  }

  ghost predicate IsOrder(s: Settings, d: Draw, ratio: real, orders: seq<RawOrder>, kind: Option<DirtyKind>, k: nat)
    requires InRange(d, s) && k < |orders|
  {
    var last := LastId(orders[..k]);
    kind == Label(d, ratio, last) && orders[k] == Spoil(CleanOrder(s, k + 1, d), kind, s, d, last)
  }

  // ---------------- an order on its draws alone ----------------

  /** Some earlier order carries an id, and order `j` is the last of these. */
  ghost predicate LastWithId(orders: seq<RawOrder>, k: nat, j: nat)
    requires k <= |orders|
  {
    j < k && orders[j].orderId.Some? && forall i :: j < i < k ==> orders[i].orderId.None?
  }

  /** Every field of an order, from what was drawn for it and its label. */
  ghost predicate Drawn(s: Settings, d: Draw, orders: seq<RawOrder>, kind: Option<DirtyKind>, k: nat)
    requires InRange(d, s) && k < |orders|
  {
    IdAsDrawn(orders, kind, k) && RestAsDrawn(s, d, orders[k], kind)
  }

  ghost predicate IdAsDrawn(orders: seq<RawOrder>, kind: Option<DirtyKind>, k: nat)
    requires k < |orders|
  {
    match kind
    case Some(MissingId) => orders[k].orderId.None?
    case Some(DuplicateId) => exists j: nat :: LastWithId(orders, k, j) && orders[k].orderId == orders[j].orderId
    case _ => orders[k].orderId == Some("O" + Padded(k + 1, 8))
  }

  ghost predicate RestAsDrawn(s: Settings, d: Draw, o: RawOrder, kind: Option<DirtyKind>) {
    TextAsDrawn(d, o, kind) && NumbersAsDrawn(s, d, o, kind)
  }

  ghost predicate TextAsDrawn(d: Draw, o: RawOrder, kind: Option<DirtyKind>) {
    && o.userId == (if kind == Some(OrphanUser) then "U999999" else "U" + Padded(d.user, 6))
    && o.productId == "P" + Padded(d.product, 5)
    && (if kind == Some(BadStatus) then IsBadStatus(o.status) else IsGoodStatus(o.status))
  }

  predicate IsGoodStatus(status: string) { status == "PAID" || status == "CANCELED" || status == "PENDING" }

  predicate IsBadStatus(status: string) { status == "UNKNOWN" || status == "paid" || status == "??" }

  ghost predicate NumbersAsDrawn(s: Settings, d: Draw, o: RawOrder, kind: Option<DirtyKind>) {
    && (if kind == Some(BadQuantity) then o.quantity in {0, -1, -5} else o.quantity == d.quantity)
    && o.unitPrice * 100.0 == (if kind == Some(NegativePrice) then -(d.cents as real) else d.cents as real)
    && o.discount in {0.00, 0.05, 0.10, 0.20}
    && o.createdAt ==
         if kind == Some(MissingTime) then None
         else if kind == Some(FutureTime) then Some(s.now + d.days * 86_400_000_000)
         else Some(s.now - d.age * 1_000_000)
  }

  /**
   An order is dirty exactly when its roll is below the ratio, in the way drawn for it, except that a duplicate
   without an earlier id to repeat loses its id instead; everything else about it is as drawn.
   */
  lemma {:induction false} OrderFromDraws(s: Settings, t: Tape, ratio: real, orders: seq<RawOrder>,
                                          labels: seq<Option<DirtyKind>>, k: nat)
    requires TapeOk(t, s) && IsStream(s, t, ratio, orders, labels) && k < |orders|
    ensures labels[k].Some? <==> t(k).roll < ratio
    ensures labels[k].Some? ==>
      labels[k].value ==
        if t(k).kind == DuplicateId && (forall j :: 0 <= j < k ==>
          orders[j].orderId.None?) then MissingId else t(k).kind
    ensures Drawn(s, t(k), orders, labels[k], k)
  {
    assert IsOrder(s, t(k), ratio, orders, labels[k], k);
    if LastId(orders[..k]).Some? {
      var j := LastIdIsEarlier(orders, k);
      assert LastWithId(orders, k, j);
    } else {
      NoIdYet(orders, k);
    }
    FieldsAsDrawn(s, t(k), k + 1, labels[k], LastId(orders[..k]));
  }

  lemma {:induction false} FieldsAsDrawn(s: Settings, d: Draw, i: nat, kind: Option<DirtyKind>, last: Option<string>)
    requires InRange(d, s)
    ensures RestAsDrawn(s, d, Spoil(CleanOrder(s, i, d), kind, s, d, last), kind)
  {
    CleanAsDrawn(s, d, i);
    SpoiledAsDrawn(s, d, CleanOrder(s, i, d), kind, last);
  }

  lemma {:induction false} CleanAsDrawn(s: Settings, d: Draw, i: nat)
    requires InRange(d, s)
    ensures RestAsDrawn(s, d, CleanOrder(s, i, d), None)
  {
    GoodTables(d.status, d.discount);
  }

  lemma {:induction false} SpoiledAsDrawn(s: Settings, d: Draw, o: RawOrder, kind: Option<DirtyKind>,
                                          last: Option<string>)
    requires InRange(d, s) && RestAsDrawn(s, d, o, None)
    ensures RestAsDrawn(s, d, Spoil(o, kind, s, d, last), kind)
  {
    TextSpoiled(s, d, o, kind, last);
    NumbersSpoiled(s, d, o, kind, last);
  }

  lemma {:induction false} TextSpoiled(s: Settings, d: Draw, o: RawOrder, kind: Option<DirtyKind>, last: Option<string>)
    requires InRange(d, s) && TextAsDrawn(d, o, None)
    ensures TextAsDrawn(d, Spoil(o, kind, s, d, last), kind)
  {
    var spoiled := Spoil(o, kind, s, d, last);
    assert spoiled.productId == o.productId;
    assert spoiled.userId == if kind == Some(OrphanUser) then ORPHAN_USER_ID else o.userId;
    assert spoiled.status == if kind == Some(BadStatus) then BAD_STATUSES[d.badStatus] else o.status;
    BadTables(d.badStatus, d.badQuantity);
  }

  lemma {:induction false} NumbersSpoiled(s: Settings, d: Draw, o: RawOrder, kind: Option<DirtyKind>,
                                          last: Option<string>)
    requires InRange(d, s) && NumbersAsDrawn(s, d, o, None)
    ensures NumbersAsDrawn(s, d, Spoil(o, kind, s, d, last), kind)
  {
    BadTables(d.badStatus, d.badQuantity);
  }

  lemma {:induction false} GoodTables(status: nat, discount: nat)
    requires status < |STATUSES| && discount < |DISCOUNTS|
    ensures IsGoodStatus(STATUSES[status])
    ensures DISCOUNTS[discount] in {0.00, 0.05, 0.10, 0.20}
  {
  }

  lemma {:induction false} BadTables(status: nat, quantity: nat)
    requires status < |BAD_STATUSES| && quantity < |BAD_QUANTITIES|
    ensures IsBadStatus(BAD_STATUSES[status])
    ensures BAD_QUANTITIES[quantity] in {0, -1, -5}
  {
  }

  lemma {:induction false} NoIdYet(orders: seq<RawOrder>, k: nat)
    requires k <= |orders| && LastId(orders[..k]).None?
    ensures forall j :: 0 <= j < k ==> orders[j].orderId.None?
  {
    if k > 0 {
      assert orders[..k][..k - 1] == orders[..k - 1];
      NoIdYet(orders, k - 1);
    }
  }

  datatype RequestError = NegativeCount | RatioOutOfRange

  /** The generator loop; the ratio must lie in [0, 1] and the count must not be negative. */
  method GenerateLabeledOrders(s: Settings, t: Tape, count: int, ratio: real)
    returns (r: Result<seq<RawOrder>, RequestError>, labels: seq<Option<DirtyKind>>)
    requires TapeOk(t, s)
    ensures r.Ok? <==> count >= 0 && 0.0 <= ratio <= 1.0
    ensures r.Ok? ==> |r.value| == count && IsStream(s, t, ratio, r.value, labels)
  {
    labels := [];
    if count < 0 {
      return Err(NegativeCount), labels;
    }
    if !(0.0 <= ratio <= 1.0) {
      return Err(RatioOutOfRange), labels;
    }
    var orders, last := [], None;
    for i := 1 to count + 1
      invariant |orders| == |labels| == i - 1 && last == LastId(orders)
      invariant IsStream(s, t, ratio, orders, labels)
    {
      var d := t(i - 1);
      var kind := None;
      if d.roll < ratio {
        kind := Some(d.kind);
        if d.kind.DuplicateId? && last.None? {
          kind := Some(MissingId);
        }
      }
      var order := Spoil(CleanOrder(s, i, d), kind, s, d, last);
      ghost var before := orders;
      orders, labels := orders + [order], labels + [kind];
      StreamGrows(s, t, ratio, before, labels[..i - 1], order, kind);
      assert labels[..i - 1] + [kind] == labels;
      if order.orderId.Some? {
        last := order.orderId;
      }
    }
    r := Ok(orders);
  }

  lemma {:induction false} StreamGrows(s: Settings, t: Tape, ratio: real, orders: seq<RawOrder>,
                                       labels: seq<Option<DirtyKind>>,
                                       o: RawOrder, kind: Option<DirtyKind>)
    requires TapeOk(t, s) && IsStream(s, t, ratio, orders, labels)
    requires kind == Label(t(|orders|), ratio, LastId(orders))
    requires o == Spoil(CleanOrder(s, |orders| + 1, t(|orders|)), kind, s, t(|orders|), LastId(orders))
    ensures IsStream(s, t, ratio, orders + [o], labels + [kind])
    ensures LastId(orders + [o]) == if o.orderId.Some? then o.orderId else LastId(orders)
  {
    var more := orders + [o];
    assert more[..|orders|] == orders;
    forall k | 0 <= k < |more| ensures IsOrder(s, t(k), ratio, more, (labels + [kind])[k], k) {
      if k < |orders| {
        assert more[..k] == orders[..k];
        assert IsOrder(s, t(k), ratio, orders, labels[k], k);
      }
    }
  }

  // ---------------- ids ----------------

  lemma {:induction false} OrderNamesDiffer(i: nat, j: nat)
    requires OrderName(i) == OrderName(j)
    ensures i == j
  {
    assert OrderName(i)[1..] == Padded(i, 8) && OrderName(j)[1..] == Padded(j, 8);
    PaddedInjective(i, j, 8);
  }

  lemma {:induction false} OrphanIsNobody(n: nat)
    requires n < 999_999
    ensures ORPHAN_USER_ID !in UserNames(n)
  {
    assert Padded(9, 1) == "9";
    assert Padded(99, 2) == "99";
    assert Padded(999, 3) == "999";
    assert Padded(9_999, 4) == "9999";
    assert Padded(99_999, 5) == "99999";
    assert Padded(999_999, 6) == "999999";
    if i :| 1 <= i <= n && UserName(i) == ORPHAN_USER_ID {
      assert UserName(i)[1..] == Padded(i, 6);
      PaddedInjective(i, 999_999, 6);
    }
  }

  /** Every id emitted names an order number reached so far. */
  lemma {:induction false} IdsAreEarlierNumbers(s: Settings, t: Tape, ratio: real, orders: seq<RawOrder>,
                                                labels: seq<Option<DirtyKind>>, k: nat)
    returns (i: nat)
    requires TapeOk(t, s) && IsStream(s, t, ratio, orders, labels) && k < |orders| && orders[k].orderId.Some?
    ensures i <= k + 1 && orders[k].orderId == Some(OrderName(i))
    decreases k
  {
    assert IsOrder(s, t(k), ratio, orders, labels[k], k);
    i := k + 1;
    if labels[k] == Some(DuplicateId) {
      var j := LastIdIsEarlier(orders, k);
      i := IdsAreEarlierNumbers(s, t, ratio, orders, labels, j);
    }
  }

  lemma {:induction false} LastIdIsEarlier(orders: seq<RawOrder>, k: nat) returns (j: nat)
    requires k <= |orders| && LastId(orders[..k]).Some?
    ensures j < k && orders[j].orderId == LastId(orders[..k]) && LastWithId(orders, k, j)
  {
    var init := orders[..k];
    if init[|init| - 1].orderId.Some? {
      j := k - 1;
    } else {
      assert init[..|init| - 1] == orders[..k - 1];
      j := LastIdIsEarlier(orders, k - 1);
    }
  }

  // ---------------- labels and rules agree ----------------

  /** The rule that names a kind of dirt. */
  function RuleFor(kind: DirtyKind, users: set<string>, now: Time): Rule {
    match kind
    case MissingId => NotNull(OrderId)
    case DuplicateId => Unique(OrderId)
    case BadQuantity => Range(Quantity, 0.0, false)
    case NegativePrice => Range(UnitPrice, 0.0, true)
    case BadStatus => Enum(Status, VALID_STATUSES)
    case OrphanUser => Reference(UserId, users)
    case FutureTime => NotFuture(CreatedAt, now)
    case MissingTime => NotNull(CreatedAt)
  }

  /** An order without dirt, seen through the rules that look at the order alone. */
  predicate Wholesome(o: RawOrder, users: set<string>, now: Time) {
    && o.orderId.Some? && o.createdAt.Some? && o.createdAt.value <= now
    && o.quantity > 0 && o.unitPrice > 0.0 && o.status in VALID_STATUSES && o.userId in users
  }

  lemma {:induction false} CleanIsWholesome(s: Settings, k: nat, d: Draw)
    requires InRange(d, s)
    ensures Wholesome(CleanOrder(s, k, d), UserNames(s.users), s.now)
  {
    assert UserName(d.user) in UserNames(s.users);
    assert STATUSES[d.status] in VALID_STATUSES;
  }

  /** What each kind of dirt does to the field it is about. */
  lemma {:induction false} DirtShows(s: Settings, d: Draw)
    requires InRange(d, s) && Validate(s).Ok?
    ensures BAD_QUANTITIES[d.badQuantity] <= 0 && BAD_STATUSES[d.badStatus] !in VALID_STATUSES
    ensures ORPHAN_USER_ID !in UserNames(s.users) && s.now + d.days * DAY_SECONDS * SECOND > s.now
  {
    OrphanIsNobody(s.users);
  }

  /** Every rule but uniqueness looks at the order alone: it is violated exactly by its own kind of dirt. */
  lemma {:induction false} OwnFieldsAgree(o: RawOrder, s: Settings, d: Draw, kind: Option<DirtyKind>,
                                          last: Option<string>, seen: set<Value>, r: Rule)
    requires InRange(d, s) && Validate(s).Ok? && (kind == Some(DuplicateId) ==> last.Some?)
    requires Wholesome(o, UserNames(s.users), s.now)
    requires r in DefaultRules(UserNames(s.users), s.now) && !r.Unique?
    ensures Violates(r, seen, Spoil(o, kind, s, d, last)) <==>
      kind.Some? && r == RuleFor(kind.value, UserNames(s.users), s.now)
  {
    DirtShows(s, d);
  }

  /** An order that is not labelled a duplicate has no id or its own number's. */
  lemma {:induction false} FreshId(s: Settings, t: Tape, ratio: real, orders: seq<RawOrder>,
                                   labels: seq<Option<DirtyKind>>, k: nat, j: nat)
    requires TapeOk(t, s) && IsStream(s, t, ratio, orders, labels) && j < k < |orders|
    requires labels[k] != Some(DuplicateId) && orders[k].orderId.Some?
    ensures orders[j].orderId != orders[k].orderId
  {
    assert IsOrder(s, t(k), ratio, orders, labels[k], k);
    assert orders[k].orderId == Some(OrderName(k + 1));
    if orders[j].orderId.Some? {
      var i := IdsAreEarlierNumbers(s, t, ratio, orders, labels, j);
      if OrderName(i) == OrderName(k + 1) {
        OrderNamesDiffer(i, k + 1);
      }
    }
  }

  /** An id was emitted before exactly when the order is labelled a duplicate. */
  lemma {:induction false} UniqueAgrees(s: Settings, t: Tape, ratio: real, orders: seq<RawOrder>,
                                        labels: seq<Option<DirtyKind>>, k: nat)
    requires TapeOk(t, s) && IsStream(s, t, ratio, orders, labels) && k < |orders|
    ensures ViolatedAt(Unique(OrderId), orders, k) <==> labels[k] == Some(DuplicateId)
    ensures labels[k] == Some(DuplicateId) ==> LastId(orders[..k]).Some?
  {
    UniqueMeansFirst(OrderId, orders, k);
    assert IsOrder(s, t(k), ratio, orders, labels[k], k);
    if labels[k] == Some(DuplicateId) {
      var j := LastIdIsEarlier(orders, k);
      assert Get(orders[j], OrderId) == Get(orders[k], OrderId);
    } else if orders[k].orderId.Some? {
      forall j | 0 <= j < k ensures Get(orders[j], OrderId) != Get(orders[k], OrderId) {
        FreshId(s, t, ratio, orders, labels, k, j);
      }
    }
  }

  /**
   For every tape, pool size, count and dirty ratio: running the default rules over the generated
   stream finds exactly the rule its label names for a labelled order, and nothing for a clean one.
   */
  lemma {:induction false} LabelsAgreeWithRules(s: Settings, t: Tape, ratio: real, orders: seq<RawOrder>,
                                                labels: seq<Option<DirtyKind>>, k: nat)
    requires Validate(s).Ok? && TapeOk(t, s) && IsStream(s, t, ratio, orders, labels) && k < |orders|
    ensures
      var users := UserNames(s.users);
      ViolationsAt(DefaultRules(users, s.now), orders, k) ==
        if labels[k].None? then [] else [RuleFor(labels[k].value, users, s.now)]
  {
    var users := UserNames(s.users);
    var rules := DefaultRules(users, s.now);
    forall r | r in rules
      ensures ViolatedAt(r, orders, k) <==> labels[k].Some? && r == RuleFor(labels[k].value, users, s.now)
    {
      RuleAgrees(s, t, ratio, orders, labels, k, r);
    }
    OnlyOne(rules, orders, k, if labels[k].None? then None else Some(RuleFor(labels[k].value, users, s.now)));
  }

  lemma {:induction false} RuleAgrees(s: Settings, t: Tape, ratio: real, orders: seq<RawOrder>,
                                      labels: seq<Option<DirtyKind>>, k: nat, r: Rule)
    requires Validate(s).Ok? && TapeOk(t, s) && IsStream(s, t, ratio, orders, labels) && k < |orders|
    requires r in DefaultRules(UserNames(s.users), s.now)
    ensures ViolatedAt(r, orders, k) <==> labels[k].Some? && r == RuleFor(labels[k].value, UserNames(s.users), s.now)
  {
    UniqueAgrees(s, t, ratio, orders, labels, k);
    if !r.Unique? {
      assert IsOrder(s, t(k), ratio, orders, labels[k], k);
      CleanIsWholesome(s, k + 1, t(k));
      OwnFieldsAgree(CleanOrder(s, k + 1, t(k)), s, t(k), labels[k], LastId(orders[..k]),
        Occurring(orders[..k], r.field), r);
    }
  }

  /** When at most one rule of a duplicate-free list is violated, the violations are that rule or none. */
  lemma {:induction false} OnlyOne(rules: seq<Rule>, orders: seq<RawOrder>, k: nat, only: Option<Rule>)
    requires k < |orders| && forall i, j :: 0 <= i < j < |rules| ==> rules[i] != rules[j]
    requires forall r :: r in rules ==> (ViolatedAt(r, orders, k) <==> only == Some(r))
    ensures ViolationsAt(rules, orders, k) == if only.Some? && only.value in rules then [only.value] else []
  {
    if rules != [] {
      assert rules[0] in rules;
      OnlyOne(rules[1..], orders, k, only);
    }
  }

  // ---------------- a generated run, end to end ----------------

  /** Labels that lead to quarantine; a time in the future is only a warning. */
  function SpoiledCount(labels: seq<Option<DirtyKind>>, n: nat): nat
    requires n <= |labels|
  {
    if n == 0 then 0
    else SpoiledCount(labels, n - 1) + if labels[n - 1].Some? && !labels[n - 1].value.FutureTime? then 1 else 0
  }

  function FutureCount(labels: seq<Option<DirtyKind>>, n: nat): nat
    requires n <= |labels|
  {
    if n == 0 then 0 else FutureCount(labels, n - 1) + if labels[n - 1] == Some(FutureTime) then 1 else 0
  }

  /** The counters of a report over a generated stream can be read off the labels. */
  lemma {:induction false} ReportMatchesLabels(s: Settings, t: Tape, ratio: real, orders: seq<RawOrder>,
                                               labels: seq<Option<DirtyKind>>, n: nat)
    requires Validate(s).Ok? && TapeOk(t, s) && IsStream(s, t, ratio, orders, labels) && n <= |orders|
    ensures
      var rules := DefaultRules(UserNames(s.users), s.now);
      && Count(rules, Error, orders, n) == SpoiledCount(labels, n)
      && Count(rules, Warning, orders, n) == FutureCount(labels, n)
  {
    if n > 0 {
      ReportMatchesLabels(s, t, ratio, orders, labels, n - 1);
      FoundFollowsLabel(s, t, ratio, orders, labels, n - 1);
    }
  }

  lemma {:induction false} FoundFollowsLabel(s: Settings, t: Tape, ratio: real, orders: seq<RawOrder>,
                                             labels: seq<Option<DirtyKind>>, k: nat)
    requires Validate(s).Ok? && TapeOk(t, s) && IsStream(s, t, ratio, orders, labels) && k < |orders|
    ensures
      var vs := ViolationsAt(DefaultRules(UserNames(s.users), s.now), orders, k);
      && (HasSeverity(vs, Error) <==> labels[k].Some? && !labels[k].value.FutureTime?)
      && (HasSeverity(vs, Warning) <==> labels[k] == Some(FutureTime))
  {
    LabelsAgreeWithRules(s, t, ratio, orders, labels, k);
    SeverityFollowsLabel(labels[k], UserNames(s.users), s.now);
  }

  lemma {:induction false} SeverityFollowsLabel(kind: Option<DirtyKind>, users: set<string>, now: Time)
    ensures var vs := if kind.None? then [] else [RuleFor(kind.value, users, now)];
      && (HasSeverity(vs, Error) <==> kind.Some? && !kind.value.FutureTime?)
      && (HasSeverity(vs, Warning) <==> kind == Some(FutureTime))
  {
    if kind.Some? {
      var vs := [RuleFor(kind.value, users, now)];
      assert vs[0].Severity() == if kind.value.FutureTime? then Warning else Error;
    }
  }

  const REGIONS := ["NORTH", "SOUTH", "EAST", "WEST", "CENTRAL"]
  const MEMBER_LEVELS := ["BRONZE", "SILVER", "GOLD", "PLATINUM"]

  /** What is drawn for one user. */
  datatype UserDraw = UserDraw(region: nat, days: nat, level: nat)

  predicate UserInRange(d: UserDraw) { d.region < |REGIONS| && d.days <= 730 && d.level < |MEMBER_LEVELS| }

  /** User number `i`: its own id, known attributes, registered within the last two years. */
  predicate IsPoolUser(s: Settings, i: nat, u: Pipeline.RawUser) {
    && u.userId == UserName(i) && u.region in REGIONS && u.level in MEMBER_LEVELS
    && Schedule.DateOf(s.now) - 730 <= u.registered <= Schedule.DateOf(s.now)
  }

  lemma {:induction false} DaysBack(now: Time, days: nat)
    ensures Schedule.DateOf(now - days * Schedule.DAY) == Schedule.DateOf(now) - days
  {
  }

  /** The user pool: consecutive ids, with drawn attributes. */
  method GenerateUsers(s: Settings, draws: nat -> UserDraw) returns (users: seq<Pipeline.RawUser>)
    requires forall k: nat :: UserInRange(draws(k))
    ensures |users| == s.users && forall i :: 0 <= i < s.users ==> IsPoolUser(s, i + 1, users[i])
  {
    users := [];
    for i := 1 to s.users + 1
      invariant |users| == i - 1 && forall j :: 0 <= j < i - 1 ==> IsPoolUser(s, j + 1, users[j])
    {
      var d := draws(i);
      assert UserInRange(d);
      DaysBack(s.now, d.days);
      var date := Schedule.DateOf(s.now - d.days * Schedule.DAY);
      users := users + [Pipeline.RawUser(UserName(i), REGIONS[d.region], date, MEMBER_LEVELS[d.level])];
    }
  }

  /** The pipeline's reference set over a generated pool is exactly the ids the order generator draws from. */
  lemma {:induction false} PoolIsReferenceSet(users: seq<Pipeline.RawUser>)
    requires forall i :: 0 <= i < |users| ==> users[i].userId == UserName(i + 1)
    ensures Pipeline.ById(users).Keys == UserNames(|users|)
  {
    if users != [] {
      PoolIsReferenceSet(users[..|users| - 1]);
      assert UserNames(|users|) == UserNames(|users| - 1) + {UserName(|users|)};
    } else {
      assert UserNames(0) == {};
    }
  }

  /** Running the pipeline on generated data quarantines and warns exactly as the labels say. */
  lemma {:induction false} GeneratedRun(s: Settings, t: Tape, ratio: real, users: seq<Pipeline.RawUser>,
                                        orders: seq<RawOrder>,
                                        labels: seq<Option<DirtyKind>>, r: Pipeline.PipelineResult,
                                        q: seq<Pipeline.Quarantined>)
    requires Validate(s).Ok? && TapeOk(t, s) && IsStream(s, t, ratio, orders, labels)
    requires |users| == s.users && forall i :: 0 <= i < s.users ==> users[i].userId == UserName(i + 1)
    requires Pipeline.IsBatchRun(Pipeline.ById(users), s.now, orders, r, q)
    ensures r.quality.quarantined == SpoiledCount(labels, |labels|) && r.quality.warned == FutureCount(labels, |labels|)
    ensures |q| == SpoiledCount(labels, |labels|)
  {
    PoolIsReferenceSet(users);
    ReportMatchesLabels(s, t, ratio, orders, labels, |orders|);
    Pipeline.PassedOrQuarantined(DefaultRules(UserNames(s.users), s.now), orders, |orders|);
  }
}
