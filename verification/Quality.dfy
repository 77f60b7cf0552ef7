/** Raw order records, the quality rules over them, and the checker that applies the rules one order at a time. */
module Quality {
  import opened Common

  datatype RawOrder = RawOrder(
    orderId: Option<string>, userId: string, productId: string, quantity: int,
    unitPrice: real, discount: real, status: string, createdAt: Option<Time>)

  datatype Field = OrderId | UserId | Quantity | UnitPrice | Status | CreatedAt

  datatype Value = Null | Text(text: string) | Number(number: real) | Moment(at: Time)

  function Get(o: RawOrder, f: Field): Value {
    match f
    case OrderId => if o.orderId.None? then Null else Text(o.orderId.value)
    case UserId => Text(o.userId)
    case Quantity => Number(o.quantity as real)
    case UnitPrice => Number(o.unitPrice)
    case Status => Text(o.status)
    case CreatedAt => if o.createdAt.None? then Null else Moment(o.createdAt.value)
  }

  datatype Severity = Error | Warning

  /** One rule judges one field; every rule but `NotNull` passes a missing value. */
  datatype Rule =
    | NotNull(field: Field)
    | Unique(field: Field)
    | Range(field: Field, minimum: real, inclusive: bool)
    | Enum(field: Field, allowed: set<string>)
    | Reference(field: Field, valid: set<string>)
    | NotFuture(field: Field, now: Time)
  {
    function Severity(): Severity { if NotFuture? then Warning else Error }

    function Name(): RuleName {
      match this
      case NotNull(f) => RuleName("not_null", f)
      case Unique(f) => RuleName("unique", f)
      case Range(f, _, _) => RuleName("range", f)
      case Enum(f, _) => RuleName("enum", f)
      case Reference(f, _) => RuleName("reference", f)
      case NotFuture(f, _) => RuleName("not_future", f)
    }
  }

  /** A rule's name is its kind, a colon and its field. */
  datatype RuleName = RuleName(kind: string, field: Field)

  const VALID_STATUSES: set<string> := {"PAID", "CANCELED", "PENDING"}

  function DefaultRules(users: set<string>, now: Time): seq<Rule> {
    [NotNull(OrderId), NotNull(CreatedAt), Unique(OrderId), Range(Quantity, 0.0, false),
     Range(UnitPrice, 0.0, true), Enum(Status, VALID_STATUSES), Reference(UserId, users), NotFuture(CreatedAt, now)]
  }

  /** `seen` are the values a `Unique` rule remembers. */
  predicate Violates(r: Rule, seen: set<Value>, o: RawOrder) {
    var v := Get(o, r.field);
    match r
    case NotNull(_) => v.Null?
    case Unique(_) => !v.Null? && v in seen
    case Range(_, m, inclusive) => v.Number? && !(if inclusive then v.number >= m else v.number > m)
    case Enum(_, allowed) => v.Text? && v.text !in allowed
    case Reference(_, valid) => v.Text? && v.text !in valid
    case NotFuture(_, now) => v.Moment? && v.at > now
  }

  // ---------------- what a whole stream means ----------------

  /** The values of a field that occur in the stream, missing ones aside. */
  ghost function Occurring(s: seq<RawOrder>, f: Field): set<Value> {
    set i | 0 <= i < |s| && !Get(s[i], f).Null? :: Get(s[i], f)
  }

  /** Judged against everything before it in the stream, passed or not. */
  ghost predicate ViolatedAt(r: Rule, s: seq<RawOrder>, k: nat)
    requires k < |s|
  {
    Violates(r, Occurring(s[..k], r.field), s[k])
  }

  /** A repeated value is one that some earlier order had, whatever became of that order. */
  lemma {:induction false} UniqueMeansFirst(f: Field, s: seq<RawOrder>, k: nat)
    requires k < |s|
    ensures ViolatedAt(Unique(f), s, k) <==>
      !Get(s[k], f).Null? && exists j :: 0 <= j < k && Get(s[j], f) == Get(s[k], f)
  {
    if !Get(s[k], f).Null? {
      if j :| 0 <= j < k && Get(s[j], f) == Get(s[k], f) {
        assert s[..k][j] == s[j];
      }
    }
  }

  /** The rules order `k` violates, in rule order. */
  ghost function ViolationsAt(rules: seq<Rule>, s: seq<RawOrder>, k: nat): seq<Rule>
    requires k < |s|
  {
    if rules == [] then []
    else (if ViolatedAt(rules[0], s, k) then [rules[0]] else []) + ViolationsAt(rules[1..], s, k)
  }

  lemma {:induction false} ViolationsAtSnoc(rules: seq<Rule>, r: Rule, s: seq<RawOrder>, k: nat)
    requires k < |s|
    ensures ViolationsAt(rules + [r], s, k) == ViolationsAt(rules, s, k) + if ViolatedAt(r, s, k) then [r] else []
  {
    if rules == [] {
      assert ([] + [r])[1..] == [];
    } else {
      assert (rules + [r])[1..] == rules[1..] + [r];
      ViolationsAtSnoc(rules[1..], r, s, k);
    }
  }

  lemma {:induction false} ViolationsAtHas(rules: seq<Rule>, s: seq<RawOrder>, k: nat, r: Rule)
    requires k < |s|
    ensures r in ViolationsAt(rules, s, k) <==> r in rules && ViolatedAt(r, s, k)
  {
    if rules != [] {
      ViolationsAtHas(rules[1..], s, k, r);
    }
  }

  predicate HasSeverity(vs: seq<Rule>, severity: Severity) {
    exists i :: 0 <= i < |vs| && vs[i].Severity() == severity
  }

  predicate IsQuarantined(vs: seq<Rule>) { HasSeverity(vs, Error) }

  /** How many of the first `n` orders violate the rule, are quarantined, or carry a warning. */
  ghost function Failures(r: Rule, s: seq<RawOrder>, n: nat): nat
    requires n <= |s|
  {
    if n == 0 then 0 else Failures(r, s, n - 1) + if ViolatedAt(r, s, n - 1) then 1 else 0
  }

  ghost function Count(rules: seq<Rule>, severity: Severity, s: seq<RawOrder>, n: nat): nat
    requires n <= |s|
  {
    if n == 0 then 0
    else Count(rules, severity, s, n - 1) + if HasSeverity(ViolationsAt(rules, s, n - 1), severity) then 1 else 0
  }

  // ---------------- the same, on the orders' fields ----------------

  /** What the default rules promise of an order, field by field, given everything before it in the stream. */
  ghost predicate MustQuarantine(users: set<string>, s: seq<RawOrder>, k: nat)
    requires k < |s|
  {
    var o := s[k];
    || o.orderId.None? || o.createdAt.None? || (exists j :: 0 <= j < k && s[j].orderId == o.orderId)
    || o.quantity <= 0 || o.unitPrice < 0.0
    || (o.status != "PAID" && o.status != "CANCELED" && o.status != "PENDING") || o.userId !in users
  }

  ghost predicate IsFuture(now: Time, o: RawOrder) { o.createdAt.Some? && o.createdAt.value > now }

  /** Each default rule, on the fields it judges. */
  lemma {:induction false} DefaultRulesMean(users: set<string>, now: Time, s: seq<RawOrder>, k: nat)
    requires k < |s|
    ensures
      var o := s[k];
      && (ViolatedAt(NotNull(OrderId), s, k) <==> o.orderId.None?)
      && (ViolatedAt(NotNull(CreatedAt), s, k) <==> o.createdAt.None?)
      && (ViolatedAt(Unique(OrderId), s, k) <==>
            o.orderId.Some? && exists j :: 0 <= j < k && s[j].orderId == o.orderId)
      && (ViolatedAt(Range(Quantity, 0.0, false), s, k) <==> o.quantity <= 0)
      && (ViolatedAt(Range(UnitPrice, 0.0, true), s, k) <==> o.unitPrice < 0.0)
      && (ViolatedAt(Enum(Status, VALID_STATUSES), s, k) <==>
            o.status != "PAID" && o.status != "CANCELED" && o.status != "PENDING")
      && (ViolatedAt(Reference(UserId, users), s, k) <==> o.userId !in users)
      && (ViolatedAt(NotFuture(CreatedAt, now), s, k) <==> IsFuture(now, o))
  {
    UniqueMeansFirst(OrderId, s, k);
    assert forall j :: 0 <= j < k ==> (Get(s[j], OrderId) == Get(s[k], OrderId) <==> s[j].orderId == s[k].orderId);
  }

  /** Some violated rule has the severity. */
  ghost predicate Finds(rules: seq<Rule>, severity: Severity, s: seq<RawOrder>, k: nat)
    requires k < |s|
  {
    exists i :: 0 <= i < |rules| && rules[i].Severity() == severity && ViolatedAt(rules[i], s, k)
  }

  lemma {:induction false} SeverityMeans(rules: seq<Rule>, s: seq<RawOrder>, k: nat, severity: Severity)
    requires k < |s|
    ensures HasSeverity(ViolationsAt(rules, s, k), severity) <==> Finds(rules, severity, s, k)
  {
    var vs := ViolationsAt(rules, s, k);
    if HasSeverity(vs, severity) {
      var i :| 0 <= i < |vs| && vs[i].Severity() == severity;
      ViolationsAtHas(rules, s, k, vs[i]);
      var j :| 0 <= j < |rules| && rules[j] == vs[i];
    }
    if i :| 0 <= i < |rules| && rules[i].Severity() == severity && ViolatedAt(rules[i], s, k) {
      ViolationsAtHas(rules, s, k, rules[i]);
      var j :| 0 <= j < |vs| && vs[j] == rules[i];
    }
  }

  /** The eight default rules, in order. */
  lemma {:induction false} DefaultFinds(users: set<string>, now: Time, s: seq<RawOrder>, k: nat)
    requires k < |s|
    ensures Finds(DefaultRules(users, now), Error, s, k) <==>
      || ViolatedAt(NotNull(OrderId), s, k) || ViolatedAt(NotNull(CreatedAt), s, k)
      || ViolatedAt(Unique(OrderId), s, k) || ViolatedAt(Range(Quantity, 0.0, false), s, k)
      || ViolatedAt(Range(UnitPrice, 0.0, true), s, k) || ViolatedAt(Enum(Status, VALID_STATUSES), s, k)
      || ViolatedAt(Reference(UserId, users), s, k)
    ensures Finds(DefaultRules(users, now), Warning, s, k) <==> ViolatedAt(NotFuture(CreatedAt, now), s, k)
  {
    var rules := DefaultRules(users, now);
    assert |rules| == 8 && rules[7] == NotFuture(CreatedAt, now);
    assert rules[0] == NotNull(OrderId) && rules[1] == NotNull(CreatedAt) && rules[2] == Unique(OrderId)
      && rules[3] == Range(Quantity, 0.0, false) && rules[4] == Range(UnitPrice, 0.0, true)
      && rules[5] == Enum(Status, VALID_STATUSES) && rules[6] == Reference(UserId, users);
    assert forall i :: 0 <= i < 7 ==> rules[i].Severity() == Error;
  }

  /** Exactly which orders the default rules quarantine, and which they warn about. */
  lemma {:induction false} QuarantinedExactly(users: set<string>, now: Time, s: seq<RawOrder>, k: nat)
    requires k < |s|
    ensures IsQuarantined(ViolationsAt(DefaultRules(users, now), s, k)) <==> MustQuarantine(users, s, k)
    ensures HasSeverity(ViolationsAt(DefaultRules(users, now), s, k), Warning) <==> IsFuture(now, s[k])
  {
    DefaultRulesMean(users, now, s, k);
    DefaultFinds(users, now, s, k);
    SeverityMeans(DefaultRules(users, now), s, k, Error);
    SeverityMeans(DefaultRules(users, now), s, k, Warning);
  }

  /** The orders among the first `n` that violate the rule, or some rule of the severity. */
  ghost function FailingPlaces(r: Rule, s: seq<RawOrder>, n: nat): set<nat>
    requires n <= |s|
  {
    set i: nat | i < n && ViolatedAt(r, s, i)
  }

  ghost function FoundPlaces(rules: seq<Rule>, severity: Severity, s: seq<RawOrder>, n: nat): set<nat>
    requires n <= |s|
  {
    set i: nat | i < n && Finds(rules, severity, s, i)
  }

  /** The counters of any rules are numbers of orders. */
  lemma {:induction false} FailuresAreNumbers(r: Rule, s: seq<RawOrder>, n: nat)
    requires n <= |s|
    ensures Failures(r, s, n) == |FailingPlaces(r, s, n)|
  {
    if n > 0 {
      FailuresAreNumbers(r, s, n - 1);
      OneMoreFailing(r, s, n - 1);
    }
  }

  lemma {:induction false} OneMoreFailing(r: Rule, s: seq<RawOrder>, n: nat)
    requires n < |s|
    ensures |FailingPlaces(r, s, n + 1)| == |FailingPlaces(r, s, n)| + if ViolatedAt(r, s, n) then 1 else 0
  {
    var before, last := FailingPlaces(r, s, n), if ViolatedAt(r, s, n) then {n} else {};
    assert FailingPlaces(r, s, n + 1) == before + last;
  }

  lemma {:induction false} CountsAreNumbers(rules: seq<Rule>, severity: Severity, s: seq<RawOrder>, n: nat)
    requires n <= |s|
    ensures Count(rules, severity, s, n) == |FoundPlaces(rules, severity, s, n)|
  {
    if n > 0 {
      CountsAreNumbers(rules, severity, s, n - 1);
      SeverityMeans(rules, s, n - 1, severity);
      OneMoreFound(rules, severity, s, n - 1);
    }
  }

  lemma {:induction false} OneMoreFound(rules: seq<Rule>, severity: Severity, s: seq<RawOrder>, n: nat)
    requires n < |s|
    ensures |FoundPlaces(rules, severity, s, n + 1)| ==
      |FoundPlaces(rules, severity, s, n)| + if Finds(rules, severity, s, n) then 1 else 0
  {
    var before, last := FoundPlaces(rules, severity, s, n), if Finds(rules, severity, s, n) then {n} else {};
    assert FoundPlaces(rules, severity, s, n + 1) == before + last;
  }

  /** The orders among the first `n` that violate one of the default rules, on their fields. */
  ghost function BadPlaces(users: set<string>, s: seq<RawOrder>, n: nat): set<nat>
    requires n <= |s|
  {
    set i: nat | i < n && MustQuarantine(users, s, i)
  }

  ghost function FuturePlaces(now: Time, s: seq<RawOrder>): set<nat> {
    set i: nat | i < |s| && IsFuture(now, s[i])
  }

  /** The default rules' totals, as numbers of orders. */
  lemma {:induction false} DefaultCounts(users: set<string>, now: Time, s: seq<RawOrder>, n: nat)
    requires n <= |s|
    ensures Count(DefaultRules(users, now), Error, s, n) == |BadPlaces(users, s, n)|
    ensures Count(DefaultRules(users, now), Warning, s, |s|) == |FuturePlaces(now, s)|
  {
    var rules := DefaultRules(users, now);
    CountsAreNumbers(rules, Error, s, n);
    CountsAreNumbers(rules, Warning, s, |s|);
    forall k: nat | k < |s|
      ensures Finds(rules, Error, s, k) <==> MustQuarantine(users, s, k)
      ensures Finds(rules, Warning, s, k) <==> IsFuture(now, s[k])
    {
      QuarantinedExactly(users, now, s, k);
      SeverityMeans(rules, s, k, Error);
      SeverityMeans(rules, s, k, Warning);
    }
    assert FoundPlaces(rules, Error, s, n) == BadPlaces(users, s, n);
    assert FoundPlaces(rules, Warning, s, |s|) == FuturePlaces(now, s);
  }

  /** What is said about earlier orders does not depend on later ones. */
  lemma {:induction false} ViolationsPrefix(rules: seq<Rule>, s: seq<RawOrder>, o: RawOrder, k: nat)
    requires k < |s|
    ensures ViolationsAt(rules, s + [o], k) == ViolationsAt(rules, s, k)
  {
    if rules != [] {
      assert (s + [o])[..k] == s[..k] && (s + [o])[k] == s[k];
      ViolationsPrefix(rules[1..], s, o, k);
    }
  }

  lemma {:induction false} CountPrefix(rules: seq<Rule>, severity: Severity, s: seq<RawOrder>, o: RawOrder, n: nat)
    requires n <= |s|
    ensures Count(rules, severity, s + [o], n) == Count(rules, severity, s, n)
  {
    if n > 0 {
      CountPrefix(rules, severity, s, o, n - 1);
      ViolationsPrefix(rules, s, o, n - 1);
      var before, after := ViolationsAt(rules, s, n - 1), ViolationsAt(rules, s + [o], n - 1);
      assert HasSeverity(before, severity) <==> HasSeverity(after, severity);
    }
  }

  lemma {:induction false} CountSnoc(rules: seq<Rule>, severity: Severity, s: seq<RawOrder>, o: RawOrder)
    ensures Count(rules, severity, s + [o], |s| + 1) ==
      Count(rules, severity, s, |s|) + if HasSeverity(ViolationsAt(rules, s + [o], |s|), severity) then 1 else 0
  {
    CountPrefix(rules, severity, s, o, |s|);
  }

  lemma {:induction false} FailuresPrefix(r: Rule, s: seq<RawOrder>, o: RawOrder, n: nat)
    requires n <= |s|
    ensures Failures(r, s + [o], n) == Failures(r, s, n)
  {
    if n > 0 {
      FailuresPrefix(r, s, o, n - 1);
      assert (s + [o])[..n - 1] == s[..n - 1] && (s + [o])[n - 1] == s[n - 1];
    }
  }

  lemma {:induction false} OccurringSnoc(s: seq<RawOrder>, o: RawOrder, f: Field)
    ensures Occurring(s + [o], f) == Occurring(s, f) + if Get(o, f).Null? then {} else {Get(o, f)}
  {
    forall v | v in Occurring(s, f) ensures v in Occurring(s + [o], f) {
      var i :| 0 <= i < |s| && !Get(s[i], f).Null? && Get(s[i], f) == v;
      assert (s + [o])[i] == s[i];
    }
    assert (s + [o])[|s|] == o;
  }

  // ---------------- the checker ----------------

  datatype RuleResult = RuleResult(rule: RuleName, passed: bool, invalid: nat)

  datatype Report = Report(total: nat, quarantined: nat, warned: nat, results: seq<RuleResult>)

  /** What a report says about a whole stream. */
  ghost predicate Describes(r: Report, rules: seq<Rule>, s: seq<RawOrder>) {
    && r.total == |s| && r.quarantined == Count(rules, Error, s, |s|) && r.warned == Count(rules, Warning, s, |s|)
    && |r.results| == |rules|
    && forall i :: 0 <= i < |rules| ==>
         r.results[i] == RuleResult(rules[i].Name(), Failures(rules[i], s, |s|) == 0, Failures(rules[i], s, |s|))
  }

  predicate DistinctNames(rules: seq<Rule>) {
    forall i, j :: 0 <= i < j < |rules| ==> rules[i].Name() != rules[j].Name()
  }

  class QualityChecker {
    const rules: seq<Rule>
    var seen: seq<set<Value>>        // per rule; only `Unique` rules remember
    var failures: seq<nat>           // per rule
    var total: nat
    var quarantined: nat
    var warned: nat
    ghost var stream: seq<RawOrder>  // everything checked so far

    ghost predicate Valid() reads this {
      && |seen| == |failures| == |rules| && total == |stream|
      && (forall i :: 0 <= i < |rules| ==> UpToDate(rules[i], seen[i], failures[i], stream))
      && quarantined == Count(rules, Error, stream, |stream|) && warned == Count(rules, Warning, stream, |stream|)
    }

    constructor (rules: seq<Rule>)
      requires DistinctNames(rules)
      ensures Valid() && this.rules == rules && stream == []
    {
      this.rules := rules;
      seen, failures := seq(|rules|, _ => {}), seq(|rules|, _ => 0);
      total, quarantined, warned := 0, 0, 0;
      stream := [];
    }

    /** One rule on one order; a `Unique` rule remembers a value the first time it sees it. */
    method Apply(i: nat, o: RawOrder) returns (violated: bool)
      requires i < |rules| && |seen| == |failures| == |rules|
      modifies this`seen, this`failures
      ensures violated == Violates(rules[i], old(seen)[i], o)
      ensures failures == old(failures)[i := old(failures)[i] + if violated then 1 else 0]
      ensures seen == old(seen)[i := Remembered(rules[i], old(seen)[i], o)]
    {
      var v := Get(o, rules[i].field);
      violated := Violates(rules[i], seen[i], o);
      if violated {
        failures := failures[i := failures[i] + 1];
      } else if rules[i].Unique? && !v.Null? {
        seen := seen[i := seen[i] + {v}];
      }
      assert violated && rules[i].Unique? ==> old(seen)[i] + {v} == old(seen)[i];
      assert violated ==> seen == old(seen)[i := old(seen)[i]];
      assert !violated ==> failures == old(failures)[i := old(failures)[i] + 0];
    }

    /** Every rule in turn; afterwards each has followed the stream to its new end. */
    method ApplyAll(o: RawOrder) returns (vs: seq<Rule>)
      requires |seen| == |failures| == |rules|
      requires forall i :: 0 <= i < |rules| ==> UpToDate(rules[i], seen[i], failures[i], stream)
      modifies this`seen, this`failures
      ensures |seen| == |failures| == |rules|
      ensures forall i :: 0 <= i < |rules| ==> UpToDate(rules[i], seen[i], failures[i], stream + [o])
      ensures vs == ViolationsAt(rules, stream + [o], |stream|)
    {
      ghost var s := stream + [o];
      vs := [];
      for i := 0 to |rules|
        invariant |seen| == |failures| == |rules| && vs == ViolationsAt(rules[..i], s, |stream|)
        invariant forall j :: i <= j < |rules| ==> UpToDate(rules[j], seen[j], failures[j], stream)
        invariant forall j :: 0 <= j < i ==> UpToDate(rules[j], seen[j], failures[j], s)
      {
        ViolationsAtSnoc(rules[..i], rules[i], s, |stream|);
        assert rules[..i + 1] == rules[..i] + [rules[i]];
        Follows(rules[i], seen[i], failures[i], stream, o);
        var violated := Apply(i, o);
        if violated {
          vs := vs + [rules[i]];
        }
      }
      assert rules[..|rules|] == rules;
    }

    /** The violations of one order are those the stream so far implies; the counters follow the stream. */
    method Check(o: RawOrder) returns (vs: seq<Rule>)
      requires Valid()
      modifies this
      ensures Valid() && stream == old(stream) + [o] && vs == ViolationsAt(rules, stream, |stream| - 1)
    {
      CountSnoc(rules, Error, stream, o);
      CountSnoc(rules, Warning, stream, o);
      vs := ApplyAll(o);
      total := total + 1;
      if IsQuarantined(vs) {
        quarantined := quarantined + 1;
      }
      if HasSeverity(vs, Warning) {
        warned := warned + 1;
      }
      stream := stream + [o];
    }

    method MakeReport() returns (r: Report)
      requires Valid()
      ensures Describes(r, rules, stream)
    {
      r := Report(total, quarantined, warned,
                  seq(|rules|, i requires 0 <= i < |rules| && |failures| == |rules| reads this =>
                    RuleResult(rules[i].Name(), failures[i] == 0, failures[i])));
    }
  }

  /** A rule set with a repeated name is rejected. */
  method NewChecker(rules: seq<Rule>) returns (c: Option<QualityChecker>)
    ensures c.Some? <==> DistinctNames(rules)
    ensures c.Some? ==> fresh(c.value) && c.value.Valid() && c.value.rules == rules && c.value.stream == []
  {
    if !DistinctNames(rules) {
      return None;
    }
    var checker := new QualityChecker(rules);
    c := Some(checker);
  }

  function Remembered(r: Rule, seen: set<Value>, o: RawOrder): set<Value> {
    if r.Unique? && !Get(o, r.field).Null? then seen + {Get(o, r.field)} else seen
  }

  /** What a rule remembers and has counted after a stream. */
  ghost predicate UpToDate(r: Rule, seen: set<Value>, failed: nat, s: seq<RawOrder>) {
    (r.Unique? ==> seen == Occurring(s, r.field)) && failed == Failures(r, s, |s|)
  }

  /** One more order keeps a rule up to date, and the rule judges that order as the whole stream would. */
  lemma {:induction false} Follows(r: Rule, seen: set<Value>, failed: nat, s: seq<RawOrder>, o: RawOrder)
    requires UpToDate(r, seen, failed, s)
    ensures Violates(r, seen, o) <==> ViolatedAt(r, s + [o], |s|)
    ensures UpToDate(r, Remembered(r, seen, o), failed + (if Violates(r, seen, o) then 1 else 0), s + [o])
  {
    OccurringSnoc(s, o, r.field);
    FailuresPrefix(r, s, o, |s|);
    assert (s + [o])[..|s|] == s && (s + [o])[|s|] == o;
  }
}
