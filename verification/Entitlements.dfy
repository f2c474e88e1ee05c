/**
  A customer's effective entitlements: the union of what the plans of its active
  and trialing subscriptions grant (internal/service/entitlement.go:15-28,
  134-162, 226-282; internal/adapter/db/entitlement_repository.go:67-126).
 */
module Entitlements {
  import opened Options
  import opened Ordering

  datatype Kind = BooleanKind | LimitKind
  datatype Row = Row(plan: nat, feature: string, kind: Kind, boolValue: Option<bool>, limitValue: Option<int>)

  /** An effective entitlement's value. */
  datatype Value = Flag(granted: bool) | Limit(cap: int)

  datatype Effective = Effective(feature: string, value: Value, plans: set<nat>)

  // ---- The order on values ----

  /** false < true < any limit, and limits by their cap. */
  predicate AtMost(a: Value, b: Value) {
    match (a, b)
    case (Flag(x), Flag(y)) => x ==> y
    case (Flag(_), Limit(_)) => true
    case (Limit(_), Flag(_)) => false
    case (Limit(x), Limit(y)) => x <= y
  }

  function Join(a: Value, b: Value): Value {
    if AtMost(a, b) then b else a
  }

  /** Not having a feature at all is below having it. */
  predicate Below(a: Option<Value>, b: Option<Value>) {
    a.None? || (b.Some? && AtMost(a.value, b.value))
  }

  function JoinOption(a: Option<Value>, b: Option<Value>): Option<Value> {
    match (a, b)
    case (None, _) => b
    case (_, None) => a
    case (Some(x), Some(y)) => Some(Join(x, y))
  }

  /** The join is the least upper bound. */
  lemma JoinIsLeast(a: Option<Value>, b: Option<Value>, c: Option<Value>)
    ensures Below(a, JoinOption(a, b)) && Below(b, JoinOption(a, b))
    ensures Below(JoinOption(a, b), c) <==> Below(a, c) && Below(b, c)
    ensures Below(a, b) && Below(b, a) <==> a == b
  {
  }

  // ---- Resolving ----

  function ValueOf(r: Row): Value {
    match r.kind
    case BooleanKind => Flag(r.boolValue == Some(true))
    case LimitKind => if r.limitValue.Some? then Limit(r.limitValue.value) else Flag(false)
  }

  function Resolve(rows: seq<Row>, feature: string): Option<Value> {
    if rows == [] then None
    else
      var before, r := Resolve(rows[..|rows| - 1], feature), rows[|rows| - 1];
      if r.feature == feature then JoinOption(before, Some(ValueOf(r))) else before
  }

  function PlansOf(rows: seq<Row>, feature: string): set<nat> {
    set r | r in rows && r.feature == feature :: r.plan
  }

  /** Resolving two lists together is joining their separate results. */
  lemma {:induction false} ResolveIsJoin(xs: seq<Row>, ys: seq<Row>, feature: string)
    ensures Resolve(xs + ys, feature) == JoinOption(Resolve(xs, feature), Resolve(ys, feature))
  {
    if ys == [] {
      assert xs + ys == xs;
    } else {
      assert (xs + ys)[..|xs + ys| - 1] == xs + ys[..|ys| - 1];
      ResolveIsJoin(xs, ys[..|ys| - 1], feature);
    }
  }

  /** It is above every row of the feature, and below whatever is above all of them. */
  lemma {:induction false} ResolveIsLeast(rows: seq<Row>, feature: string, bound: Option<Value>)
    ensures Below(Resolve(rows, feature), bound)
       <==> forall r :: r in rows && r.feature == feature ==> Below(Some(ValueOf(r)), bound)
  {
    if rows != [] {
      var init, last := rows[..|rows| - 1], rows[|rows| - 1];
      ResolveIsLeast(init, feature, bound);
      assert forall r :: r in rows <==> r in init || r == last;
      JoinIsLeast(Resolve(init, feature), Some(ValueOf(last)), bound);
    }
  }

  /** More rows never lower a feature. */
  lemma ResolveMonotone(xs: seq<Row>, ys: seq<Row>, feature: string)
    requires forall r :: r in xs ==> r in ys
    ensures Below(Resolve(xs, feature), Resolve(ys, feature))
  {
    var top := Resolve(ys, feature);
    ResolveIsLeast(ys, feature, top);
    JoinIsLeast(top, top, top);
    ResolveIsLeast(xs, feature, top);
  }

  /** Order and repetition of rows do not matter. */
  lemma ResolveIgnoresOrder(xs: seq<Row>, ys: seq<Row>, feature: string)
    requires forall r :: r in xs <==> r in ys
    ensures Resolve(xs, feature) == Resolve(ys, feature)
  {
    ResolveMonotone(xs, ys, feature);
    ResolveMonotone(ys, xs, feature);
    JoinIsLeast(Resolve(xs, feature), Resolve(ys, feature), None);
  }

  // ---- The service ----

  /** resolveEffective's accumulator for one feature. */
  datatype Acc = Acc(anyTrue: bool, hasLimit: bool, maxLimit: int, plans: set<nat>)

  function AccValue(a: Acc): Value {
    if a.hasLimit then Limit(a.maxLimit) else Flag(a.anyTrue)
  }

  lemma PlansStep(rows: seq<Row>, i: nat, feature: string)
    requires i < |rows|
    ensures PlansOf(rows[..i + 1], feature)
         == PlansOf(rows[..i], feature) + (if rows[i].feature == feature then {rows[i].plan} else {})
    ensures Resolve(rows[..i + 1], feature)
         == (if rows[i].feature == feature then JoinOption(Resolve(rows[..i], feature), Some(ValueOf(rows[i])))
             else Resolve(rows[..i], feature))
  {
    assert rows[..i + 1] == rows[..i] + [rows[i]];
    assert rows[..i + 1][..i] == rows[..i];
  }

  function Folded(a: Acc, r: Row): Acc {
    var b := a.(plans := a.plans + {r.plan});
    match r.kind
    case BooleanKind => if r.boolValue == Some(true) then b.(anyTrue := true) else b
    case LimitKind =>
      if r.limitValue.None? then b
      else b.(maxLimit := if !a.hasLimit || r.limitValue.value > a.maxLimit then r.limitValue.value else a.maxLimit,
              hasLimit := true)
  }

  lemma FoldedValue(a: Acc, r: Row)
    ensures AccValue(Folded(a, r)) == Join(AccValue(a), ValueOf(r))
  {
  }

  lemma FirstValue(r: Row)
    ensures AccValue(Folded(Acc(false, false, 0, {}), r)) == ValueOf(r)
  {
  }

  ghost predicate Accumulated(byKey: map<string, Acc>, rows: seq<Row>) {
    forall f: string ::
      && (f in byKey <==> Resolve(rows, f).Some?)
      && (f in byKey ==> Resolve(rows, f) == Some(AccValue(byKey[f])) && byKey[f].plans == PlansOf(rows, f))
  }

  /** One entry per feature that any row mentions, in ascending order, with the joined value and every plan that
      mentions it. */
  ghost predicate IsEffective(rows: seq<Row>, out: seq<Effective>) {
    && (forall i, j :: 0 <= i < j < |out| ==> Before(out[i].feature, out[j].feature))
    && (forall o :: o in out ==> Resolve(rows, o.feature) == Some(o.value) && o.plans == PlansOf(rows, o.feature))
    && (forall f: string :: Resolve(rows, f).Some? ==> exists o :: o in out && o.feature == f)
  }

  /** resolveEffective: the rows folded into one accumulator per feature, then listed in order. */
  method ResolveEffective(rows: seq<Row>) returns (out: seq<Effective>)
    ensures IsEffective(rows, out)
  {
    var byKey: map<string, Acc> := map[];
    for i := 0 to |rows|
      invariant Accumulated(byKey, rows[..i])
    {
      var r := rows[i];
      var a := if r.feature in byKey then byKey[r.feature] else Acc(false, false, 0, {});
      ghost var before := byKey;
      byKey := byKey[r.feature := Folded(a, r)];
      FoldedValue(a, r);
      FirstValue(r);
      forall f: string
        ensures && (f in byKey <==> Resolve(rows[..i + 1], f).Some?)
                && (f in byKey ==>
                      && Resolve(rows[..i + 1], f) == Some(AccValue(byKey[f]))
                      && byKey[f].plans == PlansOf(rows[..i + 1], f))
      {
        PlansStep(rows, i, f);
        if f !in before {
          NoPlans(rows[..i], f);
        }
      }
    }
    assert rows[..|rows|] == rows;
    var keys := SortKeys(byKey.Keys);
    out := [];
    for i := 0 to |keys|
      invariant |out| == i
      invariant forall j :: 0 <= j < i ==> out[j] == Effective(keys[j], AccValue(byKey[keys[j]]), byKey[keys[j]].plans)
    {
      assert keys[i] in Elements(keys);
      out := out + [Effective(keys[i], AccValue(byKey[keys[i]]), byKey[keys[i]].plans)];
    }
    forall f | Resolve(rows, f).Some? ensures exists o :: o in out && o.feature == f {
      assert f in Elements(keys);
      var i :| 0 <= i < |keys| && keys[i] == f;
      assert out[i] in out;
    }
  }

  lemma NoPlans(rows: seq<Row>, feature: string)
    requires Resolve(rows, feature).None?
    ensures PlansOf(rows, feature) == {}
  {
  }

  function Features(out: seq<Effective>): (fs: seq<string>)
    ensures |fs| == |out|
  {
    seq(|out|, i requires 0 <= i < |out| => out[i].feature)
  }

  lemma FeaturesOf(rows: seq<Row>, out: seq<Effective>, f: string)
    requires IsEffective(rows, out)
    ensures f in Elements(Features(out)) <==> Resolve(rows, f).Some?
  {
    if f in Elements(Features(out)) {
      var i :| 0 <= i < |out| && Features(out)[i] == f;
      assert out[i] in out;
    }
    if Resolve(rows, f).Some? {
      var o :| o in out && o.feature == f;
      var i :| 0 <= i < |out| && out[i] == o;
      assert Features(out)[i] == f;
    }
  }

  /** The whole result, its order included, depends only on which rows there are: shuffling or repeating rows gives
      the very same list. */
  lemma EffectiveIgnoresOrder(xs: seq<Row>, ys: seq<Row>, outX: seq<Effective>, outY: seq<Effective>)
    requires forall r :: r in xs <==> r in ys
    requires IsEffective(xs, outX) && IsEffective(ys, outY)
    ensures outX == outY
  {
    forall f: string ensures f in Elements(Features(outX)) <==> f in Elements(Features(outY)) {
      FeaturesOf(xs, outX, f);
      FeaturesOf(ys, outY, f);
      ResolveIgnoresOrder(xs, ys, f);
    }
    AscendingUnique(Features(outX), Features(outY));
    forall i | 0 <= i < |outX| ensures outX[i] == outY[i] {
      assert Features(outX)[i] == Features(outY)[i];
      assert outX[i] in outX && outY[i] in outY;
      ResolveIgnoresOrder(xs, ys, outX[i].feature);
      assert PlansOf(xs, outX[i].feature) == PlansOf(ys, outX[i].feature);
    }
  }

  // ---- A customer ----

  datatype SubscriptionStatus = Active | Trialing | Other
  datatype Subscription = Subscription(status: SubscriptionStatus, plan: nat)

  predicate Counts(s: Subscription) {
    s.status in {Active, Trialing}
  }

  function PlanSet(subs: seq<Subscription>): set<nat> {
    set s | s in subs && Counts(s) :: s.plan
  }

  /** ListByPlanIDs: the catalog rows of the given plans. */
  function RowsOf(catalog: seq<Row>, plans: set<nat>): seq<Row> {
    if catalog == [] then []
    else RowsOf(catalog[..|catalog| - 1], plans)
         + (if catalog[|catalog| - 1].plan in plans then [catalog[|catalog| - 1]] else [])
  }

  lemma {:induction false} RowsOfMembers(catalog: seq<Row>, plans: set<nat>, r: Row)
    ensures r in RowsOf(catalog, plans) <==> r in catalog && r.plan in plans
  {
    if catalog != [] {
      RowsOfMembers(catalog[..|catalog| - 1], plans, r);
      assert catalog == catalog[..|catalog| - 1] + [catalog[|catalog| - 1]];
    }
  }

  /** The plan selection of GetCustomerEntitlements: each counting plan once. */
  method CustomerPlans(subs: seq<Subscription>) returns (planIds: seq<nat>)
    ensures (set p | p in planIds) == PlanSet(subs)
    ensures forall i, j :: 0 <= i < j < |planIds| ==> planIds[i] != planIds[j]
  {
    planIds := [];
    for i := 0 to |subs|
      invariant forall p :: p in planIds <==> p in PlanSet(subs[..i])
      invariant forall j, k :: 0 <= j < k < |planIds| ==> planIds[j] != planIds[k]
    {
      assert subs[..i + 1] == subs[..i] + [subs[i]];
      if Counts(subs[i]) && subs[i].plan !in planIds {
        planIds := planIds + [subs[i].plan];
      }
    }
    assert subs[..|subs|] == subs;
  }

  /** Another subscription can only add capability. */
  lemma SubscribingNeverLowers(catalog: seq<Row>, subs: seq<Subscription>, more: seq<Subscription>, feature: string)
    ensures Below(Resolve(RowsOf(catalog, PlanSet(subs)), feature),
        Resolve(RowsOf(catalog, PlanSet(subs + more)), feature))
  {
    forall r | r in RowsOf(catalog, PlanSet(subs)) ensures r in RowsOf(catalog, PlanSet(subs + more)) {
      RowsOfMembers(catalog, PlanSet(subs), r);
      RowsOfMembers(catalog, PlanSet(subs + more), r);
    }
    ResolveMonotone(RowsOf(catalog, PlanSet(subs)), RowsOf(catalog, PlanSet(subs + more)), feature);
  }

  // ---- The one-query check ----

  /** The join of the query: a plan's rows once per subscription to it. */
  function Joined(catalog: seq<Row>, subs: seq<Subscription>): seq<Row> {
    if subs == [] then []
    else Joined(catalog, subs[..|subs| - 1])
         + (if Counts(subs[|subs| - 1]) then RowsOf(catalog, {subs[|subs| - 1].plan}) else [])
  }

  lemma {:induction false} JoinedMembers(catalog: seq<Row>, subs: seq<Subscription>, r: Row)
    ensures r in Joined(catalog, subs) <==> r in catalog && r.plan in PlanSet(subs)
  {
    if subs != [] {
      var init, last := subs[..|subs| - 1], subs[|subs| - 1];
      JoinedMembers(catalog, init, r);
      RowsOfMembers(catalog, {last.plan}, r);
      assert subs == init + [last];
    }
  }

  /** What validateEntitlementInput lets into the catalog. */
  predicate ValidRow(r: Row) {
    match r.kind
    case BooleanKind => r.boolValue.Some? && r.limitValue.None?
    case LimitKind => r.boolValue.None? && r.limitValue.Some? && r.limitValue.value >= 0
  }

  datatype Check = Check(granted: bool, limit: Option<int>)

  /** CheckFeature's aggregates over the joined rows: any grant, and the largest limit. */
  function Aggregate(rows: seq<Row>, feature: string): Check {
    if rows == [] then Check(false, None)
    else
      var before, r := Aggregate(rows[..|rows| - 1], feature), rows[|rows| - 1];
      if r.feature != feature then before
      else Check(before.granted || (if r.kind == BooleanKind then r.boolValue == Some(true) else true),
                 if before.limit.None? then r.limitValue
                 else if r.limitValue.Some? && r.limitValue.value > before.limit.value then r.limitValue
                          else before.limit)
  }

  /** How the effective value reads as a check. */
  function AsCheck(v: Option<Value>): Check {
    match v
    case None => Check(false, None)
    case Some(Flag(granted)) => Check(granted, None)
    case Some(Limit(cap)) => Check(true, Some(cap))
  }

  lemma {:induction false} AggregateIsResolve(rows: seq<Row>, feature: string)
    requires forall r :: r in rows ==> ValidRow(r)
    ensures Aggregate(rows, feature) == AsCheck(Resolve(rows, feature))
  {
    if rows != [] {
      AggregateIsResolve(rows[..|rows| - 1], feature);
      assert ValidRow(rows[|rows| - 1]);
    }
  }

  /** On a valid catalog the one-query check answers what the full resolution of the customer's plans would,
      although it sees a plan's rows once per subscription. */
  lemma CheckAgreesWithResolution(catalog: seq<Row>, subs: seq<Subscription>, feature: string)
    requires forall r :: r in catalog ==> ValidRow(r)
    ensures Aggregate(Joined(catalog, subs), feature) == AsCheck(Resolve(RowsOf(catalog, PlanSet(subs)), feature))
  {
    forall r ensures r in Joined(catalog, subs) <==> r in RowsOf(catalog, PlanSet(subs)) {
      JoinedMembers(catalog, subs, r);
      RowsOfMembers(catalog, PlanSet(subs), r);
    }
    forall r | r in Joined(catalog, subs) ensures ValidRow(r) {
      JoinedMembers(catalog, subs, r);
    }
    AggregateIsResolve(Joined(catalog, subs), feature);
    ResolveIgnoresOrder(Joined(catalog, subs), RowsOf(catalog, PlanSet(subs)), feature);
  }
}
