/**
  Monthly recurring revenue, in one reporting currency: per legal entity in one
  pass, and consolidated (internal/service/analytics.go:23-42, 97-102, 181-396;
  internal/service/fx.go:51-92; internal/core/domain/currency.go:27-69).

  Rates and prices are exact fractions where the source uses floating point.
 */
module Mrr {
  import opened Letters
  import opened Options
  import opened Rounding
  import G = Grouping

  type Pos = x: nat | x > 0 witness 1

  datatype Unit = Month | Year | Week | Day | Unset
  datatype Price = Price(amount: int, currency: string)
  datatype Plan = Plan(prices: seq<Price>, unit: Unit, count: int)
  datatype Subscription = Subscription(entity: Option<nat>, plan: nat)

  /** A major-to-major exchange rate. */
  datatype Rate = Rate(num: nat, den: Pos)

  /** What one report reads: plans, the primary entity, the reporting currency, and the two rate providers. */
  datatype Book = Book(plans: map<nat, Plan>, primary: Option<nat>, reporting: string,
                       live: Option<map<string, Rate>>, fallback: Option<map<string, Rate>>)

  // ---- Per-month prices ----

  /** One period is count months, 12 count months, or count weeks or days of which 365.25 / 12 make a month. */
  function MonthlyMinorUnits(amount: int, unit: Unit, count: int): int {
    var n: Pos := if count <= 0 then 1 else count;
    match unit
    case Year => RoundHalfAway(amount, 12 * n)
    case Week => RoundHalfAway(amount * 487, 112 * n)
    case Day => RoundHalfAway(amount * 487, 16 * n)
    case Month => RoundHalfAway(amount, n)
    case Unset => RoundHalfAway(amount, n)
  }

  /** The length of a period in parts of a day, of which there are 48: a month has 30.4375 days. */
  function LengthOf(unit: Unit, count: int): Pos {
    var n: Pos := if count <= 0 then 1 else count;
    match unit
    case Day => 48 * n
    case Week => 7 * 48 * n
    case Year => 12 * 1461 * n
    case Month => 1461 * n
    case Unset => 1461 * n
  }

  /** The monthly price is the nearest one: over the period it stays within half a minor unit a month of what is
      charged. */
  lemma MonthlyNearest(amount: int, unit: Unit, count: int)
    ensures var p: int := LengthOf(unit, count);
            -p <= 2 * (MonthlyMinorUnits(amount, unit, count) * p - 1461 * amount) <= p
  {
    var n: Pos := if count <= 0 then 1 else count;
    var m := MonthlyMinorUnits(amount, unit, count);
    match unit
    case Year =>
      RoundHalfAwayBounds(amount, 12 * n);
      Scaled(m, 12 * n, 1461);
    case Week =>
      RoundHalfAwayBounds(amount * 487, 112 * n);
      Scaled(m, 112 * n, 3);
    case Day =>
      RoundHalfAwayBounds(amount * 487, 16 * n);
      Scaled(m, 16 * n, 3);
    case Month =>
      RoundHalfAwayBounds(amount, n);
      Scaled(m, n, 1461);
    case Unset =>
      RoundHalfAwayBounds(amount, n);
      Scaled(m, n, 1461);
  }

  lemma Scaled(m: int, d: int, k: int)
    ensures m * (k * d) == k * (d * m)
  {
  }

  lemma MonthlyNonNegative(amount: int, unit: Unit, count: int)
    requires amount >= 0
    ensures MonthlyMinorUnits(amount, unit, count) >= 0
  {
  }

  /** A price for whole months, spread over them, comes back exactly. */
  lemma MonthlyExact(monthly: nat, count: nat)
    requires count > 0
    ensures MonthlyMinorUnits(monthly * count, Month, count) == monthly
    ensures MonthlyMinorUnits(12 * count * monthly, Year, count) == monthly
  {
    RoundDivExact(monthly, count);
    RoundDivExact(monthly, 12 * count);
    assert count * monthly == monthly * count;
  }

  // ---- Conversion ----

  /** Codes are read in any letter case and with blanks around them. */
  function MinorUnitsPerMajor(currency: string): Pos {
    MinorUnitsOf(Upper(Trim(currency)))
  }

  function MinorUnitsOf(currency: string): Pos {
    if currency in {"JPY", "KRW", "VND", "CLP", "BIF", "DJF", "GNF", "ISK", "KMF", "PYG", "RWF", "UGX", "VUV", "XAF",
                    "XOF", "XPF"} then 1
    else if currency in {"BHD", "IQD", "JOD", "KWD", "LYD", "OMR", "TND"} then 1000
    else 100
  }

  function Quote(table: Option<map<string, Rate>>, currency: string): Option<Rate> {
    if table.Some? && currency in table.value then Some(table.value[currency]) else None
  }

  /** The live rate, else the fallback rate; the reporting currency itself is at par. */
  function RateOf(b: Book, currency: string): Option<Rate> {
    if currency == b.reporting then Some(Rate(1, 1))
    else if Quote(b.live, currency).Some? then Quote(b.live, currency)
    else Quote(b.fallback, currency)
  }

  function Times(x: Pos, y: Pos): Pos {
    MulMonotone(x, 1, y);
    x * y
  }

  /** ConvertMinorUnits: exponent-aware, rounded half away from zero; nothing for a currency without a rate. */
  function Convert(b: Book, amount: int, currency: string): int {
    match RateOf(b, currency)
    case None => 0
    case Some(r) =>
      RoundHalfAway(amount * (r.num * MinorUnitsPerMajor(b.reporting)), Times(r.den, MinorUnitsPerMajor(currency)))
  }

  lemma ConvertZero(b: Book, currency: string)
    ensures Convert(b, 0, currency) == 0
  {
    match RateOf(b, currency)
    case None =>
    case Some(r) => ZeroRounds(r.num * MinorUnitsPerMajor(b.reporting), Times(r.den, MinorUnitsPerMajor(currency)));
  }

  lemma ZeroRounds(n: nat, d: Pos)
    ensures RoundHalfAway(0 * n, d) == 0
  {
  }

  /** A converted amount is the nearest one: in major units of the reporting currency it is within half a minor unit of
      the amount at the rate. */
  lemma ConvertNearest(b: Book, amount: int, currency: string)
    requires RateOf(b, currency).Some?
    ensures var r, from, to := RateOf(b, currency).value, MinorUnitsPerMajor(currency), MinorUnitsPerMajor(b.reporting);
            var exact, whole := amount * r.num * to, Convert(b, amount, currency) * r.den * from;
            -(r.den * from) <= 2 * (whole - exact) <= r.den * from
  {
    var r := RateOf(b, currency).value;
    NearestQuotient(amount, r.num, MinorUnitsPerMajor(b.reporting), r.den, MinorUnitsPerMajor(currency));
  }

  lemma NearestQuotient(amount: int, num: nat, to: Pos, den: Pos, from: Pos)
    ensures var q := RoundHalfAway(amount * (num * to), Times(den, from));
            -(den * from) <= 2 * (q * den * from - amount * num * to) <= den * from
  {
    var q := RoundHalfAway(amount * (num * to), Times(den, from));
    RoundHalfAwayBounds(amount * (num * to), Times(den, from));
    Associate(amount, num, to);
    Associate(q, den, from);
  }

  lemma Associate(x: int, y: int, z: int)
    ensures x * (y * z) == x * y * z
  {
  }

  /** A yen has no smaller unit, a dollar a hundred and a dinar a thousand, however the code is written. */
  lemma MinorUnitsAre(currency: string)
    ensures Upper(Trim(currency)) == "JPY" ==> MinorUnitsPerMajor(currency) == 1
    ensures Upper(Trim(currency)) == "KWD" ==> MinorUnitsPerMajor(currency) == 1000
    ensures Upper(Trim(currency)) == "USD" ==> MinorUnitsPerMajor(currency) == 100
  {
  }

  lemma SpelledOut(currency: string)
    requires currency in {"JPY", "KWD", "USD"}
    ensures Trim(currency) == currency && Upper(currency) == currency
  {
  }

  /** So n yen and n dinars both convert into dollars as n times their rate. */
  lemma MinorUnitsConvert(b: Book, n: int, currency: string)
    requires b.reporting == "USD" && currency in {"JPY", "KWD"}
    requires RateOf(b, currency).Some? && RateOf(b, currency).value.den == 1
    ensures Convert(b, MinorUnitsPerMajor(currency) * n, currency) == 100 * (n * RateOf(b, currency).value.num)
  {
    SpelledOut(currency);
    SpelledOut("USD");
    MinorUnitsAre(currency);
    MinorUnitsAre("USD");
    WholeUnits(n, RateOf(b, currency).value.num, MinorUnitsPerMajor(currency));
  }

  lemma WholeUnits(n: int, num: nat, from: Pos)
    ensures RoundHalfAway(from * n * (num * 100), Times(1, from)) == 100 * (n * num)
  {
    var whole := 100 * (n * num);
    assert from * n * (num * 100) == from * whole by {
      Associate(from, n, num * 100);
      Associate(n, num, 100);
    }
    RoundHalfAwayIff(from * whole, from, whole);
  }

  predicate FromFallback(b: Book, currency: string) {
    currency != b.reporting && Quote(b.live, currency).None? && Quote(b.fallback, currency).Some?
  }

  /** fxNormalizer: one report's rates, remembered with whether any of them was a fallback rate. */
  class FxNormalizer {
    const book: Book
    var rates: map<string, Rate>
    var usedFallback: bool

    /** The report is flagged as soon as one of its rates came from the fallback, and lists exactly the rates it
        used. */
    ghost predicate Valid()
      reads this
    {
      && (forall c :: c in rates ==> RateOf(book, c) == Some(rates[c]))
      && (usedFallback <==> exists c :: c in rates && FromFallback(book, c))
    }

    constructor (b: Book)
      ensures Valid() && book == b && rates == map[]
    {
      book, rates, usedFallback := b, map[], false;
    }

    method LookUp(from: string) returns (r: Option<Rate>)
      requires Valid()
      modifies this
      ensures Valid()
      ensures r == RateOf(book, from)
      ensures from == book.reporting ==> r == Some(Rate(1, 1))
      ensures from != book.reporting ==>
                var quoted := book.live.Some? && from in book.live.value;
                && (quoted ==> r == Some(book.live.value[from]))
                && (!quoted ==> (r.Some? <==> book.fallback.Some? && from in book.fallback.value))
                && (!quoted && r.Some? ==> r.value == book.fallback.value[from])
      ensures rates == if r.Some? then old(rates)[from := r.value] else old(rates)
    {
      if from == book.reporting {
        rates := rates[from := Rate(1, 1)];
        return Some(Rate(1, 1));
      }
      if book.live.Some? {
        r := Quote(book.live, from);
        if r.Some? {
          rates := rates[from := r.value];
          return;
        }
        if book.fallback.None? {
          return None;
        }
      }
      r := Quote(book.fallback, from);
      if r.Some? {
        usedFallback := true;
        rates := rates[from := r.value];
        assert from in rates && FromFallback(book, from);
      }
    }

    method ConvertAmount(amount: int, from: string) returns (converted: Option<int>)
      requires Valid()
      modifies this
      ensures Valid()
      ensures converted.Some? <==> RateOf(book, from).Some?
      ensures converted.Some? ==> converted.value == Convert(book, amount, from)
    {
      var r := LookUp(from);
      match r
      case None => converted := None;
      case Some(rate) =>
        converted := Some(RoundHalfAway(amount * (rate.num * MinorUnitsPerMajor(book.reporting)),
                                        Times(rate.den, MinorUnitsPerMajor(from))));
    }
  }

  // ---- Amounts by currency ----

  function Get(m: map<string, int>, c: string): int {
    if c in m then m[c] else 0
  }

  function Add(m: map<string, int>, c: string, amount: int): map<string, int> {
    m[c := Get(m, c) + amount]
  }

  function Merge(m: map<string, int>, n: map<string, int>): map<string, int> {
    map c | c in m.Keys + n.Keys :: Get(m, c) + Get(n, c)
  }

  datatype Scope = Everyone | Only(entity: nat) | Among(entities: set<nat>)

  /** effectiveEntityID: the subscription's own entity, or the primary. */
  function EffectiveEntity(b: Book, sub: Subscription): Option<nat> {
    if sub.entity.Some? then sub.entity else b.primary
  }

  predicate InScope(b: Book, sub: Subscription, scope: Scope) {
    match scope
    case Everyone => true
    case Only(e) => EffectiveEntity(b, sub) == Some(e)
    case Among(es) => EffectiveEntity(b, sub).Some? && EffectiveEntity(b, sub).value in es
  }

  /** The first price counts; a missing plan or a plan without prices contributes nothing. */
  predicate Contributes(b: Book, sub: Subscription) {
    sub.plan in b.plans && b.plans[sub.plan].prices != []
  }

  function CurrencyOf(b: Book, sub: Subscription): string
    requires Contributes(b, sub)
  {
    var c := b.plans[sub.plan].prices[0].currency;
    if c == "" then b.reporting else c
  }

  function AmountOf(b: Book, sub: Subscription): int
    requires Contributes(b, sub)
  {
    var plan := b.plans[sub.plan];
    MonthlyMinorUnits(plan.prices[0].amount, plan.unit, plan.count)
  }

  function ByCurrency(b: Book, subs: seq<Subscription>, scope: Scope): map<string, int> {
    if subs == [] then map[]
    else
      var before, sub := ByCurrency(b, subs[..|subs| - 1], scope), subs[|subs| - 1];
      if InScope(b, sub, scope) && Contributes(b, sub) then Add(before, CurrencyOf(b, sub), AmountOf(b, sub))
          else before
  }

  lemma ByCurrencyStep(b: Book, subs: seq<Subscription>, i: nat, scope: Scope)
    requires i < |subs|
    ensures ByCurrency(b, subs[..i + 1], scope)
         == if InScope(b, subs[i], scope) && Contributes(b, subs[i])
            then Add(ByCurrency(b, subs[..i], scope), CurrencyOf(b, subs[i]), AmountOf(b, subs[i]))
            else ByCurrency(b, subs[..i], scope)
  {
    assert subs[..i + 1][..i] == subs[..i];
  }

  predicate BillsIn(b: Book, sub: Subscription, c: string) {
    && sub.plan in b.plans && b.plans[sub.plan].prices != []
    && c == (if b.plans[sub.plan].prices[0].currency == "" then b.reporting else b.plans[sub.plan].prices[0].currency)
  }

  ghost predicate Within(b: Book, sub: Subscription, scope: Scope) {
    scope.Everyone? || exists e :: (sub.entity == Some(e) || (sub.entity.None? && b.primary == Some(e)))
                                  && (scope == Only(e) || (scope.Among? && e in scope.entities))
  }

  /** What one subscription brings: the monthly price of its plan, in the currency of the plan's first price. */
  ghost function Brought(b: Book, scope: Scope, c: string): Subscription -> int {
    (sub: Subscription) =>
      if Within(b, sub, scope) && BillsIn(b, sub, c)
      then MonthlyMinorUnits(b.plans[sub.plan].prices[0].amount, b.plans[sub.plan].unit, b.plans[sub.plan].count) else 0
  }

  /** The amount of a currency is what the subscriptions of the scope bring, and a currency is listed exactly when one
      of them bills in it. */
  lemma {:induction false} ByCurrencyIs(b: Book, subs: seq<Subscription>, scope: Scope, c: string)
    ensures Get(ByCurrency(b, subs, scope), c) == SumOf(subs, Brought(b, scope, c))
    ensures c in ByCurrency(b, subs, scope) <==>
              exists i :: 0 <= i < |subs| && Within(b, subs[i], scope) && BillsIn(b, subs[i], c)
  {
    if subs != [] {
      ByCurrencyIs(b, subs[..|subs| - 1], scope, c);
      assert subs == subs[..|subs| - 1] + [subs[|subs| - 1]];
    }
  }

  function SumOf<T>(xs: seq<T>, f: T -> int): int {
    if xs == [] then 0 else SumOf(xs[..|xs| - 1], f) + f(xs[|xs| - 1])
  }

  lemma AddMergeLeft(m: map<string, int>, n: map<string, int>, c: string, amount: int)
    ensures Add(Merge(m, n), c, amount) == Merge(Add(m, c, amount), n)
  {
  }

  lemma AddMergeRight(m: map<string, int>, n: map<string, int>, c: string, amount: int)
    ensures Add(Merge(m, n), c, amount) == Merge(m, Add(n, c, amount))
  {
  }

  /** Each subscription belongs to one entity, so entities can be added one at a time. */
  lemma {:induction false} AmongGrows(b: Book, subs: seq<Subscription>, es: set<nat>, e: nat)
    requires e !in es
    ensures ByCurrency(b, subs, Among(es + {e})) == Merge(ByCurrency(b, subs, Among(es)), ByCurrency(b, subs, Only(e)))
  {
    if subs != [] {
      var init, sub := subs[..|subs| - 1], subs[|subs| - 1];
      AmongGrows(b, init, es, e);
      if Contributes(b, sub) {
        AddMergeLeft(ByCurrency(b, init, Among(es)), ByCurrency(b, init, Only(e)), CurrencyOf(b, sub),
            AmountOf(b, sub));
        AddMergeRight(ByCurrency(b, init, Among(es)), ByCurrency(b, init, Only(e)), CurrencyOf(b, sub),
            AmountOf(b, sub));
      }
    }
  }

  lemma {:induction false} AmongNobody(b: Book, subs: seq<Subscription>)
    ensures ByCurrency(b, subs, Among({})) == map[]
  {
    if subs != [] {
      AmongNobody(b, subs[..|subs| - 1]);
    }
  }

  /** Every contributing subscription belongs to a listed entity. */
  predicate Attributable(b: Book, subs: seq<Subscription>, es: set<nat>) {
    forall i :: 0 <= i < |subs| && Contributes(b, subs[i]) ==> InScope(b, subs[i], Among(es))
  }

  lemma {:induction false} AttributableIsEveryone(b: Book, subs: seq<Subscription>, es: set<nat>)
    requires Attributable(b, subs, es)
    ensures ByCurrency(b, subs, Among(es)) == ByCurrency(b, subs, Everyone)
  {
    if subs != [] {
      AttributableIsEveryone(b, subs[..|subs| - 1], es);
    }
  }

  // ---- Converting a whole map, in any order ----

  ghost function Converted(b: Book, m: map<string, int>, cs: set<string>): int {
    if cs == {} then 0
    else
      var c :| c in cs;
      Convert(b, Get(m, c), c) + Converted(b, m, cs - {c})
  }

  /** The order in which a map is walked does not matter. */
  lemma {:induction false} ConvertedPick(b: Book, m: map<string, int>, cs: set<string>, c: string)
    requires c in cs
    ensures Converted(b, m, cs) == Convert(b, Get(m, c), c) + Converted(b, m, cs - {c})
    decreases |cs|
  {
    var d :| d in cs && Converted(b, m, cs) == Convert(b, Get(m, d), d) + Converted(b, m, cs - {d});
    if d != c {
      ConvertedPick(b, m, cs - {d}, c);
      ConvertedPick(b, m, cs - {c}, d);
      assert cs - {d} - {c} == cs - {c} - {d};
    }
  }

  /** Currencies the map does not hold contribute nothing. */
  lemma {:induction false} ConvertedWider(b: Book, m: map<string, int>, cs: set<string>)
    requires m.Keys <= cs
    ensures Converted(b, m, cs) == Converted(b, m, m.Keys)
    decreases |cs|
  {
    if c :| c in cs && c !in m {
      ConvertedPick(b, m, cs, c);
      ConvertZero(b, c);
      ConvertedWider(b, m, cs - {c});
    } else {
      assert cs == m.Keys;
    }
  }

  ghost function Normalized(b: Book, m: map<string, int>): int {
    Converted(b, m, m.Keys)
  }

  /** GetMRR's figure for one scope: the definition the one-pass view is measured against. */
  ghost function ScopedMrr(b: Book, subs: seq<Subscription>, scope: Scope): int {
    Normalized(b, ByCurrency(b, subs, scope))
  }

  method NormalizeAmounts(b: Book, m: map<string, int>) returns (normalized: int)
    ensures normalized == Normalized(b, m)
  {
    normalized := 0;
    var todo := m.Keys;
    while todo != {}
      invariant normalized + Converted(b, m, todo) == Normalized(b, m) && todo <= m.Keys
      decreases |todo|
    {
      var c :| c in todo;
      ConvertedPick(b, m, todo, c);
      normalized := normalized + Convert(b, m[c], c);
      todo := todo - {c};
    }
  }

  // ---- The two views ----

  /** GetMRR, consolidated or for one entity. */
  method GetMrr(b: Book, subs: seq<Subscription>, entity: Option<nat>) returns (mrr: int)
    ensures mrr == ScopedMrr(b, subs, if entity.Some? then Only(entity.value) else Everyone)
  {
    var perCurrency: map<string, int> := map[];
    ghost var scope := if entity.Some? then Only(entity.value) else Everyone;
    for i := 0 to |subs|
      invariant perCurrency == ByCurrency(b, subs[..i], scope)
    {
      var sub := subs[i];
      ByCurrencyStep(b, subs, i, scope);
      if entity.Some? {
        var eff := EffectiveEntity(b, sub);
        if eff.None? || eff.value != entity.value {
          continue;
        }
      }
      if Contributes(b, sub) {
        perCurrency := Add(perCurrency, CurrencyOf(b, sub), AmountOf(b, sub));
      }
    }
    assert subs[..|subs|] == subs;
    mrr := NormalizeAmounts(b, perCurrency);
  }

  /** The one pass: amounts by entity and currency. */
  method Accumulate(b: Book, subs: seq<Subscription>) returns (perEntity: map<nat, map<string, int>>)
    ensures forall e :: e in perEntity ==> perEntity[e] == ByCurrency(b, subs, Only(e))
    ensures forall e :: e !in perEntity ==> ByCurrency(b, subs, Only(e)) == map[]
  {
    perEntity := map[];
    for i := 0 to |subs|
      invariant forall e :: e in perEntity ==> perEntity[e] == ByCurrency(b, subs[..i], Only(e))
      invariant forall e :: e !in perEntity ==> ByCurrency(b, subs[..i], Only(e)) == map[]
    {
      var sub := subs[i];
      forall e: nat {
        ByCurrencyStep(b, subs, i, Only(e));
      }
      var eff := EffectiveEntity(b, sub);
      if eff.Some? && Contributes(b, sub) {
        var known := if eff.value in perEntity then perEntity[eff.value] else map[];
        perEntity := perEntity[eff.value := Add(known, CurrencyOf(b, sub), AmountOf(b, sub))];
      }
    }
    assert subs[..|subs|] == subs;
  }

  function RosterSet(roster: seq<nat>): set<nat> {
    set e | e in roster
  }

  /** The tenant-wide sums, over the entities that are listed. */
  method TenantAmounts(b: Book, subs: seq<Subscription>, perEntity: map<nat, map<string, int>>, listed: set<nat>)
    returns (tenant: map<string, int>)
    requires forall e :: e in perEntity ==> perEntity[e] == ByCurrency(b, subs, Only(e))
    requires forall e :: e !in perEntity ==> ByCurrency(b, subs, Only(e)) == map[]
    ensures tenant == ByCurrency(b, subs, Among(listed))
  {
    tenant := map[];
    AmongNobody(b, subs);
    var todo := perEntity.Keys * listed;
    ghost var done: set<nat> := {};
    while todo != {}
      invariant done + todo == perEntity.Keys * listed && done !! todo
      invariant tenant == ByCurrency(b, subs, Among(done))
      decreases |todo|
    {
      var e :| e in todo;
      AmongGrows(b, subs, done, e);
      tenant := Merge(tenant, perEntity[e]);
      todo := todo - {e};
      done := done + {e};
    }
    AmongSilent(b, subs, perEntity.Keys * listed, listed);
  }

  /** Entities without any amount change nothing. */
  lemma {:induction false} AmongSilent(b: Book, subs: seq<Subscription>, some: set<nat>, all: set<nat>)
    requires some <= all && forall e :: e in all - some ==> ByCurrency(b, subs, Only(e)) == map[]
    ensures ByCurrency(b, subs, Among(some)) == ByCurrency(b, subs, Among(all))
    decreases |all - some|
  {
    if all - some == {} {
      assert some == all;
    } else {
      var e :| e in all - some;
      AmongGrows(b, subs, some, e);
      var m := ByCurrency(b, subs, Among(some));
      assert Merge(m, map[]) == m;
      AmongSilentSmaller(all, some, e);
      AmongSilent(b, subs, some + {e}, all);
    }
  }

  lemma AmongSilentSmaller(all: set<nat>, some: set<nat>, e: nat)
    requires e in all - some
    ensures |all - (some + {e})| < |all - some|
  {
    assert all - (some + {e}) == (all - some) - {e};
  }

  /** GetMRRByEntity: every listed entity's row is its scoped figure, and the total converts the tenant-wide sums
      once per currency. */
  method GetMrrByEntity(b: Book, subs: seq<Subscription>, roster: seq<nat>) returns (rows: seq<int>, total: int)
    ensures |rows| == |roster|
    ensures forall i :: 0 <= i < |roster| ==> rows[i] == ScopedMrr(b, subs, Only(roster[i]))
    ensures total == ScopedMrr(b, subs, Among(RosterSet(roster)))
    ensures Attributable(b, subs, RosterSet(roster)) ==> total == ScopedMrr(b, subs, Everyone)
  {
    var perEntity := Accumulate(b, subs);
    rows := [];
    for i := 0 to |roster|
      invariant |rows| == i
      invariant forall j :: 0 <= j < i ==> rows[j] == ScopedMrr(b, subs, Only(roster[j]))
    {
      var e := roster[i];
      var row := NormalizeAmounts(b, if e in perEntity then perEntity[e] else map[]);
      rows := rows + [row];
    }
    var tenant := TenantAmounts(b, subs, perEntity, RosterSet(roster));
    total := NormalizeAmounts(b, tenant);
    if Attributable(b, subs, RosterSet(roster)) {
      AttributableIsEveryone(b, subs, RosterSet(roster));
    }
  }

  // ---- How far the rows are from the total ----

  function Sum(xs: seq<int>): int {
    if xs == [] then 0 else Sum(xs[..|xs| - 1]) + xs[|xs| - 1]
  }

  lemma SumSnoc(xs: seq<int>, x: int)
    ensures Sum(xs + [x]) == Sum(xs) + x
  {
  }

  /** Each amount times the rate, rounded on its own. */
  function RoundedEach(xs: seq<int>, num: nat, den: Pos): int {
    if xs == [] then 0 else RoundedEach(xs[..|xs| - 1], num, den) + RoundHalfAway(xs[|xs| - 1] * num, den)
  }

  function Drift(xs: seq<int>, num: nat, den: Pos): int {
    RoundedEach(xs, num, den) - RoundHalfAway(Sum(xs) * num, den)
  }

  /** n amounts rounded one by one differ from their rounded sum by at most half of n, rounded up ... */
  lemma RoundingDrift(xs: seq<int>, num: nat, den: Pos)
    ensures -((|xs| + 1) / 2) <= Drift(xs, num, den) <= (|xs| + 1) / 2
  {
    EachBounds(xs, num, den);
    RoundHalfAwayBounds(Sum(xs) * num, den);
    Combine(|xs|, den, Sum(xs) * num, RoundedEach(xs, num, den), RoundHalfAway(Sum(xs) * num, den));
  }

  /** ... and rounded down when none is negative. */
  lemma RoundingDriftNonNegative(xs: seq<int>, num: nat, den: Pos)
    requires forall i :: 0 <= i < |xs| ==> xs[i] >= 0
    ensures -(|xs| / 2) <= Drift(xs, num, den) <= |xs| / 2
  {
    SumNonNegative(xs);
    ProductNonNegative(Sum(xs), num);
    RoundDivBounds(Sum(xs) * num, den);
    if xs == [] {
      RoundDivUnique(0, den, 0);
    } else {
      EachBounds(xs, num, den);
      CombineStrict(|xs|, den, Sum(xs) * num, RoundedEach(xs, num, den), RoundHalfAway(Sum(xs) * num, den));
    }
  }

  lemma ProductNonNegative(x: nat, num: nat)
    ensures x * num >= 0
  {
  }

  lemma Combine(n: nat, den: Pos, x: int, each: int, whole: int)
    requires 2 * x - n * den <= 2 * (den * each) <= 2 * x + n * den
    requires 2 * x - den <= 2 * (den * whole) <= 2 * x + den
    ensures -((n + 1) / 2) <= each - whole <= (n + 1) / 2
  {
    Distribute(den, each, whole);
    assert (n + 1) * den == n * den + den;
    DriftFromBounds(n + 1, den, each - whole);
  }

  lemma CombineStrict(n: nat, den: Pos, x: int, each: int, whole: int)
    requires 2 * x - n * den < 2 * (den * each) <= 2 * x + n * den
    requires 2 * x - den < 2 * (den * whole) <= 2 * x + den
    ensures -(n / 2) <= each - whole <= n / 2
  {
    Distribute(den, each, whole);
    assert (n + 1) * den == n * den + den;
    DriftFromStrictBounds(n + 1, den, each - whole);
  }

  lemma {:induction false} SumNonNegative(xs: seq<int>)
    requires forall i :: 0 <= i < |xs| ==> xs[i] >= 0
    ensures Sum(xs) >= 0
  {
    if xs != [] {
      SumNonNegative(xs[..|xs| - 1]);
    }
  }

  lemma {:induction false} EachBounds(xs: seq<int>, num: nat, den: Pos)
    ensures 2 * (Sum(xs) * num) - |xs| * den <= 2 * (den * RoundedEach(xs, num, den))
    ensures 2 * (den * RoundedEach(xs, num, den)) <= 2 * (Sum(xs) * num) + |xs| * den
    ensures xs != [] && (forall i :: 0 <= i < |xs| ==> xs[i] >= 0) ==>
              2 * (Sum(xs) * num) - |xs| * den < 2 * (den * RoundedEach(xs, num, den))
  {
    if xs != [] {
      var init, x := xs[..|xs| - 1], xs[|xs| - 1];
      EachBounds(init, num, den);
      RoundHalfAwayBounds(x * num, den);
      if x >= 0 {
        MulMonotone(num, 0, x);
        RoundDivBounds(x * num, den);
      }
      EachStep(|init|, Sum(init), x, num, den, RoundedEach(init, num, den), RoundHalfAway(x * num, den));
    }
  }

  lemma EachStep(n: nat, sum: int, x: int, num: nat, den: Pos, each: int, r: int)
    ensures (sum + x) * num == sum * num + x * num
    ensures den * (each + r) == den * each + den * r
    ensures (n + 1) * den == n * den + den
  {
  }

  lemma Distribute(den: Pos, each: int, whole: int)
    ensures den * (each - whole) == den * each - den * whole
  {
  }

  lemma DriftFromBounds(n: nat, den: Pos, drift: int)
    requires -(n * den) <= 2 * (den * drift) <= n * den
    ensures -(n / 2) <= drift <= n / 2
  {
    if drift > n / 2 {
      TwiceTimes(den, n + 1, drift);
    } else if drift < -(n / 2) {
      TwiceTimes(den, n + 1, -drift);
    }
  }

  lemma DriftFromStrictBounds(n: nat, den: Pos, drift: int)
    requires n > 0 && -(n * den) < 2 * (den * drift) < n * den
    ensures -((n - 1) / 2) <= drift <= (n - 1) / 2
  {
    if drift > (n - 1) / 2 {
      TwiceTimes(den, n, drift);
    } else if drift < -((n - 1) / 2) {
      TwiceTimes(den, n, -drift);
    }
  }

  lemma TwiceTimes(den: Pos, n: nat, d: int)
    requires 2 * d >= n
    ensures 2 * (den * d) >= n * den
  {
  }

  /** The bound is met: n amounts of 1 at a rate of one half round up to n one by one, and to n / 2 rounded up
      together. */
  lemma {:induction false} DriftReached(xs: seq<int>)
    requires forall i :: 0 <= i < |xs| ==> xs[i] == 1
    ensures Sum(xs) == RoundedEach(xs, 1, 2) == |xs|
    ensures Drift(xs, 1, 2) == |xs| / 2
  {
    if xs != [] {
      DriftReached(xs[..|xs| - 1]);
    }
  }

  // ---- Rows against total ----

  function AmountsIn(b: Book, subs: seq<Subscription>, roster: seq<nat>, c: string): (xs: seq<int>)
    ensures |xs| == |roster|
  {
    if roster == [] then []
    else AmountsIn(b, subs, roster[..|roster| - 1], c) + [Get(ByCurrency(b, subs, Only(roster[|roster| - 1])), c)]
  }

  /** In each currency the entities' amounts add up to the tenant's: nothing is counted twice or left out. */
  lemma {:induction false} AmountsAddUp(b: Book, subs: seq<Subscription>, roster: seq<nat>, c: string)
    requires G.Distinct(roster)
    ensures Sum(AmountsIn(b, subs, roster, c)) == Get(ByCurrency(b, subs, Among(RosterSet(roster))), c)
  {
    if roster == [] {
      assert RosterSet(roster) == {};
      AmongNobody(b, subs);
    } else {
      var init, e := roster[..|roster| - 1], roster[|roster| - 1];
      AmountsAddUp(b, subs, init, c);
      AmongGrows(b, subs, RosterSet(init), e);
      assert RosterSet(roster) == RosterSet(init) + {e};
      var xs := AmountsIn(b, subs, roster, c);
      assert xs[..|xs| - 1] == AmountsIn(b, subs, init, c);
    }
  }

  function ConvertedEach(b: Book, xs: seq<int>, c: string): int {
    if xs == [] then 0 else ConvertedEach(b, xs[..|xs| - 1], c) + Convert(b, xs[|xs| - 1], c)
  }

  lemma {:induction false} ConvertedEachIsRounded(b: Book, xs: seq<int>, c: string)
    ensures RateOf(b, c).None? ==> ConvertedEach(b, xs, c) == 0
    ensures RateOf(b, c).Some? ==>
              ConvertedEach(b, xs, c) == RoundedEach(xs, RateOf(b, c).value.num * MinorUnitsPerMajor(b.reporting),
                                                     Times(RateOf(b, c).value.den, MinorUnitsPerMajor(c)))
  {
    if xs != [] {
      ConvertedEachIsRounded(b, xs[..|xs| - 1], c);
    }
  }

  predicate NonNegativePrices(b: Book) {
    forall p :: p in b.plans && b.plans[p].prices != [] ==> b.plans[p].prices[0].amount >= 0
  }

  lemma {:induction false} AmountsNonNegative(b: Book, subs: seq<Subscription>, scope: Scope, c: string)
    requires NonNegativePrices(b)
    ensures Get(ByCurrency(b, subs, scope), c) >= 0
  {
    if subs != [] {
      AmountsNonNegative(b, subs[..|subs| - 1], scope, c);
      var sub := subs[|subs| - 1];
      if Contributes(b, sub) {
        var plan := b.plans[sub.plan];
        MonthlyNonNegative(plan.prices[0].amount, plan.unit, plan.count);
      }
    }
  }

  lemma {:induction false} AllAmountsNonNegative(b: Book, subs: seq<Subscription>, roster: seq<nat>, c: string)
    requires NonNegativePrices(b)
    ensures forall i :: 0 <= i < |roster| ==> AmountsIn(b, subs, roster, c)[i] >= 0
  {
    if roster != [] {
      AllAmountsNonNegative(b, subs, roster[..|roster| - 1], c);
      AmountsNonNegative(b, subs, Only(roster[|roster| - 1]), c);
    }
  }

  /** One currency: the entities' converted amounts against the converted tenant amount. */
  lemma CurrencyDrift(b: Book, subs: seq<Subscription>, roster: seq<nat>, c: string)
    requires G.Distinct(roster) && NonNegativePrices(b)
    ensures -(|roster| / 2)
         <= ConvertedEach(b, AmountsIn(b, subs, roster, c), c)
          - Convert(b, Get(ByCurrency(b, subs, Among(RosterSet(roster))), c), c)
         <= |roster| / 2
  {
    var xs := AmountsIn(b, subs, roster, c);
    AmountsAddUp(b, subs, roster, c);
    AllAmountsNonNegative(b, subs, roster, c);
    ConvertedEachIsRounded(b, xs, c);
    if RateOf(b, c).Some? {
      var r := RateOf(b, c).value;
      RoundingDriftNonNegative(xs, r.num * MinorUnitsPerMajor(b.reporting), Times(r.den, MinorUnitsPerMajor(c)));
    }
  }

  /** The sum of the rows, over the currencies `cs`. */
  ghost function RowsOver(b: Book, subs: seq<Subscription>, roster: seq<nat>, cs: set<string>): int {
    if roster == [] then 0
    else RowsOver(b, subs, roster[..|roster| - 1], cs)
             + Converted(b, ByCurrency(b, subs, Only(roster[|roster| - 1])), cs)
  }

  lemma {:induction false} RowsPick(b: Book, subs: seq<Subscription>, roster: seq<nat>, cs: set<string>, c: string)
    requires c in cs
    ensures RowsOver(b, subs, roster, cs)
         == ConvertedEach(b, AmountsIn(b, subs, roster, c), c) + RowsOver(b, subs, roster, cs - {c})
  {
    if roster != [] {
      var init, e := roster[..|roster| - 1], roster[|roster| - 1];
      RowsPick(b, subs, init, cs, c);
      ConvertedPick(b, ByCurrency(b, subs, Only(e)), cs, c);
      var xs := AmountsIn(b, subs, roster, c);
      assert xs[..|xs| - 1] == AmountsIn(b, subs, init, c);
    }
  }

  /** The reporting currency converts at par, so it does not drift. */
  lemma {:induction false} ParConvertsExactly(b: Book, xs: seq<int>)
    ensures ConvertedEach(b, xs, b.reporting) == Sum(xs)
  {
    if xs != [] {
      ParConvertsExactly(b, xs[..|xs| - 1]);
      ConvertAtPar(b, xs[|xs| - 1]);
    }
  }

  lemma ConvertAtPar(b: Book, amount: int)
    ensures Convert(b, amount, b.reporting) == amount
  {
  }

  /** What the entities' rows, over the currencies `cs`, exceed the total by. */
  ghost function DriftOver(b: Book, subs: seq<Subscription>, roster: seq<nat>, cs: set<string>): int {
    RowsOver(b, subs, roster, cs) - Converted(b, ByCurrency(b, subs, Among(RosterSet(roster))), cs)
  }

  lemma ReportingHasNoDrift(b: Book, subs: seq<Subscription>, roster: seq<nat>, cs: set<string>)
    requires G.Distinct(roster) && b.reporting in cs
    ensures DriftOver(b, subs, roster, cs) == DriftOver(b, subs, roster, cs - {b.reporting})
  {
    var c := b.reporting;
    RowsPick(b, subs, roster, cs, c);
    ConvertedPick(b, ByCurrency(b, subs, Among(RosterSet(roster))), cs, c);
    AmountsAddUp(b, subs, roster, c);
    ParConvertsExactly(b, AmountsIn(b, subs, roster, c));
    ConvertAtPar(b, Sum(AmountsIn(b, subs, roster, c)));
  }

  lemma ForeignDrift(b: Book, subs: seq<Subscription>, roster: seq<nat>, cs: set<string>, c: string)
    requires G.Distinct(roster) && NonNegativePrices(b) && c in cs
    ensures -(|roster| / 2) <= DriftOver(b, subs, roster, cs) - DriftOver(b, subs, roster, cs - {c}) <= |roster| / 2
  {
    RowsPick(b, subs, roster, cs, c);
    ConvertedPick(b, ByCurrency(b, subs, Among(RosterSet(roster))), cs, c);
    CurrencyDrift(b, subs, roster, c);
  }

  /** Over the currencies `cs`, the rows drift from the total by at most half as many minor units per foreign
      currency as there are entities. */
  lemma {:induction false} RowsDriftOver(b: Book, subs: seq<Subscription>, roster: seq<nat>, cs: set<string>)
    requires G.Distinct(roster) && NonNegativePrices(b)
    ensures var bound := |cs - {b.reporting}| * (|roster| / 2); -bound <= DriftOver(b, subs, roster, cs) <= bound
    decreases |cs|
  {
    if cs == {} {
      RowsOfNothing(b, subs, roster);
    } else {
      var c :| c in cs;
      RowsDriftOver(b, subs, roster, cs - {c});
      BoundGrows(cs, b.reporting, c, |roster| / 2);
      if c == b.reporting {
        ReportingHasNoDrift(b, subs, roster, cs);
      } else {
        ForeignDrift(b, subs, roster, cs, c);
      }
    }
  }

  lemma BoundGrows(cs: set<string>, reporting: string, c: string, half: nat)
    requires c in cs
    ensures |cs - {reporting}| * half
         == |cs - {c} - {reporting}| * half + (if c == reporting then 0 else half)
  {
    if c == reporting {
      assert cs - {c} - {reporting} == cs - {reporting};
    } else {
      assert cs - {c} - {reporting} == (cs - {reporting}) - {c};
      OneMore(|cs - {reporting}|, half);
    }
  }

  ghost function SumRows(b: Book, subs: seq<Subscription>, roster: seq<nat>): int {
    if roster == [] then 0
    else SumRows(b, subs, roster[..|roster| - 1]) + ScopedMrr(b, subs, Only(roster[|roster| - 1]))
  }

  lemma {:induction false} OnlyWithinAmong(b: Book, subs: seq<Subscription>, e: nat, es: set<nat>)
    requires e in es
    ensures ByCurrency(b, subs, Only(e)).Keys <= ByCurrency(b, subs, Among(es)).Keys
  {
    if subs != [] {
      OnlyWithinAmong(b, subs[..|subs| - 1], e, es);
    }
  }

  lemma {:induction false} RowsOverAll(b: Book, subs: seq<Subscription>, roster: seq<nat>, cs: set<string>)
    requires forall e :: e in roster ==> ByCurrency(b, subs, Only(e)).Keys <= cs
    ensures RowsOver(b, subs, roster, cs) == SumRows(b, subs, roster)
  {
    if roster != [] {
      var e := roster[|roster| - 1];
      RowsOverAll(b, subs, roster[..|roster| - 1], cs);
      ConvertedWider(b, ByCurrency(b, subs, Only(e)), cs);
    }
  }

  /** The rows of the breakdown drift from its total by at most, per foreign currency in use, half as many minor
      units as there are entities: tighter than one unit per further entity. */
  lemma RowsDriftFromTotal(b: Book, subs: seq<Subscription>, roster: seq<nat>)
    requires G.Distinct(roster) && NonNegativePrices(b)
    ensures var foreign := ByCurrency(b, subs, Among(RosterSet(roster))).Keys - {b.reporting};
            var drift := SumRows(b, subs, roster) - ScopedMrr(b, subs, Among(RosterSet(roster)));
            -(|foreign| * (|roster| / 2)) <= drift <= |foreign| * (|roster| / 2)
  {
    var cs := ByCurrency(b, subs, Among(RosterSet(roster))).Keys;
    forall e | e in roster ensures ByCurrency(b, subs, Only(e)).Keys <= cs {
      OnlyWithinAmong(b, subs, e, RosterSet(roster));
    }
    RowsOverAll(b, subs, roster, cs);
    RowsDriftOver(b, subs, roster, cs);
  }

  lemma OneMore(n: nat, half: nat)
    requires n > 0
    ensures n * half == (n - 1) * half + half
  {
  }

  lemma {:induction false} RowsOfNothing(b: Book, subs: seq<Subscription>, roster: seq<nat>)
    ensures RowsOver(b, subs, roster, {}) == 0
  {
    if roster != [] {
      RowsOfNothing(b, subs, roster[..|roster| - 1]);
    }
  }

  // ---- Open receivables by entity ----

  datatype Outstanding = Outstanding(entity: Option<nat>, currency: string, amount: int)

  predicate Shown(b: Book, o: Outstanding) {
    (o.entity.Some? || b.primary.Some?) && RateOf(b, o.currency).Some?
  }

  /** What each row adds to its entity, in the reporting currency; unattributable and unconvertible rows add
      nothing. */
  function Receivables(b: Book, rows: seq<Outstanding>): seq<G.Entry<nat>> {
    if rows == [] then []
    else
      var before, o := Receivables(b, rows[..|rows| - 1]), rows[|rows| - 1];
      if !Shown(b, o) then before
      else
        var e := if o.entity.Some? then o.entity.value else b.primary.value;
        before + [G.Entry(e, Convert(b, o.amount, o.currency))]
  }

  lemma ReceivablesNext(b: Book, rows: seq<Outstanding>, i: nat, e: nat)
    requires i < |rows|
    ensures G.SumKey(Receivables(b, rows[..i + 1]), e) == G.SumKey(Receivables(b, rows[..i]), e)
              + (if Shown(b, rows[i]) && e == EntityOf(b, rows[i]) then Convert(b, rows[i].amount, rows[i].currency)
                  else 0)
  {
    assert rows[..i + 1][..i] == rows[..i];
    if Shown(b, rows[i]) {
      var entry := G.Entry(EntityOf(b, rows[i]), Convert(b, rows[i].amount, rows[i].currency));
      G.SumKeySnoc(Receivables(b, rows[..i]), entry, e);
    }
  }

  /** What one row brings to an entity, in the reporting currency. */
  function Owed(b: Book, e: nat): Outstanding -> int {
    (o: Outstanding) =>
      if o.entity != Some(e) && !(o.entity.None? && b.primary == Some(e)) then 0
      else if o.currency == b.reporting then o.amount
      else Convert(b, o.amount, o.currency)
  }

  lemma OwedIs(b: Book, o: Outstanding, e: nat)
    ensures Owed(b, e)(o)
         == if Shown(b, o) && e == EntityOf(b, o) then Convert(b, o.amount, o.currency) else 0
  {
    ConvertAtPar(b, o.amount);
  }

  lemma {:induction false} ReceivablesAre(b: Book, rows: seq<Outstanding>, e: nat)
    ensures G.SumKey(Receivables(b, rows), e) == SumOf(rows, Owed(b, e))
  {
    if rows != [] {
      var n := |rows| - 1;
      ReceivablesAre(b, rows[..n], e);
      assert rows[..n + 1] == rows;
      OwedNext(b, rows, n, e);
    }
  }

  lemma OwedNext(b: Book, rows: seq<Outstanding>, i: nat, e: nat)
    requires i < |rows|
    ensures G.SumKey(Receivables(b, rows[..i + 1]), e) == G.SumKey(Receivables(b, rows[..i]), e) + Owed(b, e)(rows[i])
  {
    ReceivablesNext(b, rows, i, e);
    OwedIs(b, rows[i], e);
  }

  function EntityOf(b: Book, o: Outstanding): nat
    requires Shown(b, o)
  {
    if o.entity.Some? then o.entity.value else b.primary.value
  }

  /** The receivables grouped by entity, converted unless they are in the reporting currency already. */
  method GroupReceivables(b: Book, rows: seq<Outstanding>) returns (byEntity: map<nat, int>)
    ensures forall e :: e in byEntity ==> byEntity[e] == G.SumKey(Receivables(b, rows), e)
    ensures forall e :: e !in byEntity ==> G.SumKey(Receivables(b, rows), e) == 0
  {
    byEntity := map[];
    for i := 0 to |rows|
      invariant forall e :: e in byEntity ==> byEntity[e] == G.SumKey(Receivables(b, rows[..i]), e)
      invariant forall e :: e !in byEntity ==> G.SumKey(Receivables(b, rows[..i]), e) == 0
    {
      var o := rows[i];
      ghost var before := byEntity;
      if Shown(b, o) {
        var eff := if o.entity.Some? then o.entity.value else b.primary.value;
        var amount := o.amount;
        if o.currency != b.reporting {
          amount := Convert(b, o.amount, o.currency);
        } else {
          ConvertAtPar(b, o.amount);
        }
        byEntity := byEntity[eff := (if eff in byEntity then byEntity[eff] else 0) + amount];
      }
      forall e ensures G.SumKey(Receivables(b, rows[..i + 1]), e) == if e in byEntity then byEntity[e] else 0 {
        ReceivablesNext(b, rows, i, e);
        assert e in before ==> before[e] == G.SumKey(Receivables(b, rows[..i]), e);
      }
    }
    assert rows[..|rows|] == rows;
  }

  /** GetEntitiesOverview's receivables: each entity's own, and their total. */
  method ReceivablesByEntity(b: Book, rows: seq<Outstanding>, roster: seq<nat>) returns (ars: seq<int>, total: int)
    ensures |ars| == |roster| && forall i :: 0 <= i < |roster| ==> ars[i] == SumOf(rows, Owed(b, roster[i]))
    ensures total == Sum(ars) == G.SumKeys(Receivables(b, rows), roster)
  {
    var byEntity := GroupReceivables(b, rows);
    ars, total := [], 0;
    for i := 0 to |roster|
      invariant |ars| == i && forall j :: 0 <= j < i ==> ars[j] == SumOf(rows, Owed(b, roster[j]))
      invariant total == Sum(ars)
    {
      var ar := if roster[i] in byEntity then byEntity[roster[i]] else 0;
      ReceivablesAre(b, rows, roster[i]);
      SumSnoc(ars, ar);
      total := total + ar;
      ars := ars + [ar];
    }
    RowsAreGroups(b, rows, roster, ars);
  }

  lemma {:induction false} RowsAreGroups(b: Book, rows: seq<Outstanding>, roster: seq<nat>, ars: seq<int>)
    requires |ars| == |roster| && forall j :: 0 <= j < |roster| ==> ars[j] == SumOf(rows, Owed(b, roster[j]))
    ensures Sum(ars) == G.SumKeys(Receivables(b, rows), roster)
  {
    if roster != [] {
      var n := |roster| - 1;
      RowsAreGroups(b, rows, roster[..n], ars[..n]);
      ReceivablesAre(b, rows, roster[n]);
    }
  }

  /** When every receivable belongs to a listed entity, the overview's total is all of them, each counted once. */
  lemma ReceivablesConserved(b: Book, rows: seq<Outstanding>, roster: seq<nat>)
    requires G.Distinct(roster) && forall e :: e in Receivables(b, rows) ==> e.key in roster
    ensures G.SumKeys(Receivables(b, rows), roster) == G.SumAll(Receivables(b, rows))
  {
    G.GroupsConserve(Receivables(b, rows), roster);
  }
}
