/**
  A customer's account-credit statement: balances by currency and entity, and a
  roll-up by currency (internal/service/credit_note.go:709-793).
 */
module CreditStatement {
  import opened Options
  import opened Grouping
  import CC = CustomerCredit

  /** Every credit note of the customer is a grant; only adjustments hold spendable credit. */
  datatype Grant = Grant(adjustment: bool, note: CC.CreditNote)

  /** A draw-down of one of the grants, by its position. */
  datatype Application = Application(grant: nat, amount: int)

  datatype Summary = Summary(issued: int, applied: int, balance: int)

  predicate Spendable(g: Grant) {
    g.adjustment && CC.Spendable(g.note)
  }

  function CurrencyOf(grants: seq<Grant>, a: Application): Option<nat> {
    if a.grant < |grants| then Some(grants[a.grant].note.scope.currency) else None
  }

  // ---- What each figure is a sum of ----

  function Balances(grants: seq<Grant>): seq<Entry<(nat, nat)>> {
    if grants == [] then []
    else
      var before, g := Balances(grants[..|grants| - 1]), grants[|grants| - 1];
      if Spendable(g) then before + [Entry((g.note.scope.currency, g.note.scope.entity), g.note.balance)] else before
  }

  function ByCurrency(grants: seq<Grant>): seq<Entry<Option<nat>>> {
    if grants == [] then []
    else
      var before, g := ByCurrency(grants[..|grants| - 1]), grants[|grants| - 1];
      if Spendable(g) then before + [Entry(Some(g.note.scope.currency), g.note.balance)] else before
  }

  function Issued(grants: seq<Grant>): seq<Entry<Option<nat>>> {
    if grants == [] then []
    else
      var before, g := Issued(grants[..|grants| - 1]), grants[|grants| - 1];
      if g.adjustment then before + [Entry(Some(g.note.scope.currency), g.note.amount)] else before
  }

  function Applied(grants: seq<Grant>, apps: seq<Application>): seq<Entry<Option<nat>>> {
    if apps == [] then []
    else Applied(grants, apps[..|apps| - 1]) + [Entry(CurrencyOf(grants, apps[|apps| - 1]), apps[|apps| - 1].amount)]
  }

  // ---- The same, grant by grant ----

  /** What was ever issued in a currency: every adjustment at its full amount, whatever has become of it. */
  function IssuedIn(grants: seq<Grant>, currency: nat): int {
    if grants == [] then 0
    else
      var g := grants[|grants| - 1];
      IssuedIn(grants[..|grants| - 1], currency)
      + (if g.adjustment && g.note.scope.currency == currency then g.note.amount else 0)
  }

  /** What an entity's invoices can still draw in a currency: adjustments that are issued and not used up. */
  function HeldIn(grants: seq<Grant>, currency: nat, entity: nat): int {
    if grants == [] then 0
    else
      var g := grants[|grants| - 1];
      HeldIn(grants[..|grants| - 1], currency, entity)
      + (if g.adjustment && g.note.status == CC.Issued && g.note.scope.currency == currency
            && g.note.scope.entity == entity then g.note.balance else 0)
  }

  /** What was drawn from the grants of a currency; from grants that are not listed, for none. */
  function AppliedIn(grants: seq<Grant>, apps: seq<Application>, currency: Option<nat>): int {
    if apps == [] then 0
    else
      var a := apps[|apps| - 1];
      AppliedIn(grants, apps[..|apps| - 1], currency)
      + (if (a.grant < |grants| && currency == Some(grants[a.grant].note.scope.currency))
            || (a.grant >= |grants| && currency == None) then a.amount else 0)
  }

  lemma {:induction false} IssuedIs(grants: seq<Grant>, currency: nat)
    ensures SumKey(Issued(grants), Some(currency)) == IssuedIn(grants, currency)
    ensures Some(currency) in KeysOf(Issued(grants)) <==>
              exists i :: 0 <= i < |grants| && grants[i].adjustment && grants[i].note.scope.currency == currency
  {
    if grants != [] {
      var init, g := grants[..|grants| - 1], grants[|grants| - 1];
      IssuedIs(init, currency);
      SumKeySnoc(Issued(init), Entry(Some(g.note.scope.currency), g.note.amount), Some(currency));
    }
  }

  lemma {:induction false} BalanceIs(grants: seq<Grant>, currency: nat, entity: nat)
    ensures SumKey(Balances(grants), (currency, entity)) == HeldIn(grants, currency, entity)
  {
    if grants != [] {
      var init, g := grants[..|grants| - 1], grants[|grants| - 1];
      BalanceIs(init, currency, entity);
      SumKeySnoc(Balances(init), Entry((g.note.scope.currency, g.note.scope.entity), g.note.balance),
          (currency, entity));
    }
  }

  lemma {:induction false} AppliedIs(grants: seq<Grant>, apps: seq<Application>, currency: Option<nat>)
    ensures SumKey(Applied(grants, apps), currency) == AppliedIn(grants, apps, currency)
  {
    if apps != [] {
      var init, a := apps[..|apps| - 1], apps[|apps| - 1];
      AppliedIs(grants, init, currency);
      SumKeySnoc(Applied(grants, init), Entry(CurrencyOf(grants, a), a.amount), currency);
    }
  }

  // ---- The statement ----

  ghost predicate IsGrouping<K>(m: map<K, int>, es: seq<Entry<K>>) {
    m.Keys == KeysOf(es) && forall k :: k in m ==> m[k] == SumKey(es, k)
  }

  function AddTo<K(==)>(m: map<K, int>, k: K, amount: int): map<K, int> {
    m[k := (if k in m then m[k] else 0) + amount]
  }

  lemma AddToGrouping<K>(m: map<K, int>, es: seq<Entry<K>>, e: Entry<K>)
    requires IsGrouping(m, es)
    ensures IsGrouping(AddTo(m, e.key, e.amount), es + [e])
  {
    forall k | k in AddTo(m, e.key, e.amount) ensures AddTo(m, e.key, e.amount)[k] == SumKey(es + [e], k) {
      SumKeySnoc(es, e, k);
      if k !in m {
        NoKeyNoSum(es, k);
      }
    }
    SumKeySnoc(es, e, e.key);
  }

  function AddBalance(m: map<(nat, nat), int>, g: Grant): map<(nat, nat), int> {
    if Spendable(g) then AddTo(m, (g.note.scope.currency, g.note.scope.entity), g.note.balance) else m
  }

  function AddCurrency(m: map<Option<nat>, int>, g: Grant): map<Option<nat>, int> {
    if Spendable(g) then AddTo(m, Some(g.note.scope.currency), g.note.balance) else m
  }

  function AddIssued(m: map<Option<nat>, int>, g: Grant): map<Option<nat>, int> {
    if g.adjustment then AddTo(m, Some(g.note.scope.currency), g.note.amount) else m
  }

  lemma BalanceStep(m: map<(nat, nat), int>, grants: seq<Grant>, i: nat)
    requires i < |grants| && IsGrouping(m, Balances(grants[..i]))
    ensures IsGrouping(AddBalance(m, grants[i]), Balances(grants[..i + 1]))
  {
    var n := grants[i].note;
    assert grants[..i + 1][..i] == grants[..i];
    AddToGrouping(m, Balances(grants[..i]), Entry((n.scope.currency, n.scope.entity), n.balance));
  }

  lemma CurrencyStep(m: map<Option<nat>, int>, grants: seq<Grant>, i: nat)
    requires i < |grants| && IsGrouping(m, ByCurrency(grants[..i]))
    ensures IsGrouping(AddCurrency(m, grants[i]), ByCurrency(grants[..i + 1]))
  {
    var n := grants[i].note;
    assert grants[..i + 1][..i] == grants[..i];
    AddToGrouping(m, ByCurrency(grants[..i]), Entry(Some(n.scope.currency), n.balance));
  }

  lemma IssuedStep(m: map<Option<nat>, int>, grants: seq<Grant>, i: nat)
    requires i < |grants| && IsGrouping(m, Issued(grants[..i]))
    ensures IsGrouping(AddIssued(m, grants[i]), Issued(grants[..i + 1]))
  {
    var n := grants[i].note;
    assert grants[..i + 1][..i] == grants[..i];
    AddToGrouping(m, Issued(grants[..i]), Entry(Some(n.scope.currency), n.amount));
  }

  function Lookup(m: map<Option<nat>, int>, c: Option<nat>): int {
    if c in m then m[c] else 0
  }

  /** The loop over the grants. */
  method GroupGrants(grants: seq<Grant>)
    returns (byEntity: map<(nat, nat), int>, byCurrency: map<Option<nat>, int>, issued: map<Option<nat>, int>)
    ensures IsGrouping(byEntity, Balances(grants))
    ensures IsGrouping(byCurrency, ByCurrency(grants)) && IsGrouping(issued, Issued(grants))
  {
    byEntity, byCurrency, issued := map[], map[], map[];
    for i := 0 to |grants|
      invariant IsGrouping(byEntity, Balances(grants[..i]))
      invariant IsGrouping(byCurrency, ByCurrency(grants[..i])) && IsGrouping(issued, Issued(grants[..i]))
    {
      BalanceStep(byEntity, grants, i);
      CurrencyStep(byCurrency, grants, i);
      IssuedStep(issued, grants, i);
      issued := AddIssued(issued, grants[i]);
      byEntity := AddBalance(byEntity, grants[i]);
      byCurrency := AddCurrency(byCurrency, grants[i]);
    }
    assert grants[..|grants|] == grants;
  }

  method GroupApplications(grants: seq<Grant>, apps: seq<Application>) returns (applied: map<Option<nat>, int>)
    ensures IsGrouping(applied, Applied(grants, apps))
  {
    applied := map[];
    for i := 0 to |apps|
      invariant IsGrouping(applied, Applied(grants, apps[..i]))
    {
      assert apps[..i + 1][..i] == apps[..i];
      AddToGrouping(applied, Applied(grants, apps[..i]), Entry(CurrencyOf(grants, apps[i]), apps[i].amount));
      applied := AddTo(applied, CurrencyOf(grants, apps[i]), apps[i].amount);
    }
    assert apps[..|apps|] == apps;
  }

  /** GetCreditStatement: balances per currency and entity, and one summary line per currency ever issued or
      applied. */
  method GetCreditStatement(grants: seq<Grant>, apps: seq<Application>)
    returns (balances: map<(nat, nat), int>, summary: map<Option<nat>, Summary>)
    ensures IsGrouping(balances, Balances(grants))
    ensures summary.Keys == KeysOf(Issued(grants)) + KeysOf(Applied(grants, apps))
    ensures forall c :: c in summary ==>
              summary[c] == Summary(SumKey(Issued(grants), c), SumKey(Applied(grants, apps), c),
                  SumKey(ByCurrency(grants), c))
    ensures forall k :: k in balances ==> balances[k] == HeldIn(grants, k.0, k.1)
    ensures forall c: nat :: Some(c) in summary ==> summary[Some(c)].issued == IssuedIn(grants, c)
    ensures forall c :: c in summary ==> summary[c].applied == AppliedIn(grants, apps, c)
    ensures forall i :: 0 <= i < |grants| && grants[i].adjustment ==> Some(grants[i].note.scope.currency) in summary
  {
    var byEntity, byCurrency, issued := GroupGrants(grants);
    var applied := GroupApplications(grants, apps);
    balances := byEntity;
    summary := map c | c in issued.Keys + applied.Keys ::
      Summary(Lookup(issued, c), Lookup(applied, c), Lookup(byCurrency, c));
    forall c | c in summary
      ensures summary[c] == Summary(SumKey(Issued(grants), c), SumKey(Applied(grants, apps), c),
          SumKey(ByCurrency(grants), c))
    {
      LookupGrouping(issued, Issued(grants), c);
      LookupGrouping(applied, Applied(grants, apps), c);
      LookupGrouping(byCurrency, ByCurrency(grants), c);
    }
    StatementIs(grants, apps, balances, summary);
  }

  lemma StatementIs(grants: seq<Grant>, apps: seq<Application>, balances: map<(nat, nat), int>,
                    summary: map<Option<nat>, Summary>)
    requires IsGrouping(balances, Balances(grants))
    requires summary.Keys == KeysOf(Issued(grants)) + KeysOf(Applied(grants, apps))
    requires forall c :: c in summary ==>
               summary[c] == Summary(SumKey(Issued(grants), c), SumKey(Applied(grants, apps), c),
                   SumKey(ByCurrency(grants), c))
    ensures forall k :: k in balances ==> balances[k] == HeldIn(grants, k.0, k.1)
    ensures forall c: nat :: Some(c) in summary ==> summary[Some(c)].issued == IssuedIn(grants, c)
    ensures forall c :: c in summary ==> summary[c].applied == AppliedIn(grants, apps, c)
    ensures forall i :: 0 <= i < |grants| && grants[i].adjustment ==> Some(grants[i].note.scope.currency) in summary
  {
    forall k | k in balances ensures balances[k] == HeldIn(grants, k.0, k.1) {
      BalanceIs(grants, k.0, k.1);
    }
    forall c: nat | Some(c) in summary ensures summary[Some(c)].issued == IssuedIn(grants, c) {
      IssuedIs(grants, c);
    }
    forall c | c in summary ensures summary[c].applied == AppliedIn(grants, apps, c) {
      AppliedIs(grants, apps, c);
    }
    forall i | 0 <= i < |grants| && grants[i].adjustment ensures Some(grants[i].note.scope.currency) in summary {
      IssuedIs(grants, grants[i].note.scope.currency);
    }
  }

  lemma LookupGrouping(m: map<Option<nat>, int>, es: seq<Entry<Option<nat>>>, c: Option<nat>)
    requires IsGrouping(m, es)
    ensures Lookup(m, c) == SumKey(es, c)
  {
    if c !in m {
      NoKeyNoSum(es, c);
    }
  }

  // ---- The statement against what can be spent ----

  function Adjustments(grants: seq<Grant>): seq<CC.CreditNote> {
    if grants == [] then []
    else
      var before, g := Adjustments(grants[..|grants| - 1]), grants[|grants| - 1];
      if g.adjustment then before + [g.note] else before
  }

  predicate OfCustomer(grants: seq<Grant>, customer: nat) {
    forall i :: 0 <= i < |grants| ==> grants[i].note.scope.customer == customer
  }

  lemma {:induction false} AvailableSnoc(ns: seq<CC.CreditNote>, n: CC.CreditNote, scope: CC.Scope)
    ensures CC.Available(ns + [n], scope)
        == CC.Available(ns, scope) + (if CC.Applicable(n, scope) then n.balance else 0)
  {
    if ns == [] {
      assert [] + [n] == [n];
    } else {
      assert (ns + [n])[1..] == ns[1..] + [n];
      AvailableSnoc(ns[1..], n, scope);
    }
  }

  /** Each balance line is exactly what the applier would draw from for that currency and entity. */
  lemma {:induction false} BalanceIsAvailable(grants: seq<Grant>, customer: nat, currency: nat, entity: nat)
    requires OfCustomer(grants, customer)
    ensures SumKey(Balances(grants), (currency, entity))
         == CC.Available(Adjustments(grants), CC.Scope(customer, entity, currency))
  {
    if grants != [] {
      var init, g := grants[..|grants| - 1], grants[|grants| - 1];
      BalanceIsAvailable(init, customer, currency, entity);
      SumKeySnoc(Balances(init), Entry((g.note.scope.currency, g.note.scope.entity), g.note.balance),
          (currency, entity));
      if g.adjustment {
        AvailableSnoc(Adjustments(init), g.note, CC.Scope(customer, entity, currency));
      }
    }
  }

  /** The balances of one currency, by entity. */
  function InCurrency(grants: seq<Grant>, currency: nat): seq<Entry<nat>> {
    if grants == [] then []
    else
      var before, g := InCurrency(grants[..|grants| - 1], currency), grants[|grants| - 1];
      if Spendable(g) && g.note.scope.currency == currency then before + [Entry(g.note.scope.entity, g.note.balance)]
          else before
  }

  lemma {:induction false} InCurrencySums(grants: seq<Grant>, currency: nat, entity: nat)
    ensures SumKey(InCurrency(grants, currency), entity) == SumKey(Balances(grants), (currency, entity))
    ensures SumAll(InCurrency(grants, currency)) == SumKey(ByCurrency(grants), Some(currency))
    ensures entity in KeysOf(InCurrency(grants, currency)) ==> (currency, entity) in KeysOf(Balances(grants))
  {
    if grants != [] {
      var init, g := grants[..|grants| - 1], grants[|grants| - 1];
      InCurrencySums(init, currency, entity);
      SumKeySnoc(InCurrency(init, currency), Entry(g.note.scope.entity, g.note.balance), entity);
      SumKeySnoc(Balances(init), Entry((g.note.scope.currency, g.note.scope.entity), g.note.balance),
          (currency, entity));
      SumKeySnoc(ByCurrency(init), Entry(Some(g.note.scope.currency), g.note.balance), Some(currency));
    }
  }

  function SumOverEntities(grants: seq<Grant>, currency: nat, entities: seq<nat>): int {
    if entities == [] then 0
    else SumOverEntities(grants, currency, entities[..|entities| - 1])
         + SumKey(Balances(grants), (currency, entities[|entities| - 1]))
  }

  lemma {:induction false} EntitiesAsKeys(grants: seq<Grant>, currency: nat, entities: seq<nat>)
    ensures SumOverEntities(grants, currency, entities) == SumKeys(InCurrency(grants, currency), entities)
  {
    if entities != [] {
      EntitiesAsKeys(grants, currency, entities[..|entities| - 1]);
      InCurrencySums(grants, currency, entities[|entities| - 1]);
    }
  }

  /** The balance lines of a currency, over any listing of its entities, add up to its summary balance. */
  lemma EntityBalancesAddUp(grants: seq<Grant>, currency: nat, entities: seq<nat>)
    requires Distinct(entities)
    requires forall e: nat :: (currency, e) in KeysOf(Balances(grants)) ==> e in entities
    ensures SumOverEntities(grants, currency, entities) == SumKey(ByCurrency(grants), Some(currency))
  {
    var es := InCurrency(grants, currency);
    EntitiesAsKeys(grants, currency, entities);
    forall e | e in es ensures e.key in entities {
      assert e.key in KeysOf(es);
      InCurrencySums(grants, currency, e.key);
    }
    GroupsConserve(es, entities);
    InCurrencySums(grants, currency, 0);
  }

  lemma {:induction false} BalanceWasIssued(grants: seq<Grant>)
    ensures KeysOf(ByCurrency(grants)) <= KeysOf(Issued(grants))
    ensures SumAll(ByCurrency(grants)) == CC.SpendableSum(Adjustments(grants))
  {
    if grants != [] {
      var init, g := grants[..|grants| - 1], grants[|grants| - 1];
      BalanceWasIssued(init);
      SumKeySnoc(ByCurrency(init), Entry(Some(g.note.scope.currency), g.note.balance), None);
      SumKeySnoc(Issued(init), Entry(Some(g.note.scope.currency), g.note.amount), None);
      if g.adjustment {
        CC.SpendableSnoc(Adjustments(init), g.note);
      }
    }
  }

  /** The summary leaves no spendable credit out: over its currencies, the balances add up to every spendable note,
      each counted once. */
  lemma SummaryAddsUp(grants: seq<Grant>, apps: seq<Application>, currencies: seq<Option<nat>>)
    requires Distinct(currencies)
    requires forall c :: c in KeysOf(Issued(grants)) + KeysOf(Applied(grants, apps)) ==> c in currencies
    ensures SumKeys(ByCurrency(grants), currencies) == CC.SpendableSum(Adjustments(grants))
  {
    BalanceWasIssued(grants);
    forall e | e in ByCurrency(grants) ensures e.key in currencies {
      assert e.key in KeysOf(ByCurrency(grants));
    }
    GroupsConserve(ByCurrency(grants), currencies);
  }
}
