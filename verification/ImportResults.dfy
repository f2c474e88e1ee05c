/**
  What a run leaves in the tenant's tables, row by row and column by column
  (cmd/import/main.go:222-443; cmd/import/store.go:86-176).
 */
module ImportResults {
  import opened ImportFile
  import opened Importer
  import opened Letters
  import opened Options

  // ---- Plans ----

  /** A new plan is stored as listed, with one price; an updated one takes the name, and the amount if it has a price
      in that currency; otherwise a stored plan stays. */
  predicate PlanIs(before: map<string, StoredPlan>, after: map<string, StoredPlan>, p: PlanInput, update: bool) {
    && p.code in after
    && var r, c := after[p.code], Upper(p.currency);
    if p.code !in before then
      r.name == p.name && r.unit == p.unit && r.count == p.count && r.prices.Keys == {c} && r.prices[c] == p.amount
    else
      var s := before[p.code];
      && r.name == (if update then p.name else s.name) && r.unit == s.unit && r.count == s.count
      && r.prices.Keys == s.prices.Keys
      && forall d :: d in r.prices ==> r.prices[d] == if update && d == c then p.amount else s.prices[d]
  }

  predicate PlansAre(before: map<string, StoredPlan>, after: map<string, StoredPlan>, plans: seq<PlanInput>,
      update: bool) {
    && after.Keys == before.Keys + Codes(plans)
    && (forall i :: 0 <= i < |plans| ==> PlanIs(before, after, plans[i], update))
    && forall code :: code in before && code !in Codes(plans) ==> after[code] == before[code]
  }

  predicate DistinctPlans(plans: seq<PlanInput>) {
    forall i :: 0 <= i < |plans| ==> plans[i].name != "" && plans[i].code !in Codes(plans[..i])
  }

  lemma CodesOf(plans: seq<PlanInput>)
    requires plans != []
    ensures Codes(plans) == Codes(plans[..|plans| - 1]) + {plans[|plans| - 1].code}
    ensures forall i :: 0 <= i < |plans| ==> plans[i].code in Codes(plans)
  {
    assert plans == plans[..|plans| - 1] + [plans[|plans| - 1]];
    forall i | 0 <= i < |plans| ensures plans[i].code in Codes(plans) {
      assert plans[i] in plans;
    }
  }

  lemma {:induction false} PlansStored(s: State, m: Mode, plans: seq<PlanInput>, f: Faults)
    requires !m.dryRun && DistinctPlans(plans)
    requires ImportPlans(s, m, plans, f).counters.failed == s.counters.failed
    ensures PlansAre(s.store.plans, ImportPlans(s, m, plans, f).store.plans, plans, m.update)
  {
    if plans != [] {
      var init, p := plans[..|plans| - 1], plans[|plans| - 1];
      var mid := ImportPlans(s, m, init, f);
      PlansImported(s, m, init, f);
      assert forall i :: 0 <= i < |init| ==> plans[..i] == init[..i];
      PlansStored(s, m, init, f);
      PlanStored(mid, m, p, f);
      PlansNext(s.store.plans, mid.store.plans, ImportPlan(mid, m, p, f).store.plans, plans, m.update);
    }
  }

  lemma PlanStored(s: State, m: Mode, p: PlanInput, f: Faults)
    requires !m.dryRun && p.name != "" && ImportPlan(s, m, p, f).counters.failed == s.counters.failed
    ensures var after := ImportPlan(s, m, p, f).store.plans;
            && PlanIs(s.store.plans, after, p, m.update) && after.Keys == s.store.plans.Keys + {p.code}
            && forall code :: code in s.store.plans && code != p.code ==> after[code] == s.store.plans[code]
  {
  }

  lemma PlanStays(before: map<string, StoredPlan>, mid: map<string, StoredPlan>, after: map<string, StoredPlan>,
                  p: PlanInput, update: bool)
    requires PlanIs(before, mid, p, update) && p.code in after && after[p.code] == mid[p.code]
    ensures PlanIs(before, after, p, update)
  {
  }

  lemma PlanNew(before: map<string, StoredPlan>, mid: map<string, StoredPlan>, after: map<string, StoredPlan>,
                p: PlanInput, listed: set<string>, update: bool)
    requires mid.Keys == before.Keys + listed && p.code !in listed
    requires forall code :: code in before && code !in listed ==> mid[code] == before[code]
    requires PlanIs(mid, after, p, update)
    ensures PlanIs(before, after, p, update)
  {
  }

  lemma PlansNext(before: map<string, StoredPlan>, mid: map<string, StoredPlan>, after: map<string, StoredPlan>,
                  plans: seq<PlanInput>, update: bool)
    requires plans != [] && DistinctPlans(plans)
    requires PlansAre(before, mid, plans[..|plans| - 1], update)
    requires var p := plans[|plans| - 1];
             && PlanIs(mid, after, p, update) && after.Keys == mid.Keys + {p.code}
             && forall code :: code in mid && code != p.code ==> after[code] == mid[code]
    ensures PlansAre(before, after, plans, update)
  {
    var init, p := plans[..|plans| - 1], plans[|plans| - 1];
    CodesOf(plans);
    forall i | 0 <= i < |plans| ensures PlanIs(before, after, plans[i], update) {
      if i < |init| {
        assert plans[i] in init;
        PlanStays(before, mid, after, init[i], update);
      } else {
        PlanNew(before, mid, after, p, Codes(init), update);
      }
    }
  }

  // ---- Customers ----

  /** A new customer is stored as listed; an updated one takes what the file gives and keeps the rest. */
  predicate CustomerIs(before: map<string, StoredCustomer>, after: map<string, StoredCustomer>, c: CustomerInput,
      update: bool) {
    var key := Lower(c.email);
    && key in after
    && var r := after[key];
    if key !in before then r.name == c.name && r.country == c.country && r.taxId == c.taxId
    else
      var s := before[key];
      && r.name == (if update then c.name else s.name)
      && r.country == (if update && c.country != "" then c.country else s.country)
      && r.taxId == (if update && c.taxId != "" then c.taxId else s.taxId)
  }

  predicate CustomersAre(before: map<string, StoredCustomer>, after: map<string, StoredCustomer>,
      customers: seq<CustomerInput>, update: bool) {
    && after.Keys == before.Keys + Emails(customers)
    && (forall i :: 0 <= i < |customers| ==> CustomerIs(before, after, customers[i], update))
    && forall key :: key in before && key !in Emails(customers) ==> after[key] == before[key]
  }

  predicate DistinctCustomers(customers: seq<CustomerInput>) {
    forall i :: 0 <= i < |customers| ==>
      customers[i].name != "" && Lower(customers[i].email) !in Emails(customers[..i])
  }

  lemma EmailsOf(customers: seq<CustomerInput>)
    requires customers != []
    ensures Emails(customers) == Emails(customers[..|customers| - 1]) + {Lower(customers[|customers| - 1].email)}
    ensures forall i :: 0 <= i < |customers| ==> Lower(customers[i].email) in Emails(customers)
  {
    assert customers == customers[..|customers| - 1] + [customers[|customers| - 1]];
    forall i | 0 <= i < |customers| ensures Lower(customers[i].email) in Emails(customers) {
      assert customers[i] in customers;
    }
  }

  lemma {:induction false} CustomersStored(s: State, m: Mode, customers: seq<CustomerInput>, f: Faults)
    requires !m.dryRun && DistinctCustomers(customers)
    requires ImportCustomers(s, m, customers, f).counters.failed == s.counters.failed
    ensures CustomersAre(s.store.customers, ImportCustomers(s, m, customers, f).store.customers, customers, m.update)
  {
    if customers != [] {
      var init, c := customers[..|customers| - 1], customers[|customers| - 1];
      var mid := ImportCustomers(s, m, init, f);
      CustomersImported(s, m, init, f);
      assert forall i :: 0 <= i < |init| ==> customers[..i] == init[..i];
      CustomersStored(s, m, init, f);
      CustomerStored(mid, m, c, f);
      CustomersNext(s.store.customers, mid.store.customers, ImportCustomer(mid, m, c, f).store.customers, customers,
          m.update);
    }
  }

  lemma CustomerStored(s: State, m: Mode, c: CustomerInput, f: Faults)
    requires !m.dryRun && c.name != "" && ImportCustomer(s, m, c, f).counters.failed == s.counters.failed
    ensures var after := ImportCustomer(s, m, c, f).store.customers;
            && CustomerIs(s.store.customers, after, c, m.update)
            && after.Keys == s.store.customers.Keys + {Lower(c.email)}
            && forall key :: key in s.store.customers && key != Lower(c.email) ==>
                 after[key] == s.store.customers[key]
  {
  }

  lemma CustomerStays(before: map<string, StoredCustomer>, mid: map<string, StoredCustomer>,
                      after: map<string, StoredCustomer>, c: CustomerInput, update: bool)
    requires CustomerIs(before, mid, c, update) && Lower(c.email) in after
    requires after[Lower(c.email)] == mid[Lower(c.email)]
    ensures CustomerIs(before, after, c, update)
  {
  }

  lemma CustomerNew(before: map<string, StoredCustomer>, mid: map<string, StoredCustomer>,
                    after: map<string, StoredCustomer>, c: CustomerInput, listed: set<string>, update: bool)
    requires mid.Keys == before.Keys + listed && Lower(c.email) !in listed
    requires forall key :: key in before && key !in listed ==> mid[key] == before[key]
    requires CustomerIs(mid, after, c, update)
    ensures CustomerIs(before, after, c, update)
  {
  }

  lemma CustomersNext(before: map<string, StoredCustomer>, mid: map<string, StoredCustomer>,
                      after: map<string, StoredCustomer>, customers: seq<CustomerInput>, update: bool)
    requires customers != [] && DistinctCustomers(customers)
    requires CustomersAre(before, mid, customers[..|customers| - 1], update)
    requires var c := customers[|customers| - 1];
             && CustomerIs(mid, after, c, update) && after.Keys == mid.Keys + {Lower(c.email)}
             && forall key :: key in mid && key != Lower(c.email) ==> after[key] == mid[key]
    ensures CustomersAre(before, after, customers, update)
  {
    var init, c := customers[..|customers| - 1], customers[|customers| - 1];
    EmailsOf(customers);
    forall i | 0 <= i < |customers| ensures CustomerIs(before, after, customers[i], update) {
      if i < |init| {
        assert customers[i] in init;
        CustomerStays(before, mid, after, init[i], update);
      } else {
        CustomerNew(before, mid, after, c, Emails(init), update);
      }
    }
  }

  // ---- Subscriptions ----

  predicate Known(subs: seq<StoredSubscription>, reference: string) {
    exists k :: 0 <= k < |subs| && subs[k].reference == reference
  }

  /** The listed subscriptions that the tables do not hold yet. */
  function Unknown(subs: seq<StoredSubscription>, inputs: seq<SubscriptionInput>): (r: seq<SubscriptionInput>)
    ensures forall i :: i in r <==> i in inputs && !Known(subs, i.externalId)
  {
    if inputs == [] then []
    else
      var before, last := Unknown(subs, inputs[..|inputs| - 1]), inputs[|inputs| - 1];
      assert inputs == inputs[..|inputs| - 1] + [last];
      if Known(subs, last.externalId) then before else before + [last]
  }

  /** A new row is as listed, and not scheduled for cancellation. */
  predicate CreatedFrom(r: StoredSubscription, i: SubscriptionInput, now: int) {
    && r.reference == i.externalId && r.customer == Lower(i.email) && r.plan == i.planCode && r.status == i.status
    && i.start == Some(r.start) && i.end == Some(r.end) && !r.cancelAtPeriodEnd && r.canceledAt.None? && r.reason == ""
    && r.updatedAt == now
  }

  /** An update takes status and period. */
  predicate UpdatedFrom(s: StoredSubscription, r: StoredSubscription, i: SubscriptionInput, now: int) {
    && r.status == i.status && i.start == Some(r.start) && i.end == Some(r.end) && r.updatedAt == now
    && r.reference == s.reference == i.externalId && r.customer == s.customer && r.plan == s.plan
    && r.cancelAtPeriodEnd == s.cancelAtPeriodEnd && r.canceledAt == s.canceledAt && r.reason == s.reason
  }

  /** Row k is the one its reference finds. */
  predicate First(subs: seq<StoredSubscription>, k: nat)
    requires k < |subs|
  {
    forall j :: 0 <= j < k ==> subs[j].reference != subs[k].reference
  }

  /** What a run makes of a stored row. */
  predicate RowIs(before: seq<StoredSubscription>, after: seq<StoredSubscription>, k: nat,
      inputs: seq<SubscriptionInput>, update: bool, now: int)
    requires k < |before| && k < |after|
  {
    if update && First(before, k) && before[k].reference in ExternalIds(inputs)
    then exists i :: i in inputs && UpdatedFrom(before[k], after[k], i, now)
    else after[k] == before[k]
  }

  predicate SubscriptionsAre(before: seq<StoredSubscription>, after: seq<StoredSubscription>,
      inputs: seq<SubscriptionInput>, update: bool, now: int) {
    var added := Unknown(before, inputs);
    && |after| == |before| + |added|
    && (forall k :: 0 <= k < |before| ==> RowIs(before, after, k, inputs, update, now))
    && forall k :: 0 <= k < |added| ==> CreatedFrom(after[|before| + k], added[k], now)
  }

  /** The row a reference finds is the first one that has it. */
  lemma {:induction false} FindsFirst(subs: seq<StoredSubscription>, reference: string)
    ensures var at := FindReference(subs, reference);
            && (at.Some? <==> Known(subs, reference))
            && (at.Some? ==> at.value < |subs| && subs[at.value].reference == reference && First(subs, at.value))
  {
    if subs != [] {
      var init := subs[..|subs| - 1];
      FindsFirst(init, reference);
    }
  }

  lemma AddedAreListed(subs: seq<StoredSubscription>, inputs: seq<SubscriptionInput>, k: nat)
    requires k < |Unknown(subs, inputs)|
    ensures Unknown(subs, inputs)[k].externalId in ExternalIds(inputs)
  {
    assert Unknown(subs, inputs)[k] in Unknown(subs, inputs);
  }

  /** A reference that is not listed is found where it was, and its row is as it was. */
  lemma SameFind(before: seq<StoredSubscription>, mid: seq<StoredSubscription>, init: seq<SubscriptionInput>,
      update: bool, now: int, reference: string)
    requires SubscriptionsAre(before, mid, init, update, now) && reference !in ExternalIds(init)
    ensures Known(mid, reference) <==> Known(before, reference)
    ensures Known(before, reference) ==>
              var k := FindReference(before, reference);
              k == FindReference(mid, reference) && k.Some? && k.value < |before| && mid[k.value] == before[k.value]
  {
    RowsKeepReferences(before, mid, init, update, now, reference);
    FindsSame(before, mid, reference);
  }

  lemma RowsKeepReferences(before: seq<StoredSubscription>, mid: seq<StoredSubscription>, init: seq<SubscriptionInput>,
      update: bool, now: int, reference: string)
    requires SubscriptionsAre(before, mid, init, update, now) && reference !in ExternalIds(init)
    ensures SameReferences(before, mid)
    ensures forall k :: 0 <= k < |before| && before[k].reference == reference ==> mid[k] == before[k]
    ensures forall k :: |before| <= k < |mid| ==> mid[k].reference != reference
  {
    forall k | |before| <= k < |mid| ensures mid[k].reference != reference {
      AddedAreListed(before, init, k - |before|);
      assert CreatedFrom(mid[|before| + (k - |before|)], Unknown(before, init)[k - |before|], now);
    }
    forall k | 0 <= k < |before|
      ensures mid[k].reference == before[k].reference && (before[k].reference == reference ==> mid[k] == before[k])
    {
      assert RowIs(before, mid, k, init, update, now);
    }
  }

  lemma FindsSame(before: seq<StoredSubscription>, mid: seq<StoredSubscription>, reference: string)
    requires SameReferences(before, mid) && forall k :: |before| <= k < |mid| ==> mid[k].reference != reference
    ensures Known(mid, reference) <==> Known(before, reference)
    ensures Known(before, reference) ==>
              var k := FindReference(before, reference);
              && k == FindReference(mid, reference) && k.Some? && k.value < |before|
              && before[k.value].reference == reference
  {
    FindsFirst(before, reference);
    FindsFirst(mid, reference);
    if Known(before, reference) {
      assert mid[FindReference(before, reference).value].reference == reference;
    }
  }

  lemma UnknownSnoc(subs: seq<StoredSubscription>, init: seq<SubscriptionInput>, last: SubscriptionInput)
    ensures Unknown(subs, init + [last])
         == if Known(subs, last.externalId) then Unknown(subs, init) else Unknown(subs, init) + [last]
  {
    assert (init + [last])[..|init|] == init;
  }

  /** A row that the last item does not update is as the items before it left it. */
  lemma RowStays(before: seq<StoredSubscription>, mid: seq<StoredSubscription>, after: seq<StoredSubscription>, k: nat,
                 init: seq<SubscriptionInput>, i: SubscriptionInput, update: bool, now: int)
    requires k < |before| && k < |mid| && k < |after| && after[k] == mid[k]
    requires RowIs(before, mid, k, init, update, now)
    requires before[k].reference != i.externalId || !update || !First(before, k)
    ensures RowIs(before, after, k, init + [i], update, now)
  {
    if update && First(before, k) && before[k].reference in ExternalIds(init + [i]) {
      var j :| j in init && UpdatedFrom(before[k], mid[k], j, now);
      assert j in init + [i] && UpdatedFrom(before[k], after[k], j, now);
    }
  }

  /** A new reference adds a row at the end. */
  lemma UnknownNext(before: seq<StoredSubscription>, mid: seq<StoredSubscription>, row: StoredSubscription,
                    init: seq<SubscriptionInput>, i: SubscriptionInput, update: bool, now: int)
    requires SubscriptionsAre(before, mid, init, update, now)
    requires !Known(before, i.externalId) && CreatedFrom(row, i, now)
    ensures SubscriptionsAre(before, mid + [row], init + [i], update, now)
  {
    var after, added := mid + [row], Unknown(before, init);
    UnknownSnoc(before, init, i);
    forall k | 0 <= k < |before| ensures RowIs(before, after, k, init + [i], update, now) {
      RowStays(before, mid, after, k, init, i, update, now);
    }
    forall k | 0 <= k < |added| + 1 ensures CreatedFrom(after[|before| + k], (added + [i])[k], now) {
      assert k < |added| ==> CreatedFrom(mid[|before| + k], added[k], now);
    }
  }

  /** A known one changes at most the row it is found at. */
  lemma KnownNext(before: seq<StoredSubscription>, mid: seq<StoredSubscription>, after: seq<StoredSubscription>,
                  at: nat, init: seq<SubscriptionInput>, i: SubscriptionInput, update: bool, now: int)
    requires SubscriptionsAre(before, mid, init, update, now)
    requires at < |before| && before[at].reference == i.externalId && First(before, at)
    requires |after| == |mid| && forall k :: 0 <= k < |mid| && k != at ==> after[k] == mid[k]
    requires if update then UpdatedFrom(before[at], after[at], i, now) else after[at] == mid[at]
    ensures SubscriptionsAre(before, after, init + [i], update, now)
  {
    var added := Unknown(before, init);
    UnknownSnoc(before, init, i);
    forall k | 0 <= k < |before| ensures RowIs(before, after, k, init + [i], update, now) {
      if k == at && update {
        assert i in init + [i] && UpdatedFrom(before[k], after[k], i, now);
      } else {
        RowStays(before, mid, after, k, init, i, update, now);
      }
    }
    forall k | 0 <= k < |added| ensures CreatedFrom(after[|before| + k], added[k], now) {
      assert after[|before| + k] == mid[|before| + k];
    }
  }

  /** One item: a known reference changes at most its row, and a new one adds a row. */
  lemma SubscriptionStored(s: State, m: Mode, i: SubscriptionInput, f: Faults, now: int)
    requires !m.dryRun && i.start.Some? && i.end.Some?
    requires ImportSubscription(s, m, i, f, now).counters.failed == s.counters.failed
    ensures var subs, after := s.store.subs, ImportSubscription(s, m, i, f, now).store.subs;
            && (!Known(subs, i.externalId) ==> |after| == |subs| + 1 && after == subs + [after[|subs|]]
                                               && CreatedFrom(after[|subs|], i, now))
            && (Known(subs, i.externalId) ==>
                  var at := FindReference(subs, i.externalId);
                  && |after| == |subs| && at.Some? && at.value < |subs|
                  && (forall k :: 0 <= k < |subs| && k != at.value ==> after[k] == subs[k])
                  && if m.update then UpdatedFrom(subs[at.value], after[at.value], i, now)
                     else after[at.value] == subs[at.value])
  {
    FindsFirst(s.store.subs, i.externalId);
  }

  lemma {:induction false} SubscriptionsStored(s: State, m: Mode, inputs: seq<SubscriptionInput>, f: Faults, now: int)
    requires !m.dryRun && Dated(inputs) && DistinctReferences(inputs)
    requires ImportSubscriptions(s, m, inputs, f, now).counters.failed == s.counters.failed
    ensures SubscriptionsAre(s.store.subs, ImportSubscriptions(s, m, inputs, f, now).store.subs, inputs, m.update, now)
  {
    if inputs != [] {
      var init, i := inputs[..|inputs| - 1], inputs[|inputs| - 1];
      var mid := ImportSubscriptions(s, m, init, f, now);
      SubscriptionsImported(s, m, init, f, now);
      SubscriptionImported(mid, m, i, f, now);
      DistinctInit(inputs);
      SubscriptionsStored(s, m, init, f, now);
      NextStored(s.store.subs, mid, m, init, i, f, now);
      assert inputs == init + [i];
    }
  }

  lemma NextStored(before: seq<StoredSubscription>, mid: State, m: Mode, init: seq<SubscriptionInput>,
                   i: SubscriptionInput, f: Faults, now: int)
    requires !m.dryRun && i.start.Some? && i.end.Some? && i.externalId !in ExternalIds(init)
    requires SubscriptionsAre(before, mid.store.subs, init, m.update, now)
    requires ImportSubscription(mid, m, i, f, now).counters.failed == mid.counters.failed
    ensures SubscriptionsAre(before, ImportSubscription(mid, m, i, f, now).store.subs, init + [i], m.update, now)
  {
    var subs, after := mid.store.subs, ImportSubscription(mid, m, i, f, now).store.subs;
    SubscriptionStored(mid, m, i, f, now);
    SameFind(before, subs, init, m.update, now, i.externalId);
    FindsFirst(before, i.externalId);
    if Known(before, i.externalId) {
      KnownNext(before, subs, after, FindReference(before, i.externalId).value, init, i, m.update, now);
    } else {
      UnknownNext(before, subs, after[|subs|], init, i, m.update, now);
    }
  }

  // ---- A run ----

  /** After a real run of a valid file in which nothing failed, whatever the tables held before, every listed plan,
      customer and subscription is stored: new ones with the listed columns, known ones updated in the columns an
      update touches or, without it, as they were; nothing else was added or changed. */
  lemma RunStores(store: Store, update: bool, file: File, f: RunFaults, now: int)
    requires Valid(file) && Dated(file.subscriptions)
    requires Import(store, Mode(false, update), file, f, now).counters.failed == 0
    ensures var r := Import(store, Mode(false, update), file, f, now).store;
            && PlansAre(store.plans, r.plans, file.plans, update)
            && CustomersAre(store.customers, r.customers, file.customers, update)
            && SubscriptionsAre(store.subs, r.subs, file.subscriptions, update, now)
  {
    var m := Mode(false, update);
    var s1 := ImportPlans(Begin(store), m, file.plans, f.plans);
    var s2 := ImportCustomers(s1, m, file.customers, f.customers);
    PlansImported(Begin(store), m, file.plans, f.plans);
    CustomersImported(s1, m, file.customers, f.customers);
    SubscriptionsImported(s2, m, file.subscriptions, f.subs, now);
    ValidKeys(file);
    PlansStored(Begin(store), m, file.plans, f.plans);
    CustomersStored(s1, m, file.customers, f.customers);
    SubscriptionsStored(s2, m, file.subscriptions, f.subs, now);
  }

  lemma ValidKeys(file: File)
    requires Valid(file)
    ensures DistinctPlans(file.plans) && DistinctCustomers(file.customers) && DistinctReferences(file.subscriptions)
  {
    ValidReferences(file);
    forall i | 0 <= i < |file.plans| ensures file.plans[i].name != "" && file.plans[i].code !in Codes(file.plans[..i]) {
      assert PlanFine(file, i);
    }
    forall i | 0 <= i < |file.customers|
      ensures file.customers[i].name != "" && Lower(file.customers[i].email) !in Emails(file.customers[..i])
    {
      assert CustomerFine(file, i);
    }
  }

  /** A first import fills empty tables with the file: one row for each item. */
  lemma FirstImportFills(file: File, update: bool, now: int)
    requires Valid(file) && Dated(file.subscriptions)
    requires forall i :: 0 <= i < |file.subscriptions| ==> file.subscriptions[i].planCode in Codes(file.plans)
    ensures var r := Import(Store(map[], map[], []), Mode(false, update), file, HEALTHY, now).store;
            && r.plans.Keys == Codes(file.plans) && r.customers.Keys == Emails(file.customers)
            && |r.subs| == |file.subscriptions|
            && forall k :: 0 <= k < |r.subs| ==> CreatedFrom(r.subs[k], file.subscriptions[k], now)
  {
    var empty := Store(map[], map[], []);
    RunFailsNothingIff(empty, Mode(false, update), file, now);
    RunStores(empty, update, file, HEALTHY, now);
    AllUnknown(file.subscriptions);
    var r := Import(empty, Mode(false, update), file, HEALTHY, now).store;
    forall k | 0 <= k < |r.subs| ensures CreatedFrom(r.subs[k], file.subscriptions[k], now) {
      assert CreatedFrom(r.subs[0 + k], Unknown([], file.subscriptions)[k], now);
    }
  }

  lemma {:induction false} AllUnknown(inputs: seq<SubscriptionInput>)
    ensures Unknown([], inputs) == inputs
  {
    if inputs != [] {
      AllUnknown(inputs[..|inputs| - 1]);
    }
  }
}
