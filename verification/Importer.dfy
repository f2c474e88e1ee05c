/**
  The re-runnable importer: plans, customers and subscriptions matched by natural
  key, and cancel-sync of what an authoritative file no longer lists
  (cmd/import/main.go:222-494; cmd/import/store.go:86-211).
 */
module Importer {
  import opened ImportFile
  import opened Letters
  import opened Options

  datatype StoredPlan = StoredPlan(name: string, unit: string, count: int, prices: map<string, int>)
  datatype StoredCustomer = StoredCustomer(name: string, country: string, taxId: string)

  /** `reference` is empty for a subscription created in the dashboard. */
  datatype StoredSubscription = StoredSubscription(
    reference: string, customer: string, plan: string, status: string, start: int, end: int,
    cancelAtPeriodEnd: bool, canceledAt: Option<int>, reason: string, updatedAt: int)

  /** A tenant's rows: plans by code, customers by lower-case email, subscriptions in order of creation. */
  datatype Store = Store(plans: map<string, StoredPlan>, customers: map<string, StoredCustomer>,
                         subs: seq<StoredSubscription>)

  datatype Mode = Mode(dryRun: bool, update: bool)
  datatype Counters = Counters(created: nat, updated: nat, skipped: nat, canceled: nat, failed: nat)

  /** The natural keys whose lookup or write fails in a run. */
  datatype Faults = Faults(lookups: set<string>, writes: set<string>)

  const NO_FAULTS := Faults({}, {})

  datatype State = State(store: Store, counters: Counters, planIds: set<string>, customerIds: set<string>)

  function Begin(store: Store): State {
    State(store, Counters(0, 0, 0, 0, 0), {}, {})
  }

  function FailedOne(s: State): State { s.(counters := s.counters.(failed := s.counters.failed + 1)) }
  function CreatedOne(s: State): State { s.(counters := s.counters.(created := s.counters.created + 1)) }
  function UpdatedOne(s: State): State { s.(counters := s.counters.(updated := s.counters.updated + 1)) }
  function SkippedOne(s: State): State { s.(counters := s.counters.(skipped := s.counters.skipped + 1)) }

  /** An empty input keeps the stored value. */
  function Or(input: string, stored: string): string {
    if input == "" then stored else input
  }

  // ---- Plans ----

  function NewPlan(p: PlanInput): StoredPlan {
    StoredPlan(p.name, p.unit, p.count, map[Upper(p.currency) := p.amount])
  }

  /** Only the name, and the price of an existing currency. */
  function UpdatedPlan(stored: StoredPlan, p: PlanInput): StoredPlan {
    stored.(name := Or(p.name, stored.name),
            prices := if Upper(p.currency) in stored.prices then stored.prices[Upper(p.currency) := p.amount]
                else stored.prices)
  }

  function ImportPlan(s: State, m: Mode, p: PlanInput, f: Faults): State {
    if p.code in f.lookups then FailedOne(s)
    else if p.code in s.store.plans then
      var known := s.(planIds := s.planIds + {p.code});
      if !m.update then SkippedOne(known)
      else if m.dryRun then UpdatedOne(known)
      else if p.code in f.writes then FailedOne(known)
      else UpdatedOne(known.(store := s.store.(plans := s.store.plans[p.code := UpdatedPlan(s.store.plans[p.code],
               p)])))
    else if m.dryRun then CreatedOne(s)
    else if p.code in f.writes then FailedOne(s)
    else CreatedOne(s.(store := s.store.(plans := s.store.plans[p.code := NewPlan(p)]), planIds := s.planIds
             + {p.code}))
  }

  function ImportPlans(s: State, m: Mode, plans: seq<PlanInput>, f: Faults): State {
    if plans == [] then s else ImportPlan(ImportPlans(s, m, plans[..|plans| - 1], f), m, plans[|plans| - 1], f)
  }

  // ---- Customers ----

  function NewCustomer(c: CustomerInput): StoredCustomer {
    StoredCustomer(c.name, c.country, c.taxId)
  }

  function UpdatedCustomer(stored: StoredCustomer, c: CustomerInput): StoredCustomer {
    StoredCustomer(Or(c.name, stored.name), Or(c.country, stored.country), Or(c.taxId, stored.taxId))
  }

  function ImportCustomer(s: State, m: Mode, c: CustomerInput, f: Faults): State {
    var key := Lower(c.email);
    if key in f.lookups then FailedOne(s)
    else if key in s.store.customers then
      var known := s.(customerIds := s.customerIds + {key});
      if !m.update then SkippedOne(known)
      else if m.dryRun then UpdatedOne(known)
      else if key in f.writes then FailedOne(known)
      else
        var updated := s.store.customers[key := UpdatedCustomer(s.store.customers[key], c)];
        UpdatedOne(known.(store := s.store.(customers := updated)))
    else if m.dryRun then CreatedOne(s)
    else if key in f.writes then FailedOne(s)
    else CreatedOne(s.(store := s.store.(customers := s.store.customers[key := NewCustomer(c)]),
                       customerIds := s.customerIds + {key}))
  }

  function ImportCustomers(s: State, m: Mode, customers: seq<CustomerInput>, f: Faults): State {
    if customers == [] then s
    else ImportCustomer(ImportCustomers(s, m, customers[..|customers| - 1], f), m, customers[|customers| - 1], f)
  }

  // ---- Subscriptions ----

  /** The first stored subscription with the reference. */
  function FindReference(subs: seq<StoredSubscription>, reference: string): Option<nat> {
    if subs == [] then None
    else
      var before := FindReference(subs[..|subs| - 1], reference);
      if before.Some? then before else if subs[|subs| - 1].reference == reference then Some(|subs| - 1) else None
  }

  lemma {:induction false} FindReferenceIs(subs: seq<StoredSubscription>, reference: string)
    ensures var k := FindReference(subs, reference);
            && (k.Some? ==> k.value < |subs| && subs[k.value].reference == reference)
            && (k.None? <==> forall i :: 0 <= i < |subs| ==> subs[i].reference != reference)
  {
    if subs != [] {
      FindReferenceIs(subs[..|subs| - 1], reference);
    }
  }

  function NewSubscription(i: SubscriptionInput, now: int): StoredSubscription
    requires i.start.Some? && i.end.Some?
  {
    StoredSubscription(i.externalId, Lower(i.email), i.planCode, i.status, i.start.value, i.end.value, false, None,
        "", now)
  }

  /** Only status and period. */
  function UpdatedSubscription(stored: StoredSubscription, i: SubscriptionInput, now: int): StoredSubscription
    requires i.start.Some? && i.end.Some?
  {
    stored.(status := i.status, start := i.start.value, end := i.end.value, updatedAt := now)
  }

  function ImportSubscription(s: State, m: Mode, i: SubscriptionInput, f: Faults, now: int): State
    requires i.start.Some? && i.end.Some?
  {
    FindReferenceIs(s.store.subs, i.externalId);
    var at := FindReference(s.store.subs, i.externalId);
    if i.externalId in f.lookups then FailedOne(s)
    else if at.Some? then
      if !m.update then SkippedOne(s)
      else if m.dryRun then UpdatedOne(s)
      else if i.externalId in f.writes then FailedOne(s)
      else
        var updated := s.store.subs[at.value := UpdatedSubscription(s.store.subs[at.value], i, now)];
        UpdatedOne(s.(store := s.store.(subs := updated)))
    else if Lower(i.email) !in s.customerIds then FailedOne(s)
    else if i.planCode !in s.planIds && i.planCode !in s.store.plans then FailedOne(s)
    else
      var linked := s.(planIds := s.planIds + {i.planCode});
      if m.dryRun then CreatedOne(linked)
      else if i.externalId in f.writes then FailedOne(linked)
      else CreatedOne(linked.(store := s.store.(subs := s.store.subs + [NewSubscription(i, now)])))
  }

  predicate Dated(subs: seq<SubscriptionInput>) {
    forall i :: 0 <= i < |subs| ==> subs[i].start.Some? && subs[i].end.Some?
  }

  function ImportSubscriptions(s: State, m: Mode, subs: seq<SubscriptionInput>, f: Faults, now: int): State
    requires Dated(subs)
  {
    if subs == [] then s
    else ImportSubscription(ImportSubscriptions(s, m, subs[..|subs| - 1], f, now), m, subs[|subs| - 1], f, now)
  }

  // ---- A run ----

  datatype RunFaults = RunFaults(plans: Faults, customers: Faults, subs: Faults)

  const HEALTHY := RunFaults(NO_FAULTS, NO_FAULTS, NO_FAULTS)

  function Import(store: Store, m: Mode, file: File, f: RunFaults, now: int): State
    requires Dated(file.subscriptions)
  {
    var s1 := ImportPlans(Begin(store), m, file.plans, f.plans);
    var s2 := ImportCustomers(s1, m, file.customers, f.customers);
    ImportSubscriptions(s2, m, file.subscriptions, f.subs, now)
  }

  /** Everything the file lists is stored. */
  predicate Imported(store: Store, file: File) {
    && (forall i :: 0 <= i < |file.plans| ==> file.plans[i].code in store.plans)
    && (forall i :: 0 <= i < |file.customers| ==> Lower(file.customers[i].email) in store.customers)
    && (forall i :: 0 <= i < |file.subscriptions| ==> FindReference(store.subs, file.subscriptions[i].externalId).Some?)
  }

  lemma {:induction false} PlansImported(s: State, m: Mode, plans: seq<PlanInput>, f: Faults)
    ensures var t := ImportPlans(s, m, plans, f);
            && s.counters.failed <= t.counters.failed
            && s.store.plans.Keys <= t.store.plans.Keys && t.store.subs == s.store.subs && t.store.customers
                == s.store.customers
            && t.customerIds == s.customerIds
            && (!m.dryRun && t.counters.failed == s.counters.failed ==> forall p :: p in plans ==>
                p.code in t.store.plans)
            && (m.dryRun ==> t.store == s.store)
  {
    if plans != [] {
      PlansImported(s, m, plans[..|plans| - 1], f);
    }
  }

  lemma {:induction false} CustomersImported(s: State, m: Mode, customers: seq<CustomerInput>, f: Faults)
    ensures var t := ImportCustomers(s, m, customers, f);
            && s.counters.failed <= t.counters.failed
            && s.store.customers.Keys <= t.store.customers.Keys && t.store.subs == s.store.subs && t.store.plans
                == s.store.plans
            && t.planIds == s.planIds && s.customerIds <= t.customerIds
            && (!m.dryRun && t.counters.failed == s.counters.failed ==>
                  forall c :: c in customers ==> Lower(c.email) in t.store.customers && Lower(c.email) in t.customerIds)
            && (m.dryRun ==> t.store == s.store)
  {
    if customers != [] {
      CustomersImported(s, m, customers[..|customers| - 1], f);
    }
  }

  lemma FoundStays(subs: seq<StoredSubscription>, later: seq<StoredSubscription>, reference: string)
    requires |subs| <= |later| && forall i :: 0 <= i < |subs| ==> later[i].reference == subs[i].reference
    requires FindReference(subs, reference).Some?
    ensures FindReference(later, reference).Some?
  {
  }

  /** References are only ever added. */
  predicate SameReferences(subs: seq<StoredSubscription>, later: seq<StoredSubscription>) {
    |subs| <= |later| && forall i :: 0 <= i < |subs| ==> later[i].reference == subs[i].reference
  }

  lemma SubscriptionImported(s: State, m: Mode, i: SubscriptionInput, f: Faults, now: int)
    requires i.start.Some? && i.end.Some?
    ensures var t := ImportSubscription(s, m, i, f, now);
            && s.counters.failed <= t.counters.failed
            && t.store.plans == s.store.plans && t.store.customers == s.store.customers
            && SameReferences(s.store.subs, t.store.subs)
            && (!m.dryRun && t.counters.failed == s.counters.failed ==> FindReference(t.store.subs, i.externalId).Some?)
  {
    var t := ImportSubscription(s, m, i, f, now);
    FindReferenceIs(s.store.subs, i.externalId);
    if FindReference(s.store.subs, i.externalId).Some? {
      FoundStays(s.store.subs, t.store.subs, i.externalId);
    } else if t.store != s.store {
      FoundLast(s.store.subs, NewSubscription(i, now));
    }
  }

  lemma FoundLast(subs: seq<StoredSubscription>, s: StoredSubscription)
    ensures FindReference(subs + [s], s.reference).Some?
  {
  }

  lemma {:induction false} SubscriptionsImported(s: State, m: Mode, subs: seq<SubscriptionInput>, f: Faults, now: int)
    requires Dated(subs)
    ensures var t := ImportSubscriptions(s, m, subs, f, now);
            && s.counters.failed <= t.counters.failed
            && t.store.plans == s.store.plans && t.store.customers == s.store.customers
            && SameReferences(s.store.subs, t.store.subs)
            && (!m.dryRun && t.counters.failed == s.counters.failed ==>
                  forall j :: 0 <= j < |subs| ==> FindReference(t.store.subs, subs[j].externalId).Some?)
  {
    if subs != [] {
      var init, last := subs[..|subs| - 1], subs[|subs| - 1];
      var before := ImportSubscriptions(s, m, init, f, now);
      SubscriptionsImported(s, m, init, f, now);
      SubscriptionImported(before, m, last, f, now);
      var t := ImportSubscriptions(s, m, subs, f, now);
      if !m.dryRun && t.counters.failed == s.counters.failed {
        forall j | 0 <= j < |subs| - 1 ensures FindReference(t.store.subs, subs[j].externalId).Some? {
          assert init[j] == subs[j];
          FoundStays(before.store.subs, t.store.subs, subs[j].externalId);
        }
      }
    }
  }

  lemma RunImports(store: Store, m: Mode, file: File, f: RunFaults, now: int)
    requires Dated(file.subscriptions) && !m.dryRun
    requires Import(store, m, file, f, now).counters.failed == 0
    ensures Imported(Import(store, m, file, f, now).store, file)
  {
    var s1 := ImportPlans(Begin(store), m, file.plans, f.plans);
    var s2 := ImportCustomers(s1, m, file.customers, f.customers);
    PlansImported(Begin(store), m, file.plans, f.plans);
    CustomersImported(s1, m, file.customers, f.customers);
    SubscriptionsImported(s2, m, file.subscriptions, f.subs, now);
  }

  // ---- Running it again ----

  const RERUN := Mode(false, false)

  lemma {:induction false} PlansSkipped(s: State, plans: seq<PlanInput>)
    requires forall i :: 0 <= i < |plans| ==> plans[i].code in s.store.plans
    ensures var t := ImportPlans(s, RERUN, plans, NO_FAULTS);
            t.store == s.store && t.counters == s.counters.(skipped := s.counters.skipped + |plans|)
  {
    if plans != [] {
      PlansSkipped(s, plans[..|plans| - 1]);
    }
  }

  lemma {:induction false} CustomersSkipped(s: State, customers: seq<CustomerInput>)
    requires forall i :: 0 <= i < |customers| ==> Lower(customers[i].email) in s.store.customers
    ensures var t := ImportCustomers(s, RERUN, customers, NO_FAULTS);
            t.store == s.store && t.counters == s.counters.(skipped := s.counters.skipped + |customers|)
  {
    if customers != [] {
      CustomersSkipped(s, customers[..|customers| - 1]);
    }
  }

  lemma {:induction false} SubscriptionsSkipped(s: State, subs: seq<SubscriptionInput>, now: int)
    requires Dated(subs) && forall i :: 0 <= i < |subs| ==> FindReference(s.store.subs, subs[i].externalId).Some?
    ensures var t := ImportSubscriptions(s, RERUN, subs, NO_FAULTS, now);
            t.store == s.store && t.counters == s.counters.(skipped := s.counters.skipped + |subs|)
  {
    if subs != [] {
      SubscriptionsSkipped(s, subs[..|subs| - 1], now);
    }
  }

  /** After a run without failures, whatever its mode and whatever the store held before, running the file again
      creates nothing, changes nothing, fails nothing, and skips every item. */
  lemma RerunChangesNothing(store: Store, m: Mode, file: File, f: RunFaults, now: int, later: int)
    requires Dated(file.subscriptions) && !m.dryRun
    requires Import(store, m, file, f, now).counters.failed == 0
    ensures var first := Import(store, m, file, f, now);
            var again := Import(first.store, RERUN, file, HEALTHY, later);
            && again.store == first.store
            && again.counters == Counters(0, 0, |file.plans| + |file.customers| + |file.subscriptions|, 0, 0)
  {
    var first := Import(store, m, file, f, now);
    RunImports(store, m, file, f, now);
    var s1 := ImportPlans(Begin(first.store), RERUN, file.plans, NO_FAULTS);
    PlansSkipped(Begin(first.store), file.plans);
    CustomersSkipped(s1, file.customers);
    SubscriptionsSkipped(ImportCustomers(s1, RERUN, file.customers, NO_FAULTS), file.subscriptions, later);
  }

  // ---- What a dry run foresees ----

  lemma PlanWithoutFaults(s: State, m: Mode, p: PlanInput)
    requires s.planIds <= s.store.plans.Keys
    ensures var t := ImportPlan(s, m, p, NO_FAULTS);
            && t.counters.failed == s.counters.failed && t.planIds <= t.store.plans.Keys
            && t.store.plans.Keys == s.store.plans.Keys + Listed(m, {p.code})
  {
  }

  /** The keys a run adds: in a dry run, none. */
  function Listed(m: Mode, keys: set<string>): set<string> {
    if m.dryRun then {} else keys
  }

  lemma ListedAddUp(m: Mode, stored: set<string>, init: set<string>, last: set<string>)
    ensures stored + Listed(m, init) + Listed(m, last) == stored + Listed(m, init + last)
  {
  }

  lemma {:induction false} PlansWithoutFaults(s: State, m: Mode, plans: seq<PlanInput>)
    requires s.planIds <= s.store.plans.Keys
    ensures var t := ImportPlans(s, m, plans, NO_FAULTS);
            && t.counters.failed == s.counters.failed && t.planIds <= t.store.plans.Keys
            && t.store.plans.Keys == s.store.plans.Keys + Listed(m, Codes(plans))
  {
    if plans != [] {
      var init, p := plans[..|plans| - 1], plans[|plans| - 1];
      PlansWithoutFaults(s, m, init);
      PlanWithoutFaults(ImportPlans(s, m, init, NO_FAULTS), m, p);
      assert Codes(plans) == Codes(init) + {p.code} by {
        assert plans == init + [p];
      }
      ListedAddUp(m, s.store.plans.Keys, Codes(init), {p.code});
    }
  }

  lemma CustomerWithoutFaults(s: State, m: Mode, c: CustomerInput)
    ensures var t := ImportCustomer(s, m, c, NO_FAULTS);
            && t.counters.failed == s.counters.failed
            && t.customerIds == s.customerIds + Resolved(m, s.store, {Lower(c.email)})
            && t.store.customers.Keys == s.store.customers.Keys + Listed(m, {Lower(c.email)})
  {
  }

  /** The customers a run can link to: in a dry run, only those stored before it. */
  function Resolved(m: Mode, store: Store, emails: set<string>): set<string> {
    if m.dryRun then emails * store.customers.Keys else emails
  }

  lemma {:induction false} CustomersWithoutFaults(s: State, m: Mode, customers: seq<CustomerInput>)
    ensures var t := ImportCustomers(s, m, customers, NO_FAULTS);
            && t.counters.failed == s.counters.failed
            && t.customerIds == s.customerIds + Resolved(m, s.store, Emails(customers))
            && t.store.customers.Keys == s.store.customers.Keys + Listed(m, Emails(customers))
  {
    if customers != [] {
      var init, c := customers[..|customers| - 1], customers[|customers| - 1];
      var before := ImportCustomers(s, m, init, NO_FAULTS);
      CustomersWithoutFaults(s, m, init);
      CustomerWithoutFaults(before, m, c);
      assert Emails(customers) == Emails(init) + {Lower(c.email)} by {
        assert customers == init + [c];
      }
      ListedAddUp(m, s.store.customers.Keys, Emails(init), {Lower(c.email)});
      assert Resolved(m, s.store, Emails(init)) + Resolved(m, before.store, {Lower(c.email)})
          == Resolved(m, s.store, Emails(customers));
    }
  }

  /** The subscription is stored already, or can be linked with the customers and plans known when its turn comes. */
  predicate Linkable(s: State, i: SubscriptionInput) {
    FindReference(s.store.subs, i.externalId).Some? || (Lower(i.email) in s.customerIds && i.planCode in s.store.plans)
  }

  predicate NewReferences(subs: seq<StoredSubscription>, later: seq<StoredSubscription>,
      inputs: seq<SubscriptionInput>) {
    && SameReferences(subs, later)
    && forall k :: |subs| <= k < |later| ==> later[k].reference in ExternalIds(inputs)
  }

  lemma OneWithoutFaults(s: State, m: Mode, i: SubscriptionInput, now: int)
    requires i.start.Some? && i.end.Some? && s.planIds <= s.store.plans.Keys
    ensures var t := ImportSubscription(s, m, i, NO_FAULTS, now);
            && t.planIds <= t.store.plans.Keys && t.customerIds == s.customerIds && t.store.plans == s.store.plans
            && NewReferences(s.store.subs, t.store.subs, [i])
            && s.counters.failed <= t.counters.failed
            && (t.counters.failed == s.counters.failed <==> Linkable(s, i))
  {
    FindReferenceIs(s.store.subs, i.externalId);
    assert i in [i];
  }

  lemma LinkableStays(s: State, t: State, inputs: seq<SubscriptionInput>, i: SubscriptionInput)
    requires NewReferences(s.store.subs, t.store.subs, inputs) && i.externalId !in ExternalIds(inputs)
    requires t.customerIds == s.customerIds && t.store.plans == s.store.plans
    ensures Linkable(s, i) <==> Linkable(t, i)
  {
    FindReferenceIs(s.store.subs, i.externalId);
    FindReferenceIs(t.store.subs, i.externalId);
  }

  predicate DistinctReferences(subs: seq<SubscriptionInput>) {
    forall i :: 0 <= i < |subs| ==> subs[i].externalId !in ExternalIds(subs[..i])
  }

  lemma {:induction false} SubscriptionsLink(s: State, m: Mode, subs: seq<SubscriptionInput>, now: int)
    requires Dated(subs) && s.planIds <= s.store.plans.Keys
    ensures var t := ImportSubscriptions(s, m, subs, NO_FAULTS, now);
            && t.planIds <= t.store.plans.Keys && t.customerIds == s.customerIds && t.store.plans == s.store.plans
            && NewReferences(s.store.subs, t.store.subs, subs)
            && s.counters.failed <= t.counters.failed
  {
    if subs != [] {
      var init, last := subs[..|subs| - 1], subs[|subs| - 1];
      var before := ImportSubscriptions(s, m, init, NO_FAULTS, now);
      SubscriptionsLink(s, m, init, now);
      OneWithoutFaults(before, m, last, now);
      ReferencesAddUp(s.store.subs, before.store.subs, ImportSubscription(before, m, last, NO_FAULTS, now).store.subs,
          init, last);
      assert subs == init + [last];
    }
  }

  /** The next subscription fails exactly when it could not be linked at the start. */
  lemma NextLinks(s: State, before: State, m: Mode, init: seq<SubscriptionInput>, i: SubscriptionInput, now: int)
    requires i.start.Some? && i.end.Some? && before.planIds <= before.store.plans.Keys
    requires NewReferences(s.store.subs, before.store.subs, init) && i.externalId !in ExternalIds(init)
    requires before.customerIds == s.customerIds && before.store.plans == s.store.plans
    ensures var t := ImportSubscription(before, m, i, NO_FAULTS, now);
            && before.counters.failed <= t.counters.failed
            && (t.counters.failed == before.counters.failed <==> Linkable(s, i))
  {
    OneWithoutFaults(before, m, i, now);
    LinkableStays(s, before, init, i);
  }

  lemma DistinctInit(subs: seq<SubscriptionInput>)
    requires subs != [] && DistinctReferences(subs)
    ensures DistinctReferences(subs[..|subs| - 1])
    ensures subs[|subs| - 1].externalId !in ExternalIds(subs[..|subs| - 1])
  {
    assert forall i :: 0 <= i < |subs| - 1 ==> subs[..|subs| - 1][..i] == subs[..i];
  }

  lemma {:induction false} SubscriptionsWithoutFaults(s: State, m: Mode, subs: seq<SubscriptionInput>, now: int)
    requires Dated(subs) && s.planIds <= s.store.plans.Keys && DistinctReferences(subs)
    ensures ImportSubscriptions(s, m, subs, NO_FAULTS, now).counters.failed == s.counters.failed <==>
              AllLinkable(s, subs)
  {
    if subs != [] {
      var init, last := subs[..|subs| - 1], subs[|subs| - 1];
      DistinctInit(subs);
      SubscriptionsWithoutFaults(s, m, init, now);
      LastWithoutFaults(s, m, subs, now);
      assert init + [last] == subs;
      AllLinkableSnoc(s, init, last);
    }
  }

  lemma LastWithoutFaults(s: State, m: Mode, subs: seq<SubscriptionInput>, now: int)
    requires subs != [] && Dated(subs) && s.planIds <= s.store.plans.Keys
    requires subs[|subs| - 1].externalId !in ExternalIds(subs[..|subs| - 1])
    ensures var before := ImportSubscriptions(s, m, subs[..|subs| - 1], NO_FAULTS, now).counters.failed;
            var after := ImportSubscriptions(s, m, subs, NO_FAULTS, now).counters.failed;
            && s.counters.failed <= before <= after
            && (after == before <==> Linkable(s, subs[|subs| - 1]))
  {
    var init := subs[..|subs| - 1];
    SubscriptionsLink(s, m, init, now);
    NextLinks(s, ImportSubscriptions(s, m, init, NO_FAULTS, now), m, init, subs[|subs| - 1], now);
  }

  predicate AllLinkable(s: State, subs: seq<SubscriptionInput>) {
    forall j :: 0 <= j < |subs| ==> Linkable(s, subs[j])
  }

  lemma AllLinkableSnoc(s: State, init: seq<SubscriptionInput>, last: SubscriptionInput)
    ensures AllLinkable(s, init + [last]) <==> AllLinkable(s, init) && Linkable(s, last)
  {
    var all := init + [last];
    assert all[|init|] == last && forall j :: 0 <= j < |init| ==> all[j] == init[j];
  }

  lemma ReferencesAddUp(subs: seq<StoredSubscription>, mid: seq<StoredSubscription>, later: seq<StoredSubscription>,
                        init: seq<SubscriptionInput>, last: SubscriptionInput)
    requires NewReferences(subs, mid, init) && NewReferences(mid, later, [last])
    ensures NewReferences(subs, later, init + [last])
  {
  }

  lemma ValidReferences(file: File)
    requires Valid(file)
    ensures DistinctReferences(file.subscriptions)
  {
    forall i | 0 <= i < |file.subscriptions|
      ensures file.subscriptions[i].externalId !in ExternalIds(file.subscriptions[..i])
    {
      assert SubscriptionFine(file, i);
    }
  }

  /** The subscription is stored, or its plan is listed or stored and, in a dry run, its customer and its plan are
      both stored already. */
  predicate Importable(store: Store, m: Mode, file: File, i: SubscriptionInput) {
    || FindReference(store.subs, i.externalId).Some?
    || (if m.dryRun then Lower(i.email) in store.customers && i.planCode in store.plans
        else i.planCode in Codes(file.plans) || i.planCode in store.plans)
  }

  lemma LinkableIsImportable(store: Store, m: Mode, file: File, s: State, i: SubscriptionInput)
    requires s.store.subs == store.subs && Lower(i.email) in Emails(file.customers)
    requires s.store.plans.Keys == store.plans.Keys + Listed(m, Codes(file.plans))
    requires s.customerIds == Resolved(m, store, Emails(file.customers))
    ensures Linkable(s, i) <==> Importable(store, m, file, i)
  {
  }

  /** When nothing goes wrong underneath, a run of a valid file fails nothing if and only if every subscription is
      importable. */
  lemma RunFailsNothingIff(store: Store, m: Mode, file: File, now: int)
    requires Valid(file) && Dated(file.subscriptions)
    ensures Import(store, m, file, HEALTHY, now).counters.failed == 0 <==>
              forall j :: 0 <= j < |file.subscriptions| ==> Importable(store, m, file, file.subscriptions[j])
  {
    var s2 := BeforeSubscriptions(store, m, file);
    ValidReferences(file);
    SubscriptionsWithoutFaults(s2, m, file.subscriptions, now);
    forall j | 0 <= j < |file.subscriptions|
      ensures Linkable(s2, file.subscriptions[j]) <==> Importable(store, m, file, file.subscriptions[j])
    {
      assert SubscriptionFine(file, j);
      LinkableIsImportable(store, m, file, s2, file.subscriptions[j]);
    }
  }

  lemma BeforeSubscriptions(store: Store, m: Mode, file: File) returns (s2: State)
    ensures s2 == ImportCustomers(ImportPlans(Begin(store), m, file.plans, NO_FAULTS), m, file.customers, NO_FAULTS)
    ensures s2.counters.failed == 0 && s2.store.subs == store.subs && s2.planIds <= s2.store.plans.Keys
    ensures s2.store.plans.Keys == store.plans.Keys + Listed(m, Codes(file.plans))
    ensures s2.customerIds == Resolved(m, store, Emails(file.customers))
  {
    var s1 := ImportPlans(Begin(store), m, file.plans, NO_FAULTS);
    s2 := ImportCustomers(s1, m, file.customers, NO_FAULTS);
    PlansImported(Begin(store), m, file.plans, NO_FAULTS);
    PlansWithoutFaults(Begin(store), m, file.plans);
    CustomersImported(s1, m, file.customers, NO_FAULTS);
    CustomersWithoutFaults(s1, m, file.customers);
  }

  /** So a dry run is not a rehearsal of a first import: for any valid file with a subscription, against an empty
      tenant, it reports failures, although the real run of the same file fails nothing. */
  lemma DryRunMisreportsFirstImport(empty: Store, file: File, update: bool, now: int)
    requires Valid(file) && Dated(file.subscriptions) && file.plans != [] && file.subscriptions != []
    requires empty == Store(map[], map[], [])
    ensures Import(empty, Mode(true, update), file, HEALTHY, now).counters.failed > 0
    ensures Import(empty, Mode(false, update), file, HEALTHY, now).counters.failed == 0
  {
    RunFailsNothingIff(empty, Mode(true, update), file, now);
    RunFailsNothingIff(empty, Mode(false, update), file, now);
    assert !Importable(empty, Mode(true, update), file, file.subscriptions[0]);
    forall j | 0 <= j < |file.subscriptions|
        ensures Importable(empty, Mode(false, update), file, file.subscriptions[j]) {
      assert SubscriptionFine(file, j);
    }
  }

  // ---- Cancel-sync ----

  const CANCEL_SYNC_REASON := "cancel_sync: absent from authoritative import"

  /** Live, of import origin, and not in the file. */
  predicate Missing(s: StoredSubscription, present: set<string>) {
    s.status != "canceled" && s.reference != "" && s.reference !in present
  }

  /** A period-end cancellation, keeping the moment of an earlier one. */
  function Scheduled(s: StoredSubscription, now: int): StoredSubscription {
    s.(cancelAtPeriodEnd := true, canceledAt := if s.canceledAt.None? then Some(now) else s.canceledAt,
       reason := CANCEL_SYNC_REASON, updatedAt := now)
  }

  function CountMissing(subs: seq<StoredSubscription>, present: set<string>, failing: set<string>, wanted: bool): nat {
    if subs == [] then 0
    else
      var s := subs[|subs| - 1];
      CountMissing(subs[..|subs| - 1], present, failing, wanted)
      + (if Missing(s, present) && (s.reference in failing) == wanted then 1 else 0)
  }

  /** One row's mark on the counters. */
  function Tally(c: Counters, s: StoredSubscription, present: set<string>, failing: set<string>): Counters {
    if !Missing(s, present) then c
    else if s.reference in failing then c.(failed := c.failed + 1)
    else c.(canceled := c.canceled + 1)
  }

  function TallyAll(c: Counters, subs: seq<StoredSubscription>, present: set<string>, failing: set<string>): Counters {
    if subs == [] then c
        else Tally(TallyAll(c, subs[..|subs| - 1], present, failing), subs[|subs| - 1], present, failing)
  }

  /** The counters name the missing rows: those scheduled as canceled, those that could not be as failed. */
  function Counted(c: Counters, subs: seq<StoredSubscription>, present: set<string>, failing: set<string>): Counters {
    c.(canceled := c.canceled + CountMissing(subs, present, failing, false),
       failed := c.failed + CountMissing(subs, present, failing, true))
  }

  lemma {:induction false} TallyCountsMissing(c: Counters, subs: seq<StoredSubscription>, present: set<string>,
      failing: set<string>)
    ensures TallyAll(c, subs, present, failing) == Counted(c, subs, present, failing)
  {
    if subs != [] {
      TallyCountsMissing(c, subs[..|subs| - 1], present, failing);
    }
  }

  /** What cancel-sync leaves of one row. */
  function AfterSync(s: StoredSubscription, file: File, dryRun: bool, failing: set<string>,
      now: int): StoredSubscription {
    if file.subscriptions != [] && !dryRun && Missing(s, ExternalIds(file.subscriptions)) && s.reference !in failing
    then Scheduled(s, now) else s
  }

  function SyncAll(subs: seq<StoredSubscription>, file: File, dryRun: bool, failing: set<string>,
      now: int): (r: seq<StoredSubscription>)
    ensures |r| == |subs|
  {
    seq(|subs|, i requires 0 <= i < |subs| => AfterSync(subs[i], file, dryRun, failing, now))
  }

  /** A row apart from when it was last written. */
  function Settled(s: StoredSubscription): StoredSubscription {
    s.(updatedAt := 0)
  }

  /** Cancel-sync is exact: of a file that lists subscriptions, it schedules those of import origin that are neither
      canceled nor listed and whose write goes through, at the end of their period, and no others; a dashboard-created
      one is never touched, whatever fails. */
  lemma CancelSyncIsExact(subs: seq<StoredSubscription>, file: File, failing: set<string>, now: int, k: nat)
    requires k < |subs| && subs[k].updatedAt < now
    ensures var s, r := subs[k], SyncAll(subs, file, false, failing, now)[k];
            && (r != s <==> file.subscriptions != [] && s.reference !in failing && s.status != "canceled"
                            && s.reference != ""
                            && forall i :: 0 <= i < |file.subscriptions| ==>
                              file.subscriptions[i].externalId != s.reference)
            && r.reference == s.reference && r.customer == s.customer && r.plan == s.plan && r.status == s.status
            && r.start == s.start && r.end == s.end
            && (r != s ==> r.cancelAtPeriodEnd && r.reason == CANCEL_SYNC_REASON && r.updatedAt == now
                           && r.canceledAt == Some(if s.canceledAt.Some? then s.canceledAt.value else now))
  {
    forall i | 0 <= i < |file.subscriptions|
        ensures file.subscriptions[i].externalId in ExternalIds(file.subscriptions) {
      assert file.subscriptions[i] in file.subscriptions;
    }
  }

  /** Running it again changes nothing but updated_at. */
  lemma CancelSyncIsIdempotent(subs: seq<StoredSubscription>, file: File, now: int, later: int, k: nat)
    requires k < |subs|
    ensures var once := SyncAll(subs, file, false, {}, now);
            Settled(SyncAll(once, file, false, {}, later)[k]) == Settled(once[k])
  {
  }

  /** It is not undone: a subscription scheduled by one file and listed again by a later one is updated, and still
      cancels at the end of its period. */
  lemma ReappearingStaysScheduled(s: StoredSubscription, now: int, i: SubscriptionInput, later: int)
    requires i.start.Some? && i.end.Some? && i.externalId == s.reference
    ensures UpdatedSubscription(Scheduled(s, now), i, later).cancelAtPeriodEnd
    ensures var updated := UpdatedSubscription(Scheduled(s, now), i, later);
            AfterSync(updated, File([], [], [i]), false, {}, later).cancelAtPeriodEnd
  {
  }

  // ---- The importer ----

  class ImportRun {
    const mode: Mode
    var store: Store
    var counters: Counters
    var planIds: set<string>
    var customerIds: set<string>

    function Snapshot(): State
      reads this
    {
      State(store, counters, planIds, customerIds)
    }

    constructor (m: Mode, initial: Store)
      ensures mode == m && Snapshot() == Begin(initial)
    {
      mode, store, counters, planIds, customerIds := m, initial, Counters(0, 0, 0, 0, 0), {}, {};
    }

    method ImportPlanList(plans: seq<PlanInput>, f: Faults)
      modifies this
      ensures Snapshot() == ImportPlans(old(Snapshot()).(planIds := {}), mode, plans, f)
    {
      planIds := {};
      for i := 0 to |plans|
        invariant Snapshot() == ImportPlans(old(Snapshot()).(planIds := {}), mode, plans[..i], f)
      {
        var p := plans[i];
        assert plans[..i + 1][..i] == plans[..i];
        if p.code in f.lookups {
          counters := counters.(failed := counters.failed + 1);
          continue;
        }
        if p.code in store.plans {
          planIds := planIds + {p.code};
          if !mode.update {
            counters := counters.(skipped := counters.skipped + 1);
            continue;
          }
          if mode.dryRun {
            counters := counters.(updated := counters.updated + 1);
            continue;
          }
          if p.code in f.writes {
            counters := counters.(failed := counters.failed + 1);
            continue;
          }
          store := store.(plans := store.plans[p.code := UpdatedPlan(store.plans[p.code], p)]);
          counters := counters.(updated := counters.updated + 1);
          continue;
        }
        if mode.dryRun {
          counters := counters.(created := counters.created + 1);
          continue;
        }
        if p.code in f.writes {
          counters := counters.(failed := counters.failed + 1);
          continue;
        }
        store := store.(plans := store.plans[p.code := NewPlan(p)]);
        planIds := planIds + {p.code};
        counters := counters.(created := counters.created + 1);
      }
      assert plans[..|plans|] == plans;
    }

    method ImportCustomerList(customers: seq<CustomerInput>, f: Faults)
      modifies this
      ensures Snapshot() == ImportCustomers(old(Snapshot()).(customerIds := {}), mode, customers, f)
    {
      customerIds := {};
      for i := 0 to |customers|
        invariant Snapshot() == ImportCustomers(old(Snapshot()).(customerIds := {}), mode, customers[..i], f)
      {
        var c := customers[i];
        assert customers[..i + 1][..i] == customers[..i];
        var key := Lower(c.email);
        if key in f.lookups {
          counters := counters.(failed := counters.failed + 1);
          continue;
        }
        if key in store.customers {
          customerIds := customerIds + {key};
          if !mode.update {
            counters := counters.(skipped := counters.skipped + 1);
            continue;
          }
          if mode.dryRun {
            counters := counters.(updated := counters.updated + 1);
            continue;
          }
          if key in f.writes {
            counters := counters.(failed := counters.failed + 1);
            continue;
          }
          store := store.(customers := store.customers[key := UpdatedCustomer(store.customers[key], c)]);
          counters := counters.(updated := counters.updated + 1);
          continue;
        }
        if mode.dryRun {
          counters := counters.(created := counters.created + 1);
          continue;
        }
        if key in f.writes {
          counters := counters.(failed := counters.failed + 1);
          continue;
        }
        store := store.(customers := store.customers[key := NewCustomer(c)]);
        customerIds := customerIds + {key};
        counters := counters.(created := counters.created + 1);
      }
      assert customers[..|customers|] == customers;
    }

    method ImportSubscriptionList(subs: seq<SubscriptionInput>, f: Faults, now: int)
      requires Dated(subs)
      modifies this
      ensures Snapshot() == ImportSubscriptions(old(Snapshot()), mode, subs, f, now)
    {
      for i := 0 to |subs|
        invariant Snapshot() == ImportSubscriptions(old(Snapshot()), mode, subs[..i], f, now)
      {
        assert subs[..i + 1][..i] == subs[..i];
        ImportOneSubscription(subs[i], f, now);
      }
      assert subs[..|subs|] == subs;
    }

    method ImportOneSubscription(s: SubscriptionInput, f: Faults, now: int)
      requires s.start.Some? && s.end.Some?
      modifies this
      ensures Snapshot() == ImportSubscription(old(Snapshot()), mode, s, f, now)
    {
      FindReferenceIs(store.subs, s.externalId);
      if s.externalId in f.lookups {
        counters := counters.(failed := counters.failed + 1);
        return;
      }
      var at := FindReference(store.subs, s.externalId);
      if at.Some? {
        if !mode.update {
          counters := counters.(skipped := counters.skipped + 1);
          return;
        }
        if mode.dryRun {
          counters := counters.(updated := counters.updated + 1);
          return;
        }
        if s.externalId in f.writes {
          counters := counters.(failed := counters.failed + 1);
          return;
        }
        store := store.(subs := store.subs[at.value := UpdatedSubscription(store.subs[at.value], s, now)]);
        counters := counters.(updated := counters.updated + 1);
        return;
      }
      if Lower(s.email) !in customerIds || (s.planCode !in planIds && s.planCode !in store.plans) {
        counters := counters.(failed := counters.failed + 1);
        return;
      }
      planIds := planIds + {s.planCode};
      if mode.dryRun {
        counters := counters.(created := counters.created + 1);
        return;
      }
      if s.externalId in f.writes {
        counters := counters.(failed := counters.failed + 1);
        return;
      }
      store := store.(subs := store.subs + [NewSubscription(s, now)]);
      counters := counters.(created := counters.created + 1);
    }

    /** cancelMissingSubscriptions: schedules the missing rows, and counts alike in a dry run. */
    method CancelMissing(file: File, listed: bool, failing: set<string>, now: int)
      modifies this
      ensures store == if listed then old(store).(subs := SyncAll(old(store).subs, file, mode.dryRun, failing, now))
                       else old(store)
      ensures counters == if file.subscriptions == [] then old(counters)
                          else if !listed then old(counters).(failed := old(counters).failed + 1)
                          else Counted(old(counters), old(store).subs, ExternalIds(file.subscriptions),
                                       if mode.dryRun then {} else failing)
    {
      var before := store.subs;
      if |file.subscriptions| == 0 {
        assert SyncAll(before, file, mode.dryRun, failing, now) == before;
        return;
      }
      if !listed {
        counters := counters.(failed := counters.failed + 1);
        return;
      }
      var present := ExternalIds(file.subscriptions);
      ghost var faults := if mode.dryRun then {} else failing;
      for i := 0 to |before|
        invariant |store.subs| == |before| && store == old(store).(subs := store.subs)
        invariant forall j :: 0 <= j < i ==> store.subs[j] == AfterSync(before[j], file, mode.dryRun, failing, now)
        invariant forall j :: i <= j < |before| ==> store.subs[j] == before[j]
        invariant counters == TallyAll(old(counters), before[..i], present, faults)
      {
        assert before[..i + 1][..i] == before[..i];
        CancelIfMissing(i, file, present, failing, now);
      }
      assert before[..|before|] == before;
      assert store.subs == SyncAll(before, file, mode.dryRun, failing, now);
      TallyCountsMissing(old(counters), before, present, faults);
    }

    method CancelIfMissing(i: nat, file: File, present: set<string>, failing: set<string>, now: int)
      requires i < |store.subs| && file.subscriptions != [] && present == ExternalIds(file.subscriptions)
      modifies this
      ensures var after := AfterSync(old(store).subs[i], file, mode.dryRun, failing, now);
              store == old(store).(subs := old(store).subs[i := after])
      ensures counters == Tally(old(counters), old(store).subs[i], present, if mode.dryRun then {} else failing)
    {
      var e := store.subs[i];
      assert store.subs == store.subs[i := e];
      if e.status == "canceled" || e.reference == "" || e.reference in present {
        return;
      }
      if mode.dryRun {
        counters := counters.(canceled := counters.canceled + 1);
        return;
      }
      if e.reference in failing {
        counters := counters.(failed := counters.failed + 1);
        return;
      }
      store := store.(subs := store.subs[i := Scheduled(e, now)]);
      counters := counters.(canceled := counters.canceled + 1);
    }
  }
}
