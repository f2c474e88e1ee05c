/**
  What the importer's counters mean: each item is counted once, what is created
  is what the tables grow by, and what a dry run says of the real one
  (cmd/import/main.go:120-200, 222-443).
 */
module ImportCounters {
  import opened ImportFile
  import opened Importer
  import opened ImportResults
  import opened Letters
  import opened Options

  function CountAll(c: Counters): nat {
    c.created + c.updated + c.skipped + c.failed
  }

  function Items(file: File): nat {
    |file.plans| + |file.customers| + |file.subscriptions|
  }

  /** The rows of the three tables. */
  function RowsOf(store: Store): nat {
    |store.plans| + |store.customers| + |store.subs|
  }

  /** One item, whatever fails: one counter goes up by one; a failed or skipped one, and any in a dry run, writes
      nothing; what is created adds a row, and nothing else does. */
  predicate OneItem(s: State, t: State, m: Mode) {
    && CountAll(t.counters) == CountAll(s.counters) + 1
    && t.counters.created >= s.counters.created && t.counters.failed >= s.counters.failed
    && t.counters.canceled == s.counters.canceled
    && (m.update ==> t.counters.skipped == s.counters.skipped)
    && (!m.update ==> t.counters.updated == s.counters.updated)
    && (m.dryRun || t.counters.failed > s.counters.failed || t.counters.skipped > s.counters.skipped ==>
          t.store == s.store)
    && (!m.dryRun ==> RowsOf(t.store) == RowsOf(s.store) + t.counters.created - s.counters.created)
  }

  lemma PlanIsOneItem(s: State, m: Mode, p: PlanInput, f: Faults)
    ensures OneItem(s, ImportPlan(s, m, p, f), m)
    ensures var t, known := ImportPlan(s, m, p, f), p.code in s.store.plans;
            t.counters.failed > s.counters.failed <==>
              p.code in f.lookups || (p.code in f.writes && !m.dryRun && (known ==> m.update))
  {
  }

  lemma CustomerIsOneItem(s: State, m: Mode, c: CustomerInput, f: Faults)
    ensures OneItem(s, ImportCustomer(s, m, c, f), m)
    ensures var t, known := ImportCustomer(s, m, c, f), Lower(c.email) in s.store.customers;
            t.counters.failed > s.counters.failed <==>
              Lower(c.email) in f.lookups || (Lower(c.email) in f.writes && !m.dryRun && (known ==> m.update))
  {
  }

  /** A new subscription also fails without its customer or its plan. */
  lemma SubscriptionIsOneItem(s: State, m: Mode, i: SubscriptionInput, f: Faults, now: int)
    requires i.start.Some? && i.end.Some?
    ensures OneItem(s, ImportSubscription(s, m, i, f, now), m)
    ensures var t, known := ImportSubscription(s, m, i, f, now), Known(s.store.subs, i.externalId);
            t.counters.failed > s.counters.failed <==>
              || i.externalId in f.lookups
              || (i.externalId in f.writes && !m.dryRun && (known ==> m.update))
              || (!known && (Lower(i.email) !in s.customerIds
                             || (i.planCode !in s.planIds && i.planCode !in s.store.plans)))
  {
    FindsFirst(s.store.subs, i.externalId);
    FindReferenceIs(s.store.subs, i.externalId);
  }

  /** n items counted: whoever updates skips none, and whoever does not updates none. */
  predicate Tallied(c: Counters, d: Counters, update: bool, n: nat) {
    && CountAll(d) == CountAll(c) + n
    && d.created >= c.created && d.canceled == c.canceled
    && (update ==> d.skipped == c.skipped)
    && (!update ==> d.updated == c.updated)
  }

  /** The tables grow by what is created; in a dry run they stay. */
  predicate Grows(s: State, t: State, m: Mode) {
    && (m.dryRun ==> t.store == s.store)
    && (!m.dryRun ==> RowsOf(t.store) - RowsOf(s.store) == t.counters.created - s.counters.created)
  }

  lemma {:induction false} PlanItems(s: State, m: Mode, plans: seq<PlanInput>, f: Faults)
    ensures Tallied(s.counters, ImportPlans(s, m, plans, f).counters, m.update, |plans|)
    ensures Grows(s, ImportPlans(s, m, plans, f), m)
  {
    if plans != [] {
      PlanItems(s, m, plans[..|plans| - 1], f);
      PlanIsOneItem(ImportPlans(s, m, plans[..|plans| - 1], f), m, plans[|plans| - 1], f);
    }
  }

  lemma {:induction false} CustomerItems(s: State, m: Mode, customers: seq<CustomerInput>, f: Faults)
    ensures Tallied(s.counters, ImportCustomers(s, m, customers, f).counters, m.update, |customers|)
    ensures Grows(s, ImportCustomers(s, m, customers, f), m)
  {
    if customers != [] {
      CustomerItems(s, m, customers[..|customers| - 1], f);
      CustomerIsOneItem(ImportCustomers(s, m, customers[..|customers| - 1], f), m, customers[|customers| - 1], f);
    }
  }

  lemma {:induction false} SubscriptionItems(s: State, m: Mode, subs: seq<SubscriptionInput>, f: Faults, now: int)
    requires Dated(subs)
    ensures Tallied(s.counters, ImportSubscriptions(s, m, subs, f, now).counters, m.update, |subs|)
    ensures Grows(s, ImportSubscriptions(s, m, subs, f, now), m)
  {
    if subs != [] {
      var init := subs[..|subs| - 1];
      SubscriptionItems(s, m, init, f, now);
      SubscriptionIsOneItem(ImportSubscriptions(s, m, init, f, now), m, subs[|subs| - 1], f, now);
    }
  }

  lemma RunTallies(store: Store, m: Mode, file: File, f: RunFaults, now: int)
    requires Dated(file.subscriptions)
    ensures Tallied(Counters(0, 0, 0, 0, 0), Import(store, m, file, f, now).counters, m.update, Items(file))
  {
    var s1 := ImportPlans(Begin(store), m, file.plans, f.plans);
    var s2 := ImportCustomers(s1, m, file.customers, f.customers);
    var t := ImportSubscriptions(s2, m, file.subscriptions, f.subs, now);
    PlanItems(Begin(store), m, file.plans, f.plans);
    CustomerItems(s1, m, file.customers, f.customers);
    SubscriptionItems(s2, m, file.subscriptions, f.subs, now);
    TallyAddsUp(Begin(store).counters, s1.counters, s2.counters, m.update, |file.plans|, |file.customers|);
    TallyAddsUp(Begin(store).counters, s2.counters, t.counters, m.update, |file.plans| + |file.customers|,
                |file.subscriptions|);
  }

  lemma RunGrows(store: Store, m: Mode, file: File, f: RunFaults, now: int)
    requires Dated(file.subscriptions)
    ensures m.dryRun ==> Import(store, m, file, f, now).store == store
    ensures var t := Import(store, m, file, f, now);
            !m.dryRun ==> RowsOf(t.store) - RowsOf(store) == t.counters.created
  {
    var s1 := ImportPlans(Begin(store), m, file.plans, f.plans);
    var s2 := ImportCustomers(s1, m, file.customers, f.customers);
    PlanItems(Begin(store), m, file.plans, f.plans);
    CustomerItems(s1, m, file.customers, f.customers);
    SubscriptionItems(s2, m, file.subscriptions, f.subs, now);
  }

  lemma TallyAddsUp(c: Counters, d: Counters, e: Counters, update: bool, n: nat, k: nat)
    requires Tallied(c, d, update, n) && Tallied(d, e, update, k)
    ensures Tallied(c, e, update, n + k)
  {
  }

  /** Over every run, dry or real and whatever fails: each item of the file is counted exactly once, the tables grow
      by exactly what is counted as created, and a dry run writes nothing. */
  lemma EachItemCountsOnce(store: Store, m: Mode, file: File, f: RunFaults, now: int)
    requires Dated(file.subscriptions)
    ensures var t := Import(store, m, file, f, now);
            && CountAll(t.counters) == Items(file) && t.counters.canceled == 0
            && (m.update ==> t.counters.skipped == 0) && (!m.update ==> t.counters.updated == 0)
            && (m.dryRun ==> t.store == store)
            && (!m.dryRun ==> RowsOf(t.store) - RowsOf(store) == t.counters.created)
  {
    RunTallies(store, m, file, f, now);
    RunGrows(store, m, file, f, now);
    TalliedFromZero(Import(store, m, file, f, now).counters, m.update, Items(file));
  }

  lemma TalliedFromZero(d: Counters, update: bool, n: nat)
    requires Tallied(Counters(0, 0, 0, 0, 0), d, update, n)
    ensures CountAll(d) == n && d.canceled == 0
    ensures update ==> d.skipped == 0
    ensures !update ==> d.updated == 0
  {
  }

  // ---- What a dry run foresees ----

  function KnownPlans(plans: seq<PlanInput>, stored: set<string>): nat {
    if plans == [] then 0
    else KnownPlans(plans[..|plans| - 1], stored) + (if plans[|plans| - 1].code in stored then 1 else 0)
  }

  function KnownCustomers(customers: seq<CustomerInput>, stored: set<string>): nat {
    if customers == [] then 0
    else KnownCustomers(customers[..|customers| - 1], stored)
             + (if Lower(customers[|customers| - 1].email) in stored then 1 else 0)
  }

  function KnownSubscriptions(subs: seq<SubscriptionInput>, stored: seq<StoredSubscription>): nat {
    if subs == [] then 0
    else KnownSubscriptions(subs[..|subs| - 1], stored)
             + (if FindReference(stored, subs[|subs| - 1].externalId).Some? then 1 else 0)
  }

  /** `known` items found stored, the others new: updates or skips are those found. */
  predicate FoundAre(s: State, t: State, m: Mode, known: nat) {
    && t.counters.updated == s.counters.updated + (if m.update then known else 0)
    && t.counters.skipped == s.counters.skipped + (if m.update then 0 else known)
  }

  lemma {:induction false} PlansFound(s: State, m: Mode, plans: seq<PlanInput>)
    requires s.planIds <= s.store.plans.Keys && DistinctPlans(plans)
    ensures FoundAre(s, ImportPlans(s, m, plans, NO_FAULTS), m, KnownPlans(plans, s.store.plans.Keys))
  {
    if plans != [] {
      var init := plans[..|plans| - 1];
      assert forall i :: 0 <= i < |init| ==> plans[..i] == init[..i];
      PlansFound(s, m, init);
      PlansWithoutFaults(s, m, init);
    }
  }

  lemma {:induction false} CustomersFound(s: State, m: Mode, customers: seq<CustomerInput>)
    requires DistinctCustomers(customers)
    ensures FoundAre(s, ImportCustomers(s, m, customers, NO_FAULTS), m,
                     KnownCustomers(customers, s.store.customers.Keys))
  {
    if customers != [] {
      var init := customers[..|customers| - 1];
      assert forall i :: 0 <= i < |init| ==> customers[..i] == init[..i];
      CustomersFound(s, m, init);
      CustomersWithoutFaults(s, m, init);
    }
  }

  /** The subscriptions that cannot be linked. */
  function Unlinked(s: State, subs: seq<SubscriptionInput>): nat {
    if subs == [] then 0
    else Unlinked(s, subs[..|subs| - 1]) + (if Linkable(s, subs[|subs| - 1]) then 0 else 1)
  }

  lemma {:induction false} SubscriptionsFound(s: State, m: Mode, subs: seq<SubscriptionInput>, now: int)
    requires Dated(subs) && s.planIds <= s.store.plans.Keys && DistinctReferences(subs)
    ensures var t := ImportSubscriptions(s, m, subs, NO_FAULTS, now);
            && FoundAre(s, t, m, KnownSubscriptions(subs, s.store.subs))
            && t.counters.failed == s.counters.failed + Unlinked(s, subs)
  {
    if subs != [] {
      var init, last := subs[..|subs| - 1], subs[|subs| - 1];
      DistinctInit(subs);
      SubscriptionsFound(s, m, init, now);
      SubscriptionsLink(s, m, init, now);
      var before := ImportSubscriptions(s, m, init, NO_FAULTS, now);
      OneFound(s, before, m, init, last, now);
    }
  }

  lemma OneFound(s: State, before: State, m: Mode, init: seq<SubscriptionInput>, i: SubscriptionInput, now: int)
    requires i.start.Some? && i.end.Some? && before.planIds <= before.store.plans.Keys
    requires NewReferences(s.store.subs, before.store.subs, init) && i.externalId !in ExternalIds(init)
    requires before.customerIds == s.customerIds && before.store.plans == s.store.plans
    ensures var t := ImportSubscription(before, m, i, NO_FAULTS, now);
            && FoundAre(before, t, m, if FindReference(s.store.subs, i.externalId).Some? then 1 else 0)
            && t.counters.failed == before.counters.failed + (if Linkable(s, i) then 0 else 1)
  {
    FindReferenceIs(s.store.subs, i.externalId);
    FindReferenceIs(before.store.subs, i.externalId);
    LinkableStays(s, before, init, i);
    NextLinks(s, before, m, init, i, now);
    SubscriptionIsOneItem(before, m, i, NO_FAULTS, now);
  }

  lemma {:induction false} LessUnlinked(s: State, t: State, subs: seq<SubscriptionInput>)
    requires forall i :: i in subs && Linkable(s, i) ==> Linkable(t, i)
    ensures Unlinked(t, subs) <= Unlinked(s, subs)
  {
    if subs != [] {
      LessUnlinked(s, t, subs[..|subs| - 1]);
    }
  }

  /** What a dry run of a valid file says of the real run, when nothing goes wrong underneath: the same updates and the
      same skips; and each failure it reports too much is a creation it reports too little. */
  lemma DryRunForesees(store: Store, update: bool, file: File, now: int)
    requires Valid(file) && Dated(file.subscriptions)
    ensures var dry := Import(store, Mode(true, update), file, HEALTHY, now).counters;
            var actual := Import(store, Mode(false, update), file, HEALTHY, now).counters;
            && dry.updated == actual.updated && dry.skipped == actual.skipped
            && actual.failed <= dry.failed && actual.created - dry.created == dry.failed - actual.failed
  {
    var dry, actual := Mode(true, update), Mode(false, update);
    ValidKeys(file);
    FoundInRun(store, dry, file, now);
    FoundInRun(store, actual, file, now);
    EachItemCountsOnce(store, dry, file, HEALTHY, now);
    EachItemCountsOnce(store, actual, file, HEALTHY, now);
    var s := BeforeSubscriptions(store, dry, file);
    var t := BeforeSubscriptions(store, actual, file);
    LessUnlinked(s, t, file.subscriptions);
  }

  lemma FoundInRun(store: Store, m: Mode, file: File, now: int)
    requires Valid(file) && Dated(file.subscriptions)
    requires DistinctPlans(file.plans) && DistinctCustomers(file.customers) && DistinctReferences(file.subscriptions)
    ensures var s2 := ImportCustomers(ImportPlans(Begin(store), m, file.plans, NO_FAULTS), m, file.customers,
                                      NO_FAULTS);
            var known := KnownPlans(file.plans, store.plans.Keys)
                           + KnownCustomers(file.customers, store.customers.Keys)
                           + KnownSubscriptions(file.subscriptions, store.subs);
            && FoundAre(Begin(store), Import(store, m, file, HEALTHY, now), m, known)
            && Import(store, m, file, HEALTHY, now).counters.failed == Unlinked(s2, file.subscriptions)
  {
    var s1 := ImportPlans(Begin(store), m, file.plans, NO_FAULTS);
    PlansFound(Begin(store), m, file.plans);
    PlansImported(Begin(store), m, file.plans, NO_FAULTS);
    CustomersFound(s1, m, file.customers);
    var s2 := BeforeSubscriptions(store, m, file);
    SubscriptionsFound(s2, m, file.subscriptions, now);
  }
}
