/**
  The import file and its validation (cmd/import/importfile.go:17-153).
 */
module ImportFile {
  import opened Letters
  import opened Options

  datatype PlanInput = PlanInput(code: string, name: string, amount: int, currency: string, unit: string, count: int)
  datatype CustomerInput = CustomerInput(email: string, name: string, country: string, taxId: string)

  /** Period bounds are absent when the text is not a timestamp. */
  datatype SubscriptionInput = SubscriptionInput(externalId: string, email: string, planCode: string, status: string,
                                                 start: Option<int>, end: Option<int>)

  datatype File = File(plans: seq<PlanInput>, customers: seq<CustomerInput>, subscriptions: seq<SubscriptionInput>)

  const VALID_STATUSES := {"active", "trialing", "paused", "canceled", "past_due", "unpaid"}
  const VALID_INTERVALS := {"day", "week", "month", "year"}

  // ---- What a valid file is ----

  predicate PlanOk(p: PlanInput) {
    p.code != "" && p.name != "" && p.amount >= 0 && |p.currency| == 3 && p.unit in VALID_INTERVALS && p.count >= 1
  }

  predicate CustomerOk(c: CustomerInput) {
    c.email != "" && '@' in c.email && c.name != "" && (c.country == "" || |c.country| == 2)
  }

  function Codes(plans: seq<PlanInput>): set<string> {
    set p | p in plans :: p.code
  }

  function Emails(customers: seq<CustomerInput>): set<string> {
    set c | c in customers :: Lower(c.email)
  }

  function ExternalIds(subs: seq<SubscriptionInput>): set<string> {
    set s | s in subs :: s.externalId
  }

  /** The customer is in the file, and so is the plan, unless the file lists no plans at all. */
  predicate Linked(f: File, s: SubscriptionInput) {
    Lower(s.email) in Emails(f.customers) && s.planCode != "" && (f.plans == [] || s.planCode in Codes(f.plans))
  }

  predicate PeriodOk(s: SubscriptionInput) {
    s.start.Some? && s.end.Some? && s.start.value < s.end.value
  }

  predicate SubscriptionOk(f: File, s: SubscriptionInput) {
    s.externalId != "" && s.status in VALID_STATUSES && PeriodOk(s) && Linked(f, s)
  }

  /** Item i of a section is fine: well formed, and not a repetition of an earlier key. */
  predicate PlanFine(f: File, i: nat)
    requires i < |f.plans|
  {
    PlanOk(f.plans[i]) && f.plans[i].code !in Codes(f.plans[..i])
  }

  predicate CustomerFine(f: File, i: nat)
    requires i < |f.customers|
  {
    CustomerOk(f.customers[i]) && Lower(f.customers[i].email) !in Emails(f.customers[..i])
  }

  predicate SubscriptionFine(f: File, i: nat)
    requires i < |f.subscriptions|
  {
    SubscriptionOk(f, f.subscriptions[i]) && f.subscriptions[i].externalId !in ExternalIds(f.subscriptions[..i])
  }

  predicate Valid(f: File) {
    && (forall i :: 0 <= i < |f.plans| ==> PlanFine(f, i))
    && (forall i :: 0 <= i < |f.customers| ==> CustomerFine(f, i))
    && (forall i :: 0 <= i < |f.subscriptions| ==> SubscriptionFine(f, i))
  }

  // ---- Validate ----

  datatype Section = Plans | Customers | Subscriptions

  /** One complaint, about one item. */
  datatype Problem = Problem(section: Section, index: nat)

  predicate Complains(errs: seq<Problem>, section: Section, i: nat) {
    Problem(section, i) in errs
  }

  function When(bad: bool, p: Problem): seq<Problem> {
    if bad then [p] else []
  }

  /** The complaints about one plan, given the codes seen before it. */
  function PlanProblems(p: PlanInput, seen: set<string>, at: Problem): (found: seq<Problem>)
    ensures forall e :: e in found ==> e == at
    ensures found == [] <==> PlanOk(p) && p.code !in seen
  {
    When(p.code == "", at) + When(p.code in seen, at) + When(p.name == "", at) + When(p.amount < 0, at)
    + When(|p.currency| != 3, at) + When(p.unit !in VALID_INTERVALS, at) + When(p.count < 1, at)
  }

  function CustomerProblems(c: CustomerInput, seen: set<string>, at: Problem): (found: seq<Problem>)
    ensures forall e :: e in found ==> e == at
    ensures found == [] <==> CustomerOk(c) && Lower(c.email) !in seen
  {
    When(c.email == "" || '@' !in c.email, at) + When(Lower(c.email) in seen, at) + When(c.name == "", at)
    + When(c.country != "" && |c.country| != 2, at)
  }

  function LinkProblems(f: File, s: SubscriptionInput, at: Problem): (found: seq<Problem>)
    ensures forall e :: e in found ==> e == at
    ensures found == [] <==> Linked(f, s)
  {
    When(Lower(s.email) !in Emails(f.customers), at)
    + When(s.planCode != "" && |f.plans| > 0 && s.planCode !in Codes(f.plans), at) + When(s.planCode == "", at)
  }

  function FieldProblems(s: SubscriptionInput, seen: set<string>, at: Problem): (found: seq<Problem>)
    ensures forall e :: e in found ==> e == at
    ensures found == [] <==> s.externalId != "" && s.externalId !in seen && s.status in VALID_STATUSES && PeriodOk(s)
  {
    When(s.externalId == "", at) + When(s.externalId in seen, at)
    + When(s.status !in VALID_STATUSES, at) + When(s.start.None?, at) + When(s.end.None?, at)
    + When(s.start.Some? && s.end.Some? && s.end.value <= s.start.value, at)
  }

  function SubscriptionProblems(f: File, s: SubscriptionInput, seen: set<string>, at: Problem): (found: seq<Problem>)
    ensures forall e :: e in found ==> e == at
    ensures found == [] <==> SubscriptionOk(f, s) && s.externalId !in seen
  {
    FieldProblems(s, seen, at) + LinkProblems(f, s, at)
  }

  /** Appending one item's complaints names that item exactly when there are any, and no other. */
  lemma NoticesItem(errs: seq<Problem>, found: seq<Problem>, at: Problem)
    requires forall e :: e in found ==> e == at
    requires forall e :: e in errs ==> e.section == at.section && e.index < at.index
    ensures at in errs + found <==> found != []
    ensures forall e :: e in errs + found ==> e.section == at.section && e.index <= at.index
    ensures forall e: Problem :: e != at ==> (e in errs + found <==> e in errs)
  {
    InConcat(errs, found);
    if found != [] {
      assert found[0] == at && found[0] in found;
    } else {
      assert at !in errs;
    }
  }

  lemma InConcat(xs: seq<Problem>, ys: seq<Problem>)
    ensures forall e :: e in xs + ys <==> e in xs || e in ys
  {
    forall e ensures e in xs + ys <==> e in xs || e in ys {
      if e in xs {
        var i :| 0 <= i < |xs| && xs[i] == e;
        assert (xs + ys)[i] == e;
      } else if e in ys {
        var i :| 0 <= i < |ys| && ys[i] == e;
        assert (xs + ys)[|xs| + i] == e;
      }
    }
  }

  /** The complaints so far are about the first `n` items of the section, and name exactly the ones that are not
      fine. */
  ghost predicate PlansNoted(f: File, errs: seq<Problem>, n: nat) {
    && n <= |f.plans|
    && (forall i :: 0 <= i < n ==> (Complains(errs, Plans, i) <==> !PlanFine(f, i)))
    && (forall e :: e in errs ==> e.section == Plans && e.index < n)
  }

  ghost predicate CustomersNoted(f: File, errs: seq<Problem>, n: nat) {
    && n <= |f.customers|
    && (forall i :: 0 <= i < n ==> (Complains(errs, Customers, i) <==> !CustomerFine(f, i)))
    && (forall e :: e in errs ==> e.section == Customers && e.index < n)
  }

  ghost predicate SubscriptionsNoted(f: File, errs: seq<Problem>, n: nat) {
    && n <= |f.subscriptions|
    && (forall i :: 0 <= i < n ==> (Complains(errs, Subscriptions, i) <==> !SubscriptionFine(f, i)))
    && (forall e :: e in errs ==> e.section == Subscriptions && e.index < n)
  }

  lemma NotePlan(f: File, errs: seq<Problem>, found: seq<Problem>, n: nat)
    requires PlansNoted(f, errs, n) && n < |f.plans| && (found == [] <==> PlanFine(f, n))
    requires forall e :: e in found ==> e == Problem(Plans, n)
    ensures PlansNoted(f, errs + found, n + 1)
  {
    NoticesItem(errs, found, Problem(Plans, n));
  }

  lemma NoteCustomer(f: File, errs: seq<Problem>, found: seq<Problem>, n: nat)
    requires CustomersNoted(f, errs, n) && n < |f.customers| && (found == [] <==> CustomerFine(f, n))
    requires forall e :: e in found ==> e == Problem(Customers, n)
    ensures CustomersNoted(f, errs + found, n + 1)
  {
    NoticesItem(errs, found, Problem(Customers, n));
  }

  lemma NoteSubscription(f: File, errs: seq<Problem>, found: seq<Problem>, n: nat)
    requires SubscriptionsNoted(f, errs, n) && n < |f.subscriptions| && (found == [] <==> SubscriptionFine(f, n))
    requires forall e :: e in found ==> e == Problem(Subscriptions, n)
    ensures SubscriptionsNoted(f, errs + found, n + 1)
  {
    NoticesItem(errs, found, Problem(Subscriptions, n));
  }

  lemma CodesSnoc(plans: seq<PlanInput>, i: nat)
    requires i < |plans|
    ensures Codes(plans[..i + 1]) == Codes(plans[..i]) + {plans[i].code}
  {
    assert plans[..i + 1] == plans[..i] + [plans[i]];
  }

  lemma EmailsSnoc(customers: seq<CustomerInput>, i: nat)
    requires i < |customers|
    ensures Emails(customers[..i + 1]) == Emails(customers[..i]) + {Lower(customers[i].email)}
  {
    assert customers[..i + 1] == customers[..i] + [customers[i]];
  }

  lemma ExternalIdsSnoc(subs: seq<SubscriptionInput>, i: nat)
    requires i < |subs|
    ensures ExternalIds(subs[..i + 1]) == ExternalIds(subs[..i]) + {subs[i].externalId}
  {
    assert subs[..i + 1] == subs[..i] + [subs[i]];
  }

  method ValidatePlans(f: File) returns (errs: seq<Problem>)
    ensures PlansNoted(f, errs, |f.plans|)
  {
    errs := [];
    var planCodes: set<string> := {};
    for i := 0 to |f.plans|
      invariant PlansNoted(f, errs, i) && planCodes == Codes(f.plans[..i])
    {
      CodesSnoc(f.plans, i);
      var found := PlanProblems(f.plans[i], planCodes, Problem(Plans, i));
      NotePlan(f, errs, found, i);
      planCodes := planCodes + {f.plans[i].code};
      errs := errs + found;
    }
  }

  method ValidateCustomers(f: File) returns (errs: seq<Problem>)
    ensures CustomersNoted(f, errs, |f.customers|)
  {
    errs := [];
    var emails: set<string> := {};
    for i := 0 to |f.customers|
      invariant CustomersNoted(f, errs, i) && emails == Emails(f.customers[..i])
    {
      EmailsSnoc(f.customers, i);
      var found := CustomerProblems(f.customers[i], emails, Problem(Customers, i));
      NoteCustomer(f, errs, found, i);
      emails := emails + {Lower(f.customers[i].email)};
      errs := errs + found;
    }
  }

  method ValidateSubscriptions(f: File) returns (errs: seq<Problem>)
    ensures SubscriptionsNoted(f, errs, |f.subscriptions|)
  {
    errs := [];
    var extIds: set<string> := {};
    for i := 0 to |f.subscriptions|
      invariant SubscriptionsNoted(f, errs, i) && extIds == ExternalIds(f.subscriptions[..i])
    {
      ExternalIdsSnoc(f.subscriptions, i);
      var found := SubscriptionProblems(f, f.subscriptions[i], extIds, Problem(Subscriptions, i));
      NoteSubscription(f, errs, found, i);
      extIds := extIds + {f.subscriptions[i].externalId};
      errs := errs + found;
    }
  }

  /** The three lists together name what each of them names. */
  lemma NotedTogether(f: File, plans: seq<Problem>, customers: seq<Problem>, subs: seq<Problem>)
    requires PlansNoted(f, plans, |f.plans|) && CustomersNoted(f, customers, |f.customers|)
    requires SubscriptionsNoted(f, subs, |f.subscriptions|)
    ensures var errs := plans + customers + subs;
            && (forall i :: 0 <= i < |f.plans| ==> (Complains(errs, Plans, i) <==> !PlanFine(f, i)))
            && (forall i :: 0 <= i < |f.customers| ==> (Complains(errs, Customers, i) <==> !CustomerFine(f, i)))
            && (forall i :: 0 <= i < |f.subscriptions| ==>
                (Complains(errs, Subscriptions, i) <==> !SubscriptionFine(f, i)))
            && (forall e :: e in errs ==> e in plans || e in customers || e in subs)
  {
    InConcat(plans, customers);
    InConcat(plans + customers, subs);
  }

  /** A complaint is about an item that is not fine. */
  lemma SomeNotFine(f: File, plans: seq<Problem>, customers: seq<Problem>, subs: seq<Problem>, e: Problem)
    requires PlansNoted(f, plans, |f.plans|) && CustomersNoted(f, customers, |f.customers|)
    requires SubscriptionsNoted(f, subs, |f.subscriptions|)
    requires e in plans || e in customers || e in subs
    ensures !Valid(f)
  {
    if e in plans {
      assert Complains(plans, Plans, e.index);
    } else if e in customers {
      assert Complains(customers, Customers, e.index);
    } else {
      assert Complains(subs, Subscriptions, e.index);
    }
  }

  /** Validate: every item with a problem is named, no other is, and so the list is empty exactly for a valid file. */
  method Validate(f: File) returns (errs: seq<Problem>)
    ensures errs == [] <==> Valid(f)
    ensures forall i :: 0 <= i < |f.plans| ==> (Complains(errs, Plans, i) <==> !PlanFine(f, i))
    ensures forall i :: 0 <= i < |f.customers| ==> (Complains(errs, Customers, i) <==> !CustomerFine(f, i))
    ensures forall i :: 0 <= i < |f.subscriptions| ==> (Complains(errs, Subscriptions, i) <==> !SubscriptionFine(f, i))
  {
    var plans := ValidatePlans(f);
    var customers := ValidateCustomers(f);
    var subs := ValidateSubscriptions(f);
    errs := plans + customers + subs;
    NotedTogether(f, plans, customers, subs);
    if errs != [] {
      assert errs[0] in errs;
      SomeNotFine(f, plans, customers, subs, errs[0]);
    }
  }
}
