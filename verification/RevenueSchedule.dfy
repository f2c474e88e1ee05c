/**
  Revenue-recognition schedules: a list of dated events, earliest first, that
  release an invoice's deferred revenue month by month
  (internal/service/revrec.go, internal/adapter/db/revrec_repository.go).
 */
module RevenueSchedule {

  datatype EventStatus = Pending | Processing | Recognized | Failed | Canceled
  datatype Event = Event(amount: nat, status: EventStatus)

  /** The amount held by the events in one status. */
  function Held(es: seq<Event>, st: EventStatus): nat {
    if es == [] then 0
    else Held(es[..|es| - 1], st) + (if es[|es| - 1].status == st then es[|es| - 1].amount else 0)
  }

  lemma HeldSnoc(init: seq<Event>, e: Event, st: EventStatus)
    ensures Held(init + [e], st) == Held(init, st) + (if e.status == st then e.amount else 0)
  {
  }

  lemma {:induction false} HeldConcat(xs: seq<Event>, ys: seq<Event>, st: EventStatus)
    ensures Held(xs + ys, st) == Held(xs, st) + Held(ys, st)
  {
    if ys == [] {
      assert xs + ys == xs;
    } else {
      assert (xs + ys)[..|xs + ys| - 1] == xs + ys[..|ys| - 1];
      HeldConcat(xs, ys[..|ys| - 1], st);
    }
  }

  // ---- Building a schedule ----

  /** Equal monthly parts; the last month takes what the division leaves over. */
  function Allocation(total: nat, months: nat): seq<Event>
    requires months > 0
  {
    seq(months, (i: nat) =>
      Event(if i == months - 1 then total / months + total % months else total / months, Pending))
  }

  lemma {:induction false} HeldConstant(es: seq<Event>, amount: nat, st: EventStatus)
    requires forall k :: 0 <= k < |es| ==> es[k] == Event(amount, st)
    ensures Held(es, st) == |es| * amount
    ensures forall other :: other != st ==> Held(es, other) == 0
  {
    if es != [] {
      HeldConstant(es[..|es| - 1], amount, st);
    }
  }

  /** An allocation schedules exactly the total, all of it pending. */
  lemma AllocationConserves(total: nat, months: nat)
    requires months > 0
    ensures |Allocation(total, months)| == months
    ensures Held(Allocation(total, months), Pending) == total
    ensures forall st :: st != Pending ==> Held(Allocation(total, months), st) == 0
  {
    var es := Allocation(total, months);
    HeldConstant(es[..months - 1], total / months, Pending);
    assert total == (months - 1) * (total / months) + total / months + total % months;
  }

  /** Even monthly parts: every event but the last holds `a`, the largest amount that fits `months` times into the
      total, and the last what is left; all are pending. */
  predicate Even(es: seq<Event>, total: nat, months: nat, a: nat) {
    && |es| == months > 0 && a * months <= total < (a + 1) * months
    && (forall k :: 0 <= k < months - 1 ==> es[k] == Event(a, Pending))
    && es[months - 1].status == Pending && es[months - 1].amount == total - (months - 1) * a
  }

  lemma AllocationIsEven(total: nat, months: nat)
    requires months > 0
    ensures Even(Allocation(total, months), total, months, total / months)
  {
    var a := total / months;
    assert total == a * months + total % months;
    assert a * months == (months - 1) * a + a && (a + 1) * months == a * months + months;
  }

  /** So after `k` months, short of the last, `k` equal parts are released. */
  lemma {:induction false} ReleasedAfter(es: seq<Event>, total: nat, months: nat, a: nat, k: nat)
    requires Even(es, total, months, a) && k < months
    ensures Held(es[..k], Pending) == k * a
  {
    if k > 0 {
      ReleasedAfter(es, total, months, a, k - 1);
      assert es[..k] == es[..k - 1] + [es[k - 1]];
    }
  }

  /** CalculateMonthlyAllocation: the source's month loop, with the remainder added in the last round. */
  method CalculateMonthlyAllocation(total: nat, months: nat) returns (events: seq<Event>)
    ensures events == Allocation(total, if months < 1 then 1 else months)
    ensures var n := if months < 1 then 1 else months; Even(events, total, n, total / n)
    ensures Held(events, Pending) == total
  {
    var n := if months < 1 then 1 else months;
    var amountPerMonth, remainder := total / n, total % n;
    events := [];
    for i := 0 to n
      invariant |events| == i
      invariant forall j :: 0 <= j < i ==> events[j] == Allocation(total, n)[j]
    {
      var amount := amountPerMonth;
      if i == n - 1 {
        amount := amount + remainder;
      }
      events := events + [Event(amount, Pending)];
    }
    AllocationConserves(total, n);
    AllocationIsEven(total, n);
    assert events == Allocation(total, n);
  }

  /** seedRevSchedule (cmd/demo_seed/main.go:937-943) gives the last period `total - per * (months - 1)`:
      the same schedule, written differently. */
  method SeedAllocation(total: nat, months: nat) returns (events: seq<Event>)
    requires months > 0
    ensures events == Allocation(total, months)
    ensures Even(events, total, months, total / months)
  {
    var per := total / months;
    LastPart(total, months);
    events := [];
    for i := 0 to months
      invariant |events| == i
      invariant forall j :: 0 <= j < i ==> events[j] == Allocation(total, months)[j]
    {
      var amt := if i == months - 1 then total - per * (months - 1) else per;
      events := events + [Event(amt, Pending)];
    }
    assert events == Allocation(total, months);
    AllocationIsEven(total, months);
  }

  lemma LastPart(total: nat, months: nat)
    requires months > 0
    ensures total - total / months * (months - 1) == total / months + total % months
  {
    var per := total / months;
    assert per * (months - 1) == per * months - per;
  }

  // ---- Moving one event on ----

  function SetStatus(es: seq<Event>, k: nat, st: EventStatus): seq<Event>
    requires k < |es|
  {
    es[k := es[k].(status := st)]
  }

  lemma {:induction false} HeldAfterSet(es: seq<Event>, k: nat, to: EventStatus, st: EventStatus)
    requires k < |es|
    ensures Held(SetStatus(es, k, to), st)
         == Held(es, st) - (if es[k].status == st then es[k].amount else 0) + (if to == st then es[k].amount else 0)
  {
    var n := |es| - 1;
    var init, last := es[..n], es[n];
    if k == n {
      assert SetStatus(es, k, to) == init + [last.(status := to)];
      HeldSnoc(init, last.(status := to), st);
    } else {
      assert SetStatus(es, k, to) == SetStatus(init, k, to) + [last];
      HeldAfterSet(init, k, to, st);
      HeldSnoc(SetStatus(init, k, to), last, st);
    }
  }

  // ---- Taking deferred revenue back out ----

  /** What taking `amount` out of one event leaves: the event, and what is still to be taken. */
  function TakeFrom(e: Event, amount: nat): (Event, nat) {
    if e.status != Pending then (e, amount)
    else if amount >= e.amount then (e.(status := Canceled), amount - e.amount)
    else (e.(amount := e.amount - amount), 0)
  }

  /** Take `amount` out of the pending events, latest first: void whole events, split the boundary one. */
  function UnwindTail(es: seq<Event>, amount: nat): (r: seq<Event>)
    ensures |r| == |es|
  {
    if es == [] || amount == 0 then es
    else
      var (e, left) := TakeFrom(es[|es| - 1], amount);
      UnwindTail(es[..|es| - 1], left) + [e]
  }

  lemma UnwindTailSnoc(init: seq<Event>, last: Event, amount: nat)
    requires amount > 0
    ensures UnwindTail(init + [last], amount) == UnwindTail(init, TakeFrom(last, amount).1) + [TakeFrom(last, amount).0]
  {
  }

  /** Exactly `amount` leaves the pending events, and what is claimed, recognized or failed keeps its total. */
  lemma {:induction false} UnwindTailConserves(es: seq<Event>, amount: nat, st: EventStatus)
    requires amount <= Held(es, Pending) && st != Canceled
    ensures Held(UnwindTail(es, amount), st) == Held(es, st) - (if st == Pending then amount else 0)
  {
    if es != [] && amount > 0 {
      var init, last := es[..|es| - 1], es[|es| - 1];
      var (e, left) := TakeFrom(last, amount);
      UnwindTailConserves(init, left, st);
      HeldSnoc(UnwindTail(init, left), e, st);
    }
  }

  /** Only pending events change, and they change to pending or canceled. */
  lemma {:induction false} UnwindTailTouchesPending(es: seq<Event>, amount: nat, k: nat)
    requires k < |es|
    ensures es[k].status != Pending ==> UnwindTail(es, amount)[k] == es[k]
    ensures es[k].status == Pending ==> UnwindTail(es, amount)[k].status in {Pending, Canceled}
  {
    var init, last := es[..|es| - 1], es[|es| - 1];
    if amount > 0 && k < |init| {
      UnwindTailTouchesPending(init, TakeFrom(last, amount).1, k);
    }
  }

  lemma HeldFromSnoc(init: seq<Event>, last: Event, k: nat)
    requires k <= |init|
    ensures Held((init + [last])[k..], Pending)
        == Held(init[k..], Pending) + (if last.status == Pending then last.amount else 0)
  {
    assert (init + [last])[k..] == init[k..] + [last];
    HeldSnoc(init[k..], last, Pending);
  }

  /** Latest first: while the events from `k` on hold enough, an earlier event `j` is not touched. */
  lemma {:induction false} UnwindTailLatestFirst(es: seq<Event>, amount: nat, k: nat, j: nat)
    requires j < k <= |es| && amount <= Held(es[k..], Pending)
    ensures UnwindTail(es, amount)[j] == es[j]
  {
    if amount > 0 && k < |es| {
      var init, last := es[..|es| - 1], es[|es| - 1];
      assert es == init + [last];
      HeldFromSnoc(init, last, k);
      UnwindTailLatestFirst(init, TakeFrom(last, amount).1, k, j);
      UnwindTailSnoc(init, last, amount);
    }
  }

  lemma Regroup(init: seq<Event>, e: Event, rest: seq<Event>)
    ensures (init + [e]) + rest == init + ([e] + rest)
  {
  }

  lemma UpdateBetween(init: seq<Event>, was: Event, rest: seq<Event>, e: Event)
    ensures (init + [was] + rest)[|init| := e] == init + ([e] + rest)
  {
  }

  function CancelPending(es: seq<Event>): seq<Event> {
    seq(|es|, i requires 0 <= i < |es| => if es[i].status == Pending then es[i].(status := Canceled) else es[i])
  }

  lemma {:induction false} CancelPendingConserves(es: seq<Event>)
    ensures Held(CancelPending(es), Pending) == 0
    ensures forall st :: st != Pending && st != Canceled ==> Held(CancelPending(es), st) == Held(es, st)
  {
    if es != [] {
      assert CancelPending(es)[..|es| - 1] == CancelPending(es[..|es| - 1]);
      CancelPendingConserves(es[..|es| - 1]);
    }
  }

  /** How much of a net refund still sits in the pending events of an active schedule. */
  function Reversible(active: bool, es: seq<Event>, netRefund: int): nat {
    if netRefund <= 0 || !active then 0
    else if netRefund > Held(es, Pending) then Held(es, Pending)
    else netRefund
  }

  // ---- One statement at a time ----

  /** A statement planned on an event row, with the amount that was read; Close cancels the schedule row. */
  datatype Edit = Cancel(k: nat, was: nat) | Reduce(k: nat, was: nat, keep: nat) | Close

  function Cut(e: Edit): int {
    match e
    case Cancel(_, was) => was
    case Reduce(_, was, keep) => was - keep
    case Close => 0
  }

  function Planned(edits: seq<Edit>): int {
    if edits == [] then 0 else Cut(edits[0]) + Planned(edits[1..])
  }

  /** CancelEvent and SetEventAmount: both touch a pending event only, and nobody learns whether they did. */
  function Perform(es: seq<Event>, e: Edit): (r: seq<Event>)
    ensures |r| == |es|
  {
    match e
    case Cancel(k, _) => if k < |es| && es[k].status == Pending then SetStatus(es, k, Canceled) else es
    case Reduce(k, _, keep) => if k < |es| && es[k].status == Pending then es[k := Event(keep, Pending)] else es
    case Close => es
  }

  function PerformAll(es: seq<Event>, edits: seq<Edit>): (r: seq<Event>)
    ensures |r| == |es|
    decreases |edits|
  {
    if edits == [] then es else PerformAll(Perform(es, edits[0]), edits[1..])
  }

  /** The statements that take `amount` out of the events as they were read, latest first. */
  function TailEdits(es: seq<Event>, amount: nat): seq<Edit> {
    if es == [] || amount == 0 then []
    else
      var n := |es| - 1;
      if es[n].status != Pending then TailEdits(es[..n], amount)
      else if amount >= es[n].amount then [Cancel(n, es[n].amount)] + TailEdits(es[..n], amount - es[n].amount)
      else [Reduce(n, es[n].amount, es[n].amount - amount)]
  }

  predicate OnlyVoids(edits: seq<Edit>) {
    forall m :: 0 <= m < |edits| ==> !edits[m].Reduce?
  }

  /** The statements that void every pending event as read, latest first. */
  function VoidEdits(es: seq<Event>): (edits: seq<Edit>)
    ensures OnlyVoids(edits)
  {
    if es == [] then []
    else
      var n := |es| - 1;
      (if es[n].status == Pending then [Cancel(n, es[n].amount)] else []) + VoidEdits(es[..n])
  }

  /** The event is still as it was read. */
  predicate Untouched(es: seq<Event>, e: Edit) {
    e.Close? || (e.k < |es| && es[e.k] == Event(e.was, Pending) && (e.Reduce? ==> e.keep <= e.was))
  }

  /** Every statement still finds its event as it was read, and no event is named twice. */
  ghost predicate PlanOk(es: seq<Event>, edits: seq<Edit>) {
    && (forall m :: 0 <= m < |edits| ==> Untouched(es, edits[m]))
    && (forall m, n :: 0 <= m < n < |edits| && !edits[m].Close? && !edits[n].Close? ==> edits[m].k != edits[n].k)
  }

  lemma {:induction false} HeldAfterAmount(es: seq<Event>, k: nat, keep: nat, st: EventStatus)
    requires k < |es| && es[k].status == Pending
    ensures Held(es[k := Event(keep, Pending)], st)
         == Held(es, st) + (if st == Pending then keep - es[k].amount else 0)
  {
    var n := |es| - 1;
    if k == n {
      assert es[k := Event(keep, Pending)][..n] == es[..n];
    } else {
      assert es[k := Event(keep, Pending)][..n] == es[..n][k := Event(keep, Pending)];
      HeldAfterAmount(es[..n], k, keep, st);
    }
  }

  /** A statement moves pending events only, and takes out what was planned if its event is as it was read. */
  lemma PerformHeld(es: seq<Event>, e: Edit, st: EventStatus)
    requires st != Canceled
    ensures st != Pending ==> Held(Perform(es, e), st) == Held(es, st)
    ensures st == Pending && Untouched(es, e) ==> Held(Perform(es, e), st) == Held(es, st) - Cut(e)
  {
    if !e.Close? && e.k < |es| && es[e.k].status == Pending {
      if e.Cancel? {
        HeldAfterSet(es, e.k, Canceled, st);
      } else {
        HeldAfterAmount(es, e.k, e.keep, st);
      }
    }
  }

  /** Carrying out the first statement of a plan leaves a plan. */
  lemma PlanSteps(es: seq<Event>, edits: seq<Edit>)
    requires PlanOk(es, edits) && edits != []
    ensures PlanOk(Perform(es, edits[0]), edits[1..])
  {
    forall m | 0 <= m < |edits[1..]| ensures Untouched(Perform(es, edits[0]), edits[1..][m]) {
      assert edits[1..][m] == edits[m + 1] && Untouched(es, edits[m + 1]);
    }
  }

  lemma {:induction false} PlannedSnoc(edits: seq<Edit>, e: Edit)
    ensures Planned(edits + [e]) == Planned(edits) + Cut(e)
  {
    if edits == [] {
      assert edits + [e] == [e];
    } else {
      assert (edits + [e])[1..] == edits[1..] + [e];
      PlannedSnoc(edits[1..], e);
    }
  }

  lemma PlanGrows(es: seq<Event>, edits: seq<Edit>, n: nat, first: Edit)
    requires n < |es| && PlanOk(es[..n], edits) && !first.Close? && first.k == n && Untouched(es, first)
    ensures PlanOk(es, [first] + edits) && Planned([first] + edits) == Cut(first) + Planned(edits)
  {
    var all := [first] + edits;
    assert all[1..] == edits;
    forall m | 0 <= m < |all| ensures Untouched(es, all[m]) && (m > 0 && !all[m].Close? ==> all[m].k < n) {
      if m > 0 {
        assert Untouched(es[..n], edits[m - 1]);
      }
    }
  }

  lemma PlanWidens(es: seq<Event>, edits: seq<Edit>, n: nat)
    requires n <= |es| && PlanOk(es[..n], edits)
    ensures PlanOk(es, edits)
  {
    forall m | 0 <= m < |edits| ensures Untouched(es, edits[m]) {
      assert Untouched(es[..n], edits[m]);
    }
  }

  /** The plan of an unwind is one, and takes out exactly the amount. */
  lemma {:induction false} TailEditsPlan(es: seq<Event>, amount: nat)
    requires amount <= Held(es, Pending)
    ensures PlanOk(es, TailEdits(es, amount)) && Planned(TailEdits(es, amount)) == amount
  {
    if es != [] && amount > 0 {
      var n := |es| - 1;
      if es[n].status != Pending {
        TailEditsPlan(es[..n], amount);
        PlanWidens(es, TailEdits(es[..n], amount), n);
      } else if amount >= es[n].amount {
        TailEditsPlan(es[..n], amount - es[n].amount);
        PlanGrows(es, TailEdits(es[..n], amount - es[n].amount), n, Cancel(n, es[n].amount));
      } else {
        PlanGrows(es, [], n, Reduce(n, es[n].amount, es[n].amount - amount));
        assert TailEdits(es, amount) == [Reduce(n, es[n].amount, es[n].amount - amount)] + [];
      }
    }
  }

  lemma {:induction false} VoidEditsPlan(es: seq<Event>)
    ensures PlanOk(es, VoidEdits(es)) && Planned(VoidEdits(es)) == Held(es, Pending)
  {
    if es != [] {
      var n := |es| - 1;
      VoidEditsPlan(es[..n]);
      if es[n].status == Pending {
        PlanGrows(es, VoidEdits(es[..n]), n, Cancel(n, es[n].amount));
      } else {
        PlanWidens(es, VoidEdits(es[..n]), n);
        assert VoidEdits(es) == [] + VoidEdits(es[..n]) == VoidEdits(es[..n]);
      }
    }
  }

  /** Statements on earlier events leave the last one alone. */
  lemma {:induction false} PerformOnInit(init: seq<Event>, last: Event, edits: seq<Edit>)
    requires forall m :: 0 <= m < |edits| && !edits[m].Close? ==> edits[m].k < |init|
    ensures PerformAll(init + [last], edits) == PerformAll(init, edits) + [last]
    decreases |edits|
  {
    if edits != [] {
      assert Perform(init + [last], edits[0]) == Perform(init, edits[0]) + [last];
      PerformOnInit(Perform(init, edits[0]), last, edits[1..]);
    }
  }

  lemma PlanStaysBelow(es: seq<Event>, edits: seq<Edit>)
    requires PlanOk(es, edits)
    ensures forall m :: 0 <= m < |edits| && !edits[m].Close? ==> edits[m].k < |es|
  {
    forall m | 0 <= m < |edits| && !edits[m].Close? ensures edits[m].k < |es| {
      assert Untouched(es, edits[m]);
    }
  }

  /** Uninterrupted, the statements of an unwind compute the unwound schedule. */
  lemma {:induction false} TailEditsPerform(es: seq<Event>, amount: nat)
    requires amount <= Held(es, Pending)
    ensures PerformAll(es, TailEdits(es, amount)) == UnwindTail(es, amount)
  {
    if es != [] && amount > 0 {
      var n := |es| - 1;
      var init, last := es[..n], es[n];
      assert es == init + [last];
      if last.status != Pending || amount >= last.amount {
        var left := TakeFrom(last, amount).1;
        var rest := TailEdits(init, left);
        TailEditsPlan(init, left);
        PlanStaysBelow(init, rest);
        TailEditsPerform(init, left);
        PerformOnInit(init, TakeFrom(last, amount).0, rest);
        if last.status == Pending {
          var edits := TailEdits(es, amount);
          assert edits[1..] == rest;
          assert Perform(es, edits[0]) == init + [TakeFrom(last, amount).0];
        }
      } else {
        var e := Reduce(n, last.amount, last.amount - amount);
        assert [e][1..] == [] && Perform(es, e) == init + [TakeFrom(last, amount).0];
        assert UnwindTail(init, 0) == init;
      }
    }
  }

  lemma CancelPendingSnoc(init: seq<Event>, last: Event)
    ensures CancelPending(init + [last])
         == CancelPending(init) + [if last.status == Pending then last.(status := Canceled) else last]
  {
  }

  lemma VoidEditsSnoc(init: seq<Event>, last: Event)
    ensures VoidEdits(init + [last])
         == if last.status == Pending then [Cancel(|init|, last.amount)] + VoidEdits(init) else VoidEdits(init)
  {
    assert (init + [last])[..|init|] == init;
    assert [] + VoidEdits(init) == VoidEdits(init);
  }

  lemma PerformAllCons(es: seq<Event>, e: Edit, rest: seq<Edit>)
    ensures PerformAll(es, [e] + rest) == PerformAll(Perform(es, e), rest)
  {
    assert ([e] + rest)[1..] == rest;
  }

  /** Uninterrupted, the statements of a write-off cancel every pending event. */
  lemma {:induction false} VoidEditsPerform(es: seq<Event>)
    ensures PerformAll(es, VoidEdits(es)) == CancelPending(es)
  {
    if es != [] {
      var init, last := es[..|es| - 1], es[|es| - 1];
      assert es == init + [last];
      VoidEditsPerform(init);
      VoidEditsPlan(init);
      PlanStaysBelow(init, VoidEdits(init));
      CancelPendingSnoc(init, last);
      VoidEditsSnoc(init, last);
      if last.status == Pending {
        var voided := last.(status := Canceled);
        PerformAllCons(es, Cancel(|init|, last.amount), VoidEdits(init));
        assert Perform(es, Cancel(|init|, last.amount)) == init + [voided];
        PerformOnInit(init, voided, VoidEdits(init));
      } else {
        PerformOnInit(init, last, VoidEdits(init));
      }
    }
  }

  /** One invoice's schedule row and its event rows. */
  class ScheduleStore {
    var active: bool
    var events: seq<Event>

    constructor (total: nat, months: nat)
      requires months > 0
      ensures active && events == Allocation(total, months)
    {
      active, events := true, Allocation(total, months);
    }

    /** The tail loop of UnwindOnRefund. */
    method RemoveFromTail(reverse: nat)
      modifies this`events
      ensures events == UnwindTail(old(events), reverse)
    {
      var remaining := reverse;
      var k := |events|;
      ghost var todo, done := events, [];
      while k > 0 && remaining > 0
        invariant k == |todo| && 0 <= remaining
        invariant events == todo + done
        invariant UnwindTail(old(events), reverse) == UnwindTail(todo, remaining) + done
      {
        k := k - 1;
        ghost var init, last, amount := todo[..k], todo[k], remaining;
        var e := events[k];
        if e.status == Pending {
          if remaining >= e.amount {
            remaining := remaining - e.amount;
            e := e.(status := Canceled);
          } else {
            e := e.(amount := e.amount - remaining);
            remaining := 0;
          }
        }
        events := events[k := e];
        assert todo == init + [last];
        UnwindTailSnoc(init, last, amount);
        Regroup(UnwindTail(init, remaining), e, done);
        UpdateBetween(init, last, done, e);
        todo, done := init, [e] + done;
      }
    }

    /** UnwindOnRefund: reverse up to the unearned amount, from the tail, and cancel an emptied schedule. */
    method UnwindOnRefund(refundAmount: int) returns (reversed: nat)
      modifies this
      ensures reversed == Reversible(old(active), old(events), refundAmount)
      ensures refundAmount <= 0 || !old(active) ==> reversed == 0
      ensures refundAmount > 0 && old(active) ==>
                && reversed <= refundAmount && reversed <= Held(old(events), Pending)
                && (reversed == refundAmount || reversed == Held(old(events), Pending))
      ensures events == UnwindTail(old(events), reversed)
      ensures active == (old(active) && !(reversed > 0 && reversed == Held(old(events), Pending)))
    {
      if refundAmount <= 0 || !active {
        return 0;
      }
      var deferred := 0;
      for i := 0 to |events|
        invariant deferred == Held(events[..i], Pending)
        invariant events == old(events) && active
      {
        assert events[..i + 1][..i] == events[..i];
        if events[i].status == Pending {
          deferred := deferred + events[i].amount;
        }
      }
      assert events[..|events|] == events;
      var reverse := refundAmount;
      if reverse > deferred {
        reverse := deferred;
      }
      if reverse <= 0 {
        return 0;
      }

      RemoveFromTail(reverse);
      if reverse >= deferred {
        active := false;
      }
      return reverse;
    }

    /** CancelPendingForInvoice: void the unrecognized events of an active schedule and cancel it. */
    method CancelPendingForInvoice()
      modifies this
      ensures events == if old(active) then CancelPending(old(events)) else old(events)
      ensures !active
    {
      if !active {
        return;
      }
      for i := 0 to |events|
        invariant |events| == |old(events)| && active
        invariant forall j :: 0 <= j < i ==> events[j] == CancelPending(old(events))[j]
        invariant forall j :: i <= j < |events| ==> events[j] == old(events)[j]
      {
        if events[i].status == Pending {
          events := SetStatus(events, i, Canceled);
        }
      }
      active := false;
    }
  }
}
