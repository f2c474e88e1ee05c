/**
  What single statements of the books' state machine do to an invoice where the
  money does not tell: a failing call, a claimed or failed event, a one-off
  invoice (internal/service/revrec.go:68-137, 382-480;
  internal/service/ledger.go:560-674).
 */
module BooksOutcomes {
  import opened DeferredBooks
  import opened RevenueSchedule

  /** The step posts nothing, and changes no other invoice. */
  ghost predicate Quiet(b: Books, t: Books, i: nat) {
    && t.rows == b.rows && t.lost == b.lost && i < |b.invoices| == |t.invoices|
    && forall j :: 0 <= j < |b.invoices| && j != i ==> t.invoices[j] == b.invoices[j]
  }

  /** Only the status of the one event differs. */
  ghost predicate OnlyEvent(inv: Invoice, r: Invoice, k: nat, st: EventStatus) {
    && k < |inv.events| == |r.events| && r == inv.(events := r.events)
    && r.events[k] == Event(inv.events[k].amount, st)
    && forall j :: 0 <= j < |inv.events| && j != k ==> r.events[j] == inv.events[j]
  }

  /** A paid one-off invoice earns all of its pre-tax value at once: its schedule is one recognized event. */
  lemma OneOffIsEarned(b: Books, i: nat, months: nat)
    requires i < |b.invoices|
    requires var inv := b.invoices[i]; !inv.subscription && !inv.active && inv.status == Paid && inv.events == []
    requires b.invoices[i].tax <= b.invoices[i].total
    ensures var inv, t := b.invoices[i], Next(b, Schedule(i, months, true));
            Quiet(b, t, i) && t.invoices[i].active && t.invoices[i].events == [Event(inv.total - inv.tax, Recognized)]
  {
  }

  /** The worker claims a pending event; a recognition that cannot be posted marks it failed and posts nothing; and a
      claimed one that was left behind is put back. */
  lemma ClaimIs(b: Books, i: nat, k: nat)
    requires i < |b.invoices| && AtEvent(b.invoices[i], k, Pending)
    ensures var t := Next(b, Claim(i, k)); Quiet(b, t, i) && OnlyEvent(b.invoices[i], t.invoices[i], k, Processing)
  {
  }

  lemma FailedRecognitionIs(b: Books, i: nat, k: nat, at: int)
    requires i < |b.invoices| && AtEvent(b.invoices[i], k, Processing)
    ensures var t := Next(b, Finish(i, k, false, at));
            Quiet(b, t, i) && OnlyEvent(b.invoices[i], t.invoices[i], k, EventStatus.Failed)
  {
  }

  lemma RequeueRestores(b: Books, i: nat, k: nat)
    requires i < |b.invoices| && AtEvent(b.invoices[i], k, Pending)
    ensures Next(Next(b, Claim(i, k)), Requeue(i, k)) == b
  {
    var es := b.invoices[i].events;
    assert SetStatus(SetStatus(es, k, Processing), k, Pending) == es;
    var claimed := Next(b, Claim(i, k));
    assert Next(claimed, Requeue(i, k)).invoices == b.invoices;
  }

  /** An event is only recognized when it was claimed, and a claimed one cannot be claimed again. */
  lemma OneClaimAtATime(b: Books, i: nat, k: nat)
    requires i < |b.invoices| && k < |b.invoices[i].events| && b.invoices[i].events[k].status != Pending
    ensures Next(b, Claim(i, k)) == b
  {
  }

  // ---- Write-offs ----

  /** When what was recognized cannot be read, the write-off goes on with 0: it takes the whole pre-tax value for still
      deferred. */
  lemma UnreadIsDeferred(b: Books, i: nat)
    requires i < |b.invoices| && b.invoices[i].writeOff == Reading && b.invoices[i].subscription
    ensures var t := Next(b, ReadRecognized(i, false));
            Quiet(b, t, i) && t.invoices[i] == b.invoices[i].(writeOff := Splitting(0))
  {
  }

  /** A write-off whose legs cannot be posted is over, and so is a cancellation that fails half way: nothing else
      changes, and the invoice stays uncollectible. */
  lemma UnpostedIsOver(b: Books, i: nat, at: int)
    requires i < |b.invoices| && b.invoices[i].writeOff.Splitting?
    ensures var t := Next(b, PostWriteOff(i, false, at));
            Quiet(b, t, i) && t.invoices[i] == b.invoices[i].(writeOff := Over)
  {
  }

  lemma FailedVoidIsOver(b: Books, i: nat)
    requires i < |b.invoices| && b.invoices[i].writeOff.Voiding? && b.invoices[i].writeOff.edits != []
    ensures var t := Next(b, VoidNext(i, false));
            Quiet(b, t, i) && t.invoices[i] == b.invoices[i].(writeOff := Over)
  {
  }

  /** An abandoned unwind keeps what it took, and posts nothing. */
  lemma FailedEditIsDropped(b: Books, i: nat, n: nat)
    requires i < |b.invoices| && n < |b.invoices[i].notes|
    requires b.invoices[i].notes[n].unwind.Editing? && b.invoices[i].notes[n].unwind.edits != []
    ensures var inv, t := b.invoices[i], Next(b, EditNext(i, n, false));
            && Quiet(b, t, i)
            && t.invoices[i] == inv.(notes := inv.notes[n := inv.notes[n].(unwind := Dropped)])
  {
  }
}
