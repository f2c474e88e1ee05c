/**
  What single operations on account credit do to the notes and to what
  customers can spend (internal/service/credit_note.go:198-210, 355-371, 805-821,
  880-989; internal/adapter/db/credit_note_repository.go:385-464).
 */
module CreditOutcomes {
  import opened CustomerCredit
  import opened Ledger
  import opened Options

  /** Only the one note differs, and not in whose it is. */
  ghost predicate OnlyNote(b: Books, t: Books, i: nat) {
    && i < |b.notes| == |t.notes| && (forall j :: 0 <= j < |b.notes| && j != i ==> t.notes[j] == b.notes[j])
    && t.notes[i].scope == b.notes[i].scope && t.notes[i].amount == b.notes[i].amount
    && t.notes[i].expiresAt == b.notes[i].expiresAt
  }

  lemma OnlyNoteSum(b: Books, t: Books, i: nat)
    requires OnlyNote(b, t, i)
    ensures SpendableSum(t.notes)
         == SpendableSum(b.notes) - (if Spendable(b.notes[i]) then b.notes[i].balance else 0)
          + (if Spendable(t.notes[i]) then t.notes[i].balance else 0)
  {
    SpendableUpdate(b.notes, i, t.notes[i]);
    assert t.notes == b.notes[i := t.notes[i]];
  }

  /** Credit for a positive amount can be spent at once, and its liability is due; a maker's waits for approval, and
      nothing is posted for it. */
  lemma CreationIs(b: Books, scope: Scope, amount: nat, maker: bool, expiresAt: Option<int>)
    ensures var t := Next(b, Create(scope, amount, maker, expiresAt));
            && (amount == 0 ==> t == b)
            && (amount > 0 ==>
                  && t.notes == b.notes + [CreditNote(scope, amount, amount, if maker then PendingApproval else Issued,
                                                      expiresAt)]
                  && SpendableSum(t.notes) == SpendableSum(b.notes) + (if maker then 0 else amount)
                  && (maker ==> t.due == b.due)
                  && (!maker ==> t.due == b.due + [Transfer(CreditsIssued, Account.CustomerCredit, amount, 8,
                                                            NoteRef(|b.notes|), 0, 0)]))
            && t.rows == b.rows && t.failed == b.failed && t.swallowed == b.swallowed
  {
    if amount > 0 {
      SpendableSnoc(b.notes, CreditNote(scope, amount, amount, if maker then PendingApproval else Issued, expiresAt));
    }
  }

  /** An approval makes exactly the note's balance spendable and its liability due; it finds a pending note or does
      nothing. */
  lemma ApprovalReleases(b: Books, i: nat)
    ensures var t := Next(b, Approve(i));
            && (t != b <==> i < |b.notes| && b.notes[i].status == PendingApproval)
            && (t != b ==>
                  && OnlyNote(b, t, i) && t.notes[i].status == Issued && t.notes[i].balance == b.notes[i].balance
                  && SpendableSum(t.notes) == SpendableSum(b.notes) + b.notes[i].balance
                  && t.due == b.due + [Transfer(CreditsIssued, Account.CustomerCredit, b.notes[i].amount, 8, NoteRef(i),
                                                0, 0)])
  {
    var t := Next(b, Approve(i));
    if i < |b.notes| && b.notes[i].status == PendingApproval {
      OnlyNoteSum(b, t, i);
      assert t.notes[i] != b.notes[i];
    }
  }

  /** A rejection takes a pending note, and posts nothing. */
  lemma RejectionIs(b: Books, i: nat)
    ensures var t := Next(b, Reject(i));
            && (t != b <==> i < |b.notes| && b.notes[i].status == PendingApproval)
            && (t != b ==> OnlyNote(b, t, i) && t.notes[i].status == Rejected
                           && t.notes[i].balance == b.notes[i].balance)
            && SpendableSum(t.notes) == SpendableSum(b.notes) && t.due == b.due
  {
    var t := Next(b, Reject(i));
    if i < |b.notes| && b.notes[i].status == PendingApproval {
      OnlyNoteSum(b, t, i);
      assert t.notes[i] != b.notes[i];
    }
  }

  /** What was rejected, voided or has expired is never spent: no run changes the note again. */
  lemma {:induction false} FinalStays(b: Books, steps: seq<Step>, i: nat)
    requires i < |b.notes| && b.notes[i].status in {Rejected, Void, Expired, Used}
    ensures i < |Run(b, steps).notes| && Run(b, steps).notes[i] == b.notes[i]
    decreases |steps|
  {
    if steps != [] {
      FinalStep(b, steps[0], i);
      FinalStays(Next(b, steps[0]), steps[1..], i);
    }
  }

  lemma FinalStep(b: Books, s: Step, i: nat)
    requires i < |b.notes| && b.notes[i].status in {Rejected, Void, Expired, Used}
    ensures i < |Next(b, s).notes| && Next(b, s).notes[i] == b.notes[i]
  {
    if s.Apply? {
      DrawDownEach(b.notes, s.scope, s.total, i);
    }
  }

  /** Voiding takes an issued note with a balance and nothing else: the balance leaves what can be spent, and exactly
      it is due out of the liability under code 20. */
  lemma VoidIs(b: Books, i: nat)
    ensures var t := Next(b, VoidNote(i));
            && (t != b <==> i < |b.notes| && b.notes[i].status == Issued && b.notes[i].balance > 0)
            && (t != b ==>
                  && OnlyNote(b, t, i) && t.notes[i].status == Void && t.notes[i].balance == 0
                  && SpendableSum(t.notes) == SpendableSum(b.notes) - b.notes[i].balance
                  && t.due == b.due + [Transfer(Account.CustomerCredit, CreditsIssued, b.notes[i].balance, 20,
                                                NoteRef(i), 0, 0)])
  {
    var t := Next(b, VoidNote(i));
    if i < |b.notes| && Spendable(b.notes[i]) {
      OnlyNoteSum(b, t, i);
      assert t.notes[i] != b.notes[i];
    }
  }

  /** Expiry the same under code 18, for a note that has an expiry at or before now. */
  lemma ExpiryIs(b: Books, i: nat, now: int)
    ensures var t := Next(b, Expire(i, now));
            && (t != b <==> i < |b.notes| && b.notes[i].status == Issued && b.notes[i].balance > 0
                            && b.notes[i].expiresAt.Some? && b.notes[i].expiresAt.value <= now)
            && (t != b ==>
                  && OnlyNote(b, t, i) && t.notes[i].status == Expired && t.notes[i].balance == 0
                  && SpendableSum(t.notes) == SpendableSum(b.notes) - b.notes[i].balance
                  && t.due == b.due + [Transfer(Account.CustomerCredit, CreditsIssued, b.notes[i].balance, 18,
                                                NoteRef(i), 0, 0)])
  {
    var t := Next(b, Expire(i, now));
    if i < |b.notes| && ExpiryDue(b.notes[i], now) {
      OnlyNoteSum(b, t, i);
      assert t.notes[i] != b.notes[i];
    }
  }

  /** An application spends what is available up to the invoice's total, and exactly that is due as settling its
      receivable under code 7. */
  lemma ApplicationIs(b: Books, scope: Scope, invoice: nat, total: nat)
    ensures var t, available := Next(b, Apply(scope, invoice, total)), Available(b.notes, scope);
            var applied := if available < total then available else total;
            && SpendableSum(t.notes) == SpendableSum(b.notes) - applied
            && (applied == 0 ==> t == b)
            && (applied > 0 ==> t.due == b.due + [Transfer(Account.CustomerCredit, Receivable, applied, 7,
                                                           InvoiceRef(invoice), 0, 0)])
  {
    DrawDownConserves(b.notes, scope, total);
  }

  /** A due leg is tried once: it becomes a row, unless its post fails or the ledger already has its key. */
  lemma PostIs(b: Books, k: nat, ok: bool)
    requires k < |b.due|
    ensures var t, leg := Next(b, Post(k, ok)), b.due[k];
            && t.notes == b.notes && t.due == b.due[..k] + b.due[k + 1..]
            && (HasKey(b.rows, leg) ==> t.rows == b.rows && t.swallowed == b.swallowed + [leg] && t.failed == b.failed)
            && (!HasKey(b.rows, leg) && ok ==> t.rows == b.rows + [leg] && t.failed == b.failed
                                               && t.swallowed == b.swallowed)
            && (!HasKey(b.rows, leg) && !ok ==> t.rows == b.rows && t.failed == b.failed + [leg]
                                                && t.swallowed == b.swallowed)
  {
  }
}
