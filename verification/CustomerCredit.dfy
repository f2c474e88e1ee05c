/**
  Account credit: adjustment credit notes, the invoices they settle, and the
  Customer Credit liability that must equal what customers can still spend
  (internal/service/credit_note.go:198-210, 355-371, 805-821, 880-888, 947-989;
  internal/adapter/db/credit_note_repository.go:212-292, 385-464).
 */
module CustomerCredit {
  import opened Options
  import opened Ledger

  datatype Status = PendingApproval | Issued | Used | Expired | Void | Rejected

  /** Credit is spendable by one customer, on one entity's invoices, in one currency. */
  datatype Scope = Scope(customer: nat, entity: nat, currency: nat)

  datatype CreditNote = CreditNote(scope: Scope, amount: nat, balance: nat, status: Status, expiresAt: Option<int>)

  predicate Spendable(n: CreditNote) {
    n.status == Issued && n.balance > 0
  }

  predicate Applicable(n: CreditNote, scope: Scope) {
    Spendable(n) && n.scope == scope
  }

  // ---- Sums ----

  function SpendableSum(ns: seq<CreditNote>): nat {
    if ns == [] then 0
    else SpendableSum(ns[..|ns| - 1]) + (if Spendable(ns[|ns| - 1]) then ns[|ns| - 1].balance else 0)
  }

  /** SumApplicableAdjustments, in the order the notes were created. */
  function Available(ns: seq<CreditNote>, scope: Scope): nat {
    if ns == [] then 0 else (if Applicable(ns[0], scope) then ns[0].balance else 0) + Available(ns[1..], scope)
  }

  /** SumSpendableCreditNoteBalance, which the reconciler compares with the ledger: every balance, whatever the
      status. */
  function ReconcilerSum(ns: seq<CreditNote>): nat {
    if ns == [] then 0 else ReconcilerSum(ns[..|ns| - 1]) + ns[|ns| - 1].balance
  }

  function OnHold(ns: seq<CreditNote>): nat {
    if ns == [] then 0
    else OnHold(ns[..|ns| - 1])
             + (if ns[|ns| - 1].status in {PendingApproval, Rejected} then ns[|ns| - 1].balance else 0)
  }

  lemma SpendableSnoc(ns: seq<CreditNote>, n: CreditNote)
    ensures SpendableSum(ns + [n]) == SpendableSum(ns) + (if Spendable(n) then n.balance else 0)
  {
  }

  lemma {:induction false} SpendableUpdate(ns: seq<CreditNote>, i: nat, n: CreditNote)
    requires i < |ns|
    ensures SpendableSum(ns[i := n])
         == SpendableSum(ns) - (if Spendable(ns[i]) then ns[i].balance else 0) + (if Spendable(n) then n.balance else 0)
  {
    var last := |ns| - 1;
    if i == last {
      assert ns[i := n][..last] == ns[..last];
    } else {
      assert ns[i := n][..last] == ns[..last][i := n];
      SpendableUpdate(ns[..last], i, n);
    }
  }

  lemma {:induction false} SpendableConcat(xs: seq<CreditNote>, ys: seq<CreditNote>)
    ensures SpendableSum(xs + ys) == SpendableSum(xs) + SpendableSum(ys)
  {
    if ys == [] {
      assert xs + ys == xs;
    } else {
      var n := |ys| - 1;
      assert xs + ys == (xs + ys[..n]) + [ys[n]];
      SpendableSnoc(xs + ys[..n], ys[n]);
      SpendableConcat(xs, ys[..n]);
    }
  }

  // ---- Drawing down, oldest first ----

  function Take(n: CreditNote, scope: Scope, remaining: nat): nat {
    if !Applicable(n, scope) then 0 else if n.balance > remaining then remaining else n.balance
  }

  function Drawn(n: CreditNote, take: nat): CreditNote
    requires take <= n.balance
  {
    if take == 0 then n else n.(balance := n.balance - take, status := if take == n.balance then Used else Issued)
  }

  function DrawDown(ns: seq<CreditNote>, scope: Scope, remaining: nat): (r: seq<CreditNote>)
    ensures |r| == |ns|
  {
    if ns == [] then []
    else
      var take := Take(ns[0], scope, remaining);
      [Drawn(ns[0], take)] + DrawDown(ns[1..], scope, remaining - take)
  }

  function Applied(ns: seq<CreditNote>, scope: Scope, total: nat): nat {
    if Available(ns, scope) < total then Available(ns, scope) else total
  }

  /** What is applied leaves the spendable sum, and nothing else does. */
  lemma {:induction false} DrawDownConserves(ns: seq<CreditNote>, scope: Scope, remaining: nat)
    ensures SpendableSum(DrawDown(ns, scope, remaining)) == SpendableSum(ns) - Applied(ns, scope, remaining)
  {
    if ns != [] {
      var take := Take(ns[0], scope, remaining);
      var first, rest := Drawn(ns[0], take), DrawDown(ns[1..], scope, remaining - take);
      DrawDownConserves(ns[1..], scope, remaining - take);
      SpendableConcat([first], rest);
      SpendableConcat([ns[0]], ns[1..]);
      assert ns == [ns[0]] + ns[1..];
      SpendableSnoc([], first);
      SpendableSnoc([], ns[0]);
      assert [] + [first] == [first] && [] + [ns[0]] == [ns[0]];
    }
  }

  /** A note is only ever drawn for its own scope, never below zero, and Used means emptied. */
  lemma {:induction false} DrawDownEach(ns: seq<CreditNote>, scope: Scope, remaining: nat, i: nat)
    requires i < |ns|
    ensures var d := DrawDown(ns, scope, remaining)[i];
            && (!Applicable(ns[i], scope) ==> d == ns[i])
            && (d != ns[i] ==> d.balance < ns[i].balance && d.status == (if d.balance == 0 then Used else Issued))
            && d.scope == ns[i].scope && d.amount == ns[i].amount && d.expiresAt == ns[i].expiresAt
  {
    if i > 0 {
      DrawDownEach(ns[1..], scope, remaining - Take(ns[0], scope, remaining), i - 1);
    }
  }

  /** Oldest first: a note is touched only once every older applicable one is used up. */
  lemma {:induction false} DrawDownOldestFirst(ns: seq<CreditNote>, scope: Scope, remaining: nat, i: nat, j: nat)
    requires i < j < |ns| && Applicable(ns[i], scope)
    ensures var ds := DrawDown(ns, scope, remaining);
            ds[j] != ns[j] ==> ds[i].balance == 0 && ds[i].status == Used
  {
    var take := Take(ns[0], scope, remaining);
    if i > 0 {
      DrawDownOldestFirst(ns[1..], scope, remaining - take, i - 1, j - 1);
    } else if take == remaining {
      NothingLeftNothingDrawn(ns[1..], scope, j - 1);
    }
  }

  /** By the notes' columns: only issued notes with a balance, of that very customer, entity and currency, are drawn;
      and when not all of the total could be applied, every one of them is used up. */
  lemma DrawDownColumns(ns: seq<CreditNote>, scope: Scope, total: nat)
    ensures Applied(ns, scope, total) <= total
    ensures DrawnByColumns(ns, DrawDown(ns, scope, total), scope, Applied(ns, scope, total) < total)
  {
    var ds := DrawDown(ns, scope, total);
    forall i | 0 <= i < |ns| && ds[i] != ns[i]
        ensures ns[i].status == Issued && ns[i].balance > ds[i].balance && ns[i].scope == scope {
      DrawDownEach(ns, scope, total, i);
    }
    if Available(ns, scope) < total {
      UsesUp(ns, scope, total);
    }
  }

  predicate DrawnByColumns(before: seq<CreditNote>, after: seq<CreditNote>, scope: Scope, short: bool) {
    && |after| == |before|
    && (forall i :: 0 <= i < |before| && after[i] != before[i] ==>
          before[i].status == Issued && before[i].balance > after[i].balance && before[i].scope == scope)
    && (short ==> forall i :: 0 <= i < |before| && before[i].scope == scope && before[i].status == Issued ==>
          after[i].balance == 0)
  }

  lemma {:induction false} UsesUp(ns: seq<CreditNote>, scope: Scope, total: nat)
    requires Available(ns, scope) < total
    ensures forall i :: 0 <= i < |ns| && ns[i].scope == scope && ns[i].status == Issued ==>
              DrawDown(ns, scope, total)[i].balance == 0
  {
    if ns != [] {
      UsesUp(ns[1..], scope, total - Take(ns[0], scope, total));
      forall i | 0 <= i < |ns| && ns[i].scope == scope && ns[i].status == Issued
          ensures DrawDown(ns, scope, total)[i].balance == 0 {
        if i > 0 {
          assert ns[1..][i - 1] == ns[i];
        }
      }
    }
  }

  lemma {:induction false} NothingLeftNothingDrawn(ns: seq<CreditNote>, scope: Scope, i: nat)
    requires i < |ns|
    ensures DrawDown(ns, scope, 0)[i] == ns[i]
  {
    if i > 0 {
      NothingLeftNothingDrawn(ns[1..], scope, i - 1);
    }
  }

  // ---- The books ----

  /** `due` holds legs whose business change is committed and whose post has not been tried; `failed` the posts that
      failed, `swallowed` those the ledger took for replays. */
  datatype Books = Books(notes: seq<CreditNote>, due: seq<Transfer>, rows: seq<Transfer>,
                         failed: seq<Transfer>, swallowed: seq<Transfer>)

  datatype Step =
    | Create(scope: Scope, amount: nat, maker: bool, expiresAt: Option<int>)
    | Approve(i: nat)
    | Reject(i: nat)
    | Apply(scope: Scope, invoice: nat, total: nat)
    | Expire(i: nat, now: int)
    | VoidNote(i: nat)
    | Post(k: nat, ok: bool)

  const EMPTY_BOOKS := Books([], [], [], [], [])

  function IssueLeg(i: nat, amount: nat): Transfer {
    Transfer(CreditsIssued, Account.CustomerCredit, amount, 8, NoteRef(i), 0, 0)
  }

  function ApplyLeg(invoice: nat, amount: nat): Transfer {
    Transfer(Account.CustomerCredit, Receivable, amount, 7, InvoiceRef(invoice), 0, 0)
  }

  function WithdrawLeg(i: nat, amount: nat, code: nat): Transfer {
    Transfer(Account.CustomerCredit, CreditsIssued, amount, code, NoteRef(i), 0, 0)
  }

  predicate ExpiryDue(n: CreditNote, now: int) {
    Spendable(n) && n.expiresAt.Some? && n.expiresAt.value <= now
  }

  function Next(b: Books, s: Step): Books {
    match s
    case Create(scope, amount, maker, expiresAt) =>
      if amount == 0 then b
      else
        var n := CreditNote(scope, amount, amount, if maker then PendingApproval else Issued, expiresAt);
        b.(notes := b.notes + [n], due := if maker then b.due else b.due + [IssueLeg(|b.notes|, amount)])
    case Approve(i) =>
      if i < |b.notes| && b.notes[i].status == PendingApproval
      then b.(notes := b.notes[i := b.notes[i].(status := Issued)], due := b.due + [IssueLeg(i, b.notes[i].amount)])
      else b
    case Reject(i) =>
      if i < |b.notes| && b.notes[i].status == PendingApproval
      then b.(notes := b.notes[i := b.notes[i].(status := Rejected)]) else b
    case Apply(scope, invoice, total) =>
      var applied := Applied(b.notes, scope, total);
      if applied == 0 then b
      else b.(notes := DrawDown(b.notes, scope, total), due := b.due + [ApplyLeg(invoice, applied)])
    case Expire(i, now) =>
      if i < |b.notes| && ExpiryDue(b.notes[i], now) then Withdrawn(b, i, Expired, 18) else b
    case VoidNote(i) =>
      if i < |b.notes| && Spendable(b.notes[i]) then Withdrawn(b, i, Void, 20) else b
    case Post(k, ok) =>
      if k >= |b.due| then b
      else
        var t, due := b.due[k], b.due[..k] + b.due[k + 1..];
        if HasKey(b.rows, t) then b.(due := due, swallowed := b.swallowed + [t])
        else if ok then b.(due := due, rows := b.rows + [t])
        else b.(due := due, failed := b.failed + [t])
  }

  /** The balance is zeroed and written off under the given code. */
  function Withdrawn(b: Books, i: nat, status: Status, code: nat): Books
    requires i < |b.notes|
  {
    b.(notes := b.notes[i := b.notes[i].(status := status, balance := 0)],
       due := b.due + [WithdrawLeg(i, b.notes[i].balance, code)])
  }

  function Run(b: Books, steps: seq<Step>): Books
    decreases |steps|
  {
    if steps == [] then b else Run(Next(b, steps[0]), steps[1..])
  }

  // ---- The invariant ----

  ghost predicate NoteOk(n: CreditNote) {
    && n.balance <= n.amount
    && (n.status in {PendingApproval, Rejected} ==> n.balance == n.amount > 0)
    && (n.status in {Used, Expired, Void} ==> n.balance == 0)
    && (n.status == Issued ==> n.balance > 0)
  }

  ghost predicate NotesOk(ns: seq<CreditNote>) {
    forall i :: 0 <= i < |ns| ==> NoteOk(ns[i])
  }

  /** A leg names the state change it came from, so a note's legs of one code cannot repeat. */
  ghost predicate LegOk(ns: seq<CreditNote>, t: Transfer) {
    && t.amount > 0 && t.occurrence == 0
    && match t.reference
       case InvoiceRef(v) => t == ApplyLeg(v, t.amount)
       case EventRef(_, _) => false
       case RefundRef(_, _) => false
       case NoteRef(i) =>
         && i < |ns|
         && (|| (t == IssueLeg(i, t.amount) && ns[i].status != PendingApproval && ns[i].status != Rejected)
             || (t == WithdrawLeg(i, t.amount, 18) && ns[i].status == Expired)
             || (t == WithdrawLeg(i, t.amount, 20) && ns[i].status == Void))
  }

  ghost predicate LegsOk(ns: seq<CreditNote>, ts: seq<Transfer>) {
    forall j :: 0 <= j < |ts| ==> LegOk(ns, ts[j])
  }

  /** Only applications to one invoice share a key. */
  ghost predicate Apart(rows: seq<Transfer>, due: seq<Transfer>) {
    && (forall i, j :: 0 <= i < |rows| && 0 <= j < |due| && SameKey(rows[i], due[j]) ==> due[j].code == 7)
    && (forall i, j :: 0 <= i < j < |due| && SameKey(due[i], due[j]) ==> due[j].code == 7)
  }

  ghost predicate OnlyApplications(ts: seq<Transfer>) {
    forall j :: 0 <= j < |ts| ==>
      ts[j].amount > 0 && ts[j].debit == Account.CustomerCredit && ts[j].credit == Receivable
  }

  function Accounted(b: Books): int {
    Balance(b.rows, Account.CustomerCredit) + Balance(b.due, Account.CustomerCredit)
    + Balance(b.failed, Account.CustomerCredit) + Balance(b.swallowed, Account.CustomerCredit)
  }

  ghost predicate Inv(b: Books) {
    && NotesOk(b.notes)
    && LegsOk(b.notes, b.due) && LegsOk(b.notes, b.rows)
    && Apart(b.rows, b.due) && OnlyApplications(b.swallowed)
    && Accounted(b) == SpendableSum(b.notes)
  }

  lemma {:induction false} BalanceRemove(ts: seq<Transfer>, k: nat, a: Account)
    requires k < |ts|
    ensures Balance(ts[..k] + ts[k + 1..], a) == Balance(ts, a) - Effect(ts[k], a)
  {
    BalanceConcat(ts[..k], ts[k + 1..], a);
    BalanceConcat(ts[..k] + [ts[k]], ts[k + 1..], a);
    BalanceAppend(ts[..k], ts[k], a);
    assert ts == ts[..k] + [ts[k]] + ts[k + 1..];
  }

  lemma PostExplained(b: Books, k: nat, ok: bool)
    requires k < |b.due|
    ensures Accounted(Next(b, Post(k, ok))) == Accounted(b)
  {
    var t := b.due[k];
    BalanceRemove(b.due, k, Account.CustomerCredit);
    if HasKey(b.rows, t) {
      BalanceAppend(b.swallowed, t, Account.CustomerCredit);
    } else if ok {
      BalanceAppend(b.rows, t, Account.CustomerCredit);
    } else {
      BalanceAppend(b.failed, t, Account.CustomerCredit);
    }
  }

  lemma SwallowedIsApplication(b: Books, k: nat)
    requires k < |b.due| && LegsOk(b.notes, b.due) && Apart(b.rows, b.due) && HasKey(b.rows, b.due[k])
    ensures OnlyApplications([b.due[k]])
  {
  }

  lemma LegsRemove(ns: seq<CreditNote>, ts: seq<Transfer>, k: nat)
    requires LegsOk(ns, ts) && k < |ts|
    ensures LegsOk(ns, ts[..k] + ts[k + 1..])
  {
  }

  lemma PostInv(b: Books, k: nat, ok: bool)
    requires Inv(b) && k < |b.due|
    ensures Inv(Next(b, Post(k, ok)))
  {
    PostExplained(b, k, ok);
    PostApart(b, k);
    LegsRemove(b.notes, b.due, k);
    if HasKey(b.rows, b.due[k]) {
      SwallowedIsApplication(b, k);
    }
  }

  lemma PostApart(b: Books, k: nat)
    requires k < |b.due| && Apart(b.rows, b.due)
    ensures Apart(b.rows, b.due[..k] + b.due[k + 1..])
    ensures Apart(b.rows + [b.due[k]], b.due[..k] + b.due[k + 1..])
  {
  }

  /** A status change that leaves earlier legs true, with its new leg. */
  lemma ChangeInv(b: Books, ns: seq<CreditNote>, t: Transfer)
    requires Inv(b) && NotesOk(ns) && LegOk(ns, t)
    requires forall leg :: LegOk(b.notes, leg) ==> LegOk(ns, leg)
    requires forall leg :: LegOk(b.notes, leg) && SameKey(leg, t) ==> t.code == 7
    requires SpendableSum(ns) == SpendableSum(b.notes) + Effect(t, Account.CustomerCredit)
    ensures Inv(b.(notes := ns, due := b.due + [t]))
  {
    BalanceAppend(b.due, t, Account.CustomerCredit);
    LegsCarry(b.notes, ns, b.due);
    LegsCarry(b.notes, ns, b.rows);
    ApartAppend(b.notes, b.rows, b.due, t);
  }

  lemma LegsCarry(before: seq<CreditNote>, ns: seq<CreditNote>, ts: seq<Transfer>)
    requires LegsOk(before, ts)
    requires forall leg :: LegOk(before, leg) ==> LegOk(ns, leg)
    ensures LegsOk(ns, ts)
  {
  }

  lemma ApartAppend(ns: seq<CreditNote>, rows: seq<Transfer>, due: seq<Transfer>, t: Transfer)
    requires LegsOk(ns, rows) && LegsOk(ns, due) && Apart(rows, due)
    requires forall leg :: LegOk(ns, leg) && SameKey(leg, t) ==> t.code == 7
    ensures Apart(rows, due + [t])
  {
  }

  lemma CreateInv(b: Books, s: Step)
    requires Inv(b) && s.Create? && s.amount > 0
    ensures Inv(Next(b, s))
  {
    var n := CreditNote(s.scope, s.amount, s.amount, if s.maker then PendingApproval else Issued, s.expiresAt);
    if s.maker {
      AwaitingInv(b, n);
    } else {
      IssuedInv(b, n);
    }
  }

  lemma AwaitingInv(b: Books, n: CreditNote)
    requires Inv(b) && NoteOk(n) && n.status == PendingApproval
    ensures Inv(b.(notes := b.notes + [n]))
  {
    SpendableSnoc(b.notes, n);
    LegsCarry(b.notes, b.notes + [n], b.due);
    LegsCarry(b.notes, b.notes + [n], b.rows);
  }

  lemma IssuedInv(b: Books, n: CreditNote)
    requires Inv(b) && NoteOk(n) && n.status == Issued && n.balance == n.amount > 0
    ensures Inv(b.(notes := b.notes + [n], due := b.due + [IssueLeg(|b.notes|, n.amount)]))
  {
    SpendableSnoc(b.notes, n);
    ChangeInv(b, b.notes + [n], IssueLeg(|b.notes|, n.amount));
  }

  lemma ApproveInv(b: Books, i: nat)
    requires Inv(b) && i < |b.notes| && b.notes[i].status == PendingApproval
    ensures Inv(Next(b, Approve(i)))
  {
    var n := b.notes[i].(status := Issued);
    SpendableUpdate(b.notes, i, n);
    ChangeInv(b, b.notes[i := n], IssueLeg(i, n.amount));
  }

  lemma RejectInv(b: Books, i: nat)
    requires Inv(b) && i < |b.notes| && b.notes[i].status == PendingApproval
    ensures Inv(Next(b, Reject(i)))
  {
    SpendableUpdate(b.notes, i, b.notes[i].(status := Rejected));
  }

  lemma WithdrawInv(b: Books, i: nat, status: Status, code: nat)
    requires Inv(b) && i < |b.notes| && Spendable(b.notes[i])
    requires (status == Expired && code == 18) || (status == Void && code == 20)
    ensures Inv(Withdrawn(b, i, status, code))
  {
    var n := b.notes[i].(status := status, balance := 0);
    SpendableUpdate(b.notes, i, n);
    ChangeInv(b, b.notes[i := n], WithdrawLeg(i, b.notes[i].balance, code));
  }

  lemma DrawnNotesOk(ns: seq<CreditNote>, scope: Scope, total: nat)
    requires NotesOk(ns)
    ensures var ds := DrawDown(ns, scope, total);
            NotesOk(ds) && forall i :: 0 <= i < |ns| && ds[i] != ns[i] ==>
                ds[i].status in {Used, Issued} && ns[i].status == Issued && ds[i].amount == ns[i].amount
  {
    var ds := DrawDown(ns, scope, total);
    forall i | 0 <= i < |ns|
      ensures NoteOk(ds[i])
      ensures ds[i] != ns[i] ==>
          ds[i].status in {Used, Issued} && ns[i].status == Issued && ds[i].amount == ns[i].amount
    {
      DrawDownEach(ns, scope, total, i);
      assert NoteOk(ns[i]);
    }
  }

  /** Legs stay true when issued notes are drawn. */
  lemma DrawnLegsOk(ns: seq<CreditNote>, ds: seq<CreditNote>, leg: Transfer)
    requires |ds| == |ns| && LegOk(ns, leg)
    requires forall i :: 0 <= i < |ns| && ds[i] != ns[i] ==>
        ds[i].status in {Used, Issued} && ns[i].status == Issued && ds[i].amount == ns[i].amount
    ensures LegOk(ds, leg)
  {
  }

  lemma ApplyInv(b: Books, s: Step)
    requires Inv(b) && s.Apply? && Applied(b.notes, s.scope, s.total) > 0
    ensures Inv(Next(b, s))
  {
    var ns := DrawDown(b.notes, s.scope, s.total);
    DrawDownConserves(b.notes, s.scope, s.total);
    DrawnNotesOk(b.notes, s.scope, s.total);
    forall leg | LegOk(b.notes, leg) ensures LegOk(ns, leg) {
      DrawnLegsOk(b.notes, ns, leg);
    }
    ChangeInv(b, ns, ApplyLeg(s.invoice, Applied(b.notes, s.scope, s.total)));
  }

  lemma StepInv(b: Books, s: Step)
    requires Inv(b)
    ensures Inv(Next(b, s))
  {
    match s
    case Create(_, amount, _, _) => if amount > 0 { CreateInv(b, s); }
    case Approve(i) => if i < |b.notes| && b.notes[i].status == PendingApproval { ApproveInv(b, i); }
    case Reject(i) => if i < |b.notes| && b.notes[i].status == PendingApproval { RejectInv(b, i); }
    case Apply(scope, _, total) => if Applied(b.notes, scope, total) > 0 { ApplyInv(b, s); }
    case Expire(i, now) => if i < |b.notes| && ExpiryDue(b.notes[i], now) { WithdrawInv(b, i, Expired, 18); }
    case VoidNote(i) => if i < |b.notes| && Spendable(b.notes[i]) { WithdrawInv(b, i, Void, 20); }
    case Post(k, ok) => if k < |b.due| { PostInv(b, k, ok); }
  }

  lemma {:induction false} RunInv(b: Books, steps: seq<Step>)
    requires Inv(b)
    ensures Inv(Run(b, steps))
    decreases |steps|
  {
    if steps != [] {
      StepInv(b, steps[0]);
      RunInv(Next(b, steps[0]), steps[1..]);
    }
  }

  /** Over every run of issues, approvals, applications, expiries and voids, with their posts delayed, reordered or
      lost in any way, the Customer Credit account plus the posts still due, failed or swallowed is exactly what
      customers can spend. */
  lemma CustomerCreditExplained(steps: seq<Step>)
    ensures var b := Run(EMPTY_BOOKS, steps);
            Balance(b.rows, Account.CustomerCredit)
            == SpendableSum(b.notes) - Balance(b.due, Account.CustomerCredit)
             - Balance(b.failed, Account.CustomerCredit) - Balance(b.swallowed, Account.CustomerCredit)
  {
    RunInv(EMPTY_BOOKS, steps);
  }

  lemma {:induction false} ApplicationsLower(ts: seq<Transfer>)
    requires OnlyApplications(ts)
    ensures Balance(ts, Account.CustomerCredit) <= 0
    ensures Balance(ts, Account.CustomerCredit) == 0 <==> ts == []
  {
    if ts != [] {
      ApplicationsLower(ts[..|ts| - 1]);
    }
  }

  /** Once every post has been tried and none failed, the account is never below what customers can spend, and
      equals it if and only if no post was taken for a replay. */
  lemma CustomerCreditBound(steps: seq<Step>)
    requires var b := Run(EMPTY_BOOKS, steps); b.due == [] && b.failed == []
    ensures var b := Run(EMPTY_BOOKS, steps);
            && Balance(b.rows, Account.CustomerCredit) >= SpendableSum(b.notes)
            && (Balance(b.rows, Account.CustomerCredit) == SpendableSum(b.notes) <==> b.swallowed == [])
  {
    RunInv(EMPTY_BOOKS, steps);
    ApplicationsLower(Run(EMPTY_BOOKS, steps).swallowed);
  }

  lemma {:induction false} LegsBalance(ns: seq<CreditNote>, ts: seq<Transfer>)
    requires LegsOk(ns, ts)
    ensures Balance(ts, CreditsIssued) == Balance(ts, Account.CustomerCredit) - Balance(ts, Receivable)
  {
    if ts != [] {
      LegsBalance(ns, ts[..|ts| - 1]);
      assert LegOk(ns, ts[|ts| - 1]);
    }
  }

  /** The cost of credit in the ledger is always what is still owed to customers plus what settled their invoices:
      credit written off leaves no cost behind, and credit applied leaves no debt. */
  lemma CreditCostExplained(steps: seq<Step>)
    ensures var rows := Run(EMPTY_BOOKS, steps).rows;
            Balance(rows, CreditsIssued) == Balance(rows, Account.CustomerCredit) - Balance(rows, Receivable)
  {
    RunInv(EMPTY_BOOKS, steps);
    LegsBalance(Run(EMPTY_BOOKS, steps).notes, Run(EMPTY_BOOKS, steps).rows);
  }

  // ---- What the ledger takes for a replay ----

  predicate HasApplication(ts: seq<Transfer>, invoice: nat) {
    exists j :: 0 <= j < |ts| && ts[j].reference == InvoiceRef(invoice)
  }

  /** The step draws credit for an invoice. */
  predicate Draws(b: Books, s: Step) {
    s.Apply? && Applied(b.notes, s.scope, s.total) > 0
  }

  /** No step draws credit for an invoice that was drawn for before; `drawn` are those so far. */
  predicate DrawnOnce(b: Books, steps: seq<Step>, drawn: set<nat>)
    decreases |steps|
  {
    steps == [] ||
    (if Draws(b, steps[0])
     then steps[0].invoice !in drawn && DrawnOnce(Next(b, steps[0]), steps[1..], drawn + {steps[0].invoice})
     else DrawnOnce(Next(b, steps[0]), steps[1..], drawn))
  }

  /** The invoices that have an application leg, posted or due. */
  ghost predicate Within(b: Books, drawn: set<nat>) {
    forall v :: HasApplication(b.rows, v) || HasApplication(b.due, v) ==> v in drawn
  }

  /** No key is shared at all. */
  ghost predicate AllApart(rows: seq<Transfer>, due: seq<Transfer>) {
    && (forall i, j :: 0 <= i < |rows| && 0 <= j < |due| ==> !SameKey(rows[i], due[j]))
    && (forall i, j :: 0 <= i < j < |due| ==> !SameKey(due[i], due[j]))
  }

  lemma PostAllApart(b: Books, k: nat)
    requires k < |b.due| && AllApart(b.rows, b.due)
    ensures !HasKey(b.rows, b.due[k])
    ensures AllApart(b.rows, b.due[..k] + b.due[k + 1..])
    ensures AllApart(b.rows + [b.due[k]], b.due[..k] + b.due[k + 1..])
  {
  }

  lemma AppendAllApart(rows: seq<Transfer>, due: seq<Transfer>, t: Transfer)
    requires AllApart(rows, due) && Apart(rows, due + [t])
    requires t.code == 7 ==> t.reference.InvoiceRef? && !HasApplication(rows, t.reference.invoice)
                             && !HasApplication(due, t.reference.invoice)
    ensures AllApart(rows, due + [t])
  {
  }

  /** The one leg a business step adds, if any. */
  lemma AddsOneLeg(b: Books, s: Step)
    requires !s.Post?
    ensures var c := Next(b, s);
            && c.rows == b.rows && c.swallowed == b.swallowed
            && (c.due == b.due || (|c.due| == |b.due| + 1 && c.due == b.due + [c.due[|b.due|]]
                                   && (c.due[|b.due|].code == 7 ==>
                                         s.Apply? && c.due[|b.due|].reference == InvoiceRef(s.invoice))))
  {
  }

  lemma StepAllApart(b: Books, s: Step)
    requires Inv(b) && AllApart(b.rows, b.due)
    requires Draws(b, s) ==> !HasApplication(b.rows, s.invoice) && !HasApplication(b.due, s.invoice)
    ensures AllApart(Next(b, s).rows, Next(b, s).due)
    ensures Next(b, s).swallowed == b.swallowed
  {
    if s.Post? {
      if s.k < |b.due| {
        PostAllApart(b, s.k);
      }
    } else {
      StepInv(b, s);
      AddsOneLeg(b, s);
      if Next(b, s).due != b.due {
        AppendAllApart(b.rows, b.due, Next(b, s).due[|b.due|]);
      }
    }
  }

  lemma StepWithin(b: Books, s: Step, drawn: set<nat>)
    requires Inv(b) && Within(b, drawn)
    ensures Within(Next(b, s), if Draws(b, s) then drawn + {s.invoice} else drawn)
  {
    if s.Post? {
      PostWithin(b, s, drawn);
    } else {
      StepInv(b, s);
      AddsOneLeg(b, s);
      BusinessWithin(b, s, drawn);
    }
  }

  lemma BusinessWithin(b: Books, s: Step, drawn: set<nat>)
    requires Within(b, drawn) && !s.Post? && LegsOk(Next(b, s).notes, Next(b, s).due)
    requires Next(b, s).rows == b.rows && b.due <= Next(b, s).due
    requires forall j :: |b.due| <= j < |Next(b, s).due| && Next(b, s).due[j].code == 7 ==>
               Draws(b, s) && Next(b, s).due[j].reference == InvoiceRef(s.invoice)
    ensures Within(Next(b, s), if Draws(b, s) then drawn + {s.invoice} else drawn)
  {
    var due := Next(b, s).due;
    forall v | HasApplication(due, v) ensures v in drawn || (Draws(b, s) && v == s.invoice) {
      var j :| 0 <= j < |due| && due[j].reference == InvoiceRef(v);
      assert LegOk(Next(b, s).notes, due[j]);
      if j < |b.due| {
        assert due[j] == b.due[j];
      }
    }
  }

  lemma PostWithin(b: Books, s: Step, drawn: set<nat>)
    requires Within(b, drawn) && s.Post?
    ensures Within(Next(b, s), drawn)
  {
    var c := Next(b, s);
    forall v | HasApplication(c.rows, v) || HasApplication(c.due, v) ensures v in drawn {
      if HasApplication(c.rows, v) && !HasApplication(b.rows, v) {
        assert b.due[s.k].reference == InvoiceRef(v);
      } else if !HasApplication(c.rows, v) {
        var j :| 0 <= j < |c.due| && c.due[j].reference == InvoiceRef(v);
        assert c.due[j] in b.due;
      }
    }
  }

  lemma {:induction false} NothingSwallowed(b: Books, steps: seq<Step>, drawn: set<nat>)
    requires Inv(b) && AllApart(b.rows, b.due) && Within(b, drawn) && DrawnOnce(b, steps, drawn)
    ensures Run(b, steps).swallowed == b.swallowed
    decreases |steps|
  {
    if steps != [] {
      var s := steps[0];
      StepInv(b, s);
      StepWithin(b, s, drawn);
      StepAllApart(b, s);
      NothingSwallowed(Next(b, s), steps[1..], if Draws(b, s) then drawn + {s.invoice} else drawn);
    }
  }

  /** A key is shared, or a post was already swallowed or failed. */
  ghost predicate Clash(b: Books) {
    !AllApart(b.rows, b.due) || b.swallowed != [] || b.failed != []
  }

  /** Two legs with one key cannot both post: the clash stays until one of them is swallowed or fails. */
  lemma ClashStays(b: Books, s: Step)
    requires Clash(b)
    ensures Clash(Next(b, s))
  {
    if s.Post? {
      if s.k < |b.due| && !AllApart(b.rows, b.due) {
        PostClashes(b, s.k, s.ok);
      }
    } else {
      AddsOneLeg(b, s);
      if !AllApart(b.rows, b.due) {
        MoreClash(b.rows, b.due, Next(b, s).due);
      }
    }
  }

  lemma MoreClash(rows: seq<Transfer>, due: seq<Transfer>, more: seq<Transfer>)
    requires due <= more && !AllApart(rows, due)
    ensures !AllApart(rows, more)
  {
    if i, j :| 0 <= i < |rows| && 0 <= j < |due| && SameKey(rows[i], due[j]) {
      assert SameKey(rows[i], more[j]);
    } else {
      var i, j :| 0 <= i < j < |due| && SameKey(due[i], due[j]);
      assert SameKey(more[i], more[j]);
    }
  }

  lemma PostClashes(b: Books, k: nat, ok: bool)
    requires k < |b.due| && !AllApart(b.rows, b.due)
    ensures Clash(Next(b, Post(k, ok)))
  {
    var t, c := b.due[k], Next(b, Post(k, ok));
    if !HasKey(b.rows, t) && ok {
      if i, j :| 0 <= i < |b.rows| && 0 <= j < |b.due| && SameKey(b.rows[i], b.due[j]) {
        assert j != k && SameKey(c.rows[i], c.due[if j < k then j else j - 1]);
      } else {
        var i, j :| 0 <= i < j < |b.due| && SameKey(b.due[i], b.due[j]);
        DuePairPosts(b, c, k, i, j);
      }
    }
  }

  lemma DuePairPosts(b: Books, c: Books, k: nat, i: nat, j: nat)
    requires i < j < |b.due| && k < |b.due| && SameKey(b.due[i], b.due[j])
    requires c.due == b.due[..k] + b.due[k + 1..] && c.rows == b.rows + [b.due[k]]
    ensures !AllApart(c.rows, c.due)
  {
    var at := |b.rows|;
    if k == i {
      assert SameKey(c.rows[at], c.due[j - 1]);
    } else if k == j {
      assert SameKey(c.rows[at], c.due[i]);
    } else {
      assert SameKey(c.due[if i < k then i else i - 1], c.due[if j < k then j else j - 1]);
    }
  }

  lemma {:induction false} ClashRuns(b: Books, steps: seq<Step>)
    requires Clash(b)
    ensures Clash(Run(b, steps))
    decreases |steps|
  {
    if steps != [] {
      ClashStays(b, steps[0]);
      ClashRuns(Next(b, steps[0]), steps[1..]);
    }
  }

  /** Every invoice drawn for has its leg, or something has clashed already. */
  ghost predicate Covers(b: Books, drawn: set<nat>) {
    Clash(b) || forall v :: v in drawn ==> HasApplication(b.rows, v) || HasApplication(b.due, v)
  }

  lemma StepCovers(b: Books, s: Step, drawn: set<nat>)
    requires Inv(b) && Covers(b, drawn)
    ensures Draws(b, s) && s.invoice in drawn ==> Clash(Next(b, s))
    ensures Covers(Next(b, s), if Draws(b, s) then drawn + {s.invoice} else drawn)
  {
    if Clash(b) {
      ClashStays(b, s);
    } else if Draws(b, s) {
      DrawCovers(b, s, drawn);
    } else if s.Post? {
      PostCovers(b, s, drawn);
    } else {
      AddsOneLeg(b, s);
      forall v | v in drawn ensures HasApplication(Next(b, s).rows, v) || HasApplication(Next(b, s).due, v) {
        MoreApplications(b.due, Next(b, s).due, v);
      }
    }
  }

  lemma MoreApplications(due: seq<Transfer>, more: seq<Transfer>, v: nat)
    requires due <= more
    ensures HasApplication(due, v) ==> HasApplication(more, v)
  {
    if j :| 0 <= j < |due| && due[j].reference == InvoiceRef(v) {
      assert more[j].reference == InvoiceRef(v);
    }
  }

  lemma DrawCovers(b: Books, s: Step, drawn: set<nat>)
    requires Inv(b) && Draws(b, s)
    requires forall v :: v in drawn ==> HasApplication(b.rows, v) || HasApplication(b.due, v)
    ensures s.invoice in drawn ==> Clash(Next(b, s))
    ensures Covers(Next(b, s), drawn + {s.invoice})
  {
    var c := Next(b, s);
    var leg := ApplyLeg(s.invoice, Applied(b.notes, s.scope, s.total));
    assert c.due == b.due + [leg] && c.due[|b.due|] == leg;
    forall v | v in drawn + {s.invoice} ensures HasApplication(c.rows, v) || HasApplication(c.due, v) {
      MoreApplications(b.due, c.due, v);
    }
    if s.invoice in drawn {
      if j :| 0 <= j < |b.rows| && b.rows[j].reference == InvoiceRef(s.invoice) {
        assert LegOk(b.notes, b.rows[j]) && SameKey(c.rows[j], c.due[|b.due|]);
      } else {
        var j :| 0 <= j < |b.due| && b.due[j].reference == InvoiceRef(s.invoice);
        assert LegOk(b.notes, b.due[j]) && SameKey(c.due[j], c.due[|b.due|]);
      }
    }
  }

  lemma PostCovers(b: Books, s: Step, drawn: set<nat>)
    requires s.Post? && !Clash(b)
    requires forall v :: v in drawn ==> HasApplication(b.rows, v) || HasApplication(b.due, v)
    ensures Covers(Next(b, s), drawn)
  {
    if s.k < |b.due| && s.ok {
      PostAllApart(b, s.k);
      var c := Next(b, s);
      forall v | v in drawn ensures HasApplication(c.rows, v) || HasApplication(c.due, v) {
        if j :| 0 <= j < |b.rows| && b.rows[j].reference == InvoiceRef(v) {
          assert c.rows[j] == b.rows[j];
        } else {
          var j :| 0 <= j < |b.due| && b.due[j].reference == InvoiceRef(v);
          assert if j == s.k then c.rows[|b.rows|] == b.due[j] else c.due[if j < s.k then j else j - 1] == b.due[j];
        }
      }
    }
  }

  lemma {:induction false} RepeatClashes(b: Books, steps: seq<Step>, drawn: set<nat>)
    requires Inv(b) && Covers(b, drawn) && !DrawnOnce(b, steps, drawn)
    ensures Clash(Run(b, steps))
    decreases |steps|
  {
    if steps != [] {
      var s := steps[0];
      StepInv(b, s);
      StepCovers(b, s, drawn);
      if Draws(b, s) && s.invoice in drawn {
        ClashRuns(Next(b, s), steps[1..]);
      } else {
        RepeatClashes(Next(b, s), steps[1..], if Draws(b, s) then drawn + {s.invoice} else drawn);
      }
    }
  }

  /** Once every post has been tried and none failed, in whatever order: the account equals what customers can spend
      if and only if no application drew credit for an invoice that an earlier one had drawn for. */
  lemma CustomerCreditTiesIff(steps: seq<Step>)
    requires var b := Run(EMPTY_BOOKS, steps); b.due == [] && b.failed == []
    ensures var b := Run(EMPTY_BOOKS, steps);
            Balance(b.rows, Account.CustomerCredit) == SpendableSum(b.notes) <==> DrawnOnce(EMPTY_BOOKS, steps, {})
  {
    CustomerCreditBound(steps);
    if DrawnOnce(EMPTY_BOOKS, steps, {}) {
      NothingSwallowed(EMPTY_BOOKS, steps, {});
    } else {
      RepeatClashes(EMPTY_BOOKS, steps, {});
    }
  }

  /** A second application to an invoice whose first is posted is swallowed even though its post succeeds, and
      leaves the account above what customers can spend by the amount applied. */
  lemma SecondApplicationOverstates(b: Books, s: Step)
    requires Inv(b) && b.due == [] && s.Apply? && Applied(b.notes, s.scope, s.total) > 0
    requires HasApplication(b.rows, s.invoice)
    ensures var c := Next(Next(b, s), Post(0, true));
            && c.due == [] && c.rows == b.rows
            && SpendableSum(c.notes) == SpendableSum(b.notes) - Applied(b.notes, s.scope, s.total)
  {
    DrawDownConserves(b.notes, s.scope, s.total);
    var leg := ApplyLeg(s.invoice, Applied(b.notes, s.scope, s.total));
    assert Next(b, s).due == [leg];
    var j :| 0 <= j < |b.rows| && b.rows[j].reference == InvoiceRef(s.invoice);
    assert LegOk(b.notes, b.rows[j]) && SameKey(b.rows[j], leg);
  }

  // ---- The reconciler's figure ----

  lemma {:induction false} ReconcilerCountsHeld(ns: seq<CreditNote>)
    requires NotesOk(ns)
    ensures ReconcilerSum(ns) == SpendableSum(ns) + OnHold(ns)
  {
    if ns != [] {
      assert NoteOk(ns[|ns| - 1]);
      ReconcilerCountsHeld(ns[..|ns| - 1]);
    }
  }

  lemma {:induction false} NothingOnHold(ns: seq<CreditNote>)
    requires forall i :: 0 <= i < |ns| ==> ns[i].status in {PendingApproval, Rejected} ==> ns[i].balance > 0
    ensures OnHold(ns) == 0 <==> forall i :: 0 <= i < |ns| ==> ns[i].status !in {PendingApproval, Rejected}
  {
    if ns != [] {
      NothingOnHold(ns[..|ns| - 1]);
    }
  }

  /** The reconciler expects more than customers can spend by exactly the credit that awaits approval or was
      rejected, so its figure is right if and only if there is no such note. */
  lemma ReconcilerExpectsTooMuch(steps: seq<Step>)
    ensures var b := Run(EMPTY_BOOKS, steps);
            && ReconcilerSum(b.notes) == SpendableSum(b.notes) + OnHold(b.notes)
            && (ReconcilerSum(b.notes) == SpendableSum(b.notes) <==>
                  forall i :: 0 <= i < |b.notes| ==> b.notes[i].status !in {PendingApproval, Rejected})
  {
    RunInv(EMPTY_BOOKS, steps);
    var ns := Run(EMPTY_BOOKS, steps).notes;
    ReconcilerCountsHeld(ns);
    assert forall i :: 0 <= i < |ns| ==> NoteOk(ns[i]);
    NothingOnHold(ns);
  }

  // ---- The repository's loops ----

  function CountDue(ns: seq<CreditNote>, now: int): nat {
    if ns == [] then 0 else CountDue(ns[..|ns| - 1], now) + (if ExpiryDue(ns[|ns| - 1], now) then 1 else 0)
  }

  lemma {:induction false} CountDueUpdate(ns: seq<CreditNote>, now: int, i: nat, n: CreditNote)
    requires i < |ns| && ExpiryDue(ns[i], now) && !ExpiryDue(n, now)
    ensures CountDue(ns[i := n], now) == CountDue(ns, now) - 1
  {
    var last := |ns| - 1;
    if i == last {
      assert ns[i := n][..last] == ns[..last];
    } else {
      assert ns[i := n][..last] == ns[..last][i := n];
      CountDueUpdate(ns[..last], now, i, n);
    }
  }

  lemma {:induction false} NoneDue(ns: seq<CreditNote>, now: int)
    requires forall i :: 0 <= i < |ns| ==> !ExpiryDue(ns[i], now)
    ensures CountDue(ns, now) == 0
  {
    if ns != [] {
      NoneDue(ns[..|ns| - 1], now);
    }
  }

  function Expiry(n: CreditNote): int {
    if n.expiresAt.Some? then n.expiresAt.value else 0
  }

  lemma DrawOne(done: seq<CreditNote>, rest: seq<CreditNote>, scope: Scope, remaining: nat)
    requires rest != []
    ensures var take := Take(rest[0], scope, remaining);
            && done + DrawDown(rest, scope, remaining)
            == (done + [Drawn(rest[0], take)]) + DrawDown(rest[1..], scope, remaining - take)
            && Applied(rest, scope, remaining) == take + Applied(rest[1..], scope, remaining - take)
  {
  }

  /** One note's draw-down for an invoice, or its write-off by the expiry sweep. */
  datatype Movement = Movement(note: nat, amount: nat)

  function MovedSum(ms: seq<Movement>): nat {
    if ms == [] then 0 else MovedSum(ms[..|ms| - 1]) + ms[|ms| - 1].amount
  }

  const CREDIT_EXPIRY_BATCH := 500

  /** The legs ExpireDueCredits posts for what a sweep claimed. */
  function ExpiryLegs(ms: seq<Movement>): seq<Transfer> {
    if ms == [] then []
    else ExpiryLegs(ms[..|ms| - 1]) + [WithdrawLeg(ms[|ms| - 1].note, ms[|ms| - 1].amount, 18)]
  }

  lemma {:induction false} LegsCount(ms: seq<Movement>)
    ensures |ExpiryLegs(ms)| == |ms|
  {
    if ms != [] {
      LegsCount(ms[..|ms| - 1]);
    }
  }

  function Fresh(notes: seq<CreditNote>, due: seq<Transfer>): Books {
    Books(notes, due, [], [], [])
  }

  lemma {:induction false} RunAppend(b: Books, steps: seq<Step>, s: Step)
    ensures Run(b, steps + [s]) == Next(Run(b, steps), s)
    decreases |steps|
  {
    if steps == [] {
      assert [] + [s] == [s] && [s][1..] == [];
    } else {
      assert (steps + [s])[1..] == steps[1..] + [s];
      RunAppend(Next(b, steps[0]), steps[1..], s);
    }
  }

  /** One more claimed note is one more expiry step of the books. */
  lemma ExpireNext(start: Books, steps: seq<Step>, notes: seq<CreditNote>, ms: seq<Movement>, k: nat, now: int)
    requires Run(start, steps) == Fresh(notes, ExpiryLegs(ms)) && k < |notes| && ExpiryDue(notes[k], now)
    ensures Run(start, steps + [Expire(k, now)])
         == Fresh(notes[k := notes[k].(status := Expired, balance := 0)],
             ExpiryLegs(ms + [Movement(k, notes[k].balance)]))
  {
    RunAppend(start, steps, Expire(k, now));
    assert (ms + [Movement(k, notes[k].balance)])[..|ms|] == ms;
  }

  lemma MovedSnoc(ms: seq<Movement>, m: Movement)
    ensures MovedSum(ms + [m]) == MovedSum(ms) + m.amount
  {
    assert (ms + [m])[..|ms|] == ms;
  }

  /** The audit rows written for the first `i` notes say by how much each of them was drawn down. */
  ghost predicate Audited(before: seq<CreditNote>, after: seq<CreditNote>, ms: seq<Movement>, i: nat) {
    && |after| == |before|
    && forall m :: m in ms ==>
         m.note < i <= |before| && m.amount > 0 && before[m.note].balance == after[m.note].balance + m.amount
  }

  lemma AuditNext(before: seq<CreditNote>, after: seq<CreditNote>, ms: seq<Movement>, i: nat, take: nat)
    requires Audited(before, after, ms, i) && i < |after| && after[i] == before[i] && take <= after[i].balance
    ensures Audited(before, after[i := Drawn(after[i], take)], if take > 0 then ms + [Movement(i, take)] else ms, i + 1)
  {
  }

  /** What a sweep did: each claimed note was due, is emptied, and expired no later than any due note left; the
      others are as they were. */
  ghost predicate Swept(before: seq<CreditNote>, after: seq<CreditNote>, ms: seq<Movement>, now: int) {
    && |after| == |before|
    && (forall m :: m in ms ==>
          && m.note < |before| && ExpiryDue(before[m.note], now) && m.amount == before[m.note].balance
          && after[m.note] == before[m.note].(status := Expired, balance := 0))
    && (forall i :: 0 <= i < |before| && (forall m :: m in ms ==> m.note != i) ==> after[i] == before[i])
    && (forall i, m :: 0 <= i < |before| && ExpiryDue(after[i], now) && m in ms ==>
        Expiry(before[m.note]) <= Expiry(after[i]))
  }

  lemma SweptNext(before: seq<CreditNote>, after: seq<CreditNote>, ms: seq<Movement>, k: nat, now: int)
    requires Swept(before, after, ms, now) && k < |after| && ExpiryDue(after[k], now)
    requires forall i :: 0 <= i < |after| && ExpiryDue(after[i], now) ==> Expiry(after[k]) <= Expiry(after[i])
    ensures var expired := after[k].(status := Expired, balance := 0);
            Swept(before, after[k := expired], ms + [Movement(k, after[k].balance)], now)
  {
    assert forall m :: m in ms ==> m.note != k;
  }

  /** A note that has expired and still holds credit, by its columns. */
  predicate HoldsExpired(n: CreditNote, now: int) {
    n.status == Issued && n.balance > 0 && n.expiresAt != None && n.expiresAt.value <= now
  }

  /** The sweep by the notes' columns: what it claimed held expired credit, lost all of it and nothing else; a note
      that never expires, or not yet, is as it was; and what it left expired no earlier. */
  ghost predicate SweptExpired(before: seq<CreditNote>, after: seq<CreditNote>, ms: seq<Movement>, now: int) {
    && |after| == |before|
    && (forall m :: m in ms ==>
          && m.note < |before| && HoldsExpired(before[m.note], now) && m.amount == before[m.note].balance
          && after[m.note] == before[m.note].(status := Expired, balance := 0))
    && (forall i :: 0 <= i < |before| && (before[i].expiresAt == None || before[i].expiresAt.value > now) ==>
          after[i] == before[i])
    && (forall i, m :: 0 <= i < |before| && HoldsExpired(after[i], now) && m in ms ==>
          before[m.note].expiresAt.value <= after[i].expiresAt.value)
  }

  lemma SweptAre(before: seq<CreditNote>, after: seq<CreditNote>, ms: seq<Movement>, now: int)
    requires Swept(before, after, ms, now)
    ensures SweptExpired(before, after, ms, now)
  {
    forall i | 0 <= i < |before| && (before[i].expiresAt == None || before[i].expiresAt.value > now)
        ensures after[i] == before[i] {
      assert forall m :: m in ms ==> m.note != i;
    }
  }

  lemma {:induction false} NoneDueHolds(ns: seq<CreditNote>, now: int)
    requires CountDue(ns, now) == 0
    ensures forall i :: 0 <= i < |ns| ==> !HoldsExpired(ns[i], now)
  {
    if ns != [] {
      NoneDueHolds(ns[..|ns| - 1], now);
    }
  }

  /** An expiry step takes exactly an issued note whose time has come, and all of its balance. */
  lemma ExpiresIff(b: Books, i: nat, now: int)
    requires i < |b.notes|
    ensures var c := Next(b, Expire(i, now));
            && (c != b <==> HoldsExpired(b.notes[i], now))
            && (c != b ==> c.notes[i] == b.notes[i].(status := Expired, balance := 0)
                           && SpendableSum(c.notes) == SpendableSum(b.notes) - b.notes[i].balance)
  {
    if HoldsExpired(b.notes[i], now) {
      SpendableUpdate(b.notes, i, b.notes[i].(status := Expired, balance := 0));
    }
  }

  /** What an application writes on the invoice. */
  datatype Bill = Bill(creditApplied: nat, paid: bool)

  class CreditNoteStore {
    var notes: seq<CreditNote>
    var bills: map<nat, Bill>

    /** The notes locked oldest first, each drawn down until the total is covered, with an audit row for each. */
    method DrawNotes(scope: Scope, total: nat) returns (applied: nat, applications: seq<Movement>)
      modifies this`notes
      ensures notes == DrawDown(old(notes), scope, total) && applied == Applied(old(notes), scope, total)
      ensures MovedSum(applications) == applied
      ensures Audited(old(notes), notes, applications, |notes|)
    {
      applied, applications := 0, [];
      var remaining := total;
      for i := 0 to |notes|
        invariant |notes| == |old(notes)| && notes[i..] == old(notes)[i..]
        invariant DrawDown(old(notes), scope, total) == notes[..i] + DrawDown(old(notes)[i..], scope, remaining)
        invariant Applied(old(notes), scope, total) == applied + Applied(old(notes)[i..], scope, remaining)
        invariant MovedSum(applications) == applied
        invariant Audited(old(notes), notes, applications, i)
      {
        ghost var before, rest := notes[..i], old(notes)[i..];
        var n := notes[i];
        assert n == rest[0] && rest[1..] == old(notes)[i + 1..];
        DrawOne(before, rest, scope, remaining);
        var take := Take(n, scope, remaining);
        AuditNext(old(notes), notes, applications, i, take);
        if take > 0 {
          MovedSnoc(applications, Movement(i, take));
          applications := applications + [Movement(i, take)];
        }
        notes := notes[i := Drawn(n, take)];
        applied := applied + take;
        remaining := remaining - take;
        assert notes[..i + 1] == before + [Drawn(n, take)];
        assert notes[i + 1..] == old(notes)[i + 1..];
      }
      assert notes[..|notes|] == notes;
    }

    /** The update of the invoice row, when something was applied. */
    method SettleBill(invoice: nat, applied: nat, invoiceTotal: int)
      modifies this`bills
      ensures bills == if applied > 0 && invoice in old(bills)
                       then old(bills)[invoice := Bill(applied, old(bills)[invoice].paid || applied >= invoiceTotal)]
                       else old(bills)
    {
      if applied > 0 && invoice in bills {
        if applied >= invoiceTotal {
          bills := bills[invoice := Bill(applied, true)];
        } else {
          bills := bills[invoice := bills[invoice].(creditApplied := applied)];
        }
      }
    }

    /** ApplyAdjustmentCredits, in one transaction: the notes drawn down until the invoice is covered; the invoice
        then carries what was applied, and is paid exactly when that covers it (or it was paid before). */
    method ApplyAdjustmentCredits(scope: Scope, invoice: nat, invoiceTotal: int)
      returns (applied: nat, applications: seq<Movement>)
      modifies this
      ensures var total := if invoiceTotal < 0 then 0 else invoiceTotal;
              notes == DrawDown(old(notes), scope, total) && applied == Applied(old(notes), scope, total)
      ensures bills == if applied > 0 && invoice in old(bills)
                       then old(bills)[invoice := Bill(applied, old(bills)[invoice].paid || applied == invoiceTotal)]
                       else old(bills)
      ensures DrawnByColumns(old(notes), notes, scope, applied < invoiceTotal)
      ensures MovedSum(applications) == applied
      ensures Audited(old(notes), notes, applications, |notes|)
    {
      DrawDownColumns(notes, scope, if invoiceTotal < 0 then 0 else invoiceTotal);
      if invoiceTotal <= 0 {
        DrawNothing(notes, scope);
        return 0, [];
      }
      applied, applications := DrawNotes(scope, invoiceTotal);
      SettleBill(invoice, applied, invoiceTotal);
    }

    /** ClaimExpiredCredits: at most `limit` due notes, the earliest expiry first, zeroed and marked expired. */
    method ClaimExpiredCredits(now: int, limit: nat) returns (claimed: seq<Movement>, ghost steps: seq<Step>)
      modifies this
      ensures Run(Fresh(old(notes), []), steps) == Fresh(notes, ExpiryLegs(claimed))
      ensures |notes| == |old(notes)|
      ensures |claimed| == if CountDue(old(notes), now) < limit then CountDue(old(notes), now) else limit
      ensures CountDue(notes, now) == CountDue(old(notes), now) - |claimed|
      ensures Swept(old(notes), notes, claimed, now) && SweptExpired(old(notes), notes, claimed, now)
      ensures |claimed| < limit ==> forall i :: 0 <= i < |notes| ==> !HoldsExpired(notes[i], now)
    {
      claimed, steps := [], [];
      while |claimed| < limit
        invariant |notes| == |old(notes)| && |claimed| <= limit
        invariant Run(Fresh(old(notes), []), steps) == Fresh(notes, ExpiryLegs(claimed))
        invariant CountDue(old(notes), now) == CountDue(notes, now) + |claimed|
        invariant Swept(old(notes), notes, claimed, now)
      {
        var next := EarliestDue(now);
        if next == |notes| {
          NoneDue(notes, now);
          NoneDueHolds(notes, now);
          SweptAre(old(notes), notes, claimed, now);
          return;
        }
        var n := notes[next];
        ExpireNext(Fresh(old(notes), []), steps, notes, claimed, next, now);
        SweptNext(old(notes), notes, claimed, next, now);
        steps := steps + [Expire(next, now)];
        CountDueUpdate(notes, now, next, n.(status := Expired, balance := 0));
        notes := notes[next := n.(status := Expired, balance := 0)];
        claimed := claimed + [Movement(next, n.balance)];
      }
      SweptAre(old(notes), notes, claimed, now);
    }

    /** ExpireDueCredits: one bounded sweep, and the legs its notes call for, as expiry steps of the books. */
    method ExpireDueCredits(now: int)
      returns (legs: seq<Transfer>, ghost claimed: seq<Movement>, ghost steps: seq<Step>)
      modifies this
      ensures Run(Fresh(old(notes), []), steps) == Fresh(notes, legs)
      ensures SweptExpired(old(notes), notes, claimed, now) && legs == ExpiryLegs(claimed)
      ensures CountDue(old(notes), now) < CREDIT_EXPIRY_BATCH ==> CountDue(notes, now) == 0
      ensures |legs| < CREDIT_EXPIRY_BATCH ==> forall i :: 0 <= i < |notes| ==> !HoldsExpired(notes[i], now)
    {
      var swept, s := ClaimExpiredCredits(now, CREDIT_EXPIRY_BATCH);
      claimed, steps := swept, s;
      LegsCount(swept);
      legs := PostExpiries(swept);
    }

    method PostExpiries(claimed: seq<Movement>) returns (legs: seq<Transfer>)
      ensures legs == ExpiryLegs(claimed)
    {
      legs := [];
      for i := 0 to |claimed|
        invariant legs == ExpiryLegs(claimed[..i])
      {
        assert claimed[..i + 1][..i] == claimed[..i];
        legs := legs + [WithdrawLeg(claimed[i].note, claimed[i].amount, 18)];
      }
      assert claimed[..|claimed|] == claimed;
    }

    /** ORDER BY expires_at: the due note that expires first, or the number of notes when none is due. */
    method EarliestDue(now: int) returns (k: nat)
      ensures k <= |notes|
      ensures k < |notes| ==> ExpiryDue(notes[k], now)
      ensures k < |notes| ==> forall i :: 0 <= i < |notes| && ExpiryDue(notes[i], now) ==>
                Expiry(notes[k]) <= Expiry(notes[i])
      ensures k == |notes| ==> forall i :: 0 <= i < |notes| ==> !ExpiryDue(notes[i], now)
    {
      k := |notes|;
      for i := 0 to |notes|
        invariant k < i || k == |notes|
        invariant k < |notes| ==> ExpiryDue(notes[k], now)
        invariant k < |notes| ==> forall j :: 0 <= j < i && ExpiryDue(notes[j], now) ==>
                    Expiry(notes[k]) <= Expiry(notes[j])
        invariant k == |notes| ==> forall j :: 0 <= j < i ==> !ExpiryDue(notes[j], now)
      {
        if ExpiryDue(notes[i], now) && (k == |notes| || Expiry(notes[i]) < Expiry(notes[k])) {
          k := i;
        }
      }
    }
  }

  lemma {:induction false} DrawNothing(ns: seq<CreditNote>, scope: Scope)
    ensures DrawDown(ns, scope, 0) == ns
  {
    forall i | 0 <= i < |ns| ensures DrawDown(ns, scope, 0)[i] == ns[i] {
      NothingLeftNothingDrawn(ns, scope, i);
    }
  }
}
