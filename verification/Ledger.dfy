/**
  The double-entry ledger: transfers between two accounts, inserted once per
  (reference, code, occurrence), with running balances kept beside the rows
  (internal/adapter/db/ledger_repository.go:401-516).
 */
module Ledger {

  datatype Account =
    | Cash | Receivable | TdsReceivable
    | DeferredRevenue | TaxPayable | CustomerCredit
    | Revenue | RecognizedRevenue
    | Refunds | CreditsIssued | BadDebt

  /** Assets and expenses grow with debits, every other account with credits. */
  predicate DebitNormal(a: Account) {
    a in {Cash, Receivable, TdsReceivable, Refunds, CreditsIssued, BadDebt}
  }

  /** The signed balance that stored totals stand for. */
  function Net(a: Account, debits: int, credits: int): int {
    if DebitNormal(a) then debits - credits else credits - debits
  }

  /** The business object a posting belongs to. */
  datatype Reference =
    | InvoiceRef(invoice: nat)
    | EventRef(invoice: nat, event: nat)
    | RefundRef(invoice: nat, refund: nat)
    | NoteRef(note: nat)

  datatype Transfer = Transfer(debit: Account, credit: Account, amount: nat, code: nat,
                               reference: Reference, occurrence: nat, at: int)

  /** Signed movement of one account by one transfer, in the account's normal direction. */
  function Effect(t: Transfer, a: Account): int {
    var debits := if t.debit == a then t.amount else 0;
    var credits := if t.credit == a then t.amount else 0;
    Net(a, debits, credits)
  }

  function Balance(rows: seq<Transfer>, a: Account): int {
    if rows == [] then 0 else Balance(rows[..|rows| - 1], a) + Effect(rows[|rows| - 1], a)
  }

  function Debits(rows: seq<Transfer>, a: Account): nat {
    if rows == [] then 0
    else Debits(rows[..|rows| - 1], a) + (if rows[|rows| - 1].debit == a then rows[|rows| - 1].amount else 0)
  }

  function Credits(rows: seq<Transfer>, a: Account): nat {
    if rows == [] then 0
    else Credits(rows[..|rows| - 1], a) + (if rows[|rows| - 1].credit == a then rows[|rows| - 1].amount else 0)
  }

  predicate SameKey(s: Transfer, t: Transfer) {
    s.reference == t.reference && s.code == t.code && s.occurrence == t.occurrence
  }

  predicate HasKey(rows: seq<Transfer>, t: Transfer) {
    exists i :: 0 <= i < |rows| && SameKey(rows[i], t)
  }

  /** Insert once: a transfer whose key is already present is dropped. */
  function Post(rows: seq<Transfer>, t: Transfer): (r: seq<Transfer>)
    ensures rows <= r && HasKey(r, t)
  {
    if HasKey(rows, t) then rows
    else
      assert SameKey((rows + [t])[|rows|], t);
      rows + [t]
  }

  function PostAll(rows: seq<Transfer>, ts: seq<Transfer>): seq<Transfer> {
    if ts == [] then rows else Post(PostAll(rows, ts[..|ts| - 1]), ts[|ts| - 1])
  }

  ghost predicate KeysUnique(rows: seq<Transfer>) {
    forall i, j :: 0 <= i < j < |rows| ==> !SameKey(rows[i], rows[j])
  }

  // ---- Balances ----

  lemma BalanceAppend(rows: seq<Transfer>, t: Transfer, a: Account)
    ensures Balance(rows + [t], a) == Balance(rows, a) + Effect(t, a)
  {
  }

  lemma {:induction false} BalanceConcat(rows: seq<Transfer>, more: seq<Transfer>, a: Account)
    ensures Balance(rows + more, a) == Balance(rows, a) + Balance(more, a)
  {
    if more == [] {
      assert rows + more == rows;
    } else {
      var n := |more| - 1;
      assert rows + more == (rows + more[..n]) + [more[n]];
      BalanceAppend(rows + more[..n], more[n], a);
      BalanceConcat(rows, more[..n], a);
    }
  }

  /** The stored signed balance is the difference of the two stored totals. */
  lemma {:induction false} BalanceIsNetOfTotals(rows: seq<Transfer>, a: Account)
    ensures Balance(rows, a) == Net(a, Debits(rows, a), Credits(rows, a))
  {
    if rows != [] {
      BalanceIsNetOfTotals(rows[..|rows| - 1], a);
    }
  }

  lemma TotalsAppend(rows: seq<Transfer>, t: Transfer, a: Account)
    ensures Debits(rows + [t], a) == Debits(rows, a) + (if t.debit == a then t.amount else 0)
    ensures Credits(rows + [t], a) == Credits(rows, a) + (if t.credit == a then t.amount else 0)
    ensures Balance(rows, a) == Net(a, Debits(rows, a), Credits(rows, a))
    ensures Balance(rows + [t], a) == Net(a, Debits(rows + [t], a), Credits(rows + [t], a))
  {
    assert (rows + [t])[..|rows|] == rows;
    BalanceIsNetOfTotals(rows, a);
    BalanceIsNetOfTotals(rows + [t], a);
  }

  function TotalDebits(rows: seq<Transfer>): int {
    Debits(rows, Cash) + Debits(rows, Receivable) + Debits(rows, TdsReceivable) + Debits(rows, DeferredRevenue)
    + Debits(rows, TaxPayable) + Debits(rows, CustomerCredit) + Debits(rows, Revenue) + Debits(rows, RecognizedRevenue)
    + Debits(rows, Refunds) + Debits(rows, CreditsIssued) + Debits(rows, BadDebt)
  }

  function TotalCredits(rows: seq<Transfer>): int {
    Credits(rows, Cash) + Credits(rows, Receivable) + Credits(rows, TdsReceivable) + Credits(rows, DeferredRevenue)
    + Credits(rows, TaxPayable) + Credits(rows, CustomerCredit) + Credits(rows, Revenue)
        + Credits(rows, RecognizedRevenue)
    + Credits(rows, Refunds) + Credits(rows, CreditsIssued) + Credits(rows, BadDebt)
  }

  function Turnover(rows: seq<Transfer>): nat {
    if rows == [] then 0 else Turnover(rows[..|rows| - 1]) + rows[|rows| - 1].amount
  }

  lemma {:induction false} DebitsAddUp(rows: seq<Transfer>)
    ensures TotalDebits(rows) == Turnover(rows)
  {
    if rows != [] {
      var before, t := rows[..|rows| - 1], rows[|rows| - 1];
      DebitsAddUp(before);
      forall a: Account ensures Debits(rows, a) == Debits(before, a) + (if t.debit == a then t.amount else 0) {
      }
    }
  }

  lemma {:induction false} CreditsAddUp(rows: seq<Transfer>)
    ensures TotalCredits(rows) == Turnover(rows)
  {
    if rows != [] {
      var before, t := rows[..|rows| - 1], rows[|rows| - 1];
      CreditsAddUp(before);
      forall a: Account ensures Credits(rows, a) == Credits(before, a) + (if t.credit == a then t.amount else 0) {
      }
    }
  }

  /** The trial balance always balances. */
  lemma TrialBalance(rows: seq<Transfer>)
    ensures TotalDebits(rows) == TotalCredits(rows)
  {
    DebitsAddUp(rows);
    CreditsAddUp(rows);
  }

  // ---- Idempotence ----

  lemma PostKeepsKeysUnique(rows: seq<Transfer>, t: Transfer)
    requires KeysUnique(rows)
    ensures KeysUnique(Post(rows, t))
  {
  }

  lemma {:induction false} PostAllKeeps(rows: seq<Transfer>, ts: seq<Transfer>)
    ensures rows <= PostAll(rows, ts)
    ensures forall t :: t in ts ==> HasKey(PostAll(rows, ts), t)
  {
    if ts != [] {
      var n := |ts| - 1;
      PostAllKeeps(rows, ts[..n]);
      var before := PostAll(rows, ts[..n]);
      forall t | t in ts ensures HasKey(PostAll(rows, ts), t) {
        if t in ts[..n] {
          HasKeyMonotone(before, PostAll(rows, ts), t);
        }
      }
    }
  }

  lemma HasKeyMonotone(rows: seq<Transfer>, more: seq<Transfer>, t: Transfer)
    requires rows <= more && HasKey(rows, t)
    ensures HasKey(more, t)
  {
  }

  lemma {:induction false} PostAllKnown(rows: seq<Transfer>, ts: seq<Transfer>)
    requires forall t :: t in ts ==> HasKey(rows, t)
    ensures PostAll(rows, ts) == rows
  {
    if ts != [] {
      PostAllKnown(rows, ts[..|ts| - 1]);
    }
  }

  /** Replaying any batch of postings, in full, changes nothing. */
  lemma ReplayChangesNothing(rows: seq<Transfer>, ts: seq<Transfer>)
    ensures PostAll(PostAll(rows, ts), ts) == PostAll(rows, ts)
  {
    PostAllKeeps(rows, ts);
    PostAllKnown(PostAll(rows, ts), ts);
  }

  // ---- Rollforward of one account over a period ----

  /** Net movement of an account by the postings before a moment. */
  function BalanceBefore(rows: seq<Transfer>, a: Account, moment: int): int {
    if rows == [] then 0
    else
      var t := rows[|rows| - 1];
      BalanceBefore(rows[..|rows| - 1], a, moment) + (if t.at < moment then Effect(t, a) else 0)
  }

  /** The persisted ledger: rows plus the totals and signed balance kept on each account. */
  class LedgerStore {
    var rows: seq<Transfer>
    var debitsPosted: map<Account, nat>
    var creditsPosted: map<Account, nat>
    var balance: map<Account, int>

    /** Every stored total is what the rows add up to. */
    ghost predicate Valid()
      reads this
    {
      && KeysUnique(rows)
      && (forall a: Account :: a in debitsPosted && debitsPosted[a] == Debits(rows, a))
      && (forall a: Account :: a in creditsPosted && creditsPosted[a] == Credits(rows, a))
      && (forall a: Account :: a in balance && balance[a] == Balance(rows, a))
    }

    constructor ()
      ensures Valid() && rows == []
    {
      rows := [];
      debitsPosted := map a: Account | a in AllAccounts() :: 0;
      creditsPosted := map a: Account | a in AllAccounts() :: 0;
      balance := map a: Account | a in AllAccounts() :: 0;
    }

    /** applyLedgerTx: insert unless the key exists, and move both balances only when a row went in. */
    method ApplyLedgerTx(t: Transfer)
      requires Valid()
      modifies this
      ensures Valid()
      ensures rows == Post(old(rows), t)
    {
      if HasKey(rows, t) {
        return;
      }
      ghost var before := rows;
      PostKeepsKeysUnique(rows, t);
      rows := rows + [t];
      debitsPosted := debitsPosted[t.debit := debitsPosted[t.debit] + t.amount];
      balance := balance[t.debit := Net(t.debit, debitsPosted[t.debit], creditsPosted[t.debit])];
      creditsPosted := creditsPosted[t.credit := creditsPosted[t.credit] + t.amount];
      balance := balance[t.credit := Net(t.credit, debitsPosted[t.credit], creditsPosted[t.credit])];
      forall a: Account
        ensures debitsPosted[a] == Debits(rows, a) && creditsPosted[a] == Credits(rows, a)
        ensures balance[a] == Balance(rows, a)
      {
        TotalsAppend(before, t, a);
      }
    }

    /** CreateTransactions: all legs in one database transaction; a failing leg rolls everything back. */
    method CreateTransactions(ts: seq<Transfer>, failAt: nat) returns (ok: bool)
      requires Valid()
      modifies this
      ensures Valid()
      ensures ok == (failAt >= |ts|)
      ensures rows == if ok then PostAll(old(rows), ts) else old(rows)
    {
      var savedRows, savedDebits, savedCredits, savedBalance := rows, debitsPosted, creditsPosted, balance;
      var i := 0;
      while i < |ts|
        invariant 0 <= i <= |ts| && i <= failAt
        invariant Valid()
        invariant rows == PostAll(old(rows), ts[..i])
      {
        if i == failAt {
          rows, debitsPosted, creditsPosted, balance := savedRows, savedDebits, savedCredits, savedBalance;
          return false;
        }
        assert ts[..i + 1][..i] == ts[..i];
        ApplyLedgerTx(ts[i]);
        i := i + 1;
      }
      assert ts[..i] == ts;
      return true;
    }

    /** recomputeLedgerBalances (cmd/demo_seed/main.go:405-416): rebuild every stored figure from the rows.
        It repairs any stored balances, and leaves a ledger whose balances were right exactly as it was. */
    method RecomputeBalances()
      requires KeysUnique(rows)
      modifies this
      ensures Valid() && rows == old(rows)
      ensures old(Valid()) ==> debitsPosted == old(debitsPosted) && creditsPosted == old(creditsPosted)
                               && balance == old(balance)
    {
      var debits: map<Account, nat> := map a: Account | a in AllAccounts() :: 0;
      var credits: map<Account, nat> := map a: Account | a in AllAccounts() :: 0;
      for i := 0 to |rows|
        invariant rows == old(rows) && debitsPosted == old(debitsPosted)
        invariant creditsPosted == old(creditsPosted) && balance == old(balance)
        invariant forall a: Account :: a in debits && debits[a] == Debits(rows[..i], a)
        invariant forall a: Account :: a in credits && credits[a] == Credits(rows[..i], a)
      {
        assert rows[..i + 1][..i] == rows[..i];
        debits := debits[rows[i].debit := debits[rows[i].debit] + rows[i].amount];
        credits := credits[rows[i].credit := credits[rows[i].credit] + rows[i].amount];
      }
      assert rows[..|rows|] == rows;
      debitsPosted, creditsPosted := debits, credits;
      balance := map a: Account | a in AllAccounts() :: Net(a, debits[a], credits[a]);
      forall a: Account ensures balance[a] == Balance(rows, a) {
        BalanceIsNetOfTotals(rows, a);
      }
    }
  }

  function AllAccounts(): (s: set<Account>)
    ensures forall a: Account :: a in s
  {
    (set a: Account | DebitNormal(a)) + (set a: Account | !DebitNormal(a))
  }
}
