/**
  Writing an invoice off and recovering it (internal/service/ledger.go:560-760).
  Both are keyed by cycle: a write-off posts at the number of completed cycles,
  and a recovery inverts the latest leg it finds of each write-off code.
 */
module WriteOffRecovery {
  import opened Options
  import opened Ledger

  /** The written-off invoice, and how much of its pre-tax value was already recognized. */
  datatype Bad = Bad(id: nat, subscription: bool, total: nat, tax: nat, recognized: nat)

  ghost predicate Sensible(inv: Bad) {
    && inv.tax <= inv.total
    && inv.recognized <= inv.total - inv.tax
    && (!inv.subscription ==> inv.recognized == inv.total - inv.tax)
  }

  function StillDeferred(inv: Bad): int {
    inv.total - inv.tax - inv.recognized
  }

  function CountOf(rows: seq<Transfer>, id: nat, code: nat): nat {
    if rows == [] then 0
    else CountOf(rows[..|rows| - 1], id, code) + (if IsLeg(rows[|rows| - 1], id, code) then 1 else 0)
  }

  predicate IsLeg(t: Transfer, id: nat, code: nat) {
    t.reference == InvoiceRef(id) && t.code == code
  }

  /** The leg of one code with the highest occurrence, the newer one at a tie. */
  function Latest(rows: seq<Transfer>, id: nat, code: nat): Option<Transfer> {
    if rows == [] then None
    else
      var before, t := Latest(rows[..|rows| - 1], id, code), rows[|rows| - 1];
      if IsLeg(t, id, code) && (before.None? || before.value.occurrence <= t.occurrence) then Some(t) else before
  }

  function Optional(amount: int, t: Transfer): seq<Transfer> {
    if amount > 0 then [t] else []
  }

  function Amount(x: int): nat {
    if x < 0 then 0 else x
  }

  function DeferredLeg(inv: Bad, occurrence: nat, at: int): Transfer {
    Transfer(if inv.subscription then DeferredRevenue else Revenue, Receivable, Amount(StillDeferred(inv)),
             22, InvoiceRef(inv.id), occurrence, at)
  }

  function BadDebtLeg(inv: Bad, occurrence: nat, at: int): Transfer {
    Transfer(BadDebt, Receivable, inv.recognized, 26, InvoiceRef(inv.id), occurrence, at)
  }

  function TaxLeg(inv: Bad, occurrence: nat, at: int): Transfer {
    Transfer(TaxPayable, Receivable, inv.tax, 23, InvoiceRef(inv.id), occurrence, at)
  }

  function WriteOffLegs(inv: Bad, occurrence: nat, at: int): seq<Transfer> {
    Optional(StillDeferred(inv), DeferredLeg(inv, occurrence, at)) +
    Optional(inv.recognized, BadDebtLeg(inv, occurrence, at)) +
    Optional(inv.tax, TaxLeg(inv, occurrence, at))
  }

  /** RecordInvoiceWriteOff: due only when every earlier write-off was recovered. */
  function WriteOff(rows: seq<Transfer>, inv: Bad, at: int): seq<Transfer> {
    if inv.total == 0 || CountOf(rows, inv.id, 22) != CountOf(rows, inv.id, 24) then rows
    else PostAll(rows, WriteOffLegs(inv, CountOf(rows, inv.id, 22), at))
  }

  function Inverse(leg: Option<Transfer>, code: nat, occurrence: nat, at: int): seq<Transfer> {
    match leg
    case None => []
    case Some(t) => [Transfer(t.credit, t.debit, t.amount, code, t.reference, occurrence, at)]
  }

  function RecoveryLegs(rows: seq<Transfer>, id: nat, occurrence: nat, at: int): seq<Transfer> {
    Inverse(Latest(rows, id, 22), 24, occurrence, at) +
    Inverse(Latest(rows, id, 26), 27, occurrence, at) +
    Inverse(Latest(rows, id, 23), 25, occurrence, at)
  }

  /** RecordWriteOffRecovery: due only when a code-22 leg is not yet matched by a code-24 leg. */
  function Recover(rows: seq<Transfer>, id: nat, at: int): seq<Transfer> {
    if CountOf(rows, id, 22) <= CountOf(rows, id, 24) then rows
    else PostAll(rows, RecoveryLegs(rows, id, CountOf(rows, id, 24), at))
  }

  /** A row that some earlier cycle of the invoice may have left. */
  ghost predicate Earlier(t: Transfer, inv: Bad, cycles: nat) {
    && (t.reference == InvoiceRef(inv.id) && 22 <= t.code <= 27 ==> t.occurrence < cycles)
    && (IsLeg(t, inv.id, 26) ==> t.amount > 0 && t.debit == BadDebt && t.credit == Receivable)
    && (inv.tax == 0 ==> !IsLeg(t, inv.id, 23))
  }

  ghost predicate AllEarlier(rows: seq<Transfer>, inv: Bad, cycles: nat) {
    forall j :: 0 <= j < |rows| ==> Earlier(rows[j], inv, cycles)
  }

  /** All earlier cycles of the invoice are complete. */
  ghost predicate Settled(rows: seq<Transfer>, inv: Bad) {
    && CountOf(rows, inv.id, 22) == CountOf(rows, inv.id, 24)
    && AllEarlier(rows, inv, CountOf(rows, inv.id, 22))
  }

  // ---- Counting and finding legs ----

  lemma {:induction false} CountConcat(rows: seq<Transfer>, more: seq<Transfer>, id: nat, code: nat)
    ensures CountOf(rows + more, id, code) == CountOf(rows, id, code) + CountOf(more, id, code)
  {
    if more == [] {
      assert rows + more == rows;
    } else {
      assert (rows + more)[..|rows + more| - 1] == rows + more[..|more| - 1];
      CountConcat(rows, more[..|more| - 1], id, code);
    }
  }

  lemma {:induction false} LatestBelongs(rows: seq<Transfer>, id: nat, code: nat)
    ensures Latest(rows, id, code).Some? ==>
        Latest(rows, id, code).value in rows && IsLeg(Latest(rows, id, code).value, id, code)
    ensures Latest(rows, id, code).None? <==> forall j :: 0 <= j < |rows| ==> !IsLeg(rows[j], id, code)
  {
    if rows != [] {
      LatestBelongs(rows[..|rows| - 1], id, code);
    }
  }

  /** A batch with no leg of the code does not change the latest one. */
  lemma {:induction false} LatestSkips(rows: seq<Transfer>, more: seq<Transfer>, id: nat, code: nat)
    requires forall j :: 0 <= j < |more| ==> !IsLeg(more[j], id, code)
    ensures Latest(rows + more, id, code) == Latest(rows, id, code)
  {
    if more == [] {
      assert rows + more == rows;
    } else {
      assert (rows + more)[..|rows + more| - 1] == rows + more[..|more| - 1];
      LatestSkips(rows, more[..|more| - 1], id, code);
    }
  }

  lemma LatestAppend(rows: seq<Transfer>, t: Transfer, id: nat, code: nat)
    requires IsLeg(t, id, code)
    requires forall j :: 0 <= j < |rows| && IsLeg(rows[j], id, code) ==> rows[j].occurrence <= t.occurrence
    ensures Latest(rows + [t], id, code) == Some(t)
  {
    LatestBelongs(rows, id, code);
    assert (rows + [t])[..|rows|] == rows;
  }

  lemma Regroup(rows: seq<Transfer>, before: seq<Transfer>, t: Transfer, after: seq<Transfer>)
    ensures rows + (before + [t] + after) == ((rows + before) + [t]) + after
  {
  }

  /** The latest leg of a batch that comes after every earlier occurrence is the batch's own. */
  lemma LatestOfBatch(rows: seq<Transfer>, before: seq<Transfer>, t: Transfer, after: seq<Transfer>, id: nat, code: nat)
    requires IsLeg(t, id, code)
    requires forall j :: 0 <= j < |rows| && IsLeg(rows[j], id, code) ==> rows[j].occurrence <= t.occurrence
    requires forall j :: 0 <= j < |before| ==> !IsLeg(before[j], id, code)
    requires forall j :: 0 <= j < |after| ==> !IsLeg(after[j], id, code)
    ensures Latest(rows + (before + [t] + after), id, code) == Some(t)
  {
    var upTo := rows + before;
    assert Latest(upTo + [t], id, code) == Some(t) by {
      LatestAppend(upTo, t, id, code);
    }
    LatestSkips(upTo + [t], after, id, code);
    Regroup(rows, before, t, after);
  }

  // ---- Posting a fresh batch ----

  ghost predicate FreshBatch(rows: seq<Transfer>, ts: seq<Transfer>) {
    && (forall j, m :: 0 <= j < |rows| && 0 <= m < |ts| ==> !SameKey(rows[j], ts[m]))
    && KeysUnique(ts)
  }

  lemma {:induction false} FreshPostsAll(rows: seq<Transfer>, ts: seq<Transfer>)
    requires FreshBatch(rows, ts)
    ensures PostAll(rows, ts) == rows + ts
  {
    if ts == [] {
      assert rows + ts == rows;
    } else {
      var n := |ts| - 1;
      FreshPostsAll(rows, ts[..n]);
      assert !HasKey(rows + ts[..n], ts[n]) by {
        forall j | 0 <= j < |rows + ts[..n]| ensures !SameKey((rows + ts[..n])[j], ts[n]) {
        }
      }
      assert rows + ts == rows + ts[..n] + [ts[n]];
    }
  }

  // ---- The write-off ----

  lemma WriteOffPosts(rows: seq<Transfer>, inv: Bad, at: int)
    requires Settled(rows, inv) && inv.total > 0
    ensures WriteOff(rows, inv, at) == rows + WriteOffLegs(inv, CountOf(rows, inv.id, 22), at)
  {
    FreshPostsAll(rows, WriteOffLegs(inv, CountOf(rows, inv.id, 22), at));
  }

  lemma CountOfLegs(inv: Bad, occurrence: nat, at: int)
    ensures CountOf(WriteOffLegs(inv, occurrence, at), inv.id, 22) == if StillDeferred(inv) > 0 then 1 else 0
    ensures CountOf(WriteOffLegs(inv, occurrence, at), inv.id, 24) == 0
  {
    var d := Optional(StillDeferred(inv), DeferredLeg(inv, occurrence, at));
    var b := Optional(inv.recognized, BadDebtLeg(inv, occurrence, at));
    var t := Optional(inv.tax, TaxLeg(inv, occurrence, at));
    CountConcat(d + b, t, inv.id, 22);
    CountConcat(d, b, inv.id, 22);
    CountConcat(d + b, t, inv.id, 24);
    CountConcat(d, b, inv.id, 24);
  }

  /** After the write-off, the counts tell recovery that one cycle is open, when anything was deferred. */
  lemma CountsAfterWriteOff(rows: seq<Transfer>, inv: Bad, at: int)
    requires Settled(rows, inv) && inv.total > 0
    ensures var w := WriteOff(rows, inv, at);
            && CountOf(w, inv.id, 22) == CountOf(rows, inv.id, 22) + (if StillDeferred(inv) > 0 then 1 else 0)
            && CountOf(w, inv.id, 24) == CountOf(rows, inv.id, 24)
  {
    var occurrence := CountOf(rows, inv.id, 22);
    WriteOffPosts(rows, inv, at);
    CountOfLegs(inv, occurrence, at);
    CountConcat(rows, WriteOffLegs(inv, occurrence, at), inv.id, 22);
    CountConcat(rows, WriteOffLegs(inv, occurrence, at), inv.id, 24);
  }

  /** With nothing left to defer, the write-off leaves no code-22 leg, and recovery does nothing at all. */
  lemma NothingDeferredNothingRecovered(rows: seq<Transfer>, inv: Bad, at: int, later: int)
    requires Settled(rows, inv) && Sensible(inv) && StillDeferred(inv) == 0
    ensures Recover(WriteOff(rows, inv, at), inv.id, later) == WriteOff(rows, inv, at)
  {
    if inv.total > 0 {
      CountsAfterWriteOff(rows, inv, at);
    }
  }

  // ---- What recovery finds ----

  lemma LatestDeferred(rows: seq<Transfer>, inv: Bad, at: int)
    requires Settled(rows, inv) && inv.total > 0 && StillDeferred(inv) > 0
    ensures Latest(WriteOff(rows, inv, at), inv.id, 22) == Some(DeferredLeg(inv, CountOf(rows, inv.id, 22), at))
  {
    WriteOffPosts(rows, inv, at);
    var occurrence := CountOf(rows, inv.id, 22);
    var d := DeferredLeg(inv, occurrence, at);
    var rest := Optional(inv.recognized, BadDebtLeg(inv, occurrence, at))
        + Optional(inv.tax, TaxLeg(inv, occurrence, at));
    assert WriteOffLegs(inv, occurrence, at) == [] + [d] + rest;
    LatestOfBatch(rows, [], d, rest, inv.id, 22);
  }

  lemma LatestBadDebt(rows: seq<Transfer>, inv: Bad, at: int)
    requires Settled(rows, inv) && inv.total > 0
    ensures Latest(WriteOff(rows, inv, at), inv.id, 26)
         == if inv.recognized > 0 then Some(BadDebtLeg(inv, CountOf(rows, inv.id, 22), at))
             else Latest(rows, inv.id, 26)
  {
    WriteOffPosts(rows, inv, at);
    var occurrence := CountOf(rows, inv.id, 22);
    var d := Optional(StillDeferred(inv), DeferredLeg(inv, occurrence, at));
    var t := Optional(inv.tax, TaxLeg(inv, occurrence, at));
    if inv.recognized > 0 {
      LatestOfBatch(rows, d, BadDebtLeg(inv, occurrence, at), t, inv.id, 26);
    } else {
      LatestSkips(rows, WriteOffLegs(inv, occurrence, at), inv.id, 26);
    }
  }

  lemma LatestTax(rows: seq<Transfer>, inv: Bad, at: int)
    requires Settled(rows, inv) && inv.total > 0
    ensures Latest(WriteOff(rows, inv, at), inv.id, 23)
         == if inv.tax > 0 then Some(TaxLeg(inv, CountOf(rows, inv.id, 22), at)) else None
  {
    WriteOffPosts(rows, inv, at);
    var occurrence := CountOf(rows, inv.id, 22);
    var before := Optional(StillDeferred(inv), DeferredLeg(inv, occurrence, at))
                + Optional(inv.recognized, BadDebtLeg(inv, occurrence, at));
    if inv.tax > 0 {
      assert WriteOffLegs(inv, occurrence, at) == before + [TaxLeg(inv, occurrence, at)] + [];
      LatestOfBatch(rows, before, TaxLeg(inv, occurrence, at), [], inv.id, 23);
    } else {
      LatestSkips(rows, WriteOffLegs(inv, occurrence, at), inv.id, 23);
      LatestBelongs(rows, inv.id, 23);
    }
  }

  /** The bad-debt leg recovery inverts: this cycle's, or else a stale one of an earlier cycle. */
  function BadDebtToInvert(rows: seq<Transfer>, inv: Bad, at: int): Option<Transfer> {
    if inv.recognized > 0 then Some(BadDebtLeg(inv, CountOf(rows, inv.id, 22), at)) else Latest(rows, inv.id, 26)
  }

  function RecoveryOf(rows: seq<Transfer>, inv: Bad, at: int, later: int): seq<Transfer> {
    var occurrence := CountOf(rows, inv.id, 22);
    Inverse(Some(DeferredLeg(inv, occurrence, at)), 24, occurrence, later) +
    Inverse(BadDebtToInvert(rows, inv, at), 27, occurrence, later) +
    Inverse(if inv.tax > 0 then Some(TaxLeg(inv, occurrence, at)) else None, 25, occurrence, later)
  }

  lemma RecoverPosts(rows: seq<Transfer>, inv: Bad, at: int, later: int)
    requires Settled(rows, inv) && Sensible(inv) && StillDeferred(inv) > 0
    ensures Recover(WriteOff(rows, inv, at), inv.id, later)
        == WriteOff(rows, inv, at) + RecoveryOf(rows, inv, at, later)
  {
    var w := WriteOff(rows, inv, at);
    CountsAfterWriteOff(rows, inv, at);
    LatestDeferred(rows, inv, at);
    LatestBadDebt(rows, inv, at);
    LatestTax(rows, inv, at);
    assert RecoveryLegs(w, inv.id, CountOf(w, inv.id, 24), later) == RecoveryOf(rows, inv, at, later);
    RecoveryFresh(rows, inv, at, later);
    FreshPostsAll(w, RecoveryOf(rows, inv, at, later));
  }

  lemma RecoveryFresh(rows: seq<Transfer>, inv: Bad, at: int, later: int)
    requires Settled(rows, inv) && Sensible(inv) && StillDeferred(inv) > 0
    ensures FreshBatch(WriteOff(rows, inv, at), RecoveryOf(rows, inv, at, later))
  {
    WriteOffPosts(rows, inv, at);
    LatestBelongs(rows, inv.id, 26);
  }

  // ---- Balances over a cycle ----

  lemma BalanceOptional(amount: int, t: Transfer, a: Account)
    requires amount == t.amount
    ensures Balance(Optional(amount, t), a) == Effect(t, a)
  {
  }

  lemma BalanceInverse(leg: Option<Transfer>, code: nat, occurrence: nat, at: int, a: Account)
    ensures Balance(Inverse(leg, code, occurrence, at), a) == if leg.Some? then -Effect(leg.value, a) else 0
  {
  }

  lemma WriteOffMoves(inv: Bad, occurrence: nat, at: int, a: Account)
    requires Sensible(inv)
    ensures Balance(WriteOffLegs(inv, occurrence, at), a)
         == Effect(DeferredLeg(inv, occurrence, at), a) + Effect(BadDebtLeg(inv, occurrence, at), a)
          + Effect(TaxLeg(inv, occurrence, at), a)
  {
    var d := Optional(StillDeferred(inv), DeferredLeg(inv, occurrence, at));
    var b := Optional(inv.recognized, BadDebtLeg(inv, occurrence, at));
    var t := Optional(inv.tax, TaxLeg(inv, occurrence, at));
    BalanceConcat(d + b, t, a);
    BalanceConcat(d, b, a);
    BalanceOptional(StillDeferred(inv), DeferredLeg(inv, occurrence, at), a);
    BalanceOptional(inv.recognized, BadDebtLeg(inv, occurrence, at), a);
    BalanceOptional(inv.tax, TaxLeg(inv, occurrence, at), a);
  }

  /** What a write-off does to the books: the receivable goes by the whole total, what was still deferred comes out of
      Deferred Revenue, what was recognized becomes bad debt, the tax is no longer owed, and nothing else moves. */
  lemma WriteOffReverses(rows: seq<Transfer>, inv: Bad, at: int, a: Account)
    requires Settled(rows, inv) && Sensible(inv) && inv.total > 0
    ensures Balance(WriteOff(rows, inv, at), a) - Balance(rows, a)
         == match a
            case Receivable => -(inv.total as int)
            case DeferredRevenue => -(inv.total - inv.tax - inv.recognized)
            case BadDebt => inv.recognized
            case TaxPayable => -(inv.tax as int)
            case _ => 0
  {
    var occurrence := CountOf(rows, inv.id, 22);
    WriteOffPosts(rows, inv, at);
    BalanceConcat(rows, WriteOffLegs(inv, occurrence, at), a);
    WriteOffMoves(inv, occurrence, at, a);
  }

  /** An invoice that is written off already is not written off again before it is recovered. */
  lemma WrittenOffOnce(rows: seq<Transfer>, inv: Bad, at: int, later: int)
    requires Settled(rows, inv) && Sensible(inv)
    ensures WriteOff(WriteOff(rows, inv, at), inv, later) == WriteOff(rows, inv, at)
  {
    if inv.total > 0 {
      CountsAfterWriteOff(rows, inv, at);
      if StillDeferred(inv) == 0 {
        WriteOffPosts(rows, inv, at);
        LegsAreKnown(rows, inv, CountOf(rows, inv.id, 22), at, later);
      }
    }
  }

  /** The legs of one cycle have the same keys whenever they are made. */
  lemma LegsAreKnown(rows: seq<Transfer>, inv: Bad, occurrence: nat, at: int, later: int)
    ensures var w := rows + WriteOffLegs(inv, occurrence, at);
            PostAll(w, WriteOffLegs(inv, occurrence, later)) == w
  {
    var legs, again := WriteOffLegs(inv, occurrence, at), WriteOffLegs(inv, occurrence, later);
    forall m | 0 <= m < |again| ensures HasKey(rows + legs, again[m]) {
      assert SameKey(legs[m], again[m]);
      assert (rows + legs)[|rows| + m] == legs[m];
    }
    PostAllKnown(rows + legs, again);
  }

  lemma RecoveryMoves(rows: seq<Transfer>, inv: Bad, at: int, later: int, a: Account)
    requires Sensible(inv)
    ensures var occurrence := CountOf(rows, inv.id, 22);
            var stale := BadDebtToInvert(rows, inv, at);
            && Balance(RecoveryOf(rows, inv, at, later), a)
            == -Effect(DeferredLeg(inv, occurrence, at), a) - (if stale.Some? then Effect(stale.value, a) else 0)
             - Effect(TaxLeg(inv, occurrence, at), a)
  {
    var occurrence := CountOf(rows, inv.id, 22);
    var tax := if inv.tax > 0 then Some(TaxLeg(inv, occurrence, at)) else None;
    var d := Inverse(Some(DeferredLeg(inv, occurrence, at)), 24, occurrence, later);
    var b := Inverse(BadDebtToInvert(rows, inv, at), 27, occurrence, later);
    var t := Inverse(tax, 25, occurrence, later);
    BalanceConcat(d + b, t, a);
    BalanceConcat(d, b, a);
    BalanceInverse(Some(DeferredLeg(inv, occurrence, at)), 24, occurrence, later, a);
    BalanceInverse(BadDebtToInvert(rows, inv, at), 27, occurrence, later, a);
    BalanceInverse(tax, 25, occurrence, later, a);
  }

  /** A whole cycle moves an account only by the stale bad-debt leg that recovery inverts in place of a missing one. */
  lemma CycleMoves(rows: seq<Transfer>, inv: Bad, at: int, later: int, a: Account)
    requires Settled(rows, inv) && Sensible(inv) && StillDeferred(inv) > 0
    ensures var stale := Latest(rows, inv.id, 26);
            && Balance(Recover(WriteOff(rows, inv, at), inv.id, later), a)
            == Balance(rows, a) - (if inv.recognized == 0 && stale.Some? then Effect(stale.value, a) else 0)
  {
    var occurrence := CountOf(rows, inv.id, 22);
    assert Balance(WriteOff(rows, inv, at), a) == Balance(rows, a) + Balance(WriteOffLegs(inv, occurrence, at), a) by {
      WriteOffPosts(rows, inv, at);
      BalanceConcat(rows, WriteOffLegs(inv, occurrence, at), a);
    }
    assert Balance(Recover(WriteOff(rows, inv, at), inv.id, later), a)
        == Balance(WriteOff(rows, inv, at), a) + Balance(RecoveryOf(rows, inv, at, later), a) by {
      RecoverPosts(rows, inv, at, later);
      BalanceConcat(WriteOff(rows, inv, at), RecoveryOf(rows, inv, at, later), a);
    }
    WriteOffMoves(inv, occurrence, at, a);
    RecoveryMoves(rows, inv, at, later, a);
    NoBadDebtNoEffect(inv, occurrence, at, a);
  }

  lemma NoBadDebtNoEffect(inv: Bad, occurrence: nat, at: int, a: Account)
    ensures inv.recognized == 0 ==> Effect(BadDebtLeg(inv, occurrence, at), a) == 0
  {
  }

  ghost predicate Restored(rows: seq<Transfer>, after: seq<Transfer>) {
    forall a: Account :: Balance(after, a) == Balance(rows, a)
  }

  /** Recovery is the exact mirror of the write-off (every balance is what it was) if and only if something was still
      deferred, and the write-off either expensed bad debt itself or no earlier cycle did. */
  lemma RecoveryRestoresIff(rows: seq<Transfer>, inv: Bad, at: int, later: int)
    requires Settled(rows, inv) && Sensible(inv) && inv.total > 0
    ensures Restored(rows, Recover(WriteOff(rows, inv, at), inv.id, later)) <==>
              StillDeferred(inv) > 0 && (inv.recognized > 0 || Latest(rows, inv.id, 26).None?)
  {
    var after := Recover(WriteOff(rows, inv, at), inv.id, later);
    if StillDeferred(inv) > 0 {
      forall a: Account ensures Balance(after, a) == Balance(rows, a)
        - (if inv.recognized == 0 && Latest(rows, inv.id, 26).Some? then Effect(Latest(rows, inv.id, 26).value, a)
            else 0) {
        CycleMoves(rows, inv, at, later, a);
      }
      LatestBelongs(rows, inv.id, 26);
      if inv.recognized == 0 && Latest(rows, inv.id, 26).Some? {
        assert Balance(after, BadDebt) != Balance(rows, BadDebt);
      }
    } else {
      NothingDeferredNothingRecovered(rows, inv, at, later);
      WriteOffPosts(rows, inv, at);
      BalanceConcat(rows, WriteOffLegs(inv, CountOf(rows, inv.id, 22), at), Receivable);
      WriteOffMoves(inv, CountOf(rows, inv.id, 22), at, Receivable);
    }
  }

  // ---- Any number of cycles ----

  lemma OtherLegLeavesCount(rows: seq<Transfer>, t: Transfer, id: nat, code: nat)
    requires !IsLeg(t, id, code)
    ensures CountOf(rows + [t], id, code) == CountOf(rows, id, code)
  {
    assert (rows + [t])[..|rows|] == rows;
  }

  lemma OtherLegKeepsSettled(rows: seq<Transfer>, inv: Bad, t: Transfer)
    requires Settled(rows, inv) && (t.reference != InvoiceRef(inv.id) || !(22 <= t.code <= 27))
    ensures Settled(rows + [t], inv)
  {
    OtherLegLeavesCount(rows, t, inv.id, 22);
    OtherLegLeavesCount(rows, t, inv.id, 24);
    EarlierConcat(rows, [t], inv, CountOf(rows, inv.id, 22));
  }

  /** A posting outside the invoice's write-off and recovery codes leaves its cycles settled. */
  lemma OtherPostKeepsSettled(rows: seq<Transfer>, inv: Bad, t: Transfer)
    requires Settled(rows, inv) && (t.reference != InvoiceRef(inv.id) || !(22 <= t.code <= 27))
    ensures Settled(Post(rows, t), inv)
    ensures Latest(Post(rows, t), inv.id, 26) == Latest(rows, inv.id, 26)
  {
    OtherLegKeepsSettled(rows, inv, t);
    LatestSkips(rows, [t], inv.id, 26);
  }

  lemma CountOfRecovery(rows: seq<Transfer>, inv: Bad, at: int, later: int)
    ensures CountOf(RecoveryOf(rows, inv, at, later), inv.id, 22) == 0
    ensures CountOf(RecoveryOf(rows, inv, at, later), inv.id, 24) == 1
  {
    var occurrence := CountOf(rows, inv.id, 22);
    var d := Inverse(Some(DeferredLeg(inv, occurrence, at)), 24, occurrence, later);
    var b := Inverse(BadDebtToInvert(rows, inv, at), 27, occurrence, later);
    var t := Inverse(if inv.tax > 0 then Some(TaxLeg(inv, occurrence, at)) else None, 25, occurrence, later);
    CountConcat(d + b, t, inv.id, 22);
    CountConcat(d, b, inv.id, 22);
    CountConcat(d + b, t, inv.id, 24);
    CountConcat(d, b, inv.id, 24);
  }

  lemma CycleCounts(rows: seq<Transfer>, inv: Bad, at: int, later: int)
    requires Settled(rows, inv) && Sensible(inv) && StillDeferred(inv) > 0
    ensures var after := Recover(WriteOff(rows, inv, at), inv.id, later);
            && CountOf(after, inv.id, 22) == CountOf(after, inv.id, 24) == CountOf(rows, inv.id, 22) + 1
  {
    RecoverPosts(rows, inv, at, later);
    CountsAfterWriteOff(rows, inv, at);
    CountOfRecovery(rows, inv, at, later);
    CountConcat(WriteOff(rows, inv, at), RecoveryOf(rows, inv, at, later), inv.id, 22);
    CountConcat(WriteOff(rows, inv, at), RecoveryOf(rows, inv, at, later), inv.id, 24);
  }

  /** A recovered cycle is complete: the next write-off starts a new one. */
  lemma CycleSettles(rows: seq<Transfer>, inv: Bad, at: int, later: int)
    requires Settled(rows, inv) && Sensible(inv) && StillDeferred(inv) > 0
    ensures Settled(Recover(WriteOff(rows, inv, at), inv.id, later), inv)
  {
    var legs, back := WriteOffLegs(inv, CountOf(rows, inv.id, 22), at), RecoveryOf(rows, inv, at, later);
    CycleCounts(rows, inv, at, later);
    RecoverPosts(rows, inv, at, later);
    WriteOffPosts(rows, inv, at);
    CycleLegsEarlier(rows, inv, at, later);
    EarlierConcat(rows, legs, inv, CountOf(rows, inv.id, 22) + 1);
    EarlierConcat(rows + legs, back, inv, CountOf(rows, inv.id, 22) + 1);
  }

  lemma EarlierConcat(rows: seq<Transfer>, more: seq<Transfer>, inv: Bad, cycles: nat)
    requires AllEarlier(rows, inv, cycles) && AllEarlier(more, inv, cycles)
    ensures AllEarlier(rows + more, inv, cycles)
  {
  }

  lemma CycleLegsEarlier(rows: seq<Transfer>, inv: Bad, at: int, later: int)
    ensures var cycles := CountOf(rows, inv.id, 22);
            && AllEarlier(WriteOffLegs(inv, cycles, at), inv, cycles + 1)
            && AllEarlier(RecoveryOf(rows, inv, at, later), inv, cycles + 1)
  {
  }

  datatype Cycle = Cycle(recognized: nat, at: int, later: int)

  /** Write off and recover, once per cycle, with the revenue recognized by then. */
  function Cycles(rows: seq<Transfer>, inv: Bad, cs: seq<Cycle>): seq<Transfer>
    decreases |cs|
  {
    if cs == [] then rows
    else
      var now := inv.(recognized := cs[0].recognized);
      Cycles(Recover(WriteOff(rows, now, cs[0].at), inv.id, cs[0].later), now, cs[1..])
  }

  /** Recognition only ever grows, and never reaches the whole pre-tax value. */
  ghost predicate Growing(inv: Bad, cs: seq<Cycle>) {
    && (forall k :: 0 <= k < |cs| ==> inv.recognized <= cs[k].recognized < inv.total - inv.tax)
    && (forall j, k :: 0 <= j < k < |cs| ==> cs[j].recognized <= cs[k].recognized)
  }

  lemma NoBadDebtYet(rows: seq<Transfer>, inv: Bad, at: int, later: int)
    requires Settled(rows, inv) && Sensible(inv) && StillDeferred(inv) > 0
    requires inv.recognized == 0 && Latest(rows, inv.id, 26).None?
    ensures Latest(Recover(WriteOff(rows, inv, at), inv.id, later), inv.id, 26).None?
  {
    RecoverPosts(rows, inv, at, later);
    LatestBadDebt(rows, inv, at);
    LatestSkips(WriteOff(rows, inv, at), RecoveryOf(rows, inv, at, later), inv.id, 26);
  }

  /** However often a subscription invoice is written off and recovered, while revenue recognition only grows and
      something stays deferred, every balance comes back. */
  lemma {:induction false} CyclesRestore(rows: seq<Transfer>, inv: Bad, cs: seq<Cycle>)
    requires Settled(rows, inv) && inv.subscription && inv.tax <= inv.total && Growing(inv, cs)
    requires inv.recognized > 0 || Latest(rows, inv.id, 26).None?
    ensures Restored(rows, Cycles(rows, inv, cs))
    decreases |cs|
  {
    if cs != [] {
      var now := inv.(recognized := cs[0].recognized);
      var after := Recover(WriteOff(rows, now, cs[0].at), inv.id, cs[0].later);
      RecoveryRestoresIff(rows, now, cs[0].at, cs[0].later);
      CycleSettles(rows, now, cs[0].at, cs[0].later);
      if now.recognized == 0 {
        NoBadDebtYet(rows, now, cs[0].at, cs[0].later);
      }
      CyclesRestore(after, now, cs[1..]);
    }
  }
}
