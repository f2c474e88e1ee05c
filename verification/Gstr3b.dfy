/**
  The GSTR-3B summary return: outward supplies net of credit notes (Table 3.1(a)),
  and the inter-state part supplied to unregistered buyers by place of supply
  (Table 3.2) (internal/service/gstr3b.go:31-87).
 */
module Gstr3b {
  import opened Grouping
  import opened Ordering

  /** An invoice or a credit note of the period. */
  datatype Document = Document(taxable: int, igst: int, cgst: int, sgst: int, registered: bool, place: string)

  /** A document with the sign it counts with: invoices positively, credit notes negatively. */
  datatype Posting = Posting(doc: Document, sign: int)

  datatype Row = Row(place: string, taxable: int, igst: int)

  datatype Return = Return(taxable: int, igst: int, cgst: int, sgst: int, invoices: nat, creditNotes: nat)

  datatype Column = Taxable | Igst | Cgst | Sgst
  datatype Table = Outward | InterState

  function Value(p: Posting, col: Column): int {
    match col
    case Taxable => p.sign * p.doc.taxable
    case Igst => p.sign * p.doc.igst
    case Cgst => p.sign * p.doc.cgst
    case Sgst => p.sign * p.doc.sgst
  }

  predicate InTable(d: Document, table: Table) {
    table == Outward || (!d.registered && d.igst > 0)
  }

  /** Table 3.1(a) is one group; Table 3.2 has one per place of supply. */
  function KeyIn(d: Document, table: Table): string {
    if table == Outward then "" else d.place
  }

  // ---- What each figure is a sum of ----

  function Signed(docs: seq<Document>, sign: int): seq<Posting> {
    if docs == [] then [] else Signed(docs[..|docs| - 1], sign) + [Posting(docs[|docs| - 1], sign)]
  }

  function Period(invoices: seq<Document>, notes: seq<Document>): seq<Posting> {
    Signed(invoices, 1) + Signed(notes, -1)
  }

  function Entries(ps: seq<Posting>, table: Table, col: Column): seq<Entry<string>> {
    if ps == [] then []
    else
      var before, p := Entries(ps[..|ps| - 1], table, col), ps[|ps| - 1];
      if InTable(p.doc, table) then before + [Entry(KeyIn(p.doc, table), Value(p, col))] else before
  }

  /** One cell of the return. */
  function Cell(ps: seq<Posting>, table: Table, col: Column, key: string): int {
    SumKey(Entries(ps, table, col), key)
  }

  function PlacesOf(ps: seq<Posting>): set<string> {
    set p | p in ps && InTable(p.doc, InterState) :: p.doc.place
  }

  lemma EntriesSnoc(ps: seq<Posting>, p: Posting, table: Table, col: Column)
    ensures Entries(ps + [p], table, col)
         == Entries(ps, table, col)
             + (if InTable(p.doc, table) then [Entry(KeyIn(p.doc, table), Value(p, col))] else [])
  {
  }

  lemma CellSnoc(ps: seq<Posting>, p: Posting, table: Table, col: Column, key: string)
    ensures Cell(ps + [p], table, col, key)
         == Cell(ps, table, col, key)
             + (if InTable(p.doc, table) && KeyIn(p.doc, table) == key then Value(p, col) else 0)
  {
  }

  lemma {:induction false} EntriesKeys(ps: seq<Posting>, col: Column)
    ensures KeysOf(Entries(ps, InterState, col)) == PlacesOf(ps)
  {
    if ps != [] {
      var init, p := ps[..|ps| - 1], ps[|ps| - 1];
      assert ps == init + [p];
      EntriesKeys(init, col);
      EntriesSnoc(init, p, InterState, col);
      SumKeySnoc(Entries(init, InterState, col), Entry(p.doc.place, Value(p, col)), "");
      assert PlacesOf(ps) == PlacesOf(init) + (if InTable(p.doc, InterState) then {p.doc.place} else {});
    }
  }

  // ---- The builder ----

  ghost predicate Totals(r: Return, ps: seq<Posting>) {
    && r.taxable == Cell(ps, Outward, Taxable, "") && r.igst == Cell(ps, Outward, Igst, "")
    && r.cgst == Cell(ps, Outward, Cgst, "") && r.sgst == Cell(ps, Outward, Sgst, "")
  }

  function RowFor(ps: seq<Posting>, place: string): Row {
    Row(place, Cell(ps, InterState, Taxable, place), Cell(ps, InterState, Igst, place))
  }

  ghost predicate RowsSoFar(rows: map<string, Row>, ps: seq<Posting>) {
    rows.Keys == PlacesOf(ps) && forall place :: place in rows ==> rows[place] == RowFor(ps, place)
  }

  function Counted(r: Return, p: Posting): Return {
    r.(taxable := r.taxable + Value(p, Taxable), igst := r.igst + Value(p, Igst),
       cgst := r.cgst + Value(p, Cgst), sgst := r.sgst + Value(p, Sgst))
  }

  function Grouped(rows: map<string, Row>, p: Posting): map<string, Row> {
    if !InTable(p.doc, InterState) then rows
    else
      var row := if p.doc.place in rows then rows[p.doc.place] else Row(p.doc.place, 0, 0);
      rows[p.doc.place := row.(taxable := row.taxable + Value(p, Taxable), igst := row.igst + Value(p, Igst))]
  }

  lemma CountedTotals(r: Return, ps: seq<Posting>, p: Posting)
    requires Totals(r, ps)
    ensures Totals(Counted(r, p), ps + [p])
  {
    CellSnoc(ps, p, Outward, Taxable, "");
    CellSnoc(ps, p, Outward, Igst, "");
    CellSnoc(ps, p, Outward, Cgst, "");
    CellSnoc(ps, p, Outward, Sgst, "");
  }

  lemma RowForSnoc(ps: seq<Posting>, p: Posting, place: string)
    ensures var (row, was) := (RowFor(ps + [p], place), RowFor(ps, place));
            row == if InTable(p.doc, InterState) && p.doc.place == place
                   then Row(place, was.taxable + Value(p, Taxable), was.igst + Value(p, Igst)) else was
  {
  }

  lemma NoRowYet(ps: seq<Posting>, place: string)
    requires place !in PlacesOf(ps)
    ensures RowFor(ps, place) == Row(place, 0, 0)
  {
    EntriesKeys(ps, Taxable);
    EntriesKeys(ps, Igst);
    NoKeyNoSum(Entries(ps, InterState, Taxable), place);
    NoKeyNoSum(Entries(ps, InterState, Igst), place);
  }

  lemma GroupedRows(rows: map<string, Row>, ps: seq<Posting>, p: Posting)
    requires RowsSoFar(rows, ps)
    ensures RowsSoFar(Grouped(rows, p), ps + [p])
  {
    assert PlacesOf(ps + [p]) == PlacesOf(ps) + (if InTable(p.doc, InterState) then {p.doc.place} else {});
    forall place | place in Grouped(rows, p) ensures Grouped(rows, p)[place] == RowFor(ps + [p], place) {
      RowForSnoc(ps, p, place);
      if place !in rows {
        NoRowYet(ps, place);
      }
    }
  }

  lemma NextPosting(r: Return, rows: map<string, Row>, ps: seq<Posting>, p: Posting)
    requires Totals(r, ps) && RowsSoFar(rows, ps)
    ensures Totals(Counted(r, p), ps + [p]) && RowsSoFar(Grouped(rows, p), ps + [p])
  {
    CountedTotals(r, ps, p);
    GroupedRows(rows, ps, p);
  }

  lemma SignedStep(before: seq<Posting>, docs: seq<Document>, i: nat, sign: int)
    requires i < |docs|
    ensures before + Signed(docs[..i + 1], sign) == before + Signed(docs[..i], sign) + [Posting(docs[i], sign)]
  {
    assert docs[..i + 1][..i] == docs[..i];
  }

  function Places(rows: seq<Row>): (ps: seq<string>)
    ensures |ps| == |rows|
  {
    seq(|rows|, i requires 0 <= i < |rows| => rows[i].place)
  }

  /** Table 3.2: one row per place of supply, ascending, each the net of that place's documents. */
  ghost predicate IsTable32(rows: seq<Row>, ps: seq<Posting>) {
    && Ascending(Places(rows)) && Elements(Places(rows)) == PlacesOf(ps)
    && forall i :: 0 <= i < |rows| ==> rows[i] == RowFor(ps, rows[i].place)
  }

  // ---- The same, document by document ----

  function Charged(d: Document, col: Column): int {
    match col
    case Taxable => d.taxable
    case Igst => d.igst
    case Cgst => d.cgst
    case Sgst => d.sgst
  }

  function SumOf(docs: seq<Document>, col: Column): int {
    if docs == [] then 0 else SumOf(docs[..|docs| - 1], col) + Charged(docs[|docs| - 1], col)
  }

  /** Over the documents of unregistered buyers with inter-state tax in one place of supply. */
  function SumAt(docs: seq<Document>, place: string, col: Column): int {
    if docs == [] then 0
    else
      var d := docs[|docs| - 1];
      SumAt(docs[..|docs| - 1], place, col) + (if !d.registered && d.igst > 0 && d.place == place then Charged(d, col)
                                               else 0)
  }

  lemma {:induction false} SignedCells(docs: seq<Document>, sign: int, place: string, col: Column)
    requires sign == 1 || sign == -1
    ensures Cell(Signed(docs, sign), Outward, col, "") == sign * SumOf(docs, col)
    ensures Cell(Signed(docs, sign), InterState, col, place) == sign * SumAt(docs, place, col)
  {
    if docs != [] {
      var init, p := docs[..|docs| - 1], Posting(docs[|docs| - 1], sign);
      SignedCells(init, sign, place, col);
      CellSnoc(Signed(init, sign), p, Outward, col, "");
      CellSnoc(Signed(init, sign), p, InterState, col, place);
    }
  }

  lemma {:induction false} EntriesConcat(ps: seq<Posting>, qs: seq<Posting>, table: Table, col: Column)
    ensures Entries(ps + qs, table, col) == Entries(ps, table, col) + Entries(qs, table, col)
  {
    if qs == [] {
      assert ps + qs == ps;
    } else {
      assert (ps + qs)[..|ps + qs| - 1] == ps + qs[..|qs| - 1];
      EntriesConcat(ps, qs[..|qs| - 1], table, col);
    }
  }

  lemma CellsAre(invoices: seq<Document>, notes: seq<Document>, place: string, col: Column)
    ensures Cell(Period(invoices, notes), Outward, col, "") == SumOf(invoices, col) - SumOf(notes, col)
    ensures Cell(Period(invoices, notes), InterState, col, place)
         == SumAt(invoices, place, col) - SumAt(notes, place, col)
  {
    EntriesConcat(Signed(invoices, 1), Signed(notes, -1), Outward, col);
    EntriesConcat(Signed(invoices, 1), Signed(notes, -1), InterState, col);
    SumKeyConcat(Entries(Signed(invoices, 1), Outward, col), Entries(Signed(notes, -1), Outward, col), "");
    SumKeyConcat(Entries(Signed(invoices, 1), InterState, col), Entries(Signed(notes, -1), InterState, col), place);
    SignedCells(invoices, 1, place, col);
    SignedCells(notes, -1, place, col);
  }

  lemma {:induction false} SignedMembers(docs: seq<Document>, sign: int, p: Posting)
    ensures p in Signed(docs, sign) <==> p.sign == sign && p.doc in docs
  {
    if docs != [] {
      SignedMembers(docs[..|docs| - 1], sign, p);
      assert docs == docs[..|docs| - 1] + [docs[|docs| - 1]];
    }
  }

  /** The return as sums over the documents: every figure is what the invoices carry less what the credit notes do. */
  predicate TotalsOfDocuments(r: Return, invoices: seq<Document>, notes: seq<Document>) {
    && r.taxable == SumOf(invoices, Taxable) - SumOf(notes, Taxable)
    && r.igst == SumOf(invoices, Igst) - SumOf(notes, Igst)
    && r.cgst == SumOf(invoices, Cgst) - SumOf(notes, Cgst)
    && r.sgst == SumOf(invoices, Sgst) - SumOf(notes, Sgst)
  }

  /** And Table 3.2: a row for each place of an unregistered buyer's inter-state document, with that place's sums. */
  ghost predicate RowsOfDocuments(rows: seq<Row>, invoices: seq<Document>, notes: seq<Document>) {
    && (forall i :: 0 <= i < |rows| ==>
          && rows[i].taxable == SumAt(invoices, rows[i].place, Taxable) - SumAt(notes, rows[i].place, Taxable)
          && rows[i].igst == SumAt(invoices, rows[i].place, Igst) - SumAt(notes, rows[i].place, Igst))
    && (forall d :: (d in invoices || d in notes) && !d.registered && d.igst > 0 ==> HasRow(rows, d.place))
    && (forall i :: 0 <= i < |rows| ==> Supplied(invoices, notes, rows[i].place))
  }

  predicate HasRow(rows: seq<Row>, place: string) {
    exists i :: 0 <= i < |rows| && rows[i].place == place
  }

  /** An unregistered buyer was supplied there from another state. */
  ghost predicate Supplied(invoices: seq<Document>, notes: seq<Document>, place: string) {
    exists d :: (d in invoices || d in notes) && !d.registered && d.igst > 0 && d.place == place
  }

  lemma ReturnIs(r: Return, rows: seq<Row>, invoices: seq<Document>, notes: seq<Document>)
    requires Totals(r, Period(invoices, notes)) && IsTable32(rows, Period(invoices, notes))
    ensures TotalsOfDocuments(r, invoices, notes) && RowsOfDocuments(rows, invoices, notes)
  {
    CellsAre(invoices, notes, "", Taxable);
    CellsAre(invoices, notes, "", Igst);
    CellsAre(invoices, notes, "", Cgst);
    CellsAre(invoices, notes, "", Sgst);
    forall i | 0 <= i < |rows|
        ensures rows[i].taxable == SumAt(invoices, rows[i].place, Taxable) - SumAt(notes, rows[i].place, Taxable)
        ensures rows[i].igst == SumAt(invoices, rows[i].place, Igst) - SumAt(notes, rows[i].place, Igst) {
      CellsAre(invoices, notes, rows[i].place, Taxable);
      CellsAre(invoices, notes, rows[i].place, Igst);
    }
    forall d | (d in invoices || d in notes) && !d.registered && d.igst > 0
        ensures HasRow(rows, d.place) {
      DocumentHasRow(rows, invoices, notes, d);
    }
    forall i | 0 <= i < |rows| ensures Supplied(invoices, notes, rows[i].place) {
      RowHasDocument(rows, invoices, notes, i);
    }
  }

  lemma RowHasDocument(rows: seq<Row>, invoices: seq<Document>, notes: seq<Document>, i: nat)
    requires IsTable32(rows, Period(invoices, notes)) && i < |rows|
    ensures Supplied(invoices, notes, rows[i].place)
  {
    assert Places(rows)[i] in Elements(Places(rows));
    var p :| p in Period(invoices, notes) && InTable(p.doc, InterState) && p.doc.place == rows[i].place;
    SignedMembers(invoices, 1, p);
    SignedMembers(notes, -1, p);
    assert p.doc in invoices || p.doc in notes;
  }

  lemma DocumentHasRow(rows: seq<Row>, invoices: seq<Document>, notes: seq<Document>, d: Document)
    requires IsTable32(rows, Period(invoices, notes))
    requires (d in invoices || d in notes) && !d.registered && d.igst > 0
    ensures HasRow(rows, d.place)
  {
    var p := Posting(d, if d in invoices then 1 else -1);
    SignedMembers(invoices, 1, p);
    SignedMembers(notes, -1, p);
    assert p in Period(invoices, notes);
    assert d.place in PlacesOf(Period(invoices, notes)) && d.place in Elements(Places(rows));
    var i :| 0 <= i < |rows| && Places(rows)[i] == d.place;
    assert rows[i].place == d.place;
  }

  method BuildGstr3b(invoices: seq<Document>, notes: seq<Document>) returns (r: Return, table32: seq<Row>)
    ensures Totals(r, Period(invoices, notes)) && r.invoices == |invoices| && r.creditNotes == |notes|
    ensures IsTable32(table32, Period(invoices, notes))
    ensures TotalsOfDocuments(r, invoices, notes) && RowsOfDocuments(table32, invoices, notes)
  {
    r := Return(0, 0, 0, 0, 0, 0);
    var rows: map<string, Row> := map[];
    for i := 0 to |invoices|
      invariant Totals(r, [] + Signed(invoices[..i], 1)) && r.invoices == i && r.creditNotes == 0
      invariant RowsSoFar(rows, [] + Signed(invoices[..i], 1))
    {
      var p := Posting(invoices[i], 1);
      NextPosting(r, rows, [] + Signed(invoices[..i], 1), p);
      SignedStep([], invoices, i, 1);
      r := Counted(r, p).(invoices := r.invoices + 1);
      rows := Grouped(rows, p);
    }
    assert invoices[..|invoices|] == invoices;
    ghost var charged := Signed(invoices, 1);
    assert [] + charged == charged + Signed(notes[..0], -1);
    for i := 0 to |notes|
      invariant Totals(r, charged + Signed(notes[..i], -1)) && r.invoices == |invoices| && r.creditNotes == i
      invariant RowsSoFar(rows, charged + Signed(notes[..i], -1))
    {
      var p := Posting(notes[i], -1);
      NextPosting(r, rows, charged + Signed(notes[..i], -1), p);
      SignedStep(charged, notes, i, -1);
      r := Counted(r, p).(creditNotes := r.creditNotes + 1);
      rows := Grouped(rows, p);
    }
    assert notes[..|notes|] == notes;
    table32 := ListRows(rows, Period(invoices, notes));
    ReturnIs(r, table32, invoices, notes);
  }

  method ListRows(rows: map<string, Row>, ghost ps: seq<Posting>) returns (table32: seq<Row>)
    requires RowsSoFar(rows, ps)
    ensures IsTable32(table32, ps)
  {
    var keys := SortKeys(rows.Keys);
    table32 := [];
    for i := 0 to |keys|
      invariant |table32| == i && Places(table32) == keys[..i]
      invariant forall j :: 0 <= j < i ==> table32[j] == RowFor(ps, keys[j])
    {
      assert keys[i] in Elements(keys);
      table32 := table32 + [rows[keys[i]]];
      assert keys[..i + 1] == keys[..i] + [keys[i]];
    }
    assert keys[..|keys|] == keys;
  }

  // ---- What the return conserves ----

  function SumIgst(rows: seq<Row>): int {
    if rows == [] then 0 else SumIgst(rows[..|rows| - 1]) + rows[|rows| - 1].igst
  }

  /** The inter-state tax charged to unregistered buyers. */
  function InterStateIgst(docs: seq<Document>): int {
    if docs == [] then 0
    else
      var d := docs[|docs| - 1];
      InterStateIgst(docs[..|docs| - 1]) + (if !d.registered && d.igst > 0 then d.igst else 0)
  }

  lemma {:induction false} SignedIgst(docs: seq<Document>, sign: int)
    requires sign == 1 || sign == -1
    ensures SumAll(Entries(Signed(docs, sign), InterState, Igst)) == sign * InterStateIgst(docs)
  {
    if docs != [] {
      var init, p := docs[..|docs| - 1], Posting(docs[|docs| - 1], sign);
      SignedIgst(init, sign);
      EntriesSnoc(Signed(init, sign), p, InterState, Igst);
      SumKeySnoc(Entries(Signed(init, sign), InterState, Igst), Entry(p.doc.place, Value(p, Igst)), "");
    }
  }

  lemma {:induction false} SumOverPlaces(rows: seq<Row>, ps: seq<Posting>)
    requires forall i :: 0 <= i < |rows| ==> rows[i] == RowFor(ps, rows[i].place)
    ensures SumIgst(rows) == SumKeys(Entries(ps, InterState, Igst), Places(rows))
  {
    if rows != [] {
      SumOverPlaces(rows[..|rows| - 1], ps);
      assert Places(rows)[..|rows| - 1] == Places(rows[..|rows| - 1]);
    }
  }

  lemma AscendingDistinct(keys: seq<string>)
    requires Ascending(keys)
    ensures Distinct(keys)
  {
    forall i, j | 0 <= i < j < |keys| ensures keys[i] != keys[j] {
      BeforeTrichotomy(keys[i], keys[j]);
    }
  }

  /** Table 3.2 conserves value: its rows add up to the unregistered inter-state tax of the invoices less that of
      the credit notes, every document counted once. */
  lemma Table32Conserves(rows: seq<Row>, invoices: seq<Document>, notes: seq<Document>)
    requires IsTable32(rows, Period(invoices, notes))
    ensures SumIgst(rows) == InterStateIgst(invoices) - InterStateIgst(notes)
  {
    var ps := Period(invoices, notes);
    var es := Entries(ps, InterState, Igst);
    SumOverPlaces(rows, ps);
    AscendingDistinct(Places(rows));
    EntriesKeys(ps, Igst);
    forall e | e in es ensures e.key in Places(rows) {
      assert e.key in KeysOf(es);
      assert e.key in Elements(Places(rows));
    }
    GroupsConserve(es, Places(rows));
    EntriesConcat(Signed(invoices, 1), Signed(notes, -1), InterState, Igst);
    SumKeyConcat(Entries(Signed(invoices, 1), InterState, Igst), Entries(Signed(notes, -1), InterState, Igst), "");
    SignedIgst(invoices, 1);
    SignedIgst(notes, -1);
  }

  // ---- Order and splits ----

  lemma {:induction false} SignedConcat(xs: seq<Document>, ys: seq<Document>, sign: int)
    ensures Signed(xs + ys, sign) == Signed(xs, sign) + Signed(ys, sign)
  {
    if ys == [] {
      assert xs + ys == xs;
    } else {
      assert (xs + ys)[..|xs + ys| - 1] == xs + ys[..|ys| - 1];
      SignedConcat(xs, ys[..|ys| - 1], sign);
    }
  }

  lemma CellConcat(ps: seq<Posting>, qs: seq<Posting>, table: Table, col: Column, key: string)
    ensures Cell(ps + qs, table, col, key) == Cell(ps, table, col, key) + Cell(qs, table, col, key)
  {
    EntriesConcat(ps, qs, table, col);
    SumKeyConcat(Entries(ps, table, col), Entries(qs, table, col), key);
  }

  /** Cutting the period in two and adding the returns cell by cell gives the return of the whole. */
  lemma SplitsAddUp(invoices: seq<Document>, moreInvoices: seq<Document>, notes: seq<Document>,
      moreNotes: seq<Document>,
                    table: Table, col: Column, key: string)
    ensures Cell(Period(invoices + moreInvoices, notes + moreNotes), table, col, key)
         == Cell(Period(invoices, notes), table, col, key) + Cell(Period(moreInvoices, moreNotes), table, col, key)
  {
    SignedConcat(invoices, moreInvoices, 1);
    SignedConcat(notes, moreNotes, -1);
    CellConcat(Signed(invoices + moreInvoices, 1), Signed(notes + moreNotes, -1), table, col, key);
    CellConcat(Signed(invoices, 1), Signed(moreInvoices, 1), table, col, key);
    CellConcat(Signed(notes, -1), Signed(moreNotes, -1), table, col, key);
    CellConcat(Signed(invoices, 1), Signed(notes, -1), table, col, key);
    CellConcat(Signed(moreInvoices, 1), Signed(moreNotes, -1), table, col, key);
  }

  function Without(docs: seq<Document>, i: nat): seq<Document>
    requires i < |docs|
  {
    docs[..i] + docs[i + 1..]
  }

  /** Taking one document out takes its own amount out of each cell, wherever it stood. */
  lemma WithoutOne(docs: seq<Document>, i: nat, sign: int, table: Table, col: Column, key: string)
    requires i < |docs|
    ensures Cell(Signed(docs, sign), table, col, key)
         == Cell(Signed(Without(docs, i), sign), table, col, key) + Cell(Signed([docs[i]], sign), table, col, key)
  {
    var left, mid, right := docs[..i], [docs[i]], docs[i + 1..];
    assert docs == (left + mid) + right;
    SignedConcat(left + mid, right, sign);
    SignedConcat(left, mid, sign);
    SignedConcat(left, right, sign);
    CellConcat(Signed(left + mid, sign), Signed(right, sign), table, col, key);
    CellConcat(Signed(left, sign), Signed(mid, sign), table, col, key);
    CellConcat(Signed(left, sign), Signed(right, sign), table, col, key);
  }

  lemma WithoutMultiset(docs: seq<Document>, i: nat)
    requires i < |docs|
    ensures multiset(Without(docs, i)) == multiset(docs) - multiset{docs[i]}
  {
    assert docs == (docs[..i] + [docs[i]]) + docs[i + 1..];
  }

  lemma {:induction false} SignedIgnoresOrder(xs: seq<Document>, ys: seq<Document>, sign: int, table: Table,
      col: Column, key: string)
    requires multiset(xs) == multiset(ys)
    ensures Cell(Signed(xs, sign), table, col, key) == Cell(Signed(ys, sign), table, col, key)
    decreases |xs|
  {
    if xs == [] {
      assert |multiset(ys)| == 0;
    } else {
      var n := |xs| - 1;
      assert xs[n] in multiset(ys);
      var i :| 0 <= i < |ys| && ys[i] == xs[n];
      WithoutOne(xs, n, sign, table, col, key);
      WithoutOne(ys, i, sign, table, col, key);
      WithoutMultiset(xs, n);
      WithoutMultiset(ys, i);
      SignedIgnoresOrder(Without(xs, n), Without(ys, i), sign, table, col, key);
    }
  }

  /** In every cell, the order in which invoices and credit notes are read does not matter. */
  lemma OrderDoesNotMatter(invoices: seq<Document>, shuffledInvoices: seq<Document>, notes: seq<Document>,
                           shuffledNotes: seq<Document>, table: Table, col: Column, key: string)
    requires multiset(invoices) == multiset(shuffledInvoices) && multiset(notes) == multiset(shuffledNotes)
    ensures Cell(Period(invoices, notes), table, col, key)
        == Cell(Period(shuffledInvoices, shuffledNotes), table, col, key)
  {
    CellConcat(Signed(invoices, 1), Signed(notes, -1), table, col, key);
    CellConcat(Signed(shuffledInvoices, 1), Signed(shuffledNotes, -1), table, col, key);
    SignedIgnoresOrder(invoices, shuffledInvoices, 1, table, col, key);
    SignedIgnoresOrder(notes, shuffledNotes, -1, table, col, key);
  }

  /** Nor does it matter to the rows of Table 3.2: they come out the same, in the same order. */
  lemma Table32IgnoresOrder(invoices: seq<Document>, shuffledInvoices: seq<Document>, notes: seq<Document>,
                            shuffledNotes: seq<Document>, rows: seq<Row>, shuffledRows: seq<Row>)
    requires multiset(invoices) == multiset(shuffledInvoices) && multiset(notes) == multiset(shuffledNotes)
    requires IsTable32(rows, Period(invoices, notes))
        && IsTable32(shuffledRows, Period(shuffledInvoices, shuffledNotes))
    ensures rows == shuffledRows
  {
    var ps, qs := Period(invoices, notes), Period(shuffledInvoices, shuffledNotes);
    assert forall d :: d in invoices <==> d in multiset(invoices);
    assert forall d :: d in notes <==> d in multiset(notes);
    forall p ensures p in ps <==> p in qs {
      SignedMembers(invoices, 1, p);
      SignedMembers(notes, -1, p);
      SignedMembers(shuffledInvoices, 1, p);
      SignedMembers(shuffledNotes, -1, p);
    }
    assert PlacesOf(ps) == PlacesOf(qs);
    AscendingUnique(Places(rows), Places(shuffledRows));
    forall i | 0 <= i < |rows| ensures rows[i] == shuffledRows[i] {
      assert Places(rows)[i] == Places(shuffledRows)[i];
      OrderDoesNotMatter(invoices, shuffledInvoices, notes, shuffledNotes, InterState, Taxable, rows[i].place);
      OrderDoesNotMatter(invoices, shuffledInvoices, notes, shuffledNotes, InterState, Igst, rows[i].place);
    }
  }
}
