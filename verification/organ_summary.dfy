/** The per-key inventory summary of the organ inventory page: one row per
    (organType, bloodGroup) key, in order of first appearance, with the
    key's total IN and total OUT, and the clamped "available" figure shown
    on each row and card. */
module OrganSummary {
  import opened Common
  import opened OrganLedger

  datatype Totals = Totals(totalIn: int, totalOut: int)

  datatype Row = Row(key: Key, totals: Totals)

  /** The summary object, as its `Object.entries` order: first-insertion order of keys. */
  type Summary = seq<Row>

  /** A row's totals after one more record: "in" adds to IN, anything else to OUT. */
  function Tally(t: Totals, r: OrganRecord): (t': Totals)
    ensures t'.totalIn - t'.totalOut == t.totalIn - t.totalOut + Signed(r)
    ensures t'.totalIn + t'.totalOut == t.totalIn + t.totalOut + r.quantity
  {
    if IsIn(r) then Totals(t.totalIn + r.quantity, t.totalOut)
    else Totals(t.totalIn, t.totalOut + r.quantity)
  }

  /** Position of the first row of key `k`, if there is one. */
  function FindRow(rows: Summary, k: Key): (r: Option<nat>)
    ensures r.Some? ==> r.value < |rows| && rows[r.value].key == k
    ensures r.Some? ==> forall j :: 0 <= j < r.value ==> rows[j].key != k
    ensures r.None? <==> forall i :: 0 <= i < |rows| ==> rows[i].key != k
  {
    if rows == [] then None
    else if rows[0].key == k then Some(0)
    else match FindRow(rows[1..], k)
      case None => None
      case Some(i) => Some(i + 1)
  }

  /** One step of the summary `reduce`: create the key's row on first sight, then tally. */
  function AddRecord(rows: Summary, r: OrganRecord): Summary
  {
    var k := KeyOf(r);
    match FindRow(rows, k)
    case None => rows + [Row(k, Tally(Totals(0, 0), r))]
    case Some(i) => rows[i := Row(k, Tally(rows[i].totals, r))]
  }

  /** The summary of a ledger: a left-to-right `reduce` starting from no rows. */
  function Summarize(rs: Ledger): Summary
  {
    if rs == [] then []
    else AddRecord(Summarize(rs[..|rs| - 1]), rs[|rs| - 1])
  }

  /** The totals shown for key `k`; a key without a row reads as zero. */
  function Lookup(rows: Summary, k: Key): Totals
  {
    match FindRow(rows, k)
    case None => Totals(0, 0)
    case Some(i) => rows[i].totals
  }

  /** The clamped "Available" figure of a row: never negative, and the
      signed difference whenever that difference is not negative. */
  function ShownAvailable(t: Totals): (r: int)
    ensures r >= 0
    ensures r >= t.totalIn - t.totalOut
    ensures t.totalIn - t.totalOut >= 0 ==> r == t.totalIn - t.totalOut
    ensures t.totalIn - t.totalOut < 0 ==> r == 0
  {
    if t.totalIn - t.totalOut > 0 then t.totalIn - t.totalOut else 0
  }

  /** One rendered summary line / card. */
  datatype Card = Card(organ: string, blood: string, available: int, totalIn: int, totalOut: int)

  /** The summary list and the summary cards, one per row in row order. */
  function Cards(rows: Summary): (cs: seq<Card>)
    ensures |cs| == |rows|
    ensures forall i :: 0 <= i < |rows| ==>
      && cs[i].organ == rows[i].key.organType
      && cs[i].blood == rows[i].key.bloodGroup
      && cs[i].totalIn == rows[i].totals.totalIn
      && cs[i].totalOut == rows[i].totals.totalOut
      && cs[i].available >= 0
      && cs[i].available >= cs[i].totalIn - cs[i].totalOut
      && (cs[i].totalIn - cs[i].totalOut >= 0 ==> cs[i].available == cs[i].totalIn - cs[i].totalOut)
      && (cs[i].totalIn - cs[i].totalOut < 0 ==> cs[i].available == 0)
  {
    if rows == [] then []
    else
      var t := rows[0].totals;
      [Card(rows[0].key.organType, rows[0].key.bloodGroup, ShownAvailable(t), t.totalIn, t.totalOut)]
        + Cards(rows[1..])
  }

  // ---------------------------------------------------------------------
  // The summary agrees with the ledger
  // ---------------------------------------------------------------------

  ghost predicate DistinctKeys(rows: Summary)
  {
    forall i, j :: 0 <= i < j < |rows| ==> rows[i].key != rows[j].key
  }

  predicate HasRow(rows: Summary, k: Key)
  {
    FindRow(rows, k).Some?
  }

  predicate Mentions(rs: Ledger, k: Key)
  {
    exists j :: 0 <= j < |rs| && KeyOf(rs[j]) == k
  }

  /** `rows` is exactly the summary `rs` should produce: one row per key the
      ledger mentions and no other, carrying that key's IN and other totals. */
  ghost predicate Faithful(rows: Summary, rs: Ledger)
  {
    && DistinctKeys(rows)
    && (forall i :: 0 <= i < |rows| ==> rows[i].totals == Totals(KeyIn(rs, rows[i].key), KeyOther(rs, rows[i].key)))
    && (forall k :: HasRow(rows, k) <==> Mentions(rs, k))
  }

  lemma {:induction false} WithKeyOfUnmentioned(rs: Ledger, k: Key)
    requires !Mentions(rs, k)
    ensures WithKey(rs, k) == []
    decreases |rs|
  {
    if rs != [] {
      assert KeyOf(rs[0]) != k;
      WithKeyOfUnmentioned(rs[1..], k);
    }
  }

  /** One `reduce` step keeps the keys distinct. */
  lemma {:induction false} AddRecordDistinct(rows: Summary, r: OrganRecord)
    requires DistinctKeys(rows)
    ensures DistinctKeys(AddRecord(rows, r))
  {
  }

  /** One `reduce` step keeps every row's totals equal to its key's sums. */
  lemma {:induction false} AddRecordTotals(rows: Summary, rs: Ledger, r: OrganRecord)
    requires Faithful(rows, rs)
    ensures forall i :: 0 <= i < |AddRecord(rows, r)| ==>
      AddRecord(rows, r)[i].totals == Totals(KeyIn(rs + [r], AddRecord(rows, r)[i].key), KeyOther(rs + [r], AddRecord(rows, r)[i].key))
  {
    var k := KeyOf(r);
    var rows' := AddRecord(rows, r);
    forall i | 0 <= i < |rows'|
      ensures rows'[i].totals == Totals(KeyIn(rs + [r], rows'[i].key), KeyOther(rs + [r], rows'[i].key))
    {
      KeyTotalsAppend(rs, r, rows'[i].key);
      if i == |rows| {
        assert !HasRow(rows, k);
        WithKeyOfUnmentioned(rs, k);
      }
    }
  }

  /** One `reduce` step adds a row exactly for a key seen for the first time. */
  lemma {:induction false} AddRecordKeys(rows: Summary, rs: Ledger, r: OrganRecord, k': Key)
    requires forall k :: HasRow(rows, k) <==> Mentions(rs, k)
    ensures HasRow(AddRecord(rows, r), k') <==> Mentions(rs + [r], k')
  {
    var k := KeyOf(r);
    var rows' := AddRecord(rows, r);
    var rs' := rs + [r];
    if k' == k {
      assert rs'[|rs|] == r;
      match FindRow(rows, k)
      case None => assert rows'[|rows|].key == k;
      case Some(i) => assert rows'[i].key == k;
    } else {
      if Mentions(rs', k') {
        var j :| 0 <= j < |rs'| && KeyOf(rs'[j]) == k';
        assert j < |rs| && KeyOf(rs[j]) == k';
        assert HasRow(rows, k');
        var i := FindRow(rows, k').value;
        assert rows'[i].key == k';
      }
      if HasRow(rows', k') {
        var i := FindRow(rows', k').value;
        assert i < |rows| && rows[i].key == k';
        assert HasRow(rows, k');
        var j :| 0 <= j < |rs| && KeyOf(rs[j]) == k';
        assert rs'[j] == rs[j];
      }
    }
  }

  /** One `reduce` step keeps the summary faithful to the grown ledger. */
  lemma {:induction false} AddRecordFaithful(rows: Summary, rs: Ledger, r: OrganRecord)
    requires Faithful(rows, rs)
    ensures Faithful(AddRecord(rows, r), rs + [r])
  {
    AddRecordDistinct(rows, r);
    AddRecordTotals(rows, rs, r);
    forall k' ensures HasRow(AddRecord(rows, r), k') <==> Mentions(rs + [r], k')
    {
      AddRecordKeys(rows, rs, r, k');
    }
  }

  /** The summary of any ledger is faithful to it. */
  lemma {:induction false} SummarizeFaithful(rs: Ledger)
    ensures Faithful(Summarize(rs), rs)
    decreases |rs|
  {
    if rs != [] {
      var front := rs[..|rs| - 1];
      SummarizeFaithful(front);
      AddRecordFaithful(Summarize(front), front, rs[|rs| - 1]);
      assert front + [rs[|rs| - 1]] == rs;
    }
  }

  /** For every key, the summary's IN minus OUT is the page's available
      quantity, and its totals split that figure into the "in" sum and the
      sum of every other record of the key. */
  lemma {:induction false} SummaryAgreesWithFold(rs: Ledger, k: Key)
    ensures Lookup(Summarize(rs), k) == Totals(KeyIn(rs, k), KeyOther(rs, k))
    ensures Lookup(Summarize(rs), k).totalIn - Lookup(Summarize(rs), k).totalOut == Available(rs, k)
    ensures HasRow(Summarize(rs), k) <==> Mentions(rs, k)
  {
    SummarizeFaithful(rs);
    AvailableIsInMinusOther(rs, k);
    if !HasRow(Summarize(rs), k) {
      WithKeyOfUnmentioned(rs, k);
    }
  }

  /** The clamped figure shown for a key is never negative and equals the
      available quantity whenever that quantity is not negative. */
  lemma {:induction false} ShownAvailableMatchesFold(rs: Ledger, k: Key)
    ensures ShownAvailable(Lookup(Summarize(rs), k)) >= 0
    ensures Available(rs, k) >= 0 ==> ShownAvailable(Lookup(Summarize(rs), k)) == Available(rs, k)
    ensures Available(rs, k) < 0 ==> ShownAvailable(Lookup(Summarize(rs), k)) == 0
  {
    SummaryAgreesWithFold(rs, k);
  }

  // ---------------------------------------------------------------------
  // Per-key totals against the global header totals
  // ---------------------------------------------------------------------

  function RowsIn(rows: Summary): int
  {
    if rows == [] then 0 else rows[0].totals.totalIn + RowsIn(rows[1..])
  }

  function RowsOut(rows: Summary): int
  {
    if rows == [] then 0 else rows[0].totals.totalOut + RowsOut(rows[1..])
  }

  lemma {:induction false} RowsAppend(rows: Summary, row: Row)
    ensures RowsIn(rows + [row]) == RowsIn(rows) + row.totals.totalIn
    ensures RowsOut(rows + [row]) == RowsOut(rows) + row.totals.totalOut
    decreases |rows|
  {
    if rows == [] {
      assert rows + [row] == [row];
    } else {
      assert (rows + [row])[1..] == rows[1..] + [row];
      RowsAppend(rows[1..], row);
    }
  }

  lemma {:induction false} RowsUpdate(rows: Summary, i: nat, row: Row)
    requires i < |rows|
    ensures RowsIn(rows[i := row]) == RowsIn(rows) - rows[i].totals.totalIn + row.totals.totalIn
    ensures RowsOut(rows[i := row]) == RowsOut(rows) - rows[i].totals.totalOut + row.totals.totalOut
    decreases |rows|
  {
    if i == 0 {
      assert rows[i := row][1..] == rows[1..];
    } else {
      assert rows[i := row][1..] == rows[1..][i - 1 := row];
      RowsUpdate(rows[1..], i - 1, row);
    }
  }

  /** Summed over all rows, IN equals the header's Total IN, and OUT equals
      the header's Total OUT plus the records that are neither "in" nor "out". */
  lemma {:induction false} RowTotalsMatchHeader(rs: Ledger)
    ensures RowsIn(Summarize(rs)) == TotalIn(rs)
    ensures RowsOut(Summarize(rs)) == TotalOut(rs) + Sum(Unclassified(rs))
    decreases |rs|
  {
    if rs != [] {
      var front := rs[..|rs| - 1];
      var r := rs[|rs| - 1];
      assert front + [r] == rs;
      RowTotalsMatchHeader(front);
      GlobalTotalsAppend(front, r);
      var rows := Summarize(front);
      match FindRow(rows, KeyOf(r))
      case None =>
        RowsAppend(rows, Row(KeyOf(r), Tally(Totals(0, 0), r)));
      case Some(i) =>
        RowsUpdate(rows, i, Row(KeyOf(r), Tally(rows[i].totals, r)));
    }
  }

  lemma {:induction false} UnclassifiedEmpty(rs: Ledger)
    requires forall j :: 0 <= j < |rs| ==> IsIn(rs[j]) || IsOut(rs[j])
    ensures Unclassified(rs) == []
    decreases |rs|
  {
    if rs != [] {
      UnclassifiedEmpty(rs[1..]);
    }
  }

  lemma {:induction false} SumNonNegative(rs: Ledger)
    requires forall j :: 0 <= j < |rs| ==> rs[j].quantity >= 0
    ensures Sum(rs) >= 0
    decreases |rs|
  {
    if rs != [] {
      SumNonNegative(rs[1..]);
    }
  }

  lemma {:induction false} UnclassifiedQuantitiesNonNegative(rs: Ledger)
    requires forall j :: 0 <= j < |rs| ==> rs[j].quantity >= 0
    ensures forall j :: 0 <= j < |Unclassified(rs)| ==> Unclassified(rs)[j].quantity >= 0
    decreases |rs|
  {
    if rs != [] {
      UnclassifiedQuantitiesNonNegative(rs[1..]);
    }
  }

  /** With non-negative quantities the rows' OUT sum is at least the header's
      Total OUT, and the two agree when every record is "in" or "out". */
  lemma {:induction false} RowOutBoundsHeader(rs: Ledger)
    requires forall j :: 0 <= j < |rs| ==> rs[j].quantity >= 0
    ensures RowsIn(Summarize(rs)) == TotalIn(rs)
    ensures RowsOut(Summarize(rs)) >= TotalOut(rs)
    ensures (forall j :: 0 <= j < |rs| ==> IsIn(rs[j]) || IsOut(rs[j])) ==> RowsOut(Summarize(rs)) == TotalOut(rs)
  {
    RowTotalsMatchHeader(rs);
    UnclassifiedQuantitiesNonNegative(rs);
    SumNonNegative(Unclassified(rs));
    if forall j :: 0 <= j < |rs| ==> IsIn(rs[j]) || IsOut(rs[j]) {
      UnclassifiedEmpty(rs);
    }
  }
}
