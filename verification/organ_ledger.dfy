/** The organ inventory ledger: the list of organ records fetched from the
    server and the quantities derived from it on the inventory page
    (src/pages/OrganInventoryPage.jsx). */
module OrganLedger {

  /** The two direction strings the page recognises. A record may carry any
      other string (or none); every derived figure treats it as outgoing
      unless it is exactly "in". */
  const InDir: string := "in"
  const OutDir: string := "out"

  /** One stock pool: an organ type together with a blood group. */
  datatype Key = Key(organType: string, bloodGroup: string)

  /** One ledger entry, as the page reads it back from the server. */
  datatype OrganRecord = OrganRecord(organType: string, bloodGroup: string, inOrOut: string, quantity: int)

  type Ledger = seq<OrganRecord>

  function KeyOf(r: OrganRecord): Key
  {
    Key(r.organType, r.bloodGroup)
  }

  predicate IsIn(r: OrganRecord)
  {
    r.inOrOut == InDir
  }

  predicate IsOut(r: OrganRecord)
  {
    r.inOrOut == OutDir
  }

  /** What one record adds to the running balance of its own key. */
  function Signed(r: OrganRecord): int
  {
    if IsIn(r) then r.quantity else -r.quantity
  }

  /** Available quantity of key `k`: the page's left-to-right `reduce` from 0,
      written as "the balance after all but the last record, plus the last". */
  function Available(rs: Ledger, k: Key): int
  {
    if rs == [] then 0
    else
      var acc := Available(rs[..|rs| - 1], k);
      var last := rs[|rs| - 1];
      if KeyOf(last) == k then acc + Signed(last) else acc
  }

  // ---------------------------------------------------------------------
  // Filters and sums: the independent "filter, then add up" reading of the
  // same ledger, used by the page's global totals and by the summary.
  // ---------------------------------------------------------------------

  function Sum(rs: Ledger): int
  {
    if rs == [] then 0 else rs[0].quantity + Sum(rs[1..])
  }

  function WithKey(rs: Ledger, k: Key): (r: Ledger)
    ensures forall i :: 0 <= i < |r| ==> KeyOf(r[i]) == k
  {
    if rs == [] then []
    else if KeyOf(rs[0]) == k then [rs[0]] + WithKey(rs[1..], k)
    else WithKey(rs[1..], k)
  }

  function Incoming(rs: Ledger): (r: Ledger)
    ensures forall i :: 0 <= i < |r| ==> IsIn(r[i])
  {
    if rs == [] then []
    else if IsIn(rs[0]) then [rs[0]] + Incoming(rs[1..])
    else Incoming(rs[1..])
  }

  function Outgoing(rs: Ledger): (r: Ledger)
    ensures forall i :: 0 <= i < |r| ==> IsOut(r[i])
  {
    if rs == [] then []
    else if IsOut(rs[0]) then [rs[0]] + Outgoing(rs[1..])
    else Outgoing(rs[1..])
  }

  /** Records that are not "in": the summary's `else` branch. */
  function NotIncoming(rs: Ledger): (r: Ledger)
    ensures forall i :: 0 <= i < |r| ==> !IsIn(r[i])
  {
    if rs == [] then []
    else if !IsIn(rs[0]) then [rs[0]] + NotIncoming(rs[1..])
    else NotIncoming(rs[1..])
  }

  /** Records that are neither "in" nor "out". */
  function Unclassified(rs: Ledger): (r: Ledger)
    ensures forall i :: 0 <= i < |r| ==> !IsIn(r[i]) && !IsOut(r[i])
  {
    if rs == [] then []
    else if !IsIn(rs[0]) && !IsOut(rs[0]) then [rs[0]] + Unclassified(rs[1..])
    else Unclassified(rs[1..])
  }

  /** Global "Total IN" of the page header: filter "in", add quantities. */
  function TotalIn(rs: Ledger): int
  {
    Sum(Incoming(rs))
  }

  /** Global "Total OUT" of the page header: filter "out", add quantities. */
  function TotalOut(rs: Ledger): int
  {
    Sum(Outgoing(rs))
  }

  /** Sum of "in" quantities of key `k`. */
  function KeyIn(rs: Ledger, k: Key): int
  {
    Sum(Incoming(WithKey(rs, k)))
  }

  /** Sum of quantities of every other record of key `k`. */
  function KeyOther(rs: Ledger, k: Key): int
  {
    Sum(NotIncoming(WithKey(rs, k)))
  }

  /** The balance can never be negative for any key. */
  ghost predicate WellStocked(rs: Ledger)
  {
    forall k :: Available(rs, k) >= 0
  }

  // ---------------------------------------------------------------------
  // Append laws
  // ---------------------------------------------------------------------

  /** Appending one record changes only its own key's balance, by its signed quantity. */
  lemma {:induction false} AvailableAppend(rs: Ledger, r: OrganRecord, k: Key)
    ensures Available(rs + [r], k) == Available(rs, k) + (if KeyOf(r) == k then Signed(r) else 0)
  {
    assert (rs + [r])[..|rs + [r]| - 1] == rs;
  }

  lemma {:induction false} SumAppend(a: Ledger, b: Ledger)
    ensures Sum(a + b) == Sum(a) + Sum(b)
  {
    if a == [] {
      assert a + b == b;
    } else {
      assert (a + b)[1..] == a[1..] + b;
      SumAppend(a[1..], b);
    }
  }

  lemma {:induction false} WithKeyAppend(a: Ledger, b: Ledger, k: Key)
    ensures WithKey(a + b, k) == WithKey(a, k) + WithKey(b, k)
  {
    if a == [] {
      assert a + b == b;
    } else {
      assert (a + b)[1..] == a[1..] + b;
      WithKeyAppend(a[1..], b, k);
    }
  }

  lemma {:induction false} IncomingAppend(a: Ledger, b: Ledger)
    ensures Incoming(a + b) == Incoming(a) + Incoming(b)
  {
    if a == [] {
      assert a + b == b;
    } else {
      assert (a + b)[1..] == a[1..] + b;
      IncomingAppend(a[1..], b);
    }
  }

  lemma {:induction false} OutgoingAppend(a: Ledger, b: Ledger)
    ensures Outgoing(a + b) == Outgoing(a) + Outgoing(b)
  {
    if a == [] {
      assert a + b == b;
    } else {
      assert (a + b)[1..] == a[1..] + b;
      OutgoingAppend(a[1..], b);
    }
  }

  lemma {:induction false} NotIncomingAppend(a: Ledger, b: Ledger)
    ensures NotIncoming(a + b) == NotIncoming(a) + NotIncoming(b)
  {
    if a == [] {
      assert a + b == b;
    } else {
      assert (a + b)[1..] == a[1..] + b;
      NotIncomingAppend(a[1..], b);
    }
  }

  lemma {:induction false} UnclassifiedAppend(a: Ledger, b: Ledger)
    ensures Unclassified(a + b) == Unclassified(a) + Unclassified(b)
  {
    if a == [] {
      assert a + b == b;
    } else {
      assert (a + b)[1..] == a[1..] + b;
      UnclassifiedAppend(a[1..], b);
    }
  }

  /** Effect of one appended record on the per-key "in" and "other" sums. */
  lemma {:induction false} KeyTotalsAppend(rs: Ledger, r: OrganRecord, k: Key)
    ensures KeyIn(rs + [r], k) == KeyIn(rs, k) + (if KeyOf(r) == k && IsIn(r) then r.quantity else 0)
    ensures KeyOther(rs + [r], k) == KeyOther(rs, k) + (if KeyOf(r) == k && !IsIn(r) then r.quantity else 0)
  {
    WithKeyAppend(rs, [r], k);
    var w := WithKey(rs, k);
    var wr := WithKey([r], k);
    IncomingAppend(w, wr);
    NotIncomingAppend(w, wr);
    SumAppend(Incoming(w), Incoming(wr));
    SumAppend(NotIncoming(w), NotIncoming(wr));
  }

  /** Effect of one appended record on the global totals. */
  lemma {:induction false} GlobalTotalsAppend(rs: Ledger, r: OrganRecord)
    ensures TotalIn(rs + [r]) == TotalIn(rs) + (if IsIn(r) then r.quantity else 0)
    ensures TotalOut(rs + [r]) == TotalOut(rs) + (if IsOut(r) then r.quantity else 0)
    ensures Sum(Unclassified(rs + [r])) == Sum(Unclassified(rs)) + (if !IsIn(r) && !IsOut(r) then r.quantity else 0)
  {
    IncomingAppend(rs, [r]);
    OutgoingAppend(rs, [r]);
    UnclassifiedAppend(rs, [r]);
    SumAppend(Incoming(rs), Incoming([r]));
    SumAppend(Outgoing(rs), Outgoing([r]));
    SumAppend(Unclassified(rs), Unclassified([r]));
  }

  // ---------------------------------------------------------------------
  // The fold agrees with the filter-and-sum reading
  // ---------------------------------------------------------------------

  /** The signed fold for key `k` equals the "in" quantities of `k` minus the
      quantities of every other record of `k`; records of other keys
      contribute nothing. */
  lemma {:induction false} AvailableIsInMinusOther(rs: Ledger, k: Key)
    ensures Available(rs, k) == KeyIn(rs, k) - KeyOther(rs, k)
    decreases |rs|
  {
    if rs == [] {
    } else {
      var front := rs[..|rs| - 1];
      var last := rs[|rs| - 1];
      assert rs == front + [last];
      AvailableIsInMinusOther(front, k);
      AvailableAppend(front, last, k);
      KeyTotalsAppend(front, last, k);
    }
  }

  /** A ledger containing no record of key `k` leaves `k` at zero. */
  lemma {:induction false} AvailableOfAbsentKey(rs: Ledger, k: Key)
    requires forall i :: 0 <= i < |rs| ==> KeyOf(rs[i]) != k
    ensures Available(rs, k) == 0
    decreases |rs|
  {
    if rs != [] {
      AvailableOfAbsentKey(rs[..|rs| - 1], k);
    }
  }
}
