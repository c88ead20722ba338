/** Sums over listings of ids, and over the rows grouped under them. */
module Sums {
  import opened Ledger
  import opened Lots
  import AscendingInts
  import opened LotsLaws

  function Total(ids: seq<SignalId>, f: SignalId -> real): real {
    if ids == [] then 0.0 else Total(ids[..|ids| - 1], f) + f(ids[|ids| - 1])
  }

  lemma {:induction false} TotalCongruent(ids: seq<SignalId>, f: SignalId -> real, g: SignalId -> real)
    requires forall id :: id in ids ==> f(id) == g(id)
    ensures Total(ids, f) == Total(ids, g)
  {
    if ids == [] {
    } else {
      var front, last := ids[..|ids| - 1], ids[|ids| - 1];
      assert ids == front + [last];
      TotalCongruent(front, f, g);
    }
  }

  lemma {:induction false} TotalZero(ids: seq<SignalId>, f: SignalId -> real)
    requires forall id :: id in ids ==> f(id) == 0.0
    ensures Total(ids, f) == 0.0
  {
    if ids == [] {
    } else {
      var front, last := ids[..|ids| - 1], ids[|ids| - 1];
      assert ids == front + [last];
      TotalZero(front, f);
    }
  }

  lemma {:induction false} TotalAdds(ids: seq<SignalId>, f: SignalId -> real, g: SignalId -> real, h: SignalId -> real)
    requires forall id :: id in ids ==> h(id) == f(id) + g(id)
    ensures Total(ids, h) == Total(ids, f) + Total(ids, g)
  {
    if ids == [] {
    } else {
      var front, last := ids[..|ids| - 1], ids[|ids| - 1];
      assert ids == front + [last];
      TotalAdds(front, f, g, h);
    }
  }

  lemma {:induction false} TotalWithout(ids: seq<SignalId>, k: nat, f: SignalId -> real)
    requires k < |ids|
    ensures Total(ids, f) == Total(ids[..k] + ids[k + 1..], f) + f(ids[k])
  {
    var front, last := ids[..|ids| - 1], ids[|ids| - 1];
    if k == |ids| - 1 {
      assert ids[..k] + ids[k + 1..] == front;
    } else {
      TotalWithout(front, k, f);
      var rest := ids[..k] + ids[k + 1..];
      assert rest[..|rest| - 1] == front[..k] + front[k + 1..];
    }
  }

  /** A listing without one of its elements. */
  lemma Remove(ids: seq<SignalId>, k: nat)
    requires Distinct(ids) && k < |ids|
    ensures var rest := ids[..k] + ids[k + 1..];
            && Distinct(rest) && ids[k] !in rest
            && forall id :: id in ids <==> id == ids[k] || id in rest
  {
    var rest := ids[..k] + ids[k + 1..];
    forall id ensures id in ids <==> id == ids[k] || id in rest {
      assert ids == ids[..k] + [ids[k]] + ids[k + 1..];
    }
    forall i | 0 <= i < |rest| ensures rest[i] != ids[k] {
      assert rest[i] == ids[if i < k then i else i + 1];
    }
  }

  /** Two listings without repetition that differ only in ids worth nothing have one total. */
  lemma {:induction false} TotalSame(xs: seq<SignalId>, ys: seq<SignalId>, f: SignalId -> real)
    requires Distinct(xs) && Distinct(ys)
    requires forall id :: id in xs && f(id) != 0.0 ==> id in ys
    requires forall id :: id in ys && f(id) != 0.0 ==> id in xs
    ensures Total(xs, f) == Total(ys, f)
    decreases |xs|
  {
    if xs == [] {
      TotalZero(ys, f);
    } else {
      var front, last := xs[..|xs| - 1], xs[|xs| - 1];
      Remove(xs, |xs| - 1);
      assert xs[..|xs| - 1] + xs[|xs|..] == front;
      hide Distinct;
      if f(last) == 0.0 {
        TotalSame(front, ys, f);
      } else {
        var k :| 0 <= k < |ys| && ys[k] == last;
        TotalWithout(ys, k, f);
        Remove(ys, k);
        TotalSame(front, ys[..k] + ys[k + 1..], f);
      }
    }
  }

  // ---- Rows, grouped by lot -------------------------------------------------------------

  /** The rows of one signal, in the order they were written. */
  function RowsOf(rows: seq<Row>, id: SignalId): (rs: seq<Row>)
    ensures forall i :: 0 <= i < |rs| ==> rs[i] in rows && rs[i].signalId == id
  {
    if rows == [] then []
    else RowsOf(rows[..|rows| - 1], id) + if rows[|rows| - 1].signalId == id then [rows[|rows| - 1]] else []
  }

  lemma RowsOfAppend(rows: seq<Row>, r: Row, id: SignalId)
    ensures RowsOf(rows + [r], id) == if r.signalId == id then RowsOf(rows, id) + [r] else RowsOf(rows, id)
  {
    assert (rows + [r])[..|rows|] == rows;
  }

  lemma {:induction false} RowsOfHas(rows: seq<Row>, r: Row)
    requires r in rows
    ensures r in RowsOf(rows, r.signalId)
  {
    if rows[|rows| - 1] == r {
    } else {
      assert r in rows[..|rows| - 1];
      RowsOfHas(rows[..|rows| - 1], r);
    }
  }

  lemma InLotIds(rows: seq<Row>, id: SignalId)
    ensures id in LotIds(rows) <==> RowsOf(rows, id) != []
    ensures Distinct(LotIds(rows))
  {
    AscendingInts.CollectKeeps(RowIdsOf(rows));
    if id in LotIds(rows) {
      var i :| 0 <= i < |rows| && RowIdsOf(rows)[i] == id;
      RowsOfHas(rows, rows[i]);
    }
    if RowsOf(rows, id) != [] {
      var r := RowsOf(rows, id)[0];
      var i :| 0 <= i < |rows| && rows[i] == r;
      assert RowIdsOf(rows)[i] == id;
    }
  }

  function RowSum(rows: seq<Row>, w: Row -> real): real {
    if rows == [] then 0.0 else RowSum(rows[..|rows| - 1], w) + w(rows[|rows| - 1])
  }

  function PerLot(rows: seq<Row>, w: Row -> real): SignalId -> real {
    id => RowSum(RowsOf(rows, id), w)
  }

  /** Adding up all rows is adding up, over the lots, each lot's rows. */
  lemma {:induction false} Regroup(rows: seq<Row>, w: Row -> real, ids: seq<SignalId>)
    requires Distinct(ids) && forall r :: r in rows ==> r.signalId in ids
    ensures RowSum(rows, w) == Total(ids, PerLot(rows, w))
  {
    if rows == [] {
      TotalZero(ids, PerLot(rows, w));
    } else {
      var front, last := rows[..|rows| - 1], rows[|rows| - 1];
      assert rows == front + [last];
      Regroup(front, w, ids);
      var k :| 0 <= k < |ids| && ids[k] == last.signalId;
      OneRowMore(front, last, w, ids, k);
    }
  }

  lemma OneRowMore(rows: seq<Row>, r: Row, w: Row -> real, ids: seq<SignalId>, k: nat)
    requires Distinct(ids) && k < |ids| && ids[k] == r.signalId
    ensures Total(ids, PerLot(rows + [r], w)) == Total(ids, PerLot(rows, w)) + w(r)
  {
    var f, g := PerLot(rows + [r], w), PerLot(rows, w);
    var rest := ids[..k] + ids[k + 1..];
    Remove(ids, k);
    hide Distinct, RowsOf;
    TotalWithout(ids, k, f);
    TotalWithout(ids, k, g);
    forall id | id in rest ensures f(id) == g(id) {
      RowsOfAppend(rows, r, id);
    }
    TotalCongruent(rest, f, g);
    RowsOfAppend(rows, r, r.signalId);
    var own := RowsOf(rows, r.signalId);
    assert (own + [r])[..|own|] == own;
  }
}
