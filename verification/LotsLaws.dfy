/** What the lot ledger's queries and transactions mean. */
module LotsLaws {
  import opened Prelude
  import opened Ledger
  import opened Lots
  import Ordering
  import AscendingInts

  function IdKey(l: OpenLot): Key {
    (l.signalId, 0)
  }

  // ---- The newest row, and which lots are open ---------------------------------------

  /** No row of the signal is newer. */
  lemma {:induction false} NewestIsNewest(rows: seq<Row>, id: SignalId)
    ensures forall r :: r in rows && r.signalId == id ==>
              Newest(rows, id).Some? && !KeyLess(RowKey(Newest(rows, id).value), RowKey(r))
  {
    if rows == [] {
    } else {
      NewestIsNewest(rows[..|rows| - 1], id);
      assert rows == rows[..|rows| - 1] + [rows[|rows| - 1]];
    }
  }

  lemma NewestAppend(rows: seq<Row>, r: Row, id: SignalId)
    ensures Newest(rows + [r], id)
            == if r.signalId == id && (Newest(rows, id) == None || KeyLess(RowKey(Newest(rows, id).value), RowKey(r)))
               then Some(r) else Newest(rows, id)
  {
    assert (rows + [r])[..|rows|] == rows;
  }

  lemma {:induction false} OpenAmongSound(db: Tables, ids: seq<SignalId>)
    requires AscendingInts.StrictlyAscending(ids)
    ensures Ordering.DistinctKeys(OpenAmong(db, ids), IdKey)
    ensures forall l :: l in OpenAmong(db, ids) <==> IsOpen(db, l.signalId) && l.signalId in ids && l == LotOf(db, l.signalId)
  {
    if ids == [] {
    } else {
      var front, last := ids[..|ids| - 1], ids[|ids| - 1];
      OpenAmongSound(db, front);
      assert ids == front + [last];
      var lots := OpenAmong(db, front);
      forall i | 0 <= i < |lots| ensures lots[i].signalId != last {
        assert lots[i] in lots;
      }
    }
  }

  lemma OpenIsListed(db: Tables, id: SignalId)
    requires IsOpen(db, id)
    ensures id in LotIds(db.rows)
  {
    AscendingInts.CollectKeeps(RowIdsOf(db.rows));
    var i :| 0 <= i < |db.rows| && db.rows[i] == Newest(db.rows, id).value;
    assert RowIdsOf(db.rows)[i] == id;
  }

  /** The listing has each open lot once, and nothing else. */
  lemma ListOpenLotsSound(db: Tables)
    ensures Ordering.DistinctKeys(ListOpenLots(db), IdKey)
    ensures forall l :: l in ListOpenLots(db) <==> IsOpen(db, l.signalId) && l == LotOf(db, l.signalId)
  {
    hide IsOpen, OpenAmong;
    AscendingInts.CollectKeeps(RowIdsOf(db.rows));
    OpenAmongSound(db, LotIds(db.rows));
    forall id | IsOpen(db, id) ensures id in LotIds(db.rows) { OpenIsListed(db, id); }
  }

  lemma {:induction false} OfSymbolSound(lots: seq<OpenLot>, s: Symbol)
    ensures forall l :: l in OfSymbol(lots, s) <==> l in lots && l.symbol == s
    ensures multiset(OfSymbol(lots, s)) <= multiset(lots)
  {
    if lots == [] {
    } else {
      var front := lots[..|lots| - 1];
      OfSymbolSound(front, s);
      assert lots == front + [lots[|lots| - 1]];
    }
  }

  /** A sell's queue: every open lot of the symbol once, in order of its newest row's time. */
  lemma QueueSound(db: Tables, s: Symbol)
    ensures Ordering.DistinctKeys(Queue(db, s), IdKey)
    ensures Ordering.Ascending(Queue(db, s), TimeKey)
    ensures forall l :: l in Queue(db, s) <==> IsOpen(db, l.signalId) && l == LotOf(db, l.signalId) && l.symbol == s
  {
    var all, own := ListOpenLots(db), OpenLotsForSymbol(db, s);
    ListOpenLotsSound(db);
    OfSymbolSound(all, s);
    Ordering.SortKeeps(own, TimeKey);
    Ordering.DistinctSurvives(all, own, IdKey);
    Ordering.DistinctSurvives(own, Queue(db, s), IdKey);
    forall l ensures l in Queue(db, s) <==> l in own {
      assert l in Queue(db, s) <==> l in multiset(Queue(db, s));
      assert l in own <==> l in multiset(own);
    }
  }

  // ---- Selecting: the longest prefix that fits ------------------------------------------

  function Shares(lots: seq<OpenLot>): real {
    if lots == [] then 0.0 else lots[0].quantity + Shares(lots[1..])
  }

  lemma {:induction false} SharesAppend(xs: seq<OpenLot>, l: OpenLot)
    ensures Shares(xs + [l]) == Shares(xs) + l.quantity
  {
    if xs == [] {
      assert Shares(([] + [l])[1..]) == 0.0;
    } else {
      SharesAppend(xs[1..], l);
      assert (xs + [l])[1..] == xs[1..] + [l];
    }
  }

  lemma OfSymbolAppend(lots: seq<OpenLot>, l: OpenLot, s: Symbol)
    ensures OfSymbol(lots + [l], s) == if l.symbol == s then OfSymbol(lots, s) + [l] else OfSymbol(lots, s)
  {
    assert (lots + [l])[..|lots + [l]| - 1] == lots;
  }

  lemma {:induction false} FittingIsLongest(lots: seq<OpenLot>, running: real, wanted: real)
    requires running <= wanted
    ensures var n := |Fitting(lots, running, wanted)|;
            && n <= |lots| && Fitting(lots, running, wanted) == lots[..n]
            && running + Shares(lots[..n]) <= wanted
            && (n < |lots| ==> running + Shares(lots[..n + 1]) > wanted)
  {
    if lots == [] {
    } else if running + lots[0].quantity > wanted {
      assert lots[..1][0] == lots[0] && lots[..1][1..] == [];
    } else {
      var rest, n := lots[1..], |Fitting(lots[1..], running + lots[0].quantity, wanted)|;
      FittingIsLongest(rest, running + lots[0].quantity, wanted);
      assert lots[..n + 1] == [lots[0]] + rest[..n];
      assert lots[..n + 1][1..] == rest[..n];
      if n < |rest| { assert lots[..n + 2][1..] == rest[..n + 1]; }
    }
  }

  /** A sell takes the longest run of lots, from the front of the queue, that its shares cover. */
  lemma SelectIsLongestPrefix(db: Tables, s: Symbol, quantity: real)
    requires quantity >= 0.0
    ensures var q, n := Queue(db, s), |SelectLots(db, s, quantity)|;
            && n <= |q| && SelectLots(db, s, quantity) == IdsOf(q[..n])
            && Shares(q[..n]) <= quantity
            && (n < |q| ==> Shares(q[..n + 1]) > quantity)
  {
    FittingIsLongest(Queue(db, s), 0.0, quantity);
  }

  lemma FittingPrefix(lots: seq<OpenLot>, running: real, wanted: real)
    ensures |Fitting(lots, running, wanted)| <= |lots|
    ensures Fitting(lots, running, wanted) == lots[..|Fitting(lots, running, wanted)|]
  {
    if running <= wanted {
      FittingIsLongest(lots, running, wanted);
    } else if lots != [] && running + lots[0].quantity <= wanted {
      FittingIsLongest(lots[1..], running + lots[0].quantity, wanted);
      assert lots == [lots[0]] + lots[1..];
    }
  }

  ghost predicate Distinct(ids: seq<SignalId>) {
    forall i, j :: 0 <= i < j < |ids| ==> ids[i] != ids[j]
  }

  /** What a sell selects is open, of its symbol, and listed once. */
  lemma SelectedAreOpen(db: Tables, s: Symbol, quantity: real)
    ensures Distinct(SelectLots(db, s, quantity))
    ensures forall id :: id in SelectLots(db, s, quantity) ==> IsOpen(db, id) && db.signals[id].symbol == s
  {
    var q := Queue(db, s);
    QueueSound(db, s);
    FittingPrefix(q, 0.0, quantity);
    var ids := SelectLots(db, s, quantity);
    forall i, j | 0 <= i < j < |ids| ensures ids[i] != ids[j] {
      assert IdKey(q[i]) != IdKey(q[j]);
    }
    forall id | id in ids ensures IsOpen(db, id) && db.signals[id].symbol == s {
      var i :| 0 <= i < |ids| && ids[i] == id;
      assert q[i] in q;
    }
  }

  // ---- Closing: all of them or none -------------------------------------------------------

  lemma OthersUnmoved(db: Tables, row: Row, id: SignalId)
    requires id != row.signalId
    ensures IsOpen(AppendRow(db, row), id) <==> IsOpen(db, id)
    ensures Newest(AppendRow(db, row).rows, id) == Newest(db.rows, id)
  {
    NewestAppend(db.rows, row, id);
  }

  /** The transaction succeeds exactly when every listed lot is open, each listed once. */
  lemma {:induction false} CloseLotsSucceeds(db: Tables, ids: seq<SignalId>, exit: real, closedBy: SignalId, now: int, rowIds: seq<RowId>)
    requires |rowIds| == |ids| && Distinct(ids)
    ensures CloseLots(db, ids, exit, closedBy, now, rowIds).Some? <==> forall id :: id in ids ==> IsOpen(db, id)
    decreases |ids|
  {
    if ids == [] {
    } else {
      var row := ClosingRow(db, ids[0], exit, closedBy, now, rowIds[0]);
      assert ids[0] in ids;
      assert forall id :: id in ids <==> id == ids[0] || id in ids[1..];
      if row.Some? {
        forall id | id in ids[1..] ensures IsOpen(AppendRow(db, row.value), id) <==> IsOpen(db, id) {
          OthersUnmoved(db, row.value, id);
        }
        CloseLotsSucceeds(AppendRow(db, row.value), ids[1..], exit, closedBy, now, rowIds[1..]);
      }
    }
  }

  /** So a sell that selects and closes without interruption never fails. */
  lemma SelectThenClose(db: Tables, s: Symbol, quantity: real, exit: real, closedBy: SignalId, now: int, rowIds: seq<RowId>)
    requires |rowIds| == |SelectLots(db, s, quantity)|
    ensures CloseLots(db, SelectLots(db, s, quantity), exit, closedBy, now, rowIds).Some?
  {
    SelectedAreOpen(db, s, quantity);
    CloseLotsSucceeds(db, SelectLots(db, s, quantity), exit, closedBy, now, rowIds);
  }

  /** Closing appends one row per lot and changes nothing else. */
  lemma {:induction false} CloseLotsAppends(db: Tables, ids: seq<SignalId>, exit: real, closedBy: SignalId, now: int, rowIds: seq<RowId>)
    requires |rowIds| == |ids|
    ensures var t := CloseLots(db, ids, exit, closedBy, now, rowIds);
            t.Some? ==> t.value == db.(rows := t.value.rows) && db.rows <= t.value.rows && |t.value.rows| == |db.rows| + |ids|
    decreases |ids|
  {
    if ids == [] {
    } else {
      var row := ClosingRow(db, ids[0], exit, closedBy, now, rowIds[0]);
      if row.Some? { CloseLotsAppends(AppendRow(db, row.value), ids[1..], exit, closedBy, now, rowIds[1..]); }
    }
  }
}
