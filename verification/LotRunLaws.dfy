/** Shares are conserved, and each lot's rows agree, in every run of the jobs. */
module LotRunLaws {
  import opened Prelude
  import opened Ledger
  import opened Lots
  import opened LotsLaws
  import opened Sums
  import opened LotRuns

  // ---- Each lot ---------------------------------------------------------------------------

  /** In every run, whatever ids are drawn: a lot's rows share one entry price and one size, and one row opens it. */
  lemma LotRowsAgree(clock: int, jobs: seq<(Job, int)>, draw: Draw, i: nat, j: nat)
    requires DrawsEnough(draw)
    requires var rows := RunJobs(Books(EMPTY, clock), jobs, draw).db.rows;
             i < j < |rows| && rows[i].signalId == rows[j].signalId
    ensures var b := RunJobs(Books(EMPTY, clock), jobs, draw); var r, q := b.db.rows[i], b.db.rows[j];
            && r.signalId in b.db.signals
            && r.entryPrice == q.entryPrice && SizeOf(b.db, r) == SizeOf(b.db, q) && r.recordedAt <= q.recordedAt
            && !IsOpening(q) && (r.markPrice.Some? && q.markPrice.Some? ==> Day(r.recordedAt) < Day(q.recordedAt))
  {
    hide LotHistory, RunJobs;
    var b := RunJobs(Books(EMPTY, clock), jobs, draw);
    LotRuns.InitSound(clock);
    RunKeeps(Books(EMPTY, clock), jobs, draw);
    var id := b.db.rows[i].signalId;
    assert b.db.rows[i] in b.db.rows;
    HistoryShape(RowsOf(b.db.rows, id), LotSize(b.db, id));
    MarksAreDaily(RowsOf(b.db.rows, id), LotSize(b.db, id));
    var k, l := RowsInOrder(b.db.rows, i, j);
  }

  /** In every run whose sells all come after the lots they close: a closing row is its lot's last, so a lot closes at most once. */
  lemma LotClosesOnce(clock: int, jobs: seq<(Job, int)>, draw: Draw, i: nat, j: nat)
    requires DrawsEnough(draw) && AlwaysLater(Books(EMPTY, clock), jobs, draw)
    requires var rows := RunJobs(Books(EMPTY, clock), jobs, draw).db.rows;
             i < j < |rows| && rows[i].signalId == rows[j].signalId
    ensures var rows := RunJobs(Books(EMPTY, clock), jobs, draw).db.rows;
            rows[i].status == Open && (rows[j].status == Closed ==> rows[i].recordedAt < rows[j].recordedAt)
  {
    hide LotHistory, RunJobs, AlwaysLater;
    var b := RunJobs(Books(EMPTY, clock), jobs, draw);
    LotRuns.InitSound(clock);
    RunKeeps(Books(EMPTY, clock), jobs, draw);
    assert b.db.rows[i] in b.db.rows;
    SettledLot(b, b.db.rows[i].signalId);
    var k, l := RowsInOrder(b.db.rows, i, j);
  }

  /** Two rows of one signal keep their order among its rows. */
  lemma {:induction false} RowsInOrder(rows: seq<Row>, i: nat, j: nat) returns (k: nat, l: nat)
    requires i < j < |rows| && rows[i].signalId == rows[j].signalId
    ensures var rs := RowsOf(rows, rows[i].signalId); k < l < |rs| && rs[k] == rows[i] && rs[l] == rows[j]
  {
    var front, last := rows[..|rows| - 1], rows[|rows| - 1];
    var id := rows[i].signalId;
    assert rows == front + [last];
    RowsOfAppend(front, last, id);
    if j < |front| {
      k, l := RowsInOrder(front, i, j);
    } else {
      RowsOfHas(front, front[i]);
      k :| 0 <= k < |RowsOf(front, id)| && RowsOf(front, id)[k] == front[i];
      l := |RowsOf(front, id)|;
    }
  }

  // ---- When a close takes effect ---------------------------------------------------------

  /** A row that would count as the newest of its signal: later, or as late with the larger id. */
  predicate Supersedes(rows: seq<Row>, id: SignalId, now: int, rowId: RowId) {
    Newest(rows, id).Some? ==> KeyLess(RowKey(Newest(rows, id).value), (now, rowId))
  }

  lemma CloseTakesEffect(db: Tables, id: SignalId, exit: real, closedBy: SignalId, now: int, rowId: RowId)
    requires IsOpen(db, id)
    ensures var row := ClosingRow(db, id, exit, closedBy, now, rowId);
            row.Some? && (!IsOpen(AppendRow(db, row.value), id) <==> Supersedes(db.rows, id, now, rowId))
  {
    NewestAppend(db.rows, ClosingRow(db, id, exit, closedBy, now, rowId).value, id);
  }

  lemma {:induction false} ClosingOthers(db: Tables, ids: seq<SignalId>, exit: real, closedBy: SignalId, now: int, rowIds: seq<RowId>, x: SignalId)
    requires |rowIds| == |ids| && x !in ids && CloseLots(db, ids, exit, closedBy, now, rowIds).Some?
    ensures var db' := CloseLots(db, ids, exit, closedBy, now, rowIds).value;
            Newest(db'.rows, x) == Newest(db.rows, x) && db'.signals == db.signals
    decreases |ids|
  {
    if ids == [] {
    } else {
      var row := ClosingRow(db, ids[0], exit, closedBy, now, rowIds[0]).value;
      OthersUnmoved(db, row, x);
      ClosingOthers(AppendRow(db, row), ids[1..], exit, closedBy, now, rowIds[1..], x);
    }
  }

  /** Each lot of a batch closes or stays open by its own row. */
  lemma {:induction false} BatchTakesEffect(db: Tables, ids: seq<SignalId>, exit: real, closedBy: SignalId, now: int, rowIds: seq<RowId>, i: nat)
    requires |rowIds| == |ids| && Distinct(ids) && i < |ids| && CloseLots(db, ids, exit, closedBy, now, rowIds).Some?
    ensures var db' := CloseLots(db, ids, exit, closedBy, now, rowIds).value;
            !IsOpen(db', ids[i]) <==> Supersedes(db.rows, ids[i], now, rowIds[i])
    decreases |ids|
  {
    var row := ClosingRow(db, ids[0], exit, closedBy, now, rowIds[0]).value;
    var db1 := AppendRow(db, row);
    if i == 0 {
      CloseTakesEffect(db, ids[0], exit, closedBy, now, rowIds[0]);
      ClosingOthers(db1, ids[1..], exit, closedBy, now, rowIds[1..], ids[0]);
    } else {
      OthersUnmoved(db, row, ids[i]);
      BatchTakesEffect(db1, ids[1..], exit, closedBy, now, rowIds[1..], i - 1);
    }
  }

  /** The transaction commits, and none of the lots is listed as open afterwards. */
  ghost predicate AllClosed(db: Tables, ids: seq<SignalId>, exit: real, closedBy: SignalId, now: int, rowIds: seq<RowId>)
    requires |rowIds| == |ids|
  {
    var t := CloseLots(db, ids, exit, closedBy, now, rowIds);
    t.Some? && forall x :: x in ids ==> !IsOpen(t.value, x)
  }

  /**
   * When a sell is sure to close what it selects: it does, for every row ids the database may draw, if and
   * only if the newest row of each selected lot is strictly older than now.
   */
  lemma SellSurelyCloses(db: Tables, s: Symbol, quantity: real, exit: real, seller: SignalId, now: int)
    ensures var ids := SelectLots(db, s, quantity);
            (forall rowIds :: |rowIds| == |ids| ==> AllClosed(db, ids, exit, seller, now, rowIds))
            <==> forall x :: x in ids ==> NewestTime(db.rows, x) < now
  {
    hide SelectLots, CloseLots;
    var ids := SelectLots(db, s, quantity);
    SelectedAreOpen(db, s, quantity);
    forall rowIds | |rowIds| == |ids| && forall x :: x in ids ==> NewestTime(db.rows, x) < now
      ensures AllClosed(db, ids, exit, seller, now, rowIds)
    {
      SelectThenClose(db, s, quantity, exit, seller, now, rowIds);
      forall i | 0 <= i < |ids| ensures !IsOpen(CloseLots(db, ids, exit, seller, now, rowIds).value, ids[i]) {
        assert ids[i] in ids;
        BatchTakesEffect(db, ids, exit, seller, now, rowIds, i);
      }
    }
    if x :| x in ids && NewestTime(db.rows, x) >= now {
      TiedDrawLeavesOpen(db, s, quantity, exit, seller, now, x);
    }
  }

  /** Drawing the id of the lot's newest row, or a smaller one, at that row's instant or before leaves the lot open. */
  lemma TiedDrawLeavesOpen(db: Tables, s: Symbol, quantity: real, exit: real, seller: SignalId, now: int, x: SignalId)
    requires x in SelectLots(db, s, quantity) && NewestTime(db.rows, x) >= now
    ensures var ids := SelectLots(db, s, quantity);
            exists rowIds :: |rowIds| == |ids| && !AllClosed(db, ids, exit, seller, now, rowIds)
  {
    hide SelectLots, CloseLots;
    var ids := SelectLots(db, s, quantity);
    SelectedAreOpen(db, s, quantity);
    var rowIds := seq(|ids|, _ => Newest(db.rows, x).value.id);
    var i :| 0 <= i < |ids| && ids[i] == x;
    SelectThenClose(db, s, quantity, exit, seller, now, rowIds);
    BatchTakesEffect(db, ids, exit, seller, now, rowIds, i);
    assert !AllClosed(db, ids, exit, seller, now, rowIds);
  }

  // ---- Shares opened are shares closed plus shares open --------------------------------------

  function OpenedBy(db: Tables, s: Symbol, r: Row): real {
    if r.signalId in db.signals && db.signals[r.signalId].symbol == s && IsOpening(r) then SizeOf(db, r) else 0.0
  }

  function ClosedBy(db: Tables, s: Symbol, r: Row): real {
    if r.signalId in db.signals && db.signals[r.signalId].symbol == s && r.status == Closed then SizeOf(db, r) else 0.0
  }

  function Opens(db: Tables, s: Symbol): Row -> real {
    r => OpenedBy(db, s, r)
  }

  function Closes(db: Tables, s: Symbol): Row -> real {
    r => ClosedBy(db, s, r)
  }

  /** Shares every opening row of the symbol brought in. */
  function SharesOpened(db: Tables, s: Symbol): real {
    RowSum(db.rows, Opens(db, s))
  }

  /** Shares every closing row of the symbol took out. */
  function SharesClosed(db: Tables, s: Symbol): real {
    RowSum(db.rows, Closes(db, s))
  }

  function SharesOpen(db: Tables, s: Symbol): real {
    Shares(OpenLotsForSymbol(db, s))
  }

  function OpenSize(db: Tables, s: Symbol, id: SignalId): real {
    if IsOpen(db, id) && db.signals[id].symbol == s then LotOf(db, id).quantity else 0.0
  }

  function StillOpen(db: Tables, s: Symbol): SignalId -> real {
    id => OpenSize(db, s, id)
  }

  lemma {:induction false} OpenSharesAreATotal(db: Tables, s: Symbol, ids: seq<SignalId>)
    ensures Shares(OfSymbol(OpenAmong(db, ids), s)) == Total(ids, StillOpen(db, s))
  {
    if ids == [] {
    } else {
      var front, last := ids[..|ids| - 1], ids[|ids| - 1];
      OpenSharesAreATotal(db, s, front);
      var lots := OpenAmong(db, front);
      if IsOpen(db, last) {
        var l := LotOf(db, last);
        assert OpenAmong(db, ids) == lots + [l];
        OfSymbolAppend(lots, l, s);
        SharesAppend(OfSymbol(lots, s), l);
        assert StillOpen(db, s)(last) == if l.symbol == s then l.quantity else 0.0;
      } else {
        assert OpenAmong(db, ids) == lots;
      }
    }
  }

  /** Of a settled lot, the opening row and the last row say what is open and what is closed. */
  lemma LotSides(b: Books, s: Symbol, id: SignalId)
    requires BooksSettled(b) && id in b.db.signals && RowsOf(b.db.rows, id) != []
    ensures var rs := RowsOf(b.db.rows, id); var own := if b.db.signals[id].symbol == s then LotSize(b.db, id) else 0.0;
            && OpenedBy(b.db, s, rs[0]) == own
            && ClosedBy(b.db, s, rs[|rs| - 1]) == (if rs[|rs| - 1].status == Closed then own else 0.0)
            && OpenSize(b.db, s, id) == if rs[|rs| - 1].status == Closed then 0.0 else own
  {
    var rs, size := RowsOf(b.db.rows, id), LotSize(b.db, id);
    SettledLot(b, id);
    HistoryShape(rs, size);
    hide BooksSettled, BooksSound, RowsOf, Newest, LotHistory, ClosesLast;
    SettledStatus(b.db.rows, id, size);
    NewestIsAsLate(b.db.rows, id, size);
    assert rs[|rs| - 1] in rs;
    MembersAgree(rs, size, rs[|rs| - 1]);
    MembersAgree(rs, size, Newest(b.db.rows, id).value);
  }

  /** In one lot, the opening row's size is the closing row's size or, before it closes, the open size. */
  lemma OneLotBalances(b: Books, s: Symbol, id: SignalId)
    requires BooksSettled(b) && id in b.db.signals && RowsOf(b.db.rows, id) != []
    ensures RowSum(RowsOf(b.db.rows, id), Opens(b.db, s))
            == RowSum(RowsOf(b.db.rows, id), Closes(b.db, s)) + OpenSize(b.db, s, id)
  {
    var rs, size := RowsOf(b.db.rows, id), LotSize(b.db, id);
    SettledLot(b, id);
    hide BooksSettled, BooksSound, RowsOf, RowSum, LotHistory, ClosesLast, OpenedBy, ClosedBy, OpenSize, LotSize;
    LotSides(b, s, id);
    OpeningCounts(b.db, s, rs, size);
    ClosingCounts(b.db, s, rs);
  }

  lemma {:induction false} OpeningCounts(db: Tables, s: Symbol, rs: seq<Row>, size: real)
    requires LotHistory(rs, size) && rs != [] && rs[0].signalId in db.signals
    ensures RowSum(rs, Opens(db, s)) == OpenedBy(db, s, rs[0])
    decreases |rs|
  {
    HistoryShape(rs, size);
    var w := Opens(db, s);
    if |rs| == 1 {
      assert RowSum(rs[..0], w) == 0.0;
    } else {
      OpeningCounts(db, s, rs[..|rs| - 1], size);
      assert !IsOpening(rs[|rs| - 1]);
    }
  }

  lemma {:induction false} NothingClosed(db: Tables, s: Symbol, rs: seq<Row>)
    requires forall i :: 0 <= i < |rs| ==> rs[i].status == Open
    ensures RowSum(rs, Closes(db, s)) == 0.0
  {
    if rs == [] {
    } else {
      NothingClosed(db, s, rs[..|rs| - 1]);
      assert rs[|rs| - 1].status == Open;
    }
  }

  lemma ClosingCounts(db: Tables, s: Symbol, rs: seq<Row>)
    requires ClosesLast(rs) && rs != []
    ensures RowSum(rs, Closes(db, s)) == ClosedBy(db, s, rs[|rs| - 1])
  {
    var front := rs[..|rs| - 1];
    forall i | 0 <= i < |front| ensures front[i].status == Open {
      assert front[i] == rs[i];
    }
    NothingClosed(db, s, front);
  }

  lemma SharesBalance(b: Books, s: Symbol)
    requires BooksSettled(b)
    ensures SharesOpened(b.db, s) == SharesClosed(b.db, s) + SharesOpen(b.db, s)
  {
    hide LotHistory;
    var db, ids := b.db, LotIds(b.db.rows);
    var bought, sold := Opens(db, s), Closes(db, s);
    forall r | r in db.rows ensures r.signalId in ids {
      RowsOfHas(db.rows, r);
      InLotIds(db.rows, r.signalId);
    }
    InLotIds(db.rows, 0);
    Regroup(db.rows, bought, ids);
    Regroup(db.rows, sold, ids);
    OpenSharesAreATotal(db, s, ids);
    forall id | id in ids
      ensures PerLot(db.rows, bought)(id) == PerLot(db.rows, sold)(id) + OpenSize(db, s, id)
    {
      InLotIds(db.rows, id);
      assert RowsOf(db.rows, id)[0] in db.rows;
      OneLotBalances(b, s, id);
    }
    TotalAdds(ids, PerLot(db.rows, sold), StillOpen(db, s), PerLot(db.rows, bought));
  }

  /**
   * Conservation, in every run whose sells all come after the lots they close: of each symbol, the shares
   * opened are the shares closed plus the shares open, whatever ids are drawn.
   */
  lemma SharesConserved(clock: int, jobs: seq<(Job, int)>, draw: Draw, s: Symbol)
    requires DrawsEnough(draw) && AlwaysLater(Books(EMPTY, clock), jobs, draw)
    ensures var db := RunJobs(Books(EMPTY, clock), jobs, draw).db;
            SharesOpened(db, s) == SharesClosed(db, s) + SharesOpen(db, s)
  {
    hide BooksSettled, RunJobs, AlwaysLater;
    LotRuns.InitSound(clock);
    RunKeeps(Books(EMPTY, clock), jobs, draw);
    SharesBalance(RunJobs(Books(EMPTY, clock), jobs, draw), s);
  }
}
