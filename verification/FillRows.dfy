/** What settling a fill writes, and what the lots of a run add up to (backend/src/orchestrator/executor.ts:110-140). */
module FillRows {
  import opened Prelude
  import opened Money
  import opened Ledger
  import opened Lots
  import opened LotsLaws
  import opened Sums
  import opened Executor
  import opened LotRuns
  import opened LotRunLaws

  // ---- A buy ------------------------------------------------------------------------------

  /** The row a buy opens with says its fill: the price, the shares really bought and the time. */
  lemma OpeningRowSays(db: Tables, id: SignalId, price: real, quantity: real, at: int, rowId: RowId)
    requires id in db.signals
    ensures var row := OpeningRow(db, id, price, quantity, at, rowId);
            && row.signalId == id && row.status == Open && row.entryPrice == price && row.recordedAt == at
            && SizeOf(db, row) == quantity && (row.quantity == None <==> quantity == db.signals[id].quantity)
            && IsOpening(row) && row.closedBy == None
  {
  }

  lemma {:induction false} NoRowYet(rows: seq<Row>, id: SignalId)
    requires forall r :: r in rows ==> r.signalId != id
    ensures Newest(rows, id) == None
  {
    if rows != [] { NoRowYet(rows[..|rows| - 1], id); }
  }

  /**
   * A bought signal's first settlement opens one lot: of the shares filled, at the price and time of the fill.
   * No other lot of the listing is touched.
   */
  lemma SettledBuyOpensItsLot(db: Tables, id: SignalId, price: real, quantity: real, at: int, draw: Draw)
    requires id in db.signals && db.signals[id].side == Buy && DrawsEnough(draw)
    requires forall r :: r in db.rows ==> r.signalId != id
    ensures var r := Settle(db, id, price, quantity, at, draw);
            && r.Success? && IsOpen(r.value, id)
            && LotOf(r.value, id)
               == OpenLot(id, db.signals[id].symbol, quantity, quantity != db.signals[id].quantity, price, at)
            && (forall l :: l in ListOpenLots(r.value) <==> l in ListOpenLots(db) || l == LotOf(r.value, id))
  {
    var r := Settle(db, id, price, quantity, at, draw);
    assert |draw(db.rows, 1)| == 1;
    var row := OpeningRow(db, id, price, quantity, at, draw(db.rows, 1)[0]);
    NoRowYet(db.rows, id);
    NewestAppend(db.rows, row, id);
    ListOpenLotsSound(db);
    ListOpenLotsSound(r.value);
    hide Newest, ListOpenLots;
    forall x | x != id ensures (IsOpen(r.value, x) <==> IsOpen(db, x)) && (IsOpen(db, x) ==> LotOf(r.value, x) == LotOf(db, x)) {
      OthersUnmoved(db, row, x);
    }
  }

  // ---- A sell -----------------------------------------------------------------------------

  /** The row that closes this lot: at the sell's price and time, with the gain over what the lot cost. */
  ghost predicate ClosesLot(db: Tables, row: Row, x: SignalId, price: real, seller: SignalId, at: int)
    requires IsOpen(db, x)
  {
    var lot := LotOf(db, x);
    && row.signalId == x && row.status == Closed && row.closedBy == Some(seller) && row.recordedAt == at
    && row.exitPrice == Some(price) && row.entryPrice == lot.entryPrice && SizeOf(db, row) == lot.quantity
    && row.realizedPnl == Some(Gain(price, lot.entryPrice, lot.quantity))
  }

  lemma ClosingRowSays(db: Tables, x: SignalId, price: real, seller: SignalId, at: int, rowId: RowId)
    requires IsOpen(db, x)
    ensures var row := ClosingRow(db, x, price, seller, at, rowId); row.Some? && ClosesLot(db, row.value, x, price, seller, at)
  {
    hide Gain, Newest;
  }

  /** A gain is the proceeds less the cost. */
  lemma GainIsProceedsLessCost(price: real, entry: real, size: real)
    ensures Gain(price, entry, size) == price * size - entry * size
  {
  }

  /** Closing one lot leaves what closes another as it was. */
  lemma UnmovedLot(db: Tables, row: Row, x: SignalId, closing: Row, price: real, seller: SignalId, at: int)
    requires IsOpen(db, x) && row.signalId != x
    ensures IsOpen(AppendRow(db, row), x)
    ensures ClosesLot(AppendRow(db, row), closing, x, price, seller, at) ==> ClosesLot(db, closing, x, price, seller, at)
  {
    hide Newest, Gain;
    OthersUnmoved(db, row, x);
    assert LotOf(AppendRow(db, row), x) == LotOf(db, x);
    if closing.signalId == x { assert SizeOf(AppendRow(db, row), closing) == SizeOf(db, closing); }
  }

  lemma {:induction false} ClosedInTurn(db: Tables, ids: seq<SignalId>, price: real, seller: SignalId, at: int, rowIds: seq<RowId>)
    requires |rowIds| == |ids| && Distinct(ids) && forall i :: 0 <= i < |ids| ==> IsOpen(db, ids[i])
    ensures var r := CloseLots(db, ids, price, seller, at, rowIds);
            && r.Some? && r.value == db.(rows := r.value.rows) && |r.value.rows| == |db.rows| + |ids| && db.rows <= r.value.rows
            && forall i :: 0 <= i < |ids| ==> ClosesLot(db, r.value.rows[|db.rows| + i], ids[i], price, seller, at)
    decreases |ids|
  {
    hide IsOpen, ClosesLot, ClosingRow;
    if ids != [] {
      ClosingRowSays(db, ids[0], price, seller, at, rowIds[0]);
      var row := ClosingRow(db, ids[0], price, seller, at, rowIds[0]).value;
      IsOfLot(db, ids[0], price, seller, at, rowIds[0]);
      var db1, rest := AppendRow(db, row), ids[1..];
      forall i | 0 <= i < |rest| ensures IsOpen(db1, rest[i]) {
        assert rest[i] == ids[i + 1];
        UnmovedLot(db, row, ids[i + 1], row, price, seller, at);
      }
      ClosedInTurn(db1, rest, price, seller, at, rowIds[1..]);
      var rows := CloseLots(db, ids, price, seller, at, rowIds).value.rows;
      forall i | 0 < i < |ids| ensures ClosesLot(db, rows[|db.rows| + i], ids[i], price, seller, at) {
        assert rest[i - 1] == ids[i];
        UnmovedLot(db, row, ids[i], rows[|db.rows| + i], price, seller, at);
      }
      assert rows[|db.rows|] == db1.rows[|db.rows|] == row;
    }
  }

  lemma IsOfLot(db: Tables, x: SignalId, price: real, seller: SignalId, at: int, rowId: RowId)
    requires IsOpen(db, x)
    ensures x in db.signals && ClosingRow(db, x, price, seller, at, rowId).Some?
            && ClosingRow(db, x, price, seller, at, rowId).value.signalId == x
  {
  }

  /** A settled sell writes one closing row for each lot it selects, in the queue's order, and nothing else. */
  lemma SettledSellClosesItsLots(db: Tables, id: SignalId, price: real, quantity: real, at: int, draw: Draw)
    requires id in db.signals && db.signals[id].side == Sell && DrawsEnough(draw)
    ensures var r := Settle(db, id, price, quantity, at, draw); var ids := SelectLots(db, db.signals[id].symbol, quantity);
            r.Success? ==>
              && r.value == db.(rows := r.value.rows) && |r.value.rows| == |db.rows| + |ids| && db.rows <= r.value.rows
              && forall i :: 0 <= i < |ids| ==>
                   IsOpen(db, ids[i]) && ClosesLot(db, r.value.rows[|db.rows| + i], ids[i], price, id, at)
  {
    hide SelectLots, CloseLots, Newest;
    var ids := SelectLots(db, db.signals[id].symbol, quantity);
    SelectedAreOpen(db, db.signals[id].symbol, quantity);
    ClosedInTurn(db, ids, price, id, at, draw(db.rows, |ids|));
  }

  // ---- Over runs --------------------------------------------------------------------------

  /** The shares of the symbol this job buys: what its fill says, not what its signal asked for. */
  function BuysNow(b: Books, job: Job, now: int, s: Symbol): real {
    if Enabled(b, job, now) && job.SettleFill? && b.db.signals[job.id].side == Buy && b.db.signals[job.id].symbol == s
    then job.quantity else 0.0
  }

  /** The shares of the symbol bought by the fills of a run. */
  function SharesBought(b: Books, jobs: seq<(Job, int)>, draw: Draw, s: Symbol): real
    requires DrawsEnough(draw)
  {
    if jobs == [] then 0.0
    else
      var n := |jobs| - 1;
      SharesBought(b, jobs[..n], draw, s) + BuysNow(RunJobs(b, jobs[..n], draw), jobs[n].0, jobs[n].1, s)
  }

  lemma {:induction false} SumCongruent(rows: seq<Row>, v: Row -> real, w: Row -> real)
    requires forall r :: r in rows ==> v(r) == w(r)
    ensures RowSum(rows, v) == RowSum(rows, w)
  {
    if rows != [] {
      assert rows == rows[..|rows| - 1] + [rows[|rows| - 1]];
      SumCongruent(rows[..|rows| - 1], v, w);
    }
  }

  lemma {:induction false} SumMore(rows: seq<Row>, more: seq<Row>, w: Row -> real)
    ensures RowSum(rows + more, w) == RowSum(rows, w) + RowSum(more, w)
  {
    if more == [] {
      assert rows + more == rows;
    } else {
      SumMore(rows, more[..|more| - 1], w);
      assert (rows + more)[..|rows + more| - 1] == rows + more[..|more| - 1];
    }
  }

  lemma {:induction false} NothingOpened(db: Tables, s: Symbol, rows: seq<Row>)
    requires forall r :: r in rows ==> !IsOpening(r)
    ensures RowSum(rows, Opens(db, s)) == 0.0
  {
    if rows != [] {
      assert rows == rows[..|rows| - 1] + [rows[|rows| - 1]];
      NothingOpened(db, s, rows[..|rows| - 1]);
    }
  }

  /** Rows that open nothing leave the shares opened as they were. */
  lemma OnlyOpeningsCount(db: Tables, db': Tables, more: seq<Row>, s: Symbol)
    requires db' == db.(rows := db.rows + more) && forall r :: r in more ==> !IsOpening(r)
    ensures SharesOpened(db', s) == SharesOpened(db, s)
  {
    SumMore(db.rows, more, Opens(db', s));
    NothingOpened(db', s, more);
    SumCongruent(db.rows, Opens(db', s), Opens(db, s));
  }

  lemma BuyCounts(b: Books, id: SignalId, price: real, quantity: real, now: int, draw: Draw, s: Symbol)
    requires DrawsEnough(draw) && Enabled(b, SettleFill(id, price, quantity), now) && b.db.signals[id].side == Buy
    ensures SharesOpened(Settle(b.db, id, price, quantity, now, draw).value, s)
            == SharesOpened(b.db, s) + if b.db.signals[id].symbol == s then quantity else 0.0
  {
    assert |draw(b.db.rows, 1)| == 1;
    var row := OpeningRow(b.db, id, price, quantity, now, draw(b.db.rows, 1)[0]);
    var db' := AppendRow(b.db, row);
    OpeningRowSays(b.db, id, price, quantity, now, draw(b.db.rows, 1)[0]);
    SumMore(b.db.rows, [row], Opens(db', s));
    assert [row][..0] == [];
    SumCongruent(b.db.rows, Opens(db', s), Opens(b.db, s));
  }

  lemma SellOpensNothing(b: Books, id: SignalId, price: real, quantity: real, now: int, draw: Draw, s: Symbol)
    requires DrawsEnough(draw) && id in b.db.signals && b.db.signals[id].side == Sell
    ensures var r := Settle(b.db, id, price, quantity, now, draw); r.Success? ==> SharesOpened(r.value, s) == SharesOpened(b.db, s)
  {
    hide SelectLots, CloseLots, SharesOpened;
    var r := Settle(b.db, id, price, quantity, now, draw);
    SettledSellClosesItsLots(b.db, id, price, quantity, now, draw);
    if r.Success? {
      var more, ids := r.value.rows[|b.db.rows|..], SelectLots(b.db, b.db.signals[id].symbol, quantity);
      assert r.value.rows == b.db.rows + more;
      forall row | row in more ensures !IsOpening(row) {
        var i :| 0 <= i < |more| && more[i] == row;
        assert r.value.rows[|b.db.rows| + i] == row;
        assert IsOpen(b.db, ids[i]) && row.status == Closed;
      }
      OnlyOpeningsCount(b.db, r.value, more, s);
    }
  }

  lemma {:induction false} MarksOpenNothing(db: Tables, lots: seq<OpenLot>, quotes: map<Symbol, real>, now: int, rowIds: seq<RowId>, s: Symbol)
    requires |rowIds| == |lots|
    ensures SharesOpened(MarkLots(db, lots, quotes, now, rowIds), s) == SharesOpened(db, s)
  {
    if lots != [] {
      hide SharesOpened;
      var n := |lots| - 1;
      MarksOpenNothing(db, lots[..n], quotes, now, rowIds[..n], s);
      var before := MarkLots(db, lots[..n], quotes, now, rowIds[..n]);
      if Marks(before, lots[n], quotes, now) {
        OnlyOpeningsCount(before, AppendRow(before, MarkRow(lots[n], quotes[lots[n].symbol], now, rowIds[n])),
                          [MarkRow(lots[n], quotes[lots[n].symbol], now, rowIds[n])], s);
      }
    }
  }

  lemma ProposeOpensNothing(b: Books, id: SignalId, draft: Draft, now: int, s: Symbol)
    requires BooksSound(b) && id !in b.db.signals && InsertSignal(b.db, id, draft, now).Some?
    ensures SharesOpened(InsertSignal(b.db, id, draft, now).value, s) == SharesOpened(b.db, s)
  {
    hide LotHistory;
    var db' := InsertSignal(b.db, id, draft, now).value;
    assert forall r :: r in b.db.rows ==> r.signalId in b.db.signals;
    SumCongruent(b.db.rows, Opens(db', s), Opens(b.db, s));
  }

  lemma JobCounts(b: Books, job: Job, now: int, draw: Draw, s: Symbol)
    requires DrawsEnough(draw) && BooksSound(b)
    ensures SharesOpened(JobStep(b, job, now, draw).db, s) == SharesOpened(b.db, s) + BuysNow(b, job, now, s)
  {
    hide BooksSound, Settle, SharesOpened, InsertSignal;
    if Enabled(b, job, now) {
      match job
      case Propose(id, draft) => if InsertSignal(b.db, id, draft, now).Some? { ProposeOpensNothing(b, id, draft, now, s); }
      case SettleFill(id, price, quantity) =>
        SettleFailsOnlyWithNothingToClose(b.db, id, price, quantity, now, draw);
        if b.db.signals[id].side == Buy {
          BuyCounts(b, id, price, quantity, now, draw, s);
        } else {
          SellOpensNothing(b, id, price, quantity, now, draw, s);
        }
      case MarkRun(quotes) =>
        var lots := ListOpenLots(b.db);
        assert |draw(b.db.rows, |lots|)| == |lots|;
        MarksOpenNothing(b.db, lots, quotes, now, draw(b.db.rows, |lots|), s);
    }
  }

  /** In every run, whatever ids are drawn, the shares its lots opened with are the shares its fills bought. */
  lemma {:induction false} SharesOpenedAreBought(b: Books, jobs: seq<(Job, int)>, draw: Draw, s: Symbol)
    requires DrawsEnough(draw) && BooksSound(b)
    ensures SharesOpened(RunJobs(b, jobs, draw).db, s) == SharesOpened(b.db, s) + SharesBought(b, jobs, draw, s)
  {
    hide BooksSound, JobStep, SharesOpened, BuysNow;
    if jobs != [] {
      var n := |jobs| - 1;
      SharesOpenedAreBought(b, jobs[..n], draw, s);
      RunKeeps(b, jobs[..n], draw);
      JobCounts(RunJobs(b, jobs[..n], draw), jobs[n].0, jobs[n].1, draw, s);
    }
  }
}
