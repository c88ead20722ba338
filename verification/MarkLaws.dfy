/** Marking is once a day, and keeps lots in the order of their age except where times tie. */
module MarkLaws {
  import opened Prelude
  import opened Money
  import opened Ledger
  import opened Lots
  import opened LotsLaws
  import opened Sums
  import opened LotRuns
  import opened Executor
  import Ordering
  import AscendingInts

  /** `lotOpenedAt`: the time of the lot's earliest row. */
  function OpenedAt(rows: seq<Row>, id: SignalId): int {
    var rs := RowsOf(rows, id);
    if rs == [] then 0 else rs[0].recordedAt
  }

  /** The run about to start will mark this lot. */
  predicate WillMark(db: Tables, id: SignalId, quotes: map<Symbol, real>, now: int) {
    IsOpen(db, id) && Marks(db, LotOf(db, id), quotes, now)
  }

  // ---- What one appended row changes ------------------------------------------------------

  lemma MarkedAppend(rows: seq<Row>, r: Row)
    ensures forall id, day :: MarkedOn(rows + [r], id, day)
              <==> MarkedOn(rows, id, day) || (r.signalId == id && r.markPrice.Some? && Day(r.recordedAt) == day)
  {
    forall id, day
      ensures MarkedOn(rows + [r], id, day)
              <==> MarkedOn(rows, id, day) || (r.signalId == id && r.markPrice.Some? && Day(r.recordedAt) == day)
    {
      assert (rows + [r])[|rows|] == r;
      if MarkedOn(rows, id, day) {
        var i :| 0 <= i < |rows| && rows[i].signalId == id && rows[i].markPrice.Some? && Day(rows[i].recordedAt) == day;
        assert (rows + [r])[i] == rows[i];
      }
    }
  }

  lemma OpenedAppend(rows: seq<Row>, r: Row, id: SignalId)
    requires RowsOf(rows, id) != []
    ensures RowsOf(rows + [r], id) != [] && OpenedAt(rows + [r], id) == OpenedAt(rows, id)
  {
    RowsOfAppend(rows, r, id);
  }

  // ---- What a mark run changes ------------------------------------------------------------

  /** A lot the run marks stays open, and its newest row is of the run's instant, whatever id the mark draws. */
  lemma MarkLotEffect(db: Tables, lot: OpenLot, quotes: map<Symbol, real>, now: int, rowId: RowId)
    requires IsOpen(db, lot.signalId) && NewestTime(db.rows, lot.signalId) <= now
    ensures var db' := MarkLot(db, lot, quotes, now, rowId); var id := lot.signalId;
            && Newest(db'.rows, id).Some? && IsOpen(db', id)
            && NewestTime(db'.rows, id) == (if Marks(db, lot, quotes, now) then now else NewestTime(db.rows, id))
            && (forall x :: x != id ==> Newest(db'.rows, x) == Newest(db.rows, x))
            && (forall x, d :: MarkedOn(db'.rows, x, d)
                  <==> MarkedOn(db.rows, x, d) || (x == id && d == Day(now) && Marks(db, lot, quotes, now)))
            && (forall x :: RowsOf(db.rows, x) != [] ==> RowsOf(db'.rows, x) != [] && OpenedAt(db'.rows, x) == OpenedAt(db.rows, x))
  {
    if Marks(db, lot, quotes, now) {
      var r := MarkRow(lot, quotes[lot.symbol], now, rowId);
      hide MarkedOn, OpenedAt;
      MarkedAppend(db.rows, r);
      forall x ensures x != lot.signalId ==> Newest(db.rows + [r], x) == Newest(db.rows, x) {
        NewestAppend(db.rows, r, x);
      }
      forall x | RowsOf(db.rows, x) != []
        ensures RowsOf(db.rows + [r], x) != [] && OpenedAt(db.rows + [r], x) == OpenedAt(db.rows, x)
      {
        OpenedAppend(db.rows, r, x);
      }
    }
  }

  ghost predicate RunMarked(db: Tables, lots: seq<OpenLot>, quotes: map<Symbol, real>, now: int, id: SignalId) {
    exists i :: 0 <= i < |lots| && lots[i].signalId == id && Marks(db, lots[i], quotes, now)
  }

  /** The tables after a run, against the tables before it. */
  ghost predicate MarkEffect(db: Tables, db': Tables, lots: seq<OpenLot>, quotes: map<Symbol, real>, now: int) {
    && db'.signals == db.signals
    && (forall x :: IsOpen(db', x) <==> IsOpen(db, x))
    && (forall x :: NewestTime(db'.rows, x) == if RunMarked(db, lots, quotes, now, x) then now else NewestTime(db.rows, x))
    && (forall x, d :: MarkedOn(db'.rows, x, d)
          <==> MarkedOn(db.rows, x, d) || (d == Day(now) && RunMarked(db, lots, quotes, now, x)))
    && (forall x :: RowsOf(db.rows, x) != [] ==> RowsOf(db'.rows, x) != [] && OpenedAt(db'.rows, x) == OpenedAt(db.rows, x))
  }

  lemma {:induction false} MarkLotsEffect(db: Tables, lots: seq<OpenLot>, quotes: map<Symbol, real>, now: int, rowIds: seq<RowId>)
    requires |rowIds| == |lots| && Distinct(IdsOf(lots))
    requires forall i :: 0 <= i < |lots| ==> IsOpen(db, lots[i].signalId) && NewestTime(db.rows, lots[i].signalId) <= now
    ensures var db' := MarkLots(db, lots, quotes, now, rowIds);
            && MarkEffect(db, db', lots, quotes, now)
            && forall x :: x !in IdsOf(lots) ==> Newest(db'.rows, x) == Newest(db.rows, x)
  {
    hide MarkedOn, OpenedAt, MarkRow;
    if lots == [] {
    } else {
      var n := |lots| - 1;
      var front, lot := lots[..n], lots[n];
      var db1 := MarkLots(db, front, quotes, now, rowIds[..n]);
      MarkLotsEffect(db, front, quotes, now, rowIds[..n]);
      assert IdsOf(lots) == IdsOf(front) + [lot.signalId];
      assert IdsOf(lots)[n] == lot.signalId && lot.signalId !in IdsOf(front);
      NotMarkedBefore(db, front, quotes, now, lot.signalId);
      assert Marks(db1, lot, quotes, now) <==> Marks(db, lot, quotes, now);
      assert db1.signals == db.signals && IsOpen(db1, lot.signalId);
      MarkLotEffect(db1, lot, quotes, now, rowIds[n]);
      RunMarkedGrows(db, lots, quotes, now);
      Chain(db, db1, MarkLot(db1, lot, quotes, now, rowIds[n]), lots, quotes, now);
    }
  }

  lemma NotMarkedBefore(db: Tables, lots: seq<OpenLot>, quotes: map<Symbol, real>, now: int, id: SignalId)
    requires id !in IdsOf(lots)
    ensures !RunMarked(db, lots, quotes, now, id)
  {
    forall i | 0 <= i < |lots| ensures lots[i].signalId != id { assert IdsOf(lots)[i] in IdsOf(lots); }
  }

  lemma RunMarkedGrows(db: Tables, lots: seq<OpenLot>, quotes: map<Symbol, real>, now: int)
    requires lots != []
    ensures forall x :: RunMarked(db, lots, quotes, now, x)
              <==> RunMarked(db, lots[..|lots| - 1], quotes, now, x)
                   || (x == lots[|lots| - 1].signalId && Marks(db, lots[|lots| - 1], quotes, now))
  {
    var front := lots[..|lots| - 1];
    forall x | RunMarked(db, front, quotes, now, x) ensures RunMarked(db, lots, quotes, now, x) {
      var i :| 0 <= i < |front| && front[i].signalId == x && Marks(db, front[i], quotes, now);
      assert lots[i] == front[i];
    }
    forall x | RunMarked(db, lots, quotes, now, x)
      ensures RunMarked(db, front, quotes, now, x) || (x == lots[|lots| - 1].signalId && Marks(db, lots[|lots| - 1], quotes, now))
    {
      var i :| 0 <= i < |lots| && lots[i].signalId == x && Marks(db, lots[i], quotes, now);
      if i < |front| { assert front[i] == lots[i]; }
    }
  }

  /** One more lot after the others. */
  lemma Chain(db: Tables, db1: Tables, db2: Tables, lots: seq<OpenLot>, quotes: map<Symbol, real>, now: int)
    requires lots != [] && MarkEffect(db, db1, lots[..|lots| - 1], quotes, now)
    requires var lot := lots[|lots| - 1]; var id := lot.signalId; var m := Marks(db, lot, quotes, now);
             && db2.signals == db1.signals && IsOpen(db1, id) && IsOpen(db2, id)
             && NewestTime(db2.rows, id) == (if m then now else NewestTime(db1.rows, id))
             && (forall x :: x != id ==> Newest(db2.rows, x) == Newest(db1.rows, x))
             && (forall x, d :: MarkedOn(db2.rows, x, d) <==> MarkedOn(db1.rows, x, d) || (x == id && d == Day(now) && m))
             && (forall x :: RowsOf(db1.rows, x) != [] ==> RowsOf(db2.rows, x) != [] && OpenedAt(db2.rows, x) == OpenedAt(db1.rows, x))
    requires forall x :: RunMarked(db, lots, quotes, now, x)
               <==> RunMarked(db, lots[..|lots| - 1], quotes, now, x)
                    || (x == lots[|lots| - 1].signalId && Marks(db, lots[|lots| - 1], quotes, now))
    ensures MarkEffect(db, db2, lots, quotes, now)
  {
    hide MarkedOn, OpenedAt, RunMarked, Marks, RowsOf, Newest;
    forall x ensures IsOpen(db2, x) <==> IsOpen(db, x) {
      if x != lots[|lots| - 1].signalId { assert Newest(db2.rows, x) == Newest(db1.rows, x); }
    }
  }

  /** A whole run: exactly the open lots with a quote and no mark yet today move to `now`, whatever ids are drawn. */
  lemma MarkRunEffect(b: Books, quotes: map<Symbol, real>, now: int, draw: Draw)
    requires DrawsEnough(draw) && BooksSound(b) && b.clock <= now
    ensures var db, db' := b.db, MarkedBooks(b.db, quotes, now, draw);
            && db'.signals == db.signals
            && (forall x :: IsOpen(db', x) <==> IsOpen(db, x))
            && (forall x :: NewestTime(db'.rows, x) == if WillMark(db, x, quotes, now) then now else NewestTime(db.rows, x))
            && (forall x, d :: MarkedOn(db'.rows, x, d) <==> MarkedOn(db.rows, x, d) || (d == Day(now) && WillMark(db, x, quotes, now)))
            && (forall x :: RowsOf(db.rows, x) != [] ==> RowsOf(db'.rows, x) != [] && OpenedAt(db'.rows, x) == OpenedAt(db.rows, x))
  {
    hide BooksSound, MarkedOn, OpenedAt, NewestTime;
    var lots := ListOpenLots(b.db);
    var rowIds := draw(b.db.rows, |lots|);
    assert |rowIds| == |lots|;
    ListedOnce(b.db);
    forall i | 0 <= i < |lots| ensures IsOpen(b.db, lots[i].signalId) && NewestTime(b.db.rows, lots[i].signalId) <= now {
      assert AsListed(b.db, lots[i]);
      NewestInPast(b, lots[i].signalId);
    }
    MarkLotsEffect(b.db, lots, quotes, now, rowIds);
    forall x ensures RunMarked(b.db, lots, quotes, now, x) <==> WillMark(b.db, x, quotes, now) {
      ListOpenLotsSound(b.db);
      if WillMark(b.db, x, quotes, now) { assert LotOf(b.db, x) in lots; }
    }
  }

  // ---- Once a day -------------------------------------------------------------------------

  lemma {:induction false} NothingToMark(db: Tables, lots: seq<OpenLot>, quotes: map<Symbol, real>, now: int, rowIds: seq<RowId>)
    requires |rowIds| == |lots| && forall i :: 0 <= i < |lots| ==> !Marks(db, lots[i], quotes, now)
    ensures MarkLots(db, lots, quotes, now, rowIds) == db
  {
    if lots == [] {
    } else {
      var n := |lots| - 1;
      NothingToMark(db, lots[..n], quotes, now, rowIds[..n]);
    }
  }

  /** A second run on the same UTC day, with quotes for no new symbol, writes nothing. */
  lemma MarkingIsIdempotent(b: Books, quotes: map<Symbol, real>, now: int, draw: Draw,
                            again: map<Symbol, real>, later: int, redraw: Draw)
    requires DrawsEnough(draw) && DrawsEnough(redraw) && BooksSound(b) && b.clock <= now
    requires Day(later) == Day(now) && again.Keys <= quotes.Keys
    ensures var db' := MarkedBooks(b.db, quotes, now, draw); MarkedBooks(db', again, later, redraw) == db'
  {
    hide BooksSound, MarkedOn, OpenedAt, NewestTime;
    var db' := MarkedBooks(b.db, quotes, now, draw);
    var lots := ListOpenLots(db');
    var rowIds := redraw(db'.rows, |lots|);
    assert |rowIds| == |lots|;
    MarkRunEffect(b, quotes, now, draw);
    ListedOnce(db');
    forall i | 0 <= i < |lots| ensures !Marks(db', lots[i], again, later) {
      var x := lots[i].signalId;
      assert AsListed(db', lots[i]);
      assert IsOpen(b.db, x) && lots[i].symbol == LotOf(b.db, x).symbol;
      assert x == LotOf(b.db, x).signalId;
    }
    NothingToMark(db', lots, again, later, rowIds);
  }

  // ---- Age ------------------------------------------------------------------------------------

  ghost predicate Older(db: Tables, x: SignalId, y: SignalId) {
    IsOpen(db, x) && IsOpen(db, y) && db.signals[x].symbol == db.signals[y].symbol && OpenedAt(db.rows, x) < OpenedAt(db.rows, y)
  }

  /** Of two open lots of one symbol, the older has no later newest row, and every mark day the younger has. */
  ghost predicate AgeOrdered(db: Tables) {
    forall x, y :: Older(db, x, y) ==>
      NewestTime(db.rows, x) <= NewestTime(db.rows, y) && forall d :: MarkedOn(db.rows, y, d) ==> MarkedOn(db.rows, x, d)
  }

  lemma NewestInPast(b: Books, x: SignalId)
    requires BooksSound(b) && IsOpen(b.db, x)
    ensures NewestTime(b.db.rows, x) <= b.clock && RowsOf(b.db.rows, x) != [] && OpenedAt(b.db.rows, x) <= b.clock
  {
    OpenLotFacts(b, x);
    assert RowsOf(b.db.rows, x)[0] in b.db.rows;
  }

  lemma MarkRunKeepsAge(b: Books, quotes: map<Symbol, real>, now: int, draw: Draw)
    requires DrawsEnough(draw) && BooksSound(b) && AgeOrdered(b.db) && b.clock <= now
    ensures AgeOrdered(MarkedBooks(b.db, quotes, now, draw))
  {
    hide BooksSound, MarkedOn, OpenedAt, NewestTime, MarkedBooks;
    var db, db' := b.db, MarkedBooks(b.db, quotes, now, draw);
    MarkRunEffect(b, quotes, now, draw);
    forall x, y | Older(db', x, y)
      ensures NewestTime(db'.rows, x) <= NewestTime(db'.rows, y) && forall d :: MarkedOn(db'.rows, y, d) ==> MarkedOn(db'.rows, x, d)
    {
      NewestInPast(b, x);
      NewestInPast(b, y);
      assert Older(db, x, y);
      assert LotOf(db, x).signalId == x && LotOf(db, y).signalId == y && LotOf(db, x).symbol == LotOf(db, y).symbol;
    }
  }

  /** What a step that writes no marks leaves as it was, for the lots still open and not opened by it. */
  ghost predicate Undisturbed(db: Tables, db': Tables, but: Option<SignalId>) {
    && (forall x :: x in db.signals ==> x in db'.signals && db'.signals[x] == db.signals[x])
    && (forall x :: IsOpen(db', x) && Some(x) != but ==>
          && IsOpen(db, x) && NewestTime(db'.rows, x) == NewestTime(db.rows, x) && OpenedAt(db'.rows, x) == OpenedAt(db.rows, x))
    && (forall x, d :: MarkedOn(db'.rows, x, d) <==> MarkedOn(db.rows, x, d))
  }

  lemma UndisturbedKeepsAge(b: Books, db': Tables, now: int, but: Option<SignalId>)
    requires BooksSound(b) && AgeOrdered(b.db) && b.clock <= now && Undisturbed(b.db, db', but)
    requires but.Some? && IsOpen(db', but.value) ==>
               && NewestTime(db'.rows, but.value) == now == OpenedAt(db'.rows, but.value)
               && forall d :: !MarkedOn(b.db.rows, but.value, d)
    ensures AgeOrdered(db')
  {
    hide BooksSound, MarkedOn, OpenedAt, NewestTime;
    forall x, y | Older(db', x, y)
      ensures NewestTime(db'.rows, x) <= NewestTime(db'.rows, y) && forall d :: MarkedOn(db'.rows, y, d) ==> MarkedOn(db'.rows, x, d)
    {
      if Some(y) != but {
        assert IsOpen(b.db, y);
        NewestInPast(b, y);
      }
      if Some(x) != but {
        assert IsOpen(b.db, x);
        NewestInPast(b, x);
        if Some(y) != but { assert Older(b.db, x, y); }
      }
    }
  }

  lemma {:induction false} CloseUndisturbed(b: Books, ids: seq<SignalId>, exit: real, closedBy: SignalId, now: int, rowIds: seq<RowId>)
    requires BooksSound(b) && b.clock <= now && |rowIds| == |ids|
    requires CloseLots(b.db, ids, exit, closedBy, now, rowIds).Some?
    ensures Undisturbed(b.db, CloseLots(b.db, ids, exit, closedBy, now, rowIds).value, None)
    decreases |ids|
  {
    hide BooksSound, MarkedOn, OpenedAt;
    if ids == [] {
    } else {
      var row := ClosingRow(b.db, ids[0], exit, closedBy, now, rowIds[0]).value;
      var db1 := AppendRow(b.db, row);
      ClosingKeeps(b, ids[0], exit, closedBy, now, rowIds[0]);
      CloseUndisturbed(Books(db1, now), ids[1..], exit, closedBy, now, rowIds[1..]);
      CloseOneUndisturbed(b, ids[0], row);
    }
  }

  /** A closing row either closes its lot or, tied with a larger id, leaves the lot's newest row as it was. */
  lemma CloseOneUndisturbed(b: Books, id: SignalId, row: Row)
    requires BooksSound(b) && IsOpen(b.db, id) && row.signalId == id && row.status == Closed && row.markPrice == None
    ensures Undisturbed(b.db, AppendRow(b.db, row), None)
  {
    hide BooksSound, MarkedOn, OpenedAt;
    var db' := AppendRow(b.db, row);
    MarkedAppend(b.db.rows, row);
    forall x | IsOpen(db', x)
      ensures IsOpen(b.db, x) && NewestTime(db'.rows, x) == NewestTime(b.db.rows, x) && OpenedAt(db'.rows, x) == OpenedAt(b.db.rows, x)
    {
      NewestAppend(b.db.rows, row, x);
      OpenLotFacts(b, x);
      OpenedAppend(b.db.rows, row, x);
    }
  }

  lemma OpeningUndisturbed(b: Books, id: SignalId, price: real, quantity: real, now: int, rowId: RowId)
    requires BooksSound(b) && b.clock <= now && id in b.db.signals && RowsOf(b.db.rows, id) == []
    ensures var db' := AppendRow(b.db, OpeningRow(b.db, id, price, quantity, now, rowId));
            && Undisturbed(b.db, db', Some(id)) && NewestTime(db'.rows, id) == now == OpenedAt(db'.rows, id)
            && forall d :: !MarkedOn(b.db.rows, id, d)
  {
    hide BooksSound, RowsOf, Newest, MarkedOn, LotHistory;
    var row := OpeningRow(b.db, id, price, quantity, now, rowId);
    var db' := AppendRow(b.db, row);
    MarkedAppend(b.db.rows, row);
    SoundLot(b, id);
    NewestIsAsLate(b.db.rows, id, LotSize(b.db, id));
    NewestAppend(b.db.rows, row, id);
    RowsOfAppend(b.db.rows, row, id);
    NeverMarked(b.db.rows, id);
    forall x | IsOpen(db', x) && x != id
      ensures IsOpen(b.db, x) && NewestTime(db'.rows, x) == NewestTime(b.db.rows, x) && OpenedAt(db'.rows, x) == OpenedAt(b.db.rows, x)
    {
      NewestAppend(b.db.rows, row, x);
      RowsOfAppend(b.db.rows, row, x);
    }
  }

  lemma NeverMarked(rows: seq<Row>, id: SignalId)
    requires RowsOf(rows, id) == []
    ensures forall d :: !MarkedOn(rows, id, d)
  {
    forall i | 0 <= i < |rows| ensures rows[i].signalId != id {
      if rows[i].signalId == id { RowsOfHas(rows, rows[i]); }
    }
  }

  lemma ProposeUndisturbed(b: Books, id: SignalId, draft: Draft, now: int)
    requires BooksSound(b) && id !in b.db.signals && InsertSignal(b.db, id, draft, now).Some?
    ensures Undisturbed(b.db, InsertSignal(b.db, id, draft, now).value, None)
  {
    var db' := InsertSignal(b.db, id, draft, now).value;
    forall x | IsOpen(db', x) ensures IsOpen(b.db, x) {
      assert Newest(b.db.rows, x).value in b.db.rows;
    }
  }

  lemma SettleKeepsAge(b: Books, id: SignalId, price: real, quantity: real, now: int, draw: Draw)
    requires DrawsEnough(draw) && BooksSound(b) && AgeOrdered(b.db) && Enabled(b, SettleFill(id, price, quantity), now)
    ensures var r := Settle(b.db, id, price, quantity, now, draw); r.Success? ==> AgeOrdered(r.value)
  {
    hide BooksSound, AgeOrdered, Undisturbed, SelectLots, RowsOf;
    if b.db.signals[id].side == Sell {
      var s := b.db.signals[id].symbol;
      var lots := SelectLots(b.db, s, quantity);
      if lots != [] {
        var ids := draw(b.db.rows, |lots|);
        assert |ids| == |lots|;
        SelectThenClose(b.db, s, quantity, price, id, now, ids);
        CloseUndisturbed(b, lots, price, id, now, ids);
        UndisturbedKeepsAge(b, CloseLots(b.db, lots, price, id, now, ids).value, now, None);
      }
    } else {
      assert |draw(b.db.rows, 1)| == 1;
      var rowId := draw(b.db.rows, 1)[0];
      OpeningUndisturbed(b, id, price, quantity, now, rowId);
      UndisturbedKeepsAge(b, AppendRow(b.db, OpeningRow(b.db, id, price, quantity, now, rowId)), now, Some(id));
    }
  }

  lemma JobKeepsAge(b: Books, job: Job, now: int, draw: Draw)
    requires DrawsEnough(draw) && BooksSound(b) && AgeOrdered(b.db)
    ensures AgeOrdered(JobStep(b, job, now, draw).db)
  {
    hide BooksSound, AgeOrdered, Undisturbed, Settle, MarkedBooks;
    if Enabled(b, job, now) {
      match job
      case Propose(id, draft) =>
        if InsertSignal(b.db, id, draft, now).Some? {
          ProposeUndisturbed(b, id, draft, now);
          UndisturbedKeepsAge(b, InsertSignal(b.db, id, draft, now).value, now, None);
        }
      case SettleFill(id, price, quantity) => SettleKeepsAge(b, id, price, quantity, now, draw);
      case MarkRun(quotes) => MarkRunKeepsAge(b, quotes, now, draw);
    }
  }

  /**
   * In every run of the jobs, whatever ids are drawn: if one open lot was opened before another of its
   * symbol, its newest row is no later, and it was marked on every day the other was.
   */
  lemma {:induction false} MarkingNeverInvertsAge(clock: int, jobs: seq<(Job, int)>, draw: Draw)
    requires DrawsEnough(draw)
    ensures AgeOrdered(RunJobs(Books(EMPTY, clock), jobs, draw).db)
  {
    hide BooksSound, AgeOrdered, JobStep;
    var b := Books(EMPTY, clock);
    if jobs == [] {
      NoLots();
    } else {
      MarkingNeverInvertsAge(clock, jobs[..|jobs| - 1], draw);
      LotRuns.InitSound(clock);
      RunKeeps(b, jobs[..|jobs| - 1], draw);
      JobKeepsAge(RunJobs(b, jobs[..|jobs| - 1], draw), jobs[|jobs| - 1].0, jobs[|jobs| - 1].1, draw);
    }
  }

  lemma NoLots()
    ensures AgeOrdered(EMPTY)
  {
  }

  // ---- The order a sell takes lots in -------------------------------------------------------

  function TimeThenId(l: OpenLot): Key {
    (l.recordedAt, l.signalId)
  }

  ghost predicate IdsAscend(lots: seq<OpenLot>) {
    forall i, j :: 0 <= i < j < |lots| ==> lots[i].signalId < lots[j].signalId
  }

  lemma {:induction false} PlaceBreaksTies(xs: seq<OpenLot>, l: OpenLot)
    requires Ordering.Ascending(xs, TimeThenId) && forall x :: x in xs ==> x.signalId < l.signalId
    ensures Ordering.Ascending(Ordering.Place(xs, l, TimeKey), TimeThenId)
    ensures forall x :: x in Ordering.Place(xs, l, TimeKey) <==> x in xs || x == l
  {
    if xs == [] || !KeyLess(TimeKey(l), TimeKey(xs[|xs| - 1])) {
      if xs != [] { assert xs[|xs| - 1] in xs; }
      forall i | 0 <= i < |xs| ensures !KeyLess(TimeThenId(l), TimeThenId(xs[i])) {
        assert xs[i] in xs && !KeyLess(TimeThenId(xs[|xs| - 1]), TimeThenId(xs[i]));
      }
    } else {
      var front, last := xs[..|xs| - 1], xs[|xs| - 1];
      assert xs == front + [last];
      PlaceBreaksTies(front, l);
      var placed := Ordering.Place(front, l, TimeKey);
      forall i | 0 <= i < |placed| ensures !KeyLess(TimeThenId(last), TimeThenId(placed[i])) {
        assert placed[i] in placed;
        if placed[i] != l {
          var k :| 0 <= k < |front| && front[k] == placed[i];
          assert xs[k] == placed[i];
        }
      }
    }
  }

  lemma {:induction false} SortBreaksTies(xs: seq<OpenLot>)
    requires IdsAscend(xs)
    ensures Ordering.Ascending(Ordering.Sort(xs, TimeKey), TimeThenId)
    ensures forall x :: x in Ordering.Sort(xs, TimeKey) <==> x in xs
  {
    if xs == [] {
    } else {
      var front, last := xs[..|xs| - 1], xs[|xs| - 1];
      SortBreaksTies(front);
      assert xs == front + [last];
      PlaceBreaksTies(Ordering.Sort(front, TimeKey), last);
    }
  }

  lemma {:induction false} OfSymbolAscends(lots: seq<OpenLot>, s: Symbol)
    requires IdsAscend(lots)
    ensures IdsAscend(OfSymbol(lots, s)) && forall l :: l in OfSymbol(lots, s) ==> l in lots
  {
    if lots == [] {
    } else {
      var front, last := lots[..|lots| - 1], lots[|lots| - 1];
      OfSymbolAscends(front, s);
      assert lots == front + [last];
      forall l | l in front ensures l.signalId < last.signalId {
        var i :| 0 <= i < |front| && front[i] == l;
        assert lots[i] == l;
      }
    }
  }

  lemma {:induction false} OpenAmongAscends(db: Tables, ids: seq<SignalId>)
    requires AscendingInts.StrictlyAscending(ids)
    ensures IdsAscend(OpenAmong(db, ids)) && forall l :: l in OpenAmong(db, ids) ==> l.signalId in ids
  {
    if ids == [] {
    } else {
      var front, last := ids[..|ids| - 1], ids[|ids| - 1];
      OpenAmongAscends(db, front);
      assert ids == front + [last];
    }
  }

  /** The queue a sell consumes is in order of newest-row time, and of signal id where times tie. */
  lemma QueueBreaksTies(db: Tables, s: Symbol)
    ensures Ordering.Ascending(Queue(db, s), TimeThenId)
  {
    AscendingInts.CollectKeeps(RowIdsOf(db.rows));
    OpenAmongAscends(db, LotIds(db.rows));
    OfSymbolAscends(ListOpenLots(db), s);
    SortBreaksTies(OpenLotsForSymbol(db, s));
  }

  /**
   * Where oldest first holds, in every run, whatever ids are drawn. Of two open lots of one symbol, the
   * younger is consumed ahead of the older exactly when their newest rows are of one instant and the
   * younger's signal id is the smaller.
   */
  lemma OldestFirstUnlessTied(clock: int, jobs: seq<(Job, int)>, draw: Draw, x: SignalId, y: SignalId, s: Symbol, i: nat, j: nat)
    requires DrawsEnough(draw)
    requires var db := RunJobs(Books(EMPTY, clock), jobs, draw).db; var q := Queue(db, s);
             i < |q| && j < |q| && q[i].signalId == x && q[j].signalId == y && OpenedAt(db.rows, x) < OpenedAt(db.rows, y)
    ensures var rows := RunJobs(Books(EMPTY, clock), jobs, draw).db.rows;
            j < i <==> NewestTime(rows, x) == NewestTime(rows, y) && y < x
  {
    hide OpenedAt, MarkedOn, RunJobs, Queue;
    var db := RunJobs(Books(EMPTY, clock), jobs, draw).db;
    var q := Queue(db, s);
    MarkingNeverInvertsAge(clock, jobs, draw);
    QueueSound(db, s);
    QueueBreaksTies(db, s);
    assert q[i] in q && q[j] in q;
    assert Older(db, x, y);
    if i < j { assert !KeyLess(TimeThenId(q[j]), TimeThenId(q[i])); }
    if j < i { assert !KeyLess(TimeThenId(q[i]), TimeThenId(q[j])); }
  }

  /** Every mark run makes such ties: the lots it marks share one newest-row time. */
  lemma MarkedTogetherTie(b: Books, quotes: map<Symbol, real>, now: int, draw: Draw, x: SignalId, y: SignalId)
    requires DrawsEnough(draw) && BooksSound(b) && b.clock <= now
    requires WillMark(b.db, x, quotes, now) && WillMark(b.db, y, quotes, now)
    ensures var rows := MarkedBooks(b.db, quotes, now, draw).rows; NewestTime(rows, x) == NewestTime(rows, y) == now
  {
    hide MarkedOn, OpenedAt, NewestTime, MarkedBooks;
    MarkRunEffect(b, quotes, now, draw);
  }

  // ---- Oldest first can fail ----------------------------------------------------------------

  const LATER_ID := Draft(7, Buy, 3.0, Paper, 10.0, 1, None)
  const TWO_LOTS: seq<(Job, int)> :=
    [(Propose(2, LATER_ID), 0), (Propose(1, LATER_ID.(dedupeKey := 2)), 0),
     (SettleFill(2, 10.0, 3.0), 0), (SettleFill(1, 10.0, 3.0), 1)]

  lemma RunOneMore(b: Books, jobs: seq<(Job, int)>, job: Job, now: int, draw: Draw)
    requires DrawsEnough(draw)
    ensures RunJobs(b, jobs + [(job, now)], draw) == JobStep(RunJobs(b, jobs, draw), job, now, draw)
  {
    assert (jobs + [(job, now)])[..|jobs|] == jobs;
  }

  const SECOND := Signal(7, Buy, 3.0, Paper, 10.0, 1, 0, None, Pending, None, false, None)
  const PROPOSED := map[2 := SECOND, 1 := SECOND.(dedupeKey := 2)]

  function OpenedFirst(draw: Draw): Row
    requires DrawsEnough(draw)
  {
    assert |draw([], 1)| == 1;
    Row(draw([], 1)[0], 2, 10.0, None, None, None, None, None, None, Open, 0)
  }

  function OpenedSecond(draw: Draw): Row
    requires DrawsEnough(draw)
  {
    assert |draw([OpenedFirst(draw)], 1)| == 1;
    Row(draw([OpenedFirst(draw)], 1)[0], 1, 10.0, None, None, None, None, None, None, Open, 1)
  }

  lemma TwoProposed(draw: Draw)
    requires DrawsEnough(draw)
    ensures RunJobs(Books(EMPTY, 0), TWO_LOTS[..2], draw) == Books(EMPTY.(signals := PROPOSED), 0)
  {
    hide Settle, MarkedBooks;
    var b := Books(EMPTY, 0);
    assert TWO_LOTS[..0] == [] && RunJobs(b, [], draw) == b;
    assert TWO_LOTS[..1] == [] + [TWO_LOTS[0]];
    RunOneMore(b, [], TWO_LOTS[0].0, 0, draw);
    assert RunJobs(b, TWO_LOTS[..1], draw) == Books(EMPTY.(signals := map[2 := SECOND]), 0);
    assert TWO_LOTS[..2] == TWO_LOTS[..1] + [TWO_LOTS[1]];
    RunOneMore(b, TWO_LOTS[..1], TWO_LOTS[1].0, 0, draw);
  }

  lemma TwoLots(draw: Draw)
    requires DrawsEnough(draw)
    ensures RunJobs(Books(EMPTY, 0), TWO_LOTS, draw)
            == Books(EMPTY.(signals := PROPOSED, rows := [OpenedFirst(draw), OpenedSecond(draw)]), 1)
  {
    hide RunJobs, MarkedBooks, SelectLots;
    var b := Books(EMPTY, 0);
    var first, second := OpenedFirst(draw), OpenedSecond(draw);
    TwoProposed(draw);
    assert TWO_LOTS[..3] == TWO_LOTS[..2] + [TWO_LOTS[2]];
    RunOneMore(b, TWO_LOTS[..2], TWO_LOTS[2].0, 0, draw);
    var b3 := RunJobs(b, TWO_LOTS[..3], draw);
    assert [] + [first] == [first];
    assert b3 == Books(EMPTY.(signals := PROPOSED, rows := [first]), 0);
    RowsOfAppend([], first, 1);
    assert TWO_LOTS == TWO_LOTS[..3] + [TWO_LOTS[3]];
    RunOneMore(b, TWO_LOTS[..3], TWO_LOTS[3].0, 1, draw);
    assert [first] + [second] == [first, second];
  }

  /**
   * After one mark run the lot opened second, having the smaller signal id, is ahead of the lot opened
   * first, whatever ids are drawn.
   */
  lemma OldestFirstFails(draw: Draw) returns (jobs: seq<(Job, int)>, i: nat, j: nat)
    requires DrawsEnough(draw)
    ensures var db := RunJobs(Books(EMPTY, 0), jobs, draw).db; var q := Queue(db, 7);
            && i < |q| && j < |q| && j < i && q[i].signalId == 2 && q[j].signalId == 1
            && OpenedAt(db.rows, 2) < OpenedAt(db.rows, 1)
  {
    hide BooksSound, MarkedBooks, LotHistory, RunJobs, Newest, RowsOf, ListOpenLots, Queue, MarkedOn, Settle;
    var b := RunJobs(Books(EMPTY, 0), TWO_LOTS, draw);
    TwoLots(draw);
    LotRuns.InitSound(0);
    RunKeeps(Books(EMPTY, 0), TWO_LOTS, draw);
    BothOpen(b.db, OpenedFirst(draw), OpenedSecond(draw));
    var quotes: map<Symbol, real> := map[7 := 11.0];
    MayMark(b, OpenedFirst(draw), OpenedSecond(draw));
    jobs := TWO_LOTS + [(MarkRun(quotes), 2)];
    RunOneMore(Books(EMPTY, 0), TWO_LOTS, MarkRun(quotes), 2, draw);
    MarkRunEffect(b, quotes, 2, draw);
    var db := RunJobs(Books(EMPTY, 0), jobs, draw).db;
    QueueSound(db, 7);
    assert LotOf(db, 1) in Queue(db, 7) && LotOf(db, 2) in Queue(db, 7);
    i :| 0 <= i < |Queue(db, 7)| && Queue(db, 7)[i] == LotOf(db, 2);
    j :| 0 <= j < |Queue(db, 7)| && Queue(db, 7)[j] == LotOf(db, 1);
    OldestFirstUnlessTied(0, jobs, draw, 2, 1, 7, i, j);
  }

  ghost predicate TwoOpenLots(first: Row, second: Row) {
    first.signalId == 2 && second.signalId == 1 && IsOpening(first) && IsOpening(second)
  }

  lemma BothOpen(db: Tables, first: Row, second: Row)
    requires db == EMPTY.(signals := PROPOSED, rows := [first, second]) && TwoOpenLots(first, second)
    ensures forall id :: Newest(db.rows, id) == if id == 2 then Some(first) else if id == 1 then Some(second) else None
    ensures RowsOf(db.rows, 2) == [first] && RowsOf(db.rows, 1) == [second]
    ensures forall id, day :: !MarkedOn(db.rows, id, day)
  {
    assert db.rows == [first] + [second] && [first] == [] + [first];
    hide Newest, RowsOf;
    forall id ensures Newest(db.rows, id) == if id == 2 then Some(first) else if id == 1 then Some(second) else None {
      NothingWritten();
      NewestAppend([], first, id);
      NewestAppend([first], second, id);
    }
    forall id ensures RowsOf(db.rows, id) == if id == 2 then [first] else if id == 1 then [second] else [] {
      NothingWritten();
      RowsOfAppend([], first, id);
      RowsOfAppend([first], second, id);
    }
  }

  lemma NothingWritten()
    ensures forall id :: Newest([], id) == None && RowsOf([], id) == []
  {
  }

  lemma MayMark(b: Books, first: Row, second: Row)
    requires b == Books(EMPTY.(signals := PROPOSED, rows := [first, second]), 1) && TwoOpenLots(first, second)
    requires forall id :: Newest(b.db.rows, id) == if id == 2 then Some(first) else if id == 1 then Some(second) else None
    requires forall id, day :: !MarkedOn(b.db.rows, id, day)
    ensures WillMark(b.db, 1, map[7 := 11.0], 2) && WillMark(b.db, 2, map[7 := 11.0], 2)
  {
    hide Newest, ListOpenLots, MarkedOn;
  }
}
