/**
 * Runs of the jobs that write lots, one job at a time: proposals, settled fills and mark runs, in any
 * order, under a clock that never goes back, with whatever row ids the database draws.
 */
module LotRuns {
  import opened Prelude
  import opened Money
  import opened Ledger
  import opened Lots
  import opened LotsLaws
  import opened Sums
  import opened Executor

  datatype Books = Books(db: Tables, clock: int)

  datatype Job =
    | Propose(id: SignalId, draft: Draft)
    | SettleFill(id: SignalId, price: real, quantity: real)
    | MarkRun(quotes: map<Symbol, real>)

  /** Time does not go back, ids of new signals are new, and a bought signal is settled once. */
  predicate Enabled(b: Books, job: Job, now: int) {
    && b.clock <= now
    && match job
       case Propose(id, _) => id !in b.db.signals
       case SettleFill(id, _, _) => id in b.db.signals && (b.db.signals[id].side == Buy ==> RowsOf(b.db.rows, id) == [])
       case MarkRun(_) => true
  }

  function MarkedBooks(db: Tables, quotes: map<Symbol, real>, now: int, draw: Draw): Tables
    requires DrawsEnough(draw)
  {
    var lots := ListOpenLots(db);
    assert |draw(db.rows, |lots|)| == |lots|;
    MarkLots(db, lots, quotes, now, draw(db.rows, |lots|))
  }

  function JobStep(b: Books, job: Job, now: int, draw: Draw): Books
    requires DrawsEnough(draw)
  {
    if !Enabled(b, job, now) then b
    else
      match job
      case Propose(id, draft) =>
        var r := InsertSignal(b.db, id, draft, now);
        Books(if r == None then b.db else r.value, now)
      case SettleFill(id, price, quantity) =>
        var r := Settle(b.db, id, price, quantity, now, draw);
        Books(if r.Success? then r.value else b.db, now)
      case MarkRun(quotes) => Books(MarkedBooks(b.db, quotes, now, draw), now)
  }

  function RunJobs(b: Books, jobs: seq<(Job, int)>, draw: Draw): Books
    requires DrawsEnough(draw)
  {
    if jobs == [] then b
    else JobStep(RunJobs(b, jobs[..|jobs| - 1], draw), jobs[|jobs| - 1].0, jobs[|jobs| - 1].1, draw)
  }

  // ---- Sells that come after what they close ------------------------------------------------

  function NewestTime(rows: seq<Row>, id: SignalId): int {
    if Newest(rows, id) == None then 0 else Newest(rows, id).value.recordedAt
  }

  /** What a caller can check before a sell: every lot it will close has a newest row strictly older than now. */
  predicate ClosesLater(b: Books, job: Job, now: int) {
    job.SettleFill? && job.id in b.db.signals && b.db.signals[job.id].side == Sell ==>
      forall x :: x in SelectLots(b.db, b.db.signals[job.id].symbol, job.quantity) ==> NewestTime(b.db.rows, x) < now
  }

  /** Every sell of the run met that guard. */
  ghost predicate AlwaysLater(b: Books, jobs: seq<(Job, int)>, draw: Draw)
    requires DrawsEnough(draw)
  {
    forall k :: 0 <= k < |jobs| ==> ClosesLater(RunJobs(b, jobs[..k], draw), jobs[k].0, jobs[k].1)
  }

  // ---- The history of one lot ---------------------------------------------------------

  predicate IsOpening(r: Row) {
    r.status == Open && r.markPrice == None && r.exitPrice == None && r.realizedPnl == None && r.unrealizedPnl == None
  }

  predicate IsMark(r: Row, size: real) {
    && r.status == Open && r.markPrice.Some? && r.exitPrice == None && r.realizedPnl == None
    && r.unrealizedPnl == Some(Gain(r.markPrice.value, r.entryPrice, size))
  }

  predicate IsClosing(r: Row, size: real) {
    && r.status == Closed && r.markPrice == None && r.unrealizedPnl == None && r.exitPrice.Some? && r.closedBy.Some?
    && r.realizedPnl == Some(Gain(r.exitPrice.value, r.entryPrice, size))
  }

  /** How a row may follow the rows of its lot. */
  ghost predicate Follows(earlier: seq<Row>, r: Row, size: real) {
    if earlier == [] then IsOpening(r)
    else
      var last := earlier[|earlier| - 1];
      && last.recordedAt <= r.recordedAt && r.entryPrice == last.entryPrice && r.quantity == last.quantity
      && (IsClosing(r, size) || IsMark(r, size))
      && (r.markPrice.Some? ==>
            forall i :: 0 <= i < |earlier| && earlier[i].markPrice.Some? ==> Day(earlier[i].recordedAt) < Day(r.recordedAt))
  }

  /** The size every row of the lot carries, or implies. */
  function LotSize(db: Tables, id: SignalId): real
    requires id in db.signals
  {
    var rs := RowsOf(db.rows, id);
    if rs == [] then 0.0 else SizeOf(db, rs[0])
  }

  /** One opening row, then marks, at most one a day, and closing rows, in order of time. */
  ghost predicate LotHistory(rs: seq<Row>, size: real)
    decreases |rs|
  {
    rs == [] || (LotHistory(rs[..|rs| - 1], size) && Follows(rs[..|rs| - 1], rs[|rs| - 1], size))
  }

  /** What holds whatever ids are drawn. */
  ghost predicate BooksSound(b: Books) {
    && (forall r :: r in b.db.rows ==> r.signalId in b.db.signals && r.recordedAt <= b.clock)
    && (forall id :: id in b.db.signals ==> LotHistory(RowsOf(b.db.rows, id), LotSize(b.db, id)))
  }

  /** A closing row is the lot's last, and strictly later than the others. */
  ghost predicate ClosesLast(rs: seq<Row>) {
    forall i :: 0 <= i < |rs| && rs[i].status == Closed ==>
      i == |rs| - 1 && forall j :: 0 <= j < i ==> rs[j].recordedAt < rs[i].recordedAt
  }

  /** What holds besides when every sell comes after the lots it closes. */
  ghost predicate BooksSettled(b: Books) {
    BooksSound(b) && forall id :: id in b.db.signals ==> ClosesLast(RowsOf(b.db.rows, id))
  }

  // ---- What a history says --------------------------------------------------------------

  lemma {:induction false} HistoryShape(rs: seq<Row>, size: real)
    requires LotHistory(rs, size)
    ensures forall i, j :: 0 <= i < j < |rs| ==> rs[i].recordedAt <= rs[j].recordedAt
    ensures forall i :: 0 <= i < |rs| ==>
              rs[i].entryPrice == rs[0].entryPrice && rs[i].quantity == rs[0].quantity
              && if i == 0 then IsOpening(rs[i]) else IsMark(rs[i], size) || IsClosing(rs[i], size)
    decreases |rs|
  {
    if rs == [] {
    } else {
      var front, last := rs[..|rs| - 1], rs[|rs| - 1];
      HistoryShape(front, size);
      assert Follows(front, last, size);
      forall i | 0 <= i < |rs|
        ensures rs[i].entryPrice == rs[0].entryPrice && rs[i].quantity == rs[0].quantity
                && if i == 0 then IsOpening(rs[i]) else IsMark(rs[i], size) || IsClosing(rs[i], size)
      {
        if i < |front| { assert front[i] == rs[i] && front[0] == rs[0]; }
      }
      forall i, j | 0 <= i < j < |rs| ensures rs[i].recordedAt <= rs[j].recordedAt {
        assert front[i] == rs[i];
        if j < |front| { assert front[j] == rs[j]; }
      }
    }
  }

  /** A lot is marked at most once a day. */
  lemma {:induction false} MarksAreDaily(rs: seq<Row>, size: real)
    requires LotHistory(rs, size)
    ensures forall i, j :: 0 <= i < j < |rs| && rs[i].markPrice.Some? && rs[j].markPrice.Some? ==>
              Day(rs[i].recordedAt) < Day(rs[j].recordedAt)
    decreases |rs|
  {
    if rs == [] {
    } else {
      var front, last := rs[..|rs| - 1], rs[|rs| - 1];
      MarksAreDaily(front, size);
      assert Follows(front, last, size);
      forall i, j | 0 <= i < j < |rs| && rs[i].markPrice.Some? && rs[j].markPrice.Some?
        ensures Day(rs[i].recordedAt) < Day(rs[j].recordedAt)
      {
        assert front[i] == rs[i];
        if j < |front| { assert front[j] == rs[j]; }
      }
    }
  }

  lemma HistoryGrows(rs: seq<Row>, r: Row, size: real)
    requires LotHistory(rs, size) && Follows(rs, r, size)
    ensures LotHistory(rs + [r], size)
  {
    assert (rs + [r])[..|rs|] == rs;
  }

  lemma FollowsLast(rs: seq<Row>, r: Row, size: real)
    requires LotHistory(rs + [r], size)
    ensures LotHistory(rs, size) && Follows(rs, r, size)
  {
    assert (rs + [r])[..|rs|] == rs;
  }

  /** The newest row of a sound lot is one of its rows, of the same instant as the last one written. */
  lemma {:induction false} NewestIsAsLate(rows: seq<Row>, id: SignalId, size: real)
    requires LotHistory(RowsOf(rows, id), size)
    ensures var rs, n := RowsOf(rows, id), Newest(rows, id);
            if rs == [] then n == None else n.Some? && n.value in rs && n.value.recordedAt == rs[|rs| - 1].recordedAt
  {
    if rows == [] {
    } else {
      var front, last := rows[..|rows| - 1], rows[|rows| - 1];
      assert rows == front + [last];
      hide RowsOf, Newest, LotHistory, IsClosing, IsMark, IsOpening;
      RowsOfAppend(front, last, id);
      NewestAppend(front, last, id);
      if last.signalId == id { FollowsLast(RowsOf(front, id), last, size); }
      NewestIsAsLate(front, id, size);
    }
  }

  /** With a closing row last and strictly later, the newest row is open exactly while the last one is. */
  lemma SettledStatus(rows: seq<Row>, id: SignalId, size: real)
    requires LotHistory(RowsOf(rows, id), size) && ClosesLast(RowsOf(rows, id))
    ensures var rs, n := RowsOf(rows, id), Newest(rows, id);
            rs != [] ==> n.Some? && n.value.status == rs[|rs| - 1].status && (n.value.status == Closed ==> n.value == rs[|rs| - 1])
  {
    hide LotHistory, RowsOf, Newest;
    var rs := RowsOf(rows, id);
    NewestIsAsLate(rows, id, size);
    if rs != [] {
      var k :| 0 <= k < |rs| && rs[k] == Newest(rows, id).value;
    }
  }

  // ---- Every job keeps the books sound --------------------------------------------------

  lemma InitSound(clock: int)
    ensures BooksSettled(Books(EMPTY, clock))
  {
  }

  lemma SizeSurvives(db: Tables, row: Row, id: SignalId)
    requires id in db.signals
    ensures var db' := AppendRow(db, row);
            LotSize(db', id) == if RowsOf(db.rows, id) == [] && row.signalId == id then SizeOf(db, row) else LotSize(db, id)
  {
    RowsOfAppend(db.rows, row, id);
  }

  lemma {:induction false} EmptyHistory(size: real)
    ensures LotHistory([], size)
  {
  }

  lemma SoundLot(b: Books, id: SignalId)
    requires BooksSound(b) && id in b.db.signals
    ensures LotHistory(RowsOf(b.db.rows, id), LotSize(b.db, id))
  {
  }

  lemma SettledLot(b: Books, id: SignalId)
    requires BooksSettled(b) && id in b.db.signals
    ensures LotHistory(RowsOf(b.db.rows, id), LotSize(b.db, id)) && ClosesLast(RowsOf(b.db.rows, id))
  {
  }

  /** Appending a row that follows its lot's history. */
  lemma AppendKeeps(b: Books, row: Row, now: int)
    requires BooksSound(b) && row.signalId in b.db.signals && row.recordedAt == now && b.clock <= now
    requires var id := row.signalId; var rs := RowsOf(b.db.rows, id);
             Follows(rs, row, if rs == [] then SizeOf(b.db, row) else LotSize(b.db, id))
    ensures BooksSound(Books(AppendRow(b.db, row), now))
  {
    hide LotHistory, Follows, LotSize, RowsOf, SizeOf;
    var db' := AppendRow(b.db, row);
    forall id | id in db'.signals ensures LotHistory(RowsOf(db'.rows, id), LotSize(db', id)) {
      RowsOfAppend(b.db.rows, row, id);
      SizeSurvives(b.db, row, id);
      if id == row.signalId {
        EmptyHistory(LotSize(db', id));
        HistoryGrows(RowsOf(b.db.rows, id), row, LotSize(db', id));
      }
    }
  }

  /** A row that does not follow a closing row, and comes strictly later when it closes, keeps closing rows last. */
  lemma AppendSettles(b: Books, row: Row, now: int)
    requires BooksSettled(b) && row.signalId in b.db.signals && BooksSound(Books(AppendRow(b.db, row), now))
    requires forall r :: r in RowsOf(b.db.rows, row.signalId) ==>
               r.status == Open && (row.status == Closed ==> r.recordedAt < row.recordedAt)
    ensures BooksSettled(Books(AppendRow(b.db, row), now))
  {
    hide BooksSound, RowsOf;
    var db' := AppendRow(b.db, row);
    forall id | id in db'.signals ensures ClosesLast(RowsOf(db'.rows, id)) {
      RowsOfAppend(b.db.rows, row, id);
    }
  }

  /** What the listing knows of an open lot of sound books. */
  lemma OpenLotFacts(b: Books, id: SignalId)
    requires BooksSound(b) && IsOpen(b.db, id)
    ensures var rs := RowsOf(b.db.rows, id); var lot, n := LotOf(b.db, id), Newest(b.db.rows, id).value;
            && rs != [] && n in rs && lot.recordedAt == rs[|rs| - 1].recordedAt <= b.clock
            && lot.quantity == LotSize(b.db, id) && lot.entryPrice == n.entryPrice == rs[0].entryPrice
            && n.quantity == rs[0].quantity && rs[|rs| - 1].entryPrice == n.entryPrice && rs[|rs| - 1].quantity == n.quantity
            && n.quantity == if lot.overridden then Some(lot.quantity) else None
  {
    var rs := RowsOf(b.db.rows, id);
    SoundLot(b, id);
    InBooks(b, id);
    hide BooksSound, LotHistory, Newest, RowsOf;
    NewestIsAsLate(b.db.rows, id, LotSize(b.db, id));
    assert rs[|rs| - 1] in rs;
    MembersAgree(rs, LotSize(b.db, id), Newest(b.db.rows, id).value);
    MembersAgree(rs, LotSize(b.db, id), rs[|rs| - 1]);
  }

  lemma MembersAgree(rs: seq<Row>, size: real, r: Row)
    requires LotHistory(rs, size) && r in rs
    ensures r.entryPrice == rs[0].entryPrice && r.quantity == rs[0].quantity
  {
    HistoryShape(rs, size);
  }

  /** In settled books every row of an open lot is open. */
  lemma OpenLotIsUnclosed(b: Books, id: SignalId)
    requires BooksSettled(b) && IsOpen(b.db, id)
    ensures forall r :: r in RowsOf(b.db.rows, id) ==> r.status == Open && r.recordedAt <= NewestTime(b.db.rows, id)
  {
    SettledLot(b, id);
    hide LotHistory, RowsOf, Newest, BooksSound, BooksSettled, ClosesLast, LotSize;
    SettledStatus(b.db.rows, id, LotSize(b.db, id));
    NewestIsAsLate(b.db.rows, id, LotSize(b.db, id));
    AllOpenByNow(RowsOf(b.db.rows, id), LotSize(b.db, id));
  }

  lemma AllOpenByNow(rs: seq<Row>, size: real)
    requires LotHistory(rs, size) && ClosesLast(rs) && (rs != [] ==> rs[|rs| - 1].status == Open)
    ensures forall r :: r in rs ==> r.status == Open && r.recordedAt <= rs[|rs| - 1].recordedAt
  {
    HistoryShape(rs, size);
    forall i | 0 <= i < |rs| ensures rs[i].status == Open && rs[i].recordedAt <= rs[|rs| - 1].recordedAt {
      assert i == |rs| - 1 || rs[i].recordedAt <= rs[|rs| - 1].recordedAt;
    }
  }

  lemma ClosingKeeps(b: Books, id: SignalId, exit: real, closedBy: SignalId, now: int, rowId: RowId)
    requires BooksSound(b) && b.clock <= now && IsOpen(b.db, id)
    ensures var row := ClosingRow(b.db, id, exit, closedBy, now, rowId);
            && row.Some? && row.value.signalId == id && BooksSound(Books(AppendRow(b.db, row.value), now))
            && (BooksSettled(b) && NewestTime(b.db.rows, id) < now ==> BooksSettled(Books(AppendRow(b.db, row.value), now)))
  {
    hide BooksSound, LotHistory, RowsOf, Newest, LotSize;
    OpenLotFacts(b, id);
    var row := ClosingRow(b.db, id, exit, closedBy, now, rowId).value;
    AppendKeeps(b, row, now);
    if BooksSettled(b) && NewestTime(b.db.rows, id) < now {
      OpenLotIsUnclosed(b, id);
      AppendSettles(b, row, now);
    }
  }

  lemma {:induction false} CloseKeeps(b: Books, ids: seq<SignalId>, exit: real, closedBy: SignalId, now: int, rowIds: seq<RowId>)
    requires BooksSound(b) && b.clock <= now && |rowIds| == |ids| && Distinct(ids)
    requires CloseLots(b.db, ids, exit, closedBy, now, rowIds).Some?
    ensures BooksSound(Books(CloseLots(b.db, ids, exit, closedBy, now, rowIds).value, now))
    ensures BooksSettled(b) && (forall x :: x in ids ==> NewestTime(b.db.rows, x) < now) ==>
              BooksSettled(Books(CloseLots(b.db, ids, exit, closedBy, now, rowIds).value, now))
    decreases |ids|
  {
    hide BooksSound;
    if ids == [] {
      ClockAdvances(b, now);
    } else {
      var row := ClosingRow(b.db, ids[0], exit, closedBy, now, rowIds[0]).value;
      ClosingKeeps(b, ids[0], exit, closedBy, now, rowIds[0]);
      assert ids[0] in ids;
      forall x | x in ids[1..] ensures x in ids && NewestTime(AppendRow(b.db, row).rows, x) == NewestTime(b.db.rows, x) {
        OthersUnmoved(b.db, row, x);
      }
      CloseKeeps(Books(AppendRow(b.db, row), now), ids[1..], exit, closedBy, now, rowIds[1..]);
    }
  }

  /** A lot still as it was listed. */
  predicate AsListed(db: Tables, lot: OpenLot) {
    IsOpen(db, lot.signalId) && lot == LotOf(db, lot.signalId)
  }

  lemma NoMarkToday(rows: seq<Row>, id: SignalId, now: int)
    requires !HasMarkForDay(rows, id, now)
    ensures forall r :: r in RowsOf(rows, id) && r.markPrice.Some? ==> Day(r.recordedAt) != Day(now)
  {
    forall r | r in RowsOf(rows, id) && r.markPrice.Some? ensures Day(r.recordedAt) != Day(now) {
      var i :| 0 <= i < |RowsOf(rows, id)| && RowsOf(rows, id)[i] == r;
      assert RowsOf(rows, id)[i] in rows;
      var j :| 0 <= j < |rows| && rows[j] == r;
    }
  }

  lemma MarkKeeps(b: Books, lot: OpenLot, quotes: map<Symbol, real>, now: int, rowId: RowId)
    requires BooksSound(b) && b.clock <= now && AsListed(b.db, lot)
    ensures BooksSound(Books(MarkLot(b.db, lot, quotes, now, rowId), now))
    ensures BooksSettled(b) ==> BooksSettled(Books(MarkLot(b.db, lot, quotes, now, rowId), now))
  {
    hide BooksSound, HasMarkForDay, RowsOf;
    if Marks(b.db, lot, quotes, now) {
      var row := MarkRow(lot, quotes[lot.symbol], now, rowId);
      MarkFollows(b, lot, quotes, now, rowId);
      AppendKeeps(b, row, now);
      if BooksSettled(b) {
        OpenLotIsUnclosed(b, lot.signalId);
        AppendSettles(b, row, now);
      }
    } else {
      ClockAdvances(b, now);
    }
  }

  lemma InBooks(b: Books, id: SignalId)
    requires BooksSound(b)
    ensures forall r :: r in RowsOf(b.db.rows, id) ==> r.recordedAt <= b.clock
  {
  }

  lemma MarkFollows(b: Books, lot: OpenLot, quotes: map<Symbol, real>, now: int, rowId: RowId)
    requires BooksSound(b) && b.clock <= now && AsListed(b.db, lot) && Marks(b.db, lot, quotes, now)
    ensures var rs := RowsOf(b.db.rows, lot.signalId);
            rs != [] && Follows(rs, MarkRow(lot, quotes[lot.symbol], now, rowId), LotSize(b.db, lot.signalId))
  {
    hide BooksSound, HasMarkForDay, Gain, RowsOf, Newest;
    var id := lot.signalId;
    var row := MarkRow(lot, quotes[lot.symbol], now, rowId);
    var rs := RowsOf(b.db.rows, id);
    OpenLotFacts(b, id);
    NoMarkToday(b.db.rows, id, now);
    InBooks(b, id);
    forall i | 0 <= i < |rs| && rs[i].markPrice.Some? ensures Day(rs[i].recordedAt) < Day(now) {
      assert rs[i] in rs;
    }
  }

  lemma {:induction false} MarkLotsKeeps(b: Books, lots: seq<OpenLot>, quotes: map<Symbol, real>, now: int, rowIds: seq<RowId>)
    requires BooksSound(b) && b.clock <= now && |rowIds| == |lots| && Distinct(IdsOf(lots))
    requires forall i :: 0 <= i < |lots| ==> AsListed(b.db, lots[i])
    ensures var db' := MarkLots(b.db, lots, quotes, now, rowIds);
            && BooksSound(Books(db', now)) && (BooksSettled(b) ==> BooksSettled(Books(db', now)))
            && db'.signals == b.db.signals
            && forall id :: id !in IdsOf(lots) ==> Newest(db'.rows, id) == Newest(b.db.rows, id)
  {
    hide BooksSound, BooksSettled;
    if lots == [] {
      ClockAdvances(b, now);
    } else {
      var n := |lots| - 1;
      var db1 := MarkLots(b.db, lots[..n], quotes, now, rowIds[..n]);
      assert IdsOf(lots) == IdsOf(lots[..n]) + [lots[n].signalId];
      MarkLotsKeeps(b, lots[..n], quotes, now, rowIds[..n]);
      assert IdsOf(lots)[n] == lots[n].signalId && lots[n].signalId !in IdsOf(lots[..n]);
      assert Newest(db1.rows, lots[n].signalId) == Newest(b.db.rows, lots[n].signalId);
      assert AsListed(db1, lots[n]);
      MarkKeeps(Books(db1, now), lots[n], quotes, now, rowIds[n]);
      forall id | id !in IdsOf(lots) ensures Newest(MarkLot(db1, lots[n], quotes, now, rowIds[n]).rows, id) == Newest(b.db.rows, id) {
        assert lots[n].signalId in IdsOf(lots);
        if Marks(db1, lots[n], quotes, now) {
          OthersUnmoved(db1, MarkRow(lots[n], quotes[lots[n].symbol], now, rowIds[n]), id);
        }
      }
    }
  }

  lemma ClockAdvances(b: Books, now: int)
    requires BooksSound(b) && b.clock <= now
    ensures BooksSound(Books(b.db, now)) && (BooksSettled(b) ==> BooksSettled(Books(b.db, now)))
  {
  }

  lemma ListedOnce(db: Tables)
    ensures Distinct(IdsOf(ListOpenLots(db)))
    ensures forall i :: 0 <= i < |ListOpenLots(db)| ==> AsListed(db, ListOpenLots(db)[i])
  {
    var lots := ListOpenLots(db);
    ListOpenLotsSound(db);
    forall i, j | 0 <= i < j < |lots| ensures lots[i].signalId != lots[j].signalId {
      assert IdKey(lots[i]) != IdKey(lots[j]);
    }
    forall i | 0 <= i < |lots| ensures AsListed(db, lots[i]) {
      assert lots[i] in lots;
    }
  }

  lemma ProposeKeeps(b: Books, id: SignalId, draft: Draft, now: int)
    requires BooksSound(b) && b.clock <= now && id !in b.db.signals
    ensures var r := InsertSignal(b.db, id, draft, now); var b' := Books(if r == None then b.db else r.value, now);
            BooksSound(b') && (BooksSettled(b) ==> BooksSettled(b'))
  {
    var r := InsertSignal(b.db, id, draft, now);
    if r.Some? {
      NoRows(b.db.rows, id);
    }
  }

  lemma {:induction false} NoRows(rows: seq<Row>, id: SignalId)
    requires forall r :: r in rows ==> r.signalId != id
    ensures RowsOf(rows, id) == []
  {
    if rows == [] {
    } else {
      NoRows(rows[..|rows| - 1], id);
    }
  }

  lemma OpeningKeeps(b: Books, id: SignalId, price: real, quantity: real, now: int, rowId: RowId)
    requires BooksSound(b) && b.clock <= now && id in b.db.signals && RowsOf(b.db.rows, id) == []
    ensures var b' := Books(AppendRow(b.db, OpeningRow(b.db, id, price, quantity, now, rowId)), now);
            BooksSound(b') && (BooksSettled(b) ==> BooksSettled(b'))
  {
    hide BooksSound, RowsOf;
    var row := OpeningRow(b.db, id, price, quantity, now, rowId);
    AppendKeeps(b, row, now);
    if BooksSettled(b) { AppendSettles(b, row, now); }
  }

  lemma SettleKeeps(b: Books, id: SignalId, price: real, quantity: real, now: int, draw: Draw)
    requires DrawsEnough(draw) && BooksSound(b) && Enabled(b, SettleFill(id, price, quantity), now)
    ensures var r := Settle(b.db, id, price, quantity, now, draw); var b' := Books(if r.Success? then r.value else b.db, now);
            && BooksSound(b')
            && (BooksSettled(b) && ClosesLater(b, SettleFill(id, price, quantity), now) ==> BooksSettled(b'))
  {
    hide SelectLots, BooksSound, RowsOf, OpeningRow;
    ClockAdvances(b, now);
    if b.db.signals[id].side == Sell {
      var s := b.db.signals[id].symbol;
      var lots := SelectLots(b.db, s, quantity);
      if lots != [] {
        var ids := draw(b.db.rows, |lots|);
        assert |ids| == |lots|;
        SelectedAreOpen(b.db, s, quantity);
        SelectThenClose(b.db, s, quantity, price, id, now, ids);
        CloseKeeps(b, lots, price, id, now, ids);
      }
    } else {
      assert |draw(b.db.rows, 1)| == 1;
      OpeningKeeps(b, id, price, quantity, now, draw(b.db.rows, 1)[0]);
    }
  }

  lemma JobKeeps(b: Books, job: Job, now: int, draw: Draw)
    requires DrawsEnough(draw) && BooksSound(b)
    ensures BooksSound(JobStep(b, job, now, draw))
    ensures BooksSettled(b) && ClosesLater(b, job, now) ==> BooksSettled(JobStep(b, job, now, draw))
  {
    if Enabled(b, job, now) {
      hide BooksSound, BooksSettled, Settle, ClosesLater;
      match job
      case Propose(id, draft) => ProposeKeeps(b, id, draft, now);
      case SettleFill(id, price, quantity) => SettleKeeps(b, id, price, quantity, now, draw);
      case MarkRun(quotes) =>
        var lots := ListOpenLots(b.db);
        assert |draw(b.db.rows, |lots|)| == |lots|;
        ListedOnce(b.db);
        MarkLotsKeeps(b, lots, quotes, now, draw(b.db.rows, |lots|));
    }
  }

  /** Whatever ids are drawn, every run keeps the books sound; with every sell later than its lots, settled too. */
  lemma {:induction false} RunKeeps(b: Books, jobs: seq<(Job, int)>, draw: Draw)
    requires DrawsEnough(draw) && BooksSound(b)
    ensures BooksSound(RunJobs(b, jobs, draw))
    ensures BooksSettled(b) && AlwaysLater(b, jobs, draw) ==> BooksSettled(RunJobs(b, jobs, draw))
  {
    hide BooksSound, BooksSettled, JobStep, ClosesLater;
    if jobs == [] {
    } else {
      var front := jobs[..|jobs| - 1];
      RunKeeps(b, front, draw);
      if AlwaysLater(b, jobs, draw) { AlwaysLaterBefore(b, jobs, draw); }
      JobKeeps(RunJobs(b, front, draw), jobs[|jobs| - 1].0, jobs[|jobs| - 1].1, draw);
    }
  }

  lemma AlwaysLaterBefore(b: Books, jobs: seq<(Job, int)>, draw: Draw)
    requires DrawsEnough(draw) && AlwaysLater(b, jobs, draw) && jobs != []
    ensures AlwaysLater(b, jobs[..|jobs| - 1], draw)
    ensures ClosesLater(RunJobs(b, jobs[..|jobs| - 1], draw), jobs[|jobs| - 1].0, jobs[|jobs| - 1].1)
  {
    hide RunJobs, ClosesLater;
    var front := jobs[..|jobs| - 1];
    forall k | 0 <= k < |front| ensures ClosesLater(RunJobs(b, front[..k], draw), front[k].0, front[k].1) {
      assert front[..k] == jobs[..k];
    }
  }
}
