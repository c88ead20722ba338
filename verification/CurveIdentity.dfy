/** What a published point is worth: the lots opened by then, at their exit or that day's mark. */
module CurveIdentity {
  import opened Prelude
  import opened Ledger
  import opened Lots
  import opened Sums
  import opened LotRuns
  import opened Stats
  import opened PublishedHistory
  import Ordering

  // ---- The worth of a lot, from its own rows -----------------------------------------------

  /** The price the lot was closed at, if it was closed by the end of the day. */
  function ExitBy(rs: seq<Row>, day: int): Option<real> {
    if rs == [] then None
    else
      var last := rs[|rs| - 1];
      if last.status == Closed && Day(last.recordedAt) <= day then last.exitPrice else ExitBy(rs[..|rs| - 1], day)
  }

  /** The price the lot was marked at on the day. */
  function MarkOn(rs: seq<Row>, day: int): Option<real> {
    if rs == [] then None
    else
      var last := rs[|rs| - 1];
      if last.markPrice.Some? && Day(last.recordedAt) == day then last.markPrice else MarkOn(rs[..|rs| - 1], day)
  }

  function PriceOn(rs: seq<Row>, day: int): Option<real> {
    if ExitBy(rs, day).Some? then ExitBy(rs, day) else MarkOn(rs, day)
  }

  predicate OpenedBy(rs: seq<Row>, day: int) {
    rs != [] && Day(rs[0].recordedAt) <= day
  }

  /** Opened by the end of the day, not closed by then, and without a mark that day. */
  predicate Unpriced(db: Tables, id: SignalId, day: int) {
    OpenedBy(RowsOf(db.rows, id), day) && PriceOn(RowsOf(db.rows, id), day) == None
  }

  /** (exit or mark, minus entry) times size. */
  function WorthOn(db: Tables, id: SignalId, day: int): real {
    var rs := RowsOf(db.rows, id);
    if id in db.signals && OpenedBy(rs, day) && PriceOn(rs, day).Some?
    then Gain(PriceOn(rs, day).value, rs[0].entryPrice, LotSize(db, id)) else 0.0
  }

  // ---- What the listing holds of one lot --------------------------------------------------------

  lemma {:induction false} ThroughAscends(rows: seq<StatRow>, day: int)
    requires Ordering.Ascending(rows, RowTime)
    ensures Ordering.Ascending(Through(rows, day), RowTime)
  {
    if rows == [] {
    } else {
      var front, last := rows[..|rows| - 1], rows[|rows| - 1];
      ThroughAscends(front, day);
      ThroughHas(front, day);
      forall r | r in front ensures !KeyLess(RowTime(last), RowTime(r)) {
        var i :| 0 <= i < |front| && front[i] == r;
        assert !KeyLess(RowTime(rows[|rows| - 1]), RowTime(rows[i]));
      }
    }
  }

  /** The rows of one lot in the listing are its rows, each with the lot's size. */
  lemma OwnRowsListed(db: Tables, id: SignalId)
    requires KnownRows(db)
    ensures forall q :: q in RowsOf(db.rows, id) ==> q.signalId == id && q in db.rows && Sized(db, q) in ListAllRows(db)
    ensures forall l :: l in ListAllRows(db) && l.signalId == id ==> exists q :: q in RowsOf(db.rows, id) && Sized(db, q) == l
  {
    hide RowsOf, ListAllRows;
    ListedRows(db);
    forall l | l in ListAllRows(db) && l.signalId == id ensures exists q :: q in RowsOf(db.rows, id) && Sized(db, q) == l {
      var q :| q in db.rows && Sized(db, q) == l;
      RowsOfHas(db.rows, q);
    }
  }

  /** `q` is one of the lot's latest rows by the end of the day. */
  ghost predicate LatestBy(rs: seq<Row>, day: int, q: Row) {
    q in rs && Day(q.recordedAt) <= day && forall p :: p in rs && Day(p.recordedAt) <= day ==> p.recordedAt <= q.recordedAt
  }

  /** The row held for a lot at the end of a day is one of its latest rows by then. */
  lemma HeldByDay(db: Tables, id: SignalId, day: int)
    requires KnownRows(db)
    ensures var held, rs := Latest(Through(ListAllRows(db), day), id), RowsOf(db.rows, id);
            && (held == None <==> forall q :: q in rs ==> Day(q.recordedAt) > day)
            && (held.Some? ==> exists q :: LatestBy(rs, day, q) && q in db.rows && held == Some(Sized(db, q)))
  {
    hide RowsOf, ListAllRows, Latest, Through, Day;
    var rows, rs := ListAllRows(db), RowsOf(db.rows, id);
    var asOf := Through(rows, day);
    ListedRows(db);
    OwnRowsListed(db, id);
    ThroughAscends(rows, day);
    ThroughHas(rows, day);
    LatestIsNewest(asOf, id);
    var held := Latest(asOf, id);
    if held.Some? {
      var q :| q in rs && Sized(db, q) == held.value;
      forall p | p in rs && Day(p.recordedAt) <= day ensures p.recordedAt <= q.recordedAt {
        assert Sized(db, p) in asOf && Sized(db, p).signalId == id;
      }
      assert LatestBy(rs, day, q);
    } else {
      forall q | q in rs ensures Day(q.recordedAt) > day {
        assert Sized(db, q) in rows && Sized(db, q).signalId == id;
      }
    }
  }

  // ---- One lot on one day ---------------------------------------------------------------------

  lemma DayMonotone(x: int, y: int)
    requires x <= y
    ensures Day(x) <= Day(y)
  {
  }

  lemma OpenedByIffSomeRow(rs: seq<Row>, size: real, day: int)
    requires LotHistory(rs, size)
    ensures OpenedBy(rs, day) <==> exists q :: q in rs && Day(q.recordedAt) <= day
  {
    HistoryShape(rs, size);
    hide LotHistory, Day;
    if rs != [] {
      assert rs[0] in rs;
      forall q | q in rs ensures Day(rs[0].recordedAt) <= Day(q.recordedAt) {
        var k :| 0 <= k < |rs| && rs[k] == q;
        assert k == 0 || rs[0].recordedAt <= rs[k].recordedAt;
        DayMonotone(rs[0].recordedAt, q.recordedAt);
      }
    }
  }

  lemma {:induction false} NoExit(rs: seq<Row>, day: int)
    requires forall i :: 0 <= i < |rs| ==> rs[i].status == Open
    ensures ExitBy(rs, day) == None
  {
    if rs != [] { NoExit(rs[..|rs| - 1], day); }
  }

  lemma ExitIsLast(rs: seq<Row>, day: int)
    requires ClosesLast(rs)
    ensures ExitBy(rs, day)
            == if rs != [] && rs[|rs| - 1].status == Closed && Day(rs[|rs| - 1].recordedAt) <= day then rs[|rs| - 1].exitPrice else None
  {
    if rs != [] {
      var front := rs[..|rs| - 1];
      forall i | 0 <= i < |front| ensures front[i].status == Open { assert front[i] == rs[i]; }
      NoExit(front, day);
    }
  }

  /** One of the lot's latest rows by the day is closed exactly when the lot's closing row is, and is then that row. */
  lemma LatestIsClosing(rs: seq<Row>, day: int, q: Row)
    requires ClosesLast(rs) && LatestBy(rs, day, q)
    ensures var last := rs[|rs| - 1];
            && (q.status == Closed <==> last.status == Closed && Day(last.recordedAt) <= day)
            && (q.status == Closed ==> q == last)
  {
    hide Day;
    var k :| 0 <= k < |rs| && rs[k] == q;
    assert rs[|rs| - 1] in rs;
  }

  lemma {:induction false} MarkTodayIsSome(rows: seq<StatRow>, id: SignalId, day: int)
    ensures MarkToday(rows, id, day).Some? ==>
              exists r :: r in rows && r.signalId == id && r.markPrice.Some? && Day(r.recordedAt) == day
                          && MarkToday(rows, id, day) == Some(OrZero(r.unrealizedPnl))
    ensures MarkToday(rows, id, day) == None ==>
              forall r :: r in rows && r.signalId == id && r.markPrice.Some? ==> Day(r.recordedAt) != day
  {
    hide Day;
    if rows != [] {
      MarkTodayIsSome(rows[..|rows| - 1], id, day);
      assert rows == rows[..|rows| - 1] + [rows[|rows| - 1]];
    }
  }

  lemma {:induction false} MarkOnIsSome(rs: seq<Row>, day: int)
    ensures MarkOn(rs, day).Some? ==>
              exists r :: r in rs && Day(r.recordedAt) == day && r.markPrice == MarkOn(rs, day)
    ensures MarkOn(rs, day) == None ==> forall r :: r in rs && r.markPrice.Some? ==> Day(r.recordedAt) != day
  {
    hide Day;
    if rs != [] {
      MarkOnIsSome(rs[..|rs| - 1], day);
      assert rs == rs[..|rs| - 1] + [rs[|rs| - 1]];
    }
  }

  /** A lot has one mark a day. */
  lemma OneMark(rs: seq<Row>, size: real, q: Row, r: Row)
    requires LotHistory(rs, size) && q in rs && r in rs && q.markPrice.Some? && r.markPrice.Some?
    requires Day(q.recordedAt) == Day(r.recordedAt)
    ensures q == r && IsMark(q, size) && q.entryPrice == rs[0].entryPrice
  {
    hide Day;
    HistoryShape(rs, size);
    MarksAreDaily(rs, size);
    var i :| 0 <= i < |rs| && rs[i] == q;
    var j :| 0 <= j < |rs| && rs[j] == r;
  }

  lemma MarkTodayIsMarkOn(b: Books, id: SignalId, day: int)
    requires BooksSound(b) && KnownRows(b.db) && id in b.db.signals
    ensures var rs := RowsOf(b.db.rows, id); var mark := MarkOn(rs, day);
            && (mark.Some? ==> rs != [])
            && MarkToday(ListAllRows(b.db), id, day)
               == if mark.Some? then Some(Gain(mark.value, rs[0].entryPrice, LotSize(b.db, id))) else None
  {
    hide BooksSound, LotHistory, RowsOf, ListAllRows, MarkToday, MarkOn, Day, Gain, LotSize;
    var rows, rs := ListAllRows(b.db), RowsOf(b.db.rows, id);
    OwnRowsListed(b.db, id);
    MarkTodayIsSome(rows, id, day);
    MarkOnIsSome(rs, day);
    SoundLot(b, id);
    if MarkOn(rs, day).Some? {
      var q :| q in rs && Day(q.recordedAt) == day && q.markPrice == MarkOn(rs, day);
      assert Sized(b.db, q) in rows && Sized(b.db, q).signalId == id && Sized(b.db, q).markPrice.Some?;
      var r :| r in rows && r.signalId == id && r.markPrice.Some? && Day(r.recordedAt) == day
               && MarkToday(rows, id, day) == Some(OrZero(r.unrealizedPnl));
      var p :| p in rs && Sized(b.db, p) == r;
      OneMark(rs, LotSize(b.db, id), q, p);
    }
  }

  /** What the published point takes from one lot: its realized gain, or the gain of its mark that day. */
  function Contribution(rows: seq<StatRow>, day: int, id: SignalId): real {
    var held := Latest(Through(rows, day), id);
    if held == None then 0.0
    else if held.value.status == Closed then OrZero(held.value.realizedPnl)
    else OrZero(MarkToday(rows, id, day))
  }

  predicate LacksMark(rows: seq<StatRow>, day: int, id: SignalId) {
    var held := Latest(Through(rows, day), id);
    held.Some? && held.value.status == Open && MarkToday(rows, id, day) == None
  }

  /** The realized gain of a closing row is the lot's, at its exit. */
  lemma ClosingGain(rs: seq<Row>, size: real, q: Row)
    requires LotHistory(rs, size) && q in rs && q.status == Closed
    ensures q.exitPrice.Some? && q.realizedPnl == Some(Gain(q.exitPrice.value, rs[0].entryPrice, size))
  {
    HistoryShape(rs, size);
    var k :| 0 <= k < |rs| && rs[k] == q;
    assert k > 0;
  }

  lemma OneLotOnOneDay(b: Books, id: SignalId, day: int)
    requires BooksSettled(b) && KnownRows(b.db) && id in b.db.signals
    ensures var rows := ListAllRows(b.db);
            && (LacksMark(rows, day, id) <==> Unpriced(b.db, id, day))
            && (Contribution(rows, day, id) == WorthOn(b.db, id, day))
            && (Latest(Through(rows, day), id).Some? <==> OpenedBy(RowsOf(b.db.rows, id), day))
  {
    var rows, rs, size := ListAllRows(b.db), RowsOf(b.db.rows, id), LotSize(b.db, id);
    SettledLot(b, id);
    MarkTodayIsMarkOn(b, id, day);
    hide BooksSound, LotHistory, Latest, Through, ListAllRows, Day, Gain, MarkToday, MarkOn, ExitBy, RowsOf, LotSize, ClosesLast, OpenedBy;
    HeldByDay(b.db, id, day);
    OpenedByIffSomeRow(rs, size, day);
    ExitIsLast(rs, day);
    var held := Latest(Through(rows, day), id);
    if held.Some? {
      var q :| LatestBy(rs, day, q) && q in b.db.rows && held == Some(Sized(b.db, q));
      LatestIsClosing(rs, day, q);
      if q.status == Closed { ClosingGain(rs, size, q); }
    }
  }

  // ---- All lots on one day --------------------------------------------------------------------

  function ClosedPart(rows: seq<StatRow>): SignalId -> real {
    id => if Latest(rows, id).Some? && Latest(rows, id).value.status == Closed then OrZero(Latest(rows, id).value.realizedPnl) else 0.0
  }

  function OpenPart(rows: seq<StatRow>, all: seq<StatRow>, day: int): SignalId -> real {
    id => if Latest(rows, id).Some? && Latest(rows, id).value.status == Open then OrZero(MarkToday(all, id, day)) else 0.0
  }

  lemma {:induction false} RealizedIsATotal(rows: seq<StatRow>, ids: seq<SignalId>)
    ensures Realized(WithStatus(LatestOf(rows, ids), Closed)) == Total(ids, ClosedPart(rows))
  {
    if ids == [] {
    } else {
      var front, last := ids[..|ids| - 1], ids[|ids| - 1];
      RealizedIsATotal(rows, front);
      var held := LatestOf(rows, front);
      if Latest(rows, last).Some? {
        var l := Latest(rows, last).value;
        assert (held + [l])[..|held|] == held;
        if l.status == Closed {
          var c := WithStatus(held, Closed);
          assert (c + [l])[..|c|] == c;
        } else {
          assert WithStatus(held + [l], Closed) == WithStatus(held, Closed);
        }
      } else {
        assert LatestOf(rows, ids) == held;
      }
    }
  }

  lemma {:induction false} UnrealizedIsATotal(rows: seq<StatRow>, all: seq<StatRow>, day: int, ids: seq<SignalId>)
    requires forall id :: Latest(rows, id).Some? ==> Latest(rows, id).value.signalId == id
    ensures Unrealized(all, WithStatus(LatestOf(rows, ids), Open), day) == Total(ids, OpenPart(rows, all, day))
  {
    if ids == [] {
    } else {
      var front, last := ids[..|ids| - 1], ids[|ids| - 1];
      UnrealizedIsATotal(rows, all, day, front);
      var held := LatestOf(rows, front);
      if Latest(rows, last).Some? {
        var l := Latest(rows, last).value;
        assert (held + [l])[..|held|] == held;
        if l.status == Open {
          var c := WithStatus(held, Open);
          assert (c + [l])[..|c|] == c;
        } else {
          assert WithStatus(held + [l], Open) == WithStatus(held, Open);
        }
      } else {
        assert LatestOf(rows, ids) == held;
      }
    }
  }

  lemma {:induction false} HeldIsOwn(rows: seq<StatRow>, id: SignalId)
    ensures Latest(rows, id).Some? ==> Latest(rows, id).value.signalId == id
  {
    if rows == [] {
    } else {
      HeldIsOwn(rows[..|rows| - 1], id);
    }
  }

  lemma WithStatusAppend(rows: seq<StatRow>, r: StatRow, status: LotStatus)
    ensures WithStatus(rows + [r], status) == if r.status == status then WithStatus(rows, status) + [r] else WithStatus(rows, status)
  {
    assert (rows + [r])[..|rows|] == rows;
  }

  lemma {:induction false} OpenIsHeld(rows: seq<StatRow>, ids: seq<SignalId>)
    ensures forall l :: l in WithStatus(LatestOf(rows, ids), Open)
              <==> l.status == Open && l.signalId in ids && Latest(rows, l.signalId) == Some(l)
  {
    hide Latest, WithStatus;
    if ids == [] {
      assert LatestOf(rows, ids) == [];
      NobodyHeld();
    } else {
      var front, last := ids[..|ids| - 1], ids[|ids| - 1];
      OpenIsHeld(rows, front);
      assert ids == front + [last];
      HeldIsOwn(rows, last);
      var held := LatestOf(rows, front);
      if Latest(rows, last).Some? {
        WithStatusAppend(held, Latest(rows, last).value, Open);
      } else {
        assert LatestOf(rows, ids) == held;
      }
    }
  }

  lemma NobodyHeld()
    ensures WithStatus([], Open) == []
  {
  }

  lemma WithheldIffLacking(rows: seq<StatRow>, day: int)
    ensures var asOf := Through(rows, day);
            Unmarked(rows, WithStatus(Current(asOf), Open), day) <==> exists id :: LacksMark(rows, day, id)
  {
    hide Through, MarkToday, Latest, Seen, WithStatus, LatestOf;
    var asOf := Through(rows, day);
    var lots := WithStatus(Current(asOf), Open);
    HeldIffSeen(asOf);
    OpenIsHeld(asOf, Seen(asOf));
    forall id | LacksMark(rows, day, id) ensures Unmarked(rows, lots, day) {
      HeldIsOwn(asOf, id);
      var l := Latest(asOf, id).value;
      assert l in lots;
      var i :| 0 <= i < |lots| && lots[i] == l;
      assert MarkToday(rows, lots[i].signalId, day) == None;
    }
    if Unmarked(rows, lots, day) {
      var i :| 0 <= i < |lots| && MarkToday(rows, lots[i].signalId, day) == None;
      assert lots[i] in lots;
      assert LacksMark(rows, day, lots[i].signalId);
    }
  }

  lemma ValueIsATotal(rows: seq<StatRow>, day: int, parts: SignalId -> real)
    requires forall id :: parts(id) == Contribution(rows, day, id)
    ensures var asOf := Through(rows, day);
            Realized(WithStatus(Current(asOf), Closed)) + Unrealized(rows, WithStatus(Current(asOf), Open), day)
            == Total(Seen(asOf), parts)
  {
    hide Through, MarkToday, Latest, Seen, WithStatus, LatestOf, Realized, Unrealized;
    var asOf := Through(rows, day);
    var ids := Seen(asOf);
    forall id ensures Latest(asOf, id).Some? ==> Latest(asOf, id).value.signalId == id { HeldIsOwn(asOf, id); }
    RealizedIsATotal(asOf, ids);
    UnrealizedIsATotal(asOf, rows, day, ids);
    TotalAdds(ids, ClosedPart(asOf), OpenPart(asOf, rows, day), parts);
  }

  /** The point, as a sum over the lots seen by the day. */
  lemma PointIsATotal(rows: seq<StatRow>, day: int, parts: SignalId -> real)
    requires forall id :: parts(id) == Contribution(rows, day, id)
    ensures var p := Point(rows, day);
            && (p.withheld <==> exists id :: LacksMark(rows, day, id))
            && (!p.withheld ==> p.value == Some(Total(Seen(Through(rows, day)), parts)))
  {
    hide Through, Seen, WithStatus, Realized, Unrealized, Current, Unmarked, Contribution, LacksMark;
    WithheldIffLacking(rows, day);
    ValueIsATotal(rows, day, parts);
  }

  function Worth(db: Tables, day: int): SignalId -> real {
    id => WorthOn(db, id, day)
  }

  /** Withheld for want of a mark, or else the sum over all lots of what each was worth that day. */
  ghost predicate IsMarkToMarket(db: Tables, p: CurvePoint) {
    && (p.withheld <==> exists id :: Unpriced(db, id, p.date))
    && (!p.withheld ==> p.value == Some(Total(LotIds(db.rows), Worth(db, p.date))))
  }

  /**
   * Mark to market. In settled books a day's point is withheld exactly when some lot opened by the end of
   * that day, and not closed by then, has no mark for it; otherwise the point is the sum, over all lots
   * opened by then, of exit price (if closed by then) or that day's mark, minus entry, times size.
   */
  lemma MarkToMarket(b: Books, day: int)
    requires BooksSettled(b) && KnownRows(b.db)
    ensures Point(ListAllRows(b.db), day).date == day && IsMarkToMarket(b.db, Point(ListAllRows(b.db), day))
  {
    hide BooksSettled, ListAllRows, Point, Seen, Contribution, LacksMark, WorthOn, Latest, Through;
    var rows, worth := ListAllRows(b.db), Worth(b.db, day);
    forall id
      ensures worth(id) == Contribution(rows, day, id)
      ensures LacksMark(rows, day, id) <==> Unpriced(b.db, id, day)
      ensures id in LotIds(b.db.rows) <==> RowsOf(b.db.rows, id) != []
      ensures Latest(Through(rows, day), id).Some? <==> OpenedBy(RowsOf(b.db.rows, id), day)
    {
      if id in b.db.signals { OneLotOnOneDay(b, id, day); } else { NoLotNoWorth(b, id, day); }
      InLotIds(b.db.rows, id);
    }
    PointIsATotal(rows, day, worth);
    HeldIffSeen(Through(rows, day));
    InLotIds(b.db.rows, 0);
    forall id | worth(id) != 0.0 ensures OpenedBy(RowsOf(b.db.rows, id), day) {
      WorthNeedsALot(b.db, id, day);
    }
    TotalSame(Seen(Through(rows, day)), LotIds(b.db.rows), worth);
  }

  lemma WorthNeedsALot(db: Tables, id: SignalId, day: int)
    requires WorthOn(db, id, day) != 0.0
    ensures OpenedBy(RowsOf(db.rows, id), day)
  {
  }

  lemma NoLotNoWorth(b: Books, id: SignalId, day: int)
    requires KnownRows(b.db) && id !in b.db.signals
    ensures var rows := ListAllRows(b.db);
            && RowsOf(b.db.rows, id) == [] && Latest(Through(rows, day), id) == None
            && WorthOn(b.db, id, day) == Contribution(rows, day, id) && !LacksMark(rows, day, id) && !Unpriced(b.db, id, day)
  {
    NoRows(b.db.rows, id);
    hide Latest, Through, ListAllRows, RowsOf;
    HeldByDay(b.db, id, day);
  }

  lemma SoundKnowsItsRows(b: Books)
    requires BooksSound(b)
    ensures KnownRows(b.db)
  {
  }

  /** The curve published after a run of the jobs. */
  function CurveAfter(clock: int, jobs: seq<(Job, int)>, draw: Draw): seq<CurvePoint>
    requires DrawsEnough(draw)
  {
    LotRuns.InitSound(clock);
    RunKeeps(Books(EMPTY, clock), jobs, draw);
    SoundKnowsItsRows(RunJobs(Books(EMPTY, clock), jobs, draw));
    Curve(ListAllRows(RunJobs(Books(EMPTY, clock), jobs, draw).db))
  }

  /**
   * In every run of the jobs whose sells all come after the lots they close, whatever ids are drawn, every
   * point of the curve is the mark-to-market of the lots.
   */
  lemma CurveIsMarkToMarket(clock: int, jobs: seq<(Job, int)>, draw: Draw, i: nat)
    requires DrawsEnough(draw) && AlwaysLater(Books(EMPTY, clock), jobs, draw)
    requires i < |CurveAfter(clock, jobs, draw)|
    ensures IsMarkToMarket(RunJobs(Books(EMPTY, clock), jobs, draw).db, CurveAfter(clock, jobs, draw)[i])
  {
    hide RunJobs, ListAllRows, Days, IsMarkToMarket, AlwaysLater;
    LotRuns.InitSound(clock);
    RunKeeps(Books(EMPTY, clock), jobs, draw);
    var b := RunJobs(Books(EMPTY, clock), jobs, draw);
    SoundKnowsItsRows(b);
    MarkToMarket(b, Days(ListAllRows(b.db))[i]);
  }
}
