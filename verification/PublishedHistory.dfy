/** Published history is stable, and agrees with the ledger. */
module PublishedHistory {
  import opened Prelude
  import opened Ledger
  import opened Lots
  import opened LotsLaws
  import opened Sums
  import opened Stats
  import AscendingInts
  import Ordering

  // ---- A point reads only the rows recorded by its day -----------------------------------

  lemma {:induction false} ThroughTwice(rows: seq<StatRow>, d: int, date: int)
    requires date <= d
    ensures Through(Through(rows, d), date) == Through(rows, date)
  {
    if rows == [] {
    } else {
      var front, last := rows[..|rows| - 1], rows[|rows| - 1];
      ThroughTwice(front, d, date);
      if Day(last.recordedAt) <= d {
        assert (Through(front, d) + [last])[..|Through(front, d)|] == Through(front, d);
      } else {
        assert Through(rows, d) == Through(front, d);
      }
    }
  }

  lemma {:induction false} MarkReadsThrough(rows: seq<StatRow>, id: SignalId, day: int, d: int)
    requires day <= d
    ensures MarkToday(rows, id, day) == MarkToday(Through(rows, d), id, day)
  {
    if rows == [] {
    } else {
      var front, last := rows[..|rows| - 1], rows[|rows| - 1];
      MarkReadsThrough(front, id, day, d);
      if Day(last.recordedAt) <= d {
        MarkTodayAppend(Through(front, d), last, id, day);
      } else {
        assert Through(rows, d) == Through(front, d);
      }
    }
  }

  lemma {:induction false} UnrealizedReadsThrough(rows: seq<StatRow>, lots: seq<StatRow>, day: int, d: int)
    requires day <= d
    ensures Unrealized(rows, lots, day) == Unrealized(Through(rows, d), lots, day)
  {
    if lots == [] {
    } else {
      UnrealizedReadsThrough(rows, lots[..|lots| - 1], day, d);
      MarkReadsThrough(rows, lots[|lots| - 1].signalId, day, d);
    }
  }

  lemma PointReadsThrough(rows: seq<StatRow>, date: int, d: int)
    requires date <= d
    ensures Point(rows, date) == Point(Through(rows, d), date)
  {
    hide Current, WithStatus, Realized, Through, MarkToday, Unrealized;
    ThroughTwice(rows, d, date);
    var lots := WithStatus(Current(Through(rows, date)), Open);
    UnrealizedReadsThrough(rows, lots, date, d);
    forall id ensures MarkToday(rows, id, date) == MarkToday(Through(rows, d), id, date) {
      MarkReadsThrough(rows, id, date, d);
    }
  }

  // ---- What had been published by a day --------------------------------------------------

  function PublishedBy(curve: seq<CurvePoint>, d: int): seq<CurvePoint> {
    if curve == [] then []
    else PublishedBy(curve[..|curve| - 1], d) + if curve[|curve| - 1].date <= d then [curve[|curve| - 1]] else []
  }

  lemma {:induction false} PublishedPrefix(curve: seq<CurvePoint>, d: int, k: nat)
    requires k <= |curve|
    requires forall i :: 0 <= i < k ==> curve[i].date <= d
    requires forall i :: k <= i < |curve| ==> curve[i].date > d
    ensures PublishedBy(curve, d) == curve[..k]
  {
    if curve == [] {
    } else {
      var front := curve[..|curve| - 1];
      if k == |curve| {
        PublishedPrefix(front, d, k - 1);
        assert curve[..k] == front[..k - 1] + [curve[k - 1]];
      } else {
        PublishedPrefix(front, d, k);
        assert curve[..k] == front[..k];
      }
    }
  }

  lemma {:induction false} ThroughHas(rows: seq<StatRow>, d: int)
    ensures forall r :: r in Through(rows, d) <==> r in rows && Day(r.recordedAt) <= d
  {
    if rows == [] {
    } else {
      ThroughHas(rows[..|rows| - 1], d);
      assert rows == rows[..|rows| - 1] + [rows[|rows| - 1]];
    }
  }

  lemma DaysHave(rows: seq<StatRow>)
    ensures AscendingInts.StrictlyAscending(Days(rows))
    ensures forall day :: day in Days(rows) <==> exists r :: r in rows && Day(r.recordedAt) == day
  {
    AscendingInts.CollectKeeps(DaysOf(rows));
    forall day | day in Days(rows) ensures exists r :: r in rows && Day(r.recordedAt) == day {
      var i :| 0 <= i < |rows| && DaysOf(rows)[i] == day;
      assert rows[i] in rows;
    }
    forall r | r in rows ensures Day(r.recordedAt) in Days(rows) {
      var i :| 0 <= i < |rows| && rows[i] == r;
      assert DaysOf(rows)[i] == Day(r.recordedAt);
    }
  }

  lemma DaysThrough(rows: seq<StatRow>, d: int)
    ensures var k := AscendingInts.CountThrough(Days(rows), d);
            Days(Through(rows, d)) == Days(rows)[..k]
            && (forall i :: 0 <= i < k ==> Days(rows)[i] <= d) && (forall i :: k <= i < |Days(rows)| ==> Days(rows)[i] > d)
  {
    var days, k := Days(rows), AscendingInts.CountThrough(Days(rows), d);
    DaysHave(rows);
    DaysHave(Through(rows, d));
    ThroughHas(rows, d);
    AscendingInts.CountThroughSplits(days, d);
    forall day ensures day in Days(Through(rows, d)) <==> day in days[..k] {
      if day in days && day <= d {
        var i :| 0 <= i < |days| && days[i] == day;
        assert days[..k][i] == day;
      }
    }
    AscendingInts.ListingUnique(Days(Through(rows, d)), days[..k]);
  }

  /** The curve published by a day is the curve of the rows recorded by that day. */
  lemma CurveByDay(rows: seq<StatRow>, d: int)
    ensures PublishedBy(Curve(rows), d) == Curve(Through(rows, d))
  {
    hide Days, Point;
    var k := AscendingInts.CountThrough(Days(rows), d);
    DaysThrough(rows, d);
    PublishedPrefix(Curve(rows), d, k);
    assert forall i :: 0 <= i < k ==> Days(Through(rows, d))[i] == Days(rows)[i];
    forall i | 0 <= i < k ensures Curve(rows)[i] == Curve(Through(rows, d))[i] {
      PointReadsThrough(rows, Days(rows)[i], d);
    }
  }

  // ---- Later rows change nothing earlier -----------------------------------------------------

  lemma ThroughAppend(rows: seq<StatRow>, r: StatRow, d: int)
    ensures Through(rows + [r], d) == if Day(r.recordedAt) <= d then Through(rows, d) + [r] else Through(rows, d)
  {
    assert (rows + [r])[..|rows|] == rows;
  }

  lemma {:induction false} PlaceLater(rows: seq<StatRow>, r: StatRow, d: int)
    requires Day(r.recordedAt) > d
    ensures Through(Ordering.Place(rows, r, RowTime), d) == Through(rows, d)
  {
    hide Through, Day;
    if rows == [] || !KeyLess(RowTime(r), RowTime(rows[|rows| - 1])) {
      ThroughAppend(rows, r, d);
    } else {
      hide Ordering.Place;
      var front, last := rows[..|rows| - 1], rows[|rows| - 1];
      assert rows == front + [last];
      PlaceLater(front, r, d);
      Ordering.PlaceInside(front, last, r, RowTime);
      ThroughAppend(Ordering.Place(front, r, RowTime), last, d);
      ThroughAppend(front, last, d);
    }
  }

  lemma {:induction false} SortLater(rows: seq<StatRow>, more: seq<StatRow>, d: int)
    requires forall i :: 0 <= i < |more| ==> Day(more[i].recordedAt) > d
    ensures Through(Ordering.Sort(rows + more, RowTime), d) == Through(Ordering.Sort(rows, RowTime), d)
  {
    hide Through, Day, Ordering.Sort, Ordering.Place;
    if more == [] {
      assert rows + more == rows;
    } else {
      var front, last := more[..|more| - 1], more[|more| - 1];
      assert rows + more == (rows + front) + [last];
      SortLater(rows, front, d);
      Ordering.SortAppend(rows + front, last, RowTime);
      PlaceLater(Ordering.Sort(rows + front, RowTime), last, d);
    }
  }

  /**
   * Published history is stable: rows appended for later days change nothing of the curve already
   * published by `d`, points withheld included.
   */
  lemma PublishedHistoryIsStable(db: Tables, db': Tables, d: int)
    requires KnownRows(db) && KnownRows(db') && db.rows <= db'.rows
    requires forall r :: r in db.rows ==> db'.signals[r.signalId].quantity == db.signals[r.signalId].quantity
    requires forall i :: |db.rows| <= i < |db'.rows| ==> Day(db'.rows[i].recordedAt) > d
    ensures PublishedBy(Curve(ListAllRows(db')), d) == PublishedBy(Curve(ListAllRows(db)), d)
  {
    hide Curve, Through, Day, PublishedBy;
    var later := db'.rows[|db.rows|..];
    assert db'.rows == db.rows + later;
    forall i | 0 <= i < |later| ensures later[i] in db'.rows && Day(later[i].recordedAt) > d {
      assert later[i] == db'.rows[|db.rows| + i];
    }
    forall i | 0 <= i < |db.rows| ensures Sized(db', db.rows[i]) == Sized(db, db.rows[i]) {
      assert db.rows[i] in db.rows && db.rows[i] == db'.rows[i];
    }
    assert SizedAll(db', db'.rows) == SizedAll(db, db.rows) + SizedAll(db', later);
    SortLater(SizedAll(db, db.rows), SizedAll(db', later), d);
    CurveByDay(ListAllRows(db'), d);
    CurveByDay(ListAllRows(db), d);
  }

  // ---- The fold and the newest-row query select the same row ------------------------------------

  /** Row ids are primary keys. */
  ghost predicate DistinctRowIds(rows: seq<Row>) {
    forall i, j :: 0 <= i < j < |rows| ==> rows[i].id != rows[j].id
  }

  lemma {:induction false} LatestIsNewest(rows: seq<StatRow>, id: SignalId)
    requires Ordering.Ascending(rows, RowTime)
    ensures Latest(rows, id).Some? <==> exists r :: r in rows && r.signalId == id
    ensures Latest(rows, id).Some? ==>
              var l := Latest(rows, id).value;
              l in rows && l.signalId == id && forall r :: r in rows && r.signalId == id ==> !KeyLess(RowKey(l), RowKey(r))
  {
    if rows == [] {
    } else {
      var front, last := rows[..|rows| - 1], rows[|rows| - 1];
      assert rows == front + [last];
      LatestIsNewest(front, id);
      forall r | r in front ensures !KeyLess(RowKey(last), RowKey(r)) {
        var i :| 0 <= i < |front| && front[i] == r;
        assert !KeyLess(RowTime(rows[|rows| - 1]), RowTime(rows[i]));
      }
    }
  }

  lemma ListedRows(db: Tables)
    requires KnownRows(db)
    ensures Ordering.Ascending(ListAllRows(db), RowTime)
    ensures forall r :: r in db.rows ==> Sized(db, r) in ListAllRows(db)
    ensures forall l :: l in ListAllRows(db) ==> exists r :: r in db.rows && Sized(db, r) == l
  {
    var sized, rows := SizedAll(db, db.rows), ListAllRows(db);
    Ordering.SortKeeps(sized, RowTime);
    forall r ensures r in rows <==> r in sized {
      assert r in rows <==> r in multiset(rows);
      assert r in sized <==> r in multiset(sized);
    }
    forall r | r in db.rows ensures Sized(db, r) in rows {
      var i :| 0 <= i < |db.rows| && db.rows[i] == r;
      assert sized[i] in sized;
    }
    forall l | l in rows ensures exists r :: r in db.rows && Sized(db, r) == l {
      var j :| 0 <= j < |sized| && sized[j] == l;
      assert db.rows[j] in db.rows;
    }
  }

  lemma SameRow(rows: seq<Row>, r: Row, q: Row)
    requires DistinctRowIds(rows) && r in rows && q in rows && r.id == q.id
    ensures r == q
  {
    var i :| 0 <= i < |rows| && rows[i] == r;
    var j :| 0 <= j < |rows| && rows[j] == q;
    assert i == j;
  }

  /** On the sorted listing, the row `computeTrackRecord` holds for a signal is its newest row. */
  lemma FoldAgreesWithNewest(db: Tables, id: SignalId)
    requires KnownRows(db) && DistinctRowIds(db.rows)
    ensures var n, l := Newest(db.rows, id), Latest(ListAllRows(db), id);
            (n == None <==> l == None) && (n.Some? ==> l == Some(Sized(db, n.value)))
  {
    hide ListAllRows, DistinctRowIds, Newest, Latest;
    ListedRows(db);
    LatestIsNewest(ListAllRows(db), id);
    NewestIsNewest(db.rows, id);
    var n, l := Newest(db.rows, id), Latest(ListAllRows(db), id);
    if n.Some? { assert Sized(db, n.value) in ListAllRows(db); }
    if l.Some? {
      var r :| r in db.rows && Sized(db, r) == l.value;
      assert n.Some?;
      SameRow(db.rows, r, n.value);
    }
  }

  // ---- The counts agree -------------------------------------------------------------------------

  function IsOne(rows: seq<StatRow>, status: LotStatus): SignalId -> real {
    id => if Latest(rows, id).Some? && Latest(rows, id).value.status == status then 1.0 else 0.0
  }

  lemma {:induction false} CountStatus(rows: seq<StatRow>, ids: seq<SignalId>, status: LotStatus)
    ensures |WithStatus(LatestOf(rows, ids), status)| as real == Total(ids, IsOne(rows, status))
  {
    if ids == [] {
    } else {
      var front, last := ids[..|ids| - 1], ids[|ids| - 1];
      CountStatus(rows, front, status);
      var held := LatestOf(rows, front);
      if Latest(rows, last).Some? {
        var l := Latest(rows, last).value;
        assert (held + [l])[..|held|] == held;
      } else {
        assert LatestOf(rows, ids) == held;
      }
    }
  }

  lemma {:induction false} CountOpen(db: Tables, ids: seq<SignalId>, one: SignalId -> real)
    requires forall id :: one(id) == if IsOpen(db, id) then 1.0 else 0.0
    ensures |OpenAmong(db, ids)| as real == Total(ids, one)
  {
    if ids == [] {
    } else {
      CountOpen(db, ids[..|ids| - 1], one);
    }
  }

  lemma {:induction false} CountAll(ids: seq<SignalId>)
    ensures Total(ids, _ => 1.0) == |ids| as real
  {
    if ids == [] {
    } else {
      CountAll(ids[..|ids| - 1]);
      TotalCongruent(ids[..|ids| - 1], _ => 1.0, _ => 1.0);
    }
  }

  lemma {:induction false} StatusSplits(rows: seq<StatRow>)
    ensures |WithStatus(rows, Open)| + |WithStatus(rows, Closed)| == |rows|
  {
    if rows == [] {
    } else {
      StatusSplits(rows[..|rows| - 1]);
    }
  }

  lemma {:induction false} AllHeld(rows: seq<StatRow>, ids: seq<SignalId>)
    requires forall id :: id in ids ==> Latest(rows, id).Some?
    ensures |LatestOf(rows, ids)| == |ids|
  {
    if ids == [] {
    } else {
      var front, last := ids[..|ids| - 1], ids[|ids| - 1];
      assert ids == front + [last];
      AllHeld(rows, front);
    }
  }

  lemma SeenAreLots(db: Tables)
    requires KnownRows(db) && DistinctRowIds(db.rows)
    ensures Distinct(Seen(ListAllRows(db))) && Distinct(LotIds(db.rows))
    ensures forall id :: id in Seen(ListAllRows(db)) <==> id in LotIds(db.rows)
    ensures forall id :: id in LotIds(db.rows) <==> Newest(db.rows, id).Some?
  {
    hide ListAllRows, DistinctRowIds, LotIds;
    HeldIffSeen(ListAllRows(db));
    InLotIds(db.rows, 0);
    forall id
      ensures id in Seen(ListAllRows(db)) <==> id in LotIds(db.rows)
      ensures id in LotIds(db.rows) <==> Newest(db.rows, id).Some?
    {
      FoldAgreesWithNewest(db, id);
      InLotIds(db.rows, id);
      NewestIsNewest(db.rows, id);
      if RowsOf(db.rows, id) != [] { assert RowsOf(db.rows, id)[0] in db.rows; }
      if Newest(db.rows, id).Some? { RowsOfHas(db.rows, Newest(db.rows, id).value); }
    }
  }

  /** The published counts: positions open are the lots listed open, and with the closed ones all lots there are. */
  lemma CountsAgree(db: Tables)
    requires KnownRows(db) && DistinctRowIds(db.rows)
    ensures var current := Current(ListAllRows(db));
            && |WithStatus(current, Open)| == |ListOpenLots(db)|
            && |WithStatus(current, Closed)| + |WithStatus(current, Open)| == |LotIds(db.rows)|
  {
    hide ListAllRows, DistinctRowIds, LotIds, Latest, Newest, Seen;
    var rows := ListAllRows(db);
    var seen, ids := Seen(rows), LotIds(db.rows);
    SeenAreLots(db);
    forall id ensures IsOne(rows, Open)(id) == if IsOpen(db, id) then 1.0 else 0.0 {
      FoldAgreesWithNewest(db, id);
    }
    CountStatus(rows, seen, Open);
    CountOpen(db, ids, IsOne(rows, Open));
    TotalSame(seen, ids, IsOne(rows, Open));
    StatusSplits(Current(rows));
    HeldIffSeen(rows);
    AllHeld(rows, seen);
    SameLength(seen, ids);
  }

  lemma SameLength(xs: seq<SignalId>, ys: seq<SignalId>)
    requires Distinct(xs) && Distinct(ys) && forall id :: id in xs <==> id in ys
    ensures |xs| == |ys|
  {
    CountAll(xs);
    CountAll(ys);
    var one: SignalId -> real := _ => 1.0;
    TotalSame(xs, ys, one);
    TotalCongruent(xs, one, _ => 1.0);
    TotalCongruent(ys, one, _ => 1.0);
  }
}
