/** The published numbers, as one function of the rows (backend/src/orchestrator/trackRecordStats.ts). */
module Stats {
  import opened Prelude
  import opened Ledger
  import opened Lots
  import AscendingInts
  import Ordering

  /** A row as it is published: always with the lot's size. */
  type StatRow = r: Row | r.quantity.Some? witness Row(0, 0, 0.0, None, None, None, None, None, Some(0.0), Open, 0)

  /** `withheld` when a lot open at the end of the day had no mark for it. */
  datatype CurvePoint = CurvePoint(date: int, value: Option<real>, withheld: bool)

  datatype TrackRecordStats = TrackRecordStats(
    closedTrades: nat, openPositions: nat, wins: nat, winRate: Option<real>, averageReturn: Option<real>,
    totalRealizedPnl: real, curve: seq<CurvePoint>)

  function OrZero(x: Option<real>): real {
    if x.Some? then x.value else 0.0
  }

  // ---- What the rows say now ------------------------------------------------------------

  /** The signals in the order the rows first mention them. */
  function Seen(rows: seq<StatRow>): seq<SignalId> {
    if rows == [] then []
    else
      var before, id := Seen(rows[..|rows| - 1]), rows[|rows| - 1].signalId;
      if id in before then before else before + [id]
  }

  /** The row the fold ends up holding for a signal: a row no older replaces the one held. */
  function Latest(rows: seq<StatRow>, id: SignalId): Option<StatRow> {
    if rows == [] then None
    else
      var held, row := Latest(rows[..|rows| - 1], id), rows[|rows| - 1];
      if row.signalId == id && (held == None || row.recordedAt >= held.value.recordedAt) then Some(row) else held
  }

  function LatestOf(rows: seq<StatRow>, ids: seq<SignalId>): seq<StatRow> {
    if ids == [] then []
    else
      var row := Latest(rows, ids[|ids| - 1]);
      LatestOf(rows, ids[..|ids| - 1]) + if row.Some? then [row.value] else []
  }

  /** One row per signal. */
  function Current(rows: seq<StatRow>): seq<StatRow> {
    LatestOf(rows, Seen(rows))
  }

  lemma SeenAppend(rows: seq<StatRow>, row: StatRow)
    ensures Seen(rows + [row]) == if row.signalId in Seen(rows) then Seen(rows) else Seen(rows) + [row.signalId]
  {
    assert (rows + [row])[..|rows|] == rows;
  }

  lemma LatestAppend(rows: seq<StatRow>, row: StatRow, id: SignalId)
    ensures var held := Latest(rows, id);
            Latest(rows + [row], id)
            == if row.signalId == id && (held == None || row.recordedAt >= held.value.recordedAt) then Some(row) else held
  {
    assert (rows + [row])[..|rows|] == rows;
  }

  /** A signal is held exactly when it has been seen. */
  lemma {:induction false} HeldIffSeen(rows: seq<StatRow>)
    ensures forall id :: id in Seen(rows) <==> Latest(rows, id).Some?
    ensures forall i, j :: 0 <= i < j < |Seen(rows)| ==> Seen(rows)[i] != Seen(rows)[j]
  {
    if rows == [] {
    } else {
      HeldIffSeen(rows[..|rows| - 1]);
    }
  }

  /** The map and its insertion order after the rows read so far. */
  ghost predicate Holding(rows: seq<StatRow>, latest: map<SignalId, StatRow>, order: seq<SignalId>) {
    && order == Seen(rows)
    && forall id :: if id in latest then Latest(rows, id) == Some(latest[id]) else Latest(rows, id) == None
  }

  /** Is the row to replace what the map holds for its signal? */
  predicate Replaces(latest: map<SignalId, StatRow>, row: StatRow) {
    row.signalId !in latest || row.recordedAt >= latest[row.signalId].recordedAt
  }

  lemma HoldingOneMore(rows: seq<StatRow>, row: StatRow, latest: map<SignalId, StatRow>, order: seq<SignalId>)
    requires Holding(rows, latest, order)
    ensures Holding(rows + [row], if Replaces(latest, row) then latest[row.signalId := row] else latest,
                    if row.signalId in latest then order else order + [row.signalId])
  {
    hide Latest, Seen;
    SeenAppend(rows, row);
    HeldIffSeen(rows);
    forall id ensures Latest(rows + [row], id)
                      == if row.signalId == id && (Latest(rows, id) == None || row.recordedAt >= Latest(rows, id).value.recordedAt)
                         then Some(row) else Latest(rows, id)
    {
      LatestAppend(rows, row, id);
    }
  }

  /** The loop both computations share: a map keyed by signal, read out in insertion order. */
  method LatestPerSignal(rows: seq<StatRow>) returns (current: seq<StatRow>)
    ensures current == Current(rows)
  {
    hide Latest;
    var latest: map<SignalId, StatRow>, order: seq<SignalId> := map[], [];
    HoldingNothing();
    for i := 0 to |rows|
      invariant Holding(rows[..i], latest, order)
    {
      assert rows[..i + 1] == rows[..i] + [rows[i]];
      HoldingOneMore(rows[..i], rows[i], latest, order);
      if rows[i].signalId !in latest { order := order + [rows[i].signalId]; }
      if Replaces(latest, rows[i]) { latest := latest[rows[i].signalId := rows[i]]; }
    }
    assert rows[..|rows|] == rows;
    current := [];
    for k := 0 to |order|
      invariant current == LatestOf(rows, order[..k])
    {
      assert order[..k + 1][..k] == order[..k];
      SeenIsHeld(rows, latest, order, k);
      current := current + [latest[order[k]]];
    }
    assert order[..|order|] == order;
  }

  lemma SeenIsHeld(rows: seq<StatRow>, latest: map<SignalId, StatRow>, order: seq<SignalId>, k: nat)
    requires Holding(rows, latest, order) && k < |order|
    ensures order[k] in latest && Latest(rows, order[k]) == Some(latest[order[k]])
  {
    HeldIffSeen(rows);
    assert order[k] in Seen(rows);
  }

  lemma HoldingNothing()
    ensures Holding([], map[], [])
  {
  }

  function WithStatus(rows: seq<StatRow>, status: LotStatus): seq<StatRow> {
    if rows == [] then []
    else WithStatus(rows[..|rows| - 1], status) + if rows[|rows| - 1].status == status then [rows[|rows| - 1]] else []
  }

  // ---- The curve ------------------------------------------------------------------------

  function DaysOf(rows: seq<StatRow>): (days: seq<int>)
    ensures |days| == |rows| && forall i :: 0 <= i < |days| ==> days[i] == Day(rows[i].recordedAt)
  {
    seq(|rows|, i requires 0 <= i < |rows| => Day(rows[i].recordedAt))
  }

  /** The days on which something was recorded. */
  function Days(rows: seq<StatRow>): seq<int> {
    AscendingInts.Collect(DaysOf(rows))
  }

  /** The rows recorded by the end of a day. */
  function Through(rows: seq<StatRow>, day: int): (r: seq<StatRow>)
    ensures |r| <= |rows| && forall x :: x in r ==> x in rows
  {
    if rows == [] then []
    else Through(rows[..|rows| - 1], day) + if Day(rows[|rows| - 1].recordedAt) <= day then [rows[|rows| - 1]] else []
  }

  /** What the day's last mark of a signal was worth. */
  function MarkToday(rows: seq<StatRow>, id: SignalId, day: int): Option<real> {
    if rows == [] then None
    else
      var row := rows[|rows| - 1];
      if row.signalId == id && row.markPrice.Some? && Day(row.recordedAt) == day then Some(OrZero(row.unrealizedPnl))
      else MarkToday(rows[..|rows| - 1], id, day)
  }

  function Realized(rows: seq<StatRow>): real {
    if rows == [] then 0.0 else Realized(rows[..|rows| - 1]) + OrZero(rows[|rows| - 1].realizedPnl)
  }

  function Unrealized(rows: seq<StatRow>, lots: seq<StatRow>, day: int): real {
    if lots == [] then 0.0
    else Unrealized(rows, lots[..|lots| - 1], day) + OrZero(MarkToday(rows, lots[|lots| - 1].signalId, day))
  }

  predicate Unmarked(rows: seq<StatRow>, lots: seq<StatRow>, day: int) {
    exists i :: 0 <= i < |lots| && MarkToday(rows, lots[i].signalId, day) == None
  }

  function Point(rows: seq<StatRow>, day: int): (p: CurvePoint)
    ensures p.date == day && (p.withheld <==> p.value == None)
  {
    var asOf := Current(Through(rows, day));
    var lots := WithStatus(asOf, Open);
    if Unmarked(rows, lots, day) then CurvePoint(day, None, true)
    else CurvePoint(day, Some(Realized(WithStatus(asOf, Closed)) + Unrealized(rows, lots, day)), false)
  }

  function Curve(rows: seq<StatRow>): (curve: seq<CurvePoint>)
    ensures |curve| == |Days(rows)| && forall i :: 0 <= i < |curve| ==> curve[i] == Point(rows, Days(rows)[i])
  {
    seq(|Days(rows)|, i requires 0 <= i < |Days(rows)| => Point(rows, Days(rows)[i]))
  }

  lemma MarkTodayAppend(rows: seq<StatRow>, row: StatRow, id: SignalId, day: int)
    ensures MarkToday(rows + [row], id, day)
            == if row.signalId == id && row.markPrice.Some? && Day(row.recordedAt) == day
               then Some(OrZero(row.unrealizedPnl)) else MarkToday(rows, id, day)
  {
    assert (rows + [row])[..|rows|] == rows;
  }

  method MarksToday(rows: seq<StatRow>, day: int) returns (marks: map<SignalId, real>)
    ensures forall id :: (id in marks <==> MarkToday(rows, id, day).Some?)
                         && (id in marks ==> MarkToday(rows, id, day) == Some(marks[id]))
  {
    marks := map[];
    for i := 0 to |rows|
      invariant forall id :: (id in marks <==> MarkToday(rows[..i], id, day).Some?)
                             && (id in marks ==> MarkToday(rows[..i], id, day) == Some(marks[id]))
    {
      var row := rows[i];
      assert rows[..i + 1] == rows[..i] + [row];
      forall id ensures MarkToday(rows[..i + 1], id, day)
                        == if row.signalId == id && row.markPrice.Some? && Day(row.recordedAt) == day
                           then Some(OrZero(row.unrealizedPnl)) else MarkToday(rows[..i], id, day)
      {
        MarkTodayAppend(rows[..i], row, id, day);
      }
      if row.markPrice.Some? && Day(row.recordedAt) == day {
        marks := marks[row.signalId := OrZero(row.unrealizedPnl)];
      }
    }
    assert rows[..|rows|] == rows;
  }

  /** `buildCurve`. */
  method BuildCurve(rows: seq<StatRow>) returns (curve: seq<CurvePoint>)
    ensures curve == Curve(rows)
  {
    hide Current, WithStatus, Realized, Through, MarkToday, Days;
    var days := Days(rows);
    curve := [];
    for d := 0 to |days|
      invariant |curve| == d && forall i :: 0 <= i < d ==> curve[i] == Point(rows, days[i])
    {
      var asOf := LatestPerSignal(Through(rows, days[d]));
      var lots := WithStatus(asOf, Open);
      var marks := MarksToday(rows, days[d]);
      if exists i :: 0 <= i < |lots| && lots[i].signalId !in marks {
        assert Unmarked(rows, lots, days[d]);
        curve := curve + [CurvePoint(days[d], None, true)];
      } else {
        var unrealized := 0.0;
        for k := 0 to |lots|
          invariant unrealized == Unrealized(rows, lots[..k], days[d])
        {
          assert lots[..k + 1][..k] == lots[..k];
          unrealized := unrealized + marks[lots[k].signalId];
        }
        assert lots[..|lots|] == lots;
        curve := curve + [CurvePoint(days[d], Some(Realized(WithStatus(asOf, Closed)) + unrealized), false)];
      }
    }
  }

  // ---- The totals -----------------------------------------------------------------------

  function Wins(rows: seq<StatRow>): (n: nat)
    ensures n <= |rows|
  {
    if rows == [] then 0 else Wins(rows[..|rows| - 1]) + if OrZero(rows[|rows| - 1].realizedPnl) > 0.0 then 1 else 0
  }

  function Returns(rows: seq<StatRow>): real {
    if rows == [] then 0.0
    else
      var row := rows[|rows| - 1];
      var basis := row.entryPrice * row.quantity.value;
      Returns(rows[..|rows| - 1]) + if basis == 0.0 then 0.0 else OrZero(row.realizedPnl) / basis
  }

  function Average(total: real, n: nat): Option<real> {
    if n == 0 then None else Some(total / n as real)
  }

  /** `computeTrackRecord`. */
  method ComputeTrackRecord(rows: seq<StatRow>) returns (stats: TrackRecordStats)
    ensures var closed := WithStatus(Current(rows), Closed);
            && stats.closedTrades == |closed| && stats.openPositions == |WithStatus(Current(rows), Open)|
            && stats.wins == Wins(closed) && stats.totalRealizedPnl == Realized(closed)
            && stats.winRate == Average(Wins(closed) as real, |closed|)
            && stats.averageReturn == Average(Returns(closed), |closed|)
            && stats.curve == Curve(rows)
  {
    var current := LatestPerSignal(rows);
    var closed, open := WithStatus(current, Closed), WithStatus(current, Open);
    var curve := BuildCurve(rows);
    stats := TrackRecordStats(|closed|, |open|, Wins(closed), Average(Wins(closed) as real, |closed|),
                              Average(Returns(closed), |closed|), Realized(closed), curve);
  }

  // ---- The listing they are computed from -------------------------------------------------

  /** Every row belongs to a signal, as the schema's foreign key demands. */
  ghost predicate KnownRows(db: Tables) {
    forall r :: r in db.rows ==> r.signalId in db.signals
  }

  function Sized(db: Tables, r: Row): StatRow
    requires r.signalId in db.signals
  {
    r.(quantity := Some(SizeOf(db, r)))
  }

  function SizedAll(db: Tables, rows: seq<Row>): (rs: seq<StatRow>)
    requires forall r :: r in rows ==> r.signalId in db.signals
    ensures |rs| == |rows| && forall i :: 0 <= i < |rs| ==> rs[i] == Sized(db, rows[i])
  {
    seq(|rows|, i requires 0 <= i < |rows| => Sized(db, rows[i]))
  }

  function RowTime(r: StatRow): Key {
    RowKey(r)
  }

  /** `listAllTrackRecordRows`: every row with its lot's size, oldest first. */
  function ListAllRows(db: Tables): seq<StatRow>
    requires KnownRows(db)
  {
    Ordering.Sort(SizedAll(db, db.rows), RowTime)
  }
}
