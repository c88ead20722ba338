/** Lots as append-only rows, newest row wins (backend/src/db/trackRecord.ts, executor.ts). */
module Lots {
  import opened Prelude
  import opened Ledger
  import Ordering
  import AscendingInts

  /** The ids the database draws for the next rows, as many as it is asked for. */
  type Draw = (seq<Row>, nat) -> seq<RowId>

  ghost predicate DrawsEnough(draw: Draw) {
    forall rows, n: nat :: |draw(rows, n)| == n
  }

  /** Rows are ordered by when they were recorded, then by their id. */
  function RowKey(r: Row): Key {
    (r.recordedAt, r.id)
  }

  /** The newest row of a signal. */
  function Newest(rows: seq<Row>, id: SignalId): (r: Option<Row>)
    ensures r.Some? ==> r.value in rows && r.value.signalId == id
  {
    if rows == [] then None
    else
      var earlier, last := Newest(rows[..|rows| - 1], id), rows[|rows| - 1];
      if last.signalId == id && (earlier == None || KeyLess(RowKey(earlier.value), RowKey(last))) then Some(last)
      else earlier
  }

  function RowIdsOf(rows: seq<Row>): (ids: seq<SignalId>)
    ensures |ids| == |rows| && forall i :: 0 <= i < |ids| ==> ids[i] == rows[i].signalId
  {
    seq(|rows|, i requires 0 <= i < |rows| => rows[i].signalId)
  }

  /** The signals with a lot, in id order. */
  function LotIds(rows: seq<Row>): seq<SignalId> {
    AscendingInts.Collect(RowIdsOf(rows))
  }

  datatype OpenLot = OpenLot(
    signalId: SignalId, symbol: Symbol, quantity: real, overridden: bool, entryPrice: real, recordedAt: int)

  /** A row's own size when it carries one, else its signal's. */
  function SizeOf(db: Tables, r: Row): real
    requires r.signalId in db.signals
  {
    if r.quantity.Some? then r.quantity.value else db.signals[r.signalId].quantity
  }

  predicate IsOpen(db: Tables, id: SignalId) {
    id in db.signals && Newest(db.rows, id).Some? && Newest(db.rows, id).value.status == Open
  }

  function LotOf(db: Tables, id: SignalId): OpenLot
    requires IsOpen(db, id)
  {
    var r := Newest(db.rows, id).value;
    OpenLot(id, db.signals[id].symbol, SizeOf(db, r), r.quantity.Some?, r.entryPrice, r.recordedAt)
  }

  function OpenAmong(db: Tables, ids: seq<SignalId>): seq<OpenLot> {
    if ids == [] then []
    else OpenAmong(db, ids[..|ids| - 1]) + if IsOpen(db, ids[|ids| - 1]) then [LotOf(db, ids[|ids| - 1])] else []
  }

  /** `listOpenLots`: the newest row per signal first, then only those still open. */
  function ListOpenLots(db: Tables): seq<OpenLot> {
    OpenAmong(db, LotIds(db.rows))
  }

  function OfSymbol(lots: seq<OpenLot>, s: Symbol): seq<OpenLot> {
    if lots == [] then []
    else OfSymbol(lots[..|lots| - 1], s) + if lots[|lots| - 1].symbol == s then [lots[|lots| - 1]] else []
  }

  function OpenLotsForSymbol(db: Tables, s: Symbol): seq<OpenLot> {
    OfSymbol(ListOpenLots(db), s)
  }

  function TimeKey(l: OpenLot): Key {
    (l.recordedAt, 0)
  }

  /** The leading lots whose sizes fit, one after another, into what is left of `wanted`. */
  function Fitting(lots: seq<OpenLot>, running: real, wanted: real): seq<OpenLot> {
    if lots == [] || running + lots[0].quantity > wanted then []
    else [lots[0]] + Fitting(lots[1..], running + lots[0].quantity, wanted)
  }

  function Queue(db: Tables, s: Symbol): seq<OpenLot> {
    Ordering.Sort(OpenLotsForSymbol(db, s), TimeKey)
  }

  function IdsOf(lots: seq<OpenLot>): (ids: seq<SignalId>)
    ensures |ids| == |lots| && forall i :: 0 <= i < |ids| ==> ids[i] == lots[i].signalId
  {
    seq(|lots|, i requires 0 <= i < |lots| => lots[i].signalId)
  }

  /** `selectLotsToClose`: the lots a sell of `quantity` shares consumes. */
  function SelectLots(db: Tables, s: Symbol, quantity: real): seq<SignalId> {
    IdsOf(Fitting(Queue(db, s), 0.0, quantity))
  }

  /** What a lot of `size` shares gains from `entry` to `price`. */
  function Gain(price: real, entry: real, size: real): real {
    (price - entry) * size
  }

  /** One lot's closing row, or nothing when the lot is not open. */
  function ClosingRow(db: Tables, id: SignalId, exit: real, closedBy: SignalId, now: int, rowId: RowId): Option<Row> {
    if !IsOpen(db, id) then None
    else
      var latest := Newest(db.rows, id).value;
      Some(Row(rowId, id, latest.entryPrice, Some(exit), Some(Gain(exit, latest.entryPrice, SizeOf(db, latest))),
               None, None, Some(closedBy), latest.quantity, Closed, now))
  }

  /** `closeLots`: one transaction that closes every listed lot or changes nothing. */
  function CloseLots(db: Tables, ids: seq<SignalId>, exit: real, closedBy: SignalId, now: int, rowIds: seq<RowId>): Option<Tables>
    requires |rowIds| == |ids|
    decreases |ids|
  {
    if ids == [] then Some(db)
    else
      var row := ClosingRow(db, ids[0], exit, closedBy, now, rowIds[0]);
      if row == None then None
      else CloseLots(AppendRow(db, row.value), ids[1..], exit, closedBy, now, rowIds[1..])
  }

  /** The row a bought lot opens with; it carries a size only when the fill differs from the signal. */
  function OpeningRow(db: Tables, id: SignalId, price: real, quantity: real, now: int, rowId: RowId): Row
    requires id in db.signals
  {
    Row(rowId, id, price, None, None, None, None, None,
        if quantity == db.signals[id].quantity then None else Some(quantity), Open, now)
  }

  // ---- Marking ------------------------------------------------------------------------

  /** The UTC calendar day of an instant in milliseconds. */
  function Day(time: int): int {
    time / 86_400_000
  }

  /** The lot has a mark recorded on that day. */
  predicate MarkedOn(rows: seq<Row>, id: SignalId, day: int) {
    exists i :: 0 <= i < |rows| && rows[i].signalId == id && rows[i].markPrice.Some? && Day(rows[i].recordedAt) == day
  }

  /** `hasMarkForDay`. */
  predicate HasMarkForDay(rows: seq<Row>, id: SignalId, now: int) {
    MarkedOn(rows, id, Day(now))
  }

  function MarkRow(lot: OpenLot, price: real, now: int, rowId: RowId): Row {
    Row(rowId, lot.signalId, lot.entryPrice, None, None, Some(Gain(price, lot.entryPrice, lot.quantity)), Some(price), None,
        if lot.overridden then Some(lot.quantity) else None, Open, now)
  }

  predicate Marks(db: Tables, lot: OpenLot, quotes: map<Symbol, real>, now: int) {
    lot.symbol in quotes && !HasMarkForDay(db.rows, lot.signalId, now)
  }

  function MarkLot(db: Tables, lot: OpenLot, quotes: map<Symbol, real>, now: int, rowId: RowId): Tables {
    if Marks(db, lot, quotes, now) then AppendRow(db, MarkRow(lot, quotes[lot.symbol], now, rowId)) else db
  }

  /** `runMarkToMarket`, once the lots are listed and the quotes fetched. */
  function MarkLots(db: Tables, lots: seq<OpenLot>, quotes: map<Symbol, real>, now: int, rowIds: seq<RowId>): Tables
    requires |rowIds| == |lots|
  {
    if lots == [] then db
    else
      var n := |lots| - 1;
      MarkLot(MarkLots(db, lots[..n], quotes, now, rowIds[..n]), lots[n], quotes, now, rowIds[n])
  }
}
