/**
 * The tables, and every statement the program runs against them as one atomic function
 * (backend/src/db, with the schema's uniqueness rules).
 */
module Ledger {
  import opened Prelude
  import opened Money

  type SignalId = int
  type OrderId = int
  type RowId = int

  datatype Mode = Paper | Live

  datatype Status = Pending | Approved | Rejected | Expired

  datatype Signal = Signal(
    symbol: Symbol, side: Side, quantity: real, mode: Mode, estimatedPrice: real, dedupeKey: int,
    createdAt: int, autoDecideAt: Option<int>,
    status: Status, decidedAt: Option<int>, published: bool, publishedAt: Option<int>)

  /** What is known of a signal when it is proposed. */
  datatype Draft = Draft(
    symbol: Symbol, side: Side, quantity: real, mode: Mode, estimatedPrice: real, dedupeKey: int, autoDecideAt: Option<int>)

  datatype Event = Event(signalId: SignalId, from: Status, to: Status)

  datatype Execution = Execution(
    signalId: SignalId, mode: Mode, fillPrice: real, quantity: real, filledAt: int, brokerOrderId: Option<OrderId>)

  datatype OrderState = Filled | Cancelled | Refused | Failed | Voided | Working

  /** The broker's view of one order. */
  datatype Report = Report(state: OrderState, quantity: real, price: Option<real>)

  datatype Order = Order(
    signalId: SignalId, report: Report, placedAt: int, lastPolledAt: Option<int>, terminalAt: Option<int>)

  datatype LotStatus = Open | Closed

  datatype Row = Row(
    id: RowId, signalId: SignalId, entryPrice: real, exitPrice: Option<real>, realizedPnl: Option<real>,
    unrealizedPnl: Option<real>, markPrice: Option<real>, closedBy: Option<SignalId>, quantity: Option<real>,
    status: LotStatus, recordedAt: int)

  /** Orders are keyed by the broker's order id, which the schema makes unique. */
  datatype Tables = Tables(
    signals: map<SignalId, Signal>, events: seq<Event>, executions: seq<Execution>,
    orders: map<OrderId, Order>, rows: seq<Row>)

  const EMPTY := Tables(map[], [], [], map[], [])

  // ---- Reads ------------------------------------------------------------------------

  function EventsOf(events: seq<Event>, id: SignalId): seq<Event> {
    if events == [] then []
    else EventsOf(events[..|events| - 1], id) + if events[|events| - 1].signalId == id then [events[|events| - 1]] else []
  }

  function ExecutionsOf(executions: seq<Execution>, id: SignalId): seq<Execution> {
    if executions == [] then []
    else
      ExecutionsOf(executions[..|executions| - 1], id)
      + if executions[|executions| - 1].signalId == id then [executions[|executions| - 1]] else []
  }

  /** States after which an order never fills further. */
  predicate Terminal(s: OrderState) {
    s != Working
  }

  /** The broker reports shares bought or sold for good. */
  predicate HasFill(r: Report) {
    r.state == Filled || (Terminal(r.state) && r.quantity > 0.0)
  }

  predicate WellFormed(r: Report) {
    r.price.Some? && r.quantity > 0.0
  }

  predicate DedupeKeyTaken(signals: map<SignalId, Signal>, key: int) {
    exists id :: id in signals && signals[id].dedupeKey == key
  }

  // ---- Writes -----------------------------------------------------------------------

  /** `insertSignal`: refused when the dedupe key is taken. `id` is the identifier the database draws. */
  function InsertSignal(db: Tables, id: SignalId, d: Draft, now: int): Option<Tables>
    requires id !in db.signals
  {
    if DedupeKeyTaken(db.signals, d.dedupeKey) then None
    else
      Some(db.(signals := db.signals[id := Signal(d.symbol, d.side, d.quantity, d.mode, d.estimatedPrice, d.dedupeKey,
                                                  now, d.autoDecideAt, Pending, None, false, None)]))
  }

  /** `transitionSignal`: one transaction, guarded by the signal still being pending. */
  function TransitionSignal(db: Tables, id: SignalId, to: Status, now: int): Option<Tables> {
    if id !in db.signals || db.signals[id].status != Pending then None
    else
      Some(db.(signals := db.signals[id := db.signals[id].(status := to, decidedAt := Some(now))],
               events := db.events + [Event(id, Pending, to)]))
  }

  /** `publishSignal`: guarded by the signal not being published yet. */
  function PublishSignal(db: Tables, id: SignalId, now: int): Option<Tables> {
    if id !in db.signals || db.signals[id].published then None
    else Some(db.(signals := db.signals[id := db.signals[id].(published := true, publishedAt := Some(now))]))
  }

  function RecordExecution(db: Tables, e: Execution): Tables {
    db.(executions := db.executions + [e])
  }

  /** `recordPlacedOrder`: an upsert on the broker's order id. */
  function RecordPlacedOrder(db: Tables, oid: OrderId, id: SignalId, state: OrderState, now: int): Tables {
    if oid in db.orders then
      db.(orders := db.orders[oid := db.orders[oid].(report := db.orders[oid].report.(state := state))])
    else db.(orders := db.orders[oid := Order(id, Report(state, 0.0, None), now, None, None)])
  }

  /** `updateOrderFromBroker`. */
  function RefreshOrder(db: Tables, oid: OrderId, report: Report, now: int, terminalAt: Option<int>): Tables
    requires oid in db.orders
  {
    db.(orders := db.orders[oid := db.orders[oid].(report := report, lastPolledAt := Some(now), terminalAt := terminalAt)])
  }

  function AppendRow(db: Tables, row: Row): Tables {
    db.(rows := db.rows + [row])
  }
}
