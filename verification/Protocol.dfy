/**
 * Every interleaving of the program's actors, one database or broker statement at a time:
 * the decision route, the autonomy, expiry and publish sweeps, and the order poll. Any of them
 * may stop for good between two statements.
 */
module Protocol {
  import opened Prelude
  import opened Money
  import opened Ledger
  import opened Lots

  /** An order as the broker holds it; `refId` is the signal it was placed for. */
  datatype BrokerOrder = BrokerOrder(refId: SignalId, report: Report)

  /** A job stamps what it writes with the instant it began, a request with the clock as it goes. */
  datatype Stamp = Clock | Since(instant: int)

  datatype Fill = Fill(price: real, quantity: real, filledAt: int)

  /** Where an actor stands between two statements. */
  datatype Thread =
    | Deciding(id: SignalId, to: Status, stamp: Stamp)              // pre-flight passed
    | Won(id: SignalId, stamp: Stamp)                               // its transition to approved landed
    | Ready(id: SignalId, filledAt: int, stamp: Stamp)              // the executor's own checks passed
    | Placed(id: SignalId, oid: OrderId, state: OrderState, stamp: Stamp)  // the broker took the order
    | Executed(id: SignalId, fill: Fill, stamp: Stamp)              // the execution row is durable
    | Selected(id: SignalId, fill: Fill, lots: seq<SignalId>, stamp: Stamp)
    | Settled(id: SignalId, stamp: Stamp)                           // the lot rows are durable
    | Listed(ids: seq<SignalId>)                                    // the publish sweep's query
    | Publishing(ids: seq<SignalId>, now: int)

  /** Where the order poll stands with the order in hand. */
  datatype Stage =
    | Between
    | Fetched(oid: OrderId, report: Report)
    | Refreshed(oid: OrderId, report: Report)
    | Vacant(oid: OrderId, report: Report)                          // the signal had no execution
    | Recorded(oid: OrderId, report: Report)
    | Chosen(oid: OrderId, report: Report, lots: seq<SignalId>)
    | Opened(oid: OrderId, report: Report)
    | Finishing(oid: OrderId, report: Report)

  datatype Poller = Idle | Starting(todo: seq<OrderId>) | Polling(now: int, todo: seq<OrderId>, stage: Stage)

  datatype World = World(
    db: Tables, broker: map<OrderId, BrokerOrder>, clock: int, threads: map<int, Thread>, poller: Poller, slippageBps: int)

  datatype Action =
    | Tick(ms: nat)
    | Propose(id: SignalId, draft: Draft)
    | Ask(thread: int, id: SignalId, to: Status, stamp: Stamp)
    | Advance(thread: int, oid: OrderId, first: Report, rowIds: seq<RowId>)
    | SweepBegins(thread: int, ids: seq<SignalId>)
    | Dies(thread: int)
    | BrokerMoves(oid: OrderId, report: Report)
    | PollBegins(todo: seq<OrderId>)
    | PollAdvances(answered: bool, rowIds: seq<RowId>)
    | PollDies

  // ---- The actors, statement by statement -------------------------------------------

  function When(w: World, s: Stamp): int {
    if s.Clock? then w.clock else s.instant
  }

  function Drop(w: World, t: int): World {
    w.(threads := w.threads - {t})
  }

  function Go(w: World, t: int, to: Thread): World {
    w.(threads := w.threads[t := to])
  }

  /** A sell needs something to close before it may be approved. */
  predicate Preflight(db: Tables, id: SignalId)
    requires id in db.signals
  {
    db.signals[id].side == Sell ==> OpenLotsForSymbol(db, db.signals[id].symbol) != []
  }

  /** The executor's own look at the lots, before it writes anything. */
  predicate MayExecute(db: Tables, s: Signal) {
    s.side == Sell ==>
      if s.mode == Paper then SelectLots(db, s.symbol, s.quantity) != [] else OpenLotsForSymbol(db, s.symbol) != []
  }

  /** Signals the publish sweep looks for. */
  predicate FilledUnpublished(db: Tables, id: SignalId) {
    id in db.signals && db.signals[id].status == Approved && !db.signals[id].published && ExecutionsOf(db.executions, id) != []
  }

  predicate OpenOrder(db: Tables, oid: OrderId) {
    oid in db.orders && db.orders[oid].terminalAt == None
  }

  ghost predicate KnownRef(broker: map<OrderId, BrokerOrder>, id: SignalId) {
    exists o :: o in broker && broker[o].refId == id
  }

  /** The same reference id is the same order; only a new one is opened under `oid`. */
  ghost function PlaceAtBroker(w: World, id: SignalId, oid: OrderId, first: Report): (OrderId, map<OrderId, BrokerOrder>) {
    if KnownRef(w.broker, id) then
      var o :| o in w.broker && w.broker[o].refId == id;
      (o, w.broker)
    else (oid, w.broker[oid := BrokerOrder(id, first)])
  }

  ghost function AdvanceThread(w: World, t: int, oid: OrderId, first: Report, rowIds: seq<RowId>): World
    requires t in w.threads
  {
    match w.threads[t]
    case Deciding(id, to, stamp) =>
      var r := TransitionSignal(w.db, id, to, When(w, stamp));
      if r == None then Drop(w, t)
      else if to == Approved then Go(w.(db := r.value), t, Won(id, stamp))
      else Drop(w.(db := r.value), t)
    case Won(id, stamp) =>
      if id in w.db.signals && MayExecute(w.db, w.db.signals[id]) then Go(w, t, Ready(id, When(w, stamp), stamp))
      else Drop(w, t)
    case Ready(id, filledAt, stamp) =>
      if id !in w.db.signals then Drop(w, t)
      else if w.db.signals[id].mode == Paper then
        var s := w.db.signals[id];
        var fill := Fill(ApplySlippage(s.estimatedPrice, s.side, w.slippageBps), s.quantity, filledAt);
        Go(w.(db := RecordExecution(w.db, Execution(id, Paper, fill.price, fill.quantity, filledAt, None))), t,
           Executed(id, fill, stamp))
      else if oid in w.broker && !KnownRef(w.broker, id) then w
      else
        var (o, broker) := PlaceAtBroker(w, id, oid, first);
        Go(w.(broker := broker), t, Placed(id, o, broker[o].report.state, stamp))
    case Placed(id, o, state, stamp) =>
      Drop(w.(db := RecordPlacedOrder(w.db, o, id, state, When(w, stamp))), t)
    case Executed(id, fill, stamp) =>
      if id !in w.db.signals then Drop(w, t)
      else if w.db.signals[id].side == Sell then
        var lots := SelectLots(w.db, w.db.signals[id].symbol, fill.quantity);
        if lots == [] then Drop(w, t) else Go(w, t, Selected(id, fill, lots, stamp))
      else if rowIds == [] then w
      else
        Go(w.(db := AppendRow(w.db, OpeningRow(w.db, id, fill.price, fill.quantity, fill.filledAt, rowIds[0]))), t,
           Settled(id, stamp))
    case Selected(id, fill, lots, stamp) =>
      if |rowIds| != |lots| then w
      else
        var r := CloseLots(w.db, lots, fill.price, id, fill.filledAt, rowIds);
        if r == None then Drop(w, t) else Go(w.(db := r.value), t, Settled(id, stamp))
    case Settled(id, stamp) =>
      var r := PublishSignal(w.db, id, When(w, stamp));
      if r == None then Drop(w, t) else Drop(w.(db := r.value), t)
    case Listed(ids) => Go(w, t, Publishing(ids, w.clock))
    case Publishing(ids, now) =>
      if ids == [] then Drop(w, t)
      else
        var r := PublishSignal(w.db, ids[0], now);
        if r == None then Go(w, t, Publishing(ids[1..], now)) else Go(w.(db := r.value), t, Publishing(ids[1..], now))
  }

  function AtStage(w: World, now: int, todo: seq<OrderId>, stage: Stage): World {
    w.(poller := Polling(now, todo, stage))
  }

  function AdvancePoll(w: World, answered: bool, rowIds: seq<RowId>): World {
    match w.poller
    case Idle => w
    case Starting(todo) => AtStage(w, w.clock, todo, Between)
    case Polling(now, todo, stage) => PollStage(w, now, todo, stage, answered, rowIds)
  }

  function PollStage(w: World, now: int, todo: seq<OrderId>, stage: Stage, answered: bool, rowIds: seq<RowId>): World {
    match stage
    case Between =>
      if todo == [] then w.(poller := Idle)
      else if !answered || todo[0] !in w.broker then AtStage(w, now, todo[1..], Between)
      else AtStage(w, now, todo[1..], Fetched(todo[0], w.broker[todo[0]].report))
    case Fetched(oid, report) =>
      if oid !in w.db.orders then w.(poller := Idle)
      else AtStage(w.(db := RefreshOrder(w.db, oid, report, now, None)), now, todo, Refreshed(oid, report))
    case Refreshed(oid, report) =>
      if !HasFill(report) then AtStage(w, now, todo, if Terminal(report.state) then Finishing(oid, report) else Between)
      else if !WellFormed(report) then AtStage(w, now, todo, Between)
      else if oid !in w.db.orders || w.db.orders[oid].signalId !in w.db.signals then AtStage(w, now, todo, Between)
      else if ExecutionsOf(w.db.executions, w.db.orders[oid].signalId) != [] then AtStage(w, now, todo, Finishing(oid, report))
      else AtStage(w, now, todo, Vacant(oid, report))
    case Vacant(oid, report) =>
      if oid !in w.db.orders || report.price == None then w.(poller := Idle)
      else
        var e := Execution(w.db.orders[oid].signalId, Live, report.price.value, report.quantity, now, Some(oid));
        AtStage(w.(db := RecordExecution(w.db, e)), now, todo, Recorded(oid, report))
    case Recorded(oid, report) =>
      if oid !in w.db.orders || w.db.orders[oid].signalId !in w.db.signals || report.price == None then w.(poller := Idle)
      else
        var id := w.db.orders[oid].signalId;
        if w.db.signals[id].side == Sell then
          var lots := SelectLots(w.db, w.db.signals[id].symbol, report.quantity);
          AtStage(w, now, todo, if lots == [] then Opened(oid, report) else Chosen(oid, report, lots))
        else if rowIds == [] then w
        else
          AtStage(w.(db := AppendRow(w.db, OpeningRow(w.db, id, report.price.value, report.quantity, now, rowIds[0]))),
                  now, todo, Opened(oid, report))
    case Chosen(oid, report, lots) =>
      if oid !in w.db.orders || report.price == None then w.(poller := Idle)
      else if |rowIds| != |lots| then w
      else
        var r := CloseLots(w.db, lots, report.price.value, w.db.orders[oid].signalId, now, rowIds);
        if r == None then w.(poller := Idle) else AtStage(w.(db := r.value), now, todo, Opened(oid, report))
    case Opened(oid, report) =>
      if oid !in w.db.orders then w.(poller := Idle)
      else
        var r := PublishSignal(w.db, w.db.orders[oid].signalId, now);
        AtStage(if r == None then w else w.(db := r.value), now, todo, Finishing(oid, report))
    case Finishing(oid, report) =>
      if oid !in w.db.orders then w.(poller := Idle)
      else AtStage(w.(db := RefreshOrder(w.db, oid, report, now, Some(now))), now, todo, Between)
  }

  /** One step of the whole system. An action that is not possible in `w` changes nothing. */
  ghost function Do(w: World, a: Action): World {
    match a
    case Tick(ms) => w.(clock := w.clock + ms)
    case Propose(id, draft) =>
      if id in w.db.signals then w
      else
        var r := InsertSignal(w.db, id, draft, w.clock);
        if r == None then w else w.(db := r.value)
    case Ask(t, id, to, stamp) =>
      if t in w.threads || to == Pending || id !in w.db.signals || w.db.signals[id].status != Pending
         || When(w, stamp) > w.clock || (to == Approved && !Preflight(w.db, id)) then w
      else Go(w, t, Deciding(id, to, stamp))
    case Advance(t, oid, first, rowIds) => if t in w.threads then AdvanceThread(w, t, oid, first, rowIds) else w
    case SweepBegins(t, ids) =>
      if t in w.threads || !(forall id :: id in ids <==> FilledUnpublished(w.db, id)) then w else Go(w, t, Listed(ids))
    case Dies(t) => Drop(w, t)
    case BrokerMoves(oid, report) =>
      if oid !in w.broker || Terminal(w.broker[oid].report.state) then w
      else w.(broker := w.broker[oid := w.broker[oid].(report := report)])
    case PollBegins(todo) =>
      if w.poller != Idle || !(forall oid :: oid in todo <==> OpenOrder(w.db, oid)) then w else w.(poller := Starting(todo))
    case PollAdvances(answered, rowIds) => AdvancePoll(w, answered, rowIds)
    case PollDies => w.(poller := Idle)
  }

  ghost function Exec(w: World, actions: seq<Action>): World {
    if actions == [] then w else Do(Exec(w, actions[..|actions| - 1]), actions[|actions| - 1])
  }

  lemma {:induction false} ExecAppend(w: World, front: seq<Action>, a: Action)
    ensures Exec(w, front + [a]) == Do(Exec(w, front), a)
  {
    assert (front + [a])[..|front|] == front;
  }

  function Init(clock: int, slippageBps: int): World {
    World(EMPTY, map[], clock, map[], Idle, slippageBps)
  }
}
