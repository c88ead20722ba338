/** What every interleaving keeps. */
module ProtocolInvariant {
  import opened Prelude
  import opened Ledger
  import opened Protocol

  // ---- The tables -------------------------------------------------------------------

  /** A decided signal has exactly one event, and it says what was decided. */
  ghost predicate DecidedOnce(db: Tables) {
    && (forall e :: e in db.events ==> e.signalId in db.signals)
    && (forall id :: id in db.signals ==>
          EventsOf(db.events, id)
          == if db.signals[id].status == Pending then [] else [Event(id, Pending, db.signals[id].status)])
  }

  /** A signal is executed at most once, only when approved, and in the mode it was created in. */
  ghost predicate ExecutedOnce(db: Tables) {
    && (forall e :: e in db.executions ==> e.signalId in db.signals && e.mode == db.signals[e.signalId].mode)
    && (forall id :: id in db.signals ==> |ExecutionsOf(db.executions, id)| <= 1)
    && (forall id :: id in db.signals && ExecutionsOf(db.executions, id) != [] ==> db.signals[id].status == Approved)
  }

  /** Publication follows the fill it discloses. */
  ghost predicate PublishedAfterFill(db: Tables) {
    forall id :: id in db.signals ==>
      && (db.signals[id].published <==> db.signals[id].publishedAt.Some?)
      && (db.signals[id].published ==>
            && ExecutionsOf(db.executions, id) != []
            && ExecutionsOf(db.executions, id)[0].filledAt <= db.signals[id].publishedAt.value)
  }

  ghost predicate DistinctProposals(db: Tables) {
    forall i, j :: i in db.signals && j in db.signals && i != j ==> db.signals[i].dedupeKey != db.signals[j].dedupeKey
  }

  ghost predicate FilledInThePast(db: Tables, clock: int) {
    forall e :: e in db.executions ==> e.filledAt <= clock
  }

  /** Every recorded order belongs to its own approved live signal, and is the broker's order for it. */
  ghost predicate OrdersOwned(db: Tables, broker: map<OrderId, BrokerOrder>) {
    && (forall o :: o in db.orders ==>
          && o in broker && broker[o].refId == db.orders[o].signalId
          && db.orders[o].signalId in db.signals
          && db.signals[db.orders[o].signalId].mode == Live
          && db.signals[db.orders[o].signalId].status == Approved)
    && (forall o, p :: o in broker && p in broker && broker[o].refId == broker[p].refId ==> o == p)
  }

  /** A stamped order is finished, as the broker finished it, and its fill, if any, has been recorded. */
  ghost predicate StampedWhenDone(db: Tables, broker: map<OrderId, BrokerOrder>) {
    forall o :: o in db.orders && o in broker && db.orders[o].terminalAt.Some? ==>
      && Terminal(db.orders[o].report.state)
      && broker[o].report == db.orders[o].report
      && (HasFill(db.orders[o].report) ==>
            WellFormed(db.orders[o].report) && ExecutionsOf(db.executions, db.orders[o].signalId) != [])
  }

  /** A live execution carries the final numbers of a recorded order. */
  ghost predicate LiveFillsFinal(db: Tables, broker: map<OrderId, BrokerOrder>) {
    forall e :: e in db.executions && e.mode == Live ==>
      && e.brokerOrderId.Some? && e.brokerOrderId.value in db.orders && e.brokerOrderId.value in broker
      && db.orders[e.brokerOrderId.value].signalId == e.signalId
      && var r := broker[e.brokerOrderId.value].report;
         HasFill(r) && WellFormed(r) && e.fillPrice == r.price.value && e.quantity == r.quantity
  }

  ghost predicate TablesSound(db: Tables, broker: map<OrderId, BrokerOrder>, clock: int) {
    && DecidedOnce(db) && ExecutedOnce(db) && PublishedAfterFill(db) && DistinctProposals(db)
    && FilledInThePast(db, clock) && OrdersOwned(db, broker) && StampedWhenDone(db, broker) && LiveFillsFinal(db, broker)
  }

  // ---- The actors -------------------------------------------------------------------

  predicate Unfilled(db: Tables, id: SignalId) {
    id in db.signals && db.signals[id].status == Approved && ExecutionsOf(db.executions, id) == []
  }

  ghost predicate NoOrderFor(db: Tables, id: SignalId) {
    forall o :: o in db.orders ==> db.orders[o].signalId != id
  }

  predicate FilledBy(db: Tables, id: SignalId, now: int) {
    && id in db.signals && db.signals[id].status == Approved
    && ExecutionsOf(db.executions, id) != [] && ExecutionsOf(db.executions, id)[0].filledAt <= now
  }

  predicate NotAhead(w: World, s: Stamp) {
    When(w, s) <= w.clock
  }

  ghost predicate ThreadSound(w: World, th: Thread) {
    match th
    case Deciding(id, to, stamp) => to != Pending && NotAhead(w, stamp)
    case Won(id, stamp) => Unfilled(w.db, id) && NoOrderFor(w.db, id) && NotAhead(w, stamp)
    case Ready(id, filledAt, stamp) =>
      Unfilled(w.db, id) && NoOrderFor(w.db, id) && NotAhead(w, stamp) && filledAt <= When(w, stamp)
    case Placed(id, oid, state, stamp) =>
      Unfilled(w.db, id) && NoOrderFor(w.db, id) && w.db.signals[id].mode == Live
      && oid in w.broker && w.broker[oid].refId == id
    case Executed(id, fill, stamp) =>
      FilledBy(w.db, id, When(w, stamp)) && w.db.signals[id].mode == Paper && NotAhead(w, stamp)
    case Selected(id, fill, lots, stamp) =>
      FilledBy(w.db, id, When(w, stamp)) && w.db.signals[id].mode == Paper && NotAhead(w, stamp)
    case Settled(id, stamp) =>
      FilledBy(w.db, id, When(w, stamp)) && w.db.signals[id].mode == Paper && NotAhead(w, stamp)
    case Listed(ids) => forall id :: id in ids ==> FilledBy(w.db, id, w.clock)
    case Publishing(ids, now) => forall id :: id in ids ==> FilledBy(w.db, id, now)
  }

  /** The signal whose one execution an actor is carrying out. */
  function Carries(th: Thread): Option<SignalId> {
    match th
    case Won(id, _) => Some(id)
    case Ready(id, _, _) => Some(id)
    case Placed(id, _, _, _) => Some(id)
    case Executed(id, _, _) => Some(id)
    case Selected(id, _, _, _) => Some(id)
    case Settled(id, _) => Some(id)
    case _ => None
  }

  ghost predicate OneCarrier(threads: map<int, Thread>) {
    forall t, u :: t in threads && u in threads && t != u && Carries(threads[t]).Some? ==>
      Carries(threads[t]) != Carries(threads[u])
  }

  ghost predicate ReportSound(w: World, oid: OrderId, report: Report) {
    oid in w.db.orders && oid in w.broker && (Terminal(report.state) ==> w.broker[oid].report == report)
  }

  ghost predicate StageSound(w: World, now: int, stage: Stage) {
    match stage
    case Between => true
    case Fetched(oid, report) => ReportSound(w, oid, report)
    case Refreshed(oid, report) => ReportSound(w, oid, report)
    case Vacant(oid, report) =>
      ReportSound(w, oid, report) && HasFill(report) && WellFormed(report)
      && ExecutionsOf(w.db.executions, w.db.orders[oid].signalId) == []
    case Recorded(oid, report) =>
      ReportSound(w, oid, report) && HasFill(report) && WellFormed(report) && FilledBy(w.db, w.db.orders[oid].signalId, now)
    case Chosen(oid, report, lots) =>
      ReportSound(w, oid, report) && HasFill(report) && WellFormed(report) && FilledBy(w.db, w.db.orders[oid].signalId, now)
    case Opened(oid, report) =>
      ReportSound(w, oid, report) && HasFill(report) && WellFormed(report) && FilledBy(w.db, w.db.orders[oid].signalId, now)
    case Finishing(oid, report) =>
      ReportSound(w, oid, report) && Terminal(report.state)
      && (HasFill(report) ==> WellFormed(report) && ExecutionsOf(w.db.executions, w.db.orders[oid].signalId) != [])
  }

  ghost predicate PollerSound(w: World) {
    match w.poller
    case Idle => true
    case Starting(todo) => forall o :: o in todo ==> o in w.db.orders
    case Polling(now, todo, stage) =>
      now <= w.clock && (forall o :: o in todo ==> o in w.db.orders) && StageSound(w, now, stage)
  }

  ghost predicate Inv(w: World) {
    && TablesSound(w.db, w.broker, w.clock)
    && (forall t :: t in w.threads ==> ThreadSound(w, w.threads[t]))
    && OneCarrier(w.threads)
    && PollerSound(w)
  }

  // ---- What an actor may rely on the others to leave alone ---------------------------

  /** From `w` to `w'` nothing settled is unsettled, and only `touched` gains an execution or an order. */
  ghost predicate Kept(w: World, w': World, touched: Option<SignalId>) {
    && w.clock <= w'.clock
    && (forall id :: id in w.db.signals ==>
          && id in w'.db.signals && w'.db.signals[id].mode == w.db.signals[id].mode
          && (w.db.signals[id].status != Pending ==> w'.db.signals[id].status == w.db.signals[id].status))
    && (forall id :: Some(id) != touched || ExecutionsOf(w.db.executions, id) != [] ==>
          ExecutionsOf(w'.db.executions, id) == ExecutionsOf(w.db.executions, id))
    && (forall o :: o in w.db.orders ==> o in w'.db.orders && w'.db.orders[o].signalId == w.db.orders[o].signalId)
    && (forall o :: o in w'.db.orders && o !in w.db.orders ==> Some(w'.db.orders[o].signalId) == touched)
    && (forall o :: o in w.broker ==>
          && o in w'.broker && w'.broker[o].refId == w.broker[o].refId
          && (Terminal(w.broker[o].report.state) ==> w'.broker[o].report == w.broker[o].report))
  }

  lemma ThreadUndisturbed(w: World, w': World, touched: Option<SignalId>, th: Thread)
    requires Kept(w, w', touched) && ThreadSound(w, th)
    requires touched.Some? ==> Carries(th) != touched
    ensures ThreadSound(w', th)
  {
    hide TablesSound;
    match th
    case Listed(ids) =>
      forall id | id in ids ensures FilledBy(w'.db, id, w'.clock) { assert FilledBy(w.db, id, w.clock); }
    case Publishing(ids, now) =>
      forall id | id in ids ensures FilledBy(w'.db, id, now) { assert FilledBy(w.db, id, now); }
    case _ =>
  }

  lemma StageUndisturbed(w: World, w': World, touched: Option<SignalId>, now: int, stage: Stage)
    requires Kept(w, w', touched) && StageSound(w, now, stage)
    requires touched.Some? ==> forall o :: o in w.db.orders ==> w.db.orders[o].signalId != touched.value
    ensures StageSound(w', now, stage)
  {
  }

  /** A step that keeps the tables sound and moves no actor keeps everything. */
  lemma StillWorld(w: World, w': World)
    requires Inv(w) && Kept(w, w', None) && TablesSound(w'.db, w'.broker, w'.clock)
    requires w'.threads == w.threads && w'.poller == w.poller
    ensures Inv(w')
  {
    hide TablesSound;
    forall t | t in w'.threads ensures ThreadSound(w', w'.threads[t]) {
      ThreadUndisturbed(w, w', None, w.threads[t]);
    }
    if w.poller.Polling? { StageUndisturbed(w, w', None, w.poller.now, w.poller.stage); }
  }

  /** A step in which one thread moves or leaves. */
  lemma ThreadMoves(w: World, w': World, t: int, touched: Option<SignalId>)
    requires Inv(w) && t in w.threads && Kept(w, w', touched) && TablesSound(w'.db, w'.broker, w'.clock)
    requires w'.poller == w.poller && w'.threads.Keys <= w.threads.Keys
    requires forall u :: u in w.threads && u != t ==> u in w'.threads && w'.threads[u] == w.threads[u]
    requires touched.Some? ==> touched == Carries(w.threads[t]) && NoOrderFor(w.db, touched.value)
    requires t in w'.threads ==>
               ThreadSound(w', w'.threads[t])
               && (Carries(w'.threads[t]) != None && Carries(w'.threads[t]) != Carries(w.threads[t]) ==>
                     forall u :: u in w.threads ==> Carries(w.threads[u]) != Carries(w'.threads[t]))
    ensures Inv(w')
  {
    hide TablesSound;
    forall u | u in w'.threads && u != t ensures ThreadSound(w', w'.threads[u]) {
      ThreadUndisturbed(w, w', touched, w.threads[u]);
    }
    if w.poller.Polling? { StageUndisturbed(w, w', touched, w.poller.now, w.poller.stage); }
  }

  /** Nobody carries out an order's signal that has not been filled yet, except the poll. */
  lemma NotCarried(w: World, th: Thread, id: SignalId)
    requires ThreadSound(w, th) && !NoOrderFor(w.db, id) && ExecutionsOf(w.db.executions, id) == []
    ensures Carries(th) != Some(id)
  {
  }

  /** A step of the poll. */
  lemma PollerMoves(w: World, w': World, touched: Option<SignalId>)
    requires Inv(w) && Kept(w, w', touched) && TablesSound(w'.db, w'.broker, w'.clock)
    requires w'.threads == w.threads && PollerSound(w')
    requires touched.Some? ==> !NoOrderFor(w.db, touched.value) && ExecutionsOf(w.db.executions, touched.value) == []
    ensures Inv(w')
  {
    hide TablesSound, PollerSound, Kept, ThreadSound, NoOrderFor, Carries;
    forall t | t in w'.threads ensures ThreadSound(w', w'.threads[t]) {
      assert ThreadSound(w, w.threads[t]);
      if touched.Some? { NotCarried(w, w.threads[t], touched.value); }
      ThreadUndisturbed(w, w', touched, w.threads[t]);
    }
  }

  // ---- Statements keep the tables sound ------------------------------------------------

  lemma {:induction false} NoneExecuted(es: seq<Execution>, id: SignalId)
    requires forall e :: e in es ==> e.signalId != id
    ensures ExecutionsOf(es, id) == []
  {
    if es == [] {
    } else {
      NoneExecuted(es[..|es| - 1], id);
    }
  }

  lemma {:induction false} NoneHappened(es: seq<Event>, id: SignalId)
    requires forall e :: e in es ==> e.signalId != id
    ensures EventsOf(es, id) == []
  {
    if es == [] {
    } else {
      NoneHappened(es[..|es| - 1], id);
    }
  }

  lemma {:induction false} ExecutionIsListed(es: seq<Execution>, e: Execution)
    requires e in es
    ensures e in ExecutionsOf(es, e.signalId)
  {
    if es[|es| - 1] == e {
    } else {
      assert e in es[..|es| - 1];
      ExecutionIsListed(es[..|es| - 1], e);
    }
  }

  lemma {:induction false} ListedIsExecution(es: seq<Execution>, id: SignalId)
    ensures forall e :: e in ExecutionsOf(es, id) ==> e in es && e.signalId == id
  {
    if es == [] {
    } else {
      ListedIsExecution(es[..|es| - 1], id);
    }
  }

  lemma ExecutionsGrow(es: seq<Execution>, e: Execution)
    ensures forall id :: ExecutionsOf(es + [e], id) == ExecutionsOf(es, id) + if e.signalId == id then [e] else []
  {
    assert (es + [e])[..|es|] == es;
  }

  lemma EventsGrow(es: seq<Event>, e: Event)
    ensures forall id :: EventsOf(es + [e], id) == EventsOf(es, id) + if e.signalId == id then [e] else []
  {
    assert (es + [e])[..|es|] == es;
  }

  lemma InsertSound(db: Tables, broker: map<OrderId, BrokerOrder>, clock: int, id: SignalId, d: Draft)
    requires TablesSound(db, broker, clock) && id !in db.signals && InsertSignal(db, id, d, clock).Some?
    ensures TablesSound(InsertSignal(db, id, d, clock).value, broker, clock)
  {
    NoneHappened(db.events, id);
    NoneExecuted(db.executions, id);
  }

  lemma PendingIsUntouched(db: Tables, broker: map<OrderId, BrokerOrder>, clock: int, id: SignalId)
    requires TablesSound(db, broker, clock) && id in db.signals && db.signals[id].status == Pending
    ensures ExecutionsOf(db.executions, id) == [] && NoOrderFor(db, id) && !db.signals[id].published
  {
  }

  lemma TransitionDecides(db: Tables, id: SignalId, to: Status, now: int)
    requires DecidedOnce(db) && to != Pending && TransitionSignal(db, id, to, now).Some?
    ensures DecidedOnce(TransitionSignal(db, id, to, now).value)
  {
    EventsGrow(db.events, Event(id, Pending, to));
  }

  lemma TransitionSound(db: Tables, broker: map<OrderId, BrokerOrder>, clock: int, id: SignalId, to: Status, now: int)
    requires TablesSound(db, broker, clock) && to != Pending && TransitionSignal(db, id, to, now).Some?
    ensures TablesSound(TransitionSignal(db, id, to, now).value, broker, clock)
  {
    hide DecidedOnce;
    PendingIsUntouched(db, broker, clock, id);
    TransitionDecides(db, id, to, now);
  }

  /** Publication touches no status, mode, event, execution or order. */
  lemma PublishKeepsRecords(db: Tables, broker: map<OrderId, BrokerOrder>, clock: int, id: SignalId, now: int)
    requires TablesSound(db, broker, clock) && PublishSignal(db, id, now).Some?
    ensures var db' := PublishSignal(db, id, now).value;
            DecidedOnce(db') && ExecutedOnce(db') && DistinctProposals(db') && FilledInThePast(db', clock)
  {
    hide PublishedAfterFill, OrdersOwned, StampedWhenDone, LiveFillsFinal, EventsOf, ExecutionsOf;
  }

  lemma PublishKeepsOrders(db: Tables, broker: map<OrderId, BrokerOrder>, clock: int, id: SignalId, now: int)
    requires TablesSound(db, broker, clock) && PublishSignal(db, id, now).Some?
    ensures var db' := PublishSignal(db, id, now).value;
            OrdersOwned(db', broker) && StampedWhenDone(db', broker) && LiveFillsFinal(db', broker)
  {
    hide PublishedAfterFill, DecidedOnce, ExecutedOnce, DistinctProposals, FilledInThePast, ExecutionsOf;
  }

  lemma PublishSound(db: Tables, broker: map<OrderId, BrokerOrder>, clock: int, id: SignalId, now: int)
    requires TablesSound(db, broker, clock) && FilledBy(db, id, now) && PublishSignal(db, id, now).Some?
    ensures TablesSound(PublishSignal(db, id, now).value, broker, clock)
  {
    PublishKeepsRecords(db, broker, clock, id, now);
    PublishKeepsOrders(db, broker, clock, id, now);
    hide DecidedOnce, ExecutedOnce, DistinctProposals, FilledInThePast, OrdersOwned, StampedWhenDone, LiveFillsFinal, ExecutionsOf;
  }

  lemma RecordSound(db: Tables, broker: map<OrderId, BrokerOrder>, clock: int, e: Execution)
    requires TablesSound(db, broker, clock) && Unfilled(db, e.signalId)
    requires e.mode == db.signals[e.signalId].mode && e.filledAt <= clock
    requires e.mode == Live ==>
               && e.brokerOrderId.Some? && e.brokerOrderId.value in db.orders && e.brokerOrderId.value in broker
               && db.orders[e.brokerOrderId.value].signalId == e.signalId
               && var r := broker[e.brokerOrderId.value].report;
                  HasFill(r) && WellFormed(r) && e.fillPrice == r.price.value && e.quantity == r.quantity
    ensures TablesSound(RecordExecution(db, e), broker, clock)
  {
    ExecutionsGrow(db.executions, e);
  }

  lemma PlacedSound(db: Tables, broker: map<OrderId, BrokerOrder>, clock: int, oid: OrderId, id: SignalId, state: OrderState, placedAt: int)
    requires TablesSound(db, broker, clock) && Unfilled(db, id) && db.signals[id].mode == Live && NoOrderFor(db, id)
    requires oid in broker && broker[oid].refId == id
    ensures oid !in db.orders && TablesSound(RecordPlacedOrder(db, oid, id, state, placedAt), broker, clock)
  {
  }

  lemma RefreshSound(db: Tables, broker: map<OrderId, BrokerOrder>, clock: int, oid: OrderId, report: Report, now: int, terminalAt: Option<int>)
    requires TablesSound(db, broker, clock) && oid in db.orders
    requires terminalAt.Some? ==>
               && Terminal(report.state) && broker[oid].report == report
               && (HasFill(report) ==> WellFormed(report) && ExecutionsOf(db.executions, db.orders[oid].signalId) != [])
    ensures TablesSound(RefreshOrder(db, oid, report, now, terminalAt), broker, clock)
  {
  }

  lemma OrderFacts(db: Tables, broker: map<OrderId, BrokerOrder>, clock: int, oid: OrderId)
    requires TablesSound(db, broker, clock) && oid in db.orders
    ensures oid in broker && broker[oid].refId == db.orders[oid].signalId && db.orders[oid].signalId in db.signals
    ensures var s := db.signals[db.orders[oid].signalId]; s.mode == Live && s.status == Approved
    ensures !NoOrderFor(db, db.orders[oid].signalId)
  {
  }

  lemma RowsSound(db: Tables, broker: map<OrderId, BrokerOrder>, clock: int, rows: seq<Row>)
    requires TablesSound(db, broker, clock)
    ensures TablesSound(db.(rows := rows), broker, clock)
  {
  }
}
