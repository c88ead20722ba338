/**
 * When an approval reaches the tables or the broker, and when nothing does: the kill switch, the live gates,
 * the confirmation and the lots a sell needs (executor.ts, routes/signals.ts, autonomy.ts).
 */
module Safeguards {
  import opened Prelude
  import opened Money
  import opened Ledger
  import opened Lots
  import opened LotsLaws
  import opened Brokerage
  import opened Executor
  import opened Decisions

  /** Some lot of the symbol is open. */
  ghost predicate Holds(db: Tables, s: Symbol) {
    exists id :: IsOpen(db, id) && db.signals[id].symbol == s
  }

  lemma HoldsIffListed(db: Tables, s: Symbol)
    ensures OpenLotsForSymbol(db, s) != [] <==> Holds(db, s)
  {
    if OpenLotsForSymbol(db, s) != [] {
      ListedIsHeld(db, s);
    } else if Holds(db, s) {
      var id :| IsOpen(db, id) && db.signals[id].symbol == s;
      HeldIsListed(db, id);
    }
  }

  lemma ListedIsHeld(db: Tables, s: Symbol)
    requires OpenLotsForSymbol(db, s) != []
    ensures Holds(db, s)
  {
    hide Newest, OfSymbol, ListOpenLots;
    ListOpenLotsSound(db);
    OfSymbolSound(ListOpenLots(db), s);
    var l := OpenLotsForSymbol(db, s)[0];
    assert IsOpen(db, l.signalId) && l == LotOf(db, l.signalId) && l.symbol == s;
  }

  lemma HeldIsListed(db: Tables, id: SignalId)
    requires IsOpen(db, id)
    ensures OpenLotsForSymbol(db, db.signals[id].symbol) != []
  {
    hide Newest, OfSymbol, ListOpenLots;
    ListOpenLotsSound(db);
    OfSymbolSound(ListOpenLots(db), db.signals[id].symbol);
    assert LotOf(db, id) in ListOpenLots(db);
    assert LotOf(db, id) in OpenLotsForSymbol(db, db.signals[id].symbol);
  }

  /** A sell consumes something exactly when the lot at the front of its queue is no larger than the sell. */
  lemma ConsumesIffFrontFits(db: Tables, s: Symbol, quantity: real)
    ensures SelectLots(db, s, quantity) != [] <==> Queue(db, s) != [] && Queue(db, s)[0].quantity <= quantity
  {
  }

  // ---- Executing --------------------------------------------------------------------------

  /** With either half of the kill switch on, an execution changes nothing at all. */
  lemma KillSwitchStopsExecution(db: Tables, book: Book, id: SignalId, g: Gates, bps: int, at: int, draw: Draw)
    requires id in db.signals && DrawsEnough(draw) && (g.killSwitchEnv || g.killSwitch)
    ensures Execute(db, book, id, g, bps, at, draw) == After(db, book, NotExecuted)
  {
  }

  /** What a paper signal needs to fill. */
  ghost predicate PaperFills(db: Tables, s: Signal) {
    s.side == Sell ==> Queue(db, s.symbol) != [] && Queue(db, s.symbol)[0].quantity <= s.quantity
  }

  /** What a live signal needs for its order to be placed. */
  ghost predicate LivePlaces(db: Tables, book: Book, s: Signal, g: Gates) {
    && g.liveTradingEnabled && g.liveMode && g.reviewed
    && (s.side == Sell ==> Holds(db, s.symbol))
    && s.symbol in book.scripts && book.scripts[s.symbol] != []
  }

  /** An execution happens if and only if neither half of the kill switch is on and its own mode's needs are met. */
  lemma ExecutesIff(db: Tables, book: Book, id: SignalId, g: Gates, bps: int, at: int, draw: Draw)
    requires id in db.signals && DrawsEnough(draw) && BookValid(book)
    ensures var x := Execute(db, book, id, g, bps, at, draw); var s := db.signals[id];
            && (x.outcome.FilledNow? <==> !g.killSwitchEnv && !g.killSwitch && s.mode == Paper && PaperFills(db, s))
            && (x.outcome.OrderPlaced? <==> !g.killSwitchEnv && !g.killSwitch && s.mode == Live && LivePlaces(db, book, s, g))
            && (x.outcome.NotExecuted? ==> x.db == db && x.book == book)
  {
    hide Settle, SelectLots, OpenLotsForSymbol, Queue, BookValid, Holds;
    var s := db.signals[id];
    HoldsIffListed(db, s.symbol);
    ConsumesIffFrontFits(db, s.symbol, s.quantity);
    if !Refuses(book, s.symbol) { Accepts(book, s.symbol, id); }
  }

  lemma Accepts(book: Book, s: Symbol, id: SignalId)
    requires BookValid(book) && !Refuses(book, s)
    ensures Place(book, s, id).Some?
  {
  }

  /**
   * What a paper fill writes: one execution of the whole quantity, at the review's price made worse by the
   * configured slippage to six decimals; the broker is not touched.
   */
  lemma PaperFillWrites(db: Tables, book: Book, id: SignalId, g: Gates, bps: int, at: int, draw: Draw)
    requires id in db.signals && DrawsEnough(draw) && Execute(db, book, id, g, bps, at, draw).outcome.FilledNow?
    ensures var x := Execute(db, book, id, g, bps, at, draw); var s, fill := db.signals[id], x.outcome.fill;
            && x.db.executions == db.executions + [Execution(id, Paper, fill.price, s.quantity, at, None)]
            && fill.quantity == s.quantity && fill.filledAt == at
            && Abs(fill.price - Worse(s.estimatedPrice, s.side, bps)) <= 0.0000005
            && x.db.signals == db.signals && x.db.orders == db.orders && x.db.events == db.events
            && db.rows < x.db.rows && x.book == book
  {
    hide SelectLots, Settle, ApplySlippage;
    var s := db.signals[id];
    SlippedPrice(s.estimatedPrice, s.side, bps);
    var fill := PaperFill(s, bps, at);
    var recorded := Ledger.RecordExecution(db, Execution(id, Paper, fill.price, fill.quantity, at, None));
    SettleFailsOnlyWithNothingToClose(recorded, id, fill.price, fill.quantity, at, draw);
    SameSelection(db, recorded, s.symbol, s.quantity);
  }

  /**
   * What placing a live order writes: the broker has one order under the signal's own reference, the one it had
   * if it knew the reference; its row says so, unfilled and open; and nothing is executed yet.
   */
  lemma LiveOrderWrites(db: Tables, book: Book, id: SignalId, g: Gates, bps: int, at: int, draw: Draw)
    requires id in db.signals && DrawsEnough(draw) && BookValid(book) && Execute(db, book, id, g, bps, at, draw).outcome.OrderPlaced?
    ensures var x := Execute(db, book, id, g, bps, at, draw); var o := x.outcome.oid;
            && o in x.book.orders && x.book.orders[o].refId == id && o in x.db.orders
            && x.book.orders[o].script != [] && x.outcome.state == x.book.orders[o].script[0].state
            && (Known(book, id) ==> x.book == book)
            && (!Known(book, id) ==> o !in book.orders && x.book == book.(orders := book.orders[o := x.book.orders[o]]))
            && (o !in db.orders ==> x.db.orders == db.orders[o := Order(id, Report(x.outcome.state, 0.0, None), at, None, None)])
            && x.db == db.(orders := x.db.orders)
  {
    hide SelectLots, Settle, ApplySlippage, OpenLotsForSymbol, ExecutePaper;
  }

  // ---- Deciding ---------------------------------------------------------------------------

  /** What an approval must find before the transition. */
  ghost predicate MayApprove(db: Tables, id: SignalId, g: Gates, confirmLive: bool) {
    && id in db.signals && db.signals[id].status == Pending
    && !g.killSwitchEnv && !g.killSwitch
    && (db.signals[id].mode == Live ==> g.liveTradingEnabled && g.liveMode && confirmLive)
    && (db.signals[id].side == Sell ==> Holds(db, db.signals[id].symbol))
  }

  /**
   * A signal comes out approved if and only if it was asked for and every condition held; refused by one of
   * them it stays pending and nothing changes, and the kill switch is the reason given whenever it is on.
   */
  lemma ApprovedIff(db: Tables, book: Book, id: SignalId, req: Request, at: Times, bps: int, draw: Draw)
    requires DrawsEnough(draw) && id in db.signals && db.signals[id].status == Pending
    ensures var (x, reply) := Decide(db, book, id, req, at, bps, draw);
            && (reply.SignalApproved? <==> req.approve && MayApprove(db, id, req.before, req.confirmLive))
            && (id in x.db.signals)
            && (x.db.signals[id].status != Pending ==> x.db.signals[id].decidedAt == Some(at.decidedAt))
            && x.db.signals[id].status
               == (if !req.approve then Rejected else if MayApprove(db, id, req.before, req.confirmLive) then Approved else Pending)
            && (req.approve && !MayApprove(db, id, req.before, req.confirmLive) ==> x == After(db, book, NotExecuted) && reply.NotNow?)
            && (reply == NotNow(KillSwitchEngaged) <==> req.approve && (req.before.killSwitchEnv || req.before.killSwitch))
            && (reply == NotNow(LiveModeNotEnabled) <==>
                  req.approve && !req.before.killSwitchEnv && !req.before.killSwitch && db.signals[id].mode == Live
                  && (!req.before.liveTradingEnabled || !req.before.liveMode))
            && (reply == NotNow(LiveConfirmationRequired) <==>
                  req.approve && !req.before.killSwitchEnv && !req.before.killSwitch && db.signals[id].mode == Live
                  && req.before.liveTradingEnabled && req.before.liveMode && !req.confirmLive)
            && (!req.approve ==> x.book == book && x.db.executions == db.executions && x.db.rows == db.rows)
  {
    hide Execute, OpenLotsForSymbol, Holds;
    var s := db.signals[id];
    HoldsIffListed(db, s.symbol);
    if req.approve && MayApprove(db, id, req.before, req.confirmLive) {
      var decided := Ledger.TransitionSignal(db, id, Approved, at.decidedAt).value;
      KeepsDecision(decided, book, id, req.during, bps, at.filledAt, at.publishedAt, draw);
    }
  }

  lemma KeepsDecision(db: Tables, book: Book, id: SignalId, g: Gates, bps: int, filledAt: int, publishedAt: int, draw: Draw)
    requires id in db.signals && DrawsEnough(draw)
    ensures var x := CarryOut(db, book, id, g, bps, filledAt, publishedAt, draw);
            && id in x.db.signals && x.db.signals[id].status == db.signals[id].status
            && x.db.signals[id].decidedAt == db.signals[id].decidedAt
            && (x.outcome.FilledNow? && !db.signals[id].published ==>
                  x.db.signals[id].published && x.db.signals[id].publishedAt == Some(publishedAt))
  {
    hide SelectLots, Settle, ApplySlippage, OpenLotsForSymbol, Place;
    var s := db.signals[id];
    var fill := PaperFill(s, bps, filledAt);
    var recorded := Ledger.RecordExecution(db, Execution(id, Paper, fill.price, fill.quantity, filledAt, None));
    SettleFailsOnlyWithNothingToClose(recorded, id, fill.price, fill.quantity, filledAt, draw);
    SameSelection(db, recorded, s.symbol, s.quantity);
  }

  /** With the gates open throughout and what its mode needs in place, an approval is followed by its order or fill. */
  lemma ApprovalActs(db: Tables, book: Book, id: SignalId, req: Request, at: Times, bps: int, draw: Draw)
    requires DrawsEnough(draw) && BookValid(book) && req.approve && MayApprove(db, id, req.before, req.confirmLive)
    ensures var (x, reply) := Decide(db, book, id, req, at, bps, draw); var s, g := db.signals[id], req.during;
            && reply == SignalApproved(x.outcome)
            && (x.outcome.FilledNow? <==> !g.killSwitchEnv && !g.killSwitch && s.mode == Paper && PaperFills(db, s))
            && (x.outcome.OrderPlaced? <==> !g.killSwitchEnv && !g.killSwitch && s.mode == Live && LivePlaces(db, book, s, g))
            && (x.outcome.FilledNow? && !s.published ==>
                  id in x.db.signals && x.db.signals[id].published && x.db.signals[id].publishedAt == Some(at.publishedAt))
  {
    hide Execute, OpenLotsForSymbol, Holds, BookValid, Queue;
    KeepsDecision(Ledger.TransitionSignal(db, id, Approved, at.decidedAt).value, book, id, req.during, bps, at.filledAt, at.publishedAt, draw);
    var s := db.signals[id];
    HoldsIffListed(db, s.symbol);
    var decided := Ledger.TransitionSignal(db, id, Approved, at.decidedAt).value;
    ExecutesIff(decided, book, id, req.during, bps, at.filledAt, draw);
    SameHoldings(db, decided, s.symbol, s.quantity);
  }

  lemma SameHoldings(db: Tables, db': Tables, s: Symbol, quantity: real)
    requires SameLots(db, db')
    ensures Queue(db', s) == Queue(db, s) && (Holds(db', s) <==> Holds(db, s))
  {
    SameSelection(db, db', s, quantity);
    HoldsIffListed(db, s);
    HoldsIffListed(db', s);
  }
}
