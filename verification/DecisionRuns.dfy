/** A decision, and a whole autonomy sweep, is one of the protocol's runs: the same tables and the same broker, step by step. */
module DecisionRuns {
  import opened Prelude
  import opened Money
  import opened Ledger
  import opened Lots
  import opened Protocol
  import opened ProtocolInvariant
  import ProtocolTheorems
  import opened Brokerage
  import opened Executor
  import opened Decisions

  const NOTHING := Report(Working, 0.0, None)

  // ---- Chains of actions ---------------------------------------------------------------------

  lemma ExecNone(w: World)
    ensures Exec(w, []) == w
  {
  }

  lemma ExecOne(w: World, a: Action)
    ensures Exec(w, [a]) == Do(w, a)
  {
    hide Do;
    ExecAppend(w, [], a);
    assert [] + [a] == [a] && Exec(w, []) == w;
  }

  lemma ExecPrefix(w: World, a: Action, b: Action, rest: seq<Action>)
    ensures Exec(w, [a, b] + rest) == Exec(Do(Do(w, a), b), rest)
  {
    hide Do;
    ExecOne(w, a);
    ExecAppend(w, [a], b);
    assert [a] + [b] == [a, b];
    ExecChain(w, [a, b], rest);
  }

  lemma {:induction false} ExecChain(w: World, xs: seq<Action>, ys: seq<Action>)
    ensures Exec(w, xs + ys) == Exec(Exec(w, xs), ys)
  {
    hide Do;
    if ys == [] {
      assert xs + ys == xs;
    } else {
      assert (xs + ys)[..|xs + ys| - 1] == xs + ys[..|ys| - 1];
      ExecChain(w, xs, ys[..|ys| - 1]);
    }
  }

  // ---- The steps of the thread that decides ------------------------------------------------------

  /** What one action of the thread does, when only its own place and the tables change. */
  ghost predicate Steps(w: World, a: Action, t: int, db: Tables, to: Option<Thread>) {
    Do(w, a) == w.(db := db, threads := if to == None then w.threads - {t} else w.threads[t := to.value])
  }

  lemma AskStep(w: World, t: int, id: SignalId, to: Status, stamp: Stamp)
    requires t !in w.threads && id in w.db.signals && w.db.signals[id].status == Pending
    requires to != Pending && When(w, stamp) <= w.clock && (to == Approved ==> Preflight(w.db, id))
    ensures Steps(w, Ask(t, id, to, stamp), t, w.db, Some(Deciding(id, to, stamp)))
  {
    hide Preflight;
  }

  lemma ThreadStep(w: World, t: int, oid: OrderId, first: Report, ids: seq<RowId>)
    requires t in w.threads
    ensures Do(w, Advance(t, oid, first, ids)) == AdvanceThread(w, t, oid, first, ids)
  {
  }

  lemma DecidesAlone(w: World, t: int, id: SignalId, to: Status, stamp: Stamp)
    requires t in w.threads && w.threads[t] == Deciding(id, to, stamp)
    requires id in w.db.signals && w.db.signals[id].status == Pending
    ensures Steps(w, Advance(t, 0, NOTHING, []), t, Ledger.TransitionSignal(w.db, id, to, When(w, stamp)).value,
                  if to == Approved then Some(Won(id, stamp)) else None)
  {
    hide SelectLots, PlaceAtBroker;
    ThreadStep(w, t, 0, NOTHING, []);
  }

  lemma LooksAlone(w: World, t: int, id: SignalId, stamp: Stamp)
    requires t in w.threads && w.threads[t] == Won(id, stamp) && id in w.db.signals
    ensures Steps(w, Advance(t, 0, NOTHING, []), t, w.db,
                  if MayExecute(w.db, w.db.signals[id]) then Some(Ready(id, When(w, stamp), stamp)) else None)
  {
    hide SelectLots, MayExecute, PlaceAtBroker;
    ThreadStep(w, t, 0, NOTHING, []);
  }

  lemma StopsAlone(w: World, t: int)
    requires t in w.threads
    ensures Steps(w, Dies(t), t, w.db, None)
  {
  }

  lemma RecordsAlone(w: World, t: int, id: SignalId, at: int, stamp: Stamp)
    requires t in w.threads && w.threads[t] == Ready(id, at, stamp) && id in w.db.signals && w.db.signals[id].mode == Paper
    ensures var fill := PaperFill(w.db.signals[id], w.slippageBps, at);
            Steps(w, Advance(t, 0, NOTHING, []), t,
                  Ledger.RecordExecution(w.db, Execution(id, Paper, fill.price, fill.quantity, at, None)),
                  Some(Thread.Executed(id, fill, stamp)))
  {
    hide ApplySlippage, PlaceAtBroker, SelectLots;
    ThreadStep(w, t, 0, NOTHING, []);
  }

  lemma PublishesAlone(w: World, t: int, id: SignalId, stamp: Stamp)
    requires t in w.threads && w.threads[t] == Thread.Settled(id, stamp)
    ensures Steps(w, Advance(t, 0, NOTHING, []), t, Disclose(w.db, id, When(w, stamp)), None)
  {
    hide SelectLots, PlaceAtBroker;
    ThreadStep(w, t, 0, NOTHING, []);
  }

  lemma ChoosesAlone(w: World, t: int, id: SignalId, fill: Fill, lots: seq<SignalId>, stamp: Stamp)
    requires t in w.threads && w.threads[t] == Thread.Executed(id, fill, stamp) && id in w.db.signals
    requires w.db.signals[id].side == Sell && lots == SelectLots(w.db, w.db.signals[id].symbol, fill.quantity) && lots != []
    ensures Steps(w, Advance(t, 0, NOTHING, []), t, w.db, Some(Selected(id, fill, lots, stamp)))
  {
    hide SelectLots, PlaceAtBroker, OpeningRow;
    ThreadStep(w, t, 0, NOTHING, []);
  }

  lemma ClosesAlone(w: World, t: int, id: SignalId, fill: Fill, lots: seq<SignalId>, ids: seq<RowId>, stamp: Stamp)
    requires t in w.threads && w.threads[t] == Selected(id, fill, lots, stamp) && |ids| == |lots|
    requires CloseLots(w.db, lots, fill.price, id, fill.filledAt, ids).Some?
    ensures Steps(w, Advance(t, 0, NOTHING, ids), t, CloseLots(w.db, lots, fill.price, id, fill.filledAt, ids).value,
                  Some(Thread.Settled(id, stamp)))
  {
    hide SelectLots, PlaceAtBroker, OpeningRow, CloseLots;
    ThreadStep(w, t, 0, NOTHING, ids);
  }

  lemma OpensAlone(w: World, t: int, id: SignalId, fill: Fill, ids: seq<RowId>, stamp: Stamp)
    requires t in w.threads && w.threads[t] == Thread.Executed(id, fill, stamp) && id in w.db.signals
    requires w.db.signals[id].side != Sell && |ids| == 1
    ensures Steps(w, Advance(t, 0, NOTHING, ids), t, AppendRow(w.db, OpeningRow(w.db, id, fill.price, fill.quantity, fill.filledAt, ids[0])),
                  Some(Thread.Settled(id, stamp)))
  {
    hide SelectLots, PlaceAtBroker, OpeningRow, CloseLots;
    ThreadStep(w, t, 0, NOTHING, ids);
  }

  // ---- A paper fill -------------------------------------------------------------------------------

  lemma SettlesAlone(w: World, t: int, id: SignalId, fill: Fill, stamp: Stamp, draw: Draw) returns (actions: seq<Action>)
    requires DrawsEnough(draw) && t in w.threads && w.threads[t] == Thread.Executed(id, fill, stamp)
    requires id in w.db.signals && Settle(w.db, id, fill.price, fill.quantity, fill.filledAt, draw).Success?
    ensures Exec(w, actions) == w.(db := Settle(w.db, id, fill.price, fill.quantity, fill.filledAt, draw).value,
                                   threads := w.threads[t := Thread.Settled(id, stamp)])
  {
    hide Exec, Do;
    if w.db.signals[id].side == Sell {
      var lots := SelectLots(w.db, w.db.signals[id].symbol, fill.quantity);
      var ids := draw(w.db.rows, |lots|);
      assert |ids| == |lots|;
      var w1 := w.(threads := w.threads[t := Selected(id, fill, lots, stamp)]);
      ChoosesAlone(w, t, id, fill, lots, stamp);
      ClosesAlone(w1, t, id, fill, lots, ids, stamp);
      assert w1.threads[t := Thread.Settled(id, stamp)] == w.threads[t := Thread.Settled(id, stamp)];
      actions := [Advance(t, 0, NOTHING, []), Advance(t, 0, NOTHING, ids)];
      ExecPrefix(w, actions[0], actions[1], []);
      assert actions + [] == actions;
      ExecNone(Do(w1, actions[1]));
    } else {
      var ids := draw(w.db.rows, 1);
      assert |ids| == 1;
      OpensAlone(w, t, id, fill, ids, stamp);
      actions := [Advance(t, 0, NOTHING, ids)];
      ExecOne(w, actions[0]);
    }
  }

  /** From the executor's passed checks to the end. */
  lemma FillsAlone(w: World, t: int, id: SignalId, stamp: Stamp, draw: Draw) returns (actions: seq<Action>)
    requires DrawsEnough(draw) && t in w.threads && w.threads[t] == Ready(id, When(w, stamp), stamp)
    requires id in w.db.signals && w.db.signals[id].mode == Paper && MayExecute(w.db, w.db.signals[id])
    ensures var x := ExecutePaper(w.db, id, w.slippageBps, When(w, stamp), draw);
            x.Some? && Exec(w, actions) == Drop(w.(db := Disclose(x.value, id, When(w, stamp))), t)
  {
    hide Exec, Do, AdvanceThread, SelectLots, CloseLots, ApplySlippage, Settle;
    var s, at := w.db.signals[id], When(w, stamp);
    var fill := PaperFill(s, w.slippageBps, at);
    var step := Advance(t, 0, NOTHING, []);
    var db1 := Ledger.RecordExecution(w.db, Execution(id, Paper, fill.price, fill.quantity, at, None));
    RecordsAlone(w, t, id, at, stamp);
    var w1 := w.(db := db1, threads := w.threads[t := Thread.Executed(id, fill, stamp)]);
    SameSelection(w.db, db1, s.symbol, s.quantity);
    SettleFailsOnlyWithNothingToClose(db1, id, fill.price, fill.quantity, at, draw);
    var db2 := Settle(db1, id, fill.price, fill.quantity, at, draw).value;
    var middle := SettlesAlone(w1, t, id, fill, stamp, draw);
    var w2 := w.(db := db2, threads := w.threads[t := Thread.Settled(id, stamp)]);
    assert w1.threads[t := Thread.Settled(id, stamp)] == w2.threads;
    PublishesAlone(w2, t, id, stamp);
    ExecOne(w, step);
    ExecChain(w, [step], middle);
    ExecAppend(w, [step] + middle, step);
    actions := [step] + middle + [step];
    assert w2.threads - {t} == w.threads - {t};
  }

  // ---- A live order -------------------------------------------------------------------------------

  /** No order at the broker belongs to a signal still pending. */
  ghost predicate Unplaced(db: Tables, book: Book) {
    forall id :: id in db.signals && db.signals[id].status == Pending ==> !Known(book, id)
  }

  /** Every script the broker follows stays where it ends. */
  ghost predicate ScriptsSettle(book: Book) {
    forall s :: s in book.scripts ==> Settles(book.scripts[s])
  }

  /** The world's broker is the book's. */
  ghost predicate Mirrors(w: World, book: Book) {
    BookValid(book) && ScriptsSettle(book) && w.broker == View(book)
  }

  function NewOrderId(book: Book): OrderId {
    |book.orders| + 1
  }

  lemma UnknownRef(book: Book, id: SignalId)
    requires BookValid(book) && !Known(book, id)
    ensures !KnownRef(View(book), id) && NewOrderId(book) !in View(book)
  {
  }

  /** The broker takes the order, in the state its script begins with. */
  lemma PlacesAlone(w: World, t: int, id: SignalId, at: int, stamp: Stamp, oid: OrderId, first: Report)
    requires t in w.threads && w.threads[t] == Ready(id, at, stamp) && id in w.db.signals && w.db.signals[id].mode == Live
    requires oid !in w.broker && !KnownRef(w.broker, id)
    ensures Do(w, Advance(t, oid, first, []))
            == w.(broker := w.broker[oid := BrokerOrder(id, first)], threads := w.threads[t := Placed(id, oid, first.state, stamp)])
  {
    hide SelectLots, ApplySlippage, KnownRef;
    ThreadStep(w, t, oid, first, []);
  }

  lemma NotesAlone(w: World, t: int, id: SignalId, oid: OrderId, state: OrderState, stamp: Stamp)
    requires t in w.threads && w.threads[t] == Placed(id, oid, state, stamp)
    ensures Steps(w, Advance(t, 0, NOTHING, []), t, Ledger.RecordPlacedOrder(w.db, oid, id, state, When(w, stamp)), None)
  {
    hide SelectLots, PlaceAtBroker;
    ThreadStep(w, t, 0, NOTHING, []);
  }

  /** By the first look the order has moved one step along its script, if the script goes on. */
  lemma MovesOn(w: World, oid: OrderId, id: SignalId, script: seq<Report>) returns (actions: seq<Action>)
    requires oid in w.broker && script != [] && Settles(script) && w.broker[oid] == BrokerOrder(id, script[0])
    ensures Exec(w, actions) == w.(broker := w.broker[oid := BrokerOrder(id, Step(Scripted(id, script, 1)))])
  {
    var next := Step(Scripted(id, script, 1));
    if Terminal(script[0].state) || next == script[0] {
      assert next == script[0];
      assert w.broker[oid := BrokerOrder(id, next)] == w.broker;
      actions := [];
      ExecNone(w);
    } else {
      actions := [BrokerMoves(oid, next)];
      ExecOne(w, actions[0]);
    }
  }

  lemma ViewGrows(book: Book, id: SignalId, script: seq<Report>)
    requires BookValid(book) && !Known(book, id) && script != []
    ensures var oid := NewOrderId(book); var book' := book.(orders := book.orders[oid := Scripted(id, script, 1)]);
            BookValid(book') && View(book') == View(book)[oid := BrokerOrder(id, Step(Scripted(id, script, 1)))]
  {
    NewOrder(book, NewOrderId(book), Scripted(id, script, 1));
  }

  /** From the executor's passed checks to the order's row. */
  lemma OrdersAlone(w: World, t: int, id: SignalId, stamp: Stamp, book: Book) returns (actions: seq<Action>)
    requires t in w.threads && w.threads[t] == Ready(id, When(w, stamp), stamp)
    requires id in w.db.signals && w.db.signals[id].mode == Live && Mirrors(w, book) && !Known(book, id)
    requires !Refuses(book, w.db.signals[id].symbol)
    ensures var p := Place(book, w.db.signals[id].symbol, id);
            && p.Some? && BookValid(p.value.0) && Mirrors(w.(broker := View(p.value.0)), p.value.0)
            && Exec(w, actions) == Drop(w.(db := Ledger.RecordPlacedOrder(w.db, p.value.1, id, p.value.2, When(w, stamp)), broker := View(p.value.0)), t)
  {
    hide Exec, Do, AdvanceThread, Settles, KnownRef, View, Step, Known, BookValid, Ledger.RecordPlacedOrder;
    var script, oid := book.scripts[w.db.signals[id].symbol], NewOrderId(book);
    UnknownRef(book, id);
    ViewGrows(book, id, script);
    var next := BrokerOrder(id, Step(Scripted(id, script, 1)));
    var place, note := Advance(t, oid, script[0], []), Advance(t, 0, NOTHING, []);
    var w1 := w.(broker := w.broker[oid := BrokerOrder(id, script[0])], threads := w.threads[t := Placed(id, oid, script[0].state, stamp)]);
    PlacesAlone(w, t, id, When(w, stamp), stamp, oid, script[0]);
    NotesAlone(w1, t, id, oid, script[0].state, stamp);
    var w2 := w1.(db := Ledger.RecordPlacedOrder(w.db, oid, id, script[0].state, When(w, stamp)), threads := w.threads - {t});
    assert w1.threads - {t} == w.threads - {t};
    var moves := MovesOn(w2, oid, id, script);
    actions := [place, note] + moves;
    ExecPrefix(w, place, note, moves);
    assert w2.broker[oid := next] == w.broker[oid := next];
  }

  // ---- A decision -----------------------------------------------------------------------------------

  /** From a won transition: the gates, the executor's own look at the lots, then the fill or the order. */
  lemma WonAlone(w: World, t: int, id: SignalId, stamp: Stamp, g: Gates, book: Book, draw: Draw) returns (actions: seq<Action>)
    requires DrawsEnough(draw) && t in w.threads && w.threads[t] == Won(id, stamp) && id in w.db.signals
    requires Mirrors(w, book) && !Known(book, id)
    ensures var x := CarryOut(w.db, book, id, g, w.slippageBps, When(w, stamp), When(w, stamp), draw);
            BookValid(x.book) && Mirrors(w.(broker := View(x.book)), x.book)
            && Exec(w, actions) == Drop(w.(db := x.db, broker := View(x.book)), t)
  {
    hide Exec, Do, AdvanceThread, SelectLots, ExecutePaper, Mirrors, Known, View, BookValid, Ledger.RecordPlacedOrder;
    MirrorIsView(w, book);
    var s, step, stop := w.db.signals[id], Advance(t, 0, NOTHING, []), Dies(t);
    LooksAlone(w, t, id, stamp);
    StopsAlone(w, t);
    ExecOne(w, step);
    ExecOne(w, stop);
    var ready := w.(threads := w.threads[t := Ready(id, When(w, stamp), stamp)]);
    var gated := s.mode == Live && (!g.liveTradingEnabled || !g.liveMode || !g.reviewed || Refuses(book, s.symbol));
    if Halted(g) || gated {
      RefusedLeavesAll(w.db, book, id, g, w.slippageBps, When(w, stamp), draw);
      actions := [stop];
    } else if !MayExecute(w.db, s) {
      NothingLeavesAll(w.db, book, id, g, w.slippageBps, When(w, stamp), draw);
      actions := [step];
    } else {
      assert ready.threads - {t} == w.threads - {t};
      var rest;
      if s.mode == Live {
        SameMirror(w, ready, book);
        rest := OrdersAlone(ready, t, id, stamp, book);
        SameMirror(ready.(broker := View(Place(book, s.symbol, id).value.0)), w.(broker := View(Place(book, s.symbol, id).value.0)),
                   Place(book, s.symbol, id).value.0);
        MirrorIsView(w.(broker := View(Place(book, s.symbol, id).value.0)), Place(book, s.symbol, id).value.0);
      } else {
        rest := FillsAlone(ready, t, id, stamp, draw);
      }
      actions := [step] + rest;
      ExecChain(w, [step], rest);
    }
  }

  lemma MirrorIsView(w: World, book: Book)
    requires Mirrors(w, book)
    ensures BookValid(book) && w.broker == View(book) && w.(broker := View(book)) == w
  {
  }

  lemma SameMirror(w: World, w': World, book: Book)
    requires Mirrors(w, book) && w'.broker == w.broker
    ensures Mirrors(w', book)
  {
  }

  lemma RefusedLeavesAll(db: Tables, book: Book, id: SignalId, g: Gates, bps: int, at: int, draw: Draw)
    requires DrawsEnough(draw) && id in db.signals
    requires Halted(g) || (db.signals[id].mode == Live
             && (!g.liveTradingEnabled || !g.liveMode || !g.reviewed || Refuses(book, db.signals[id].symbol)))
    ensures CarryOut(db, book, id, g, bps, at, at, draw) == After(db, book, NotExecuted)
  {
    hide ExecutePaper, SelectLots;
  }

  lemma NothingLeavesAll(db: Tables, book: Book, id: SignalId, g: Gates, bps: int, at: int, draw: Draw)
    requires DrawsEnough(draw) && id in db.signals && !MayExecute(db, db.signals[id])
    ensures CarryOut(db, book, id, g, bps, at, at, draw) == After(db, book, NotExecuted)
  {
    hide SelectLots, Settle;
  }

  /** A decision of a pending signal, by the owner or by the sweep, once its pre-flight has passed. */
  lemma DecisionAlone(w: World, t: int, id: SignalId, to: Status, stamp: Stamp, g: Gates, book: Book, draw: Draw) returns (actions: seq<Action>)
    requires DrawsEnough(draw) && t !in w.threads && id in w.db.signals && w.db.signals[id].status == Pending
    requires to != Pending && When(w, stamp) <= w.clock && (to == Approved ==> Preflight(w.db, id))
    requires Mirrors(w, book) && !Known(book, id)
    ensures var db1 := Ledger.TransitionSignal(w.db, id, to, When(w, stamp)).value;
            var x := if to == Approved then CarryOut(db1, book, id, g, w.slippageBps, When(w, stamp), When(w, stamp), draw)
                     else After(db1, book, NotExecuted);
            BookValid(x.book) && Mirrors(w.(broker := View(x.book)), x.book) && Exec(w, actions) == w.(db := x.db, broker := View(x.book))
  {
    hide Exec, Do, AdvanceThread, Preflight, CarryOut, Mirrors, Known, View, BookValid;
    MirrorIsView(w, book);
    var ask, step := Ask(t, id, to, stamp), Advance(t, 0, NOTHING, []);
    var db1 := Ledger.TransitionSignal(w.db, id, to, When(w, stamp)).value;
    AskStep(w, t, id, to, stamp);
    var w1 := w.(threads := w.threads[t := Deciding(id, to, stamp)]);
    DecidesAlone(w1, t, id, to, stamp);
    assert w1.threads - {t} == w.threads;
    if to == Approved {
      var w2 := w.(db := db1, threads := w.threads[t := Won(id, stamp)]);
      assert w1.threads[t := Won(id, stamp)] == w2.threads;
      SameMirror(w, w2, book);
      var rest := WonAlone(w2, t, id, stamp, g, book, draw);
      actions := [ask, step] + rest;
      ExecPrefix(w, ask, step, rest);
      assert w2.threads - {t} == w.threads;
      var x := CarryOut(db1, book, id, g, w.slippageBps, When(w, stamp), When(w, stamp), draw);
      SameMirror(w2.(broker := View(x.book)), w.(broker := View(x.book)), x.book);
    } else {
      actions := [ask, step];
      ExecPrefix(w, ask, step, []);
      assert actions + [] == actions;
      ExecNone(Do(Do(w, ask), step));
    }
  }

  /** The route's whole decision, whatever the signal, the request and the gates. */
  lemma DecisionIsARun(w: World, t: int, id: SignalId, req: Request, book: Book, draw: Draw) returns (actions: seq<Action>)
    requires DrawsEnough(draw) && t !in w.threads && Mirrors(w, book) && Unplaced(w.db, book)
    ensures var x := Decide(w.db, book, id, req, Times(w.clock, w.clock, w.clock), w.slippageBps, draw).0;
            BookValid(x.book) && Exec(w, actions) == w.(db := x.db, broker := View(x.book))
  {
    hide Exec, Do, CarryOut, Mirrors, Known, View, BookValid, OpenLotsForSymbol;
    MirrorIsView(w, book);
    if id !in w.db.signals || w.db.signals[id].status != Pending
       || (req.approve && PreflightExecution(w.db, id, req.before, req.confirmLive).Some?) {
      actions := [];
      ExecNone(w);
    } else {
      actions := DecisionAlone(w, t, id, if req.approve then Approved else Rejected, Clock, req.during, book, draw);
    }
  }

  // ---- Pending signals have no order --------------------------------------------------------------

  ghost predicate OrdersFollowApproval(w: World) {
    forall o :: o in w.broker ==> w.broker[o].refId in w.db.signals && w.db.signals[w.broker[o].refId].status == Approved
  }

  lemma StepFollowsApproval(w: World, a: Action)
    requires Inv(w) && OrdersFollowApproval(w)
    ensures OrdersFollowApproval(Do(w, a))
  {
    ProtocolTheorems.StepAllowed(w, a);
    hide AdvancePoll, SelectLots, CloseLots, OpenLotsForSymbol, MayExecute, ApplySlippage, OpeningRow, TransitionSignal, PublishSignal,
      RecordExecution, AppendRow, Ledger.RecordPlacedOrder, DedupeKeyTaken, Preflight, TablesSound, OneCarrier, PollerSound;
    match a
    case Advance(t, oid, first, rowIds) =>
      if t in w.threads { assert ThreadSound(w, w.threads[t]); }
    case PollAdvances(answered, rowIds) => PollLeavesBroker(w, answered, rowIds);
    case _ =>
  }

  lemma PollLeavesBroker(w: World, answered: bool, rowIds: seq<RowId>)
    ensures AdvancePoll(w, answered, rowIds).broker == w.broker
  {
    hide SelectLots, CloseLots, OpeningRow, ExecutionsOf;
  }

  lemma {:induction false} EveryOrderFollowsApproval(clock: int, bps: int, past: seq<Action>)
    ensures OrdersFollowApproval(Exec(Init(clock, bps), past))
  {
    hide Inv, Do, OrdersFollowApproval;
    if past == [] {
      NoOrdersAtFirst(clock, bps);
    } else {
      var front := past[..|past| - 1];
      EveryOrderFollowsApproval(clock, bps, front);
      ProtocolTheorems.InitSound(clock, bps);
      ProtocolTheorems.ExecKeeps(Init(clock, bps), front);
      StepFollowsApproval(Exec(Init(clock, bps), front), past[|past| - 1]);
    }
  }

  lemma NoOrdersAtFirst(clock: int, bps: int)
    ensures OrdersFollowApproval(Init(clock, bps))
  {
  }

  /** In every reachable state the broker knows no order of a pending signal. */
  lemma ReachableIsUnplaced(clock: int, bps: int, past: seq<Action>, book: Book)
    requires BookValid(book) && Exec(Init(clock, bps), past).broker == View(book)
    ensures Unplaced(Exec(Init(clock, bps), past).db, book)
  {
    hide Exec;
    var w := Exec(Init(clock, bps), past);
    EveryOrderFollowsApproval(clock, bps, past);
    forall id | id in w.db.signals && w.db.signals[id].status == Pending ensures !Known(book, id) {
      forall o | o in book.orders ensures book.orders[o].refId != id {
        assert o in w.broker && w.broker[o].refId == book.orders[o].refId;
      }
    }
  }

  // ---- An autonomy sweep ------------------------------------------------------------------------------

  lemma FillKeepsSignals(db: Tables, book: Book, id: SignalId, g: Gates, bps: int, at: int, draw: Draw)
    requires DrawsEnough(draw) && id in db.signals
    ensures var x := CarryOut(db, book, id, g, bps, at, at, draw);
            && x.db.signals.Keys == db.signals.Keys
            && (forall y :: y in db.signals ==> x.db.signals[y].status == db.signals[y].status)
            && (forall y :: Known(x.book, y) ==> Known(book, y) || y == id)
  {
    hide SelectLots, OpenLotsForSymbol, Settle, ApplySlippage;
    var x := CarryOut(db, book, id, g, bps, at, at, draw);
    if db.signals[id].mode == Paper {
      var fill := PaperFill(db.signals[id], bps, at);
      var recorded := Ledger.RecordExecution(db, Execution(id, Paper, fill.price, fill.quantity, at, None));
      SettleFailsOnlyWithNothingToClose(recorded, id, fill.price, fill.quantity, at, draw);
      SameSelection(db, recorded, db.signals[id].symbol, db.signals[id].quantity);
    }
  }

  lemma ApprovalStaysUnplaced(db: Tables, book: Book, id: SignalId, g: Gates, bps: int, at: int, draw: Draw)
    requires DrawsEnough(draw) && Unplaced(db, book) && Ledger.TransitionSignal(db, id, Approved, at).Some?
    ensures var x := CarryOut(Ledger.TransitionSignal(db, id, Approved, at).value, book, id, g, bps, at, at, draw);
            Unplaced(x.db, x.book)
  {
    hide CarryOut, Known;
    FillKeepsSignals(Ledger.TransitionSignal(db, id, Approved, at).value, book, id, g, bps, at, draw);
  }

  /** The whole sweep, with its one instant, is a run of one thread after another. */
  lemma {:induction false} AutonomySweepIsARun(w: World, t: int, due: seq<SignalId>, gates: nat -> Gates, now: int, book: Book, draw: Draw)
    returns (actions: seq<Action>)
    requires DrawsEnough(draw) && t !in w.threads && now <= w.clock && Mirrors(w, book) && Unplaced(w.db, book)
    ensures var x := AutoApproveAll(Swept(w.db, book, [], 0), due, gates, now, w.slippageBps, draw);
            && BookValid(x.book) && Unplaced(x.db, x.book) && Mirrors(w.(broker := View(x.book)), x.book)
            && Exec(w, actions) == w.(db := x.db, broker := View(x.book))
  {
    hide Exec, Do, CarryOut, Mirrors, Known, View, BookValid, OpenLotsForSymbol, Unplaced;
    MirrorIsView(w, book);
    if due == [] {
      actions := [];
      ExecNone(w);
    } else {
      var n := |due| - 1;
      var id := due[n];
      var front := AutonomySweepIsARun(w, t, due[..n], gates, now, book, draw);
      var x := AutoApproveAll(Swept(w.db, book, [], 0), due[..n], gates, now, w.slippageBps, draw);
      var v := w.(db := x.db, broker := View(x.book));
      SameMirror(w.(broker := View(x.book)), v, x.book);
      MirrorIsView(v, x.book);
      if id !in x.db.signals || !Preflight(x.db, id) || x.db.signals[id].status != Pending {
        actions := front;
      } else {
        StillUnknown(x.db, x.book, id);
        var rest := DecisionAlone(v, t, id, Approved, Since(now), gates(n), x.book, draw);
        ApprovalStaysUnplaced(x.db, x.book, id, gates(n), w.slippageBps, now, draw);
        actions := front + rest;
        ExecChain(w, front, rest);
        var y := AutoApprove(x, id, gates(n), now, w.slippageBps, draw);
        SameMirror(v.(broker := View(y.book)), w.(broker := View(y.book)), y.book);
      }
    }
  }

  lemma StillUnknown(db: Tables, book: Book, id: SignalId)
    requires Unplaced(db, book) && id in db.signals && db.signals[id].status == Pending
    ensures !Known(book, id)
  {
  }
}
