/** Approving and executing a signal, and settling its fill into lots (backend/src/orchestrator/executor.ts). */
module Executor {
  import opened Prelude
  import opened Money
  import opened Ledger
  import opened Lots
  import opened LotsLaws
  import opened Protocol
  import opened Storage
  import opened Brokerage

  // ---- The lots a sell consumes -----------------------------------------------------------

  /** The lots taken so far, and the lots the rest of the loop will take. */
  ghost predicate Taking(lots: seq<OpenLot>, i: nat, running: real, wanted: real) {
    i <= |lots| && Fitting(lots, 0.0, wanted) == lots[..i] + Fitting(lots[i..], running, wanted)
  }

  lemma TakesOneMore(lots: seq<OpenLot>, i: nat, running: real, wanted: real)
    requires Taking(lots, i, running, wanted) && i < |lots|
    ensures if running + lots[i].quantity > wanted then Fitting(lots, 0.0, wanted) == lots[..i]
            else Taking(lots, i + 1, running + lots[i].quantity, wanted)
  {
    assert lots[i..][0] == lots[i] && lots[i..][1..] == lots[i + 1..];
    assert lots[..i + 1] == lots[..i] + [lots[i]];
  }

  lemma TakesAll(lots: seq<OpenLot>, running: real, wanted: real)
    requires Taking(lots, |lots|, running, wanted)
    ensures Fitting(lots, 0.0, wanted) == lots[..|lots|]
  {
    assert lots[|lots|..] == [];
  }

  /** `selectLotsToClose`: whole lots, front to back, until one would overshoot. */
  method SelectLotsToClose(db: Database, s: Symbol, quantity: real) returns (chosen: seq<SignalId>)
    ensures chosen == SelectLots(db.Contents(), s, quantity)
  {
    var lots := Queue(db.Contents(), s);
    chosen := [];
    var running, i := 0.0, 0;
    assert lots[..0] == [] && lots[0..] == lots;
    hide Fitting, Taking, Queue;
    StartsTaking(lots, quantity);
    while i < |lots|
      invariant 0 <= i <= |lots| && chosen == IdsOf(lots[..i])
      invariant Taking(lots, i, running, quantity)
    {
      TakesOneMore(lots, i, running, quantity);
      var next := running + lots[i].quantity;
      if next > quantity { break; }
      chosen := chosen + [lots[i].signalId];
      running := next;
      i := i + 1;
    }
    if i == |lots| { TakesAll(lots, running, quantity); }
  }

  lemma StartsTaking(lots: seq<OpenLot>, wanted: real)
    ensures Taking(lots, 0, 0.0, wanted)
  {
    assert lots[..0] == [] && lots[0..] == lots;
  }

  // ---- Settling a fill ----------------------------------------------------------------------

  datatype SettleError = NoOpenPosition | ClosingFailed

  /** `settleLots`: a buy opens a lot, a sell closes the lots its shares cover. */
  function Settle(db: Tables, id: SignalId, price: real, quantity: real, at: int, draw: Draw): Result<Tables, SettleError>
    requires id in db.signals && DrawsEnough(draw)
  {
    if db.signals[id].side == Sell then
      var lots := SelectLots(db, db.signals[id].symbol, quantity);
      if lots == [] then Failure(NoOpenPosition)
      else
        var t := CloseLots(db, lots, price, id, at, draw(db.rows, |lots|));
        if t == None then Failure(ClosingFailed) else Success(t.value)
    else
      assert |draw(db.rows, 1)| == 1;
      Success(AppendRow(db, OpeningRow(db, id, price, quantity, at, draw(db.rows, 1)[0])))
  }

  /** A fill settled without interruption fails only when there is nothing to close, and then writes nothing. */
  lemma SettleFailsOnlyWithNothingToClose(db: Tables, id: SignalId, price: real, quantity: real, at: int, draw: Draw)
    requires id in db.signals && DrawsEnough(draw)
    ensures var r := Settle(db, id, price, quantity, at, draw);
            && (r.Failure? <==> db.signals[id].side == Sell && SelectLots(db, db.signals[id].symbol, quantity) == [])
            && (r.Failure? ==> r.error == NoOpenPosition)
            && (r.Success? ==> r.value == db.(rows := r.value.rows) && db.rows < r.value.rows)
  {
    if db.signals[id].side == Sell {
      var lots := SelectLots(db, db.signals[id].symbol, quantity);
      SelectThenClose(db, db.signals[id].symbol, quantity, price, id, at, draw(db.rows, |lots|));
      CloseLotsAppends(db, lots, price, id, at, draw(db.rows, |lots|));
    }
  }

  method SettleLots(db: Database, id: SignalId, fill: Fill, draw: Draw) returns (r: Result<seq<Row>, SettleError>)
    requires id in db.signals && DrawsEnough(draw)
    modifies db
    ensures var t := Settle(old(db.Contents()), id, fill.price, fill.quantity, fill.filledAt, draw);
            && (r.Success? <==> t.Success?) && (r.Failure? ==> t == Failure(r.error))
            && db.Contents() == if t.Success? then t.value else old(db.Contents())
    ensures r.Success? ==> db.rows == old(db.rows) + r.value
  {
    var signal := db.signals[id];
    if signal.side == Sell {
      var consumed := SelectLotsToClose(db, signal.symbol, fill.quantity);
      if consumed == [] {
        return Failure(NoOpenPosition);
      }
      var closed := db.CloseLots(consumed, fill.price, id, fill.filledAt, draw(db.rows, |consumed|));
      return if closed.Success? then Success(closed.value) else Failure(ClosingFailed);
    }
    assert |draw(db.rows, 1)| == 1;
    var row := OpeningRow(db.Contents(), id, fill.price, fill.quantity, fill.filledAt, draw(db.rows, 1)[0]);
    db.AppendTrackRecord(row);
    r := Success([row]);
  }

  // ---- Lots depend on the rows, and on each signal's symbol and size --------------------------

  ghost predicate SameLots(db: Tables, db': Tables) {
    && db'.rows == db.rows && db'.signals.Keys == db.signals.Keys
    && forall id :: id in db.signals ==>
         db'.signals[id].symbol == db.signals[id].symbol && db'.signals[id].quantity == db.signals[id].quantity
         && db'.signals[id].side == db.signals[id].side
  }

  lemma {:induction false} SameOpenAmong(db: Tables, db': Tables, ids: seq<SignalId>)
    requires SameLots(db, db')
    ensures OpenAmong(db', ids) == OpenAmong(db, ids)
  {
    if ids == [] {
    } else {
      SameOpenAmong(db, db', ids[..|ids| - 1]);
    }
  }

  lemma SameSelection(db: Tables, db': Tables, s: Symbol, quantity: real)
    requires SameLots(db, db')
    ensures OpenLotsForSymbol(db', s) == OpenLotsForSymbol(db, s)
    ensures SelectLots(db', s, quantity) == SelectLots(db, s, quantity)
  {
    SameOpenAmong(db, db', LotIds(db.rows));
  }

  // ---- Executing ------------------------------------------------------------------------------

  /** What an executor reads before it acts: the two halves of the kill switch, the two live gates, and a review that answers. */
  datatype Gates = Gates(killSwitchEnv: bool, killSwitch: bool, liveTradingEnabled: bool, liveMode: bool, reviewed: bool)

  predicate Halted(g: Gates) {
    g.killSwitchEnv || g.killSwitch
  }

  datatype Outcome = FilledNow(fill: Fill) | OrderPlaced(oid: OrderId, state: OrderState) | NotExecuted

  /** The tables and the broker after an execution, and how it ended. */
  datatype After = After(db: Tables, book: Book, outcome: Outcome)

  function PaperFill(s: Signal, slippageBps: int, filledAt: int): Fill {
    Fill(ApplySlippage(s.estimatedPrice, s.side, slippageBps), s.quantity, filledAt)
  }

  /** `PaperExecutor.execute`: an exit with nothing to close leaves no trace at all. */
  function ExecutePaper(db: Tables, id: SignalId, slippageBps: int, at: int, draw: Draw): Option<Tables>
    requires id in db.signals && DrawsEnough(draw)
  {
    var s := db.signals[id];
    var fill := PaperFill(s, slippageBps, at);
    var recorded := Ledger.RecordExecution(db, Execution(id, Paper, fill.price, fill.quantity, at, None));
    if s.mode != Paper || (s.side == Sell && SelectLots(db, s.symbol, s.quantity) == []) then None
    else
      SettleFailsOnlyWithNothingToClose(recorded, id, fill.price, fill.quantity, at, draw);
      SameSelection(db, recorded, s.symbol, s.quantity);
      Some(Settle(recorded, id, fill.price, fill.quantity, at, draw).value)
  }

  /** `LiveExecutor.execute`: gates, review, place with the signal's own reference, record the order, await the fill. */
  ghost function ExecuteLive(db: Tables, book: Book, id: SignalId, g: Gates, at: int): After
    requires id in db.signals
  {
    var s := db.signals[id];
    if !g.liveTradingEnabled || !g.liveMode || s.mode != Live then After(db, book, NotExecuted)
    else if (s.side == Sell && OpenLotsForSymbol(db, s.symbol) == []) || !g.reviewed then After(db, book, NotExecuted)
    else
      var p := Place(book, s.symbol, id);
      if p == None then After(db, book, NotExecuted)
      else After(Ledger.RecordPlacedOrder(db, p.value.1, id, p.value.2, at), p.value.0, OrderPlaced(p.value.1, p.value.2))
  }

  /** The kill switch first; then the mode a signal was created in settles it. */
  ghost function Execute(db: Tables, book: Book, id: SignalId, g: Gates, slippageBps: int, at: int, draw: Draw): After
    requires id in db.signals && DrawsEnough(draw)
  {
    if Halted(g) then After(db, book, NotExecuted)
    else if db.signals[id].mode == Live then ExecuteLive(db, book, id, g, at)
    else
      var t := ExecutePaper(db, id, slippageBps, at, draw);
      if t == None then After(db, book, NotExecuted)
      else After(t.value, book, FilledNow(PaperFill(db.signals[id], slippageBps, at)))
  }

  method PaperExecutor(db: Database, id: SignalId, g: Gates, slippageBps: int, at: int, draw: Draw) returns (outcome: Outcome)
    requires id in db.signals && DrawsEnough(draw)
    modifies db
    ensures var t := if Halted(g) then None else ExecutePaper(old(db.Contents()), id, slippageBps, at, draw);
            && db.Contents() == (if t == None then old(db.Contents()) else t.value)
            && outcome == if t == None then NotExecuted else FilledNow(PaperFill(old(db.signals)[id], slippageBps, at))
  {
    if Halted(g) {
      return NotExecuted;
    }
    var signal := db.signals[id];
    if signal.mode != Paper {
      return NotExecuted;
    }
    var fill := PaperFill(signal, slippageBps, at);
    if signal.side == Sell {
      var consumed := SelectLotsToClose(db, signal.symbol, signal.quantity);
      if consumed == [] {
        return NotExecuted;
      }
    }
    ghost var before := db.Contents();
    db.RecordExecution(Execution(id, Paper, fill.price, fill.quantity, at, None));
    SettleFailsOnlyWithNothingToClose(db.Contents(), id, fill.price, fill.quantity, at, draw);
    SameSelection(before, db.Contents(), signal.symbol, signal.quantity);
    var settled := SettleLots(db, id, fill, draw);
    outcome := FilledNow(fill);
  }

  method LiveExecutor(db: Database, broker: MockBroker, id: SignalId, g: Gates, at: int) returns (outcome: Outcome)
    requires id in db.signals && BookValid(broker.Contents())
    modifies db, broker
    ensures After(db.Contents(), broker.Contents(), outcome)
            == if Halted(g) then After(old(db.Contents()), old(broker.Contents()), NotExecuted)
               else ExecuteLive(old(db.Contents()), old(broker.Contents()), id, g, at)
    ensures BookValid(broker.Contents())
  {
    if Halted(g) {
      return NotExecuted;
    }
    var signal := db.signals[id];
    if !g.liveTradingEnabled || !g.liveMode || signal.mode != Live {
      return NotExecuted;
    }
    if signal.side == Sell {
      if OpenLotsForSymbol(db.Contents(), signal.symbol) == [] {
        return NotExecuted;
      }
    }
    if !g.reviewed {
      return NotExecuted;
    }
    var placed := broker.PlaceEquityOrder(signal.symbol, id);
    if placed == None {
      return NotExecuted;
    }
    db.RecordPlacedOrder(placed.value.0, id, placed.value.1, at);
    outcome := OrderPlaced(placed.value.0, placed.value.1);
  }

  /** `executorFor`, and the executor it picks. */
  method ExecuteSignal(db: Database, broker: MockBroker, id: SignalId, g: Gates, slippageBps: int, at: int, draw: Draw)
    returns (outcome: Outcome)
    requires id in db.signals && DrawsEnough(draw) && BookValid(broker.Contents())
    modifies db, broker
    ensures After(db.Contents(), broker.Contents(), outcome)
            == Execute(old(db.Contents()), old(broker.Contents()), id, g, slippageBps, at, draw)
    ensures BookValid(broker.Contents())
  {
    if db.signals[id].mode == Live {
      outcome := LiveExecutor(db, broker, id, g, at);
    } else {
      outcome := PaperExecutor(db, id, g, slippageBps, at, draw);
    }
  }
}
