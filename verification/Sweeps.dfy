/** The jobs that record what has already happened: the order poll, the publish sweep, the mark run (orders.ts, publish.ts, marks.ts). */
module Sweeps {
  import opened Prelude
  import opened Ledger
  import opened Lots
  import opened Protocol
  import opened ProtocolInvariant
  import opened Storage
  import opened Executor
  import opened Decisions
  import opened Recovery

  // ---- The publish sweep -------------------------------------------------------------------

  function PublishAll(db: Tables, stale: seq<SignalId>, now: int): Tables
    decreases |stale|
  {
    if stale == [] then db else PublishAll(Disclose(db, stale[0], now), stale[1..], now)
  }

  /** A signal someone else published first is passed over; one failure does not strand the rest. */
  method SweepUnpublished(db: Database, stale: seq<SignalId>, now: int) returns (published: seq<SignalId>)
    requires forall id :: id in stale <==> FilledUnpublished(db.Contents(), id)
    modifies db
    ensures db.Contents() == PublishAll(old(db.Contents()), stale, now)
    ensures forall id :: id in published ==> id in stale
  {
    published := [];
    for i := 0 to |stale|
      invariant PublishAll(db.Contents(), stale[i..], now) == PublishAll(old(db.Contents()), stale, now)
      invariant forall id :: id in published ==> id in stale
    {
      assert stale[i..][0] == stale[i] && stale[i..][1..] == stale[i + 1..];
      var r := db.PublishSignal(stale[i], now);
      if r.Success? {
        published := published + [stale[i]];
      }
    }
  }

  /** The sweep is one of the protocol's runs, so whatever every interleaving keeps, it keeps. */
  lemma {:induction false} SweepIsARun(w: World, t: int)
    requires t in w.threads && w.threads[t].Publishing?
    ensures RunSweep(w, t).db == PublishAll(w.db, w.threads[t].ids, w.threads[t].now)
    decreases |w.threads[t].ids|
  {
    if w.threads[t].ids != [] {
      SweepIsARun(Do(w, Advance(t, 0, Report(Working, 0.0, None), [])), t);
    }
  }

  // ---- The order poll ------------------------------------------------------------------------

  /** Execution, lots and publication, for a fill the broker reports and the record lacks. */
  function RecordFill(db: Tables, oid: OrderId, report: Report, now: int, draw: Draw): Tables
    requires oid in db.orders && db.orders[oid].signalId in db.signals && report.price.Some? && DrawsEnough(draw)
  {
    var id := db.orders[oid].signalId;
    if ExecutionsOf(db.executions, id) != [] then db
    else
      var recorded := Ledger.RecordExecution(db, Execution(id, Live, report.price.value, report.quantity, now, Some(oid)));
      var settled := Settle(recorded, id, report.price.value, report.quantity, now, draw);
      Disclose(if settled.Success? then settled.value else recorded, id, now)
  }

  /** One order in hand, the broker having answered. It is stamped only once its fill, if any, is recorded. */
  function PollOrder(db: Tables, oid: OrderId, report: Report, now: int, draw: Draw): Tables
    requires DrawsEnough(draw)
  {
    if oid !in db.orders then db
    else
      var refreshed := RefreshOrder(db, oid, report, now, None);
      if HasFill(report) then
        if !WellFormed(report) || refreshed.orders[oid].signalId !in refreshed.signals then refreshed
        else
          var filled := RecordFill(refreshed, oid, report, now, draw);
          if oid in filled.orders then RefreshOrder(filled, oid, report, now, Some(now)) else filled
      else if Terminal(report.state) then RefreshOrder(refreshed, oid, report, now, Some(now))
      else refreshed
  }

  function PollAll(db: Tables, todo: seq<OrderId>, answers: map<OrderId, Report>, now: int, draw: Draw): Tables
    requires DrawsEnough(draw)
    decreases |todo|
  {
    if todo == [] then db
    else PollAll(if todo[0] in answers then PollOrder(db, todo[0], answers[todo[0]], now, draw) else db, todo[1..], answers, now, draw)
  }

  /** A fill with nothing to close is recorded all the same; no fill touches the orders or the signals' owners. */
  lemma FillLeavesOrders(db: Tables, oid: OrderId, report: Report, now: int, draw: Draw)
    requires oid in db.orders && db.orders[oid].signalId in db.signals && report.price.Some? && DrawsEnough(draw)
    ensures var after := RecordFill(db, oid, report, now, draw);
            && after.orders == db.orders && after.signals.Keys == db.signals.Keys
            && |ExecutionsOf(after.executions, db.orders[oid].signalId)| >= 1
            && |after.executions| == |db.executions| + if ExecutionsOf(db.executions, db.orders[oid].signalId) == [] then 1 else 0
  {
    var id := db.orders[oid].signalId;
    var e := Execution(id, Live, report.price.value, report.quantity, now, Some(oid));
    ExecutionsGrow(db.executions, e);
    SettleFailsOnlyWithNothingToClose(Ledger.RecordExecution(db, e), id, report.price.value, report.quantity, now, draw);
  }

  /** What the broker reports of an order is a fill: it was filled, or it ended some other way with shares bought or sold. */
  lemma FillMeansShares(r: Report)
    ensures HasFill(r) ==> Terminal(r.state)
    ensures EndedEmpty(r) <==> Terminal(r.state) && !HasFill(r)
    ensures WellFormed(r) <==> r.price.Some? && r.quantity > 0.0
  {
  }

  lemma UnusableMeans(db: Tables, oid: OrderId, answers: map<OrderId, Report>)
    ensures Unusable(db, oid, answers) <==>
              || oid !in answers
              || (HasFill(answers[oid])
                  && (!WellFormed(answers[oid]) || (oid in db.orders && db.orders[oid].signalId !in db.signals)))
  {
  }

  /**
   * What looking at one order does, the broker having answered. The report is kept. A fill with a price and a
   * quantity has one execution afterwards, in the broker's numbers unless one was there before. The order is
   * stamped exactly when it is over and its fill, if any, had both; and without a fill nothing else changes.
   */
  lemma PollOrderEffect(db: Tables, oid: OrderId, report: Report, now: int, draw: Draw)
    requires DrawsEnough(draw) && oid in db.orders && db.orders[oid].signalId in db.signals
    ensures var after := PollOrder(db, oid, report, now, draw); var order := db.orders[oid]; var id := order.signalId;
            var fill := report.state == Filled || (report.state != Working && report.quantity > 0.0);
            var usable := report.price.Some? && report.quantity > 0.0;
            && after.orders == db.orders[oid := order.(report := report, lastPolledAt := Some(now),
                                                       terminalAt := if report.state != Working && (fill ==> usable) then Some(now) else None)]
            && after.executions == db.executions
               + (if fill && usable && ExecutionsOf(db.executions, id) == []
                  then [Execution(id, Live, report.price.value, report.quantity, now, Some(oid))] else [])
            && (after.executions == db.executions ==> after == db.(orders := after.orders))
            && (after.executions != db.executions ==>
                  && id in after.signals && after.signals[id].published && after.events == db.events
                  && (!db.signals[id].published ==> after.signals[id].publishedAt == Some(now)))
  {
    hide Settle;
    var refreshed := RefreshOrder(db, oid, report, now, None);
    var id := db.orders[oid].signalId;
    if HasFill(report) && WellFormed(report) && ExecutionsOf(db.executions, id) == [] {
      var e := Execution(id, Live, report.price.value, report.quantity, now, Some(oid));
      SettleFailsOnlyWithNothingToClose(Ledger.RecordExecution(refreshed, e), id, report.price.value, report.quantity, now, draw);
    }
  }

  datatype PollResult = PollResult(polled: nat, filled: nat, endedUnfilled: nat, errors: nat)

  /** Over for good, other than by being filled, and not one share bought or sold. */
  predicate EndedEmpty(r: Report) {
    r.state != Working && r.state != Filled && r.quantity <= 0.0
  }

  function EndedUnfilled(todo: seq<OrderId>, answers: map<OrderId, Report>): nat {
    if todo == [] then 0
    else
      var oid := todo[|todo| - 1];
      EndedUnfilled(todo[..|todo| - 1], answers)
      + if oid in answers && EndedEmpty(answers[oid]) then 1 else 0
  }

  /** An order that could not be read, or whose fill lacks a price, a quantity or a signal. */
  predicate Unusable(db: Tables, oid: OrderId, answers: map<OrderId, Report>) {
    || oid !in answers
    || ((answers[oid].state == Filled || (answers[oid].state != Working && answers[oid].quantity > 0.0))
        && (answers[oid].price == None || answers[oid].quantity <= 0.0
            || (oid in db.orders && db.orders[oid].signalId !in db.signals)))
  }

  function Errors(db: Tables, todo: seq<OrderId>, answers: map<OrderId, Report>): nat {
    if todo == [] then 0
    else Errors(db, todo[..|todo| - 1], answers) + if Unusable(db, todo[|todo| - 1], answers) then 1 else 0
  }

  /** `answers` is what the broker returns when asked; an order missing from it could not be read. */
  method PollOpenOrders(db: Database, todo: seq<OrderId>, answers: map<OrderId, Report>, now: int, draw: Draw)
    returns (result: PollResult)
    requires DrawsEnough(draw) && forall o :: o in todo <==> OpenOrder(db.Contents(), o)
    modifies db
    ensures db.Contents() == PollAll(old(db.Contents()), todo, answers, now, draw)
    ensures result.polled == |todo| && result.filled == |db.executions| - |old(db.executions)|
    ensures result.endedUnfilled == EndedUnfilled(todo, answers)
    ensures result.errors == Errors(old(db.Contents()), todo, answers)
  {
    hide RecordFill, ExecutionsOf, Unusable, HasFill, EndedEmpty;
    var polled: nat, filled: nat, endedUnfilled: nat, errors: nat := 0, 0, 0, 0;
    for i := 0 to |todo|
      invariant PollAll(db.Contents(), todo[i..], answers, now, draw) == PollAll(old(db.Contents()), todo, answers, now, draw)
      invariant db.orders.Keys == old(db.orders.Keys) && db.signals.Keys == old(db.signals.Keys) && polled == i
      invariant forall o :: o in db.orders ==> db.orders[o].signalId == old(db.orders)[o].signalId
      invariant errors == Errors(old(db.Contents()), todo[..i], answers)
      invariant filled == |db.executions| - |old(db.executions)| && endedUnfilled == EndedUnfilled(todo[..i], answers)
    {
      assert todo[i..][0] == todo[i] && todo[i..][1..] == todo[i + 1..];
      assert todo[..i + 1][..i] == todo[..i];
      var oid := todo[i];
      UnusableMeans(old(db.Contents()), oid, answers);
      assert oid in todo && OpenOrder(old(db.Contents()), oid);
      polled := polled + 1;
      if oid !in answers {
        errors := errors + 1;
        continue;
      }
      var current := answers[oid];
      FillMeansShares(current);
      ghost var before := db.Contents();
      db.UpdateOrderFromBroker(oid, current, now, None);
      if HasFill(current) {
        if !WellFormed(current) || db.orders[oid].signalId !in db.signals {
          errors := errors + 1;
          continue;
        }
        FillLeavesOrders(db.Contents(), oid, current, now, draw);
        var recorded := RecordFillOnce(db, oid, current, now, draw);
        if recorded { filled := filled + 1; }
      }
      if Terminal(current.state) {
        db.UpdateOrderFromBroker(oid, current, now, Some(now));
        if !HasFill(current) { endedUnfilled := endedUnfilled + 1; }
      }
      assert db.Contents() == PollOrder(before, oid, current, now, draw);
    }
    assert todo[..|todo|] == todo;
    result := PollResult(polled, filled, endedUnfilled, errors);
  }

  method RecordFillOnce(db: Database, oid: OrderId, current: Report, now: int, draw: Draw) returns (recorded: bool)
    requires DrawsEnough(draw) && oid in db.orders && db.orders[oid].signalId in db.signals && WellFormed(current)
    modifies db
    ensures db.Contents() == RecordFill(old(db.Contents()), oid, current, now, draw)
    ensures recorded <==> ExecutionsOf(old(db.executions), old(db.orders[oid]).signalId) == []
  {
    var id := db.orders[oid].signalId;
    if ExecutionsOf(db.executions, id) != [] {
      return false;
    }
    db.RecordExecution(Execution(id, Live, current.price.value, current.quantity, now, Some(oid)));
    var settled := SettleLots(db, id, Fill(current.price.value, current.quantity, now), draw);
    var published := db.PublishSignal(id, now);
    recorded := true;
  }

  // ---- The mark run ---------------------------------------------------------------------------

  datatype MarkResult = MarkResult(marked: nat, skippedAlreadyMarked: nat, gaps: set<Symbol>)

  /** How many of the lots have a quote. */
  function Quoted(lots: seq<OpenLot>, quotes: map<Symbol, real>): nat {
    if lots == [] then 0 else Quoted(lots[..|lots| - 1], quotes) + if lots[|lots| - 1].symbol in quotes then 1 else 0
  }

  /** Quotes are `None` when fetching them failed: then every symbol is a gap, and nothing is written. */
  method RunMarkToMarket(db: Database, quotes: Option<map<Symbol, real>>, halted: bool, now: int, rowIds: seq<RowId>)
    returns (result: MarkResult)
    requires |rowIds| == |ListOpenLots(db.Contents())|
    modifies db
    ensures db.Contents() == if halted || quotes == None then old(db.Contents())
                             else MarkLots(old(db.Contents()), ListOpenLots(old(db.Contents())), quotes.value, now, rowIds)
    ensures result.marked == |db.rows| - |old(db.rows)|
    ensures halted || quotes == None ==> result.skippedAlreadyMarked == 0
    ensures !halted && quotes.Some? ==>
              result.marked + result.skippedAlreadyMarked == Quoted(ListOpenLots(old(db.Contents())), quotes.value)
    ensures !halted ==> forall s :: s in result.gaps <==>
              exists l :: l in ListOpenLots(old(db.Contents())) && l.symbol == s && (quotes == None || s !in quotes.value)
  {
    if halted {
      return MarkResult(0, 0, {});
    }
    var lots := ListOpenLots(db.Contents());
    if quotes == None {
      return MarkResult(0, 0, set l | l in lots :: l.symbol);
    }
    var marked, skippedAlreadyMarked, gaps := 0, 0, {};
    ghost var start := db.Contents();
    for i := 0 to |lots|
      invariant db.Contents() == MarkLots(start, lots[..i], quotes.value, now, rowIds[..i])
      invariant marked == |db.rows| - |start.rows| && marked + skippedAlreadyMarked == Quoted(lots[..i], quotes.value)
      invariant gaps == set l | l in lots[..i] && l.symbol !in quotes.value :: l.symbol
    {
      var lot := lots[i];
      assert lots[..i + 1] == lots[..i] + [lot] && lots[..i + 1][..i] == lots[..i];
      assert rowIds[..i + 1][..i] == rowIds[..i];
      if lot.symbol !in quotes.value {
        gaps := gaps + {lot.symbol};
      } else if HasMarkForDay(db.rows, lot.signalId, now) {
        skippedAlreadyMarked := skippedAlreadyMarked + 1;
      } else {
        db.AppendTrackRecord(MarkRow(lot, quotes.value[lot.symbol], now, rowIds[i]));
        marked := marked + 1;
      }
    }
    assert lots[..|lots|] == lots && rowIds[..|lots|] == rowIds;
    result := MarkResult(marked, skippedAlreadyMarked, gaps);
  }

  // ---- A poll is one of the protocol's runs ---------------------------------------------------

  /** The broker's reports of the orders it answers for. */
  function Reported(broker: map<OrderId, BrokerOrder>, answers: set<OrderId>): map<OrderId, Report> {
    map o | o in broker && o in answers :: broker[o].report
  }

  lemma Unfolds(w: World, answers: set<OrderId>, draw: Draw)
    requires DrawsEnough(draw) && w.poller != Idle
    ensures RunPoll(w, answers, draw) == RunPoll(PollOnce(w, answers, draw), answers, draw)
  {
  }

  /** Execution, lots, publication: from the check that found no execution to the final stamp. */
  lemma FillStages(w: World, now: int, todo: seq<OrderId>, oid: OrderId, report: Report, answers: set<OrderId>, draw: Draw)
    requires DrawsEnough(draw) && w.poller == Polling(now, todo, Vacant(oid, report)) && WellFormed(report)
    requires oid in w.db.orders && w.db.orders[oid].signalId in w.db.signals
    requires ExecutionsOf(w.db.executions, w.db.orders[oid].signalId) == []
    ensures var w' := w.(db := RecordFill(w.db, oid, report, now, draw), poller := Polling(now, todo, Finishing(oid, report)));
            RunPoll(w, answers, draw) == RunPoll(w', answers, draw)
  {
    hide RunPoll, SelectLots, CloseLots, OpeningRow;
    var id := w.db.orders[oid].signalId;
    var w1 := PollOnce(w, answers, draw);
    Unfolds(w, answers, draw);
    assert w1.poller == Polling(now, todo, Recorded(oid, report));
    assert |draw(w1.db.rows, 1)| == 1;
    SettleFailsOnlyWithNothingToClose(w1.db, id, report.price.value, report.quantity, now, draw);
    var settled := Settle(w1.db, id, report.price.value, report.quantity, now, draw);
    var w2 := PollOnce(w1, answers, draw);
    Unfolds(w1, answers, draw);
    var w3 := w1.(db := if settled.Success? then settled.value else w1.db, poller := Polling(now, todo, Opened(oid, report)));
    if w2.poller.stage.Chosen? {
      Unfolds(w2, answers, draw);
      assert PollOnce(w2, answers, draw) == w3;
    } else {
      assert w2 == w3;
    }
    Unfolds(w3, answers, draw);
  }

  lemma OneOrder(w: World, now: int, todo: seq<OrderId>, oid: OrderId, answers: set<OrderId>, draw: Draw)
    requires DrawsEnough(draw) && w.poller == Polling(now, [oid] + todo, Between)
    requires oid in w.db.orders && oid in answers && oid in w.broker
    ensures var w' := w.(db := PollOrder(w.db, oid, w.broker[oid].report, now, draw), poller := Polling(now, todo, Between));
            RunPoll(w, answers, draw) == RunPoll(w', answers, draw)
  {
    hide RunPoll, SelectLots, CloseLots, OpeningRow, RecordFill;
    var report := w.broker[oid].report;
    assert ([oid] + todo)[1..] == todo;
    Unfolds(w, answers, draw);
    var w1 := PollOnce(w, answers, draw);
    assert w1 == w.(poller := Polling(now, todo, Fetched(oid, report)));
    Unfolds(w1, answers, draw);
    var w2 := PollOnce(w1, answers, draw);
    assert w2 == w.(db := RefreshOrder(w.db, oid, report, now, None), poller := Polling(now, todo, Refreshed(oid, report)));
    Unfolds(w2, answers, draw);
    var w3 := PollOnce(w2, answers, draw);
    if w3.poller.stage.Vacant? {
      FillStages(w3, now, todo, oid, report, answers, draw);
      FillLeavesOrders(w3.db, oid, report, now, draw);
      Finishes(w3.(db := RecordFill(w3.db, oid, report, now, draw), poller := Polling(now, todo, Finishing(oid, report))),
               now, todo, oid, report, answers, draw);
    } else if w3.poller.stage.Finishing? {
      NothingToRecord(w2.db, oid, report, now, draw);
      Finishes(w3, now, todo, oid, report, answers, draw);
    }
  }

  lemma Finishes(w: World, now: int, todo: seq<OrderId>, oid: OrderId, report: Report, answers: set<OrderId>, draw: Draw)
    requires DrawsEnough(draw) && w.poller == Polling(now, todo, Finishing(oid, report)) && oid in w.db.orders
    ensures var w' := w.(db := RefreshOrder(w.db, oid, report, now, Some(now)), poller := Polling(now, todo, Between));
            RunPoll(w, answers, draw) == RunPoll(w', answers, draw)
  {
    Unfolds(w, answers, draw);
  }

  lemma NothingToRecord(db: Tables, oid: OrderId, report: Report, now: int, draw: Draw)
    requires oid in db.orders && DrawsEnough(draw)
    requires WellFormed(report) && db.orders[oid].signalId in db.signals ==>
               ExecutionsOf(db.executions, db.orders[oid].signalId) != [] || !HasFill(report)
    ensures HasFill(report) && WellFormed(report) && db.orders[oid].signalId in db.signals ==>
              RecordFill(db, oid, report, now, draw) == db
  {
  }

  lemma PollOrderKeepsOrders(db: Tables, oid: OrderId, report: Report, now: int, draw: Draw)
    requires DrawsEnough(draw)
    ensures PollOrder(db, oid, report, now, draw).orders.Keys == db.orders.Keys
  {
    hide RecordFill;
    if oid in db.orders {
      var refreshed := RefreshOrder(db, oid, report, now, None);
      assert refreshed.orders.Keys == db.orders.Keys;
      if HasFill(report) && WellFormed(report) && refreshed.orders[oid].signalId in refreshed.signals {
        FillLeavesOrders(refreshed, oid, report, now, draw);
      }
    }
  }

  /** A poll that nothing interrupts does to the tables exactly what the protocol's steps do. */
  lemma {:induction false} PollIsARun(w: World, now: int, todo: seq<OrderId>, answers: set<OrderId>, draw: Draw)
    requires DrawsEnough(draw) && w.poller == Polling(now, todo, Between)
    requires forall o :: o in todo ==> o in w.db.orders
    ensures RunPoll(w, answers, draw) == w.(db := PollAll(w.db, todo, Reported(w.broker, answers), now, draw), poller := Idle)
    decreases |todo|
  {
    hide RunPoll, PollOrder;
    Unfolds(w, answers, draw);
    if todo == [] {
      RunsOut(w.(poller := Idle), answers, draw);
    } else {
      var oid, rest := todo[0], todo[1..];
      assert todo == [oid] + rest;
      var polled := oid in answers && oid in w.broker;
      var db1 := if polled then PollOrder(w.db, oid, w.broker[oid].report, now, draw) else w.db;
      var w1 := w.(db := db1, poller := Polling(now, rest, Between));
      if polled {
        OneOrder(w, now, rest, oid, answers, draw);
        PollOrderKeepsOrders(w.db, oid, w.broker[oid].report, now, draw);
      } else {
        assert PollOnce(w, answers, draw) == w1;
      }
      forall o | o in rest ensures o in db1.orders {
        assert o in w.db.orders.Keys;
      }
      PollIsARun(w1, now, rest, answers, draw);
    }
  }

  lemma RunsOut(w: World, answers: set<OrderId>, draw: Draw)
    requires DrawsEnough(draw) && w.poller == Idle
    ensures RunPoll(w, answers, draw) == w
  {
  }
}
