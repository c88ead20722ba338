/**
 * What no recovery step repairs: an actor that dies after writing a buy's execution and before
 * writing its lot (backend/src/orchestrator/executor.ts:180-192, orders.ts:109-126).
 */
module Stranded {
  import opened Prelude
  import opened Money
  import opened Ledger
  import opened Lots
  import opened Protocol
  import opened ProtocolInvariant
  import ProtocolTheorems
  import LotsLaws

  ghost predicate HasRow(db: Tables, id: SignalId) {
    exists r :: r in db.rows && r.signalId == id
  }

  predicate Bought(db: Tables, id: SignalId) {
    id in db.signals && db.signals[id].side == Buy && ExecutionsOf(db.executions, id) != []
  }

  /** Some actor stands between the execution of `id` and its lot. */
  ghost predicate Opening(w: World, id: SignalId) {
    || (exists t :: t in w.threads && w.threads[t].Executed? && w.threads[t].id == id)
    || PollOpens(w, id)
  }

  predicate PollOpens(w: World, id: SignalId) {
    && w.poller.Polling? && w.poller.stage.Recorded?
    && w.poller.stage.oid in w.db.orders && w.db.orders[w.poller.stage.oid].signalId == id
  }

  ghost predicate IsStranded(w: World, id: SignalId) {
    Bought(w.db, id) && !HasRow(w.db, id) && !Opening(w, id)
  }

  lemma OpenHasRow(db: Tables, id: SignalId)
    requires IsOpen(db, id)
    ensures HasRow(db, id)
  {
    assert Newest(db.rows, id).value in db.rows;
  }

  lemma {:induction false} ClosingOpensNothing(db: Tables, ids: seq<SignalId>, exit: real, seller: SignalId, now: int,
                                              rowIds: seq<RowId>, id: SignalId)
    requires |rowIds| == |ids| && !HasRow(db, id)
    ensures var r := CloseLots(db, ids, exit, seller, now, rowIds); r.Some? ==> !HasRow(r.value, id)
    decreases |ids|
  {
    if ids == [] {
    } else {
      var row := ClosingRow(db, ids[0], exit, seller, now, rowIds[0]);
      if row.Some? {
        OpenHasRow(db, ids[0]);
        ClosingOpensNothing(AppendRow(db, row.value), ids[1..], exit, seller, now, rowIds[1..], id);
      }
    }
  }

  lemma ThreadWritesNoLot(w: World, t: int, oid: OrderId, first: Report, rowIds: seq<RowId>, id: SignalId)
    requires t in w.threads && !HasRow(w.db, id)
    requires w.threads[t].Executed? ==> w.threads[t].id != id
    ensures !HasRow(AdvanceThread(w, t, oid, first, rowIds).db, id)
  {
    hide SelectLots, CloseLots, OpenLotsForSymbol, ApplySlippage, PlaceAtBroker, MayExecute;
    var th := w.threads[t];
    if th.Selected? && |rowIds| == |th.lots| {
      ClosingOpensNothing(w.db, th.lots, th.fill.price, th.id, th.fill.filledAt, rowIds, id);
    }
  }

  /** The poll stands where it stood: a thread neither moves it nor reassigns an order. */
  lemma ThreadLeavesPoll(w: World, t: int, oid: OrderId, first: Report, rowIds: seq<RowId>)
    requires t in w.threads
    ensures var w' := AdvanceThread(w, t, oid, first, rowIds);
            w'.poller == w.poller
            && forall o :: o in w.db.orders ==> o in w'.db.orders && w'.db.orders[o].signalId == w.db.orders[o].signalId
  {
    hide SelectLots, CloseLots, OpenLotsForSymbol, ApplySlippage, PlaceAtBroker, MayExecute, OpeningRow, ExecutionsOf;
    var th := w.threads[t];
    if th.Selected? && |rowIds| == |th.lots| {
      LotsLaws.CloseLotsAppends(w.db, th.lots, th.fill.price, th.id, th.fill.filledAt, rowIds);
    }
  }

  /** An execution already recorded is not recorded again, so nobody comes to carry its lot. */
  lemma ThreadCarriesNoMore(w: World, t: int, oid: OrderId, first: Report, rowIds: seq<RowId>, id: SignalId)
    requires t in w.threads && ThreadSound(w, w.threads[t]) && ExecutionsOf(w.db.executions, id) != []
    requires forall u :: u in w.threads && w.threads[u].Executed? ==> w.threads[u].id != id
    ensures var w' := AdvanceThread(w, t, oid, first, rowIds);
            forall u :: u in w'.threads && w'.threads[u].Executed? ==> w'.threads[u].id != id
  {
    hide SelectLots, CloseLots, OpenLotsForSymbol, ApplySlippage, PlaceAtBroker, MayExecute, OpeningRow, TransitionSignal,
      PublishSignal, RecordExecution, AppendRow, RecordPlacedOrder;
  }

  lemma ThreadStrands(w: World, t: int, oid: OrderId, first: Report, rowIds: seq<RowId>, id: SignalId)
    requires Inv(w) && t in w.threads && IsStranded(w, id)
    ensures var w' := AdvanceThread(w, t, oid, first, rowIds); !HasRow(w'.db, id) && !Opening(w', id)
  {
    hide AdvanceThread, TablesSound, HasRow, OneCarrier, ThreadSound;
    ThreadWritesNoLot(w, t, oid, first, rowIds, id);
    ThreadLeavesPoll(w, t, oid, first, rowIds);
    ThreadCarriesNoMore(w, t, oid, first, rowIds, id);
    assert PollerSound(w);
  }

  lemma PollWritesNoLot(w: World, answered: bool, rowIds: seq<RowId>, id: SignalId)
    requires !HasRow(w.db, id) && !PollOpens(w, id)
    ensures !HasRow(AdvancePoll(w, answered, rowIds).db, id)
  {
    hide SelectLots, CloseLots, HasFill, WellFormed, Terminal;
    if w.poller.Polling? && w.poller.stage.Chosen? {
      var st := w.poller.stage;
      if st.oid in w.db.orders && st.report.price.Some? && |rowIds| == |st.lots| {
        ClosingOpensNothing(w.db, st.lots, st.report.price.value, w.db.orders[st.oid].signalId, w.poller.now, rowIds, id);
      }
    }
  }

  lemma PollStrands(w: World, answered: bool, rowIds: seq<RowId>, id: SignalId)
    requires Inv(w) && IsStranded(w, id)
    ensures var w' := AdvancePoll(w, answered, rowIds); !HasRow(w'.db, id) && !Opening(w', id)
  {
    PollWritesNoLot(w, answered, rowIds, id);
    PollCarriesNoMore(w, answered, rowIds, id);
    hide AdvancePoll, HasRow, PollOpens, Inv;
  }

  lemma PollCarriesNoMore(w: World, answered: bool, rowIds: seq<RowId>, id: SignalId)
    requires PollerSound(w) && ExecutionsOf(w.db.executions, id) != [] && !PollOpens(w, id)
    ensures !PollOpens(AdvancePoll(w, answered, rowIds), id) && AdvancePoll(w, answered, rowIds).threads == w.threads
  {
    hide SelectLots, CloseLots, HasFill, WellFormed, Terminal, OpeningRow, PublishSignal, ExecutionsOf;
  }

  lemma StepStrands(w: World, a: Action, id: SignalId)
    requires Inv(w) && IsStranded(w, id)
    ensures !HasRow(Do(w, a).db, id) && !Opening(Do(w, a), id)
  {
    hide Inv, AdvanceThread, AdvancePoll, Preflight, DedupeKeyTaken;
    match a
    case Advance(t, oid, first, rowIds) => if t in w.threads { ThreadStrands(w, t, oid, first, rowIds, id); }
    case PollAdvances(answered, rowIds) => PollStrands(w, answered, rowIds, id);
    case _ =>
  }

  lemma StaysBought(db: Tables, db': Tables, id: SignalId)
    requires Bought(db, id) && ProtocolTheorems.OnlyAllowedChanges(db, db')
    ensures Bought(db', id)
  {
    ListedIsExecution(db.executions, id);
    var e := ExecutionsOf(db.executions, id)[0];
    assert e in ExecutionsOf(db.executions, id);
    assert e in db'.executions;
    ExecutionIsListed(db'.executions, e);
  }

  /** Once stranded, a bought signal never gets a lot, whatever runs afterwards, recovery included. */
  lemma {:induction false} StrandedForever(w: World, actions: seq<Action>, id: SignalId)
    requires Inv(w) && IsStranded(w, id)
    ensures IsStranded(Exec(w, actions), id)
  {
    hide Inv, Do, Bought, HasRow, Opening;
    if actions == [] {
    } else {
      var v := Exec(w, actions[..|actions| - 1]);
      StrandedForever(w, actions[..|actions| - 1], id);
      ProtocolTheorems.ExecKeeps(w, actions[..|actions| - 1]);
      StepStrands(v, actions[|actions| - 1], id);
      ProtocolTheorems.StepAllowed(v, actions[|actions| - 1]);
      StaysBought(v.db, Do(v, actions[|actions| - 1]).db, id);
    }
  }

  lemma CarrierOpens(w: World, id: SignalId) returns (a: Action)
    requires Inv(w) && Bought(w.db, id) && Opening(w, id)
    ensures HasRow(Do(w, a).db, id)
  {
    hide TablesSound, SelectLots, CloseLots, OpenLotsForSymbol;
    if PollOpens(w, id) {
      assert StageSound(w, w.poller.now, w.poller.stage);
      a := PollAdvances(true, [0]);
      var st := w.poller.stage;
      assert OpeningRow(w.db, id, st.report.price.value, st.report.quantity, w.poller.now, 0) in Do(w, a).db.rows;
    } else {
      var t :| t in w.threads && w.threads[t].Executed? && w.threads[t].id == id;
      var th := w.threads[t];
      assert ThreadSound(w, th);
      a := Advance(t, 0, Report(Working, 0.0, None), [0]);
      assert OpeningRow(w.db, id, th.fill.price, th.fill.quantity, th.fill.filledAt, 0) in Do(w, a).db.rows;
    }
  }

  /** An executed buy without a lot can still get one exactly when some actor is carrying it. */
  lemma LotOpensIffCarried(w: World, id: SignalId)
    requires Inv(w) && Bought(w.db, id) && !HasRow(w.db, id)
    ensures (exists actions :: HasRow(Exec(w, actions).db, id)) <==> Opening(w, id)
  {
    hide Inv, Do, Bought, HasRow, Opening;
    if Opening(w, id) {
      var a := CarrierOpens(w, id);
      ExecAppend(w, [], a);
      assert [] + [a] == [a] && Exec(w, []) == w;
    } else {
      forall actions ensures !HasRow(Exec(w, actions).db, id) {
        StrandedForever(w, actions, id);
      }
    }
  }

  // ---- The other side: a sell that closes nothing ------------------------------------------------

  /** Some lot was closed by this sell. */
  ghost predicate ClosesFor(db: Tables, id: SignalId) {
    exists r :: r in db.rows && r.closedBy == Some(id)
  }

  predicate Sold(db: Tables, id: SignalId) {
    id in db.signals && db.signals[id].side == Sell && ExecutionsOf(db.executions, id) != []
  }

  predicate PollCloses(w: World, id: SignalId) {
    && w.poller.Polling? && (w.poller.stage.Recorded? || w.poller.stage.Chosen?)
    && w.poller.stage.oid in w.db.orders && w.db.orders[w.poller.stage.oid].signalId == id
  }

  /** Some actor stands between the execution of the sell and the rows that close its lots. */
  ghost predicate Closing(w: World, id: SignalId) {
    || (exists t :: t in w.threads && Carrying(w.threads[t], id))
    || PollCloses(w, id)
  }

  predicate Carrying(th: Thread, id: SignalId) {
    (th.Executed? || th.Selected?) && th.id == id
  }

  ghost predicate IsSaleStranded(w: World, id: SignalId) {
    Sold(w.db, id) && !ClosesFor(w.db, id) && !Closing(w, id)
  }

  lemma {:induction false} ClosingIsForTheSeller(db: Tables, ids: seq<SignalId>, exit: real, seller: SignalId, now: int,
                                                rowIds: seq<RowId>, id: SignalId)
    requires |rowIds| == |ids| && !ClosesFor(db, id) && seller != id
    ensures var r := CloseLots(db, ids, exit, seller, now, rowIds); r.Some? ==> !ClosesFor(r.value, id)
    decreases |ids|
  {
    if ids == [] {
    } else {
      var row := ClosingRow(db, ids[0], exit, seller, now, rowIds[0]);
      if row.Some? { ClosingIsForTheSeller(AppendRow(db, row.value), ids[1..], exit, seller, now, rowIds[1..], id); }
    }
  }

  lemma ThreadClosesNothing(w: World, t: int, oid: OrderId, first: Report, rowIds: seq<RowId>, id: SignalId)
    requires t in w.threads && !ClosesFor(w.db, id) && !Carrying(w.threads[t], id)
    ensures !ClosesFor(AdvanceThread(w, t, oid, first, rowIds).db, id)
  {
    hide SelectLots, CloseLots, OpenLotsForSymbol, ApplySlippage, PlaceAtBroker, MayExecute;
    var th := w.threads[t];
    if th.Selected? && |rowIds| == |th.lots| {
      ClosingIsForTheSeller(w.db, th.lots, th.fill.price, th.id, th.fill.filledAt, rowIds, id);
    }
  }

  lemma ThreadTakesNoSale(w: World, t: int, oid: OrderId, first: Report, rowIds: seq<RowId>, id: SignalId)
    requires t in w.threads && ThreadSound(w, w.threads[t]) && ExecutionsOf(w.db.executions, id) != []
    requires forall u :: u in w.threads ==> !Carrying(w.threads[u], id)
    ensures var w' := AdvanceThread(w, t, oid, first, rowIds);
            forall u :: u in w'.threads ==> !Carrying(w'.threads[u], id)
  {
    hide SelectLots, CloseLots, OpenLotsForSymbol, ApplySlippage, PlaceAtBroker, MayExecute, OpeningRow, TransitionSignal,
      PublishSignal, RecordExecution, AppendRow, RecordPlacedOrder;
    var th := w.threads[t];
    assert !Carrying(th, id);
  }

  lemma PollClosesNothing(w: World, answered: bool, rowIds: seq<RowId>, id: SignalId)
    requires !ClosesFor(w.db, id) && !PollCloses(w, id)
    ensures !ClosesFor(AdvancePoll(w, answered, rowIds).db, id)
  {
    hide SelectLots, CloseLots, HasFill, WellFormed, Terminal;
    if w.poller.Polling? && w.poller.stage.Chosen? {
      var st := w.poller.stage;
      if st.oid in w.db.orders && st.report.price.Some? && |rowIds| == |st.lots| {
        ClosingIsForTheSeller(w.db, st.lots, st.report.price.value, w.db.orders[st.oid].signalId, w.poller.now, rowIds, id);
      }
    }
  }

  lemma PollTakesNoSale(w: World, answered: bool, rowIds: seq<RowId>, id: SignalId)
    requires PollerSound(w) && ExecutionsOf(w.db.executions, id) != [] && !PollCloses(w, id)
    ensures !PollCloses(AdvancePoll(w, answered, rowIds), id) && AdvancePoll(w, answered, rowIds).threads == w.threads
  {
    hide SelectLots, CloseLots, HasFill, WellFormed, Terminal, OpeningRow, PublishSignal, ExecutionsOf;
  }

  lemma SaleStepStrands(w: World, a: Action, id: SignalId)
    requires Inv(w) && IsSaleStranded(w, id)
    ensures !ClosesFor(Do(w, a).db, id) && !Closing(Do(w, a), id)
  {
    hide AdvanceThread, AdvancePoll, Preflight, DedupeKeyTaken, TablesSound, OneCarrier, ThreadSound, ClosesFor;
    assert PollerSound(w);
    match a
    case Advance(t, oid, first, rowIds) =>
      if t in w.threads {
        ThreadClosesNothing(w, t, oid, first, rowIds, id);
        ThreadTakesNoSale(w, t, oid, first, rowIds, id);
        ThreadLeavesPoll(w, t, oid, first, rowIds);
      }
    case PollAdvances(answered, rowIds) =>
      PollClosesNothing(w, answered, rowIds, id);
      PollTakesNoSale(w, answered, rowIds, id);
      hide PollCloses;
    case _ => OthersCloseNothing(w, a, id);
  }

  /** No other step writes rows or orders, or takes a thread or the poll to a fill. */
  lemma OthersCloseNothing(w: World, a: Action, id: SignalId)
    requires !a.Advance? && !a.PollAdvances? && PollerSound(w) && !ClosesFor(w.db, id) && !Closing(w, id)
    ensures !ClosesFor(Do(w, a).db, id) && !Closing(Do(w, a), id)
  {
    hide DedupeKeyTaken, Preflight, FilledUnpublished, OpenOrder, StageSound;
    var w' := Do(w, a);
    assert w'.db.rows == w.db.rows && w'.db.orders == w.db.orders;
    forall t | t in w'.threads ensures !Carrying(w'.threads[t], id) {
      if t in w.threads { assert !Carrying(w.threads[t], id); }
    }
  }

  lemma StaysSold(db: Tables, db': Tables, id: SignalId)
    requires Sold(db, id) && ProtocolTheorems.OnlyAllowedChanges(db, db')
    ensures Sold(db', id)
  {
    ListedIsExecution(db.executions, id);
    var e := ExecutionsOf(db.executions, id)[0];
    assert e in ExecutionsOf(db.executions, id);
    assert e in db'.executions;
    ExecutionIsListed(db'.executions, e);
  }

  /** Once an executed sell is stranded, no row ever closes a lot for it, whatever runs afterwards, recovery included. */
  lemma {:induction false} StrandedSaleForever(w: World, actions: seq<Action>, id: SignalId)
    requires Inv(w) && IsSaleStranded(w, id)
    ensures IsSaleStranded(Exec(w, actions), id)
  {
    hide Inv, Do, Sold, ClosesFor, Closing;
    if actions == [] {
    } else {
      var v := Exec(w, actions[..|actions| - 1]);
      StrandedSaleForever(w, actions[..|actions| - 1], id);
      ProtocolTheorems.ExecKeeps(w, actions[..|actions| - 1]);
      SaleStepStrands(v, actions[|actions| - 1], id);
      ProtocolTheorems.StepAllowed(v, actions[|actions| - 1]);
      StaysSold(v.db, Do(v, actions[|actions| - 1]).db, id);
    }
  }

  // ---- It happens ---------------------------------------------------------------------------

  const PROPOSAL := Draft(7, Buy, 3.0, Paper, 10.0, 1, None)
  const NOTHING := Report(Working, 0.0, None)
  const CRASH := [
    Propose(1, PROPOSAL), Ask(5, 1, Approved, Clock), Advance(5, 0, NOTHING, []), Advance(5, 0, NOTHING, []),
    Advance(5, 0, NOTHING, []), Dies(5)]

  const APPROVED := Signal(7, Buy, 3.0, Paper, 10.0, 1, 0, None, Approved, Some(0), false, None)

  lemma Approval()
    ensures var w := Exec(Init(0, 0), CRASH[..3]);
            w == World(Tables(map[1 := APPROVED], [Event(1, Pending, Approved)], [], map[], []), map[], 0, map[5 := Won(1, Clock)], Idle, 0)
  {
    hide AdvancePoll, OpenLotsForSymbol;
    var w0 := Init(0, 0);
    assert CRASH[..0] == [] && Exec(w0, []) == w0;
    ExecAppend(w0, CRASH[..0], CRASH[0]);
    assert CRASH[..0] + [CRASH[0]] == CRASH[..1];
    var w1 := Exec(w0, CRASH[..1]);
    assert w1.db.signals == map[1 := APPROVED.(status := Pending, decidedAt := None)];
    ExecAppend(w0, CRASH[..1], CRASH[1]);
    assert CRASH[..1] + [CRASH[1]] == CRASH[..2];
    var w2 := Exec(w0, CRASH[..2]);
    assert w2 == w1.(threads := map[5 := Deciding(1, Approved, Clock)]);
    ExecAppend(w0, CRASH[..2], CRASH[2]);
    assert CRASH[..2] + [CRASH[2]] == CRASH[..3];
  }

  /** The executor's last two statements for a paper buy. */
  lemma Executes(w: World)
    requires w.db.signals == map[1 := APPROVED] && w.threads == map[5 := Won(1, Clock)]
    ensures var fill := Fill(ApplySlippage(10.0, Buy, w.slippageBps), 3.0, w.clock);
            Do(Do(w, Advance(5, 0, NOTHING, [])), Advance(5, 0, NOTHING, []))
            == w.(threads := map[5 := Executed(1, fill, Clock)],
                  db := RecordExecution(w.db, Execution(1, Paper, fill.price, 3.0, w.clock, None)))
  {
    hide AdvancePoll, ApplySlippage, SelectLots, OpenLotsForSymbol, PlaceAtBroker;
    var w1 := Do(w, Advance(5, 0, NOTHING, []));
    assert w1 == w.(threads := map[5 := Ready(1, w.clock, Clock)]);
  }

  lemma ExecutesAndDies(w: World)
    requires w.db.signals == map[1 := APPROVED] && w.db.executions == [] && w.db.rows == []
    requires w.threads == map[5 := Won(1, Clock)] && w.poller == Idle
    ensures IsStranded(Do(Do(Do(w, Advance(5, 0, NOTHING, [])), Advance(5, 0, NOTHING, [])), Dies(5)), 1)
  {
    hide AdvanceThread, AdvancePoll, ApplySlippage;
    Executes(w);
    var e := Execution(1, Paper, ApplySlippage(10.0, Buy, w.slippageBps), 3.0, w.clock, None);
    ExecutionsGrow([], e);
  }

  /** One buy approved on paper, its execution written, and the process gone before the lot. */
  lemma CrashStrands()
    ensures IsStranded(Exec(Init(0, 0), CRASH), 1)
  {
    hide Exec, Do, IsStranded;
    Approval();
    var w0 := Init(0, 0);
    ExecutesAndDies(Exec(w0, CRASH[..3]));
    ExecAppend(w0, CRASH[..3], CRASH[3]);
    assert CRASH[..3] + [CRASH[3]] == CRASH[..4];
    ExecAppend(w0, CRASH[..4], CRASH[4]);
    assert CRASH[..4] + [CRASH[4]] == CRASH[..5];
    ExecAppend(w0, CRASH[..5], CRASH[5]);
    assert CRASH[..5] + [CRASH[5]] == CRASH;
  }
}
