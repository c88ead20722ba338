/**
 * Every row of the ledger says a fill that is on record: in every reachable state of the protocol a lot's
 * rows carry the price and the shares of its own signal's execution, and a closing row the price and the
 * time of the execution of the sell it names.
 */
module FillTrail {
  import opened Prelude
  import opened Money
  import opened Ledger
  import opened Lots
  import opened LotsLaws
  import opened Protocol
  import opened ProtocolInvariant
  import ProtocolTheorems
  import FillRows
  import Stranded

  /** The signal's one execution has these numbers. */
  predicate FilledAs(db: Tables, id: SignalId, price: real, quantity: real, at: int) {
    var fills := ExecutionsOf(db.executions, id);
    |fills| == 1 && fills[0].fillPrice == price && fills[0].quantity == quantity && fills[0].filledAt == at
  }

  /** The row's price and size are those its lot was filled at, and an opening row's time as well. */
  ghost predicate SaysItsEntry(db: Tables, r: Row) {
    && r.signalId in db.signals
    && exists at :: FilledAs(db, r.signalId, r.entryPrice, SizeOf(db, r), at) && (r.status == Open ==> at == r.recordedAt)
  }

  /** A closing row names the sell whose fill it reports, and what the lot gained by it. */
  ghost predicate SaysItsExit(db: Tables, r: Row) {
    r.status == Closed ==>
      && r.signalId in db.signals && r.closedBy.Some? && r.exitPrice.Some?
      && (exists shares :: FilledAs(db, r.closedBy.value, r.exitPrice.value, shares, r.recordedAt))
      && r.realizedPnl == Some(Gain(r.exitPrice.value, r.entryPrice, SizeOf(db, r)))
  }

  ghost predicate RowsSayFills(db: Tables) {
    forall r :: r in db.rows ==> SaysItsEntry(db, r) && SaysItsExit(db, r)
  }

  /** An actor on its way to the lots has in hand what is on record. */
  ghost predicate InHandIsOnRecord(w: World) {
    && (forall t :: t in w.threads ==> ThreadOnRecord(w.db, w.threads[t]))
    && PollerOnRecord(w.db, w.poller)
  }

  ghost predicate ThreadOnRecord(db: Tables, th: Thread) {
    th.Executed? || th.Selected? ==> FilledAs(db, th.id, th.fill.price, th.fill.quantity, th.fill.filledAt)
  }

  ghost predicate PollerOnRecord(db: Tables, p: Poller) {
    p.Polling? && (p.stage.Recorded? || p.stage.Chosen?) ==>
      && p.stage.oid in db.orders && p.stage.report.price.Some?
      && FilledAs(db, db.orders[p.stage.oid].signalId, p.stage.report.price.value, p.stage.report.quantity, p.now)
  }

  ghost predicate TrailSound(w: World) {
    RowsSayFills(w.db) && InHandIsOnRecord(w)
  }

  // ---- What is on record stays on record --------------------------------------------------

  lemma {:induction false} ExecutionsExtend(es: seq<Execution>, more: seq<Execution>, id: SignalId)
    ensures ExecutionsOf(es, id) <= ExecutionsOf(es + more, id)
  {
    if more == [] {
      assert es + more == es;
    } else {
      var front := more[..|more| - 1];
      ExecutionsExtend(es, front, id);
      assert es + more == (es + front) + [more[|more| - 1]];
      ExecutionsGrow(es + front, more[|more| - 1]);
    }
  }

  /** The tables of `w'` come after those of `w`, and no signal is filled twice in them. */
  ghost predicate Later(db: Tables, db': Tables) {
    ProtocolTheorems.OnlyAllowedChanges(db, db') && ExecutedOnce(db')
    && forall o :: o in db.orders ==> o in db'.orders && db'.orders[o].signalId == db.orders[o].signalId
  }

  lemma FilledStays(db: Tables, db': Tables, id: SignalId, price: real, quantity: real, at: int)
    requires Later(db, db') && id in db.signals && FilledAs(db, id, price, quantity, at)
    ensures FilledAs(db', id, price, quantity, at)
  {
    hide ExecutionsOf;
    var more := db'.executions[|db.executions|..];
    assert db'.executions == db.executions + more;
    ExecutionsExtend(db.executions, more, id);
    assert id in db'.signals;
    assert |ExecutionsOf(db'.executions, id)| <= 1;
  }

  /** Only known signals are filled. */
  lemma FilledIsKnown(db: Tables, id: SignalId, price: real, quantity: real, at: int)
    requires ExecutedOnce(db) && FilledAs(db, id, price, quantity, at)
    ensures id in db.signals
  {
    ListedIsExecution(db.executions, id);
    assert ExecutionsOf(db.executions, id)[0] in ExecutionsOf(db.executions, id);
  }

  lemma RowStays(db: Tables, db': Tables, r: Row)
    requires Later(db, db') && ExecutedOnce(db) && SaysItsEntry(db, r) && SaysItsExit(db, r)
    ensures SaysItsEntry(db', r) && SaysItsExit(db', r)
  {
    hide ExecutedOnce, FilledAs, Gain;
    SizeStays(db, db', r);
    var at :| FilledAs(db, r.signalId, r.entryPrice, SizeOf(db, r), at) && (r.status == Open ==> at == r.recordedAt);
    FilledStays(db, db', r.signalId, r.entryPrice, SizeOf(db, r), at);
    if r.status == Closed {
      var shares :| FilledAs(db, r.closedBy.value, r.exitPrice.value, shares, r.recordedAt);
      FilledIsKnown(db, r.closedBy.value, r.exitPrice.value, shares, r.recordedAt);
      FilledStays(db, db', r.closedBy.value, r.exitPrice.value, shares, r.recordedAt);
    }
  }

  lemma SizeStays(db: Tables, db': Tables, r: Row)
    requires ProtocolTheorems.OnlyAllowedChanges(db, db') && r.signalId in db.signals
    ensures r.signalId in db'.signals && SizeOf(db', r) == SizeOf(db, r)
  {
  }

  lemma HandStays(w: World, w': World)
    requires InHandIsOnRecord(w) && ExecutedOnce(w.db) && Later(w.db, w'.db)
    ensures forall t :: t in w.threads ==> ThreadOnRecord(w'.db, w.threads[t])
    ensures PollerOnRecord(w'.db, w.poller)
  {
    hide ExecutedOnce, FilledAs, Later;
    forall t | t in w.threads ensures ThreadOnRecord(w'.db, w.threads[t]) {
      var th := w.threads[t];
      assert ThreadOnRecord(w.db, th);
      if th.Executed? || th.Selected? {
        FilledIsKnown(w.db, th.id, th.fill.price, th.fill.quantity, th.fill.filledAt);
        FilledStays(w.db, w'.db, th.id, th.fill.price, th.fill.quantity, th.fill.filledAt);
      }
    }
    PollerStays(w, w');
  }

  lemma PollerStays(w: World, w': World)
    requires PollerOnRecord(w.db, w.poller) && ExecutedOnce(w.db) && Later(w.db, w'.db)
    ensures PollerOnRecord(w'.db, w.poller)
  {
    hide ExecutedOnce, FilledAs;
    var p := w.poller;
    if p.Polling? && (p.stage.Recorded? || p.stage.Chosen?) {
      var id := w.db.orders[p.stage.oid].signalId;
      FilledIsKnown(w.db, id, p.stage.report.price.value, p.stage.report.quantity, p.now);
      FilledStays(w.db, w'.db, id, p.stage.report.price.value, p.stage.report.quantity, p.now);
    }
  }

  // ---- Every row written says a fill ------------------------------------------------------

  lemma OpeningSays(db: Tables, id: SignalId, price: real, quantity: real, at: int, rowId: RowId)
    requires RowsSayFills(db) && id in db.signals && FilledAs(db, id, price, quantity, at)
    ensures RowsSayFills(AppendRow(db, OpeningRow(db, id, price, quantity, at, rowId)))
  {
    hide FilledAs, Gain;
    var row := OpeningRow(db, id, price, quantity, at, rowId);
    FillRows.OpeningRowSays(db, id, price, quantity, at, rowId);
    AppendSays(db, row);
  }

  /** A row that says its fills can be appended. */
  lemma AppendSays(db: Tables, row: Row)
    requires RowsSayFills(db) && SaysItsEntry(db, row) && SaysItsExit(db, row)
    ensures RowsSayFills(AppendRow(db, row))
  {
    hide Gain;
    var db' := AppendRow(db, row);
    forall r | r in db'.rows ensures SaysItsEntry(db', r) && SaysItsExit(db', r) {
      SameRecord(db, db', r);
      assert r in db.rows || r == row;
    }
  }

  lemma SameRecord(db: Tables, db': Tables, r: Row)
    requires db'.signals == db.signals && db'.executions == db.executions
    ensures SaysItsEntry(db', r) <==> SaysItsEntry(db, r)
    ensures SaysItsExit(db', r) <==> SaysItsExit(db, r)
  {
    hide ExecutionsOf, Gain;
    assert forall id, price, quantity, at :: FilledAs(db', id, price, quantity, at) <==> FilledAs(db, id, price, quantity, at);
    if r.signalId in db.signals { assert SizeOf(db', r) == SizeOf(db, r); }
  }

  lemma ClosingSays(db: Tables, x: SignalId, price: real, seller: SignalId, shares: real, at: int, rowId: RowId)
    requires RowsSayFills(db) && IsOpen(db, x) && FilledAs(db, seller, price, shares, at)
    ensures RowsSayFills(AppendRow(db, ClosingRow(db, x, price, seller, at, rowId).value))
  {
    hide FilledAs, Gain;
    var row, latest := ClosingRow(db, x, price, seller, at, rowId).value, Newest(db.rows, x).value;
    FillRows.ClosingRowSays(db, x, price, seller, at, rowId);
    assert latest in db.rows && SaysItsEntry(db, latest);
    hide Newest;
    assert SizeOf(db, row) == SizeOf(db, latest) && row.entryPrice == latest.entryPrice && row.signalId == latest.signalId;
    var entered :| FilledAs(db, latest.signalId, latest.entryPrice, SizeOf(db, latest), entered);
    AppendSays(db, row);
  }

  lemma {:induction false} CloseSays(db: Tables, ids: seq<SignalId>, price: real, seller: SignalId, shares: real, at: int, rowIds: seq<RowId>)
    requires |rowIds| == |ids| && RowsSayFills(db) && FilledAs(db, seller, price, shares, at)
    ensures var r := CloseLots(db, ids, price, seller, at, rowIds); r.Some? ==> RowsSayFills(r.value)
    decreases |ids|
  {
    hide RowsSayFills, IsOpen, ExecutionsOf;
    if ids != [] {
      var row := ClosingRow(db, ids[0], price, seller, at, rowIds[0]);
      if row.Some? {
        WasOpen(db, ids[0], price, seller, at, rowIds[0]);
        ClosingSays(db, ids[0], price, seller, shares, at, rowIds[0]);
        CloseSays(AppendRow(db, row.value), ids[1..], price, seller, shares, at, rowIds[1..]);
      }
    }
  }

  lemma WasOpen(db: Tables, x: SignalId, price: real, seller: SignalId, at: int, rowId: RowId)
    requires ClosingRow(db, x, price, seller, at, rowId).Some?
    ensures IsOpen(db, x)
  {
  }

  // ---- Every step -------------------------------------------------------------------------

  /** A step that writes no row. */
  lemma OldRowsStay(w: World, w': World)
    requires Inv(w) && RowsSayFills(w.db) && Later(w.db, w'.db) && w'.db.rows == w.db.rows
    ensures RowsSayFills(w'.db)
  {
    hide Later, SaysItsEntry, SaysItsExit;
    assert ExecutedOnce(w.db);
    hide Inv;
    forall r | r in w'.db.rows ensures SaysItsEntry(w'.db, r) && SaysItsExit(w'.db, r) {
      RowStays(w.db, w'.db, r);
    }
  }

  lemma RecordedAs(db: Tables, e: Execution)
    requires ExecutionsOf(db.executions, e.signalId) == []
    ensures FilledAs(RecordExecution(db, e), e.signalId, e.fillPrice, e.quantity, e.filledAt)
  {
    hide ExecutionsOf;
    ExecutionsGrow(db.executions, e);
  }

  /** The rows a thread's step adds: the opening row of its fill, the closing rows of its lots, or none. */
  lemma ThreadAdds(w: World, t: int, oid: OrderId, first: Report, rowIds: seq<RowId>)
    requires t in w.threads
    ensures var th, db' := w.threads[t], AdvanceThread(w, t, oid, first, rowIds).db;
            || db'.rows == w.db.rows
            || (th.Executed? && th.id in w.db.signals && rowIds != []
                && db' == AppendRow(w.db, OpeningRow(w.db, th.id, th.fill.price, th.fill.quantity, th.fill.filledAt, rowIds[0])))
            || (th.Selected? && |rowIds| == |th.lots|
                && CloseLots(w.db, th.lots, th.fill.price, th.id, th.fill.filledAt, rowIds) == Some(db'))
  {
    var th := w.threads[t];
    hide AdvanceThread, CloseLots, OpeningRow;
    if th.Executed? {
      OpensItsLot(w, t, oid, first, rowIds);
    } else if th.Selected? {
      ClosesItsLots(w, t, oid, first, rowIds);
    } else {
      OthersAddNoRow(w, t, oid, first, rowIds);
    }
  }

  lemma OpensItsLot(w: World, t: int, oid: OrderId, first: Report, rowIds: seq<RowId>)
    requires t in w.threads && w.threads[t].Executed?
    ensures var th, db' := w.threads[t], AdvanceThread(w, t, oid, first, rowIds).db;
            db'.rows == w.db.rows
            || (th.id in w.db.signals && rowIds != []
                && db' == AppendRow(w.db, OpeningRow(w.db, th.id, th.fill.price, th.fill.quantity, th.fill.filledAt, rowIds[0])))
  {
    hide SelectLots, CloseLots, OpeningRow;
  }

  lemma ClosesItsLots(w: World, t: int, oid: OrderId, first: Report, rowIds: seq<RowId>)
    requires t in w.threads && w.threads[t].Selected?
    ensures var th, db' := w.threads[t], AdvanceThread(w, t, oid, first, rowIds).db;
            db'.rows == w.db.rows
            || (|rowIds| == |th.lots| && CloseLots(w.db, th.lots, th.fill.price, th.id, th.fill.filledAt, rowIds) == Some(db'))
  {
    hide SelectLots, CloseLots, OpeningRow;
  }

  lemma OthersAddNoRow(w: World, t: int, oid: OrderId, first: Report, rowIds: seq<RowId>)
    requires t in w.threads && !w.threads[t].Executed? && !w.threads[t].Selected?
    ensures AdvanceThread(w, t, oid, first, rowIds).db.rows == w.db.rows
  {
    hide SelectLots, CloseLots, OpeningRow, MayExecute, ApplySlippage, PlaceAtBroker, KnownRef, ExecutionsOf;
  }

  lemma ThreadRows(w: World, t: int, oid: OrderId, first: Report, rowIds: seq<RowId>)
    requires Inv(w) && RowsSayFills(w.db) && t in w.threads && ThreadOnRecord(w.db, w.threads[t])
    requires Later(w.db, AdvanceThread(w, t, oid, first, rowIds).db)
    ensures RowsSayFills(AdvanceThread(w, t, oid, first, rowIds).db)
  {
    hide AdvanceThread, RowsSayFills, SelectLots, CloseLots, OpeningRow, FilledAs, Later, Inv;
    var th, w' := w.threads[t], AdvanceThread(w, t, oid, first, rowIds);
    ThreadAdds(w, t, oid, first, rowIds);
    if w'.db.rows == w.db.rows {
      OldRowsStay(w, w');
    } else if th.Selected? {
      CloseSays(w.db, th.lots, th.fill.price, th.id, th.fill.quantity, th.fill.filledAt, rowIds);
    } else {
      OpeningSays(w.db, th.id, th.fill.price, th.fill.quantity, th.fill.filledAt, rowIds[0]);
    }
  }

  /** What a thread's step leaves in its own hands, when that is a fill. */
  lemma ThreadComesToHold(w: World, t: int, oid: OrderId, first: Report, rowIds: seq<RowId>)
    requires t in w.threads && ThreadSound(w, w.threads[t])
    ensures var th, w' := w.threads[t], AdvanceThread(w, t, oid, first, rowIds);
            && w'.poller == w.poller && w'.threads.Keys <= w.threads.Keys
            && (forall u :: u in w'.threads && u != t ==> w'.threads[u] == w.threads[u])
            && (t in w'.threads && (w'.threads[t].Executed? || w'.threads[t].Selected?) ==>
                  var to := w'.threads[t];
                  || FilledAs(w'.db, to.id, to.fill.price, to.fill.quantity, to.fill.filledAt)
                  || (w'.db.executions == w.db.executions && (th.Executed? || th.Selected?) && to.id == th.id && to.fill == th.fill))
  {
    hide SelectLots, CloseLots, OpeningRow, MayExecute, ApplySlippage, PlaceAtBroker, KnownRef, ExecutionsOf, FilledAs;
    var th := w.threads[t];
    if th.Ready? && w.db.signals[th.id].mode == Paper {
      var s := w.db.signals[th.id];
      RecordedAs(w.db, Execution(th.id, Paper, ApplySlippage(s.estimatedPrice, s.side, w.slippageBps), s.quantity, th.filledAt, None));
    }
  }

  /** Whatever a thread comes to hold, it holds as it is on record. */
  lemma ThreadHand(w: World, t: int, oid: OrderId, first: Report, rowIds: seq<RowId>)
    requires Inv(w) && InHandIsOnRecord(w) && t in w.threads && ExecutedOnce(w.db)
    requires Later(w.db, AdvanceThread(w, t, oid, first, rowIds).db)
    ensures InHandIsOnRecord(AdvanceThread(w, t, oid, first, rowIds))
  {
    var w' := AdvanceThread(w, t, oid, first, rowIds);
    assert ThreadSound(w, w.threads[t]);
    hide AdvanceThread, FilledAs, Later, Inv, ThreadSound, ExecutedOnce;
    HandStays(w, w');
    ThreadComesToHold(w, t, oid, first, rowIds);
    hide PollerOnRecord;
    assert ThreadOnRecord(w'.db, w.threads[t]);
  }

  lemma PollAdds(w: World, answered: bool, rowIds: seq<RowId>)
    ensures var p, db' := w.poller, AdvancePoll(w, answered, rowIds).db;
            || db'.rows == w.db.rows
            || (p.Polling? && p.stage.Recorded? && rowIds != [] && p.stage.oid in w.db.orders
                && w.db.orders[p.stage.oid].signalId in w.db.signals && p.stage.report.price.Some?
                && db' == AppendRow(w.db, OpeningRow(w.db, w.db.orders[p.stage.oid].signalId, p.stage.report.price.value,
                                                     p.stage.report.quantity, p.now, rowIds[0])))
            || (p.Polling? && p.stage.Chosen? && |rowIds| == |p.stage.lots| && p.stage.oid in w.db.orders && p.stage.report.price.Some?
                && CloseLots(w.db, p.stage.lots, p.stage.report.price.value, w.db.orders[p.stage.oid].signalId, p.now, rowIds) == Some(db'))
  {
    var p := w.poller;
    hide AdvancePoll, CloseLots, OpeningRow;
    if p.Polling? && p.stage.Recorded? {
      RecordedOpensALot(w, answered, rowIds);
    } else if p.Polling? && p.stage.Chosen? {
      ChosenAreClosed(w, answered, rowIds);
    } else {
      OtherStagesAddNoRow(w, answered, rowIds);
    }
  }

  lemma RecordedOpensALot(w: World, answered: bool, rowIds: seq<RowId>)
    requires w.poller.Polling? && w.poller.stage.Recorded?
    ensures var p, db' := w.poller, AdvancePoll(w, answered, rowIds).db;
            db'.rows == w.db.rows
            || (rowIds != [] && p.stage.oid in w.db.orders && w.db.orders[p.stage.oid].signalId in w.db.signals && p.stage.report.price.Some?
                && db' == AppendRow(w.db, OpeningRow(w.db, w.db.orders[p.stage.oid].signalId, p.stage.report.price.value,
                                                     p.stage.report.quantity, p.now, rowIds[0])))
  {
    hide SelectLots, CloseLots, OpeningRow;
  }

  lemma ChosenAreClosed(w: World, answered: bool, rowIds: seq<RowId>)
    requires w.poller.Polling? && w.poller.stage.Chosen?
    ensures var p, db' := w.poller, AdvancePoll(w, answered, rowIds).db;
            db'.rows == w.db.rows
            || (|rowIds| == |p.stage.lots| && p.stage.oid in w.db.orders && p.stage.report.price.Some?
                && CloseLots(w.db, p.stage.lots, p.stage.report.price.value, w.db.orders[p.stage.oid].signalId, p.now, rowIds) == Some(db'))
  {
    hide SelectLots, CloseLots, OpeningRow;
  }

  lemma OtherStagesAddNoRow(w: World, answered: bool, rowIds: seq<RowId>)
    requires w.poller.Polling? ==> !w.poller.stage.Recorded? && !w.poller.stage.Chosen?
    ensures AdvancePoll(w, answered, rowIds).db.rows == w.db.rows
  {
    hide SelectLots, CloseLots, OpeningRow, ExecutionsOf, HasFill, WellFormed;
  }

  lemma PollRows(w: World, answered: bool, rowIds: seq<RowId>)
    requires Inv(w) && RowsSayFills(w.db) && PollerOnRecord(w.db, w.poller) && Later(w.db, AdvancePoll(w, answered, rowIds).db)
    ensures RowsSayFills(AdvancePoll(w, answered, rowIds).db)
  {
    hide AdvancePoll, RowsSayFills, SelectLots, CloseLots, OpeningRow, FilledAs, Later, Inv;
    var w' := AdvancePoll(w, answered, rowIds);
    PollAdds(w, answered, rowIds);
    if w'.db.rows == w.db.rows {
      OldRowsStay(w, w');
    } else {
      var st, now := w.poller.stage, w.poller.now;
      var id, price, quantity := w.db.orders[st.oid].signalId, st.report.price.value, st.report.quantity;
      if st.Chosen? {
        CloseSays(w.db, st.lots, price, id, quantity, now, rowIds);
      } else {
        OpeningSays(w.db, id, price, quantity, now, rowIds[0]);
      }
    }
  }

  /** What the poll's step leaves in its hands, when that is a fill. */
  lemma PollComesToHold(w: World, answered: bool, rowIds: seq<RowId>)
    requires w.poller.Polling? && w.poller.stage.Vacant? ==> StageSound(w, w.poller.now, w.poller.stage)
    requires PollerOnRecord(AdvancePoll(w, answered, rowIds).db, w.poller)
    ensures var w' := AdvancePoll(w, answered, rowIds); w'.threads == w.threads && PollerOnRecord(w'.db, w'.poller)
  {
    hide AdvancePoll, PollerOnRecord, StageSound;
    if w.poller.Polling? && w.poller.stage.Vacant? {
      VacantRecords(w, answered, rowIds);
    } else {
      OthersHoldOn(w, answered, rowIds);
    }
  }

  lemma OthersHoldOn(w: World, answered: bool, rowIds: seq<RowId>)
    requires !(w.poller.Polling? && w.poller.stage.Vacant?) && PollerOnRecord(AdvancePoll(w, answered, rowIds).db, w.poller)
    ensures var w' := AdvancePoll(w, answered, rowIds); w'.threads == w.threads && PollerOnRecord(w'.db, w'.poller)
  {
    hide SelectLots, CloseLots, OpeningRow, HasFill, WellFormed, FilledAs, PublishSignal, ExecutionsOf;
  }

  lemma VacantRecords(w: World, answered: bool, rowIds: seq<RowId>)
    requires w.poller.Polling? && w.poller.stage.Vacant? && StageSound(w, w.poller.now, w.poller.stage)
    ensures var w' := AdvancePoll(w, answered, rowIds); w'.threads == w.threads && PollerOnRecord(w'.db, w'.poller)
  {
    var st := w.poller.stage;
    VacantSays(w, w.poller.now, st);
    var e := Execution(w.db.orders[st.oid].signalId, Live, st.report.price.value, st.report.quantity, w.poller.now, Some(st.oid));
    hide StageSound, ExecutionsOf, FilledAs, SelectLots, CloseLots, OpeningRow, HasFill, WellFormed, PublishSignal;
    assert AdvancePoll(w, answered, rowIds)
           == AtStage(w.(db := RecordExecution(w.db, e)), w.poller.now, w.poller.todo, Recorded(st.oid, st.report));
    hide AdvancePoll;
    RecordedAs(w.db, e);
  }

  lemma VacantSays(w: World, now: int, st: Stage)
    requires st.Vacant? && StageSound(w, now, st)
    ensures st.oid in w.db.orders && st.report.price.Some? && ExecutionsOf(w.db.executions, w.db.orders[st.oid].signalId) == []
  {
  }

  lemma PollHand(w: World, answered: bool, rowIds: seq<RowId>)
    requires Inv(w) && InHandIsOnRecord(w) && ExecutedOnce(w.db) && Later(w.db, AdvancePoll(w, answered, rowIds).db)
    ensures InHandIsOnRecord(AdvancePoll(w, answered, rowIds))
  {
    hide AdvancePoll, FilledAs, Later, ExecutedOnce, StageSound;
    var w' := AdvancePoll(w, answered, rowIds);
    assert PollerSound(w);
    hide Inv;
    HandStays(w, w');
    PollComesToHold(w, answered, rowIds);
  }

  lemma PollOrdersStay(w: World, answered: bool, rowIds: seq<RowId>)
    ensures var db' := AdvancePoll(w, answered, rowIds).db;
            forall o :: o in w.db.orders ==> o in db'.orders && db'.orders[o].signalId == w.db.orders[o].signalId
  {
    hide SelectLots, CloseLots, OpeningRow, ExecutionsOf, HasFill, WellFormed;
    if w.poller.Polling? && w.poller.stage.Chosen? {
      var st := w.poller.stage;
      if st.oid in w.db.orders && st.report.price.Some? && |rowIds| == |st.lots| {
        CloseLotsAppends(w.db, st.lots, st.report.price.value, w.db.orders[st.oid].signalId, w.poller.now, rowIds);
      }
    }
  }

  lemma OrdersStay(w: World, a: Action)
    ensures forall o :: o in w.db.orders ==> o in Do(w, a).db.orders && Do(w, a).db.orders[o].signalId == w.db.orders[o].signalId
  {
    hide AdvanceThread, AdvancePoll, Preflight, DedupeKeyTaken, FilledUnpublished, OpenOrder;
    match a
    case Advance(t, oid, first, rowIds) => if t in w.threads { Stranded.ThreadLeavesPoll(w, t, oid, first, rowIds); }
    case PollAdvances(answered, rowIds) => PollOrdersStay(w, answered, rowIds);
    case _ =>
  }

  lemma StepLater(w: World, a: Action)
    requires Inv(w)
    ensures Later(w.db, Do(w, a).db) && ExecutedOnce(w.db)
  {
    ProtocolTheorems.StepAllowed(w, a);
    ProtocolTheorems.DoKeeps(w, a);
    OrdersStay(w, a);
    hide Do;
    assert TablesSound(Do(w, a).db, Do(w, a).broker, Do(w, a).clock);
  }

  lemma StepKeepsTrail(w: World, a: Action)
    requires Inv(w) && TrailSound(w)
    ensures TrailSound(Do(w, a))
  {
    StepLater(w, a);
    hide Inv, AdvanceThread, AdvancePoll, Preflight, DedupeKeyTaken, Later, RowsSayFills, ThreadOnRecord, PollerOnRecord, ExecutedOnce;
    match a
    case Advance(t, oid, first, rowIds) =>
      if t in w.threads {
        ThreadRows(w, t, oid, first, rowIds);
        ThreadHand(w, t, oid, first, rowIds);
      }
    case PollAdvances(answered, rowIds) =>
      PollRows(w, answered, rowIds);
      PollHand(w, answered, rowIds);
    case _ => OtherStepKeepsTrail(w, a);
  }

  /** No other step writes rows, or takes an actor to a fill. */
  lemma OtherStepKeepsTrail(w: World, a: Action)
    requires Inv(w) && TrailSound(w) && !a.Advance? && !a.PollAdvances? && Later(w.db, Do(w, a).db) && ExecutedOnce(w.db)
    ensures TrailSound(Do(w, a))
  {
    hide Inv, Preflight, DedupeKeyTaken, Later, RowsSayFills, ExecutedOnce, FilledAs, FilledUnpublished, OpenOrder;
    var w' := Do(w, a);
    assert w'.db.rows == w.db.rows;
    OldRowsStay(w, w');
    HandStays(w, w');
    forall t | t in w'.threads ensures ThreadOnRecord(w'.db, w'.threads[t]) {
      if t in w.threads { assert ThreadOnRecord(w'.db, w.threads[t]); }
    }
  }

  lemma {:induction false} ExecKeepsTrail(w: World, actions: seq<Action>)
    requires Inv(w) && TrailSound(w)
    ensures TrailSound(Exec(w, actions))
  {
    hide Inv, Do, TrailSound;
    if actions != [] {
      var front := actions[..|actions| - 1];
      ExecKeepsTrail(w, front);
      ProtocolTheorems.ExecKeeps(w, front);
      StepKeepsTrail(Exec(w, front), actions[|actions| - 1]);
    }
  }

  lemma InitTrail(clock: int, bps: int)
    ensures TrailSound(Init(clock, bps))
  {
  }

  /**
   * In every state any interleaving can reach, with any actor dying anywhere: the row of a lot carries the
   * price and the shares its signal was filled at, an opening row the time as well; and a row that closes a
   * lot carries the price and the time the sell it names was filled at, and what the lot gained at that price.
   */
  lemma EveryRowSaysItsFill(clock: int, bps: int, actions: seq<Action>, r: Row)
    requires r in Exec(Init(clock, bps), actions).db.rows
    ensures var db := Exec(Init(clock, bps), actions).db;
            && r.signalId in db.signals
            && (exists e :: ExecutionsOf(db.executions, r.signalId) == [e] && r.entryPrice == e.fillPrice
                            && SizeOf(db, r) == e.quantity && (r.status == Open ==> r.recordedAt == e.filledAt))
            && (r.status == Closed ==>
                  && r.closedBy.Some?
                  && exists x :: ExecutionsOf(db.executions, r.closedBy.value) == [x] && r.exitPrice == Some(x.fillPrice)
                                 && r.recordedAt == x.filledAt
                                 && r.realizedPnl == Some(Gain(x.fillPrice, r.entryPrice, SizeOf(db, r))))
  {
    hide Do, Inv, ExecutionsOf, Gain, Exec, InHandIsOnRecord;
    ProtocolTheorems.InitSound(clock, bps);
    InitTrail(clock, bps);
    ExecKeepsTrail(Init(clock, bps), actions);
    var db := Exec(Init(clock, bps), actions).db;
    assert SaysItsEntry(db, r) && SaysItsExit(db, r);
    var at :| FilledAs(db, r.signalId, r.entryPrice, SizeOf(db, r), at) && (r.status == Open ==> at == r.recordedAt);
    var e := ExecutionsOf(db.executions, r.signalId)[0];
    assert ExecutionsOf(db.executions, r.signalId) == [e];
    if r.status == Closed {
      var shares :| FilledAs(db, r.closedBy.value, r.exitPrice.value, shares, r.recordedAt);
      var x := ExecutionsOf(db.executions, r.closedBy.value)[0];
      assert ExecutionsOf(db.executions, r.closedBy.value) == [x];
    }
  }
}
