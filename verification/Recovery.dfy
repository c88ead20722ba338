/** What one complete poll and one publish sweep repair after a crash, and what nothing repairs. */
module Recovery {
  import opened Prelude
  import opened Ledger
  import opened Lots
  import opened Protocol
  import opened ProtocolInvariant
  import ProtocolTheorems
  import LotsLaws

  // ---- A poll that runs to its end -----------------------------------------------------

  function Rank(stage: Stage): nat {
    match stage
    case Between => 0
    case Fetched(_, _) => 7
    case Refreshed(_, _) => 6
    case Vacant(_, _) => 5
    case Recorded(_, _) => 4
    case Chosen(_, _, _) => 3
    case Opened(_, _) => 2
    case Finishing(_, _) => 1
  }

  function Phase(p: Poller): nat {
    if p.Starting? then 2 else if p.Polling? then 1 else 0
  }

  function Todo(p: Poller): seq<OrderId> {
    if p.Starting? then p.todo else if p.Polling? then p.todo else []
  }

  /** One step of the poll, the broker answering for the orders in `answers`. */
  function PollOnce(w: World, answers: set<OrderId>, draw: Draw): World {
    AdvancePoll(w,
                w.poller.Polling? && w.poller.todo != [] && w.poller.todo[0] in answers,
                if w.poller.Polling? && w.poller.stage.Chosen? then draw(w.db.rows, |w.poller.stage.lots|) else draw(w.db.rows, 1))
  }

  lemma PollOnceShrinks(w: World, answers: set<OrderId>, draw: Draw)
    requires DrawsEnough(draw) && w.poller != Idle
    ensures var p, q := w.poller, PollOnce(w, answers, draw).poller;
            || Phase(q) < Phase(p)
            || (Phase(q) == Phase(p) && |Todo(q)| < |Todo(p)|)
            || (Phase(q) == Phase(p) == 1 && |Todo(q)| == |Todo(p)| && Rank(q.stage) < Rank(p.stage))
  {
    hide SelectLots, CloseLots, OpeningRow;
  }

  /** The poll, uninterrupted until it has no order left. */
  function RunPoll(w: World, answers: set<OrderId>, draw: Draw): World
    requires DrawsEnough(draw)
    decreases Phase(w.poller), |Todo(w.poller)|, if w.poller.Polling? then Rank(w.poller.stage) else 0
  {
    if w.poller == Idle then w
    else
      PollOnceShrinks(w, answers, draw);
      RunPoll(PollOnce(w, answers, draw), answers, draw)
  }

  /** It is one of the runs the system can make. */
  lemma {:induction false} RunPollIsARun(w: World, answers: set<OrderId>, draw: Draw) returns (actions: seq<Action>)
    requires DrawsEnough(draw)
    ensures Exec(w, actions) == RunPoll(w, answers, draw)
    decreases Phase(w.poller), |Todo(w.poller)|, if w.poller.Polling? then Rank(w.poller.stage) else 0
  {
    hide AdvancePoll;
    if w.poller == Idle {
      actions := [];
    } else {
      PollOnceShrinks(w, answers, draw);
      var w' := PollOnce(w, answers, draw);
      var rest := RunPollIsARun(w', answers, draw);
      var a := PollAdvances(w.poller.Polling? && w.poller.todo != [] && w.poller.todo[0] in answers,
                            if w.poller.Polling? && w.poller.stage.Chosen? then draw(w.db.rows, |w.poller.stage.lots|) else draw(w.db.rows, 1));
      assert Do(w, a) == w';
      ExecFrom(w, a, rest);
      actions := [a] + rest;
    }
  }

  lemma {:induction false} ExecFrom(w: World, a: Action, rest: seq<Action>)
    ensures Exec(w, [a] + rest) == Exec(Do(w, a), rest)
  {
    hide Do;
    if rest == [] {
      assert [a] + rest == [a] && [a][..0] == [];
    } else {
      var front := rest[..|rest| - 1];
      ExecFrom(w, a, front);
      assert ([a] + rest)[..|rest|] == [a] + front;
    }
  }

  // ---- The poll stamps everything the broker has finished --------------------------------

  /** Every fill the broker reports for a recorded order has a price and a quantity. */
  ghost predicate FillsWellFormed(w: World) {
    forall o :: o in w.db.orders && o in w.broker ==>
      var r := w.broker[o].report;
      && (r.state == Filled ==> r.price.Some? && r.quantity > 0.0)
      && (r.state != Working && r.quantity > 0.0 ==> r.price.Some?)
  }

  predicate InHand(stage: Stage, o: OrderId) {
    stage != Between && stage.oid == o
  }

  /** Nothing finished has been forgotten: it is stamped, waiting, or in hand with the broker's answer. */
  ghost predicate NothingForgotten(w: World) {
    && w.poller.Polling?
    && (forall o :: o in w.db.orders && o in w.broker && Terminal(w.broker[o].report.state) && w.db.orders[o].terminalAt == None ==>
          o in w.poller.todo || InHand(w.poller.stage, o))
    && (w.poller.stage != Between ==>
          w.poller.stage.oid in w.broker && w.poller.stage.report == w.broker[w.poller.stage.oid].report)
    && (w.poller.stage.Chosen? ==>
          var st := w.poller.stage;
          && st.oid in w.db.orders && w.db.orders[st.oid].signalId in w.db.signals
          && st.lots == SelectLots(w.db, w.db.signals[w.db.orders[st.oid].signalId].symbol, st.report.quantity))
  }

  ghost predicate AllStamped(w: World) {
    forall o :: o in w.db.orders && o in w.broker && w.broker[o].report.state != Working ==> w.db.orders[o].terminalAt.Some?
  }

  /** The poll leaves the broker, the other actors and the set of orders alone. */
  ghost predicate PollFrame(w: World, w': World) {
    && w'.broker == w.broker && w'.threads == w.threads && w'.clock == w.clock
    && w'.db.orders.Keys == w.db.orders.Keys
    && forall o :: o in w.db.orders ==> w'.db.orders[o].signalId == w.db.orders[o].signalId
  }

  lemma BetweenStep(w: World, answers: set<OrderId>, draw: Draw)
    requires Inv(w) && NothingForgotten(w) && w.poller.stage == Between
    requires forall o :: o in w.db.orders ==> o in answers
    ensures var w' := PollOnce(w, answers, draw);
            PollFrame(w, w') && (if w.poller.todo == [] then w'.poller == Idle && AllStamped(w') else NothingForgotten(w'))
  {
    hide TablesSound;
    var todo := w.poller.todo;
    if todo != [] {
      assert PollerSound(w);
      assert todo[0] in todo;
      OrderFacts(w.db, w.broker, w.clock, todo[0]);
      assert todo == [todo[0]] + todo[1..];
      var w' := PollOnce(w, answers, draw);
      assert w'.poller == Polling(w.poller.now, todo[1..], Fetched(todo[0], w.broker[todo[0]].report));
    }
  }

  lemma LotStep(w: World, answers: set<OrderId>, draw: Draw)
    requires Inv(w) && NothingForgotten(w) && DrawsEnough(draw)
    requires w.poller.stage.Recorded? || w.poller.stage.Chosen?
    ensures var w' := PollOnce(w, answers, draw); PollFrame(w, w') && NothingForgotten(w')
  {
    hide TablesSound, SelectLots, CloseLots, OpeningRow;
    var st := w.poller.stage;
    assert StageSound(w, w.poller.now, st);
    var id := w.db.orders[st.oid].signalId;
    if st.Chosen? {
      var rowIds := draw(w.db.rows, |st.lots|);
      LotsLaws.SelectThenClose(w.db, w.db.signals[id].symbol, st.report.quantity, st.report.price.value, id, w.poller.now, rowIds);
      LotsLaws.CloseLotsAppends(w.db, st.lots, st.report.price.value, id, w.poller.now, rowIds);
    } else {
      assert draw(w.db.rows, 1) != [];
    }
  }

  lemma OtherStep(w: World, answers: set<OrderId>, draw: Draw)
    requires Inv(w) && NothingForgotten(w) && FillsWellFormed(w) && DrawsEnough(draw)
    requires w.poller.stage != Between && !w.poller.stage.Recorded? && !w.poller.stage.Chosen?
    ensures var w' := PollOnce(w, answers, draw); PollFrame(w, w') && NothingForgotten(w')
  {
    hide TablesSound, SelectLots, CloseLots, OpeningRow;
    var st := w.poller.stage;
    assert StageSound(w, w.poller.now, st);
    OrderFacts(w.db, w.broker, w.clock, st.oid);
  }

  /** One step of a poll that has forgotten nothing. */
  lemma PollStep(w: World, answers: set<OrderId>, draw: Draw)
    requires Inv(w) && NothingForgotten(w) && FillsWellFormed(w) && DrawsEnough(draw)
    requires forall o :: o in w.db.orders ==> o in answers
    ensures var w' := PollOnce(w, answers, draw);
            PollFrame(w, w') && (NothingForgotten(w') || (w'.poller == Idle && AllStamped(w')))
  {
    hide Inv, PollOnce, FillsWellFormed, AllStamped;
    match w.poller.stage
    case Between => BetweenStep(w, answers, draw);
    case Recorded(_, _) => LotStep(w, answers, draw);
    case Chosen(_, _, _) => LotStep(w, answers, draw);
    case _ => OtherStep(w, answers, draw);
  }

  lemma Unforgotten(w: World)
    requires NothingForgotten(w)
    ensures w.poller.Polling? && w.poller != Idle
  {
  }

  lemma FrameCarries(w: World, w': World)
    requires PollFrame(w, w') && FillsWellFormed(w)
    ensures FillsWellFormed(w') && w'.db.orders.Keys == w.db.orders.Keys
  {
  }

  lemma {:induction false} PollStampsAll(w: World, answers: set<OrderId>, draw: Draw)
    requires Inv(w) && NothingForgotten(w) && FillsWellFormed(w) && DrawsEnough(draw)
    requires forall o :: o in w.db.orders ==> o in answers
    ensures var w' := RunPoll(w, answers, draw);
            Inv(w') && w'.poller == Idle && AllStamped(w') && PollFrame(w, w')
    decreases Phase(w.poller), |Todo(w.poller)|, if w.poller.Polling? then Rank(w.poller.stage) else 0
  {
    hide Inv, PollOnce, NothingForgotten, AllStamped, FillsWellFormed, PollFrame;
    Unforgotten(w);
    var w' := PollOnce(w, answers, draw);
    PollOnceShrinks(w, answers, draw);
    PollOnceKeeps(w, answers, draw);
    PollStep(w, answers, draw);
    FrameCarries(w, w');
    if NothingForgotten(w') {
      assert forall o :: o in w'.db.orders ==> o in w'.db.orders.Keys;
      PollStampsAll(w', answers, draw);
      FramesChain(w, w', RunPoll(w', answers, draw));
    } else {
      assert RunPoll(w', answers, draw) == w';
    }
  }

  lemma FramesChain(w: World, v: World, u: World)
    requires PollFrame(w, v) && PollFrame(v, u)
    ensures PollFrame(w, u)
  {
  }

  lemma PollOnceKeeps(w: World, answers: set<OrderId>, draw: Draw)
    requires Inv(w)
    ensures Inv(PollOnce(w, answers, draw))
  {
    hide Inv, AdvancePoll;
    ProtocolTheorems.PollKeeps(w, w.poller.Polling? && w.poller.todo != [] && w.poller.todo[0] in answers,
                               if w.poller.Polling? && w.poller.stage.Chosen? then draw(w.db.rows, |w.poller.stage.lots|) else draw(w.db.rows, 1));
  }

  /** Every order the broker has finished is stamped, and every fill it reports is on record, once. */
  ghost predicate Reconciled(w: World) {
    && AllStamped(w)
    && forall o :: o in w.db.orders && o in w.broker
                   && (w.broker[o].report.state == Filled || (w.broker[o].report.state != Working && w.broker[o].report.quantity > 0.0)) ==>
         ProtocolTheorems.FillOnRecord(w, o)
  }

  lemma PollStarts(w: World, todo: seq<OrderId>, draw: Draw)
    requires Inv(w) && w.poller == Idle && DrawsEnough(draw) && FillsWellFormed(w)
    requires forall o :: o in todo <==> OpenOrder(w.db, o)
    ensures var w0 := Do(w, PollBegins(todo)); var w1 := PollOnce(w0, {}, draw);
            && w1.poller == Polling(w.clock, todo, Between) && w0.poller == Starting(todo)
            && Inv(w1) && NothingForgotten(w1) && FillsWellFormed(w1) && PollFrame(w, w1)
            && w1.db == w.db && w1 == PollOnce(w0, w.db.orders.Keys, draw)
  {
    var w0 := Do(w, PollBegins(todo));
    ProtocolTheorems.DoKeeps(w, PollBegins(todo));
    PollOnceKeeps(w0, {}, draw);
    hide Inv;
    forall o | o in w.db.orders && w.db.orders[o].terminalAt == None ensures o in todo {
      assert OpenOrder(w.db, o);
    }
  }

  /** From any sound state, a poll the broker answers throughout settles every finished order. */
  lemma PollRecovers(w: World, todo: seq<OrderId>, answers: set<OrderId>, draw: Draw)
    requires Inv(w) && w.poller == Idle && DrawsEnough(draw) && FillsWellFormed(w)
    requires forall o :: o in todo <==> OpenOrder(w.db, o)
    requires forall o :: o in w.db.orders ==> o in answers
    ensures var w' := RunPoll(Do(w, PollBegins(todo)), answers, draw);
            Inv(w') && w'.poller == Idle && PollFrame(w, w') && Reconciled(w')
  {
    hide Inv, NothingForgotten, AllStamped, FillsWellFormed, PollFrame, Do;
    PollStarts(w, todo, draw);
    var w0 := Do(w, PollBegins(todo));
    var w1 := PollOnce(w0, {}, draw);
    assert PollOnce(w0, answers, draw) == w1;
    assert forall o :: o in w1.db.orders ==> o in answers;
    PollStampsAll(w1, answers, draw);
    var w' := RunPoll(w1, answers, draw);
    assert RunPoll(w0, answers, draw) == w';
    FramesChain(w, w1, w');
    forall o | o in w'.db.orders && o in w'.broker && HasFill(w'.broker[o].report)
      ensures ProtocolTheorems.FillOnRecord(w', o)
    {
      IsStamped(w', o);
      ProtocolTheorems.StampedFill(w', o);
    }
  }

  lemma IsStamped(w: World, o: OrderId)
    requires AllStamped(w) && o in w.db.orders && o in w.broker && HasFill(w.broker[o].report)
    ensures w.db.orders[o].terminalAt.Some?
  {
  }

  // ---- A publish sweep that runs to its end -----------------------------------------------

  /** The publish sweep in `t`, uninterrupted from its first signal to its last. */
  ghost function RunSweep(w: World, t: int): World
    requires t in w.threads && w.threads[t].Publishing?
    decreases |w.threads[t].ids|
  {
    var w' := Do(w, Advance(t, 0, Report(Working, 0.0, None), []));
    if w.threads[t].ids == [] then w' else RunSweep(w', t)
  }

  /** The whole sweep: its query, then one guarded update per signal found. */
  ghost function Sweep(w: World, t: int, ids: seq<SignalId>): World
    requires t !in w.threads && forall id :: id in ids <==> FilledUnpublished(w.db, id)
  {
    RunSweep(Do(Do(w, SweepBegins(t, ids)), Advance(t, 0, Report(Working, 0.0, None), [])), t)
  }

  ghost predicate OnlyPublished(w: World, w': World) {
    && w'.broker == w.broker && w'.poller == w.poller && w'.clock == w.clock
    && w'.db.orders == w.db.orders && w'.db.executions == w.db.executions && w'.db.rows == w.db.rows
    && w'.db.events == w.db.events && w'.db.signals.Keys == w.db.signals.Keys
    && forall id :: FilledUnpublished(w'.db, id) ==> FilledUnpublished(w.db, id)
  }

  lemma {:induction false} RunSweepPublishes(w: World, t: int)
    requires Inv(w) && t in w.threads && w.threads[t].Publishing?
    ensures var w' := RunSweep(w, t);
            && Inv(w') && OnlyPublished(w, w') && w'.threads == w.threads - {t}
            && forall id :: id in w.threads[t].ids ==> !FilledUnpublished(w'.db, id)
    decreases |w.threads[t].ids|
  {
    hide Inv;
    var a := Advance(t, 0, Report(Working, 0.0, None), []);
    ProtocolTheorems.DoKeeps(w, a);
    if w.threads[t].ids != [] {
      var w1 := Do(w, a);
      RunSweepPublishes(w1, t);
      var ids := w.threads[t].ids;
      assert w1.threads[t].ids == ids[1..];
      assert !FilledUnpublished(w1.db, ids[0]);
      forall id | id in ids ensures !FilledUnpublished(RunSweep(w, t).db, id) {
        assert id == ids[0] || id in ids[1..];
      }
      assert w1.threads - {t} == w.threads - {t};
    }
  }

  /** Nothing approved and executed is kept from the subscribers. */
  ghost predicate AllPublished(db: Tables) {
    forall id :: id in db.signals && db.signals[id].status == Approved && ExecutionsOf(db.executions, id) != [] ==> db.signals[id].published
  }

  lemma NoneUnpublished(db: Tables)
    requires forall id :: !FilledUnpublished(db, id)
    ensures AllPublished(db)
  {
    hide ExecutionsOf;
    forall id | id in db.signals && db.signals[id].status == Approved && ExecutionsOf(db.executions, id) != []
      ensures db.signals[id].published
    {
      assert !FilledUnpublished(db, id);
    }
  }

  lemma SweepPublishesAll(w: World, t: int, ids: seq<SignalId>)
    requires Inv(w) && t !in w.threads && forall id :: id in ids <==> FilledUnpublished(w.db, id)
    ensures var w' := Sweep(w, t, ids);
            && Inv(w') && OnlyPublished(w, w') && w'.threads == w.threads && (forall id :: !FilledUnpublished(w'.db, id))
            && AllPublished(w'.db)
  {
    hide Inv, FilledUnpublished;
    var w0 := Do(w, SweepBegins(t, ids));
    ProtocolTheorems.DoKeeps(w, SweepBegins(t, ids));
    var a := Advance(t, 0, Report(Working, 0.0, None), []);
    ProtocolTheorems.DoKeeps(w0, a);
    var w1 := Do(w0, a);
    assert w1.threads[t] == Publishing(ids, w.clock) && w1.db == w.db;
    RunSweepPublishes(w1, t);
    assert w1.threads - {t} == w.threads;
    NoneUnpublished(Sweep(w, t, ids).db);
  }

  /**
   * Crash recovery. Whatever interleaving came before, and wherever any actor died in it: one poll that
   * the broker answers throughout with well-formed fills, then one publish sweep, leave every recorded
   * order the broker has finished stamped, every fill it reports with exactly one execution in its own
   * numbers, and no approved, executed signal unpublished.
   */
  lemma CrashRecovery(clock: int, bps: int, past: seq<Action>,
                      todo: seq<OrderId>, answers: set<OrderId>, draw: Draw, t: int, ids: seq<SignalId>)
    requires DrawsEnough(draw)
    requires var w := Exec(Init(clock, bps), past);
             && w.poller == Idle && FillsWellFormed(w) && t !in w.threads
             && (forall o :: o in todo <==> OpenOrder(w.db, o))
             && (forall o :: o in w.db.orders ==> o in answers)
             && (forall id :: id in ids <==> FilledUnpublished(RunPoll(Do(w, PollBegins(todo)), answers, draw).db, id))
    ensures var w := Exec(Init(clock, bps), past);
            var w1 := RunPoll(Do(w, PollBegins(todo)), answers, draw);
            && w1.threads == w.threads && w1.broker == w.broker && w1.db.orders.Keys == w.db.orders.Keys
            && var w2 := Sweep(w1, t, ids);
               && w2.broker == w.broker && w2.db.orders.Keys == w.db.orders.Keys
               && Reconciled(w2) && AllPublished(w2.db)
  {
    hide Inv, Exec, Do, RunPoll, Sweep, FilledUnpublished, AllStamped, Init, FillsWellFormed;
    var w := Exec(Init(clock, bps), past);
    ProtocolTheorems.InitSound(clock, bps);
    ProtocolTheorems.ExecKeeps(Init(clock, bps), past);
    PollRecovers(w, todo, answers, draw);
    var w1 := RunPoll(Do(w, PollBegins(todo)), answers, draw);
    SweepPublishesAll(w1, t, ids);
    StillReconciled(w1, Sweep(w1, t, ids));
  }

  lemma StillReconciled(w: World, w': World)
    requires Reconciled(w) && OnlyPublished(w, w')
    ensures Reconciled(w')
  {
    forall o | o in w'.db.orders && o in w'.broker && HasFill(w'.broker[o].report)
      ensures ProtocolTheorems.FillOnRecord(w', o)
    {
      assert ProtocolTheorems.FillOnRecord(w, o);
    }
  }
}
