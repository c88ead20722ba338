/** Every step of every actor keeps the invariant, so every run does. */
module ProtocolTheorems {
  import opened Prelude
  import opened Money
  import opened Ledger
  import opened Lots
  import opened Protocol
  import opened ProtocolInvariant
  import LotsLaws

  // ---- Threads ----------------------------------------------------------------------

  lemma DropKeeps(w: World, w': World, t: int)
    requires Inv(w) && t in w.threads && Kept(w, w', None) && TablesSound(w'.db, w'.broker, w'.clock)
    requires w'.poller == w.poller && w'.threads == w.threads - {t}
    ensures Inv(w')
  {
    hide TablesSound;
    ThreadMoves(w, w', t, None);
  }

  lemma DecidingKeeps(w: World, t: int, oid: OrderId, first: Report, rowIds: seq<RowId>)
    requires Inv(w) && t in w.threads && w.threads[t].Deciding?
    ensures Inv(AdvanceThread(w, t, oid, first, rowIds))
  {
    hide TablesSound;
    var th := w.threads[t];
    var r := TransitionSignal(w.db, th.id, th.to, When(w, th.stamp));
    var w' := AdvanceThread(w, t, oid, first, rowIds);
    assert ThreadSound(w, th);
    if r.Some? {
      TransitionSound(w.db, w.broker, w.clock, th.id, th.to, When(w, th.stamp));
      PendingIsUntouched(w.db, w.broker, w.clock, th.id);
      if th.to == Approved {
        forall u | u in w.threads ensures Carries(w.threads[u]) != Some(th.id) { assert ThreadSound(w, w.threads[u]); }
      }
    }
    ThreadMoves(w, w', t, None);
  }

  lemma WonKeeps(w: World, t: int, oid: OrderId, first: Report, rowIds: seq<RowId>)
    requires Inv(w) && t in w.threads && w.threads[t].Won?
    ensures Inv(AdvanceThread(w, t, oid, first, rowIds))
  {
    hide MayExecute, TablesSound;
    assert ThreadSound(w, w.threads[t]);
    ThreadMoves(w, AdvanceThread(w, t, oid, first, rowIds), t, None);
  }

  /** An execution recorded for a signal that had none touches that signal only. */
  lemma RecordKept(w: World, w': World, e: Execution)
    requires w'.db == RecordExecution(w.db, e) && w'.broker == w.broker && w'.clock == w.clock
    requires ExecutionsOf(w.db.executions, e.signalId) == []
    ensures Kept(w, w', Some(e.signalId)) && ExecutionsOf(w'.db.executions, e.signalId) == [e]
  {
    hide ExecutionsOf;
    ExecutionsGrow(w.db.executions, e);
  }

  lemma PaperReadyKeeps(w: World, t: int, oid: OrderId, first: Report, rowIds: seq<RowId>)
    requires Inv(w) && t in w.threads && w.threads[t].Ready?
    requires w.threads[t].id in w.db.signals && w.db.signals[w.threads[t].id].mode == Paper
    ensures Inv(AdvanceThread(w, t, oid, first, rowIds))
  {
    hide ApplySlippage, TablesSound, MayExecute, SelectLots, CloseLots, OpeningRow, PlaceAtBroker, KnownRef, TransitionSignal,
      PublishSignal, Kept, ExecutionsOf;
    var th := w.threads[t];
    assert ThreadSound(w, th);
    var s := w.db.signals[th.id];
    var fill := Fill(ApplySlippage(s.estimatedPrice, s.side, w.slippageBps), s.quantity, th.filledAt);
    var e := Execution(th.id, Paper, fill.price, fill.quantity, th.filledAt, None);
    var w' := AdvanceThread(w, t, oid, first, rowIds);
    assert w' == Go(w.(db := RecordExecution(w.db, e)), t, Executed(th.id, fill, th.stamp));
    RecordSound(w.db, w.broker, w.clock, e);
    RecordKept(w, w', e);
    hide AdvanceThread;
    ThreadMoves(w, w', t, Some(th.id));
  }

  lemma PlaceSound(w: World, id: SignalId, oid: OrderId, first: Report)
    requires TablesSound(w.db, w.broker, w.clock) && (oid in w.broker ==> KnownRef(w.broker, id))
    ensures var (o, after) := PlaceAtBroker(w, id, oid, first);
            && TablesSound(w.db, after, w.clock)
            && o in after && after[o].refId == id
            && forall p :: p in w.broker ==> p in after && after[p] == w.broker[p]
  {
  }

  lemma LiveReadyKeeps(w: World, t: int, oid: OrderId, first: Report, rowIds: seq<RowId>)
    requires Inv(w) && t in w.threads && w.threads[t].Ready?
    requires w.threads[t].id in w.db.signals && w.db.signals[w.threads[t].id].mode == Live
    ensures Inv(AdvanceThread(w, t, oid, first, rowIds))
  {
    hide TablesSound, PlaceAtBroker, KnownRef;
    var th, w' := w.threads[t], AdvanceThread(w, t, oid, first, rowIds);
    assert ThreadSound(w, th);
    if w' != w {
      PlaceSound(w, th.id, oid, first);
      ThreadMoves(w, w', t, None);
    }
  }

  lemma PlacedKeeps(w: World, t: int, oid: OrderId, first: Report, rowIds: seq<RowId>)
    requires Inv(w) && t in w.threads && w.threads[t].Placed?
    ensures Inv(AdvanceThread(w, t, oid, first, rowIds))
  {
    hide TablesSound;
    var th := w.threads[t];
    assert ThreadSound(w, th);
    PlacedSound(w.db, w.broker, w.clock, th.oid, th.id, th.state, When(w, th.stamp));
    ThreadMoves(w, AdvanceThread(w, t, oid, first, rowIds), t, Some(th.id));
  }

  lemma LotsKeep(w: World, t: int, oid: OrderId, first: Report, rowIds: seq<RowId>)
    requires Inv(w) && t in w.threads && (w.threads[t].Executed? || w.threads[t].Selected?)
    ensures Inv(AdvanceThread(w, t, oid, first, rowIds))
  {
    hide SelectLots, CloseLots, OpeningRow, TablesSound;
    var th, w' := w.threads[t], AdvanceThread(w, t, oid, first, rowIds);
    assert ThreadSound(w, th);
    if w' != w {
      if th.Selected? { LotsLaws.CloseLotsAppends(w.db, th.lots, th.fill.price, th.id, th.fill.filledAt, rowIds); }
      assert w'.db == w.db.(rows := w'.db.rows);
      RowsSound(w.db, w.broker, w.clock, w'.db.rows);
      ThreadMoves(w, w', t, None);
    }
  }

  lemma SettledKeeps(w: World, t: int, oid: OrderId, first: Report, rowIds: seq<RowId>)
    requires Inv(w) && t in w.threads && w.threads[t].Settled?
    ensures Inv(AdvanceThread(w, t, oid, first, rowIds))
  {
    hide TablesSound;
    var th := w.threads[t];
    assert ThreadSound(w, th);
    if PublishSignal(w.db, th.id, When(w, th.stamp)).Some? {
      PublishSound(w.db, w.broker, w.clock, th.id, When(w, th.stamp));
    }
    DropKeeps(w, AdvanceThread(w, t, oid, first, rowIds), t);
  }

  lemma ListedKeeps(w: World, t: int, oid: OrderId, first: Report, rowIds: seq<RowId>)
    requires Inv(w) && t in w.threads && w.threads[t].Listed?
    ensures Inv(AdvanceThread(w, t, oid, first, rowIds))
  {
    hide TablesSound, SelectLots, CloseLots, OpeningRow, PlaceAtBroker, TransitionSignal, MayExecute, ApplySlippage;
    assert ThreadSound(w, w.threads[t]);
    ThreadMoves(w, AdvanceThread(w, t, oid, first, rowIds), t, None);
  }

  lemma PublishingKeeps(w: World, t: int, oid: OrderId, first: Report, rowIds: seq<RowId>)
    requires Inv(w) && t in w.threads && w.threads[t].Publishing?
    ensures Inv(AdvanceThread(w, t, oid, first, rowIds))
  {
    hide TablesSound, SelectLots, CloseLots, OpeningRow, PlaceAtBroker, TransitionSignal, MayExecute, ApplySlippage, Carries;
    var th, w' := w.threads[t], AdvanceThread(w, t, oid, first, rowIds);
    assert ThreadSound(w, th);
    if th.ids != [] {
      assert th.ids[0] in th.ids;
      if PublishSignal(w.db, th.ids[0], th.now).Some? { PublishSound(w.db, w.broker, w.clock, th.ids[0], th.now); }
      assert forall id :: id in th.ids[1..] ==> id in th.ids;
      NobodysCarrier(th, w'.threads[t]);
    }
    ThreadMoves(w, w', t, None);
  }

  lemma NobodysCarrier(th: Thread, to: Thread)
    requires th.Publishing? && to.Publishing?
    ensures Carries(th) == None && Carries(to) == None
  {
  }

  lemma ThreadKeeps(w: World, t: int, oid: OrderId, first: Report, rowIds: seq<RowId>)
    requires Inv(w) && t in w.threads
    ensures Inv(AdvanceThread(w, t, oid, first, rowIds))
  {
    hide *;
    match w.threads[t]
    case Deciding(_, _, _) => DecidingKeeps(w, t, oid, first, rowIds);
    case Won(_, _) => WonKeeps(w, t, oid, first, rowIds);
    case Ready(id, _, _) =>
      ReadyKnown(w, t);
      if w.db.signals[id].mode == Paper { PaperReadyKeeps(w, t, oid, first, rowIds); }
      else { LiveReadyKeeps(w, t, oid, first, rowIds); }
    case Placed(_, _, _, _) => PlacedKeeps(w, t, oid, first, rowIds);
    case Executed(_, _, _) => LotsKeep(w, t, oid, first, rowIds);
    case Selected(_, _, _, _) => LotsKeep(w, t, oid, first, rowIds);
    case Settled(_, _) => SettledKeeps(w, t, oid, first, rowIds);
    case Listed(_) => ListedKeeps(w, t, oid, first, rowIds);
    case Publishing(_, _) => PublishingKeeps(w, t, oid, first, rowIds);
  }

  lemma ReadyKnown(w: World, t: int)
    requires Inv(w) && t in w.threads && w.threads[t].Ready?
    ensures w.threads[t].id in w.db.signals
  {
    assert ThreadSound(w, w.threads[t]);
  }

  // ---- The poll ---------------------------------------------------------------------

  lemma BetweenKeeps(w: World, now: int, todo: seq<OrderId>, answered: bool, rowIds: seq<RowId>)
    requires Inv(w) && w.poller == Polling(now, todo, Between)
    ensures Inv(PollStage(w, now, todo, Between, answered, rowIds))
  {
    hide TablesSound;
    if todo != [] {
      assert todo[0] in todo && forall o :: o in todo[1..] ==> o in todo;
    }
    PollerMoves(w, PollStage(w, now, todo, Between, answered, rowIds), None);
  }

  lemma FetchedKeeps(w: World, now: int, todo: seq<OrderId>, stage: Stage, answered: bool, rowIds: seq<RowId>)
    requires Inv(w) && w.poller == Polling(now, todo, stage) && (stage.Fetched? || stage.Finishing?)
    ensures Inv(PollStage(w, now, todo, stage, answered, rowIds))
  {
    hide TablesSound;
    assert StageSound(w, now, stage);
    OrderFacts(w.db, w.broker, w.clock, stage.oid);
    RefreshSound(w.db, w.broker, w.clock, stage.oid, stage.report, now, if stage.Fetched? then None else Some(now));
    PollerMoves(w, PollStage(w, now, todo, stage, answered, rowIds), None);
  }

  lemma RefreshedKeeps(w: World, now: int, todo: seq<OrderId>, stage: Stage, answered: bool, rowIds: seq<RowId>)
    requires Inv(w) && w.poller == Polling(now, todo, stage) && stage.Refreshed?
    ensures Inv(PollStage(w, now, todo, stage, answered, rowIds))
  {
    hide TablesSound;
    assert StageSound(w, now, stage);
    PollerMoves(w, PollStage(w, now, todo, stage, answered, rowIds), None);
  }

  lemma VacantKeeps(w: World, now: int, todo: seq<OrderId>, stage: Stage, answered: bool, rowIds: seq<RowId>)
    requires Inv(w) && w.poller == Polling(now, todo, stage) && stage.Vacant?
    ensures Inv(PollStage(w, now, todo, stage, answered, rowIds))
  {
    hide TablesSound;
    assert StageSound(w, now, stage);
    var id := w.db.orders[stage.oid].signalId;
    OrderFacts(w.db, w.broker, w.clock, stage.oid);
    var e := Execution(id, Live, stage.report.price.value, stage.report.quantity, now, Some(stage.oid));
    RecordSound(w.db, w.broker, w.clock, e);
    ExecutionsGrow(w.db.executions, e);
    assert !NoOrderFor(w.db, id);
    PollerMoves(w, PollStage(w, now, todo, stage, answered, rowIds), Some(id));
  }

  lemma LotStagesKeep(w: World, now: int, todo: seq<OrderId>, stage: Stage, answered: bool, rowIds: seq<RowId>)
    requires Inv(w) && w.poller == Polling(now, todo, stage) && (stage.Recorded? || stage.Chosen?)
    ensures Inv(PollStage(w, now, todo, stage, answered, rowIds))
  {
    hide SelectLots, CloseLots, OpeningRow, TablesSound;
    var w' := PollStage(w, now, todo, stage, answered, rowIds);
    assert StageSound(w, now, stage);
    if w' != w {
      if stage.Chosen? && |rowIds| == |stage.lots| {
        LotsLaws.CloseLotsAppends(w.db, stage.lots, stage.report.price.value, w.db.orders[stage.oid].signalId, now, rowIds);
      }
      assert w'.db == w.db.(rows := w'.db.rows);
      RowsSound(w.db, w.broker, w.clock, w'.db.rows);
      PollerMoves(w, w', None);
    }
  }

  lemma OpenedKeeps(w: World, now: int, todo: seq<OrderId>, stage: Stage, answered: bool, rowIds: seq<RowId>)
    requires Inv(w) && w.poller == Polling(now, todo, stage) && stage.Opened?
    ensures Inv(PollStage(w, now, todo, stage, answered, rowIds))
  {
    hide TablesSound;
    assert StageSound(w, now, stage);
    var id := w.db.orders[stage.oid].signalId;
    OrderFacts(w.db, w.broker, w.clock, stage.oid);
    if PublishSignal(w.db, id, now).Some? { PublishSound(w.db, w.broker, w.clock, id, now); }
    PollerMoves(w, PollStage(w, now, todo, stage, answered, rowIds), None);
  }

  lemma PollKeeps(w: World, answered: bool, rowIds: seq<RowId>)
    requires Inv(w)
    ensures Inv(AdvancePoll(w, answered, rowIds))
  {
    hide Inv, PollStage;
    match w.poller
    case Idle =>
    case Starting(todo) => StartKeeps(w, todo);
    case Polling(now, todo, stage) =>
      match stage {
        case Between => BetweenKeeps(w, now, todo, answered, rowIds);
        case Fetched(_, _) => FetchedKeeps(w, now, todo, stage, answered, rowIds);
        case Refreshed(_, _) => RefreshedKeeps(w, now, todo, stage, answered, rowIds);
        case Vacant(_, _) => VacantKeeps(w, now, todo, stage, answered, rowIds);
        case Recorded(_, _) => LotStagesKeep(w, now, todo, stage, answered, rowIds);
        case Chosen(_, _, _) => LotStagesKeep(w, now, todo, stage, answered, rowIds);
        case Opened(_, _) => OpenedKeeps(w, now, todo, stage, answered, rowIds);
        case Finishing(_, _) => FetchedKeeps(w, now, todo, stage, answered, rowIds);
      }
  }

  lemma StartKeeps(w: World, todo: seq<OrderId>)
    requires Inv(w) && w.poller == Starting(todo)
    ensures Inv(AtStage(w, w.clock, todo, Between))
  {
    hide TablesSound;
    PollerMoves(w, AtStage(w, w.clock, todo, Between), None);
  }

  // ---- Everything else ----------------------------------------------------------------

  lemma StaleIsFilled(w: World, id: SignalId)
    requires Inv(w) && FilledUnpublished(w.db, id)
    ensures FilledBy(w.db, id, w.clock)
  {
    var es := ExecutionsOf(w.db.executions, id);
    ListedIsExecution(w.db.executions, id);
    assert es[0] in es;
  }

  lemma AskKeeps(w: World, a: Action)
    requires Inv(w) && (a.Ask? || a.SweepBegins?)
    ensures Inv(Do(w, a))
  {
    hide Preflight, TablesSound;
    var w' := Do(w, a);
    if w' != w {
      var t := a.thread;
      assert Kept(w, w', None);
      if a.SweepBegins? {
        forall id | id in a.ids ensures FilledBy(w.db, id, w.clock) {
          StaleIsFilled(w, id);
        }
      }
      assert Carries(w'.threads[t]) == None;
      forall u | u in w'.threads ensures ThreadSound(w', w'.threads[u]) {
        if u != t { ThreadUndisturbed(w, w', None, w.threads[u]); }
      }
      if w.poller.Polling? { StageUndisturbed(w, w', None, w.poller.now, w.poller.stage); }
    }
  }

  lemma TickKeeps(w: World, ms: nat)
    requires Inv(w)
    ensures Inv(Do(w, Tick(ms)))
  {
    StillWorld(w, Do(w, Tick(ms)));
  }

  lemma ProposeKeeps(w: World, id: SignalId, draft: Draft)
    requires Inv(w)
    ensures Inv(Do(w, Propose(id, draft)))
  {
    hide TablesSound;
    if id !in w.db.signals && InsertSignal(w.db, id, draft, w.clock).Some? {
      InsertSound(w.db, w.broker, w.clock, id, draft);
      StillWorld(w, Do(w, Propose(id, draft)));
    }
  }

  lemma BrokerMovesSound(db: Tables, broker: map<OrderId, BrokerOrder>, clock: int, oid: OrderId, report: Report)
    requires TablesSound(db, broker, clock) && oid in broker && !Terminal(broker[oid].report.state)
    ensures TablesSound(db, broker[oid := broker[oid].(report := report)], clock)
  {
    hide DecidedOnce, ExecutedOnce, PublishedAfterFill, DistinctProposals, FilledInThePast;
  }

  lemma BrokerMovesKeeps(w: World, oid: OrderId, report: Report)
    requires Inv(w)
    ensures Inv(Do(w, BrokerMoves(oid, report)))
  {
    hide TablesSound;
    var w' := Do(w, BrokerMoves(oid, report));
    if w' != w {
      BrokerMovesSound(w.db, w.broker, w.clock, oid, report);
      StillWorld(w, w');
    }
  }

  lemma DoKeeps(w: World, a: Action)
    requires Inv(w)
    ensures Inv(Do(w, a))
  {
    hide Inv, AdvanceThread, AdvancePoll;
    match a
    case Tick(ms) => TickKeeps(w, ms);
    case Propose(id, draft) => ProposeKeeps(w, id, draft);
    case BrokerMoves(oid, report) => BrokerMovesKeeps(w, oid, report);
    case Ask(_, _, _, _) => AskKeeps(w, a);
    case SweepBegins(_, _) => AskKeeps(w, a);
    case Advance(t, oid, first, rowIds) => if t in w.threads { ThreadKeeps(w, t, oid, first, rowIds); }
    case Dies(t) => if t in w.threads { DiesKeeps(w, t); } else { assert w.threads - {t} == w.threads; }
    case PollBegins(todo) => PollBeginsKeeps(w, todo);
    case PollAdvances(answered, rowIds) => PollKeeps(w, answered, rowIds);
    case PollDies => PollDiesKeeps(w);
  }

  lemma DiesKeeps(w: World, t: int)
    requires Inv(w) && t in w.threads
    ensures Inv(Drop(w, t))
  {
    DropKeeps(w, Drop(w, t), t);
  }

  lemma PollBeginsKeeps(w: World, todo: seq<OrderId>)
    requires Inv(w)
    ensures Inv(Do(w, PollBegins(todo)))
  {
    hide TablesSound;
    var w' := Do(w, PollBegins(todo));
    if w' != w {
      forall o | o in todo ensures o in w.db.orders { assert OpenOrder(w.db, o); }
      PollerMoves(w, w', None);
    }
  }

  lemma PollDiesKeeps(w: World)
    requires Inv(w)
    ensures Inv(w.(poller := Idle))
  {
    hide TablesSound;
    PollerMoves(w, w.(poller := Idle), None);
  }

  lemma {:induction false} ExecKeeps(w: World, actions: seq<Action>)
    requires Inv(w)
    ensures Inv(Exec(w, actions))
  {
    hide Inv, Do;
    if actions == [] {
    } else {
      ExecKeeps(w, actions[..|actions| - 1]);
      DoKeeps(Exec(w, actions[..|actions| - 1]), actions[|actions| - 1]);
    }
  }

  lemma InitSound(clock: int, bps: int)
    ensures Inv(Init(clock, bps))
  {
  }

  // ---- What is written stays written -------------------------------------------------------

  /** The changes the database's triggers allow: one decision, one publication, and new rows. */
  ghost predicate OnlyAllowedChanges(db: Tables, db': Tables) {
    && (forall id :: id in db.signals ==>
          && id in db'.signals
          && var s, s' := db.signals[id], db'.signals[id];
             && s' == s.(status := s'.status, decidedAt := s'.decidedAt, published := s'.published, publishedAt := s'.publishedAt)
             && (s.status != Pending ==> s'.status == s.status && s'.decidedAt == s.decidedAt)
             && (s.published ==> s'.published && s'.publishedAt == s.publishedAt))
    && db.events <= db'.events && db.executions <= db'.executions && db.rows <= db'.rows
  }

  lemma ThreadAllowed(w: World, t: int, oid: OrderId, first: Report, rowIds: seq<RowId>)
    requires t in w.threads
    ensures OnlyAllowedChanges(w.db, AdvanceThread(w, t, oid, first, rowIds).db)
  {
    hide SelectLots, CloseLots, OpeningRow, MayExecute, PlaceAtBroker, ApplySlippage, KnownRef, ExecutionsOf;
    if w.threads[t].Selected? && |rowIds| == |w.threads[t].lots| {
      var th := w.threads[t];
      LotsLaws.CloseLotsAppends(w.db, th.lots, th.fill.price, th.id, th.fill.filledAt, rowIds);
    }
  }

  lemma PollAllowed(w: World, answered: bool, rowIds: seq<RowId>)
    ensures OnlyAllowedChanges(w.db, AdvancePoll(w, answered, rowIds).db)
  {
    hide SelectLots, CloseLots, OpeningRow;
    if w.poller.Polling? && w.poller.stage.Chosen? {
      var st := w.poller.stage;
      if st.oid in w.db.orders && st.report.price.Some? && |rowIds| == |st.lots| {
        LotsLaws.CloseLotsAppends(w.db, st.lots, st.report.price.value, w.db.orders[st.oid].signalId, w.poller.now, rowIds);
      }
    }
  }

  lemma StepAllowed(w: World, a: Action)
    ensures OnlyAllowedChanges(w.db, Do(w, a).db)
  {
    hide Preflight, DedupeKeyTaken, AdvanceThread, AdvancePoll;
    match a
    case Advance(t, oid, first, rowIds) => if t in w.threads { ThreadAllowed(w, t, oid, first, rowIds); }
    case PollAdvances(answered, rowIds) => PollAllowed(w, answered, rowIds);
    case _ =>
  }

  /** However a run goes on, decisions, publications and every row already written stay as they are. */
  lemma {:induction false} HistoryIsPermanent(w: World, actions: seq<Action>)
    ensures OnlyAllowedChanges(w.db, Exec(w, actions).db)
  {
    hide Do;
    if actions == [] {
    } else {
      HistoryIsPermanent(w, actions[..|actions| - 1]);
      StepAllowed(Exec(w, actions[..|actions| - 1]), actions[|actions| - 1]);
    }
  }

  // ---- Main results ---------------------------------------------------------------------

  /**
   * In every state any interleaving can reach, with any actor dying anywhere: each decided signal has
   * exactly one event, saying what was decided; each signal has at most one execution, in its own mode
   * and only when approved; and each published signal has an execution filled no later than it was
   * published.
   */
  lemma EveryInterleaving(clock: int, bps: int, actions: seq<Action>, id: SignalId)
    requires id in Exec(Init(clock, bps), actions).db.signals
    ensures var db := Exec(Init(clock, bps), actions).db; var s := db.signals[id];
            var events, fills := EventsOf(db.events, id), ExecutionsOf(db.executions, id);
            && events == (if s.status == Pending then [] else [Event(id, Pending, s.status)])
            && |fills| <= 1
            && (fills != [] ==> s.status == Approved && fills[0].mode == s.mode && fills[0].filledAt <= Exec(Init(clock, bps), actions).clock)
            && (s.published ==> s.status == Approved && fills != [] && s.publishedAt.Some? && fills[0].filledAt <= s.publishedAt.value)
  {
    InitSound(clock, bps);
    ExecKeeps(Init(clock, bps), actions);
    Conclude(Exec(Init(clock, bps), actions), id);
  }

  lemma Conclude(w: World, id: SignalId)
    requires Inv(w) && id in w.db.signals
    ensures var db := w.db; var s := db.signals[id];
            var events, fills := EventsOf(db.events, id), ExecutionsOf(db.executions, id);
            && events == (if s.status == Pending then [] else [Event(id, Pending, s.status)])
            && |fills| <= 1
            && (fills != [] ==> s.status == Approved && fills[0].mode == s.mode && fills[0].filledAt <= w.clock)
            && (s.published ==> s.status == Approved && fills != [] && s.publishedAt.Some? && fills[0].filledAt <= s.publishedAt.value)
  {
    var fills := ExecutionsOf(w.db.executions, id);
    if fills != [] {
      ListedIsExecution(w.db.executions, id);
      assert fills[0] in fills;
    }
  }

  /** The execution recorded for an order, in the broker's own numbers. */
  ghost predicate FillOnRecord(w: World, oid: OrderId)
    requires oid in w.db.orders && oid in w.broker
  {
    var id, r := w.db.orders[oid].signalId, w.broker[oid].report;
    exists e :: ExecutionsOf(w.db.executions, id) == [e] && e.mode == Live && e.brokerOrderId == Some(oid)
                && r.price == Some(e.fillPrice) && r.quantity == e.quantity
  }

  /**
   * Poll safety, in every reachable state, against a broker whose terminal states are final: an order
   * stamped terminal is in the terminal state the broker left it in; if it was filled, or ended otherwise
   * with shares bought or sold, the signal's one execution carries the broker's price and quantity; and an
   * order whose fill lacks a price or a quantity is never stamped.
   */
  lemma PollSafety(clock: int, bps: int, actions: seq<Action>, oid: OrderId)
    requires oid in Exec(Init(clock, bps), actions).db.orders
    requires Exec(Init(clock, bps), actions).db.orders[oid].terminalAt.Some?
    ensures var w := Exec(Init(clock, bps), actions); var order := w.db.orders[oid];
            && oid in w.broker && w.broker[oid].report == order.report
            && order.report.state != Working
            && (order.report.state == Filled || order.report.quantity > 0.0 ==>
                  order.report.price.Some? && order.report.quantity > 0.0 && FillOnRecord(w, oid))
  {
    InitSound(clock, bps);
    ExecKeeps(Init(clock, bps), actions);
    StampedFill(Exec(Init(clock, bps), actions), oid);
  }

  /** One order per signal, so the execution on record is this order's. */
  lemma RecordIsOwn(w: World, oid: OrderId)
    requires Inv(w) && oid in w.db.orders && ExecutionsOf(w.db.executions, w.db.orders[oid].signalId) != []
    ensures oid in w.broker && FillOnRecord(w, oid)
  {
    var id := w.db.orders[oid].signalId;
    var fills := ExecutionsOf(w.db.executions, id);
    ListedIsExecution(w.db.executions, id);
    var e := fills[0];
    assert e in fills && fills == [e];
    assert e.mode == Live;
    var p := e.brokerOrderId.value;
    assert w.broker[p].refId == w.broker[oid].refId;
  }

  lemma StampedFill(w: World, oid: OrderId)
    requires Inv(w) && oid in w.db.orders && w.db.orders[oid].terminalAt.Some?
    ensures var order := w.db.orders[oid];
            && oid in w.broker && w.broker[oid].report == order.report
            && order.report.state != Working
            && (order.report.state == Filled || order.report.quantity > 0.0 ==>
                  order.report.price.Some? && order.report.quantity > 0.0 && FillOnRecord(w, oid))
  {
    if HasFill(w.db.orders[oid].report) { RecordIsOwn(w, oid); }
  }
}
