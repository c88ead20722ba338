/** Who may decide a signal: the owner, the autonomy sweep, the expiry sweep (routes/signals.ts, autonomy.ts, pipeline.ts). */
module Decisions {
  import opened Prelude
  import opened Ledger
  import opened Lots
  import opened Protocol
  import opened Storage
  import opened Brokerage
  import opened Executor

  /** The instants a request reads its clock at. */
  datatype Times = Times(decidedAt: int, filledAt: int, publishedAt: int)

  datatype Blocked = KillSwitchEngaged | LiveModeNotEnabled | LiveConfirmationRequired | NothingToClose

  datatype Reply =
    | SignalNotFound
    | AlreadyDecided(status: Status)
    | NotNow(why: Blocked)
    | SignalRejected
    | SignalApproved(outcome: Outcome)

  // ---- What a decision does ------------------------------------------------------------

  /** Publication follows a fill, once; a second attempt changes nothing. */
  function Disclose(db: Tables, id: SignalId, at: int): Tables {
    var t := Ledger.PublishSignal(db, id, at);
    if t == None then db else t.value
  }

  /** `preflightExecution`: why an approval would be refused now, with the signal still pending. */
  function PreflightExecution(db: Tables, id: SignalId, g: Gates, confirmLive: bool): Option<Blocked>
    requires id in db.signals
  {
    if Halted(g) then Some(KillSwitchEngaged)
    else if db.signals[id].mode == Live && (!g.liveTradingEnabled || !g.liveMode) then Some(LiveModeNotEnabled)
    else if db.signals[id].mode == Live && !confirmLive then Some(LiveConfirmationRequired)
    else if !Preflight(db, id) then Some(NothingToClose)
    else None
  }

  /** What follows a won transition to approved. The executor reads the gates again. */
  ghost function CarryOut(db: Tables, book: Book, id: SignalId, g: Gates, slippageBps: int, filledAt: int, publishedAt: int, draw: Draw): After
    requires id in db.signals && DrawsEnough(draw)
  {
    var x := Execute(db, book, id, g, slippageBps, filledAt, draw);
    if x.outcome.FilledNow? then x.(db := Disclose(x.db, id, publishedAt)) else x
  }

  /** A request: what it asks, and the gates as it finds them before the transition and after it. */
  datatype Request = Request(approve: bool, confirmLive: bool, before: Gates, during: Gates)

  ghost function Decide(db: Tables, book: Book, id: SignalId, req: Request, at: Times, slippageBps: int, draw: Draw): (After, Reply)
    requires DrawsEnough(draw)
  {
    if id !in db.signals then (After(db, book, NotExecuted), SignalNotFound)
    else if db.signals[id].status != Pending then (After(db, book, NotExecuted), AlreadyDecided(db.signals[id].status))
    else
      var blocked := if req.approve then PreflightExecution(db, id, req.before, req.confirmLive) else None;
      if blocked.Some? then (After(db, book, NotExecuted), NotNow(blocked.value))
      else
        var decided := Ledger.TransitionSignal(db, id, if req.approve then Approved else Rejected, at.decidedAt).value;
        if !req.approve then (After(decided, book, NotExecuted), SignalRejected)
        else
          var x := CarryOut(decided, book, id, req.during, slippageBps, at.filledAt, at.publishedAt, draw);
          (x, SignalApproved(x.outcome))
  }

  /** The decision route, uninterrupted. */
  method DecideSignal(db: Database, broker: MockBroker, id: SignalId, req: Request, at: Times, slippageBps: int, draw: Draw)
    returns (reply: Reply)
    requires DrawsEnough(draw) && BookValid(broker.Contents())
    modifies db, broker
    ensures BookValid(broker.Contents())
    ensures var (x, r) := Decide(old(db.Contents()), old(broker.Contents()), id, req, at, slippageBps, draw);
            db.Contents() == x.db && broker.Contents() == x.book && reply == r
  {
    hide Execute;
    if id !in db.signals {
      return SignalNotFound;
    }
    if db.signals[id].status != Pending {
      return AlreadyDecided(db.signals[id].status);
    }
    if req.approve {
      var blocked := PreflightExecution(db.Contents(), id, req.before, req.confirmLive);
      if blocked.Some? {
        return NotNow(blocked.value);
      }
    }
    var decided := db.TransitionSignal(id, if req.approve then Approved else Rejected, at.decidedAt);
    if !req.approve {
      return SignalRejected;
    }
    var outcome := ExecuteSignal(db, broker, id, req.during, slippageBps, at.filledAt, draw);
    if outcome.FilledNow? {
      var published := db.PublishSignal(id, at.publishedAt);
    }
    reply := SignalApproved(outcome);
  }

  // ---- The autonomy sweep ------------------------------------------------------------------

  /** Pending signals whose veto window has closed. */
  predicate AutoDecidable(db: Tables, id: SignalId, now: int) {
    id in db.signals && db.signals[id].status == Pending && db.signals[id].autoDecideAt.Some?
    && db.signals[id].autoDecideAt.value <= now
  }

  datatype Swept = Swept(db: Tables, book: Book, approved: seq<SignalId>, skipped: nat)

  ghost function AutoApprove(s: Swept, id: SignalId, g: Gates, now: int, slippageBps: int, draw: Draw): Swept
    requires DrawsEnough(draw)
  {
    if id !in s.db.signals || !Preflight(s.db, id) then s.(skipped := s.skipped + 1)
    else
      var decided := Ledger.TransitionSignal(s.db, id, Approved, now);
      if decided == None then s.(skipped := s.skipped + 1)
      else
        var x := CarryOut(decided.value, s.book, id, g, slippageBps, now, now, draw);
        Swept(x.db, x.book, s.approved + [id], s.skipped)
  }

  /** The signals due, in turn; `gates(k)` is what the executor reads when it comes to the `k`-th. */
  ghost function AutoApproveAll(s: Swept, due: seq<SignalId>, gates: nat -> Gates, now: int, slippageBps: int, draw: Draw): Swept
    requires DrawsEnough(draw)
  {
    if due == [] then s
    else
      var n := |due| - 1;
      AutoApprove(AutoApproveAll(s, due[..n], gates, now, slippageBps, draw), due[n], gates(n), now, slippageBps, draw)
  }

  datatype SweepStatus = Completed | HaltedKillSwitch | AutonomyOff

  /** The kill switch halts the sweep, and both halves of the autonomy gate must be on. */
  function SweepGate(g: Gates, autonomyEnabled: bool, autonomy: bool): SweepStatus {
    if Halted(g) then HaltedKillSwitch else if !autonomyEnabled || !autonomy then AutonomyOff else Completed
  }

  lemma SweepGateIff(g: Gates, autonomyEnabled: bool, autonomy: bool)
    ensures var status := SweepGate(g, autonomyEnabled, autonomy);
            && (status == Completed <==> !g.killSwitchEnv && !g.killSwitch && autonomyEnabled && autonomy)
            && (status == HaltedKillSwitch <==> g.killSwitchEnv || g.killSwitch)
  {
  }

  /** Every signal due is approved and carried out, or skipped because something else decided it or it has nothing to close. */
  method SweepAutonomy(db: Database, broker: MockBroker, start: Gates, autonomyEnabled: bool, autonomy: bool,
                       due: seq<SignalId>, gates: nat -> Gates, now: int, slippageBps: int, draw: Draw)
    returns (status: SweepStatus, approved: seq<SignalId>, skipped: nat)
    requires DrawsEnough(draw) && BookValid(broker.Contents())
    requires forall id :: id in due <==> AutoDecidable(db.Contents(), id, now)
    modifies db, broker
    ensures BookValid(broker.Contents()) && status == SweepGate(start, autonomyEnabled, autonomy)
    ensures var before := Swept(old(db.Contents()), old(broker.Contents()), [], 0);
            Swept(db.Contents(), broker.Contents(), approved, skipped)
            == if status == Completed then AutoApproveAll(before, due, gates, now, slippageBps, draw) else before
    ensures status == Completed ==> |approved| + skipped == |due|
    ensures status == Completed <==> !start.killSwitchEnv && !start.killSwitch && autonomyEnabled && autonomy
    ensures status == HaltedKillSwitch <==> start.killSwitchEnv || start.killSwitch
    ensures forall id :: id in approved ==> id in due
    ensures forall id :: id in due <==>
              && id in old(db.signals) && old(db.signals)[id].status == Pending
              && old(db.signals)[id].autoDecideAt.Some? && now >= old(db.signals)[id].autoDecideAt.value
  {
    hide Execute, SweepGate, Preflight;
    SweepGateIff(start, autonomyEnabled, autonomy);
    ghost var before := Swept(db.Contents(), broker.Contents(), [], 0);
    status, approved, skipped := SweepGate(start, autonomyEnabled, autonomy), [], 0;
    if status != Completed {
      return;
    }
    for i := 0 to |due|
      invariant BookValid(broker.Contents()) && |approved| + skipped == i
      invariant forall id :: id in approved ==> id in due
      invariant Swept(db.Contents(), broker.Contents(), approved, skipped)
                == AutoApproveAll(before, due[..i], gates, now, slippageBps, draw)
    {
      assert due[..i + 1][..i] == due[..i];
      var id := due[i];
      if id !in db.signals || !Preflight(db.Contents(), id) {
        skipped := skipped + 1;
        continue;
      }
      var decided := db.TransitionSignal(id, Approved, now);
      if decided.Failure? {
        skipped := skipped + 1;
        continue;
      }
      var outcome := ExecuteSignal(db, broker, id, gates(i), slippageBps, now, draw);
      if outcome.FilledNow? {
        var published := db.PublishSignal(id, now);
      }
      approved := approved + [id];
    }
    assert due[..|due|] == due;
  }

  // ---- The expiry sweep ----------------------------------------------------------------------

  predicate Stale(db: Tables, id: SignalId, cutoff: int) {
    id in db.signals && db.signals[id].status == Pending && db.signals[id].createdAt < cutoff
  }

  function ExpireAll(db: Tables, stale: seq<SignalId>, now: int): Tables {
    if stale == [] then db
    else
      var before := ExpireAll(db, stale[..|stale| - 1], now);
      var t := Ledger.TransitionSignal(before, stale[|stale| - 1], Expired, now);
      if t == None then before else t.value
  }

  method SweepExpired(db: Database, stale: seq<SignalId>, now: int, expiryMs: int) returns (expired: seq<SignalId>)
    requires forall id :: id in stale <==> Stale(db.Contents(), id, now - expiryMs)
    modifies db
    ensures db.Contents() == ExpireAll(old(db.Contents()), stale, now)
    ensures forall id :: id in stale ==> id in db.signals && db.signals[id].status == Expired && db.signals[id].decidedAt == Some(now)
    ensures forall id :: id in expired <==>
              id in old(db.signals) && old(db.signals)[id].status == Pending && old(db.signals)[id].createdAt < now - expiryMs
  {
    expired := [];
    ghost var start := db.Contents();
    for i := 0 to |stale|
      invariant db.Contents() == ExpireAll(start, stale[..i], now)
      invariant forall id :: id in expired <==> id in stale[..i]
      invariant forall id :: id in stale ==>
                  id in db.signals && if id in stale[..i] then db.signals[id].status == Expired && db.signals[id].decidedAt == Some(now)
                                      else db.signals[id].status == Pending
    {
      assert stale[..i + 1] == stale[..i] + [stale[i]];
      assert stale[i] in stale;
      var r := db.TransitionSignal(stale[i], Expired, now);
      if r.Success? {
        expired := expired + [stale[i]];
      }
    }
    assert stale[..|stale|] == stale;
  }
}
