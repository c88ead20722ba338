/**
 * The position cap over whole runs: the gate looks at open lots only, so the cap holds for a symbol
 * while no run proposes to buy it with a buy of it still pending, and can fail otherwise.
 */
module PositionCap {
  import opened Prelude
  import opened Money
  import opened Ledger
  import opened Lots
  import opened LotsLaws
  import opened Sums
  import opened Strategy
  import opened Decisions
  import opened Pipeline
  import opened Portfolio
  import opened Exposure
  import Ordering
  import Risk
  import RiskLaws

  /** The prices, cut down to one symbol. */
  function Only(cents: map<Symbol, nat>, s: Symbol): map<Symbol, nat> {
    if s in cents then map[s := cents[s]] else map[]
  }

  /** Cents in open lots and pending buys of one symbol. */
  function PositionStake(e: Setting, d: Desk, s: Symbol): real {
    ExposureCents(Only(e.cents, s), d)
  }

  predicate BuyPending(db: Tables, s: Symbol) {
    exists id :: id in db.signals && db.signals[id].status == Pending && db.signals[id].side == Buy && db.signals[id].symbol == s
  }

  predicate AsksToBuy(candidates: seq<Candidate>, s: Symbol) {
    exists c :: c in candidates && c.side == Buy && c.symbol == s
  }

  /** What a caller can check before a pipeline run. */
  predicate Guarded(d: Desk, step: Step, s: Symbol) {
    step.PipelineRuns? && AsksToBuy(step.candidates, s) ==> !BuyPending(d.db, s)
  }

  // ---- What the gate counts in one symbol -----------------------------------------------------

  lemma {:induction false} PositionLookup(ps: seq<Risk.Position>, prices: map<Symbol, real>, s: Symbol)
    requires forall i, j :: 0 <= i < j < |ps| ==> ps[i].symbol != ps[j].symbol
    ensures (forall i :: 0 <= i < |ps| ==> ps[i].symbol != s) ==> s !in Risk.PositionCents(ps, prices)
    ensures forall i :: 0 <= i < |ps| && ps[i].symbol == s && s in prices ==>
              s in Risk.PositionCents(ps, prices) && Risk.PositionCents(ps, prices)[s] == NotionalCents(ps[i].quantity, prices[s])
  {
    if ps == [] {
    } else {
      PositionLookup(ps[..|ps| - 1], prices, s);
    }
  }

  lemma {:induction false} OneSymbolsLots(cents: map<Symbol, nat>, lots: seq<OpenLot>, s: Symbol)
    requires s in cents
    ensures LotsCents(Only(cents, s), lots) == Value(Shares(OfSymbol(lots, s)), cents[s])
  {
    hide Value;
    if lots == [] {
      NothingIsWorthNothing(cents[s]);
    } else {
      var front, l := lots[..|lots| - 1], lots[|lots| - 1];
      assert lots == front + [l];
      OneSymbolsLots(cents, front, s);
      OfSymbolAppend(front, l, s);
      SharesAppend(OfSymbol(front, s), l);
      if l.symbol == s { Distributes(Shares(OfSymbol(front, s)), l.quantity, cents[s]); }
    }
  }

  lemma NothingIsWorthNothing(c: nat)
    ensures Shares([]) == 0.0 && Value(0.0, c) == 0.0
  {
  }

  lemma GateFigure(lots: seq<OpenLot>, prices: map<Symbol, real>, s: Symbol)
    ensures Risk.Lookup(Risk.PositionCents(ForGate(PositionsOf(lots)), prices), s, 0)
            == if s in SymbolsSeen(lots) && s in prices then NotionalCents(Shares(OfSymbol(lots, s)), prices[s]) else 0
  {
    hide Shares, NotionalCents, OfSymbol, SymbolsSeen, Risk.PositionCents;
    var ps, symbols := ForGate(PositionsOf(lots)), SymbolsSeen(lots);
    SeenOnce(lots);
    PositionLookup(ps, prices, s);
    if s in symbols {
      var i :| 0 <= i < |symbols| && symbols[i] == s;
      assert ps[i] == Risk.Position(s, Shares(OfSymbol(lots, s)), Shares(OfSymbol(lots, s)));
      NeedsPrice(ps, prices, s);
    } else {
      forall i | 0 <= i < |ps| ensures ps[i].symbol != s { assert ps[i].symbol == symbols[i]; }
    }
  }

  lemma {:induction false} NeedsPrice(ps: seq<Risk.Position>, prices: map<Symbol, real>, s: Symbol)
    ensures s in Risk.PositionCents(ps, prices) ==> s in prices
  {
    if ps == [] {
    } else {
      NeedsPrice(ps[..|ps| - 1], prices, s);
    }
  }

  lemma {:induction false} NoneOfSymbol(lots: seq<OpenLot>, s: Symbol)
    requires forall l :: l in lots ==> l.symbol != s
    ensures OfSymbol(lots, s) == []
  {
    if lots == [] {
    } else {
      NoneOfSymbol(lots[..|lots| - 1], s);
      assert lots[|lots| - 1] in lots;
    }
  }

  /** The gate's figure for a symbol is what its open lots are worth. */
  lemma GateSeesOpenLots(e: Setting, lots: seq<OpenLot>, s: Symbol)
    requires s in e.cents && forall l :: l in lots ==> WholeShares(l.quantity)
    ensures Risk.Lookup(Risk.PositionCents(ForGate(PositionsOf(lots)), Prices(e.cents)), s, 0) as real == LotsCents(Only(e.cents, s), lots)
  {
    hide Value, Shares, NotionalCents, WholeShares, LotsCents, Risk.PositionCents, PositionsOf, ForGate;
    GateFigure(lots, Prices(e.cents), s);
    SeenOnce(lots);
    OneSymbolsLots(e.cents, lots, s);
    OfSymbolSound(lots, s);
    WholeSum(OfSymbol(lots, s));
    WholeCents(Shares(OfSymbol(lots, s)), e.cents[s]);
    if s !in SymbolsSeen(lots) {
      NoneOfSymbol(lots, s);
      NothingIsWorthNothing(e.cents[s]);
    }
  }

  /** With no buy of the symbol pending, all that is at stake in it is open. */
  lemma NothingPending(e: Setting, s: State, sym: Symbol)
    requires SignalsSound(e, s) && RowsSound(s.desk.db) && !BuyPending(s.desk.db, sym)
    ensures PositionStake(e, s.desk, sym) == LotsCents(Only(e.cents, sym), ListOpenLots(s.desk.db))
  {
    var d, cents := s.desk, Only(e.cents, sym);
    var open := OpenStake(cents, d.db);
    forall id | id in d.created ensures Stake(cents, d.db)(id) == open(id) {
    }
    TotalCongruent(d.created, Stake(cents, d.db), open);
    OpenIsATotal(cents, d.db, LotIds(d.db.rows));
    InLotIds(d.db.rows, 0);
    forall id | open(id) != 0.0 ensures id in LotIds(d.db.rows) && id in d.created {
      InLotIds(d.db.rows, id);
      RowsOfHas(d.db.rows, Newest(d.db.rows, id).value);
    }
    TotalSame(LotIds(d.db.rows), d.created, open);
  }

  lemma {:induction false} BuysInSymbol(e: Setting, inputs: Risk.RiskInputs, cs: seq<Candidate>, s: Symbol)
    requires s in e.cents && inputs.prices == Prices(e.cents) && forall c :: c in cs ==> Askable(e.cents, c)
    ensures RiskLaws.BuyCentsIn(inputs, cs, s) as real == BuyValues(Only(e.cents, s), cs)
    ensures !AsksToBuy(cs, s) ==> BuyValues(Only(e.cents, s), cs) == 0.0
  {
    hide Value, NotionalCents;
    if cs == [] {
    } else {
      var front, c := cs[..|cs| - 1], cs[|cs| - 1];
      assert cs == front + [c];
      BuysInSymbol(e, inputs, front, s);
      assert c in cs;
      WholeCents(c.quantity, e.cents[c.symbol]);
    }
  }

  // ---- The guard is enough ---------------------------------------------------------------------

  lemma PipelineKeepsPosition(e: Setting, s: State, candidates: seq<Candidate>, out: Outside, now: int, sym: Symbol)
    requires Sound(e, s) && Enabled(e, s, PipelineRuns(candidates, out), now) && sym in e.cents
    requires Guarded(s.desk, PipelineRuns(candidates, out), sym)
    requires PositionStake(e, s.desk, sym) <= e.config.maxPositionCents as real
    ensures PositionStake(e, Pipeline.Run(s.desk, candidates, e.config, out, now), sym) <= e.config.maxPositionCents as real
  {
    var d := s.desk;
    var inputs := GateInputs(d, out, e.config, now);
    var accepted := Risk.Decide(inputs, Fresh(d.db, candidates, out.keyOf)).accepted;
    hide Risk.Decide, Fresh, Risk.SumExposure, CountOn, Value, RowsSound, ExposureCents, Risk.CommittedAtStart, BuyPending, Bounded;
    AcceptedAreCandidates(inputs, d.db, candidates, out.keyOf);
    assert SignalsSound(e, State(d, now));
    forall c | c in accepted ensures Askable(e.cents, c) { assert c in candidates; }
    PersistAllStakes(e, d, accepted, out, now, Only(e.cents, sym));
    SavedIsNoMore(e, d, accepted, out, now, Only(e.cents, sym));
    BuysInSymbol(e, inputs, accepted, sym);
    if AsksToBuy(accepted, sym) {
      var c :| c in accepted && c.side == Buy && c.symbol == sym;
      assert c in candidates;
      RiskLaws.GateWithinCaps(inputs, Fresh(d.db, candidates, out.keyOf));
      assert RiskLaws.PositionAfter(inputs, accepted, sym) <= e.config.maxPositionCents;
      NothingPending(e, s, sym);
      WholeLots(e, s);
      GateSeesOpenLots(e, ListOpenLots(d.db), sym);
    }
  }

  lemma WholeLots(e: Setting, s: State)
    requires SignalsSound(e, s) && RowsSound(s.desk.db)
    ensures forall l :: l in ListOpenLots(s.desk.db) ==> WholeShares(l.quantity)
  {
    ListOpenLotsSound(s.desk.db);
    forall l | l in ListOpenLots(s.desk.db) ensures WholeShares(l.quantity) { NewestKnown(s.desk.db, l.signalId); }
  }

  lemma OtherStepsKeepPosition(e: Setting, s: State, step: Step, now: int, sym: Symbol)
    requires Sound(e, s) && Enabled(e, s, step, now) && !step.PipelineRuns?
    ensures PositionStake(e, Next(e, s, step, now).desk, sym) <= PositionStake(e, s.desk, sym)
  {
    hide Sound, Decide, ExposureCents, NothingStaked;
    var d := s.desk;
    Parts(e, s);
    match step
    case OwnerDecides(id, req, draw) =>
      DecisionUnstaked(d.db, id, req, now, e.slippageBps, draw);
      Shrinks(e, s, Next(e, s, step, now).desk.db, sym);
    case Expires(stale) =>
      ExpireUnstaked(d.db, stale, now);
      Shrinks(e, s, Next(e, s, step, now).desk.db, sym);
    case MarksRun(quotes, rowIds) =>
      ListOpenLotsSound(d.db);
      MarksUnstaked(d.db, ListOpenLots(d.db), quotes, now, rowIds);
      Shrinks(e, s, Next(e, s, step, now).desk.db, sym);
  }

  lemma Shrinks(e: Setting, s: State, db': Tables, sym: Symbol)
    requires Sound(e, s) && NothingStaked(s.desk.db, db')
    ensures PositionStake(e, s.desk.(db := db'), sym) <= PositionStake(e, s.desk, sym)
  {
    StakesShrink(e, s, db', Only(e.cents, sym));
  }

  /** Every pipeline run of `steps` met the guard for the symbol. */
  ghost predicate AlwaysGuarded(e: Setting, clock: int, steps: seq<(Step, int)>, sym: Symbol) {
    forall k :: 0 <= k < |steps| ==> Guarded(RunSteps(e, clock, steps[..k]).desk, steps[k].0, sym)
  }

  /** While no run asks to buy a symbol with a buy of it pending, open lots and pending buys of it stay within the position cap. */
  lemma {:induction false} PositionCapHoldsIfGuarded(e: Setting, clock: int, steps: seq<(Step, int)>, sym: Symbol)
    requires e.config.maxTotalExposureCents >= 0 && e.config.maxDailyTrades >= 0 && e.config.maxPositionCents >= 0
    requires sym in e.cents && AlwaysGuarded(e, clock, steps, sym)
    ensures PositionStake(e, RunSteps(e, clock, steps).desk, sym) <= e.config.maxPositionCents as real
  {
    hide Enabled, Sound, Next, Guarded, ExposureCents;
    if |steps| == 0 {
      NothingAtFirst(e, sym);
    } else {
      var n := |steps| - 1;
      var front, last := steps[..n], steps[n];
      forall k | 0 <= k < |front| ensures Guarded(RunSteps(e, clock, front[..k]).desk, front[k].0, sym) {
        assert front[..k] == steps[..k];
      }
      PositionCapHoldsIfGuarded(e, clock, front, sym);
      RunsAreSound(e, clock, front);
      var s := RunSteps(e, clock, front);
      if Enabled(e, s, last.0, last.1) {
        if last.0.PipelineRuns? {
          PipelineStep(e, s, last.0, last.1, sym);
        } else {
          OtherStepsKeepPosition(e, s, last.0, last.1, sym);
        }
      }
    }
  }

  lemma PipelineStep(e: Setting, s: State, step: Step, now: int, sym: Symbol)
    requires Sound(e, s) && Enabled(e, s, step, now) && sym in e.cents && step.PipelineRuns? && Guarded(s.desk, step, sym)
    requires PositionStake(e, s.desk, sym) <= e.config.maxPositionCents as real
    ensures PositionStake(e, Next(e, s, step, now).desk, sym) <= e.config.maxPositionCents as real
  {
    PipelineKeepsPosition(e, s, step.candidates, step.out, now, sym);
  }

  lemma NothingAtFirst(e: Setting, sym: Symbol)
    ensures PositionStake(e, Desk(EMPTY, []), sym) == 0.0
  {
  }

  // ---- Exactly when it holds --------------------------------------------------------------------

  /** The signals a pipeline run on this desk will propose: accepted by the gate, reviewed, and not proposed before. */
  function NewSignals(e: Setting, d: Desk, candidates: seq<Candidate>, out: Outside, now: int): seq<Candidate> {
    Saved(d, Risk.Decide(GateInputs(d, out, e.config, now), Fresh(d.db, candidates, out.keyOf)).accepted, out, now)
  }

  /** A pipeline run adds to the stake in a symbol exactly the buys of it that it proposes. */
  lemma RunAddsItsBuys(e: Setting, s: State, candidates: seq<Candidate>, out: Outside, now: int, sym: Symbol)
    requires Sound(e, s) && Enabled(e, s, PipelineRuns(candidates, out), now)
    ensures PositionStake(e, Pipeline.Run(s.desk, candidates, e.config, out, now), sym)
            == PositionStake(e, s.desk, sym) + BuyValues(Only(e.cents, sym), NewSignals(e, s.desk, candidates, out, now))
  {
    var d := s.desk;
    var inputs := GateInputs(d, out, e.config, now);
    var accepted := Risk.Decide(inputs, Fresh(d.db, candidates, out.keyOf)).accepted;
    hide Risk.Decide, Fresh, CountOn, Value, RowsSound, ExposureCents, Bounded, Saved;
    AcceptedAreCandidates(inputs, d.db, candidates, out.keyOf);
    assert SignalsSound(e, State(d, now));
    forall c | c in accepted ensures Askable(e.cents, c) { assert c in candidates; }
    PersistAllStakes(e, d, accepted, out, now, Only(e.cents, sym));
  }

  /**
   * A run that asks for one buy, fresh and reviewed, from a desk within the cap: lots and pending buys of the
   * symbol stay within it if and only if some reason of the gate's own stands against the buy, or what is
   * open and pending already leaves room for it.
   */
  lemma OneBuyFitsExactly(e: Setting, s: State, c: Candidate, out: Outside, now: int)
    requires Sound(e, s) && Enabled(e, s, PipelineRuns([c], out), now)
    requires c.side == Buy && out.reviews(0).Some? && !DedupeKeyTaken(s.desk.db.signals, out.keyOf(c))
    requires PositionStake(e, s.desk, c.symbol) <= e.config.maxPositionCents as real
    ensures PositionStake(e, Pipeline.Run(s.desk, [c], e.config, out, now), c.symbol) <= e.config.maxPositionCents as real
            <==> || !RiskLaws.Admissible(GateInputs(s.desk, out, e.config, now), [], c)
                 || PositionStake(e, s.desk, c.symbol) + Value(c.quantity, e.cents[c.symbol]) <= e.config.maxPositionCents as real
  {
    hide Sound, ExposureCents, Value, RiskLaws.Admissible, GateInputs;
    var d := s.desk;
    var inputs := GateInputs(d, out, e.config, now);
    RunAddsItsBuys(e, s, [c], out, now, c.symbol);
    assert [c][..0] == [] && Fresh(d.db, [c], out.keyOf) == [c];
    LoneDecision(inputs, c);
    RiskLaws.VerdictIsJustified(inputs, [c], 0);
    assert Risk.Pass(inputs, [c][..0]) == Risk.Start(inputs);
    var accepted := Risk.Decide(inputs, [c]).accepted;
    if accepted == [c] {
      assert c in [c];
      SavesTheLoneOne(d, c, out, now);
      assert BuyValues(Only(e.cents, c.symbol), []) == 0.0;
    }
  }

  lemma LoneDecision(inputs: Risk.RiskInputs, c: Candidate)
    ensures Risk.Decide(inputs, [c]).accepted == if Risk.Verdict(inputs, Risk.Start(inputs), c) == None then [c] else []
  {
    assert Ordering.Sort([c][..0], Risk.CandidateKey) == [];
    assert Risk.Ordered([c]) == [c];
    assert [c][..0] == [] && Risk.Pass(inputs, []) == Risk.Start(inputs);
  }

  lemma SavesTheLoneOne(d: Desk, c: Candidate, out: Outside, now: int)
    requires out.reviews(0).Some? && !DedupeKeyTaken(d.db.signals, out.keyOf(c)) && NewIds(d.db, out.ids)
    ensures Saved(d, [c], out, now) == [c]
  {
    assert [c][..0] == [];
  }

  /** At the step, what is open and pending of the symbol leaves room for the buys of it that a run will propose. */
  ghost predicate BuysFit(e: Setting, s: State, step: Step, now: int, sym: Symbol) {
    step.PipelineRuns? && Enabled(e, s, step, now) ==>
      PositionStake(e, s.desk, sym) + BuyValues(Only(e.cents, sym), NewSignals(e, s.desk, step.candidates, step.out, now))
      <= e.config.maxPositionCents as real
  }

  ghost predicate WithinCap(e: Setting, s: State, sym: Symbol) {
    PositionStake(e, s.desk, sym) <= e.config.maxPositionCents as real
  }

  lemma StepWithinCap(e: Setting, s: State, step: Step, now: int, sym: Symbol)
    requires Sound(e, s) && Enabled(e, s, step, now) && WithinCap(e, s, sym)
    ensures WithinCap(e, Next(e, s, step, now), sym) <==> BuysFit(e, s, step, now, sym)
  {
    hide Sound, Enabled, ExposureCents, Pipeline.Run, NewSignals, Decide;
    if step.PipelineRuns? {
      RunAddsItsBuys(e, s, step.candidates, step.out, now, sym);
    } else {
      OtherStepsKeepPosition(e, s, step, now, sym);
    }
  }

  /**
   * Exactly when the position cap holds over a run: a symbol's lots and pending buys are within the cap at
   * every point of it if and only if, at every pipeline run, they left room for the buys that run proposed.
   */
  lemma {:induction false} PositionCapHoldsIffBuysFit(e: Setting, clock: int, steps: seq<(Step, int)>, sym: Symbol)
    requires e.config.maxTotalExposureCents >= 0 && e.config.maxDailyTrades >= 0 && e.config.maxPositionCents >= 0
    ensures (forall k :: 0 <= k <= |steps| ==> WithinCap(e, RunSteps(e, clock, steps[..k]), sym))
            <==> forall k :: 0 <= k < |steps| ==> BuysFit(e, RunSteps(e, clock, steps[..k]), steps[k].0, steps[k].1, sym)
  {
    hide Enabled, Sound, Next, BuysFit, WithinCap, RunSteps;
    if |steps| == 0 {
      AtFirst(e, clock, steps[..0], sym);
      assert steps[..0] == steps;
    } else {
      var n := |steps| - 1;
      var front := steps[..n];
      PositionCapHoldsIffBuysFit(e, clock, front, sym);
      assert forall k :: 0 <= k <= n ==> front[..k] == steps[..k];
      assert steps[..n] == front && front[..n] == front && steps[..n + 1] == steps;
      LastStep(e, clock, steps, sym);
      if forall k :: 0 <= k <= |steps| ==> WithinCap(e, RunSteps(e, clock, steps[..k]), sym) {
        forall k | 0 <= k <= n ensures WithinCap(e, RunSteps(e, clock, front[..k]), sym) {
        }
        assert WithinCap(e, RunSteps(e, clock, steps[..n + 1]), sym);
        forall k | 0 <= k < |steps| ensures BuysFit(e, RunSteps(e, clock, steps[..k]), steps[k].0, steps[k].1, sym) {
          if k < n { assert BuysFit(e, RunSteps(e, clock, front[..k]), front[k].0, front[k].1, sym); }
        }
      }
      if forall k :: 0 <= k < |steps| ==> BuysFit(e, RunSteps(e, clock, steps[..k]), steps[k].0, steps[k].1, sym) {
        forall k | 0 <= k < n ensures BuysFit(e, RunSteps(e, clock, front[..k]), front[k].0, front[k].1, sym) {
          assert BuysFit(e, RunSteps(e, clock, steps[..k]), steps[k].0, steps[k].1, sym);
        }
        assert WithinCap(e, RunSteps(e, clock, front[..n]), sym);
        assert BuysFit(e, RunSteps(e, clock, steps[..n]), steps[n].0, steps[n].1, sym);
        forall k | 0 <= k <= |steps| ensures WithinCap(e, RunSteps(e, clock, steps[..k]), sym) {
          if k <= n { assert WithinCap(e, RunSteps(e, clock, front[..k]), sym); }
        }
      }
    }
  }

  lemma AtFirst(e: Setting, clock: int, steps: seq<(Step, int)>, sym: Symbol)
    requires |steps| == 0 && e.config.maxPositionCents >= 0
    ensures WithinCap(e, RunSteps(e, clock, steps), sym)
  {
    NothingAtFirst(e, sym);
  }

  lemma LastStep(e: Setting, clock: int, steps: seq<(Step, int)>, sym: Symbol)
    requires e.config.maxTotalExposureCents >= 0 && e.config.maxDailyTrades >= 0 && steps != []
    ensures var n := |steps| - 1; var s := RunSteps(e, clock, steps[..n]);
            WithinCap(e, s, sym) ==> (WithinCap(e, RunSteps(e, clock, steps), sym) <==> BuysFit(e, s, steps[n].0, steps[n].1, sym))
  {
    hide Sound, Next, WithinCap, PositionStake, NewSignals;
    var n := |steps| - 1;
    var s := RunSteps(e, clock, steps[..n]);
    RunsAreSound(e, clock, steps[..n]);
    if WithinCap(e, s, sym) && Enabled(e, s, steps[n].0, steps[n].1) {
      StepWithinCap(e, s, steps[n].0, steps[n].1, sym);
    }
  }

  // ---- Without the guard it can fail -------------------------------------------------------------

  /** One buy alone, within every cap, is accepted. */
  lemma LoneBuyAccepted(inputs: Risk.RiskInputs, c: Candidate)
    requires c.side == Buy && c.symbol in inputs.config.allowlist && c.symbol in inputs.prices
    requires inputs.signalsToday < inputs.config.maxDailyTrades
    requires inputs.positions == [] && Risk.CandidateCents(inputs, c) <= inputs.config.maxPositionCents
    requires Risk.SumExposure(inputs.pending, inputs.prices) + Risk.CandidateCents(inputs, c) <= inputs.config.maxTotalExposureCents
    ensures Risk.Decide(inputs, [c]).accepted == [c]
  {
    LoneDecision(inputs, c);
    assert Risk.HoldingsOf([]) == [];
  }

  const SETTING := Setting(map[7 := 100], Risk.RiskConfig({7}, 150, 5, 1000), 0)

  function Proposal(bar: int): Candidate {
    Candidate(7, Buy, 1.0, RsiOversold, bar, None)
  }

  /** The run of the given bar, which draws the bar's number as its first id. */
  function BarRun(bar: int): Step {
    PipelineRuns([Proposal(bar)], Outside(Prices(SETTING.cents), _ => Some(1.0), (k: nat) => bar + k, (c: Candidate) => c.barTime, Paper, None, []))
  }

  function Proposed(bar: int): Signal {
    Signal(7, Buy, 1.0, Paper, 1.0, bar, bar, None, Pending, None, false, None)
  }

  /** The desk after the runs of the first `n` bars, nobody having decided anything. */
  function Waiting(n: nat): Desk {
    Desk(Tables(map k | 1 <= k <= n :: Proposed(k), [], [], map[], []), seq(n, i => i + 1))
  }

  lemma BarIsProposed(n: nat)
    requires n < 2
    ensures Pipeline.Run(Waiting(n), [Proposal(n + 1)], SETTING.config, BarRun(n + 1).out, n + 1) == Waiting(n + 1)
  {
    hide Risk.Decide, ListOpenLots, PositionsOf, ForGate, PendingHoldings, CountSince, Fresh, PersistAll, Risk.SumExposure;
    var d, c, out, now := Waiting(n), Proposal(n + 1), BarRun(n + 1).out, n + 1;
    NothingOpen(n);
    WaitingInputs(n);
    WholeCents(1.0, 100);
    StillFresh(n);
    LoneBuyAccepted(GateInputs(d, out, SETTING.config, now), c);
    OneMoreWaits(n);
  }

  lemma NothingOpen(n: nat)
    ensures ForGate(PositionsOf(ListOpenLots(Waiting(n).db))) == []
  {
    assert ListOpenLots(Waiting(n).db) == [];
  }

  lemma StillFresh(n: nat)
    ensures Fresh(Waiting(n).db, [Proposal(n + 1)], BarRun(n + 1).out.keyOf) == [Proposal(n + 1)]
  {
    var c := Proposal(n + 1);
    assert [c][..0] == [];
    assert !DedupeKeyTaken(Waiting(n).db.signals, n + 1);
  }

  lemma WaitingInputs(n: nat)
    requires n < 2
    ensures var d := Waiting(n);
            Risk.SumExposure(PendingHoldings(d.db, d.created), Prices(SETTING.cents)) == 100 * n
            && CountSince(d.db, d.created, StartOfUtcDay(n + 1)) == n
  {
    var d := Waiting(n);
    if n == 1 {
      assert d.created == [1] && d.created[..0] == [];
      assert PendingHoldings(d.db, []) == [];
      assert PendingHoldings(d.db, [1]) == [Risk.Holding(7, 1.0)];
      SumExposureAppend([], Risk.Holding(7, 1.0), Prices(SETTING.cents));
      assert [] + [Risk.Holding(7, 1.0)] == [Risk.Holding(7, 1.0)];
      WholeCents(1.0, 100);
    }
  }

  lemma OneMoreWaits(n: nat)
    requires n < 2
    ensures PersistAll(Waiting(n), [Proposal(n + 1)], BarRun(n + 1).out, n + 1) == Waiting(n + 1)
  {
    var d, c, out := Waiting(n), Proposal(n + 1), BarRun(n + 1).out;
    assert [c][..0] == [];
    var d' := Persist(d, c, 0, out, n + 1);
    assert !DedupeKeyTaken(d.db.signals, n + 1);
    assert d'.db.signals == Waiting(n + 1).db.signals;
    assert d'.created == Waiting(n + 1).created;
  }

  /** Two runs a bar apart, each within the gate's figure, stake 200 cents in one symbol under a cap of 150. */
  lemma PositionCapCanFail()
    ensures var d := RunSteps(SETTING, 0, [(BarRun(1), 1), (BarRun(2), 2)]).desk;
            && !Guarded(Waiting(1), BarRun(2), 7)
            && PositionStake(SETTING, d, 7) == 200.0 > SETTING.config.maxPositionCents as real
  {
    hide Pipeline.Run, Enabled;
    var steps: seq<(Step, int)> := [(BarRun(1), 1), (BarRun(2), 2)];
    var s0, s1 := State(Waiting(0), 0), State(Waiting(1), 1);
    assert Waiting(0) == Desk(EMPTY, []);
    var none: seq<(Step, int)> := [];
    assert RunSteps(SETTING, 0, none) == s0;
    assert |[steps[0]][..0]| == 0 && [steps[0]][..0] == none;
    BarEnabled(0);
    BarIsProposed(0);
    assert RunSteps(SETTING, 0, [steps[0]]) == s1;
    BarEnabled(1);
    BarIsProposed(1);
    assert steps[..1] == [steps[0]];
    assert RunSteps(SETTING, 0, steps) == State(Waiting(2), 2);
    var d := Waiting(2);
    assert d.created == [1, 2] && d.created[..1] == [1] && [1][..0] == [];
    var f := Stake(Only(SETTING.cents, 7), d.db);
    assert f(1) == 100.0 && f(2) == 100.0;
    assert Total([1], f) == 100.0;
    assert Waiting(1).db.signals[1] == Proposed(1) && BuyPending(Waiting(1).db, 7);
    assert Proposal(2) in [Proposal(2)];
  }

  lemma BarEnabled(n: nat)
    requires n < 2
    ensures Enabled(SETTING, State(Waiting(n), n), BarRun(n + 1), n + 1)
  {
  }
}
