/** One pipeline run: dedupe, risk gate, review, insert (backend/src/orchestrator/pipeline.ts). */
module Pipeline {
  import opened Prelude
  import opened Ledger
  import opened Lots
  import opened Strategy
  import opened Storage
  import Risk
  import RiskLaws
  import Portfolio
  import Ordering

  /** The tables, and the signals in the order they were created. */
  datatype Desk = Desk(db: Tables, created: seq<SignalId>)

  /** What the run is given from outside: quotes, the broker's positions, and per accepted candidate a review and an id. */
  datatype Outside = Outside(
    prices: map<Symbol, real>, reviews: nat -> Option<real>, ids: nat -> SignalId, keyOf: Candidate -> int,
    mode: Mode, autoDecideAt: Option<int>, broker: seq<Risk.Position>)

  /** What the rules are given: the configured symbols, each one's bars, and the strategy. */
  datatype Market = Market(allowlist: seq<Symbol>, candles: map<Symbol, seq<Candle>>, strategy: StrategyConfig)

  // ---- Proposing --------------------------------------------------------------------------------

  /** Paper mode holds its positions in the lots, live mode at the broker. */
  function PositionsFor(db: Tables, out: Outside): seq<Risk.Position> {
    if out.mode == Paper then Portfolio.ForGate(Portfolio.PositionsOf(ListOpenLots(db))) else out.broker
  }

  /** The earliest listed time per symbol. */
  function ListedTimes(lots: seq<OpenLot>): map<Symbol, int> {
    if lots == [] then map[]
    else
      var earlier, lot := ListedTimes(lots[..|lots| - 1]), lots[|lots| - 1];
      if lot.symbol in earlier && earlier[lot.symbol] <= lot.recordedAt then earlier else earlier[lot.symbol := lot.recordedAt]
  }

  /** What one symbol proposes: a rule's candidate, else the time stop's when it is held and has a lot. */
  function Propose(s: Symbol, m: Market, held: map<Symbol, real>, listed: map<Symbol, int>): Option<Candidate>
    requires m.strategy.Valid()
  {
    var usable := Traded(if s in m.candles then m.candles[s] else []);
    var technical := EvaluateTechnical(s, usable, m.strategy, if s in held then Some(held[s]) else None).candidate;
    if technical.Some? then technical
    else if s in held && s in listed then EvaluateExit(s, usable, listed[s], held[s], m.strategy.maxHoldingDays)
    else None
  }

  function ProposeAll(symbols: seq<Symbol>, m: Market, held: map<Symbol, real>, listed: map<Symbol, int>): seq<Candidate>
    requires m.strategy.Valid()
  {
    if symbols == [] then []
    else
      var last := Propose(symbols[|symbols| - 1], m, held, listed);
      ProposeAll(symbols[..|symbols| - 1], m, held, listed) + if last == None then [] else [last.value]
  }

  function Candidates(db: Tables, m: Market, out: Outside): seq<Candidate>
    requires m.strategy.Valid()
  {
    ProposeAll(m.allowlist, m, Risk.Sellable(PositionsFor(db, out)), ListedTimes(ListOpenLots(db)))
  }

  /** The pipeline's `openedBySymbol`. */
  method OpenedBySymbol(lots: seq<OpenLot>) returns (bySymbol: map<Symbol, int>)
    ensures bySymbol == ListedTimes(lots)
  {
    bySymbol := map[];
    for i := 0 to |lots|
      invariant bySymbol == ListedTimes(lots[..i])
    {
      assert lots[..i + 1][..i] == lots[..i];
      if lots[i].symbol !in bySymbol || lots[i].recordedAt < bySymbol[lots[i].symbol] {
        bySymbol := bySymbol[lots[i].symbol := lots[i].recordedAt];
      }
    }
    assert lots[..|lots|] == lots;
  }

  method Generate(m: Market, held: map<Symbol, real>, listed: map<Symbol, int>) returns (candidates: seq<Candidate>)
    requires m.strategy.Valid()
    ensures candidates == ProposeAll(m.allowlist, m, held, listed)
  {
    hide EvaluateTechnical, EvaluateExit, Traded;
    candidates := [];
    for i := 0 to |m.allowlist|
      invariant candidates == ProposeAll(m.allowlist[..i], m, held, listed)
    {
      assert m.allowlist[..i + 1][..i] == m.allowlist[..i];
      var s := m.allowlist[i];
      var usable := Traded(if s in m.candles then m.candles[s] else []);
      var result := EvaluateTechnical(s, usable, m.strategy, if s in held then Some(held[s]) else None);
      if result.candidate.Some? {
        candidates := candidates + [result.candidate.value];
        continue;
      }
      if s in held && s in listed {
        var timeStop := EvaluateExit(s, usable, listed[s], held[s], m.strategy.maxHoldingDays);
        if timeStop.Some? {
          candidates := candidates + [timeStop.value];
        }
      }
    }
    assert m.allowlist[..|m.allowlist|] == m.allowlist;
  }

  // ---- What the gate is told --------------------------------------------------------------

  /** `listPendingSignals`, oldest first: buys and sells alike. */
  function PendingHoldings(db: Tables, created: seq<SignalId>): seq<Risk.Holding> {
    if created == [] then []
    else
      var id := created[|created| - 1];
      PendingHoldings(db, created[..|created| - 1])
      + if id in db.signals && db.signals[id].status == Pending then [Risk.Holding(db.signals[id].symbol, db.signals[id].quantity)] else []
  }

  /** `countSignalsSince`: whatever became of them. */
  function CountSince(db: Tables, created: seq<SignalId>, since: int): nat {
    if created == [] then 0
    else
      var id := created[|created| - 1];
      CountSince(db, created[..|created| - 1], since) + if id in db.signals && db.signals[id].createdAt >= since then 1 else 0
  }

  function StartOfUtcDay(now: int): int {
    Day(now) * 86_400_000
  }

  function Fresh(db: Tables, candidates: seq<Candidate>, keyOf: Candidate -> int): seq<Candidate> {
    if candidates == [] then []
    else
      var c := candidates[|candidates| - 1];
      Fresh(db, candidates[..|candidates| - 1], keyOf) + if DedupeKeyTaken(db.signals, keyOf(c)) then [] else [c]
  }

  function GateInputs(d: Desk, out: Outside, config: Risk.RiskConfig, now: int): Risk.RiskInputs {
    Risk.RiskInputs(PositionsFor(d.db, out), out.prices,
                    PendingHoldings(d.db, d.created), CountSince(d.db, d.created, StartOfUtcDay(now)), config)
  }

  // ---- Persisting -----------------------------------------------------------------------------

  function DraftOf(c: Candidate, estimate: real, out: Outside): Draft {
    Draft(c.symbol, c.side, c.quantity, out.mode, estimate, out.keyOf(c), out.autoDecideAt)
  }

  /** One accepted candidate: dropped when its review fails or its key has been taken meanwhile. */
  function Persist(d: Desk, c: Candidate, k: nat, out: Outside, now: int): Desk {
    var id := out.ids(k);
    if out.reviews(k) == None || id in d.db.signals then d
    else
      var t := Ledger.InsertSignal(d.db, id, DraftOf(c, out.reviews(k).value, out), now);
      if t == None then d else Desk(t.value, d.created + [id])
  }

  function PersistAll(d: Desk, accepted: seq<Candidate>, out: Outside, now: int): Desk {
    if accepted == [] then d
    else Persist(PersistAll(d, accepted[..|accepted| - 1], out, now), accepted[|accepted| - 1], |accepted| - 1, out, now)
  }

  /** The accepted candidates that became signals. */
  function Saved(d: Desk, accepted: seq<Candidate>, out: Outside, now: int): seq<Candidate> {
    if accepted == [] then []
    else
      var n := |accepted| - 1;
      var before := PersistAll(d, accepted[..n], out, now);
      Saved(d, accepted[..n], out, now) + if Persist(before, accepted[n], n, out, now).created == before.created then [] else [accepted[n]]
  }

  /** The signal says what was proposed, as it was reviewed, and waits for its decision. */
  ghost predicate Proposes(g: Signal, c: Candidate, estimate: real, out: Outside, now: int) {
    && g.symbol == c.symbol && g.side == c.side && g.quantity == c.quantity && g.mode == out.mode
    && g.estimatedPrice == estimate && g.dedupeKey == out.keyOf(c) && g.createdAt == now && g.autoDecideAt == out.autoDecideAt
    && g.status == Pending && g.decidedAt == None && !g.published && g.publishedAt == None
  }

  /** The signals there were are still there as they were, and each new one proposes one of those accepted. */
  lemma {:induction false} PersistedSignalsPropose(d: Desk, accepted: seq<Candidate>, out: Outside, now: int)
    requires NewIds(d.db, out.ids)
    ensures var d' := PersistAll(d, accepted, out, now);
            && d'.db == d.db.(signals := d'.db.signals)
            && (forall id :: id in d.db.signals ==> id in d'.db.signals && d'.db.signals[id] == d.db.signals[id])
            && (forall id :: id in d'.db.signals && id !in d.db.signals ==>
                  exists k: nat :: k < |accepted| && id == out.ids(k) && out.reviews(k).Some?
                              && Proposes(d'.db.signals[id], accepted[k], out.reviews(k).value, out, now))
  {
    hide DedupeKeyTaken;
    if accepted != [] {
      var n := |accepted| - 1;
      var front, before, after := accepted[..n], PersistAll(d, accepted[..n], out, now), PersistAll(d, accepted, out, now);
      PersistedSignalsPropose(d, front, out, now);
      forall id | id in after.db.signals && id !in d.db.signals
        ensures exists k: nat :: k < |accepted| && id == out.ids(k) && out.reviews(k).Some?
                            && Proposes(after.db.signals[id], accepted[k], out.reviews(k).value, out, now)
      {
        if id in before.db.signals {
          var k: nat :| k < |front| && id == out.ids(k) && out.reviews(k).Some?
                        && Proposes(before.db.signals[id], front[k], out.reviews(k).value, out, now);
          assert accepted[k] == front[k] && after.db.signals[id] == before.db.signals[id];
        } else {
          assert id == out.ids(n) && Proposes(after.db.signals[id], accepted[n], out.reviews(n).value, out, now);
        }
      }
    }
  }

  function Run(d: Desk, candidates: seq<Candidate>, config: Risk.RiskConfig, out: Outside, now: int): Desk {
    PersistAll(d, Risk.Decide(GateInputs(d, out, config, now), Fresh(d.db, candidates, out.keyOf)).accepted, out, now)
  }

  /** The ids the database draws are new, and never the same twice. */
  ghost predicate NewIds(db: Tables, ids: nat -> SignalId) {
    (forall k: nat :: ids(k) !in db.signals) && (forall j: nat, k: nat :: j < k ==> ids(j) != ids(k))
  }

  datatype PipelineResult = PipelineResult(signals: seq<SignalId>, duplicatesSkipped: int, reviewFailures: int, riskRejections: seq<Risk.Rejection>)

  /** The whole run. Halted by the kill switch it writes nothing. */
  method RunPipeline(db: Database, created: seq<SignalId>, m: Market, config: Risk.RiskConfig,
                     out: Outside, halted: bool, now: int)
    returns (result: PipelineResult)
    requires m.strategy.Valid() && NewIds(db.Contents(), out.ids)
    modifies db
    ensures Desk(db.Contents(), created + result.signals)
            == if halted then Desk(old(db.Contents()), created)
               else Run(Desk(old(db.Contents()), created), Candidates(old(db.Contents()), m, out), config, out, now)
    ensures !halted ==>
              |Candidates(old(db.Contents()), m, out)|
              == |result.signals| + result.duplicatesSkipped + result.reviewFailures + |result.riskRejections|
  {
    if halted {
      return PipelineResult([], 0, 0, []);
    }
    hide Risk.Decide, GateInputs, Fresh, PersistAll, PositionsFor, ListedTimes, ListOpenLots;
    var positions := PositionsHeld(db, out);
    var listed := OpenedBySymbol(ListOpenLots(db.Contents()));
    var candidates := Generate(m, Risk.Sellable(positions), listed);
    result := ProposeCandidates(db, created, candidates, config, out, now);
  }

  method PositionsHeld(db: Database, out: Outside) returns (positions: seq<Risk.Position>)
    ensures positions == PositionsFor(db.Contents(), out)
  {
    if out.mode == Paper {
      var paper := Portfolio.PaperPositions(db);
      return Portfolio.ForGate(paper);
    }
    return out.broker;
  }

  /** From the candidates on: dedupe, gate, review and insert. */
  method ProposeCandidates(db: Database, created: seq<SignalId>, candidates: seq<Candidate>, config: Risk.RiskConfig,
                           out: Outside, now: int)
    returns (result: PipelineResult)
    requires NewIds(db.Contents(), out.ids)
    modifies db
    ensures Desk(db.Contents(), created + result.signals) == Run(Desk(old(db.Contents()), created), candidates, config, out, now)
    ensures |candidates| == |result.signals| + result.duplicatesSkipped + result.reviewFailures + |result.riskRejections|
  {
    hide Risk.Decide, GateInputs, Fresh, PersistAll;
    var proposals := Fresh(db.Contents(), candidates, out.keyOf);
    var duplicatesSkipped := |candidates| - |proposals|;
    var inputs := GateInputs(Desk(db.Contents(), created), out, config, now);
    var decision := Risk.ApplyRiskCaps(inputs, proposals);
    GateAccountsForAll(inputs, proposals);
    var signals, duplicates, failures := PersistAccepted(db, created, decision.accepted, out, now);
    result := PipelineResult(signals, duplicatesSkipped + duplicates, failures, decision.rejected);
  }

  method PersistAccepted(db: Database, created: seq<SignalId>, accepted: seq<Candidate>, out: Outside, now: int)
    returns (signals: seq<SignalId>, duplicates: nat, failures: nat)
    requires NewIds(db.Contents(), out.ids)
    modifies db
    ensures Desk(db.Contents(), created + signals) == PersistAll(Desk(old(db.Contents()), created), accepted, out, now)
    ensures |accepted| == |signals| + duplicates + failures
  {
    hide DedupeKeyTaken;
    ghost var start := Desk(db.Contents(), created);
    signals, duplicates, failures := [], 0, 0;
    for k := 0 to |accepted|
      invariant Desk(db.Contents(), created + signals) == PersistAll(start, accepted[..k], out, now)
      invariant forall j: nat :: k <= j ==> out.ids(j) !in db.signals
      invariant k == |signals| + duplicates + failures
    {
      assert accepted[..k + 1][..k] == accepted[..k];
      assert created + (signals + [out.ids(k)]) == created + signals + [out.ids(k)];
      if out.reviews(k) == None {
        failures := failures + 1;
        continue;
      }
      var r := db.InsertSignal(out.ids(k), DraftOf(accepted[k], out.reviews(k).value, out), now);
      if r.Success? {
        signals := signals + [out.ids(k)];
      } else {
        duplicates := duplicates + 1;
      }
    }
    assert accepted[..|accepted|] == accepted;
  }

  lemma {:induction false} PassAccountsForAll(inputs: Risk.RiskInputs, ordered: seq<Candidate>)
    ensures var d := Risk.Pass(inputs, ordered).decision; |d.accepted| + |d.rejected| == |ordered|
  {
    if ordered == [] {
    } else {
      PassAccountsForAll(inputs, ordered[..|ordered| - 1]);
    }
  }

  lemma GateAccountsForAll(inputs: Risk.RiskInputs, candidates: seq<Candidate>)
    ensures var d := Risk.Decide(inputs, candidates); |d.accepted| + |d.rejected| == |candidates|
  {
    Ordering.SortKeeps(candidates, Risk.CandidateKey);
    PassAccountsForAll(inputs, Risk.Ordered(candidates));
  }

  // ---- What reaches the gate ------------------------------------------------------------------

  lemma {:induction false} OneCandidateASymbol(symbols: seq<Symbol>, m: Market, held: map<Symbol, real>, listed: map<Symbol, int>)
    requires m.strategy.Valid() && forall i, j :: 0 <= i < j < |symbols| ==> symbols[i] != symbols[j]
    ensures Ordering.DistinctKeys(ProposeAll(symbols, m, held, listed), Risk.CandidateKey)
    ensures forall c :: c in ProposeAll(symbols, m, held, listed) ==> c.symbol in symbols
  {
    if symbols != [] {
      var front, s := symbols[..|symbols| - 1], symbols[|symbols| - 1];
      assert symbols == front + [s];
      OneCandidateASymbol(front, m, held, listed);
      var usable := Traded(if s in m.candles then m.candles[s] else []);
      TechnicalSizing(s, usable, m.strategy, if s in held then Some(held[s]) else None);
      hide EvaluateTechnical;
      var before := ProposeAll(front, m, held, listed);
      forall i | 0 <= i < |before| ensures before[i].symbol != s { assert before[i] in before; }
    }
  }

  lemma {:induction false} FreshKeepsKeysDistinct(db: Tables, candidates: seq<Candidate>, keyOf: Candidate -> int)
    requires Ordering.DistinctKeys(candidates, Risk.CandidateKey)
    ensures Ordering.DistinctKeys(Fresh(db, candidates, keyOf), Risk.CandidateKey)
    ensures forall c :: c in Fresh(db, candidates, keyOf) ==> c in candidates
  {
    if candidates != [] {
      var front, last := candidates[..|candidates| - 1], candidates[|candidates| - 1];
      assert candidates == front + [last];
      FreshKeepsKeysDistinct(db, front, keyOf);
      var before := Fresh(db, front, keyOf);
      forall i | 0 <= i < |before| ensures Risk.CandidateKey(before[i]) != Risk.CandidateKey(last) {
        assert before[i] in before;
        var k :| 0 <= k < |front| && front[k] == before[i];
        assert candidates[k] == before[i] && candidates[|front|] == last;
      }
    }
  }

  /** What a pipeline run puts before the gate has no two candidates of one symbol and rule, so its order is irrelevant. */
  lemma GateOrderIsIrrelevant(d: Desk, m: Market, config: Risk.RiskConfig, out: Outside, now: int, ds: seq<Candidate>)
    requires m.strategy.Valid() && forall i, j :: 0 <= i < j < |m.allowlist| ==> m.allowlist[i] != m.allowlist[j]
    requires multiset(ds) == multiset(Fresh(d.db, Candidates(d.db, m, out), out.keyOf))
    ensures var cs := Fresh(d.db, Candidates(d.db, m, out), out.keyOf);
            Ordering.DistinctKeys(cs, Risk.CandidateKey)
            && Risk.Decide(GateInputs(d, out, config, now), ds) == Risk.Decide(GateInputs(d, out, config, now), cs)
  {
    hide Risk.Decide, GateInputs, Fresh;
    OneCandidateASymbol(m.allowlist, m, Risk.Sellable(PositionsFor(d.db, out)), ListedTimes(ListOpenLots(d.db)));
    FreshKeepsKeysDistinct(d.db, Candidates(d.db, m, out), out.keyOf);
    RiskLaws.GateForgetsOrder(GateInputs(d, out, config, now), Fresh(d.db, Candidates(d.db, m, out), out.keyOf), ds);
  }
}
