/** The risk gate (backend/src/orchestrator/risk.ts). */
module Risk {
  import opened Prelude
  import opened Money
  import opened Strategy
  import Ordering

  datatype Reason =
    | SymbolNotAllowlisted | NoPriceAvailable | SellWithoutPosition
    | PositionSizeCap | DailyTradeCap | TotalExposureCap

  datatype RiskConfig = RiskConfig(
    allowlist: set<Symbol>, maxPositionCents: int, maxDailyTrades: int, maxTotalExposureCents: int)

  datatype Position = Position(symbol: Symbol, quantity: real, sellable: real)

  datatype Holding = Holding(symbol: Symbol, quantity: real)

  datatype RiskInputs = RiskInputs(
    positions: seq<Position>, prices: map<Symbol, real>, pending: seq<Holding>, signalsToday: int, config: RiskConfig)

  datatype Rejection = Rejection(candidate: Candidate, reason: Reason)

  datatype Decision = Decision(accepted: seq<Candidate>, rejected: seq<Rejection>)

  // ---- What the account is worth before any candidate is looked at ---------

  /** Value of the holdings that have a price; a holding without one is skipped. */
  function SumExposure(holdings: seq<Holding>, prices: map<Symbol, real>): int {
    if holdings == [] then 0
    else
      var h := holdings[|holdings| - 1];
      SumExposure(holdings[..|holdings| - 1], prices)
      + if h.symbol in prices then NotionalCents(h.quantity, prices[h.symbol]) else 0
  }

  function HoldingsOf(positions: seq<Position>): (h: seq<Holding>)
    ensures |h| == |positions|
    ensures forall i :: 0 <= i < |h| ==> h[i] == Holding(positions[i].symbol, positions[i].quantity)
  {
    seq(|positions|, i requires 0 <= i < |positions| => Holding(positions[i].symbol, positions[i].quantity))
  }

  function Sellable(positions: seq<Position>): map<Symbol, real> {
    if positions == [] then map[]
    else
      var p := positions[|positions| - 1];
      Sellable(positions[..|positions| - 1])[p.symbol := p.sellable]
  }

  function PositionCents(positions: seq<Position>, prices: map<Symbol, real>): map<Symbol, int> {
    if positions == [] then map[]
    else
      var p := positions[|positions| - 1];
      var earlier := PositionCents(positions[..|positions| - 1], prices);
      if p.symbol in prices then earlier[p.symbol := NotionalCents(p.quantity, prices[p.symbol])] else earlier
  }

  function CommittedAtStart(inputs: RiskInputs): int {
    SumExposure(HoldingsOf(inputs.positions), inputs.prices) + SumExposure(inputs.pending, inputs.prices)
  }

  function PriceFor(inputs: RiskInputs, c: Candidate): Option<real> {
    if c.symbol in inputs.prices then Some(inputs.prices[c.symbol]) else c.referenceClose
  }

  function CandidateCents(inputs: RiskInputs, c: Candidate): int {
    var price := PriceFor(inputs, c);
    if price == None then 0 else NotionalCents(c.quantity, price.value)
  }

  function Lookup<V>(m: map<Symbol, V>, s: Symbol, otherwise: V): V {
    if s in m then m[s] else otherwise
  }

  // ---- The greedy pass -----------------------------------------------------

  datatype Gate = Gate(committed: int, acceptedToday: int, positionCents: map<Symbol, int>, decision: Decision)

  function Start(inputs: RiskInputs): Gate {
    Gate(CommittedAtStart(inputs), inputs.signalsToday, PositionCents(inputs.positions, inputs.prices), Decision([], []))
  }

  /** The first check a candidate fails at its turn, or `None` when it passes them all. */
  function Verdict(inputs: RiskInputs, g: Gate, c: Candidate): Option<Reason> {
    if c.symbol !in inputs.config.allowlist then Some(SymbolNotAllowlisted)
    else if PriceFor(inputs, c) == None then Some(NoPriceAvailable)
    else if c.side == Sell && Lookup(Sellable(inputs.positions), c.symbol, 0.0) < c.quantity then Some(SellWithoutPosition)
    else if g.acceptedToday >= inputs.config.maxDailyTrades then Some(DailyTradeCap)
    else if c.side == Buy
            && Lookup(g.positionCents, c.symbol, 0) + CandidateCents(inputs, c) > inputs.config.maxPositionCents
    then Some(PositionSizeCap)
    else if c.side == Buy && g.committed + CandidateCents(inputs, c) > inputs.config.maxTotalExposureCents
    then Some(TotalExposureCap)
    else None
  }

  function Consider(inputs: RiskInputs, g: Gate, c: Candidate): Gate {
    var verdict, cents := Verdict(inputs, g, c), CandidateCents(inputs, c);
    if verdict.Some? then
      g.(decision := Decision(g.decision.accepted, g.decision.rejected + [Rejection(c, verdict.value)]))
    else
      Gate(if c.side == Buy then g.committed + cents else g.committed,
           g.acceptedToday + 1,
           if c.side == Buy then g.positionCents[c.symbol := Lookup(g.positionCents, c.symbol, 0) + cents]
           else g.positionCents,
           Decision(g.decision.accepted + [c], g.decision.rejected))
  }

  function Pass(inputs: RiskInputs, ordered: seq<Candidate>): Gate {
    if ordered == [] then Start(inputs)
    else Consider(inputs, Pass(inputs, ordered[..|ordered| - 1]), ordered[|ordered| - 1])
  }

  function CandidateKey(c: Candidate): Key {
    (c.symbol, RuleRank(c.rule))
  }

  function Ordered(candidates: seq<Candidate>): seq<Candidate> {
    Ordering.Sort(candidates, CandidateKey)
  }

  function Decide(inputs: RiskInputs, candidates: seq<Candidate>): Decision {
    Pass(inputs, Ordered(candidates)).decision
  }

  // ---- The program's own loops ----------------------------------------------

  method SumExposureLoop(holdings: seq<Holding>, prices: map<Symbol, real>) returns (total: int)
    ensures total == SumExposure(holdings, prices)
  {
    total := 0;
    for i := 0 to |holdings|
      invariant total == SumExposure(holdings[..i], prices)
    {
      assert holdings[..i + 1][..i] == holdings[..i];
      if holdings[i].symbol in prices {
        total := total + NotionalCents(holdings[i].quantity, prices[holdings[i].symbol]);
      }
    }
    assert holdings[..|holdings|] == holdings;
  }

  method PositionMaps(positions: seq<Position>, prices: map<Symbol, real>)
    returns (sellableBySymbol: map<Symbol, real>, positionCentsBySymbol: map<Symbol, int>)
    ensures sellableBySymbol == Sellable(positions)
    ensures positionCentsBySymbol == PositionCents(positions, prices)
  {
    sellableBySymbol, positionCentsBySymbol := map[], map[];
    for i := 0 to |positions|
      invariant sellableBySymbol == Sellable(positions[..i])
      invariant positionCentsBySymbol == PositionCents(positions[..i], prices)
    {
      assert positions[..i + 1][..i] == positions[..i];
      var p := positions[i];
      sellableBySymbol := sellableBySymbol[p.symbol := p.sellable];
      if p.symbol in prices {
        positionCentsBySymbol := positionCentsBySymbol[p.symbol := NotionalCents(p.quantity, prices[p.symbol])];
      }
    }
    assert positions[..|positions|] == positions;
  }

  method ApplyRiskCaps(inputs: RiskInputs, candidates: seq<Candidate>) returns (decision: Decision)
    ensures decision == Decide(inputs, candidates)
  {
    var ordered := Ordering.Sort(candidates, CandidateKey);
    var sellableBySymbol, positionCentsBySymbol := PositionMaps(inputs.positions, inputs.prices);
    var openExposureCents := SumExposureLoop(HoldingsOf(inputs.positions), inputs.prices);
    var pendingExposureCents := SumExposureLoop(inputs.pending, inputs.prices);
    var committedExposureCents := openExposureCents + pendingExposureCents;
    var acceptedToday := inputs.signalsToday;
    var accepted: seq<Candidate>, rejected: seq<Rejection> := [], [];

    for i := 0 to |ordered|
      invariant Gate(committedExposureCents, acceptedToday, positionCentsBySymbol, Decision(accepted, rejected))
                == Pass(inputs, ordered[..i])
    {
      assert ordered[..i + 1][..i] == ordered[..i];
      var c := ordered[i];
      if c.symbol !in inputs.config.allowlist {
        rejected := rejected + [Rejection(c, SymbolNotAllowlisted)];
        continue;
      }
      var price := PriceFor(inputs, c);
      if price == None {
        rejected := rejected + [Rejection(c, NoPriceAvailable)];
        continue;
      }
      var candidateCents := NotionalCents(c.quantity, price.value);
      if c.side == Sell {
        var sellable := Lookup(sellableBySymbol, c.symbol, 0.0);
        if sellable < c.quantity {
          rejected := rejected + [Rejection(c, SellWithoutPosition)];
          continue;
        }
      }
      if acceptedToday >= inputs.config.maxDailyTrades {
        rejected := rejected + [Rejection(c, DailyTradeCap)];
        continue;
      }
      if c.side == Buy {
        var resultingCents := Lookup(positionCentsBySymbol, c.symbol, 0) + candidateCents;
        if resultingCents > inputs.config.maxPositionCents {
          rejected := rejected + [Rejection(c, PositionSizeCap)];
          continue;
        }
        var resultingExposure := committedExposureCents + candidateCents;
        if resultingExposure > inputs.config.maxTotalExposureCents {
          rejected := rejected + [Rejection(c, TotalExposureCap)];
          continue;
        }
        committedExposureCents := resultingExposure;
        positionCentsBySymbol := positionCentsBySymbol[c.symbol := resultingCents];
      }
      acceptedToday := acceptedToday + 1;
      accepted := accepted + [c];
    }
    assert ordered[..|ordered|] == ordered;
    return Decision(accepted, rejected);
  }
}
