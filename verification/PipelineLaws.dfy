/** What the pipeline may sell, what the gate starts from, and what the paper portfolio says it paid (pipeline.ts, paperPositions.ts). */
module PipelineLaws {
  import opened Prelude
  import opened Money
  import opened Ledger
  import opened Lots
  import opened LotsLaws
  import opened Strategy
  import opened Portfolio
  import opened Pipeline
  import Risk
  import RiskLaws
  import RuleLaws
  import DayLaws
  import BacktestTheorems

  // ---- Shares held -------------------------------------------------------------------------------

  /** What can be sold of a symbol: on paper the shares of its open lots, live what the broker says is sellable. */
  function HeldNow(db: Tables, out: Outside, s: Symbol): real {
    match out.mode
    case Paper => Shares(OpenLotsForSymbol(db, s))
    case Live => LastSellable(out.broker, s)
  }

  /** What the last of the broker's positions in the symbol says, or nothing. */
  function LastSellable(ps: seq<Risk.Position>, s: Symbol): real {
    if ps == [] then 0.0
    else if ps[|ps| - 1].symbol == s then ps[|ps| - 1].sellable
    else LastSellable(ps[..|ps| - 1], s)
  }

  lemma {:induction false} SellableIsLast(ps: seq<Risk.Position>, s: Symbol)
    ensures Risk.Lookup(Risk.Sellable(ps), s, 0.0) == LastSellable(ps, s)
  {
    if ps != [] { SellableIsLast(ps[..|ps| - 1], s); }
  }

  lemma PaperSellable(lots: seq<OpenLot>, s: Symbol)
    ensures Risk.Lookup(Risk.Sellable(ForGate(PositionsOf(lots))), s, 0.0) == Shares(OfSymbol(lots, s))
  {
    hide Shares, OfSymbol, Risk.Sellable, SymbolsSeen;
    var seen, ps := SymbolsSeen(lots), ForGate(PositionsOf(lots));
    SeenOnce(lots);
    assert forall i :: 0 <= i < |ps| ==> ps[i] == Risk.Position(seen[i], Shares(OfSymbol(lots, seen[i])), Shares(OfSymbol(lots, seen[i])));
    BacktestTheorems.SellableReads(ps);
    if s in seen {
      var i :| 0 <= i < |seen| && seen[i] == s;
      assert ps[i].symbol == s;
    } else {
      NoneHeld(lots, s);
    }
  }

  lemma {:induction false} NoneHeld(lots: seq<OpenLot>, s: Symbol)
    requires forall l :: l in lots ==> l.symbol != s
    ensures Shares(OfSymbol(lots, s)) == 0.0
  {
    if lots != [] {
      assert lots[|lots| - 1] in lots;
      NoneHeld(lots[..|lots| - 1], s);
      assert OfSymbol(lots, s) == OfSymbol(lots[..|lots| - 1], s);
    }
  }

  lemma SellableIsHeldNow(db: Tables, out: Outside, s: Symbol)
    ensures Risk.Lookup(Risk.Sellable(PositionsFor(db, out)), s, 0.0) == HeldNow(db, out, s)
  {
    if out.mode == Paper { PaperSellable(ListOpenLots(db), s); } else { SellableIsLast(out.broker, s); }
  }

  // ---- What is proposed and what is let through ----------------------------------------------------

  lemma ExitIsWhole(s: Symbol, m: Market, held: map<Symbol, real>, listed: map<Symbol, int>)
    requires m.strategy.Valid() && Propose(s, m, held, listed).Some?
    ensures var c := Propose(s, m, held, listed).value;
            && c.symbol == s && c.side == RuleLaws.SideOf(c.rule)
            && (c.side == Sell ==> s in held && c.quantity == held[s])
  {
    var usable := Traded(if s in m.candles then m.candles[s] else []);
    var mine := if s in held then Some(held[s]) else None;
    TechnicalSizing(s, usable, m.strategy, mine);
    var technical := EvaluateTechnical(s, usable, m.strategy, mine).candidate;
    if technical.Some? { RuleLaws.RulesActOnCrossings(s, usable, m.strategy, mine, technical.value.rule, Closes(Traded(usable))); }
    hide EvaluateTechnical, RuleLaws.Crossed;
  }

  /** A rule's proposal comes before the time stop's, which is only ever about a symbol held and listed with a lot. */
  lemma RulesComeBeforeTheStop(s: Symbol, m: Market, held: map<Symbol, real>, listed: map<Symbol, int>)
    requires m.strategy.Valid()
    ensures var bars := Traded(if s in m.candles then m.candles[s] else []);
            var byRule := EvaluateTechnical(s, bars, m.strategy, if s in held then Some(held[s]) else None).candidate;
            var c := Propose(s, m, held, listed);
            && (byRule.Some? <==> c.Some? && c.value.rule != MaxHoldingPeriod)
            && (byRule.Some? ==> c == byRule)
            && (c.Some? && c.value.rule == MaxHoldingPeriod ==>
                  s in held && s in listed && 0 < m.strategy.maxHoldingDays <= CountAfter(Traded(bars), listed[s]))
  {
    var bars := Traded(if s in m.candles then m.candles[s] else []);
    var mine := if s in held then Some(held[s]) else None;
    var byRule := EvaluateTechnical(s, bars, m.strategy, mine).candidate;
    if byRule.Some? { RuleLaws.RulesActOnCrossings(s, bars, m.strategy, mine, byRule.value.rule, Closes(Traded(bars))); }
    if byRule.Some? && |Traded(bars)| >= RequiredBars(m.strategy) {
      RuleLaws.NeverCrosses(Closes(Traded(bars)), m.strategy);
    }
    if s in held && s in listed { DayLaws.ExitFires(s, bars, listed[s], held[s], m.strategy.maxHoldingDays); }
    hide EvaluateTechnical, EvaluateExit, RuleLaws.Crossed, Traded;
  }

  lemma {:induction false} ExitsAreWhole(symbols: seq<Symbol>, m: Market, held: map<Symbol, real>, listed: map<Symbol, int>)
    requires m.strategy.Valid()
    ensures forall c :: c in ProposeAll(symbols, m, held, listed) ==>
              c.symbol in symbols && c.side == RuleLaws.SideOf(c.rule) && (c.side == Sell ==> c.symbol in held && c.quantity == held[c.symbol])
  {
    hide Propose;
    if symbols != [] {
      var s := symbols[|symbols| - 1];
      assert symbols == symbols[..|symbols| - 1] + [s];
      ExitsAreWhole(symbols[..|symbols| - 1], m, held, listed);
      if Propose(s, m, held, listed).Some? { ExitIsWhole(s, m, held, listed); }
    }
  }

  /** Every exit a run considers is for exactly what is held: the open lots' shares on paper, the broker's figure live. */
  lemma ExitsSellWhatIsHeld(db: Tables, m: Market, out: Outside, c: Candidate)
    requires m.strategy.Valid() && c in Candidates(db, m, out) && c.side == Sell
    ensures c.symbol in m.allowlist && c.quantity == HeldNow(db, out, c.symbol) && RuleLaws.SideOf(c.rule) == Sell
  {
    hide ProposeAll, PositionsFor, ListedTimes, HeldNow, Risk.Sellable;
    ExitsAreWhole(m.allowlist, m, Risk.Sellable(PositionsFor(db, out)), ListedTimes(ListOpenLots(db)));
    SellableIsHeldNow(db, out, c.symbol);
  }

  lemma {:induction false} FreshAreCandidates(db: Tables, cs: seq<Candidate>, keyOf: Candidate -> int)
    ensures forall c :: c in Fresh(db, cs, keyOf) <==> c in cs && forall id :: id in db.signals ==> db.signals[id].dedupeKey != keyOf(c)
  {
    if cs != [] {
      assert cs == cs[..|cs| - 1] + [cs[|cs| - 1]];
      FreshAreCandidates(db, cs[..|cs| - 1], keyOf);
    }
  }

  /** And whatever is asked for, what a run lets through sells no more than that, and repeats no signal's key. */
  lemma SellsFitWhatIsHeld(d: Desk, candidates: seq<Candidate>, config: Risk.RiskConfig, out: Outside, now: int, c: Candidate)
    requires c in Risk.Decide(GateInputs(d, out, config, now), Fresh(d.db, candidates, out.keyOf)).accepted
    ensures c in candidates && c.symbol in config.allowlist && (c.side == Sell ==> c.quantity <= HeldNow(d.db, out, c.symbol))
    ensures forall id :: id in d.db.signals ==> d.db.signals[id].dedupeKey != out.keyOf(c)
  {
    hide Risk.Decide, PositionsFor, HeldNow, Risk.Sellable, PendingHoldings, CountSince, Fresh;
    var inputs, proposals := GateInputs(d, out, config, now), Fresh(d.db, candidates, out.keyOf);
    RiskLaws.GateWithinCaps(inputs, proposals);
    RiskLaws.GatePartitions(inputs, proposals);
    assert c in multiset(Risk.Decide(inputs, proposals).accepted) && c in multiset(proposals);
    FreshAreCandidates(d.db, candidates, out.keyOf);
    SellableIsHeldNow(d.db, out, c.symbol);
  }

  // ---- What the gate starts from -------------------------------------------------------------------

  /** What the signals still waiting are worth, buys and sells alike. */
  function PendingWorth(db: Tables, ids: seq<SignalId>, prices: map<Symbol, real>): int {
    if ids == [] then 0
    else
      var id := ids[|ids| - 1];
      PendingWorth(db, ids[..|ids| - 1], prices)
      + if id in db.signals && db.signals[id].status == Pending && db.signals[id].symbol in prices
        then NotionalCents(db.signals[id].quantity, prices[db.signals[id].symbol]) else 0
  }

  lemma {:induction false} PendingAdds(db: Tables, ids: seq<SignalId>, prices: map<Symbol, real>)
    ensures Risk.SumExposure(PendingHoldings(db, ids), prices) == PendingWorth(db, ids, prices)
  {
    hide NotionalCents, Risk.SumExposure;
    if ids == [] {
      NothingHeld(prices);
    } else {
      var front, id := ids[..|ids| - 1], ids[|ids| - 1];
      PendingAdds(db, front, prices);
      var before := PendingHoldings(db, front);
      if id in db.signals && db.signals[id].status == Pending {
        OneHoldingMore(before, Risk.Holding(db.signals[id].symbol, db.signals[id].quantity), prices);
      } else {
        assert PendingHoldings(db, ids) == before;
      }
    }
  }

  lemma NothingHeld(prices: map<Symbol, real>)
    ensures Risk.SumExposure([], prices) == 0
  {
  }

  lemma OneHoldingMore(holdings: seq<Risk.Holding>, h: Risk.Holding, prices: map<Symbol, real>)
    ensures Risk.SumExposure(holdings + [h], prices)
            == Risk.SumExposure(holdings, prices) + if h.symbol in prices then NotionalCents(h.quantity, prices[h.symbol]) else 0
  {
    hide NotionalCents;
    assert (holdings + [h])[..|holdings|] == holdings;
  }

  /** The gate's starting figure counts every position and every pending signal, of either side. */
  lemma CommittedCountsAllPending(d: Desk, out: Outside, config: Risk.RiskConfig, now: int)
    ensures Risk.CommittedAtStart(Pipeline.GateInputs(d, out, config, now))
            == Risk.SumExposure(Risk.HoldingsOf(PositionsFor(d.db, out)), out.prices) + PendingWorth(d.db, d.created, out.prices)
  {
    PendingAdds(d.db, d.created, out.prices);
  }

  // ---- What was paid ---------------------------------------------------------------------------------

  /** What the open lots of a symbol cost, lot by lot. */
  function Paid(lots: seq<OpenLot>, s: Symbol): real {
    if lots == [] then 0.0
    else
      var l := lots[|lots| - 1];
      Paid(lots[..|lots| - 1], s) + if l.symbol == s then l.quantity * l.entryPrice else 0.0
  }

  lemma {:induction false} CostIsPaid(lots: seq<OpenLot>, s: Symbol)
    ensures Cost(OfSymbol(lots, s)) == Paid(lots, s)
  {
    if lots != [] {
      var front, l := lots[..|lots| - 1], lots[|lots| - 1];
      CostIsPaid(front, s);
      hide Cost;
      assert OfSymbol(lots, s) == if l.symbol == s then OfSymbol(front, s) + [l] else OfSymbol(front, s);
      AppendSums(OfSymbol(front, s), l);
    }
  }

  lemma {:induction false} CostWithin(own: seq<OpenLot>, low: real, high: real)
    requires forall l :: l in own ==> l.quantity > 0.0 && low <= l.entryPrice <= high
    ensures low * Shares(own) <= Cost(own) <= high * Shares(own) && Shares(own) >= 0.0 && (own != [] ==> Shares(own) > 0.0)
  {
    hide Shares, Cost;
    if own != [] {
      var front, l := own[..|own| - 1], own[|own| - 1];
      assert own == front + [l];
      CostWithin(front, low, high);
      AppendSums(front, l);
      OneMoreWithin(Shares(front), Cost(front), l.quantity, l.entryPrice, low, high);
    } else {
      NothingYet();
    }
  }

  lemma OneMoreWithin(shares: real, cost: real, quantity: real, price: real, low: real, high: real)
    requires low * shares <= cost <= high * shares && quantity > 0.0 && low <= price <= high
    ensures low * (shares + quantity) <= cost + price * quantity <= high * (shares + quantity)
  {
    MulMonotone(quantity, low, price);
    MulMonotone(quantity, price, high);
    assert low * (shares + quantity) == low * shares + low * quantity;
    assert high * (shares + quantity) == high * shares + high * quantity;
  }

  /**
   * A position's average buy price, times its shares, is what its lots cost; and where every lot has shares it
   * lies between the lowest and the highest price any of them was bought at.
   */
  lemma AverageBuyPriceIsCost(lots: seq<OpenLot>, i: nat, low: real, high: real)
    requires i < |PositionsOf(lots)|
    ensures var p := PositionsOf(lots)[i];
            && p.quantity == Shares(OfSymbol(lots, p.symbol)) == p.sellable
            && (p.averageBuyPrice == None <==> p.quantity == 0.0)
            && (p.averageBuyPrice.Some? ==> p.averageBuyPrice.value * p.quantity == Paid(lots, p.symbol))
            && ((forall l :: l in lots && l.symbol == p.symbol ==> l.quantity > 0.0 && low <= l.entryPrice <= high) ==>
                  p.averageBuyPrice.Some? && low <= p.averageBuyPrice.value <= high)
  {
    hide Shares, Cost, OfSymbol, Paid, PositionsOf, SymbolsSeen;
    PositionFacts(lots, i);
    var p := PositionsOf(lots)[i];
    var own := OfSymbol(lots, p.symbol);
    CostIsPaid(lots, p.symbol);
    OfSymbolSound(lots, p.symbol);
    if p.quantity != 0.0 { Back(Cost(own), Shares(own)); }
    if forall l :: l in lots && l.symbol == p.symbol ==> l.quantity > 0.0 && low <= l.entryPrice <= high {
      CostWithin(own, low, high);
      QuotientWithin(Cost(own), Shares(own), low, high);
    }
  }

  lemma PositionFacts(lots: seq<OpenLot>, i: nat)
    requires i < |PositionsOf(lots)|
    ensures var p := PositionsOf(lots)[i]; var own := OfSymbol(lots, p.symbol);
            && own != [] && p.quantity == Shares(own) == p.sellable
            && p.averageBuyPrice == if Shares(own) == 0.0 then None else Some(Cost(own) / Shares(own))
  {
    hide Shares, Cost, OfSymbol, SymbolsSeen;
    var s := SymbolsSeen(lots)[i];
    OfSymbolSound(lots, s);
    SeenOnce(lots);
    assert s in SymbolsSeen(lots);
    var held :| held in lots && held.symbol == s;
    assert held in OfSymbol(lots, s);
  }

  lemma QuotientWithin(cost: real, shares: real, low: real, high: real)
    requires shares > 0.0 && low * shares <= cost <= high * shares
    ensures low <= cost / shares <= high
  {
    DivMonotone(low * shares, cost, shares);
    DivMonotone(cost, high * shares, shares);
    assert low * shares / shares == low && high * shares / shares == high;
  }

  lemma Back(x: real, y: real)
    requires y != 0.0
    ensures x / y * y == x
  {
  }
}
