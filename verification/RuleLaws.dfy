/** Which crossings the technical rules act on, and what they propose (backend/src/orchestrator/strategy/technical.ts). */
module RuleLaws {
  import opened Prelude
  import opened Money
  import opened Indicators
  import opened IndicatorLaws
  import opened Strategy

  // ---- Crossings ----------------------------------------------------------------------------

  /** Did this rule's crossing happen on the last bar, going by the RSI and MACD of the closes? */
  predicate Crossed(rule: Rule, closes: seq<real>, cfg: StrategyConfig)
    requires cfg.Valid() && |closes| >= RequiredBars(cfg)
  {
    var i := |closes| - 1;
    var rsiPrev, rsi := RsiAt(closes, cfg.rsiPeriod, i - 1), RsiAt(closes, cfg.rsiPeriod, i);
    var before := MacdAt(closes, cfg.macdFast, cfg.macdSlow, cfg.macdSignal, i - 1);
    var now := MacdAt(closes, cfg.macdFast, cfg.macdSlow, cfg.macdSignal, i);
    match rule
    case RsiOversold => rsi < cfg.rsiOversold <= rsiPrev
    case RsiOverbought => rsiPrev <= cfg.rsiOverbought < rsi
    case MacdBullishCross => before.macd <= before.signal.value && now.signal.value < now.macd
    case MacdBearishCross => before.macd >= before.signal.value && now.signal.value > now.macd
    case MaxHoldingPeriod => false
  }

  /** Oversold and a bullish crossing are reasons to buy, their opposites to sell. */
  function SideOf(rule: Rule): Side {
    if rule == RsiOversold || rule == MacdBullishCross then Buy else Sell
  }

  /** The tie-break when several cross on one bar. */
  function Turn(rule: Rule): nat {
    match rule
    case RsiOversold => 0
    case MacdBullishCross => 1
    case RsiOverbought => 2
    case MacdBearishCross => 3
    case MaxHoldingPeriod => 4
  }

  /** The rule crossed and none before it in the order did. */
  predicate First(rule: Rule, closes: seq<real>, cfg: StrategyConfig)
    requires cfg.Valid() && |closes| >= RequiredBars(cfg)
  {
    Crossed(rule, closes, cfg) && forall earlier :: Turn(earlier) < Turn(rule) ==> !Crossed(earlier, closes, cfg)
  }

  lemma ReadingsAre(closes: seq<real>, cfg: StrategyConfig)
    requires cfg.Valid() && |closes| >= RequiredBars(cfg)
    ensures var i := |closes| - 1;
            var before := MacdAt(closes, cfg.macdFast, cfg.macdSlow, cfg.macdSignal, i - 1);
            var now := MacdAt(closes, cfg.macdFast, cfg.macdSlow, cfg.macdSignal, i);
            && before.signal.Some? && now.signal.Some?
            && ReadingsOf(closes, cfg)
               == Some(Readings(RsiAt(closes, cfg.rsiPeriod, i), RsiAt(closes, cfg.rsiPeriod, i - 1),
                                now.macd - now.signal.value, before.macd - before.signal.value))
  {
    hide RsiAt, EmaAt, MacdLine;
  }

  /** The rule table picks the first crossing of the fixed order, with its side, and nothing when there is none. */
  lemma FirstCrossingFires(closes: seq<real>, cfg: StrategyConfig)
    requires cfg.Valid() && |closes| >= RequiredBars(cfg)
    ensures RuleOn(closes, cfg).Some? ==> First(RuleOn(closes, cfg).value.0, closes, cfg)
    ensures forall rule :: First(rule, closes, cfg) ==> RuleOn(closes, cfg) == Some((rule, SideOf(rule)))
    ensures RuleOn(closes, cfg) == None <==> forall rule :: !Crossed(rule, closes, cfg)
  {
    ReadingsAre(closes, cfg);
    hide RsiAt, MacdAt;
    var fired := RuleOn(closes, cfg);
    forall rule | First(rule, closes, cfg) ensures fired == Some((rule, SideOf(rule))) {
      assert Turn(RsiOversold) < Turn(MacdBullishCross) < Turn(RsiOverbought) < Turn(MacdBearishCross);
    }
    if fired == None {
      forall rule ensures !Crossed(rule, closes, cfg) {
        match rule
        case RsiOversold =>
        case RsiOverbought =>
        case MacdBullishCross =>
        case MacdBearishCross =>
        case MaxHoldingPeriod =>
      }
    } else {
      var rule := fired.value.0;
      assert Crossed(rule, closes, cfg);
      forall earlier | Turn(earlier) < Turn(rule) ensures !Crossed(earlier, closes, cfg) {
        match earlier
        case RsiOversold =>
        case RsiOverbought =>
        case MacdBullishCross =>
        case MacdBearishCross =>
        case MaxHoldingPeriod =>
      }
    }
  }

  /** The bars' closing prices, one for each. */
  ghost predicate IsCloses(closes: seq<real>, bars: seq<Candle>) {
    |closes| == |bars| && forall i :: 0 <= i < |bars| ==> closes[i] == bars[i].close
  }

  lemma RulesActOnCloses(symbol: Symbol, candles: seq<Candle>, cfg: StrategyConfig, held: Option<real>, rule: Rule)
    requires cfg.Valid()
    ensures var bars := Traded(candles); var closes := Closes(bars); var e := EvaluateTechnical(symbol, candles, cfg, held);
            if |bars| < RequiredBars(cfg) then e.candidate == None && e.skip == Some(InsufficientHistory)
            else
              var last := bars[|bars| - 1];
              && (e.skip == Some(NoRuleFired) <==> forall r :: !Crossed(r, closes, cfg))
              && (First(rule, closes, cfg) && SideOf(rule) == Sell ==>
                    if held.Some? && held.value > 0.0
                    then e.candidate == Some(Candidate(symbol, Sell, held.value, rule, last.t, Some(last.close)))
                    else e.candidate == None && e.skip == Some(NoOpenPosition))
              && (First(rule, closes, cfg) && SideOf(rule) == Buy ==>
                    if 0.0 < last.close && last.close * 100.0 <= cfg.orderNotionalCents as real
                    then e.candidate.Some? && e.candidate.value.side == Buy && e.candidate.value.symbol == symbol
                         && e.candidate.value.rule == rule && e.candidate.value.barTime == last.t
                         && e.candidate.value.referenceClose == Some(last.close)
                         && MostAffordable(e.candidate.value.quantity, last.close, cfg.orderNotionalCents)
                    else e.candidate == None && e.skip == Some(QuantityRoundsToZero))
              && (e.candidate.Some? ==> First(e.candidate.value.rule, closes, cfg) && e.candidate.value.side == SideOf(e.candidate.value.rule))
  {
    var bars := Traded(candles);
    if |bars| >= RequiredBars(cfg) {
      var closes, last := Closes(bars), bars[|bars| - 1];
      RequiredBarsExact(closes, cfg);
      FirstCrossingFires(closes, cfg);
      Affordable(cfg.orderNotionalCents, last.close);
      hide ReadingsOf, FirstRule, Crossed, SharesForNotional, RequiredBars;
      var e := EvaluateTechnical(symbol, candles, cfg, held);
      if e.candidate.Some? { assert First(e.candidate.value.rule, closes, cfg); }
    }
  }

  /**
   * What a technical evaluation answers, in full. With too few traded bars: insufficient history. With none of
   * the four crossings on the last one: no rule fired. Else the first crossing decides: an exit proposes to sell
   * exactly what is held, if anything is; an entry to buy the most whole shares the order's notional pays for at
   * the last close, if that is at least one. The proposal names its rule, its bar and its close.
   */
  lemma RulesActOnCrossings(symbol: Symbol, candles: seq<Candle>, cfg: StrategyConfig, held: Option<real>, rule: Rule, closes: seq<real>)
    requires cfg.Valid() && IsCloses(closes, Traded(candles))
    ensures var bars := Traded(candles); var e := EvaluateTechnical(symbol, candles, cfg, held);
            if |bars| < RequiredBars(cfg) then e.candidate == None && e.skip == Some(InsufficientHistory)
            else
              var last := bars[|bars| - 1];
              && (e.skip == Some(NoRuleFired) <==> forall r :: !Crossed(r, closes, cfg))
              && (First(rule, closes, cfg) && SideOf(rule) == Sell ==>
                    if held.Some? && held.value > 0.0
                    then e.candidate == Some(Candidate(symbol, Sell, held.value, rule, last.t, Some(last.close)))
                    else e.candidate == None && e.skip == Some(NoOpenPosition))
              && (First(rule, closes, cfg) && SideOf(rule) == Buy ==>
                    if 0.0 < last.close && last.close * 100.0 <= cfg.orderNotionalCents as real
                    then e.candidate.Some? && e.candidate.value.side == Buy && e.candidate.value.symbol == symbol
                         && e.candidate.value.rule == rule && e.candidate.value.barTime == last.t
                         && e.candidate.value.referenceClose == Some(last.close)
                         && MostAffordable(e.candidate.value.quantity, last.close, cfg.orderNotionalCents)
                    else e.candidate == None && e.skip == Some(QuantityRoundsToZero))
              && (e.candidate.Some? ==> First(e.candidate.value.rule, closes, cfg) && e.candidate.value.side == SideOf(e.candidate.value.rule))
  {
    assert closes == Closes(Traded(candles));
    hide EvaluateTechnical, First, Crossed, MostAffordable;
    RulesActOnCloses(symbol, candles, cfg, held, rule);
  }

  /** So many whole shares fit the notional, and one more would not. */
  ghost predicate MostAffordable(quantity: real, price: real, cents: int) {
    && Whole(quantity) && quantity >= 1.0
    && quantity * (price * 100.0) <= cents as real < quantity * (price * 100.0) + price * 100.0
  }

  lemma Affordable(cents: int, price: real)
    ensures var n := SharesForNotional(cents, price);
            if 0.0 < price && price * 100.0 <= cents as real then n >= 1 && MostAffordable(n as real, price, cents) else n < 1
  {
    var n, priceCents := SharesForNotional(cents, price), price * 100.0;
    if price > 0.0 {
      WholeNumber(n);
      if n >= 1 { MulMonotone(priceCents, 1.0, n as real); }
      if n <= 0 { MulMonotone(priceCents, n as real, 0.0); }
    }
  }

  // ---- The chart upside down ------------------------------------------------------------------

  /** The rule that is to falling prices what this one is to rising prices. */
  function Twin(rule: Rule): Rule {
    match rule
    case RsiOversold => RsiOverbought
    case RsiOverbought => RsiOversold
    case MacdBullishCross => MacdBearishCross
    case MacdBearishCross => MacdBullishCross
    case MaxHoldingPeriod => MaxHoldingPeriod
  }

  function Opposite(side: Side): Side {
    if side == Buy then Sell else Buy
  }

  /** Thresholds as far from the other end of the scale. */
  function Upside(cfg: StrategyConfig): StrategyConfig {
    cfg.(rsiOversold := 100.0 - cfg.rsiOverbought, rsiOverbought := 100.0 - cfg.rsiOversold)
  }

  lemma {:induction false} SumMirrored(v: seq<real>, axis: real)
    ensures Sum(Mirrored(v, axis)) == axis * |v| as real - Sum(v)
  {
    if v != [] {
      var front := v[..|v| - 1];
      SumMirrored(front, axis);
      assert Mirrored(v, axis)[..|v| - 1] == Mirrored(front, axis);
      assert axis * |v| as real == axis * |front| as real + axis;
    }
  }

  lemma MeanMirrored(sum: real, axis: real, p: nat)
    requires 1 <= p
    ensures Mean(axis * p as real - sum, p) == axis - Mean(sum, p)
  {
    var q := p as real;
    assert axis * q / q == axis;
    assert (axis * q - sum) / q == axis * q / q - sum / q;
  }

  lemma StepMirrored(previous: real, value: real, k: real, axis: real)
    ensures EmaStep(axis - previous, axis - value, k) == axis - EmaStep(previous, value, k)
  {
    assert (previous - value) * k == -((value - previous) * k);
  }

  lemma SeedMirrored(v: seq<real>, axis: real, p: nat)
    requires 1 <= p <= |v|
    ensures Mean(Sum(Mirrored(v, axis)[..p]), p) == axis - Mean(Sum(v[..p]), p)
  {
    var w := v[..p];
    SumMirrored(w, axis);
    assert Mirrored(v, axis)[..p] == Mirrored(w, axis) && |w| == p;
    hide Mean, Sum, Mirrored;
    var sum := Sum(w);
    assert Sum(Mirrored(w, axis)) == axis * p as real - sum;
    MeanMirrored(sum, axis, p);
  }

  lemma {:induction false} EmaMirrored(v: seq<real>, axis: real, p: nat, i: nat)
    requires 1 <= p && p - 1 <= i < |v|
    ensures EmaAt(Mirrored(v, axis), p, i) == axis - EmaAt(v, p, i)
  {
    hide Mean, Sum, EmaStep, Weight, Mirrored;
    if i == p - 1 {
      SeedMirrored(v, axis, p);
    } else {
      EmaMirrored(v, axis, p, i - 1);
      StepMirrored(EmaAt(v, p, i - 1), v[i], Weight(p), axis);
    }
  }

  lemma MacdLineMirrored(v: seq<real>, axis: real, fast: nat, slow: nat)
    requires 1 <= fast < slow
    ensures MacdLine(Mirrored(v, axis), fast, slow) == Mirrored(MacdLine(v, fast, slow), 0.0)
  {
    forall i | slow - 1 <= i < |v|
      ensures EmaAt(Mirrored(v, axis), fast, i) - EmaAt(Mirrored(v, axis), slow, i) == 0.0 - (EmaAt(v, fast, i) - EmaAt(v, slow, i))
    {
      EmaMirrored(v, axis, fast, i);
      EmaMirrored(v, axis, slow, i);
    }
  }

  /** MACD and its signal line change sign. */
  lemma MacdMirror(v: seq<real>, axis: real, fast: nat, slow: nat, signal: nat, i: nat)
    requires 1 <= fast < slow && 1 <= signal && slow - 1 <= i < |v|
    ensures var m, n := MacdAt(v, fast, slow, signal, i), MacdAt(Mirrored(v, axis), fast, slow, signal, i);
            && n.macd == -m.macd && (n.signal.Some? <==> m.signal.Some?)
            && (m.signal.Some? ==> n.signal.value == -m.signal.value)
  {
    MacdLineMirrored(v, axis, fast, slow);
    var line, j := MacdLine(v, fast, slow), i - (slow - 1);
    if j >= signal - 1 { EmaMirrored(line, 0.0, signal, j); }
  }

  /** Prices moved at all, as the RSI's averages remember it, on each of the last two bars. */
  predicate Moved(closes: seq<real>, cfg: StrategyConfig)
    requires cfg.Valid() && |closes| >= RequiredBars(cfg)
  {
    AveragesAt(closes, cfg.rsiPeriod, |closes| - 1) != Averages(0.0, 0.0)
    && AveragesAt(closes, cfg.rsiPeriod, |closes| - 2) != Averages(0.0, 0.0)
  }

  /** On the chart upside down, with thresholds to match, every crossing is its twin's. */
  lemma MirrorSwapsCrossings(closes: seq<real>, axis: real, cfg: StrategyConfig, rule: Rule)
    requires cfg.Valid() && |closes| >= RequiredBars(cfg)
    requires (rule == RsiOversold || rule == RsiOverbought) ==> Moved(closes, cfg)
    ensures Crossed(Twin(rule), Mirrored(closes, axis), Upside(cfg)) <==> Crossed(rule, closes, cfg)
  {
    var i := |closes| - 1;
    RsiMirror(closes, axis, cfg.rsiPeriod, i);
    RsiMirror(closes, axis, cfg.rsiPeriod, i - 1);
    MacdMirror(closes, axis, cfg.macdFast, cfg.macdSlow, cfg.macdSignal, i);
    MacdMirror(closes, axis, cfg.macdFast, cfg.macdSlow, cfg.macdSignal, i - 1);
    ReadingsAre(closes, cfg);
    ReadingsAre(Mirrored(closes, axis), Upside(cfg));
    hide RsiAt, MacdAt, AveragesAt;
  }

  /** Some crossing of this side happened. */
  ghost predicate Calls(side: Side, closes: seq<real>, cfg: StrategyConfig)
    requires cfg.Valid() && |closes| >= RequiredBars(cfg)
  {
    exists rule :: Crossed(rule, closes, cfg) && SideOf(rule) == side
  }

  /**
   * So upside down the rules propose the opposite trade for the twin reason, exactly when the last bar does not
   * call for both a buy and a sell: then the buy is first on either chart.
   */
  lemma MirrorSwapsTheTrade(closes: seq<real>, axis: real, cfg: StrategyConfig)
    requires cfg.Valid() && |closes| >= RequiredBars(cfg) && Moved(closes, cfg)
    ensures var here, there := RuleOn(closes, cfg), RuleOn(Mirrored(closes, axis), Upside(cfg));
            there == (if here == None then None else Some((Twin(here.value.0), Opposite(here.value.1))))
            <==> !(Calls(Buy, closes, cfg) && Calls(Sell, closes, cfg))
  {
    var other, up := Mirrored(closes, axis), Upside(cfg);
    FirstCrossingFires(closes, cfg);
    FirstCrossingFires(other, up);
    hide Crossed, RuleOn, Moved;
    forall rule ensures Crossed(Twin(rule), other, up) <==> Crossed(rule, closes, cfg) {
      MirrorSwapsCrossings(closes, axis, cfg, rule);
    }
    var here, there := RuleOn(closes, cfg), RuleOn(other, up);
    if Calls(Buy, closes, cfg) && Calls(Sell, closes, cfg) {
      BothBuy(closes, other, cfg, up);
    } else if here.Some? {
      assert First(here.value.0, closes, cfg) && here == Some((here.value.0, SideOf(here.value.0)));
      TwinIsFirst(closes, other, cfg, up, here.value.0);
    } else {
      forall rule ensures !Crossed(rule, other, up) {
        assert Twin(Twin(rule)) == rule && !Crossed(Twin(rule), closes, cfg);
      }
    }
  }

  lemma BothBuy(closes: seq<real>, other: seq<real>, cfg: StrategyConfig, up: StrategyConfig)
    requires cfg.Valid() && up.Valid() && |closes| >= RequiredBars(cfg) && |other| >= RequiredBars(up)
    requires forall r :: Crossed(Twin(r), other, up) <==> Crossed(r, closes, cfg)
    requires Calls(Buy, closes, cfg) && Calls(Sell, closes, cfg)
    ensures RuleOn(closes, cfg).Some? && RuleOn(closes, cfg).value.1 == Buy
    ensures RuleOn(other, up).Some? && RuleOn(other, up).value.1 == Buy
  {
    NeverCrosses(closes, cfg);
    hide Crossed, RuleOn;
    var buy :| Crossed(buy, closes, cfg) && SideOf(buy) == Buy;
    var sell :| Crossed(sell, closes, cfg) && SideOf(sell) == Sell;
    EntryComesFirst(closes, cfg, buy);
    assert Crossed(Twin(sell), other, up) && SideOf(Twin(sell)) == Buy;
    EntryComesFirst(other, up, Twin(sell));
  }

  lemma NeverCrosses(closes: seq<real>, cfg: StrategyConfig)
    requires cfg.Valid() && |closes| >= RequiredBars(cfg)
    ensures !Crossed(MaxHoldingPeriod, closes, cfg)
  {
  }

  lemma EntryComesFirst(closes: seq<real>, cfg: StrategyConfig, rule: Rule)
    requires cfg.Valid() && |closes| >= RequiredBars(cfg) && Crossed(rule, closes, cfg) && SideOf(rule) == Buy
    ensures RuleOn(closes, cfg).Some? && RuleOn(closes, cfg).value.1 == Buy
  {
    FirstCrossingFires(closes, cfg);
    hide Crossed, RuleOn;
    var fired := RuleOn(closes, cfg).value.0;
    assert First(fired, closes, cfg);
    forall earlier | Turn(earlier) < Turn(fired) ensures earlier != rule { }
  }

  /** When every crossing calls for one side, the twin of the first is the first of the twins. */
  lemma TwinIsFirst(closes: seq<real>, other: seq<real>, cfg: StrategyConfig, up: StrategyConfig, rule: Rule)
    requires cfg.Valid() && up.Valid() && |closes| >= RequiredBars(cfg) && |other| >= RequiredBars(up)
    requires forall r :: Crossed(Twin(r), other, up) <==> Crossed(r, closes, cfg)
    requires First(rule, closes, cfg) && !(Calls(Buy, closes, cfg) && Calls(Sell, closes, cfg))
    ensures First(Twin(rule), other, up) && SideOf(Twin(rule)) == Opposite(SideOf(rule))
  {
    NeverCrosses(closes, cfg);
    hide Crossed;
    assert Calls(SideOf(rule), closes, cfg);
    forall earlier | Turn(earlier) < Turn(Twin(rule)) ensures !Crossed(earlier, other, up) {
      var twin := Twin(earlier);
      TwinsKeepTurns(earlier, rule);
      if SideOf(twin) != SideOf(rule) && Crossed(twin, closes, cfg) { CallsForItsSide(twin, closes, cfg); }
    }
  }

  lemma TwinsKeepTurns(earlier: Rule, rule: Rule)
    ensures Twin(Twin(earlier)) == earlier
    ensures Turn(earlier) < Turn(Twin(rule)) && SideOf(Twin(earlier)) == SideOf(rule) ==> Turn(Twin(earlier)) < Turn(rule)
  {
  }

  lemma CallsForItsSide(rule: Rule, closes: seq<real>, cfg: StrategyConfig)
    requires cfg.Valid() && |closes| >= RequiredBars(cfg) && Crossed(rule, closes, cfg)
    ensures Calls(SideOf(rule), closes, cfg)
  {
  }
}
