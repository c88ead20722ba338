/** The decision functions: technical rules, time stop and sizing (backend/src/orchestrator/strategy). */
module Strategy {
  import opened Prelude
  import opened Money
  import opened Indicators
  import IndicatorLaws

  datatype Rule = RsiOversold | MacdBullishCross | RsiOverbought | MacdBearishCross | MaxHoldingPeriod

  /** Position of a rule's name among all rule names, sorted as text. */
  function RuleRank(r: Rule): nat {
    match r
    case MacdBearishCross => 0
    case MacdBullishCross => 1
    case MaxHoldingPeriod => 2
    case RsiOverbought => 3
    case RsiOversold => 4
  }

  datatype Candle = Candle(t: int, open: real, close: real, interpolated: bool)

  /** A proposed trade. `referenceClose` is `None` where the program holds an empty string. */
  datatype Candidate = Candidate(
    symbol: Symbol, side: Side, quantity: real, rule: Rule, barTime: int, referenceClose: Option<real>)

  datatype StrategyConfig = StrategyConfig(
    rsiPeriod: nat, rsiOversold: real, rsiOverbought: real,
    macdFast: nat, macdSlow: nat, macdSignal: nat,
    orderNotionalCents: int, maxHoldingDays: int)
  {
    /** What start-up validation admits. */
    predicate Valid() {
      rsiPeriod >= 1 && 1 <= macdFast < macdSlow && macdSignal >= 1
    }
  }

  datatype SkipReason = InsufficientHistory | NoRuleFired | QuantityRoundsToZero | NoOpenPosition

  datatype Readings = Readings(rsi: real, rsiPrev: real, histogram: real, histogramPrev: real)

  datatype Evaluation = Evaluation(
    candidate: Option<Candidate>, skip: Option<SkipReason>, readings: Option<Readings>, barTime: Option<int>)

  /** Bars that really traded; a synthesized gap-fill bar carries no information. */
  function Traded(candles: seq<Candle>): (bars: seq<Candle>)
    ensures |bars| <= |candles|
    ensures forall b :: b in bars <==> b in candles && !b.interpolated
  {
    if candles == [] then []
    else
      var front, last := Traded(candles[..|candles| - 1]), candles[|candles| - 1];
      assert candles == candles[..|candles| - 1] + [last];
      if last.interpolated then front else front + [last]
  }

  function Closes(bars: seq<Candle>): (c: seq<real>)
    ensures |c| == |bars|
  {
    seq(|bars|, i requires 0 <= i < |bars| => bars[i].close)
  }

  function RequiredBars(cfg: StrategyConfig): nat {
    Max(cfg.rsiPeriod + 2, cfg.macdSlow + cfg.macdSignal)
  }

  function RsiOn(closes: seq<real>, cfg: StrategyConfig, i: int): Option<real>
    requires cfg.Valid()
  {
    if 0 <= i < |closes| then RsiSeries(closes, cfg.rsiPeriod)[i] else None
  }

  function HistogramOn(closes: seq<real>, cfg: StrategyConfig, i: int): Option<real>
    requires cfg.Valid()
  {
    if 0 <= i < |closes| then
      var point := MacdSeries(closes, cfg.macdFast, cfg.macdSlow, cfg.macdSignal)[i];
      if point == None then None else point.value.histogram
    else None
  }

  /** The indicator values on the last two bars, when every one of them exists. */
  function ReadingsOf(closes: seq<real>, cfg: StrategyConfig): Option<Readings>
    requires cfg.Valid()
  {
    var last, prev := |closes| - 1, |closes| - 2;
    var rsiNow, rsiPrev := RsiOn(closes, cfg, last), RsiOn(closes, cfg, prev);
    var now, before := HistogramOn(closes, cfg, last), HistogramOn(closes, cfg, prev);
    if rsiNow == None || rsiPrev == None || now == None || before == None then None
    else Some(Readings(rsiNow.value, rsiPrev.value, now.value, before.value))
  }

  /** The first rule, in one fixed order, whose crossing happened on the last bar. */
  function FirstRule(r: Readings, cfg: StrategyConfig): Option<(Rule, Side)> {
    if r.rsiPrev >= cfg.rsiOversold && r.rsi < cfg.rsiOversold then Some((RsiOversold, Buy))
    else if r.histogramPrev <= 0.0 && r.histogram > 0.0 then Some((MacdBullishCross, Buy))
    else if r.rsiPrev <= cfg.rsiOverbought && r.rsi > cfg.rsiOverbought then Some((RsiOverbought, Sell))
    else if r.histogramPrev >= 0.0 && r.histogram < 0.0 then Some((MacdBearishCross, Sell))
    else None
  }

  function Skipped(why: SkipReason, readings: Option<Readings>, barTime: Option<int>): Evaluation {
    Evaluation(None, Some(why), readings, barTime)
  }

  function EvaluateTechnical(symbol: Symbol, candles: seq<Candle>, cfg: StrategyConfig, held: Option<real>): (e: Evaluation)
    requires cfg.Valid()
  {
    var bars := Traded(candles);
    if |bars| < RequiredBars(cfg) then Skipped(InsufficientHistory, None, None)
    else
      var readings := ReadingsOf(Closes(bars), cfg);
      if readings == None then Skipped(InsufficientHistory, None, None)
      else
        var last := bars[|bars| - 1];
        var fired := FirstRule(readings.value, cfg);
        if fired == None then Skipped(NoRuleFired, readings, Some(last.t))
        else if fired.value.1 == Sell then
          if held == None || held.value <= 0.0 then Skipped(NoOpenPosition, readings, Some(last.t))
          else
            Evaluation(Some(Candidate(symbol, Sell, held.value, fired.value.0, last.t, Some(last.close))),
                       None, readings, Some(last.t))
        else
          var shares := SharesForNotional(cfg.orderNotionalCents, last.close);
          if shares < 1 then Skipped(QuantityRoundsToZero, readings, Some(last.t))
          else
            Evaluation(Some(Candidate(symbol, Buy, shares as real, fired.value.0, last.t, Some(last.close))),
                       None, readings, Some(last.t))
  }

  /** How many of these bars come after `t`. */
  function CountAfter(bars: seq<Candle>, t: int): nat {
    if bars == [] then 0
    else CountAfter(bars[..|bars| - 1], t) + if bars[|bars| - 1].t > t then 1 else 0
  }

  /** The time stop: propose closing the whole position once enough bars traded since it opened. */
  function EvaluateExit(symbol: Symbol, candles: seq<Candle>, openedAt: int, quantity: real, maxHoldingDays: int)
    : (c: Option<Candidate>)
  {
    if maxHoldingDays <= 0 then None
    else
      var bars := Traded(candles);
      if bars == [] || CountAfter(bars, openedAt) < maxHoldingDays then None
      else
        var latest := bars[|bars| - 1];
        Some(Candidate(symbol, Sell, quantity, MaxHoldingPeriod, latest.t, Some(latest.close)))
  }

  // ---- Laws ----------------------------------------------------------------

  /**
   * The warm-up length is exact: with that many bars every reading on the last two bars
   * exists, and with fewer at least one is missing.
   */
  lemma RequiredBarsExact(closes: seq<real>, cfg: StrategyConfig)
    requires cfg.Valid()
    ensures ReadingsOf(closes, cfg).Some? <==> |closes| >= RequiredBars(cfg)
  {
    var prev := |closes| - 2;
    assert RsiOn(closes, cfg, prev).Some? <==> prev >= cfg.rsiPeriod;
    assert HistogramOn(closes, cfg, prev).Some? <==> prev >= cfg.macdSlow + cfg.macdSignal - 2;
  }

  /** So history is the reported reason exactly when bars are missing; the later check never fires. */
  lemma InsufficientHistoryMeansTooFewBars(symbol: Symbol, candles: seq<Candle>, cfg: StrategyConfig, held: Option<real>)
    requires cfg.Valid()
    ensures EvaluateTechnical(symbol, candles, cfg, held).skip == Some(InsufficientHistory)
            <==> |Traded(candles)| < RequiredBars(cfg)
  {
    RequiredBarsExact(Closes(Traded(candles)), cfg);
  }

  /** A technical candidate is for this symbol; an exit is for exactly what is held, an entry for whole shares. */
  lemma TechnicalSizing(symbol: Symbol, candles: seq<Candle>, cfg: StrategyConfig, held: Option<real>)
    requires cfg.Valid()
    ensures var c := EvaluateTechnical(symbol, candles, cfg, held).candidate;
            c.Some? ==> c.value.symbol == symbol && c.value.quantity > 0.0
                        && (c.value.side == Sell ==> held == Some(c.value.quantity))
                        && (c.value.side == Buy ==> Whole(c.value.quantity))
  {
  }

  lemma ReadingsScaled(closes: seq<real>, cfg: StrategyConfig, c: real, i: int)
    requires cfg.Valid() && c > 0.0
    ensures RsiOn(IndicatorLaws.Scaled(closes, c), cfg, i) == RsiOn(closes, cfg, i)
    ensures var h, k := HistogramOn(closes, cfg, i), HistogramOn(IndicatorLaws.Scaled(closes, c), cfg, i);
            k == if h == None then None else Some(IndicatorLaws.Times(h.value, c))
  {
    IndicatorLaws.RsiScaleFree(closes, c, cfg.rsiPeriod);
    if cfg.macdSlow - 1 <= i < |closes| {
      IndicatorLaws.MacdScales(closes, c, cfg.macdFast, cfg.macdSlow, cfg.macdSignal, i);
    }
  }

  function RuleOn(closes: seq<real>, cfg: StrategyConfig): Option<(Rule, Side)>
    requires cfg.Valid()
  {
    var r := ReadingsOf(closes, cfg);
    if r == None then None else FirstRule(r.value, cfg)
  }

  /** Quoting the same history in another unit fires the same rule. */
  lemma RuleScaleFree(closes: seq<real>, cfg: StrategyConfig, c: real)
    requires cfg.Valid() && c > 0.0
    ensures RuleOn(IndicatorLaws.Scaled(closes, c), cfg) == RuleOn(closes, cfg)
  {
    ReadingsScaled(closes, cfg, c, |closes| - 1);
    ReadingsScaled(closes, cfg, c, |closes| - 2);
    var r := ReadingsOf(closes, cfg);
    if r.Some? {
      IndicatorLaws.TimesKeepsSign(r.value.histogram, c);
      IndicatorLaws.TimesKeepsSign(r.value.histogramPrev, c);
    }
  }
}
