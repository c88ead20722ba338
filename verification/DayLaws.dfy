/** What each day of a backtest goes by: prices, the account, the time stop and the owner's answers (simulate.ts). */
module DayLaws {
  import opened Prelude
  import opened Money
  import opened Strategy
  import opened Backtest
  import opened TradeLaws
  import BacktestLaws
  import BacktestTheorems
  import Risk
  import Ordering

  // ---- What the gate is told --------------------------------------------------------------------

  /** A symbol is priced at the close of its last bar of the day, and not at all without one. */
  lemma {:induction false} PricesAreTheDaysCloses(input: Input, t: int, symbols: seq<Symbol>, s: Symbol)
    ensures var prices := ClosePrices(input, t, symbols);
            && (s in prices <==> s in symbols && exists b :: b in BarsOf(input, s) && b.t == t)
            && (s in prices ==> exists k :: IsLastBarAt(BarsOf(input, s), t, k) && prices[s] == BarsOf(input, s)[k].close)
  {
    hide IsLastBarAt, BarsOf;
    if symbols != [] {
      var front, last := symbols[..|symbols| - 1], symbols[|symbols| - 1];
      assert symbols == front + [last];
      PricesAreTheDaysCloses(input, t, front, s);
      BarAtIsTheLast(BarsOf(input, last), t);
      if s == last && BarAt(BarsOf(input, s), t).Some? { LastBarIsABar(BarsOf(input, s), t); }
    }
  }

  lemma LastBarIsABar(bars: seq<Candle>, t: int)
    requires BarAt(bars, t).Some?
    ensures BarAt(bars, t).value in bars && BarAt(bars, t).value.t == t
  {
    BarAtIsTheLast(bars, t);
  }

  /** The gate sees the shares held and the day's closes, nothing pending, and no trade taken yet today. */
  lemma WhatTheGateIsTold(input: Input, lots: seq<Lot>, t: int, s: Symbol)
    ensures var g := GateInputs(input, lots, t);
            && g.pending == [] && g.signalsToday == 0 && g.config == input.risk
            && Risk.Lookup(Risk.Sellable(g.positions), s, 0.0) == HeldShares(lots, s)
            && (s in g.prices <==> s in input.symbols && exists b :: b in BarsOf(input, s) && b.t == t)
            && (s in g.prices ==> exists k :: IsLastBarAt(BarsOf(input, s), t, k) && g.prices[s] == BarsOf(input, s)[k].close)
  {
    BacktestTheorems.SellableIsHeld(lots, s);
    PricesAreTheDaysCloses(input, t, input.symbols, s);
  }

  // ---- The time stop ------------------------------------------------------------------------------

  /** A lot of the symbol, and none of it was entered on an earlier day. */
  ghost predicate IsOldest(lots: seq<Lot>, s: Symbol, l: Lot) {
    l in lots && l.symbol == s && forall m :: m in lots && m.symbol == s ==> l.entryDayIndex <= m.entryDayIndex
  }

  lemma {:induction false} OldestIsOldest(lots: seq<Lot>, s: Symbol)
    ensures OldestLot(lots, s).Some? ==> IsOldest(lots, s, OldestLot(lots, s).value)
    ensures OldestLot(lots, s) == None ==> forall l :: l in lots ==> l.symbol != s
  {
    if lots != [] {
      assert lots == lots[..|lots| - 1] + [lots[|lots| - 1]];
      OldestIsOldest(lots[..|lots| - 1], s);
    }
  }

  /** The time stop's proposal: all the shares, for the bar it looked at. */
  predicate SellsAll(c: Candidate, s: Symbol, shares: real, bar: Candle) {
    c == Candidate(s, Sell, shares, MaxHoldingPeriod, bar.t, Some(bar.close))
  }

  lemma ExitFires(s: Symbol, candles: seq<Candle>, openedAt: int, shares: real, maxHoldingDays: int)
    ensures var bars := Traded(candles); var c := EvaluateExit(s, candles, openedAt, shares, maxHoldingDays);
            && (c.Some? <==> 0 < maxHoldingDays <= CountAfter(bars, openedAt))
            && (c.Some? ==> bars != [] && SellsAll(c.value, s, shares, bars[|bars| - 1]))
  {
    assert CountAfter([], openedAt) == 0;
  }

  /**
   * A held symbol for which no rule proposes anything is stopped exactly when the stop is on and that many bars
   * have traded since the entry of its oldest lot: then all of it is to be sold.
   */
  lemma StopCountsFromTheOldestEntry(input: Input, lots: seq<Lot>, t: int, s: Symbol)
    requires input.strategy.Valid() && BacktestLaws.Positive(lots) && HeldShares(lots, s) > 0.0
    requires BarsThrough(BarsOf(input, s), t) != []
    requires EvaluateTechnical(s, BarsThrough(BarsOf(input, s), t), input.strategy, Some(HeldShares(lots, s))).candidate == None
    ensures var bars := Traded(BarsThrough(BarsOf(input, s), t)); var c := Propose(input, lots, t, s);
            exists l :: IsOldest(lots, s, l)
                        && (c.Some? <==> 0 < input.strategy.maxHoldingDays <= CountAfter(bars, l.entryBarTime))
                        && (c.Some? ==> bars != [] && SellsAll(c.value, s, HeldShares(lots, s), bars[|bars| - 1]))
  {
    BacktestLaws.HeldNonNegative(lots, s);
    OldestIsOldest(lots, s);
    hide EvaluateTechnical, OldestLot, HeldShares, Traded, BacktestLaws.Positive, BarsThrough, CountAfter;
    var l := OldestLot(lots, s).value;
    assert IsOldest(lots, s, l);
    hide IsOldest;
    ExitFires(s, BarsThrough(BarsOf(input, s), t), l.entryBarTime, HeldShares(lots, s), input.strategy.maxHoldingDays);
  }

  /**
   * A day counts as evaluable when some symbol has enough bars through it. Bars that did not trade count here,
   * though the rules pass over them.
   */
  lemma {:induction false} EvaluableIffEnoughBars(input: Input, t: int, symbols: seq<Symbol>)
    ensures Evaluable(input, t, symbols)
            <==> exists s :: s in symbols && |BarsThrough(BarsOf(input, s), t)| >= Max(input.strategy.rsiPeriod + 2, input.strategy.macdSlow + input.strategy.macdSignal)
  {
    if symbols != [] {
      var front, last := symbols[..|symbols| - 1], symbols[|symbols| - 1];
      assert symbols == front + [last];
      EvaluableIffEnoughBars(input, t, front);
    }
  }

  /** A rule's proposal comes before the time stop's. */
  lemma RulesComeBeforeTheStop(input: Input, lots: seq<Lot>, t: int, s: Symbol)
    requires input.strategy.Valid() && BarsThrough(BarsOf(input, s), t) != []
    ensures var byRule := EvaluateTechnical(s, BarsThrough(BarsOf(input, s), t), input.strategy, HeldQuantity(lots, s)).candidate;
            byRule.Some? ==> Propose(input, lots, t, s) == byRule
  {
  }

  // ---- The owner's answers --------------------------------------------------------------------------

  lemma {:induction false} AllAnswered(input: Input, a: Answers, accepted: seq<Candidate>)
    ensures input.approvalRate >= 1.0 ==>
              AnswerAll(input, a, accepted) == Answers(a.queued + accepted, a.proposed + |accepted|, a.expired, a.random)
    ensures input.approvalRate <= 0.0 && 0 <= a.random < TWO_TO_THE_32 ==>
              var r := AnswerAll(input, a, accepted);
              r.queued == a.queued && r.expired == a.expired + |accepted| && r.proposed == a.proposed + |accepted| && 0 <= r.random < TWO_TO_THE_32
  {
    if accepted == [] {
      assert a.queued + accepted == a.queued;
    } else {
      var front, c := accepted[..|accepted| - 1], accepted[|accepted| - 1];
      AllAnswered(input, a, front);
      assert a.queued + accepted == a.queued + front + [c];
      if 0 <= a.random < TWO_TO_THE_32 && input.approvalRate <= 0.0 {
        DrawnIsAShare(AnswerAll(input, a, front).random);
      }
    }
  }

  lemma DrawnIsAShare(state: int)
    ensures 0 <= NextRandom(state) < TWO_TO_THE_32
    ensures 0.0 <= NextRandom(state) as real / TWO_TO_THE_32 as real < 1.0
  {
    assert TWO_TO_THE_32 as real == 4294967296.0;
  }

  ghost predicate NobodyAnswers(s: State) {
    s.lots == [] && s.trades == [] && s.queued == [] && s.unfilled == 0 && s.expired == s.signalsProposed
    && 0 <= s.random < TWO_TO_THE_32
  }

  /** An owner who approves everything lets nothing expire; one who approves nothing never trades. */
  lemma {:induction false} TheTwoExtremes(input: Input, timeline: seq<int>, n: nat)
    requires input.strategy.Valid() && n <= |timeline| && Run(input, timeline, n).Success?
    ensures var s := Run(input, timeline, n).value;
            && (input.approvalRate >= 1.0 ==> s.expired == 0)
            && (input.approvalRate <= 0.0 ==> NobodyAnswers(s))
  {
    hide FillAll, Gated, Evaluable, ReasonsOf;
    if n == 0 {
      SeedIsAState(input.seed);
    } else {
      TheTwoExtremes(input, timeline, n - 1);
      var s, t := Run(input, timeline, n - 1).value, timeline[n - 1];
      var filled := FillAll(input, Book(s.lots, s.trades, s.unfilled), s.queued, t, n - 1);
      if s.queued == [] { NothingToFill(input, Book(s.lots, s.trades, s.unfilled), t, n - 1); }
      AllAnswered(input, Answers([], s.signalsProposed, s.expired, s.random), Gated(input, filled.value.lots, t).accepted);
      hide AnswerAll;
    }
  }

  lemma NothingToFill(input: Input, b: Book, t: int, d: nat)
    ensures FillAll(input, b, [], t, d) == Success(b)
  {
  }

  /** The same of whole backtests. */
  lemma ApprovalRateExtremes(input: Input)
    requires input.Valid() && Outcome(input).Success?
    ensures var r := Outcome(input).value;
            && (input.approvalRate >= 1.0 ==> r.expired == 0)
            && (input.approvalRate <= 0.0 ==> r.trades == [] && r.unfilled == 0 && r.expired == r.signalsProposed)
  {
    hide Run, Timeline;
    TheTwoExtremes(input, Timeline(input), |Timeline(input)|);
    var s := Run(input, Timeline(input), |Timeline(input)|).value;
    if input.approvalRate <= 0.0 { assert s.trades + OpenTrades(s.lots) == []; }
  }

  // ---- The generator ----------------------------------------------------------------------------------

  /** The seed's low 32 bits, and never zero. */
  lemma SeedIsAState(seed: int)
    ensures 1 <= SeedState(seed) < TWO_TO_THE_32
    ensures 1 <= seed < TWO_TO_THE_32 ==> SeedState(seed) == seed
    ensures SeedState(seed + TWO_TO_THE_32) == SeedState(seed)
  {
  }

  const INVERSE := 4276115653

  /**
   * A step of the generator loses nothing: no two states go to one, and the numbers on the way stay below 2 to
   * the 53, where a double is exact.
   */
  lemma GeneratorIsOneToOne(x: int, y: int)
    requires 0 <= x < TWO_TO_THE_32 && 0 <= y < TWO_TO_THE_32
    ensures x * 1664525 + 1013904223 < 0x20_0000_0000_0000
    ensures NextRandom(x) == NextRandom(y) ==> x == y
  {
    Undone(x);
    Undone(y);
  }

  /** Multiplying by the inverse gets the state back. */
  lemma Undone(x: int)
    requires 0 <= x < TWO_TO_THE_32
    ensures (NextRandom(x) - 1013904223) * INVERSE % TWO_TO_THE_32 == x
  {
    var n := TWO_TO_THE_32;
    var raw := x * 1664525 + 1013904223;
    var q := raw / n;
    assert NextRandom(x) == raw - q * n;
    var k := 1664525 * INVERSE / n;
    assert 1664525 * INVERSE == k * n + 1;
    assert (NextRandom(x) - 1013904223) * INVERSE == x * (k * n + 1) - q * n * INVERSE;
    assert x * (k * n + 1) - q * n * INVERSE == x + n * (x * k - q * INVERSE);
    Whole32(x, x * k - q * INVERSE);
  }

  lemma Whole32(x: int, m: int)
    requires 0 <= x < TWO_TO_THE_32
    ensures (x + TWO_TO_THE_32 * m) % TWO_TO_THE_32 == x
  {
  }

  // ---- The report -----------------------------------------------------------------------------------------

  /** Trades are listed by entry, then by symbol. */
  lemma TradesAreListedByEntry(input: Input, i: nat, j: nat)
    requires input.strategy.Valid() && Outcome(input).Success? && i < j < |Outcome(input).value.trades|
    ensures var x, y := Outcome(input).value.trades[i], Outcome(input).value.trades[j];
            x.entryBarTime < y.entryBarTime || (x.entryBarTime == y.entryBarTime && x.symbol <= y.symbol)
  {
    hide Run, Timeline;
    var s := Run(input, Timeline(input), |Timeline(input)|).value;
    var all := s.trades + OpenTrades(s.lots);
    Ordering.SortKeeps(all, TradeKey);
    assert !KeyLess(TradeKey(Ordering.Sort(all, TradeKey)[j]), TradeKey(Ordering.Sort(all, TradeKey)[i]));
  }
}
