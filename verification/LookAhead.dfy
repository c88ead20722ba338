/** A backtest never reads a bar from the future. */
module LookAhead {
  import opened Prelude
  import opened Strategy
  import opened Backtest
  import Money
  import AscendingInts

  /** Bars are listed oldest first. */
  ghost predicate OldestFirst(bars: seq<Candle>) {
    forall i, j :: 0 <= i < j < |bars| ==> bars[i].t <= bars[j].t
  }

  ghost predicate Listed(input: Input) {
    input.Valid() && forall s :: s in input.bars ==> OldestFirst(input.bars[s])
  }

  /** The same input as it could have been written down at time `T`. */
  function Known(input: Input, T: int): Input {
    input.(bars := map s | s in input.bars :: BarsThrough(input.bars[s], T))
  }

  lemma {:induction false} ThroughKnown(bars: seq<Candle>, T: int, t: int)
    requires t <= T
    ensures BarsThrough(BarsThrough(bars, T), t) == BarsThrough(bars, t)
  {
    if bars == [] || bars[0].t > T {
    } else {
      ThroughKnown(bars[1..], T, t);
      assert BarsThrough(bars, T)[1..] == BarsThrough(bars[1..], T);
    }
  }

  lemma LaterThanKnown(bars: seq<Candle>, T: int)
    requires OldestFirst(bars)
    ensures forall i :: |BarsThrough(bars, T)| <= i < |bars| ==> bars[i].t > T
  {
  }

  lemma {:induction false} BarAtSkips(bars: seq<Candle>, k: nat, t: int)
    requires k <= |bars| && forall i :: k <= i < |bars| ==> bars[i].t != t
    ensures BarAt(bars, t) == BarAt(bars[..k], t)
  {
    if k == |bars| {
      assert bars[..k] == bars;
    } else {
      BarAtSkips(bars[..|bars| - 1], k, t);
      assert bars[..|bars| - 1][..k] == bars[..k];
    }
  }

  lemma BarAtKnown(input: Input, s: Symbol, T: int, t: int)
    requires Listed(input) && t <= T
    ensures BarAt(BarsOf(Known(input, T), s), t) == BarAt(BarsOf(input, s), t)
  {
    if s in input.bars {
      var bars := input.bars[s];
      LaterThanKnown(bars, T);
      BarAtSkips(bars, |BarsThrough(bars, T)|, t);
    }
  }

  lemma OwnTimesKnown(bars: seq<Candle>, T: int, t: int)
    requires OldestFirst(bars)
    ensures t in Times(BarsThrough(bars, T)) <==> t in Times(bars) && t <= T
  {
    var known := BarsThrough(bars, T);
    LaterThanKnown(bars, T);
    if t in Times(known) {
      var i :| 0 <= i < |known| && Times(known)[i] == t;
      assert known[i] in known && Times(bars)[i] == t;
    }
    if t in Times(bars) && t <= T {
      var i :| 0 <= i < |bars| && Times(bars)[i] == t;
      assert Times(known)[i] == t;
    }
  }

  lemma {:induction false} TimesKnown(input: Input, symbols: seq<Symbol>, T: int, t: int)
    requires Listed(input)
    ensures t in AllTimes(Known(input, T), symbols) <==> t in AllTimes(input, symbols) && t <= T
  {
    if symbols == [] {
    } else {
      TimesKnown(input, symbols[..|symbols| - 1], T, t);
      OwnTimesKnown(BarsOf(input, symbols[|symbols| - 1]), T, t);
    }
  }

  lemma TimelineHas(input: Input, t: int)
    ensures t in Timeline(input) <==> t in AllTimes(input, input.symbols)
    ensures AscendingInts.StrictlyAscending(Timeline(input))
  {
    AscendingInts.CollectKeeps(AllTimes(input, input.symbols));
  }

  lemma PrefixHas(xs: seq<int>, T: int, t: int)
    requires AscendingInts.StrictlyAscending(xs)
    ensures t in xs[..AscendingInts.CountThrough(xs, T)] <==> t in xs && t <= T
    ensures AscendingInts.StrictlyAscending(xs[..AscendingInts.CountThrough(xs, T)])
  {
    var k := AscendingInts.CountThrough(xs, T);
    AscendingInts.CountThroughSplits(xs, T);
    if t in xs[..k] {
      var i :| 0 <= i < k && xs[..k][i] == t;
      assert xs[i] == t && t in xs;
    }
    if t in xs && t <= T {
      var i :| 0 <= i < |xs| && xs[i] == t;
      assert xs[..k][i] == t;
    }
  }

  /** The days known at `T` are the first days of the whole timeline. */
  lemma TimelineKnown(input: Input, T: int)
    requires Listed(input)
    ensures Timeline(Known(input, T)) == Timeline(input)[..AscendingInts.CountThrough(Timeline(input), T)]
  {
    hide Timeline;
    var whole, known := Timeline(input), Timeline(Known(input, T));
    forall t ensures t in whole[..AscendingInts.CountThrough(whole, T)] <==> t in known {
      TimelineHas(input, t);
      TimelineHas(Known(input, T), t);
      TimesKnown(input, input.symbols, T, t);
      PrefixHas(whole, T, t);
    }
    TimelineHas(input, 0);
    TimelineHas(Known(input, T), 0);
    PrefixHas(whole, T, 0);
    AscendingInts.ListingUnique(whole[..AscendingInts.CountThrough(whole, T)], known);
  }

  lemma {:induction false} FillKnown(input: Input, T: int, b: Book, orders: seq<Candidate>, t: int, d: nat)
    requires Listed(input) && t <= T
    ensures FillAll(Known(input, T), b, orders, t, d) == FillAll(input, b, orders, t, d)
    decreases |orders|
  {
    if orders == [] {
    } else {
      BarAtKnown(input, orders[0].symbol, T, t);
      var first := FillOne(input, b, orders[0], t, d);
      assert FillOne(Known(input, T), b, orders[0], t, d) == first;
      if first.Success? { FillKnown(input, T, first.value, orders[1..], t, d); }
    }
  }

  lemma BarsKnown(input: Input, T: int, t: int, s: Symbol)
    requires t <= T
    ensures BarsThrough(BarsOf(Known(input, T), s), t) == BarsThrough(BarsOf(input, s), t)
  {
    ThroughKnown(BarsOf(input, s), T, t);
  }

  lemma {:induction false} ProposalsKnown(input: Input, T: int, lots: seq<Lot>, t: int, symbols: seq<Symbol>)
    requires input.strategy.Valid() && t <= T
    ensures ProposeAll(Known(input, T), lots, t, symbols) == ProposeAll(input, lots, t, symbols)
  {
    if symbols == [] {
    } else {
      ProposalsKnown(input, T, lots, t, symbols[..|symbols| - 1]);
      BarsKnown(input, T, t, symbols[|symbols| - 1]);
      assert Propose(Known(input, T), lots, t, symbols[|symbols| - 1]) == Propose(input, lots, t, symbols[|symbols| - 1]);
    }
  }

  lemma {:induction false} EvaluableKnown(input: Input, T: int, t: int, symbols: seq<Symbol>)
    requires t <= T
    ensures Evaluable(Known(input, T), t, symbols) == Evaluable(input, t, symbols)
  {
    if symbols == [] {
    } else {
      EvaluableKnown(input, T, t, symbols[..|symbols| - 1]);
      BarsKnown(input, T, t, symbols[|symbols| - 1]);
    }
  }

  lemma {:induction false} PricesKnown(input: Input, T: int, t: int, symbols: seq<Symbol>)
    requires Listed(input) && t <= T
    ensures ClosePrices(Known(input, T), t, symbols) == ClosePrices(input, t, symbols)
  {
    if symbols == [] {
    } else {
      PricesKnown(input, T, t, symbols[..|symbols| - 1]);
      BarAtKnown(input, symbols[|symbols| - 1], T, t);
    }
  }

  lemma {:induction false} AnswersKnown(input: Input, T: int, a: Answers, accepted: seq<Candidate>)
    ensures AnswerAll(Known(input, T), a, accepted) == AnswerAll(input, a, accepted)
  {
    if accepted == [] {
    } else {
      AnswersKnown(input, T, a, accepted[..|accepted| - 1]);
    }
  }

  lemma CloseKnown(input: Input, T: int, s: State, b: Book, t: int)
    requires Listed(input) && t <= T
    ensures Close(Known(input, T), s, b, t) == Close(input, s, b, t)
  {
    ProposalsKnown(input, T, b.lots, t, input.symbols);
    EvaluableKnown(input, T, t, input.symbols);
    PricesKnown(input, T, t, input.symbols);
    var gated := Gated(input, b.lots, t);
    assert Gated(Known(input, T), b.lots, t) == gated;
    AnswersKnown(input, T, Answers([], s.signalsProposed, s.expired, s.random), gated.accepted);
  }

  lemma NextDayKnown(input: Input, T: int, s: State, t: int, d: nat)
    requires Listed(input) && t <= T
    ensures NextDay(Known(input, T), s, t, d) == NextDay(input, s, t, d)
  {
    hide Close;
    var b := Book(s.lots, s.trades, s.unfilled);
    FillKnown(input, T, b, s.queued, t, d);
    var filled := FillAll(input, b, s.queued, t, d);
    if filled.Success? { CloseKnown(input, T, s, filled.value, t); }
  }

  lemma {:induction false} RunKnown(input: Input, T: int, timeline: seq<int>, n: nat)
    requires Listed(input) && n <= |timeline| && forall i :: 0 <= i < n ==> timeline[i] <= T
    ensures Run(Known(input, T), timeline, n) == Run(input, timeline, n)
  {
    hide NextDay;
    if n > 0 {
      RunKnown(input, T, timeline, n - 1);
      var before := Run(input, timeline, n - 1);
      if before.Success? { NextDayKnown(input, T, before.value, timeline[n - 1], n - 1); }
    }
  }

  lemma {:induction false} RunPrefix(input: Input, xs: seq<int>, n: nat, k: nat)
    requires input.strategy.Valid() && n <= k <= |xs|
    ensures Run(input, xs[..k], n) == Run(input, xs, n)
  {
    hide NextDay;
    if n > 0 { RunPrefix(input, xs, n - 1, k); }
  }

  /** The loop's state after the last bar stamped `T` or earlier. */
  function StateThrough(input: Input, T: int): Result<State, Fault>
    requires input.strategy.Valid()
  {
    Run(input, Timeline(input), AscendingInts.CountThrough(Timeline(input), T))
  }

  /** That state is what a run over only the bars known at `T` ends in. */
  lemma StateThroughIsKnown(input: Input, T: int)
    requires Listed(input)
    ensures StateThrough(input, T) == Run(Known(input, T), Timeline(Known(input, T)), |Timeline(Known(input, T))|)
  {
    TimelineKnown(input, T);
    TimelineHas(input, 0);
    AscendingInts.CountThroughSplits(Timeline(input), T);
    var k := AscendingInts.CountThrough(Timeline(input), T);
    RunKnown(input, T, Timeline(input), k);
    RunPrefix(Known(input, T), Timeline(input), k, k);
  }

  /**
   * No look-ahead. Two inputs that differ only in bars after `T` are in the same state after the last
   * bar through `T`: the same days, lots, trades closed, orders queued, counters and random draws.
   */
  lemma NoLookAhead(a: Input, b: Input, T: int)
    requires Listed(a) && Listed(b) && Known(a, T) == Known(b, T)
    ensures StateThrough(a, T) == StateThrough(b, T)
  {
    StateThroughIsKnown(a, T);
    StateThroughIsKnown(b, T);
  }

  lemma {:induction false} CloseLotsExtends(order: Candidate, fillPrice: real, t: int, d: nat, lots: seq<Lot>, trades: seq<Trade>, remaining: real)
    ensures var r := CloseLots(order, fillPrice, t, d, lots, trades, remaining);
            r.Success? ==> trades <= r.value.1
    decreases |lots|
  {
    var i := FirstLot(lots, order.symbol);
    if remaining <= 0.0 || i == |lots| || lots[i].quantity > remaining {
    } else {
      CloseLotsExtends(order, fillPrice, t, d, Without(lots, i),
                       trades + [ClosedTrade(lots[i], order.rule, fillPrice, t, d)], remaining - lots[i].quantity);
    }
  }

  lemma {:induction false} FillExtends(input: Input, b: Book, orders: seq<Candidate>, t: int, d: nat)
    ensures var r := FillAll(input, b, orders, t, d); r.Success? ==> b.trades <= r.value.trades
    decreases |orders|
  {
    if orders == [] {
    } else {
      var o, bar := orders[0], BarAt(BarsOf(input, orders[0].symbol), t);
      if bar.Some? && o.side == Money.Sell {
        CloseLotsExtends(o, Money.ApplySlippage(bar.value.open, o.side, input.slippageBps), t, d, b.lots, b.trades, o.quantity);
      }
      var first := FillOne(input, b, o, t, d);
      if first.Success? { FillExtends(input, first.value, orders[1..], t, d); }
    }
  }

  /** Days already reported and trades already closed stay as they were, first in the list. */
  lemma {:induction false} HistoryOnlyGrows(input: Input, timeline: seq<int>, n: nat, m: nat)
    requires input.strategy.Valid() && n <= m <= |timeline| && Run(input, timeline, m).Success?
    ensures Run(input, timeline, n).Success?
    ensures Run(input, timeline, n).value.days <= Run(input, timeline, m).value.days
    ensures Run(input, timeline, n).value.trades <= Run(input, timeline, m).value.trades
  {
    if n < m {
      HistoryOnlyGrows(input, timeline, n, m - 1);
      var s := Run(input, timeline, m - 1).value;
      FillExtends(input, Book(s.lots, s.trades, s.unfilled), s.queued, timeline[m - 1], m - 1);
    }
  }
}
