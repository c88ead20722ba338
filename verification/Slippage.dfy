/** Slippage changes what a backtest pays, never what it does. */
module Slippage {
  import opened Prelude
  import opened Money
  import opened Strategy
  import opened Backtest
  import BacktestLaws
  import BacktestTheorems
  import Risk
  import Ordering
  import AscendingInts

  /** The same lot, bought no cheaper. */
  ghost predicate LotWorse(x: Lot, y: Lot) {
    y == x.(entryPrice := y.entryPrice) && x.entryPrice <= y.entryPrice
  }

  /** The same trade, entered no cheaper, left no dearer, and so no more profitable. */
  ghost predicate TradeWorse(x: Trade, y: Trade) {
    && y == x.(entryPrice := y.entryPrice, exit := y.exit)
    && x.entryPrice <= y.entryPrice
    && (x.exit.None? <==> y.exit.None?)
    && (x.exit.Some? ==>
          && y.exit.value == x.exit.value.(price := y.exit.value.price, realizedPnl := y.exit.value.realizedPnl)
          && y.exit.value.price <= x.exit.value.price
          && y.exit.value.realizedPnl <= x.exit.value.realizedPnl)
  }

  ghost predicate LotsWorse(xs: seq<Lot>, ys: seq<Lot>) {
    |xs| == |ys| && forall i :: 0 <= i < |xs| ==> LotWorse(xs[i], ys[i])
  }

  ghost predicate TradesWorse(xs: seq<Trade>, ys: seq<Trade>) {
    |xs| == |ys| && forall i :: 0 <= i < |xs| ==> TradeWorse(xs[i], ys[i])
  }

  ghost predicate BookWorse(x: Book, y: Book) {
    LotsWorse(x.lots, y.lots) && TradesWorse(x.trades, y.trades) && x.unfilled == y.unfilled
  }

  ghost predicate StateWorse(x: State, y: State) {
    LotsWorse(x.lots, y.lots) && TradesWorse(x.trades, y.trades) && y == x.(lots := y.lots, trades := y.trades)
  }

  // ---- Nothing that decides reads an entry price ------------------------------------

  lemma {:induction false} HeldSame(xs: seq<Lot>, ys: seq<Lot>, s: Symbol)
    requires LotsWorse(xs, ys)
    ensures HeldShares(xs, s) == HeldShares(ys, s)
  {
    if xs == [] {
    } else {
      HeldSame(xs[..|xs| - 1], ys[..|ys| - 1], s);
    }
  }

  lemma {:induction false} OldestSame(xs: seq<Lot>, ys: seq<Lot>, s: Symbol)
    requires LotsWorse(xs, ys)
    ensures OldestLot(xs, s).None? <==> OldestLot(ys, s).None?
    ensures OldestLot(xs, s).Some? ==> LotWorse(OldestLot(xs, s).value, OldestLot(ys, s).value)
  {
    if xs == [] {
    } else {
      OldestSame(xs[..|xs| - 1], ys[..|ys| - 1], s);
    }
  }

  lemma {:induction false} PositionsSame(xs: seq<Lot>, ys: seq<Lot>)
    requires LotsWorse(xs, ys)
    ensures PositionsFrom(xs) == PositionsFrom(ys)
  {
    if xs == [] {
    } else {
      PositionsSame(xs[..|xs| - 1], ys[..|ys| - 1]);
      AddSame(PositionsFrom(xs[..|xs| - 1]), xs[|xs| - 1], ys[|ys| - 1]);
    }
  }

  lemma {:induction false} AddSame(ps: seq<Risk.Position>, x: Lot, y: Lot)
    requires LotWorse(x, y)
    ensures AddPosition(ps, x) == AddPosition(ps, y)
  {
    if ps == [] {
    } else {
      AddSame(ps[1..], x, y);
    }
  }

  lemma {:induction false} FirstSame(xs: seq<Lot>, ys: seq<Lot>, s: Symbol)
    requires LotsWorse(xs, ys)
    ensures FirstLot(xs, s) == FirstLot(ys, s)
  {
    if xs == [] {
    } else {
      FirstSame(xs[1..], ys[1..], s);
    }
  }

  lemma ProposalSame(a: Input, b: Input, xs: seq<Lot>, ys: seq<Lot>, t: int, s: Symbol)
    requires a.strategy.Valid() && b == a.(slippageBps := b.slippageBps) && LotsWorse(xs, ys)
    ensures Propose(a, xs, t, s) == Propose(b, ys, t, s)
  {
    hide EvaluateTechnical, EvaluateExit;
    HeldSame(xs, ys, s);
    OldestSame(xs, ys, s);
  }

  lemma {:induction false} ProposalsSame(a: Input, b: Input, xs: seq<Lot>, ys: seq<Lot>, t: int, symbols: seq<Symbol>)
    requires a.strategy.Valid() && b == a.(slippageBps := b.slippageBps) && LotsWorse(xs, ys)
    ensures ProposeAll(a, xs, t, symbols) == ProposeAll(b, ys, t, symbols)
    ensures Evaluable(a, t, symbols) == Evaluable(b, t, symbols)
    ensures ClosePrices(a, t, symbols) == ClosePrices(b, t, symbols)
  {
    hide Propose;
    if symbols == [] {
    } else {
      ProposalsSame(a, b, xs, ys, t, symbols[..|symbols| - 1]);
      ProposalSame(a, b, xs, ys, t, symbols[|symbols| - 1]);
    }
  }

  lemma {:induction false} AnswersSame(a: Input, b: Input, start: Answers, accepted: seq<Candidate>)
    requires b == a.(slippageBps := b.slippageBps)
    ensures AnswerAll(a, start, accepted) == AnswerAll(b, start, accepted)
  {
    if accepted == [] {
    } else {
      AnswersSame(a, b, start, accepted[..|accepted| - 1]);
    }
  }

  lemma CloseSame(a: Input, b: Input, x: State, y: State, bookA: Book, bookB: Book, t: int)
    requires a.strategy.Valid() && b == a.(slippageBps := b.slippageBps) && StateWorse(x, y) && BookWorse(bookA, bookB)
    ensures StateWorse(Close(a, x, bookA, t), Close(b, y, bookB, t))
  {
    hide ProposeAll, Evaluable, ClosePrices, PositionsFrom, AnswerAll, ReasonsOf, Risk.Decide;
    ProposalsSame(a, b, bookA.lots, bookB.lots, t, a.symbols);
    PositionsSame(bookA.lots, bookB.lots);
    assert Gated(a, bookA.lots, t) == Gated(b, bookB.lots, t);
    AnswersSame(a, b, Answers([], x.signalsProposed, x.expired, x.random), Gated(a, bookA.lots, t).accepted);
  }

  // ---- Fills pay more, close the same lots and earn less ---------------------------------

  lemma PnlWorse(entry: real, entry': real, exit: real, exit': real, q: real)
    requires entry <= entry' && exit' <= exit && q >= 0.0
    ensures RealizedPnl(entry', exit', q) <= RealizedPnl(entry, exit, q)
  {
    MulMonotone(q, exit' - entry', exit - entry);
    ToDecimalsMonotone((exit' - entry') * q, (exit - entry) * q, 100.0);
  }

  lemma ClosedWorse(x: Lot, y: Lot, rule: Rule, price: real, price': real, t: int, d: nat)
    requires LotWorse(x, y) && price' <= price && x.quantity >= 0.0
    ensures TradeWorse(ClosedTrade(x, rule, price, t, d), ClosedTrade(y, rule, price', t, d))
  {
    hide RealizedPnl;
    PnlWorse(x.entryPrice, y.entryPrice, price, price', x.quantity);
  }

  lemma {:induction false} CloseLotsWorse(order: Candidate, price: real, price': real, t: int, d: nat,
                                          xs: seq<Lot>, ys: seq<Lot>, us: seq<Trade>, vs: seq<Trade>, remaining: real)
    requires LotsWorse(xs, ys) && TradesWorse(us, vs) && price' <= price && BacktestLaws.Positive(xs)
    ensures var r, r' := CloseLots(order, price, t, d, xs, us, remaining), CloseLots(order, price', t, d, ys, vs, remaining);
            (r.Success? <==> r'.Success?)
            && (r.Success? ==> LotsWorse(r.value.0, r'.value.0) && TradesWorse(r.value.1, r'.value.1)
                               && BacktestLaws.Positive(r.value.0))
    decreases |xs|
  {
    hide ClosedTrade;
    FirstSame(xs, ys, order.symbol);
    var i := FirstLot(xs, order.symbol);
    if remaining <= 0.0 || i == |xs| || xs[i].quantity > remaining {
    } else {
      assert xs[i] in xs;
      assert forall l :: l in Without(xs, i) ==> l in xs;
      ClosedWorse(xs[i], ys[i], order.rule, price, price', t, d);
      CloseLotsWorse(order, price, price', t, d, Without(xs, i), Without(ys, i),
                     us + [ClosedTrade(xs[i], order.rule, price, t, d)],
                     vs + [ClosedTrade(ys[i], order.rule, price', t, d)], remaining - xs[i].quantity);
    }
  }

  /** Every bar opens at a price that is not negative. */
  ghost predicate OpensNonNegative(input: Input) {
    forall s, c :: s in input.bars && c in input.bars[s] ==> c.open >= 0.0
  }

  lemma {:induction false} BarAtListed(bars: seq<Candle>, t: int)
    ensures BarAt(bars, t).Some? ==> BarAt(bars, t).value in bars
  {
    if bars == [] || bars[|bars| - 1].t == t {
    } else {
      BarAtListed(bars[..|bars| - 1], t);
    }
  }

  lemma FillOneWorse(a: Input, b: Input, x: Book, y: Book, o: Candidate, t: int, d: nat)
    requires b == a.(slippageBps := b.slippageBps) && a.slippageBps <= b.slippageBps && OpensNonNegative(a)
    requires BookWorse(x, y) && BacktestLaws.Positive(x.lots) && o.quantity > 0.0
    ensures var r, r' := FillOne(a, x, o, t, d), FillOne(b, y, o, t, d);
            (r.Success? <==> r'.Success?)
            && (r.Success? ==> BookWorse(r.value, r'.value) && BacktestLaws.Positive(r.value.lots))
  {
    hide ApplySlippage;
    var bar := BarAt(BarsOf(a, o.symbol), t);
    if bar.Some? {
      BarAtListed(BarsOf(a, o.symbol), t);
      SlippageWorsens(bar.value.open, o.side, a.slippageBps, b.slippageBps);
      var price, price' := ApplySlippage(bar.value.open, o.side, a.slippageBps), ApplySlippage(bar.value.open, o.side, b.slippageBps);
      if o.side == Sell { CloseLotsWorse(o, price, price', t, d, x.lots, y.lots, x.trades, y.trades, o.quantity); }
    }
  }

  lemma {:induction false} FillAllWorse(a: Input, b: Input, x: Book, y: Book, orders: seq<Candidate>, t: int, d: nat)
    requires b == a.(slippageBps := b.slippageBps) && a.slippageBps <= b.slippageBps && OpensNonNegative(a)
    requires BookWorse(x, y) && BacktestLaws.Positive(x.lots) && forall o :: o in orders ==> o.quantity > 0.0
    ensures var r, r' := FillAll(a, x, orders, t, d), FillAll(b, y, orders, t, d);
            (r.Success? <==> r'.Success?) && (r.Success? ==> BookWorse(r.value, r'.value))
    decreases |orders|
  {
    hide FillOne;
    if orders == [] {
    } else {
      assert orders[0] in orders;
      FillOneWorse(a, b, x, y, orders[0], t, d);
      var r, r' := FillOne(a, x, orders[0], t, d), FillOne(b, y, orders[0], t, d);
      if r.Success? {
        assert forall o :: o in orders[1..] ==> o in orders;
        FillAllWorse(a, b, r.value, r'.value, orders[1..], t, d);
      }
    }
  }

  lemma NextDayWorse(a: Input, b: Input, x: State, y: State, t: int, d: nat)
    requires a.strategy.Valid()
    requires b == a.(slippageBps := b.slippageBps) && a.slippageBps <= b.slippageBps && OpensNonNegative(a)
    requires StateWorse(x, y) && BacktestLaws.Positive(x.lots) && forall o :: o in x.queued ==> o.quantity > 0.0
    requires NextDay(a, x, t, d).Success?
    ensures NextDay(b, y, t, d).Success? && StateWorse(NextDay(a, x, t, d).value, NextDay(b, y, t, d).value)
  {
    hide Close, FillAll;
    var bookA, bookB := Book(x.lots, x.trades, x.unfilled), Book(y.lots, y.trades, y.unfilled);
    FillAllWorse(a, b, bookA, bookB, x.queued, t, d);
    CloseSame(a, b, x, y, FillAll(a, bookA, x.queued, t, d).value, FillAll(b, bookB, y.queued, t, d).value, t);
  }

  lemma {:induction false} RunWorse(a: Input, b: Input, timeline: seq<int>, n: nat)
    requires a.Valid() && AscendingInts.StrictlyAscending(timeline) && n <= |timeline|
    requires b == a.(slippageBps := b.slippageBps) && a.slippageBps <= b.slippageBps && OpensNonNegative(a)
    ensures Run(a, timeline, n).Success? && Run(b, timeline, n).Success?
    ensures StateWorse(Run(a, timeline, n).value, Run(b, timeline, n).value)
  {
    hide NextDay;
    BacktestTheorems.EveryDaySound(a, timeline, n);
    if n > 0 {
      RunWorse(a, b, timeline, n - 1);
      BacktestTheorems.EveryDaySound(a, timeline, n - 1);
      NextDayWorse(a, b, Run(a, timeline, n - 1).value, Run(b, timeline, n - 1).value, timeline[n - 1], n - 1);
    }
  }

  lemma {:induction false} AllTimesSame(a: Input, b: Input, symbols: seq<Symbol>)
    requires b == a.(slippageBps := b.slippageBps)
    ensures AllTimes(a, symbols) == AllTimes(b, symbols)
  {
    if symbols == [] {
    } else {
      AllTimesSame(a, b, symbols[..|symbols| - 1]);
    }
  }

  lemma FinishWorse(x: State, y: State)
    requires StateWorse(x, y)
    ensures TradesWorse(Finish(x).trades, Finish(y).trades)
  {
    var xs, ys := x.trades + OpenTrades(x.lots), y.trades + OpenTrades(y.lots);
    assert TradesWorse(xs, ys);
    Ordering.MovesAreSort(xs, TradeKey);
    Ordering.MovesAreSort(ys, TradeKey);
    Ordering.MovesReadKeys(xs, ys, TradeKey);
  }

  /**
   * Two backtests that differ only in slippage propose the same signals, report the same days and
   * counters, and list the same trades with the same bars, rules and quantities. Under the larger
   * slippage every entry is no cheaper, every exit no dearer and every realized result no larger.
   */
  lemma SlippageChangesPricesOnly(a: Input, b: Input)
    requires a.Valid() && OpensNonNegative(a)
    requires b == a.(slippageBps := b.slippageBps) && a.slippageBps <= b.slippageBps
    ensures Outcome(a).Success? && Outcome(b).Success?
    ensures TradesWorse(Outcome(a).value.trades, Outcome(b).value.trades)
    ensures Outcome(b).value == Outcome(a).value.(trades := Outcome(b).value.trades)
  {
    hide Timeline, Run;
    var timeline := Timeline(a);
    TimelineSame(a, b);
    BacktestTheorems.TimelineAscends(a);
    RunWorse(a, b, timeline, |timeline|);
    FinishWorse(Run(a, timeline, |timeline|).value, Run(b, timeline, |timeline|).value);
  }

  lemma TimelineSame(a: Input, b: Input)
    requires b == a.(slippageBps := b.slippageBps)
    ensures Timeline(a) == Timeline(b)
  {
    AllTimesSame(a, b, a.symbols);
  }
}
