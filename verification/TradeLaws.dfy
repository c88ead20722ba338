/** What every trade of a backtest was filled at, held for and earned (backend/src/backtest/simulate.ts). */
module TradeLaws {
  import opened Prelude
  import opened Money
  import opened Strategy
  import opened Backtest
  import opened RuleLaws
  import BacktestTheorems
  import Risk
  import RiskLaws
  import Ordering

  // ---- Fills --------------------------------------------------------------------------------

  /** The price is the open of the symbol's last bar stamped `t`, worse by the slippage, to six decimals. */
  ghost predicate FillsAtOpen(input: Input, s: Symbol, t: int, side: Side, price: real) {
    exists k :: IsLastBarAt(BarsOf(input, s), t, k) && AtWorse(BarsOf(input, s)[k].open, side, input.slippageBps, price)
  }

  ghost predicate IsLastBarAt(bars: seq<Candle>, t: int, k: int) {
    0 <= k < |bars| && bars[k].t == t && forall j :: k < j < |bars| ==> bars[j].t != t
  }

  ghost predicate AtWorse(open: real, side: Side, bps: int, price: real) {
    Whole(price * 1000000.0) && Abs(price - Worse(open, side, bps)) <= 0.0000005
  }

  lemma {:induction false} BarAtIsTheLast(bars: seq<Candle>, t: int)
    ensures BarAt(bars, t).Some? ==> exists k :: IsLastBarAt(bars, t, k) && bars[k] == BarAt(bars, t).value
    ensures BarAt(bars, t) == None ==> forall b :: b in bars ==> b.t != t
  {
    if bars != [] {
      var n := |bars| - 1;
      if bars[n].t == t {
        assert IsLastBarAt(bars, t, n);
      } else {
        BarAtIsTheLast(bars[..n], t);
        if BarAt(bars, t).Some? {
          var k :| IsLastBarAt(bars[..n], t, k) && bars[..n][k] == BarAt(bars, t).value;
          forall j | k < j < |bars| ensures bars[j].t != t {
            if j < n { assert bars[..n][j].t != t; }
          }
          assert IsLastBarAt(bars, t, k);
        } else {
          assert bars == bars[..n] + [bars[n]];
        }
      }
    }
  }

  lemma FilledAtOpen(input: Input, s: Symbol, t: int, side: Side)
    requires BarAt(BarsOf(input, s), t).Some?
    ensures FillsAtOpen(input, s, t, side, ApplySlippage(BarAt(BarsOf(input, s), t).value.open, side, input.slippageBps))
  {
    var bars := BarsOf(input, s);
    BarAtIsTheLast(bars, t);
    var k :| IsLastBarAt(bars, t, k) && bars[k] == BarAt(bars, t).value;
    SlippedPrice(bars[k].open, side, input.slippageBps);
  }

  // ---- What is kept ---------------------------------------------------------------------------

  /** The day before day `d`, on the lots held then and the bars through it, the strategy proposed this. */
  ghost predicate ProposedBefore(input: Input, timeline: seq<int>, d: int, s: Symbol, side: Side, quantity: real, rule: Rule)
    requires input.strategy.Valid()
  {
    && 1 <= d < |timeline| && Run(input, timeline, d).Success?
    && var c := Propose(input, Run(input, timeline, d).value.lots, timeline[d - 1], s);
       c.Some? && c.value.side == side && c.value.quantity == quantity && c.value.rule == rule
  }

  /** Entries are of whole shares, each order's side is its rule's, and it was proposed the day before. */
  ghost predicate OrderSound(input: Input, timeline: seq<int>, d: int, o: Candidate)
    requires input.strategy.Valid()
  {
    && o.side == SideOf(o.rule) && (o.side == Buy ==> Whole(o.quantity) && o.quantity >= 1.0)
    && (d < |timeline| ==> ProposedBefore(input, timeline, d, o.symbol, o.side, o.quantity, o.rule))
  }

  ghost predicate LotSound(input: Input, timeline: seq<int>, l: Lot)
    requires input.strategy.Valid()
  {
    && l.entryDayIndex < |timeline| && timeline[l.entryDayIndex] == l.entryBarTime
    && ProposedBefore(input, timeline, l.entryDayIndex, l.symbol, Buy, l.quantity, l.entryRule)
    && FillsAtOpen(input, l.symbol, l.entryBarTime, Buy, l.entryPrice)
    && SideOf(l.entryRule) == Buy && Whole(l.quantity) && l.quantity >= 1.0
  }

  /** At this bar a proposal of the day before is acted on. */
  ghost predicate ActsOn(input: Input, timeline: seq<int>, d: int, t: int, s: Symbol, side: Side, quantity: real, rule: Rule)
    requires input.strategy.Valid()
  {
    ProposedBefore(input, timeline, d, s, side, quantity, rule) && timeline[d] == t
  }

  /** What is true of how a trade was entered. */
  ghost predicate EntrySound(input: Input, timeline: seq<int>, tr: Trade)
    requires input.strategy.Valid()
  {
    && (exists d :: ActsOn(input, timeline, d, tr.entryBarTime, tr.symbol, Buy, tr.quantity, tr.entryRule))
    && FillsAtOpen(input, tr.symbol, tr.entryBarTime, Buy, tr.entryPrice)
    && SideOf(tr.entryRule) == Buy && Whole(tr.quantity) && tr.quantity >= 1.0
  }

  /** To the cent, the difference of the two prices times the shares. */
  ghost predicate Earned(entry: real, exit: real, quantity: real, pnl: real) {
    Whole(pnl * 100.0) && Abs(pnl - (exit - entry) * quantity) <= 0.005
  }

  /** The trade was entered on day `i` and left on day `j` of the timeline, `j - i` bars later. */
  ghost predicate HeldFor(timeline: seq<int>, tr: Trade, x: Exit, i: int, j: int) {
    0 <= i < |timeline| && 0 <= j < |timeline| && timeline[i] == tr.entryBarTime && timeline[j] == x.barTime && x.holdingBars == j - i
  }

  ghost predicate ExitSound(input: Input, timeline: seq<int>, tr: Trade, x: Exit)
    requires input.strategy.Valid()
  {
    && (exists d, shares :: ActsOn(input, timeline, d, x.barTime, tr.symbol, Sell, shares, x.rule))
    && FillsAtOpen(input, tr.symbol, x.barTime, Sell, x.price)
    && SideOf(x.rule) == Sell && Earned(tr.entryPrice, x.price, tr.quantity, x.realizedPnl)
    && exists i, j :: HeldFor(timeline, tr, x, i, j)
  }

  ghost predicate TradeSound(input: Input, timeline: seq<int>, tr: Trade)
    requires input.strategy.Valid()
  {
    EntrySound(input, timeline, tr) && (tr.exit.Some? ==> ExitSound(input, timeline, tr, tr.exit.value))
  }

  ghost predicate AllSound(input: Input, timeline: seq<int>, lots: seq<Lot>, trades: seq<Trade>)
    requires input.strategy.Valid()
  {
    (forall l :: l in lots ==> LotSound(input, timeline, l)) && (forall tr :: tr in trades ==> TradeSound(input, timeline, tr))
  }

  lemma PnlIsEarned(entry: real, exit: real, quantity: real)
    ensures Earned(entry, exit, quantity, RealizedPnl(entry, exit, quantity))
  {
    RoundedWithin((exit - entry) * quantity, 100.0);
  }

  /** Closing a sound lot makes a sound trade. */
  lemma ClosedIsSound(input: Input, timeline: seq<int>, lot: Lot, rule: Rule, price: real, shares: real, d: nat)
    requires input.strategy.Valid() && d < |timeline| && LotSound(input, timeline, lot) && SideOf(rule) == Sell
    requires ProposedBefore(input, timeline, d, lot.symbol, Sell, shares, rule)
    requires FillsAtOpen(input, lot.symbol, timeline[d], Sell, price)
    ensures TradeSound(input, timeline, ClosedTrade(lot, rule, price, timeline[d], d))
  {
    hide RealizedPnl, FillsAtOpen, Whole, ProposedBefore, SideOf;
    var tr := ClosedTrade(lot, rule, price, timeline[d], d);
    hide Earned;
    PnlIsEarned(lot.entryPrice, price, lot.quantity);
    assert ActsOn(input, timeline, lot.entryDayIndex, tr.entryBarTime, tr.symbol, Buy, tr.quantity, tr.entryRule);
    assert ActsOn(input, timeline, d, tr.exit.value.barTime, tr.symbol, Sell, shares, rule);
    assert HeldFor(timeline, tr, tr.exit.value, lot.entryDayIndex, d);
  }

  lemma {:induction false} CloseKeepsSound(input: Input, timeline: seq<int>, order: Candidate, price: real, d: nat,
                                          lots: seq<Lot>, trades: seq<Trade>, remaining: real)
    requires input.strategy.Valid() && d < |timeline| && AllSound(input, timeline, lots, trades) && SideOf(order.rule) == Sell
    requires ProposedBefore(input, timeline, d, order.symbol, Sell, order.quantity, order.rule)
    requires FillsAtOpen(input, order.symbol, timeline[d], Sell, price)
    ensures var r := CloseLots(order, price, timeline[d], d, lots, trades, remaining);
            r.Success? ==> AllSound(input, timeline, r.value.0, r.value.1)
    decreases |lots|
  {
    hide LotSound, TradeSound, FillsAtOpen, ProposedBefore;
    var i := FirstLot(lots, order.symbol);
    if remaining > 0.0 && i < |lots| && lots[i].quantity <= remaining {
      assert lots[i] in lots;
      ClosedIsSound(input, timeline, lots[i], order.rule, price, order.quantity, d);
      var rest := Without(lots, i);
      assert forall l :: l in rest ==> l in lots;
      CloseKeepsSound(input, timeline, order, price, d, rest,
                      trades + [ClosedTrade(lots[i], order.rule, price, timeline[d], d)], remaining - lots[i].quantity);
    }
  }

  lemma FillKeepsSound(input: Input, timeline: seq<int>, b: Book, order: Candidate, d: nat)
    requires input.strategy.Valid() && d < |timeline| && AllSound(input, timeline, b.lots, b.trades) && OrderSound(input, timeline, d, order)
    ensures var r := FillOne(input, b, order, timeline[d], d); r.Success? ==> AllSound(input, timeline, r.value.lots, r.value.trades)
  {
    hide CloseLots, FillsAtOpen, TradeSound, Whole, ProposedBefore;
    var bar := BarAt(BarsOf(input, order.symbol), timeline[d]);
    if bar.Some? {
      FilledAtOpen(input, order.symbol, timeline[d], order.side);
      var price := ApplySlippage(bar.value.open, order.side, input.slippageBps);
      if order.side == Buy {
        assert LotSound(input, timeline, Lot(order.symbol, order.quantity, price, timeline[d], order.rule, d));
      } else {
        CloseKeepsSound(input, timeline, order, price, d, b.lots, b.trades, order.quantity);
      }
    }
  }

  lemma {:induction false} FillAllKeepsSound(input: Input, timeline: seq<int>, b: Book, orders: seq<Candidate>, d: nat)
    requires input.strategy.Valid() && d < |timeline| && AllSound(input, timeline, b.lots, b.trades)
    requires forall o :: o in orders ==> OrderSound(input, timeline, d, o)
    ensures var r := FillAll(input, b, orders, timeline[d], d); r.Success? ==> AllSound(input, timeline, r.value.lots, r.value.trades)
    decreases |orders|
  {
    hide FillOne, AllSound, OrderSound;
    if orders != [] {
      FillKeepsSound(input, timeline, b, orders[0], d);
      var first := FillOne(input, b, orders[0], timeline[d], d);
      if first.Success? { FillAllKeepsSound(input, timeline, first.value, orders[1..], d); }
    }
  }

  /** What a rule or the time stop proposes. */
  ghost predicate ProposalShape(o: Candidate) {
    o.side == SideOf(o.rule) && (o.side == Buy ==> Whole(o.quantity) && o.quantity >= 1.0)
  }

  lemma ProposalSound(input: Input, lots: seq<Lot>, t: int, s: Symbol)
    requires input.strategy.Valid() && Propose(input, lots, t, s).Some?
    ensures ProposalShape(Propose(input, lots, t, s).value) && Propose(input, lots, t, s).value.symbol == s
  {
    BacktestTheorems.ProposalFits(input, lots, t, s);
    var through, held := BarsThrough(BarsOf(input, s), t), HeldQuantity(lots, s);
    if EvaluateTechnical(s, through, input.strategy, held).candidate.Some? {
      TechnicalSound(s, through, input.strategy, held);
    }
    hide EvaluateTechnical;
  }

  lemma TechnicalSound(s: Symbol, candles: seq<Candle>, cfg: StrategyConfig, held: Option<real>)
    requires cfg.Valid() && EvaluateTechnical(s, candles, cfg, held).candidate.Some?
    ensures ProposalShape(EvaluateTechnical(s, candles, cfg, held).candidate.value)
  {
    var c := EvaluateTechnical(s, candles, cfg, held).candidate.value;
    RulesActOnCrossings(s, candles, cfg, held, c.rule, Closes(Traded(candles)));
    hide EvaluateTechnical, Crossed;
  }

  lemma {:induction false} ProposalsSound(input: Input, lots: seq<Lot>, t: int, symbols: seq<Symbol>)
    requires input.strategy.Valid()
    ensures forall c :: c in ProposeAll(input, lots, t, symbols) ==>
              ProposalShape(c) && Propose(input, lots, t, c.symbol) == Some(c)
  {
    hide Propose, ProposalShape;
    if symbols != [] {
      var s := symbols[|symbols| - 1];
      ProposalsSound(input, lots, t, symbols[..|symbols| - 1]);
      if Propose(input, lots, t, s).Some? { ProposalSound(input, lots, t, s); }
    }
  }

  lemma QueuedSound(input: Input, s: State, b: Book, t: int)
    requires input.strategy.Valid()
    ensures forall o :: o in Close(input, s, b, t).queued ==> ProposalShape(o) && Propose(input, b.lots, t, o.symbol) == Some(o)
  {
    hide ProposalShape, Propose, ProposeAll, GateInputs, Risk.Decide;
    var cs, accepted := ProposeAll(input, b.lots, t, input.symbols), Gated(input, b.lots, t).accepted;
    ProposalsSound(input, b.lots, t, input.symbols);
    RiskLaws.GatePartitions(GateInputs(input, b.lots, t), cs);
    BacktestTheorems.AnswersKept(input, Answers([], s.signalsProposed, s.expired, s.random), accepted);
    var queued := Close(input, s, b, t).queued;
    forall o | o in queued ensures o in cs {
      assert o in multiset(queued) && o in multiset(accepted) && o in multiset(cs);
    }
  }

  lemma {:induction false} RunKeepsSound(input: Input, timeline: seq<int>, n: nat)
    requires input.strategy.Valid() && n <= |timeline|
    ensures var r := Run(input, timeline, n);
            r.Success? ==> AllSound(input, timeline, r.value.lots, r.value.trades)
                           && forall o :: o in r.value.queued ==> OrderSound(input, timeline, n, o)
  {
    hide AllSound, OrderSound, FillAll, Close;
    if n == 0 {
      NothingYet(input, timeline);
    } else {
      RunKeepsSound(input, timeline, n - 1);
      var before := Run(input, timeline, n - 1);
      if before.Success? {
        var s, t := before.value, timeline[n - 1];
        var b := Book(s.lots, s.trades, s.unfilled);
        FillAllKeepsSound(input, timeline, b, s.queued, n - 1);
        var filled := FillAll(input, b, s.queued, t, n - 1);
        if filled.Success? {
          QueuedSound(input, s, filled.value, t);
          BooksPass(input, s, filled.value, t);
          hide Propose, ProposalShape;
          assert Run(input, timeline, n) == Success(Close(input, s, filled.value, t));
          forall o | o in Run(input, timeline, n).value.queued ensures OrderSound(input, timeline, n, o) {
            QueuedIsProposed(input, timeline, n, o);
          }
        }
      }
    }
  }

  lemma QueuedIsProposed(input: Input, timeline: seq<int>, n: nat, o: Candidate)
    requires input.strategy.Valid() && 1 <= n <= |timeline| && Run(input, timeline, n).Success? && ProposalShape(o)
    requires Propose(input, Run(input, timeline, n).value.lots, timeline[n - 1], o.symbol) == Some(o)
    ensures OrderSound(input, timeline, n, o)
  {
    hide Propose, Run, Whole;
  }

  lemma BooksPass(input: Input, s: State, b: Book, t: int)
    requires input.strategy.Valid()
    ensures Close(input, s, b, t).lots == b.lots && Close(input, s, b, t).trades == b.trades
  {
  }

  lemma NothingYet(input: Input, timeline: seq<int>)
    requires input.strategy.Valid()
    ensures AllSound(input, timeline, [], [])
  {
  }

  // ---- Main results -----------------------------------------------------------------------------

  /**
   * Every trade of every backtest: entered as the strategy proposed the day before, on a buy rule, in those whole
   * shares, at the open of its entry bar made worse by the slippage; and, if it was left, left as it proposed the
   * day before that, on a sell rule or the time stop, at the open of its exit bar made worse, having earned to the
   * cent the difference of those prices times its shares, and having been held as many bars as the timeline counts
   * between the two.
   */
  lemma EveryTradeIsAccounted(input: Input, tr: Trade)
    requires input.Valid() && Outcome(input).Success? && tr in Outcome(input).value.trades
    ensures TradeSound(input, Timeline(input), tr)
  {
    hide Timeline, Run, TradeSound, LotSound;
    var timeline := Timeline(input);
    RunKeepsSound(input, timeline, |timeline|);
    var s := Run(input, timeline, |timeline|).value;
    var all := s.trades + OpenTrades(s.lots);
    Ordering.SortKeeps(all, TradeKey);
    assert tr in multiset(Ordering.Sort(all, TradeKey)) && tr in all;
    if tr !in s.trades {
      var i :| 0 <= i < |s.lots| && OpenTrade(s.lots[i]) == tr;
      assert s.lots[i] in s.lots;
      OpenIsSound(input, timeline, s.lots[i]);
    }
  }

  lemma OpenIsSound(input: Input, timeline: seq<int>, l: Lot)
    requires input.strategy.Valid() && LotSound(input, timeline, l)
    ensures TradeSound(input, timeline, OpenTrade(l))
  {
    hide ProposedBefore, FillsAtOpen, Whole;
    assert ActsOn(input, timeline, l.entryDayIndex, l.entryBarTime, l.symbol, Buy, l.quantity, l.entryRule);
  }

  // ---- Cash ---------------------------------------------------------------------------------------

  function Pnl(tr: Trade): real {
    if tr.exit.Some? then tr.exit.value.realizedPnl else 0.0
  }

  /** What the sale of a closed trade brought in. */
  function Proceeds(tr: Trade): real {
    if tr.exit.Some? then tr.exit.value.price * tr.quantity else 0.0
  }

  /** What the shares of a closed trade had cost. */
  function Cost(tr: Trade): real {
    if tr.exit.Some? then tr.entryPrice * tr.quantity else 0.0
  }

  function SumOf(trades: seq<Trade>, f: Trade -> real): real {
    if trades == [] then 0.0 else SumOf(trades[..|trades| - 1], f) + f(trades[|trades| - 1])
  }

  lemma {:induction false} CashAdds(input: Input, timeline: seq<int>, trades: seq<Trade>)
    requires input.strategy.Valid() && forall tr :: tr in trades ==> TradeSound(input, timeline, tr)
    ensures Abs(SumOf(trades, Pnl) - (SumOf(trades, Proceeds) - SumOf(trades, Cost))) <= 0.005 * |trades| as real
  {
    hide TradeSound, Pnl, Proceeds, Cost;
    if trades != [] {
      var front, last := trades[..|trades| - 1], trades[|trades| - 1];
      assert trades == front + [last] && TradeSound(input, timeline, last);
      CashAdds(input, timeline, front);
      OneTradesCash(input, timeline, last);
      assert 0.005 * |trades| as real == 0.005 * |front| as real + 0.005;
    }
  }

  lemma EarnedIsCash(entry: real, exit: real, quantity: real, pnl: real)
    requires Earned(entry, exit, quantity, pnl)
    ensures Abs(pnl - (exit * quantity - entry * quantity)) <= 0.005
  {
    assert (exit - entry) * quantity == exit * quantity - entry * quantity;
  }

  lemma OneTradesCash(input: Input, timeline: seq<int>, tr: Trade)
    requires input.strategy.Valid() && TradeSound(input, timeline, tr)
    ensures Abs(Pnl(tr) - (Proceeds(tr) - Cost(tr))) <= 0.005
  {
    hide FillsAtOpen, Whole, ActsOn;
    if tr.exit.Some? {
      EarnedIsCash(tr.entryPrice, tr.exit.value.price, tr.quantity, tr.exit.value.realizedPnl);
      hide Earned;
    }
  }

  /** What a backtest realizes in all is what its sales brought in less what those shares cost, to half a cent a trade. */
  lemma RealizedIsCash(input: Input)
    requires input.Valid() && Outcome(input).Success?
    ensures var trades := Outcome(input).value.trades;
            Abs(SumOf(trades, Pnl) - (SumOf(trades, Proceeds) - SumOf(trades, Cost))) <= 0.005 * |trades| as real
  {
    hide TradeSound, Outcome, Timeline;
    var trades := Outcome(input).value.trades;
    forall tr | tr in trades ensures TradeSound(input, Timeline(input), tr) {
      EveryTradeIsAccounted(input, tr);
    }
    CashAdds(input, Timeline(input), trades);
  }
}
