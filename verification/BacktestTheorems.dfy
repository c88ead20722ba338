/** What holds after every day of every backtest, and so of every result. */
module BacktestTheorems {
  import opened Prelude
  import opened Strategy
  import opened Money
  import opened Backtest
  import opened BacktestLaws
  import Risk
  import RiskLaws
  import Ordering
  import AscendingInts

  // ---- What a day proposes ---------------------------------------------------------

  lemma ProposalFits(input: Input, lots: seq<Lot>, t: int, s: Symbol)
    requires input.strategy.Valid()
    ensures var c := Propose(input, lots, t, s);
            c.Some? ==> c.value.symbol == s && c.value.quantity > 0.0
                        && (c.value.side == Sell ==> c.value.quantity == HeldShares(lots, s))
  {
    var through := BarsThrough(BarsOf(input, s), t);
    TechnicalSizing(s, through, input.strategy, HeldQuantity(lots, s));
  }

  lemma {:induction false} ProposalsFit(input: Input, lots: seq<Lot>, t: int, symbols: seq<Symbol>)
    requires input.strategy.Valid()
    requires forall i, j :: 0 <= i < j < |symbols| ==> symbols[i] != symbols[j]
    ensures QueueFits(lots, ProposeAll(input, lots, t, symbols))
    ensures forall c :: c in ProposeAll(input, lots, t, symbols) ==> c.symbol in symbols
  {
    if symbols == [] {
    } else {
      var front, s := symbols[..|symbols| - 1], symbols[|symbols| - 1];
      ProposalsFit(input, lots, t, front);
      ProposalFits(input, lots, t, s);
      assert symbols == front + [s];
    }
  }

  /** One candidate a symbol reaches the gate each day, so the order they are proposed in is irrelevant. */
  lemma GateOrderIsIrrelevant(input: Input, lots: seq<Lot>, t: int, ds: seq<Candidate>)
    requires input.Valid() && multiset(ds) == multiset(ProposeAll(input, lots, t, input.symbols))
    ensures var cs := ProposeAll(input, lots, t, input.symbols);
            Ordering.DistinctKeys(cs, Risk.CandidateKey)
            && Risk.Decide(GateInputs(input, lots, t), ds) == Risk.Decide(GateInputs(input, lots, t), cs)
  {
    hide Risk.Decide, GateInputs, ProposeAll;
    var cs := ProposeAll(input, lots, t, input.symbols);
    ProposalsFit(input, lots, t, input.symbols);
    forall i, j | 0 <= i < j < |cs| ensures Risk.CandidateKey(cs[i]) != Risk.CandidateKey(cs[j]) {
      assert SymbolKey(cs[i]) != SymbolKey(cs[j]);
    }
    RiskLaws.GateForgetsOrder(GateInputs(input, lots, t), cs, ds);
  }

  // ---- The gate never refuses an exit for lack of shares ----------------------------

  ghost predicate Plain(ps: seq<Risk.Position>) {
    && (forall i, j :: 0 <= i < j < |ps| ==> ps[i].symbol != ps[j].symbol)
    && (forall i :: 0 <= i < |ps| ==> ps[i].sellable == ps[i].quantity)
  }

  lemma {:induction false} SellableReads(ps: seq<Risk.Position>)
    requires Plain(ps)
    ensures forall i :: 0 <= i < |ps| ==> Risk.Lookup(Risk.Sellable(ps), ps[i].symbol, 0.0) == ps[i].quantity
    ensures forall s :: (forall i :: 0 <= i < |ps| ==> ps[i].symbol != s) ==> Risk.Lookup(Risk.Sellable(ps), s, 0.0) == 0.0
  {
    if ps == [] {
    } else {
      var front, last := ps[..|ps| - 1], ps[|ps| - 1];
      SellableReads(front);
      forall s | forall i :: 0 <= i < |ps| ==> ps[i].symbol != s
        ensures Risk.Lookup(Risk.Sellable(ps), s, 0.0) == 0.0
      {
        assert last.symbol != s;
        assert forall i :: 0 <= i < |front| ==> front[i].symbol == ps[i].symbol != s;
        assert Risk.Lookup(Risk.Sellable(front), s, 0.0) == 0.0;
      }
    }
  }

  /** Shares listed for `s` in a position list that names each symbol once. */
  function Shares(ps: seq<Risk.Position>, s: Symbol): real {
    if ps == [] then 0.0 else if ps[0].symbol == s then ps[0].quantity else Shares(ps[1..], s)
  }

  lemma {:induction false} SharesReads(ps: seq<Risk.Position>, s: Symbol)
    requires Plain(ps)
    ensures (exists i :: 0 <= i < |ps| && ps[i].symbol == s && Shares(ps, s) == ps[i].quantity)
            || ((forall i :: 0 <= i < |ps| ==> ps[i].symbol != s) && Shares(ps, s) == 0.0)
  {
    if ps == [] || ps[0].symbol == s {
    } else {
      SharesReads(ps[1..], s);
      if i :| 0 <= i < |ps[1..]| && ps[1..][i].symbol == s && Shares(ps[1..], s) == ps[1..][i].quantity {
        assert ps[i + 1].symbol == s;
      }
    }
  }

  lemma {:induction false} AddPositionAdds(ps: seq<Risk.Position>, lot: Lot)
    requires Plain(ps)
    ensures Plain(AddPosition(ps, lot))
    ensures forall p :: p in AddPosition(ps, lot) ==> p.symbol == lot.symbol || p in ps
    ensures forall s :: Shares(AddPosition(ps, lot), s) == Shares(ps, s) + if s == lot.symbol then lot.quantity else 0.0
  {
    if ps == [] {
    } else if ps[0].symbol == lot.symbol {
      assert AddPosition(ps, lot)[1..] == ps[1..];
    } else {
      var added := AddPosition(ps[1..], lot);
      AddPositionAdds(ps[1..], lot);
      assert AddPosition(ps, lot)[1..] == added;
      forall j | 0 <= j < |added| ensures added[j].symbol != ps[0].symbol {
        assert added[j] in added;
        if added[j].symbol != lot.symbol {
          var k :| 0 <= k < |ps[1..]| && ps[1..][k] == added[j];
          assert ps[k + 1] == added[j];
        }
      }
    }
  }

  lemma {:induction false} PositionsHold(lots: seq<Lot>)
    ensures Plain(PositionsFrom(lots))
    ensures forall s :: Shares(PositionsFrom(lots), s) == HeldShares(lots, s)
  {
    if lots == [] {
    } else {
      PositionsHold(lots[..|lots| - 1]);
      AddPositionAdds(PositionsFrom(lots[..|lots| - 1]), lots[|lots| - 1]);
    }
  }

  /** What the gate thinks can be sold is what is held. */
  lemma SellableIsHeld(lots: seq<Lot>, s: Symbol)
    ensures Risk.Lookup(Risk.Sellable(PositionsFrom(lots)), s, 0.0) == HeldShares(lots, s)
  {
    PositionsHold(lots);
    SellableReads(PositionsFrom(lots));
    SharesReads(PositionsFrom(lots), s);
  }

  lemma {:induction false} NeverWithoutPosition(inputs: Risk.RiskInputs, ordered: seq<Candidate>)
    requires forall c :: c in ordered && c.side == Sell ==>
               c.quantity <= Risk.Lookup(Risk.Sellable(inputs.positions), c.symbol, 0.0)
    ensures ReasonsOf(Risk.Pass(inputs, ordered).decision.rejected)[Risk.SellWithoutPosition] == 0
  {
    hide Risk.Sellable, Risk.CandidateCents, Risk.PriceFor, Risk.CommittedAtStart, Risk.PositionCents;
    if ordered == [] {
    } else {
      var front, c := ordered[..|ordered| - 1], ordered[|ordered| - 1];
      assert forall x :: x in front ==> x in ordered;
      NeverWithoutPosition(inputs, front);
      var before, after := Risk.Pass(inputs, front).decision.rejected, Risk.Pass(inputs, ordered).decision.rejected;
      assert c in ordered;
      if after != before { assert after[..|after| - 1] == before; }
    }
  }

  lemma GateSellsFit(input: Input, lots: seq<Lot>, t: int)
    requires input.Valid()
    ensures ReasonsOf(Gated(input, lots, t).rejected)[Risk.SellWithoutPosition] == 0
    ensures QueueFits(lots, Gated(input, lots, t).accepted)
  {
    var cs, inputs := ProposeAll(input, lots, t, input.symbols), GateInputs(input, lots, t);
    ProposalsFit(input, lots, t, input.symbols);
    Ordering.SortKeeps(cs, Risk.CandidateKey);
    var ordered := Risk.Ordered(cs);
    forall c | c in ordered && c.side == Sell
      ensures c.quantity <= Risk.Lookup(Risk.Sellable(inputs.positions), c.symbol, 0.0)
    {
      assert c in multiset(ordered);
      SellableIsHeld(lots, c.symbol);
    }
    NeverWithoutPosition(inputs, ordered);
    RiskLaws.GatePartitions(inputs, cs);
    var accepted := Gated(input, lots, t).accepted;
    Subqueue(lots, cs, accepted);
  }

  lemma Subqueue(lots: seq<Lot>, whole: seq<Candidate>, part: seq<Candidate>)
    requires QueueFits(lots, whole) && multiset(part) <= multiset(whole)
    ensures QueueFits(lots, part)
  {
    Ordering.DistinctSurvives(whole, part, SymbolKey);
    forall o | o in part ensures o in whole {
      assert o in multiset(part);
    }
  }

  lemma {:induction false} AnswersKept(input: Input, a: Answers, accepted: seq<Candidate>)
    ensures var r := AnswerAll(input, a, accepted);
            && r.proposed == a.proposed + |accepted|
            && |r.queued| + r.expired == |a.queued| + a.expired + |accepted|
            && multiset(r.queued) <= multiset(a.queued) + multiset(accepted)
  {
    if accepted == [] {
    } else {
      AnswersKept(input, a, accepted[..|accepted| - 1]);
      assert accepted == accepted[..|accepted| - 1] + [accepted[|accepted| - 1]];
    }
  }

  // ---- The invariant of the day loop ---------------------------------------------------

  function BookOf(s: State): Book {
    Book(s.lots, s.trades, s.unfilled)
  }

  ghost predicate Sound(timeline: seq<int>, n: nat, s: State)
    requires n <= |timeline|
  {
    && Positive(s.lots)
    && QueueFits(s.lots, s.queued)
    && (forall l :: l in s.lots ==> l.entryDayIndex < n && l.entryBarTime == timeline[l.entryDayIndex])
    && (forall tr :: tr in s.trades ==>
          n > 0 && tr.exit.Some? && tr.entryBarTime < tr.exit.value.barTime <= timeline[n - 1] && tr.exit.value.holdingBars >= 1)
    && s.signalsProposed == s.expired + Tally(BookOf(s), s.queued)
    && s.rejections[Risk.SellWithoutPosition] == 0
    && |s.days| == n
    && (forall i :: 0 <= i < n ==>
          s.days[i].barTime == timeline[i] && s.days[i].openLots == OpenCount(BookOf(s), timeline[i]))
  }

  lemma LastDayCount(b: Book, timeline: seq<int>, d: nat)
    requires d < |timeline| && AscendingInts.StrictlyAscending(timeline) && BookSound(b, [], timeline, d)
    ensures OpenCount(b, timeline[d]) == |b.lots|
  {
    CountAll(b.trades, timeline[d]);
    forall l | l in b.lots ensures l.entryBarTime <= timeline[d] {
      assert l.entryDayIndex == d || timeline[l.entryDayIndex] < timeline[d];
    }
    EnteredAll(b.lots, timeline[d]);
  }

  lemma CloseKeepsSound(input: Input, timeline: seq<int>, d: nat, s: State, b: Book)
    requires input.Valid() && d < |timeline| && AscendingInts.StrictlyAscending(timeline) && Sound(timeline, d, s)
    requires BookSound(b, [], timeline, d) && Tally(b, []) == Tally(BookOf(s), s.queued)
    requires forall t :: t < timeline[d] ==> OpenCount(b, t) == OpenCount(BookOf(s), t)
    ensures Sound(timeline, d + 1, Close(input, s, b, timeline[d]))
  {
    var s', accepted := Close(input, s, b, timeline[d]), Gated(input, b.lots, timeline[d]).accepted;
    GateSellsFit(input, b.lots, timeline[d]);
    AnswersKept(input, Answers([], s.signalsProposed, s.expired, s.random), accepted);
    assert multiset(s'.queued) <= multiset(accepted);
    Subqueue(b.lots, accepted, s'.queued);
    assert Tally(BookOf(s'), s'.queued) == Tally(b, []) + |s'.queued|;
    LastDayCount(b, timeline, d);
    assert BookOf(s') == b;
    forall i | 0 <= i < d + 1
      ensures s'.days[i].barTime == timeline[i] && s'.days[i].openLots == OpenCount(b, timeline[i])
    {
      if i < d { assert s'.days[i] == s.days[i] && timeline[i] < timeline[d]; }
    }
  }

  lemma DayKeepsSound(input: Input, timeline: seq<int>, d: nat, s: State)
    requires input.Valid() && d < |timeline| && AscendingInts.StrictlyAscending(timeline) && Sound(timeline, d, s)
    ensures var r := NextDay(input, s, timeline[d], d); r.Success? && Sound(timeline, d + 1, r.value)
  {
    assert d > 0 ==> timeline[d - 1] < timeline[d];
    assert BookSound(BookOf(s), s.queued, timeline, d);
    FillKeepsBook(input, BookOf(s), s.queued, timeline, d);
    CloseKeepsSound(input, timeline, d, s, FillAll(input, BookOf(s), s.queued, timeline[d], d).value);
  }

  lemma {:induction false} EveryDaySound(input: Input, timeline: seq<int>, n: nat)
    requires input.Valid() && n <= |timeline| && AscendingInts.StrictlyAscending(timeline)
    ensures var r := Run(input, timeline, n); r.Success? && Sound(timeline, n, r.value)
  {
    hide NextDay;
    if n == 0 {
      assert ExitPairs([]) == {};
    } else {
      EveryDaySound(input, timeline, n - 1);
      DayKeepsSound(input, timeline, n - 1, Run(input, timeline, n - 1).value);
    }
  }

  // ---- Main results -------------------------------------------------------------------------

  /**
   * After every day: at most one order per symbol is waiting, every waiting sell is for exactly the
   * shares held, every closed trade was held for at least one bar, and no exit was ever refused for
   * lack of shares. In particular the "would split a lot" error is unreachable.
   */
  lemma NeverSplitsALot(input: Input, n: nat)
    requires input.Valid() && n <= |Timeline(input)|
    ensures var r := Run(input, Timeline(input), n);
            && r.Success?
            && QueueFits(r.value.lots, r.value.queued)
            && (forall tr :: tr in r.value.trades ==> tr.exit.Some? && tr.exit.value.holdingBars >= 1)
            && r.value.rejections[Risk.SellWithoutPosition] == 0
    ensures Outcome(input).Success?
  {
    hide Finish;
    AscendingInts.CollectKeeps(AllTimes(input, input.symbols));
    EveryDaySound(input, Timeline(input), n);
    EveryDaySound(input, Timeline(input), |Timeline(input)|);
  }

  lemma ExitPairsOfAll(trades: seq<Trade>, lots: seq<Lot>, sorted: seq<Trade>)
    requires multiset(sorted) == multiset(trades + OpenTrades(lots))
    ensures ExitPairs(sorted) == ExitPairs(trades)
  {
    forall tr: Trade | tr.exit.Some? ensures tr in sorted <==> tr in trades {
      assert tr in sorted <==> tr in multiset(sorted);
      assert tr in multiset(trades + OpenTrades(lots)) <==> tr in trades + OpenTrades(lots);
    }
  }

  lemma TimelineAscends(input: Input)
    ensures AscendingInts.StrictlyAscending(Timeline(input))
  {
    AscendingInts.CollectKeeps(AllTimes(input, input.symbols));
  }

  /**
   * Every proposed signal ends in exactly one place: expired, unfilled, the entry of a trade, or the
   * exit of one symbol's trades on one bar; and each day reports the trades that were open that day.
   */
  lemma BacktestConserves(input: Input)
    requires input.Valid()
    ensures Outcome(input).Success?
    ensures var r := Outcome(input).value;
            && r.signalsProposed == r.expired + r.unfilled + |r.trades| + |ExitPairs(r.trades)|
            && |r.days| == |Timeline(input)|
            && (forall i :: 0 <= i < |r.days| ==>
                  r.days[i].barTime == Timeline(input)[i]
                  && r.days[i].openLots == CountOpen(r.trades, r.days[i].barTime))
  {
    hide Finish, Timeline;
    var timeline := Timeline(input);
    TimelineAscends(input);
    EveryDaySound(input, timeline, |timeline|);
    FinishConserves(timeline, Run(input, timeline, |timeline|).value);
  }

  lemma FinishConserves(timeline: seq<int>, s: State)
    requires Sound(timeline, |timeline|, s)
    ensures var r := Finish(s);
            && r.signalsProposed == r.expired + r.unfilled + |r.trades| + |ExitPairs(r.trades)|
            && |r.days| == |timeline|
            && (forall i :: 0 <= i < |r.days| ==>
                  r.days[i].barTime == timeline[i] && r.days[i].openLots == CountOpen(r.trades, r.days[i].barTime))
  {
    hide CountOpen, ExitPairs, OpenTrades, Ordering.Sort;
    var r, all := Finish(s), s.trades + OpenTrades(s.lots);
    Ordering.SortKeeps(all, TradeKey);
    ExitPairsOfAll(s.trades, s.lots, r.trades);
    forall i | 0 <= i < |r.days| ensures r.days[i].openLots == CountOpen(r.trades, r.days[i].barTime) {
      CountPermutes(r.trades, all, timeline[i]);
      CountSplits(s.trades, OpenTrades(s.lots), timeline[i]);
      OpenTradesCount(s.lots, timeline[i]);
    }
  }
}
