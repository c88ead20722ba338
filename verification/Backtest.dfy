/** The strategy replayed over history, day by day (backend/src/backtest/simulate.ts). */
module Backtest {
  import opened Prelude
  import opened Money
  import opened Strategy
  import Risk
  import opened Ordering
  import AscendingInts

  datatype Input = Input(
    symbols: seq<Symbol>, bars: map<Symbol, seq<Candle>>, strategy: StrategyConfig, risk: Risk.RiskConfig,
    slippageBps: int, approvalRate: real, seed: int)
  {
    /** One listing per symbol, each with its bars, and a strategy start-up would accept. */
    ghost predicate Valid() {
      && strategy.Valid()
      && (forall i, j :: 0 <= i < j < |symbols| ==> symbols[i] != symbols[j])
      && (forall s :: s in symbols ==> s in bars)
    }
  }

  datatype Lot = Lot(
    symbol: Symbol, quantity: real, entryPrice: real, entryBarTime: int, entryRule: Rule, entryDayIndex: nat)

  datatype Exit = Exit(barTime: int, price: real, rule: Rule, realizedPnl: real, holdingBars: int)

  datatype Trade = Trade(
    symbol: Symbol, quantity: real, entryBarTime: int, entryPrice: real, entryRule: Rule, exit: Option<Exit>)

  datatype Day = Day(barTime: int, openLots: nat, evaluable: bool)

  datatype BacktestResult = BacktestResult(
    trades: seq<Trade>, days: seq<Day>, signalsProposed: nat, unfilled: nat, expired: nat,
    rejections: multiset<Risk.Reason>)

  /** The loop's variables at the end of a day. */
  datatype State = State(
    lots: seq<Lot>, trades: seq<Trade>, days: seq<Day>, queued: seq<Candidate>,
    signalsProposed: nat, unfilled: nat, expired: nat, rejections: multiset<Risk.Reason>, random: int)

  /** An exit would have had to split a lot. */
  datatype Fault = WouldSplitLot

  // ---- Bars ------------------------------------------------------------------

  /** The bars up to the first one after `t`. */
  function BarsThrough(bars: seq<Candle>, t: int): (r: seq<Candle>)
    ensures |r| <= |bars| && r == bars[..|r|]
    ensures forall b :: b in r ==> b.t <= t
    ensures |r| < |bars| ==> bars[|r|].t > t
  {
    if bars == [] || bars[0].t > t then []
    else
      var rest := BarsThrough(bars[1..], t);
      assert bars[..1 + |rest|] == [bars[0]] + rest;
      [bars[0]] + rest
  }

  /** The bar stamped `t`; the last one listed when several are. */
  function BarAt(bars: seq<Candle>, t: int): Option<Candle> {
    if bars == [] then None
    else if bars[|bars| - 1].t == t then Some(bars[|bars| - 1])
    else BarAt(bars[..|bars| - 1], t)
  }

  function BarsOf(input: Input, s: Symbol): seq<Candle> {
    if s in input.bars then input.bars[s] else []
  }

  function Times(bars: seq<Candle>): (ts: seq<int>)
    ensures |ts| == |bars| && forall i :: 0 <= i < |ts| ==> ts[i] == bars[i].t
  {
    seq(|bars|, i requires 0 <= i < |bars| => bars[i].t)
  }

  function AllTimes(input: Input, symbols: seq<Symbol>): seq<int> {
    if symbols == [] then []
    else AllTimes(input, symbols[..|symbols| - 1]) + Times(BarsOf(input, symbols[|symbols| - 1]))
  }

  /** Every bar time of every symbol, once, in order. */
  function Timeline(input: Input): seq<int> {
    AscendingInts.Collect(AllTimes(input, input.symbols))
  }

  // ---- Lots --------------------------------------------------------------------

  function HeldShares(lots: seq<Lot>, s: Symbol): real {
    if lots == [] then 0.0
    else HeldShares(lots[..|lots| - 1], s) + if lots[|lots| - 1].symbol == s then lots[|lots| - 1].quantity else 0.0
  }

  function HeldQuantity(lots: seq<Lot>, s: Symbol): Option<real> {
    var held := HeldShares(lots, s);
    if held > 0.0 then Some(held) else None
  }

  /** The earliest-entered lot of a symbol; the first listed when several entered together. */
  function OldestLot(lots: seq<Lot>, s: Symbol): Option<Lot> {
    if lots == [] then None
    else
      var earlier, last := OldestLot(lots[..|lots| - 1], s), lots[|lots| - 1];
      if last.symbol == s && (earlier == None || last.entryDayIndex < earlier.value.entryDayIndex) then Some(last)
      else earlier
  }

  /** Index of the first lot of `s`, or the number of lots when there is none. */
  function FirstLot(lots: seq<Lot>, s: Symbol): (i: nat)
    ensures i <= |lots|
    ensures i < |lots| ==> lots[i].symbol == s
    ensures forall j :: 0 <= j < i ==> lots[j].symbol != s
  {
    if lots == [] || lots[0].symbol == s then 0 else 1 + FirstLot(lots[1..], s)
  }

  function Without(lots: seq<Lot>, i: nat): seq<Lot>
    requires i < |lots|
  {
    lots[..i] + lots[i + 1..]
  }

  function ClosedTrade(lot: Lot, rule: Rule, fillPrice: real, barTime: int, dayIndex: nat): Trade {
    Trade(lot.symbol, lot.quantity, lot.entryBarTime, lot.entryPrice, lot.entryRule,
          Some(Exit(barTime, fillPrice, rule, RealizedPnl(lot.entryPrice, fillPrice, lot.quantity),
                    dayIndex - lot.entryDayIndex)))
  }

  function RealizedPnl(entry: real, exit: real, quantity: real): real {
    ToDecimals((exit - entry) * quantity, 100.0)
  }

  /** Oldest lots of the symbol first, until `remaining` shares are closed. */
  function CloseLots(order: Candidate, fillPrice: real, barTime: int, dayIndex: nat,
                     lots: seq<Lot>, trades: seq<Trade>, remaining: real): Result<(seq<Lot>, seq<Trade>), Fault>
    decreases |lots|
  {
    var i := FirstLot(lots, order.symbol);
    if remaining <= 0.0 || i == |lots| then Success((lots, trades))
    else if lots[i].quantity > remaining then Failure(WouldSplitLot)
    else
      CloseLots(order, fillPrice, barTime, dayIndex, Without(lots, i),
                trades + [ClosedTrade(lots[i], order.rule, fillPrice, barTime, dayIndex)], remaining - lots[i].quantity)
  }

  method CloseLotsFifo(order: Candidate, fillPrice: real, barTime: int, dayIndex: nat, lots: seq<Lot>, trades: seq<Trade>)
    returns (r: Result<(seq<Lot>, seq<Trade>), Fault>)
    ensures r == CloseLots(order, fillPrice, barTime, dayIndex, lots, trades, order.quantity)
  {
    var lots', trades', remaining := lots, trades, order.quantity;
    while remaining > 0.0
      invariant CloseLots(order, fillPrice, barTime, dayIndex, lots', trades', remaining)
                == CloseLots(order, fillPrice, barTime, dayIndex, lots, trades, order.quantity)
      decreases |lots'|
    {
      var index := FirstLot(lots', order.symbol);
      if index == |lots'| { break; }
      var lot := lots'[index];
      if lot.quantity > remaining { return Failure(WouldSplitLot); }
      lots' := lots'[..index] + lots'[index + 1..];
      remaining := remaining - lot.quantity;
      trades' := trades' + [ClosedTrade(lot, order.rule, fillPrice, barTime, dayIndex)];
    }
    return Success((lots', trades'));
  }

  // ---- 1. Fill what the previous bar proposed ------------------------------------

  datatype Book = Book(lots: seq<Lot>, trades: seq<Trade>, unfilled: nat)

  function FillOne(input: Input, b: Book, order: Candidate, barTime: int, dayIndex: nat): Result<Book, Fault> {
    var bar := BarAt(BarsOf(input, order.symbol), barTime);
    if bar == None then Success(b.(unfilled := b.unfilled + 1))
    else
      var fillPrice := ApplySlippage(bar.value.open, order.side, input.slippageBps);
      if order.side == Buy then
        Success(b.(lots := b.lots + [Lot(order.symbol, order.quantity, fillPrice, barTime, order.rule, dayIndex)]))
      else
        var closed := CloseLots(order, fillPrice, barTime, dayIndex, b.lots, b.trades, order.quantity);
        if closed.Failure? then Failure(closed.error)
        else Success(b.(lots := closed.value.0, trades := closed.value.1))
  }

  function FillAll(input: Input, b: Book, orders: seq<Candidate>, barTime: int, dayIndex: nat): Result<Book, Fault>
    decreases |orders|
  {
    if orders == [] then Success(b)
    else
      var first := FillOne(input, b, orders[0], barTime, dayIndex);
      if first.Failure? then Failure(first.error)
      else FillAll(input, first.value, orders[1..], barTime, dayIndex)
  }

  method FillCarried(input: Input, b: Book, carried: seq<Candidate>, barTime: int, dayIndex: nat)
    returns (r: Result<Book, Fault>)
    ensures r == FillAll(input, b, carried, barTime, dayIndex)
  {
    var lots, trades, unfilled := b.lots, b.trades, b.unfilled;
    for i := 0 to |carried|
      invariant FillAll(input, Book(lots, trades, unfilled), carried[i..], barTime, dayIndex)
                == FillAll(input, b, carried, barTime, dayIndex)
    {
      assert carried[i..][0] == carried[i] && carried[i..][1..] == carried[i + 1..];
      var order := carried[i];
      var bar := BarAt(BarsOf(input, order.symbol), barTime);
      if bar == None {
        unfilled := unfilled + 1;
        continue;
      }
      var fillPrice := ApplySlippage(bar.value.open, order.side, input.slippageBps);
      if order.side == Buy {
        lots := lots + [Lot(order.symbol, order.quantity, fillPrice, barTime, order.rule, dayIndex)];
        continue;
      }
      var closed := CloseLotsFifo(order, fillPrice, barTime, dayIndex, lots, trades);
      if closed.Failure? { return Failure(closed.error); }
      lots, trades := closed.value.0, closed.value.1;
    }
    return Success(Book(lots, trades, unfilled));
  }

  // ---- 2. Evaluate the rules on bars through today ---------------------------------

  /** What one symbol proposes: a rule's candidate, else the time stop's. */
  function Propose(input: Input, lots: seq<Lot>, barTime: int, s: Symbol): Option<Candidate>
    requires input.strategy.Valid()
  {
    var through, held := BarsThrough(BarsOf(input, s), barTime), HeldQuantity(lots, s);
    if through == [] then None
    else
      var technical := EvaluateTechnical(s, through, input.strategy, held).candidate;
      var oldest := OldestLot(lots, s);
      if technical.Some? then technical
      else if held == None || oldest == None then None
      else EvaluateExit(s, through, oldest.value.entryBarTime, held.value, input.strategy.maxHoldingDays)
  }

  function ProposeAll(input: Input, lots: seq<Lot>, barTime: int, symbols: seq<Symbol>): seq<Candidate>
    requires input.strategy.Valid()
  {
    if symbols == [] then []
    else
      var last := Propose(input, lots, barTime, symbols[|symbols| - 1]);
      ProposeAll(input, lots, barTime, symbols[..|symbols| - 1]) + if last == None then [] else [last.value]
  }

  function Evaluable(input: Input, barTime: int, symbols: seq<Symbol>): bool {
    if symbols == [] then false
    else
      var through := BarsThrough(BarsOf(input, symbols[|symbols| - 1]), barTime);
      Evaluable(input, barTime, symbols[..|symbols| - 1])
      || (through != [] && |through| >= RequiredBars(input.strategy))
  }

  method EvaluateDay(input: Input, lots: seq<Lot>, barTime: int) returns (candidates: seq<Candidate>, evaluable: bool)
    requires input.strategy.Valid()
    ensures candidates == ProposeAll(input, lots, barTime, input.symbols)
    ensures evaluable == Evaluable(input, barTime, input.symbols)
  {
    hide EvaluateTechnical, EvaluateExit, HeldQuantity, OldestLot, RequiredBars;
    candidates, evaluable := [], false;
    for i := 0 to |input.symbols|
      invariant candidates == ProposeAll(input, lots, barTime, input.symbols[..i])
      invariant evaluable == Evaluable(input, barTime, input.symbols[..i])
    {
      assert input.symbols[..i + 1][..i] == input.symbols[..i];
      var s := input.symbols[i];
      var through := BarsThrough(BarsOf(input, s), barTime);
      if through == [] { continue; }
      if |through| >= RequiredBars(input.strategy) { evaluable := true; }
      var held := HeldQuantity(lots, s);
      var technical := EvaluateTechnical(s, through, input.strategy, held);
      if technical.candidate.Some? {
        candidates := candidates + [technical.candidate.value];
        continue;
      }
      var oldest := OldestLot(lots, s);
      if held.Some? && oldest.Some? {
        var timeStop := EvaluateExit(s, through, oldest.value.entryBarTime, held.value, input.strategy.maxHoldingDays);
        if timeStop.Some? { candidates := candidates + [timeStop.value]; }
      }
    }
    assert input.symbols[..|input.symbols|] == input.symbols;
  }

  // ---- 3. Risk gate ------------------------------------------------------------------

  function ClosePrices(input: Input, barTime: int, symbols: seq<Symbol>): map<Symbol, real> {
    if symbols == [] then map[]
    else
      var s := symbols[|symbols| - 1];
      var earlier, bar := ClosePrices(input, barTime, symbols[..|symbols| - 1]), BarAt(BarsOf(input, s), barTime);
      if bar == None then earlier else earlier[s := bar.value.close]
  }

  /** Adds a lot's shares to its symbol's position, or opens the position. */
  function AddPosition(positions: seq<Risk.Position>, lot: Lot): seq<Risk.Position> {
    if positions == [] then [Risk.Position(lot.symbol, lot.quantity, lot.quantity)]
    else if positions[0].symbol == lot.symbol then
      var total := positions[0].quantity + lot.quantity;
      [Risk.Position(lot.symbol, total, total)] + positions[1..]
    else [positions[0]] + AddPosition(positions[1..], lot)
  }

  function PositionsFrom(lots: seq<Lot>): seq<Risk.Position> {
    if lots == [] then [] else AddPosition(PositionsFrom(lots[..|lots| - 1]), lots[|lots| - 1])
  }

  function GateInputs(input: Input, lots: seq<Lot>, barTime: int): Risk.RiskInputs {
    Risk.RiskInputs(PositionsFrom(lots), ClosePrices(input, barTime, input.symbols), [], 0, input.risk)
  }

  function Gated(input: Input, lots: seq<Lot>, barTime: int): Risk.Decision
    requires input.strategy.Valid()
  {
    Risk.Decide(GateInputs(input, lots, barTime), ProposeAll(input, lots, barTime, input.symbols))
  }

  function ReasonsOf(rejected: seq<Risk.Rejection>): multiset<Risk.Reason> {
    if rejected == [] then multiset{}
    else ReasonsOf(rejected[..|rejected| - 1]) + multiset{rejected[|rejected| - 1].reason}
  }

  // ---- 4. The owner decides -------------------------------------------------------------

  const TWO_TO_THE_32 := 0x1_0000_0000

  function SeedState(seed: int): int {
    if seed % TWO_TO_THE_32 == 0 then 1 else seed % TWO_TO_THE_32
  }

  function NextRandom(state: int): int {
    (state * 1664525 + 1013904223) % TWO_TO_THE_32
  }

  datatype Answers = Answers(queued: seq<Candidate>, proposed: nat, expired: nat, random: int)

  function Answer(input: Input, a: Answers, c: Candidate): Answers {
    if input.approvalRate >= 1.0 then a.(queued := a.queued + [c], proposed := a.proposed + 1)
    else
      var drawn := NextRandom(a.random);
      if drawn as real / TWO_TO_THE_32 as real >= input.approvalRate then
        a.(proposed := a.proposed + 1, expired := a.expired + 1, random := drawn)
      else a.(queued := a.queued + [c], proposed := a.proposed + 1, random := drawn)
  }

  function AnswerAll(input: Input, a: Answers, accepted: seq<Candidate>): Answers {
    if accepted == [] then a
    else Answer(input, AnswerAll(input, a, accepted[..|accepted| - 1]), accepted[|accepted| - 1])
  }

  method OwnerDecides(input: Input, accepted: seq<Candidate>, a: Answers) returns (r: Answers)
    ensures r == AnswerAll(input, a, accepted)
  {
    var queued, signalsProposed, expired, state := a.queued, a.proposed, a.expired, a.random;
    for i := 0 to |accepted|
      invariant Answers(queued, signalsProposed, expired, state) == AnswerAll(input, a, accepted[..i])
    {
      assert accepted[..i + 1][..i] == accepted[..i];
      signalsProposed := signalsProposed + 1;
      if input.approvalRate < 1.0 {
        state := (state * 1664525 + 1013904223) % TWO_TO_THE_32;
        if state as real / TWO_TO_THE_32 as real >= input.approvalRate {
          expired := expired + 1;
          continue;
        }
      }
      queued := queued + [accepted[i]];
    }
    assert accepted[..|accepted|] == accepted;
    return Answers(queued, signalsProposed, expired, state);
  }

  // ---- A day, and all of them ----------------------------------------------------------------

  function Begin(input: Input): State {
    State([], [], [], [], 0, 0, 0, multiset{}, SeedState(input.seed))
  }

  /** Steps 2 to 4 of a day, on the book as filled. */
  function Close(input: Input, s: State, b: Book, barTime: int): State
    requires input.strategy.Valid()
  {
    var gated := Gated(input, b.lots, barTime);
    var answers := AnswerAll(input, Answers([], s.signalsProposed, s.expired, s.random), gated.accepted);
    State(b.lots, b.trades, s.days + [Day(barTime, |b.lots|, Evaluable(input, barTime, input.symbols))],
          answers.queued, answers.proposed, b.unfilled, answers.expired,
          s.rejections + ReasonsOf(gated.rejected), answers.random)
  }

  function NextDay(input: Input, s: State, barTime: int, dayIndex: nat): Result<State, Fault>
    requires input.strategy.Valid()
  {
    var filled := FillAll(input, Book(s.lots, s.trades, s.unfilled), s.queued, barTime, dayIndex);
    if filled.Failure? then Failure(filled.error) else Success(Close(input, s, filled.value, barTime))
  }

  /** The state after the first `n` days of the timeline. */
  function Run(input: Input, timeline: seq<int>, n: nat): Result<State, Fault>
    requires input.strategy.Valid() && n <= |timeline|
  {
    if n == 0 then Success(Begin(input))
    else
      var before := Run(input, timeline, n - 1);
      if before.Failure? then before else NextDay(input, before.value, timeline[n - 1], n - 1)
  }

  function OpenTrade(lot: Lot): Trade {
    Trade(lot.symbol, lot.quantity, lot.entryBarTime, lot.entryPrice, lot.entryRule, None)
  }

  function OpenTrades(lots: seq<Lot>): (ts: seq<Trade>)
    ensures |ts| == |lots| && forall i :: 0 <= i < |ts| ==> ts[i] == OpenTrade(lots[i])
  {
    seq(|lots|, i requires 0 <= i < |lots| => OpenTrade(lots[i]))
  }

  function TradeKey(t: Trade): Key {
    (t.entryBarTime, t.symbol)
  }

  function Finish(s: State): BacktestResult {
    BacktestResult(Sort(s.trades + OpenTrades(s.lots), TradeKey), s.days, s.signalsProposed,
                   s.unfilled + |s.queued|, s.expired, s.rejections)
  }

  function Outcome(input: Input): Result<BacktestResult, Fault>
    requires input.strategy.Valid()
  {
    var end := Run(input, Timeline(input), |Timeline(input)|);
    if end.Failure? then Failure(end.error) else Success(Finish(end.value))
  }

  method GateAndDecide(input: Input, s: State, b: Book, barTime: int, candidates: seq<Candidate>)
    returns (answers: Answers, rejections: multiset<Risk.Reason>)
    requires input.strategy.Valid() && candidates == ProposeAll(input, b.lots, barTime, input.symbols)
    ensures answers == AnswerAll(input, Answers([], s.signalsProposed, s.expired, s.random), Gated(input, b.lots, barTime).accepted)
    ensures rejections == s.rejections + ReasonsOf(Gated(input, b.lots, barTime).rejected)
  {
    answers, rejections := Answers([], s.signalsProposed, s.expired, s.random), s.rejections;
    if |candidates| == 0 {
      assert Risk.Ordered(candidates) == [];
      assert Gated(input, b.lots, barTime) == Risk.Decision([], []);
      assert s.rejections + ReasonsOf([]) == s.rejections;
      return;
    }
    var decision := Risk.ApplyRiskCaps(GateInputs(input, b.lots, barTime), candidates);
    for i := 0 to |decision.rejected|
      invariant rejections == s.rejections + ReasonsOf(decision.rejected[..i])
    {
      assert decision.rejected[..i + 1][..i] == decision.rejected[..i];
      rejections := rejections + multiset{decision.rejected[i].reason};
    }
    assert decision.rejected[..|decision.rejected|] == decision.rejected;
    answers := OwnerDecides(input, decision.accepted, answers);
  }

  /** One pass of the program's day loop. */
  method SimulateDay(input: Input, s: State, barTime: int, dayIndex: nat) returns (r: Result<State, Fault>)
    requires input.strategy.Valid()
    ensures r == NextDay(input, s, barTime, dayIndex)
  {
    var filled := FillCarried(input, Book(s.lots, s.trades, s.unfilled), s.queued, barTime, dayIndex);
    if filled.Failure? { return Failure(filled.error); }
    var b := filled.value;
    var candidates, evaluable := EvaluateDay(input, b.lots, barTime);
    var answers, rejections := GateAndDecide(input, s, b, barTime, candidates);
    var days := s.days + [Day(barTime, |b.lots|, evaluable)];
    return Success(State(b.lots, b.trades, days, answers.queued, answers.proposed, b.unfilled, answers.expired,
                         rejections, answers.random));
  }

  method Simulate(input: Input) returns (r: Result<BacktestResult, Fault>)
    requires input.strategy.Valid()
    ensures r == Outcome(input)
  {
    hide NextDay, Finish, Timeline;
    var timeline := Timeline(input);
    var s := Begin(input);
    for dayIndex := 0 to |timeline|
      invariant Run(input, timeline, dayIndex) == Success(s)
    {
      var next := SimulateDay(input, s, timeline[dayIndex], dayIndex);
      if next.Failure? {
        FaultSticks(input, timeline, dayIndex + 1, |timeline|);
        return Failure(next.error);
      }
      s := next.value;
    }
    return Success(Finish(s));
  }

  lemma {:induction false} FaultSticks(input: Input, timeline: seq<int>, m: nat, n: nat)
    requires input.strategy.Valid() && m <= n <= |timeline| && Run(input, timeline, m).Failure?
    ensures Run(input, timeline, n) == Run(input, timeline, m)
  {
    hide NextDay;
    if m < n { FaultSticks(input, timeline, m, n - 1); }
  }
}
