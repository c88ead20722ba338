/** The books a backtest keeps: no split lots, nothing lost between a signal and its trade. */
module BacktestLaws {
  import opened Prelude
  import opened Money
  import opened Strategy
  import opened Backtest
  import Ordering
  import AscendingInts

  // ---- Lots of one symbol and the rest -----------------------------------------

  function Only(lots: seq<Lot>, s: Symbol): seq<Lot> {
    if lots == [] then []
    else (if lots[0].symbol == s then [lots[0]] else []) + Only(lots[1..], s)
  }

  function Except(lots: seq<Lot>, s: Symbol): seq<Lot> {
    if lots == [] then []
    else (if lots[0].symbol == s then [] else [lots[0]]) + Except(lots[1..], s)
  }

  lemma {:induction false} OnlySplits(a: seq<Lot>, b: seq<Lot>, s: Symbol)
    ensures Only(a + b, s) == Only(a, s) + Only(b, s)
  {
    if a == [] {
      assert a + b == b;
    } else {
      OnlySplits(a[1..], b, s);
      assert (a + b)[0] == a[0] && (a + b)[1..] == a[1..] + b;
    }
  }

  lemma {:induction false} ExceptSplits(a: seq<Lot>, b: seq<Lot>, s: Symbol)
    ensures Except(a + b, s) == Except(a, s) + Except(b, s)
  {
    if a == [] {
      assert a + b == b;
    } else {
      ExceptSplits(a[1..], b, s);
      assert (a + b)[0] == a[0] && (a + b)[1..] == a[1..] + b;
    }
  }

  lemma {:induction false} HeldSplits(a: seq<Lot>, b: seq<Lot>, s: Symbol)
    ensures HeldShares(a + b, s) == HeldShares(a, s) + HeldShares(b, s)
  {
    if b == [] {
      assert a + b == a;
    } else {
      HeldSplits(a, b[..|b| - 1], s);
      assert (a + b)[..|a + b| - 1] == a + b[..|b| - 1];
    }
  }

  lemma {:induction false} NoneOf(lots: seq<Lot>, s: Symbol)
    requires forall i :: 0 <= i < |lots| ==> lots[i].symbol != s
    ensures Only(lots, s) == [] && Except(lots, s) == lots && HeldShares(lots, s) == 0.0
  {
    if lots == [] {
    } else {
      NoneOf(lots[1..], s);
      HeldSplits(lots[..1], lots[1..], s);
      assert lots[..1] + lots[1..] == lots;
      assert lots[..1][..0] == [];
    }
  }

  ghost predicate Positive(lots: seq<Lot>) {
    forall l :: l in lots ==> l.quantity > 0.0
  }

  lemma {:induction false} HeldNonNegative(lots: seq<Lot>, s: Symbol)
    requires Positive(lots)
    ensures HeldShares(lots, s) >= 0.0
    ensures HeldShares(lots, s) > 0.0 <==> exists l :: l in lots && l.symbol == s
  {
    if lots == [] {
    } else {
      HeldNonNegative(lots[..|lots| - 1], s);
      assert lots == lots[..|lots| - 1] + [lots[|lots| - 1]];
    }
  }

  /** How a sell is filled: the rule behind it, its price, and the day. */
  datatype Fill = Fill(rule: Rule, price: real, barTime: int, dayIndex: nat)

  function CloseOne(lot: Lot, f: Fill): Trade {
    ClosedTrade(lot, f.rule, f.price, f.barTime, f.dayIndex)
  }

  function CloseEach(lots: seq<Lot>, f: Fill): (ts: seq<Trade>)
    ensures |ts| == |lots|
    ensures forall i :: 0 <= i < |ts| ==> ts[i] == CloseOne(lots[i], f)
  {
    seq(|lots|, i requires 0 <= i < |lots| => CloseOne(lots[i], f))
  }

  lemma PullOutOnly(lots: seq<Lot>, i: nat, s: Symbol)
    requires i < |lots| && i == FirstLot(lots, s)
    ensures Only(lots, s) == [lots[i]] + Only(Without(lots, i), s)
  {
    var pre, l, post := lots[..i], [lots[i]], lots[i + 1..];
    assert lots == pre + (l + post);
    NoneOf(pre, s);
    OnlySplits(pre, l + post, s);
    OnlySplits(l, post, s);
    OnlySplits(pre, post, s);
    assert l[1..] == [];
  }

  lemma PullOutExcept(lots: seq<Lot>, i: nat, s: Symbol)
    requires i < |lots| && i == FirstLot(lots, s)
    ensures Except(lots, s) == Except(Without(lots, i), s)
  {
    var pre, l, post := lots[..i], [lots[i]], lots[i + 1..];
    assert lots == pre + (l + post);
    ExceptSplits(pre, l + post, s);
    ExceptSplits(l, post, s);
    ExceptSplits(pre, post, s);
    assert l[1..] == [];
  }

  lemma PullOutShares(lots: seq<Lot>, i: nat, s: Symbol)
    requires i < |lots| && i == FirstLot(lots, s)
    ensures HeldShares(lots, s) == lots[i].quantity + HeldShares(Without(lots, i), s)
  {
    var pre, l, post := lots[..i], [lots[i]], lots[i + 1..];
    assert lots == pre + (l + post);
    HeldSplits(pre, l + post, s);
    HeldSplits(l, post, s);
    HeldSplits(pre, post, s);
    assert l[..0] == [];
  }

  lemma PositionEmpty(lots: seq<Lot>, s: Symbol)
    requires FirstLot(lots, s) == |lots|
    ensures HeldShares(lots, s) == 0.0 && Except(lots, s) == lots && Only(lots, s) == []
  {
    NoneOf(lots, s);
  }

  lemma PositionShrinks(lots: seq<Lot>, s: Symbol, i: nat)
    requires Positive(lots) && i == FirstLot(lots, s) < |lots|
    ensures 0.0 < lots[i].quantity <= HeldShares(lots, s)
    ensures HeldShares(lots, s) - lots[i].quantity == HeldShares(Without(lots, i), s)
    ensures Positive(Without(lots, i))
    ensures Only(lots, s) == [lots[i]] + Only(Without(lots, i), s)
    ensures Except(lots, s) == Except(Without(lots, i), s)
  {
    assert forall l :: l in Without(lots, i) ==> l in lots;
    assert lots[i] in lots;
    PullOutOnly(lots, i, s);
    PullOutExcept(lots, i, s);
    PullOutShares(lots, i, s);
    HeldNonNegative(Without(lots, i), s);
  }

  lemma CloseEachFirst(trades: seq<Trade>, lot: Lot, rest: seq<Lot>, f: Fill)
    ensures trades + [CloseOne(lot, f)] + CloseEach(rest, f) == trades + CloseEach([lot] + rest, f)
  {
  }

  /** An exit sized to the whole position closes exactly that symbol's lots, in order, and never splits one. */
  lemma {:induction false} ExitClosesPosition(order: Candidate, f: Fill, lots: seq<Lot>, trades: seq<Trade>, remaining: real)
    requires order.rule == f.rule && Positive(lots) && remaining == HeldShares(lots, order.symbol)
    ensures CloseLots(order, f.price, f.barTime, f.dayIndex, lots, trades, remaining)
            == Success((Except(lots, order.symbol), trades + CloseEach(Only(lots, order.symbol), f)))
    decreases |lots|
  {
    var i := FirstLot(lots, order.symbol);
    if i == |lots| {
      PositionEmpty(lots, order.symbol);
      assert trades + CloseEach([], f) == trades;
    } else {
      PositionShrinks(lots, order.symbol, i);
      var rest := Without(lots, i);
      ExitClosesPosition(order, f, rest, trades + [CloseOne(lots[i], f)], remaining - lots[i].quantity);
      CloseEachFirst(trades, lots[i], Only(rest, order.symbol), f);
    }
  }

  lemma {:induction false} OnlyAndExcept(lots: seq<Lot>, s: Symbol)
    ensures |Only(lots, s)| + |Except(lots, s)| == |lots|
    ensures forall l :: l in Only(lots, s) <==> l in lots && l.symbol == s
    ensures forall l :: l in Except(lots, s) <==> l in lots && l.symbol != s
    ensures HeldShares(Except(lots, s), s) == 0.0
    ensures forall o :: o != s ==> HeldShares(Except(lots, s), o) == HeldShares(lots, o)
  {
    if lots == [] {
    } else {
      var rest := lots[1..];
      OnlyAndExcept(rest, s);
      assert lots == [lots[0]] + rest;
      forall o ensures HeldShares(lots, o) == HeldShares([lots[0]], o) + HeldShares(rest, o) {
        HeldSplits([lots[0]], rest, o);
      }
      assert [lots[0]][..0] == [];
      if lots[0].symbol == s {
        assert Except(lots, s) == Except(rest, s);
        assert forall o :: o != s ==> HeldShares([lots[0]], o) == 0.0;
      } else {
        assert HeldShares([lots[0]], s) == 0.0;
        assert Except(lots, s) == [lots[0]] + Except(rest, s);
        forall o ensures HeldShares(Except(lots, s), o) == HeldShares([lots[0]], o) + HeldShares(Except(rest, s), o) {
          HeldSplits([lots[0]], Except(rest, s), o);
        }
      }
    }
  }

  // ---- Counting open trades by day ----------------------------------------------

  predicate OpenOn(tr: Trade, t: int) {
    tr.entryBarTime <= t && (tr.exit == None || tr.exit.value.barTime > t)
  }

  function One(b: bool): nat {
    if b then 1 else 0
  }

  function CountOpen(trades: seq<Trade>, t: int): nat {
    if trades == [] then 0 else One(OpenOn(trades[0], t)) + CountOpen(trades[1..], t)
  }

  function CountEntered(lots: seq<Lot>, t: int): nat {
    if lots == [] then 0 else One(lots[0].entryBarTime <= t) + CountEntered(lots[1..], t)
  }

  lemma {:induction false} CountSplits(a: seq<Trade>, b: seq<Trade>, t: int)
    ensures CountOpen(a + b, t) == CountOpen(a, t) + CountOpen(b, t)
  {
    if a == [] {
      assert a + b == b;
    } else {
      CountSplits(a[1..], b, t);
      assert (a + b)[0] == a[0] && (a + b)[1..] == a[1..] + b;
    }
  }

  lemma {:induction false} EnteredSplits(a: seq<Lot>, b: seq<Lot>, t: int)
    ensures CountEntered(a + b, t) == CountEntered(a, t) + CountEntered(b, t)
  {
    if a == [] {
      assert a + b == b;
    } else {
      EnteredSplits(a[1..], b, t);
      assert (a + b)[0] == a[0] && (a + b)[1..] == a[1..] + b;
    }
  }

  lemma CountWithout(ys: seq<Trade>, i: nat, t: int)
    requires i < |ys|
    ensures CountOpen(ys, t) == One(OpenOn(ys[i], t)) + CountOpen(ys[..i] + ys[i + 1..], t)
    ensures multiset(ys[..i] + ys[i + 1..]) == multiset(ys) - multiset{ys[i]}
  {
    var pre, x, post := ys[..i], [ys[i]], ys[i + 1..];
    assert ys == pre + (x + post);
    CountSplits(pre, x + post, t);
    CountSplits(x, post, t);
    CountSplits(pre, post, t);
    assert x[1..] == [];
  }

  lemma {:induction false} CountPermutes(xs: seq<Trade>, ys: seq<Trade>, t: int)
    requires multiset(xs) == multiset(ys)
    ensures CountOpen(xs, t) == CountOpen(ys, t)
  {
    hide OpenOn;
    assert |xs| == |multiset(xs)| == |multiset(ys)| == |ys|;
    if xs == [] {
    } else {
      assert xs[0] in multiset(ys);
      var i :| 0 <= i < |ys| && ys[i] == xs[0];
      CountWithout(ys, i, t);
      CountWithout(xs, 0, t);
      assert xs[..0] + xs[1..] == xs[1..];
      CountPermutes(xs[1..], ys[..i] + ys[i + 1..], t);
    }
  }

  lemma {:induction false} CountAll(ts: seq<Trade>, t: int)
    requires forall tr :: tr in ts ==> !OpenOn(tr, t)
    ensures CountOpen(ts, t) == 0
  {
    if ts == [] {
    } else {
      CountAll(ts[1..], t);
    }
  }

  lemma {:induction false} EnteredAll(lots: seq<Lot>, t: int)
    requires forall l :: l in lots ==> l.entryBarTime <= t
    ensures CountEntered(lots, t) == |lots|
  {
    if lots == [] {
    } else {
      EnteredAll(lots[1..], t);
    }
  }

  lemma {:induction false} OpenTradesCount(lots: seq<Lot>, t: int)
    ensures CountOpen(OpenTrades(lots), t) == CountEntered(lots, t)
  {
    if lots == [] {
    } else {
      OpenTradesCount(lots[1..], t);
      assert OpenTrades(lots)[1..] == OpenTrades(lots[1..]);
    }
  }

  lemma {:induction false} ClosedLaterCount(lots: seq<Lot>, f: Fill, t: int)
    requires t < f.barTime
    ensures CountOpen(CloseEach(lots, f), t) == CountEntered(lots, t)
  {
    if lots == [] {
    } else {
      ClosedLaterCount(lots[1..], f, t);
      assert CloseEach(lots, f)[1..] == CloseEach(lots[1..], f);
    }
  }

  lemma {:induction false} EnteredPartition(lots: seq<Lot>, s: Symbol, t: int)
    ensures CountEntered(lots, t) == CountEntered(Except(lots, s), t) + CountEntered(Only(lots, s), t)
  {
    if lots == [] {
    } else {
      EnteredPartition(lots[1..], s, t);
      if lots[0].symbol == s {
        assert Only(lots, s)[1..] == Only(lots[1..], s) && Except(lots, s) == Except(lots[1..], s);
      } else {
        assert Except(lots, s)[1..] == Except(lots[1..], s) && Only(lots, s) == Only(lots[1..], s);
      }
    }
  }

  /** Closing a lot on a later bar leaves it open on every earlier one. */
  lemma ClosingLaterKeepsCount(lots: seq<Lot>, s: Symbol, f: Fill, t: int)
    requires t < f.barTime
    ensures CountEntered(lots, t) == CountEntered(Except(lots, s), t) + CountOpen(CloseEach(Only(lots, s), f), t)
  {
    EnteredPartition(lots, s, t);
    ClosedLaterCount(Only(lots, s), f, t);
  }

  // ---- Distinct exits ---------------------------------------------------------------

  /** The (symbol, bar) pairs at which some trade was closed: one per filled sell. */
  function ExitPairs(trades: seq<Trade>): set<(Symbol, int)> {
    set tr | tr in trades && tr.exit.Some? :: (tr.symbol, tr.exit.value.barTime)
  }

  lemma ExitPairsGrow(trades: seq<Trade>, lots: seq<Lot>, s: Symbol, f: Fill)
    requires lots != [] && forall l :: l in lots ==> l.symbol == s
    ensures ExitPairs(trades + CloseEach(lots, f)) == ExitPairs(trades) + {(s, f.barTime)}
  {
    var closed, barTime := CloseEach(lots, f), f.barTime;
    forall tr | tr in closed ensures tr.exit.Some? && (tr.symbol, tr.exit.value.barTime) == (s, barTime) {
      var i :| 0 <= i < |closed| && closed[i] == tr;
      assert lots[i] in lots;
    }
    assert closed[0] in trades + closed;
    forall p | p in ExitPairs(trades) ensures p in ExitPairs(trades + closed) {
      var tr :| tr in trades && tr.exit.Some? && p == (tr.symbol, tr.exit.value.barTime);
      assert tr in trades + closed;
    }
    forall p | p in ExitPairs(trades + closed) ensures p in ExitPairs(trades) || p == (s, barTime) {
      var tr :| tr in trades + closed && tr.exit.Some? && p == (tr.symbol, tr.exit.value.barTime);
      assert tr in trades || tr in closed;
    }
  }

  // ---- The fill phase ------------------------------------------------------------------

  function SymbolKey(c: Candidate): Key {
    (c.symbol, 0)
  }

  /** One order per symbol, each for shares, and every sell for exactly the shares held. */
  ghost predicate QueueFits(lots: seq<Lot>, orders: seq<Candidate>) {
    && Ordering.DistinctKeys(orders, SymbolKey)
    && forall o :: o in orders ==>
         o.quantity > 0.0 && (o.side == Sell ==> o.quantity == HeldShares(lots, o.symbol))
  }

  /** What is true of the book on day `d` (at bar `t`) while `orders` are still to be filled. */
  ghost predicate BookSound(b: Book, orders: seq<Candidate>, timeline: seq<int>, d: nat)
    requires d < |timeline|
  {
    var t := timeline[d];
    && Positive(b.lots)
    && QueueFits(b.lots, orders)
    && (forall l :: l in b.lots ==> l.entryDayIndex <= d && l.entryBarTime == timeline[l.entryDayIndex])
    && (forall l, o :: l in b.lots && o in orders && l.symbol == o.symbol ==> l.entryDayIndex < d)
    && (forall tr :: tr in b.trades ==>
          tr.exit.Some? && tr.entryBarTime < tr.exit.value.barTime <= t && tr.exit.value.holdingBars >= 1)
    && (forall tr, o :: tr in b.trades && o in orders && tr.symbol == o.symbol ==> tr.exit.value.barTime < t)
  }

  /** Signals accounted for: unfilled, waiting, or turned into lots, trades and exits. */
  function Tally(b: Book, orders: seq<Candidate>): int {
    b.unfilled + |orders| + |b.lots| + |b.trades| + |ExitPairs(b.trades)|
  }

  function OpenCount(b: Book, t: int): nat {
    CountOpen(b.trades, t) + CountEntered(b.lots, t)
  }

  lemma QueueRest(lots: seq<Lot>, orders: seq<Candidate>)
    requires orders != [] && QueueFits(lots, orders)
    ensures forall o :: o in orders[1..] ==> o in orders && o.symbol != orders[0].symbol
    ensures Ordering.DistinctKeys(orders[1..], SymbolKey)
  {
    forall o | o in orders[1..] ensures o in orders && o.symbol != orders[0].symbol {
      var i :| 0 <= i < |orders[1..]| && orders[1..][i] == o;
      assert orders[i + 1] == o;
      assert SymbolKey(orders[0]) != SymbolKey(orders[i + 1]);
    }
    forall i, j | 0 <= i < j < |orders[1..]| ensures SymbolKey(orders[1..][i]) != SymbolKey(orders[1..][j]) {
      assert orders[1..][i] == orders[i + 1] && orders[1..][j] == orders[j + 1];
    }
  }

  lemma BuyKeepsBook(input: Input, b: Book, orders: seq<Candidate>, timeline: seq<int>, d: nat)
    requires d < |timeline| && orders != [] && BookSound(b, orders, timeline, d) && orders[0].side == Buy
    requires BarAt(BarsOf(input, orders[0].symbol), timeline[d]).Some?
    ensures var r := FillOne(input, b, orders[0], timeline[d], d);
            r.Success? && BookSound(r.value, orders[1..], timeline, d)
            && Tally(r.value, orders[1..]) == Tally(b, orders)
            && forall t :: t < timeline[d] ==> OpenCount(r.value, t) == OpenCount(b, t)
  {
    QueueRest(b.lots, orders);
    var b' := FillOne(input, b, orders[0], timeline[d], d).value;
    var lot := b'.lots[|b.lots|];
    assert b'.lots == b.lots + [lot];
    forall o | o in orders[1..] ensures HeldShares(b'.lots, o.symbol) == HeldShares(b.lots, o.symbol) {
      assert b'.lots[..|b.lots|] == b.lots;
    }
    forall t | t < timeline[d] ensures OpenCount(b', t) == OpenCount(b, t) {
      EnteredSplits(b.lots, [lot], t);
      assert [lot][1..] == [];
    }
  }

  lemma ClosedShape(b: Book, orders: seq<Candidate>, timeline: seq<int>, d: nat, f: Fill)
    requires d < |timeline| && AscendingInts.StrictlyAscending(timeline)
    requires orders != [] && BookSound(b, orders, timeline, d) && f.barTime == timeline[d] && f.dayIndex == d
    ensures forall tr :: tr in CloseEach(Only(b.lots, orders[0].symbol), f) ==>
              tr.exit.Some? && tr.entryBarTime < tr.exit.value.barTime == timeline[d]
              && tr.exit.value.holdingBars >= 1 && tr.symbol == orders[0].symbol
  {
    var gone := Only(b.lots, orders[0].symbol);
    OnlyAndExcept(b.lots, orders[0].symbol);
    assert orders[0] in orders;
    forall i | 0 <= i < |gone|
      ensures gone[i].symbol == orders[0].symbol && gone[i].entryDayIndex < d && gone[i].entryBarTime < timeline[d] {
      assert gone[i] in gone;
    }
  }

  /** A sell for the whole position, executed: what is gone, what stays, what it became. */
  lemma SellResult(input: Input, b: Book, orders: seq<Candidate>, timeline: seq<int>, d: nat) returns (b': Book, f: Fill)
    requires d < |timeline|
    requires orders != [] && BookSound(b, orders, timeline, d) && orders[0].side == Sell
    requires BarAt(BarsOf(input, orders[0].symbol), timeline[d]).Some?
    ensures f.barTime == timeline[d] && f.dayIndex == d
    ensures FillOne(input, b, orders[0], timeline[d], d) == Success(b')
    ensures b' == b.(lots := Except(b.lots, orders[0].symbol),
                     trades := b.trades + CloseEach(Only(b.lots, orders[0].symbol), f))
    ensures Only(b.lots, orders[0].symbol) != []
  {
    var o := orders[0];
    f := Fill(o.rule, ApplySlippage(BarAt(BarsOf(input, o.symbol), timeline[d]).value.open, o.side, input.slippageBps),
              timeline[d], d);
    assert o in orders;
    ExitClosesPosition(o, f, b.lots, b.trades, o.quantity);
    b' := b.(lots := Except(b.lots, o.symbol), trades := b.trades + CloseEach(Only(b.lots, o.symbol), f));
    HeldSome(b.lots, o.symbol);
  }

  lemma HeldSome(lots: seq<Lot>, s: Symbol)
    requires Positive(lots) && HeldShares(lots, s) > 0.0
    ensures Only(lots, s) != []
  {
    HeldNonNegative(lots, s);
    OnlyAndExcept(lots, s);
    var l :| l in lots && l.symbol == s;
    assert l in Only(lots, s);
  }

  lemma SellKeepsBook(input: Input, b: Book, orders: seq<Candidate>, timeline: seq<int>, d: nat)
    requires d < |timeline| && AscendingInts.StrictlyAscending(timeline)
    requires orders != [] && BookSound(b, orders, timeline, d) && orders[0].side == Sell
    requires BarAt(BarsOf(input, orders[0].symbol), timeline[d]).Some?
    ensures var r := FillOne(input, b, orders[0], timeline[d], d);
            r.Success? && BookSound(r.value, orders[1..], timeline, d)
            && Tally(r.value, orders[1..]) == Tally(b, orders)
            && (forall t :: t < timeline[d] ==> OpenCount(r.value, t) == OpenCount(b, t))
  {
    var b', f := SellResult(input, b, orders, timeline, d);
    var s, t := orders[0].symbol, timeline[d];
    var closed := CloseEach(Only(b.lots, s), f);
    OnlyAndExcept(b.lots, s);
    ClosedShape(b, orders, timeline, d, f);
    SellKeepsSound(b, b', closed, orders, timeline, d);
    ExitPairsGrow(b.trades, Only(b.lots, s), s, f);
    FreshPair(b, orders, timeline, d);
    forall u | u < t ensures OpenCount(b', u) == OpenCount(b, u) {
      ClosingLaterKeepsCount(b.lots, s, f, u);
      CountSplits(b.trades, closed, u);
    }
  }

  lemma SellKeepsSound(b: Book, b': Book, closed: seq<Trade>, orders: seq<Candidate>, timeline: seq<int>, d: nat)
    requires d < |timeline| && orders != [] && BookSound(b, orders, timeline, d)
    requires b' == b.(lots := Except(b.lots, orders[0].symbol), trades := b.trades + closed)
    requires forall tr :: tr in closed ==>
               tr.exit.Some? && tr.entryBarTime < tr.exit.value.barTime == timeline[d]
               && tr.exit.value.holdingBars >= 1 && tr.symbol == orders[0].symbol
    ensures BookSound(b', orders[1..], timeline, d)
  {
    QueueRest(b.lots, orders);
    OnlyAndExcept(b.lots, orders[0].symbol);
    assert QueueFits(b'.lots, orders[1..]);
    assert forall tr :: tr in b'.trades ==> tr in b.trades || tr in closed;
  }

  lemma FreshPair(b: Book, orders: seq<Candidate>, timeline: seq<int>, d: nat)
    requires d < |timeline| && orders != [] && BookSound(b, orders, timeline, d)
    ensures (orders[0].symbol, timeline[d]) !in ExitPairs(b.trades)
  {
    assert orders[0] in orders;
  }

  /** Filling a well-formed queue never splits a lot, and every order ends up accounted for. */
  lemma {:induction false} FillKeepsBook(input: Input, b: Book, orders: seq<Candidate>, timeline: seq<int>, d: nat)
    requires d < |timeline| && AscendingInts.StrictlyAscending(timeline)
    requires BookSound(b, orders, timeline, d)
    ensures var r := FillAll(input, b, orders, timeline[d], d);
            r.Success? && BookSound(r.value, [], timeline, d) && Tally(r.value, []) == Tally(b, orders)
            && forall t :: t < timeline[d] ==> OpenCount(r.value, t) == OpenCount(b, t)
    decreases |orders|
  {
    if orders == [] {
    } else {
      QueueRest(b.lots, orders);
      if BarAt(BarsOf(input, orders[0].symbol), timeline[d]).None? {
        assert forall o :: o in orders[1..] ==> o in orders;
      } else if orders[0].side == Buy {
        BuyKeepsBook(input, b, orders, timeline, d);
      } else {
        SellKeepsBook(input, b, orders, timeline, d);
      }
      FillKeepsBook(input, FillOne(input, b, orders[0], timeline[d], d).value, orders[1..], timeline, d);
    }
  }
}
