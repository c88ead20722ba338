/** What the risk gate guarantees, measured from scratch rather than by its own running counters. */
module RiskLaws {
  import opened Prelude
  import opened Money
  import opened Strategy
  import opened Risk
  import Ordering

  /** Cents committed by the buys among `cs`. */
  function BuyCents(inputs: RiskInputs, cs: seq<Candidate>): int {
    if cs == [] then 0
    else
      BuyCents(inputs, cs[..|cs| - 1])
      + if cs[|cs| - 1].side == Buy then CandidateCents(inputs, cs[|cs| - 1]) else 0
  }

  /** Cents committed to one symbol by the buys among `cs`. */
  function BuyCentsIn(inputs: RiskInputs, cs: seq<Candidate>, s: Symbol): int {
    if cs == [] then 0
    else
      BuyCentsIn(inputs, cs[..|cs| - 1], s)
      + if cs[|cs| - 1].side == Buy && cs[|cs| - 1].symbol == s then CandidateCents(inputs, cs[|cs| - 1]) else 0
  }

  function ExposureAfter(inputs: RiskInputs, accepted: seq<Candidate>): int {
    CommittedAtStart(inputs) + BuyCents(inputs, accepted)
  }

  function PositionAfter(inputs: RiskInputs, accepted: seq<Candidate>, s: Symbol): int {
    Lookup(PositionCents(inputs.positions, inputs.prices), s, 0) + BuyCentsIn(inputs, accepted, s)
  }

  function Refused(rejected: seq<Rejection>): (cs: seq<Candidate>)
    ensures |cs| == |rejected| && forall i :: 0 <= i < |cs| ==> cs[i] == rejected[i].candidate
  {
    seq(|rejected|, i requires 0 <= i < |rejected| => rejected[i].candidate)
  }

  /** The running counters are sums over what has been accepted so far. */
  lemma {:induction false} CountersAreSums(inputs: RiskInputs, ordered: seq<Candidate>)
    ensures var g := Pass(inputs, ordered);
            && g.committed == ExposureAfter(inputs, g.decision.accepted)
            && g.acceptedToday == inputs.signalsToday + |g.decision.accepted|
            && forall s :: Lookup(g.positionCents, s, 0) == PositionAfter(inputs, g.decision.accepted, s)
  {
    if ordered == [] {
    } else {
      var front, c := ordered[..|ordered| - 1], ordered[|ordered| - 1];
      CountersAreSums(inputs, front);
      var g := Pass(inputs, front);
      assert (g.decision.accepted + [c])[..|g.decision.accepted|] == g.decision.accepted;
    }
  }

  /** A refusal for the named reason was true when `before` was what had been accepted. */
  ghost predicate Justified(inputs: RiskInputs, before: seq<Candidate>, c: Candidate, reason: Reason) {
    match reason
    case SymbolNotAllowlisted => c.symbol !in inputs.config.allowlist
    case NoPriceAvailable => c.symbol !in inputs.prices && c.referenceClose == None
    case SellWithoutPosition => c.side == Sell && Lookup(Sellable(inputs.positions), c.symbol, 0.0) < c.quantity
    case DailyTradeCap => inputs.signalsToday + |before| >= inputs.config.maxDailyTrades
    case PositionSizeCap => c.side == Buy && PositionAfter(inputs, before + [c], c.symbol) > inputs.config.maxPositionCents
    case TotalExposureCap => c.side == Buy && ExposureAfter(inputs, before + [c]) > inputs.config.maxTotalExposureCents
  }

  ghost predicate Admissible(inputs: RiskInputs, before: seq<Candidate>, c: Candidate) {
    forall reason :: !Justified(inputs, before, c, reason)
  }

  lemma CountersWithOneMore(inputs: RiskInputs, ordered: seq<Candidate>, c: Candidate)
    ensures var g := Pass(inputs, ordered); var before := g.decision.accepted;
            && g.acceptedToday == inputs.signalsToday + |before|
            && ExposureAfter(inputs, before + [c]) == g.committed + (if c.side == Buy then CandidateCents(inputs, c) else 0)
            && (c.side == Buy ==>
                  PositionAfter(inputs, before + [c], c.symbol) == Lookup(g.positionCents, c.symbol, 0) + CandidateCents(inputs, c))
  {
    CountersAreSums(inputs, ordered);
    var before := Pass(inputs, ordered).decision.accepted;
    assert (before + [c])[..|before|] == before;
  }

  /** The order in which the reasons are looked for. */
  function CheckedAs(reason: Reason): nat {
    match reason
    case SymbolNotAllowlisted => 0
    case NoPriceAvailable => 1
    case SellWithoutPosition => 2
    case DailyTradeCap => 3
    case PositionSizeCap => 4
    case TotalExposureCap => 5
  }

  /** At its turn a candidate is refused for the first reason that holds, or accepted when none does. */
  lemma VerdictIsJustified(inputs: RiskInputs, ordered: seq<Candidate>, k: nat)
    requires k < |ordered|
    ensures var g := Pass(inputs, ordered[..k]); var before := g.decision.accepted;
            var v := Verdict(inputs, g, ordered[k]);
            && (v == None <==> Admissible(inputs, before, ordered[k]))
            && (v.Some? ==> Justified(inputs, before, ordered[k], v.value))
            && (v.Some? ==> forall sooner :: CheckedAs(sooner) < CheckedAs(v.value) ==> !Justified(inputs, before, ordered[k], sooner))
  {
    hide Pass, PositionAfter, ExposureAfter, Sellable, CandidateCents;
    var g, c := Pass(inputs, ordered[..k]), ordered[k];
    var before := g.decision.accepted;
    CountersWithOneMore(inputs, ordered[..k], c);
    var v := Verdict(inputs, g, c);
    if v.Some? {
      assert Justified(inputs, before, c, v.value);
      forall sooner | CheckedAs(sooner) < CheckedAs(v.value) ensures !Justified(inputs, before, c, sooner) {
        match sooner
        case SymbolNotAllowlisted =>
        case NoPriceAvailable =>
        case SellWithoutPosition =>
        case DailyTradeCap =>
        case PositionSizeCap =>
        case TotalExposureCap =>
      }
    } else {
      forall reason ensures !Justified(inputs, before, c, reason) {
        match reason
        case SymbolNotAllowlisted =>
        case NoPriceAvailable =>
        case SellWithoutPosition =>
        case DailyTradeCap =>
        case PositionSizeCap =>
        case TotalExposureCap =>
      }
    }
  }

  lemma {:induction false} PassPartitions(inputs: RiskInputs, ordered: seq<Candidate>)
    ensures var d := Pass(inputs, ordered).decision;
            multiset(d.accepted) + multiset(Refused(d.rejected)) == multiset(ordered)
  {
    if ordered == [] {
    } else {
      var front, c := ordered[..|ordered| - 1], ordered[|ordered| - 1];
      PassPartitions(inputs, front);
      assert ordered == front + [c];
      var d := Pass(inputs, front).decision;
      var after := Pass(inputs, ordered).decision;
      if |after.rejected| > |d.rejected| {
        assert Refused(after.rejected) == Refused(d.rejected) + [c];
      }
    }
  }

  /** Nothing is invented and nothing is lost: every candidate is accepted once or refused once. */
  lemma GatePartitions(inputs: RiskInputs, candidates: seq<Candidate>)
    ensures var d := Decide(inputs, candidates);
            multiset(d.accepted) + multiset(Refused(d.rejected)) == multiset(candidates)
  {
    Ordering.SortKeeps(candidates, CandidateKey);
    PassPartitions(inputs, Ordered(candidates));
  }

  ghost predicate WithinCaps(inputs: RiskInputs, accepted: seq<Candidate>) {
    && inputs.signalsToday + |accepted| <= Max(inputs.signalsToday, inputs.config.maxDailyTrades)
    && ((exists c :: c in accepted && c.side == Buy) ==>
          ExposureAfter(inputs, accepted) <= inputs.config.maxTotalExposureCents)
    && (forall c :: c in accepted && c.side == Buy ==>
          PositionAfter(inputs, accepted, c.symbol) <= inputs.config.maxPositionCents)
    && (forall c :: c in accepted ==> c.symbol in inputs.config.allowlist)
    && (forall c :: c in accepted && c.side == Sell ==> c.quantity <= Lookup(Sellable(inputs.positions), c.symbol, 0.0))
  }

  lemma {:induction false} PassWithinCaps(inputs: RiskInputs, ordered: seq<Candidate>)
    ensures WithinCaps(inputs, Pass(inputs, ordered).decision.accepted)
  {
    if ordered == [] {
    } else {
      var front, c := ordered[..|ordered| - 1], ordered[|ordered| - 1];
      PassWithinCaps(inputs, front);
      CountersAreSums(inputs, front);
      CountersAreSums(inputs, ordered);
      var before, after := Pass(inputs, front).decision.accepted, Pass(inputs, ordered).decision.accepted;
      if after != before {
        assert after == before + [c] && after[..|before|] == before;
        if c.side == Sell {
          assert ExposureAfter(inputs, after) == ExposureAfter(inputs, before);
          forall d | d in after && d.side == Buy
            ensures d in before && PositionAfter(inputs, after, d.symbol) == PositionAfter(inputs, before, d.symbol) {
          }
        } else {
          forall d | d in after && d.side == Buy
            ensures PositionAfter(inputs, after, d.symbol) <= inputs.config.maxPositionCents {
            if d.symbol != c.symbol {
              assert d in before;
              assert PositionAfter(inputs, after, d.symbol) == PositionAfter(inputs, before, d.symbol);
            }
          }
        }
      }
    }
  }

  /** Whatever was proposed, what the gate lets through fits every cap at once. */
  lemma GateWithinCaps(inputs: RiskInputs, candidates: seq<Candidate>)
    ensures WithinCaps(inputs, Decide(inputs, candidates).accepted)
  {
    PassWithinCaps(inputs, Ordered(candidates));
  }

  /** The order candidates arrive in is irrelevant when those that share a symbol and a rule are equal. */
  lemma GateForgetsOrder(inputs: RiskInputs, cs: seq<Candidate>, ds: seq<Candidate>)
    requires multiset(cs) == multiset(ds) && Ordering.KeysIdentify(cs, CandidateKey)
    ensures Decide(inputs, cs) == Decide(inputs, ds)
  {
    Ordering.SortForgetsOrder(cs, ds, CandidateKey);
  }

  // ---- Whose turn it is -----------------------------------------------------------------------

  /** The rules' names in the program. */
  function NameOf(r: Rule): string {
    match r
    case RsiOversold => "rsi_oversold"
    case MacdBullishCross => "macd_bullish_cross"
    case RsiOverbought => "rsi_overbought"
    case MacdBearishCross => "macd_bearish_cross"
    case MaxHoldingPeriod => "max_holding_period"
  }

  /** One text comes before another. */
  predicate Before(a: string, b: string) {
    b != [] && (a == [] || a[0] < b[0] || (a[0] == b[0] && Before(a[1..], b[1..])))
  }

  lemma FirstLetters(a: string, b: string, n: nat)
    requires n < |a| && n < |b| && a[..n] == b[..n] && a[n] < b[n]
    ensures Before(a, b) && !Before(b, a)
  {
    if n > 0 {
      assert a[0] == a[..n][0] && b[0] == b[..n][0];
      assert a[1..][..n - 1] == a[..n][1..] && b[1..][..n - 1] == b[..n][1..];
      FirstLetters(a[1..], b[1..], n - 1);
    }
  }

  lemma {:induction false} NotBeforeItself(a: string)
    ensures !Before(a, a)
  {
    if a != [] { NotBeforeItself(a[1..]); }
  }

  lemma CrossesInOrder()
    ensures Before("macd_bearish_cross", "macd_bullish_cross") && !Before("macd_bullish_cross", "macd_bearish_cross")
  {
    FirstLetters("macd_bearish_cross", "macd_bullish_cross", 6);
  }

  lemma LevelsInOrder()
    ensures Before("rsi_overbought", "rsi_oversold") && !Before("rsi_oversold", "rsi_overbought")
  {
    FirstLetters("rsi_overbought", "rsi_oversold", 8);
  }

  lemma CrossesBeforeHolding(r: Rule)
    requires r == MacdBearishCross || r == MacdBullishCross
    ensures Before(NameOf(r), "max_holding_period") && !Before("max_holding_period", NameOf(r))
  {
    FirstLetters(NameOf(r), "max_holding_period", 2);
  }

  lemma LevelsLast(r: Rule, q: Rule)
    requires r != RsiOverbought && r != RsiOversold && (q == RsiOverbought || q == RsiOversold)
    ensures Before(NameOf(r), NameOf(q)) && !Before(NameOf(q), NameOf(r))
  {
    FirstLetters(NameOf(r), NameOf(q), 0);
  }

  lemma RanksInOrder(r: Rule, q: Rule)
    requires RuleRank(r) < RuleRank(q)
    ensures Before(NameOf(r), NameOf(q)) && !Before(NameOf(q), NameOf(r))
  {
    hide Before;
    CrossesInOrder();
    LevelsInOrder();
    if q == MaxHoldingPeriod {
      CrossesBeforeHolding(r);
    } else if r != RsiOverbought && q != MacdBullishCross {
      LevelsLast(r, q);
    }
  }

  /** Within a symbol the rules take their turns in the order of their names. */
  lemma RanksFollowNames(r: Rule, q: Rule)
    ensures RuleRank(r) < RuleRank(q) <==> Before(NameOf(r), NameOf(q))
  {
    hide Before;
    NotBeforeItself(NameOf(r));
    if RuleRank(r) < RuleRank(q) { RanksInOrder(r, q); }
    if RuleRank(q) < RuleRank(r) { RanksInOrder(q, r); }
  }

  lemma {:induction false} PassInTurn(inputs: RiskInputs, ordered: seq<Candidate>)
    requires Ordering.Ascending(ordered, CandidateKey)
    ensures var d := Pass(inputs, ordered).decision;
            Ordering.Ascending(d.accepted, CandidateKey) && forall c :: c in d.accepted ==> c in ordered
  {
    hide Verdict, CandidateKey;
    if ordered != [] {
      var front, c := ordered[..|ordered| - 1], ordered[|ordered| - 1];
      assert ordered == front + [c];
      PassInTurn(inputs, front);
      var before := Pass(inputs, front).decision.accepted;
      forall i | 0 <= i < |before| ensures !KeyLess(CandidateKey(c), CandidateKey(before[i])) {
        assert before[i] in front;
        var k :| 0 <= k < |front| && front[k] == before[i];
        assert ordered[k] == before[i];
      }
    }
  }

  /** What the gate accepts it accepts symbol by symbol, and within a symbol in the order of the rules' names. */
  lemma AcceptedInTurn(inputs: RiskInputs, candidates: seq<Candidate>, i: nat, j: nat)
    requires i < j < |Decide(inputs, candidates).accepted|
    ensures var c, d := Decide(inputs, candidates).accepted[i], Decide(inputs, candidates).accepted[j];
            c.symbol < d.symbol || (c.symbol == d.symbol && !Before(NameOf(d.rule), NameOf(c.rule)))
  {
    hide Pass, Before;
    Ordering.SortKeeps(candidates, CandidateKey);
    PassInTurn(inputs, Ordered(candidates));
    var accepted := Decide(inputs, candidates).accepted;
    assert !KeyLess(CandidateKey(accepted[j]), CandidateKey(accepted[i]));
    RanksFollowNames(accepted[j].rule, accepted[i].rule);
  }

  // ---- Where order matters --------------------------------------------------------------------

  /** However the candidates arrive, and whatever the account, the same ones are accepted. */
  ghost predicate OrderNeverMatters(cs: seq<Candidate>) {
    forall inputs, ds :: multiset(ds) == multiset(cs) ==>
      multiset(Decide(inputs, ds).accepted) == multiset(Decide(inputs, cs).accepted)
  }

  function Most(cs: seq<Candidate>): (q: real)
    ensures forall c :: c in cs ==> c.quantity <= q
  {
    if cs == [] then 0.0
    else
      var rest, last := Most(cs[..|cs| - 1]), cs[|cs| - 1].quantity;
      assert cs == cs[..|cs| - 1] + [cs[|cs| - 1]];
      if rest >= last then rest else last
  }

  function Holding(cs: seq<Candidate>, shares: real): (ps: seq<Position>)
    ensures |ps| == |cs| && forall i :: 0 <= i < |cs| ==> ps[i] == Position(cs[i].symbol, 0.0, shares)
  {
    seq(|cs|, i requires 0 <= i < |cs| => Position(cs[i].symbol, 0.0, shares))
  }

  /** An account nothing but the daily cap stands against: free shares, and enough of every symbol to sell. */
  function OnlyDailyCap(cs: seq<Candidate>, cap: nat): RiskInputs {
    RiskInputs(Holding(cs, Most(cs)), map c | c in cs :: c.symbol := 0.0, [], 0, RiskConfig(set c | c in cs :: c.symbol, 0, cap, 0))
  }

  lemma {:induction false} EnoughToSell(ps: seq<Position>, s: Symbol, shares: real)
    requires forall i :: 0 <= i < |ps| ==> ps[i].sellable == shares
    ensures (exists i :: 0 <= i < |ps| && ps[i].symbol == s) ==> Lookup(Sellable(ps), s, 0.0) == shares
    ensures s in Sellable(ps) ==> Sellable(ps)[s] == shares
  {
    if ps != [] { EnoughToSell(ps[..|ps| - 1], s, shares); }
  }

  lemma {:induction false} FreeHoldings(hs: seq<Holding>, prices: map<Symbol, real>)
    requires forall s :: s in prices ==> prices[s] == 0.0
    ensures SumExposure(hs, prices) == 0
  {
    if hs != [] {
      FreeHoldings(hs[..|hs| - 1], prices);
      FreeCents(hs[|hs| - 1].quantity);
    }
  }

  lemma FreeCents(q: real)
    ensures NotionalCents(q, 0.0) == 0
  {
    RoundWhole(0);
  }

  lemma {:induction false} FreePositions(ps: seq<Position>, prices: map<Symbol, real>)
    requires forall s :: s in prices ==> prices[s] == 0.0
    ensures forall s :: Lookup(PositionCents(ps, prices), s, 0) == 0
  {
    if ps != [] {
      hide NotionalCents;
      var p := ps[|ps| - 1];
      FreePositions(ps[..|ps| - 1], prices);
      FreeCents(p.quantity);
      forall s ensures Lookup(PositionCents(ps, prices), s, 0) == 0 {
        assert Lookup(PositionCents(ps[..|ps| - 1], prices), s, 0) == 0;
      }
    }
  }

  /** The gate before the cap is reached: everything so far accepted, nothing committed. */
  ghost predicate AllThrough(g: Gate, taken: seq<Candidate>) {
    g.committed == 0 && g.acceptedToday == |taken| && g.decision.accepted == taken && forall s :: Lookup(g.positionCents, s, 0) == 0
  }

  lemma OneThrough(cs: seq<Candidate>, cap: nat, g: Gate, taken: seq<Candidate>, c: Candidate)
    requires AllThrough(g, taken) && c in cs
    ensures var g' := Consider(OnlyDailyCap(cs, cap), g, c);
            if |taken| < cap then AllThrough(g', taken + [c]) else AllThrough(g', taken)
  {
    hide Most, NotionalCents, Sellable;
    var inputs := OnlyDailyCap(cs, cap);
    FreeCents(c.quantity);
    var i :| 0 <= i < |cs| && cs[i] == c;
    assert inputs.positions[i].symbol == c.symbol;
    EnoughToSell(inputs.positions, c.symbol, Most(cs));
    assert c.symbol in inputs.prices && inputs.prices[c.symbol] == 0.0;
    assert CandidateCents(inputs, c) == 0 && Lookup(g.positionCents, c.symbol, 0) == 0;
    assert c.symbol in inputs.config.allowlist;
    assert Verdict(inputs, g, c) == if |taken| < cap then None else Some(DailyTradeCap);
    var g' := Consider(inputs, g, c);
    forall s ensures Lookup(g'.positionCents, s, 0) == 0 {
      assert Lookup(g.positionCents, s, 0) == 0;
    }
  }

  /** With that account the gate accepts the first candidates in order, up to the cap. */
  lemma {:induction false} CapTakesTheFirst(cs: seq<Candidate>, cap: nat, ordered: seq<Candidate>)
    requires forall c :: c in ordered ==> c in cs
    ensures var n := if |ordered| <= cap then |ordered| else cap;
            AllThrough(Pass(OnlyDailyCap(cs, cap), ordered), ordered[..n])
  {
    hide AllThrough, Consider;
    if ordered == [] {
      FirstGate(cs, cap);
    } else {
      var front, c := ordered[..|ordered| - 1], ordered[|ordered| - 1];
      assert ordered == front + [c] && c in ordered;
      CapTakesTheFirst(cs, cap, front);
      var taken := front[..if |front| <= cap then |front| else cap];
      OneThrough(cs, cap, Pass(OnlyDailyCap(cs, cap), front), taken, c);
      if |front| < cap { assert taken == front && ordered[..|ordered|] == taken + [c]; } else { assert taken == ordered[..cap]; }
    }
  }

  lemma FirstGate(cs: seq<Candidate>, cap: nat)
    ensures AllThrough(Pass(OnlyDailyCap(cs, cap), []), [])
  {
    var inputs := OnlyDailyCap(cs, cap);
    FreeHoldings(HoldingsOf(inputs.positions), inputs.prices);
    FreeHoldings([], inputs.prices);
    FreePositions(inputs.positions, inputs.prices);
  }

  /** Where two arrangements first differ once sorted, a daily cap that ends there tells them apart. */
  lemma CapTellsApart(cs: seq<Candidate>, ds: seq<Candidate>, n: nat)
    requires multiset(cs) == multiset(ds) && n < |cs|
    requires |Ordered(cs)| == |Ordered(ds)| == |cs|
    requires Ordered(cs)[..n] == Ordered(ds)[..n] && Ordered(cs)[n] != Ordered(ds)[n]
    ensures var inputs := OnlyDailyCap(cs, n + 1);
            multiset(Decide(inputs, ds).accepted) != multiset(Decide(inputs, cs).accepted)
  {
    hide Ordered, Pass, OnlyDailyCap;
    var xs, ys := Ordered(cs), Ordered(ds);
    OrderedMembers(cs);
    OrderedMembers(ds);
    Ordering.SameMembers(cs, ds);
    CapTakesTheFirst(cs, n + 1, xs);
    CapTakesTheFirst(cs, n + 1, ys);
    assert xs[..n + 1] == xs[..n] + [xs[n]] && ys[..n + 1] == xs[..n] + [ys[n]];
    var head := multiset(xs[..n]);
    assert multiset(xs[..n + 1]) == head + multiset{xs[n]} && multiset(ys[..n + 1]) == head + multiset{ys[n]};
    assert (head + multiset{xs[n]})[xs[n]] == head[xs[n]] + 1;
    assert (head + multiset{ys[n]})[xs[n]] == head[xs[n]];
  }

  lemma OrderedMembers(cs: seq<Candidate>)
    ensures |Ordered(cs)| == |cs| && forall c :: c in Ordered(cs) <==> c in cs
  {
    Ordering.SortKeeps(cs, CandidateKey);
    Ordering.SameMembers(cs, Ordered(cs));
  }

  lemma {:induction false} FirstDifference(xs: seq<Candidate>, ys: seq<Candidate>) returns (n: nat)
    requires |xs| == |ys| && xs != ys
    ensures n < |xs| && xs[..n] == ys[..n] && xs[n] != ys[n]
  {
    n := 0;
    assert xs[..|xs|] == xs && ys[..|ys|] == ys;
    while n < |xs| && xs[n] == ys[n]
      invariant n <= |xs| && xs[..n] == ys[..n]
    {
      n := n + 1;
    }
  }

  /** Two different candidates of one symbol and rule: moved to the front, either changes the sorted order. */
  lemma MovedFirst(cs: seq<Candidate>, i: nat, j: nat) returns (ds: seq<Candidate>)
    requires i < |cs| && j < |cs| && CandidateKey(cs[i]) == CandidateKey(cs[j]) && cs[i] != cs[j]
    ensures multiset(ds) == multiset(cs) && Ordered(ds) != Ordered(cs)
  {
    var k := CandidateKey(cs[i]);
    var es := ToFront(cs, i);
    var fs := ToFront(cs, j);
    FrontOfKey(es, k);
    FrontOfKey(fs, k);
    Ordering.SortIsStable(cs, k, CandidateKey);
    Ordering.SortIsStable(es, k, CandidateKey);
    Ordering.SortIsStable(fs, k, CandidateKey);
    ds := if Ordered(es) != Ordered(cs) then es else fs;
  }

  lemma ToFront(cs: seq<Candidate>, i: nat) returns (ds: seq<Candidate>)
    requires i < |cs|
    ensures multiset(ds) == multiset(cs) && ds != [] && ds[0] == cs[i]
  {
    ds := [cs[i]] + (cs[..i] + cs[i + 1..]);
    assert cs == cs[..i] + [cs[i]] + cs[i + 1..];
  }

  lemma {:induction false} FrontOfKey(cs: seq<Candidate>, k: Key)
    requires cs != [] && CandidateKey(cs[0]) == k
    ensures Ordering.OfKey(cs, k, CandidateKey) != [] && Ordering.OfKey(cs, k, CandidateKey)[0] == cs[0]
  {
    var front := cs[..|cs| - 1];
    if |cs| > 1 {
      FrontOfKey(front, k);
    } else {
      assert Ordering.OfKey(front, k, CandidateKey) == [];
    }
  }

  /**
   * For `applyRiskCaps` on any list of candidates: order never matters, whatever the account, if and only if
   * candidates that share a symbol and a rule are equal. Any two that differ are told apart by a daily cap.
   */
  lemma OrderMattersIffKeysShared(cs: seq<Candidate>)
    ensures OrderNeverMatters(cs) <==> Ordering.KeysIdentify(cs, CandidateKey)
  {
    hide Decide;
    if Ordering.KeysIdentify(cs, CandidateKey) {
      forall inputs, ds | multiset(ds) == multiset(cs)
        ensures multiset(Decide(inputs, ds).accepted) == multiset(Decide(inputs, cs).accepted)
      {
        GateForgetsOrder(inputs, cs, ds);
      }
    } else {
      var i, j :| 0 <= i < |cs| && 0 <= j < |cs| && CandidateKey(cs[i]) == CandidateKey(cs[j]) && cs[i] != cs[j];
      var ds := MovedFirst(cs, i, j);
      assert |ds| == |multiset(ds)| == |cs|;
      OrderedMembers(cs);
      OrderedMembers(ds);
      var n := FirstDifference(Ordered(cs), Ordered(ds));
      CapTellsApart(cs, ds, n);
    }
  }

  /** For instance two that share both and swap outcomes. */
  lemma SharedKeyMatters()
    ensures exists inputs, a: Candidate, b: Candidate :: CandidateKey(a) == CandidateKey(b)
                && Decide(inputs, [a, b]) != Decide(inputs, [b, a])
  {
    var a := Candidate(0, Buy, 1.0, RsiOversold, 0, Some(1.0));
    var b := Candidate(0, Buy, 1.0, RsiOversold, 1, Some(1.0));
    var inputs := RiskInputs([], map[], [], 0, RiskConfig({0}, 1000, 1, 1000));
    RoundWhole(100);
    assert CandidateCents(inputs, a) == 100 && CandidateCents(inputs, b) == 100;
    FirstOfTwoWins(inputs, a, b);
    FirstOfTwoWins(inputs, b, a);
  }

  lemma FirstOfTwoWins(inputs: RiskInputs, a: Candidate, b: Candidate)
    requires CandidateKey(a) == CandidateKey(b) && inputs.positions == [] && inputs.pending == []
    requires inputs.signalsToday == 0 && inputs.config == RiskConfig({a.symbol}, 1000, 1, 1000)
    requires a.side == Buy && PriceFor(inputs, a).Some? && CandidateCents(inputs, a) == 100
    requires b.side == Buy && PriceFor(inputs, b).Some?
    ensures Decide(inputs, [a, b]).accepted == [a]
  {
    assert [a, b][..1] == [a] && [a][..0] == [];
    assert Ordering.Sort([a], CandidateKey) == [a];
    assert Ordered([a, b]) == [a, b];
    assert Pass(inputs, []) == Start(inputs);
    assert Pass(inputs, [a]).decision.accepted == [a];
  }
}
