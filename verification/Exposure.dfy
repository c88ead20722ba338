/**
 * Exposure over whole runs of the paper system at fixed whole-cent prices: pipeline runs, decisions,
 * expiries and mark runs, each as one step, in any order.
 */
module Exposure {
  import opened Prelude
  import opened Money
  import opened Ledger
  import opened Lots
  import opened LotsLaws
  import opened Sums
  import opened Strategy
  import opened Protocol
  import opened Brokerage
  import opened Executor
  import opened Decisions
  import opened Pipeline
  import opened Portfolio
  import Risk
  import RiskLaws

  datatype Setting = Setting(cents: map<Symbol, nat>, config: Risk.RiskConfig, slippageBps: int)

  datatype Step =
    | PipelineRuns(candidates: seq<Candidate>, out: Outside)
    | OwnerDecides(id: SignalId, req: Request, draw: Draw)
    | Expires(stale: seq<SignalId>)
    | MarksRun(quotes: map<Symbol, real>, rowIds: seq<RowId>)

  datatype State = State(desk: Desk, clock: int)

  function Prices(cents: map<Symbol, nat>): map<Symbol, real> {
    map s | s in cents :: cents[s] as real / 100.0
  }

  predicate WholeShares(q: real) {
    q >= 0.0 && Whole(q)
  }

  /** Time does not go back; the pipeline quotes the fixed prices, and asks for whole shares of priced symbols. */
  ghost predicate Enabled(e: Setting, s: State, step: Step, now: int) {
    && s.clock <= now
    && match step
       case PipelineRuns(candidates, out) =>
         && out.prices == Prices(e.cents) && out.mode == Paper && NewIds(s.desk.db, out.ids)
         && forall c :: c in candidates ==> c.symbol in e.cents && WholeShares(c.quantity)
       case OwnerDecides(_, _, draw) => DrawsEnough(draw)
       case Expires(stale) => true
       case MarksRun(_, rowIds) => |rowIds| == |ListOpenLots(s.desk.db)|
  }

  const NOBODY := Book(map[], map[])

  ghost function Next(e: Setting, s: State, step: Step, now: int): State
    requires Enabled(e, s, step, now)
  {
    var d := s.desk;
    match step
    case PipelineRuns(candidates, out) => State(Pipeline.Run(d, candidates, e.config, out, now), now)
    case OwnerDecides(id, req, draw) =>
      State(d.(db := Decide(d.db, NOBODY, id, req, Times(now, now, now), e.slippageBps, draw).0.db), now)
    case Expires(stale) => State(d.(db := ExpireAll(d.db, stale, now)), now)
    case MarksRun(quotes, rowIds) => State(d.(db := MarkLots(d.db, ListOpenLots(d.db), quotes, now, rowIds)), now)
  }

  ghost function RunSteps(e: Setting, clock: int, steps: seq<(Step, int)>): State {
    if |steps| == 0 then State(Desk(EMPTY, []), clock)
    else
      var s, last := RunSteps(e, clock, steps[..|steps| - 1]), steps[|steps| - 1];
      if Enabled(e, s, last.0, last.1) then Next(e, s, last.0, last.1) else s
  }

  // ---- What is at stake ---------------------------------------------------------------------

  /** An open lot, or a buy still waiting for a decision. */
  predicate AtStake(db: Tables, id: SignalId) {
    IsOpen(db, id) || (id in db.signals && db.signals[id].status == Pending && db.signals[id].side == Buy)
  }

  function Value(shares: real, cents: nat): real {
    shares * cents as real
  }

  function CentsOf(cents: map<Symbol, nat>, s: Signal): real {
    if s.symbol in cents then Value(s.quantity, cents[s.symbol]) else 0.0
  }

  function Stake(cents: map<Symbol, nat>, db: Tables): SignalId -> real {
    id => if AtStake(db, id) && id in db.signals then CentsOf(cents, db.signals[id]) else 0.0
  }

  /** Cents in open lots and pending buys, at the fixed prices. */
  function ExposureCents(cents: map<Symbol, nat>, d: Desk): real {
    Total(d.created, Stake(cents, d.db))
  }

  function CountOn(d: Desk, ids: seq<SignalId>, day: int): nat {
    if ids == [] then 0
    else
      var id := ids[|ids| - 1];
      CountOn(d, ids[..|ids| - 1], day) + if id in d.db.signals && Day(d.db.signals[id].createdAt) == day then 1 else 0
  }

  // ---- What every step keeps ------------------------------------------------------------------

  ghost predicate SignalsSound(e: Setting, s: State) {
    && Distinct(s.desk.created)
    && (forall id :: id in s.desk.created <==> id in s.desk.db.signals)
    && (forall id :: id in s.desk.db.signals ==>
          var g := s.desk.db.signals[id];
          g.symbol in e.cents && WholeShares(g.quantity) && g.mode == Paper && g.createdAt <= s.clock)
  }

  /** Lots have their signals' sizes; a signal not approved has none. */
  ghost predicate RowsSound(db: Tables) {
    forall r :: r in db.rows ==> r.signalId in db.signals && r.quantity == None && db.signals[r.signalId].status == Approved
  }

  ghost predicate Bounded(e: Setting, d: Desk) {
    && ExposureCents(e.cents, d) <= e.config.maxTotalExposureCents as real
    && forall day :: CountOn(d, d.created, day) <= e.config.maxDailyTrades
  }

  ghost predicate Sound(e: Setting, s: State) {
    SignalsSound(e, s) && RowsSound(s.desk.db) && Bounded(e, s.desk)
  }

  /** Between two states only statuses and rows differ, and nothing new is at stake. */
  ghost predicate NothingStaked(db: Tables, db': Tables) {
    && db'.signals.Keys == db.signals.Keys
    && (forall id :: id in db.signals ==>
          var g, g' := db.signals[id], db'.signals[id];
          g' == g.(status := g'.status, decidedAt := g'.decidedAt, published := g'.published, publishedAt := g'.publishedAt))
    && (forall id :: AtStake(db', id) ==> AtStake(db, id))
  }

  lemma {:induction false} TotalAtMost(ids: seq<SignalId>, f: SignalId -> real, g: SignalId -> real)
    requires forall id :: id in ids ==> f(id) <= g(id)
    ensures Total(ids, f) <= Total(ids, g)
  {
    if ids == [] {
    } else {
      var front, last := ids[..|ids| - 1], ids[|ids| - 1];
      assert ids == front + [last];
      TotalAtMost(front, f, g);
    }
  }

  lemma WorthNotNegative(q: real, cents: nat)
    requires q >= 0.0
    ensures Value(q, cents) >= 0.0
  {
  }

  lemma {:induction false} CountUnmoved(d: Desk, d': Desk, ids: seq<SignalId>, day: int)
    requires forall id :: id in ids ==> (id in d'.db.signals <==> id in d.db.signals)
    requires forall id :: id in d.db.signals && id in d'.db.signals ==> d'.db.signals[id].createdAt == d.db.signals[id].createdAt
    ensures CountOn(d', ids, day) == CountOn(d, ids, day)
  {
    if ids == [] {
    } else {
      var front, last := ids[..|ids| - 1], ids[|ids| - 1];
      assert ids == front + [last];
      CountUnmoved(d, d', front, day);
    }
  }

  /** Whatever symbols are counted, a step that stakes nothing raises no total. */
  lemma StakesShrink(e: Setting, s: State, db': Tables, cents: map<Symbol, nat>)
    requires SignalsSound(e, s) && NothingStaked(s.desk.db, db')
    ensures ExposureCents(cents, s.desk.(db := db')) <= ExposureCents(cents, s.desk)
  {
    hide AtStake, Value;
    var d := s.desk;
    forall id | id in d.created ensures Stake(cents, db')(id) <= Stake(cents, d.db)(id) {
      var g := d.db.signals[id];
      if g.symbol in cents { WorthNotNegative(g.quantity, cents[g.symbol]); }
    }
    TotalAtMost(d.created, Stake(cents, db'), Stake(cents, d.db));
  }

  /** A step that stakes nothing keeps the bounds. */
  lemma UnstakedKeeps(e: Setting, s: State, db': Tables, now: int)
    requires Sound(e, s) && s.clock <= now && NothingStaked(s.desk.db, db') && RowsSound(db')
    ensures Sound(e, State(s.desk.(db := db'), now))
  {
    hide AtStake, ExposureCents;
    var d, d' := s.desk, s.desk.(db := db');
    StakesShrink(e, s, db', e.cents);
    forall day ensures CountOn(d', d'.created, day) <= e.config.maxDailyTrades {
      CountUnmoved(d, d', d.created, day);
    }
  }

  // ---- Decisions, expiries and marks stake nothing -----------------------------------------------

  lemma UnstakedChains(a: Tables, b: Tables, c: Tables)
    requires NothingStaked(a, b) && NothingStaked(b, c)
    ensures NothingStaked(a, c)
  {
    hide AtStake;
  }

  lemma TransitionUnstaked(db: Tables, id: SignalId, to: Status, now: int)
    requires RowsSound(db) && Ledger.TransitionSignal(db, id, to, now).Some? && to != Pending && to != Approved
    ensures NothingStaked(db, Ledger.TransitionSignal(db, id, to, now).value) && RowsSound(Ledger.TransitionSignal(db, id, to, now).value)
  {
  }

  lemma {:induction false} ExpireUnstaked(db: Tables, stale: seq<SignalId>, now: int)
    requires RowsSound(db)
    ensures NothingStaked(db, ExpireAll(db, stale, now)) && RowsSound(ExpireAll(db, stale, now))
  {
    hide NothingStaked, RowsSound;
    if stale == [] {
      Same(db);
    } else {
      var front, last := stale[..|stale| - 1], stale[|stale| - 1];
      ExpireUnstaked(db, front, now);
      var before := ExpireAll(db, front, now);
      if Ledger.TransitionSignal(before, last, Expired, now).Some? {
        TransitionUnstaked(before, last, Expired, now);
        UnstakedChains(db, before, ExpireAll(db, stale, now));
      }
    }
  }

  lemma Same(db: Tables)
    ensures NothingStaked(db, db)
  {
  }

  /** A row for a lot already at stake. */
  lemma RowUnstaked(db: Tables, row: Row)
    requires RowsSound(db) && row.signalId in db.signals && row.quantity == None && db.signals[row.signalId].status == Approved
    requires row.status == Closed || IsOpen(db, row.signalId)
    ensures NothingStaked(db, AppendRow(db, row)) && RowsSound(AppendRow(db, row))
  {
    var db' := AppendRow(db, row);
    forall id | AtStake(db', id) ensures AtStake(db, id) {
      NewestAppend(db.rows, row, id);
    }
  }

  lemma NewestKnown(db: Tables, id: SignalId)
    requires RowsSound(db) && IsOpen(db, id)
    ensures Newest(db.rows, id).value.quantity == None && db.signals[id].status == Approved
  {
  }

  lemma {:induction false} CloseUnstaked(db: Tables, ids: seq<SignalId>, exit: real, closedBy: SignalId, now: int, rowIds: seq<RowId>)
    requires RowsSound(db) && |rowIds| == |ids| && CloseLots(db, ids, exit, closedBy, now, rowIds).Some?
    ensures var db' := CloseLots(db, ids, exit, closedBy, now, rowIds).value; NothingStaked(db, db') && RowsSound(db')
    decreases |ids|
  {
    hide NothingStaked, RowsSound;
    if ids == [] {
      Same(db);
    } else {
      var row := ClosingRow(db, ids[0], exit, closedBy, now, rowIds[0]).value;
      NewestKnown(db, ids[0]);
      RowUnstaked(db, row);
      CloseUnstaked(AppendRow(db, row), ids[1..], exit, closedBy, now, rowIds[1..]);
      UnstakedChains(db, AppendRow(db, row), CloseLots(db, ids, exit, closedBy, now, rowIds).value);
    }
  }

  lemma {:induction false} MarksUnstaked(db: Tables, lots: seq<OpenLot>, quotes: map<Symbol, real>, now: int, rowIds: seq<RowId>)
    requires RowsSound(db) && |rowIds| == |lots|
    requires forall l :: l in lots ==> IsOpen(db, l.signalId) && l == LotOf(db, l.signalId)
    ensures var db' := MarkLots(db, lots, quotes, now, rowIds);
            && NothingStaked(db, db') && RowsSound(db') && forall id :: IsOpen(db, id) ==> IsOpen(db', id)
  {
    hide NothingStaked, RowsSound, HasMarkForDay;
    if lots == [] {
      Same(db);
    } else {
      var n := |lots| - 1;
      var front, lot := lots[..n], lots[n];
      assert lots == front + [lot];
      MarksUnstaked(db, front, quotes, now, rowIds[..n]);
      var db1 := MarkLots(db, front, quotes, now, rowIds[..n]);
      if Marks(db1, lot, quotes, now) {
        var row := MarkRow(lot, quotes[lot.symbol], now, rowIds[n]);
        NewestKnown(db, lot.signalId);
        NewestKnown(db1, lot.signalId);
        RowUnstaked(db1, row);
        UnstakedChains(db, db1, AppendRow(db1, row));
        forall id | IsOpen(db, id) ensures IsOpen(AppendRow(db1, row), id) {
          NewestAppend(db1.rows, row, id);
        }
      }
    }
  }

  /** A decision turns a pending buy into a lot of the same size, or closes lots, or stakes nothing. */
  lemma DecisionUnstaked(db: Tables, id: SignalId, req: Request, now: int, bps: int, draw: Draw)
    requires RowsSound(db) && DrawsEnough(draw) && forall x :: x in db.signals ==> db.signals[x].mode == Paper
    ensures var db' := Decide(db, NOBODY, id, req, Times(now, now, now), bps, draw).0.db; NothingStaked(db, db') && RowsSound(db')
  {
    hide RowsSound, NothingStaked;
    Same(db);
    if id in db.signals && db.signals[id].status == Pending {
      if req.approve {
        ApprovalUnstaked(db, id, req.during, now, bps, draw);
      } else {
        TransitionUnstaked(db, id, Rejected, now);
      }
    }
  }

  lemma ApprovalUnstaked(db: Tables, id: SignalId, g: Gates, now: int, bps: int, draw: Draw)
    requires RowsSound(db) && DrawsEnough(draw) && id in db.signals && db.signals[id].status == Pending && db.signals[id].mode == Paper
    ensures var db1 := Ledger.TransitionSignal(db, id, Approved, now).value;
            var db' := CarryOut(db1, NOBODY, id, g, bps, now, now, draw).db;
            NothingStaked(db, db') && RowsSound(db')
  {
    var db1 := Ledger.TransitionSignal(db, id, Approved, now).value;
    ApprovedIsIdle(db, id, now);
    var t := ExecutePaper(db1, id, bps, now, draw);
    if t.Some? {
      hide RowsSound, NothingStaked, ExecutePaper;
      FillUnstaked(db, db1, id, bps, now, draw);
      PublicationUnstaked(t.value, id, now);
      UnstakedChains(db, t.value, Disclose(t.value, id, now));
    }
  }

  lemma ApprovedIsIdle(db: Tables, id: SignalId, now: int)
    requires RowsSound(db) && id in db.signals && db.signals[id].status == Pending
    ensures var db1 := Ledger.TransitionSignal(db, id, Approved, now).value;
            NothingStaked(db, db1) && RowsSound(db1) && Newest(db1.rows, id) == None
  {
  }

  lemma PublicationUnstaked(db: Tables, id: SignalId, now: int)
    requires RowsSound(db)
    ensures NothingStaked(db, Disclose(db, id, now)) && RowsSound(Disclose(db, id, now))
  {
  }

  lemma FillUnstaked(db: Tables, db1: Tables, id: SignalId, bps: int, now: int, draw: Draw)
    requires RowsSound(db) && id in db.signals && db.signals[id].status == Pending && DrawsEnough(draw)
    requires db1 == Ledger.TransitionSignal(db, id, Approved, now).value
    requires NothingStaked(db, db1) && RowsSound(db1) && Newest(db1.rows, id) == None
    requires ExecutePaper(db1, id, bps, now, draw).Some?
    ensures var db' := ExecutePaper(db1, id, bps, now, draw).value; NothingStaked(db, db') && RowsSound(db')
  {
    hide SelectLots, CloseLots, ApplySlippage, NothingStaked;
    var s := db1.signals[id];
    var fill := PaperFill(s, bps, now);
    var db2 := Ledger.RecordExecution(db1, Execution(id, Paper, fill.price, fill.quantity, now, None));
    SameSelection(db1, db2, s.symbol, s.quantity);
    SettleFailsOnlyWithNothingToClose(db2, id, fill.price, fill.quantity, now, draw);
    RecordUnstaked(db1, db2);
    UnstakedChains(db, db1, db2);
    if s.side == Sell {
      var lots := SelectLots(db2, s.symbol, s.quantity);
      CloseUnstaked(db2, lots, fill.price, id, now, draw(db2.rows, |lots|));
      UnstakedChains(db, db2, ExecutePaper(db1, id, bps, now, draw).value);
    } else {
      BuyUnstaked(db, db2, id, fill, draw(db2.rows, 1)[0]);
    }
  }

  lemma RecordUnstaked(db1: Tables, db2: Tables)
    requires RowsSound(db1) && db2 == db1.(executions := db2.executions)
    ensures NothingStaked(db1, db2) && RowsSound(db2)
  {
  }

  /** The bought lot was at stake already, as a pending buy. */
  lemma BuyUnstaked(db: Tables, db2: Tables, id: SignalId, fill: Fill, rowId: RowId)
    requires NothingStaked(db, db2) && RowsSound(db2) && AtStake(db, id)
    requires id in db2.signals && db2.signals[id].status == Approved && fill.quantity == db2.signals[id].quantity
    ensures var db' := AppendRow(db2, OpeningRow(db2, id, fill.price, fill.quantity, fill.filledAt, rowId));
            NothingStaked(db, db') && RowsSound(db')
  {
    var row := OpeningRow(db2, id, fill.price, fill.quantity, fill.filledAt, rowId);
    forall x | AtStake(AppendRow(db2, row), x) ensures AtStake(db, x) {
      NewestAppend(db2.rows, row, x);
      if x != id { assert AtStake(db2, x); }
    }
  }

  // ---- What the gate counts as committed ------------------------------------------------------

  lemma WholeCents(q: real, cents: nat)
    requires WholeShares(q)
    ensures NotionalCents(q, cents as real / 100.0) as real == Value(q, cents)
  {
    WholeNotional(q.Floor, cents);
  }

  function PendingStake(cents: map<Symbol, nat>, db: Tables): SignalId -> real {
    id => if id in db.signals && db.signals[id].status == Pending then CentsOf(cents, db.signals[id]) else 0.0
  }

  function OpenStake(cents: map<Symbol, nat>, db: Tables): SignalId -> real {
    id => if IsOpen(db, id) then CentsOf(cents, db.signals[id]) else 0.0
  }

  ghost predicate Priced(cents: map<Symbol, nat>, db: Tables) {
    forall id :: id in db.signals ==> db.signals[id].symbol in cents && WholeShares(db.signals[id].quantity)
  }

  lemma SumExposureAppend(hs: seq<Risk.Holding>, h: Risk.Holding, prices: map<Symbol, real>)
    ensures Risk.SumExposure(hs + [h], prices)
            == Risk.SumExposure(hs, prices) + if h.symbol in prices then NotionalCents(h.quantity, prices[h.symbol]) else 0
  {
    assert (hs + [h])[..|hs|] == hs;
  }

  lemma {:induction false} PendingIsATotal(cents: map<Symbol, nat>, db: Tables, ids: seq<SignalId>)
    requires Priced(cents, db)
    ensures Risk.SumExposure(PendingHoldings(db, ids), Prices(cents)) as real == Total(ids, PendingStake(cents, db))
  {
    if ids == [] {
    } else {
      var front, id := ids[..|ids| - 1], ids[|ids| - 1];
      PendingIsATotal(cents, db, front);
      if id in db.signals && db.signals[id].status == Pending {
        var g := db.signals[id];
        SumExposureAppend(PendingHoldings(db, front), Risk.Holding(g.symbol, g.quantity), Prices(cents));
        WholeCents(g.quantity, cents[g.symbol]);
      } else {
        assert PendingHoldings(db, ids) == PendingHoldings(db, front);
      }
    }
  }

  function LotCents(cents: map<Symbol, nat>, l: OpenLot): real {
    if l.symbol in cents then Value(l.quantity, cents[l.symbol]) else 0.0
  }

  function LotsCents(cents: map<Symbol, nat>, lots: seq<OpenLot>): real {
    if lots == [] then 0.0 else LotsCents(cents, lots[..|lots| - 1]) + LotCents(cents, lots[|lots| - 1])
  }

  function SymbolCents(cents: map<Symbol, nat>, lots: seq<OpenLot>): Symbol -> real {
    s => if s in cents then Value(Shares(OfSymbol(lots, s)), cents[s]) else 0.0
  }

  /** Adding up the lots is adding up the symbols. */
  lemma {:induction false} LotsBySymbol(cents: map<Symbol, nat>, lots: seq<OpenLot>, symbols: seq<Symbol>)
    requires Distinct(symbols) && forall l :: l in lots ==> l.symbol in symbols
    ensures Total(symbols, SymbolCents(cents, lots)) == LotsCents(cents, lots)
  {
    if lots == [] {
      forall s | s in symbols ensures SymbolCents(cents, lots)(s) == 0.0 {}
      TotalZero(symbols, SymbolCents(cents, lots));
    } else {
      hide Value, Shares;
      var front, l := lots[..|lots| - 1], lots[|lots| - 1];
      assert lots == front + [l];
      LotsBySymbol(cents, front, symbols);
      var k :| 0 <= k < |symbols| && symbols[k] == l.symbol;
      OneLotMore(cents, front, l, symbols, k);
    }
  }

  lemma OneLotMore(cents: map<Symbol, nat>, lots: seq<OpenLot>, l: OpenLot, symbols: seq<Symbol>, k: nat)
    requires Distinct(symbols) && k < |symbols| && symbols[k] == l.symbol
    ensures Total(symbols, SymbolCents(cents, lots + [l])) == Total(symbols, SymbolCents(cents, lots)) + LotCents(cents, l)
  {
    hide Value, Shares;
    var f, g := SymbolCents(cents, lots + [l]), SymbolCents(cents, lots);
    var rest := symbols[..k] + symbols[k + 1..];
    Remove(symbols, k);
    TotalWithout(symbols, k, f);
    TotalWithout(symbols, k, g);
    forall s | s in rest ensures f(s) == g(s) { OfSymbolAppend(lots, l, s); }
    TotalCongruent(rest, f, g);
    OfSymbolAppend(lots, l, l.symbol);
    SharesAppend(OfSymbol(lots, l.symbol), l);
    if l.symbol in cents { Distributes(Shares(OfSymbol(lots, l.symbol)), l.quantity, cents[l.symbol]); }
  }

  lemma Distributes(x: real, y: real, c: nat)
    ensures Value(x + y, c) == Value(x, c) + Value(y, c)
  {
  }

  lemma {:induction false} WholeSum(lots: seq<OpenLot>)
    requires forall l :: l in lots ==> WholeShares(l.quantity)
    ensures WholeShares(Shares(lots))
  {
    if lots == [] {
    } else {
      assert lots[0] in lots;
      WholeSum(lots[1..]);
      AddWhole(lots[0].quantity, Shares(lots[1..]));
    }
  }

  lemma FloorOfWhole(n: int)
    ensures (n as real).Floor == n
  {
  }

  lemma AddWhole(x: real, y: real)
    requires WholeShares(x) && WholeShares(y)
    ensures WholeShares(x + y)
  {
    assert x == x.Floor as real && y == y.Floor as real;
    FloorOfWhole(x.Floor + y.Floor);
    assert x + y == (x.Floor + y.Floor) as real;
  }

  lemma {:induction false} HoldingsAreATotal(cents: map<Symbol, nat>, lots: seq<OpenLot>, symbols: seq<Symbol>, hs: seq<Risk.Holding>)
    requires |hs| == |symbols| && forall i :: 0 <= i < |hs| ==> hs[i] == Risk.Holding(symbols[i], Shares(OfSymbol(lots, symbols[i])))
    requires forall s :: WholeShares(Shares(OfSymbol(lots, s)))
    ensures Risk.SumExposure(hs, Prices(cents)) as real == Total(symbols, SymbolCents(cents, lots))
  {
    hide Value, Shares, NotionalCents;
    if symbols == [] {
    } else {
      var n := |symbols| - 1;
      HoldingsAreATotal(cents, lots, symbols[..n], hs[..n]);
      if symbols[n] in cents { WholeCents(Shares(OfSymbol(lots, symbols[n])), cents[symbols[n]]); }
    }
  }

  /** The positions are worth what their lots are worth. */
  lemma PositionsWorthLots(cents: map<Symbol, nat>, lots: seq<OpenLot>)
    requires forall l :: l in lots ==> WholeShares(l.quantity)
    ensures Risk.SumExposure(Risk.HoldingsOf(ForGate(PositionsOf(lots))), Prices(cents)) as real == LotsCents(cents, lots)
  {
    var symbols := SymbolsSeen(lots);
    SeenOnce(lots);
    forall s ensures WholeShares(Shares(OfSymbol(lots, s))) {
      OfSymbolSound(lots, s);
      WholeSum(OfSymbol(lots, s));
    }
    HoldingsAreATotal(cents, lots, symbols, Risk.HoldingsOf(ForGate(PositionsOf(lots))));
    LotsBySymbol(cents, lots, symbols);
  }

  lemma {:induction false} OpenIsATotal(cents: map<Symbol, nat>, db: Tables, ids: seq<SignalId>)
    requires RowsSound(db)
    ensures LotsCents(cents, OpenAmong(db, ids)) == Total(ids, OpenStake(cents, db))
  {
    if ids == [] {
    } else {
      var front, id := ids[..|ids| - 1], ids[|ids| - 1];
      OpenIsATotal(cents, db, front);
      var lots := OpenAmong(db, front);
      if IsOpen(db, id) {
        NewestKnown(db, id);
        assert (lots + [LotOf(db, id)])[..|lots|] == lots;
      } else {
        assert OpenAmong(db, ids) == lots;
      }
    }
  }

  /** What the gate starts from is at least what is at stake. */
  lemma CommittedCoversStakes(e: Setting, s: State, out: Outside, now: int)
    requires SignalsSound(e, s) && RowsSound(s.desk.db) && out.prices == Prices(e.cents) && out.mode == Paper
    ensures ExposureCents(e.cents, s.desk) <= Risk.CommittedAtStart(GateInputs(s.desk, out, e.config, now)) as real
  {
    hide Risk.SumExposure, Prices, PositionsOf, ForGate;
    var d, cents := s.desk, e.cents;
    var lots := ListOpenLots(d.db);
    ListOpenLotsSound(d.db);
    forall l | l in lots ensures WholeShares(l.quantity) { NewestKnown(d.db, l.signalId); }
    PositionsWorthLots(cents, lots);
    OpenIsATotal(cents, d.db, LotIds(d.db.rows));
    InLotIds(d.db.rows, 0);
    forall id | OpenStake(cents, d.db)(id) != 0.0 ensures id in LotIds(d.db.rows) && id in d.created {
      InLotIds(d.db.rows, id);
      RowsOfHas(d.db.rows, Newest(d.db.rows, id).value);
    }
    TotalSame(LotIds(d.db.rows), d.created, OpenStake(cents, d.db));
    PendingIsATotal(cents, d.db, d.created);
    StakesSplit(e, s);
  }

  lemma StakesSplit(e: Setting, s: State)
    requires SignalsSound(e, s) && RowsSound(s.desk.db)
    ensures ExposureCents(e.cents, s.desk)
            <= Total(s.desk.created, OpenStake(e.cents, s.desk.db)) + Total(s.desk.created, PendingStake(e.cents, s.desk.db))
  {
    hide Value;
    var d, cents := s.desk, e.cents;
    var f, g := OpenStake(cents, d.db), PendingStake(cents, d.db);
    var both: SignalId -> real := id => f(id) + g(id);
    TotalAdds(d.created, f, g, both);
    forall id | id in d.created ensures Stake(cents, d.db)(id) <= both(id) {
      var q := d.db.signals[id];
      WorthNotNegative(q.quantity, cents[q.symbol]);
    }
    TotalAtMost(d.created, Stake(cents, d.db), both);
  }

  // ---- What a pipeline run adds ---------------------------------------------------------------

  function BuyValue(cents: map<Symbol, nat>, c: Candidate): real {
    if c.side == Buy && c.symbol in cents then Value(c.quantity, cents[c.symbol]) else 0.0
  }

  function BuyValues(cents: map<Symbol, nat>, cs: seq<Candidate>): real {
    if cs == [] then 0.0 else BuyValues(cents, cs[..|cs| - 1]) + BuyValue(cents, cs[|cs| - 1])
  }

  ghost predicate Askable(cents: map<Symbol, nat>, c: Candidate) {
    c.symbol in cents && WholeShares(c.quantity)
  }

  lemma PersistSound(e: Setting, d: Desk, c: Candidate, k: nat, out: Outside, now: int)
    requires SignalsSound(e, State(d, now)) && RowsSound(d.db) && Askable(e.cents, c) && out.mode == Paper
    ensures var d' := Persist(d, c, k, out, now);
            SignalsSound(e, State(d', now)) && RowsSound(d'.db)
  {
    hide Value, WholeShares;
  }

  /** What a candidate adds when it becomes a signal. */
  lemma PersistStakes(e: Setting, d: Desk, c: Candidate, k: nat, out: Outside, now: int, cents: map<Symbol, nat>)
    requires SignalsSound(e, State(d, now)) && RowsSound(d.db) && Askable(e.cents, c)
    ensures var d' := Persist(d, c, k, out, now);
            ExposureCents(cents, d') == ExposureCents(cents, d) + if d'.created == d.created then 0.0 else BuyValue(cents, c)
  {
    hide Value, Day;
    var d' := Persist(d, c, k, out, now);
    if d' != d {
      var id := out.ids(k);
      assert d'.created == d.created + [id] && d'.created[..|d.created|] == d.created && id !in d.created;
      forall x | x in d.created ensures Stake(cents, d'.db)(x) == Stake(cents, d.db)(x) {
        assert IsOpen(d'.db, x) <==> IsOpen(d.db, x);
      }
      TotalCongruent(d.created, Stake(cents, d'.db), Stake(cents, d.db));
      NoLotYet(d.db, id);
      assert Stake(cents, d'.db)(id) == BuyValue(cents, c);
    }
  }

  lemma PersistCounts(e: Setting, d: Desk, c: Candidate, k: nat, out: Outside, now: int, day: int)
    requires SignalsSound(e, State(d, now))
    ensures var d' := Persist(d, c, k, out, now);
            CountOn(d', d'.created, day) <= CountOn(d, d.created, day) + if day == Day(now) then 1 else 0
  {
    hide Day;
    var d' := Persist(d, c, k, out, now);
    if d' != d {
      assert d'.created[..|d.created|] == d.created;
      CountUnmoved(d, d', d.created, day);
    }
  }

  lemma NoLotYet(db: Tables, id: SignalId)
    requires RowsSound(db) && id !in db.signals
    ensures Newest(db.rows, id) == None
  {
  }

  lemma {:induction false} PersistAllSound(e: Setting, d: Desk, accepted: seq<Candidate>, out: Outside, now: int)
    requires SignalsSound(e, State(d, now)) && RowsSound(d.db) && out.mode == Paper
    requires forall c :: c in accepted ==> Askable(e.cents, c)
    ensures var d' := PersistAll(d, accepted, out, now);
            && SignalsSound(e, State(d', now)) && RowsSound(d'.db)
            && forall day :: CountOn(d', d'.created, day) <= CountOn(d, d.created, day) + if day == Day(now) then |accepted| else 0
  {
    hide SignalsSound, RowsSound, Askable, CountOn, Persist, Day;
    if accepted == [] {
    } else {
      var front, c := accepted[..|accepted| - 1], accepted[|accepted| - 1];
      assert accepted == front + [c];
      PersistAllSound(e, d, front, out, now);
      var d1 := PersistAll(d, front, out, now);
      assert c in accepted;
      PersistSound(e, d1, c, |accepted| - 1, out, now);
      forall day { PersistCounts(e, d1, c, |accepted| - 1, out, now, day); }
    }
  }

  lemma {:induction false} PersistAllStakes(e: Setting, d: Desk, accepted: seq<Candidate>, out: Outside, now: int, cents: map<Symbol, nat>)
    requires SignalsSound(e, State(d, now)) && RowsSound(d.db) && out.mode == Paper
    requires forall c :: c in accepted ==> Askable(e.cents, c)
    ensures ExposureCents(cents, PersistAll(d, accepted, out, now))
            == ExposureCents(cents, d) + BuyValues(cents, Saved(d, accepted, out, now))
  {
    hide SignalsSound, RowsSound, Askable, ExposureCents, Persist, BuyValue;
    if accepted == [] {
    } else {
      var front, c := accepted[..|accepted| - 1], accepted[|accepted| - 1];
      assert accepted == front + [c];
      PersistAllStakes(e, d, front, out, now, cents);
      PersistAllSound(e, d, front, out, now);
      assert c in accepted;
      PersistStakes(e, PersistAll(d, front, out, now), c, |accepted| - 1, out, now, cents);
      var saved := Saved(d, front, out, now);
      assert (saved + [c])[..|saved|] == saved && saved + [] == saved;
    }
  }

  /** What is saved is worth no more than what was accepted. */
  lemma {:induction false} SavedIsNoMore(e: Setting, d: Desk, accepted: seq<Candidate>, out: Outside, now: int, cents: map<Symbol, nat>)
    requires forall c :: c in accepted ==> Askable(e.cents, c)
    ensures BuyValues(cents, Saved(d, accepted, out, now)) <= BuyValues(cents, accepted)
  {
    hide Persist, Value;
    if accepted == [] {
    } else {
      var front, c := accepted[..|accepted| - 1], accepted[|accepted| - 1];
      assert accepted == front + [c];
      SavedIsNoMore(e, d, front, out, now, cents);
      assert c in accepted;
      if c.symbol in cents { WorthNotNegative(c.quantity, cents[c.symbol]); }
      var saved := Saved(d, front, out, now);
      assert (saved + [c])[..|saved|] == saved && saved + [] == saved;
    }
  }

  lemma {:induction false} BuysInCents(cents: map<Symbol, nat>, inputs: Risk.RiskInputs, cs: seq<Candidate>)
    requires inputs.prices == Prices(cents) && forall c :: c in cs ==> Askable(cents, c)
    ensures RiskLaws.BuyCents(inputs, cs) as real == BuyValues(cents, cs)
    ensures (forall c :: c in cs ==> c.side != Buy) ==> BuyValues(cents, cs) == 0.0
  {
    if cs == [] {
    } else {
      var front, c := cs[..|cs| - 1], cs[|cs| - 1];
      assert cs == front + [c];
      BuysInCents(cents, inputs, front);
      assert c in cs;
      WholeCents(c.quantity, cents[c.symbol]);
    }
  }

  lemma {:induction false} FreshAreCandidates(db: Tables, candidates: seq<Candidate>, keyOf: Candidate -> int)
    ensures forall c :: c in Fresh(db, candidates, keyOf) ==> c in candidates
  {
    if candidates == [] {
    } else {
      FreshAreCandidates(db, candidates[..|candidates| - 1], keyOf);
      assert candidates == candidates[..|candidates| - 1] + [candidates[|candidates| - 1]];
    }
  }

  lemma {:induction false} TodayIsSinceMidnight(e: Setting, d: Desk, ids: seq<SignalId>, now: int)
    requires forall id :: id in d.db.signals ==> d.db.signals[id].createdAt <= now
    ensures CountSince(d.db, ids, StartOfUtcDay(now)) == CountOn(d, ids, Day(now))
  {
    if ids == [] {
    } else {
      TodayIsSinceMidnight(e, d, ids[..|ids| - 1], now);
    }
  }

  lemma AcceptedAreCandidates(inputs: Risk.RiskInputs, db: Tables, candidates: seq<Candidate>, keyOf: Candidate -> int)
    ensures forall c :: c in Risk.Decide(inputs, Fresh(db, candidates, keyOf)).accepted ==> c in candidates
  {
    var proposals := Fresh(db, candidates, keyOf);
    var decision := Risk.Decide(inputs, proposals);
    FreshAreCandidates(db, candidates, keyOf);
    RiskLaws.GatePartitions(inputs, proposals);
    forall c | c in decision.accepted ensures c in candidates {
      assert c in multiset(decision.accepted);
      assert c in multiset(proposals);
    }
  }

  lemma PipelineKeeps(e: Setting, s: State, candidates: seq<Candidate>, out: Outside, now: int)
    requires Sound(e, s) && Enabled(e, s, PipelineRuns(candidates, out), now)
    ensures Sound(e, State(Pipeline.Run(s.desk, candidates, e.config, out, now), now))
  {
    var d := s.desk;
    var inputs := GateInputs(d, out, e.config, now);
    var accepted := Risk.Decide(inputs, Fresh(d.db, candidates, out.keyOf)).accepted;
    hide Risk.Decide, Fresh, Risk.SumExposure, CountOn, Value, RowsSound, ExposureCents, Risk.CommittedAtStart;
    AcceptedAreCandidates(inputs, d.db, candidates, out.keyOf);
    RiskLaws.GateWithinCaps(inputs, Fresh(d.db, candidates, out.keyOf));
    CommittedCoversStakes(e, s, out, now);
    assert SignalsSound(e, State(d, now));
    forall c | c in accepted ensures Askable(e.cents, c) { assert c in candidates; }
    PersistAllSound(e, d, accepted, out, now);
    PersistAllStakes(e, d, accepted, out, now, e.cents);
    SavedIsNoMore(e, d, accepted, out, now, e.cents);
    BuysInCents(e.cents, inputs, accepted);
    TodayIsSinceMidnight(e, d, d.created, now);
    if c :| c in accepted && c.side == Buy {
      assert RiskLaws.ExposureAfter(inputs, accepted) <= e.config.maxTotalExposureCents;
    }
  }

  lemma StepKeeps(e: Setting, s: State, step: Step, now: int)
    requires Sound(e, s) && Enabled(e, s, step, now)
    ensures Sound(e, Next(e, s, step, now))
  {
    hide Sound, Decide, Pipeline.Run;
    var d := s.desk;
    Parts(e, s);
    match step
    case PipelineRuns(candidates, out) => PipelineKeeps(e, s, candidates, out, now);
    case OwnerDecides(id, req, draw) =>
      DecisionUnstaked(d.db, id, req, now, e.slippageBps, draw);
      UnstakedKeeps(e, s, Next(e, s, step, now).desk.db, now);
    case Expires(stale) =>
      ExpireUnstaked(d.db, stale, now);
      UnstakedKeeps(e, s, Next(e, s, step, now).desk.db, now);
    case MarksRun(quotes, rowIds) =>
      ListOpenLotsSound(d.db);
      MarksUnstaked(d.db, ListOpenLots(d.db), quotes, now, rowIds);
      UnstakedKeeps(e, s, Next(e, s, step, now).desk.db, now);
  }

  lemma Parts(e: Setting, s: State)
    requires Sound(e, s)
    ensures RowsSound(s.desk.db) && forall x :: x in s.desk.db.signals ==> s.desk.db.signals[x].mode == Paper
  {
  }

  lemma {:induction false} RunsAreSound(e: Setting, clock: int, steps: seq<(Step, int)>)
    requires e.config.maxTotalExposureCents >= 0 && e.config.maxDailyTrades >= 0
    ensures Sound(e, RunSteps(e, clock, steps))
  {
    hide Enabled, Next;
    if |steps| == 0 {
      assert Total([], Stake(e.cents, EMPTY)) == 0.0;
    } else {
      RunsAreSound(e, clock, steps[..|steps| - 1]);
      hide Sound;
      var s, last := RunSteps(e, clock, steps[..|steps| - 1]), steps[|steps| - 1];
      if Enabled(e, s, last.0, last.1) { StepKeeps(e, s, last.0, last.1); }
    }
  }

  /**
   * However pipeline runs, approvals, rejections, expiries and mark runs follow one another: open lots
   * and pending buys together never exceed the total exposure cap, and no UTC day is given more signals
   * than the daily cap.
   */
  lemma CapsHoldOverRuns(e: Setting, clock: int, steps: seq<(Step, int)>, day: int)
    requires e.config.maxTotalExposureCents >= 0 && e.config.maxDailyTrades >= 0
    ensures var d := RunSteps(e, clock, steps).desk;
            && ExposureCents(e.cents, d) <= e.config.maxTotalExposureCents as real
            && CountOn(d, d.created, day) <= e.config.maxDailyTrades
  {
    hide RunSteps, ExposureCents, CountOn;
    RunsAreSound(e, clock, steps);
  }
}
