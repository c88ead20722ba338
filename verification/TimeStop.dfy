/** What the pipeline's time stop counts from: the newest row of a lot, not its opening (pipeline.ts, exits.ts). */
module TimeStop {
  import opened Prelude
  import opened Ledger
  import opened Lots
  import opened LotsLaws
  import opened Sums
  import opened LotRuns
  import opened MarkLaws
  import opened Executor
  import opened Money
  import opened Strategy
  import opened Pipeline

  /** The earliest listed time among the lots of each symbol. */
  ghost predicate Earliest(lots: seq<OpenLot>, bySymbol: map<Symbol, int>) {
    && (forall l :: l in lots ==> l.symbol in bySymbol && bySymbol[l.symbol] <= l.recordedAt)
    && (forall s :: s in bySymbol ==> exists l :: l in lots && l.symbol == s && l.recordedAt == bySymbol[s])
  }

  lemma {:induction false} ListedTimesAreEarliest(lots: seq<OpenLot>)
    ensures Earliest(lots, ListedTimes(lots))
  {
    if lots != [] {
      var front, lot := lots[..|lots| - 1], lots[|lots| - 1];
      ListedTimesAreEarliest(front);
      assert lots == front + [lot];
      assert lot in lots && forall l :: l in front ==> l in lots;
    }
  }

  /** The listed time of a lot is its opening time exactly while all its rows are of the instant it opened. */
  lemma ListedTimeIsOpeningTime(b: Books, id: SignalId)
    requires BooksSound(b) && IsOpen(b.db, id)
    ensures var rs := RowsOf(b.db.rows, id); var listed := LotOf(b.db, id).recordedAt;
            && OpenedAt(b.db.rows, id) <= listed
            && (listed == OpenedAt(b.db.rows, id) <==> forall i :: 0 <= i < |rs| ==> rs[i].recordedAt == rs[0].recordedAt)
  {
    hide BooksSound, LotHistory, RowsOf, Newest;
    OpenLotFacts(b, id);
    SoundLot(b, id);
    HistoryShape(RowsOf(b.db.rows, id), LotSize(b.db, id));
    LastIsLatest(RowsOf(b.db.rows, id));
  }

  lemma LastIsLatest(rs: seq<Row>)
    requires rs != [] && forall i, j :: 0 <= i < j < |rs| ==> rs[i].recordedAt <= rs[j].recordedAt
    ensures var last := rs[|rs| - 1].recordedAt;
            && rs[0].recordedAt <= last
            && (last == rs[0].recordedAt <==> forall i :: 0 <= i < |rs| ==> rs[i].recordedAt == rs[0].recordedAt)
  {
    forall i | 0 <= i < |rs| ensures rs[0].recordedAt <= rs[i].recordedAt <= rs[|rs| - 1].recordedAt {
      assert i == 0 || rs[0].recordedAt <= rs[i].recordedAt;
      assert i == |rs| - 1 || rs[i].recordedAt <= rs[|rs| - 1].recordedAt;
    }
  }

  predicate OpenIn(db: Tables, id: SignalId, s: Symbol) {
    IsOpen(db, id) && db.signals[id].symbol == s
  }

  /** The instant the oldest open lot of the symbol was opened. */
  ghost predicate OldestOpening(db: Tables, s: Symbol, t: int) {
    && (exists x :: OpenIn(db, x, s) && OpenedAt(db.rows, x) == t)
    && (forall x :: OpenIn(db, x, s) ==> t <= OpenedAt(db.rows, x))
  }

  /** Every row of the lot is of that instant: it has not been marked since. */
  ghost predicate AllRowsAt(rs: seq<Row>, t: int) {
    forall i :: 0 <= i < |rs| ==> rs[i].recordedAt == t
  }

  /**
   * The time the stop is given for a symbol is when its oldest lot was opened exactly while some open lot of
   * the symbol has all its rows at that instant; otherwise it is later.
   */
  lemma StopCountsFromOpening(b: Books, s: Symbol, bySymbol: map<Symbol, int>, t: int)
    requires BooksSound(b) && Earliest(ListOpenLots(b.db), bySymbol) && s in bySymbol && OldestOpening(b.db, s, t)
    ensures t <= bySymbol[s]
    ensures bySymbol[s] == t <==> exists x :: OpenIn(b.db, x, s) && AllRowsAt(RowsOf(b.db.rows, x), t)
  {
    hide BooksSound, ListOpenLots, RowsOf, Newest, OpenedAt;
    ListOpenLotsSound(b.db);
    var l :| l in ListOpenLots(b.db) && l.symbol == s && l.recordedAt == bySymbol[s];
    assert OpenIn(b.db, l.signalId, s);
    AtOpening(b, l.signalId, t);
    forall x | OpenIn(b.db, x, s) && AllRowsAt(RowsOf(b.db.rows, x), t) ensures bySymbol[s] == t {
      AtOpening(b, x, t);
      assert LotOf(b.db, x) in ListOpenLots(b.db);
    }
  }

  lemma AtOpening(b: Books, x: SignalId, t: int)
    requires BooksSound(b) && IsOpen(b.db, x)
    ensures OpenedAt(b.db.rows, x) <= LotOf(b.db, x).recordedAt
    ensures AllRowsAt(RowsOf(b.db.rows, x), t) ==> LotOf(b.db, x).recordedAt == t
    ensures LotOf(b.db, x).recordedAt == t <= OpenedAt(b.db.rows, x) ==> AllRowsAt(RowsOf(b.db.rows, x), t)
  {
    ListedTimeIsOpeningTime(b, x);
    OpenLotFacts(b, x);
    hide BooksSound, RowsOf, Newest;
  }

  /** The stop fires exactly when it is switched on and enough traded bars are later than the time it is given. */
  lemma FiresIffEnoughBars(s: Symbol, candles: seq<Candle>, openedAt: int, quantity: real, maxHoldingDays: int)
    ensures EvaluateExit(s, candles, openedAt, quantity, maxHoldingDays).Some?
            <==> maxHoldingDays > 0 && CountAfter(Traded(candles), openedAt) >= maxHoldingDays
  {
    NothingAfter(Traded(candles), openedAt);
  }

  lemma NothingAfter(bars: seq<Candle>, t: int)
    ensures bars == [] ==> CountAfter(bars, t) == 0
  {
  }

  /**
   * However long its lots have been open, a symbol all of whose lots a mark run has just marked is not
   * time-stopped until `maxHoldingDays` bars have traded since that run.
   */
  lemma MarkingRestartsTheClock(b: Books, quotes: map<Symbol, real>, now: int, draw: Draw,
                                s: Symbol, bySymbol: map<Symbol, int>, candles: seq<Candle>, quantity: real, maxHoldingDays: int)
    requires DrawsEnough(draw) && BooksSound(b) && b.clock <= now
    requires forall id :: OpenIn(b.db, id, s) ==> WillMark(b.db, id, quotes, now)
    requires s in bySymbol && Earliest(ListOpenLots(MarkedBooks(b.db, quotes, now, draw)), bySymbol)
    requires CountAfter(Traded(candles), now) < maxHoldingDays
    ensures bySymbol[s] == now && EvaluateExit(s, candles, bySymbol[s], quantity, maxHoldingDays) == None
  {
    hide BooksSound, MarkedBooks, MarkedOn, OpenedAt, EvaluateExit, WillMark, ListOpenLots, Newest, RowsOf;
    var db' := MarkedBooks(b.db, quotes, now, draw);
    RunEffect(b, quotes, now, draw);
    ListOpenLotsSound(db');
    var l :| l in ListOpenLots(db') && l.symbol == s && l.recordedAt == bySymbol[s];
    assert IsOpen(db', l.signalId) && l == LotOf(db', l.signalId) && OpenIn(b.db, l.signalId, s);
    FiresIffEnoughBars(s, candles, now, quantity, maxHoldingDays);
  }

  lemma RunEffect(b: Books, quotes: map<Symbol, real>, now: int, draw: Draw)
    requires DrawsEnough(draw) && BooksSound(b) && b.clock <= now
    ensures var db, db' := b.db, MarkedBooks(b.db, quotes, now, draw);
            && db'.signals == db.signals
            && (forall x :: IsOpen(db', x) ==> IsOpen(db, x))
            && (forall x :: WillMark(db, x, quotes, now) && IsOpen(db', x) ==> LotOf(db', x).recordedAt == now)
  {
    hide BooksSound, MarkedBooks, MarkedOn, OpenedAt, RowsOf;
    MarkRunEffect(b, quotes, now, draw);
  }

  // ---- A lot marked every day -------------------------------------------------------------------

  const DAY_MS := 86_400_000

  const BOUGHT := Draft(7, Buy, 3.0, Paper, 10.0, 1, None)
  const HELD := Signal(7, Buy, 3.0, Paper, 10.0, 1, 0, None, Pending, None, false, None)
  const QUOTES: map<Symbol, real> := map[7 := 11.0]

  /** One lot opened, then marked on each of the next `n` days. */
  function Daily(n: nat): seq<(Job, int)> {
    if n == 0 then [(Propose(1, BOUGHT), 0), (SettleFill(1, 10.0, 3.0), 0)]
    else Daily(n - 1) + [(MarkRun(QUOTES), n * DAY_MS)]
  }

  /** One traded bar on each of those days, before the day's mark. */
  function Bars(n: nat): seq<Candle> {
    if n == 0 then [] else Bars(n - 1) + [Candle((n - 1) * DAY_MS + 1, 10.0, 10.0, false)]
  }

  /** The books `n` days after the lot was opened. */
  ghost predicate HeldFor(b: Books, n: nat) {
    && BooksSound(b) && b.clock == n * DAY_MS && b.db.signals == map[1 := HELD]
    && (forall x :: IsOpen(b.db, x) <==> x == 1)
    && RowsOf(b.db.rows, 1) != [] && OpenedAt(b.db.rows, 1) == 0 && NewestTime(b.db.rows, 1) == n * DAY_MS
    && forall d :: MarkedOn(b.db.rows, 1, d) ==> d <= n
  }

  lemma DayOf(n: nat)
    ensures Day(n * DAY_MS) == n
  {
  }

  lemma AnotherDay(b: Books, n: nat, draw: Draw)
    requires DrawsEnough(draw) && HeldFor(b, n)
    ensures HeldFor(JobStep(b, MarkRun(QUOTES), (n + 1) * DAY_MS, draw), n + 1)
  {
    hide BooksSound, MarkedOn, OpenedAt, NewestTime, RowsOf, Newest, MarkedBooks, Day;
    var now := (n + 1) * DAY_MS;
    DayOf(n + 1);
    assert LotOf(b.db, 1).symbol == 7 && LotOf(b.db, 1).signalId == 1;
    assert WillMark(b.db, 1, QUOTES, now);
    JobKeeps(b, MarkRun(QUOTES), now, draw);
    MarkRunEffect(b, QUOTES, now, draw);
  }

  lemma {:induction false} HeldDaily(n: nat, draw: Draw)
    requires DrawsEnough(draw)
    ensures HeldFor(RunJobs(Books(EMPTY, 0), Daily(n), draw), n)
  {
    hide HeldFor, RunJobs, JobStep;
    if n == 0 {
      OpenedOnce(draw);
    } else {
      HeldDaily(n - 1, draw);
      AnotherDay(RunJobs(Books(EMPTY, 0), Daily(n - 1), draw), n - 1, draw);
      RunOneMore(Books(EMPTY, 0), Daily(n - 1), MarkRun(QUOTES), n * DAY_MS, draw);
    }
  }

  lemma OneProposed(draw: Draw)
    requires DrawsEnough(draw)
    ensures RunJobs(Books(EMPTY, 0), [(Propose(1, BOUGHT), 0)], draw) == Books(EMPTY.(signals := map[1 := HELD]), 0)
  {
    hide Settle, MarkedBooks;
    var none: seq<(Job, int)> := [];
    RunOneMore(Books(EMPTY, 0), none, Propose(1, BOUGHT), 0, draw);
    assert none + [(Propose(1, BOUGHT), 0)] == [(Propose(1, BOUGHT), 0)];
    assert RunJobs(Books(EMPTY, 0), none, draw) == Books(EMPTY, 0);
  }

  lemma OpenedOnce(draw: Draw)
    requires DrawsEnough(draw)
    ensures HeldFor(RunJobs(Books(EMPTY, 0), Daily(0), draw), 0)
  {
    LotRuns.InitSound(0);
    RunKeeps(Books(EMPTY, 0), Daily(0), draw);
    hide BooksSound, RunJobs, Settle, MarkedBooks, MarkedOn, Newest, RowsOf, OpeningRow;
    OneProposed(draw);
    RunOneMore(Books(EMPTY, 0), [(Propose(1, BOUGHT), 0)], SettleFill(1, 10.0, 3.0), 0, draw);
    assert [(Propose(1, BOUGHT), 0)] + [(SettleFill(1, 10.0, 3.0), 0)] == Daily(0);
    NothingWritten();
    var db := EMPTY.(signals := map[1 := HELD]);
    SettlesTheBuy(db, draw);
    var r := OpeningRow(db, 1, 10.0, 3.0, 0, draw([], 1)[0]);
    OpensWith(db, draw([], 1)[0]);
    assert RunJobs(Books(EMPTY, 0), Daily(0), draw) == Books(AppendRow(db, r), 0);
    HeldAtFirst(Books(AppendRow(db, r), 0), r);
  }

  lemma HeldAtFirst(b: Books, r: Row)
    requires BooksSound(b) && b == Books(EMPTY.(signals := map[1 := HELD], rows := [] + [r]), 0)
    requires r.signalId == 1 && IsOpening(r) && r.recordedAt == 0
    ensures HeldFor(b, 0)
  {
    hide BooksSound, MarkedOn, Newest, RowsOf;
    OneRow(r);
  }

  lemma OpensWith(db: Tables, rowId: RowId)
    requires db == EMPTY.(signals := map[1 := HELD])
    ensures var r := OpeningRow(db, 1, 10.0, 3.0, 0, rowId); r.signalId == 1 && IsOpening(r) && r.recordedAt == 0
  {
  }

  lemma SettlesTheBuy(db: Tables, draw: Draw)
    requires DrawsEnough(draw) && db == EMPTY.(signals := map[1 := HELD])
    ensures |draw([], 1)| == 1
    ensures Settle(db, 1, 10.0, 3.0, 0, draw) == Success(AppendRow(db, OpeningRow(db, 1, 10.0, 3.0, 0, draw([], 1)[0])))
  {
  }

  lemma OneRow(r: Row)
    requires r.signalId == 1 && IsOpening(r)
    ensures forall x :: Newest([] + [r], x) == if x == 1 then Some(r) else None
    ensures RowsOf([] + [r], 1) == [r] && forall d :: !MarkedOn([] + [r], 1, d)
  {
    forall x ensures Newest([] + [r], x) == if x == 1 then Some(r) else None {
      NothingWritten();
      NewestAppend([], r, x);
    }
    RowsOfAppend([], r, 1);
  }

  lemma OneMoreBar(bars: seq<Candle>, c: Candle)
    requires !c.interpolated
    ensures Traded(bars + [c]) == Traded(bars) + [c]
    ensures forall t :: CountAfter(bars + [c], t) == CountAfter(bars, t) + if c.t > t then 1 else 0
  {
    assert (bars + [c])[..|bars|] == bars;
  }

  lemma {:induction false} BarsTraded(n: nat)
    ensures Traded(Bars(n)) == Bars(n) && CountAfter(Bars(n), 0) == n
    ensures forall t :: t >= n * DAY_MS ==> CountAfter(Bars(n), t) == 0
  {
    if n > 0 {
      hide Traded, CountAfter;
      BarsTraded(n - 1);
      OneMoreBar(Bars(n - 1), Candle((n - 1) * DAY_MS + 1, 10.0, 10.0, false));
    }
  }

  /**
   * A lot marked on each of `n` days since it was opened, with a bar traded on each of them, is never
   * time-stopped by the time the pipeline reads, though counted from its opening it would be as soon as
   * `n` reaches `maxHoldingDays`. Whatever ids are drawn.
   */
  lemma DailyMarksHoldOffTheStop(n: nat, maxHoldingDays: int, draw: Draw, bySymbol: map<Symbol, int>)
    requires DrawsEnough(draw) && maxHoldingDays > 0
    requires Earliest(ListOpenLots(RunJobs(Books(EMPTY, 0), Daily(n), draw).db), bySymbol)
    ensures var rows := RunJobs(Books(EMPTY, 0), Daily(n), draw).db.rows;
            && 7 in bySymbol && EvaluateExit(7, Bars(n), bySymbol[7], 3.0, maxHoldingDays) == None
            && (EvaluateExit(7, Bars(n), OpenedAt(rows, 1), 3.0, maxHoldingDays).Some? <==> n >= maxHoldingDays)
  {
    hide BooksSound, RunJobs, MarkedOn, OpenedAt, RowsOf, ListOpenLots, EvaluateExit, Bars, Daily;
    var b := RunJobs(Books(EMPTY, 0), Daily(n), draw);
    HeldDaily(n, draw);
    BarsTraded(n);
    ListOpenLotsSound(b.db);
    assert LotOf(b.db, 1) in ListOpenLots(b.db) && LotOf(b.db, 1).symbol == 7;
    var l :| l in ListOpenLots(b.db) && l.symbol == 7 && l.recordedAt == bySymbol[7];
    assert l == LotOf(b.db, 1) && l.recordedAt == NewestTime(b.db.rows, 1);
    FiresIffEnoughBars(7, Bars(n), bySymbol[7], 3.0, maxHoldingDays);
    FiresIffEnoughBars(7, Bars(n), 0, 3.0, maxHoldingDays);
  }
}
