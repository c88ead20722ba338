/**
 * A run in which a close takes no effect. One sweep approves a sell, a buy and a sell of one symbol at its
 * one instant; the second sell's closing row ties with the bought lot's opening row and draws the smaller id.
 */
module TiedClose {
  import opened Prelude
  import opened Money
  import opened Ledger
  import opened Lots
  import opened LotsLaws
  import opened Sums
  import opened Executor
  import opened LotRuns
  import opened LotRunLaws
  import opened MarkLaws

  // ---- A sell of the one open lot ----------------------------------------------------------

  ghost predicate LoneLot(db: Tables, s: Symbol, x: SignalId) {
    IsOpen(db, x) && db.signals[x].symbol == s && forall y :: IsOpen(db, y) && db.signals[y].symbol == s ==> y == x
  }

  lemma SelectsTheLoneLot(db: Tables, s: Symbol, x: SignalId, quantity: real)
    requires LoneLot(db, s, x) && LotOf(db, x).quantity <= quantity
    ensures SelectLots(db, s, quantity) == [x]
  {
    var q := Queue(db, s);
    QueueSound(db, s);
    assert LotOf(db, x) in q;
    assert |q| > 1 ==> IdKey(q[0]) != IdKey(q[1]);
    forall i | 0 <= i < |q| ensures q[i] == LotOf(db, x) {
      assert q[i] in q;
    }
    assert q == [LotOf(db, x)] && q[1..] == [];
    assert Fitting([], LotOf(db, x).quantity, quantity) == [];
    assert Fitting(q, 0.0, quantity) == q;
  }

  lemma SellsTheLoneLot(db: Tables, id: SignalId, x: SignalId, price: real, quantity: real, now: int, draw: Draw)
    requires DrawsEnough(draw) && id in db.signals && db.signals[id].side == Sell
    requires LoneLot(db, db.signals[id].symbol, x) && LotOf(db, x).quantity <= quantity
    ensures |draw(db.rows, 1)| == 1
    ensures Settle(db, id, price, quantity, now, draw)
            == Success(AppendRow(db, ClosingRow(db, x, price, id, now, draw(db.rows, 1)[0]).value))
  {
    hide SelectLots;
    SelectsTheLoneLot(db, db.signals[id].symbol, x, quantity);
    var ids := draw(db.rows, 1);
    assert |ids| == 1 && ids[1..] == [] && [x][1..] == [];
    var row := ClosingRow(db, x, price, id, now, ids[0]).value;
    assert CloseLots(AppendRow(db, row), [], price, id, now, []) == Some(AppendRow(db, row));
  }

  // ---- The run -----------------------------------------------------------------------------

  /** Ids that only fall, as drawn ids may. */
  ghost predicate Falls(draw: Draw) {
    DrawsEnough(draw) && forall rows :: draw(rows, 1) == [10 - |rows|]
  }

  function SideOf(id: int): Side {
    if id == 1 || id == 3 then Buy else Sell
  }

  /** The first `n` signals of one symbol: a buy, a sell, a buy, and sells. */
  function Signals(n: nat): map<SignalId, Signal> {
    map k | 1 <= k <= n :: Signal(7, SideOf(k), 3.0, Paper, 10.0, k, 0, Some(0), Pending, None, false, None)
  }

  function Proposal(id: int): Job {
    Propose(id, Draft(7, SideOf(id), 3.0, Paper, 10.0, id, Some(0)))
  }

  function Proposals(n: nat): seq<(Job, int)> {
    if n == 0 then [] else Proposals(n - 1) + [(Proposal(n), 0)]
  }

  lemma OneProposed(n: nat, draw: Draw)
    requires DrawsEnough(draw)
    ensures JobStep(Books(EMPTY.(signals := Signals(n)), 0), Proposal(n + 1), 0, draw) == Books(EMPTY.(signals := Signals(n + 1)), 0)
  {
    hide Settle, MarkedBooks;
    var signal := Signal(7, SideOf(n + 1), 3.0, Paper, 10.0, n + 1, 0, Some(0), Pending, None, false, None);
    assert Signals(n)[n + 1 := signal] == Signals(n + 1);
    assert !DedupeKeyTaken(Signals(n), n + 1);
  }

  lemma {:induction false} AllProposed(n: nat, draw: Draw)
    requires DrawsEnough(draw)
    ensures RunJobs(Books(EMPTY, 0), Proposals(n), draw) == Books(EMPTY.(signals := Signals(n)), 0)
  {
    hide JobStep;
    if n == 0 {
      assert Signals(0) == map[];
    } else {
      AllProposed(n - 1, draw);
      OneProposed(n - 1, draw);
      RunOneMore(Books(EMPTY, 0), Proposals(n - 1), Proposal(n), 0, draw);
    }
  }

  /** The rows the fills write, in order. The fourth ties with the third and has the smaller id. */
  function RowAt(k: nat): Row {
    if k == 0 then Row(10, 1, 10.0, None, None, None, None, None, None, Open, 0)
    else if k == 1 then Row(9, 1, 10.0, Some(11.0), Some(3.0), None, None, Some(2), None, Closed, 1)
    else if k == 2 then Row(8, 3, 10.0, None, None, None, None, None, None, Open, 1)
    else if k == 3 then Row(7, 3, 10.0, Some(11.0), Some(3.0), None, None, Some(4), None, Closed, 1)
    else Row(6, 3, 10.0, Some(12.0), Some(6.0), None, None, Some(5), None, Closed, 2)
  }

  function Rows(k: nat): (rows: seq<Row>)
    ensures |rows| == k && forall i :: 0 <= i < k ==> rows[i] == RowAt(i)
  {
    if k == 0 then [] else Rows(k - 1) + [RowAt(k - 1)]
  }

  function After(k: nat): Tables {
    EMPTY.(signals := Signals(5), rows := Rows(k))
  }

  /** The buy fills at 10, the sells at 11, 11 and 12; the sweep is at instant 1. */
  function FillAt(k: nat): Job {
    SettleFill(k + 1, if k == 0 || k == 2 then 10.0 else if k == 4 then 12.0 else 11.0, 3.0)
  }

  function TimeAt(k: nat): int {
    if k == 0 then 0 else if k == 4 then 2 else 1
  }

  function Fills(k: nat): seq<(Job, int)> {
    if k == 0 then Proposals(5) else Fills(k - 1) + [(FillAt(k - 1), TimeAt(k - 1))]
  }

  // ---- Step by step --------------------------------------------------------------------------

  /** The newest row of the first lot and of the second, and that there are no others. */
  function NewestAt(k: nat, x: SignalId): Option<Row> {
    if x == 1 then (if k == 0 then None else if k == 1 then Some(RowAt(0)) else Some(RowAt(1)))
    else if x == 3 then (if k <= 2 then None else if k <= 4 then Some(RowAt(2)) else Some(RowAt(4)))
    else None
  }

  lemma LotAt(k: nat)
    ensures RowAt(k).signalId == if k <= 1 then 1 else 3
  {
  }

  /** The first lot's closing row is later than its opening row; the second lot's first closing row is not. */
  lemma Comparisons()
    ensures KeyLess(RowKey(RowAt(0)), RowKey(RowAt(1))) && KeyLess(RowKey(RowAt(2)), RowKey(RowAt(4)))
    ensures !KeyLess(RowKey(RowAt(2)), RowKey(RowAt(3)))
  {
  }

  lemma {:induction false} Shows(k: nat, x: SignalId)
    requires k <= 5
    ensures Newest(Rows(k), x) == NewestAt(k, x)
  {
    if k == 0 {
    } else {
      hide Newest, RowAt, RowKey, KeyLess;
      Shows(k - 1, x);
      assert Rows(k) == Rows(k - 1) + [RowAt(k - 1)];
      NewestAppend(Rows(k - 1), RowAt(k - 1), x);
      LotAt(k - 1);
      Comparisons();
    }
  }

  lemma SettlesABuy(db: Tables, id: SignalId, now: int, draw: Draw)
    requires Falls(draw) && id in db.signals && db.signals[id].side == Buy && db.signals[id].quantity == 3.0
    ensures Settle(db, id, 10.0, 3.0, now, draw)
            == Success(AppendRow(db, Row(10 - |db.rows|, id, 10.0, None, None, None, None, None, None, Open, now)))
  {
  }

  /** The row a sell of the lone lot writes when that lot was bought at 10. */
  lemma SellsAtAGain(db: Tables, id: SignalId, x: SignalId, price: real, now: int, draw: Draw)
    requires Falls(draw) && id in db.signals && db.signals[id].side == Sell && LoneLot(db, db.signals[id].symbol, x)
    requires LotOf(db, x).quantity == 3.0 && LotOf(db, x).entryPrice == 10.0 && !LotOf(db, x).overridden
    ensures Settle(db, id, price, 3.0, now, draw)
            == Success(AppendRow(db, Row(10 - |db.rows|, x, 10.0, Some(price), Some(Gain(price, 10.0, 3.0)), None, None, Some(id), None, Closed, now)))
  {
    hide Settle, Newest, Gain, LoneLot;
    assert IsOpen(db, x) by { LoneIsOpen(db, db.signals[id].symbol, x); }
    SellsTheLoneLot(db, id, x, price, 3.0, now, draw);
  }

  lemma LoneIsOpen(db: Tables, s: Symbol, x: SignalId)
    requires LoneLot(db, s, x)
    ensures IsOpen(db, x)
  {
  }

  lemma GainsAdd()
    ensures Gain(11.0, 10.0, 3.0) == 3.0 && Gain(12.0, 10.0, 3.0) == 6.0
  {
  }

  lemma LoneAt(k: nat)
    requires k == 1 || k == 3 || k == 4
    ensures var x := if k == 1 then 1 else 3;
            LoneLot(After(k), 7, x) && LotOf(After(k), x).quantity == 3.0 && LotOf(After(k), x).entryPrice == 10.0
            && !LotOf(After(k), x).overridden
  {
    hide Newest, Rows;
    forall y ensures Newest(After(k).rows, y) == NewestAt(k, y) { Shows(k, y); }
  }

  lemma FillStep(k: nat, draw: Draw)
    requires k < 5 && Falls(draw)
    ensures Settle(After(k), k + 1, FillAt(k).price, 3.0, TimeAt(k), draw) == Success(After(k + 1))
  {
    hide Settle, Rows, Gain, LoneLot;
    assert Rows(k + 1) == Rows(k) + [RowAt(k)] by { RowsGrow(k); }
    if k == 0 || k == 2 {
      SettlesABuy(After(k), k + 1, TimeAt(k), draw);
    } else {
      LoneAt(k);
      GainsAdd();
      SellsAtAGain(After(k), k + 1, if k == 1 then 1 else 3, FillAt(k).price, TimeAt(k), draw);
    }
  }

  lemma RowsGrow(k: nat)
    ensures Rows(k + 1) == Rows(k) + [RowAt(k)]
  {
  }

  lemma NothingYet(k: nat)
    requires k == 0 || k == 2
    ensures RowsOf(Rows(k), k + 1) == []
  {
    NoRows(Rows(k), k + 1);
  }

  lemma JobAt(k: nat, draw: Draw)
    requires k < 5 && Falls(draw)
    ensures JobStep(Books(After(k), if k == 0 then 0 else TimeAt(k - 1)), FillAt(k), TimeAt(k), draw) == Books(After(k + 1), TimeAt(k))
  {
    hide Settle, Rows, MarkedBooks, RowAt, RowsOf;
    FillStep(k, draw);
    if k == 0 || k == 2 { NothingYet(k); }
  }

  lemma {:induction false} TheRun(k: nat, draw: Draw)
    requires k <= 5 && Falls(draw)
    ensures RunJobs(Books(EMPTY, 0), Fills(k), draw) == Books(After(k), if k == 0 then 0 else TimeAt(k - 1))
  {
    hide RunJobs, JobStep, Proposals;
    if k == 0 {
      AllProposed(5, draw);
    } else {
      TheRun(k - 1, draw);
      JobAt(k - 1, draw);
      RunOneMore(Books(EMPTY, 0), Fills(k - 1), FillAt(k - 1), TimeAt(k - 1), draw);
    }
  }

  // ---- What it leaves --------------------------------------------------------------------------

  lemma SumNext(k: nat, w: Row -> real)
    ensures RowSum(Rows(k + 1), w) == RowSum(Rows(k), w) + w(RowAt(k))
  {
    assert Rows(k + 1)[..k] == Rows(k);
  }

  lemma FiveRows()
    ensures SharesOpened(After(5), 7) == 6.0 && SharesClosed(After(5), 7) == 9.0
  {
    var w, v := Opens(After(5), 7), Closes(After(5), 7);
    hide RowSum, Rows, Opens, Closes, SizeOf;
    NothingToSum(w);
    NothingToSum(v);
    forall k | 0 <= k < 5 ensures w(RowAt(k)) == (if k == 0 || k == 2 then 3.0 else 0.0) && v(RowAt(k)) == if k == 0 || k == 2 then 0.0 else 3.0 {
      RowShares(k);
    }
    SumNext(0, w); SumNext(1, w); SumNext(2, w); SumNext(3, w); SumNext(4, w);
    SumNext(0, v); SumNext(1, v); SumNext(2, v); SumNext(3, v); SumNext(4, v);
  }

  lemma RowShares(k: nat)
    requires k < 5
    ensures Opens(After(5), 7)(RowAt(k)) == if k == 0 || k == 2 then 3.0 else 0.0
    ensures Closes(After(5), 7)(RowAt(k)) == if k == 0 || k == 2 then 0.0 else 3.0
  {
    hide Rows;
  }

  lemma NothingToSum(w: Row -> real)
    ensures RowSum(Rows(0), w) == 0.0
  {
  }

  lemma {:induction false} NoneAmong(db: Tables, ids: seq<SignalId>)
    requires forall x :: !IsOpen(db, x)
    ensures OpenAmong(db, ids) == []
  {
    if ids != [] { NoneAmong(db, ids[..|ids| - 1]); }
  }

  lemma NoneOpen(db: Tables)
    requires forall x :: !IsOpen(db, x)
    ensures SharesOpen(db, 7) == 0.0
  {
    NoneAmong(db, LotIds(db.rows));
  }

  /**
   * The sell at the sweep's instant commits a closing row and leaves its lot listed as open; a later sell
   * closes the lot again; and in the end nine shares were closed of the six ever opened.
   */
  lemma TiedCloseTakesNoEffect(draw: Draw)
    requires Falls(draw)
    ensures var sold := RunJobs(Books(EMPTY, 0), Fills(4), draw).db;
            && sold.rows == Rows(4) && RowAt(3).signalId == 3 && RowAt(3).status == Closed && IsOpen(sold, 3)
    ensures var done := RunJobs(Books(EMPTY, 0), Fills(5), draw).db;
            && done.rows == Rows(5) && RowAt(4).signalId == 3 && RowAt(4).status == Closed
            && SharesOpened(done, 7) == 6.0 && SharesClosed(done, 7) == 9.0 && SharesOpen(done, 7) == 0.0
  {
    hide RunJobs, Newest, RowSum, Fills, Rows, ListOpenLots;
    TheRun(4, draw);
    TheRun(5, draw);
    Shows(4, 3);
    forall x ensures !IsOpen(After(5), x) { Shows(5, x); }
    FiveRows();
    NoneOpen(After(5));
  }

  /** Such draws exist. */
  lemma FallingDraw() returns (draw: Draw)
    ensures Falls(draw)
  {
    draw := (rows: seq<Row>, n: nat) => seq(n, _ => 10 - |rows|);
    forall rows ensures draw(rows, 1) == [10 - |rows|] {
    }
  }
}
