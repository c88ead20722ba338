/** What the published win rate, average return and realized total say of the lots closed (trackRecordStats.ts:44-77). */
module TrackRecordLaws {
  import opened Prelude
  import opened Ledger
  import opened Lots
  import opened Sums
  import opened LotRuns
  import opened Stats
  import Money
  import PublishedHistory
  import CurveIdentity
  import FillRows

  /** What `computeTrackRecord` counts as closed. */
  function ClosedTrades(db: Tables): seq<StatRow>
    requires KnownRows(db)
  {
    WithStatus(Current(ListAllRows(db)), Closed)
  }

  /** A row that closes a lot at a price, with the gain it made. */
  ghost predicate SaysItsTrade(r: StatRow) {
    r.exitPrice.Some? && r.realizedPnl == Some(Gain(r.exitPrice.value, r.entryPrice, r.quantity.value))
  }

  // ---- Where closed rows come from ------------------------------------------------------------

  lemma {:induction false} HeldIsListed(rows: seq<StatRow>, id: SignalId)
    ensures Latest(rows, id).Some? ==> Latest(rows, id).value in rows
  {
    if rows != [] {
      assert rows == rows[..|rows| - 1] + [rows[|rows| - 1]];
      HeldIsListed(rows[..|rows| - 1], id);
    }
  }

  lemma {:induction false} CurrentIsListed(rows: seq<StatRow>, ids: seq<SignalId>)
    ensures forall r :: r in LatestOf(rows, ids) ==> r in rows
  {
    hide Latest;
    if ids != [] {
      CurrentIsListed(rows, ids[..|ids| - 1]);
      HeldIsListed(rows, ids[|ids| - 1]);
    }
  }

  lemma {:induction false} StatusIsMember(rows: seq<StatRow>, status: LotStatus)
    ensures forall r :: r in WithStatus(rows, status) <==> r in rows && r.status == status
  {
    if rows != [] {
      assert rows == rows[..|rows| - 1] + [rows[|rows| - 1]];
      StatusIsMember(rows[..|rows| - 1], status);
    }
  }

  lemma ClosedRowSaysItsTrade(b: Books, q: Row)
    requires BooksSound(b) && q in b.db.rows && q.status == Closed
    ensures SaysItsTrade(Sized(b.db, q))
  {
    var id := q.signalId;
    var rs, size := RowsOf(b.db.rows, id), LotSize(b.db, id);
    RowsOfHas(b.db.rows, q);
    SoundLot(b, id);
    hide BooksSound, LotHistory, RowsOf, Gain;
    CurveIdentity.ClosingGain(rs, size, q);
    MembersAgree(rs, size, q);
  }

  /** In every run, whatever ids are drawn, each trade counted as closed says its exit, and the gain made by it. */
  lemma ClosedTradesSayTheirGains(b: Books)
    requires BooksSound(b)
    ensures KnownRows(b.db)
    ensures forall r :: r in ClosedTrades(b.db) ==> SaysItsTrade(r)
  {
    CurveIdentity.SoundKnowsItsRows(b);
    hide BooksSound, Gain, Latest, Seen;
    var rows := ListAllRows(b.db);
    CurrentIsListed(rows, Seen(rows));
    StatusIsMember(Current(rows), Closed);
    PublishedHistory.ListedRows(b.db);
    forall r | r in ClosedTrades(b.db) ensures SaysItsTrade(r) {
      var q :| q in b.db.rows && Sized(b.db, q) == r;
      ClosedRowSaysItsTrade(b, q);
    }
  }

  // ---- Win rate ---------------------------------------------------------------------------------

  /** Trades left above the price they were entered at. */
  function LeftAbove(rows: seq<StatRow>): nat {
    if rows == [] then 0
    else
      var r := rows[|rows| - 1];
      LeftAbove(rows[..|rows| - 1]) + if r.exitPrice.Some? && r.exitPrice.value > r.entryPrice then 1 else 0
  }

  lemma GainSign(exit: real, entry: real, size: real)
    requires size > 0.0
    ensures Gain(exit, entry, size) > 0.0 <==> exit > entry
  {
    if exit > entry { assert (exit - entry) * size > 0.0; }
    if exit < entry { assert (entry - exit) * size > 0.0; assert Gain(exit, entry, size) == -((entry - exit) * size); }
  }

  lemma {:induction false} WinsAreLeftAbove(rows: seq<StatRow>)
    requires forall r :: r in rows ==> SaysItsTrade(r) && r.quantity.value > 0.0
    ensures Wins(rows) == LeftAbove(rows)
  {
    if rows != [] {
      var front, r := rows[..|rows| - 1], rows[|rows| - 1];
      assert rows == front + [r] && SaysItsTrade(r);
      WinsAreLeftAbove(front);
      GainSign(r.exitPrice.value, r.entryPrice, r.quantity.value);
    }
  }

  /** The win rate is the share of closed trades left above their entry; with none closed there is no answer. */
  lemma WinRateCountsRises(b: Books)
    requires BooksSound(b) && KnownRows(b.db) && forall r :: r in ClosedTrades(b.db) ==> r.quantity.value > 0.0
    ensures var closed := ClosedTrades(b.db); var rate := Average(Wins(closed) as real, |closed|);
            && (rate == None <==> closed == [])
            && (rate.Some? ==> rate.value * |closed| as real == LeftAbove(closed) as real && 0.0 <= rate.value <= 1.0)
  {
    hide BooksSound, ClosedTrades;
    ClosedTradesSayTheirGains(b);
    var closed := ClosedTrades(b.db);
    WinsAreLeftAbove(closed);
    if closed != [] { ShareOf(Wins(closed), |closed|); }
  }

  lemma ShareOf(k: nat, n: nat)
    requires k <= n && n > 0
    ensures k as real / n as real * n as real == k as real && 0.0 <= k as real / n as real <= 1.0
  {
    var x, y := k as real, n as real;
    assert x / y * y == x;
    Money.DivMonotone(0.0, x, y);
    Money.DivMonotone(x, y, y);
  }

  // ---- Average return -----------------------------------------------------------------------------

  /** What a trade returned on what it cost: its exit over its entry, less one, however many shares it had. */
  function ReturnOf(r: StatRow): real {
    if r.entryPrice == 0.0 || r.quantity.value == 0.0 || r.exitPrice == None then 0.0 else r.exitPrice.value / r.entryPrice - 1.0
  }

  function ReturnsSum(rows: seq<StatRow>): real {
    if rows == [] then 0.0 else ReturnsSum(rows[..|rows| - 1]) + ReturnOf(rows[|rows| - 1])
  }

  lemma ReturnIgnoresSize(exit: real, entry: real, size: real)
    requires entry != 0.0 && size != 0.0
    ensures entry * size != 0.0 && Gain(exit, entry, size) / (entry * size) == exit / entry - 1.0
  {
    var basis := entry * size;
    assert exit / entry * entry == exit;
    assert (exit / entry - 1.0) * basis == (exit / entry * entry - entry) * size;
    Divides(exit / entry - 1.0, basis, Gain(exit, entry, size));
  }

  lemma Divides(quotient: real, basis: real, product: real)
    requires basis != 0.0 && quotient * basis == product
    ensures product / basis == quotient
  {
  }

  lemma {:induction false} ReturnsAreReturnsSum(rows: seq<StatRow>)
    requires forall r :: r in rows ==> SaysItsTrade(r)
    ensures Returns(rows) == ReturnsSum(rows)
  {
    if rows != [] {
      var front, r := rows[..|rows| - 1], rows[|rows| - 1];
      assert rows == front + [r] && SaysItsTrade(r);
      ReturnsAreReturnsSum(front);
      OneReturn(r);
    }
  }

  lemma OneReturn(r: StatRow)
    requires SaysItsTrade(r)
    ensures var basis := r.entryPrice * r.quantity.value;
            (if basis == 0.0 then 0.0 else OrZero(r.realizedPnl) / basis) == ReturnOf(r)
  {
    if r.entryPrice != 0.0 && r.quantity.value != 0.0 {
      ReturnIgnoresSize(r.exitPrice.value, r.entryPrice, r.quantity.value);
    }
  }

  /** The average return is the plain mean of exit over entry less one; the sizes of the trades do not weigh in. */
  lemma AverageReturnIsUnweighted(b: Books)
    requires BooksSound(b) && KnownRows(b.db)
    ensures var closed := ClosedTrades(b.db); var average := Average(Returns(closed), |closed|);
            && (average == None <==> closed == [])
            && (average.Some? ==> average.value * |closed| as real == ReturnsSum(closed))
  {
    hide BooksSound, ClosedTrades;
    ClosedTradesSayTheirGains(b);
    var closed := ClosedTrades(b.db);
    ReturnsAreReturnsSum(closed);
    if closed != [] { MeanTimesCount(ReturnsSum(closed), |closed|); }
  }

  lemma MeanTimesCount(x: real, n: nat)
    requires n > 0
    ensures x / n as real * n as real == x
  {
  }

  // ---- Realized total -------------------------------------------------------------------------------

  function Proceeds(r: StatRow): real {
    if r.exitPrice == None then 0.0 else r.exitPrice.value * r.quantity.value
  }

  function Cost(r: StatRow): real {
    r.entryPrice * r.quantity.value
  }

  function SumOf(rows: seq<StatRow>, f: StatRow -> real): real {
    if rows == [] then 0.0 else SumOf(rows[..|rows| - 1], f) + f(rows[|rows| - 1])
  }

  lemma {:induction false} RealizedAdds(rows: seq<StatRow>)
    requires forall r :: r in rows ==> SaysItsTrade(r)
    ensures Realized(rows) == SumOf(rows, Proceeds) - SumOf(rows, Cost)
  {
    if rows != [] {
      var front, r := rows[..|rows| - 1], rows[|rows| - 1];
      assert rows == front + [r] && SaysItsTrade(r);
      RealizedAdds(front);
      FillRows.GainIsProceedsLessCost(r.exitPrice.value, r.entryPrice, r.quantity.value);
    }
  }

  /** The published realized total is what the closed trades brought in less what they cost. */
  lemma RealizedIsProceedsLessCost(b: Books)
    requires BooksSound(b) && KnownRows(b.db)
    ensures var closed := ClosedTrades(b.db); Realized(closed) == SumOf(closed, Proceeds) - SumOf(closed, Cost)
  {
    hide BooksSound, ClosedTrades;
    ClosedTradesSayTheirGains(b);
    RealizedAdds(ClosedTrades(b.db));
  }
}
