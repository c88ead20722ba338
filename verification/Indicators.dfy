/** RSI, EMA and MACD over exact reals (backend/src/orchestrator/strategy/indicators.ts). */
module Indicators {
  import opened Prelude
  import Money

  datatype RangeError = PeriodNotPositive | FastNotShorterThanSlow

  type Series = seq<Option<real>>

  // ---- Exponential moving average ----------------------------------------

  function Sum(xs: seq<real>): real {
    if xs == [] then 0.0 else Sum(xs[..|xs| - 1]) + xs[|xs| - 1]
  }

  function Weight(p: nat): real
    requires 1 <= p
  {
    2.0 / (p + 1) as real
  }

  function EmaStep(previous: real, value: real, k: real): real {
    (value - previous) * k + previous
  }

  function Mean(sum: real, p: nat): (r: real)
    requires 1 <= p
    ensures sum >= 0.0 ==> r >= 0.0
  {
    sum / p as real
  }

  /** The average at bar `i`: seeded by a simple mean, then pulled towards each new value. */
  function EmaAt(v: seq<real>, p: nat, i: nat): real
    requires 1 <= p && p - 1 <= i < |v|
  {
    if i == p - 1 then Mean(Sum(v[..p]), p)
    else EmaStep(EmaAt(v, p, i - 1), v[i], Weight(p))
  }

  function EmaSeries(v: seq<real>, p: nat): Series
    requires 1 <= p
  {
    seq(|v|, i requires 0 <= i < |v| => if i < p - 1 then None else Some(EmaAt(v, p, i)))
  }

  method SumFirst(values: seq<real>, n: nat) returns (sum: real)
    requires n <= |values|
    ensures sum == Sum(values[..n])
  {
    sum := 0.0;
    for i := 0 to n
      invariant sum == Sum(values[..i])
    {
      assert values[..i + 1][..i] == values[..i];
      sum := sum + values[i];
    }
  }

  method Ema(values: seq<real>, period: int) returns (r: Result<Series, RangeError>)
    ensures period <= 0 ==> r == Failure(PeriodNotPositive)
    ensures period > 0 ==> r == Success(EmaSeries(values, period))
  {
    hide Mean, Weight, EmaStep;
    if period <= 0 { return Failure(PeriodNotPositive); }
    var out := new Option<real>[|values|](_ => None);
    if |values| < period {
      assert out[..] == EmaSeries(values, period);
      return Success(out[..]);
    }
    var sum := SumFirst(values, period);
    var previous := Mean(sum, period);
    out[period - 1] := Some(previous);
    var k := Weight(period);
    for i := period to |values|
      invariant previous == EmaAt(values, period, i - 1)
      invariant forall j :: 0 <= j < period - 1 ==> out[j] == None
      invariant forall j :: period - 1 <= j < i ==> out[j] == Some(EmaAt(values, period, j))
    {
      previous := EmaStep(previous, values[i], k);
      out[i] := Some(previous);
    }
    assert out[..] == EmaSeries(values, period);
    return Success(out[..]);
  }

  // ---- Relative strength index --------------------------------------------

  datatype Averages = Averages(gain: real, loss: real)

  function Gain(change: real): real {
    if change > 0.0 then change else 0.0
  }

  function Loss(change: real): real {
    if change < 0.0 then -change else 0.0
  }

  function GainSum(c: seq<real>, n: nat): (r: real)
    requires n < |c|
    ensures r >= 0.0
  {
    if n == 0 then 0.0 else GainSum(c, n - 1) + Gain(c[n] - c[n - 1])
  }

  function LossSum(c: seq<real>, n: nat): (r: real)
    requires n < |c|
    ensures r >= 0.0
  {
    if n == 0 then 0.0 else LossSum(c, n - 1) + Loss(c[n] - c[n - 1])
  }

  function Smoothed(previous: real, p: nat, latest: real): (r: real)
    requires 1 <= p && previous >= 0.0 && latest >= 0.0
    ensures r >= 0.0
  {
    assert previous * (p - 1) as real >= 0.0;
    (previous * (p - 1) as real + latest) / p as real
  }

  /** Wilder's two running averages at bar `i`; neither is ever negative. */
  function AveragesAt(c: seq<real>, p: nat, i: nat): (a: Averages)
    requires 1 <= p <= i < |c|
    ensures a.gain >= 0.0 && a.loss >= 0.0
  {
    if i == p then Averages(Mean(GainSum(c, p), p), Mean(LossSum(c, p), p))
    else
      var previous := AveragesAt(c, p, i - 1);
      var change := c[i] - c[i - 1];
      Averages(Smoothed(previous.gain, p, Gain(change)), Smoothed(previous.loss, p, Loss(change)))
  }

  /** The index always lies between 0 and 100. */
  function RsiFrom(a: Averages): (r: real)
    requires a.gain >= 0.0 && a.loss >= 0.0
    ensures 0.0 <= r <= 100.0
  {
    if a.loss == 0.0 then 100.0
    else
      var rs := a.gain / a.loss;
      assert rs >= 0.0 by { Money.DivMonotone(0.0, a.gain, a.loss); }
      ShareBounds(rs);
      100.0 - 100.0 / (1.0 + rs)
  }

  lemma ShareBounds(rs: real)
    requires rs >= 0.0
    ensures 0.0 <= 100.0 / (1.0 + rs) <= 100.0
  {
    Money.DivMonotone(0.0, 100.0, 1.0 + rs);
    Money.DivMonotone(100.0, 100.0 * (1.0 + rs), 1.0 + rs);
  }

  function RsiAt(c: seq<real>, p: nat, i: nat): (r: real)
    requires 1 <= p <= i < |c|
    ensures 0.0 <= r <= 100.0
  {
    RsiFrom(AveragesAt(c, p, i))
  }

  function RsiSeries(c: seq<real>, p: nat): Series
    requires 1 <= p
  {
    seq(|c|, i requires 0 <= i < |c| => if i < p then None else Some(RsiAt(c, p, i)))
  }

  method Rsi(closes: seq<real>, period: int) returns (r: Result<Series, RangeError>)
    ensures period <= 0 ==> r == Failure(PeriodNotPositive)
    ensures period > 0 ==> r == Success(RsiSeries(closes, period))
  {
    hide Mean, Smoothed, RsiFrom;
    if period <= 0 { return Failure(PeriodNotPositive); }
    var out := new Option<real>[|closes|](_ => None);
    if |closes| <= period {
      assert out[..] == RsiSeries(closes, period);
      return Success(out[..]);
    }
    var gainSum, lossSum := 0.0, 0.0;
    for i := 1 to period + 1
      invariant gainSum == GainSum(closes, i - 1) && lossSum == LossSum(closes, i - 1)
      invariant forall j :: 0 <= j < out.Length ==> out[j] == None
    {
      var change := closes[i] - closes[i - 1];
      if change >= 0.0 { gainSum := gainSum + change; } else { lossSum := lossSum - change; }
    }
    var avgGain, avgLoss := Mean(gainSum, period), Mean(lossSum, period);
    out[period] := Some(RsiFrom(Averages(avgGain, avgLoss)));
    for i := period + 1 to |closes|
      invariant Averages(avgGain, avgLoss) == AveragesAt(closes, period, i - 1)
      invariant forall j :: 0 <= j < period ==> out[j] == None
      invariant forall j :: period <= j < i ==> out[j] == Some(RsiAt(closes, period, j))
    {
      var change := closes[i] - closes[i - 1];
      var gain := if change > 0.0 then change else 0.0;
      var loss := if change < 0.0 then -change else 0.0;
      avgGain := Smoothed(avgGain, period, gain);
      avgLoss := Smoothed(avgLoss, period, loss);
      out[i] := Some(RsiFrom(Averages(avgGain, avgLoss)));
    }
    assert out[..] == RsiSeries(closes, period);
    return Success(out[..]);
  }

  // ---- MACD ---------------------------------------------------------------

  datatype MacdPoint = MacdPoint(macd: real, signal: Option<real>, histogram: Option<real>)

  /** Fast minus slow average, from the first bar both exist. */
  function MacdLine(c: seq<real>, fast: nat, slow: nat): (m: seq<real>)
    requires 1 <= fast < slow
    ensures |m| == if |c| < slow then 0 else |c| - slow + 1
  {
    seq(if |c| < slow then 0 else |c| - slow + 1,
        j requires 0 <= j && j + slow - 1 < |c| => EmaAt(c, fast, j + slow - 1) - EmaAt(c, slow, j + slow - 1))
  }

  /** The MACD reading at bar `i`, with its signal line and gap once the line has warmed up. */
  function MacdAt(c: seq<real>, fast: nat, slow: nat, signal: nat, i: nat): MacdPoint
    requires 1 <= fast < slow && 1 <= signal && slow - 1 <= i < |c|
  {
    var line, j := MacdLine(c, fast, slow), i - (slow - 1);
    if j < signal - 1 then MacdPoint(line[j], None, None)
    else MacdPoint(line[j], Some(EmaAt(line, signal, j)), Some(line[j] - EmaAt(line, signal, j)))
  }

  function MacdSeries(c: seq<real>, fast: nat, slow: nat, signal: nat): seq<Option<MacdPoint>>
    requires 1 <= fast < slow && 1 <= signal
  {
    seq(|c|, i requires 0 <= i < |c| => if i < slow - 1 then None else Some(MacdAt(c, fast, slow, signal, i)))
  }

  method Macd(closes: seq<real>, fastPeriod: int, slowPeriod: int, signalPeriod: int)
    returns (r: Result<seq<Option<MacdPoint>>, RangeError>)
    ensures fastPeriod >= slowPeriod ==> r == Failure(FastNotShorterThanSlow)
    ensures fastPeriod < slowPeriod && (fastPeriod <= 0 || signalPeriod <= 0) ==> r == Failure(PeriodNotPositive)
    ensures 0 < fastPeriod < slowPeriod && 0 < signalPeriod ==>
              r == Success(MacdSeries(closes, fastPeriod, slowPeriod, signalPeriod))
  {
    if fastPeriod >= slowPeriod { return Failure(FastNotShorterThanSlow); }
    var out := new Option<MacdPoint>[|closes|](_ => None);
    var fast := Ema(closes, fastPeriod);
    if fast.Failure? { return Failure(fast.error); }
    var slow := Ema(closes, slowPeriod);

    var macdValues: seq<real>, macdIndices: seq<nat> := [], [];
    ghost var line := MacdLine(closes, fastPeriod, slowPeriod);
    for i := 0 to |closes|
      invariant |macdValues| == |macdIndices| == if i < slowPeriod then 0 else i - slowPeriod + 1
      invariant forall j :: 0 <= j < |macdValues| ==> macdValues[j] == line[j] && macdIndices[j] == j + slowPeriod - 1
    {
      var f, s := fast.value[i], slow.value[i];
      if f == None || s == None { continue; }
      macdValues := macdValues + [f.value - s.value];
      macdIndices := macdIndices + [i];
    }
    assert macdValues == line;
    var signalValues := Ema(macdValues, signalPeriod);
    if signalValues.Failure? { return Failure(signalValues.error); }
    for j := 0 to |macdValues|
      invariant forall i :: 0 <= i < slowPeriod - 1 && i < out.Length ==> out[i] == None
      invariant forall i :: slowPeriod - 1 <= i < slowPeriod - 1 + j ==>
                  out[i] == Some(MacdAt(closes, fastPeriod, slowPeriod, signalPeriod, i))
    {
      var index, macdValue, signalValue := macdIndices[j], macdValues[j], signalValues.value[j];
      out[index] := Some(MacdPoint(macdValue, signalValue,
                                   if signalValue == None then None else Some(macdValue - signalValue.value)));
    }
    assert out[..] == MacdSeries(closes, fastPeriod, slowPeriod, signalPeriod);
    return Success(out[..]);
  }
}
