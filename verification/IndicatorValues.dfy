/** What the indicators read: known values on steady charts, Wilder's memory, and RSI as a share. */
module IndicatorValues {
  import opened Prelude
  import opened Indicators
  import opened IndicatorLaws

  // ---- A steady climb or fall -------------------------------------------------------------

  /** Every bar is `b` above the one before. */
  predicate Steady(v: seq<real>, b: real) {
    forall i :: 1 <= i < |v| ==> v[i] == v[i - 1] + b
  }

  /** How far an average of period `p` trails a steady climb of `b` a bar. */
  function Lag(b: real, p: nat): real
    requires 1 <= p
  {
    b * (p - 1) as real / 2.0
  }

  lemma {:induction false} SumSteady(v: seq<real>, b: real)
    requires v != [] && Steady(v, b)
    ensures var n := |v| as real; 2.0 * Sum(v) == 2.0 * n * v[|v| - 1] - b * n * (n - 1.0)
  {
    var front, n := v[..|v| - 1], |v| as real;
    if front == [] {
      assert Sum(front) == 0.0;
    } else {
      SumSteady(front, b);
      var last := v[|v| - 1];
      assert front[|front| - 1] == last - b && |front| as real == n - 1.0;
      Expand(n, last, b, Sum(front));
    }
  }

  lemma Expand(n: real, last: real, b: real, sum: real)
    requires 2.0 * sum == 2.0 * (n - 1.0) * (last - b) - b * (n - 1.0) * (n - 2.0)
    ensures 2.0 * (sum + last) == 2.0 * n * last - b * n * (n - 1.0)
  {
    assert (n - 1.0) * (last - b) == n * last - last - n * b + b;
    assert b * (n - 1.0) * (n - 2.0) == b * n * n - 3.0 * b * n + 2.0 * b;
    assert b * n * (n - 1.0) == b * n * n - b * n;
  }

  lemma SeedLags(sum: real, last: real, b: real, p: nat)
    requires 1 <= p && 2.0 * sum == 2.0 * p as real * last - b * p as real * (p as real - 1.0)
    ensures Mean(sum, p) == last - Lag(b, p)
  {
    var q := p as real;
    assert Lag(b, p) * q == b * q * (q - 1.0) / 2.0;
    assert (last - Lag(b, p)) * q == sum;
    assert (last - Lag(b, p)) * q / q == last - Lag(b, p);
  }

  lemma StepLags(last: real, b: real, p: nat)
    requires 1 <= p
    ensures EmaStep(last - Lag(b, p), last + b, Weight(p)) == last + b - Lag(b, p)
  {
    var k, s := Weight(p), (p + 1) as real;
    assert k * s == 2.0;
    assert b + Lag(b, p) == b * s / 2.0;
    assert b * s / 2.0 * k == b * (k * s) / 2.0;
  }

  /** An average of period `p` trails a steady climb by exactly half of `p - 1` bars. */
  lemma {:induction false} EmaTrails(v: seq<real>, b: real, p: nat, i: nat)
    requires 1 <= p && p - 1 <= i < |v| && Steady(v, b)
    ensures EmaAt(v, p, i) == v[i] - Lag(b, p)
  {
    if i == p - 1 {
      SumSteady(v[..p], b);
      SeedLags(Sum(v[..p]), v[i], b, p);
    } else {
      EmaTrails(v, b, p, i - 1);
      StepLags(v[i - 1], b, p);
    }
  }

  /**
   * So on a steady climb of `b` a bar MACD reads `b` times half the difference of its two periods, its signal
   * line the same, and the histogram zero: above zero while prices climb, below while they fall.
   */
  lemma MacdOnASteadyChart(v: seq<real>, b: real, fast: nat, slow: nat, signal: nat, i: nat)
    requires 1 <= fast < slow && 1 <= signal && slow - 1 <= i < |v| && Steady(v, b)
    ensures var m := MacdAt(v, fast, slow, signal, i);
            && m.macd == b * (slow - fast) as real / 2.0
            && (i >= slow + signal - 2 ==> m.signal == Some(m.macd) && m.histogram == Some(0.0))
  {
    hide EmaAt, Lag;
    var line, level := MacdLine(v, fast, slow), b * (slow - fast) as real / 2.0;
    LineOnASteadyChart(v, b, fast, slow);
    var j := i - (slow - 1);
    if j >= signal - 1 {
      assert Steady(line, 0.0);
      EmaTrails(line, 0.0, signal, j);
      NoLag(signal);
    }
  }

  lemma NoLag(p: nat)
    requires 1 <= p
    ensures Lag(0.0, p) == 0.0
  {
  }

  lemma LagsDiffer(b: real, fast: nat, slow: nat)
    requires 1 <= fast < slow
    ensures Lag(b, slow) - Lag(b, fast) == b * (slow - fast) as real / 2.0
  {
    assert (slow - 1) as real - (fast - 1) as real == (slow - fast) as real;
    assert b * (slow - 1) as real - b * (fast - 1) as real == b * (slow - fast) as real;
  }

  lemma LineOnASteadyChart(v: seq<real>, b: real, fast: nat, slow: nat)
    requires 1 <= fast < slow && Steady(v, b)
    ensures forall j :: 0 <= j < |MacdLine(v, fast, slow)| ==> MacdLine(v, fast, slow)[j] == b * (slow - fast) as real / 2.0
  {
    hide EmaAt, Lag;
    var line := MacdLine(v, fast, slow);
    LagsDiffer(b, fast, slow);
    forall j | 0 <= j < |line| ensures line[j] == Lag(b, slow) - Lag(b, fast) {
      EmaTrails(v, b, fast, j + slow - 1);
      EmaTrails(v, b, slow, j + slow - 1);
    }
  }

  lemma {:induction false} SumsSteady(v: seq<real>, b: real, n: nat)
    requires n < |v| && Steady(v, b)
    ensures GainSum(v, n) == Gain(b) * n as real && LossSum(v, n) == Loss(b) * n as real
  {
    if n > 0 {
      SumsSteady(v, b, n - 1);
      assert v[n] - v[n - 1] == b;
      assert Gain(b) * n as real == Gain(b) * (n - 1) as real + Gain(b);
      assert Loss(b) * n as real == Loss(b) * (n - 1) as real + Loss(b);
    }
  }

  lemma MeanOf(sum: real, x: real, p: nat)
    requires 1 <= p && sum == x * p as real
    ensures Mean(sum, p) == x
  {
  }

  lemma NeverNegative(b: real)
    ensures Gain(b) >= 0.0 && Loss(b) >= 0.0
  {
  }

  lemma SmoothedAgain(x: real, p: nat)
    requires 1 <= p && x >= 0.0
    ensures Smoothed(x, p, x) == x
  {
    var q := p as real;
    assert (p - 1) as real == q - 1.0;
    assert x * (q - 1.0) + x == x * q;
    assert x * q / q == x;
  }

  /** On a steady chart Wilder's averages are the change itself, all of it gain or all of it loss. */
  lemma {:induction false} AveragesOnASteadyChart(v: seq<real>, b: real, p: nat, i: nat)
    requires 1 <= p <= i < |v| && Steady(v, b)
    ensures AveragesAt(v, p, i) == Averages(Gain(b), Loss(b))
  {
    hide Mean, Smoothed, Gain, Loss, GainSum, LossSum;
    if i == p {
      SumsSteady(v, b, p);
      MeanOf(GainSum(v, p), Gain(b), p);
      MeanOf(LossSum(v, p), Loss(b), p);
    } else {
      AveragesOnASteadyChart(v, b, p, i - 1);
      assert v[i] - v[i - 1] == b;
      NeverNegative(b);
      SmoothedAgain(Gain(b), p);
      SmoothedAgain(Loss(b), p);
    }
  }

  /** So RSI reads 100 while prices climb or stand still, and 0 while they fall. */
  lemma RsiOnASteadyChart(v: seq<real>, b: real, p: nat, i: nat)
    requires 1 <= p <= i < |v| && Steady(v, b)
    ensures RsiAt(v, p, i) == if b >= 0.0 then 100.0 else 0.0
  {
    AveragesOnASteadyChart(v, b, p, i);
  }

  // ---- RSI is a share ---------------------------------------------------------------------

  /** RSI is the gains' share of all movement, in percent; without movement it is 100. */
  lemma RsiIsTheGainsShare(a: Averages)
    requires a.gain >= 0.0 && a.loss >= 0.0
    ensures if a.gain + a.loss == 0.0 then RsiFrom(a) == 100.0 else RsiFrom(a) == 100.0 * a.gain / (a.gain + a.loss)
  {
    var g, l := a.gain, a.loss;
    if l > 0.0 {
      var s := g + l;
      assert g / l * l == g;
      assert (1.0 + g / l) * l == s;
      Quotient(1.0 + g / l, l, s);
      TheRest(g, l, s);
    } else if g > 0.0 {
      assert 100.0 * g / g == 100.0;
    }
  }

  lemma TheRest(g: real, l: real, s: real)
    requires s > 0.0 && g + l == s
    ensures 100.0 - 100.0 * l / s == 100.0 * g / s
  {
    assert 100.0 * g / s + 100.0 * l / s == (100.0 * g + 100.0 * l) / s;
    assert 100.0 * s / s == 100.0;
  }

  // ---- Wilder's memory ----------------------------------------------------------------------

  /** What a bar keeps of the average before it. */
  function Keeps(p: nat): real
    requires 1 <= p
  {
    (p - 1) as real / p as real
  }

  lemma SmoothedDifference(x: real, y: real, latest: real, p: nat)
    requires 1 <= p && x >= 0.0 && y >= 0.0 && latest >= 0.0
    ensures Smoothed(x, p, latest) - Smoothed(y, p, latest) == Times(x - y, Keeps(p))
  {
    var q, r := p as real, (p - 1) as real;
    assert (x * r + latest) / q - (y * r + latest) / q == (x * r - y * r) / q;
    assert x * r - y * r == (x - y) * r;
    assert (x - y) * r / q == (x - y) * (r / q);
  }

  lemma OneBarMore(x: real, y: real, latest: real, gap: real, n: nat, p: nat)
    requires 1 <= p && x >= 0.0 && y >= 0.0 && latest >= 0.0 && x - y == Times(gap, Power(Keeps(p), n))
    ensures Smoothed(x, p, latest) - Smoothed(y, p, latest) == Times(gap, Power(Keeps(p), n + 1))
  {
    SmoothedDifference(x, y, latest, p);
    hide Smoothed, Keeps;
    TimesAgain(gap, Power(Keeps(p), n), Keeps(p));
  }

  lemma NoBarMore(gap: real, p: nat)
    requires 1 <= p
    ensures Times(gap, Power(Keeps(p), 0)) == gap
  {
  }

  /** Whatever two histories the averages started from, each shared change shrinks their gap by (p-1)/p. */
  lemma {:induction false} WilderForgets(v: seq<real>, w: seq<real>, p: nat, j: nat, i: nat)
    requires |v| == |w| && 1 <= p <= j <= i < |v|
    requires forall k :: j < k <= i ==> v[k] - v[k - 1] == w[k] - w[k - 1]
    ensures AveragesAt(v, p, i).gain - AveragesAt(w, p, i).gain
            == Times(AveragesAt(v, p, j).gain - AveragesAt(w, p, j).gain, Power(Keeps(p), i - j))
    ensures AveragesAt(v, p, i).loss - AveragesAt(w, p, i).loss
            == Times(AveragesAt(v, p, j).loss - AveragesAt(w, p, j).loss, Power(Keeps(p), i - j))
  {
    hide Smoothed, Mean, GainSum, LossSum, Gain, Loss, Times, Power, Keeps;
    var gains := AveragesAt(v, p, j).gain - AveragesAt(w, p, j).gain;
    var losses := AveragesAt(v, p, j).loss - AveragesAt(w, p, j).loss;
    if i == j {
      NoBarMore(gains, p);
      NoBarMore(losses, p);
    } else {
      WilderForgets(v, w, p, j, i - 1);
      var a, b, change := AveragesAt(v, p, i - 1), AveragesAt(w, p, i - 1), v[i] - v[i - 1];
      assert change == w[i] - w[i - 1];
      NeverNegative(change);
      OneBarMore(a.gain, b.gain, Gain(change), gains, i - 1 - j, p);
      OneBarMore(a.loss, b.loss, Loss(change), losses, i - 1 - j, p);
    }
  }
}
