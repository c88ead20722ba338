/** What the indicators keep: causality, scale, bounds, mirror images and forgetting. */
module IndicatorLaws {
  import opened Prelude
  import opened Indicators
  import Money

  // ---- Causality: bar i reads bars 0..i -----------------------------------

  lemma {:induction false} EmaAtCausal(v: seq<real>, n: nat, p: nat, i: nat)
    requires 1 <= p && p - 1 <= i < n <= |v|
    ensures EmaAt(v[..n], p, i) == EmaAt(v, p, i)
  {
    if i == p - 1 {
      assert v[..n][..p] == v[..p];
    } else {
      EmaAtCausal(v, n, p, i - 1);
    }
  }

  /** Cutting the input short cuts the series short and changes nothing else. */
  lemma EmaCausal(v: seq<real>, n: nat, p: nat)
    requires 1 <= p && n <= |v|
    ensures EmaSeries(v[..n], p) == EmaSeries(v, p)[..n]
  {
    forall i | p - 1 <= i < n ensures EmaAt(v[..n], p, i) == EmaAt(v, p, i) {
      EmaAtCausal(v, n, p, i);
    }
  }

  lemma {:induction false} SumsCausal(c: seq<real>, n: nat, k: nat)
    requires k < n <= |c|
    ensures GainSum(c[..n], k) == GainSum(c, k) && LossSum(c[..n], k) == LossSum(c, k)
  {
    if k > 0 { SumsCausal(c, n, k - 1); }
  }

  lemma {:induction false} AveragesCausal(c: seq<real>, n: nat, p: nat, i: nat)
    requires 1 <= p <= i < n <= |c|
    ensures AveragesAt(c[..n], p, i) == AveragesAt(c, p, i)
  {
    if i == p { SumsCausal(c, n, p); } else { AveragesCausal(c, n, p, i - 1); }
  }

  lemma RsiCausal(c: seq<real>, n: nat, p: nat)
    requires 1 <= p && n <= |c|
    ensures RsiSeries(c[..n], p) == RsiSeries(c, p)[..n]
  {
    forall i | p <= i < n ensures RsiAt(c[..n], p, i) == RsiAt(c, p, i) {
      AveragesCausal(c, n, p, i);
    }
  }

  lemma MacdLineCausal(c: seq<real>, n: nat, fast: nat, slow: nat)
    requires 1 <= fast < slow && n <= |c|
    ensures MacdLine(c[..n], fast, slow) == MacdLine(c, fast, slow)[..if n < slow then 0 else n - slow + 1]
  {
    forall i | slow - 1 <= i < n
      ensures EmaAt(c[..n], fast, i) == EmaAt(c, fast, i) && EmaAt(c[..n], slow, i) == EmaAt(c, slow, i)
    {
      EmaAtCausal(c, n, fast, i);
      EmaAtCausal(c, n, slow, i);
    }
  }

  lemma MacdCausal(c: seq<real>, n: nat, fast: nat, slow: nat, signal: nat)
    requires 1 <= fast < slow && 1 <= signal && n <= |c|
    ensures MacdSeries(c[..n], fast, slow, signal) == MacdSeries(c, fast, slow, signal)[..n]
  {
    MacdLineCausal(c, n, fast, slow);
    var line := MacdLine(c, fast, slow);
    forall i | slow - 1 <= i < n
      ensures MacdAt(c[..n], fast, slow, signal, i) == MacdAt(c, fast, slow, signal, i)
    {
      var j := i - (slow - 1);
      if j >= signal - 1 { EmaAtCausal(line, n - slow + 1, signal, j); }
    }
  }

  // ---- Scale ---------------------------------------------------------------

  function Times(x: real, c: real): real {
    x * c
  }

  function Scaled(v: seq<real>, c: real): (w: seq<real>)
    ensures |w| == |v| && forall i :: 0 <= i < |v| ==> w[i] == Times(v[i], c)
  {
    seq(|v|, i requires 0 <= i < |v| => Times(v[i], c))
  }

  lemma TimesSum(x: real, y: real, c: real)
    ensures Times(x, c) + Times(y, c) == Times(x + y, c)
    ensures Times(x, c) - Times(y, c) == Times(x - y, c)
  {
  }

  lemma TimesKeepsSign(x: real, c: real)
    requires c > 0.0
    ensures x > 0.0 <==> Times(x, c) > 0.0
    ensures x < 0.0 <==> Times(x, c) < 0.0
  {
    if x > 0.0 { assert x * c > 0.0; }
    if x < 0.0 { assert -x * c > 0.0; }
    if x == 0.0 { assert x * c == 0.0; }
  }

  lemma {:induction false} SumScaled(v: seq<real>, c: real)
    ensures Sum(Scaled(v, c)) == Times(Sum(v), c)
  {
    if v == [] {
    } else {
      SumScaled(v[..|v| - 1], c);
      assert Scaled(v, c)[..|v| - 1] == Scaled(v[..|v| - 1], c);
      TimesSum(Sum(v[..|v| - 1]), v[|v| - 1], c);
    }
  }

  lemma MeanScaled(x: real, c: real, p: nat)
    requires 1 <= p
    ensures Mean(Times(x, c), p) == Times(Mean(x, p), c)
  {
  }

  lemma EmaStepScaled(x: real, y: real, k: real, c: real)
    ensures EmaStep(Times(x, c), Times(y, c), k) == Times(EmaStep(x, y, k), c)
  {
    assert (y * c - x * c) * k == (y - x) * k * c;
  }

  lemma {:induction false} EmaScaled(v: seq<real>, c: real, p: nat, i: nat)
    requires 1 <= p && p - 1 <= i < |v|
    ensures EmaAt(Scaled(v, c), p, i) == Times(EmaAt(v, p, i), c)
  {
    if i == p - 1 {
      SumScaled(v[..p], c);
      assert Scaled(v, c)[..p] == Scaled(v[..p], c);
      MeanScaled(Sum(v[..p]), c, p);
    } else {
      EmaScaled(v, c, p, i - 1);
      EmaStepScaled(EmaAt(v, p, i - 1), v[i], Weight(p), c);
    }
  }

  lemma ChangeScaled(x: real, y: real, c: real)
    requires c > 0.0
    ensures Gain(Times(y, c) - Times(x, c)) == Times(Gain(y - x), c)
    ensures Loss(Times(y, c) - Times(x, c)) == Times(Loss(y - x), c)
  {
    TimesSum(y, x, c);
    TimesKeepsSign(y - x, c);
  }

  lemma {:induction false} SumsScaled(v: seq<real>, c: real, n: nat)
    requires c > 0.0 && n < |v|
    ensures GainSum(Scaled(v, c), n) == Times(GainSum(v, n), c)
    ensures LossSum(Scaled(v, c), n) == Times(LossSum(v, n), c)
  {
    if n == 0 {
    } else {
      SumsScaled(v, c, n - 1);
      ChangeScaled(v[n - 1], v[n], c);
      TimesSum(GainSum(v, n - 1), Gain(v[n] - v[n - 1]), c);
      TimesSum(LossSum(v, n - 1), Loss(v[n] - v[n - 1]), c);
    }
  }

  lemma SmoothedScaled(previous: real, p: nat, latest: real, c: real)
    requires 1 <= p && previous >= 0.0 && latest >= 0.0 && c > 0.0
    ensures Times(previous, c) >= 0.0 && Times(latest, c) >= 0.0
    ensures Smoothed(Times(previous, c), p, Times(latest, c)) == Times(Smoothed(previous, p, latest), c)
  {
    TimesKeepsSign(previous, c);
    TimesKeepsSign(latest, c);
    var q := (p - 1) as real;
    assert previous * c * q + latest * c == (previous * q + latest) * c;
    MeanScaled(previous * q + latest, c, p);
  }

  lemma {:induction false} AveragesScaled(v: seq<real>, c: real, p: nat, i: nat)
    requires c > 0.0 && 1 <= p <= i < |v|
    ensures AveragesAt(Scaled(v, c), p, i)
            == Averages(Times(AveragesAt(v, p, i).gain, c), Times(AveragesAt(v, p, i).loss, c))
  {
    if i == p {
      SumsScaled(v, c, p);
      MeanScaled(GainSum(v, p), c, p);
      MeanScaled(LossSum(v, p), c, p);
    } else {
      AveragesScaled(v, c, p, i - 1);
      ChangeScaled(v[i - 1], v[i], c);
      var a, change := AveragesAt(v, p, i - 1), v[i] - v[i - 1];
      SmoothedScaled(a.gain, p, Gain(change), c);
      SmoothedScaled(a.loss, p, Loss(change), c);
    }
  }

  lemma RsiFromScaled(a: Averages, c: real)
    requires a.gain >= 0.0 && a.loss >= 0.0 && c > 0.0
    ensures Times(a.gain, c) >= 0.0 && Times(a.loss, c) >= 0.0
    ensures RsiFrom(Averages(Times(a.gain, c), Times(a.loss, c))) == RsiFrom(a)
  {
    TimesKeepsSign(a.gain, c);
    TimesKeepsSign(a.loss, c);
    if a.loss > 0.0 { RatioScaled(a.gain, a.loss, c); }
  }

  lemma RatioScaled(g: real, l: real, c: real)
    requires c > 0.0 && l > 0.0 && Times(l, c) > 0.0
    ensures Times(g, c) / Times(l, c) == g / l
  {
    assert g / l * l == g;
    assert g / l * (l * c) == g * c;
  }

  /** RSI has no unit: rescaling every price leaves it where it was. */
  lemma RsiScaleFree(v: seq<real>, c: real, p: nat)
    requires c > 0.0 && 1 <= p
    ensures RsiSeries(Scaled(v, c), p) == RsiSeries(v, p)
  {
    forall i | p <= i < |v| ensures RsiAt(Scaled(v, c), p, i) == RsiAt(v, p, i) {
      AveragesScaled(v, c, p, i);
      RsiFromScaled(AveragesAt(v, p, i), c);
    }
  }

  function ScaledPoint(m: MacdPoint, c: real): MacdPoint {
    MacdPoint(Times(m.macd, c),
              if m.signal == None then None else Some(Times(m.signal.value, c)),
              if m.histogram == None then None else Some(Times(m.histogram.value, c)))
  }

  lemma MacdLineScaled(v: seq<real>, c: real, fast: nat, slow: nat)
    requires 1 <= fast < slow
    ensures MacdLine(Scaled(v, c), fast, slow) == Scaled(MacdLine(v, fast, slow), c)
  {
    forall i | slow - 1 <= i < |v|
      ensures EmaAt(Scaled(v, c), fast, i) - EmaAt(Scaled(v, c), slow, i)
              == Times(EmaAt(v, fast, i) - EmaAt(v, slow, i), c)
    {
      EmaScaled(v, c, fast, i);
      EmaScaled(v, c, slow, i);
      TimesSum(EmaAt(v, fast, i), EmaAt(v, slow, i), c);
    }
  }

  /** MACD is in units of price: rescaling every price rescales the line, the signal and the gap. */
  lemma MacdScales(v: seq<real>, c: real, fast: nat, slow: nat, signal: nat, i: nat)
    requires 1 <= fast < slow && 1 <= signal && slow - 1 <= i < |v|
    ensures MacdAt(Scaled(v, c), fast, slow, signal, i) == ScaledPoint(MacdAt(v, fast, slow, signal, i), c)
  {
    MacdLineScaled(v, c, fast, slow);
    var line, j := MacdLine(v, fast, slow), i - (slow - 1);
    if j >= signal - 1 {
      EmaScaled(line, c, signal, j);
      TimesSum(line[j], EmaAt(line, signal, j), c);
    }
  }

  // ---- Mirror --------------------------------------------------------------

  function Mirrored(v: seq<real>, axis: real): (w: seq<real>)
    ensures |w| == |v| && forall i :: 0 <= i < |v| ==> w[i] == axis - v[i]
  {
    seq(|v|, i requires 0 <= i < |v| => axis - v[i])
  }

  lemma {:induction false} SumsMirrored(v: seq<real>, axis: real, n: nat)
    requires n < |v|
    ensures GainSum(Mirrored(v, axis), n) == LossSum(v, n) && LossSum(Mirrored(v, axis), n) == GainSum(v, n)
  {
    if n > 0 { SumsMirrored(v, axis, n - 1); }
  }

  lemma {:induction false} AveragesMirrored(v: seq<real>, axis: real, p: nat, i: nat)
    requires 1 <= p <= i < |v|
    ensures AveragesAt(Mirrored(v, axis), p, i) == Averages(AveragesAt(v, p, i).loss, AveragesAt(v, p, i).gain)
  {
    if i == p { SumsMirrored(v, axis, p); } else { AveragesMirrored(v, axis, p, i - 1); }
  }

  /**
   * Turning the chart upside down turns the index around 50, except on a stretch with no
   * change at all in either direction, where both readings are 100.
   */
  lemma RsiMirror(v: seq<real>, axis: real, p: nat, i: nat)
    requires 1 <= p <= i < |v|
    ensures RsiAt(Mirrored(v, axis), p, i) == 100.0 - RsiAt(v, p, i)
            <==> AveragesAt(v, p, i) != Averages(0.0, 0.0)
  {
    AveragesMirrored(v, axis, p, i);
    var a := AveragesAt(v, p, i);
    if a.gain > 0.0 && a.loss > 0.0 { SharesSumToOne(a.gain, a.loss); }
  }

  lemma SharesSumToOne(g: real, l: real)
    requires g > 0.0 && l > 0.0
    ensures 1.0 + g / l > 0.0 && 1.0 + l / g > 0.0
    ensures 100.0 / (1.0 + g / l) + 100.0 / (1.0 + l / g) == 100.0
  {
    var s := g + l;
    assert g / l * l == g && l / g * g == l;
    assert (1.0 + g / l) * l == s && (1.0 + l / g) * g == s;
    Quotient(1.0 + g / l, l, s);
    Quotient(1.0 + l / g, g, s);
    assert 100.0 * l / s + 100.0 * g / s == 100.0 * s / s;
  }

  lemma Quotient(q: real, d: real, s: real)
    requires d > 0.0 && s > 0.0 && q * d == s
    ensures q > 0.0 && 100.0 / q == 100.0 * d / s
  {
    assert 100.0 * d / s * q == 100.0 * (q * d) / s;
  }

  // ---- Bounds and forgetting ------------------------------------------------

  ghost predicate Within(v: seq<real>, n: nat, low: real, high: real)
    requires n <= |v|
  {
    forall i :: 0 <= i < n ==> low <= v[i] <= high
  }

  lemma {:induction false} SumWithin(v: seq<real>, low: real, high: real)
    requires Within(v, |v|, low, high)
    ensures low * |v| as real <= Sum(v) <= high * |v| as real
  {
    if v != [] {
      var w := v[..|v| - 1];
      assert forall i :: 0 <= i < |w| ==> w[i] == v[i];
      SumWithin(w, low, high);
      assert |v| as real == |w| as real + 1.0;
      assert low * |v| as real == low * |w| as real + low;
      assert high * |v| as real == high * |w| as real + high;
    }
  }

  lemma MeanWithin(sum: real, p: nat, low: real, high: real)
    requires 1 <= p && low * p as real <= sum <= high * p as real
    ensures low <= Mean(sum, p) <= high
  {
    var q := p as real;
    Money.DivMonotone(low * q, sum, q);
    Money.DivMonotone(sum, high * q, q);
  }

  lemma StepWithin(x: real, y: real, p: nat, low: real, high: real)
    requires 1 <= p && low <= x <= high && low <= y <= high
    ensures low <= EmaStep(x, y, Weight(p)) <= high
  {
    var k := Weight(p);
    Money.DivMonotone(2.0, (p + 1) as real, (p + 1) as real);
    assert 0.0 < k <= 1.0;
    if x <= y {
      Money.MulMonotone(y - x, 0.0, k);
      Money.MulMonotone(y - x, k, 1.0);
    } else {
      Money.MulMonotone(x - y, 0.0, k);
      Money.MulMonotone(x - y, k, 1.0);
      assert (y - x) * k == -((x - y) * k);
    }
  }

  /** An average never leaves the range of the values it averages. */
  lemma {:induction false} EmaWithin(v: seq<real>, p: nat, i: nat, low: real, high: real)
    requires 1 <= p && p - 1 <= i < |v| && Within(v, i + 1, low, high)
    ensures low <= EmaAt(v, p, i) <= high
  {
    if i == p - 1 {
      var w := v[..p];
      assert forall j :: 0 <= j < p ==> w[j] == v[j];
      SumWithin(w, low, high);
      MeanWithin(Sum(w), p, low, high);
    } else {
      EmaWithin(v, p, i - 1, low, high);
      StepWithin(EmaAt(v, p, i - 1), v[i], p, low, high);
    }
  }

  function Power(b: real, n: nat): real {
    if n == 0 then 1.0 else b * Power(b, n - 1)
  }

  function Decay(p: nat): real
    requires 1 <= p
  {
    (p - 1) as real / (p + 1) as real
  }

  lemma DecayComplements(p: nat)
    requires 1 <= p
    ensures Decay(p) == 1.0 - Weight(p)
  {
    var s := (p + 1) as real;
    assert (p - 1) as real == s - 2.0;
    assert (s - 2.0) / s == 1.0 - 2.0 / s;
  }

  lemma StepDifference(x: real, y: real, value: real, p: nat)
    requires 1 <= p
    ensures EmaStep(x, value, Weight(p)) - EmaStep(y, value, Weight(p)) == Times(x - y, Decay(p))
  {
    DecayComplements(p);
    var k := Weight(p);
    assert (value - x) * k == value * k - x * k;
    assert (value - y) * k == value * k - y * k;
    assert (x - y) * (1.0 - k) == x - y - (x * k - y * k);
  }

  lemma TimesAgain(gap: real, shrunk: real, d: real)
    ensures Times(Times(gap, shrunk), d) == Times(gap, d * shrunk)
  {
  }

  /** Whatever two histories an average started from, each shared bar shrinks the gap by (p-1)/(p+1). */
  lemma {:induction false} EmaForgets(v: seq<real>, w: seq<real>, p: nat, j: nat, i: nat)
    requires |v| == |w| && 1 <= p && p - 1 <= j <= i < |v|
    requires forall k :: j < k <= i ==> v[k] == w[k]
    ensures EmaAt(v, p, i) - EmaAt(w, p, i) == Times(EmaAt(v, p, j) - EmaAt(w, p, j), Power(Decay(p), i - j))
  {
    if i == j {
    } else {
      EmaForgets(v, w, p, j, i - 1);
      StepDifference(EmaAt(v, p, i - 1), EmaAt(w, p, i - 1), v[i], p);
      TimesAgain(EmaAt(v, p, j) - EmaAt(w, p, j), Power(Decay(p), i - 1 - j), Decay(p));
    }
  }
}
