/** Decimal money arithmetic (backend/src/money.ts), exact apart from its explicit rounding. */
module Money {
  datatype Side = Buy | Sell

  function Abs(x: real): real {
    if x < 0.0 then -x else x
  }

  /** Nearest integer; a tie goes away from zero. */
  function RoundHalfUp(x: real): (r: int)
    ensures Abs(x - r as real) <= 0.5
    ensures Abs(x - r as real) == 0.5 ==> Abs(r as real) > Abs(x)
  {
    if x >= 0.0 then (x + 0.5).Floor else -((-x + 0.5).Floor)
  }

  lemma RoundMonotone(x: real, y: real)
    requires x <= y
    ensures RoundHalfUp(x) <= RoundHalfUp(y)
  {
  }

  predicate Whole(x: real) {
    x.Floor as real == x
  }

  lemma RoundWhole(n: int)
    ensures RoundHalfUp(n as real) == n
  {
  }

  function ToDecimals(x: real, unit: real): real
    requires unit > 0.0
  {
    RoundHalfUp(x * unit) as real / unit
  }

  lemma ToDecimalsMonotone(x: real, y: real, unit: real)
    requires unit > 0.0 && x <= y
    ensures ToDecimals(x, unit) <= ToDecimals(y, unit)
  {
    MulMonotone(unit, x, y);
    RoundMonotone(x * unit, y * unit);
    DivMonotone(RoundHalfUp(x * unit) as real, RoundHalfUp(y * unit) as real, unit);
  }

  lemma MulMonotone(z: real, x: real, y: real)
    requires x <= y && z >= 0.0
    ensures z * x <= z * y && x * z <= y * z
  {
    var d := y - x;
    assert z * d >= 0.0;
    assert z * (x + d) == z * x + z * d;
  }

  lemma DivMonotone(x: real, y: real, z: real)
    requires x <= y && z > 0.0
    ensures x / z <= y / z
  {
    assert y / z - x / z == (y - x) / z;
  }

  /** Notional value of `quantity` shares at `price`, in integer cents. */
  function NotionalCents(quantity: real, price: real): int {
    RoundHalfUp(quantity * price * 100.0)
  }

  /** The cents nearest the exact value, half a cent going away from zero. */
  lemma NotionalIsNearest(quantity: real, price: real)
    ensures var exact, cents := quantity * price * 100.0, NotionalCents(quantity, price) as real;
            Abs(exact - cents) <= 0.5 && (Abs(exact - cents) == 0.5 ==> Abs(cents) > Abs(exact))
  {
  }

  /** Whole shares a target notional affords: the most it pays for, never one more. */
  function SharesForNotional(targetCents: int, price: real): (n: int)
    ensures price <= 0.0 ==> n == 0
    ensures price > 0.0 ==> n as real * (price * 100.0) <= targetCents as real < n as real * (price * 100.0) + price * 100.0
  {
    var priceCents := price * 100.0;
    if priceCents <= 0.0 then 0
    else
      FloorBounds(targetCents as real, priceCents);
      (targetCents as real / priceCents).Floor
  }

  lemma FloorBounds(x: real, y: real)
    requires y > 0.0
    ensures (x / y).Floor as real * y <= x < (x / y).Floor as real * y + y
  {
    assert x / y * y == x;
    Between(y, (x / y).Floor as real, x / y, x);
  }

  lemma Between(z: real, low: real, mid: real, product: real)
    requires z > 0.0 && low <= mid < low + 1.0 && mid * z == product
    ensures low * z <= product < low * z + z
  {
    MulMonotone(z, low, mid);
    var d := low + 1.0 - mid;
    assert d * z > 0.0;
    calc {
      product + d * z;
      (mid + d) * z;
      { assert mid + d == low + 1.0; }
      (low + 1.0) * z;
      low * z + z;
    }
  }

  function SlippageMultiplier(side: Side, bps: int): real {
    if side == Buy then 1.0 + bps as real / 10000.0 else 1.0 - bps as real / 10000.0
  }

  /** The reference price made worse for the trader by `bps` basis points, to six decimals. */
  function ApplySlippage(price: real, side: Side, bps: int): real {
    Slipped(price, SlippageMultiplier(side, bps))
  }

  function Slipped(price: real, multiplier: real): real {
    ToDecimals(price * multiplier, 1000000.0)
  }

  /** The price so many basis points worse for the trader. */
  function Worse(price: real, side: Side, bps: int): real {
    if side == Buy then price + price * bps as real / 10000.0 else price - price * bps as real / 10000.0
  }

  /** The slipped price is a whole number of millionths, within half of one of the price that much worse. */
  lemma SlippedPrice(price: real, side: Side, bps: int)
    ensures var slipped := ApplySlippage(price, side, bps);
            Whole(slipped * 1000000.0) && Abs(slipped - Worse(price, side, bps)) <= 0.0000005
  {
    hide ToDecimals, Worse, SlippageMultiplier, Slipped, Whole;
    var m, worse := SlippageMultiplier(side, bps), Worse(price, side, bps);
    MultiplierIsWorse(price, side, bps);
    SlippedAs(price, m, worse);
    RoundedWithin(worse, 1000000.0);
  }

  lemma MultiplierIsWorse(price: real, side: Side, bps: int)
    ensures price * SlippageMultiplier(side, bps) == Worse(price, side, bps)
  {
    Multiplied(price, bps as real);
  }

  lemma SlippedAs(price: real, m: real, product: real)
    requires price * m == product
    ensures Slipped(price, m) == ToDecimals(product, 1000000.0)
  {
    hide ToDecimals;
  }

  lemma Multiplied(price: real, b: real)
    ensures price * (1.0 + b / 10000.0) == price + price * b / 10000.0
    ensures price * (1.0 - b / 10000.0) == price - price * b / 10000.0
  {
    assert price * (b / 10000.0) == price * b / 10000.0;
  }

  /** Rounding to so many parts of one leaves a whole number of parts, at most half a part away. */
  lemma RoundedWithin(x: real, unit: real)
    requires unit > 0.0
    ensures Whole(ToDecimals(x, unit) * unit) && Abs(ToDecimals(x, unit) - x) <= 0.5 / unit
  {
    RoundedParts(x, unit);
    WholeNumber(RoundHalfUp(x * unit));
    Divided(0.5, unit);
    hide ToDecimals, Whole;
    WithinHalf(ToDecimals(x, unit), x, 0.5 / unit, unit);
  }

  lemma RoundedParts(x: real, unit: real)
    requires unit > 0.0
    ensures ToDecimals(x, unit) * unit == RoundHalfUp(x * unit) as real
  {
    Divided(RoundHalfUp(x * unit) as real, unit);
  }

  lemma WholeNumber(n: int)
    ensures Whole(n as real)
  {
  }

  lemma Divided(x: real, unit: real)
    requires unit > 0.0
    ensures x / unit * unit == x
  {
  }

  lemma WithinHalf(y: real, x: real, half: real, unit: real)
    requires unit > 0.0 && half * unit == 0.5 && Abs(x * unit - y * unit) <= 0.5
    ensures Abs(y - x) <= half
  {
    if y - x > half { Strictly(unit, half, y - x); }
    if x - y > half { Strictly(unit, half, x - y); }
  }

  lemma Strictly(unit: real, x: real, y: real)
    requires unit > 0.0 && x < y
    ensures x * unit < y * unit
  {
    assert (y - x) * unit > 0.0;
  }

  /** More slippage never lowers what a buyer pays nor raises what a seller gets. */
  lemma SlippageWorsens(price: real, side: Side, less: int, more: int)
    requires price >= 0.0 && less <= more
    ensures side == Buy ==> ApplySlippage(price, side, less) <= ApplySlippage(price, side, more)
    ensures side == Sell ==> ApplySlippage(price, side, less) >= ApplySlippage(price, side, more)
  {
    DivMonotone(less as real, more as real, 10000.0);
    var m, n := SlippageMultiplier(side, less), SlippageMultiplier(side, more);
    if side == Buy {
      ScaledMonotone(price, m, n);
    } else {
      ScaledMonotone(price, n, m);
    }
  }

  lemma ScaledMonotone(price: real, m: real, n: real)
    requires price >= 0.0 && m <= n
    ensures Slipped(price, m) <= Slipped(price, n)
  {
    MulMonotone(price, m, n);
    ToDecimalsMonotone(price * m, price * n, 1000000.0);
  }

  /** Whole shares at a whole-cent price are valued without rounding. */
  lemma WholeNotional(shares: int, cents: int)
    ensures NotionalCents(shares as real, cents as real / 100.0) == shares * cents
  {
    assert shares as real * (cents as real / 100.0) * 100.0 == (shares * cents) as real;
    RoundWhole(shares * cents);
  }
}
