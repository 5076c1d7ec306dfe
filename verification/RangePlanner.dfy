/** lp_range and lp_inventory: tick arithmetic over integers, token amounts over exact reals. */
module RangePlanner {
  import opened Values

  const MIN_TICK := -887272
  const MAX_TICK := 887272

  datatype LpInput = LpInput(
    tick: int, oldLower: int, oldUpper: int, spacing: int, halfWidth: int, liquidity: int,
    decimals0: nat, decimals1: nat, cost: real, slippage: int)

  predicate InOldRange(i: LpInput) {
    i.oldLower <= i.tick < i.oldUpper
  }

  /** LPInput's validators. */
  predicate ValidLp(i: LpInput) {
    && -887000 <= i.tick <= 887000 && MIN_TICK <= i.oldLower < i.oldUpper <= MAX_TICK
    && 1 <= i.spacing <= 1000 && i.spacing <= i.halfWidth <= 100000
    && i.oldLower % i.spacing == 0 && i.oldUpper % i.spacing == 0
    && 0 < i.liquidity && i.decimals0 <= 36 && i.decimals1 <= 36 && 0.0 <= i.cost && 0 <= i.slippage <= 500
  }

  function Least(a: int, b: int): int {
    if a < b then a else b
  }

  function Greatest(a: int, b: int): int {
    if a < b then b else a
  }

  /** math.floor(x / spacing) * spacing, whose quotient is exact for ticks */
  function FloorTo(x: int, spacing: int): int
    requires 0 < spacing
  {
    x / spacing * spacing
  }

  /** math.ceil(x / spacing) * spacing */
  function CeilTo(x: int, spacing: int): int
    requires 0 < spacing
  {
    -(-x / spacing) * spacing
  }

  /** None is the ValueError. */
  function LpRange(i: LpInput): Option<(int, int)>
    requires 0 < i.spacing
  {
    var lower := Greatest(CeilTo(MIN_TICK, i.spacing), FloorTo(i.tick - i.halfWidth, i.spacing));
    var upper := Least(FloorTo(MAX_TICK, i.spacing), CeilTo(i.tick + i.halfWidth, i.spacing));
    if lower <= i.tick < upper then Some((lower, upper)) else None
  }

  predicate Aligned(x: int, spacing: int)
    requires 0 < spacing
  {
    x % spacing == 0
  }

  /** A tick a position may use. */
  predicate Usable(x: int, spacing: int)
    requires 0 < spacing
  {
    Aligned(x, spacing) && MIN_TICK <= x <= MAX_TICK
  }

  lemma AlignedMultiple(x: int, spacing: int)
    requires 0 < spacing
    ensures Aligned(x, spacing) <==> x / spacing * spacing == x
  {
  }

  /** The distance between two multiples is at least one spacing. */
  lemma MultiplesApart(q: int, d: int, spacing: int)
    requires 0 < spacing
    ensures q > d ==> q * spacing >= d * spacing + spacing
    ensures q < d ==> q * spacing <= d * spacing - spacing
  {
    Scale(q - d, spacing);
    assert (q - d) * spacing == q * spacing - d * spacing;
  }

  lemma Scale(k: int, spacing: int)
    requires 0 < spacing
    ensures k >= 1 ==> k * spacing >= spacing
    ensures k <= -1 ==> k * spacing <= -spacing
  {
  }

  lemma NoRemainder(q: int, d: int, r: int, spacing: int)
    requires 0 <= r < spacing && q * spacing == d * spacing + r
    ensures r == 0 && q == d
  {
    MultiplesApart(q, d, spacing);
  }

  lemma MultipleAligned(q: int, spacing: int)
    requires 0 < spacing
    ensures Aligned(q * spacing, spacing)
  {
    var a := q * spacing;
    assert a == a / spacing * spacing + a % spacing;
    NoRemainder(q, a / spacing, a % spacing, spacing);
  }

  /** The greatest aligned tick at or below x. */
  lemma FloorToIsGreatest(x: int, spacing: int)
    requires 0 < spacing
    ensures var f := FloorTo(x, spacing);
            Aligned(f, spacing) && f <= x < f + spacing && forall m | Aligned(m, spacing) && m <= x :: m <= f
  {
    hide Aligned;
    MultipleAligned(x / spacing, spacing);
    assert x == x / spacing * spacing + x % spacing;
    forall m | Aligned(m, spacing) && m <= x ensures m <= FloorTo(x, spacing) {
      AlignedMultiple(m, spacing);
      MultiplesApart(m / spacing, x / spacing, spacing);
    }
  }

  lemma NegationAligned(x: int, spacing: int)
    requires 0 < spacing && Aligned(x, spacing)
    ensures Aligned(-x, spacing)
  {
    AlignedMultiple(x, spacing);
    MultipleAligned(-(x / spacing), spacing);
    assert -(x / spacing) * spacing == -x;
  }

  /** The least aligned tick at or above x. */
  lemma CeilToIsLeast(x: int, spacing: int)
    requires 0 < spacing
    ensures var c := CeilTo(x, spacing);
            Aligned(c, spacing) && c - spacing < x <= c && forall m | Aligned(m, spacing) && x <= m :: c <= m
  {
    FloorToIsGreatest(-x, spacing);
    assert CeilTo(x, spacing) == -FloorTo(-x, spacing) by {
      assert -(-x / spacing) * spacing == -(-x / spacing * spacing);
    }
    NegationAligned(FloorTo(-x, spacing), spacing);
    forall m | Aligned(m, spacing) && x <= m ensures CeilTo(x, spacing) <= m {
      NegationAligned(m, spacing);
    }
  }

  /** MAIN RESULT. The range is usable and contains the tick; it covers the requested half width on each side, by less
      than one spacing too much, except where no usable tick lies that far out. */
  lemma RangeFits(i: LpInput)
    requires ValidLp(i) && LpRange(i).Some?
    ensures var (lower, upper) := LpRange(i).value;
            && Usable(lower, i.spacing) && Usable(upper, i.spacing) && lower <= i.tick < upper
            && lower > i.tick - i.halfWidth - i.spacing && upper < i.tick + i.halfWidth + i.spacing
            && (lower <= i.tick - i.halfWidth || forall x | Usable(x, i.spacing) :: lower <= x)
            && (i.tick + i.halfWidth <= upper || forall x | Usable(x, i.spacing) :: x <= upper)
  {
    hide FloorTo, CeilTo, Aligned;
    CeilToIsLeast(MIN_TICK, i.spacing);
    FloorToIsGreatest(MAX_TICK, i.spacing);
    FloorToIsGreatest(i.tick - i.halfWidth, i.spacing);
    CeilToIsLeast(i.tick + i.halfWidth, i.spacing);
  }

  /** MAIN RESULT. lp_range raises exactly when no usable range at all contains the tick. */
  lemma RaisesIffNoRange(i: LpInput)
    requires ValidLp(i)
    ensures LpRange(i).None? <==>
            !exists lower, upper :: Usable(lower, i.spacing) && Usable(upper, i.spacing) && lower <= i.tick < upper
  {
    hide FloorTo, CeilTo, Aligned;
    CeilToIsLeast(MIN_TICK, i.spacing);
    FloorToIsGreatest(MAX_TICK, i.spacing);
    FloorToIsGreatest(i.tick - i.halfWidth, i.spacing);
    CeilToIsLeast(i.tick + i.halfWidth, i.spacing);
    if LpRange(i).Some? {
      RangeFits(i);
      var (lower, upper) := LpRange(i).value;
      assert Usable(lower, i.spacing) && Usable(upper, i.spacing);
    }
  }

  /** A position that is in range can always be re-centred. */
  lemma InRangeDoesNotRaise(i: LpInput)
    requires ValidLp(i) && InOldRange(i)
    ensures LpRange(i).Some?
  {
    hide LpRange;
    RaisesIffNoRange(i);
    assert Usable(i.oldLower, i.spacing) && Usable(i.oldUpper, i.spacing);
  }

  // ---------------------------------------------------------------- prices

  function Power(x: real, n: nat): real {
    if n == 0 then 1.0 else x * Power(x, n - 1)
  }

  lemma {:induction false} PowerPositive(x: real, n: nat)
    requires x > 0.0
    ensures Power(x, n) > 0.0
  {
    if n > 0 {
      PowerPositive(x, n - 1);
    }
  }

  /** x ** t for positive x */
  function Raised(x: real, t: int): real
    requires x > 0.0
  {
    PowerPositive(x, if t < 0 then -t else t);
    if t < 0 then 1.0 / Power(x, -t) else Power(x, t)
  }

  /** 1.0001 ** (t / 2), where root is the positive square root of 1.0001 */
  function SqrtPrice(root: real, t: int): real
    requires IsRoot(root)
  {
    Raised(root, t)
  }

  predicate IsRoot(root: real) {
    root > 1.0 && root * root == 1.0001
  }

  lemma RaisedStep(x: real, t: int)
    requires x > 0.0
    ensures Raised(x, t) > 0.0 && Raised(x, t + 1) == x * Raised(x, t)
  {
    if t < 0 {
      PowerPositive(x, -t);
      PowerPositive(x, -t - 1);
      assert Power(x, -t) == x * Power(x, -t - 1);
      var q := Power(x, -t - 1);
      assert x * (1.0 / (x * q)) == 1.0 / q;
    } else {
      PowerPositive(x, t);
    }
  }

  lemma {:induction false} PriceGrows(root: real, t: int, u: int)
    requires IsRoot(root) && t <= u
    ensures 0.0 < SqrtPrice(root, t) <= SqrtPrice(root, u)
    ensures t < u ==> SqrtPrice(root, t) < SqrtPrice(root, u)
    decreases u - t
  {
    RaisedStep(root, t);
    if t < u {
      PriceGrows(root, t + 1, u);
      GrowthStep(root, SqrtPrice(root, t));
    }
  }

  lemma GrowthStep(root: real, p: real)
    requires root > 1.0 && p > 0.0
    ensures p < root * p
  {
  }

  /** The square of the square root price is the price 1.0001 ** t. */
  lemma {:induction false} SqrtPriceSquared(root: real, t: int)
    requires IsRoot(root)
    ensures SqrtPrice(root, t) * SqrtPrice(root, t) == Raised(1.0001, t)
    decreases if t < 0 then -t else t
  {
    if t > 0 {
      SqrtPriceSquared(root, t - 1);
      RaisedStep(root, t - 1);
      RaisedStep(1.0001, t - 1);
      SquareStep(root, SqrtPrice(root, t - 1));
    } else if t < 0 {
      SqrtPriceSquared(root, t + 1);
      RaisedStep(root, t);
      RaisedStep(1.0001, t);
      SquareStep(root, SqrtPrice(root, t));
    }
  }

  lemma SquareStep(root: real, p: real)
    requires IsRoot(root)
    ensures (root * p) * (root * p) == 1.0001 * (p * p)
  {
    assert (root * p) * (root * p) == (root * root) * (p * p);
  }

  // ---------------------------------------------------------------- amounts

  /** Raw token amounts of `liquidity` at square root price p between a and b. */
  function Raw0(liquidity: real, b: real, p: real): real
    requires 0.0 < p && 0.0 < b
  {
    liquidity * (b - p) / (p * b)
  }

  function Raw1(liquidity: real, a: real, p: real): real {
    liquidity * (p - a)
  }

  /** min(b, max(a, p)) */
  function Clamp(p: real, a: real, b: real): real {
    var raised := if p > a then p else a;
    if raised < b then raised else b
  }

  /** Raw amounts for ticks, before the token decimals are applied. */
  function RawInventory(root: real, tick: int, lower: int, upper: int, liquidity: int): (real, real)
    requires IsRoot(root) && lower < upper
  {
    PriceGrows(root, lower, upper);
    var a, b := SqrtPrice(root, lower), SqrtPrice(root, upper);
    var p := Clamp(SqrtPrice(root, tick), a, b);
    (Raw0(liquidity as real, b, p), Raw1(liquidity as real, a, p))
  }

  /** lp_inventory; None is the ValueError. */
  function LpInventory(root: real, tick: int, lower: int, upper: int, liquidity: int, decimals0: nat, decimals1: nat)
    : Option<(real, real)>
    requires IsRoot(root)
  {
    if !(MIN_TICK <= lower < upper <= MAX_TICK && MIN_TICK <= tick <= MAX_TICK) then None
    else
      var raw := RawInventory(root, tick, lower, upper, liquidity);
      PowerPositive(10.0, decimals0);
      PowerPositive(10.0, decimals1);
      Some((raw.0 / Power(10.0, decimals0), raw.1 / Power(10.0, decimals1)))
  }

  lemma DivideBoth(z: real, u: real, v: real)
    requires v > 0.0 && z * v == u
    ensures z == u / v
  {
  }

  lemma Raw0Difference(liquidity: real, b: real, p: real)
    requires 0.0 < p && 0.0 < b
    ensures Raw0(liquidity, b, p) == liquidity / p - liquidity / b
  {
    var z := liquidity / p - liquidity / b;
    assert p * b > 0.0;
    assert liquidity / p * p == liquidity && liquidity / b * b == liquidity;
    assert z * (p * b) == liquidity / p * p * b - liquidity / b * b * p == liquidity * (b - p);
    DivideBoth(z, liquidity * (b - p), p * b);
  }

  lemma Sign(z: real, v: real)
    requires v > 0.0
    ensures (z > 0.0 ==> z * v > 0.0) && (z == 0.0 ==> z * v == 0.0) && (z < 0.0 ==> z * v < 0.0)
  {
  }

  lemma QuotientFalls(liquidity: real, p: real, q: real)
    requires 0.0 < liquidity && 0.0 < p <= q
    ensures liquidity / p >= liquidity / q > 0.0
  {
    var u, v := liquidity / p, liquidity / q;
    assert u * p == liquidity == v * q;
    Sign(v, q);
    Sign(q - p, v);
    Sign(u - v, p);
    assert (u - v) * p == (q - p) * v;
  }

  /** The constant product curve of the position, at any price between a and b. */
  lemma CurveHolds(liquidity: real, a: real, b: real, p: real)
    requires 0.0 < a <= p <= b
    ensures (Raw0(liquidity, b, p) + liquidity / b) * (Raw1(liquidity, a, p) + liquidity * a) == liquidity * liquidity
  {
    Raw0Difference(liquidity, b, p);
    var x, y := Raw0(liquidity, b, p) + liquidity / b, Raw1(liquidity, a, p) + liquidity * a;
    assert x == liquidity / p && y == liquidity * p;
    assert liquidity / p * p == liquidity;
    assert x * y == x * p * liquidity;
  }

  /** MAIN RESULT. For every tick the raw amounts are nonnegative and lie on the position's curve
      (x + L / b) * (y + L * a) == L * L; at or below the range everything is token0, at or above it token1. */
  lemma InventoryOnCurve(root: real, tick: int, lower: int, upper: int, liquidity: int)
    requires IsRoot(root) && lower < upper && 0 < liquidity
    ensures var (x, y) := RawInventory(root, tick, lower, upper, liquidity);
            var a, b, l := SqrtPrice(root, lower), SqrtPrice(root, upper), liquidity as real;
            && 0.0 < a < b && (x + l / b) * (y + l * a) == l * l
            && 0.0 <= x && 0.0 <= y && (tick <= lower <==> y == 0.0) && (tick >= upper <==> x == 0.0)
  {
    hide SqrtPrice, IsRoot, Raw0, Raw1;
    var l := liquidity as real;
    PriceGrows(root, lower, upper);
    var a, b := SqrtPrice(root, lower), SqrtPrice(root, upper);
    var p := Clamp(SqrtPrice(root, tick), a, b);
    ClampPlaces(root, tick, lower, upper);
    CurveHolds(l, a, b, p);
    AmountSigns(l, a, b, p);
  }

  lemma ClampPlaces(root: real, tick: int, lower: int, upper: int)
    requires IsRoot(root) && lower < upper
    ensures var a, b := SqrtPrice(root, lower), SqrtPrice(root, upper);
            var p := Clamp(SqrtPrice(root, tick), a, b);
            0.0 < a <= p <= b && (p == a <==> tick <= lower) && (p == b <==> tick >= upper)
  {
    hide SqrtPrice, IsRoot;
    PriceGrows(root, lower, upper);
    if tick <= lower {
      PriceGrows(root, tick, lower);
    } else {
      PriceGrows(root, lower, tick);
      if tick <= upper {
        PriceGrows(root, tick, upper);
      } else {
        PriceGrows(root, upper, tick);
      }
    }
  }

  lemma AmountSigns(liquidity: real, a: real, b: real, p: real)
    requires 0.0 < liquidity && 0.0 < a <= p <= b
    ensures 0.0 <= Raw0(liquidity, b, p) && (Raw0(liquidity, b, p) == 0.0 <==> p == b)
    ensures 0.0 <= Raw1(liquidity, a, p) && (Raw1(liquidity, a, p) == 0.0 <==> p == a)
  {
    var n, d := liquidity * (b - p), p * b;
    Sign(p, b);
    Sign(b - p, liquidity);
    Sign(n / d, d);
    assert n / d * d == n;
    Sign(p - a, liquidity);
  }

  /** MAIN RESULT. As the tick rises, token0 never rises and token1 never falls. */
  lemma InventoryMonotone(root: real, tick: int, later: int, lower: int, upper: int, liquidity: int)
    requires IsRoot(root) && lower < upper && 0 < liquidity && tick <= later
    ensures var (x, y) := RawInventory(root, tick, lower, upper, liquidity);
            var (u, v) := RawInventory(root, later, lower, upper, liquidity);
            u <= x && y <= v
  {
    hide SqrtPrice, IsRoot, Raw0, Raw1;
    var l := liquidity as real;
    PriceGrows(root, lower, upper);
    PriceGrows(root, tick, later);
    ClampPlaces(root, tick, lower, upper);
    ClampPlaces(root, later, lower, upper);
    var a, b := SqrtPrice(root, lower), SqrtPrice(root, upper);
    var p, q := Clamp(SqrtPrice(root, tick), a, b), Clamp(SqrtPrice(root, later), a, b);
    assert p <= q;
    AmountsMove(l, a, b, p, q);
  }

  lemma AmountsMove(liquidity: real, a: real, b: real, p: real, q: real)
    requires 0.0 < liquidity && 0.0 < p <= q && 0.0 < b
    ensures Raw0(liquidity, b, q) <= Raw0(liquidity, b, p) && Raw1(liquidity, a, p) <= Raw1(liquidity, a, q)
  {
    Raw0Difference(liquidity, b, p);
    Raw0Difference(liquidity, b, q);
    QuotientFalls(liquidity, p, q);
    hide Raw0;
    Sign(q - p, liquidity);
    assert Raw1(liquidity, a, q) - Raw1(liquidity, a, p) == liquidity * (q - p);
  }

  /** MAIN RESULT. Inside the range the two amounts are in the proportion of the price 1.0001 ** tick, and scaling
      by the tokens' decimals divides them by powers of ten; lp_inventory raises exactly for ticks out of order or
      out of bounds. */
  lemma InventoryAtPrice(root: real, tick: int, lower: int, upper: int, liquidity: int, decimals0: nat, decimals1: nat)
    requires IsRoot(root) && 0 < liquidity
    ensures var scaled := LpInventory(root, tick, lower, upper, liquidity, decimals0, decimals1);
            && (scaled.Some? <==> -887272 <= lower < upper <= 887272 && -887272 <= tick <= 887272)
            && (scaled.Some? ==>
                  var (x, y) := RawInventory(root, tick, lower, upper, liquidity);
                  var a, b, l := SqrtPrice(root, lower), SqrtPrice(root, upper), liquidity as real;
                  && scaled.value.0 * Power(10.0, decimals0) == x && scaled.value.1 * Power(10.0, decimals1) == y
                  && 0.0 < b
                  && (lower <= tick <= upper ==> y + l * a == (x + l / b) * Raised(1.0001, tick)))
  {
    hide SqrtPrice, IsRoot, Raw0, Raw1, Power, Raised;
    if -887272 <= lower < upper <= 887272 && -887272 <= tick <= 887272 {
      PowerPositive(10.0, decimals0);
      PowerPositive(10.0, decimals1);
      var raw := RawInventory(root, tick, lower, upper, liquidity);
      Rescaled(raw.0, Power(10.0, decimals0));
      Rescaled(raw.1, Power(10.0, decimals1));
      PriceGrows(root, lower, upper);
      if lower <= tick <= upper {
        PriceGrows(root, lower, tick);
        PriceGrows(root, tick, upper);
        SqrtPriceSquared(root, tick);
        AmountsAtPrice(liquidity as real, SqrtPrice(root, lower), SqrtPrice(root, upper), SqrtPrice(root, tick));
      }
    }
  }

  lemma Rescaled(x: real, y: real)
    requires y > 0.0
    ensures x / y * y == x
  {
  }

  lemma AmountsAtPrice(liquidity: real, a: real, b: real, p: real)
    requires 0.0 < a <= p <= b
    ensures Raw1(liquidity, a, p) + liquidity * a == (Raw0(liquidity, b, p) + liquidity / b) * (p * p)
  {
    Raw0Difference(liquidity, b, p);
    assert Raw0(liquidity, b, p) + liquidity / b == liquidity / p;
    assert liquidity / p * (p * p) == liquidity / p * p * p == liquidity * p;
    assert Raw1(liquidity, a, p) + liquidity * a == liquidity * p;
  }
}
