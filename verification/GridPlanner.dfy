/** grid_metrics over exact reals; the (levels - 1)-th root is given by its defining equation. */
module GridPlanner {
  import opened RangePlanner

  datatype GridInput = GridInput(
    current: real, lower: real, upper: real, levels: nat, capital: real, fee: real, tax: real, slippage: int,
    gas: real, stop: real)

  /** GridInput's validators. */
  predicate ValidGrid(i: GridInput) {
    && 0.0 < i.stop < i.lower < i.current < i.upper && 2 <= i.levels <= 50 && 0.0 < i.capital
    && 0.0 <= i.fee && 0.0 <= i.tax && 0 <= i.slippage <= 500 && 0.0 <= i.gas
    && i.fee + i.tax + i.slippage as real < 5000.0 && i.upper / i.lower <= 1000000.0
  }

  /** (upper / lower) ** (1 / (levels - 1)) */
  predicate IsRatio(i: GridInput, ratio: real)
    requires ValidGrid(i)
  {
    0.0 < ratio && Power(ratio, i.levels - 1) == i.upper / i.lower
  }

  datatype Grid = Grid(prices: seq<real>, allocation: real, net: real, cost: real, breakEven: real)

  function FeeRate(i: GridInput): (fee: real)
    requires ValidGrid(i)
    ensures 0.0 <= fee < 0.5
  {
    (i.fee + i.tax + i.slippage as real) / 10000.0
  }

  function Allocation(i: GridInput): (allocation: real)
    requires ValidGrid(i)
    ensures allocation > 0.0
  {
    i.capital / i.levels as real
  }

  function Net(allocation: real, ratio: real, fee: real, gas: real): real
    requires 0.0 <= fee < 0.5
  {
    allocation * ratio * (1.0 - fee) / (1.0 + fee) - allocation - 2.0 * gas
  }

  function BreakEven(allocation: real, fee: real, gas: real): real
    requires 0.0 < allocation && 0.0 <= fee < 0.5
  {
    (1.0 + fee) / (1.0 - fee) * (1.0 + 2.0 * gas / allocation)
  }

  function GridMetrics(i: GridInput, ratio: real): Grid
    requires ValidGrid(i)
  {
    var fee, allocation := FeeRate(i), Allocation(i);
    var net := Net(allocation, ratio, fee, i.gas);
    Grid(seq(i.levels, n requires 0 <= n => i.lower * Power(ratio, n)), allocation, net,
         allocation * ratio - allocation - net, BreakEven(allocation, fee, i.gas))
  }

  lemma {:induction false} SmallRatioShrinks(ratio: real, n: nat)
    requires 0.0 < ratio <= 1.0
    ensures 0.0 < Power(ratio, n) <= 1.0
  {
    if n > 0 {
      SmallRatioShrinks(ratio, n - 1);
      var q := Power(ratio, n - 1);
      Sign(q, ratio);
      assert ratio * q == q - (1.0 - ratio) * q;
      if ratio < 1.0 {
        Sign(1.0 - ratio, q);
      }
    }
  }

  lemma RatioAboveOne(i: GridInput, ratio: real)
    requires ValidGrid(i) && IsRatio(i, ratio)
    ensures ratio > 1.0
  {
    var q := i.upper / i.lower;
    assert q * i.lower == i.upper;
    Sign(q - 1.0, i.lower);
    assert (q - 1.0) * i.lower == i.upper - i.lower;
    if ratio <= 1.0 {
      SmallRatioShrinks(ratio, i.levels - 1);
      assert false;
    }
  }

  /** MAIN RESULT. The grid runs from the lower to the upper price, every price is `ratio` times the one before, and
      the prices rise. */
  lemma GridIsGeometric(i: GridInput, ratio: real)
    requires ValidGrid(i) && IsRatio(i, ratio)
    ensures var prices := GridMetrics(i, ratio).prices;
            && |prices| == i.levels && prices[0] == i.lower && prices[i.levels - 1] == i.upper
            && forall n | 0 < n < |prices| :: prices[n] == ratio * prices[n - 1] && prices[n - 1] < prices[n]
  {
    hide GridMetrics, Power, ValidGrid, IsRatio;
    var prices := GridMetrics(i, ratio).prices;
    PricesAre(i, ratio);
    EndPrices(i, ratio);
    RatioAboveOne(i, ratio);
    forall n | 0 < n < |prices| ensures prices[n] == ratio * prices[n - 1] && prices[n - 1] < prices[n] {
      PriceStep(i.lower, ratio, n);
    }
  }

  lemma PricesAre(i: GridInput, ratio: real)
    requires ValidGrid(i)
    ensures var prices := GridMetrics(i, ratio).prices;
            |prices| == i.levels && forall n | 0 <= n < i.levels :: prices[n] == i.lower * Power(ratio, n)
  {
    hide Power, FeeRate, Allocation, Net, BreakEven;
  }

  lemma EndPrices(i: GridInput, ratio: real)
    requires ValidGrid(i) && IsRatio(i, ratio)
    ensures 0.0 < i.lower && 2 <= i.levels
    ensures i.lower * Power(ratio, 0) == i.lower && i.lower * Power(ratio, i.levels - 1) == i.upper
  {
    PowerZero(ratio);
    hide Power;
    Quotient(i.lower, i.upper);
  }

  lemma Quotient(x: real, y: real)
    requires x > 0.0
    ensures x * (y / x) == y
  {
  }

  lemma PowerZero(x: real)
    ensures Power(x, 0) == 1.0
  {
  }

  lemma PriceStep(lower: real, ratio: real, n: nat)
    requires 0.0 < lower && 1.0 < ratio && 0 < n
    ensures var before, after := lower * Power(ratio, n - 1), lower * Power(ratio, n);
            after == ratio * before && before < after
  {
    PowerPositive(ratio, n - 1);
    var q := Power(ratio, n - 1);
    assert Power(ratio, n) == ratio * q;
    Sign(lower, q);
    Sign(ratio - 1.0, lower * q);
    assert lower * (ratio * q) == ratio * (lower * q);
  }

  /** MAIN RESULT. An adjacent cycle makes money exactly when the price ratio exceeds the break-even ratio; what it
      costs is never negative, and cost and net add up to the gross gain. */
  lemma NetPositiveIffAboveBreakEven(i: GridInput, ratio: real)
    requires ValidGrid(i) && IsRatio(i, ratio)
    ensures var g := GridMetrics(i, ratio);
            && (g.net > 0.0 <==> ratio > g.breakEven)
            && 0.0 <= g.cost && g.net + g.cost == g.allocation * (ratio - 1.0)
  {
    var fee, allocation := FeeRate(i), Allocation(i);
    RatioAboveOne(i, ratio);
    NetSign(allocation, ratio, fee, i.gas);
    CostSign(allocation, ratio, fee, i.gas);
  }

  lemma NetSign(allocation: real, ratio: real, fee: real, gas: real)
    requires 0.0 < allocation && 0.0 <= fee < 0.5 && 0.0 <= gas
    ensures Net(allocation, ratio, fee, gas) > 0.0 <==> ratio > BreakEven(allocation, fee, gas)
  {
    var keep, pay := 1.0 - fee, 1.0 + fee;
    var net, even := Net(allocation, ratio, fee, gas), BreakEven(allocation, fee, gas);
    assert allocation * ratio * keep / pay * pay == allocation * ratio * keep;
    assert net * pay == allocation * ratio * keep - (allocation + 2.0 * gas) * pay;
    EvenScaled(allocation, fee, gas);
    assert even * (keep * allocation) == pay * (allocation + 2.0 * gas);
    Sign(net, pay);
    Sign(keep, allocation);
    Sign(ratio - even, keep * allocation);
    assert (ratio - even) * (keep * allocation) == ratio * (keep * allocation) - even * (keep * allocation);
    assert ratio * (keep * allocation) == allocation * ratio * keep;
  }

  lemma EvenScaled(allocation: real, fee: real, gas: real)
    requires 0.0 < allocation && 0.0 <= fee < 0.5
    ensures BreakEven(allocation, fee, gas) * ((1.0 - fee) * allocation) == (1.0 + fee) * (allocation + 2.0 * gas)
  {
    var u, v := (1.0 + fee) / (1.0 - fee), 1.0 + 2.0 * gas / allocation;
    assert u * (1.0 - fee) == 1.0 + fee;
    assert v * allocation == allocation + 2.0 * gas / allocation * allocation == allocation + 2.0 * gas;
    assert (u * v) * ((1.0 - fee) * allocation) == (u * (1.0 - fee)) * (v * allocation);
  }

  lemma CostSign(allocation: real, ratio: real, fee: real, gas: real)
    requires 0.0 < allocation && 0.0 < ratio && 0.0 <= fee < 0.5 && 0.0 <= gas
    ensures allocation * ratio - allocation - Net(allocation, ratio, fee, gas) >= 0.0
  {
    var gross := allocation * ratio;
    var kept := gross * (1.0 - fee) / (1.0 + fee);
    assert kept * (1.0 + fee) == gross * (1.0 - fee);
    assert (gross - kept) * (1.0 + fee) == gross * (1.0 + fee) - kept * (1.0 + fee)
           == gross * (1.0 + fee) - gross * (1.0 - fee);
    assert gross * (1.0 + fee) - gross * (1.0 - fee) == gross * (2.0 * fee);
    Sign(allocation, ratio);
    Sign(2.0 * fee, gross);
    assert gross * (2.0 * fee) == (2.0 * fee) * gross;
    Sign(gross - kept, 1.0 + fee);
    assert Net(allocation, ratio, fee, gas) == kept - allocation - 2.0 * gas;
  }

  /** MAIN RESULT. Capital is split evenly over the levels. One cycle buys what the allocation pays for at some price,
      with the three rates added to it, and sells it one level higher with them taken off, paying gas for both; the
      break-even ratio is the one at which that trade neither gains nor loses. */
  lemma CycleIsTrade(i: GridInput, ratio: real, price: real) returns (units: real)
    requires ValidGrid(i) && IsRatio(i, ratio) && 0.0 < price
    ensures var g := GridMetrics(i, ratio);
            var rate := i.fee / 10000.0 + i.tax / 10000.0 + i.slippage as real / 10000.0;
            && g.allocation * i.levels as real == i.capital
            && units * price * (1.0 + rate) == g.allocation
            && g.net == units * (price * ratio) * (1.0 - rate) - g.allocation - 2.0 * i.gas
            && 0.0 == units * (price * g.breakEven) * (1.0 - rate) - g.allocation - 2.0 * i.gas
  {
    hide Power, IsRatio;
    var fee, allocation := FeeRate(i), Allocation(i);
    assert fee == i.fee / 10000.0 + i.tax / 10000.0 + i.slippage as real / 10000.0;
    Sign(price, 1.0 + fee);
    units := allocation / (price * (1.0 + fee));
    Trade(allocation, price, fee, units, ratio);
    Trade(allocation, price, fee, units, BreakEven(allocation, fee, i.gas));
    EvenScaled(allocation, fee, i.gas);
    EvenPays(allocation, fee, i.gas);
  }

  lemma Trade(allocation: real, price: real, fee: real, units: real, ratio: real)
    requires 0.0 < price && 0.0 <= fee < 0.5 && price * (1.0 + fee) > 0.0
    requires units == allocation / (price * (1.0 + fee))
    ensures units * price * (1.0 + fee) == allocation
    ensures units * (price * ratio) * (1.0 - fee) == allocation * ratio * (1.0 - fee) / (1.0 + fee)
  {
    assert units * (price * (1.0 + fee)) == allocation;
    assert units * price * (1.0 + fee) == units * (price * (1.0 + fee));
    var worth := units * price;
    assert worth == allocation / (1.0 + fee);
    assert units * (price * ratio) == worth * ratio;
    assert worth * ratio * (1.0 - fee) * (1.0 + fee) == worth * (1.0 + fee) * ratio * (1.0 - fee);
  }

  lemma EvenPays(allocation: real, fee: real, gas: real)
    requires 0.0 < allocation && 0.0 <= fee < 0.5
    ensures allocation * BreakEven(allocation, fee, gas) * (1.0 - fee) / (1.0 + fee) == allocation + 2.0 * gas
  {
    EvenScaled(allocation, fee, gas);
    var even := BreakEven(allocation, fee, gas);
    assert allocation * even * (1.0 - fee) == even * ((1.0 - fee) * allocation);
  }
}
