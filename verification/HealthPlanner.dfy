/** health_metrics over exact reals. */
module HealthPlanner {
  import opened Values
  import opened RangePlanner

  datatype Collateral = Collateral(value: real, threshold: real, drop: real)
  datatype Debt = Debt(value: real, rise: real)
  datatype HealthInput = HealthInput(
    collateral: seq<Collateral>, debts: seq<Debt>, target: real, available: real, cost: real)

  /** HealthInput's validators. */
  ghost predicate ValidHealth(i: HealthInput) {
    && (forall a | a in i.collateral :: 0.0 <= a.value && 0.0 < a.threshold <= 1.0 && 0.0 <= a.drop < 100.0)
    && (forall d | d in i.debts :: 0.0 <= d.value && 0.0 <= d.rise)
    && 1.0 < i.target <= 10.0 && 0.0 <= i.available && 0.0 <= i.cost
  }

  function Weighted(collateral: seq<Collateral>, stressed: bool): real {
    if collateral == [] then 0.0
    else
      var a := collateral[|collateral| - 1];
      Weighted(collateral[..|collateral| - 1], stressed)
      + a.value * a.threshold * if stressed then 1.0 - a.drop / 100.0 else 1.0
  }

  function Owed(debts: seq<Debt>, stressed: bool): real {
    if debts == [] then 0.0
    else
      var d := debts[|debts| - 1];
      Owed(debts[..|debts| - 1], stressed) + d.value * if stressed then 1.0 + d.rise / 100.0 else 1.0
  }

  /** quantize(.01, ROUND_CEILING) */
  function CeilCents(x: real): real {
    -(-x * 100.0).Floor as real / 100.0
  }

  datatype Health = Health(
    healthNow: Option<real>, stressedHealth: Option<real>, collateral: real, debt: real,
    required: real, sufficient: bool)

  function HealthMetrics(i: HealthInput): Health
    requires 1.0 < i.target
  {
    var now, collateral := Weighted(i.collateral, false), Weighted(i.collateral, true);
    var owed, debt := Owed(i.debts, false), Owed(i.debts, true);
    var gap := debt - collateral / i.target;
    var repay := CeilCents(if gap > 0.0 then gap else 0.0);
    var required := if repay < debt then repay else debt;
    Health(if owed == 0.0 then None else Some(now / owed), if debt == 0.0 then None else Some(collateral / debt),
           collateral, debt, required, required <= i.available)
  }

  lemma {:induction false} SumsNonNegative(i: HealthInput, c: nat, d: nat)
    requires ValidHealth(i) && c <= |i.collateral| && d <= |i.debts|
    ensures 0.0 <= Weighted(i.collateral[..c], true) && 0.0 <= Owed(i.debts[..d], true)
    decreases c + d
  {
    if c > 0 {
      SumsNonNegative(i, c - 1, d);
      var a := i.collateral[c - 1];
      assert i.collateral[..c][..c - 1] == i.collateral[..c - 1];
      assert a in i.collateral;
      Product(a.value, a.threshold);
      Product(a.value * a.threshold, 1.0 - a.drop / 100.0);
    } else if d > 0 {
      SumsNonNegative(i, c, d - 1);
      var b := i.debts[d - 1];
      assert i.debts[..d][..d - 1] == i.debts[..d - 1];
      assert b in i.debts;
      Product(b.value, 1.0 + b.rise / 100.0);
    }
  }

  lemma Product(x: real, y: real)
    requires 0.0 <= x && 0.0 <= y
    ensures 0.0 <= x * y
  {
  }

  predicate WholeCents(x: real) {
    (x * 100.0).Floor as real == x * 100.0
  }

  /** The least whole number of cents at or above x. */
  lemma CeilCentsIsLeast(x: real)
    ensures WholeCents(CeilCents(x)) && x <= CeilCents(x)
    ensures forall y | WholeCents(y) && x <= y :: CeilCents(x) <= y
  {
    var k := (-x * 100.0).Floor;
    assert k as real <= -x * 100.0 < k as real + 1.0;
    Cents(-k);
    forall y | WholeCents(y) && x <= y ensures CeilCents(x) <= y {
      var n := (y * 100.0).Floor;
      assert (-n) as real == -(n as real) <= -x * 100.0;
      assert -n <= k;
    }
  }

  lemma Cents(n: int)
    ensures WholeCents(n as real / 100.0)
  {
    assert n as real / 100.0 * 100.0 == n as real;
  }

  /** After repaying x, nothing is owed or the stressed health factor is at or above target. */
  predicate Reaches(m: Health, target: real, x: real) {
    m.debt == x || (x < m.debt && m.collateral / (m.debt - x) >= target)
  }

  /** MAIN RESULT. required_repay_usd reaches the target, and it is at most any whole-cent repayment that does;
      it is itself a whole number of cents or the whole stressed debt. */
  lemma RequiredRepayIsLeast(i: HealthInput)
    requires ValidHealth(i)
    ensures var m := HealthMetrics(i);
            && 0.0 <= m.required <= m.debt && Reaches(m, i.target, m.required)
            && (WholeCents(m.required) || m.required == m.debt)
            && forall x | 0.0 <= x && WholeCents(x) && Reaches(m, i.target, x) :: m.required <= x
  {
    hide CeilCents, WholeCents;
    var m := HealthMetrics(i);
    assert i.collateral[..|i.collateral|] == i.collateral && i.debts[..|i.debts|] == i.debts;
    SumsNonNegative(i, |i.collateral|, |i.debts|);
    var gap := m.debt - m.collateral / i.target;
    CeilCentsIsLeast(if gap > 0.0 then gap else 0.0);
    forall x | 0.0 <= x <= m.debt ensures Reaches(m, i.target, x) <==> x == m.debt || gap <= x {
      ReachesIff(m, i.target, x);
    }
  }

  /** A repayment reaches the target exactly when it covers the gap. */
  lemma ReachesIff(m: Health, target: real, x: real)
    requires 0.0 < target && x <= m.debt
    ensures Reaches(m, target, x) <==> x == m.debt || m.debt - m.collateral / target <= x
  {
    if x < m.debt {
      var left, after, share := m.debt - x, m.collateral / (m.debt - x), m.collateral / target;
      assert after * left == m.collateral == share * target;
      Sign(after - target, left);
      Sign(share - left, target);
      assert (after - target) * left == (share - left) * target;
    }
  }

  // ---------------------------------------------------------------- what the totals are

  lemma {:induction false} WeightedAdds(a: seq<Collateral>, b: seq<Collateral>, stressed: bool)
    ensures Weighted(a + b, stressed) == Weighted(a, stressed) + Weighted(b, stressed)
    decreases |b|
  {
    if b == [] {
      assert a + b == a;
    } else {
      var n := |b| - 1;
      assert (a + b)[..|a + b| - 1] == a + b[..n] && (a + b)[|a + b| - 1] == b[n];
      WeightedAdds(a, b[..n], stressed);
    }
  }

  lemma {:induction false} OwedAdds(a: seq<Debt>, b: seq<Debt>, stressed: bool)
    ensures Owed(a + b, stressed) == Owed(a, stressed) + Owed(b, stressed)
    decreases |b|
  {
    if b == [] {
      assert a + b == a;
    } else {
      var n := |b| - 1;
      assert (a + b)[..|a + b| - 1] == a + b[..n] && (a + b)[|a + b| - 1] == b[n];
      OwedAdds(a, b[..n], stressed);
    }
  }

  /** The same position without its stress. */
  function Calm(i: HealthInput): HealthInput {
    i.(collateral := seq(|i.collateral|, n requires 0 <= n < |i.collateral| => i.collateral[n].(drop := 0.0)),
       debts := seq(|i.debts|, n requires 0 <= n < |i.debts| => i.debts[n].(rise := 0.0)))
  }

  lemma {:induction false} CalmTotals(a: seq<Collateral>, b: seq<Collateral>, c: seq<Debt>, d: seq<Debt>)
    requires |a| == |b| && forall n | 0 <= n < |a| :: b[n] == a[n].(drop := 0.0)
    requires |c| == |d| && forall n | 0 <= n < |c| :: d[n] == c[n].(rise := 0.0)
    ensures Weighted(b, true) == Weighted(a, false) && Owed(d, true) == Owed(c, false)
    decreases |a| + |c|
  {
    if a != [] {
      var n := |a| - 1;
      CalmTotals(a[..n], b[..n], c, d);
      assert b[n].value * b[n].threshold * (1.0 - b[n].drop / 100.0) == a[n].value * a[n].threshold * 1.0;
    } else if c != [] {
      var n := |c| - 1;
      CalmTotals(a, b, c[..n], d[..n]);
      assert d[n].value * (1.0 + d[n].rise / 100.0) == c[n].value * 1.0;
    }
  }

  /** MAIN RESULT. The stressed totals are sums over the assets and over the debts: one asset counts with its value
      times its threshold less its price drop, one debt with its value more its price rise. */
  lemma TotalsAreSums(i: HealthInput, a: seq<Collateral>, b: seq<Collateral>, c: seq<Debt>, d: seq<Debt>)
    requires 1.0 < i.target
    ensures HealthMetrics(i.(collateral := [])).collateral == 0.0 && HealthMetrics(i.(debts := [])).debt == 0.0
    ensures HealthMetrics(i.(collateral := a + b)).collateral
            == HealthMetrics(i.(collateral := a)).collateral + HealthMetrics(i.(collateral := b)).collateral
    ensures HealthMetrics(i.(debts := c + d)).debt
            == HealthMetrics(i.(debts := c)).debt + HealthMetrics(i.(debts := d)).debt
    ensures forall x ::
              HealthMetrics(i.(collateral := [x])).collateral == x.value * x.threshold * (1.0 - x.drop / 100.0)
    ensures forall y :: HealthMetrics(i.(debts := [y])).debt == y.value * (1.0 + y.rise / 100.0)
  {
    hide HealthMetrics, Weighted, Owed;
    NoTotals();
    WeightedAdds(a, b, true);
    OwedAdds(c, d, true);
    TotalsOf(i.(collateral := []));
    TotalsOf(i.(collateral := a));
    TotalsOf(i.(collateral := b));
    TotalsOf(i.(collateral := a + b));
    TotalsOf(i.(debts := []));
    TotalsOf(i.(debts := c));
    TotalsOf(i.(debts := d));
    TotalsOf(i.(debts := c + d));
    forall x ensures HealthMetrics(i.(collateral := [x])).collateral
                     == x.value * x.threshold * (1.0 - x.drop / 100.0)
    {
      TotalsOf(i.(collateral := [x]));
      OneAsset(x);
    }
    forall y ensures HealthMetrics(i.(debts := [y])).debt == y.value * (1.0 + y.rise / 100.0) {
      TotalsOf(i.(debts := [y]));
      OneDebt(y);
    }
  }

  lemma TotalsOf(i: HealthInput)
    requires 1.0 < i.target
    ensures HealthMetrics(i).collateral == Weighted(i.collateral, true) && HealthMetrics(i).debt == Owed(i.debts, true)
  {
    hide CeilCents, Weighted, Owed;
  }

  lemma NoTotals()
    ensures Weighted([], true) == 0.0 && Owed([], true) == 0.0
  {
  }

  lemma OneAsset(x: Collateral)
    ensures Weighted([x], true) == x.value * x.threshold * (1.0 - x.drop / 100.0)
  {
    assert [x][..0] == [];
  }

  lemma OneDebt(y: Debt)
    ensures Owed([y], true) == y.value * (1.0 + y.rise / 100.0)
  {
    assert [y][..0] == [];
  }

  /** MAIN RESULT. Each health factor times its debt is its collateral, and there is none without debt; the factor now
      is the stressed factor of the same position without its drops and rises. */
  lemma FactorsAreRatios(i: HealthInput)
    requires 1.0 < i.target
    ensures var m := HealthMetrics(i);
            && (m.stressedHealth.None? <==> m.debt == 0.0)
            && (m.stressedHealth.Some? ==> m.stressedHealth.value * m.debt == m.collateral)
            && m.healthNow == HealthMetrics(Calm(i)).stressedHealth
            && (m.sufficient <==> m.required <= i.available)
  {
    hide CeilCents;
    CalmTotals(i.collateral, Calm(i).collateral, i.debts, Calm(i).debts);
  }

  /** The same position with drops and rises at least as large. */
  predicate Worse(i: HealthInput, j: HealthInput) {
    && j.target == i.target && |j.collateral| == |i.collateral| && |j.debts| == |i.debts|
    && (forall n | 0 <= n < |i.collateral| ::
          j.collateral[n] == i.collateral[n].(drop := j.collateral[n].drop)
          && i.collateral[n].drop <= j.collateral[n].drop)
    && (forall n | 0 <= n < |i.debts| ::
          j.debts[n] == i.debts[n].(rise := j.debts[n].rise) && i.debts[n].rise <= j.debts[n].rise)
  }

  lemma {:induction false} WeightedFalls(a: seq<Collateral>, b: seq<Collateral>)
    requires |a| == |b| && forall n | 0 <= n < |a| ::
               b[n] == a[n].(drop := b[n].drop) && a[n].drop <= b[n].drop && 0.0 <= a[n].value && 0.0 <= a[n].threshold
    ensures Weighted(b, true) <= Weighted(a, true)
  {
    if a != [] {
      var n := |a| - 1;
      WeightedFalls(a[..n], b[..n]);
      Product(a[n].value, a[n].threshold);
      LessShare(a[n].value * a[n].threshold, 1.0 - b[n].drop / 100.0, 1.0 - a[n].drop / 100.0);
    }
  }

  lemma {:induction false} OwedRises(a: seq<Debt>, b: seq<Debt>)
    requires |a| == |b| && forall n | 0 <= n < |a| ::
               b[n] == a[n].(rise := b[n].rise) && a[n].rise <= b[n].rise && 0.0 <= a[n].value
    ensures Owed(a, true) <= Owed(b, true)
  {
    if a != [] {
      var n := |a| - 1;
      OwedRises(a[..n], b[..n]);
      LessShare(a[n].value, 1.0 + a[n].rise / 100.0, 1.0 + b[n].rise / 100.0);
    }
  }

  lemma LessShare(x: real, p: real, q: real)
    requires 0.0 <= x && p <= q
    ensures x * p <= x * q
  {
    Product(x, q - p);
    assert x * (q - p) == x * q - x * p;
  }

  lemma CeilCentsRises(x: real, y: real)
    requires x <= y
    ensures CeilCents(x) <= CeilCents(y)
  {
    CeilCentsIsLeast(x);
    CeilCentsIsLeast(y);
  }

  /** MAIN RESULT. A larger price drop or rise never lowers the stressed debt or the required repayment, and never
      raises the stressed collateral. */
  lemma StressNeverHelps(i: HealthInput, j: HealthInput)
    requires ValidHealth(i) && ValidHealth(j) && Worse(i, j)
    ensures var m, n := HealthMetrics(i), HealthMetrics(j);
            n.collateral <= m.collateral && m.debt <= n.debt && m.required <= n.required
  {
    hide CeilCents, Weighted, Owed, ValidHealth;
    InputsPositive(i);
    InputsPositive(j);
    WeightedFalls(i.collateral, j.collateral);
    OwedRises(i.debts, j.debts);
    var m, n := HealthMetrics(i), HealthMetrics(j);
    GapRises(m.collateral, n.collateral, m.debt, n.debt, i.target);
    var before, after := m.debt - m.collateral / i.target, n.debt - n.collateral / i.target;
    CeilCentsRises(if before > 0.0 then before else 0.0, if after > 0.0 then after else 0.0);
  }

  lemma GapRises(c: real, c': real, d: real, d': real, target: real)
    requires c' <= c && d <= d' && 0.0 < target
    ensures d - c / target <= d' - c' / target
  {
    var share := c / target - c' / target;
    assert share * target == c - c';
    Sign(share, target);
  }

  lemma InputsPositive(i: HealthInput)
    requires ValidHealth(i)
    ensures 1.0 < i.target
    ensures forall n | 0 <= n < |i.collateral| :: 0.0 <= i.collateral[n].value && 0.0 <= i.collateral[n].threshold
    ensures forall n | 0 <= n < |i.debts| :: 0.0 <= i.debts[n].value
  {
  }
}
