/** yield_metrics: what each venue earns over staying, and the ranking of the venues. */
module YieldPlanner {
  import opened Ordering
  import opened RangePlanner

  datatype Venue = Venue(id: string, apy: real, migration: real, capacity: real, delay: int)
  datatype YieldInput = YieldInput(
    capital: real, currentApy: real, horizon: int, minImprovement: real, venues: seq<Venue>)

  /** base ** exponent */
  type Growth = (real, real) -> real

  /** base ** (days / 365) is the positive number whose 365th power is base ** days. */
  predicate GrowsTo(growth: Growth, base: real, days: nat) {
    var grown := growth(base, days as real / 365.0);
    0.0 < grown && Power(grown, 365) == Power(base, days)
  }

  ghost predicate IsGrowth(growth: Growth) {
    forall base, days: nat | 1.0 <= base && 1 <= days :: GrowsTo(growth, base, days)
  }

  predicate DistinctIds(venues: seq<Venue>) {
    forall i, j | 0 <= i < j < |venues| :: venues[i].id != venues[j].id
  }

  /** YieldInput's validators. */
  predicate ValidYield(i: YieldInput) {
    0.0 < i.capital && 0.0 <= i.currentApy && 1 <= i.horizon <= 365 && 0.0 <= i.minImprovement && i.venues != []
    && DistinctIds(i.venues)
  }

  datatype Row = Row(venue: Venue, hold: real, income: real, improvement: real, capacityOk: bool, withdrawalOk: bool)

  function Earned(growth: Growth, i: YieldInput, apy: real): real {
    i.capital * (growth(1.0 + apy / 100.0, i.horizon as real / 365.0) - 1.0)
  }

  function RowOf(growth: Growth, i: YieldInput, v: Venue): (row: Row)
    ensures row.venue == v
  {
    var staying, gross := Earned(growth, i, i.currentApy), Earned(growth, i, v.apy);
    Row(v, staying, gross - v.migration, gross - staying - v.migration, v.capacity >= i.capital, v.delay <= i.horizon)
  }

  /** The key (-improvement, venue_id), ascending. */
  predicate Before(a: Row, b: Row) {
    a.improvement > b.improvement || (a.improvement == b.improvement && Leq(a.venue.id, b.venue.id))
  }

  ghost predicate Ranked(rows: seq<Row>) {
    forall i, j | 0 <= i < j < |rows| :: Before(rows[i], rows[j])
  }

  function Insert(row: Row, rows: seq<Row>): seq<Row> {
    if rows == [] then [row]
    else if Before(row, rows[0]) then [row] + rows
    else [rows[0]] + Insert(row, rows[1..])
  }

  /** sorted(rows, key=...) */
  function SortRows(rows: seq<Row>): seq<Row> {
    if rows == [] then [] else Insert(rows[|rows| - 1], SortRows(rows[..|rows| - 1]))
  }

  function Rows(growth: Growth, i: YieldInput): seq<Row> {
    seq(|i.venues|, n requires 0 <= n < |i.venues| => RowOf(growth, i, i.venues[n]))
  }

  function Ranking(growth: Growth, i: YieldInput): seq<Row> {
    SortRows(Rows(growth, i))
  }

  method YieldMetrics(growth: Growth, i: YieldInput) returns (rows: seq<Row>)
    ensures rows == Ranking(growth, i)
  {
    rows := [];
    for n := 0 to |i.venues|
      invariant rows == Rows(growth, i)[..n]
    {
      rows := rows + [RowOf(growth, i, i.venues[n])];
    }
    assert Rows(growth, i)[..|i.venues|] == Rows(growth, i);
    rows := SortRows(rows);
  }

  // ---------------------------------------------------------------- growth

  lemma {:induction false} PowerGrows(x: real, y: real, n: nat)
    requires 0.0 < x <= y
    ensures 0.0 < Power(x, n) <= Power(y, n)
    ensures x < y && 0 < n ==> Power(x, n) < Power(y, n)
  {
    if n > 0 {
      PowerGrows(x, y, n - 1);
      ProductGrows(x, y, Power(x, n - 1), Power(y, n - 1));
    }
  }

  lemma ProductGrows(x: real, y: real, p: real, q: real)
    requires 0.0 < x <= y && 0.0 < p <= q
    ensures 0.0 < x * p <= y * q && (x < y ==> x * p < y * q)
  {
    Sign(x, p);
    if x < y {
      Sign(y - x, p);
    }
    if p < q {
      Sign(q - p, y);
    }
    assert y * q - x * p == (q - p) * y + (y - x) * p;
  }

  lemma GrowthGrows(growth: Growth, a: real, b: real, days: nat)
    requires IsGrowth(growth) && 1.0 <= a < b && 1 <= days
    ensures growth(a, days as real / 365.0) < growth(b, days as real / 365.0)
  {
    hide Power;
    assert GrowsTo(growth, a, days) && GrowsTo(growth, b, days);
    var g, h := growth(a, days as real / 365.0), growth(b, days as real / 365.0);
    PowerGrows(a, b, days);
    if h <= g {
      PowerGrows(h, g, 365);
      assert false;
    }
  }

  /** MAIN RESULT. A venue with a higher yield that costs no more to move to ranks first, and a venue that yields what
      the current one does improves on staying by exactly minus its cost. */
  lemma HigherYieldRanksFirst(growth: Growth, i: YieldInput, v: Venue, w: Venue)
    requires IsGrowth(growth) && ValidYield(i) && 0.0 <= w.apy < v.apy && v.migration <= w.migration
    ensures RowOf(growth, i, v).improvement > RowOf(growth, i, w).improvement
    ensures Before(RowOf(growth, i, v), RowOf(growth, i, w)) && !Before(RowOf(growth, i, w), RowOf(growth, i, v))
    ensures forall u: Venue | u.apy == i.currentApy :: RowOf(growth, i, u).improvement == -u.migration
  {
    hide IsGrowth;
    EarnedGrows(growth, i, w.apy, v.apy);
    hide Earned;
  }

  lemma EarnedGrows(growth: Growth, i: YieldInput, low: real, high: real)
    requires IsGrowth(growth) && ValidYield(i) && 0.0 <= low < high
    ensures Earned(growth, i, low) < Earned(growth, i, high)
  {
    var a, b, h := 1.0 + low / 100.0, 1.0 + high / 100.0, i.horizon as real / 365.0;
    GrowthGrows(growth, a, b, i.horizon);
    var x, y := growth(a, h) - 1.0, growth(b, h) - 1.0;
    Sign(y - x, i.capital);
    assert i.capital * y - i.capital * x == (y - x) * i.capital;
    assert Earned(growth, i, low) == i.capital * x && Earned(growth, i, high) == i.capital * y;
  }

  // ---------------------------------------------------------------- the ranking

  lemma BeforeTotal(a: Row, b: Row)
    ensures Before(a, b) || Before(b, a)
  {
    Total(a.venue.id, b.venue.id);
  }

  lemma BeforeTransitive(a: Row, b: Row, c: Row)
    requires Before(a, b) && Before(b, c)
    ensures Before(a, c)
  {
    if a.venue.id != b.venue.id && b.venue.id != c.venue.id && a.improvement == c.improvement {
      Transitive(a.venue.id, b.venue.id, c.venue.id);
    }
  }

  lemma {:induction false} InsertRanks(row: Row, rows: seq<Row>)
    requires Ranked(rows)
    ensures Ranked(Insert(row, rows)) && multiset(Insert(row, rows)) == multiset(rows) + multiset{row}
  {
    hide Before;
    if rows != [] {
      assert rows == [rows[0]] + rows[1..];
      if Before(row, rows[0]) {
        forall k | 0 <= k < |rows| ensures Before(row, rows[k]) {
          if k > 0 {
            BeforeTransitive(row, rows[0], rows[k]);
          }
        }
      } else {
        var rest := Insert(row, rows[1..]);
        BeforeTotal(row, rows[0]);
        InsertRanks(row, rows[1..]);
        forall k | 0 <= k < |rest| ensures Before(rows[0], rest[k]) {
          assert rest[k] in multiset(rest);
          assert rest[k] == row || rest[k] in rows[1..];
        }
      }
    }
  }

  lemma {:induction false} SortRanks(rows: seq<Row>)
    ensures Ranked(SortRows(rows)) && multiset(SortRows(rows)) == multiset(rows)
  {
    if rows != [] {
      var n := |rows| - 1;
      SortRanks(rows[..n]);
      InsertRanks(rows[n], SortRows(rows[..n]));
      assert rows == rows[..n] + [rows[n]];
    }
  }

  ghost predicate OneRowPerId(rows: multiset<Row>) {
    forall a, b | a in rows && b in rows && a.venue.id == b.venue.id :: a == b && rows[a] == 1
  }

  /** Two rankings of the same rows are the same. */
  lemma {:induction false} RankingUnique(a: seq<Row>, b: seq<Row>)
    requires Ranked(a) && Ranked(b) && multiset(a) == multiset(b) && OneRowPerId(multiset(a))
    ensures a == b
  {
    hide Before;
    if a == [] {
      assert |multiset(b)| == 0;
    } else {
      assert a[0] in multiset(b) && |multiset(b)| > 0;
      SameHead(a, b);
      assert a == [a[0]] + a[1..] && b == [b[0]] + b[1..];
      assert multiset(a[1..]) == multiset(a) - multiset{a[0]};
      RankingUnique(a[1..], b[1..]);
    }
  }

  lemma SameHead(a: seq<Row>, b: seq<Row>)
    requires a != [] && b != [] && Ranked(a) && Ranked(b) && multiset(a) == multiset(b) && OneRowPerId(multiset(a))
    ensures a[0] == b[0]
  {
    assert a[0] in multiset(b) && b[0] in multiset(a);
    assert a[0] in b && b[0] in a;
    if a[0] != b[0] {
      assert Before(a[0], b[0]) && Before(b[0], a[0]);
      Antisymmetric(a[0].venue.id, b[0].venue.id);
      assert false;
    }
  }

  lemma RowsHaveDistinctIds(growth: Growth, i: YieldInput)
    requires DistinctIds(i.venues)
    ensures OneRowPerId(multiset(Rows(growth, i)))
  {
    var rows := Rows(growth, i);
    DistinctRows(rows);
  }

  lemma {:induction false} DistinctRows(rows: seq<Row>)
    requires forall j, k | 0 <= j < k < |rows| :: rows[j].venue.id != rows[k].venue.id
    ensures OneRowPerId(multiset(rows))
  {
    if rows != [] {
      var n := |rows| - 1;
      DistinctRows(rows[..n]);
      assert rows == rows[..n] + [rows[n]];
      assert multiset(rows) == multiset(rows[..n]) + multiset{rows[n]};
      forall a | a in multiset(rows[..n]) ensures a.venue.id != rows[n].venue.id {
        assert a in rows[..n];
      }
    }
  }

  lemma RowsOfPermutation(growth: Growth, i: YieldInput, venues: seq<Venue>)
    requires multiset(venues) == multiset(i.venues)
    ensures multiset(Rows(growth, i.(venues := venues))) == multiset(Rows(growth, i))
  {
    hide Rows;
    assert i.(venues := i.venues) == i;
    forall row ensures multiset(Rows(growth, i.(venues := venues)))[row] == multiset(Rows(growth, i))[row] {
      RowCount(growth, i, venues, row);
      RowCount(growth, i, i.venues, row);
    }
  }

  /** A venue has as many rows as it has entries. */
  lemma {:induction false} RowCount(growth: Growth, i: YieldInput, venues: seq<Venue>, row: Row)
    ensures multiset(Rows(growth, i.(venues := venues)))[row]
            == if row == RowOf(growth, i, row.venue) then multiset(venues)[row.venue] else 0
    decreases |venues|
  {
    hide RowOf;
    var rows := Rows(growth, i.(venues := venues));
    if venues != [] {
      var n := |venues| - 1;
      RowCount(growth, i, venues[..n], row);
      RowsExtend(growth, i, venues);
      assert rows == rows[..n] + [rows[n]] && venues == venues[..n] + [venues[n]];
    }
  }

  lemma RowsExtend(growth: Growth, i: YieldInput, venues: seq<Venue>)
    requires venues != []
    ensures var n, rows := |venues| - 1, Rows(growth, i.(venues := venues));
            Rows(growth, i.(venues := venues[..n])) == rows[..n] && rows[n] == RowOf(growth, i, venues[n])
  {
    hide RowOf;
    var n, rows := |venues| - 1, Rows(growth, i.(venues := venues));
    var init := Rows(growth, i.(venues := venues[..n]));
    SameRow(growth, i, venues, venues[n]);
    forall k | 0 <= k < n ensures init[k] == rows[..n][k] {
      assert venues[..n][k] == venues[k];
      SameRow(growth, i, venues, venues[k]);
      SameRow(growth, i, venues[..n], venues[k]);
    }
    assert init == rows[..n];
  }

  /** A row depends on its own venue only. */
  lemma SameRow(growth: Growth, i: YieldInput, venues: seq<Venue>, v: Venue)
    ensures RowOf(growth, i.(venues := venues), v) == RowOf(growth, i, v)
  {
    SameEarned(growth, i, venues, i.currentApy);
    SameEarned(growth, i, venues, v.apy);
    hide Earned;
  }

  lemma SameEarned(growth: Growth, i: YieldInput, venues: seq<Venue>, apy: real)
    ensures Earned(growth, i.(venues := venues), apy) == Earned(growth, i, apy)
  {
    var j := i.(venues := venues);
    var grown := growth(1.0 + apy / 100.0, i.horizon as real / 365.0) - 1.0;
    assert j.capital == i.capital && j.horizon == i.horizon;
    assert Earned(growth, j, apy) == j.capital * grown;
    assert Earned(growth, i, apy) == i.capital * grown;
  }

  /** MAIN RESULT. The ranking is a permutation of one row per venue in order of (-improvement, venue_id), and the
      order in which the venues are listed does not matter. */
  lemma RankingIndependentOfListing(growth: Growth, i: YieldInput, venues: seq<Venue>)
    requires DistinctIds(i.venues) && multiset(venues) == multiset(i.venues)
    ensures Ranked(Ranking(growth, i)) && multiset(Ranking(growth, i)) == multiset(Rows(growth, i))
    ensures Ranking(growth, i.(venues := venues)) == Ranking(growth, i)
  {
    hide Rows, SortRows, Ranked, OneRowPerId;
    SortRanks(Rows(growth, i));
    SortRanks(Rows(growth, i.(venues := venues)));
    RowsOfPermutation(growth, i, venues);
    RowsHaveDistinctIds(growth, i);
    RankingUnique(Ranking(growth, i.(venues := venues)), Ranking(growth, i));
  }

  /** What capital becomes at a yield, over the horizon: the positive number whose 365th power is the yearly growth to
      the number of days. */
  ghost predicate Compounds(i: YieldInput, apy: real, income: real)
    requires 0.0 < i.capital && 0 <= i.horizon
  {
    0.0 < income / i.capital + 1.0 && Power(income / i.capital + 1.0, 365) == Power(1.0 + apy / 100.0, i.horizon)
  }

  lemma EarnedCompounds(growth: Growth, i: YieldInput, apy: real)
    requires IsGrowth(growth) && 0.0 < i.capital && 1 <= i.horizon && 0.0 <= apy
    ensures Compounds(i, apy, Earned(growth, i, apy))
  {
    hide Power;
    assert GrowsTo(growth, 1.0 + apy / 100.0, i.horizon);
    var grown := growth(1.0 + apy / 100.0, i.horizon as real / 365.0);
    Divided(Earned(growth, i, apy), i.capital, grown - 1.0);
  }

  lemma Divided(z: real, x: real, y: real)
    requires 0.0 < x && z == x * y
    ensures z / x == y
  {
  }

  /** MAIN RESULT. A row compares what the capital earns in the current venue and in the row's, each compounded over
      the horizon, and takes off the cost of moving; it has room if the capital fits, and time if the money can be
      out by the end of the horizon. */
  lemma RowTells(growth: Growth, i: YieldInput, v: Venue)
    requires IsGrowth(growth) && ValidYield(i) && 0.0 <= v.apy
    ensures var row := RowOf(growth, i, v);
            && Compounds(i, i.currentApy, row.hold) && Compounds(i, v.apy, row.income + v.migration)
            && row.improvement == row.income - row.hold
            && (row.capacityOk <==> i.capital <= v.capacity) && (row.withdrawalOk <==> v.delay <= i.horizon)
  {
    hide Compounds, IsGrowth, Earned, ValidYield;
    PositiveInputs(i);
    EarnedCompounds(growth, i, i.currentApy);
    EarnedCompounds(growth, i, v.apy);
  }

  lemma PositiveInputs(i: YieldInput)
    requires ValidYield(i)
    ensures 0.0 < i.capital && 0.0 <= i.currentApy && 1 <= i.horizon
  {
  }

  lemma {:induction false} RootUnique(x: real, y: real, n: nat)
    requires 0.0 < x && 0.0 < y && 0 < n && Power(x, n) == Power(y, n)
    ensures x == y
  {
    hide Power;
    if x < y {
      PowerGrows(x, y, n);
    } else if y < x {
      PowerGrows(y, x, n);
    }
  }

  /** Over a full year the yields are plain percentages. */
  lemma YearIsPercent(growth: Growth, i: YieldInput, v: Venue)
    requires IsGrowth(growth) && ValidYield(i) && 0.0 <= v.apy && i.horizon == 365
    ensures var row := RowOf(growth, i, v);
            && row.hold == i.capital * i.currentApy / 100.0
            && row.improvement == i.capital * (v.apy - i.currentApy) / 100.0 - v.migration
  {
    hide Power, IsGrowth, RowOf;
    PositiveInputs(i);
    RowTells(growth, i, v);
    var row := RowOf(growth, i, v);
    RootUnique(row.hold / i.capital + 1.0, 1.0 + i.currentApy / 100.0, 365);
    RootUnique((row.income + v.migration) / i.capital + 1.0, 1.0 + v.apy / 100.0, 365);
    Scaled(row.hold, i.capital, i.currentApy / 100.0);
    Scaled(row.income + v.migration, i.capital, v.apy / 100.0);
  }

  lemma Scaled(x: real, capital: real, share: real)
    requires 0.0 < capital && x / capital == share
    ensures x == capital * share
  {
  }
}
