/** Start orders of a dependency graph: what they are, when they exist, and which one is least. */
module PluginGraph {
  import opened Ordering

  /** deps[x]: the plugins x must follow. */
  type Graph = map<string, set<string>>

  ghost predicate Closed(deps: Graph) {
    forall x | x in deps :: deps[x] <= deps.Keys
  }

  ghost predicate Distinct(xs: seq<string>) {
    forall i, j | 0 <= i < j < |xs| :: xs[i] != xs[j]
  }

  /** A start order: every plugin once, after everything it depends on. */
  ghost predicate IsOrder(deps: Graph, o: seq<string>) {
    && Distinct(o) && Elements(o) == deps.Keys
    && forall k | 0 <= k < |o| :: o[k] in deps && deps[o[k]] <= Elements(o[..k])
  }

  /** Plugins that may start next. */
  function Ready(deps: Graph, done: set<string>): set<string> {
    set x | x in deps && x !in done && deps[x] <= done
  }

  /** Each element is the least plugin that may start at its place. */
  ghost predicate Greedy(deps: Graph, o: seq<string>) {
    forall k | 0 <= k < |o| :: IsLeast(o[k], Ready(deps, Elements(o[..k])))
  }

  ghost predicate LexLeq(a: seq<string>, b: seq<string>) {
    a == b || exists k | 0 <= k < |a| && k < |b| :: a[..k] == b[..k] && Less(a[k], b[k])
  }

  ghost predicate IsLeastOrder(deps: Graph, o: seq<string>) {
    IsOrder(deps, o) && forall p | IsOrder(deps, p) :: LexLeq(o, p)
  }

  // ---------------------------------------------------------------- minimality

  lemma {:induction false} ElementsSize(xs: seq<string>)
    requires Distinct(xs)
    ensures |Elements(xs)| == |xs|
  {
    if xs == [] {
      assert Elements(xs) == {};
    } else {
      var n := |xs| - 1;
      ElementsSize(xs[..n]);
      assert Elements(xs) == Elements(xs[..n]) + {xs[n]};
      assert xs[n] !in Elements(xs[..n]);
    }
  }

  lemma {:induction false} FirstDifference(a: seq<string>, b: seq<string>) returns (k: nat)
    requires |a| == |b| && a != b
    ensures k < |a| && a[..k] == b[..k] && a[k] != b[k]
  {
    if a[0] != b[0] {
      k := 0;
    } else {
      assert a == [a[0]] + a[1..] && b == [b[0]] + b[1..];
      var j := FirstDifference(a[1..], b[1..]);
      k := j + 1;
      assert a[..k] == [a[0]] + a[1..][..j] && b[..k] == [b[0]] + b[1..][..j];
    }
  }

  /** The greedy order is lexicographically least among all start orders. */
  lemma GreedyIsLeast(deps: Graph, o: seq<string>)
    requires IsOrder(deps, o) && Greedy(deps, o)
    ensures IsLeastOrder(deps, o)
  {
    forall p | IsOrder(deps, p) ensures LexLeq(o, p) {
      ElementsSize(o);
      ElementsSize(p);
      if o != p {
        var k := FirstDifference(o, p);
        assert p[k] !in Elements(p[..k]);
        assert p[k] in Ready(deps, Elements(o[..k]));
        assert IsLeast(o[k], Ready(deps, Elements(o[..k])));
      }
    }
  }

  lemma SamePlace(a: seq<string>, b: seq<string>, i: nat, j: nat)
    requires i < |a| && i < |b| && a[..i] == b[..i] && a[i] != b[i]
    requires j < |a| && j < |b| && a[..j] == b[..j] && a[j] != b[j]
    ensures i == j
  {
    assert forall k | 0 <= k < i :: a[..i][k] == b[..i][k];
    assert forall k | 0 <= k < j :: a[..j][k] == b[..j][k];
  }

  /** There is at most one least order, so it cannot depend on how the manifests were listed. */
  lemma LeastOrderUnique(deps: Graph, a: seq<string>, b: seq<string>)
    requires IsLeastOrder(deps, a) && IsLeastOrder(deps, b)
    ensures a == b
  {
    if a != b {
      var i :| 0 <= i < |a| && i < |b| && a[..i] == b[..i] && Less(a[i], b[i]);
      var j :| 0 <= j < |b| && j < |a| && b[..j] == a[..j] && Less(b[j], a[j]);
      Irreflexive(a[i]);
      Irreflexive(b[j]);
      SamePlace(a, b, i, j);
      Transitive(a[i], b[i], a[i]);
    }
  }

  // ---------------------------------------------------------------- cycles

  predicate Edge(deps: Graph, x: string, y: string) {
    x in deps && y in deps[x]
  }

  /** Each plugin of p depends on the next, and the last on the first. */
  ghost predicate IsCycle(deps: Graph, p: seq<string>) {
    && p != [] && (forall i | 0 <= i < |p| :: p[i] in deps)
    && (forall i, j | 0 <= i < |p| && 0 <= j < |p| && j == i + 1 :: Edge(deps, p[i], p[j]))
    && Edge(deps, p[|p| - 1], p[0])
  }

  ghost predicate HasCycle(deps: Graph) {
    exists p :: IsCycle(deps, p)
  }

  /** Plugins each waiting for another one among them. */
  ghost predicate Stuck(deps: Graph, s: set<string>) {
    s <= deps.Keys && forall x {:trigger deps[x]} | x in s :: deps[x] * s != {}
  }

  /** A path of distinct plugins in s, each depending on the next. */
  ghost predicate IsPath(deps: Graph, s: set<string>, p: seq<string>) {
    && p != [] && Distinct(p) && (forall i | 0 <= i < |p| :: p[i] in s)
    && (forall i, j | 0 <= i < |p| && 0 <= j < |p| && j == i + 1 :: Edge(deps, p[i], p[j]))
  }

  lemma PathFits(deps: Graph, s: set<string>, p: seq<string>)
    requires IsPath(deps, s, p)
    ensures |p| <= |s|
  {
    ElementsSize(p);
    SubsetSize(Elements(p), s);
  }

  lemma {:induction false} SubsetSize(a: set<string>, b: set<string>)
    requires a <= b
    ensures |a| <= |b|
  {
    if a != {} {
      var x :| x in a;
      SubsetSize(a - {x}, b - {x});
    }
  }

  lemma WaitsFor(deps: Graph, s: set<string>, x: string) returns (y: string)
    requires Stuck(deps, s) && x in s
    ensures y in s && x in deps && Edge(deps, x, y)
  {
    y :| y in deps[x] * s;
  }

  /** Following dependencies inside a stuck set must come back on itself. */
  lemma {:induction false} PathClosesUp(deps: Graph, s: set<string>, p: seq<string>)
    requires Stuck(deps, s) && IsPath(deps, s, p)
    ensures HasCycle(deps)
    decreases |s| - |p|
  {
    PathFits(deps, s, p);
    var y := WaitsFor(deps, s, p[|p| - 1]);
    if y in p {
      var i :| 0 <= i < |p| && p[i] == y;
      var c := p[i..];
      assert c[|c| - 1] == p[|p| - 1] && c[0] == y;
      assert IsCycle(deps, c);
    } else {
      var longer := p + [y];
      assert IsPath(deps, s, longer);
      PathFits(deps, s, longer);
      PathClosesUp(deps, s, longer);
    }
  }

  lemma StuckHasCycle(deps: Graph, s: set<string>)
    requires Stuck(deps, s) && s != {}
    ensures HasCycle(deps)
  {
    var x :| x in s;
    assert IsPath(deps, s, [x]);
    PathClosesUp(deps, s, [x]);
  }

  /** Along a cycle the places in a start order would have to fall for ever. */
  lemma {:induction false} PlacesFall(deps: Graph, o: seq<string>, p: seq<string>, i: nat, j: nat) returns (m: nat,
                                      n: nat)
    requires IsOrder(deps, o) && IsCycle(deps, p) && i <= j < |p|
    ensures m < |o| && n < |o| && o[m] == p[i] && o[n] == p[j] && n + (j - i) <= m
    decreases j
  {
    if i == j {
      assert p[i] in Elements(o);
      m :| 0 <= m < |o| && o[m] == p[i];
      n := m;
    } else {
      var before;
      m, before := PlacesFall(deps, o, p, i, j - 1);
      assert Edge(deps, p[j - 1], p[j]);
      assert p[j] in Elements(o[..before]);
      n :| 0 <= n < before && o[..before][n] == p[j];
    }
  }

  lemma CycleHasNoOrder(deps: Graph, p: seq<string>, o: seq<string>)
    requires IsCycle(deps, p)
    ensures !IsOrder(deps, o)
  {
    if IsOrder(deps, o) {
      var m, n := PlacesFall(deps, o, p, 0, |p| - 1);
      assert false;
    }
  }
}
