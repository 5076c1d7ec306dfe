/** PluginRegistry._ordered_ids: the start order of the enabled plugins, by Kahn's algorithm
    with a sorted list of ready plugins. */
module PluginOrder {
  import opened Ordering
  import opened PluginGraph
  import opened Values

  datatype Manifest = Manifest(id: string, offers: seq<string>, requirements: seq<string>, enabled: bool)

  datatype DependencyError = DuplicateCapability | MissingCapability | DependencyCycle(unresolved: seq<string>)

  datatype Outcome = Ordered(order: seq<string>) | Failed(error: DependencyError)

  function Enabled(handles: seq<Manifest>): seq<Manifest> {
    if handles == [] then []
    else
      var before := Enabled(handles[..|handles| - 1]);
      if handles[|handles| - 1].enabled then before + [handles[|handles| - 1]] else before
  }

  /** Everything the first k plugins provide, in order and with repetitions. */
  function Claims(ms: seq<Manifest>): seq<string> {
    if ms == [] then [] else Claims(ms[..|ms| - 1]) + ms[|ms| - 1].offers
  }

  /** The first plugin that provides capability c. */
  function OwnerOf(ms: seq<Manifest>, c: string): Option<string> {
    if ms == [] then None
    else
      var before := OwnerOf(ms[..|ms| - 1], c);
      if before.Some? then before
      else if c in ms[|ms| - 1].offers then Some(ms[|ms| - 1].id) else None
  }

  predicate Needed(services: set<string>, m: Manifest, c: string) {
    c in m.requirements && c !in services
  }

  /** The owners of the requirements that are not already in services. */
  function Owners(ms: seq<Manifest>, services: set<string>, m: Manifest): set<string> {
    set c | c in m.requirements && c !in services && OwnerOf(ms, c).Some? :: OwnerOf(ms, c).value
  }

  ghost predicate Missing(ms: seq<Manifest>, services: set<string>) {
    exists m, c :: m in ms && Needed(services, m, c) && OwnerOf(ms, c).None?
  }

  /** The dependency graph of the enabled plugins. */
  ghost predicate IsGraph(ms: seq<Manifest>, services: set<string>, deps: Graph) {
    && deps.Keys == Ids(ms)
    && forall m | m in ms :: deps[m.id] == Owners(ms, services, m)
  }

  ghost predicate DistinctIds(ms: seq<Manifest>) {
    forall i, j | 0 <= i < j < |ms| :: ms[i].id != ms[j].id
  }

  // ---------------------------------------------------------------- capabilities

  lemma {:induction false} ClaimsAre(ms: seq<Manifest>, c: string)
    ensures c in Claims(ms) <==> OwnerOf(ms, c).Some?
  {
    if ms != [] {
      ClaimsAre(ms[..|ms| - 1], c);
    }
  }

  lemma {:induction false} ClaimsPrefix(ms: seq<Manifest>, k: nat)
    requires k <= |ms|
    ensures Claims(ms[..k]) <= Claims(ms)
  {
    if k == |ms| {
      assert ms[..k] == ms;
    } else {
      assert ms[..|ms| - 1][..k] == ms[..k];
      ClaimsPrefix(ms[..|ms| - 1], k);
    }
  }

  /** The loop that records who provides what. */
  method CapabilityOwners(ms: seq<Manifest>) returns (owner: Option<map<string, string>>)
    ensures owner.Some? <==> Distinct(Claims(ms))
    ensures owner.Some? ==> Indexes(ms, owner.value)
  {
    var found: map<string, string> := map[];
    var i := 0;
    while i < |ms|
      invariant 0 <= i <= |ms|
      invariant Distinct(Claims(ms[..i]))
      invariant forall c :: (c in found <==> OwnerOf(ms[..i], c).Some?)
                            && (c in found ==> OwnerOf(ms[..i], c) == Some(found[c]))
    {
      var m := ms[i];
      ghost var before := found;
      ghost var claims := Claims(ms[..i]);
      assert ms[..i + 1][..i] == ms[..i];
      assert Claims(ms[..i + 1]) == claims + m.offers;
      var j := 0;
      while j < |m.offers|
        invariant 0 <= j <= |m.offers|
        invariant Distinct(claims + m.offers[..j])
        invariant forall c :: c in found <==> c in before || c in m.offers[..j]
        invariant forall c :: c in found ==> found[c] == if c in before then before[c] else m.id
      {
        var c := m.offers[j];
        forall d ensures d in claims <==> d in before {
          ClaimsAre(ms[..i], d);
        }
        if c in found {
          RepeatedClaim(claims, m.offers, j);
          ClaimsPrefix(ms, i + 1);
          return None;
        }
        found := found[c := m.id];
        assert claims + m.offers[..j + 1] == claims + m.offers[..j] + [c];
        j := j + 1;
      }
      assert m.offers[..j] == m.offers;
      i := i + 1;
    }
    assert ms[..i] == ms;
    owner := Some(found);
  }

  lemma RepeatedClaim(claims: seq<string>, offers: seq<string>, j: nat)
    requires j < |offers| && (offers[j] in claims || offers[j] in offers[..j])
    ensures !Distinct(claims + offers)
  {
    var all := claims + offers;
    assert all[|claims| + j] == offers[j];
    if offers[j] in claims {
      var i :| 0 <= i < |claims| && claims[i] == offers[j];
      assert all[i] == all[|claims| + j];
    } else {
      var i :| 0 <= i < j && offers[i] == offers[j];
      assert all[|claims| + i] == all[|claims| + j];
    }
  }

  /** What owner says, as the specification says it. */
  ghost predicate Indexes(ms: seq<Manifest>, owner: map<string, string>) {
    forall c :: (c in owner <==> OwnerOf(ms, c).Some?) && (c in owner ==> OwnerOf(ms, c) == Some(owner[c]))
  }

  /** The inner loop of the dependency pass: the owners one plugin waits for. */
  method Requirements(ghost ms: seq<Manifest>, services: set<string>, owner: map<string, string>, m: Manifest)
    returns (r: Option<set<string>>)
    requires Indexes(ms, owner)
    ensures r.None? <==> exists c :: Needed(services, m, c) && OwnerOf(ms, c).None?
    ensures r.Some? ==> r.value == Owners(ms, services, m)
  {
    var found: set<string> := {};
    var j := 0;
    while j < |m.requirements|
      invariant 0 <= j <= |m.requirements|
      invariant found == set c | c in m.requirements[..j] && c !in services && c in owner :: owner[c]
      invariant forall c | c in m.requirements[..j] && c !in services :: c in owner
    {
      var c := m.requirements[j];
      if c !in services {
        if c !in owner {
          assert Needed(services, m, c);
          return None;
        }
        found := found + {owner[c]};
      }
      j := j + 1;
    }
    assert m.requirements[..j] == m.requirements;
    r := Some(found);
  }

  function Ids(ms: seq<Manifest>): set<string> {
    set m | m in ms :: m.id
  }

  /** The loop that turns requirements into dependencies. */
  method Dependencies(ms: seq<Manifest>, services: set<string>, owner: map<string, string>) returns (r: Option<Graph>)
    requires DistinctIds(ms) && Indexes(ms, owner)
    ensures r.None? <==> Missing(ms, services)
    ensures r.Some? ==> IsGraph(ms, services, r.value)
  {
    hide Owners, OwnerOf, Indexes, Needed;
    var deps: Graph := map id | id in Ids(ms) :: {};
    var i := 0;
    while i < |ms|
      invariant 0 <= i <= |ms|
      invariant deps.Keys == Ids(ms)
      invariant forall k | 0 <= k < i :: deps[ms[k].id] == Owners(ms, services, ms[k])
      invariant forall k, c | 0 <= k < i && Needed(services, ms[k], c) :: OwnerOf(ms, c).Some?
    {
      var found := Requirements(ms, services, owner, ms[i]);
      if found.None? {
        assert ms[i] in ms;
        return None;
      }
      deps := deps[ms[i].id := found.value];
      i := i + 1;
    }
    r := Some(deps);
  }

  // ---------------------------------------------------------------- Kahn's algorithm

  /** ready.sort() on a list without repetitions. */
  function SortList(xs: seq<string>): seq<string> {
    Sorted(Elements(xs))
  }

  /** What is known of an order under construction: greedy, and with nothing before its dependencies. */
  ghost predicate Partial(graph: Graph, o: seq<string>) {
    && Distinct(o) && Greedy(graph, o)
    && forall k | 0 <= k < |o| :: o[k] in graph && graph[o[k]] <= Elements(o[..k])
  }

  lemma PartialExtends(graph: Graph, o: seq<string>, x: string)
    requires Partial(graph, o) && IsLeast(x, Ready(graph, Elements(o)))
    ensures Partial(graph, o + [x]) && Elements(o + [x]) == Elements(o) + {x}
  {
    var p := o + [x];
    forall k | 0 <= k < |p|
      ensures p[k] in graph && graph[p[k]] <= Elements(p[..k]) && IsLeast(p[k], Ready(graph, Elements(p[..k])))
    {
      assert p[..k] == o[..k];
      if k == |o| {
        assert o[..k] == o;
      }
    }
  }

  /** The for loop over sorted(deps) after current has been ordered: strike current from every plugin that
      waits for it, and queue those left with nothing to wait for. */
  method Strike(ghost graph: Graph, ghost done: set<string>, names: seq<string>, current: string,
                ordered: seq<string>, deps0: Graph, ready0: seq<string>) returns (deps: Graph, ready: seq<string>)
    requires names == Sorted(graph.Keys) && current in Ready(graph, done)
             && (forall x :: x in ordered <==> x in done + {current})
    requires deps0.Keys == graph.Keys && forall x | x in graph :: deps0[x] == graph[x] - done
    requires ready0 == Sorted(Ready(graph, done) - {current})
    ensures deps.Keys == graph.Keys && forall x | x in graph :: deps[x] == graph[x] - (done + {current})
    ensures ready == Sorted(Ready(graph, done + {current}))
  {
    hide Freed, Ready, SortList, Elements, Sorted, Struck;
    deps, ready := deps0, ready0;
    ghost var seen: set<string> := {};
    assert Struck(graph, done, current, seen, deps) by {
      StruckNone(graph, done, current, deps);
    }
    FreedNone(graph, done, current);
    ElementsNone(names);
    var i := 0;
    while i < |names|
      invariant 0 <= i <= |names| && seen == Elements(names[..i])
      invariant Struck(graph, done, current, seen, deps)
      invariant ready == Sorted(Freed(graph, done, current, seen))
    {
      var p := names[i];
      SortedWalk(graph.Keys, i);
      StruckStep(graph, done, current, seen, deps, p);
      FreedStep(graph, done, current, seen, p, deps[p]);
      if current in deps[p] {
        deps := deps[p := deps[p] - {current}];
        if deps[p] == {} && p !in ordered && p !in ready {
          SortAppended(Freed(graph, done, current, seen), p);
          ready := SortList(ready + [p]);
        }
      }
      seen := seen + {p};
      i := i + 1;
    }
    assert names[..i] == names;
    ElementsSorted(graph.Keys);
    StruckAll(graph, done, current, deps);
    FreedAll(graph, done, current);
  }

  /** What deps holds while current is being struck: the plugins in seen no longer wait for it. */
  ghost predicate Struck(graph: Graph, done: set<string>, current: string, seen: set<string>, deps: Graph) {
    deps.Keys == graph.Keys
    && forall x | x in graph :: deps[x] == if x in seen then graph[x] - (done + {current}) else graph[x] - done
  }

  lemma StruckNone(graph: Graph, done: set<string>, current: string, deps: Graph)
    requires deps.Keys == graph.Keys && forall x | x in graph :: deps[x] == graph[x] - done
    ensures Struck(graph, done, current, {}, deps)
  {
  }

  lemma StruckStep(graph: Graph, done: set<string>, current: string, seen: set<string>, deps: Graph, p: string)
    requires Struck(graph, done, current, seen, deps) && p in graph && p !in seen
    ensures p in deps && deps[p] == graph[p] - done
    ensures Struck(graph, done, current, seen + {p},
                   if current in deps[p] then deps[p := deps[p] - {current}] else deps)
  {
    assert graph[p] - done - {current} == graph[p] - (done + {current});
  }

  lemma StruckAll(graph: Graph, done: set<string>, current: string, deps: Graph)
    requires Struck(graph, done, current, graph.Keys, deps)
    ensures deps.Keys == graph.Keys && forall x | x in graph :: deps[x] == graph[x] - (done + {current})
  {
  }

  lemma ElementsNone(xs: seq<string>)
    ensures Elements(xs[..0]) == {}
  {
  }

  lemma FreedNone(graph: Graph, done: set<string>, current: string)
    ensures Freed(graph, done, current, {}) == Ready(graph, done) - {current}
  {
  }

  lemma SortAppended(s: set<string>, p: string)
    ensures SortList(Sorted(s) + [p]) == Sorted(s + {p})
  {
    assert Elements(Sorted(s) + [p]) == s + {p};
  }

  method Kahn(graph: Graph) returns (ordered: seq<string>, deps: Graph)
    requires Closed(graph)
    ensures Partial(graph, ordered)
    ensures Ready(graph, Elements(ordered)) == {}
    ensures deps.Keys == graph.Keys && forall x | x in graph :: deps[x] == graph[x] - Elements(ordered)
  {
    hide Partial, Ready, Elements, Sorted;
    deps := graph;
    ordered := [];
    var ready := Sorted(set x | x in deps && deps[x] == {});
    KahnStarts(graph);
    while ready != []
      invariant Partial(graph, ordered)
      invariant deps.Keys == graph.Keys && forall x | x in graph :: deps[x] == graph[x] - Elements(ordered)
      invariant ready == Sorted(Ready(graph, Elements(ordered)))
      decreases |graph.Keys - Elements(ordered)|
    {
      ghost var done := Elements(ordered);
      SortedHead(Ready(graph, done));
      var current := ready[0];
      ready := ready[1..];
      PartialExtends(graph, ordered, current);
      ReadyIsNew(graph, done, current);
      InElements(ordered + [current]);
      ordered := ordered + [current];
      assert Elements(ordered) == done + {current};
      assert graph.Keys - Elements(ordered) == (graph.Keys - done) - {current};
      deps, ready := Strike(graph, done, Sorted(deps.Keys), current, ordered, deps, ready);
    }
  }

  lemma KahnStarts(graph: Graph)
    ensures Partial(graph, []) && Elements([]) == {}
    ensures (set x | x in graph && graph[x] == {}) == Ready(graph, {})
  {
  }

  lemma InElements(xs: seq<string>)
    ensures forall x :: x in xs <==> x in Elements(xs)
  {
  }

  lemma ReadyIsNew(graph: Graph, done: set<string>, x: string)
    requires x in Ready(graph, done)
    ensures x in graph && x !in done
  {
  }

  /** The ready set once current is ordered and the plugins in seen have been revisited. */
  ghost function Freed(graph: Graph, done: set<string>, current: string, seen: set<string>): set<string> {
    Ready(graph, done) - {current}
    + set x | x in seen && x in graph && current in graph[x] && x in Ready(graph, done + {current})
  }

  lemma FreedStep(graph: Graph, done: set<string>, current: string, seen: set<string>, p: string, waits: set<string>)
    requires p in graph && p !in seen && current in Ready(graph, done) && waits == graph[p] - done
    ensures (if current in waits then waits - {current} else waits) == graph[p] - (done + {current})
    ensures p in Freed(graph, done, current, seen) ==> current !in waits
    ensures Freed(graph, done, current, seen + {p})
            == if current in waits && waits - {current} == {} && p !in done + {current}
               then Freed(graph, done, current, seen) + {p} else Freed(graph, done, current, seen)
  {
  }

  lemma FreedAll(graph: Graph, done: set<string>, current: string)
    requires current in Ready(graph, done)
    ensures Freed(graph, done, current, graph.Keys) == Ready(graph, done + {current})
  {
  }

  // ---------------------------------------------------------------- the whole of _ordered_ids

  /** Plugins still waiting, in the order their manifests were listed. */
  function Unresolved(ms: seq<Manifest>, deps: Graph): seq<string> {
    if ms == [] then []
    else
      var before := Unresolved(ms[..|ms| - 1], deps);
      var id := ms[|ms| - 1].id;
      if id in deps && deps[id] != {} then before + [id] else before
  }

  lemma {:induction false} UnresolvedAre(ms: seq<Manifest>, deps: Graph)
    ensures Elements(Unresolved(ms, deps)) == set x | x in Ids(ms) && x in deps && deps[x] != {}
  {
    if ms != [] {
      var before := ms[..|ms| - 1];
      var id := ms[|ms| - 1].id;
      UnresolvedAre(before, deps);
      assert Ids(ms) == Ids(before) + {id};
      ElementsAppend(Unresolved(before, deps), id);
      assert (set x | x in Ids(ms) && x in deps && deps[x] != {})
             == (set x | x in Ids(before) && x in deps && deps[x] != {})
                + if id in deps && deps[id] != {} then {id} else {};
    }
  }

  lemma {:induction false} OwnerIsPlugin(ms: seq<Manifest>, c: string)
    ensures OwnerOf(ms, c).Some? ==> OwnerOf(ms, c).value in Ids(ms)
  {
    if ms != [] {
      OwnerIsPlugin(ms[..|ms| - 1], c);
      assert Ids(ms[..|ms| - 1]) <= Ids(ms);
    }
  }

  lemma GraphIsClosed(ms: seq<Manifest>, services: set<string>, deps: Graph)
    requires IsGraph(ms, services, deps)
    ensures Closed(deps)
  {
    forall x, y | x in deps && y in deps[x] ensures y in deps {
      var m :| m in ms && m.id == x;
      var c :| c in m.requirements && OwnerOf(ms, c) == Some(y);
      OwnerIsPlugin(ms, c);
    }
  }

  /** The plugins Kahn's loop leaves behind wait for each other. */
  lemma LeftoverIsStuck(graph: Graph, done: set<string>)
    requires Closed(graph) && Ready(graph, done) == {}
    ensures Stuck(graph, graph.Keys - done)
  {
    forall x | x in graph.Keys - done ensures graph[x] * (graph.Keys - done) != {} {
      assert x !in Ready(graph, done);
      var y :| y in graph[x] && y !in done;
      assert y in graph[x] * (graph.Keys - done);
    }
  }

  /** All the plugins that can never start. */
  ghost predicate IsGreatestStuck(deps: Graph, s: set<string>) {
    Stuck(deps, s) && forall t | Stuck(deps, t) :: t <= s
  }

  /** No plugin of the order waits for one that is stuck. */
  lemma {:induction false} OrderedIsNotStuck(graph: Graph, o: seq<string>, t: set<string>, k: nat)
    requires Partial(graph, o) && Stuck(graph, t) && k <= |o|
    ensures Elements(o[..k]) !! t
  {
    if k > 0 {
      OrderedIsNotStuck(graph, o, t, k - 1);
      assert o[..k] == o[..k - 1] + [o[k - 1]];
      ElementsAppend(o[..k - 1], o[k - 1]);
      assert graph[o[k - 1]] <= Elements(o[..k - 1]);
    }
  }

  lemma LeftoverIsGreatest(graph: Graph, o: seq<string>)
    requires Partial(graph, o) && Stuck(graph, graph.Keys - Elements(o))
    ensures IsGreatestStuck(graph, graph.Keys - Elements(o))
  {
    hide Partial;
    forall t | Stuck(graph, t) ensures t <= graph.Keys - Elements(o) {
      OrderedIsNotStuck(graph, o, t, |o|);
      assert o[..|o|] == o;
    }
  }

  ghost predicate OrderingOf(handles: seq<Manifest>, services: set<string>, r: Outcome) {
    var ms := Enabled(handles);
    && (r == Failed(DuplicateCapability) <==> !Distinct(Claims(ms)))
    && (r == Failed(MissingCapability) <==> Distinct(Claims(ms)) && Missing(ms, services))
    && (Distinct(Claims(ms)) && !Missing(ms, services) ==>
          exists deps ::
            && IsGraph(ms, services, deps) && Closed(deps)
            && (r.Failed? <==> HasCycle(deps))
            && (r.Failed? ==> r.error.DependencyCycle? && r.error.unresolved != []
                              && IsGreatestStuck(deps, Elements(r.error.unresolved)))
            && (r.Ordered? ==> IsLeastOrder(deps, r.order)))
  }

  /** MAIN RESULT. _ordered_ids fails for a repeated capability, then for a missing one, then exactly when the
      dependency graph has a cycle (naming all the plugins that can never start); otherwise it returns
      the lexicographically least start order. */
  method OrderedIds(handles: seq<Manifest>, services: set<string>) returns (r: Outcome)
    requires DistinctIds(handles)
    ensures OrderingOf(handles, services, r)
  {
    hide IsGreatestStuck, HasCycle, IsLeastOrder, Partial, Ready, Missing, Distinct, Closed;
    var enabled := Enabled(handles);
    EnabledDistinct(handles);
    var owner := CapabilityOwners(enabled);
    if owner.None? {
      return Failed(DuplicateCapability);
    }
    var graph := Dependencies(enabled, services, owner.value);
    if graph.None? {
      return Failed(MissingCapability);
    }
    GraphIsClosed(enabled, services, graph.value);
    GraphUnique(enabled, services, graph.value);
    var ordered, deps := Kahn(graph.value);
    if |ordered| != |enabled| {
      CycleFound(enabled, graph.value, ordered, deps);
      return Failed(DependencyCycle(Unresolved(enabled, deps)));
    }
    OrderFound(enabled, graph.value, ordered);
    r := Ordered(ordered);
  }

  lemma {:induction false} EnabledDistinct(handles: seq<Manifest>)
    requires DistinctIds(handles)
    ensures DistinctIds(Enabled(handles))
    ensures forall m :: m in Enabled(handles) <==> m in handles && m.enabled
  {
    if handles != [] {
      EnabledDistinct(handles[..|handles| - 1]);
    }
  }

  lemma GraphUnique(ms: seq<Manifest>, services: set<string>, graph: Graph)
    requires IsGraph(ms, services, graph)
    ensures forall deps | IsGraph(ms, services, deps) :: deps == graph
  {
    hide Owners;
    forall deps | IsGraph(ms, services, deps) ensures deps == graph {
      forall x | x in graph ensures deps[x] == graph[x] {
        var m :| m in ms && m.id == x;
      }
    }
  }

  lemma {:induction false} IdsSize(ms: seq<Manifest>)
    requires DistinctIds(ms)
    ensures |Ids(ms)| == |ms|
  {
    if ms != [] {
      var before := ms[..|ms| - 1];
      IdsSize(before);
      assert Ids(ms) == Ids(before) + {ms[|ms| - 1].id};
    }
  }

  lemma CycleFound(ms: seq<Manifest>, graph: Graph, ordered: seq<string>, deps: Graph)
    requires DistinctIds(ms) && graph.Keys == Ids(ms) && Closed(graph)
    requires Partial(graph, ordered) && Ready(graph, Elements(ordered)) == {} && |ordered| != |ms|
    requires deps.Keys == graph.Keys && forall x | x in graph :: deps[x] == graph[x] - Elements(ordered)
    ensures HasCycle(graph) && Unresolved(ms, deps) != [] && IsGreatestStuck(graph, Elements(Unresolved(ms, deps)))
  {
    hide Elements, Ready, Unresolved, HasCycle, Stuck, Partial, DistinctIds, Ids, Closed, IsGreatestStuck;
    var rest := graph.Keys - Elements(ordered);
    LeftoverIsStuck(graph, Elements(ordered));
    PartialWithin(graph, ordered);
    IdsSize(ms);
    SomeLeft(Elements(ordered), graph.Keys);
    WaitingIsLeftover(graph, ordered, deps);
    UnresolvedIsRest(ms, graph, deps, rest);
    LeftoverIsGreatest(graph, ordered);
    StuckHasCycle(graph, rest);
  }

  lemma SomeLeft(a: set<string>, b: set<string>)
    requires a <= b && |a| != |b|
    ensures b - a != {}
  {
    assert a + (b - a) == b;
  }

  lemma UnresolvedIsRest(ms: seq<Manifest>, graph: Graph, deps: Graph, rest: set<string>)
    requires deps.Keys == graph.Keys == Ids(ms) && rest == (set x | x in graph && deps[x] != {}) && rest != {}
    ensures Elements(Unresolved(ms, deps)) == rest && Unresolved(ms, deps) != []
  {
    UnresolvedAre(ms, deps);
  }

  lemma PartialWithin(graph: Graph, o: seq<string>)
    requires Partial(graph, o)
    ensures Elements(o) <= graph.Keys && |Elements(o)| == |o|
  {
    ElementsSize(o);
  }

  lemma WaitingIsLeftover(graph: Graph, ordered: seq<string>, deps: Graph)
    requires Partial(graph, ordered) && Stuck(graph, graph.Keys - Elements(ordered))
    requires deps.Keys == graph.Keys && forall x | x in graph :: deps[x] == graph[x] - Elements(ordered)
    ensures (set x | x in graph && deps[x] != {}) == graph.Keys - Elements(ordered)
  {
    forall x | x in graph ensures deps[x] != {} <==> x !in Elements(ordered) {
      if x in Elements(ordered) {
        var k :| 0 <= k < |ordered| && ordered[k] == x;
        assert graph[x] <= Elements(ordered[..k]) <= Elements(ordered);
      } else {
        var y := WaitsFor(graph, graph.Keys - Elements(ordered), x);
        assert y in deps[x];
      }
    }
  }

  lemma OrderFound(ms: seq<Manifest>, graph: Graph, ordered: seq<string>)
    requires DistinctIds(ms) && graph.Keys == Ids(ms) && Partial(graph, ordered) && |ordered| == |ms|
    ensures IsLeastOrder(graph, ordered) && !HasCycle(graph)
  {
    IdsSize(ms);
    ElementsSize(ordered);
    EqualSubset(Elements(ordered), graph.Keys);
    GreedyIsLeast(graph, ordered);
    forall p ensures !IsCycle(graph, p) {
      if IsCycle(graph, p) {
        CycleHasNoOrder(graph, p, ordered);
      }
    }
  }

  lemma EqualSubset(a: set<string>, b: set<string>)
    requires a <= b && |a| == |b|
    ensures a == b
  {
    SubsetSize(b - a, b);
    assert |b - a| == |b| - |a|;
  }

  // ---------------------------------------------------------------- listing order does not matter

  /** No plugin provides a capability twice and no two plugins provide the same one. */
  ghost predicate ProvidedOnce(ms: seq<Manifest>) {
    && (forall m | m in ms :: Distinct(m.offers))
    && (forall m, n, c | m in ms && n in ms && c in m.offers && c in n.offers :: m == n)
  }

  lemma {:induction false} InClaims(ms: seq<Manifest>, c: string)
    ensures c in Claims(ms) <==> exists m :: m in ms && c in m.offers
  {
    if ms != [] {
      InClaims(ms[..|ms| - 1], c);
    }
  }

  lemma DistinctAppend(a: seq<string>, b: seq<string>)
    ensures Distinct(a + b) <==> Distinct(a) && Distinct(b) && forall c :: !(c in a && c in b)
  {
    var all := a + b;
    if Distinct(all) {
      forall i, j | 0 <= i < j < |b| ensures b[i] != b[j] {
        assert all[|a| + i] != all[|a| + j];
      }
      forall i, j | 0 <= i < |a| && 0 <= j < |b| ensures a[i] != b[j] {
        assert all[i] != all[|a| + j];
      }
      forall i, j | 0 <= i < j < |a| ensures a[i] != a[j] {
        assert all[i] != all[j];
      }
    } else {
      var i, j :| 0 <= i < j < |all| && all[i] == all[j];
      assert all[i] in a || all[i] in b;
    }
  }

  lemma {:induction false} DistinctClaimsIff(ms: seq<Manifest>)
    requires DistinctIds(ms)
    ensures Distinct(Claims(ms)) <==> ProvidedOnce(ms)
  {
    if ms != [] {
      var before, last := ms[..|ms| - 1], ms[|ms| - 1];
      DistinctClaimsIff(before);
      DistinctAppend(Claims(before), last.offers);
      forall c ensures c in Claims(before) <==> exists m :: m in before && c in m.offers {
        InClaims(before, c);
      }
      assert forall m :: m in ms <==> m in before || m == last;
      assert last !in before;
      ProvidedOnceAppend(before, last, ms);
    }
  }

  lemma ProvidedOnceAppend(before: seq<Manifest>, last: Manifest, ms: seq<Manifest>)
    requires (forall m :: m in ms <==> m in before || m == last) && last !in before
    ensures ProvidedOnce(ms) <==> ProvidedOnce(before) && Distinct(last.offers)
                                  && forall m, c | m in before && c in last.offers :: c !in m.offers
  {
    hide Distinct;
  }

  lemma {:induction false} OwnerIs(ms: seq<Manifest>, c: string)
    ensures OwnerOf(ms, c).Some? <==> exists m :: m in ms && c in m.offers
    ensures OwnerOf(ms, c).Some? ==> exists m :: m in ms && c in m.offers && m.id == OwnerOf(ms, c).value
  {
    if ms != [] {
      OwnerIs(ms[..|ms| - 1], c);
    }
  }

  lemma SameOwner(a: seq<Manifest>, b: seq<Manifest>, c: string)
    requires (forall m :: m in a <==> m in b) && ProvidedOnce(a)
    ensures OwnerOf(a, c) == OwnerOf(b, c)
  {
    OwnerIs(a, c);
    OwnerIs(b, c);
  }

  /** Two lists of the same plugins have the same dependency graph. */
  lemma SameGraph(a: seq<Manifest>, b: seq<Manifest>, services: set<string>, deps: Graph)
    requires DistinctIds(a) && DistinctIds(b) && forall m :: m in a <==> m in b
    ensures Distinct(Claims(a)) <==> Distinct(Claims(b))
    ensures Distinct(Claims(a)) ==> (Missing(a, services) <==> Missing(b, services))
    ensures Distinct(Claims(a)) ==> (IsGraph(a, services, deps) <==> IsGraph(b, services, deps))
  {
    hide Distinct, Claims, OwnerOf;
    DistinctClaimsIff(a);
    DistinctClaimsIff(b);
    if ProvidedOnce(a) {
      forall c ensures OwnerOf(a, c) == OwnerOf(b, c) {
        SameOwner(a, b, c);
      }
      assert forall m :: Owners(a, services, m) == Owners(b, services, m);
      assert Ids(a) == Ids(b);
    }
  }

  /** Equal, but for the order in which a cycle error lists its plugins. */
  ghost predicate SameOutcome(a: Outcome, b: Outcome) {
    if a.Failed? && a.error.DependencyCycle? then
      b.Failed? && b.error.DependencyCycle? && Elements(a.error.unresolved) == Elements(b.error.unresolved)
    else a == b
  }

  /** MAIN RESULT. The order in which the manifests are listed does not matter: the same error, about the same plugins,
      or the same start order. */
  lemma ListingOrderIrrelevant(a: seq<Manifest>, b: seq<Manifest>, services: set<string>, x: Outcome, y: Outcome)
    requires DistinctIds(a) && DistinctIds(b) && forall m :: m in a <==> m in b
    requires OrderingOf(a, services, x) && OrderingOf(b, services, y)
    ensures SameOutcome(x, y)
  {
    hide Distinct, Claims, Missing, IsGraph, IsGreatestStuck, HasCycle, IsLeastOrder, Elements, DistinctIds, Closed;
    EnabledDistinct(a);
    EnabledDistinct(b);
    var m, n := Enabled(a), Enabled(b);
    SameGraph(m, n, services, map[]);
    if Distinct(Claims(m)) && !Missing(m, services) {
      var g := GraphOf(a, services, x);
      var h := GraphOf(b, services, y);
      SameGraph(m, n, services, h);
      GraphUnique(m, services, g);
      assert g == h;
      if x.Ordered? {
        LeastOrderUnique(g, x.order, y.order);
      } else {
        GreatestStuckUnique(g, Elements(x.error.unresolved), Elements(y.error.unresolved));
      }
    }
  }

  lemma GraphOf(listing: seq<Manifest>, services: set<string>, r: Outcome) returns (deps: Graph)
    requires OrderingOf(listing, services, r) && Distinct(Claims(Enabled(listing)))
             && !Missing(Enabled(listing), services)
    ensures IsGraph(Enabled(listing), services, deps) && (r.Failed? <==> HasCycle(deps))
    ensures if r.Ordered? then IsLeastOrder(deps, r.order)
            else r.error.DependencyCycle? && IsGreatestStuck(deps, Elements(r.error.unresolved))
  {
    hide Distinct, Claims, Missing, IsGraph, IsGreatestStuck, HasCycle, IsLeastOrder, Elements, Closed;
    deps :| IsGraph(Enabled(listing), services, deps) && Closed(deps)
            && (r.Failed? <==> HasCycle(deps))
            && (r.Failed? ==> r.error.DependencyCycle? && r.error.unresolved != []
                              && IsGreatestStuck(deps, Elements(r.error.unresolved)))
            && (r.Ordered? ==> IsLeastOrder(deps, r.order));
  }

  lemma GreatestStuckUnique(deps: Graph, s: set<string>, t: set<string>)
    requires IsGreatestStuck(deps, s) && IsGreatestStuck(deps, t)
    ensures s == t
  {
  }
}
