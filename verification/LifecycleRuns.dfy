/** Reachable registry states in which start_all is not welcome. */
module LifecycleRuns {
  import opened Ordering
  import opened PluginGraph
  import opened PluginOrder
  import opened PluginLifecycle
  import opened LifecycleTheorems

  /** A registry as constructed, without services. */
  function Built(listing: seq<Manifest>): Reg {
    Reg(map id | id in Ids(listing) :: Discovered, {}, {}, [])
  }

  /** The order of a single enabled plugin that requires nothing. */
  lemma SoleOrder(listing: seq<Manifest>, services: set<string>, p: Manifest)
    requires Enabled(listing) == [p] && p.requirements == [] && Distinct(p.offers)
    ensures OrderingOf(listing, services, Ordered([p.id]))
  {
    var ms := [p];
    var deps: Graph := map[p.id := {}];
    assert Claims(ms) == [] + p.offers == p.offers by {
      assert ms[..0] == [];
    }
    assert Ids(ms) == {p.id};
    assert Owners(ms, services, p) == {};
    assert Elements([p.id]) == {p.id} && Elements([p.id][..0]) == {};
    assert Ready(deps, {}) == {p.id} && IsLeast(p.id, {p.id});
    OrderFound(ms, deps, [p.id]);
  }

  const BEHAVES := Conduct(Starts, Stops)
  const ALL_START: Script := _ => BEHAVES
  const PROVIDER := Manifest("P", ["c"], [], true)
  const DEPENDANT := Manifest("D", [], ["c"], false)

  // ---------------------------------------------------------------- a second start_all

  /** After a successful start_all every enabled plugin runs, so the next one collides at its first plugin. */
  lemma SecondStartAllCollides(listing: seq<Manifest>, h: Handles, r: Reg, order: seq<string>, script: Script,
                               second: seq<string>, again: Script)
    requires DistinctIds(listing) && IsIndex(listing, h) && OrderingOf(listing, r.services, Ordered(order))
    requires Inv(h, r) && r.started == [] && WellOrdered(h, Ordered(order))
    requires StartAll(h, r, Ordered(order), script).1
    requires OrderingOf(listing, StartAll(h, r, Ordered(order), script).0.services, Ordered(second)) && second != []
    ensures Collides(h, StartAll(h, r, Ordered(order), script).0, second, again)
  {
    hide StartAll, OrderingOf, IsIndex, DistinctIds, ProvidersFirst;
    var s := StartAll(h, r, Ordered(order), script).0;
    var _ := StartAllFromRest(listing, h, r, Ordered(order), script);
    OrderNamesEnabled(listing, r.services, order);
    OrderNamesEnabled(listing, s.services, second);
    OrderIsKnown(listing, h, s.services, Ordered(second));
    assert second[0] in Elements(second);
    assert s.IsStarted(second[0]);
  }

  lemma OrderNamesEnabled(listing: seq<Manifest>, services: set<string>, order: seq<string>)
    requires OrderingOf(listing, services, Ordered(order))
    ensures Elements(order) == Ids(Enabled(listing))
  {
    hide Claims, Missing, Closed, Distinct;
    var deps :| IsGraph(Enabled(listing), services, deps) && IsLeastOrder(deps, order);
  }

  const ALONE: seq<Manifest> := [PROVIDER]
  const HANDLES_ALONE: Handles := map["P" := PROVIDER]

  lemma LoadsCapability()
    ensures Load({}, ["c"], Starts) == ({"c"}, true) && Load({"c"}, ["c"], Starts) == ({"c"}, false)
  {
    assert ["c"][1..] == [] && {} + {"c"} == {"c"};
  }

  lemma ProviderStarts(h: Handles, r: Reg)
    requires "P" in h && h["P"] == PROVIDER && r.services == {} && Known(h, r)
    ensures var s := Reg(r.states["P" := Started], r.instances + {"P"}, {"c"}, r.started + ["P"]);
            StartAll(h, r, Ordered(["P"]), ALL_START) == (s, true)
  {
    LoadsCapability();
    assert ["P"][1..] == [];
  }

  /** Two operations in a row make a run. */
  lemma TwoSteps(listing: seq<Manifest>, h: Handles, r: Reg, a: Op, b: Op) returns (rs: seq<Reg>)
    requires Known(h, r) && Legal(listing, h, r, a)
    requires Known(h, Apply(listing, h, r, a)) && Legal(listing, h, Apply(listing, h, r, a), b)
    ensures IsRun(listing, h, rs, [a, b]) && |rs| == 3
    ensures rs[0] == r && rs[1] == Apply(listing, h, r, a) && rs[2] == Apply(listing, h, rs[1], b)
  {
    hide Known, Legal, Apply;
    var u := Apply(listing, h, r, a);
    rs := [r, u, Apply(listing, h, u, b)];
  }

  /** The state after the provider has been started from construction. */
  const UP := Reg(map["P" := Started], {"P"}, {"c"}, ["P"])

  lemma AloneBuilt()
    ensures Built(ALONE) == Reg(map["P" := Discovered], {}, {}, [])
    ensures DistinctIds(ALONE) && IsIndex(ALONE, HANDLES_ALONE)
    ensures Known(HANDLES_ALONE, Built(ALONE)) && Known(HANDLES_ALONE, UP)
  {
    assert Ids(ALONE) == {"P"} && HANDLES_ALONE.Keys == {"P"} && UP.states.Keys == {"P"};
  }

  lemma AloneStarts()
    ensures StartAll(HANDLES_ALONE, Reg(map["P" := Discovered], {}, {}, []), Ordered(["P"]), ALL_START).0 == UP
  {
    ProviderStarts(HANDLES_ALONE, Reg(map["P" := Discovered], {}, {}, []));
    assert {} + {"P"} == {"P"} && map["P" := Discovered]["P" := Started] == map["P" := Started] && [] + ["P"] == ["P"];
  }

  lemma AloneInv()
    ensures Inv(HANDLES_ALONE, Reg(map["P" := Discovered], {}, {}, [])) && Inv(HANDLES_ALONE, UP)
    ensures Collides(HANDLES_ALONE, UP, ["P"], ALL_START)
  {
    assert Elements(["c"]) == {"c"} && UP.IsStarted(["P"][0]);
  }

  /** MAIN RESULT. A run from construction in which start_all is called twice and the second call collides: loading
      raises because the capability is there, the running plugin is marked as failing, and the rollback leaves it in
      the started list. */
  lemma CollisionIsReachable() returns (rs: seq<Reg>, ops: seq<Op>)
    ensures DistinctIds(ALONE) && IsIndex(ALONE, HANDLES_ALONE) && IsRun(ALONE, HANDLES_ALONE, rs, ops)
    ensures |rs| == 3 && rs[0] == Built(ALONE) && Inv(HANDLES_ALONE, rs[0]) && Inv(HANDLES_ALONE, rs[1])
    ensures Collides(HANDLES_ALONE, rs[1], ["P"], ALL_START) && !Consistent(HANDLES_ALONE, rs[2])
    ensures rs[2].started == ["P"] && !rs[2].IsStarted("P")
  {
    hide DistinctIds, IsIndex, Known, IsRun, Inv, OrderingOf, StartAll, Collides, Built;
    var op := OpStartAll(Ordered(["P"]), ALL_START);
    AloneBuilt();
    AloneStarts();
    AloneInv();
    AloneEnabled();
    SoleOrder(ALONE, {}, PROVIDER);
    SoleOrder(ALONE, {"c"}, PROVIDER);
    rs := TwoSteps(ALONE, HANDLES_ALONE, Built(ALONE), op, op);
    ops := [op, op];
    ProviderCollides(UP);
  }

  lemma AloneEnabled()
    ensures Enabled(ALONE) == [PROVIDER]
  {
    assert ALONE[..0] == [];
  }

  lemma ProviderCollides(r: Reg)
    requires r.states.Keys == {"P"} && r.IsStarted("P") && r.instances == {"P"}
             && r.services == {"c"} && r.started == ["P"]
    ensures var s := StartAll(HANDLES_ALONE, r, Ordered(["P"]), ALL_START).0;
            s.started == ["P"] && !s.IsStarted("P") && s.states.Keys == {"P"}
  {
    LoadsCapability();
    assert ["P"][..0] == [];
  }

  // ---------------------------------------------------------------- a plugin that can never start again

  /** x does not run, and a capability it provides, which no other plugin provides, is there already. */
  ghost predicate Blocked(h: Handles, r: Reg, x: string, c: string) {
    && x in h && c in h[x].offers && (forall y | y in h && y != x :: c !in h[y].offers)
    && c in r.services && !r.IsStarted(x)
  }

  lemma StopKeepsBlocked(h: Handles, r: Reg, y: string, e: Ending, x: string, c: string)
    requires y in h && Blocked(h, r, x, c)
    ensures Blocked(h, StopPlugin(h, r, y, e), x, c) && Blocked(h, Shut(h, r, y, e), x, c)
  {
    hide Without;
  }

  lemma {:induction false} StopEachKeepsBlocked(h: Handles, r: Reg, ids: seq<string>, script: Script, x: string,
                                                c: string)
    requires (forall i | 0 <= i < |ids| :: ids[i] in h) && Blocked(h, r, x, c)
    ensures Blocked(h, StopEach(h, r, ids, script), x, c)
    decreases |ids|
  {
    hide Blocked, Shut;
    if ids != [] {
      var last := ids[|ids| - 1];
      StopKeepsBlocked(h, r, last, script(last).stop, x, c);
      StopEachKeepsBlocked(h, Shut(h, r, last, script(last).stop), ids[..|ids| - 1], script, x, c);
    }
  }

  /** Loading x raises when it comes to c, if not before; no plugin's load takes a capability away. */
  lemma LoadKeeps(h: Handles, services: set<string>, y: string, b: Behaviour, x: string, c: string)
    requires x in h && y in h && c in h[x].offers && c in services
    ensures c in Load(services, h[y].offers, b).0 && (y == x ==> !Load(services, h[y].offers, b).1)
  {
    LoadFacts(services, h[y].offers, b);
    assert c in Elements(h[x].offers);
  }

  lemma StartOneKeepsBlocked(h: Handles, r: Reg, y: string, b: Behaviour, x: string, c: string)
    requires y in h && Blocked(h, r, x, c)
    ensures Blocked(h, StartOne(h, r, y, b).0, x, c)
  {
    hide Load;
    LoadKeeps(h, r.services, y, b, x, c);
  }

  lemma {:induction false} StartFromKeepsBlocked(h: Handles, r: Reg, order: seq<string>, script: Script, x: string,
                                                 c: string)
    requires (forall i | 0 <= i < |order| :: order[i] in h) && Blocked(h, r, x, c)
    ensures Blocked(h, StartFrom(h, r, order, script).0, x, c)
    decreases |order|
  {
    hide Blocked, StartOne;
    if order != [] {
      var (s, ok) := StartOne(h, r, order[0], script(order[0]).start);
      StartOneKeepsBlocked(h, r, order[0], script(order[0]).start, x, c);
      if ok {
        StartFromKeepsBlocked(h, s, order[1..], script, x, c);
      }
    }
  }

  lemma StartAllKeepsBlocked(h: Handles, r: Reg, o: Outcome, script: Script, x: string, c: string)
    requires Known(h, r) && WellOrdered(h, o) && Blocked(h, r, x, c)
    ensures Blocked(h, StartAll(h, r, o, script).0, x, c)
  {
    hide Blocked, StartFrom, StopEach;
    if o.Failed? {
      StopEachKeepsBlocked(h, r, r.started, script, x, c);
    } else {
      var (s, ok) := StartFrom(h, r, o.order, script);
      StartFromKnown(h, r, o.order, script);
      StartFromKeepsBlocked(h, r, o.order, script, x, c);
      if !ok {
        StopEachKeepsBlocked(h, s, s.started, script, x, c);
      }
    }
  }

  lemma RestartKeepsBlocked(h: Handles, r: Reg, y: string, b: Conduct, x: string, c: string)
    requires y in h && Blocked(h, r, x, c)
    ensures Blocked(h, Restart(h, r, y, b).0, x, c)
  {
    hide Load, StopPlugin, HasDependants, Balks;
    StopKeepsBlocked(h, r, y, b.stop, x, c);
    LoadKeeps(h, StopPlugin(h, r, y, b.stop).services, y, b.start, x, c);
  }

  /** MAIN RESULT. A plugin that does not run while a capability of its own is there can never be started again: no
      sequence of calls, whatever plugins do, brings it up or takes the capability away. Plugins get there by raising
      in start after a load, in stop_all, or in a rollback. */
  lemma {:induction false} NeverComesBack(listing: seq<Manifest>, h: Handles, rs: seq<Reg>, ops: seq<Op>, n: nat,
                                          x: string, c: string)
    requires IsRun(listing, h, rs, ops) && n < |rs| && Blocked(h, rs[0], x, c)
    ensures Blocked(h, rs[n], x, c)
  {
    hide Blocked, StopPlugin, StartAll, Restart, StopEach, OrderingOf;
    if n > 0 {
      var r := rs[n - 1];
      NeverComesBack(listing, h, rs, ops, n - 1, x, c);
      match ops[n - 1]
      case OpStartAll(o, script) => StartAllKeepsBlocked(h, r, o, script, x, c);
      case OpStop(id, e) => StopKeepsBlocked(h, r, id, e, x, c);
      case OpStopAll(script) => StopEachKeepsBlocked(h, r, r.started, script, x, c);
      case OpRestart(id, b) => RestartKeepsBlocked(h, r, id, b, x, c);
    }
  }

  const STOP_RAISES: Script := _ => Conduct(Starts, StopRaises)

  const DOWN := Reg(map["P" := Failing], {"P"}, {"c"}, ["P"])

  lemma AloneRaises()
    ensures Known(HANDLES_ALONE, UP) && StopAll(HANDLES_ALONE, UP, STOP_RAISES) == DOWN
    ensures Blocked(HANDLES_ALONE, DOWN, "P", "c") && !Consistent(HANDLES_ALONE, DOWN)
  {
    assert UP.states.Keys == {"P"} && ["P"][..0] == [] && UP.states["P" := Failing] == DOWN.states;
    assert "P" in DOWN.started && "P" in HANDLES_ALONE && !DOWN.IsStarted("P") && "c" in ["c"];
  }

  /** MAIN RESULT. A run from construction in which a plugin raises in stop_all: it stays listed, marked as failing, and
      can never be started again. */
  lemma RaisingStopIsReachable() returns (rs: seq<Reg>, ops: seq<Op>)
    ensures DistinctIds(ALONE) && IsIndex(ALONE, HANDLES_ALONE) && IsRun(ALONE, HANDLES_ALONE, rs, ops)
    ensures |rs| == 3 && rs[0] == Built(ALONE) && ops[1] == OpStopAll(STOP_RAISES)
    ensures Inv(HANDLES_ALONE, rs[1]) && !Consistent(HANDLES_ALONE, rs[2]) && rs[2].started == ["P"]
    ensures Blocked(HANDLES_ALONE, rs[2], "P", "c")
  {
    hide DistinctIds, IsIndex, Known, IsRun, Inv, OrderingOf, StartAll, StopAll, Built, Consistent, Blocked;
    AloneBuilt();
    AloneStarts();
    AloneInv();
    AloneEnabled();
    SoleOrder(ALONE, {}, PROVIDER);
    AloneRaises();
    ops := [OpStartAll(Ordered(["P"]), ALL_START), OpStopAll(STOP_RAISES)];
    rs := TwoSteps(ALONE, HANDLES_ALONE, Built(ALONE), ops[0], ops[1]);
  }

  /** A load that goes through before start raises. */
  lemma LoadedThenRaises(h: Handles, r0: Reg, r: Reg, order: seq<string>, script: Script, n: nat, c: string)
    requires n < |order| && Exclusive(h, order) && GoneWell(h, r0, r, order, script, n)
    requires Startable(h, r0, order[n]) && script(order[n]).start == StartRaises && c in h[order[n]].offers
    ensures var (s, ok) := StartOne(h, r, order[n], StartRaises);
            !ok && c in s.services && !s.IsStarted(order[n])
  {
    hide Steady, OffersOf, Elements, Offered, Provide;
    var x := order[n];
    OffersAre(h, x);
    ProvideFacts(r.services, h[x].offers);
    OfferedExclusive(h, order, n, n);
    assert c in Elements(h[x].offers) by {
      InElements(h[x].offers, c);
    }
  }

  lemma InElements(xs: seq<string>, c: string)
    requires c in xs
    ensures c in Elements(xs)
  {
  }

  lemma {:induction false} StartFromBlocks(h: Handles, r0: Reg, r: Reg, order: seq<string>, script: Script, k: nat,
                                           n: nat, c: string)
    requires Exclusive(h, order) && Distinct(order) && k <= n < |order| && GoneWell(h, r0, r, order, script, k)
    requires FailsAt(h, r0, order, script, n) && Startable(h, r0, order[n])
    requires script(order[n]).start == StartRaises && c in h[order[n]].offers
    ensures var (s, ok) := StartFrom(h, r, order[k..], script);
            !ok && c in s.services && !s.IsStarted(order[n])
    decreases n - k
  {
    hide StartOne, GoneWell, Distinct, Startable;
    assert order[k..][0] == order[k] && order[k..][1..] == order[k + 1..];
    if k == n {
      LoadedThenRaises(h, r0, r, order, script, n, c);
    } else {
      assert ComesUp(h, r0, script, order[k]);
      UpIsIdle(h, r0, script, order[k]);
      GoneWellStep(h, r0, r, order, script, k);
      StartFromBlocks(h, r0, StartOne(h, r, order[k], script(order[k]).start).0, order, script, k + 1, n, c);
    }
  }

  lemma UpIsIdle(h: Handles, r: Reg, script: Script, x: string)
    requires ComesUp(h, r, script, x)
    ensures !r.IsStarted(x)
  {
  }

  /** MAIN RESULT. When start_all fails because its n-th plugin raises in start after it was loaded, that plugin is
      blocked if it alone provides one of its capabilities: trying again can never help. */
  lemma RaisingStartBlocks(listing: seq<Manifest>, h: Handles, r: Reg, order: seq<string>, script: Script, n: nat,
                           c: string)
    requires DistinctIds(listing) && IsIndex(listing, h) && OrderingOf(listing, r.services, Ordered(order))
    requires Steady(h, r) && WellOrdered(h, Ordered(order)) && FailsAt(h, r, order, script, n)
    requires Startable(h, r, order[n]) && script(order[n]).start == StartRaises
    requires c in h[order[n]].offers && forall y | y in h && y != order[n] :: c !in h[y].offers
    ensures Blocked(h, StartAll(h, r, Ordered(order), script).0, order[n], c)
  {
    hide OrderingOf, IsIndex, DistinctIds, Exclusive, Distinct, StartFrom, StopEach, FailsAt, GoneWell, Startable;
    OrderExclusive(listing, h, r.services, order);
    FailsWithin(h, r, order, script);
    GoneWellFromHere(h, r, order, script);
    assert order[0..] == order;
    StartFromBlocks(h, r, r, order, script, 0, n, c);
    var (s, ok) := StartFrom(h, r, order, script);
    StartFromKnown(h, r, order, script);
    StopEachKeepsBlocked(h, s, s.started, script, order[n], c);
  }

  // ---------------------------------------------------------------- a provider behind its dependant
  // ---------------------------------------------------------------- a provider behind its dependant

  const PAIR: seq<Manifest> := [DEPENDANT, PROVIDER]
  const HANDLES_PAIR: Handles := map["D" := DEPENDANT, "P" := PROVIDER]
  const PAIR_REST := Reg(map["D" := Discovered, "P" := Discovered], {}, {}, [])
  const PAIR_ONE := Reg(map["D" := Started, "P" := Discovered], {"D"}, {}, ["D"])
  const PAIR_BOTH := Reg(map["D" := Started, "P" := Started], {"D", "P"}, {"c"}, ["D", "P"])

  lemma PairBuilt()
    ensures Built(PAIR) == PAIR_REST
    ensures DistinctIds(PAIR) && IsIndex(PAIR, HANDLES_PAIR)
    ensures Known(HANDLES_PAIR, PAIR_REST) && Known(HANDLES_PAIR, PAIR_ONE)
  {
    assert PAIR[0] == DEPENDANT && PAIR[1] == PROVIDER;
    assert Ids(PAIR) == {"D", "P"} && HANDLES_PAIR.Keys == {"D", "P"};
    assert PAIR_REST.states.Keys == {"D", "P"} && PAIR_ONE.states.Keys == {"D", "P"};
  }

  lemma PairEnabled()
    ensures Enabled(PAIR) == [PROVIDER]
  {
    assert PAIR[..1] == [DEPENDANT] && [DEPENDANT][..0] == [];
    assert Enabled([DEPENDANT]) == [];
  }

  /** restart_plugin starts a plugin that was never started, is disabled, and lacks what it requires. */
  lemma DependantRestarts()
    ensures Restart(HANDLES_PAIR, PAIR_REST, "D", BEHAVES).0 == PAIR_ONE
  {
    assert Load({}, [], Starts) == ({}, true);
    assert {} + {"D"} == {"D"};
    assert PAIR_REST.states["D" := Loaded]["D" := Started] == PAIR_ONE.states;
  }

  lemma PairStarts()
    ensures StartAll(HANDLES_PAIR, PAIR_ONE, Ordered(["P"]), ALL_START).0 == PAIR_BOTH
  {
    assert PAIR_ONE.states.Keys == {"D", "P"} == HANDLES_PAIR.Keys;
    ProviderStarts(HANDLES_PAIR, PAIR_ONE);
    assert {"D"} + {"P"} == {"D", "P"} && PAIR_ONE.states["P" := Started] == PAIR_BOTH.states
           && ["D"] + ["P"] == ["D", "P"];
  }

  lemma PairFacts()
    ensures Inv(HANDLES_PAIR, PAIR_REST)
    ensures Overtaken(HANDLES_PAIR, PAIR_ONE, ["P"], ALL_START) && !Collides(HANDLES_PAIR, PAIR_ONE, ["P"], ALL_START)
    ensures Consistent(HANDLES_PAIR, PAIR_BOTH) && !ProvidersFirst(HANDLES_PAIR, PAIR_BOTH.started)
  {
    var h, c := HANDLES_PAIR, "c";
    assert c in h["P"].offers && c in h["D"].requirements;
    assert Serves(h, "P", "D");
    assert ["P"][0] == "P" && PAIR_ONE.started[0] == "D";
    assert ComesUp(h, PAIR_ONE, ALL_START, "P");
    assert !ProvidersFirst(h, ["D", "P"]) by {
      assert ["D", "P"][0] == "D" && ["D", "P"][1] == "P";
    }
  }

  /** MAIN RESULT. A run from construction in which nothing collides and every plugin behaves, and yet a provider ends
      up behind its dependant: restart_plugin of a disabled plugin, then start_all. */
  lemma OvertakingIsReachable() returns (rs: seq<Reg>, ops: seq<Op>)
    ensures DistinctIds(PAIR) && IsIndex(PAIR, HANDLES_PAIR) && IsRun(PAIR, HANDLES_PAIR, rs, ops)
    ensures |rs| == 3 && rs[0] == Built(PAIR) && Inv(HANDLES_PAIR, rs[0])
    ensures ops == [OpRestart("D", BEHAVES), OpStartAll(Ordered(["P"]), ALL_START)]
    ensures !Collides(HANDLES_PAIR, rs[1], ["P"], ALL_START) && Overtaken(HANDLES_PAIR, rs[1], ["P"], ALL_START)
    ensures Consistent(HANDLES_PAIR, rs[2]) && rs[2].started == ["D", "P"]
    ensures !ProvidersFirst(HANDLES_PAIR, rs[2].started)
  {
    hide DistinctIds, IsIndex, Known, IsRun, Inv, OrderingOf, StartAll, Collides, Overtaken, Built, Restart, Consistent,
         ProvidersFirst;
    PairBuilt();
    PairEnabled();
    SoleOrder(PAIR, {}, PROVIDER);
    DependantRestarts();
    PairStarts();
    PairFacts();
    ops := [OpRestart("D", BEHAVES), OpStartAll(Ordered(["P"]), ALL_START)];
    rs := TwoSteps(PAIR, HANDLES_PAIR, PAIR_REST, ops[0], ops[1]);
  }
}
