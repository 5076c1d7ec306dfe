/** What the plugin registry keeps over whole runs of starts, stops and restarts, and where it does not. */
module LifecycleTheorems {
  import opened Ordering
  import opened PluginGraph
  import opened PluginOrder
  import opened PluginLifecycle

  // ---------------------------------------------------------------- invariant

  function OffersOf(h: Handles, id: string): set<string> {
    if id in h then Elements(h[id].offers) else {}
  }

  /** The started list has no duplicates and names exactly the running plugins; each of them has its
      capabilities in services, and no two of them share one. */
  ghost predicate Steady(h: Handles, r: Reg) {
    && Known(h, r) && Distinct(r.started)
    && (forall x | x in h :: r.IsStarted(x) <==> x in r.started)
    && (forall x | x in r.started :: x in r.instances && OffersOf(h, x) <= r.services)
    && (forall x, y | x in r.started && y in r.started && x != y :: OffersOf(h, x) !! OffersOf(h, y))
  }

  ghost predicate Serves(h: Handles, provider: string, dependant: string) {
    provider in h && dependant in h && exists c :: c in h[provider].offers && c in h[dependant].requirements
  }

  /** No plugin in the list comes before one that provides something it requires. */
  ghost predicate ProvidersFirst(h: Handles, ids: seq<string>) {
    forall i, j | 0 <= i < j < |ids| :: !Serves(h, ids[j], ids[i])
  }

  ghost predicate Inv(h: Handles, r: Reg) {
    Steady(h, r) && ProvidersFirst(h, r.started)
  }

  function Offered(h: Handles, ids: seq<string>): set<string> {
    if ids == [] then {} else Offered(h, ids[..|ids| - 1]) + OffersOf(h, ids[|ids| - 1])
  }

  // ---------------------------------------------------------------- loading

  lemma {:induction false} ProvideFacts(services: set<string>, offers: seq<string>)
    ensures var (s, ok) := Provide(services, offers);
            && services <= s <= services + Elements(offers)
            && (ok <==> Distinct(offers) && Elements(offers) !! services)
            && (ok ==> s == services + Elements(offers))
    decreases |offers|
  {
    if offers != [] && offers[0] !in services {
      ProvideFacts(services + {offers[0]}, offers[1..]);
      assert Elements(offers) == {offers[0]} + Elements(offers[1..]);
      DistinctTail(offers);
    }
  }

  lemma DistinctTail(xs: seq<string>)
    requires xs != []
    ensures Distinct(xs) <==> Distinct(xs[1..]) && xs[0] !in Elements(xs[1..])
  {
    if Distinct(xs) {
      forall i, j | 0 <= i < j < |xs[1..]| ensures xs[1..][i] != xs[1..][j] {
        assert xs[i + 1] != xs[j + 1];
      }
    } else {
      var i, j :| 0 <= i < j < |xs| && xs[i] == xs[j];
      assert xs[j] == xs[1..][j - 1];
      if i > 0 {
        assert xs[i] == xs[1..][i - 1];
      }
    }
  }

  lemma LoadFacts(services: set<string>, offers: seq<string>, b: Behaviour)
    ensures var (s, ok) := Load(services, offers, b);
            && services <= s <= services + Elements(offers)
            && (ok ==> Elements(offers) !! services && s == services + Elements(offers))
            && (b == Starts ==> (ok <==> Distinct(offers) && Elements(offers) !! services))
  {
    ProvideFacts(services, offers);
    if b.LoadRaises? && b.count < |offers| {
      ProvideFacts(services, offers[..b.count]);
      assert Elements(offers[..b.count]) <= Elements(offers);
    }
  }

  // ---------------------------------------------------------------- stopping

  lemma {:induction false} WithoutAt(xs: seq<string>, k: nat)
    requires k < |xs| && Distinct(xs)
    ensures Without(xs, xs[k]) == xs[..k] + xs[k + 1..]
  {
    if k > 0 {
      DistinctTail(xs);
      WithoutAt(xs[1..], k - 1);
      assert xs[..k] + xs[k + 1..] == [xs[0]] + (xs[1..][..k - 1] + xs[1..][k..]);
    } else {
      assert xs[..0] + xs[1..] == xs[1..];
    }
  }

  lemma RemovedAt(h: Handles, xs: seq<string>, k: nat)
    requires k < |xs| && Distinct(xs)
    ensures var ys := xs[..k] + xs[k + 1..];
            && Distinct(ys) && (forall y :: y in ys <==> y in xs && y != xs[k])
            && (ProvidersFirst(h, xs) ==> ProvidersFirst(h, ys))
  {
    hide Serves;
    var ys := xs[..k] + xs[k + 1..];
    assert forall i | 0 <= i < |ys| :: ys[i] == xs[if i < k then i else i + 1];
    forall y | y in xs && y != xs[k] ensures y in ys {
      var i :| 0 <= i < |xs| && xs[i] == y;
      assert y == ys[if i < k then i else i - 1];
    }
  }

  lemma StopKeepsInv(h: Handles, r: Reg, id: string, e: Ending)
    requires id in h && Steady(h, r) && (e == Stops || !r.IsStarted(id))
    ensures Steady(h, StopPlugin(h, r, id, e))
    ensures ProvidersFirst(h, r.started) ==> ProvidersFirst(h, StopPlugin(h, r, id, e).started)
    ensures id !in StopPlugin(h, r, id, e).started
  {
    hide ProvidersFirst, Without, OffersOf, Elements;
    if id in r.started {
      var k :| 0 <= k < |r.started| && r.started[k] == id;
      WithoutAt(r.started, k);
      RemovedAt(h, r.started, k);
      StopKnown(h, r, id, e);
      OffersAre(h, id);
    }
  }

  lemma OffersAre(h: Handles, id: string)
    requires id in h
    ensures OffersOf(h, id) == Elements(h[id].offers)
  {
  }

  /** The plugins of a list that raise when stopped. */
  function Reluctant(ids: seq<string>, script: Script): seq<string> {
    if ids == [] then []
    else
      var last := ids[|ids| - 1];
      Reluctant(ids[..|ids| - 1], script) + if script(last).stop == Stops then [] else [last]
  }

  /** Those that do not. */
  function Willing(ids: seq<string>, script: Script): seq<string> {
    if ids == [] then []
    else
      var last := ids[|ids| - 1];
      Willing(ids[..|ids| - 1], script) + if script(last).stop == Stops then [last] else []
  }

  lemma {:induction false} AllWilling(ids: seq<string>, script: Script)
    ensures Reluctant(ids, script) == [] <==> forall i | 0 <= i < |ids| :: script(ids[i]).stop == Stops
    ensures Reluctant(ids, script) == [] ==> Willing(ids, script) == ids
  {
    if ids != [] {
      AllWilling(ids[..|ids| - 1], script);
      assert ids[..|ids| - 1] + [ids[|ids| - 1]] == ids;
    }
  }

  lemma OfferedAppend(h: Handles, ids: seq<string>, id: string)
    ensures Offered(h, ids + [id]) == Offered(h, ids) + OffersOf(h, id) && Offered(h, ids + []) == Offered(h, ids)
  {
    assert (ids + [id])[..|ids|] == ids && ids + [] == ids;
  }

  lemma {:induction false} OfferedSplits(h: Handles, ids: seq<string>, script: Script)
    ensures Offered(h, ids) == Offered(h, Willing(ids, script)) + Offered(h, Reluctant(ids, script))
  {
    hide OffersOf;
    if ids != [] {
      var n, last := |ids| - 1, ids[|ids| - 1];
      OfferedSplits(h, ids[..n], script);
      OfferedAppend(h, Willing(ids[..n], script), last);
      OfferedAppend(h, Reluctant(ids[..n], script), last);
    }
  }

  /** The stop_all loop: ids still run, and rel are the plugins that raised. */
  ghost predicate Shutting(h: Handles, r: Reg, ids: seq<string>, rel: seq<string>) {
    && Known(h, r) && r.started == ids + rel && Distinct(ids + rel)
    && (forall x | x in h :: r.IsStarted(x) <==> x in ids)
    && (forall x | x in ids :: x in r.instances)
    && (forall x | x in rel :: x in r.states && r.states[x] == Failing)
  }

  lemma LastGoes(h: Handles, ids: seq<string>, rel: seq<string>)
    requires ids != [] && Distinct(ids + rel)
    ensures var n, x := |ids| - 1, ids[|ids| - 1];
            && Without(ids + rel, x) == ids[..n] + rel && Distinct(ids[..n] + rel)
            && ids[..n] + ([x] + rel) == ids + rel
            && x in ids && x !in rel && x !in ids[..n] && forall y :: y in ids[..n] <==> y in ids && y != x
  {
    hide Serves;
    var n, x := |ids| - 1, ids[|ids| - 1];
    var all := ids + rel;
    assert all[n] == x && all[..n] + all[n + 1..] == ids[..n] + rel;
    WithoutAt(all, n);
    RemovedAt(h, all, n);
    assert ids == ids[..n] + [x];
  }

  lemma ShutStep(h: Handles, r: Reg, ids: seq<string>, rel: seq<string>, e: Ending)
    requires ids != [] && Shutting(h, r, ids, rel)
    ensures var n, x := |ids| - 1, ids[|ids| - 1];
            && x in h && Shutting(h, Shut(h, r, x, e), ids[..n], if e == Stops then rel else [x] + rel)
            && Shut(h, r, x, e).services == r.services - if e == Stops then OffersOf(h, x) else {}
  {
    hide Elements, Without, Distinct;
    var n, x := |ids| - 1, ids[|ids| - 1];
    LastGoes(h, ids, rel);
    assert r.started[n] == x;
    StopKnown(h, r, x, e);
    OffersAre(h, x);
  }

  lemma {:induction false} StopEachShuts(h: Handles, r: Reg, left: seq<string>, ids: seq<string>, rel: seq<string>,
                                         script: Script)
    requires Shutting(h, r, left + ids, rel)
    ensures forall i | 0 <= i < |ids| :: ids[i] in h
    ensures var s := StopEach(h, r, ids, script);
            Shutting(h, s, left, Reluctant(ids, script) + rel)
            && s.services == r.services - Offered(h, Willing(ids, script))
    decreases |ids|
  {
    hide Shutting, Shut, OffersOf;
    AllIn(h, r, left, ids, rel);
    if ids == [] {
      assert left + ids == left && [] + rel == rel;
    } else {
      var n, x := |ids| - 1, ids[|ids| - 1];
      var e := script(x).stop;
      ShutStep(h, r, left + ids, rel, e);
      assert (left + ids)[|left + ids| - 1] == x && (left + ids)[..|left + ids| - 1] == left + ids[..n];
      StopEachShuts(h, Shut(h, r, x, e), left, ids[..n], if e == Stops then rel else [x] + rel, script);
      assert (Reluctant(ids[..n], script) + [x]) + rel == Reluctant(ids[..n], script) + ([x] + rel);
      assert Reluctant(ids[..n], script) + [] == Reluctant(ids[..n], script);
      assert Willing(ids[..n], script) + [] == Willing(ids[..n], script);
      assert (Willing(ids[..n], script) + [x])[..|Willing(ids[..n], script)|] == Willing(ids[..n], script);
    }
  }

  lemma AllIn(h: Handles, r: Reg, left: seq<string>, ids: seq<string>, rel: seq<string>)
    requires Shutting(h, r, left + ids, rel)
    ensures forall i | 0 <= i < |ids| :: ids[i] in h
  {
    forall i | 0 <= i < |ids| ensures ids[i] in h {
      assert r.started[|left| + i] == ids[i];
    }
  }

  lemma SteadyShuts(h: Handles, r: Reg)
    requires Steady(h, r)
    ensures Shutting(h, r, r.started, [])
  {
    assert r.started + [] == r.started;
  }

  /** MAIN RESULT. Whatever plugins do when stopped, stop_all leaves nothing running. It takes away exactly the
      capabilities of the plugins that did not raise; those that raised stay listed and are marked as failing, so the
      started list is accurate again if and only if none raised. */
  lemma StopAllStopsAll(h: Handles, r: Reg, script: Script)
    requires Steady(h, r)
    ensures var s := StopAll(h, r, script);
            && Known(h, s) && (forall x | x in h :: !s.IsStarted(x))
            && s.started == Reluctant(r.started, script) && (forall x | x in s.started :: s.states[x] == Failing)
            && s.services == r.services - Offered(h, Willing(r.started, script))
            && (Steady(h, s) <==> s.started == []) && (Consistent(h, s) <==> s.started == [])
  {
    hide StopEach;
    SteadyShuts(h, r);
    assert [] + r.started == r.started;
    StopEachShuts(h, r, [], r.started, [], script);
    var s, rel := StopAll(h, r, script), Reluctant(r.started, script);
    assert [] + (rel + []) == rel;
    if rel != [] {
      assert rel[0] in s.started && !s.IsStarted(rel[0]);
    }
  }

  lemma {:induction false} StopEachSplits(h: Handles, r: Reg, a: seq<string>, b: seq<string>, script: Script)
    requires (forall i | 0 <= i < |a| :: a[i] in h) && forall i | 0 <= i < |b| :: b[i] in h
    ensures forall i | 0 <= i < |a + b| :: (a + b)[i] in h
    ensures StopEach(h, r, a + b, script) == StopEach(h, StopEach(h, r, b, script), a, script)
    decreases |b|
  {
    hide Shut;
    if b == [] {
      assert a + b == a;
    } else {
      var x := b[|b| - 1];
      assert (a + b)[|a + b| - 1] == x && (a + b)[..|a + b| - 1] == a + b[..|b| - 1];
      StopEachSplits(h, Shut(h, r, x, script(x).stop), a, b[..|b| - 1], script);
    }
  }

  /** MAIN RESULT. stop_all stops dependants first: when it comes to a plugin, it still runs, and nothing else that
      runs requires anything it provides, even if plugins raised before. */
  lemma StopsDependantsFirst(h: Handles, r: Reg, script: Script, k: nat) returns (s: Reg)
    requires Inv(h, r) && k < |r.started|
    ensures Known(h, r) && s == StopEach(h, r, r.started[k + 1..], script)
    ensures StopAll(h, r, script) == StopEach(h, s, r.started[..k + 1], script)
    ensures s.IsStarted(r.started[k])
    ensures forall x | x in h && x != r.started[k] && s.IsStarted(x) :: !Serves(h, r.started[k], x)
  {
    hide StopEach, Serves, Shutting;
    var left, ids := r.started[..k + 1], r.started[k + 1..];
    assert left + ids == r.started;
    SteadyShuts(h, r);
    StopEachShuts(h, r, left, ids, [], script);
    StopEachSplits(h, r, left, ids, script);
    s := StopEach(h, r, ids, script);
    EarlierOnly(h, r, s, Reluctant(ids, script) + [], k);
  }

  /** What still runs started before the k-th plugin, or is it. */
  lemma EarlierOnly(h: Handles, r: Reg, s: Reg, rel: seq<string>, k: nat)
    requires k < |r.started| && ProvidersFirst(h, r.started) && Shutting(h, s, r.started[..k + 1], rel)
    ensures s.IsStarted(r.started[k])
    ensures forall x | x in h && x != r.started[k] && s.IsStarted(x) :: !Serves(h, r.started[k], x)
  {
    hide Serves, Distinct;
    var left := r.started[..k + 1];
    assert left[k] == r.started[k] && s.started[k] == left[k];
    forall x | x in h && x != r.started[k] && s.IsStarted(x) ensures !Serves(h, r.started[k], x) {
      var i :| 0 <= i < |left| && left[i] == x;
      assert r.started[i] == x && i < k;
    }
  }

  // ---------------------------------------------------------------- restarting

  /** A plugin that nobody running requires may go to the end of the list. */
  lemma AppendKeepsInv(h: Handles, r: Reg, id: string, services: set<string>, instances: set<string>)
    requires id in h && Steady(h, r) && id !in r.started && r.instances + {id} <= instances
    requires OffersOf(h, id) !! r.services && services == r.services + OffersOf(h, id)
    ensures var s := Reg(r.states[id := Started], instances, services, r.started + [id]);
            Steady(h, s)
            && (ProvidersFirst(h, r.started) && (forall i | 0 <= i < |r.started| :: !Serves(h, id, r.started[i])) ==>
                  ProvidersFirst(h, s.started))
  {
    hide Serves;
  }

  /** A state change that touches neither the running plugins nor what they need. */
  lemma IdleKeepsInv(h: Handles, r: Reg, s: Reg)
    requires Steady(h, r) && s.started == r.started && r.services <= s.services && r.instances <= s.instances
    requires s.states.Keys == r.states.Keys && forall x | x in h :: r.IsStarted(x) <==> s.IsStarted(x)
    ensures Steady(h, s)
  {
  }

  /** restart_plugin of a running plugin that nobody requires gets stuck between stop and unload. */
  predicate Sticks(h: Handles, r: Reg, id: string, e: Ending)
    requires id in h
  {
    r.IsStarted(id) && !HasDependants(h, r, id) && e == UnloadRaises
  }

  /** MAIN RESULT. Whatever the plugin does, restart keeps the started list duplicate-free, accurate and
      providers-first, except exactly when the running plugin is stopped and then raises in unload. */
  lemma RestartKeepsInvIff(h: Handles, r: Reg, id: string, b: Conduct)
    requires id in h && Inv(h, r)
    ensures Inv(h, Restart(h, r, id, b).0) <==> !Sticks(h, r, id, b.stop)
  {
    hide Load, StopPlugin, Serves, Steady, ProvidersFirst;
    if Sticks(h, r, id, b.stop) {
      UnloadBreaks(h, r, id);
    } else if !HasDependants(h, r, id) {
      if r.IsStarted(id) && b.stop == StopRaises {
        RaisesAtOnce(h, r, id);
      } else {
        RestartOne(h, r, id, b);
      }
    }
  }

  lemma UnloadBreaks(h: Handles, r: Reg, id: string)
    requires id in h && Steady(h, r) && r.IsStarted(id)
    ensures Balks(r, id, UnloadRaises) && !Consistent(h, StopPlugin(h, r, id, UnloadRaises))
    ensures !Steady(h, StopPlugin(h, r, id, UnloadRaises))
  {
    hide OffersOf;
    var s := StopPlugin(h, r, id, UnloadRaises);
    assert id in s.started && !s.IsStarted(id);
  }

  lemma RaisesAtOnce(h: Handles, r: Reg, id: string)
    requires id in h && Steady(h, r) && r.IsStarted(id)
    ensures Balks(r, id, StopRaises) && StopPlugin(h, r, id, StopRaises) == r
  {
  }

  lemma DoesNotBalk(r: Reg, id: string, e: Ending)
    requires e == Stops || !r.IsStarted(id)
    ensures !Balks(r, id, e)
  {
  }

  lemma RestartOne(h: Handles, r: Reg, id: string, b: Conduct)
    requires id in h && Inv(h, r) && !HasDependants(h, r, id) && (b.stop == Stops || !r.IsStarted(id))
    ensures Inv(h, Restart(h, r, id, b).0)
  {
    hide Load, StopPlugin, Serves, Steady, Balks;
    var s := StopPlugin(h, r, id, b.stop);
    DoesNotBalk(r, id, b.stop);
    StopKeepsInv(h, r, id, b.stop);
    LoadFacts(s.services, h[id].offers, b.start);
    var (services, loaded) := Load(s.services, h[id].offers, b.start);
    var t := s.(instances := s.instances + {id}, services := services);
    StoppedIsIdle(h, s, id);
    IdleKeepsInv(h, s, t);
    IdleKeepsInv(h, s, t.(states := t.states[id := Loaded]));
    if loaded && !b.start.NoInstance? {
      AppendKeepsInv(h, s, id, services, s.instances + {id});
      forall i | 0 <= i < |s.started| ensures !Serves(h, id, s.started[i]) {
        StopShrinks(h, r, id, b.stop);
        RunningHas(h, r, id, s.started[i]);
      }
    }
  }

  lemma StoppedIsIdle(h: Handles, s: Reg, id: string)
    requires Steady(h, s) && id in h && id !in s.started
    ensures id in s.states && !s.IsStarted(id) && s.states.Keys == h.Keys
  {
  }

  lemma StopShrinks(h: Handles, r: Reg, id: string, e: Ending)
    requires id in h
    ensures forall x | x in StopPlugin(h, r, id, e).started :: x in r.started
  {
    WithoutKeeps(r.started, id);
  }

  lemma RunningHas(h: Handles, r: Reg, id: string, x: string)
    requires Steady(h, r) && id in h && !HasDependants(h, r, id) && x in r.started
    ensures !Serves(h, id, x)
  {
  }

  /** list.remove on a started list without duplicates: the others keep their order. */
  ghost predicate Removed(before: seq<string>, id: string, after: seq<string>) {
    if id in before then exists k :: 0 <= k < |before| && before[k] == id && after == before[..k] + before[k + 1..]
    else after == before
  }

  lemma WithoutRemoves(xs: seq<string>, id: string)
    requires Distinct(xs)
    ensures Removed(xs, id, if id in xs then Without(xs, id) else xs)
  {
    if id in xs {
      var k :| 0 <= k < |xs| && xs[k] == id;
      WithoutAt(xs, k);
    }
  }

  /** A running plugin that requires something id provides. */
  ghost predicate Depended(h: Handles, r: Reg, id: string) {
    exists x :: x in r.started && Serves(h, id, x)
  }

  lemma DependantsIff(h: Handles, r: Reg, id: string)
    requires id in h && Steady(h, r)
    ensures HasDependants(h, r, id) <==> Depended(h, r, id)
  {
    if HasDependants(h, r, id) {
      var x :| x in h && r.IsStarted(x) && exists c :: c in h[id].offers && c in h[x].requirements;
      assert x in r.started && Serves(h, id, x);
    }
    if x :| x in r.started && Serves(h, id, x) {
      assert x in h && r.IsStarted(x);
    }
  }

  /** The capabilities there once id no longer runs. */
  function Freed(h: Handles, r: Reg, id: string): set<string> {
    if id in r.started then r.services - OffersOf(h, id) else r.services
  }

  /** MAIN RESULT. stop_plugin of a running plugin that does not raise takes it from the started list, and its
      capabilities with it; of a plugin that does not run it does nothing. No other plugin changes. */
  lemma StopDoes(h: Handles, r: Reg, id: string)
    requires id in h && Steady(h, r)
    ensures var s := StopPlugin(h, r, id, Stops);
            && !s.IsStarted(id) && Removed(r.started, id, s.started) && s.services == Freed(h, r, id)
            && (id !in r.started ==> s == r)
            && forall x | x in h && x != id :: s.states[x] == r.states[x]
  {
    hide Distinct, Without;
    WithoutRemoves(r.started, id);
    OffersAre(h, id);
  }

  /** MAIN RESULT. restart_plugin refuses exactly while a running plugin requires something the plugin provides. Else
      it stops the plugin and starts it again if and only if the plugin raises at no stage and its capabilities, each
      named once, are free by then; it then runs at the end of the started list, and no other plugin has changed. */
  lemma RestartDoes(h: Handles, r: Reg, id: string, b: Conduct)
    requires id in h && Inv(h, r)
    ensures Depended(h, r, id) ==> Restart(h, r, id, b) == (r, false)
    ensures var (s, ok) := Restart(h, r, id, b);
            && (ok <==> && !Depended(h, r, id) && b.start == Starts && (id in r.started ==> b.stop == Stops)
                        && Distinct(h[id].offers) && OffersOf(h, id) !! Freed(h, r, id))
            && (ok ==> exists rest :: Removed(r.started, id, rest) && s.started == rest + [id])
            && (ok ==> s.IsStarted(id) && s.services == Freed(h, r, id) + OffersOf(h, id))
            && forall x | x in h && x != id :: x in s.states && s.states[x] == r.states[x]
  {
    hide Load, Serves, Distinct, OffersOf, Elements, StopPlugin, Removed, Freed, HasDependants, Depended;
    DependantsIff(h, r, id);
    if !Depended(h, r, id) {
      OffersAre(h, id);
      if id in r.started && b.stop != Stops {
        BalksAtStop(h, r, id, b.stop);
      } else {
        StopDoes(h, r, id);
        StopsQuietly(h, r, id, b.stop);
        LoadFacts(StopPlugin(h, r, id, Stops).services, h[id].offers, b.start);
        FailsUnlessStarts(StopPlugin(h, r, id, Stops).services, h[id].offers, b.start);
      }
    }
  }

  lemma BalksAtStop(h: Handles, r: Reg, id: string, e: Ending)
    requires id in h && Steady(h, r) && id in r.started && e != Stops
    ensures Balks(r, id, e)
    ensures forall x | x in h && x != id :: x in StopPlugin(h, r, id, e).states
                                            && StopPlugin(h, r, id, e).states[x] == r.states[x]
  {
  }

  lemma StopsQuietly(h: Handles, r: Reg, id: string, e: Ending)
    requires id in h && Steady(h, r) && (id in r.started ==> e == Stops)
    ensures !Balks(r, id, e) && StopPlugin(h, r, id, e) == StopPlugin(h, r, id, Stops)
    ensures forall x | x in h :: x in StopPlugin(h, r, id, Stops).states
  {
  }

  lemma FailsUnlessStarts(services: set<string>, offers: seq<string>, b: Behaviour)
    ensures b.LoadRaises? ==> !Load(services, offers, b).1
    ensures b != Starts ==> b.NoInstance? || b.StartRaises? || b.LoadRaises?
    ensures !b.LoadRaises? ==> Load(services, offers, b) == Load(services, offers, Starts)
  {
  }

  // ---------------------------------------------------------------- starting from rest

  /** Why an order of _ordered_ids puts no plugin before its provider. */
  lemma OrderServes(listing: seq<Manifest>, h: Handles, services: set<string>, order: seq<string>, i: nat, k: nat)
    requires DistinctIds(listing) && IsIndex(listing, h) && OrderingOf(listing, services, Ordered(order))
    requires i < k < |order| && WellOrdered(h, Ordered(order))
    requires OffersOf(h, order[k]) !! services
    ensures !Serves(h, order[k], order[i])
  {
    hide OwnerOf, Claims;
    var ms := Enabled(listing);
    EnabledDistinct(listing);
    var deps :| IsGraph(ms, services, deps) && IsLeastOrder(deps, order);
    DistinctClaimsIff(ms);
    var x, y := order[k], order[i];
    if Serves(h, x, y) {
      var c :| c in h[x].offers && c in h[y].requirements;
      InIds(ms, deps, order, k);
      InIds(ms, deps, order, i);
      assert h[x] in ms && h[y] in ms;
      OwnerIs(ms, c);
      var m :| m in ms && c in m.offers && m.id == OwnerOf(ms, c).value;
      assert m == h[x];
      assert x in Owners(ms, services, h[y]) && deps[y] == Owners(ms, services, h[y]);
      OrderedEarlier(deps, order, i, x);
      assert false;
    }
  }

  lemma InIds(ms: seq<Manifest>, deps: Graph, order: seq<string>, k: nat)
    requires IsOrder(deps, order) && deps.Keys == Ids(ms) && k < |order|
    ensures exists m :: m in ms && m.id == order[k]
  {
    assert order[k] in Elements(order);
  }

  lemma OrderedEarlier(deps: Graph, order: seq<string>, i: nat, x: string)
    requires IsOrder(deps, order) && i < |order| && x in deps[order[i]]
    ensures exists j | 0 <= j < i :: order[j] == x
  {
    assert x in Elements(order[..i]);
  }

  /** The start_all loop after its first k plugins, begun with nothing running. */
  ghost predicate StartedSoFar(h: Handles, r0: Reg, r: Reg, order: seq<string>, k: nat)
    requires k <= |order|
  {
    && Inv(h, r) && r.started == order[..k]
    && r.services == r0.services + Offered(h, order[..k]) && Offered(h, order[..k]) !! r0.services
  }

  lemma OfferedNext(h: Handles, order: seq<string>, k: nat)
    requires k < |order|
    ensures Offered(h, order[..k + 1]) == Offered(h, order[..k]) + OffersOf(h, order[k])
    ensures Distinct(order) ==> order[k] !in order[..k]
  {
    assert order[..k + 1][..k] == order[..k];
  }

  lemma StartOneFails(h: Handles, r: Reg, x: string, b: Behaviour)
    requires x in h && Steady(h, r) && x !in r.started && !StartOne(h, r, x, b).1
    ensures var s := StartOne(h, r, x, b).0;
            Steady(h, s) && s.started == r.started && r.services <= s.services <= r.services + OffersOf(h, x)
  {
    hide Load, Steady, OffersOf, Elements;
    LoadFacts(r.services, h[x].offers, b);
    OffersAre(h, x);
    StoppedIsIdle(h, r, x);
    IdleKeepsInv(h, r, StartOne(h, r, x, b).0);
  }

  lemma StartOneSucceeds(h: Handles, r: Reg, x: string, b: Behaviour)
    requires x in h && Inv(h, r) && x !in r.started && StartOne(h, r, x, b).1
    requires OffersOf(h, x) !! r.services ==> forall i | 0 <= i < |r.started| :: !Serves(h, x, r.started[i])
    ensures var s := StartOne(h, r, x, b).0;
            Inv(h, s) && s.started == r.started + [x]
            && OffersOf(h, x) !! r.services && s.services == r.services + OffersOf(h, x)
  {
    hide Load, Steady, Serves, ProvidersFirst, OffersOf, Elements;
    LoadFacts(r.services, h[x].offers, b);
    OffersAre(h, x);
    var s := StartOne(h, r, x, b).0;
    AppendKeepsInv(h, r, x, s.services, s.instances);
  }

  lemma StartOneFromRest(listing: seq<Manifest>, h: Handles, r0: Reg, r: Reg, order: seq<string>, k: nat, b: Behaviour)
    requires DistinctIds(listing) && IsIndex(listing, h) && OrderingOf(listing, r0.services, Ordered(order))
    requires WellOrdered(h, Ordered(order)) && k < |order| && Distinct(order)
    requires StartedSoFar(h, r0, r, order, k)
    ensures var (s, ok) := StartOne(h, r, order[k], b);
            && (ok ==> StartedSoFar(h, r0, s, order, k + 1))
            && (!ok ==> Steady(h, s) && s.started == r.started
                        && r.services <= s.services <= r.services + OffersOf(h, order[k]))
  {
    hide StartOne, Serves, OrderingOf, Steady, IsIndex, DistinctIds, ProvidersFirst, Distinct, OffersOf, Offered;
    var x := order[k];
    OfferedNext(h, order, k);
    if StartOne(h, r, x, b).1 {
      forall i | 0 <= i < k && OffersOf(h, x) !! r.services ensures !Serves(h, x, r.started[i]) {
        OrderServes(listing, h, r0.services, order, i, k);
      }
      StartOneSucceeds(h, r, x, b);
      assert order[..k + 1] == order[..k] + [x];
    } else {
      StartOneFails(h, r, x, b);
    }
  }

  lemma {:induction false} StartFromRest(listing: seq<Manifest>, h: Handles, r0: Reg, r: Reg, order: seq<string>,
                                         k: nat, script: Script)
    returns (n: nat)
    requires DistinctIds(listing) && IsIndex(listing, h) && OrderingOf(listing, r0.services, Ordered(order))
    requires WellOrdered(h, Ordered(order)) && k <= |order| && Distinct(order)
    requires StartedSoFar(h, r0, r, order, k)
    ensures var (s, ok) := StartFrom(h, r, order[k..], script);
            && (ok ==> StartedSoFar(h, r0, s, order, |order|))
            && (!ok ==> Steady(h, s) && n < |order| && s.started == order[..n]
                        && Offered(h, s.started) !! r0.services
                        && r0.services + Offered(h, s.started) <= s.services
                        && s.services <= r0.services + Offered(h, s.started) + OffersOf(h, order[n]))
    decreases |order| - k
  {
    hide StartOne, OrderingOf, Steady, IsIndex;
    n := k;
    if k == |order| {
      assert order[..k] == order;
    } else {
      var (s, ok) := StartOne(h, r, order[k], script(order[k]).start);
      StartOneFromRest(listing, h, r0, r, order, k, script(order[k]).start);
      assert order[k..][0] == order[k] && order[k..][1..] == order[k + 1..];
      if ok {
        n := StartFromRest(listing, h, r0, s, order, k + 1, script);
      }
    }
  }

  /** MAIN RESULT. start_all with nothing running, whatever plugins do: on success everything in the order runs,
      providers first. On failure nothing runs; the capabilities left over belong to the plugin that failed, the n-th,
      or to plugins started before it that raised in the rollback, which alone stay listed. */
  lemma StartAllFromRest(listing: seq<Manifest>, h: Handles, r: Reg, o: Outcome, script: Script) returns (n: nat)
    requires DistinctIds(listing) && IsIndex(listing, h) && OrderingOf(listing, r.services, o) && WellOrdered(h, o)
    requires Inv(h, r) && r.started == []
    ensures var (s, ok) := StartAll(h, r, o, script);
            && (ok ==> o.Ordered? && Inv(h, s) && s.started == o.order
                       && s.services == r.services + Offered(h, o.order))
            && (!ok ==> (forall x | x in h :: !s.IsStarted(x)) && (Inv(h, s) <==> s.started == []))
            && (!ok && o.Failed? ==> s.started == [] && s.services == r.services)
            && (!ok && o.Ordered? ==>
                  n < |o.order| && s.started == Reluctant(o.order[..n], script)
                  && r.services <= s.services <= r.services + OffersOf(h, o.order[n]) + Offered(h, s.started))
  {
    hide Steady, StartFrom, OrderingOf, StopAll, IsIndex, Consistent, OffersOf;
    n := 0;
    if o.Failed? {
      StopAllStopsAll(h, r, script);
    } else {
      OrderDistinct(listing, r.services, o.order);
      assert o.order[0..] == o.order;
      n := StartFromRest(listing, h, r, r, o.order, 0, script);
      var (s, ok) := StartFrom(h, r, o.order, script);
      assert o.order[..|o.order|] == o.order;
      if !ok {
        StopAllStopsAll(h, s, script);
        OfferedSplits(h, s.started, script);
      }
    }
  }

  lemma OrderDistinct(listing: seq<Manifest>, services: set<string>, order: seq<string>)
    requires OrderingOf(listing, services, Ordered(order))
    ensures Distinct(order)
  {
    hide IsGraph, Claims, Missing, Closed;
    var deps :| IsGraph(Enabled(listing), services, deps) && IsLeastOrder(deps, order);
  }

  // ---------------------------------------------------------------- start_all while something runs

  /** The started list names exactly the running plugins, once each. */
  ghost predicate Consistent(h: Handles, r: Reg) {
    Distinct(r.started) && forall x | x in h :: r.IsStarted(x) <==> x in r.started
  }

  ghost predicate Startable(h: Handles, r: Reg, x: string) {
    !r.IsStarted(x) && OffersOf(h, x) !! r.services
  }

  /** x is not running, brings no capability that is there already, and does not raise. */
  ghost predicate ComesUp(h: Handles, r: Reg, script: Script, x: string) {
    Startable(h, r, x) && script(x).start == Starts
  }

  /** Going through the order, the first plugin that does not come up is one that already runs. */
  ghost predicate Collides(h: Handles, r: Reg, order: seq<string>, script: Script) {
    exists k | 0 <= k < |order| :: r.IsStarted(order[k]) && forall j | 0 <= j < k :: ComesUp(h, r, script, order[j])
  }

  /** The n-th plugin of the order is the first that does not come up, and it does not run already. */
  ghost predicate FailsAt(h: Handles, r: Reg, order: seq<string>, script: Script, n: nat) {
    && n < |order| && !r.IsStarted(order[n]) && !ComesUp(h, r, script, order[n])
    && forall j | 0 <= j < n :: ComesUp(h, r, script, order[j])
  }

  /** A plugin fails to start, and one that runs by then raises in the rollback. */
  ghost predicate Stranded(h: Handles, r: Reg, order: seq<string>, script: Script) {
    exists n: nat :: FailsAt(h, r, order, script, n) && Reluctant(r.started + order[..n], script) != []
  }

  /** The whole order comes up, behind a running plugin that requires something it provides. */
  ghost predicate Overtaken(h: Handles, r: Reg, order: seq<string>, script: Script) {
    && (forall k | 0 <= k < |order| :: ComesUp(h, r, script, order[k]))
    && exists i, k | 0 <= i < |r.started| && 0 <= k < |order| :: Serves(h, order[k], r.started[i])
  }

  /** x is listed twice, or listed without running. No later stop repairs it. */
  ghost predicate Broken(r: Reg, x: string) {
    multiset(r.started)[x] >= 2 || (x in r.started && !r.IsStarted(x))
  }

  lemma {:induction false} TwiceNotDistinct(xs: seq<string>, x: string)
    requires multiset(xs)[x] >= 2
    ensures !Distinct(xs)
  {
    if Distinct(xs) {
      DistinctTail(xs);
      assert xs == [xs[0]] + xs[1..];
      if xs[0] != x {
        TwiceNotDistinct(xs[1..], x);
      }
    }
  }

  lemma BrokenIsInconsistent(h: Handles, r: Reg, x: string)
    requires x in h && Broken(r, x)
    ensures !Consistent(h, r)
  {
    hide Distinct;
    if multiset(r.started)[x] >= 2 {
      TwiceNotDistinct(r.started, x);
    }
  }

  lemma {:induction false} WithoutCount(xs: seq<string>, y: string)
    ensures multiset(Without(xs, y)) == multiset(xs) - multiset{y}
  {
    if xs != [] {
      assert xs == [xs[0]] + xs[1..];
      if xs[0] != y {
        WithoutCount(xs[1..], y);
      }
    }
  }

  lemma ShutKeepsBroken(h: Handles, r: Reg, y: string, e: Ending, x: string)
    requires x in h && y in h && Broken(r, x)
    ensures Broken(Shut(h, r, y, e), x)
  {
    hide Elements, Without;
    WithoutCount(r.started, y);
    assert x in r.started <==> multiset(r.started)[x] > 0;
    assert x in Without(r.started, y) <==> multiset(Without(r.started, y))[x] > 0;
  }

  lemma {:induction false} StopEachKeepsBroken(h: Handles, r: Reg, ids: seq<string>, script: Script, x: string)
    requires x in h && (forall i | 0 <= i < |ids| :: ids[i] in h) && Broken(r, x)
    ensures Broken(StopEach(h, r, ids, script), x)
    decreases |ids|
  {
    hide Shut, Broken;
    if ids != [] {
      var last := ids[|ids| - 1];
      ShutKeepsBroken(h, r, last, script(last).stop, x);
      StopEachKeepsBroken(h, Shut(h, r, last, script(last).stop), ids[..|ids| - 1], script, x);
    }
  }

  lemma {:induction false} StartFromKeepsBroken(h: Handles, r: Reg, order: seq<string>, script: Script, x: string)
    requires x in h && (forall i | 0 <= i < |order| :: order[i] in h && order[i] != x) && Broken(r, x)
    ensures Broken(StartFrom(h, r, order, script).0, x)
    decreases |order|
  {
    hide Load;
    if order != [] {
      var (s, ok) := StartOne(h, r, order[0], script(order[0]).start);
      assert multiset(s.started)[x] >= multiset(r.started)[x];
      if ok {
        StartFromKeepsBroken(h, s, order[1..], script, x);
      }
    }
  }

  /** Starting a running plugin again breaks its entry, however it behaves. */
  lemma RestartBreaks(h: Handles, r: Reg, x: string, b: Behaviour)
    requires x in h && Steady(h, r) && r.IsStarted(x)
    ensures Broken(StartOne(h, r, x, b).0, x)
  {
    hide Load;
    var (s, ok) := StartOne(h, r, x, b);
    assert x in r.started && multiset(r.started)[x] >= 1;
    if !ok {
      assert s.started == r.started;
    }
  }

  /** The start_all loop after k plugins that came up. */
  ghost predicate GoneWell(h: Handles, r0: Reg, r: Reg, order: seq<string>, script: Script, k: nat)
    requires k <= |order|
  {
    && Steady(h, r) && r.started == r0.started + order[..k] && r.services == r0.services + Offered(h, order[..k])
    && (forall i | k <= i < |order| :: r.IsStarted(order[i]) <==> r0.IsStarted(order[i]))
    && (forall i | 0 <= i < k :: ComesUp(h, r0, script, order[i]))
  }

  /** No two plugins of an order provide the same capability, and none provides one twice. */
  ghost predicate Exclusive(h: Handles, order: seq<string>) {
    && (forall i | 0 <= i < |order| :: order[i] in h && Distinct(h[order[i]].offers))
    && (forall i, j | 0 <= i < j < |order| :: OffersOf(h, order[i]) !! OffersOf(h, order[j]))
  }

  lemma OrderExclusive(listing: seq<Manifest>, h: Handles, services: set<string>, order: seq<string>)
    requires DistinctIds(listing) && IsIndex(listing, h) && OrderingOf(listing, services, Ordered(order))
    ensures WellOrdered(h, Ordered(order)) && Exclusive(h, order) && Distinct(order)
  {
    hide OrderingOf, IsIndex, DistinctIds, Distinct, ProvidedOnce, OffersOf;
    OrderInListing(listing, h, services, order);
    forall i, j | 0 <= i < j < |order| ensures OffersOf(h, order[i]) !! OffersOf(h, order[j]) {
      NotTwice(order, i, j);
      OffersApart(Enabled(listing), h, order[i], order[j]);
    }
    forall i | 0 <= i < |order| ensures Distinct(h[order[i]].offers) {
      OffersApart(Enabled(listing), h, order[i], order[i]);
    }
  }

  lemma OrderInListing(listing: seq<Manifest>, h: Handles, services: set<string>, order: seq<string>)
    requires DistinctIds(listing) && IsIndex(listing, h) && OrderingOf(listing, services, Ordered(order))
    ensures WellOrdered(h, Ordered(order)) && Distinct(order) && ProvidedOnce(Enabled(listing))
    ensures forall i | 0 <= i < |order| :: h[order[i]] in Enabled(listing) && h[order[i]].id == order[i]
  {
    hide OwnerOf, Claims, Missing, Owners, Distinct, ProvidedOnce;
    var ms := Enabled(listing);
    EnabledDistinct(listing);
    var deps :| IsGraph(ms, services, deps) && IsLeastOrder(deps, order);
    DistinctClaimsIff(ms);
    OrderIsKnown(listing, h, services, Ordered(order));
    forall i | 0 <= i < |order| ensures h[order[i]] in ms && h[order[i]].id == order[i] {
      InIds(ms, deps, order, i);
    }
  }

  lemma OffersApart(ms: seq<Manifest>, h: Handles, x: string, y: string)
    requires ProvidedOnce(ms) && x in h && y in h && h[x] in ms && h[y] in ms && h[x].id == x && h[y].id == y
    ensures Distinct(h[x].offers) && (x != y ==> OffersOf(h, x) !! OffersOf(h, y))
  {
    hide Distinct;
  }

  lemma NotTwice(xs: seq<string>, i: nat, j: nat)
    requires Distinct(xs) && i < j < |xs|
    ensures xs[i] != xs[j]
  {
  }

  lemma RestLacks(xs: seq<string>, k: nat)
    requires Distinct(xs) && k < |xs|
    ensures var rest := xs[k + 1..];
            forall i | 0 <= i < |rest| :: rest[i] != xs[k]
  {
  }

  lemma {:induction false} OfferedExclusive(h: Handles, order: seq<string>, k: nat, i: nat)
    requires Exclusive(h, order) && k <= i < |order|
    ensures OffersOf(h, order[i]) !! Offered(h, order[..k])
  {
    hide OffersOf, Distinct;
    if k > 0 {
      OfferedExclusive(h, order, k - 1, i);
      OfferedNext(h, order, k - 1);
    }
  }

  lemma GoneWellStep(h: Handles, r0: Reg, r: Reg, order: seq<string>, script: Script, k: nat)
    requires k < |order| && Exclusive(h, order) && Distinct(order) && GoneWell(h, r0, r, order, script, k)
    requires !r0.IsStarted(order[k])
    ensures var (s, ok) := StartOne(h, r, order[k], script(order[k]).start);
            && (ok <==> ComesUp(h, r0, script, order[k]))
            && (ok ==> GoneWell(h, r0, s, order, script, k + 1))
            && (!ok ==> Steady(h, s) && s.started == r.started)
  {
    hide Load, Steady, OffersOf, Elements, Offered;
    var x, b := order[k], script(order[k]).start;
    OffersAre(h, x);
    LoadFacts(r.services, h[x].offers, b);
    OfferedExclusive(h, order, k, k);
    OfferedNext(h, order, k);
    RunningIsListed(h, r, x);
    var (s, ok) := StartOne(h, r, x, b);
    OnlyStartsStarts(h, r, x, b);
    if ok {
      AppendKeepsInv(h, r, x, s.services, s.instances);
      assert order[..k + 1] == order[..k] + [x];
      forall i | k + 1 <= i < |order| ensures s.IsStarted(order[i]) <==> r0.IsStarted(order[i]) {
        NotTwice(order, k, i);
      }
    } else {
      StartOneFails(h, r, x, b);
    }
  }

  lemma OnlyStartsStarts(h: Handles, r: Reg, x: string, b: Behaviour)
    requires x in h
    ensures StartOne(h, r, x, b).1 ==> b == Starts
  {
    hide Provide;
  }

  lemma RunningIsListed(h: Handles, r: Reg, x: string)
    requires Steady(h, r) && x in h
    ensures r.IsStarted(x) <==> x in r.started
  {
  }

  lemma {:induction false} StartFromOverRunning(h: Handles, r0: Reg, r: Reg, order: seq<string>, script: Script, k: nat)
    requires k <= |order| && Exclusive(h, order) && Distinct(order) && GoneWell(h, r0, r, order, script, k)
    ensures var (s, ok) := StartFrom(h, r, order[k..], script);
            if Collides(h, r0, order, script) then exists x :: x in h && Broken(s, x)
            else Steady(h, s) && (ok ==> s.started == r0.started + order)
                 && (ok <==> forall i | 0 <= i < |order| :: ComesUp(h, r0, script, order[i]))
                 && (!ok ==> exists n: nat :: FailsAt(h, r0, order, script, n) && s.started == r0.started + order[..n])
    decreases |order| - k
  {
    hide StartOne, Steady, Broken, Distinct, Offered, Startable;
    if k == |order| {
      assert order[..k] == order;
      AllUpNoCollision(h, r0, order, script);
    } else {
      var x := order[k];
      assert order[k..][0] == x && order[k..][1..] == order[k + 1..];
      var (s, ok) := StartOne(h, r, x, script(x).start);
      if r0.IsStarted(x) {
        RestartBreaks(h, r, x, script(x).start);
        assert Collides(h, r0, order, script);
        if ok {
          RestLacks(order, k);
          StartFromKeepsBroken(h, s, order[k + 1..], script, x);
        }
      } else {
        GoneWellStep(h, r0, r, order, script, k);
        if ok {
          StartFromOverRunning(h, r0, s, order, script, k + 1);
        } else {
          NoCollision(h, r0, order, script, k);
          assert FailsAt(h, r0, order, script, k);
        }
      }
    }
  }

  lemma AllUpNoCollision(h: Handles, r: Reg, order: seq<string>, script: Script)
    requires forall i | 0 <= i < |order| :: ComesUp(h, r, script, order[i])
    ensures !Collides(h, r, order, script)
  {
    forall i | 0 <= i < |order| ensures !r.IsStarted(order[i]) {
      assert ComesUp(h, r, script, order[i]);
    }
  }

  lemma NoCollision(h: Handles, r: Reg, order: seq<string>, script: Script, k: nat)
    requires k < |order| && !r.IsStarted(order[k]) && !ComesUp(h, r, script, order[k])
    requires forall i | 0 <= i < k :: ComesUp(h, r, script, order[i])
    ensures !Collides(h, r, order, script)
  {
    hide OffersOf;
  }

  lemma FailsOnce(h: Handles, r: Reg, order: seq<string>, script: Script, m: nat, n: nat)
    requires FailsAt(h, r, order, script, m) && FailsAt(h, r, order, script, n)
    ensures m == n
  {
    hide ComesUp;
  }

  /** MAIN RESULT. Whatever plugins do, start_all leaves a started list that names exactly the running plugins if and
      only if, going through the order, no plugin that already runs is reached before one that does not come up, and no
      running plugin raises in the rollback. */
  lemma StartAllConsistentIff(listing: seq<Manifest>, h: Handles, r: Reg, order: seq<string>, script: Script)
    requires DistinctIds(listing) && IsIndex(listing, h) && OrderingOf(listing, r.services, Ordered(order))
    requires Steady(h, r) && WellOrdered(h, Ordered(order))
    ensures var s := StartAll(h, r, Ordered(order), script).0;
            && (Consistent(h, s) <==> !Collides(h, r, order, script) && !Stranded(h, r, order, script))
            && (Consistent(h, s) ==>
                  Steady(h, s)
                  && s.started == if forall k | 0 <= k < |order| :: ComesUp(h, r, script, order[k])
                                  then r.started + order
                                  else [])
  {
    hide OrderingOf, IsIndex, Collides, Stranded, FailsAt, Broken, Exclusive, Distinct, StartFrom, ComesUp, Steady,
         Consistent, GoneWell, StopEach;
    OrderExclusive(listing, h, r.services, order);
    FailsWithin(h, r, order, script);
    SteadyIsConsistent(h, r);
    assert order[0..] == order && order[..0] == [] && r.started + [] == r.started;
    GoneWellFromHere(h, r, order, script);
    StartFromOverRunning(h, r, r, order, script, 0);
    var (s, ok) := StartFrom(h, r, order, script);
    StartFromKnown(h, r, order, script);
    if Collides(h, r, order, script) {
      var x :| x in h && Broken(s, x);
      BrokenIsInconsistent(h, s, x);
      StopEachKeepsBroken(h, s, s.started, script, x);
      BrokenIsInconsistent(h, StopAll(h, s, script), x);
    } else if ok {
      SteadyIsConsistent(h, s);
      AllUpNotStranded(h, r, order, script);
    } else {
      StopAllStopsAll(h, s, script);
      var n: nat :| FailsAt(h, r, order, script, n) && s.started == r.started + order[..n];
      StrandedAt(h, r, order, script, n);
    }
  }

  lemma GoneWellFromHere(h: Handles, r: Reg, order: seq<string>, script: Script)
    requires Steady(h, r)
    ensures GoneWell(h, r, r, order, script, 0)
  {
    assert r.started + order[..0] == r.started && r.services + Offered(h, []) == r.services;
  }

  lemma AllUpNotStranded(h: Handles, r: Reg, order: seq<string>, script: Script)
    requires forall i | 0 <= i < |order| :: ComesUp(h, r, script, order[i])
    ensures !Stranded(h, r, order, script)
  {
    hide ComesUp, Reluctant;
  }

  lemma StrandedAt(h: Handles, r: Reg, order: seq<string>, script: Script, n: nat)
    requires FailsAt(h, r, order, script, n)
    ensures Stranded(h, r, order, script) <==> Reluctant(r.started + order[..n], script) != []
  {
    hide FailsAt, Reluctant;
    forall m: nat | FailsAt(h, r, order, script, m) ensures m == n {
      FailsOnce(h, r, order, script, m, n);
    }
  }

  lemma ProvidersFirstAppended(h: Handles, a: seq<string>, b: seq<string>)
    requires ProvidersFirst(h, a) && ProvidersFirst(h, b)
    ensures ProvidersFirst(h, a + b) <==> forall i, k | 0 <= i < |a| && 0 <= k < |b| :: !Serves(h, b[k], a[i])
  {
    hide Serves;
    var all := a + b;
    if ProvidersFirst(h, all) {
      forall i, k | 0 <= i < |a| && 0 <= k < |b| ensures !Serves(h, b[k], a[i]) {
        assert !Serves(h, all[|a| + k], all[i]);
      }
    }
  }

  lemma OrderProvidersFirst(listing: seq<Manifest>, h: Handles, r: Reg, order: seq<string>, script: Script)
    requires DistinctIds(listing) && IsIndex(listing, h) && OrderingOf(listing, r.services, Ordered(order))
    requires WellOrdered(h, Ordered(order)) && forall k | 0 <= k < |order| :: ComesUp(h, r, script, order[k])
    ensures ProvidersFirst(h, order)
  {
    hide OrderingOf, IsIndex, Serves, OffersOf, DistinctIds;
    forall i, k | 0 <= i < k < |order| ensures !Serves(h, order[k], order[i]) {
      assert ComesUp(h, r, script, order[k]);
      OrderServes(listing, h, r.services, order, i, k);
    }
  }

  /** start_all neither reaches a running plugin first, nor meets an exception in its rollback, nor brings up a provider
      behind its dependant. */
  ghost predicate Welcome(h: Handles, r: Reg, order: seq<string>, script: Script) {
    !Collides(h, r, order, script) && !Stranded(h, r, order, script) && !Overtaken(h, r, order, script)
  }

  /** MAIN RESULT. Whatever runs and whatever plugins do, start_all keeps the started list duplicate-free, accurate
      and providers-first if and only if it is welcome. */
  lemma StartAllKeepsInvIff(listing: seq<Manifest>, h: Handles, r: Reg, order: seq<string>, script: Script)
    requires DistinctIds(listing) && IsIndex(listing, h) && OrderingOf(listing, r.services, Ordered(order))
    requires Inv(h, r) && WellOrdered(h, Ordered(order))
    ensures Inv(h, StartAll(h, r, Ordered(order), script).0) <==> Welcome(h, r, order, script)
  {
    hide OrderingOf, IsIndex, Collides, Stranded, StartAll, ComesUp, Serves, DistinctIds;
    StartAllConsistentIff(listing, h, r, order, script);
    var s := StartAll(h, r, Ordered(order), script).0;
    SteadyIsConsistent(h, s);
    if forall k | 0 <= k < |order| :: ComesUp(h, r, script, order[k]) {
      OrderProvidersFirst(listing, h, r, order, script);
      ProvidersFirstAppended(h, r.started, order);
    }
  }

  lemma SteadyIsConsistent(h: Handles, r: Reg)
    ensures Steady(h, r) ==> Consistent(h, r) && Known(h, r)
  {
  }

  // ---------------------------------------------------------------- whole runs

  datatype Op =
    | OpStartAll(outcome: Outcome, script: Script)
    | OpStop(id: string, e: Ending)
    | OpStopAll(script: Script)
    | OpRestart(id: string, b: Conduct)

  /** Operations name plugins of the registry; start_all gets what _ordered_ids returns. */
  ghost predicate Legal(listing: seq<Manifest>, h: Handles, r: Reg, op: Op) {
    match op
    case OpStartAll(o, _) => OrderingOf(listing, r.services, o) && WellOrdered(h, o)
    case OpStop(id, _) => id in h
    case OpStopAll(_) => true
    case OpRestart(id, _) => id in h
  }

  /** start_all is welcome, and no plugin raises where that leaves it listed without running. */
  ghost predicate Harmless(h: Handles, r: Reg, op: Op) {
    match op
    case OpStartAll(o, script) =>
      if o.Ordered? then Welcome(h, r, o.order, script) else Reluctant(r.started, script) == []
    case OpStop(id, e) => !(r.IsStarted(id) && e == UnloadRaises)
    case OpStopAll(script) => Reluctant(r.started, script) == []
    case OpRestart(id, b) => id in h ==> !Sticks(h, r, id, b.stop)
  }

  ghost function Apply(listing: seq<Manifest>, h: Handles, r: Reg, op: Op): Reg
    requires Known(h, r) && Legal(listing, h, r, op)
  {
    match op
    case OpStartAll(o, script) => StartAll(h, r, o, script).0
    case OpStop(id, e) => StopPlugin(h, r, id, e)
    case OpStopAll(script) => StopAll(h, r, script)
    case OpRestart(id, b) => Restart(h, r, id, b).0
  }

  /** The states of a run, each obtained from the one before by an operation. */
  ghost predicate IsRun(listing: seq<Manifest>, h: Handles, rs: seq<Reg>, ops: seq<Op>) {
    && |rs| == |ops| + 1
    && forall i | 0 <= i < |ops| ::
         Known(h, rs[i]) && Legal(listing, h, rs[i], ops[i]) && rs[i + 1] == Apply(listing, h, rs[i], ops[i])
  }

  /** MAIN RESULT. Over every run of start_all, stop_plugin, stop_all and restart_plugin, whatever plugins do when they
      are loaded, started, stopped and unloaded: the started list is duplicate-free, names exactly the running plugins
      and lists providers before the plugins that require them in every state, if and only if every operation is
      harmless where it is called. */
  lemma {:induction false} RunKeepsInvIff(listing: seq<Manifest>, h: Handles, rs: seq<Reg>, ops: seq<Op>)
    requires DistinctIds(listing) && IsIndex(listing, h) && IsRun(listing, h, rs, ops) && Inv(h, rs[0])
    ensures (forall n | 0 <= n < |rs| :: Inv(h, rs[n])) <==> (forall i | 0 <= i < |ops| :: Harmless(h, rs[i], ops[i]))
  {
    hide Inv, Harmless, Apply, IsIndex, DistinctIds, Legal;
    if forall n | 0 <= n < |rs| :: Inv(h, rs[n]) {
      forall i | 0 <= i < |ops| ensures Harmless(h, rs[i], ops[i]) {
        OpKeepsInvIff(listing, h, rs[i], ops[i]);
        assert Inv(h, rs[i + 1]);
      }
    }
    if forall i | 0 <= i < |ops| :: Harmless(h, rs[i], ops[i]) {
      forall n | 0 <= n < |rs| ensures Inv(h, rs[n]) {
        RunKeepsInv(listing, h, rs, ops, n);
      }
    }
  }

  lemma {:induction false} RunKeepsInv(listing: seq<Manifest>, h: Handles, rs: seq<Reg>, ops: seq<Op>, n: nat)
    requires DistinctIds(listing) && IsIndex(listing, h) && IsRun(listing, h, rs, ops) && n < |rs|
    requires Inv(h, rs[0]) && forall i | 0 <= i < n :: Harmless(h, rs[i], ops[i])
    ensures Inv(h, rs[n])
  {
    hide Inv, Harmless, Apply, IsIndex, DistinctIds, Legal;
    if n > 0 {
      RunKeepsInv(listing, h, rs, ops, n - 1);
      OpKeepsInvIff(listing, h, rs[n - 1], ops[n - 1]);
    }
  }

  lemma OpKeepsInvIff(listing: seq<Manifest>, h: Handles, r: Reg, op: Op)
    requires DistinctIds(listing) && IsIndex(listing, h) && Inv(h, r) && Legal(listing, h, r, op)
    ensures Inv(h, Apply(listing, h, r, op)) <==> Harmless(h, r, op)
  {
    hide Steady, StopPlugin, StopAll, Restart, IsIndex, OrderingOf, DistinctIds, Welcome, StartFrom, Reluctant, Sticks;
    match op
    case OpStartAll(o, script) =>
      if o.Ordered? {
        StartAllKeepsInvIff(listing, h, r, o.order, script);
      } else {
        StopAllStopsAll(h, r, script);
      }
    case OpStop(id, e) => StopKeepsInvIff(h, r, id, e);
    case OpStopAll(script) => StopAllStopsAll(h, r, script);
    case OpRestart(id, b) => RestartKeepsInvIff(h, r, id, b);
  }

  lemma StopKeepsInvIff(h: Handles, r: Reg, id: string, e: Ending)
    requires id in h && Inv(h, r)
    ensures Inv(h, StopPlugin(h, r, id, e)) <==> !(r.IsStarted(id) && e == UnloadRaises)
  {
    hide Steady, StopPlugin, ProvidersFirst;
    if r.IsStarted(id) && e == UnloadRaises {
      UnloadBreaks(h, r, id);
    } else if r.IsStarted(id) && e == StopRaises {
      RaisesAtOnce(h, r, id);
    } else {
      StopKeepsInv(h, r, id, e);
    }
  }

  /** With nothing running, start_all is welcome unless a plugin raises in the rollback. */
  lemma RestIsWelcome(h: Handles, r: Reg, order: seq<string>, script: Script)
    requires Steady(h, r) && r.started == [] && WellOrdered(h, Ordered(order))
    ensures Welcome(h, r, order, script) <==> !Stranded(h, r, order, script)
    ensures (forall k | 0 <= k < |order| :: script(order[k]).stop == Stops) ==> Welcome(h, r, order, script)
  {
    hide ComesUp, FailsAt, Reluctant;
    forall n: nat | FailsAt(h, r, order, script, n) && n < |order| {
      AllWilling(r.started + order[..n], script);
    }
    FailsWithin(h, r, order, script);
  }

  lemma FailsWithin(h: Handles, r: Reg, order: seq<string>, script: Script)
    ensures forall n: nat | FailsAt(h, r, order, script, n) :: n < |order|
  {
    hide ComesUp;
  }
}
