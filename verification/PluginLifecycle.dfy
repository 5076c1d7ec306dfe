/** PluginRegistry: starting, rolling back, stopping and restarting plugins over shared services. */
module PluginLifecycle {
  import opened Ordering
  import opened PluginGraph
  import opened PluginOrder

  datatype PluginState = Discovered | Loaded | Started | Stopped | Unloaded | Failing

  /** What a plugin's own code does when it is instantiated, loaded and started. A load provides the declared
      capabilities in order and may raise after the first `count` of them. */
  datatype Behaviour = NoInstance | LoadRaises(count: nat) | StartRaises | Starts

  /** What it does when it is stopped and unloaded. */
  datatype Ending = Stops | StopRaises | UnloadRaises

  datatype Conduct = Conduct(start: Behaviour, stop: Ending)

  /** The conduct of every plugin during one call. */
  type Script = string -> Conduct

  type Handles = map<string, Manifest>

  /** The mutable part of the registry. */
  datatype Reg = Reg(
    states: map<string, PluginState>, instances: set<string>, services: set<string>, started: seq<string>) {
    predicate IsStarted(id: string) {
      id in states && states[id] == Started
    }
  }

  /** context.provide for each capability in turn; a capability already present raises. */
  function Provide(services: set<string>, offers: seq<string>): (set<string>, bool)
    decreases |offers|
  {
    if offers == [] then (services, true)
    else if offers[0] in services then (services, false)
    else Provide(services + {offers[0]}, offers[1..])
  }

  function Load(services: set<string>, offers: seq<string>, b: Behaviour): (set<string>, bool) {
    if b.LoadRaises? then (Provide(services, if b.count < |offers| then offers[..b.count] else offers).0, false)
    else Provide(services, offers)
  }

  /** The body of the start_all loop for one plugin, and whether it raised. */
  function StartOne(h: Handles, r: Reg, id: string, b: Behaviour): (Reg, bool)
    requires id in h
  {
    if b.NoInstance? then (r.(states := r.states[id := Failing]), false)
    else
      var (services, loaded) := Load(r.services, h[id].offers, b);
      var s := r.(instances := r.instances + {id}, services := services);
      if !loaded || b.StartRaises? then (s.(states := s.states[id := Failing]), false)
      else (s.(states := s.states[id := Started], started := s.started + [id]), true)
  }

  function StartFrom(h: Handles, r: Reg, order: seq<string>, script: Script): (Reg, bool)
    requires forall i | 0 <= i < |order| :: order[i] in h
    decreases |order|
  {
    if order == [] then (r, true)
    else
      var (s, ok) := StartOne(h, r, order[0], script(order[0]).start);
      if ok then StartFrom(h, s, order[1..], script) else (s, false)
  }

  /** list.remove: drop the first occurrence. */
  function Without(xs: seq<string>, x: string): seq<string> {
    if xs == [] then [] else if xs[0] == x then xs[1..] else [xs[0]] + Without(xs[1..], x)
  }

  /** Stopping the plugin runs its code, and that raises. */
  predicate Balks(r: Reg, id: string, e: Ending) {
    id in r.instances && r.IsStarted(id) && e != Stops
  }

  /** stop_plugin, also where it raises half way. */
  function StopPlugin(h: Handles, r: Reg, id: string, e: Ending): Reg
    requires id in h
  {
    if id !in r.instances || !r.IsStarted(id) then r
    else
      match e
      case Stops =>
        Reg(r.states[id := Unloaded], r.instances, r.services - Elements(h[id].offers), Without(r.started, id))
      case StopRaises => r
      case UnloadRaises => r.(states := r.states[id := Stopped])
  }

  /** The body of the stop_all loop: an exception marks the plugin as failing, and the loop goes on. */
  function Shut(h: Handles, r: Reg, id: string, e: Ending): Reg
    requires id in h
  {
    var s := StopPlugin(h, r, id, e);
    if Balks(r, id, e) then s.(states := s.states[id := Failing]) else s
  }

  /** Stop the plugins of ids, last first. */
  function StopEach(h: Handles, r: Reg, ids: seq<string>, script: Script): Reg
    requires forall i | 0 <= i < |ids| :: ids[i] in h
    decreases |ids|
  {
    if ids == [] then r
    else
      var last := ids[|ids| - 1];
      StopEach(h, Shut(h, r, last, script(last).stop), ids[..|ids| - 1], script)
  }

  ghost predicate Known(h: Handles, r: Reg) {
    && r.states.Keys == h.Keys
    && forall i | 0 <= i < |r.started| :: r.started[i] in h
  }

  function StopAll(h: Handles, r: Reg, script: Script): Reg
    requires Known(h, r)
  {
    StopEach(h, r, r.started, script)
  }

  predicate WellOrdered(h: Handles, o: Outcome) {
    o.Ordered? ==> forall i | 0 <= i < |o.order| :: o.order[i] in h
  }

  /** start_all, given what _ordered_ids returned: any exception rolls everything back. */
  function StartAll(h: Handles, r: Reg, o: Outcome, script: Script): (Reg, bool)
    requires Known(h, r) && WellOrdered(h, o)
  {
    if o.Failed? then (StopAll(h, r, script), false)
    else
      var (s, ok) := StartFrom(h, r, o.order, script);
      StartFromKnown(h, r, o.order, script);
      if ok then (s, true) else (StopAll(h, s, script), false)
  }

  /** Another plugin (or the plugin itself) is running and requires something id provides. */
  predicate HasDependants(h: Handles, r: Reg, id: string)
    requires id in h
  {
    exists x :: x in h && r.IsStarted(x) && exists c :: c in h[id].offers && c in h[x].requirements
  }

  function Restart(h: Handles, r: Reg, id: string, b: Conduct): (Reg, bool)
    requires id in h
  {
    if HasDependants(h, r, id) then (r, false)
    else
      var s := StopPlugin(h, r, id, b.stop);
      if Balks(r, id, b.stop) || b.start.NoInstance? then (s, false)
      else
        var (services, loaded) := Load(s.services, h[id].offers, b.start);
        var t := s.(instances := s.instances + {id}, services := services);
        if !loaded then (t, false)
        else if b.start.StartRaises? then (t.(states := t.states[id := Loaded]), false)
        else (t.(states := t.states[id := Started], started := t.started + [id]), true)
  }

  lemma {:induction false} WithoutKeeps(xs: seq<string>, x: string)
    ensures forall y | y in Without(xs, x) :: y in xs
    ensures forall y | y in xs && y != x :: y in Without(xs, x)
    ensures |Without(xs, x)| == if x in xs then |xs| - 1 else |xs|
  {
    if xs != [] && xs[0] != x {
      WithoutKeeps(xs[1..], x);
    }
  }

  lemma {:induction false} StartFromKnown(h: Handles, r: Reg, order: seq<string>, script: Script)
    requires Known(h, r) && forall i | 0 <= i < |order| :: order[i] in h
    ensures Known(h, StartFrom(h, r, order, script).0)
    decreases |order|
  {
    hide Load;
    if order != [] {
      var (s, ok) := StartOne(h, r, order[0], script(order[0]).start);
      assert Known(h, s);
      if ok {
        StartFromKnown(h, s, order[1..], script);
      }
    }
  }

  lemma StopKnown(h: Handles, r: Reg, id: string, e: Ending)
    requires Known(h, r) && id in h
    ensures Known(h, StopPlugin(h, r, id, e)) && Known(h, Shut(h, r, id, e))
  {
    WithoutKeeps(r.started, id);
    var xs := Without(r.started, id);
    assert forall i | 0 <= i < |xs| :: xs[i] in r.started;
  }

  class PluginRegistry {
    const listing: seq<Manifest>
    const handles: Handles
    var states: map<string, PluginState>
    var instances: set<string>
    var services: set<string>
    var started: seq<string>

    ghost predicate Valid()
      reads this
    {
      DistinctIds(listing) && IsIndex(listing, handles) && Known(handles, State())
    }

    function State(): Reg
      reads this
    {
      Reg(states, instances, services, started)
    }

    /** Duplicate plugin ids are refused before construction. */
    constructor (listing: seq<Manifest>, services: set<string>)
      requires DistinctIds(listing)
      ensures Valid() && this.listing == listing
      ensures State() == Reg(map id | id in Ids(listing) :: Discovered, {}, services, [])
    {
      this.listing := listing;
      this.handles := Index(listing);
      IndexIs(listing);
      this.states := map id | id in Ids(listing) :: Discovered;
      this.instances, this.services, this.started := {}, services, [];
    }

    /** Returns whether the plugin's code raised. */
    method Stop(id: string, e: Ending) returns (raised: bool)
      requires Valid() && id in handles
      modifies this
      ensures Valid() && State() == StopPlugin(handles, old(State()), id, e)
      ensures raised == Balks(old(State()), id, e)
    {
      StopKnown(handles, State(), id, e);
      if id !in instances || !State().IsStarted(id) {
        return false;
      }
      if e.StopRaises? {
        return true;
      }
      if e.UnloadRaises? {
        states := states[id := Stopped];
        return true;
      }
      states := states[id := Unloaded];
      started := Without(started, id);
      services := services - Elements(handles[id].offers);
      raised := false;
    }

    /** stop_plugin inside stop_all, where its exception is caught. */
    method Attempt(id: string, e: Ending)
      requires Valid() && id in handles
      modifies this
      ensures Valid() && State() == Shut(handles, old(State()), id, e)
    {
      hide StopPlugin, Balks;
      StopKnown(handles, State(), id, e);
      var raised := Stop(id, e);
      if raised {
        states := states[id := Failing];
      }
    }

    method StopEverything(script: Script)
      requires Valid()
      modifies this
      ensures Valid() && State() == StopAll(handles, old(State()), script)
    {
      hide Shut;
      var ids := started;
      var i := |ids|;
      assert ids[..i] == ids;
      while i > 0
        invariant 0 <= i <= |ids| && Valid()
        invariant StopEach(handles, State(), ids[..i], script) == StopAll(handles, old(State()), script)
      {
        i := i - 1;
        assert ids[..i + 1][..i] == ids[..i];
        Attempt(ids[i], script(ids[i]).stop);
      }
    }

    /** instance.load(ctx): provide capabilities until the plugin raises. */
    method LoadPlugin(id: string, b: Behaviour) returns (ok: bool)
      requires Valid() && id in handles
      modifies this`services
      ensures (services, ok) == Load(old(services), handles[id].offers, b)
    {
      var offers := handles[id].offers;
      var limit := if b.LoadRaises? && b.count < |offers| then b.count else |offers|;
      ghost var wanted := offers[..limit];
      assert offers[..|offers|] == offers && wanted[0..] == wanted;
      var i := 0;
      while i < limit
        invariant 0 <= i <= limit
        invariant Provide(services, wanted[i..]) == Provide(old(services), wanted)
      {
        if offers[i] in services {
          return false;
        }
        services := services + {offers[i]};
        assert wanted[i..][1..] == wanted[i + 1..];
        i := i + 1;
      }
      ok := !b.LoadRaises?;
    }

    method StartPlugin(id: string, b: Behaviour) returns (ok: bool)
      requires Valid() && id in handles
      modifies this
      ensures Valid() && (State(), ok) == StartOne(handles, old(State()), id, b)
    {
      ok := false;
      if !b.NoInstance? {
        instances := instances + {id};
        ok := LoadPlugin(id, b);
        ok := ok && !b.StartRaises?;
      }
      states := states[id := if ok then Started else Failing];
      if ok {
        started := started + [id];
      }
    }

    method StartAllPlugins(script: Script) returns (ok: bool, outcome: Outcome)
      requires Valid()
      modifies this
      ensures OrderingOf(listing, old(services), outcome) && WellOrdered(handles, outcome)
      ensures Valid() && (State(), ok) == StartAll(handles, old(State()), outcome, script)
    {
      hide StartOne, OrderingOf;
      outcome := OrderedIds(listing, services);
      OrderIsKnown(listing, handles, services, outcome);
      if outcome.Failed? {
        StopEverything(script);
        return false, outcome;
      }
      var order := outcome.order;
      var i := 0;
      StartFromKnown(handles, State(), order, script);
      while i < |order|
        invariant 0 <= i <= |order| && Valid()
        invariant StartFrom(handles, State(), order[i..], script) == StartFrom(handles, old(State()), order, script)
      {
        ok := StartPlugin(order[i], script(order[i]).start);
        assert order[i..][1..] == order[i + 1..];
        if !ok {
          StopEverything(script);
          return;
        }
        i := i + 1;
      }
      ok := true;
    }

    method RestartPlugin(id: string, b: Conduct) returns (ok: bool)
      requires Valid() && id in handles
      modifies this
      ensures Valid() && (State(), ok) == Restart(handles, old(State()), id, b)
    {
      ok := false;
      if HasDependants(handles, State(), id) {
        return;
      }
      var raised := Stop(id, b.stop);
      if raised || b.start.NoInstance? {
        return;
      }
      instances := instances + {id};
      var loaded := LoadPlugin(id, b.start);
      if !loaded {
        return;
      }
      states := states[id := Loaded];
      if b.start.StartRaises? {
        return;
      }
      assert states[id := Started] == old(StopPlugin(handles, State(), id, b.stop)).states[id := Started];
      states := states[id := Started];
      started := started + [id];
      ok := true;
    }
  }

  ghost predicate IsIndex(listing: seq<Manifest>, h: Handles) {
    h.Keys == Ids(listing) && forall m | m in listing :: h[m.id] == m
  }

  function Index(listing: seq<Manifest>): Handles {
    if listing == [] then map[]
    else Index(listing[..|listing| - 1])[listing[|listing| - 1].id := listing[|listing| - 1]]
  }

  lemma {:induction false} IndexIs(listing: seq<Manifest>)
    requires DistinctIds(listing)
    ensures IsIndex(listing, Index(listing))
  {
    if listing != [] {
      IndexIs(listing[..|listing| - 1]);
      assert Ids(listing) == Ids(listing[..|listing| - 1]) + {listing[|listing| - 1].id};
    }
  }

  lemma OrderIsKnown(listing: seq<Manifest>, h: Handles, services: set<string>, o: Outcome)
    requires DistinctIds(listing) && IsIndex(listing, h) && OrderingOf(listing, services, o)
    ensures WellOrdered(h, o)
  {
    hide Owners, Claims, Distinct, Missing;
    EnabledDistinct(listing);
    if o.Ordered? {
      var deps :| IsGraph(Enabled(listing), services, deps) && IsLeastOrder(deps, o.order);
      forall i | 0 <= i < |o.order| ensures o.order[i] in h {
        assert o.order[i] in Elements(o.order);
      }
    }
  }
}
