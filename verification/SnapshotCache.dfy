/** SnapshotCache: a single-flight cache with any number of interleaved get() calls. */
module SnapshotCache {
  import opened Values
  import opened MarketProjection

  /** value and expires; before the first refresh expires is -inf. */
  datatype Cache = Cache(value: Option<Json>, expires: Option<int>)

  /** How the awaited loader ends: with a value, with one of the exceptions get() handles (named by its type;
      a timeout is one), or with one it does not handle, such as cancellation. */
  datatype Loaded = Answer(value: Json) | Handled(error: string) | Escapes

  predicate Valid(value: Json) {
    value.Obj? && "agents" in value.fields && value.fields["agents"].Arr?
  }

  predicate Current(c: Cache, clock: int) {
    c.value.Some? && c.expires.Some? && clock < c.expires.value
  }

  /** The previous value, marked as not refreshed. */
  function Degraded(value: Option<Json>, error: string): Json {
    var previous := if value.Some? && Truthy(value.value) && value.value.Obj? then value.value.fields
                    else map["agents" := Arr([]), "observed_at" := Null];
    Obj(previous["refresh_error" := Str(error)]["endpoint_reachable" := Bool(false)])
  }

  function Refreshed(c: Cache, loaded: Loaded, clock: int, ttl: int): Cache {
    match loaded
    case Answer(value) => Cache(Some(if Valid(value) then value else Degraded(c.value, "TypeError")), Some(clock + ttl))
    case Handled(error) => Cache(Some(Degraded(c.value, error)), Some(clock + ttl))
    case Escapes => c
  }

  class SnapshotCache {
    const ttl: int
    var value: Option<Json>
    var expires: Option<int>

    constructor (ttl: int)
      ensures this.ttl == ttl && State() == Cache(None, None)
    {
      this.ttl := ttl;
      value, expires := None, None;
    }

    function State(): Cache
      reads this
    {
      Cache(value, expires)
    }

    /** The look-up, made once before the lock and once under it. */
    method Peek(clock: int) returns (hit: Option<Json>)
      ensures hit == if Current(State(), clock) then value else None
    {
      hit := None;
      if value.Some? && expires.Some? {
        if clock < expires.value {
          hit := value;
        }
      }
    }

    /** What happens under the lock once the loader has ended; None is an exception that escapes. */
    method Settle(loaded: Loaded, clock: int) returns (result: Option<Json>)
      modifies this
      ensures State() == Refreshed(old(State()), loaded, clock, ttl)
      ensures result == if loaded.Escapes? then None else value
    {
      if loaded.Escapes? {
        return None;
      }
      if loaded.Answer? && Valid(loaded.value) {
        value := Some(loaded.value);
      } else {
        value := Some(Degraded(value, if loaded.Answer? then "TypeError" else loaded.error));
      }
      expires := Some(clock + ttl);
      result := value;
    }

    /** get() for a caller that never waits for the lock: it is asked at one time and its loader, if any, ends later. */
    method Get(asked: int, loaded: Loaded, ended: int) returns (result: Option<Json>)
      modifies this
      ensures State() == if Current(old(State()), asked) then old(State())
                         else Refreshed(old(State()), loaded, ended, ttl)
      ensures result == if !Current(old(State()), asked) && loaded.Escapes? then None else value
    {
      result := Peek(asked);
      if result.None? {
        result := Settle(loaded, ended);
      }
    }
  }

  // ---------------------------------------------------------------- interleaved calls

  datatype Client = Outside | Waiting | Loading

  /** History, which nothing reads: a loader start with the time the last handled refresh had finished, and a
      returned value with the last successful load and whether the last handled refresh had failed. */
  datatype Start = Start(at: int, lastSettled: Option<int>)
  datatype Return = Return(value: Json, good: Option<Json>, failed: bool)

  datatype World = World(
    cache: Cache, clock: int, holder: Option<nat>, clients: seq<Client>,
    good: Option<Json>, failed: bool, settled: Option<int>, starts: seq<Start>, returns_: seq<Return>)

  datatype Action =
    | Tick(seconds: nat)
    | Get(client: nat)
    | Acquire(client: nat)
    | Finish(client: nat, loaded: Loaded)
    | Cancel(client: nat)

  function Give(w: World, c: nat): World
    requires c < |w.clients| && w.cache.value.Some?
  {
    w.(clients := w.clients[c := Outside], returns_ := w.returns_ + [Return(w.cache.value.value, w.good, w.failed)])
  }

  /** The refresh made by client c ends. */
  function End(ttl: int, w: World, c: nat, loaded: Loaded): World
    requires c < |w.clients|
  {
    var cache := Refreshed(w.cache, loaded, w.clock, ttl);
    var good := loaded.Answer? && Valid(loaded.value);
    if loaded.Escapes? then w.(clients := w.clients[c := Outside], holder := None)
    else Give(w.(cache := cache, holder := None, good := if good then Some(loaded.value) else w.good, failed := !good,
                 settled := Some(w.clock)), c)
  }

  function Apply(ttl: int, w: World, a: Action): World {
    match a
    case Tick(seconds) => w.(clock := w.clock + seconds)
    case Get(c) =>
      if c < |w.clients| && w.clients[c].Outside? then
        if Current(w.cache, w.clock) then Give(w, c) else w.(clients := w.clients[c := Waiting])
      else w
    case Acquire(c) =>
      if c < |w.clients| && w.clients[c].Waiting? && w.holder == None then
        if Current(w.cache, w.clock) then Give(w, c)
        else w.(clients := w.clients[c := Loading], holder := Some(c), starts := w.starts + [Start(w.clock, w.settled)])
      else w
    case Finish(c, loaded) => if c < |w.clients| && w.clients[c].Loading? then End(ttl, w, c, loaded) else w
    case Cancel(c) =>
      if c < |w.clients| && w.clients[c].Waiting? then w.(clients := w.clients[c := Outside])
      else if c < |w.clients| && w.clients[c].Loading? then End(ttl, w, c, Escapes)
      else w
  }

  function Run(ttl: int, w: World, as_: seq<Action>): World
    decreases |as_|
  {
    if as_ == [] then w else Apply(ttl, Run(ttl, w, as_[..|as_| - 1]), as_[|as_| - 1])
  }

  ghost predicate Init(w: World) {
    && w.cache == Cache(None, None) && w.holder == None && w.good == None && w.settled == None && !w.failed
    && w.starts == [] && w.returns_ == [] && forall i | 0 <= i < |w.clients| :: w.clients[i].Outside?
  }

  /** The agents and observed_at of the last successful load, or none of either. */
  predicate Carries(value: Json, good: Option<Json>) {
    && GetOrNull(value, "agents") == (if good.Some? then GetOrNull(good.value, "agents") else Arr([]))
    && GetOrNull(value, "observed_at") == if good.Some? then GetOrNull(good.value, "observed_at") else Null
  }

  predicate MarkedStale(value: Json) {
    GetOrNull(value, "endpoint_reachable") == Bool(false)
  }

  predicate Honest(value: Json, good: Option<Json>, failed: bool) {
    && Valid(value) && Carries(value, good)
    && (failed ==> MarkedStale(value)) && (!failed ==> good == Some(value))
  }

  predicate SpacedBy(ttl: int, s: Start) {
    s.lastSettled.Some? ==> s.lastSettled.value + ttl <= s.at
  }

  /** At most one loader, spaced starts, honest values. */
  ghost predicate Inv(ttl: int, w: World) {
    && (forall i | 0 <= i < |w.clients| :: w.clients[i].Loading? <==> w.holder == Some(i))
    && (w.cache.value.Some? <==> w.settled.Some?)
    && w.cache.expires == (if w.settled.Some? then Some(w.settled.value + ttl) else None)
    && (if w.cache.value.Some? then Honest(w.cache.value.value, w.good, w.failed) else w.good == None)
    && (forall s | s in w.starts :: SpacedBy(ttl, s))
    && (forall r | r in w.returns_ :: Honest(r.value, r.good, r.failed))
  }

  lemma DegradedHonest(c: Cache, good: Option<Json>, failed: bool, error: string)
    requires if c.value.Some? then Honest(c.value.value, good, failed) else good == None
    ensures Honest(Degraded(c.value, error), good, true)
  {
  }

  lemma GiveKeepsInv(ttl: int, w: World, c: nat)
    requires Inv(ttl, w) && c < |w.clients| && w.cache.value.Some? && !w.clients[c].Loading?
    ensures Inv(ttl, Give(w, c))
  {
    hide Honest, SpacedBy;
  }

  lemma EndKeepsInv(ttl: int, w: World, c: nat, loaded: Loaded)
    requires Inv(ttl, w) && c < |w.clients| && w.clients[c].Loading?
    ensures Inv(ttl, End(ttl, w, c, loaded))
  {
    hide Honest, SpacedBy, Degraded, Valid;
    if loaded.Answer? && Valid(loaded.value) {
      AnswerHonest(loaded.value);
    } else if !loaded.Escapes? {
      DegradedHonest(w.cache, w.good, w.failed, if loaded.Answer? then "TypeError" else loaded.error);
    }
  }

  lemma AnswerHonest(value: Json)
    requires Valid(value)
    ensures Honest(value, Some(value), false)
  {
  }

  lemma ApplyKeepsInv(ttl: int, w: World, a: Action)
    requires Inv(ttl, w)
    ensures Inv(ttl, Apply(ttl, w, a))
  {
    hide Honest;
    match a
    case Get(c) =>
      if c < |w.clients| && w.clients[c].Outside? && Current(w.cache, w.clock) {
        GiveKeepsInv(ttl, w, c);
      }
    case Acquire(c) =>
      if c < |w.clients| && w.clients[c].Waiting? && w.holder == None && Current(w.cache, w.clock) {
        GiveKeepsInv(ttl, w, c);
      }
    case Finish(c, loaded) =>
      if c < |w.clients| && w.clients[c].Loading? {
        EndKeepsInv(ttl, w, c, loaded);
      }
    case Cancel(c) =>
      if c < |w.clients| && w.clients[c].Loading? {
        EndKeepsInv(ttl, w, c, Escapes);
      }
    case Tick(_) =>
  }

  /** MAIN RESULT, over every interleaving of get() calls: at most one loader runs, a loader starts no sooner than ttl
      after the last handled refresh finished, and every returned value carries the agents and observed_at of the
      last successful load, marked when the last handled refresh failed. */
  lemma {:induction false} RunKeepsInv(ttl: int, w: World, as_: seq<Action>)
    requires Init(w)
    ensures var u := Run(ttl, w, as_);
            && Inv(ttl, u)
            && (forall i, j | 0 <= i < j < |u.clients| :: !(u.clients[i].Loading? && u.clients[j].Loading?))
            && (forall s | s in u.starts :: SpacedBy(ttl, s))
            && (forall r | r in u.returns_ :: Carries(r.value, r.good))
    decreases |as_|
  {
    hide Apply, SpacedBy, Carries, MarkedStale, Valid;
    if as_ != [] {
      RunKeepsInv(ttl, w, as_[..|as_| - 1]);
      ApplyKeepsInv(ttl, Run(ttl, w, as_[..|as_| - 1]), as_[|as_| - 1]);
    }
  }

  /** MAIN RESULT. In every run, a value returned after a failed refresh offers no listing to hire, at
        any later time. */
  lemma NothingHireableAfterFailure(ttl: int, w: World, as_: seq<Action>, r: Return, tools: Tools, now: int)
    requires Init(w) && r in Run(ttl, w, as_).returns_ && r.failed
    ensures forall row | row in Listings(tools, r.value, now) :: !row.hireable
  {
    hide Listings, Carries, Run, Valid;
    RunKeepsInv(ttl, w, as_);
    forall row | row in Listings(tools, r.value, now) ensures !row.hireable {
      if row.hireable {
        HireableOnlyWhenLive(tools, r.value, now, row);
        assert false;
      }
    }
  }

  /** MAIN RESULT, over every interleaving: get() answers at once, without a loader, exactly while the last handled
      refresh is less than ttl old; otherwise the caller waits. */
  lemma ServedWhileCurrent(ttl: int, w: World, as_: seq<Action>, c: nat)
    requires Init(w) && c < |Run(ttl, w, as_).clients| && Run(ttl, w, as_).clients[c].Outside?
    ensures var u := Run(ttl, w, as_); var v := Apply(ttl, u, Get(c));
            && v.starts == u.starts && v.cache == u.cache
            && if u.settled.Some? && u.clock < u.settled.value + ttl
               then v.clients == u.clients && |v.returns_| == |u.returns_| + 1
               else v.clients == u.clients[c := Waiting] && v.returns_ == u.returns_
  {
    hide Run, Honest, SpacedBy, Carries;
    RunKeepsInv(ttl, w, as_);
  }

  /** MAIN RESULT. After a failed refresh the previous value stays as it was, but for the name of the error and the mark
      that the endpoint was not reached; without a previous value there are no agents and no observation. */
  lemma DegradedKeeps(previous: Option<Json>, error: string, key: string)
    requires previous.Some? ==> Valid(previous.value)
    ensures var now := Degraded(previous, error);
            GetOrNull(now, key)
            == if key == "endpoint_reachable" then Bool(false)
               else if key == "refresh_error" then Str(error)
               else if previous.Some? then GetOrNull(previous.value, key)
               else if key == "agents" then Arr([]) else Null
  {
    assert "endpoint_reachable" != "refresh_error" by {
      assert "endpoint_reachable"[0] != "refresh_error"[0];
    }
  }

  /** What a client does in one step. */
  predicate Turns(u: World, v: World, c: nat, from: Client, to: Client) {
    c < |u.clients| && c < |v.clients| && u.clients[c] == from && v.clients[c] == to
  }

  /** The history is true: a step records a start, with the time and the last handled refresh, exactly when a client's
      loader starts; and it records a returned value, that of the cache, exactly when a client leaves get() with it. */
  lemma HistoryIsTrue(ttl: int, w: World, as_: seq<Action>, a: Action)
    requires Init(w)
    ensures var u, v := Run(ttl, w, as_), Apply(ttl, Run(ttl, w, as_), a);
            && v.starts == (if exists c :: Turns(u, v, c, Waiting, Loading)
                            then u.starts + [Start(u.clock, u.settled)] else u.starts)
            && (v.returns_ == u.returns_
                || (v.cache.value.Some? && v.returns_ == u.returns_ + [Return(v.cache.value.value, v.good, v.failed)]))
            && (a.Finish? && !a.loaded.Escapes? && Turns(u, v, a.client, Loading, Outside) ==> v.returns_ != u.returns_)
            && (a.Acquire? && Turns(u, v, a.client, Waiting, Outside) ==> v.returns_ != u.returns_)
  {
    hide Run, Inv, Degraded, Valid;
    var u, v := Run(ttl, w, as_), Apply(ttl, Run(ttl, w, as_), a);
    if a.Acquire? && Turns(u, v, a.client, Waiting, Loading) {
      assert v.starts == u.starts + [Start(u.clock, u.settled)];
    }
  }
}
