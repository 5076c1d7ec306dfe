/** QuoteGateway.quote: a circuit breaker per agent over a failure counter and an open-until time. */
module QuoteBreaker {
  import opened Values

  // ---------------------------------------------------------------- routes

  datatype Provider = Provider(agentRef: string, category: string, enabled: bool)

  /** ProviderCatalog's check on the manifest. */
  predicate DistinctRoutes(providers: seq<Provider>) {
    forall i, j | 0 <= i < j < |providers| :: providers[i].agentRef != providers[j].agentRef
  }

  predicate Matches(p: Provider, agentRef: string, category: string) {
    p.agentRef == agentRef && p.category == category
  }

  /** select(); None is the ValueError. */
  function Select(providers: seq<Provider>, agentRef: string, category: string): (found: Option<Provider>)
    ensures found.None? <==> forall p | p in providers :: !Matches(p, agentRef, category)
    ensures found.Some? ==> found.value in providers && Matches(found.value, agentRef, category)
  {
    if providers == [] then None
    else if Matches(providers[0], agentRef, category) then Some(providers[0])
    else Select(providers[1..], agentRef, category)
  }

  /** The route found does not depend on where the manifest lists it. */
  lemma SelectIndependentOfListing(providers: seq<Provider>, listing: seq<Provider>, agentRef: string, category: string)
    requires DistinctRoutes(providers) && multiset(listing) == multiset(providers)
    ensures Select(listing, agentRef, category) == Select(providers, agentRef, category)
  {
    forall p ensures p in listing <==> p in providers {
      assert p in multiset(listing) <==> p in multiset(providers);
    }
  }

  /** MAIN RESULT. The route found is the one of that agent in that category. */
  lemma SelectIff(providers: seq<Provider>, agentRef: string, category: string, p: Provider)
    requires DistinctRoutes(providers)
    ensures Select(providers, agentRef, category) == Some(p)
            <==> p in providers && p.agentRef == agentRef && p.category == category
  {
    if p in providers && p.agentRef == agentRef && p.category == category {
      assert Matches(p, agentRef, category);
    }
  }

  // ---------------------------------------------------------------- the breaker

  const WAIT := 30
  const LIMIT := 3

  /** failures.get(agent_ref): the count and the time until which the circuit is open; a missing entry reads (0, 0). */
  datatype Entry = Entry(count: nat, until: int)

  const FRESH := Entry(0, 0)

  /** The clock is read twice before the attempt: when the quote is asked for, and when it is started. */
  predicate Refuses(e: Entry, asked: int) {
    e.count >= LIMIT && asked < e.until
  }

  /** The count a quote continues from. */
  function Carried(e: Entry, started: int): nat {
    if started >= e.until then 0 else e.count
  }

  /** How an attempt ends: quoted, with an exception the gateway counts, or with one it does not handle. */
  datatype Outcome = Quoted | Failed | Escaped

  /** The entry after an attempt; None is no entry. */
  function Recorded(before: Option<Entry>, carried: nat, outcome: Outcome, ended: int): Option<Entry> {
    match outcome
    case Quoted => None
    case Failed => Some(Entry(carried + 1, ended + WAIT))
    case Escaped => before
  }

  function Lookup(e: Option<Entry>): Entry {
    if e.Some? then e.value else FRESH
  }

  class QuoteGateway {
    var failures: map<string, Entry>

    constructor ()
      ensures failures == map[]
    {
      failures := map[];
    }

    function EntryOf(agent: string): Option<Entry>
      reads this
    {
      if agent in failures then Some(failures[agent]) else None
    }

    /** The part of quote() before the attempt; None is the refusal. */
    method Open(agent: string, asked: int, started: int) returns (carried: Option<nat>)
      ensures carried == if Refuses(Lookup(EntryOf(agent)), asked)
                         then None else Some(Carried(Lookup(EntryOf(agent)), started))
    {
      var entry := if agent in failures then failures[agent] else FRESH;
      if entry.count >= LIMIT && asked < entry.until {
        return None;
      }
      var count := entry.count;
      if started >= entry.until {
        count := 0;
      }
      carried := Some(count);
    }

    /** The part after it: other agents keep their entries. */
    method Close(agent: string, carried: nat, outcome: Outcome, ended: int)
      modifies this
      ensures EntryOf(agent) == Recorded(old(EntryOf(agent)), carried, outcome, ended)
      ensures forall other | other != agent :: EntryOf(other) == old(EntryOf(other))
    {
      match outcome
      case Quoted => failures := failures - {agent};
      case Failed => failures := failures[agent := Entry(carried + 1, ended + WAIT)];
      case Escaped =>
    }

    /** quote() with its checks on the route and the snapshot, none of which touches the counters; None is a refusal
        before any attempt. */
    method RequestQuote(providers: seq<Provider>, agent: string, category: string, snapshotFresh: bool, q: Quote)
      returns (outcome: Option<Outcome>)
      modifies this
      ensures var routed := snapshotFresh && Select(providers, agent, category).Some?
              && Select(providers, agent, category).value.enabled;
              && (outcome.Some? <==> routed && !Refuses(Lookup(old(EntryOf(agent))), q.asked))
              && (outcome.Some? ==> outcome.value == q.outcome)
              && EntryOf(agent) == if routed then Step(Gateway(old(EntryOf(agent)), []), q).entry
                                      else old(EntryOf(agent))
      ensures forall other | other != agent :: EntryOf(other) == old(EntryOf(other))
    {
      var provider := Select(providers, agent, category);
      if provider.None? || !provider.value.enabled || !snapshotFresh {
        return None;
      }
      var refused := Ask(agent, q);
      outcome := if refused then None else Some(q.outcome);
    }

    /** The rest of quote() when no other quote to the agent is under way. */
    method Ask(agent: string, q: Quote) returns (refused: bool)
      modifies this
      ensures refused <==> Refuses(Lookup(old(EntryOf(agent))), q.asked)
      ensures EntryOf(agent) == Step(Gateway(old(EntryOf(agent)), []), q).entry
      ensures forall other | other != agent :: EntryOf(other) == old(EntryOf(other))
    {
      var carried := Open(agent, q.asked, q.started);
      refused := carried.None?;
      if !refused {
        Close(agent, carried.value, q.outcome, q.ended);
      }
    }
  }

  // ---------------------------------------------------------------- serialised quotes to one agent

  datatype Quote = Quote(asked: int, started: int, ended: int, outcome: Outcome)

  /** An attempt that was made and counted. */
  datatype Attempt = Attempt(started: int, ended: int, failed: bool)

  datatype Gateway = Gateway(entry: Option<Entry>, attempts: seq<Attempt>)

  function Step(g: Gateway, q: Quote): Gateway {
    var e := Lookup(g.entry);
    if Refuses(e, q.asked) then g
    else Gateway(Recorded(g.entry, Carried(e, q.started), q.outcome, q.ended),
                 if q.outcome.Escaped? then g.attempts
                 else g.attempts + [Attempt(q.started, q.ended, q.outcome.Failed?)])
  }

  function Serve(quotes: seq<Quote>): Gateway {
    if quotes == [] then Gateway(None, []) else Step(Serve(quotes[..|quotes| - 1]), quotes[|quotes| - 1])
  }

  /** One quote at a time, on a clock that starts at or after zero. */
  predicate Serialised(quotes: seq<Quote>) {
    && (forall i | 0 <= i < |quotes| :: 0 <= quotes[i].asked <= quotes[i].started <= quotes[i].ended)
    && (forall i | 0 < i < |quotes| :: quotes[i - 1].ended <= quotes[i].asked)
  }

  /** Attempt n failed and started less than 30 seconds after a failed attempt just before it. */
  predicate Follows(h: seq<Attempt>, n: nat)
    requires n < |h|
  {
    0 < n && h[n].failed && h[n - 1].failed && h[n].started < h[n - 1].ended + WAIT
  }

  /** How many of the first n attempts failed in such a row at their end. */
  function Streak(h: seq<Attempt>, n: nat): nat
    requires n <= |h|
  {
    if n == 0 || !h[n - 1].failed then 0 else if Follows(h, n - 1) then 1 + Streak(h, n - 1) else 1
  }

  /** The last three attempts failed, each started less than 30 seconds after the failure before it, and the last
      failure is less than 30 seconds old. */
  predicate Tripped(h: seq<Attempt>, now: int) {
    var n := |h|;
    && n >= 3 && h[n - 1].failed && h[n - 2].failed && h[n - 3].failed
    && h[n - 1].started < h[n - 2].ended + 30 && h[n - 2].started < h[n - 3].ended + 30
    && now < h[n - 1].ended + 30
  }

  ghost predicate Inv(g: Gateway, quotes: seq<Quote>) {
    var h := g.attempts;
    && (g.entry.None? <==> h == [] || !h[|h| - 1].failed)
    && (g.entry.Some? ==> g.entry.value == Entry(Streak(h, |h|), h[|h| - 1].ended + WAIT))
    && (forall i | 0 <= i < |h| :: 0 <= h[i].started <= h[i].ended)
    && (forall i | 0 < i < |h| :: h[i - 1].ended <= h[i].started)
    && (h != [] ==> quotes != [] && h[|h| - 1].ended <= quotes[|quotes| - 1].ended)
    && (forall n | 0 <= n <= |h| :: Streak(h, n) <= LIMIT)
  }

  lemma StepKeepsInv(g: Gateway, quotes: seq<Quote>)
    requires quotes != [] && Serialised(quotes) && Inv(g, quotes[..|quotes| - 1])
    ensures Inv(Step(g, quotes[|quotes| - 1]), quotes)
  {
    hide Streak;
    var q, h, u := quotes[|quotes| - 1], g.attempts, Step(g, quotes[|quotes| - 1]);
    assert h != [] ==> h[|h| - 1].ended <= quotes[|quotes| - 2].ended <= q.asked;
    if !Refuses(Lookup(g.entry), q.asked) && !q.outcome.Escaped? {
      var a := u.attempts[|h|];
      StreakGrows(h, a);
      forall n | 0 <= n <= |h| + 1 ensures Streak(h + [a], n) <= LIMIT {
        if n <= |h| {
          StreakPrefix(h, a, n);
        }
      }
    } else {
      assert u == g;
    }
  }

  lemma {:induction false} StreakPrefix(h: seq<Attempt>, a: Attempt, n: nat)
    requires n <= |h|
    ensures Streak(h + [a], n) == Streak(h, n)
    decreases n
  {
    if n > 0 {
      StreakPrefix(h, a, n - 1);
    }
  }

  lemma StreakGrows(h: seq<Attempt>, a: Attempt)
    ensures var all := h + [a];
            Streak(all, |all|) == if !a.failed then 0
                                  else if h != [] && h[|h| - 1].failed && a.started < h[|h| - 1].ended + WAIT
                                  then Streak(h, |h|) + 1 else 1
  {
    StreakPrefix(h, a, |h|);
  }

  lemma {:induction false} ServeKeepsInv(quotes: seq<Quote>)
    requires Serialised(quotes)
    ensures Inv(Serve(quotes), quotes)
  {
    hide Step;
    if quotes != [] {
      var before := quotes[..|quotes| - 1];
      assert forall i | 0 <= i < |before| :: before[i] == quotes[i];
      ServeKeepsInv(before);
      StepKeepsInv(Serve(before), quotes);
    }
  }

  lemma StreakOfThree(h: seq<Attempt>)
    ensures Streak(h, |h|) >= 3 <==> |h| >= 3 && h[|h| - 1].failed && Follows(h, |h| - 1) && Follows(h, |h| - 2)
  {
    if |h| >= 2 {
      assert Follows(h, |h| - 2) ==> Streak(h, |h| - 2) >= 1;
    }
  }

  /** MAIN RESULT. After any serialised quotes to an agent the breaker refuses exactly when the last three attempts
      failed, each started under 30 s after the previous failure, and the last failure is under 30 s old. */
  lemma RefusesExactlyWhenTripped(quotes: seq<Quote>, asked: int)
    requires Serialised(quotes)
    ensures Refuses(Lookup(Serve(quotes).entry), asked) <==> Tripped(Serve(quotes).attempts, asked)
  {
    hide Serve, Streak, Serialised;
    ServeKeepsInv(quotes);
    StreakOfThree(Serve(quotes).attempts);
  }

  /** Among any three steps from one attempt to the next, one waits 30 seconds. */
  lemma SomeGap(h: seq<Attempt>, i: nat)
    requires i + 3 < |h| && (forall k | 0 <= k < |h| :: h[k].failed) && Streak(h, i + 4) <= LIMIT
    ensures exists k | i <= k < i + 3 :: h[k].ended + WAIT <= h[k + 1].started
  {
    NoGapGrows(h, i);
    NoGapGrows(h, i + 1);
    NoGapGrows(h, i + 2);
  }

  lemma NoGapGrows(h: seq<Attempt>, k: nat)
    requires k + 1 < |h| && h[k].failed && h[k + 1].failed
    ensures Streak(h, k + 1) >= 1
    ensures h[k + 1].started < h[k].ended + WAIT ==> Streak(h, k + 2) == Streak(h, k + 1) + 1
  {
  }

  lemma {:induction false} StartsOrdered(h: seq<Attempt>, i: nat, j: nat)
    requires i <= j < |h| && (forall k | 0 <= k < |h| :: h[k].started <= h[k].ended)
    requires forall k | 0 < k < |h| :: h[k - 1].ended <= h[k].started
    ensures h[i].started <= h[j].started
    decreases j
  {
    if i < j {
      StartsOrdered(h, i, j - 1);
    }
  }

  /** MAIN RESULT. Against a provider that always fails, no window of 30 seconds contains the starts of more than
      three attempts. */
  lemma AtMostThreePerWindow(quotes: seq<Quote>, i: nat)
    requires Serialised(quotes) && i + 3 < |Serve(quotes).attempts|
    requires forall k | 0 <= k < |Serve(quotes).attempts| :: Serve(quotes).attempts[k].failed
    ensures Serve(quotes).attempts[i].started + 30 <= Serve(quotes).attempts[i + 3].started
  {
    hide Serve, Streak, Serialised;
    ServeKeepsInv(quotes);
    var h := Serve(quotes).attempts;
    SomeGap(h, i);
    var k :| i <= k < i + 3 && h[k].ended + WAIT <= h[k + 1].started;
    StartsOrdered(h, i, k);
    StartsOrdered(h, k + 1, i + 3);
  }
}
