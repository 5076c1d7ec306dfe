/** Quotes to one agent that overlap: quote() as two steps, between which other quotes may run. */
module QuoteOverlap {
  import opened Values
  import opened QuoteBreaker

  /** A client is outside quote(), or its attempt is under way with the count it continues from. */
  datatype Client = Free | Trying(carried: nat)

  /** `starts` counts attempts, for stating properties; nothing reads it. */
  datatype World = World(entry: Option<Entry>, clock: int, clients: seq<Client>, starts: nat)

  datatype Action =
    | Tick(seconds: nat)
    | Begin(client: nat)
    | End(client: nat, outcome: Outcome)

  function Apply(w: World, a: Action): World {
    match a
    case Tick(seconds) => w.(clock := w.clock + seconds)
    case Begin(c) =>
      if c < |w.clients| && w.clients[c].Free? && !Refuses(Lookup(w.entry), w.clock) then
        w.(clients := w.clients[c := Trying(Carried(Lookup(w.entry), w.clock))], starts := w.starts + 1)
      else w
    case End(c, outcome) =>
      if c < |w.clients| && w.clients[c].Trying? then
        w.(clients := w.clients[c := Free], entry := Recorded(w.entry, w.clients[c].carried, outcome, w.clock))
      else w
  }

  function Run(w: World, as_: seq<Action>): World
    decreases |as_|
  {
    if as_ == [] then w else Apply(Run(w, as_[..|as_| - 1]), as_[|as_| - 1])
  }

  predicate Init(w: World) {
    w.entry == None && 0 <= w.clock && w.starts == 0
    && forall i | 0 <= i < |w.clients| :: w.clients[i] == Free
  }

  /** An attempt under way continues from less than the limit. */
  predicate Modest(clients: seq<Client>) {
    forall i | 0 <= i < |clients| :: clients[i].Trying? ==> clients[i].carried < LIMIT
  }

  lemma {:induction false} RunIsModest(w: World, as_: seq<Action>)
    requires Init(w)
    ensures Modest(Run(w, as_).clients) && |Run(w, as_).clients| == |w.clients|
    decreases |as_|
  {
    if as_ != [] {
      RunIsModest(w, as_[..|as_| - 1]);
    }
  }

  // ---------------------------------------------------------------- a bound in the number of overlapping quotes

  /** How many further starts the end of an attempt that carries c can lead to, with m clients: its failure sets the
      counter to c + 1, from which every client may start once. */
  function Worth(m: nat, c: nat): nat {
    if c == 0 then m * (1 + m) else if c == 1 then m else 0
  }

  function Pending(m: nat, clients: seq<Client>): nat {
    if clients == [] then 0
    else
      var last := clients[|clients| - 1];
      Pending(m, clients[..|clients| - 1]) + if last.Trying? then Worth(m, last.carried) else 0
  }

  function Idle(clients: seq<Client>): (n: nat)
    ensures n <= |clients|
  {
    if clients == [] then 0 else Idle(clients[..|clients| - 1]) + if clients[|clients| - 1].Free? then 1 else 0
  }

  lemma {:induction false} SumsMove(m: nat, clients: seq<Client>, c: nat, next: Client)
    requires c < |clients|
    ensures Pending(m, clients[c := next])
            == Pending(m, clients) - (if clients[c].Trying? then Worth(m, clients[c].carried) else 0)
               + if next.Trying? then Worth(m, next.carried) else 0
    ensures Idle(clients[c := next])
            == Idle(clients) - (if clients[c].Free? then 1 else 0) + if next.Free? then 1 else 0
  {
    hide Worth;
    var n := |clients| - 1;
    if c == n {
      assert clients[c := next][..n] == clients[..n];
    } else {
      assert clients[c := next][..n] == clients[..n][c := next];
      SumsMove(m, clients[..n], c, next);
    }
  }

  /** What one idle client can still start while the counter stands as it does: until a failure has ended in the
      window, the entry may expire, which is worth most. */
  function Chance(m: nat, w: World, ended: bool): nat {
    if !ended then 1 + Worth(m, 0)
    else if Lookup(w.entry).count < LIMIT then 1 + Worth(m, Lookup(w.entry).count) else 0
  }

  /** All the starts still possible before `end`. */
  function Potential(m: nat, w: World, ended: bool): nat {
    Pending(m, w.clients) + Idle(w.clients) * Chance(m, w, ended)
  }

  /** Once a failure has ended in the window the entry does not expire before the window does. */
  predicate Holds(w: World, end: int, ended: bool) {
    Modest(w.clients) && (ended ==> w.entry.Some? && w.entry.value.count >= 1 && end <= w.entry.value.until)
  }

  predicate Failing(a: Action) {
    a.End? ==> a.outcome.Failed?
  }

  predicate EndsAttempt(w: World, a: Action) {
    a.End? && a.client < |w.clients| && w.clients[a.client].Trying?
  }

  lemma WorthFalls(m: nat, c: nat)
    requires c < LIMIT
    ensures Worth(m, c) <= Worth(m, 0)
    ensures c + 1 < LIMIT ==> m * (1 + Worth(m, c + 1)) == Worth(m, c)
  {
  }

  lemma Fewer(idle: nat, chance: nat)
    requires 0 < idle
    ensures (idle - 1) * chance == idle * chance - chance
  {
  }

  lemma AtMost(idle: nat, m: nat, chance: nat)
    requires idle <= m
    ensures 0 <= idle * chance <= m * chance
  {
    assert (m - idle) * chance >= 0;
  }

  /** What a start captures: a count below the limit, and the one that stands if the entry cannot have expired. */
  lemma BeginCaptures(w: World, c: nat, end: int, ended: bool)
    requires Holds(w, end, ended) && w.clock < end && c < |w.clients| && w.clients[c].Free?
    requires !Refuses(Lookup(w.entry), w.clock)
    ensures var carried := Carried(Lookup(w.entry), w.clock);
            carried < LIMIT && (ended ==> carried == Lookup(w.entry).count)
  {
  }

  lemma BeginUsesPotential(w: World, c: nat, end: int, ended: bool)
    requires Holds(w, end, ended) && w.clock < end && c < |w.clients| && w.clients[c].Free?
    requires !Refuses(Lookup(w.entry), w.clock)
    ensures var u, m := Apply(w, Begin(c)), |w.clients|;
            Holds(u, end, ended) && u.starts + Potential(m, u, ended) <= w.starts + Potential(m, w, ended)
  {
    hide Worth, Pending, Idle, Refuses;
    var m, u := |w.clients|, Apply(w, Begin(c));
    var carried := Carried(Lookup(w.entry), w.clock);
    BeginCaptures(w, c, end, ended);
    SumsMove(m, w.clients, c, Trying(carried));
    WorthFalls(m, carried);
    Fewer(Idle(w.clients), Chance(m, w, ended));
  }

  lemma EndUsesPotential(w: World, c: nat, end: int, ended: bool)
    requires Holds(w, end, ended) && end <= w.clock + WAIT && c < |w.clients| && w.clients[c].Trying?
    ensures var u, m := Apply(w, End(c, Failed)), |w.clients|;
            Holds(u, end, true) && u.starts + Potential(m, u, true) <= w.starts + Potential(m, w, ended)
  {
    hide Worth, Pending, Idle;
    var m, u, carried := |w.clients|, Apply(w, End(c, Failed)), w.clients[c].carried;
    SumsMove(m, w.clients, c, Free);
    WorthFalls(m, carried);
    AtMost(Idle(u.clients), m, Chance(m, u, true));
    AtMost(0, Idle(w.clients), Chance(m, w, ended));
  }

  /** Each start uses up potential; nothing adds to it. */
  lemma StepUsesPotential(w: World, a: Action, end: int, ended: bool)
    requires Holds(w, end, ended) && Failing(a) && Apply(w, a).clock < end <= w.clock + WAIT
    ensures var u, later, m := Apply(w, a), ended || EndsAttempt(w, a), |w.clients|;
            && |u.clients| == m && Holds(u, end, later)
            && u.starts + Potential(m, u, later) <= w.starts + Potential(m, w, ended)
  {
    hide Pending, Idle, Worth, Refuses, Potential;
    if a.Begin? && a.client < |w.clients| && w.clients[a.client].Free? && !Refuses(Lookup(w.entry), w.clock) {
      BeginUsesPotential(w, a.client, end, ended);
    } else if EndsAttempt(w, a) {
      EndUsesPotential(w, a.client, end, ended);
    } else if a.Tick? {
      SamePotential(w, Apply(w, a), ended);
    }
  }

  lemma SamePotential(w: World, u: World, ended: bool)
    requires u.clients == w.clients && u.entry == w.entry
    ensures forall m :: Potential(m, u, ended) == Potential(m, w, ended)
  {
  }

  /** The starts of a stretch of actions, all of whose attempts fail. */
  lemma {:induction false} RunUsesPotential(w: World, as_: seq<Action>, end: int) returns (ended: bool)
    requires Modest(w.clients) && end == w.clock + WAIT && Run(w, as_).clock < end
    requires forall i | 0 <= i < |as_| :: Failing(as_[i])
    ensures var u, m := Run(w, as_), |w.clients|;
            && |u.clients| == m && Holds(u, end, ended) && w.clock <= u.clock
            && u.starts + Potential(m, u, ended) <= w.starts + Potential(m, w, false)
    decreases |as_|
  {
    hide Potential, Refuses;
    if as_ == [] {
      ended := false;
    } else {
      var before, a := as_[..|as_| - 1], as_[|as_| - 1];
      ClockRises(Run(w, before), a);
      var earlier := RunUsesPotential(w, before, end);
      StepUsesPotential(Run(w, before), a, end, earlier);
      ended := earlier || EndsAttempt(Run(w, before), a);
    }
  }

  lemma ClockRises(w: World, a: Action)
    ensures w.clock <= Apply(w, a).clock
  {
  }

  lemma OneMore(n: nat, chance: nat)
    ensures (n + 1) * chance == n * chance + chance
  {
  }

  lemma {:induction false} PotentialAtMost(m: nat, clients: seq<Client>, chance: nat)
    requires Modest(clients) && chance == 1 + Worth(m, 0)
    ensures Pending(m, clients) + Idle(clients) * chance <= |clients| * chance
  {
    hide Worth, Pending, Idle;
    if clients == [] {
      NothingPending(m);
    } else {
      var n, last := |clients| - 1, clients[|clients| - 1];
      PotentialAtMost(m, clients[..n], chance);
      LastClient(m, clients);
      OneMore(n, chance);
      OneMore(Idle(clients[..n]), chance);
      if last.Trying? {
        WorthFalls(m, last.carried);
      }
    }
  }

  lemma NothingPending(m: nat)
    ensures Pending(m, []) == 0 && Idle([]) == 0
  {
  }

  lemma LastClient(m: nat, clients: seq<Client>)
    requires clients != []
    ensures var n, last := |clients| - 1, clients[|clients| - 1];
            && Pending(m, clients) == Pending(m, clients[..n]) + (if last.Trying? then Worth(m, last.carried) else 0)
            && Idle(clients) == Idle(clients[..n]) + if last.Free? then 1 else 0
  {
    hide Worth;
  }

  /** MAIN RESULT. Against a provider that always fails, with at most m quotes to an agent under way at a time, fewer
      than thirty seconds from any reachable state on see at most m + m * m + m * m * m starts. One at a time that is
      the three attempts the breaker is meant to allow. */
  lemma OverlapBoundsAttempts(start: World, before: seq<Action>, as_: seq<Action>)
    requires Init(start) && Run(Run(start, before), as_).clock < Run(start, before).clock + 30
    requires forall i | 0 <= i < |as_| :: Failing(as_[i])
    ensures var m := |start.clients|;
            Run(Run(start, before), as_).starts <= Run(start, before).starts + m + m * m + m * m * m
  {
    hide Run, Pending, Idle;
    RunIsModest(start, before);
    var w, m := Run(start, before), |start.clients|;
    var _ := RunUsesPotential(w, as_, w.clock + WAIT);
    PotentialAtMost(m, w.clients, 1 + Worth(m, 0));
    assert m * (1 + Worth(m, 0)) == m + m * m + m * m * m by {
      Cubed(m);
    }
  }

  lemma Cubed(m: nat)
    ensures m * (1 + m * (1 + m)) == m + m * m + m * m * m
  {
    assert m * (1 + m) == m + m * m;
    assert m * (1 + (m + m * m)) == m + m * m + m * (m * m);
  }

  // ---------------------------------------------------------------- what overlap hides

  /** MAIN RESULT. Three quotes that overlap all end in failure within a second, and the breaker neither refuses nor
      has counted more than one failure: each wrote the count it had started from, plus one. */
  lemma OverlapHidesFailures(w: World) returns (as_: seq<Action>)
    requires Init(w) && |w.clients| == 3
    ensures var u := Run(w, as_);
            && u.starts == 3 && u.clock == w.clock + 1 && (forall i | 0 <= i < |as_| :: Failing(as_[i]))
            && u.clients == [Free, Free, Free]
            && u.entry == Some(Entry(1, u.clock + WAIT)) && !Refuses(Lookup(u.entry), u.clock)
  {
    as_ := [Begin(0), Begin(1), Begin(2), Tick(1), End(0, Failed), End(1, Failed), End(2, Failed)];
    assert Apply(Apply(Apply(w, Begin(0)), Begin(1)), Begin(2))
        == w.(clients := [Trying(0), Trying(0), Trying(0)], starts := 3);
    Unrolled(w, as_);
  }

  lemma Unrolled(w: World, as_: seq<Action>)
    requires |as_| == 7
    ensures Run(w, as_)
            == Apply(Apply(Apply(Apply(Apply(Apply(Apply(w, as_[0]), as_[1]), as_[2]), as_[3]), as_[4]),
               as_[5]), as_[6])
  {
    hide Apply;
    assert as_[..6][..5] == as_[..5] && as_[..5][..4] == as_[..4] && as_[..4][..3] == as_[..3];
    assert as_[..3][..2] == as_[..2] && as_[..2][..1] == as_[..1] && as_[..1][..0] == [];
    assert Run(w, as_[..1]) == Apply(w, as_[0]);
    assert Run(w, as_[..2]) == Apply(Run(w, as_[..1]), as_[1]);
    assert Run(w, as_[..3]) == Apply(Run(w, as_[..2]), as_[2]);
    assert Run(w, as_[..4]) == Apply(Run(w, as_[..3]), as_[3]);
    assert Run(w, as_[..5]) == Apply(Run(w, as_[..4]), as_[4]);
    assert Run(w, as_[..6]) == Apply(Run(w, as_[..5]), as_[5]);
  }
}
