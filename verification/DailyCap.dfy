/** How far a policy's recorded spend can go when executions overlap. */
module DailyCap {
  import opened RiskGate
  import opened ExecutionStore
  import opened ExecutionProtocol
  import opened ExecutionTheorems
  import opened ExecutionResults
  import opened ExecutionMoney

  /** The daily cap when at most k executions are between the gate's spend read and add_spend. */
  function Cap(p: Policy, k: nat): real {
    p.dailyValue + (k as real - 1.0) * p.maxValue
  }

  ghost predicate Capped(w: World, p: string, k: nat) {
    if p !in w.db.policies then forall day :: w.db.SpentOn(p, day) == 0.0
    else
      && (forall day | w.db.SpentOn(p, day) > 0.0 :: w.db.SpentOn(p, day) <= Cap(w.db.policies[p], k))
      && (Total(Heads, w.clients, p) > 0.0 ==> forall day | day >= Day(w.clock) ::
            w.db.SpentOn(p, day) + Total(Flight, w.clients, p) <= Cap(w.db.policies[p], k))
  }

  ghost predicate SameLimits(w: World, u: World, p: string) {
    && (p in w.db.policies <==> p in u.db.policies)
    && (p in w.db.policies ==> w.db.policies[p].maxValue == u.db.policies[p].maxValue
                               && w.db.policies[p].dailyValue == u.db.policies[p].dailyValue)
  }

  /** What the gate has checked about a transaction it admits. */
  ghost predicate Checked(w: World, d: Deed) {
    d.Admits? ==>
      && d.policyId in w.db.policies
      && var p := w.db.policies[d.policyId];
         0.0 <= d.value <= p.maxValue && d.value <= p.dailyValue
         && w.db.SpentOn(d.policyId, Day(w.clock)) + d.value <= p.dailyValue
  }

  lemma GateChecks(cfg: Config, w: World, c: nat, spendWorks: bool)
    requires Inv(cfg, w) && c < |w.clients|
    ensures Checked(w, DeedOf(cfg, w, w.clients[c], spendWorks))
  {
    hide Solitary, RecordOk, Listed;
    var pc := w.clients[c];
    assert ClientOk(cfg, w, pc);
    if pc.ExecuteGate? {
      assert 0.0 <= w.db.SpentOn(pc.task.policyId, Day(w.clock));
    }
  }

  lemma FlightMoves(pc: Client, next: Client, d: Deed, p: string)
    requires Carries(pc, next, d) && 0.0 <= Weight(Flight, pc, p)
    ensures 0.0 <= Weight(Heads, next, p) && (Weight(Heads, next, p) > 0.0 ==> Weight(Heads, next, p) == 1.0)
    ensures d.Admits? && d.policyId == p && Weight(Heads, next, p) > 0.0 ==>
              Weight(Flight, next, p) == d.value && Weight(Flight, pc, p) == Weight(Heads, pc, p) == 0.0
    ensures !(d.Admits? && d.policyId == p && Weight(Heads, next, p) > 0.0) ==>
              Weight(Flight, next, p) <= Weight(Flight, pc, p) && Weight(Heads, next, p) <= Weight(Heads, pc, p)
    ensures d.Pays? && d.policyId == p ==>
              Weight(Flight, next, p) == 0.0 && Weight(Flight, pc, p) == d.value && Weight(Heads, pc, p) == 1.0
  {
    hide InFlight;
  }

  lemma AtMostTheOthers(heads: real, flight: real, most: real, k: nat)
    requires 0.0 <= heads <= k as real - 1.0 && 0.0 <= most && flight <= heads * most
    ensures flight <= (k as real - 1.0) * most
  {
    var gap := k as real - 1.0 - heads;
    assert gap * most >= 0.0;
    assert (k as real - 1.0) * most == (gap + heads) * most == gap * most + heads * most;
  }

  /** The sums over the clients for policy p, before and after client c moves to `next`. */
  ghost predicate Moved(w: World, u: World, c: nat, next: Client, p: string)
    requires c < |w.clients|
  {
    && Total(Flight, u.clients, p)
       == Total(Flight, w.clients, p) - Weight(Flight, w.clients[c], p) + Weight(Flight, next, p)
    && Total(Heads, u.clients, p)
       == Total(Heads, w.clients, p) - Weight(Heads, w.clients[c], p) + Weight(Heads, next, p)
    && 0.0 <= Weight(Flight, w.clients[c], p) <= Total(Flight, w.clients, p)
    && 0.0 <= Weight(Heads, w.clients[c], p) <= Total(Heads, w.clients, p)
    && (p in w.db.policies ==> Total(Flight, w.clients, p) <= Total(Heads, w.clients, p) * w.db.policies[p].maxValue)
    && (p !in w.db.policies ==> Weight(Flight, w.clients[c], p) == 0.0)
  }

  lemma SumsMove(cfg: Config, w: World, u: World, c: nat, next: Client, p: string)
    requires Inv(cfg, w) && c < |w.clients| && u.clients == w.clients[c := next]
    ensures Moved(w, u, c, next, p)
  {
    hide Inv, Weight, Total;
    WeightsPriced(cfg, w, p);
    TotalMove(Flight, w.clients, c, next, p);
    TotalMove(Heads, w.clients, c, next, p);
    TotalNonNegative(Flight, w.clients, p);
    TotalNonNegative(Heads, w.clients, p);
    if p in w.db.policies {
      FlightByHeads(w.clients, p, w.db.policies[p].maxValue);
    }
  }

  /** Policy p has the same limits and time has not passed. */
  ghost predicate Alike(w: World, u: World, p: string) {
    u.clock == w.clock && SameLimits(w, u, p)
  }

  lemma QuietCapped(w: World, u: World, p: string, k: nat)
    requires Alike(w, u, p) && Capped(w, p, k) && forall day :: u.db.SpentOn(p, day) == w.db.SpentOn(p, day)
    requires Total(Flight, u.clients, p) <= Total(Flight, w.clients, p)
             && Total(Heads, u.clients, p) <= Total(Heads, w.clients, p)
    ensures Capped(u, p, k)
  {
    hide Total, Day, Db.SpentOn;
  }

  lemma PaidCapped(w: World, u: World, p: string, k: nat, v: real)
    requires Alike(w, u, p) && Capped(w, p, k) && p in w.db.policies && 0.0 < Total(Heads, w.clients, p)
    requires forall day :: u.db.SpentOn(p, day) == w.db.SpentOn(p, day) + if day == Day(w.clock) then v else 0.0
    requires 0.0 <= v && 0.0 <= Total(Flight, u.clients, p) == Total(Flight, w.clients, p) - v
    ensures Capped(u, p, k)
  {
    hide Total, Day, Db.SpentOn;
    var today, cap := Day(w.clock), Cap(w.db.policies[p], k);
    assert Cap(u.db.policies[p], k) == cap;
    forall day | day >= today ensures w.db.SpentOn(p, day) + Total(Flight, w.clients, p) <= cap {
    }
    assert u.db.SpentOn(p, today) + Total(Flight, u.clients, p) == w.db.SpentOn(p, today) + Total(Flight, w.clients, p);
    forall day | u.db.SpentOn(p, day) > 0.0 ensures u.db.SpentOn(p, day) <= cap {
      assert day != today ==> u.db.SpentOn(p, day) == w.db.SpentOn(p, day);
    }
    forall day | day >= today ensures u.db.SpentOn(p, day) + Total(Flight, u.clients, p) <= cap {
      assert day != today ==> u.db.SpentOn(p, day) == w.db.SpentOn(p, day);
    }
  }

  lemma AdmittedCapped(w: World, u: World, p: string, k: nat, v: real)
    requires Alike(w, u, p) && Capped(w, p, k) && SpendOk(w)
             && forall day :: u.db.SpentOn(p, day) == w.db.SpentOn(p, day)
    requires Checked(w, Admits(p, v)) && p in w.db.policies
    requires Total(Flight, u.clients, p) == Total(Flight, w.clients, p) + v
    requires Total(Flight, w.clients, p) <= (k as real - 1.0) * w.db.policies[p].maxValue
    ensures Capped(u, p, k)
  {
    hide Total, Day, Db.SpentOn;
    forall day | day >= Day(u.clock)
      ensures u.db.SpentOn(p, day) + Total(Flight, u.clients, p) <= Cap(u.db.policies[p], k)
    {
      assert day > Day(w.clock) ==> w.db.SpentOn(p, day) == 0.0;
    }
  }

  /** One step of a client keeps every day of every policy under its cap. */
  lemma StepCapped(w: World, u: World, c: nat, next: Client, d: Deed, p: string, k: nat)
    requires Does(w, u, c, next, d) && SpendOk(w) && SameLimits(w, u, p) && Checked(w, d) && Capped(w, p, k)
    requires Moved(w, u, c, next, p) && Total(Heads, u.clients, p) <= k as real
    ensures Capped(u, p, k)
  {
    hide Carries, Weight, Total, Day, Booked, Db.SpentOn, Capped, SpendOk;
    FlightMoves(w.clients[c], next, d, p);
    TablesMove(w, u, d, p);
    ClockStays(w, u, d);
    if d.Admits? && d.policyId == p && Weight(Heads, next, p) > 0.0 {
      AtMostTheOthers(Total(Heads, w.clients, p), Total(Flight, w.clients, p), w.db.policies[p].maxValue, k);
      AdmittedCapped(w, u, p, k, d.value);
    } else if d.Pays? && d.policyId == p && p in w.db.policies {
      PaidCapped(w, u, p, k, d.value);
    } else {
      QuietCapped(w, u, p, k);
    }
  }

  lemma ClockStays(w: World, u: World, d: Deed)
    requires Booked(w, u, d)
    ensures u.clock == w.clock
  {
  }

  lemma {:induction false} NobodyInFlight(clients: seq<Client>, p: string)
    requires forall i | 0 <= i < |clients| :: Weight(Heads, clients[i], p) == 0.0
    ensures Total(Heads, clients, p) == 0.0
  {
    hide Weight;
    if clients != [] {
      NobodyInFlight(clients[..|clients| - 1], p);
    }
  }

  lemma NewPolicyCapped(cfg: Config, w: World, policyId: string, policy: Policy, p: string, k: nat)
    requires Inv(cfg, w) && Capped(w, p, k)
    ensures Capped(Apply(cfg, w, CreatePolicy(policyId, policy)), p, k)
  {
    hide Inv, Weight, Total, Next, BeginCall;
    WeightsPriced(cfg, w, p);
    if policyId == p && p !in w.db.policies {
      NobodyInFlight(w.clients, p);
    }
    assert forall day :: Apply(cfg, w, CreatePolicy(policyId, policy)).db.SpentOn(p, day) == w.db.SpentOn(p, day);
  }

  lemma PolicySaveLimits(cfg: Config, w: World, c: nat, outcome: Outcome, spendWorks: bool, p: string)
    requires c < |w.clients| && w.clients[c].PolicySave? && ClientOk(cfg, w, w.clients[c])
    ensures SameLimits(w, Next(cfg, w, c, outcome, spendWorks), p)
  {
  }

  lemma AdvanceCapped(cfg: Config, w: World, c: nat, outcome: Outcome, spendWorks: bool, p: string, k: nat)
    requires Inv(cfg, w) && c < |w.clients| && Capped(w, p, k)
    requires Total(Heads, Next(cfg, w, c, outcome, spendWorks).clients, p) <= k as real
    ensures Capped(Next(cfg, w, c, outcome, spendWorks), p, k)
  {
    hide Solitary, RecordOk, SpendOk, ClientOk, Next, Capped, Checked, Booked, Carries, Moved, DeedOf;
    var u := Next(cfg, w, c, outcome, spendWorks);
    NextDoes(cfg, w, c, outcome, spendWorks);
    SumsMove(cfg, w, u, c, u.clients[c], p);
    GateChecks(cfg, w, c, spendWorks);
    if w.clients[c].PolicySave? {
      PolicySaveLimits(cfg, w, c, outcome, spendWorks, p);
    }
    StepCapped(w, u, c, u.clients[c], DeedOf(cfg, w, w.clients[c], spendWorks), p, k);
  }

  /** A client's step that writes no policy and admits nothing. */
  lemma DoneCapped(cfg: Config, w: World, u: World, c: nat, next: Client, d: Deed, p: string, k: nat)
    requires Inv(cfg, w) && Does(w, u, c, next, d) && !d.Admits? && u.db.policies == w.db.policies && Capped(w, p, k)
    requires Total(Heads, u.clients, p) <= k as real
    ensures Capped(u, p, k)
  {
    hide Solitary, RecordOk, SpendOk, ClientOk, Capped, Booked, Carries, Moved;
    SumsMove(cfg, w, u, c, next, p);
    StepCapped(w, u, c, next, d, p, k);
  }

  lemma ApplyCapped(cfg: Config, w: World, a: Action, p: string, k: nat)
    requires Inv(cfg, w) && Capped(w, p, k) && Total(Heads, Apply(cfg, w, a).clients, p) <= k as real
    ensures Capped(Apply(cfg, w, a), p, k)
  {
    hide Inv, Next, BeginCall, Does, CrashDeed, Total, Db.SpentOn, Cap;
    match a
    case Tick(seconds) => assert forall day :: Apply(cfg, w, a).db.SpentOn(p, day) == w.db.SpentOn(p, day);
    case Kill(on) => assert forall day :: Apply(cfg, w, a).db.SpentOn(p, day) == w.db.SpentOn(p, day);
    case CreatePolicy(policyId, policy) => NewPolicyCapped(cfg, w, policyId, policy, p, k);
    case Begin(c, call) =>
      if c < |w.clients| && w.clients[c].Idle? {
        var u := BeginCall(cfg, w, c, call);
        BeginDoes(cfg, w, c, call);
        BeginSets(cfg, w, c, call);
        DoneCapped(cfg, w, u, c, u.clients[c], Nothing, p, k);
      }
    case Advance(c, outcome, spendWorks) =>
      if c < |w.clients| {
        AdvanceCapped(cfg, w, c, outcome, spendWorks, p, k);
      }
    case Crash(c) =>
      if c < |w.clients| {
        CrashDoes(cfg, w, c);
        CrashLoses(w.clients[c]);
        DoneCapped(cfg, w, Apply(cfg, w, a), c, Idle, CrashDeed(w.clients[c]), p, k);
      }
  }

  lemma CrashLoses(pc: Client)
    ensures !CrashDeed(pc).Admits?
  {
  }

  /** MAIN RESULT, over every run of every interleaving: if at most k executions of policy p are ever between the
      gate's spend read and add_spend, no day's recorded spend exceeds daily_value_usd + (k - 1) * max_value_usd,
      even when the day changes between the check and the write. */
  lemma {:induction false} OverlapBoundsSpend(cfg: Config, w: World, as_: seq<Action>, p: string, k: nat)
    requires Init(w)
    requires forall n | 0 <= n <= |as_| :: Total(Heads, Run(cfg, w, as_[..n]).clients, p) <= k as real
    ensures Capped(Run(cfg, w, as_), p, k)
    decreases |as_|
  {
    hide Apply, Inv, Total;
    if as_ != [] {
      var before := as_[..|as_| - 1];
      forall n | 0 <= n <= |before| ensures Total(Heads, Run(cfg, w, before[..n]).clients, p) <= k as real {
        assert before[..n] == as_[..n];
      }
      OverlapBoundsSpend(cfg, w, before, p, k);
      RunKeepsInv(cfg, w, before);
      assert as_[..|as_|] == as_;
      ApplyCapped(cfg, Run(cfg, w, before), as_[|as_| - 1], p, k);
    }
  }

  /** MAIN RESULT. Executions one at a time keep every day within daily_value_usd. */
  lemma SerialSpendWithinDailyCap(cfg: Config, w: World, as_: seq<Action>, p: string, day: int)
    requires Init(w)
    requires forall n | 0 <= n <= |as_| :: Total(Heads, Run(cfg, w, as_[..n]).clients, p) <= 1.0
    ensures var u := Run(cfg, w, as_);
            if p in u.db.policies
            then u.db.SpentOn(p, day) > 0.0 ==> u.db.SpentOn(p, day) <= u.db.policies[p].dailyValue
            else u.db.SpentOn(p, day) == 0.0
  {
    hide Run, Total;
    OverlapBoundsSpend(cfg, w, as_, p, 1);
  }

  /** Why the bound grows with k: what is in flight is invisible to the gate, so a second execution that passes the
      gate still passes after another of the same policy has been admitted. */
  lemma GateIgnoresFlight(cfg: Config, w: World, i: nat, j: nat, outcome: Outcome, spendWorks: bool)
    requires i < |w.clients| && j < |w.clients| && i != j
    requires GatePasses(cfg, w, w.clients[i]) && GatePasses(cfg, w, w.clients[j])
    ensures var u := Next(cfg, w, i, outcome, spendWorks);
            && u.clients[i].ExecuteCommit? && InFlight(u.clients[i])
            && GatePasses(cfg, u, u.clients[j]) && Next(cfg, u, j, outcome, spendWorks).clients[j].ExecuteCommit?
  {
    hide Authorised;
  }
}
