/** What TaskService does to the books: which money moves on which step, conservation, and the daily cap. */
module ExecutionMoney {
  import opened Values
  import opened RiskGate
  import opened ExecutionStore
  import opened ExecutionProtocol
  import opened ExecutionTheorems
  import opened ExecutionResults

  // ---------------------------------------------------------------- what one step does

  /** What a client's step does to the books. */
  datatype Deed =
    | Nothing
    | Admits(policyId: string, value: real)
    | Earns(policyId: string, value: real)
    | Pays(policyId: string, value: real)
    | Loses(policyId: string, value: real)
    | Fails

  function Add(m: map<string, real>, p: string, v: real): map<string, real> {
    m[p := Amount(m, p) + v]
  }

  ghost function DeedOf(cfg: Config, w: World, pc: Client, spendWorks: bool): Deed {
    match pc
    case ExecuteGate(_, t, _, intent, _) => if GatePasses(cfg, w, pc) then Admits(t.policyId, intent.value) else Nothing
    case ExecuteClose(_, _, policyId, v, success) => if success then Earns(policyId, v) else Nothing
    case SpendAdd(_, _, policyId, v) => if spendWorks then Pays(policyId, v) else Fails
    case SpendFail(_, _, policyId, v) => Loses(policyId, v)
    case _ => Nothing
  }

  /** The tables of money after deed d. */
  ghost predicate Booked(w: World, u: World, d: Deed) {
    && u.clock == w.clock
    && u.earned == (if d.Earns? then Add(w.earned, d.policyId, d.value) else w.earned)
    && u.lost == (if d.Loses? then Add(w.lost, d.policyId, d.value) else w.lost)
    && u.db.spend == (if d.Pays? then AddSpend(w.db, d.policyId, Day(w.clock), d.value).spend else w.db.spend)
  }

  /** What the client carries after deed d, given what it carried before. */
  ghost predicate Carries(pc: Client, next: Client, d: Deed) {
    && (InFlight(next) ==>
          if d.Admits? then !InFlight(pc) && next.policyId == d.policyId && next.value == d.value
          else InFlight(pc) && next.policyId == pc.policyId && next.value == pc.value)
    && (Owes(next) ==> InFlight(next) || d.Fails?)
    && (d.Pays? ==> InFlight(pc) && !InFlight(next) && pc.policyId == d.policyId && pc.value == d.value)
    && (if d.Earns? then !Owes(pc) && Owes(next) && next.policyId == d.policyId && next.value == d.value
        else if d.Pays? || d.Loses? then Owes(pc) && !Owes(next) && pc.policyId == d.policyId && pc.value == d.value
        else Owes(pc) == Owes(next) && (Owes(pc) ==> next.policyId == pc.policyId && next.value == pc.value))
  }

  ghost predicate Does(w: World, u: World, c: nat, next: Client, d: Deed) {
    && c < |w.clients| && u.clients == w.clients[c := next]
    && Booked(w, u, d) && Carries(w.clients[c], next, d)
  }

  lemma CommitDoes(w: World, v: World, c: nat, id: string, version: nat, state: TaskState,
                   simulation: Option<Simulation>, receipt: Option<bool>, h: History, next: Client)
    requires c < |v.clients|
    ensures var u := Commit(v, c, id, version, state, simulation, receipt, h, next);
            && u.db.spend == v.db.spend && u.db.policies == v.db.policies && u.earned == v.earned
               && u.lost == v.lost && u.clock == v.clock
            && (var moved := UpdateTask(v.db, id, version, state, simulation, receipt).Some?;
                u.clients == v.clients[c := if moved then next else Idle])
  {
    var updated := UpdateTask(v.db, id, version, state, simulation, receipt);
    UpdateKeepsTables(v.db, id, version, state, simulation, receipt);
    hide UpdateTask;
    if updated.Some? {
    }
  }

  lemma UpdateKeepsTables(db: Db, id: string, version: nat, state: TaskState,
                          simulation: Option<Simulation>, receipt: Option<bool>)
    ensures var u := UpdateTask(db, id, version, state, simulation, receipt);
            u.Some? ==> u.value.spend == db.spend && u.value.policies == db.policies
  {
  }

  ghost predicate StepDoes(cfg: Config, w: World, c: nat, outcome: Outcome, spendWorks: bool)
    requires c < |w.clients|
  {
    var u := Next(cfg, w, c, outcome, spendWorks);
    && |u.clients| == |w.clients| && Does(w, u, c, u.clients[c], DeedOf(cfg, w, w.clients[c], spendWorks))
    && (!w.clients[c].PolicySave? ==> u.db.policies == w.db.policies)
  }

  /** Commits outside the money part. */
  lemma PlainCommitDoes(cfg: Config, w: World, c: nat, outcome: Outcome, spendWorks: bool)
    requires c < |w.clients|
    requires var pc := w.clients[c];
             pc.SimulateCommit? || pc.RequireApprovalCommit? || pc.ApproveCommit? || pc.RevokeCommit? || pc.ExecuteFail?
    ensures StepDoes(cfg, w, c, outcome, spendWorks)
  {
    hide StepDoes;
    var pc := w.clients[c];
    if pc.SimulateCommit? || pc.ApproveCommit? {
      CountedCommitDoes(cfg, w, c, outcome, spendWorks);
    } else {
      OtherCommitDoes(cfg, w, c, outcome, spendWorks);
    }
  }

  lemma CountedCommitDoes(cfg: Config, w: World, c: nat, outcome: Outcome, spendWorks: bool)
    requires c < |w.clients| && (w.clients[c].SimulateCommit? || w.clients[c].ApproveCommit?)
    ensures StepDoes(cfg, w, c, outcome, spendWorks)
  {
    hide Commit, UpdateTask, GatePasses;
    match w.clients[c]
    case SimulateCommit(id, version, simulation, madeAt) =>
      var h := w.Of(id);
      CommitDoes(w, w, c, id, version, SIMULATED, Some(simulation), None,
                 h.(simulations := h.simulations + 1, simulatedAt := madeAt), SimulateReread(id));
    case ApproveCommit(id, version) =>
      CommitDoes(w, w, c, id, version, APPROVED, None, None, w.Of(id).(approvals := w.Of(id).approvals + 1), Idle);
  }

  lemma OtherCommitDoes(cfg: Config, w: World, c: nat, outcome: Outcome, spendWorks: bool)
    requires c < |w.clients|
    requires var pc := w.clients[c]; pc.RequireApprovalCommit? || pc.RevokeCommit? || pc.ExecuteFail?
    ensures StepDoes(cfg, w, c, outcome, spendWorks)
  {
    hide Commit, UpdateTask, GatePasses;
    match w.clients[c]
    case RequireApprovalCommit(id, version) =>
      CommitDoes(w, w, c, id, version, APPROVAL_REQUIRED, None, None, w.Of(id), Idle);
    case RevokeCommit(id, version) => CommitDoes(w, w, c, id, version, REVOKED, None, None, w.Of(id), Idle);
    case ExecuteFail(id, version, _, _) => CommitDoes(w, w, c, id, version, FAILED, None, Some(false), w.Of(id), Idle);
  }

  /** Other steps outside the money part. */
  lemma PlainMoveDoes(cfg: Config, w: World, c: nat, outcome: Outcome, spendWorks: bool)
    requires c < |w.clients|
    requires var pc := w.clients[c];
             pc.Idle? || pc.SimulateReread? || pc.ExecutePolicy? || pc.ExecuteCheck?
    ensures StepDoes(cfg, w, c, outcome, spendWorks)
  {
    hide StepDoes;
    if w.clients[c].Idle? || w.clients[c].SimulateReread? {
      OutsideDoes(cfg, w, c, outcome, spendWorks);
    } else {
      BeforeGateDoes(cfg, w, c, outcome, spendWorks);
    }
  }

  lemma OutsideDoes(cfg: Config, w: World, c: nat, outcome: Outcome, spendWorks: bool)
    requires c < |w.clients| && (w.clients[c].Idle? || w.clients[c].SimulateReread?)
    ensures StepDoes(cfg, w, c, outcome, spendWorks)
  {
    hide Commit, UpdateTask, GatePasses, Amount, Edge;
  }

  lemma BeforeGateDoes(cfg: Config, w: World, c: nat, outcome: Outcome, spendWorks: bool)
    requires c < |w.clients| && (w.clients[c].ExecutePolicy? || w.clients[c].ExecuteCheck?)
    ensures StepDoes(cfg, w, c, outcome, spendWorks)
  {
    hide Commit, UpdateTask, GatePasses, IntentOf, Amount;
  }

  lemma TableDoes(cfg: Config, w: World, c: nat, outcome: Outcome, spendWorks: bool)
    requires c < |w.clients| && (w.clients[c].PolicySave? || w.clients[c].TaskInsert?)
    ensures StepDoes(cfg, w, c, outcome, spendWorks)
  {
    hide StepDoes;
    if w.clients[c].PolicySave? {
      SaveDoes(cfg, w, c, outcome, spendWorks);
    } else {
      InsertDoes(cfg, w, c, outcome, spendWorks);
    }
  }

  lemma SaveDoes(cfg: Config, w: World, c: nat, outcome: Outcome, spendWorks: bool)
    requires c < |w.clients| && w.clients[c].PolicySave?
    ensures StepDoes(cfg, w, c, outcome, spendWorks)
  {
    hide Commit, UpdateTask, GatePasses, Amount;
  }

  lemma InsertDoes(cfg: Config, w: World, c: nat, outcome: Outcome, spendWorks: bool)
    requires c < |w.clients| && w.clients[c].TaskInsert?
    ensures StepDoes(cfg, w, c, outcome, spendWorks)
  {
    var TaskInsert(id, agentId, policyId, request, key) := w.clients[c];
    InsertKeepsTables(w.db, id, agentId, policyId, request, key);
    hide Commit, UpdateTask, GatePasses, Amount, InsertTask;
  }

  lemma InsertKeepsTables(db: Db, id: string, agentId: string, policyId: string, request: string, key: string)
    ensures var u := InsertTask(db, id, agentId, policyId, request, key);
            u.Some? ==> u.value.spend == db.spend && u.value.policies == db.policies
  {
  }

  lemma GateDoes(cfg: Config, w: World, c: nat, outcome: Outcome, spendWorks: bool)
    requires c < |w.clients| && w.clients[c].ExecuteGate?
    ensures StepDoes(cfg, w, c, outcome, spendWorks)
  {
    hide Commit, UpdateTask, GatePasses, Amount;
  }

  /** From the EXECUTING commit to the adapter's answer. */
  lemma FlightDoes(cfg: Config, w: World, c: nat, outcome: Outcome, spendWorks: bool)
    requires c < |w.clients|
    requires var pc := w.clients[c]; pc.ExecuteCommit? || pc.ExecuteReread? || pc.ExecuteCall? || pc.ExecuteAwait?
    ensures StepDoes(cfg, w, c, outcome, spendWorks)
  {
    hide StepDoes;
    if w.clients[c].ExecuteCommit? {
      ExecuteCommitDoes(cfg, w, c, outcome, spendWorks);
    } else {
      CarriedDoes(cfg, w, c, outcome, spendWorks);
    }
  }

  lemma ExecuteCommitDoes(cfg: Config, w: World, c: nat, outcome: Outcome, spendWorks: bool)
    requires c < |w.clients| && w.clients[c].ExecuteCommit?
    ensures StepDoes(cfg, w, c, outcome, spendWorks)
  {
    hide Commit, UpdateTask, GatePasses, Amount;
    var ExecuteCommit(id, version, policyId, v) := w.clients[c];
    CommitDoes(w, w, c, id, version, EXECUTING, None, None, w.Of(id).(executions := w.Of(id).executions + 1),
               ExecuteReread(id, policyId, v));
  }

  lemma CarriedDoes(cfg: Config, w: World, c: nat, outcome: Outcome, spendWorks: bool)
    requires c < |w.clients|
    requires var pc := w.clients[c]; pc.ExecuteReread? || pc.ExecuteCall? || pc.ExecuteAwait?
    ensures StepDoes(cfg, w, c, outcome, spendWorks)
  {
    hide Commit, UpdateTask, GatePasses, Amount;
  }

  lemma CloseDoes(cfg: Config, w: World, c: nat, outcome: Outcome, spendWorks: bool)
    requires Inv(cfg, w) && c < |w.clients| && w.clients[c].ExecuteClose?
    ensures StepDoes(cfg, w, c, outcome, spendWorks)
  {
    hide Commit, UpdateTask, GatePasses, Amount, RecordOk, SpendOk, Solitary;
    var ExecuteClose(id, version, policyId, v, success) := w.clients[c];
    ClosingFindsVersion(cfg, w, w.clients[c]);
    var u := w.(earned := w.earned[policyId := Amount(w.earned, policyId) + v]);
    CommitDoes(w, u, c, id, version, SUCCEEDED, None, Some(true), w.Of(id), SpendReread(id, policyId, v));
    CommitDoes(w, w, c, id, version, FAILED, None, Some(false), w.Of(id), Idle);
  }

  lemma SpendDoes(cfg: Config, w: World, c: nat, outcome: Outcome, spendWorks: bool)
    requires c < |w.clients| && w.clients[c].SpendAdd?
    ensures StepDoes(cfg, w, c, outcome, spendWorks)
  {
    hide Commit, UpdateTask, GatePasses, Amount;
  }

  lemma SpendRereadDoes(cfg: Config, w: World, c: nat, outcome: Outcome, spendWorks: bool)
    requires c < |w.clients| && ClientOk(cfg, w, w.clients[c]) && w.clients[c].SpendReread?
    ensures StepDoes(cfg, w, c, outcome, spendWorks)
  {
    hide Commit, UpdateTask, GatePasses, Amount;
  }

  lemma SpendFailDoes(cfg: Config, w: World, c: nat, outcome: Outcome, spendWorks: bool)
    requires c < |w.clients| && w.clients[c].SpendFail?
    ensures StepDoes(cfg, w, c, outcome, spendWorks)
  {
    hide Commit, UpdateTask, GatePasses, Amount;
    var SpendFail(id, version, policyId, v) := w.clients[c];
    var u := w.(lost := w.lost[policyId := Amount(w.lost, policyId) + v]);
    CommitDoes(w, u, c, id, version, FAILED, None, Some(false), w.Of(id), Idle);
  }

  lemma NextDoes(cfg: Config, w: World, c: nat, outcome: Outcome, spendWorks: bool)
    requires Inv(cfg, w) && c < |w.clients|
    ensures StepDoes(cfg, w, c, outcome, spendWorks)
  {
    hide StepDoes, ClientOk, Solitary, SpendOk, RecordOk;
    var pc := w.clients[c];
    if pc.SpendReread? {
      SpendRereadDoes(cfg, w, c, outcome, spendWorks);
    } else if pc.SpendAdd? {
      SpendDoes(cfg, w, c, outcome, spendWorks);
    } else if pc.SpendFail? {
      SpendFailDoes(cfg, w, c, outcome, spendWorks);
    } else if pc.ExecuteClose? {
      CloseDoes(cfg, w, c, outcome, spendWorks);
    } else if pc.ExecuteGate? {
      GateDoes(cfg, w, c, outcome, spendWorks);
    } else if InFlight(pc) {
      FlightDoes(cfg, w, c, outcome, spendWorks);
    } else if pc.Idle? || pc.SimulateReread? || pc.ExecutePolicy? || pc.ExecuteCheck? {
      PlainMoveDoes(cfg, w, c, outcome, spendWorks);
    } else if pc.PolicySave? || pc.TaskInsert? {
      TableDoes(cfg, w, c, outcome, spendWorks);
    } else {
      PlainCommitDoes(cfg, w, c, outcome, spendWorks);
    }
  }

  // ---------------------------------------------------------------- conservation

  /** What was recorded for policy p on days 0 to n - 1. */
  function TotalSpent(db: Db, p: string, n: nat): real {
    if n == 0 then 0.0 else TotalSpent(db, p, n - 1) + db.SpentOn(p, n - 1)
  }

  function Today(w: World): (n: nat)
    requires 0 <= w.clock
  {
    Day(w.clock)
  }

  lemma {:induction false} SpendSums(a: Db, b: Db, p: string, today: nat, v: real, n: nat)
    requires forall d :: b.SpentOn(p, d) == a.SpentOn(p, d) + if d == today then v else 0.0
    ensures TotalSpent(b, p, n) == TotalSpent(a, p, n) + if today < n then v else 0.0
  {
    hide Db.SpentOn;
    if n > 0 {
      SpendSums(a, b, p, today, v, n - 1);
    }
  }

  lemma {:induction false} LaterDaysEmpty(w: World, p: string, n: nat)
    requires 0 <= w.clock && SpendOk(w) && Today(w) < n
    ensures TotalSpent(w.db, p, n) == TotalSpent(w.db, p, Today(w) + 1)
  {
    if n > Today(w) + 1 {
      LaterDaysEmpty(w, p, n - 1);
    }
  }

  /** Everything successful executions were worth is recorded, still owed by a client, or was lost on the way. */
  ghost predicate Balanced(w: World, p: string)
    requires 0 <= w.clock
  {
    Amount(w.earned, p) == TotalSpent(w.db, p, Today(w) + 1) + Total(Debt, w.clients, p) + Amount(w.lost, p)
  }

  function Share(d: Deed, p: string): real {
    if !d.Nothing? && !d.Fails? && d.policyId == p then d.value else 0.0
  }

  lemma DebtMoves(pc: Client, next: Client, d: Deed, p: string)
    requires Carries(pc, next, d)
    ensures Weight(Debt, next, p)
            == Weight(Debt, pc, p) + if d.Earns? then Share(d, p) else if d.Pays? || d.Loses? then -Share(d, p) else 0.0
  {
    hide InFlight;
  }

  lemma TablesMove(w: World, u: World, d: Deed, p: string)
    requires Booked(w, u, d)
    ensures Amount(u.earned, p) == Amount(w.earned, p) + if d.Earns? then Share(d, p) else 0.0
    ensures Amount(u.lost, p) == Amount(w.lost, p) + if d.Loses? then Share(d, p) else 0.0
    ensures forall day ::
              u.db.SpentOn(p, day)
              == w.db.SpentOn(p, day) + if day == Day(w.clock) then (if d.Pays? then Share(d, p) else 0.0) else 0.0
  {
    if d.Pays? {
      forall day
        ensures u.db.SpentOn(p, day)
                == w.db.SpentOn(p, day) + if day == Day(w.clock) then Share(d, p) else 0.0 {
        SpendAdds(w.db, d.policyId, Day(w.clock), d.value, p, day);
      }
    }
  }

  lemma StepBalances(w: World, u: World, c: nat, next: Client, d: Deed, p: string)
    requires 0 <= w.clock && Does(w, u, c, next, d) && Balanced(w, p)
    ensures Balanced(u, p)
  {
    hide Carries, Weight, Total, Share, Amount, TotalSpent, Day;
    DebtMoves(w.clients[c], next, d, p);
    TablesMove(w, u, d, p);
    TotalMove(Debt, w.clients, c, next, p);
    SpendSums(w.db, u.db, p, Today(w), if d.Pays? then Share(d, p) else 0.0, Today(w) + 1);
  }

  lemma TickBalances(w: World, seconds: nat, p: string)
    requires 0 <= w.clock && SpendOk(w) && Balanced(w, p)
    ensures Balanced(w.(clock := w.clock + seconds), p)
  {
    hide SpendOk;
    LaterDaysEmpty(w, p, Today(w.(clock := w.clock + seconds)) + 1);
  }

  /** Starting a call moves no money. */
  lemma BeginDoes(cfg: Config, w: World, c: nat, call: Call)
    requires c < |w.clients| && w.clients[c].Idle?
    ensures var u := BeginCall(cfg, w, c, call);
            |u.clients| == |w.clients| && Does(w, u, c, u.clients[c], Nothing)
  {
    hide BeginCall, ClientOk;
    BeginSets(cfg, w, c, call);
    BeginReads(cfg, w, c, call);
  }

  function CrashDeed(pc: Client): Deed {
    if Owes(pc) then Loses(pc.policyId, pc.value) else Nothing
  }

  lemma CrashDoes(cfg: Config, w: World, c: nat)
    requires c < |w.clients|
    ensures Does(w, Apply(cfg, w, Crash(c)), c, Idle, CrashDeed(w.clients[c]))
  {
    hide Next, BeginCall;
  }

  lemma ApplyBalances(cfg: Config, w: World, a: Action, p: string)
    requires Inv(cfg, w) && Balanced(w, p)
    ensures Apply(cfg, w, a).clock >= 0 && Balanced(Apply(cfg, w, a), p)
  {
    hide ClientOk, RecordOk, Solitary, SpendOk, Next, BeginCall, Balanced, Does, CrashDeed;
    match a
    case Tick(seconds) => TickBalances(w, seconds, p);
    case Kill(on) => OtherBalances(w, Apply(cfg, w, a), p);
    case CreatePolicy(_, _) => OtherBalances(w, Apply(cfg, w, a), p);
    case Begin(c, call) =>
      if c < |w.clients| && w.clients[c].Idle? {
        BeginDoes(cfg, w, c, call);
        DoesBalances(w, BeginCall(cfg, w, c, call), c, BeginCall(cfg, w, c, call).clients[c], Nothing, p);
      }
    case Advance(c, outcome, spendWorks) =>
      if c < |w.clients| {
        NextDoes(cfg, w, c, outcome, spendWorks);
        var u := Next(cfg, w, c, outcome, spendWorks);
        DoesBalances(w, u, c, u.clients[c], DeedOf(cfg, w, w.clients[c], spendWorks), p);
      }
    case Crash(c) =>
      if c < |w.clients| {
        CrashDoes(cfg, w, c);
        DoesBalances(w, Apply(cfg, w, a), c, Idle, CrashDeed(w.clients[c]), p);
      }
  }

  lemma DoesBalances(w: World, u: World, c: nat, next: Client, d: Deed, p: string)
    requires 0 <= w.clock && Does(w, u, c, next, d) && Balanced(w, p)
    ensures 0 <= u.clock && Balanced(u, p)
  {
    hide Balanced, Carries;
    StepBalances(w, u, c, next, d, p);
  }

  lemma OtherBalances(w: World, u: World, p: string)
    requires 0 <= w.clock && u.clock == w.clock && u.db.spend == w.db.spend && u.clients == w.clients
    requires u.earned == w.earned && u.lost == w.lost && Balanced(w, p)
    ensures Balanced(u, p)
  {
    SpendSums(w.db, u.db, p, Today(w), 0.0, Today(w) + 1);
  }

  lemma {:induction false} NoDebt(clients: seq<Client>, p: string)
    requires forall i | 0 <= i < |clients| :: clients[i] == Idle
    ensures Total(Debt, clients, p) == 0.0 && Total(Heads, clients, p) == 0.0
  {
    if clients != [] {
      NoDebt(clients[..|clients| - 1], p);
    }
  }

  /** MAIN RESULT, over every run of every interleaving: for each policy the value of its successful executions
      equals what is recorded over all days so far, plus what clients between the SUCCEEDED commit and add_spend
      still owe, plus what crashes and failing add_spend calls lost. */
  lemma {:induction false} BooksBalance(cfg: Config, w: World, as_: seq<Action>, p: string)
    requires Init(w)
    ensures Run(cfg, w, as_).clock >= 0 && Balanced(Run(cfg, w, as_), p)
    decreases |as_|
  {
    hide Apply, Inv;
    if as_ == [] {
      NoDebt(w.clients, p);
      NothingSpent(w.db, p, Today(w) + 1);
    } else {
      var before := as_[..|as_| - 1];
      BooksBalance(cfg, w, before, p);
      RunKeepsInv(cfg, w, before);
      ApplyBalances(cfg, Run(cfg, w, before), as_[|as_| - 1], p);
    }
  }

  lemma {:induction false} NothingSpent(db: Db, p: string, n: nat)
    requires db.spend == map[]
    ensures TotalSpent(db, p, n) == 0.0
  {
    if n > 0 {
      NothingSpent(db, p, n - 1);
    }
  }

  /** Nothing goes wrong between the adapter's answer and the spend write. */
  predicate Careful(a: Action) {
    !a.Crash? && (a.Advance? ==> a.spendWorks)
  }

  /** No client is in the handler for a failed add_spend, and nothing has been lost. */
  ghost predicate NothingLost(w: World) {
    w.lost == map[] && forall i | 0 <= i < |w.clients| :: !w.clients[i].SpendFail?
  }

  /** add_spend and crashes are the only ways to lose money. */
  lemma CarefulStep(cfg: Config, w: World, a: Action)
    requires Inv(cfg, w) && NothingLost(w) && Careful(a)
    ensures NothingLost(Apply(cfg, w, a))
  {
    hide Inv, Next, BeginCall;
    if a.Begin? && a.client < |w.clients| && w.clients[a.client].Idle? {
      BeginSets(cfg, w, a.client, a.call);
      BeginReads(cfg, w, a.client, a.call);
    } else if a.Advance? && a.client < |w.clients| {
      NextDoes(cfg, w, a.client, a.outcome, a.spendWorks);
    }
  }

  lemma {:induction false} CarefulRun(cfg: Config, w: World, as_: seq<Action>)
    requires Init(w) && forall i | 0 <= i < |as_| :: Careful(as_[i])
    ensures NothingLost(Run(cfg, w, as_))
    decreases |as_|
  {
    hide Apply, Inv, Careful;
    if as_ != [] {
      var before := as_[..|as_| - 1];
      CarefulRun(cfg, w, before);
      RunKeepsInv(cfg, w, before);
      CarefulStep(cfg, Run(cfg, w, before), as_[|as_| - 1]);
    }
  }

  lemma {:induction false} NobodyOwes(clients: seq<Client>, p: string)
    requires forall i | 0 <= i < |clients| :: !Owes(clients[i])
    ensures Total(Debt, clients, p) == 0.0
  {
    if clients != [] {
      NobodyOwes(clients[..|clients| - 1], p);
    }
  }

  /** MAIN RESULT. When no client crashes, no add_spend fails, and nobody is between the SUCCEEDED commit and
      add_spend, the recorded spend is exactly what the successful executions were worth. */
  lemma SpendIsExact(cfg: Config, w: World, as_: seq<Action>, p: string)
    requires Init(w) && forall i | 0 <= i < |as_| :: Careful(as_[i])
    requires var u := Run(cfg, w, as_); forall i | 0 <= i < |u.clients| :: !Owes(u.clients[i])
    ensures var u := Run(cfg, w, as_);
            0 <= u.clock && Amount(u.earned, p) == TotalSpent(u.db, p, Today(u) + 1)
  {
    hide Run, Careful, Owes;
    BooksBalance(cfg, w, as_, p);
    CarefulRun(cfg, w, as_);
    NobodyOwes(Run(cfg, w, as_).clients, p);
  }
}
