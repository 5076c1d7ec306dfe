/** What the histories count: each number kept for stating properties is the number of steps of the run that did it. */
module ExecutionCounts {
  import opened Values
  import opened RiskGate
  import opened ExecutionStore
  import opened ExecutionProtocol

  datatype Deed = Approval | Simulated | Started | Called | Charged

  ghost predicate Enters(u: World, v: World, id: string, state: TaskState) {
    id in v.db.tasks && v.db.tasks[id].state == state
    && (id in u.db.tasks ==> v.db.tasks[id].version != u.db.tasks[id].version)
  }

  /** What a step from u to v did to task id: it committed a state, called the adapter, or wrote the day's spend. */
  ghost predicate Does(u: World, a: Action, v: World, id: string, d: Deed) {
    match d
    case Approval => Enters(u, v, id, APPROVED)
    case Simulated => Enters(u, v, id, SIMULATED)
    case Started => Enters(u, v, id, EXECUTING)
    case Called =>
      a.Advance? && a.client < |u.clients| && u.clients[a.client].ExecuteCall? && u.clients[a.client].id == id
    case Charged =>
      a.Advance? && a.client < |u.clients| && u.clients[a.client].SpendAdd? && u.clients[a.client].id == id
      && a.spendWorks
  }

  /** How many steps of the run did d to task id. */
  ghost function Done(cfg: Config, w: World, as_: seq<Action>, id: string, d: Deed): nat
    decreases |as_|
  {
    if as_ == [] then 0
    else
      var before, a := as_[..|as_| - 1], as_[|as_| - 1];
      Done(cfg, w, before, id, d)
      + if Does(Run(cfg, w, before), a, Apply(cfg, Run(cfg, w, before), a), id, d) then 1 else 0
  }

  function Counted(h: History, d: Deed): nat {
    match d
    case Approval => h.approvals
    case Simulated => h.simulations
    case Started => h.executions
    case Called => h.calls
    case Charged => h.spends
  }

  /** A step adds to the histories what it does. */
  ghost predicate Counts(u: World, a: Action, v: World, id: string) {
    forall d :: Counted(v.Of(id), d) == Counted(u.Of(id), d) + if Does(u, a, v, id, d) then 1 else 0
  }

  lemma CommitEnters(w: World, v: World, c: nat, id: string, version: nat, state: TaskState,
                     simulation: Option<Simulation>, receipt: Option<bool>, h: History, next: Client, x: string)
    requires c < |v.clients| && v.db == w.db && v.history == w.history
    requires UpdateTask(w.db, id, version, state, simulation, receipt).Some?
    ensures var u := Commit(v, c, id, version, state, simulation, receipt, h, next);
            && u.Of(x) == (if x == id then h else w.Of(x))
            && forall s :: Enters(w, u, x, s) <==> x == id && s == state
  {
  }

  lemma CommitFails(w: World, v: World, c: nat, id: string, version: nat, state: TaskState,
                    simulation: Option<Simulation>, receipt: Option<bool>, h: History, next: Client)
    requires c < |v.clients| && v.db == w.db && v.history == w.history
    requires UpdateTask(w.db, id, version, state, simulation, receipt).None?
    ensures var u := Commit(v, c, id, version, state, simulation, receipt, h, next);
            u.db.tasks == w.db.tasks && u.history == w.history
  {
    hide UpdateTask;
  }

  lemma CommitCounts(w: World, v: World, a: Action, c: nat, id: string, version: nat, state: TaskState,
                     simulation: Option<Simulation>, receipt: Option<bool>, h: History, next: Client, x: string)
    requires c < |v.clients| && v.db == w.db && v.history == w.history && v.clients == w.clients
    requires a.Advance? && a.client == c && !w.clients[c].ExecuteCall? && !w.clients[c].SpendAdd?
    requires h.calls == w.Of(id).calls && h.spends == w.Of(id).spends
    requires h.approvals == w.Of(id).approvals + if state == APPROVED then 1 else 0
    requires h.simulations == w.Of(id).simulations + if state == SIMULATED then 1 else 0
    requires h.executions == w.Of(id).executions + if state == EXECUTING then 1 else 0
    ensures Counts(w, a, Commit(v, c, id, version, state, simulation, receipt, h, next), x)
  {
    hide Commit, UpdateTask, Enters, World.Of;
    var u := Commit(v, c, id, version, state, simulation, receipt, h, next);
    if UpdateTask(w.db, id, version, state, simulation, receipt).Some? {
      CommitEnters(w, v, c, id, version, state, simulation, receipt, h, next, x);
      forall d ensures Counted(u.Of(x), d) == Counted(w.Of(x), d) + if Does(w, a, u, x, d) then 1 else 0 {
      }
    } else {
      CommitFails(w, v, c, id, version, state, simulation, receipt, h, next);
      QuietCounts(w, a, u, x);
    }
  }

  /** A step that touches neither tasks nor histories. */
  lemma QuietCounts(w: World, a: Action, u: World, x: string)
    requires u.db.tasks == w.db.tasks && u.history == w.history
    requires a.Advance? && a.client < |w.clients| ==> !w.clients[a.client].ExecuteCall?
                                                      && (w.clients[a.client].SpendAdd? ==> !a.spendWorks)
    ensures Counts(w, a, u, x)
  {
    forall d ensures Counted(u.Of(x), d) == Counted(w.Of(x), d) + if Does(w, a, u, x, d) then 1 else 0 {
    }
  }

  lemma CommitStepCounts(cfg: Config, w: World, a: Action, x: string)
    requires a.Advance? && a.client < |w.clients|
    requires var pc := w.clients[a.client];
             pc.SimulateCommit? || pc.RequireApprovalCommit? || pc.ApproveCommit? || pc.RevokeCommit?
             || pc.ExecuteCommit? || pc.ExecuteFail? || pc.SpendFail?
    ensures Counts(w, a, Next(cfg, w, a.client, a.outcome, a.spendWorks), x)
  {
    hide Counts, Commit, Amount;
    var c := a.client;
    match w.clients[c]
    case SimulateCommit(id, version, simulation, madeAt) =>
      CommitCounts(w, w, a, c, id, version, SIMULATED, Some(simulation), None,
                   w.Of(id).(simulations := w.Of(id).simulations + 1, simulatedAt := madeAt), SimulateReread(id), x);
    case RequireApprovalCommit(id, version) =>
      CommitCounts(w, w, a, c, id, version, APPROVAL_REQUIRED, None, None, w.Of(id), Idle, x);
    case ApproveCommit(id, version) =>
      CommitCounts(w, w, a, c, id, version, APPROVED, None, None,
                   w.Of(id).(approvals := w.Of(id).approvals + 1), Idle, x);
    case RevokeCommit(id, version) =>
      CommitCounts(w, w, a, c, id, version, REVOKED, None, None, w.Of(id), Idle, x);
    case ExecuteCommit(id, version, policyId, v) =>
      CommitCounts(w, w, a, c, id, version, EXECUTING, None, None,
                   w.Of(id).(executions := w.Of(id).executions + 1), ExecuteReread(id, policyId, v), x);
    case ExecuteFail(id, version, _, _) =>
      CommitCounts(w, w, a, c, id, version, FAILED, None, Some(false), w.Of(id), Idle, x);
    case SpendFail(id, version, policyId, v) =>
      var u := w.(lost := w.lost[policyId := Amount(w.lost, policyId) + v]);
      CommitCounts(w, u, a, c, id, version, FAILED, None, Some(false), w.Of(id), Idle, x);
  }

  lemma CloseCounts(cfg: Config, w: World, a: Action, x: string)
    requires a.Advance? && a.client < |w.clients| && w.clients[a.client].ExecuteClose?
    ensures Counts(w, a, Next(cfg, w, a.client, a.outcome, a.spendWorks), x)
  {
    hide Counts, Commit, Amount, UpdateTask;
    var c, pc := a.client, w.clients[a.client];
    var u := w.(earned := w.earned[pc.policyId := Amount(w.earned, pc.policyId) + pc.value]);
    CommitCounts(w, u, a, c, pc.id, pc.version, SUCCEEDED, None, Some(true), w.Of(pc.id),
                 SpendReread(pc.id, pc.policyId, pc.value), x);
    CommitCounts(w, w, a, c, pc.id, pc.version, FAILED, None, Some(false), w.Of(pc.id), Idle, x);
    QuietCounts(w, a, Set(w, c, ExecuteFail(pc.id, pc.version, pc.policyId, pc.value)), x);
  }

  /** A step that leaves the tasks alone and adds a call or a charge. */
  lemma DeedCounts(w: World, a: Action, u: World, id: string, h: History, x: string)
    requires u.db.tasks == w.db.tasks && u.history == w.history[id := h]
    requires a.Advance? && a.client < |w.clients|
    requires var pc := w.clients[a.client];
             (pc.ExecuteCall? || (pc.SpendAdd? && a.spendWorks)) && pc.id == id
             && h == if pc.ExecuteCall? then w.Of(id).(calls := w.Of(id).calls + 1)
                     else w.Of(id).(spends := w.Of(id).spends + 1)
    ensures Counts(w, a, u, x)
  {
    forall d ensures Counted(u.Of(x), d) == Counted(w.Of(x), d) + if Does(w, a, u, x, d) then 1 else 0 {
    }
  }

  lemma CallCounts(cfg: Config, w: World, a: Action, x: string)
    requires a.Advance? && a.client < |w.clients|
    requires w.clients[a.client].ExecuteCall? || w.clients[a.client].SpendAdd?
    ensures Counts(w, a, Next(cfg, w, a.client, a.outcome, a.spendWorks), x)
  {
    hide Counts, AddSpend, World.Of;
    var u, pc := Next(cfg, w, a.client, a.outcome, a.spendWorks), w.clients[a.client];
    if pc.ExecuteCall? {
      DeedCounts(w, a, u, pc.id, w.Of(pc.id).(calls := w.Of(pc.id).calls + 1), x);
    } else if a.spendWorks {
      SpendKeepsTasks(w.db, pc.policyId, Day(w.clock), pc.value);
      DeedCounts(w, a, u, pc.id, w.Of(pc.id).(spends := w.Of(pc.id).spends + 1), x);
    } else {
      QuietCounts(w, a, u, x);
    }
  }

  lemma SpendKeepsTasks(db: Db, policyId: string, day: int, value: real)
    ensures AddSpend(db, policyId, day, value).tasks == db.tasks
  {
  }

  lemma InsertCounts(cfg: Config, w: World, a: Action, x: string)
    requires a.Advance? && a.client < |w.clients| && w.clients[a.client].TaskInsert?
    ensures Counts(w, a, Next(cfg, w, a.client, a.outcome, a.spendWorks), x)
  {
    var u := Next(cfg, w, a.client, a.outcome, a.spendWorks);
    forall d ensures Counted(u.Of(x), d) == Counted(w.Of(x), d) + if Does(w, a, u, x, d) then 1 else 0 {
    }
  }

  lemma PlainCounts(cfg: Config, w: World, a: Action, x: string)
    requires a.Advance? && a.client < |w.clients|
    requires var pc := w.clients[a.client];
             pc.Idle? || pc.SimulateReread? || pc.ExecutePolicy? || pc.ExecuteCheck? || pc.ExecuteGate?
             || pc.ExecuteReread? || pc.ExecuteAwait? || pc.SpendReread? || pc.PolicySave?
    ensures Counts(w, a, Next(cfg, w, a.client, a.outcome, a.spendWorks), x)
  {
    hide Counts, Next;
    var pc := w.clients[a.client];
    if pc.ExecutePolicy? || pc.ExecuteCheck? || pc.ExecuteGate? {
      EarlyIsQuiet(cfg, w, a.client, a.outcome, a.spendWorks);
    } else if pc.SimulateReread? || pc.ExecuteReread? {
      RereadIsQuiet(cfg, w, a.client, a.outcome, a.spendWorks);
    } else {
      RestIsQuiet(cfg, w, a.client, a.outcome, a.spendWorks);
    }
    QuietCounts(w, a, Next(cfg, w, a.client, a.outcome, a.spendWorks), x);
  }

  lemma EarlyIsQuiet(cfg: Config, w: World, c: nat, outcome: Outcome, spendWorks: bool)
    requires c < |w.clients|
    requires w.clients[c].ExecutePolicy? || w.clients[c].ExecuteCheck? || w.clients[c].ExecuteGate?
    ensures var u := Next(cfg, w, c, outcome, spendWorks);
            u.db.tasks == w.db.tasks && u.history == w.history
  {
    hide Amount, GatePasses, IntentOf, Commit, UpdateTask, InsertTask, AddSpend, SavePolicy, Edge, Day, World.Of;
  }

  lemma RereadIsQuiet(cfg: Config, w: World, c: nat, outcome: Outcome, spendWorks: bool)
    requires c < |w.clients|
    requires w.clients[c].SimulateReread? || w.clients[c].ExecuteReread?
    ensures var u := Next(cfg, w, c, outcome, spendWorks);
            u.db.tasks == w.db.tasks && u.history == w.history
  {
    hide Amount, GatePasses, IntentOf, Commit, UpdateTask, InsertTask, AddSpend, SavePolicy, Edge, Day, World.Of;
  }

  lemma RestIsQuiet(cfg: Config, w: World, c: nat, outcome: Outcome, spendWorks: bool)
    requires c < |w.clients|
    requires w.clients[c].Idle? || w.clients[c].ExecuteAwait? || w.clients[c].PolicySave? || w.clients[c].SpendReread?
    ensures var u := Next(cfg, w, c, outcome, spendWorks);
            u.db.tasks == w.db.tasks && u.history == w.history
  {
    hide Amount, GatePasses, IntentOf, Commit, UpdateTask, InsertTask, AddSpend, Edge, World.Of;
  }

  lemma StepCounts(cfg: Config, w: World, a: Action, x: string)
    ensures Counts(w, a, Apply(cfg, w, a), x)
  {
    hide Counts, Next, BeginCall;
    if a.Advance? && a.client < |w.clients| {
      var pc := w.clients[a.client];
      if pc.ExecuteClose? {
        CloseCounts(cfg, w, a, x);
      } else if pc.ExecuteCall? || pc.SpendAdd? {
        CallCounts(cfg, w, a, x);
      } else if pc.TaskInsert? {
        InsertCounts(cfg, w, a, x);
      } else if pc.SimulateCommit? || pc.RequireApprovalCommit? || pc.ApproveCommit? || pc.RevokeCommit?
                || pc.ExecuteCommit? || pc.ExecuteFail? || pc.SpendFail? {
        CommitStepCounts(cfg, w, a, x);
      } else {
        PlainCounts(cfg, w, a, x);
      }
    } else {
      if a.Begin? && a.client < |w.clients| {
        BeginIsQuiet(cfg, w, a.client, a.call);
      }
      QuietCounts(w, a, Apply(cfg, w, a), x);
    }
  }

  lemma BeginIsQuiet(cfg: Config, w: World, c: nat, call: Call)
    requires c < |w.clients|
    ensures BeginCall(cfg, w, c, call).db == w.db && BeginCall(cfg, w, c, call).history == w.history
  {
  }

  /** MAIN RESULT. Over every run from an empty store the history of a task holds the number of its committed approvals,
      simulations and executions, of its adapter calls and of its charges. */
  lemma {:induction false} HistoriesCount(cfg: Config, w: World, as_: seq<Action>, id: string, d: Deed)
    requires Init(w)
    ensures Counted(Run(cfg, w, as_).Of(id), d) == Done(cfg, w, as_, id, d)
    decreases |as_|
  {
    hide Apply, Does;
    if as_ != [] {
      HistoriesCount(cfg, w, as_[..|as_| - 1], id, d);
      StepCounts(cfg, Run(cfg, w, as_[..|as_| - 1]), as_[|as_| - 1], id);
    }
  }
}
