/** What the invariant means for the state machine, the adapter and the money. */
module ExecutionResults {
  import opened Values
  import opened RiskGate
  import opened ExecutionStore
  import opened ExecutionProtocol
  import opened ExecutionTheorems

  // ---------------------------------------------------------------- state changes

  /** Client `c` is about to record FAILED because its add_spend raised. */
  ghost predicate HandlesSpendFailure(w: World, a: Action, id: string) {
    a.Advance? && a.client < |w.clients| && w.clients[a.client].SpendFail? && w.clients[a.client].id == id
  }

  ghost predicate TaskChanges(w: World, u: World, id: string)
    requires id in w.db.tasks
  {
    id !in u.db.tasks || u.db.tasks[id] != w.db.tasks[id]
  }

  /** The state a client is about to commit. */
  function Target(pc: Client): Option<TaskState> {
    match pc
    case SimulateCommit(_, _, _, _) => Some(SIMULATED)
    case RequireApprovalCommit(_, _) => Some(APPROVAL_REQUIRED)
    case ApproveCommit(_, _) => Some(APPROVED)
    case RevokeCommit(_, _) => Some(REVOKED)
    case ExecuteCommit(_, _, _, _) => Some(EXECUTING)
    case ExecuteClose(_, _, _, _, success) => Some(if success then SUCCEEDED else FAILED)
    case ExecuteFail(_, _, _, _) => Some(FAILED)
    case SpendFail(_, _, _, _) => Some(FAILED)
    case _ => None
  }

  /** A commit changes the task it names, when the version is current, and no other. */
  lemma CommitChanges(w: World, v: World, c: nat, id: string, version: nat, state: TaskState,
                      simulation: Option<Simulation>, receipt: Option<bool>, h: History, next: Client, x: string)
    requires c < |v.clients| && v.db == w.db && x in w.db.tasks
    ensures var u := Commit(v, c, id, version, state, simulation, receipt, h, next);
            && x in u.db.tasks
            && (u.db.tasks[x] != w.db.tasks[x] ==>
                  x == id && version == w.db.tasks[x].version && u.db.tasks[x].state == state
                  && u.db.tasks[x].version == version + 1)
  {
    UpdateChanges(w.db, id, version, state, simulation, receipt, x);
    CommitStores(v, c, id, version, state, simulation, receipt, h, next);
    hide UpdateTask, Commit;
  }

  lemma CommitStores(v: World, c: nat, id: string, version: nat, state: TaskState,
                     simulation: Option<Simulation>, receipt: Option<bool>, h: History, next: Client)
    requires c < |v.clients|
    ensures var u := UpdateTask(v.db, id, version, state, simulation, receipt);
            Commit(v, c, id, version, state, simulation, receipt, h, next).db == if u.Some? then u.value else v.db
  {
    hide UpdateTask;
  }

  lemma UpdateChanges(db: Db, id: string, version: nat, state: TaskState, simulation: Option<Simulation>,
                      receipt: Option<bool>, x: string)
    requires x in db.tasks
    ensures var u := UpdateTask(db, id, version, state, simulation, receipt);
            u.Some? ==>
              && x in u.value.tasks
              && (u.value.tasks[x] != db.tasks[x] ==>
                    x == id && version == db.tasks[x].version && u.value.tasks[x].state == state
                    && u.value.tasks[x].version == version + 1)
  {
  }

  /** Steps that are not commits leave every task alone. */
  lemma NoTargetNoChange(cfg: Config, w: World, c: nat, outcome: Outcome, spendWorks: bool, x: string)
    requires c < |w.clients| && x in w.db.tasks && Target(w.clients[c]).None?
    ensures !TaskChanges(w, Next(cfg, w, c, outcome, spendWorks), x)
  {
    hide GatePasses, IntentOf, Commit, UpdateTask;
    if !w.clients[c].TaskInsert? {
      SameTasks(cfg, w, c, outcome, spendWorks);
    }
  }

  lemma SameTasks(cfg: Config, w: World, c: nat, outcome: Outcome, spendWorks: bool)
    requires c < |w.clients| && Target(w.clients[c]).None? && !w.clients[c].TaskInsert?
    ensures Next(cfg, w, c, outcome, spendWorks).db.tasks == w.db.tasks
  {
    hide Next;
    var pc := w.clients[c];
    if pc.ExecuteCall? || pc.SpendAdd? || pc.PolicySave? || pc.Idle? {
      SameTasksWriting(cfg, w, c, outcome, spendWorks);
    } else if pc.ExecutePolicy? || pc.ExecuteCheck? || pc.ExecuteGate? {
      SameTasksChecking(cfg, w, c, outcome, spendWorks);
    } else {
      SameTasksMoving(cfg, w, c, outcome, spendWorks);
    }
  }

  lemma SameTasksWriting(cfg: Config, w: World, c: nat, outcome: Outcome, spendWorks: bool)
    requires c < |w.clients| && var pc := w.clients[c]; pc.ExecuteCall? || pc.SpendAdd? || pc.PolicySave? || pc.Idle?
    ensures Next(cfg, w, c, outcome, spendWorks).db.tasks == w.db.tasks
  {
    hide GatePasses, IntentOf, Commit, UpdateTask, InsertTask, Amount, Edge;
  }

  lemma SameTasksChecking(cfg: Config, w: World, c: nat, outcome: Outcome, spendWorks: bool)
    requires c < |w.clients| && var pc := w.clients[c]; pc.ExecutePolicy? || pc.ExecuteCheck? || pc.ExecuteGate?
    ensures Next(cfg, w, c, outcome, spendWorks).db.tasks == w.db.tasks
  {
    hide GatePasses, IntentOf;
  }

  lemma SameTasksMoving(cfg: Config, w: World, c: nat, outcome: Outcome, spendWorks: bool)
    requires c < |w.clients|
    requires var pc := w.clients[c]; pc.SimulateReread? || pc.ExecuteReread? || pc.ExecuteAwait? || pc.SpendReread?
    ensures Next(cfg, w, c, outcome, spendWorks).db.tasks == w.db.tasks
  {
    hide Edge;
  }

  /** The change client c commits to task x, if it has read the current version. */
  ghost predicate CommitsTo(w: World, u: World, pc: Client, x: string)
    requires x in w.db.tasks
  {
    && Target(pc).Some? && pc.id == x && pc.version == w.db.tasks[x].version
    && x in u.db.tasks && u.db.tasks[x].state == Target(pc).value
    && u.db.tasks[x].version == w.db.tasks[x].version + 1
  }

  /** A task changes only by a commit of its own client, at the version that client read. */
  lemma ChangeIsCommit(cfg: Config, w: World, c: nat, outcome: Outcome, spendWorks: bool, x: string)
    requires c < |w.clients| && x in w.db.tasks && TaskChanges(w, Next(cfg, w, c, outcome, spendWorks), x)
    ensures CommitsTo(w, Next(cfg, w, c, outcome, spendWorks), w.clients[c], x)
  {
    hide TaskChanges, CommitsTo, Next;
    var pc := w.clients[c];
    if Target(pc).None? {
      NoTargetNoChange(cfg, w, c, outcome, spendWorks, x);
    } else if pc.ExecuteCommit? || pc.ExecuteClose? || pc.ExecuteFail? || pc.SpendFail? {
      ExecutionChangeIsCommit(cfg, w, c, outcome, spendWorks, x);
    } else {
      PreparationChangeIsCommit(cfg, w, c, outcome, spendWorks, x);
    }
  }

  lemma PreparationChangeIsCommit(cfg: Config, w: World, c: nat, outcome: Outcome, spendWorks: bool, x: string)
    requires c < |w.clients| && x in w.db.tasks && TaskChanges(w, Next(cfg, w, c, outcome, spendWorks), x)
    requires var pc := w.clients[c];
             pc.SimulateCommit? || pc.RequireApprovalCommit? || pc.ApproveCommit? || pc.RevokeCommit?
    ensures CommitsTo(w, Next(cfg, w, c, outcome, spendWorks), w.clients[c], x)
  {
    hide Commit;
    match w.clients[c]
    case SimulateCommit(id, version, simulation, madeAt) =>
      var h := w.Of(id);
      CommitChanges(w, w, c, id, version, SIMULATED, Some(simulation), None,
                    h.(simulations := h.simulations + 1, simulatedAt := madeAt), SimulateReread(id), x);
    case RequireApprovalCommit(id, version) =>
      CommitChanges(w, w, c, id, version, APPROVAL_REQUIRED, None, None, w.Of(id), Idle, x);
    case ApproveCommit(id, version) =>
      CommitChanges(w, w, c, id, version, APPROVED, None, None, w.Of(id).(approvals := w.Of(id).approvals + 1), Idle,
                    x);
    case RevokeCommit(id, version) => CommitChanges(w, w, c, id, version, REVOKED, None, None, w.Of(id), Idle, x);
  }

  lemma ExecutionChangeIsCommit(cfg: Config, w: World, c: nat, outcome: Outcome, spendWorks: bool, x: string)
    requires c < |w.clients| && x in w.db.tasks && TaskChanges(w, Next(cfg, w, c, outcome, spendWorks), x)
    requires var pc := w.clients[c]; pc.ExecuteCommit? || pc.ExecuteClose? || pc.ExecuteFail? || pc.SpendFail?
    ensures CommitsTo(w, Next(cfg, w, c, outcome, spendWorks), w.clients[c], x)
  {
    hide CommitsTo, TaskChanges;
    if w.clients[c].ExecuteClose? {
      CloseChangeIsCommit(cfg, w, c, outcome, spendWorks, x);
    } else {
      OtherChangeIsCommit(cfg, w, c, outcome, spendWorks, x);
    }
  }

  lemma CloseChangeIsCommit(cfg: Config, w: World, c: nat, outcome: Outcome, spendWorks: bool, x: string)
    requires c < |w.clients| && x in w.db.tasks && TaskChanges(w, Next(cfg, w, c, outcome, spendWorks), x)
    requires w.clients[c].ExecuteClose?
    ensures CommitsTo(w, Next(cfg, w, c, outcome, spendWorks), w.clients[c], x)
  {
    hide Commit, Amount, UpdateTask, World.Of;
    var ExecuteClose(id, version, policyId, v, success) := w.clients[c];
    var u := w.(earned := w.earned[policyId := Amount(w.earned, policyId) + v]);
    CommitChanges(w, u, c, id, version, SUCCEEDED, None, Some(true), w.Of(id), SpendReread(id, policyId, v), x);
    CommitChanges(w, w, c, id, version, FAILED, None, Some(false), w.Of(id), Idle, x);
  }

  lemma OtherChangeIsCommit(cfg: Config, w: World, c: nat, outcome: Outcome, spendWorks: bool, x: string)
    requires c < |w.clients| && x in w.db.tasks && TaskChanges(w, Next(cfg, w, c, outcome, spendWorks), x)
    requires var pc := w.clients[c]; pc.ExecuteCommit? || pc.ExecuteFail? || pc.SpendFail?
    ensures CommitsTo(w, Next(cfg, w, c, outcome, spendWorks), w.clients[c], x)
  {
    hide Commit, Amount, UpdateTask, World.Of;
    match w.clients[c]
    case ExecuteCommit(id, version, policyId, v) =>
      CommitChanges(w, w, c, id, version, EXECUTING, None, None, w.Of(id).(executions := w.Of(id).executions + 1),
                    ExecuteReread(id, policyId, v), x);
    case ExecuteFail(id, version, _, _) =>
      CommitChanges(w, w, c, id, version, FAILED, None, Some(false), w.Of(id), Idle, x);
    case SpendFail(id, version, policyId, v) =>
      var u := w.(lost := w.lost[policyId := Amount(w.lost, policyId) + v]);
      CommitChanges(w, u, c, id, version, FAILED, None, Some(false), w.Of(id), Idle, x);
  }

  lemma TargetIsEdge(cfg: Config, w: World, pc: Client)
    requires ClientOk(cfg, w, pc) && Target(pc).Some?
    requires pc.id in w.db.tasks && pc.version == w.db.tasks[pc.id].version
    ensures Edge(w.db.tasks[pc.id].state, Target(pc).value) <==> !pc.SpendFail?
    ensures pc.SpendFail? ==> w.db.tasks[pc.id].state in SETTLED
    ensures w.db.tasks[pc.id].state == EXECUTING ==> Executes(pc, pc.id)
  {
  }

  lemma OthersChangeNothing(cfg: Config, w: World, a: Action, id: string)
    requires Inv(cfg, w) && id in w.db.tasks && !a.Advance?
    ensures !TaskChanges(w, Apply(cfg, w, a), id)
  {
    hide ClientOk, SpendOk, RecordOk, Solitary, Next;
  }

  /** Every change of a task in a state that meets the invariant. */
  lemma ChangesAreEdges(cfg: Config, w: World, a: Action, id: string)
    requires Inv(cfg, w) && id in w.db.tasks && TaskChanges(w, Apply(cfg, w, a), id)
    ensures a.Advance? && a.client < |w.clients|
    ensures var u := Apply(cfg, w, a);
            id in u.db.tasks
            && var t, t' := w.db.tasks[id], u.db.tasks[id];
               && t'.version == t.version + 1
               && (Edge(t.state, t'.state) <==> !HandlesSpendFailure(w, a, id))
               && (HandlesSpendFailure(w, a, id) ==> t.state in SETTLED && t'.state == FAILED)
               && (t.state == EXECUTING ==> Executes(w.clients[a.client], id))
  {
    hide Solitary, SpendOk, RecordOk, ClientOk, Next, Edge;
    if !a.Advance? {
      OthersChangeNothing(cfg, w, a, id);
    } else if a.client < |w.clients| {
      ChangeIsCommit(cfg, w, a.client, a.outcome, a.spendWorks, id);
      TargetIsEdge(cfg, w, w.clients[a.client]);
    }
  }

  /** While a task is EXECUTING only its executor can commit on it. */
  lemma ExecutorCommits(cfg: Config, w: World, a: Action, id: string)
    requires Inv(cfg, w) && id in w.db.tasks && w.db.tasks[id].state == EXECUTING
    requires TaskChanges(w, Apply(cfg, w, a), id)
    ensures a.Advance? && a.client < |w.clients| && Executes(w.clients[a.client], id)
    ensures forall i | 0 <= i < |w.clients| && i != a.client :: !Executes(w.clients[i], id)
  {
    hide ClientOk, SpendOk, RecordOk, Apply;
    ChangesAreEdges(cfg, w, a, id);
    forall i | 0 <= i < |w.clients| && i != a.client ensures !Executes(w.clients[i], id) {
      SoleOwner(w.clients, a.client, i, id);
    }
  }

  /** MAIN RESULT, over every run and its next action: each committed state change raises the version by one and is
      an edge of ALLOWED_TRANSITIONS, except exactly when the error handler runs because add_spend raised: that commit
      takes a SUCCEEDED (or meanwhile REVOKED) task to FAILED. A task that is EXECUTING is changed by its executor. */
  lemma StateChangesAreEdges(cfg: Config, w: World, as_: seq<Action>, a: Action, id: string)
    requires Init(w) && id in Run(cfg, w, as_).db.tasks
    requires TaskChanges(Run(cfg, w, as_), Apply(cfg, Run(cfg, w, as_), a), id)
    ensures a.Advance? && a.client < |Run(cfg, w, as_).clients|
    ensures var u := Run(cfg, w, as_); var v := Apply(cfg, u, a);
            id in v.db.tasks
            && var t, t' := u.db.tasks[id], v.db.tasks[id];
               && t'.version == t.version + 1
               && (Edge(t.state, t'.state) <==> !HandlesSpendFailure(u, a, id))
               && (HandlesSpendFailure(u, a, id) ==> t.state in SETTLED && t'.state == FAILED)
               && (t.state == EXECUTING ==> Executes(u.clients[a.client], id))
  {
    hide Run, Apply, Inv, Edge, TaskChanges;
    RunKeepsInv(cfg, w, as_);
    ChangesAreEdges(cfg, Run(cfg, w, as_), a, id);
  }

  /** MAIN RESULT, over every run: while a task is EXECUTING only its one executor can commit on it. */
  lemma OnlyExecutorCommits(cfg: Config, w: World, as_: seq<Action>, a: Action, id: string)
    requires Init(w) && id in Run(cfg, w, as_).db.tasks && Run(cfg, w, as_).db.tasks[id].state == EXECUTING
    requires TaskChanges(Run(cfg, w, as_), Apply(cfg, Run(cfg, w, as_), a), id)
    ensures var u := Run(cfg, w, as_);
            && a.Advance? && a.client < |u.clients| && Executes(u.clients[a.client], id)
            && forall i | 0 <= i < |u.clients| && i != a.client :: !Executes(u.clients[i], id)
  {
    hide Run, Apply, Inv, TaskChanges, Executes;
    RunKeepsInv(cfg, w, as_);
    ExecutorCommits(cfg, Run(cfg, w, as_), a, id);
  }

  /** MAIN RESULT, over every run: a gate pass rests on a check made less than five minutes after the task's only
      simulation, on the request and policy that were simulated, of a snapshot in APPROVED; the gate itself is passed
      less than five minutes after that check. */
  lemma GatePassIsFresh(cfg: Config, w: World, as_: seq<Action>, c: nat)
    requires Init(w) && c < |Run(cfg, w, as_).clients|
    requires GatePasses(cfg, Run(cfg, w, as_), Run(cfg, w, as_).clients[c])
    ensures var u := Run(cfg, w, as_); var ExecuteGate(id, t, p, intent, checkedAt) := u.clients[c];
            && id in u.db.tasks && u.Of(id).simulations == 1
            && u.Of(id).simulatedAt <= checkedAt < u.Of(id).simulatedAt + 300
            && checkedAt <= u.clock < checkedAt + 300
            && t.state == APPROVED && t.request == u.db.tasks[id].request
            && u.db.tasks[id].simulation.Some?
            && u.db.tasks[id].simulation.value.requestHash == cfg.digest(u.db.tasks[id].request)
  {
    hide Run, Inv, Authorised;
    RunKeepsInv(cfg, w, as_);
    PassIsFresh(cfg, Run(cfg, w, as_), c);
  }

  /** MAIN RESULT, over whole runs: adapter calls for a task never outnumber its committed approvals, it is
      simulated at most once, and it is charged at most once, retries after FAILED included. */
  lemma PerTaskLimits(cfg: Config, w: World, as_: seq<Action>, id: string)
    requires Init(w)
    ensures var h := Run(cfg, w, as_).Of(id);
            h.calls <= h.approvals && h.simulations <= 1 && h.spends <= 1
  {
    hide ClientOk, SpendOk, Solitary, Run;
    RunKeepsInv(cfg, w, as_);
    var u := Run(cfg, w, as_);
    if id in u.db.tasks {
      assert TaskOk(cfg, u, id);
    }
  }

  /** What a gate pass rests on in a state that meets the invariant. */
  lemma PassIsFresh(cfg: Config, w: World, c: nat)
    requires Inv(cfg, w) && c < |w.clients| && GatePasses(cfg, w, w.clients[c])
    ensures var ExecuteGate(id, t, p, intent, checkedAt) := w.clients[c];
            && id in w.db.tasks && w.Of(id).simulations == 1
            && w.Of(id).simulatedAt <= checkedAt < w.Of(id).simulatedAt + 300
            && checkedAt <= w.clock < checkedAt + 300
            && t.state == APPROVED && t.request == w.db.tasks[id].request
            && w.db.tasks[id].simulation.Some?
            && w.db.tasks[id].simulation.value.requestHash == cfg.digest(w.db.tasks[id].request)
  {
    hide SpendOk, Solitary, Listed;
    assert ClientOk(cfg, w, w.clients[c]);
    assert TaskOk(cfg, w, w.clients[c].id);
  }

  /** The gate does not look at the simulation again: a client that stalls after the check still passes until the
      intent's own deadline, the policy's expiry or the end of the day, so the pass itself can come later than five
      minutes after the simulation. */
  lemma StalledCheckStillPasses(cfg: Config, w: World, c: nat, seconds: nat)
    requires c < |w.clients| && GatePasses(cfg, w, w.clients[c])
    requires w.clock + seconds < w.clients[c].intent.deadline && w.clock + seconds < w.clients[c].policy.expiresAt
    requires Day(w.clock + seconds) == Day(w.clock)
    ensures GatePasses(cfg, Apply(cfg, w, Tick(seconds)), w.clients[c])
  {
    hide Listed;
    var u := Apply(cfg, w, Tick(seconds));
    assert GateReadings(u, w.clients[c].task.policyId) == GateReadings(w, w.clients[c].task.policyId).(now := u.clock);
  }

  // ---------------------------------------------------------------- sums over clients

  datatype Measure = Flight | Heads | Debt

  /** Past the gate's spend read and not yet past add_spend. */
  predicate InFlight(pc: Client) {
    pc.ExecuteCommit? || pc.ExecuteReread? || pc.ExecuteCall? || pc.ExecuteAwait? || pc.ExecuteClose?
    || pc.SpendReread? || pc.SpendAdd?
  }

  function Weight(m: Measure, pc: Client, p: string): real {
    match m
    case Flight => if InFlight(pc) && pc.policyId == p then pc.value else 0.0
    case Heads => if InFlight(pc) && pc.policyId == p then 1.0 else 0.0
    case Debt => if Owes(pc) && pc.policyId == p then pc.value else 0.0
  }

  function Total(m: Measure, clients: seq<Client>, p: string): real {
    if clients == [] then 0.0 else Total(m, clients[..|clients| - 1], p) + Weight(m, clients[|clients| - 1], p)
  }

  lemma {:induction false} TotalMove(m: Measure, clients: seq<Client>, c: nat, next: Client, p: string)
    requires c < |clients|
    ensures Total(m, clients[c := next], p) == Total(m, clients, p) - Weight(m, clients[c], p) + Weight(m, next, p)
  {
    hide Weight;
    var n := |clients| - 1;
    if c == n {
      assert clients[c := next][..n] == clients[..n];
    } else {
      assert clients[c := next][..n] == clients[..n][c := next];
      TotalMove(m, clients[..n], c, next, p);
    }
  }

  lemma {:induction false} TotalNonNegative(m: Measure, clients: seq<Client>, p: string)
    requires forall i | 0 <= i < |clients| :: Weight(m, clients[i], p) >= 0.0
    ensures Total(m, clients, p) >= 0.0
    ensures forall i | 0 <= i < |clients| :: Weight(m, clients[i], p) <= Total(m, clients, p)
  {
    hide Weight;
    if clients != [] {
      TotalNonNegative(m, clients[..|clients| - 1], p);
    }
  }

  lemma WeightsPriced(cfg: Config, w: World, p: string)
    requires Inv(cfg, w)
    ensures forall m, i | 0 <= i < |w.clients| :: Weight(m, w.clients[i], p) >= 0.0
    ensures p in w.db.policies ==>
              forall i | 0 <= i < |w.clients| :: Weight(Flight, w.clients[i], p)
                                                 <= Weight(Heads, w.clients[i], p) * w.db.policies[p].maxValue
    ensures p !in w.db.policies ==> forall i | 0 <= i < |w.clients| ::
              Weight(Flight, w.clients[i], p) == 0.0 && Weight(Heads, w.clients[i], p) == 0.0
  {
    hide SpendOk, RecordOk, Solitary;
    forall m, i | 0 <= i < |w.clients|
      ensures Weight(m, w.clients[i], p) >= 0.0
      ensures p in w.db.policies ==>
                Weight(Flight, w.clients[i], p) <= Weight(Heads, w.clients[i], p) * w.db.policies[p].maxValue
      ensures p !in w.db.policies ==> Weight(Flight, w.clients[i], p) == 0.0 && Weight(Heads, w.clients[i], p) == 0.0
    {
      assert ClientOk(cfg, w, w.clients[i]);
    }
  }

  lemma {:induction false} FlightByHeads(clients: seq<Client>, p: string, most: real)
    requires forall i | 0 <= i < |clients| :: Weight(Flight, clients[i], p) <= Weight(Heads, clients[i], p) * most
    ensures Total(Flight, clients, p) <= Total(Heads, clients, p) * most
  {
    hide Weight;
    if clients != [] {
      FlightByHeads(clients[..|clients| - 1], p, most);
    }
  }
}
