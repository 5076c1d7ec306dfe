/** What every interleaving of clients keeps. */
module ExecutionTheorems {
  import opened Values
  import opened RiskGate
  import opened ExecutionStore
  import opened ExecutionProtocol

  // ---------------------------------------------------------------- invariant

  ghost predicate TaskOk(cfg: Config, w: World, id: string)
    requires id in w.db.tasks
  {
    RecordOk(cfg, w.db.policies, w.clock, w.db.tasks[id], w.Of(id))
  }

  /** The record and the history of one task agree. */
  ghost predicate RecordOk(cfg: Config, policies: map<string, Policy>, clock: int, t: Task, h: History) {
    && t.policyId in policies
    && h.simulations <= 1 && (t.simulation.Some? <==> h.simulations == 1) && (t.state == DRAFT ==> h.simulations == 0)
    && (t.simulation.Some? ==>
          t.simulation.value == Simulation(cfg.digest(t.request), t.policyId, h.simulatedAt + 300)
          && h.simulatedAt <= clock)
    && h.calls <= h.executions && h.executions + (if t.state == APPROVED then 1 else 0) <= h.approvals
    && h.spends <= 1 && (h.spends == 1 ==> t.state == SUCCEEDED || t.state == REVOKED)
  }

  /** t is an earlier reading of the task's record. */
  ghost predicate Snapshot(w: World, id: string, t: Task) {
    && id in w.db.tasks
    && var now := w.db.tasks[id];
       && t.version <= now.version && (t.version == now.version ==> t == now)
       && t.request == now.request && t.policyId == now.policyId && t.agentId == now.agentId
       && (t.simulation.Some? ==> now.simulation == t.simulation)
  }

  /** A version read from the task's record, which was in a state satisfying `ok` at that version. */
  ghost predicate Read(w: World, id: string, version: nat, ok: set<TaskState>) {
    && id in w.db.tasks && version <= w.db.tasks[id].version
    && (version == w.db.tasks[id].version ==> w.db.tasks[id].state in ok)
  }

  ghost predicate SamePolicy(w: World, policyId: string, p: Policy) {
    policyId in w.db.policies && p.(revoked := false) == w.db.policies[policyId].(revoked := false)
  }

  /** v is within what the policy allows for one transaction and for one day. */
  ghost predicate Priced(w: World, policyId: string, v: real) {
    policyId in w.db.policies && 0.0 <= v <= w.db.policies[policyId].maxValue && v <= w.db.policies[policyId].dailyValue
  }

  ghost predicate InState(w: World, id: string, states: set<TaskState>) {
    id in w.db.tasks && w.db.tasks[id].state in states
  }

  ghost predicate AtVersion(w: World, id: string, version: nat) {
    id in w.db.tasks && w.db.tasks[id].version == version
  }

  const APPROVABLE: set<TaskState> := {APPROVAL_REQUIRED, FAILED}
  const REVOCABLE: set<TaskState> := {DRAFT, SIMULATED, APPROVAL_REQUIRED, APPROVED, SUCCEEDED, FAILED}
  const SETTLED: set<TaskState> := {SUCCEEDED, REVOKED}

  ghost predicate ClientOk(cfg: Config, w: World, pc: Client) {
    match pc
    case Idle => true
    case SimulateCommit(id, version, simulation, madeAt) =>
      Read(w, id, version, {DRAFT}) && madeAt <= w.clock
      && simulation == Simulation(cfg.digest(w.db.tasks[id].request), w.db.tasks[id].policyId, madeAt + 300)
    case SimulateReread(id) => id in w.db.tasks
    case RequireApprovalCommit(id, version) => Read(w, id, version, {SIMULATED})
    case ApproveCommit(id, version) => Read(w, id, version, APPROVABLE)
    case RevokeCommit(id, version) => Read(w, id, version, REVOCABLE)
    case ExecutePolicy(id, t, _) => Snapshot(w, id, t)
    case ExecuteCheck(id, t, p, _) => Snapshot(w, id, t) && SamePolicy(w, t.policyId, p)
    case ExecuteGate(id, t, p, intent, checkedAt) =>
      && Snapshot(w, id, t) && SamePolicy(w, t.policyId, p) && checkedAt <= w.clock
      && intent.deadline == checkedAt + 300
      && (intent.simulationPassed ==> SimulationValid(cfg, t, checkedAt) && w.Of(id).simulatedAt <= checkedAt)
    case ExecuteCommit(id, version, policyId, v) =>
      Read(w, id, version, {APPROVED}) && Priced(w, policyId, v)
    case ExecuteReread(id, policyId, v) =>
      InState(w, id, {EXECUTING}) && w.Of(id).calls < w.Of(id).executions && Priced(w, policyId, v)
    case ExecuteCall(id, version, policyId, v) =>
      InState(w, id, {EXECUTING}) && AtVersion(w, id, version) && w.Of(id).calls < w.Of(id).executions
      && Priced(w, policyId, v)
    case ExecuteAwait(id, version, policyId, v) =>
      InState(w, id, {EXECUTING}) && AtVersion(w, id, version) && Priced(w, policyId, v)
    case ExecuteClose(id, version, policyId, v, _) =>
      InState(w, id, {EXECUTING}) && AtVersion(w, id, version) && Priced(w, policyId, v)
    case ExecuteFail(id, version, policyId, v) =>
      InState(w, id, {EXECUTING}) && AtVersion(w, id, version) && Priced(w, policyId, v)
    case SpendReread(id, policyId, v) => InState(w, id, SETTLED) && w.Of(id).spends == 0 && Priced(w, policyId, v)
    case SpendAdd(id, version, policyId, v) =>
      InState(w, id, SETTLED) && Read(w, id, version, SETTLED) && w.Of(id).spends == 0 && Priced(w, policyId, v)
    case SpendFail(id, version, policyId, v) =>
      InState(w, id, SETTLED) && Read(w, id, version, SETTLED) && w.Of(id).spends == 0 && Priced(w, policyId, v)
    case PolicySave(policyId, p) => SamePolicy(w, policyId, p)
    case TaskInsert(_, _, policyId, _, _) => policyId in w.db.policies
  }

  /** pc has moved task id to EXECUTING and has not yet closed it. */
  predicate Executes(pc: Client, id: string) {
    (pc.ExecuteReread? || pc.ExecuteCall? || pc.ExecuteAwait? || pc.ExecuteClose? || pc.ExecuteFail?) && pc.id == id
  }

  predicate Owns(pc: Client, id: string) {
    Executes(pc, id) || (Owes(pc) && pc.id == id)
  }

  ghost predicate Solitary(clients: seq<Client>) {
    forall i, j, id | 0 <= i < j < |clients| :: !(Owns(clients[i], id) && Owns(clients[j], id))
  }

  ghost predicate SpendOk(w: World) {
    forall p, d :: 0.0 <= w.db.SpentOn(p, d) && (d > Day(w.clock) ==> w.db.SpentOn(p, d) == 0.0)
  }

  ghost predicate Inv(cfg: Config, w: World) {
    && 0 <= w.clock && SpendOk(w) && Solitary(w.clients)
    && (forall id | id in w.db.tasks :: TaskOk(cfg, w, id))
    && (forall id | id !in w.db.tasks :: w.Of(id) == NO_HISTORY)
    && (forall i | 0 <= i < |w.clients| :: ClientOk(cfg, w, w.clients[i]))
  }

  // ---------------------------------------------------------------- frames

  /** How the store may change under a client that is not moving. */
  ghost predicate Evolves(w: World, u: World) {
    && w.clock <= u.clock
    && (forall id | id in w.db.tasks :: id in u.db.tasks && Grown(w.db.tasks[id], u.db.tasks[id])
          && (w.db.tasks[id].simulation.Some? ==> u.Of(id).simulatedAt == w.Of(id).simulatedAt))
    && (forall p | p in w.db.policies :: SamePolicy(u, p, w.db.policies[p]))
  }

  ghost predicate Grown(t: Task, u: Task) {
    && t.version <= u.version && (t.version == u.version ==> t == u)
    && t.request == u.request && t.policyId == u.policyId && t.agentId == u.agentId
    && (t.simulation.Some? ==> u.simulation == t.simulation)
  }

  /** A task someone is executing stays put; a settled one stays settled until its spend is written. */
  ghost predicate Kept(w: World, u: World, pc: Client) {
    && (forall id | Executes(pc, id) && id in w.db.tasks ::
          id in u.db.tasks && u.db.tasks[id] == w.db.tasks[id] && u.Of(id).calls == w.Of(id).calls
          && u.Of(id).executions == w.Of(id).executions)
    && (Owes(pc) ==> InState(u, pc.id, SETTLED) && u.Of(pc.id).spends == w.Of(pc.id).spends)
  }

  lemma ClientFrame(cfg: Config, w: World, u: World, pc: Client)
    requires ClientOk(cfg, w, pc) && Evolves(w, u) && Kept(w, u, pc)
    ensures ClientOk(cfg, u, pc)
  {
    match pc
    case ExecuteReread(id, _, _) => assert Executes(pc, id);
    case ExecuteCall(id, _, _, _) => assert Executes(pc, id);
    case ExecuteAwait(id, _, _, _) => assert Executes(pc, id);
    case ExecuteClose(id, _, _, _, _) => assert Executes(pc, id);
    case ExecuteFail(id, _, _, _) => assert Executes(pc, id);
    case _ =>
  }

  /** The invariant after client c moves to `next` and the store evolves. */
  lemma StepKeepsInv(cfg: Config, w: World, u: World, c: nat, next: Client)
    requires Inv(cfg, w) && Evolves(w, u) && c < |w.clients| && u.clients == w.clients[c := next]
    requires SpendOk(u) && (forall id | id in u.db.tasks :: TaskOk(cfg, u, id))
    requires forall id | id !in u.db.tasks :: u.Of(id) == NO_HISTORY
    requires ClientOk(cfg, u, next)
    requires forall i | 0 <= i < |w.clients| && i != c :: Kept(w, u, w.clients[i])
    requires forall i, id | 0 <= i < |w.clients| && i != c && Owns(next, id) :: !Owns(w.clients[i], id)
    ensures Inv(cfg, u)
  {
    hide ClientOk, TaskOk, Evolves, Kept, SpendOk, Owns;
    forall i | 0 <= i < |u.clients| ensures ClientOk(cfg, u, u.clients[i]) {
      if i != c {
        ClientFrame(cfg, w, u, w.clients[i]);
      }
    }
    EvolvesClock(w, u);
  }

  lemma EvolvesClock(w: World, u: World)
    requires Evolves(w, u)
    ensures w.clock <= u.clock
  {
  }

  // ---------------------------------------------------------------- steps that leave the tables alone

  /** A step that only moves client c (and, for an adapter call, counts it). */
  lemma MoveKeepsInv(cfg: Config, w: World, c: nat, next: Client)
    requires Inv(cfg, w) && c < |w.clients| && ClientOk(cfg, w, next)
    requires forall id :: Owns(next, id) ==> Owns(w.clients[c], id)
    ensures Inv(cfg, Set(w, c, next))
  {
    hide ClientOk, Owns;
    var u := Set(w, c, next);
    forall i | 0 <= i < |w.clients| && i != c ensures Kept(w, u, w.clients[i]) {
      SelfKept(cfg, w, u, w.clients[i]);
    }
    ClientSame(cfg, w, u, next);
    forall id | id in u.db.tasks ensures TaskOk(cfg, u, id) {
      assert TaskOk(cfg, w, id);
    }
    StepKeepsInv(cfg, w, u, c, next);
  }

  lemma SelfKept(cfg: Config, w: World, u: World, pc: Client)
    requires ClientOk(cfg, w, pc) && u.db == w.db && u.history == w.history
    ensures Kept(w, u, pc)
  {
  }

  lemma ClientSame(cfg: Config, w: World, u: World, pc: Client)
    requires ClientOk(cfg, w, pc) && u.db == w.db && u.history == w.history && u.clock == w.clock
    ensures ClientOk(cfg, u, pc)
  {
  }

  // ---------------------------------------------------------------- commits

  lemma OwnersSettle(cfg: Config, w: World, pc: Client, id: string)
    requires ClientOk(cfg, w, pc)
    ensures Executes(pc, id) ==> InState(w, id, {EXECUTING})
    ensures Owes(pc) && pc.id == id ==> InState(w, id, SETTLED)
  {
  }

  /** No client but c is in the way of a commit by c that takes the task from `from` to `state`. */
  ghost predicate Clear(w: World, c: nat, id: string, state: TaskState, h: History) {
    forall i | 0 <= i < |w.clients| && i != c ::
      !Executes(w.clients[i], id) && (Owns(w.clients[i], id) ==> state in SETTLED && h.spends == w.Of(id).spends)
  }

  lemma ClearWay(cfg: Config, w: World, c: nat, id: string, state: TaskState, h: History)
    requires Inv(cfg, w) && c < |w.clients| && id in w.db.tasks && h.spends == w.Of(id).spends
    requires w.db.tasks[id].state != EXECUTING || Executes(w.clients[c], id)
    requires w.db.tasks[id].state !in SETTLED || state in SETTLED || Owns(w.clients[c], id)
    ensures Clear(w, c, id, state, h)
    ensures w.db.tasks[id].state !in SETTLED || Owns(w.clients[c], id) ==>
              forall i | 0 <= i < |w.clients| && i != c :: !Owns(w.clients[i], id)
  {
    hide ClientOk, TaskOk, SpendOk;
    forall i | 0 <= i < |w.clients| && i != c
      ensures !Executes(w.clients[i], id) && (Owns(w.clients[i], id) ==> state in SETTLED)
      ensures w.db.tasks[id].state !in SETTLED || Owns(w.clients[c], id) ==> !Owns(w.clients[i], id)
    {
      OwnersSettle(cfg, w, w.clients[i], id);
      assert !(Owns(w.clients[i], id) && Owns(w.clients[c], id));
    }
  }

  /** What a successful commit does to the world. */
  ghost predicate Committed(w: World, u: World, c: nat, id: string, t: Task, h: History, next: Client) {
    && c < |w.clients| && u.clients == w.clients[c := next]
    && u.db == w.db.(tasks := w.db.tasks[id := t]) && u.history == w.history[id := h]
    && u.clock == w.clock && u.killed == w.killed
  }

  lemma CommitKeepsInv(cfg: Config, w: World, u: World, c: nat, id: string, t: Task, h: History, next: Client)
    requires Inv(cfg, w) && id in w.db.tasks && Committed(w, u, c, id, t, h, next)
    requires Grown(w.db.tasks[id], t) && w.db.tasks[id].version < t.version
    requires w.db.tasks[id].simulation.Some? ==> h.simulatedAt == w.Of(id).simulatedAt
    requires RecordOk(cfg, w.db.policies, w.clock, t, h)
    requires Clear(w, c, id, t.state, h)
    requires ClientOk(cfg, u, next)
    requires forall x | Owns(next, x) :: x == id && forall i | 0 <= i < |w.clients| && i != c :: !Owns(w.clients[i], x)
    ensures Inv(cfg, u)
  {
    hide ClientOk, RecordOk, Grown, Executes;
    GrownSelf();
    forall x | x in u.db.tasks ensures TaskOk(cfg, u, x) {
      if x != id {
        assert TaskOk(cfg, w, x);
      }
    }
    assert Evolves(w, u);
    assert forall p, d :: u.db.SpentOn(p, d) == w.db.SpentOn(p, d);
    forall i | 0 <= i < |w.clients| && i != c ensures Kept(w, u, w.clients[i]) {
      OthersKept(cfg, w, u, c, id, t, h, next, w.clients[i]);
    }
    StepKeepsInv(cfg, w, u, c, next);
  }

  lemma GrownSelf()
    ensures forall t :: Grown(t, t)
  {
  }

  lemma OthersKept(cfg: Config, w: World, u: World, c: nat, id: string, t: Task, h: History, next: Client, pc: Client)
    requires Committed(w, u, c, id, t, h, next) && ClientOk(cfg, w, pc)
    requires !Executes(pc, id) && (Owns(pc, id) ==> t.state in SETTLED && h.spends == w.Of(id).spends)
    ensures Kept(w, u, pc)
  {
    if Owes(pc) {
      assert pc.id == id ==> Owns(pc, id);
      OwnersSettle(cfg, w, pc, pc.id);
    }
  }

  /** The record update_task writes. */
  function Written(t: Task, state: TaskState, simulation: Option<Simulation>, receipt: Option<bool>): Task {
    t.(state := state, simulation := if simulation.Some? then simulation else t.simulation,
       receipt := if receipt.Some? then receipt else t.receipt, version := t.version + 1)
  }

  /** A commit attempt that follows what client c last read keeps the invariant, whether or not it conflicts. */
  lemma AttemptKeepsInv(cfg: Config, w: World, v: World, c: nat, id: string, version: nat, state: TaskState,
                        simulation: Option<Simulation>, receipt: Option<bool>, h: History, next: Client)
    requires Inv(cfg, w) && c < |w.clients| && v == w.(earned := v.earned, lost := v.lost)
    requires id in w.db.tasks && h.spends == w.Of(id).spends
    requires version == w.db.tasks[id].version ==>
               var t := w.db.tasks[id];
               && (t.state != EXECUTING || Executes(w.clients[c], id))
               && (t.state !in SETTLED || state in SETTLED || Owns(w.clients[c], id))
               && (simulation.Some? ==> t.simulation.None?)
               && (t.simulation.Some? ==> h.simulatedAt == w.Of(id).simulatedAt)
               && RecordOk(cfg, w.db.policies, w.clock, Written(t, state, simulation, receipt), h)
    requires var u := Commit(v, c, id, version, state, simulation, receipt, h, next);
             version == w.db.tasks[id].version ==> ClientOk(cfg, u, next)
    requires (forall x | Owns(next, x) :: x == id)
             && ((exists x :: Owns(next, x)) ==> version == w.db.tasks[id].version ==>
                   w.db.tasks[id].state !in SETTLED || Owns(w.clients[c], id))
    ensures Inv(cfg, Commit(v, c, id, version, state, simulation, receipt, h, next))
  {
    hide ClientOk, RecordOk, Executes, Clear, SpendOk, Solitary;
    var u := Commit(v, c, id, version, state, simulation, receipt, h, next);
    if version == w.db.tasks[id].version {
      ClearWay(cfg, w, c, id, state, h);
      CommitKeepsInv(cfg, w, u, c, id, Written(w.db.tasks[id], state, simulation, receipt), h, next);
    } else {
      IdleOwnsNothing();
      MoveKeepsInv(cfg, w, c, Idle);
      BooksDoNotMatter(cfg, Set(w, c, Idle), u);
    }
  }

  lemma ClientIsOk(cfg: Config, w: World, c: nat)
    requires Inv(cfg, w) && c < |w.clients|
    ensures ClientOk(cfg, w, w.clients[c])
  {
  }

  lemma TaskIsOk(cfg: Config, w: World, id: string)
    requires Inv(cfg, w) && id in w.db.tasks
    ensures TaskOk(cfg, w, id)
  {
  }

  lemma IdleOwnsNothing()
    ensures forall id :: !Owns(Idle, id)
    ensures forall cfg, w :: ClientOk(cfg, w, Idle)
  {
  }

  lemma BooksDoNotMatter(cfg: Config, w: World, u: World)
    requires Inv(cfg, w) && u == w.(earned := u.earned, lost := u.lost)
    ensures Inv(cfg, u)
  {
    hide ClientOk, RecordOk, Owns;
    forall i | 0 <= i < |u.clients| ensures ClientOk(cfg, u, u.clients[i]) {
      ClientSame(cfg, w, u, w.clients[i]);
    }
    forall id | id in u.db.tasks ensures TaskOk(cfg, u, id) {
      assert TaskOk(cfg, w, id);
    }
  }

  // ---------------------------------------------------------------- the steps

  lemma SimulateStep(cfg: Config, w: World, c: nat, outcome: Outcome, spendWorks: bool)
    requires Inv(cfg, w) && c < |w.clients| && w.clients[c].SimulateCommit?
    ensures Inv(cfg, Next(cfg, w, c, outcome, spendWorks))
  {
    hide Inv;
    var SimulateCommit(id, version, simulation, madeAt) := w.clients[c];
    ClientIsOk(cfg, w, c);
    TaskIsOk(cfg, w, id);
    var h := w.Of(id);
    AttemptKeepsInv(cfg, w, w, c, id, version, SIMULATED, Some(simulation), None,
                    h.(simulations := h.simulations + 1, simulatedAt := madeAt), SimulateReread(id));
  }

  lemma RequireApprovalStep(cfg: Config, w: World, c: nat, outcome: Outcome, spendWorks: bool)
    requires Inv(cfg, w) && c < |w.clients| && w.clients[c].RequireApprovalCommit?
    ensures Inv(cfg, Next(cfg, w, c, outcome, spendWorks))
  {
    hide Inv;
    var RequireApprovalCommit(id, version) := w.clients[c];
    ClientIsOk(cfg, w, c);
    TaskIsOk(cfg, w, id);
    var h := w.Of(id);
    AttemptKeepsInv(cfg, w, w, c, id, version, APPROVAL_REQUIRED, None, None, h, Idle);
  }

  lemma ApproveStep(cfg: Config, w: World, c: nat, outcome: Outcome, spendWorks: bool)
    requires Inv(cfg, w) && c < |w.clients| && w.clients[c].ApproveCommit?
    ensures Inv(cfg, Next(cfg, w, c, outcome, spendWorks))
  {
    hide Inv;
    var ApproveCommit(id, version) := w.clients[c];
    ClientIsOk(cfg, w, c);
    TaskIsOk(cfg, w, id);
    var h := w.Of(id);
    AttemptKeepsInv(cfg, w, w, c, id, version, APPROVED, None, None, h.(approvals := h.approvals + 1), Idle);
  }

  lemma RevokeStep(cfg: Config, w: World, c: nat, outcome: Outcome, spendWorks: bool)
    requires Inv(cfg, w) && c < |w.clients| && w.clients[c].RevokeCommit?
    ensures Inv(cfg, Next(cfg, w, c, outcome, spendWorks))
  {
    hide Inv;
    var RevokeCommit(id, version) := w.clients[c];
    ClientIsOk(cfg, w, c);
    TaskIsOk(cfg, w, id);
    var h := w.Of(id);
    AttemptKeepsInv(cfg, w, w, c, id, version, REVOKED, None, None, h, Idle);
  }

  lemma ExecuteCommitStep(cfg: Config, w: World, c: nat, outcome: Outcome, spendWorks: bool)
    requires Inv(cfg, w) && c < |w.clients| && w.clients[c].ExecuteCommit?
    ensures Inv(cfg, Next(cfg, w, c, outcome, spendWorks))
  {
    hide Inv;
    var ExecuteCommit(id, version, policyId, v) := w.clients[c];
    ClientIsOk(cfg, w, c);
    TaskIsOk(cfg, w, id);
    var h := w.Of(id);
    AttemptKeepsInv(cfg, w, w, c, id, version, EXECUTING, None, None, h.(executions := h.executions + 1),
                    ExecuteReread(id, policyId, v));
  }

  /** What the executor holds after its closing commit. */
  lemma ClosedSpendOk(cfg: Config, w: World, u: World, c: nat, id: string, version: nat, policyId: string, v: real)
    requires c < |u.clients| && u.db == w.db && u.history == w.history
    requires ClientOk(cfg, w, ExecuteClose(id, version, policyId, v, true)) && w.Of(id).spends == 0
    ensures ClientOk(cfg, Commit(u, c, id, version, SUCCEEDED, None, Some(true), w.Of(id),
                                SpendReread(id, policyId, v)),
                     SpendReread(id, policyId, v))
  {
  }

  lemma CloseSucceeds(cfg: Config, w: World, c: nat, id: string, version: nat, policyId: string, v: real)
    requires Inv(cfg, w) && c < |w.clients| && w.clients[c] == ExecuteClose(id, version, policyId, v, true)
    ensures var u := w.(earned := w.earned[policyId := Amount(w.earned, policyId) + v]);
            Inv(cfg, Commit(u, c, id, version, SUCCEEDED, None, Some(true), w.Of(id), SpendReread(id, policyId, v)))
  {
    hide Inv, Amount, Commit;
    var u := w.(earned := w.earned[policyId := Amount(w.earned, policyId) + v]);
    ClientIsOk(cfg, w, c);
    TaskIsOk(cfg, w, id);
    ClosedSpendOk(cfg, w, u, c, id, version, policyId, v);
    AttemptKeepsInv(cfg, w, u, c, id, version, SUCCEEDED, None, Some(true), w.Of(id), SpendReread(id, policyId, v));
  }

  lemma CloseFails(cfg: Config, w: World, c: nat, id: string, version: nat, policyId: string, v: real)
    requires Inv(cfg, w) && c < |w.clients| && w.clients[c] == ExecuteClose(id, version, policyId, v, false)
    ensures Inv(cfg, Commit(w, c, id, version, FAILED, None, Some(false), w.Of(id), Idle))
  {
    hide Inv;
    ClientIsOk(cfg, w, c);
    TaskIsOk(cfg, w, id);
    AttemptKeepsInv(cfg, w, w, c, id, version, FAILED, None, Some(false), w.Of(id), Idle);
  }

  lemma CloseStep(cfg: Config, w: World, c: nat, outcome: Outcome, spendWorks: bool)
    requires Inv(cfg, w) && c < |w.clients| && w.clients[c].ExecuteClose?
    ensures Inv(cfg, Next(cfg, w, c, outcome, spendWorks))
  {
    hide SpendOk, Solitary, RecordOk, Commit;
    var ExecuteClose(id, version, policyId, v, success) := w.clients[c];
    ClosingFindsVersion(cfg, w, w.clients[c]);
    if success {
      CloseSucceeds(cfg, w, c, id, version, policyId, v);
    } else {
      CloseFails(cfg, w, c, id, version, policyId, v);
    }
  }

  /** A closing update that holds the task's version is not refused. */
  lemma ClosingFindsVersion(cfg: Config, w: World, pc: Client)
    requires ClientOk(cfg, w, pc) && (pc.ExecuteClose? || pc.ExecuteFail?)
    ensures forall state, simulation, receipt :: UpdateTask(w.db, pc.id, pc.version, state, simulation, receipt).Some?
  {
  }

  lemma FailStep(cfg: Config, w: World, c: nat, outcome: Outcome, spendWorks: bool)
    requires Inv(cfg, w) && c < |w.clients| && w.clients[c].ExecuteFail?
    ensures Inv(cfg, Next(cfg, w, c, outcome, spendWorks))
  {
    hide Inv;
    var ExecuteFail(id, version, policyId, v) := w.clients[c];
    ClientIsOk(cfg, w, c);
    TaskIsOk(cfg, w, id);
    var h := w.Of(id);
    AttemptKeepsInv(cfg, w, w, c, id, version, FAILED, None, Some(false), h, Idle);
  }

  lemma SpendFailStep(cfg: Config, w: World, c: nat, outcome: Outcome, spendWorks: bool)
    requires Inv(cfg, w) && c < |w.clients| && w.clients[c].SpendFail?
    ensures Inv(cfg, Next(cfg, w, c, outcome, spendWorks))
  {
    hide Inv;
    var SpendFail(id, version, policyId, v) := w.clients[c];
    ClientIsOk(cfg, w, c);
    TaskIsOk(cfg, w, id);
    var h := w.Of(id);
    var u := w.(lost := w.lost[policyId := Amount(w.lost, policyId) + v]);
    AttemptKeepsInv(cfg, w, u, c, id, version, FAILED, None, Some(false), h, Idle);
  }

  /** Re-reads between two commits. */
  lemma RereadStep(cfg: Config, w: World, c: nat, outcome: Outcome, spendWorks: bool)
    requires Inv(cfg, w) && c < |w.clients|
    requires var pc := w.clients[c]; pc.SimulateReread? || pc.ExecuteReread? || pc.SpendReread?
    ensures Inv(cfg, Next(cfg, w, c, outcome, spendWorks))
  {
    hide SpendOk, Solitary, RecordOk;
    var pc := w.clients[c];
    assert ClientOk(cfg, w, pc);
    IdleOwnsNothing();
    match pc
    case SimulateReread(id) =>
      MoveKeepsInv(cfg, w, c, if Edge(w.db.tasks[id].state, APPROVAL_REQUIRED)
                              then RequireApprovalCommit(id, w.db.tasks[id].version) else Idle);
    case ExecuteReread(id, policyId, v) =>
      MoveKeepsInv(cfg, w, c, ExecuteCall(id, w.db.tasks[id].version, policyId, v));
    case SpendReread(id, policyId, v) => MoveKeepsInv(cfg, w, c, SpendAdd(id, w.db.tasks[id].version, policyId, v));
  }

  lemma PolicyStep(cfg: Config, w: World, c: nat, outcome: Outcome, spendWorks: bool)
    requires Inv(cfg, w) && c < |w.clients| && w.clients[c].ExecutePolicy?
    ensures Inv(cfg, Next(cfg, w, c, outcome, spendWorks))
  {
    hide SpendOk, Solitary, RecordOk;
    var ExecutePolicy(id, t, req) := w.clients[c];
    assert ClientOk(cfg, w, w.clients[c]);
    IdleOwnsNothing();
    MoveKeepsInv(cfg, w, c, if t.policyId in w.db.policies && req.mode == DEMO
                            then ExecuteCheck(id, t, w.db.policies[t.policyId], req) else Idle);
  }

  /** The adapter's answer. */
  lemma AwaitStep(cfg: Config, w: World, c: nat, outcome: Outcome, spendWorks: bool)
    requires Inv(cfg, w) && c < |w.clients| && w.clients[c].ExecuteAwait?
    ensures Inv(cfg, Next(cfg, w, c, outcome, spendWorks))
  {
    hide SpendOk, Solitary, RecordOk;
    var ExecuteAwait(id, version, policyId, v) := w.clients[c];
    assert ClientOk(cfg, w, w.clients[c]);
    MoveKeepsInv(cfg, w, c, if outcome == AdapterRaises then ExecuteFail(id, version, policyId, v)
                            else ExecuteClose(id, version, policyId, v, outcome == AdapterSucceeds));
  }

  /** simulate's expiry and the intent's deadline are fixed from one reading of the clock. */
  lemma CheckStep(cfg: Config, w: World, c: nat, outcome: Outcome, spendWorks: bool)
    requires Inv(cfg, w) && c < |w.clients| && w.clients[c].ExecuteCheck?
    ensures Inv(cfg, Next(cfg, w, c, outcome, spendWorks))
  {
    hide SpendOk, Solitary;
    var ExecuteCheck(id, t, p, req) := w.clients[c];
    assert ClientOk(cfg, w, w.clients[c]);
    assert TaskOk(cfg, w, id);
    MoveKeepsInv(cfg, w, c, ExecuteGate(id, t, p, IntentOf(cfg, id, t, req, w.clock), w.clock));
  }

  /** A gate pass prices the transaction and needs the snapshot to be APPROVED. */
  lemma GateStep(cfg: Config, w: World, c: nat, outcome: Outcome, spendWorks: bool)
    requires Inv(cfg, w) && c < |w.clients| && w.clients[c].ExecuteGate?
    ensures Inv(cfg, Next(cfg, w, c, outcome, spendWorks))
  {
    hide Solitary, RecordOk, Listed;
    var ExecuteGate(id, t, p, intent, _) := w.clients[c];
    assert ClientOk(cfg, w, w.clients[c]);
    assert 0.0 <= w.db.SpentOn(t.policyId, Day(w.clock));
    IdleOwnsNothing();
    MoveKeepsInv(cfg, w, c, if GatePasses(cfg, w, w.clients[c])
                            then ExecuteCommit(id, t.version, t.policyId, intent.value) else Idle);
  }

  /** A step that changes only the history of a task its client owns. */
  lemma CallStep(cfg: Config, w: World, c: nat, outcome: Outcome, spendWorks: bool)
    requires Inv(cfg, w) && c < |w.clients| && w.clients[c].ExecuteCall?
    ensures Inv(cfg, Next(cfg, w, c, outcome, spendWorks))
  {
    hide Solitary;
    var ExecuteCall(id, version, policyId, v) := w.clients[c];
    var u := Next(cfg, w, c, outcome, spendWorks);
    assert ClientOk(cfg, w, w.clients[c]);
    assert u.db == w.db;
    OwnHistoryKeepsInv(cfg, w, u, c, id, u.Of(id), ExecuteAwait(id, version, policyId, v));
  }

  /** add_spend: the day's total grows, and the task is never charged again. */
  lemma SpendStep(cfg: Config, w: World, c: nat, outcome: Outcome, spendWorks: bool)
    requires Inv(cfg, w) && c < |w.clients| && w.clients[c].SpendAdd?
    ensures Inv(cfg, Next(cfg, w, c, outcome, spendWorks))
  {
    hide Solitary;
    var SpendAdd(id, version, policyId, v) := w.clients[c];
    var u := Next(cfg, w, c, outcome, spendWorks);
    assert ClientOk(cfg, w, w.clients[c]);
    IdleOwnsNothing();
    if spendWorks {
      forall p, d
        ensures u.db.SpentOn(p, d)
                == w.db.SpentOn(p, d) + if p == policyId && d == Day(w.clock) then v else 0.0 {
        SpendAdds(w.db, policyId, Day(w.clock), v, p, d);
      }
      OwnHistoryKeepsInv(cfg, w, u, c, id, u.Of(id), Idle);
    } else {
      MoveKeepsInv(cfg, w, c, SpendFail(id, version, policyId, v));
    }
  }

  lemma OwnHistoryKeepsInv(cfg: Config, w: World, u: World, c: nat, id: string, h: History, next: Client)
    requires Inv(cfg, w) && c < |w.clients| && id in w.db.tasks && Owns(w.clients[c], id)
    requires u.clients == w.clients[c := next] && u.history == w.history[id := h] && u.clock == w.clock
    requires u.db.tasks == w.db.tasks && u.db.policies == w.db.policies && SpendOk(u)
    requires h.simulatedAt == w.Of(id).simulatedAt && RecordOk(cfg, w.db.policies, w.clock, w.db.tasks[id], h)
    requires ClientOk(cfg, u, next) && forall x | Owns(next, x) :: x == id
    ensures Inv(cfg, u)
  {
    hide ClientOk, RecordOk, SpendOk;
    forall x | x in u.db.tasks ensures TaskOk(cfg, u, x) {
      if x != id {
        assert TaskOk(cfg, w, x);
      }
    }
    forall i | 0 <= i < |w.clients| && i != c ensures !Owns(w.clients[i], id) && Kept(w, u, w.clients[i]) {
      SoleOwner(w.clients, c, i, id);
      NotOwnKept(cfg, w, u, id, h, w.clients[i]);
    }
    StepKeepsInv(cfg, w, u, c, next);
  }

  lemma SoleOwner(clients: seq<Client>, c: nat, i: nat, id: string)
    requires Solitary(clients) && c < |clients| && i < |clients| && i != c && Owns(clients[c], id)
    ensures !Owns(clients[i], id)
  {
  }

  lemma NotOwnKept(cfg: Config, w: World, u: World, id: string, h: History, pc: Client)
    requires ClientOk(cfg, w, pc) && !Owns(pc, id)
    requires u.db.tasks == w.db.tasks && u.history == w.history[id := h]
    ensures Kept(w, u, pc)
  {
    if Owes(pc) {
      assert pc.id != id;
    }
  }

  lemma TableStep(cfg: Config, w: World, c: nat, outcome: Outcome, spendWorks: bool)
    requires Inv(cfg, w) && c < |w.clients| && (w.clients[c].PolicySave? || w.clients[c].TaskInsert?)
    ensures Inv(cfg, Next(cfg, w, c, outcome, spendWorks))
  {
    hide Inv, ClientOk;
    IdleOwnsNothing();
    if w.clients[c].PolicySave? {
      SavedPolicyKeepsInv(cfg, w, c);
    } else {
      InsertedTaskKeepsInv(cfg, w, c);
    }
  }

  lemma SavedPolicyKeepsInv(cfg: Config, w: World, c: nat)
    requires Inv(cfg, w) && c < |w.clients| && w.clients[c].PolicySave?
    ensures Inv(cfg, Set(w.(db := SavePolicy(w.db, w.clients[c].policyId, w.clients[c].policy)), c, Idle))
  {
    hide Inv;
    var u := w.(db := SavePolicy(w.db, w.clients[c].policyId, w.clients[c].policy));
    ClientIsOk(cfg, w, c);
    IdleOwnsNothing();
    TablesKeepInv(cfg, w, u);
    MoveKeepsInv(cfg, u, c, Idle);
  }

  lemma InsertedTaskKeepsInv(cfg: Config, w: World, c: nat)
    requires Inv(cfg, w) && c < |w.clients| && w.clients[c].TaskInsert?
    ensures var TaskInsert(id, agentId, policyId, request, key) := w.clients[c];
            var inserted := InsertTask(w.db, id, agentId, policyId, request, key);
            Inv(cfg, if inserted.None? then Set(w, c, Idle) else Set(w.(db := inserted.value), c, Idle))
  {
    hide Inv;
    var TaskInsert(id, agentId, policyId, request, key) := w.clients[c];
    var inserted := InsertTask(w.db, id, agentId, policyId, request, key);
    ClientIsOk(cfg, w, c);
    IdleOwnsNothing();
    if inserted.None? {
      MoveKeepsInv(cfg, w, c, Idle);
    } else {
      var u := w.(db := inserted.value);
      TablesKeepInv(cfg, w, u);
      MoveKeepsInv(cfg, u, c, Idle);
    }
  }

  /** New rows, revoked policies and the passing of time. */
  lemma TablesKeepInv(cfg: Config, w: World, u: World)
    requires Inv(cfg, w) && w.clock <= u.clock && u.history == w.history && u.db.spend == w.db.spend
    requires forall id | id in w.db.tasks :: id in u.db.tasks && u.db.tasks[id] == w.db.tasks[id]
    requires forall id | id in u.db.tasks && id !in w.db.tasks ::
               var t := u.db.tasks[id]; t.state == DRAFT && t.simulation == None && t.policyId in u.db.policies
    requires forall p | p in w.db.policies :: SamePolicy(u, p, w.db.policies[p])
    ensures Inv(cfg, w.(db := u.db, clock := u.clock, killed := u.killed))
  {
    hide ClientOk, Solitary, RecordOk, Grown;
    var v := w.(db := u.db, clock := u.clock, killed := u.killed);
    GrownSelf();
    LaterSpend(w, v);
    forall id | id in v.db.tasks ensures TaskOk(cfg, v, id) {
      if id in w.db.tasks {
        assert TaskOk(cfg, w, id);
        LaterRecord(cfg, w, v, w.db.tasks[id], w.Of(id));
      } else {
        assert v.Of(id) == w.Of(id) == NO_HISTORY;
        NewRecord(cfg, v, v.db.tasks[id]);
      }
    }
    assert Evolves(w, v);
    forall i | 0 <= i < |v.clients| ensures ClientOk(cfg, v, v.clients[i]) {
      TablesKept(cfg, w, v, w.clients[i]);
      ClientFrame(cfg, w, v, w.clients[i]);
    }
  }

  lemma LaterSpend(w: World, v: World)
    requires SpendOk(w) && v.db.spend == w.db.spend && w.clock <= v.clock
    ensures SpendOk(v)
  {
    assert forall p, d :: v.db.SpentOn(p, d) == w.db.SpentOn(p, d);
  }

  lemma LaterRecord(cfg: Config, w: World, v: World, t: Task, h: History)
    requires RecordOk(cfg, w.db.policies, w.clock, t, h) && w.clock <= v.clock
    requires forall p | p in w.db.policies :: p in v.db.policies
    ensures RecordOk(cfg, v.db.policies, v.clock, t, h)
  {
  }

  lemma NewRecord(cfg: Config, v: World, t: Task)
    requires t.state == DRAFT && t.simulation == None && t.policyId in v.db.policies
    ensures RecordOk(cfg, v.db.policies, v.clock, t, NO_HISTORY)
  {
  }

  lemma TablesKept(cfg: Config, w: World, v: World, pc: Client)
    requires ClientOk(cfg, w, pc) && v.history == w.history
    requires forall id | id in w.db.tasks :: id in v.db.tasks && v.db.tasks[id] == w.db.tasks[id]
    ensures Kept(w, v, pc)
  {
    hide ClientOk;
    if Owes(pc) {
      OwnersSettle(cfg, w, pc, pc.id);
    }
  }

  lemma NextKeepsInv(cfg: Config, w: World, c: nat, outcome: Outcome, spendWorks: bool)
    requires Inv(cfg, w) && c < |w.clients|
    ensures Inv(cfg, Next(cfg, w, c, outcome, spendWorks))
  {
    hide Inv, Next;
    match w.clients[c]
    case Idle => NothingHappens(cfg, w, c, outcome, spendWorks);
    case SimulateCommit(_, _, _, _) => SimulateStep(cfg, w, c, outcome, spendWorks);
    case RequireApprovalCommit(_, _) => RequireApprovalStep(cfg, w, c, outcome, spendWorks);
    case ApproveCommit(_, _) => ApproveStep(cfg, w, c, outcome, spendWorks);
    case RevokeCommit(_, _) => RevokeStep(cfg, w, c, outcome, spendWorks);
    case ExecuteCheck(_, _, _, _) => CheckStep(cfg, w, c, outcome, spendWorks);
    case ExecuteGate(_, _, _, _, _) => GateStep(cfg, w, c, outcome, spendWorks);
    case ExecuteCommit(_, _, _, _) => ExecuteCommitStep(cfg, w, c, outcome, spendWorks);
    case ExecuteCall(_, _, _, _) => CallStep(cfg, w, c, outcome, spendWorks);
    case ExecuteClose(_, _, _, _, _) => CloseStep(cfg, w, c, outcome, spendWorks);
    case ExecuteFail(_, _, _, _) => FailStep(cfg, w, c, outcome, spendWorks);
    case SpendAdd(_, _, _, _) => SpendStep(cfg, w, c, outcome, spendWorks);
    case SpendFail(_, _, _, _) => SpendFailStep(cfg, w, c, outcome, spendWorks);
    case PolicySave(_, _) => TableStep(cfg, w, c, outcome, spendWorks);
    case TaskInsert(_, _, _, _, _) => TableStep(cfg, w, c, outcome, spendWorks);
    case ExecutePolicy(_, _, _) => PolicyStep(cfg, w, c, outcome, spendWorks);
    case ExecuteAwait(_, _, _, _) => AwaitStep(cfg, w, c, outcome, spendWorks);
    case _ => RereadStep(cfg, w, c, outcome, spendWorks);
  }

  lemma NothingHappens(cfg: Config, w: World, c: nat, outcome: Outcome, spendWorks: bool)
    requires c < |w.clients| && w.clients[c].Idle?
    ensures Next(cfg, w, c, outcome, spendWorks) == w
  {
  }

  lemma BeginSets(cfg: Config, w: World, c: nat, call: Call)
    requires c < |w.clients| && w.clients[c].Idle?
    ensures var u := BeginCall(cfg, w, c, call);
            |u.clients| == |w.clients| && u == Set(w, c, u.clients[c])
  {
    hide Edge;
    assert w == Set(w, c, w.clients[c]);
  }

  /** What a call has read when its first step ends. */
  ghost predicate BeginsWell(cfg: Config, w: World, c: nat, call: Call)
    requires c < |w.clients|
  {
    var u := BeginCall(cfg, w, c, call);
    |u.clients| == |w.clients| && ClientOk(cfg, w, u.clients[c]) && !InMoney(u.clients[c])
  }

  lemma BeginReads(cfg: Config, w: World, c: nat, call: Call)
    requires c < |w.clients| && w.clients[c].Idle?
    ensures BeginsWell(cfg, w, c, call)
  {
    hide BeginsWell;
    if call.Simulate? || call.Approve? || call.RevokeTask? {
      BeginReadsTask(cfg, w, c, call);
    } else if call.Execute? {
      BeginReadsExecute(cfg, w, c, call);
    } else {
      BeginReadsOther(cfg, w, c, call);
    }
  }

  lemma BeginReadsExecute(cfg: Config, w: World, c: nat, call: Call)
    requires c < |w.clients| && w.clients[c].Idle? && call.Execute?
    ensures BeginsWell(cfg, w, c, call)
  {
  }

  lemma BeginReadsTask(cfg: Config, w: World, c: nat, call: Call)
    requires c < |w.clients| && w.clients[c].Idle? && (call.Simulate? || call.Approve? || call.RevokeTask?)
    ensures BeginsWell(cfg, w, c, call)
  {
    EdgeSources();
    hide Edge;
  }

  lemma BeginReadsOther(cfg: Config, w: World, c: nat, call: Call)
    requires c < |w.clients| && w.clients[c].Idle? && (call.CreateTask? || call.RevokePolicy?)
    ensures BeginsWell(cfg, w, c, call)
  {
    hide Edge;
    assert call.RevokePolicy? && call.policyId in w.db.policies ==>
             SamePolicy(w, call.policyId, w.db.policies[call.policyId].(revoked := true));
  }

  lemma EdgeSources()
    ensures forall s :: Edge(s, SIMULATED) ==> s == DRAFT
    ensures forall s :: Edge(s, APPROVED) ==> s in APPROVABLE
    ensures forall s :: Edge(s, REVOKED) ==> s in REVOCABLE
  {
  }

  predicate InMoney(pc: Client) {
    pc.ExecuteCommit? || pc.ExecuteReread? || pc.ExecuteCall? || pc.ExecuteAwait? || pc.ExecuteClose?
    || pc.ExecuteFail? || Owes(pc)
  }

  lemma BeginKeepsInv(cfg: Config, w: World, c: nat, call: Call)
    requires Inv(cfg, w) && c < |w.clients| && w.clients[c].Idle?
    ensures Inv(cfg, BeginCall(cfg, w, c, call))
  {
    hide Inv, BeginCall, ClientOk;
    BeginSets(cfg, w, c, call);
    BeginReads(cfg, w, c, call);
    MoveKeepsInv(cfg, w, c, BeginCall(cfg, w, c, call).clients[c]);
  }

  /** MAIN RESULT. The invariant holds after every action of every client, the clock and the operator. */
  lemma ApplyKeepsInv(cfg: Config, w: World, a: Action)
    requires Inv(cfg, w)
    ensures Inv(cfg, Apply(cfg, w, a))
  {
    hide ClientOk, RecordOk, Next, BeginCall, SpendOk, Solitary;
    match a
    case Tick(seconds) => TablesKeepInv(cfg, w, w.(clock := w.clock + seconds));
    case Kill(on) => TablesKeepInv(cfg, w, w.(killed := on));
    case CreatePolicy(policyId, p) =>
      if policyId !in w.db.policies {
        TablesKeepInv(cfg, w, w.(db := SavePolicy(w.db, policyId, p.(revoked := false))));
      }
    case Begin(c, call) =>
      if c < |w.clients| && w.clients[c].Idle? {
        BeginKeepsInv(cfg, w, c, call);
      }
    case Advance(c, outcome, spendWorks) =>
      if c < |w.clients| {
        NextKeepsInv(cfg, w, c, outcome, spendWorks);
      }
    case Crash(c) =>
      if c < |w.clients| {
        IdleOwnsNothing();
        MoveKeepsInv(cfg, w, c, Idle);
        BooksDoNotMatter(cfg, Set(w, c, Idle), Apply(cfg, w, a));
      }
  }

  lemma {:induction false} RunKeepsInv(cfg: Config, w: World, as_: seq<Action>)
    requires Init(w)
    ensures Inv(cfg, Run(cfg, w, as_))
    decreases |as_|
  {
    hide Apply, ClientOk, RecordOk;
    if as_ == [] {
      IdleOwnsNothing();
    } else {
      RunKeepsInv(cfg, w, as_[..|as_| - 1]);
      ApplyKeepsInv(cfg, Run(cfg, w, as_[..|as_| - 1]), as_[|as_| - 1]);
    }
  }

  /** MAIN RESULT, over every run: an executor about to close its task finds the version it read, so neither its
      closing update nor the one in its handler meets a conflict. */
  lemma ClosingIsCurrent(cfg: Config, w: World, as_: seq<Action>, c: nat)
    requires Init(w) && c < |Run(cfg, w, as_).clients|
    requires var pc := Run(cfg, w, as_).clients[c]; pc.ExecuteClose? || pc.ExecuteFail?
    ensures var u := Run(cfg, w, as_); var pc := u.clients[c];
            && pc.id in u.db.tasks && u.db.tasks[pc.id].state == EXECUTING && u.db.tasks[pc.id].version == pc.version
            && forall state, simulation, receipt ::
                 UpdateTask(u.db, pc.id, pc.version, state, simulation, receipt).Some?
  {
    hide Run, UpdateTask, SpendOk, RecordOk, Solitary;
    RunKeepsInv(cfg, w, as_);
    ClientIsOk(cfg, Run(cfg, w, as_), c);
    ClosingFindsVersion(cfg, Run(cfg, w, as_), Run(cfg, w, as_).clients[c]);
  }
}
