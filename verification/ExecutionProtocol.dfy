/** TaskService as interleaved clients: every call is cut into the steps between which other clients may run,
    one step per store transaction, re-read, clock or gate reading, and adapter await. */
module ExecutionProtocol {
  import opened Values
  import opened RiskGate
  import opened ExecutionStore

  datatype Config = Config(gate: Gate, digest: string -> string)

  datatype Request = Request(
    key: string, chainId: int, target: string, methodName: string, value: real, slippage: int,
    mode: Mode, source: Source)

  datatype Outcome = AdapterSucceeds | AdapterFails | AdapterRaises

  /** Where a client is inside a call. The fields are what its local variables hold. */
  datatype Client =
    | Idle
    | SimulateCommit(id: string, version: nat, simulation: Simulation, madeAt: int)
    | SimulateReread(id: string)
    | RequireApprovalCommit(id: string, version: nat)
    | ApproveCommit(id: string, version: nat)
    | RevokeCommit(id: string, version: nat)
    | ExecutePolicy(id: string, task: Task, req: Request)
    | ExecuteCheck(id: string, task: Task, policy: Policy, req: Request)
    | ExecuteGate(id: string, task: Task, policy: Policy, intent: Intent, checkedAt: int)
    | ExecuteCommit(id: string, version: nat, policyId: string, value: real)
    | ExecuteReread(id: string, policyId: string, value: real)
    | ExecuteCall(id: string, version: nat, policyId: string, value: real)
    | ExecuteAwait(id: string, version: nat, policyId: string, value: real)
    | ExecuteClose(id: string, version: nat, policyId: string, value: real, success: bool)
    | ExecuteFail(id: string, version: nat, policyId: string, value: real)
    | SpendReread(id: string, policyId: string, value: real)
    | SpendAdd(id: string, version: nat, policyId: string, value: real)
    | SpendFail(id: string, version: nat, policyId: string, value: real)
    | PolicySave(policyId: string, policy: Policy)
    | TaskInsert(id: string, agentId: string, policyId: string, request: string, key: string)

  /** Calls a client may begin; task and policy ids for new rows are uuids chosen by the caller of the step. */
  datatype Call =
    | Simulate(id: string, passed: bool)
    | Approve(id: string)
    | RevokeTask(id: string)
    | Execute(id: string, req: Request)
    | CreateTask(newId: string, agentId: string, policyId: string, request: string, key: string)
    | RevokePolicy(policyId: string)

  datatype Action =
    | Tick(seconds: nat)
    | Kill(on: bool)
    | CreatePolicy(policyId: string, policy: Policy)
    | Begin(client: nat, call: Call)
    | Advance(client: nat, outcome: Outcome, spendWorks: bool)
    | Crash(client: nat)

  /** History of one task, for stating properties; nothing reads it. */
  datatype History = History(
    approvals: nat, executions: nat, calls: nat, simulations: nat, simulatedAt: int, spends: nat)

  const NO_HISTORY := History(0, 0, 0, 0, 0, 0)

  datatype World = World(
    db: Db, clock: int, killed: bool, clients: seq<Client>,
    history: map<string, History>, earned: map<string, real>, lost: map<string, real>)
  {
    function Of(id: string): History {
      if id in history then history[id] else NO_HISTORY
    }
  }

  function Amount(m: map<string, real>, id: string): real {
    if id in m then m[id] else 0.0
  }

  function Set(w: World, c: nat, next: Client): World
    requires c < |w.clients|
  {
    w.(clients := w.clients[c := next])
  }

  /** Commit a state change for client c, then continue as `next`; a conflict raises and ends the call. */
  function Commit(w: World, c: nat, id: string, version: nat, state: TaskState, simulation: Option<Simulation>,
                  receipt: Option<bool>, h: History, next: Client): World
    requires c < |w.clients|
  {
    match UpdateTask(w.db, id, version, state, simulation, receipt)
    case None => Set(w, c, Idle)
    case Some(db) => Set(w.(db := db, history := w.history[id := h]), c, next)
  }

  /** The first step of a call: its first store read and the checks that follow it. */
  function BeginCall(cfg: Config, w: World, c: nat, call: Call): World
    requires c < |w.clients|
  {
    match call
    case Simulate(id, passed) =>
      if id in w.db.tasks && Edge(w.db.tasks[id].state, SIMULATED) && passed then
        var t := w.db.tasks[id];
        Set(w, c, SimulateCommit(id, t.version, Simulation(cfg.digest(t.request), t.policyId, w.clock + 300), w.clock))
      else w
    case Approve(id) =>
      if id in w.db.tasks && Edge(w.db.tasks[id].state, APPROVED)
      then Set(w, c, ApproveCommit(id, w.db.tasks[id].version)) else w
    case RevokeTask(id) =>
      if id in w.db.tasks && Edge(w.db.tasks[id].state, REVOKED)
      then Set(w, c, RevokeCommit(id, w.db.tasks[id].version)) else w
    case Execute(id, req) =>
      if id in w.db.tasks then Set(w, c, ExecutePolicy(id, w.db.tasks[id], req)) else w
    case CreateTask(id, agentId, policyId, request, key) =>
      if policyId in w.db.policies && w.db.policies[policyId].agentId == agentId then
        Set(w, c, TaskInsert(id, agentId, policyId, request, key))
      else w
    case RevokePolicy(policyId) =>
      if policyId in w.db.policies
      then Set(w, c, PolicySave(policyId, w.db.policies[policyId].(revoked := true))) else w
  }

  predicate SimulationValid(cfg: Config, t: Task, now: int) {
    && t.simulation.Some?
    && t.simulation.value.requestHash == cfg.digest(t.request)
    && t.simulation.value.policyId == t.policyId
    && now < t.simulation.value.expiresAt
  }

  function IntentOf(cfg: Config, id: string, t: Task, req: Request, now: int): Intent {
    Intent(id, req.key, t.agentId, req.chainId, cfg.gate.lower(req.target), cfg.gate.lower(req.methodName), req.value,
           req.slippage, now + 300, req.mode, SimulationValid(cfg, t, now), t.state == APPROVED, req.source)
  }

  function GateReadings(w: World, policyId: string): Readings {
    Readings(w.clock, w.killed, w.db.SpentOn(policyId, Day(w.clock)), false)
  }

  /** The gate allows the intent and the task may go to EXECUTING. */
  ghost predicate GatePasses(cfg: Config, w: World, pc: Client) {
    pc.ExecuteGate? && Authorised(cfg.gate, pc.intent, pc.policy, GateReadings(w, pc.task.policyId))
    && Edge(pc.task.state, EXECUTING)
  }

  /** Where the call goes from step pc. */
  ghost function Next(cfg: Config, w: World, c: nat, outcome: Outcome, spendWorks: bool): World
    requires c < |w.clients|
  {
    match w.clients[c]
    case Idle => w
    case SimulateCommit(id, version, simulation, madeAt) =>
      var h := w.Of(id);
      Commit(w, c, id, version, SIMULATED, Some(simulation), None,
             h.(simulations := h.simulations + 1, simulatedAt := madeAt), SimulateReread(id))
    case SimulateReread(id) =>
      if id in w.db.tasks && Edge(w.db.tasks[id].state, APPROVAL_REQUIRED)
      then Set(w, c, RequireApprovalCommit(id, w.db.tasks[id].version)) else Set(w, c, Idle)
    case RequireApprovalCommit(id, version) => Commit(w, c, id, version, APPROVAL_REQUIRED, None, None, w.Of(id), Idle)
    case ApproveCommit(id, version) =>
      Commit(w, c, id, version, APPROVED, None, None, w.Of(id).(approvals := w.Of(id).approvals + 1), Idle)
    case RevokeCommit(id, version) => Commit(w, c, id, version, REVOKED, None, None, w.Of(id), Idle)
    case ExecutePolicy(id, t, req) =>
      if t.policyId in w.db.policies && req.mode == DEMO
      then Set(w, c, ExecuteCheck(id, t, w.db.policies[t.policyId], req)) else Set(w, c, Idle)
    case ExecuteCheck(id, t, p, req) => Set(w, c, ExecuteGate(id, t, p, IntentOf(cfg, id, t, req, w.clock), w.clock))
    case ExecuteGate(id, t, p, intent, _) =>
      if GatePasses(cfg, w, w.clients[c])
      then Set(w, c, ExecuteCommit(id, t.version, t.policyId, intent.value)) else Set(w, c, Idle)
    case ExecuteCommit(id, version, policyId, v) =>
      Commit(w, c, id, version, EXECUTING, None, None, w.Of(id).(executions := w.Of(id).executions + 1),
             ExecuteReread(id, policyId, v))
    case ExecuteReread(id, policyId, v) =>
      if id in w.db.tasks then Set(w, c, ExecuteCall(id, w.db.tasks[id].version, policyId, v)) else Set(w, c, Idle)
    case ExecuteCall(id, version, policyId, v) =>
      Set(w.(history := w.history[id := w.Of(id).(calls := w.Of(id).calls + 1)]), c,
          ExecuteAwait(id, version, policyId, v))
    case ExecuteAwait(id, version, policyId, v) =>
      if outcome == AdapterRaises then Set(w, c, ExecuteFail(id, version, policyId, v))
      else Set(w, c, ExecuteClose(id, version, policyId, v, outcome == AdapterSucceeds))
    case ExecuteClose(id, version, policyId, v, success) =>
      if UpdateTask(w.db, id, version, SUCCEEDED, None, Some(true)).None?
      then Set(w, c, ExecuteFail(id, version, policyId, v))
      else if success then
        var u := w.(earned := w.earned[policyId := Amount(w.earned, policyId) + v]);
        Commit(u, c, id, version, SUCCEEDED, None, Some(true), w.Of(id), SpendReread(id, policyId, v))
      else Commit(w, c, id, version, FAILED, None, Some(false), w.Of(id), Idle)
    case ExecuteFail(id, version, _, _) => Commit(w, c, id, version, FAILED, None, Some(false), w.Of(id), Idle)
    case SpendReread(id, policyId, v) =>
      if id in w.db.tasks then Set(w, c, SpendAdd(id, w.db.tasks[id].version, policyId, v)) else Set(w, c, Idle)
    case SpendAdd(id, version, policyId, v) =>
      if spendWorks then
        var h := w.Of(id);
        Set(w.(db := AddSpend(w.db, policyId, Day(w.clock), v),
               history := w.history[id := h.(spends := h.spends + 1)]), c, Idle)
      else Set(w, c, SpendFail(id, version, policyId, v))
    case SpendFail(id, version, policyId, v) =>
      var u := w.(lost := w.lost[policyId := Amount(w.lost, policyId) + v]);
      Commit(u, c, id, version, FAILED, None, Some(false), w.Of(id), Idle)
    case PolicySave(policyId, p) => Set(w.(db := SavePolicy(w.db, policyId, p)), c, Idle)
    case TaskInsert(id, agentId, policyId, request, key) =>
      match InsertTask(w.db, id, agentId, policyId, request, key)
      case None => Set(w, c, Idle)
      case Some(db) => Set(w.(db := db), c, Idle)
  }

  /** Between the SUCCEEDED commit and the spend write. */
  predicate Owes(pc: Client) {
    pc.SpendReread? || pc.SpendAdd? || pc.SpendFail?
  }

  /** One step of the whole system. A step that is not enabled does nothing. */
  ghost function Apply(cfg: Config, w: World, a: Action): World {
    match a
    case Tick(seconds) => w.(clock := w.clock + seconds)
    case Kill(on) => w.(killed := on)
    case CreatePolicy(policyId, p) =>
      if policyId in w.db.policies then w else w.(db := SavePolicy(w.db, policyId, p.(revoked := false)))
    case Begin(c, call) => if c < |w.clients| && w.clients[c].Idle? then BeginCall(cfg, w, c, call) else w
    case Advance(c, outcome, spendWorks) => if c < |w.clients| then Next(cfg, w, c, outcome, spendWorks) else w
    case Crash(c) =>
      if c < |w.clients| then
        var pc := w.clients[c];
        var u := if Owes(pc) then w.(lost := w.lost[pc.policyId := Amount(w.lost, pc.policyId) + pc.value]) else w;
        Set(u, c, Idle)
      else w
  }

  ghost function Run(cfg: Config, w: World, as_: seq<Action>): World
    decreases |as_|
  {
    if as_ == [] then w else Apply(cfg, Run(cfg, w, as_[..|as_| - 1]), as_[|as_| - 1])
  }

  /** An empty store, any number of idle clients, at any time after the epoch. */
  ghost predicate Init(w: World) {
    && w.db == Db(map[], map[], map[], map[]) && 0 <= w.clock
    && (forall i | 0 <= i < |w.clients| :: w.clients[i] == Idle)
    && w.history == map[] && w.earned == map[] && w.lost == map[]
  }
}
