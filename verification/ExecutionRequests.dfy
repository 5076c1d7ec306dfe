/** What a request must be to be executed, said about the request and the stored rows; where every execution under way
    came from; and what revoking a policy stops. */
module ExecutionRequests {
  import opened Values
  import opened RiskGate
  import opened ExecutionStore
  import opened ExecutionProtocol
  import opened TaskService

  // ---------------------------------------------------------------- the request

  /** The stored simulation is of this request, for this policy, and not yet expired. */
  ghost predicate FreshlySimulated(cfg: Config, t: Task, now: int) {
    && t.simulation.Some? && t.simulation.value.requestHash == cfg.digest(t.request)
    && t.simulation.value.policyId == t.policyId && now < t.simulation.value.expiresAt
  }

  ghost predicate Allowlisted(g: Gate, name: string, allowed: seq<string>) {
    exists x | x in allowed :: g.lower(x) == g.lower(g.lower(name))
  }

  /** The caller's request is within the policy p, for the approved task t, checked at one time and decided at
      another. */
  ghost predicate RequestAllowed(cfg: Config, t: Task, p: Policy, req: Request, checkedAt: int, now: int, killed: bool,
                                 spent: real) {
    && t.state == APPROVED && FreshlySimulated(cfg, t, checkedAt)
    && req.mode == DEMO && req.key != ""
    && !killed && !p.revoked && now < p.expiresAt && now < checkedAt + 300
    && t.agentId == p.agentId && req.chainId == p.chainId
    && (req.chainId == 97 || (req.chainId == 56 && cfg.gate.allowMainnet))
    && Allowlisted(cfg.gate, req.target, p.targets) && Allowlisted(cfg.gate, req.methodName, p.methods)
    && 0.0 <= req.value && req.value <= p.maxValue && spent + req.value <= p.dailyValue
    && req.slippage <= p.maxSlippage
  }

  lemma ListedIff(g: Gate, name: string, allowed: seq<string>)
    ensures Listed(g, g.lower(name), allowed) <==> Allowlisted(g, name, allowed)
  {
    if x :| x in allowed && g.lower(x) == g.lower(g.lower(name)) {
      var i :| 0 <= i < |allowed| && allowed[i] == x;
    }
  }

  lemma EdgeToExecuting(s: TaskState)
    ensures Edge(s, EXECUTING) <==> s == APPROVED
  {
  }

  lemma IntentAllowed(cfg: Config, id: string, t: Task, p: Policy, req: Request, checkedAt: int, r: Readings)
    requires t.state == APPROVED && req.mode == DEMO && !r.keySeen
    ensures Authorised(cfg.gate, IntentOf(cfg, id, t, req, checkedAt), p, r)
            <==> RequestAllowed(cfg, t, p, req, checkedAt, r.now, r.killed, r.spentToday)
  {
    hide Listed, Allowlisted;
    ListedIff(cfg.gate, req.target, p.targets);
    ListedIff(cfg.gate, req.methodName, p.methods);
  }

  /** MAIN RESULT. execute() admits a call if and only if the task exists, approved and freshly simulated, and what the
      caller asks for, its chain, target, method, value, slippage, key and mode, is within the stored policy. */
  lemma AdmittedIff(cfg: Config, db: Db, clock: int, killed: bool, id: string, req: Request)
    ensures Admitted(cfg, db, clock, killed, id, req)
            <==> && id in db.tasks && db.tasks[id].policyId in db.policies
                 && var t := db.tasks[id];
                    RequestAllowed(cfg, t, db.policies[t.policyId], req, clock, clock, killed,
                                   db.SpentOn(t.policyId, Day(clock)))
  {
    hide Authorised, IntentOf, Allowlisted;
    if id in db.tasks && db.tasks[id].policyId in db.policies && db.tasks[id].state == APPROVED && req.mode == DEMO {
      var t := db.tasks[id];
      IntentAllowed(cfg, id, t, db.policies[t.policyId], req, clock,
                    Readings(clock, killed, db.SpentOn(t.policyId, Day(clock)), false));
    }
  }

  // ---------------------------------------------------------------- where an execution came from

  /** The moments of one execution: the call, the policy read, the check, and the gate. */
  datatype Trail = Trail(
    begun: nat, read: nat, checked: nat, passed: nat, id: string, task: Task, policy: Policy, req: Request)

  ghost function Moment(cfg: Config, w: World, as_: seq<Action>, n: nat): World {
    Run(cfg, w, if n <= |as_| then as_[..n] else as_)
  }

  predicate StepOf(as_: seq<Action>, n: nat, c: nat) {
    n < |as_| && as_[n].Advance? && as_[n].client == c
  }

  /** The call read this task. */
  ghost predicate Begun(cfg: Config, w: World, as_: seq<Action>, c: nat, tr: Trail) {
    && tr.begun < |as_| && as_[tr.begun] == Begin(c, Execute(tr.id, tr.req))
    && var u := Moment(cfg, w, as_, tr.begun);
       tr.id in u.db.tasks && u.db.tasks[tr.id] == tr.task
  }

  /** Then it read this policy, which is the task's. */
  ghost predicate ReadPolicy(cfg: Config, w: World, as_: seq<Action>, c: nat, tr: Trail) {
    && Begun(cfg, w, as_, c, tr) && tr.begun < tr.read && StepOf(as_, tr.read, c) && tr.req.mode == DEMO
    && var u := Moment(cfg, w, as_, tr.read);
       tr.task.policyId in u.db.policies && u.db.policies[tr.task.policyId] == tr.policy
  }

  ghost predicate Checked(cfg: Config, w: World, as_: seq<Action>, c: nat, tr: Trail) {
    ReadPolicy(cfg, w, as_, c, tr) && tr.read < tr.checked && StepOf(as_, tr.checked, c)
  }

  /** Then the gate let the request pass, on what it read at that moment. */
  ghost predicate Passed(cfg: Config, w: World, as_: seq<Action>, c: nat, tr: Trail) {
    && Checked(cfg, w, as_, c, tr) && tr.checked < tr.passed && StepOf(as_, tr.passed, c)
    && var u := Moment(cfg, w, as_, tr.passed);
       RequestAllowed(cfg, tr.task, tr.policy, tr.req, Moment(cfg, w, as_, tr.checked).clock, u.clock, u.killed,
                      u.db.SpentOn(tr.task.policyId, Day(u.clock)))
  }

  /** An execution that has passed the gate and is not yet over. */
  predicate UnderWay(pc: Client) {
    || pc.ExecuteCommit? || pc.ExecuteReread? || pc.ExecuteCall? || pc.ExecuteAwait? || pc.ExecuteClose?
    || pc.ExecuteFail? || Owes(pc)
  }

  /** The task, the policy and the value of the request that passed. */
  predicate Carries(pc: Client, tr: Trail)
    requires UnderWay(pc)
  {
    && pc.id == tr.id && pc.policyId == tr.task.policyId && pc.value == tr.req.value
    && (pc.ExecuteCommit? ==> pc.version == tr.task.version)
  }

  /** What the client's local variables say about its trail. */
  ghost predicate Followed(cfg: Config, w: World, as_: seq<Action>, c: nat, pc: Client, tr: Trail) {
    match pc
    case ExecutePolicy(id, t, req) =>
      Begun(cfg, w, as_, c, tr) && (id, t, req) == (tr.id, tr.task, tr.req)
    case ExecuteCheck(id, t, p, req) =>
      ReadPolicy(cfg, w, as_, c, tr) && (id, t, p, req) == (tr.id, tr.task, tr.policy, tr.req)
    case ExecuteGate(id, t, p, intent, at) =>
      && Checked(cfg, w, as_, c, tr) && (id, t, p) == (tr.id, tr.task, tr.policy)
      && at == Moment(cfg, w, as_, tr.checked).clock && intent == IntentOf(cfg, id, t, tr.req, at)
    case _ => UnderWay(pc) ==> Passed(cfg, w, as_, c, tr) && Carries(pc, tr)
  }

  lemma StateStays(cfg: Config, w: World, as_: seq<Action>, a: Action, n: nat)
    requires n <= |as_|
    ensures Moment(cfg, w, as_ + [a], n) == Moment(cfg, w, as_, n)
  {
    assert (as_ + [a])[..n] == as_[..n];
  }

  /** More actions change nothing about the trail. */
  lemma TrailStays(cfg: Config, w: World, as_: seq<Action>, a: Action, c: nat, tr: Trail)
    ensures Begun(cfg, w, as_, c, tr) ==> Begun(cfg, w, as_ + [a], c, tr)
    ensures ReadPolicy(cfg, w, as_, c, tr) ==> ReadPolicy(cfg, w, as_ + [a], c, tr)
    ensures Checked(cfg, w, as_, c, tr) ==>
              Checked(cfg, w, as_ + [a], c, tr)
              && Moment(cfg, w, as_ + [a], tr.checked) == Moment(cfg, w, as_, tr.checked)
    ensures Passed(cfg, w, as_, c, tr) ==> Passed(cfg, w, as_ + [a], c, tr)
  {
    hide Moment, RequestAllowed;
    if Begun(cfg, w, as_, c, tr) {
      StateStays(cfg, w, as_, a, tr.begun);
    }
    if ReadPolicy(cfg, w, as_, c, tr) {
      StateStays(cfg, w, as_, a, tr.read);
    }
    if Checked(cfg, w, as_, c, tr) {
      StateStays(cfg, w, as_, a, tr.checked);
    }
    if Passed(cfg, w, as_, c, tr) {
      StateStays(cfg, w, as_, a, tr.passed);
    }
  }

  lemma FollowedStays(cfg: Config, w: World, as_: seq<Action>, a: Action, c: nat, pc: Client, tr: Trail)
    requires Followed(cfg, w, as_, c, pc, tr)
    ensures Followed(cfg, w, as_ + [a], c, pc, tr)
  {
    hide Begun, ReadPolicy, Checked, Passed, IntentOf;
    TrailStays(cfg, w, as_, a, c, tr);
  }

  // ---------------------------------------------------------------- one step

  ghost predicate MovesOne(w: World, u: World, c: nat) {
    |u.clients| == |w.clients| && forall i | 0 <= i < |w.clients| && i != c :: u.clients[i] == w.clients[i]
  }

  /** The same policies, and the same tasks under the same owners with the same requests. */
  ghost predicate SameOwners(a: Db, b: Db) {
    && b.policies == a.policies && b.keys == a.keys && b.tasks.Keys == a.tasks.Keys
    && forall id | id in a.tasks ::
         && b.tasks[id].agentId == a.tasks[id].agentId && b.tasks[id].policyId == a.tasks[id].policyId
         && b.tasks[id].request == a.tasks[id].request
  }

  predicate Early(pc: Client) {
    pc.ExecutePolicy? || pc.ExecuteCheck? || pc.ExecuteGate?
  }

  predicate Writes(pc: Client) {
    pc.PolicySave? || pc.TaskInsert?
  }

  /** What an execution under way may become. */
  predicate GoesOn(pc: Client, next: Client) {
    && !Early(next)
    && (UnderWay(next) ==> !next.ExecuteCommit? && UnderWay(pc)
                           && (next.id, next.policyId, next.value) == (pc.id, pc.policyId, pc.value))
  }

  /** A step of client c moves no other client and leads into no policy write or task insertion; unless it is one of
      those it changes no owner; and past the gate the local variables only move on. */
  ghost predicate Moves(w: World, u: World, c: nat)
    requires c < |w.clients|
  {
    var pc := w.clients[c];
    && MovesOne(w, u, c) && !Writes(u.clients[c])
    && (!Writes(pc) ==> SameOwners(w.db, u.db)) && (!Early(pc) ==> GoesOn(pc, u.clients[c]))
  }

  lemma UpdateKeepsOwners(db: Db, id: string, version: nat, state: TaskState, simulation: Option<Simulation>,
                          receipt: Option<bool>)
    ensures var updated := UpdateTask(db, id, version, state, simulation, receipt);
            updated.Some? ==> SameOwners(db, updated.value)
  {
  }

  lemma SetMoves(w: World, u: World, c: nat, next: Client)
    requires c < |w.clients| && u.clients == w.clients[c := next] && !Writes(next)
    requires (!Writes(w.clients[c]) ==> SameOwners(w.db, u.db)) && (!Early(w.clients[c]) ==> GoesOn(w.clients[c], next))
    ensures Moves(w, u, c)
  {
    hide SameOwners, GoesOn;
  }

  lemma SameIsSame(db: Db)
    ensures SameOwners(db, db)
  {
  }

  lemma CommitMoves(w: World, v: World, c: nat, id: string, version: nat, state: TaskState,
                    simulation: Option<Simulation>, receipt: Option<bool>, h: History, next: Client)
    requires c < |v.clients| && v.clients == w.clients && v.db == w.db
    requires !Writes(next) && !Early(w.clients[c]) && GoesOn(w.clients[c], next)
    ensures Moves(w, Commit(v, c, id, version, state, simulation, receipt, h, next), c)
  {
    hide UpdateTask, SameOwners, Moves;
    UpdateKeepsOwners(w.db, id, version, state, simulation, receipt);
    SameIsSame(w.db);
    var u := Commit(v, c, id, version, state, simulation, receipt, h, next);
    SetMoves(w, u, c, if UpdateTask(w.db, id, version, state, simulation, receipt).Some? then next else Idle);
  }

  /** The steps that write nothing. */
  lemma PlainMoves(cfg: Config, w: World, c: nat, outcome: Outcome, spendWorks: bool)
    requires c < |w.clients|
    requires var pc := w.clients[c];
             pc.Idle? || pc.ExecuteCall? || pc.ExecuteAwait?
    ensures Moves(w, Next(cfg, w, c, outcome, spendWorks), c)
  {
    hide Amount, SameOwners, Moves, GatePasses, IntentOf, Commit, UpdateTask, InsertTask, AddSpend, SavePolicy;
    var u := Next(cfg, w, c, outcome, spendWorks);
    assert u.db == w.db && u.clients == w.clients[c := u.clients[c]];
    SameIsSame(w.db);
    SetMoves(w, u, c, u.clients[c]);
  }

  lemma RereadMoves(cfg: Config, w: World, c: nat, outcome: Outcome, spendWorks: bool)
    requires c < |w.clients|
    requires var pc := w.clients[c];
             pc.SimulateReread? || pc.ExecuteReread? || pc.SpendReread?
    ensures Moves(w, Next(cfg, w, c, outcome, spendWorks), c)
  {
    hide Amount, SameOwners, Moves, GatePasses, IntentOf, Commit, UpdateTask, InsertTask, AddSpend, SavePolicy;
    var u := Next(cfg, w, c, outcome, spendWorks);
    assert u.db == w.db && u.clients == w.clients[c := u.clients[c]];
    SameIsSame(w.db);
    SetMoves(w, u, c, u.clients[c]);
  }

  lemma EarlyMoves(cfg: Config, w: World, c: nat, outcome: Outcome, spendWorks: bool)
    requires c < |w.clients| && Early(w.clients[c])
    ensures Moves(w, Next(cfg, w, c, outcome, spendWorks), c)
  {
    hide GatePasses, IntentOf, SameOwners, Moves;
    var u := Next(cfg, w, c, outcome, spendWorks);
    assert u.db == w.db && u.clients == w.clients[c := u.clients[c]];
    SameIsSame(w.db);
    SetMoves(w, u, c, u.clients[c]);
  }

  lemma WriteMoves(cfg: Config, w: World, c: nat, outcome: Outcome, spendWorks: bool)
    requires c < |w.clients| && (Writes(w.clients[c]) || w.clients[c].SpendAdd?)
    ensures Moves(w, Next(cfg, w, c, outcome, spendWorks), c)
  {
    hide SameOwners, Moves, InsertTask;
    var u := Next(cfg, w, c, outcome, spendWorks);
    SpendKeepsOwners(w.db, u.db.spend);
    SetMoves(w, u, c, u.clients[c]);
  }

  lemma SpendKeepsOwners(db: Db, spend: map<(string, int), real>)
    ensures SameOwners(db, db.(spend := spend))
  {
  }

  lemma NextMoves(cfg: Config, w: World, c: nat, outcome: Outcome, spendWorks: bool)
    requires c < |w.clients|
    ensures Moves(w, Next(cfg, w, c, outcome, spendWorks), c)
  {
    hide GatePasses, UpdateTask, IntentOf, Commit, Amount, Moves, SameOwners;
    match w.clients[c]
    case SimulateCommit(id, version, simulation, madeAt) =>
      CommitMoves(w, w, c, id, version, SIMULATED, Some(simulation), None,
                  w.Of(id).(simulations := w.Of(id).simulations + 1, simulatedAt := madeAt), SimulateReread(id));
    case RequireApprovalCommit(id, version) =>
      CommitMoves(w, w, c, id, version, APPROVAL_REQUIRED, None, None, w.Of(id), Idle);
    case ApproveCommit(id, version) =>
      CommitMoves(w, w, c, id, version, APPROVED, None, None, w.Of(id).(approvals := w.Of(id).approvals + 1), Idle);
    case RevokeCommit(id, version) => CommitMoves(w, w, c, id, version, REVOKED, None, None, w.Of(id), Idle);
    case ExecuteCommit(id, version, policyId, v) =>
      CommitMoves(w, w, c, id, version, EXECUTING, None, None, w.Of(id).(executions := w.Of(id).executions + 1),
                  ExecuteReread(id, policyId, v));
    case ExecuteClose(id, version, policyId, v, success) =>
      var u := w.(earned := w.earned[policyId := Amount(w.earned, policyId) + v]);
      CommitMoves(w, u, c, id, version, SUCCEEDED, None, Some(true), w.Of(id), SpendReread(id, policyId, v));
      CommitMoves(w, w, c, id, version, FAILED, None, Some(false), w.Of(id), Idle);
      SameIsSame(w.db);
      SetMoves(w, Set(w, c, ExecuteFail(id, version, policyId, v)), c, ExecuteFail(id, version, policyId, v));
    case ExecuteFail(id, version, _, _) =>
      CommitMoves(w, w, c, id, version, FAILED, None, Some(false), w.Of(id), Idle);
    case SpendFail(id, version, policyId, v) =>
      var u := w.(lost := w.lost[policyId := Amount(w.lost, policyId) + v]);
      CommitMoves(w, u, c, id, version, FAILED, None, Some(false), w.Of(id), Idle);
    case PolicySave(_, _) => WriteMoves(cfg, w, c, outcome, spendWorks);
    case TaskInsert(_, _, _, _, _) => WriteMoves(cfg, w, c, outcome, spendWorks);
    case SpendAdd(_, _, _, _) => WriteMoves(cfg, w, c, outcome, spendWorks);
    case ExecutePolicy(_, _, _) => EarlyMoves(cfg, w, c, outcome, spendWorks);
    case ExecuteCheck(_, _, _, _) => EarlyMoves(cfg, w, c, outcome, spendWorks);
    case ExecuteGate(_, _, _, _, _) => EarlyMoves(cfg, w, c, outcome, spendWorks);
    case SimulateReread(_) => RereadMoves(cfg, w, c, outcome, spendWorks);
    case ExecuteReread(_, _, _) => RereadMoves(cfg, w, c, outcome, spendWorks);
    case SpendReread(_, _, _) => RereadMoves(cfg, w, c, outcome, spendWorks);
    case _ => PlainMoves(cfg, w, c, outcome, spendWorks);
  }

  lemma StepMovesOne(cfg: Config, w: World, a: Action)
    ensures var u := Apply(cfg, w, a);
            && |u.clients| == |w.clients|
            && forall i | 0 <= i < |w.clients| && !((a.Begin? || a.Advance? || a.Crash?) && a.client == i) ::
                 u.clients[i] == w.clients[i]
  {
    hide Next;
    if a.Advance? && a.client < |w.clients| {
      NextMoves(cfg, w, a.client, a.outcome, a.spendWorks);
    }
  }

  lemma {:induction false} ClientsStay(cfg: Config, w: World, as_: seq<Action>)
    ensures |Run(cfg, w, as_).clients| == |w.clients|
    decreases |as_|
  {
    hide Apply;
    if as_ != [] {
      ClientsStay(cfg, w, as_[..|as_| - 1]);
      StepMovesOne(cfg, Run(cfg, w, as_[..|as_| - 1]), as_[|as_| - 1]);
    }
  }

  const NO_REQUEST := Request("", 0, "", "", 0.0, 0, DEMO, DEMO_FIXTURE)
  const NO_TASK := Task("", "", DRAFT, "", None, None, 0)
  const NO_POLICY := Policy("", "", 0, [], [], 0.0, 0.0, 0, 0, true, true)
  const NO_TRAIL := Trail(0, 0, 0, 0, "", NO_TASK, NO_POLICY, NO_REQUEST)

  lemma BeginFollows(cfg: Config, w: World, as_: seq<Action>, c: nat, call: Call) returns (tr: Trail)
    requires c < |Run(cfg, w, as_).clients|
    ensures var all := as_ + [Begin(c, call)];
            Followed(cfg, w, all, c, BeginCall(cfg, Run(cfg, w, as_), c, call).clients[c], tr)
            || BeginCall(cfg, Run(cfg, w, as_), c, call).clients[c] == Run(cfg, w, as_).clients[c]
  {
    hide Run;
    tr := NO_TRAIL;
    var all, u := as_ + [Begin(c, call)], Run(cfg, w, as_);
    assert all[..|as_|] == as_;
    if call.Execute? && call.id in u.db.tasks {
      tr := Trail(|as_|, 0, 0, 0, call.id, u.db.tasks[call.id], NO_POLICY, call.req);
      assert Begun(cfg, w, all, c, tr);
    }
  }

  /** The steps before the gate, and the gate. */
  lemma EarlyFollows(cfg: Config, w: World, as_: seq<Action>, c: nat, outcome: Outcome, spendWorks: bool,
                     before: Trail) returns (tr: Trail)
    requires c < |Run(cfg, w, as_).clients| && Followed(cfg, w, as_, c, Run(cfg, w, as_).clients[c], before)
    requires Early(Run(cfg, w, as_).clients[c])
    ensures Followed(cfg, w, as_ + [Advance(c, outcome, spendWorks)], c,
                     Next(cfg, Run(cfg, w, as_), c, outcome, spendWorks).clients[c], tr)
  {
    hide Run, Begun, ReadPolicy, Checked, Passed, IntentOf, GatePasses, Moment;
    var a := Advance(c, outcome, spendWorks);
    var all, u := as_ + [a], Run(cfg, w, as_);
    var pc := u.clients[c];
    TrailStays(cfg, w, as_, a, c, before);
    NowIs(cfg, w, as_, a);
    tr := before;
    if pc.ExecutePolicy? {
      tr := before.(read := |as_|, policy := if before.task.policyId in u.db.policies
                                             then u.db.policies[before.task.policyId] else NO_POLICY);
      PolicyFollows(cfg, w, as_, c, a, before, tr);
    } else if pc.ExecuteCheck? {
      tr := before.(checked := |as_|);
      CheckFollows(cfg, w, as_, c, a, before, tr);
    } else {
      tr := before.(passed := |as_|);
      GateFollows(cfg, w, as_, c, a, before, tr);
    }
  }

  lemma NowIs(cfg: Config, w: World, as_: seq<Action>, a: Action)
    ensures Moment(cfg, w, as_ + [a], |as_|) == Run(cfg, w, as_)
  {
    hide Run;
    assert (as_ + [a])[..|as_|] == as_;
  }

  lemma PolicyFollows(cfg: Config, w: World, as_: seq<Action>, c: nat, a: Action, before: Trail, tr: Trail)
    requires a.Advance? && a.client == c < |Run(cfg, w, as_).clients| && Run(cfg, w, as_).clients[c].ExecutePolicy?
    requires Followed(cfg, w, as_, c, Run(cfg, w, as_).clients[c], before)
    requires var u := Run(cfg, w, as_);
             tr == before.(read := |as_|, policy := if before.task.policyId in u.db.policies
                                                    then u.db.policies[before.task.policyId] else NO_POLICY)
    ensures Followed(cfg, w, as_ + [a], c, Next(cfg, Run(cfg, w, as_), c, a.outcome, a.spendWorks).clients[c], tr)
  {
    hide Run, IntentOf, GatePasses, Moment;
    TrailStays(cfg, w, as_, a, c, before);
    NowIs(cfg, w, as_, a);
    assert Begun(cfg, w, as_ + [a], c, tr);
    assert StepOf(as_ + [a], |as_|, c);
  }

  lemma CheckFollows(cfg: Config, w: World, as_: seq<Action>, c: nat, a: Action, before: Trail, tr: Trail)
    requires a.Advance? && a.client == c < |Run(cfg, w, as_).clients| && Run(cfg, w, as_).clients[c].ExecuteCheck?
    requires Followed(cfg, w, as_, c, Run(cfg, w, as_).clients[c], before) && tr == before.(checked := |as_|)
    ensures Followed(cfg, w, as_ + [a], c, Next(cfg, Run(cfg, w, as_), c, a.outcome, a.spendWorks).clients[c], tr)
  {
    hide Run, IntentOf, GatePasses, Moment, Begun;
    TrailStays(cfg, w, as_, a, c, before);
    NowIs(cfg, w, as_, a);
    SameBeginning(cfg, w, as_ + [a], c, before, tr);
    assert StepOf(as_ + [a], |as_|, c);
  }

  lemma SameBeginning(cfg: Config, w: World, as_: seq<Action>, c: nat, before: Trail, tr: Trail)
    requires tr == before.(read := tr.read, policy := tr.policy, checked := tr.checked, passed := tr.passed)
    ensures Begun(cfg, w, as_, c, before) <==> Begun(cfg, w, as_, c, tr)
  {
    hide Moment;
  }

  lemma GateFollows(cfg: Config, w: World, as_: seq<Action>, c: nat, a: Action, before: Trail, tr: Trail)
    requires a.Advance? && a.client == c < |Run(cfg, w, as_).clients| && Run(cfg, w, as_).clients[c].ExecuteGate?
    requires Followed(cfg, w, as_, c, Run(cfg, w, as_).clients[c], before) && tr == before.(passed := |as_|)
    ensures Followed(cfg, w, as_ + [a], c, Next(cfg, Run(cfg, w, as_), c, a.outcome, a.spendWorks).clients[c], tr)
  {
    hide Run, Moment, Begun, Authorised, RequestAllowed;
    var u := Run(cfg, w, as_);
    TrailStays(cfg, w, as_, a, c, before);
    NowIs(cfg, w, as_, a);
    SameBeginning(cfg, w, as_ + [a], c, before, tr);
    assert StepOf(as_ + [a], |as_|, c);
    EdgeToExecuting(tr.task.state);
    if GatePasses(cfg, u, u.clients[c]) {
      IntentAllowed(cfg, tr.id, tr.task, tr.policy, tr.req, u.clients[c].checkedAt, GateReadings(u, tr.task.policyId));
    }
  }

  lemma LateFollows(cfg: Config, w: World, as_: seq<Action>, c: nat, a: Action, pc: Client, next: Client, tr: Trail)
    requires !Early(pc) && GoesOn(pc, next) && Followed(cfg, w, as_, c, pc, tr)
    ensures Followed(cfg, w, as_ + [a], c, next, tr)
  {
    hide Passed;
    TrailStays(cfg, w, as_, a, c, tr);
  }

  lemma StepFollows(cfg: Config, w: World, as_: seq<Action>, a: Action, c: nat, before: Trail) returns (tr: Trail)
    requires c < |Run(cfg, w, as_).clients| && Followed(cfg, w, as_, c, Run(cfg, w, as_).clients[c], before)
    ensures c < |Apply(cfg, Run(cfg, w, as_), a).clients|
    ensures Followed(cfg, w, as_ + [a], c, Apply(cfg, Run(cfg, w, as_), a).clients[c], tr)
  {
    hide Followed, Next, Run, Early, GoesOn, BeginCall;
    var u := Run(cfg, w, as_);
    StepMovesOne(cfg, u, a);
    FollowedStays(cfg, w, as_, a, c, u.clients[c], before);
    tr := before;
    if a.Advance? && a.client == c {
      tr := AdvanceFollows(cfg, w, as_, c, a.outcome, a.spendWorks, before);
    } else if a.Begin? && a.client == c && u.clients[c].Idle? {
      var begun := BeginFollows(cfg, w, as_, c, a.call);
      if BeginCall(cfg, u, c, a.call).clients[c] != u.clients[c] {
        tr := begun;
      }
    } else if a.Crash? && a.client == c {
      IdleFollows(cfg, w, as_ + [a], c, tr);
    }
  }

  lemma AdvanceFollows(cfg: Config, w: World, as_: seq<Action>, c: nat, outcome: Outcome, spendWorks: bool,
                       before: Trail) returns (tr: Trail)
    requires c < |Run(cfg, w, as_).clients| && Followed(cfg, w, as_, c, Run(cfg, w, as_).clients[c], before)
    ensures c < |Next(cfg, Run(cfg, w, as_), c, outcome, spendWorks).clients|
    ensures Followed(cfg, w, as_ + [Advance(c, outcome, spendWorks)], c,
                     Next(cfg, Run(cfg, w, as_), c, outcome, spendWorks).clients[c], tr)
  {
    hide Followed, Next, Run, Early, GoesOn;
    var u := Run(cfg, w, as_);
    NextMoves(cfg, u, c, outcome, spendWorks);
    if Early(u.clients[c]) {
      tr := EarlyFollows(cfg, w, as_, c, outcome, spendWorks, before);
    } else {
      tr := before;
      LateFollows(cfg, w, as_, c, Advance(c, outcome, spendWorks), u.clients[c],
                  Next(cfg, u, c, outcome, spendWorks).clients[c], tr);
    }
  }

  lemma {:induction false} TrailOf(cfg: Config, w: World, as_: seq<Action>, c: nat) returns (tr: Trail)
    requires Init(w) && c < |w.clients|
    ensures c < |Run(cfg, w, as_).clients| && Followed(cfg, w, as_, c, Run(cfg, w, as_).clients[c], tr)
    decreases |as_|
  {
    hide Followed, Apply;
    tr := NO_TRAIL;
    if as_ == [] {
      IdleFollows(cfg, w, as_, c, tr);
    } else {
      var before, a := as_[..|as_| - 1], as_[|as_| - 1];
      assert before + [a] == as_;
      var earlier := TrailOf(cfg, w, before, c);
      tr := StepFollows(cfg, w, before, a, c, earlier);
    }
  }

  lemma IdleFollows(cfg: Config, w: World, as_: seq<Action>, c: nat, tr: Trail)
    ensures Followed(cfg, w, as_, c, Idle, tr)
  {
  }

  /** MAIN RESULT, over every run from an empty store: an execution that is under way was called with a request that the
      gate found within its task's policy, on the task, policy, clock, kill switch and spend read at their own moments;
      and what it commits, calls the adapter for and charges is that task and the value of that request. */
  lemma ExecutionsWereAllowed(cfg: Config, w: World, as_: seq<Action>, c: nat) returns (tr: Trail)
    requires Init(w) && c < |Run(cfg, w, as_).clients| && UnderWay(Run(cfg, w, as_).clients[c])
    ensures Passed(cfg, w, as_, c, tr) && tr.begun < tr.read < tr.checked < tr.passed < |as_|
    ensures var pc := Run(cfg, w, as_).clients[c];
            && pc.id == tr.id && pc.policyId == tr.task.policyId && pc.value == tr.req.value
            && (pc.ExecuteCommit? ==> pc == ExecuteCommit(tr.id, tr.task.version, tr.task.policyId, tr.req.value))
  {
    hide Run, Moment, RequestAllowed, Init;
    ClientsStay(cfg, w, as_);
    tr := TrailOf(cfg, w, as_, c);
  }

  // ---------------------------------------------------------------- policies and owners

  /** A policy only ever becomes revoked. */
  predicate Later(p: Policy, q: Policy) {
    q == p || q == p.(revoked := true)
  }

  ghost predicate PoliciesLater(a: Db, b: Db) {
    forall id | id in a.policies :: id in b.policies && Later(a.policies[id], b.policies[id])
  }

  predicate OwnedIn(db: Db, policyId: string, agentId: string) {
    policyId in db.policies && db.policies[policyId].agentId == agentId
  }

  predicate ClientOwned(db: Db, pc: Client) {
    match pc
    case PolicySave(policyId, p) => policyId in db.policies && p == db.policies[policyId].(revoked := true)
    case TaskInsert(id, agentId, policyId, request, key) => OwnedIn(db, policyId, agentId)
    case _ => true
  }

  /** Every task is under a policy of its own agent. */
  ghost predicate Owned(w: World) {
    && (forall id | id in w.db.tasks :: OwnedIn(w.db, w.db.tasks[id].policyId, w.db.tasks[id].agentId))
    && (forall i | 0 <= i < |w.clients| :: ClientOwned(w.db, w.clients[i]))
  }

  lemma LaterKeepsOwners(w: World, u: World)
    requires Owned(w) && PoliciesLater(w.db, u.db)
    ensures forall id | id in w.db.tasks :: OwnedIn(u.db, w.db.tasks[id].policyId, w.db.tasks[id].agentId)
    ensures forall i | 0 <= i < |w.clients| :: ClientOwned(u.db, w.clients[i])
  {
  }

  lemma SaveStep(cfg: Config, w: World, c: nat, outcome: Outcome, spendWorks: bool, policyId: string, p: Policy)
    requires c < |w.clients| && w.clients[c] == PolicySave(policyId, p)
    ensures Next(cfg, w, c, outcome, spendWorks) == Set(w.(db := SavePolicy(w.db, policyId, p)), c, Idle)
  {
    hide Set, SavePolicy;
  }

  lemma InsertStep(cfg: Config, w: World, c: nat, outcome: Outcome, spendWorks: bool, pc: Client)
    requires c < |w.clients| && w.clients[c] == pc && pc.TaskInsert?
    ensures var added := InsertTask(w.db, pc.id, pc.agentId, pc.policyId, pc.request, pc.key);
            Next(cfg, w, c, outcome, spendWorks) == Set(w.(db := if added.Some? then added.value else w.db), c, Idle)
  {
    hide InsertTask;
  }

  lemma WriteKeepsOwned(cfg: Config, w: World, c: nat, outcome: Outcome, spendWorks: bool)
    requires c < |w.clients| && Owned(w) && Writes(w.clients[c])
    ensures var u := Next(cfg, w, c, outcome, spendWorks);
            Owned(u) && PoliciesLater(w.db, u.db)
  {
    hide Next, Owned;
    match w.clients[c]
    case PolicySave(policyId, p) =>
      SaveStep(cfg, w, c, outcome, spendWorks, policyId, p);
      SaveKeepsOwned(w, c, policyId, p);
    case TaskInsert(_, _, _, _, _) =>
      InsertStep(cfg, w, c, outcome, spendWorks, w.clients[c]);
      InsertKeepsOwned(w, c, w.clients[c]);
  }

  lemma SaveKeepsOwned(w: World, c: nat, policyId: string, p: Policy)
    requires c < |w.clients| && Owned(w) && w.clients[c] == PolicySave(policyId, p)
    ensures var u := Set(w.(db := SavePolicy(w.db, policyId, p)), c, Idle);
            Owned(u) && PoliciesLater(w.db, u.db)
  {
    hide ClientOwned;
    var u := Set(w.(db := SavePolicy(w.db, policyId, p)), c, Idle);
    assert ClientOwned(w.db, w.clients[c]);
    SaverLater(w.db, policyId, p);
    LaterKeepsOwners(w, u);
    IdleOwned(u.db);
  }

  lemma IdleOwned(db: Db)
    ensures ClientOwned(db, Idle)
  {
  }

  lemma InsertKeepsOwned(w: World, c: nat, pc: Client)
    requires c < |w.clients| && Owned(w) && w.clients[c] == pc && pc.TaskInsert?
    ensures var added := InsertTask(w.db, pc.id, pc.agentId, pc.policyId, pc.request, pc.key);
            var u := Set(w.(db := if added.Some? then added.value else w.db), c, Idle);
            Owned(u) && PoliciesLater(w.db, u.db)
  {
    hide ClientOwned;
    assert ClientOwned(w.db, w.clients[c]);
    var added := InsertTask(w.db, pc.id, pc.agentId, pc.policyId, pc.request, pc.key);
    var u := Set(w.(db := if added.Some? then added.value else w.db), c, Idle);
    InserterOwned(w.db, pc);
    LaterKeepsOwners(w, u);
    IdleOwned(u.db);
  }

  lemma InserterOwned(db: Db, pc: Client)
    requires ClientOwned(db, pc) && pc.TaskInsert?
    ensures OwnedIn(db, pc.policyId, pc.agentId)
  {
  }

  lemma SaverLater(db: Db, policyId: string, p: Policy)
    requires ClientOwned(db, PolicySave(policyId, p))
    ensures PoliciesLater(db, SavePolicy(db, policyId, p))
  {
  }

  lemma StepKeepsOwned(cfg: Config, w: World, a: Action)
    requires Owned(w)
    ensures Owned(Apply(cfg, w, a)) && PoliciesLater(w.db, Apply(cfg, w, a).db)
  {
    hide Next, BeginCall, ClientOwned, OwnedIn;
    var u := Apply(cfg, w, a);
    StepMovesOne(cfg, w, a);
    if a.Advance? && a.client < |w.clients| {
      if Writes(w.clients[a.client]) {
        WriteKeepsOwned(cfg, w, a.client, a.outcome, a.spendWorks);
      } else {
        NextMoves(cfg, w, a.client, a.outcome, a.spendWorks);
        OtherOwned(u.db, u.clients[a.client]);
        SameStaysOwned(w, u, a.client);
      }
    } else if a.Begin? && a.client < |w.clients| && w.clients[a.client].Idle? {
      BeginOwned(cfg, w, a.client, a.call);
      SameStaysOwned(w, u, a.client);
    } else if a.Crash? && a.client < |w.clients| {
      IdleOwned(u.db);
      SameStaysOwned(w, u, a.client);
    } else if a.CreatePolicy? {
      LaterKeepsOwners(w, u);
    }
  }

  lemma OtherOwned(db: Db, pc: Client)
    requires !Writes(pc)
    ensures ClientOwned(db, pc)
  {
  }

  lemma BeginOwned(cfg: Config, w: World, c: nat, call: Call)
    requires c < |w.clients| && w.clients[c].Idle?
    ensures var u := BeginCall(cfg, w, c, call);
            u.db == w.db && c < |u.clients| && ClientOwned(u.db, u.clients[c])
  {
  }

  lemma SameStaysOwned(w: World, u: World, c: nat)
    requires Owned(w) && SameOwners(w.db, u.db) && MovesOne(w, u, c)
    requires c < |u.clients| && ClientOwned(u.db, u.clients[c])
    ensures Owned(u) && PoliciesLater(w.db, u.db)
  {
  }

  /** MAIN RESULT, over every run from an empty store: every task is under a policy of its own agent. */
  lemma {:induction false} TasksAreOwned(cfg: Config, w: World, as_: seq<Action>)
    requires Init(w)
    ensures Owned(Run(cfg, w, as_))
    ensures forall id | id in Run(cfg, w, as_).db.tasks ::
              var t := Run(cfg, w, as_).db.tasks[id];
              t.policyId in Run(cfg, w, as_).db.policies
              && Run(cfg, w, as_).db.policies[t.policyId].agentId == t.agentId
    decreases |as_|
  {
    hide Apply;
    if as_ == [] {
      NothingOwned(w);
    } else {
      TasksAreOwned(cfg, w, as_[..|as_| - 1]);
      StepKeepsOwned(cfg, Run(cfg, w, as_[..|as_| - 1]), as_[|as_| - 1]);
    }
  }

  lemma NothingOwned(w: World)
    requires Init(w)
    ensures Owned(w)
  {
  }

  /** A policy once stored is never changed, but by its revocation, which is for good. */
  lemma {:induction false} PoliciesOnlyRevoked(cfg: Config, w: World, as_: seq<Action>, n: nat)
    requires Init(w) && n <= |as_|
    ensures PoliciesLater(Run(cfg, w, as_[..n]).db, Run(cfg, w, as_).db)
    decreases |as_|
  {
    hide Apply, Later, Owned, Init;
    if n == |as_| {
      assert as_[..n] == as_;
      LaterNow(Run(cfg, w, as_).db);
    } else {
      var before := as_[..|as_| - 1];
      assert before[..n] == as_[..n];
      PoliciesOnlyRevoked(cfg, w, before, n);
      TasksAreOwned(cfg, w, before);
      StepKeepsOwned(cfg, Run(cfg, w, before), as_[|as_| - 1]);
      LaterTwice(Run(cfg, w, as_[..n]).db, Run(cfg, w, before).db, Run(cfg, w, as_).db);
    }
  }

  lemma LaterNow(db: Db)
    ensures PoliciesLater(db, db)
  {
  }

  lemma LaterTwice(a: Db, b: Db, c: Db)
    requires PoliciesLater(a, b) && PoliciesLater(b, c)
    ensures PoliciesLater(a, c)
  {
  }

  /** MAIN RESULT, over every run: revoking a policy stops every execution that reads it afterwards. An execution that
      is under way read its task's policy before the revocation, so its call began before it too. */
  lemma RevokedBeforeIsStopped(cfg: Config, w: World, as_: seq<Action>, c: nat, n: nat) returns (tr: Trail)
    requires Init(w) && c < |Run(cfg, w, as_).clients| && UnderWay(Run(cfg, w, as_).clients[c]) && n <= |as_|
    requires var db := Run(cfg, w, as_[..n]).db; var policyId := Run(cfg, w, as_).clients[c].policyId;
             policyId in db.policies && db.policies[policyId].revoked
    ensures Passed(cfg, w, as_, c, tr) && tr.begun < tr.read < n
  {
    hide Run, Init, UnderWay;
    tr := ExecutionsWereAllowed(cfg, w, as_, c);
    if n <= tr.read {
      assert as_[..tr.read][..n] == as_[..n];
      PoliciesOnlyRevoked(cfg, w, as_[..tr.read], n);
      assert false;
    }
  }

  // ---------------------------------------------------------------- where a task came from

  /** create_task was called with these arguments. */
  ghost predicate Asked(as_: seq<Action>, id: string, agentId: string, policyId: string, request: string, key: string) {
    exists n, c :: 0 <= n < |as_| && as_[n] == Begin(c, CreateTask(id, agentId, policyId, request, key))
  }

  /** The task stored under id is the one a call with this key asked for. */
  ghost predicate CameFrom(as_: seq<Action>, db: Db, id: string, key: string)
    requires id in db.tasks
  {
    var t := db.tasks[id];
    Asked(as_, id, t.agentId, t.policyId, t.request, key) && key in db.keys && db.keys[key] == id
  }

  ghost predicate FromCalls(as_: seq<Action>, w: World) {
    && (forall id | id in w.db.tasks :: exists key :: CameFrom(as_, w.db, id, key))
    && (forall i | 0 <= i < |w.clients| && w.clients[i].TaskInsert? ::
          var pc := w.clients[i]; Asked(as_, pc.id, pc.agentId, pc.policyId, pc.request, pc.key))
  }

  lemma AskedStays(as_: seq<Action>, a: Action)
    ensures forall id, agentId, policyId, request, key | Asked(as_, id, agentId, policyId, request, key) ::
              Asked(as_ + [a], id, agentId, policyId, request, key)
  {
    forall id, agentId, policyId, request, key | Asked(as_, id, agentId, policyId, request, key)
      ensures Asked(as_ + [a], id, agentId, policyId, request, key)
    {
      var n, c :| 0 <= n < |as_| && as_[n] == Begin(c, CreateTask(id, agentId, policyId, request, key));
      assert (as_ + [a])[n] == Begin(c, CreateTask(id, agentId, policyId, request, key));
    }
  }

  lemma LongerFromCalls(as_: seq<Action>, a: Action, w: World)
    requires FromCalls(as_, w)
    ensures FromCalls(as_ + [a], w)
  {
    hide Asked;
    AskedStays(as_, a);
    forall id | id in w.db.tasks ensures exists key :: CameFrom(as_ + [a], w.db, id, key) {
      var key :| CameFrom(as_, w.db, id, key);
      assert CameFrom(as_ + [a], w.db, id, key);
    }
  }

  /** A step that keeps the owners and gives client c no insertion that was not asked for. */
  lemma SameFromCalls(as_: seq<Action>, w: World, u: World, c: nat)
    requires FromCalls(as_, w) && SameOwners(w.db, u.db) && MovesOne(w, u, c) && c < |u.clients|
    requires var pc := u.clients[c];
             pc.TaskInsert? ==> Asked(as_, pc.id, pc.agentId, pc.policyId, pc.request, pc.key)
    ensures FromCalls(as_, u)
  {
    hide Asked;
    forall id | id in u.db.tasks ensures exists key :: CameFrom(as_, u.db, id, key) {
      var key :| CameFrom(as_, w.db, id, key);
      assert CameFrom(as_, u.db, id, key);
    }
  }

  lemma InsertFromCalls(as_: seq<Action>, w: World, c: nat, pc: Client)
    requires c < |w.clients| && FromCalls(as_, w) && w.clients[c] == pc && pc.TaskInsert?
    ensures var added := InsertTask(w.db, pc.id, pc.agentId, pc.policyId, pc.request, pc.key);
            FromCalls(as_, Set(w.(db := if added.Some? then added.value else w.db), c, Idle))
  {
    hide Asked;
    var added := InsertTask(w.db, pc.id, pc.agentId, pc.policyId, pc.request, pc.key);
    var u := Set(w.(db := if added.Some? then added.value else w.db), c, Idle);
    forall id | id in u.db.tasks ensures exists key :: CameFrom(as_, u.db, id, key) {
      if id in w.db.tasks {
        var key :| CameFrom(as_, w.db, id, key);
        assert CameFrom(as_, u.db, id, key);
      } else {
        assert CameFrom(as_, u.db, id, pc.key);
      }
    }
  }

  lemma PolicyFromCalls(as_: seq<Action>, w: World, u: World)
    requires FromCalls(as_, w) && u.db.tasks == w.db.tasks && u.db.keys == w.db.keys
    requires |u.clients| == |w.clients| && forall i | 0 <= i < |w.clients| ::
               u.clients[i] == w.clients[i] || u.clients[i] == Idle
    ensures FromCalls(as_, u)
  {
    hide Asked;
    forall id | id in u.db.tasks ensures exists key :: CameFrom(as_, u.db, id, key) {
      var key :| CameFrom(as_, w.db, id, key);
      assert CameFrom(as_, u.db, id, key);
    }
  }

  lemma BeginFromCalls(cfg: Config, as_: seq<Action>, w: World, c: nat, call: Call)
    requires c < |w.clients| && w.clients[c].Idle? && FromCalls(as_, w) && as_ != []
    requires as_[|as_| - 1] == Begin(c, call)
    ensures FromCalls(as_, BeginCall(cfg, w, c, call))
  {
    hide FromCalls;
    var u := BeginCall(cfg, w, c, call);
    var pc := u.clients[c];
    if pc.TaskInsert? {
      assert as_[|as_| - 1] == Begin(c, CreateTask(pc.id, pc.agentId, pc.policyId, pc.request, pc.key));
    }
    SameIsSame(w.db);
    SameFromCalls(as_, w, u, c);
  }

  lemma StepFromCalls(cfg: Config, as_: seq<Action>, w: World, a: Action)
    requires FromCalls(as_, w)
    ensures FromCalls(as_ + [a], Apply(cfg, w, a))
  {
    hide FromCalls, Next, BeginCall, SameOwners, MovesOne;
    LongerFromCalls(as_, a, w);
    var u, all := Apply(cfg, w, a), as_ + [a];
    if a.Advance? && a.client < |w.clients| {
      AdvanceFromCalls(cfg, all, w, a);
    } else if a.Begin? && a.client < |w.clients| && w.clients[a.client].Idle? {
      BeginFromCalls(cfg, all, w, a.client, a.call);
    } else {
      PolicyFromCalls(all, w, u);
    }
  }

  lemma AdvanceFromCalls(cfg: Config, as_: seq<Action>, w: World, a: Action)
    requires a.Advance? && a.client < |w.clients| && FromCalls(as_, w)
    ensures FromCalls(as_, Next(cfg, w, a.client, a.outcome, a.spendWorks))
  {
    hide FromCalls, Next, SameOwners, MovesOne, Asked;
    var u, c := Next(cfg, w, a.client, a.outcome, a.spendWorks), a.client;
    match w.clients[c]
    case PolicySave(policyId, p) =>
      SaveStep(cfg, w, c, a.outcome, a.spendWorks, policyId, p);
      PolicyFromCalls(as_, w, u);
    case TaskInsert(_, _, _, _, _) =>
      InsertStep(cfg, w, c, a.outcome, a.spendWorks, w.clients[c]);
      InsertFromCalls(as_, w, c, w.clients[c]);
    case _ =>
      NextMoves(cfg, w, c, a.outcome, a.spendWorks);
      StillThere(w, u, c);
      SameFromCalls(as_, w, u, c);
  }

  lemma StillThere(w: World, u: World, c: nat)
    requires MovesOne(w, u, c)
    ensures |u.clients| == |w.clients|
  {
  }

  /** MAIN RESULT, over every run from an empty store: a task has the agent, the policy and the request that create_task
      was called with, and the key of that call is taken by it. */
  lemma {:induction false} TasksCameFromCalls(cfg: Config, w: World, as_: seq<Action>)
    requires Init(w)
    ensures FromCalls(as_, Run(cfg, w, as_))
    ensures forall id | id in Run(cfg, w, as_).db.tasks :: exists key :: CameFrom(as_, Run(cfg, w, as_).db, id, key)
    decreases |as_|
  {
    hide Apply, CameFrom, Asked;
    if as_ != [] {
      var before, a := as_[..|as_| - 1], as_[|as_| - 1];
      TasksCameFromCalls(cfg, w, before);
      StepFromCalls(cfg, before, Run(cfg, w, before), a);
      assert before + [a] == as_;
    }
  }

  // ---------------------------------------------------------------- the other calls as steps of the protocol

  /** What the other calls as methods leave in the store. */
  function Called(cfg: Config, db: Db, clock: int, call: Call): Db
    requires !call.Execute?
  {
    match call
    case Simulate(id, passed) => Simulated(cfg, db, clock, id, passed)
    case Approve(id) => Stepped(db, id, APPROVED)
    case RevokeTask(id) => Stepped(db, id, REVOKED)
    case RevokePolicy(policyId) =>
      if policyId in db.policies then SavePolicy(db, policyId, db.policies[policyId].(revoked := true)) else db
    case CreateTask(id, agentId, policyId, request, key) =>
      var added := InsertTask(db, id, agentId, policyId, request, key);
      if OwnedIn(db, policyId, agentId) && added.Some? then added.value else db
  }

  /** MAIN RESULT. simulate, approve, revoke_task, revoke_policy and create_task as methods and as steps of the
      protocol agree, like execute(): three steps with nobody in between end in the store the method leaves. */
  lemma CallsAreSerial(cfg: Config, w: World, c: nat, call: Call, outcome: Outcome, spendWorks: bool)
    requires c < |w.clients| && w.clients[c] == Idle && !call.Execute?
    ensures Ends(cfg, Apply(cfg, w, Begin(c, call)), c, outcome, spendWorks, 3, Called(cfg, w.db, w.clock, call))
  {
    hide Ends, Next, Simulated, Stepped, InsertTask, SavePolicy;
    var u := Apply(cfg, w, Begin(c, call));
    if u.clients[c] == Idle {
      NotBegun(cfg, w, c, call);
      IdleEnds(cfg, u, c, outcome, spendWorks, 3);
    } else if call.Simulate? {
      SimulateBegun(cfg, w, c, call);
      SimulateEnds(cfg, u, c, outcome, spendWorks, call.id);
    } else {
      OneStep(cfg, w, c, call, outcome, spendWorks);
      IdleEnds(cfg, Next(cfg, u, c, outcome, spendWorks), c, outcome, spendWorks, 2);
      EndsAfter(cfg, u, c, outcome, spendWorks, 3, Called(cfg, w.db, w.clock, call));
    }
  }

  lemma NotBegun(cfg: Config, w: World, c: nat, call: Call)
    requires c < |w.clients| && w.clients[c] == Idle && !call.Execute? && BeginCall(cfg, w, c, call).clients[c] == Idle
    ensures BeginCall(cfg, w, c, call) == w && Called(cfg, w.db, w.clock, call) == w.db
  {
    hide InsertTask;
  }

  lemma SimulateBegun(cfg: Config, w: World, c: nat, call: Call)
    requires c < |w.clients| && w.clients[c] == Idle && call.Simulate? && BeginCall(cfg, w, c, call).clients[c] != Idle
    ensures call.id in w.db.tasks && w.db.tasks[call.id].state == DRAFT && call.passed
    ensures var t := w.db.tasks[call.id];
            BeginCall(cfg, w, c, call)
            == Set(w, c, SimulateCommit(call.id, t.version,
                                        Simulation(cfg.digest(t.request), t.policyId, w.clock + 300), w.clock))
  {
  }

  lemma OneStep(cfg: Config, w: World, c: nat, call: Call, outcome: Outcome, spendWorks: bool)
    requires c < |w.clients| && w.clients[c] == Idle && !call.Execute? && !call.Simulate?
    requires BeginCall(cfg, w, c, call).clients[c] != Idle
    ensures var u := Next(cfg, BeginCall(cfg, w, c, call), c, outcome, spendWorks);
            c < |u.clients| && u.clients[c] == Idle && u.db == Called(cfg, w.db, w.clock, call)
  {
    hide Next, InsertTask, SavePolicy, Stepped;
    var u := BeginCall(cfg, w, c, call);
    match call
    case Approve(id) => CommitStep(cfg, u, c, outcome, spendWorks, id, APPROVED);
    case RevokeTask(id) => CommitStep(cfg, u, c, outcome, spendWorks, id, REVOKED);
    case RevokePolicy(policyId) =>
      SaveStep(cfg, u, c, outcome, spendWorks, policyId, w.db.policies[policyId].(revoked := true));
    case CreateTask(_, _, _, _, _) => InsertStep(cfg, u, c, outcome, spendWorks, u.clients[c]);
  }

  lemma CommitStep(cfg: Config, w: World, c: nat, outcome: Outcome, spendWorks: bool, id: string, state: TaskState)
    requires c < |w.clients| && id in w.db.tasks && Edge(w.db.tasks[id].state, state)
    requires var version := w.db.tasks[id].version;
             || (state == APPROVED && w.clients[c] == ApproveCommit(id, version))
             || (state == REVOKED && w.clients[c] == RevokeCommit(id, version))
    ensures var u := Next(cfg, w, c, outcome, spendWorks);
            c < |u.clients| && u.clients[c] == Idle && u.db == Stepped(w.db, id, state)
  {
  }

  lemma SimulateEnds(cfg: Config, w: World, c: nat, outcome: Outcome, spendWorks: bool, id: string)
    requires c < |w.clients| && id in w.db.tasks && w.db.tasks[id].state == DRAFT
    requires var t := w.db.tasks[id];
             w.clients[c] == SimulateCommit(id, t.version, Simulation(cfg.digest(t.request), t.policyId, w.clock + 300),
                                            w.clock)
    ensures Ends(cfg, w, c, outcome, spendWorks, 3, Simulated(cfg, w.db, w.clock, id, true))
  {
    hide Ends, Next, Simulated;
    var u := Next(cfg, w, c, outcome, spendWorks);
    FirstCommit(cfg, w, c, outcome, spendWorks, id);
    var v := Next(cfg, u, c, outcome, spendWorks);
    Reread(cfg, u, c, outcome, spendWorks, id);
    var x := Next(cfg, v, c, outcome, spendWorks);
    SecondCommit(cfg, v, c, outcome, spendWorks, id);
    BothCommits(cfg, w.db, w.clock, id);
    IdleEnds(cfg, x, c, outcome, spendWorks, 0);
    EndsAfter(cfg, v, c, outcome, spendWorks, 1, x.db);
    EndsAfter(cfg, u, c, outcome, spendWorks, 2, x.db);
    EndsAfter(cfg, w, c, outcome, spendWorks, 3, x.db);
  }

  /** The store after the first of simulate's two commits. */
  function HalfSimulated(cfg: Config, db: Db, clock: int, id: string): Db
    requires id in db.tasks
  {
    var t := db.tasks[id];
    db.(tasks := db.tasks[id := t.(state := SIMULATED, version := t.version + 1,
                                   simulation := Some(Simulation(cfg.digest(t.request), t.policyId, clock + 300)))])
  }

  lemma FirstCommit(cfg: Config, w: World, c: nat, outcome: Outcome, spendWorks: bool, id: string)
    requires c < |w.clients| && id in w.db.tasks
    requires var t := w.db.tasks[id];
             w.clients[c] == SimulateCommit(id, t.version, Simulation(cfg.digest(t.request), t.policyId, w.clock + 300),
                                            w.clock)
    ensures var u := Next(cfg, w, c, outcome, spendWorks);
            c < |u.clients| && u.clients[c] == SimulateReread(id) && u.db == HalfSimulated(cfg, w.db, w.clock, id)
  {
  }

  lemma Reread(cfg: Config, w: World, c: nat, outcome: Outcome, spendWorks: bool, id: string)
    requires c < |w.clients| && w.clients[c] == SimulateReread(id)
    requires id in w.db.tasks && w.db.tasks[id].state == SIMULATED
    ensures Next(cfg, w, c, outcome, spendWorks) == Set(w, c, RequireApprovalCommit(id, w.db.tasks[id].version))
  {
  }

  lemma SecondCommit(cfg: Config, w: World, c: nat, outcome: Outcome, spendWorks: bool, id: string)
    requires c < |w.clients| && id in w.db.tasks
             && w.clients[c] == RequireApprovalCommit(id, w.db.tasks[id].version)
    ensures var u := Next(cfg, w, c, outcome, spendWorks);
            c < |u.clients| && u.clients[c] == Idle && u.db == Moved(w.db, id, APPROVAL_REQUIRED, None)
  {
  }

  lemma BothCommits(cfg: Config, db: Db, clock: int, id: string)
    requires id in db.tasks && db.tasks[id].state == DRAFT
    ensures Moved(HalfSimulated(cfg, db, clock, id), id, APPROVAL_REQUIRED, None) == Simulated(cfg, db, clock, id, true)
  {
  }

  /** MAIN RESULT. The policy that create_policy stores authorises what its arguments describe, from then until the
      lifetime is over, when lower-casing twice is lower-casing once. */
  lemma IssuedAuthorises(cfg: Config, draft: Policy, ttlMinutes: int, clock: int, i: Intent, r: Readings)
    requires forall y :: cfg.gate.lower(cfg.gate.lower(y)) == cfg.gate.lower(y)
    ensures Authorised(cfg.gate, i, Issued(cfg, draft, clock + 60 * ttlMinutes), r)
            <==> r.now - clock < 60 * ttlMinutes
                 && Authorised(cfg.gate, i, Policy(draft.owner, draft.agentId, draft.chainId, draft.targets,
                                                   draft.methods, draft.maxValue, draft.dailyValue, draft.maxSlippage,
                                                   r.now + 1, draft.requireApproval, false), r)
  {
    hide Listed;
    IssuedListsTheSame(cfg, i.target, draft.targets);
    IssuedListsTheSame(cfg, i.methodName, draft.methods);
  }
}
