/** Concrete runs of the protocol: what executions that overlap, stall or fail to record their spend can reach. */
module ExecutionRuns {
  import opened Values
  import opened RiskGate
  import opened ExecutionStore
  import opened ExecutionProtocol
  import opened ExecutionTheorems
  import opened ExecutionResults
  import opened ExecutionMoney
  import opened DailyCap

  // ---------------------------------------------------------------- runs in pieces

  lemma {:induction false} RunConcat(cfg: Config, w: World, a: seq<Action>, b: seq<Action>)
    ensures Run(cfg, w, a + b) == Run(cfg, Run(cfg, w, a), b)
    decreases |b|
  {
    hide Apply;
    if b == [] {
      assert a + b == a;
    } else {
      var n := |b| - 1;
      assert (a + b)[..|a + b| - 1] == a + b[..n];
      RunConcat(cfg, w, a, b[..n]);
    }
  }

  lemma RunOne(cfg: Config, w: World, a: Action)
    ensures Run(cfg, w, [a]) == Apply(cfg, w, a)
  {
    hide Apply;
    assert [a][..0] == [];
  }

  /** u is reached from w. */
  ghost predicate Reaches(cfg: Config, w: World, u: World) {
    exists as_ :: Run(cfg, w, as_) == u
  }

  lemma ReachesSelf(cfg: Config, w: World)
    ensures Reaches(cfg, w, w)
  {
    assert Run(cfg, w, []) == w;
  }

  lemma ReachesThen(cfg: Config, w: World, u: World, a: Action)
    requires Reaches(cfg, w, u)
    ensures Reaches(cfg, w, Apply(cfg, u, a))
  {
    hide Apply;
    var as_ :| Run(cfg, w, as_) == u;
    RunConcat(cfg, w, as_, [a]);
    RunOne(cfg, u, a);
    assert Run(cfg, w, as_ + [a]) == Apply(cfg, u, a);
  }

  // ---------------------------------------------------------------- one policy, one request

  /** One dollar a transaction and one dollar a day. */
  function OneDollar(cfg: Config, expiresAt: int): Policy {
    Policy("o", "a", 97, [cfg.gate.lower("t")], [cfg.gate.lower("m")], 1.0, 1.0, 100, expiresAt, true, false)
  }

  const REQUEST := Request("k", 97, "t", "m", 1.0, 0, DEMO, LIVE_ONCHAIN)

  function Record(cfg: Config, state: TaskState, version: nat, simulatedAt: Option<int>, receipt: Option<bool>): Task {
    Task("a", "p", state, "r",
         if simulatedAt.Some? then Some(Simulation(cfg.digest("r"), "p", simulatedAt.value + 300)) else None,
         receipt, version)
  }

  /** w is b, except that client c is at pc, its task is in the state t, and history has been written. */
  ghost predicate At(b: World, w: World, c: nat, pc: Client, id: string, t: Task) {
    && c < |b.clients| && w.clients == b.clients[c := pc] && w.clock == b.clock && w.killed == b.killed
    && w.db == b.db.(tasks := b.db.tasks[id := t], keys := b.db.keys[id := id])
  }

  /** The policy is in place and nothing has been spent. */
  ghost predicate Open(cfg: Config, b: World, expiresAt: int) {
    b.db.policies == map["p" := OneDollar(cfg, expiresAt)] && b.db.spend == map[] && !b.killed
  }

  function Go(c: nat): Action {
    Advance(c, AdapterSucceeds, true)
  }

  lemma Creates(cfg: Config, b: World, c: nat, id: string, expiresAt: int)
    requires c < |b.clients| && b.clients[c] == Idle && Open(cfg, b, expiresAt) && id !in b.db.tasks && id !in b.db.keys
    ensures var call := CreateTask(id, "a", "p", "r", id);
            var w := Apply(cfg, Apply(cfg, b, Begin(c, call)), Go(c));
            At(b, w, c, Idle, id, Record(cfg, DRAFT, 0, None, None)) && w.history == b.history
  {
    var u := Apply(cfg, b, Begin(c, CreateTask(id, "a", "p", "r", id)));
    assert u == Set(b, c, TaskInsert(id, "a", "p", "r", id));
  }

  lemma Simulates(cfg: Config, b: World, w: World, c: nat, id: string)
    requires At(b, w, c, Idle, id, Record(cfg, DRAFT, 0, None, None))
    ensures var u := Apply(cfg, w, Begin(c, Simulate(id, true)));
            var t := Record(cfg, DRAFT, 0, None, None);
            var pc := SimulateCommit(id, 0, Simulation(cfg.digest("r"), "p", b.clock + 300), b.clock);
            At(b, u, c, pc, id, t) && u.history == w.history
  {
  }

  lemma CommitsSimulation(cfg: Config, b: World, w: World, c: nat, id: string)
    requires At(b, w, c, SimulateCommit(id, 0, Simulation(cfg.digest("r"), "p", b.clock + 300), b.clock), id,
                Record(cfg, DRAFT, 0, None, None))
    ensures var u := Apply(cfg, w, Go(c));
            At(b, u, c, SimulateReread(id), id, Record(cfg, SIMULATED, 1, Some(b.clock), None))
            && u.Of(id).simulatedAt == b.clock
  {
    hide GatePasses;
  }

  lemma RereadsSimulation(cfg: Config, b: World, w: World, c: nat, id: string, at: int)
    requires At(b, w, c, SimulateReread(id), id, Record(cfg, SIMULATED, 1, Some(at), None))
    ensures var u := Apply(cfg, w, Go(c));
            At(b, u, c, RequireApprovalCommit(id, 1), id, Record(cfg, SIMULATED, 1, Some(at), None))
            && u.history == w.history
  {
    hide GatePasses;
  }

  lemma RequiresApproval(cfg: Config, b: World, w: World, c: nat, id: string, at: int)
    requires At(b, w, c, RequireApprovalCommit(id, 1), id, Record(cfg, SIMULATED, 1, Some(at), None))
    ensures var u := Apply(cfg, w, Go(c));
            At(b, u, c, Idle, id, Record(cfg, APPROVAL_REQUIRED, 2, Some(at), None))
            && u.Of(id).simulatedAt == w.Of(id).simulatedAt
  {
    hide GatePasses;
  }

  lemma Approves(cfg: Config, b: World, w: World, c: nat, id: string, at: int)
    requires At(b, w, c, Idle, id, Record(cfg, APPROVAL_REQUIRED, 2, Some(at), None))
    ensures var u := Apply(cfg, w, Begin(c, Approve(id)));
            At(b, u, c, ApproveCommit(id, 2), id, Record(cfg, APPROVAL_REQUIRED, 2, Some(at), None))
            && u.history == w.history
  {
  }

  lemma CommitsApproval(cfg: Config, b: World, w: World, c: nat, id: string, at: int)
    requires At(b, w, c, ApproveCommit(id, 2), id, Record(cfg, APPROVAL_REQUIRED, 2, Some(at), None))
    ensures var u := Apply(cfg, w, Go(c));
            At(b, u, c, Idle, id, Record(cfg, APPROVED, 3, Some(at), None))
            && u.Of(id).simulatedAt == w.Of(id).simulatedAt
  {
    hide GatePasses;
  }

  /** From construction of the task to its approval, with no time passing. */
  lemma Prepared(cfg: Config, start: World, b: World, c: nat, id: string, expiresAt: int) returns (u: World)
    requires Reaches(cfg, start, b) && c < |b.clients| && b.clients[c] == Idle && Open(cfg, b, expiresAt)
    requires id !in b.db.tasks && id !in b.db.keys
    ensures Reaches(cfg, start, u) && At(b, u, c, Idle, id, Record(cfg, APPROVED, 3, Some(b.clock), None))
    ensures u.Of(id).simulatedAt == b.clock
  {
    hide At, Reaches, Apply, Record, Open;
    var actions := [Begin(c, CreateTask(id, "a", "p", "r", id)), Go(c), Begin(c, Simulate(id, true)),
                        Go(c), Go(c), Go(c),
                    Begin(c, Approve(id)), Go(c)];
    Creates(cfg, b, c, id, expiresAt);
    u := Apply(cfg, b, actions[0]);
    ReachesThen(cfg, start, b, actions[0]);
    u := Follow(cfg, start, u, actions[1]);
    Simulates(cfg, b, u, c, id);
    u := Follow(cfg, start, u, actions[2]);
    CommitsSimulation(cfg, b, u, c, id);
    u := Follow(cfg, start, u, actions[3]);
    RereadsSimulation(cfg, b, u, c, id, b.clock);
    u := Follow(cfg, start, u, actions[4]);
    RequiresApproval(cfg, b, u, c, id, b.clock);
    u := Follow(cfg, start, u, actions[5]);
    Approves(cfg, b, u, c, id, b.clock);
    u := Follow(cfg, start, u, actions[6]);
    CommitsApproval(cfg, b, u, c, id, b.clock);
    u := Follow(cfg, start, u, actions[7]);
  }

  lemma Follow(cfg: Config, start: World, w: World, a: Action) returns (u: World)
    requires Reaches(cfg, start, w)
    ensures u == Apply(cfg, w, a) && Reaches(cfg, start, u)
  {
    u := Apply(cfg, w, a);
    ReachesThen(cfg, start, w, a);
  }

  lemma Waits(cfg: Config, b: World, w: World, c: nat, pc: Client, id: string, t: Task, seconds: nat)
    requires At(b, w, c, pc, id, t)
    ensures At(b.(clock := b.clock + seconds), Apply(cfg, w, Tick(seconds)), c, pc, id, t)
    ensures Apply(cfg, w, Tick(seconds)).history == w.history
  {
  }

  /** execute() up to the gate, with `seconds` between its first read and the check. */
  lemma Checks(cfg: Config, start: World, b: World, w: World, c: nat, id: string, at: int, expiresAt: int, seconds: nat)
    returns (u: World)
    requires Reaches(cfg, start, w) && Open(cfg, b, expiresAt)
    requires At(b, w, c, Idle, id, Record(cfg, APPROVED, 3, Some(at), None))
    ensures Reaches(cfg, start, u) && u.history == w.history
    ensures var t, later := Record(cfg, APPROVED, 3, Some(at), None), b.clock + seconds;
            var gate := ExecuteGate(id, t, OneDollar(cfg, expiresAt), IntentOf(cfg, id, t, REQUEST, later), later);
            At(b.(clock := later), u, c, gate, id, t)
  {
    hide Reaches, Apply, OneDollar, IntentOf, At;
    var t := Record(cfg, APPROVED, 3, Some(at), None);
    u := Follow(cfg, start, w, Begin(c, Execute(id, REQUEST)));
    BeginsExecute(cfg, b, w, c, id, at);
    ReadsPolicy(cfg, b, u, c, id, t, expiresAt);
    u := Follow(cfg, start, u, Go(c));
    Waits(cfg, b, u, c, ExecuteCheck(id, t, OneDollar(cfg, expiresAt), REQUEST), id, t, seconds);
    u := Follow(cfg, start, u, Tick(seconds));
    ChecksNow(cfg, b.(clock := b.clock + seconds), u, c, id, t, expiresAt);
    u := Follow(cfg, start, u, Go(c));
  }

  lemma BeginsExecute(cfg: Config, b: World, w: World, c: nat, id: string, at: int)
    requires At(b, w, c, Idle, id, Record(cfg, APPROVED, 3, Some(at), None))
    ensures var u := Apply(cfg, w, Begin(c, Execute(id, REQUEST)));
            var t := Record(cfg, APPROVED, 3, Some(at), None);
            At(b, u, c, ExecutePolicy(id, t, REQUEST), id, t) && u.history == w.history
  {
    hide Record;
  }

  lemma ReadsPolicy(cfg: Config, b: World, w: World, c: nat, id: string, t: Task, expiresAt: int)
    requires At(b, w, c, ExecutePolicy(id, t, REQUEST), id, t) && t.policyId == "p" && Open(cfg, b, expiresAt)
    ensures var u := Apply(cfg, w, Go(c));
            At(b, u, c, ExecuteCheck(id, t, OneDollar(cfg, expiresAt), REQUEST), id, t) && u.history == w.history
  {
    hide OneDollar;
  }

  lemma ChecksNow(cfg: Config, b: World, w: World, c: nat, id: string, t: Task, expiresAt: int)
    requires At(b, w, c, ExecuteCheck(id, t, OneDollar(cfg, expiresAt), REQUEST), id, t)
    ensures var u := Apply(cfg, w, Go(c));
            var gate := ExecuteGate(id, t, OneDollar(cfg, expiresAt), IntentOf(cfg, id, t, REQUEST, b.clock), b.clock);
            At(b, u, c, gate, id, t) && u.history == w.history
  {
    hide OneDollar, IntentOf;
  }

  /** The gate lets one dollar pass while nothing has been recorded, whatever is in flight. */
  lemma Passes(cfg: Config, b: World, w: World, c: nat, id: string, at: int, checkedAt: int, expiresAt: int)
    requires Open(cfg, b, expiresAt) && b.clock < expiresAt
    requires at <= checkedAt < at + 300 && checkedAt <= b.clock < checkedAt + 300
    requires var t := Record(cfg, APPROVED, 3, Some(at), None);
             var gate := ExecuteGate(id, t, OneDollar(cfg, expiresAt),
                                     IntentOf(cfg, id, t, REQUEST, checkedAt), checkedAt);
             At(b, w, c, gate, id, t)
    ensures GatePasses(cfg, w, w.clients[c])
  {
    var p := OneDollar(cfg, expiresAt);
    assert Listed(cfg.gate, cfg.gate.lower("t"), p.targets) by {
      assert p.targets[0] == cfg.gate.lower("t");
    }
    assert Listed(cfg.gate, cfg.gate.lower("m"), p.methods) by {
      assert p.methods[0] == cfg.gate.lower("m");
    }
    hide Listed;
    assert w.db.SpentOn("p", Day(w.clock)) == 0.0;
  }

  lemma Admitted(cfg: Config, b: World, w: World, c: nat, pc: Client, id: string, t: Task)
    requires pc.ExecuteGate? && At(b, w, c, pc, id, t) && GatePasses(cfg, w, pc)
             && pc.id == id && pc.task == t && t.policyId == "p"
    requires pc.intent.value == 1.0
    ensures var u := Apply(cfg, w, Go(c));
            At(b, u, c, ExecuteCommit(id, t.version, "p", 1.0), id, t)
  {
    hide GatePasses;
  }

  // ---------------------------------------------------------------- after the gate

  lemma CommitsExecution(cfg: Config, b: World, w: World, c: nat, id: string, at: int)
    requires At(b, w, c, ExecuteCommit(id, 3, "p", 1.0), id, Record(cfg, APPROVED, 3, Some(at), None))
    ensures At(b, Apply(cfg, w, Go(c)), c, ExecuteReread(id, "p", 1.0), id, Record(cfg, EXECUTING, 4, Some(at), None))
  {
    hide GatePasses;
  }

  lemma RereadsExecution(cfg: Config, b: World, w: World, c: nat, id: string, at: int)
    requires At(b, w, c, ExecuteReread(id, "p", 1.0), id, Record(cfg, EXECUTING, 4, Some(at), None))
    ensures At(b, Apply(cfg, w, Go(c)), c, ExecuteCall(id, 4, "p", 1.0), id, Record(cfg, EXECUTING, 4, Some(at), None))
  {
    hide GatePasses;
  }

  lemma Calls(cfg: Config, b: World, w: World, c: nat, id: string, t: Task)
    requires At(b, w, c, ExecuteCall(id, 4, "p", 1.0), id, t)
    ensures At(b, Apply(cfg, w, Go(c)), c, ExecuteAwait(id, 4, "p", 1.0), id, t)
  {
    hide GatePasses;
  }

  lemma Answers(cfg: Config, b: World, w: World, c: nat, id: string, t: Task)
    requires At(b, w, c, ExecuteAwait(id, 4, "p", 1.0), id, t)
    ensures At(b, Apply(cfg, w, Go(c)), c, ExecuteClose(id, 4, "p", 1.0, true), id, t)
  {
    hide GatePasses;
  }

  lemma Succeeds(cfg: Config, b: World, w: World, c: nat, id: string, at: int)
    requires At(b, w, c, ExecuteClose(id, 4, "p", 1.0, true), id, Record(cfg, EXECUTING, 4, Some(at), None))
    ensures At(b, Apply(cfg, w, Go(c)), c, SpendReread(id, "p", 1.0), id,
               Record(cfg, SUCCEEDED, 5, Some(at), Some(true)))
  {
    hide GatePasses, Amount;
  }

  lemma RereadsSuccess(cfg: Config, b: World, w: World, c: nat, id: string, at: int)
    requires At(b, w, c, SpendReread(id, "p", 1.0), id, Record(cfg, SUCCEEDED, 5, Some(at), Some(true)))
    ensures At(b, Apply(cfg, w, Go(c)), c, SpendAdd(id, 5, "p", 1.0), id,
               Record(cfg, SUCCEEDED, 5, Some(at), Some(true)))
  {
    hide GatePasses;
  }

  /** From the EXECUTING commit to the spend write, with an adapter that succeeds. */
  lemma RunsToSpend(cfg: Config, start: World, b: World, w: World, c: nat, id: string, at: int) returns (u: World)
    requires Reaches(cfg, start, w)
    requires At(b, w, c, ExecuteCommit(id, 3, "p", 1.0), id, Record(cfg, APPROVED, 3, Some(at), None))
    ensures Reaches(cfg, start, u)
    ensures At(b, u, c, SpendAdd(id, 5, "p", 1.0), id, Record(cfg, SUCCEEDED, 5, Some(at), Some(true)))
  {
    hide Reaches, Apply, At, Record;
    CommitsExecution(cfg, b, w, c, id, at);
    u := Follow(cfg, start, w, Go(c));
    RereadsExecution(cfg, b, u, c, id, at);
    u := Follow(cfg, start, u, Go(c));
    Calls(cfg, b, u, c, id, Record(cfg, EXECUTING, 4, Some(at), None));
    u := Follow(cfg, start, u, Go(c));
    Answers(cfg, b, u, c, id, Record(cfg, EXECUTING, 4, Some(at), None));
    u := Follow(cfg, start, u, Go(c));
    Succeeds(cfg, b, u, c, id, at);
    u := Follow(cfg, start, u, Go(c));
    RereadsSuccess(cfg, b, u, c, id, at);
    u := Follow(cfg, start, u, Go(c));
  }

  // ---------------------------------------------------------------- stalling

  const WEEK := 604800

  /** The world once the operator has cleared the kill switch and the policy has been created. */
  lemma Opened(cfg: Config, w: World) returns (u: World)
    requires Init(w)
    ensures Reaches(cfg, w, u) && Open(cfg, u, w.clock + WEEK)
    ensures u == w.(killed := false, db := w.db.(policies := map["p" := OneDollar(cfg, w.clock + WEEK)]))
  {
    var a, b := Kill(false), CreatePolicy("p", OneDollar(cfg, w.clock + WEEK));
    ReachesSelf(cfg, w);
    u := Follow(cfg, w, w, a);
    u := Follow(cfg, w, u, b);
  }

  /** MAIN RESULT. A gate pass can come almost ten minutes after the simulation: the client stalls just under five
      minutes before the check and just under five minutes after it. */
  lemma LatePassIsReachable(cfg: Config, w: World) returns (u: World, id: string)
    requires Init(w) && w.clients != []
    ensures Reaches(cfg, w, u) && |u.clients| == |w.clients|
            && GatePasses(cfg, u, u.clients[0]) && u.clients[0].id == id
    ensures u.Of(id).simulatedAt + 300 <= u.clock == u.Of(id).simulatedAt + 598
  {
    hide Reaches, Apply, GatePasses, IntentOf, Record, OneDollar;
    id := "";
    var e := w.clock + WEEK;
    var b := Opened(cfg, w);
    u := Prepared(cfg, w, b, 0, id, e);
    u := Checks(cfg, w, b, u, 0, id, b.clock, e, 299);
    var later := b.(clock := b.clock + 299);
    var gate := u.clients[0];
    Waits(cfg, later, u, 0, gate, id, Record(cfg, APPROVED, 3, Some(b.clock), None), 299);
    u := Follow(cfg, w, u, Tick(299));
    Passes(cfg, later.(clock := later.clock + 299), u, 0, id, b.clock, b.clock + 299, e);
  }

  // ---------------------------------------------------------------- a failing add_spend

  /** One execution, up to the spend write. */
  lemma PassesGate(cfg: Config, start: World, b: World, c: nat, id: string, expiresAt: int) returns (u: World)
    requires Reaches(cfg, start, b) && c < |b.clients| && b.clients[c] == Idle && Open(cfg, b, expiresAt)
    requires id !in b.db.tasks && id !in b.db.keys && b.clock < expiresAt
    ensures Reaches(cfg, start, u)
    ensures At(b, u, c, ExecuteCommit(id, 3, "p", 1.0), id, Record(cfg, APPROVED, 3, Some(b.clock), None))
  {
    hide Reaches, Apply, GatePasses, OneDollar, At;
    u := Prepared(cfg, start, b, c, id, expiresAt);
    u := Checks(cfg, start, b, u, c, id, b.clock, expiresAt, 0);
    assert b.(clock := b.clock + 0) == b;
    var t := Record(cfg, APPROVED, 3, Some(b.clock), None);
    var gate := ExecuteGate(id, t, OneDollar(cfg, expiresAt), IntentOf(cfg, id, t, REQUEST, b.clock), b.clock);
    Passes(cfg, b, u, c, id, b.clock, b.clock, expiresAt);
    ClientAt(b, u, c, gate, id, t);
    Admitted(cfg, b, u, c, gate, id, t);
    u := Follow(cfg, start, u, Go(c));
  }

  lemma ClientAt(b: World, w: World, c: nat, pc: Client, id: string, t: Task)
    requires At(b, w, c, pc, id, t)
    ensures c < |w.clients| && w.clients[c] == pc && id in w.db.tasks && w.db.tasks[id] == t
  {
  }

  /** MAIN RESULT. The handler for a failing add_spend is reachable with a task in SUCCEEDED, and its commit takes the
      task to FAILED, which is no edge. */
  lemma FailedSpendIsReachable(cfg: Config, w: World) returns (u: World, id: string)
    requires Init(w) && w.clients != []
    ensures Reaches(cfg, w, u) && HandlesSpendFailure(u, Go(0), id)
    ensures id in u.db.tasks && u.db.tasks[id].state == SUCCEEDED && TaskChanges(u, Apply(cfg, u, Go(0)), id)
    ensures id in Apply(cfg, u, Go(0)).db.tasks && Apply(cfg, u, Go(0)).db.tasks[id].state == FAILED
    ensures !Edge(SUCCEEDED, FAILED)
  {
    hide Reaches, GatePasses, OneDollar, At, Next, Edge;
    id := "";
    var b := Opened(cfg, w);
    u := PassesGate(cfg, w, b, 0, id, w.clock + WEEK);
    u := RunsToSpend(cfg, w, b, u, 0, id, b.clock);
    SpendRaises(cfg, b, u, 0, id, b.clock);
    u := Follow(cfg, w, u, Advance(0, AdapterSucceeds, false));
    FailsSuccess(cfg, b, u, 0, id, b.clock);
  }

  lemma SpendRaises(cfg: Config, b: World, w: World, c: nat, id: string, at: int)
    requires At(b, w, c, SpendAdd(id, 5, "p", 1.0), id, Record(cfg, SUCCEEDED, 5, Some(at), Some(true)))
    ensures At(b, Apply(cfg, w, Advance(c, AdapterSucceeds, false)), c, SpendFail(id, 5, "p", 1.0), id,
               Record(cfg, SUCCEEDED, 5, Some(at), Some(true)))
  {
    hide GatePasses;
  }

  lemma FailsSuccess(cfg: Config, b: World, w: World, c: nat, id: string, at: int)
    requires At(b, w, c, SpendFail(id, 5, "p", 1.0), id, Record(cfg, SUCCEEDED, 5, Some(at), Some(true)))
    ensures HandlesSpendFailure(w, Go(c), id) && id in w.db.tasks && w.db.tasks[id].state == SUCCEEDED
    ensures TaskChanges(w, Apply(cfg, w, Go(c)), id)
    ensures id in Apply(cfg, w, Go(c)).db.tasks && Apply(cfg, w, Go(c)).db.tasks[id].state == FAILED
    ensures !Edge(SUCCEEDED, FAILED)
  {
    hide GatePasses, Amount;
  }

  // ---------------------------------------------------------------- the cap is reached

  /** Distinct identifiers. */
  function Name(j: nat): (id: string)
    ensures |id| == j
  {
    seq(j, _ => 'x')
  }

  /** Clients 0 to i - 1 have passed the gate; the others have not begun. */
  ghost predicate PassedBy(cfg: Config, w: World, i: nat, expiresAt: int) {
    && i <= |w.clients| && Open(cfg, w, expiresAt) && w.clock < expiresAt
    && (forall j | 0 <= j < |w.clients| :: w.clients[j] == if j < i then ExecuteCommit(Name(j), 3, "p", 1.0) else Idle)
    && (forall id | id in w.db.tasks || id in w.db.keys :: |id| < i)
    && (forall j | 0 <= j < i ::
          Name(j) in w.db.tasks && w.db.tasks[Name(j)] == Record(cfg, APPROVED, 3, Some(w.clock), None)
          && Name(j) in w.db.keys && w.db.keys[Name(j)] == Name(j))
  }

  lemma {:induction false} AllPass(cfg: Config, start: World, w: World, i: nat, expiresAt: int) returns (u: World)
    requires Reaches(cfg, start, w) && PassedBy(cfg, w, 0, expiresAt) && i <= |w.clients|
    ensures Reaches(cfg, start, u) && PassedBy(cfg, u, i, expiresAt)
    ensures |u.clients| == |w.clients| && u.clock == w.clock && u.db.policies == w.db.policies
  {
    hide Reaches, PassedBy;
    if i == 0 {
      u := w;
    } else {
      var b := AllPass(cfg, start, w, i - 1, expiresAt);
      u := OneMorePasses(cfg, start, b, i - 1, expiresAt);
    }
  }

  lemma OneMorePasses(cfg: Config, start: World, b: World, i: nat, expiresAt: int) returns (u: World)
    requires Reaches(cfg, start, b) && i < |b.clients| && PassedBy(cfg, b, i, expiresAt)
    ensures Reaches(cfg, start, u) && PassedBy(cfg, u, i + 1, expiresAt)
    ensures |u.clients| == |b.clients| && u.clock == b.clock && u.db.policies == b.db.policies
  {
    hide Reaches, Record, OneDollar;
    u := PassesGate(cfg, start, b, i, Name(i), expiresAt);
  }

  /** Clients 0 to i - 1 are done and have charged a dollar each; the others have passed the gate. */
  ghost predicate ChargedBy(cfg: Config, w: World, i: nat, expiresAt: int) {
    && i <= |w.clients| && w.db.policies == map["p" := OneDollar(cfg, expiresAt)]
    && w.db.SpentOn("p", Day(w.clock)) == i as real
    && (forall j | 0 <= j < |w.clients| :: w.clients[j] == if j < i then Idle else ExecuteCommit(Name(j), 3, "p", 1.0))
    && (forall j | i <= j < |w.clients| ::
          Name(j) in w.db.tasks && w.db.tasks[Name(j)] == Record(cfg, APPROVED, 3, Some(w.clock), None)
          && Name(j) in w.db.keys && w.db.keys[Name(j)] == Name(j))
  }

  lemma Charges(cfg: Config, b: World, w: World, c: nat, id: string, t: Task)
    requires At(b, w, c, SpendAdd(id, 5, "p", 1.0), id, t)
    ensures var u := Apply(cfg, w, Go(c));
            && u.clients == b.clients[c := Idle] && u.clock == b.clock && u.db.policies == b.db.policies
            && u.db.tasks == b.db.tasks[id := t] && u.db.keys == b.db.keys[id := id]
            && u.db.SpentOn("p", Day(b.clock)) == b.db.SpentOn("p", Day(b.clock)) + 1.0
  {
    hide GatePasses;
  }

  lemma OneMoreCharges(cfg: Config, start: World, b: World, i: nat, expiresAt: int) returns (u: World)
    requires Reaches(cfg, start, b) && i < |b.clients| && ChargedBy(cfg, b, i, expiresAt)
    ensures Reaches(cfg, start, u) && ChargedBy(cfg, u, i + 1, expiresAt)
    ensures |u.clients| == |b.clients| && u.clock == b.clock
  {
    hide Reaches, Record, OneDollar, Apply, Db.SpentOn, Day;
    var id := Name(i);
    assert At(b, b, i, ExecuteCommit(id, 3, "p", 1.0), id, Record(cfg, APPROVED, 3, Some(b.clock), None)) by {
      assert b.clients[i := b.clients[i]] == b.clients;
      assert b.db.tasks[id := b.db.tasks[id]] == b.db.tasks && b.db.keys[id := id] == b.db.keys;
    }
    u := RunsToSpend(cfg, start, b, b, i, id, b.clock);
    Charges(cfg, b, u, i, id, Record(cfg, SUCCEEDED, 5, Some(b.clock), Some(true)));
    u := Follow(cfg, start, u, Go(i));
  }

  lemma {:induction false} AllCharge(cfg: Config, start: World, w: World, i: nat, expiresAt: int) returns (u: World)
    requires Reaches(cfg, start, w) && ChargedBy(cfg, w, 0, expiresAt) && i <= |w.clients|
    ensures Reaches(cfg, start, u) && ChargedBy(cfg, u, i, expiresAt)
    ensures |u.clients| == |w.clients| && u.clock == w.clock
  {
    hide Reaches, ChargedBy;
    if i == 0 {
      u := w;
    } else {
      var b := AllCharge(cfg, start, w, i - 1, expiresAt);
      u := OneMoreCharges(cfg, start, b, i - 1, expiresAt);
    }
  }

  lemma {:induction false} HeadsWithin(clients: seq<Client>, p: string)
    ensures 0.0 <= Total(Heads, clients, p) <= |clients| as real
  {
    hide InFlight;
    if clients != [] {
      HeadsWithin(clients[..|clients| - 1], p);
    }
  }

  /** MAIN RESULT. For every k there is a run of k overlapping executions in which a day's spend is exactly the bound
      of OverlapBoundsSpend; with two or more it is above daily_value_usd. */
  lemma CapIsReached(cfg: Config, w: World, k: nat) returns (as_: seq<Action>)
    requires Init(w) && |w.clients| == k && 1 <= k
    ensures forall n | 0 <= n <= |as_| :: Total(Heads, Run(cfg, w, as_[..n]).clients, "p") <= k as real
    ensures var u := Run(cfg, w, as_);
            && "p" in u.db.policies && u.db.SpentOn("p", Day(u.clock)) == Cap(u.db.policies["p"], k)
            && (2 <= k ==> u.db.SpentOn("p", Day(u.clock)) > u.db.policies["p"].dailyValue)
  {
    hide Run, PassedBy, ChargedBy;
    var e := w.clock + WEEK;
    var b := Opened(cfg, w);
    NobodyPassed(cfg, b, e);
    var v := AllPass(cfg, w, b, k, e);
    NobodyCharged(cfg, v, e);
    var u := AllCharge(cfg, w, v, k, e);
    as_ :| Run(cfg, w, as_) == u;
    AllCharged(cfg, u, e);
    forall n | 0 <= n <= |as_| ensures Total(Heads, Run(cfg, w, as_[..n]).clients, "p") <= k as real {
      RunKeepsCount(cfg, w, as_[..n]);
      HeadsWithin(Run(cfg, w, as_[..n]).clients, "p");
    }
  }

  lemma NobodyPassed(cfg: Config, w: World, expiresAt: int)
    requires Open(cfg, w, expiresAt) && w.clock < expiresAt && w.db.tasks == map[] && w.db.keys == map[]
    requires forall j | 0 <= j < |w.clients| :: w.clients[j] == Idle
    ensures PassedBy(cfg, w, 0, expiresAt)
  {
    hide Open;
  }

  lemma NobodyCharged(cfg: Config, w: World, expiresAt: int)
    requires PassedBy(cfg, w, |w.clients|, expiresAt)
    ensures ChargedBy(cfg, w, 0, expiresAt)
  {
    hide Record, OneDollar;
  }

  lemma AllCharged(cfg: Config, w: World, expiresAt: int)
    requires ChargedBy(cfg, w, |w.clients|, expiresAt)
    ensures "p" in w.db.policies && w.db.SpentOn("p", Day(w.clock)) == |w.clients| as real
    ensures w.db.policies["p"].dailyValue == 1.0 && Cap(w.db.policies["p"], |w.clients|) == |w.clients| as real
  {
  }

  lemma ApplyKeepsCount(cfg: Config, w: World, a: Action)
    requires Inv(cfg, w)
    ensures |Apply(cfg, w, a).clients| == |w.clients|
  {
    hide Inv, Next, BeginCall, Does, Amount;
    if a.Begin? && a.client < |w.clients| && w.clients[a.client].Idle? {
      BeginSets(cfg, w, a.client, a.call);
    } else if a.Advance? && a.client < |w.clients| {
      NextDoes(cfg, w, a.client, a.outcome, a.spendWorks);
    }
  }

  lemma {:induction false} RunKeepsCount(cfg: Config, w: World, as_: seq<Action>)
    requires Init(w)
    ensures |Run(cfg, w, as_).clients| == |w.clients|
    decreases |as_|
  {
    hide Apply, Inv;
    if as_ != [] {
      var before := as_[..|as_| - 1];
      RunKeepsCount(cfg, w, before);
      RunKeepsInv(cfg, w, before);
      ApplyKeepsCount(cfg, Run(cfg, w, before), as_[|as_| - 1]);
    }
  }
}
