/** TaskService as ordinary methods over the store, for a caller that runs alone, and the proof that the interleaved
    protocol with one running client does the same. */
module TaskService {
  import opened Values
  import opened RiskGate
  import opened ExecutionStore
  import opened ExecutionProtocol

  // ---------------------------------------------------------------- what each call does when nobody interferes

  ghost predicate Admitted(cfg: Config, db: Db, clock: int, killed: bool, id: string, req: Request) {
    && id in db.tasks && db.tasks[id].policyId in db.policies && req.mode == DEMO
    && db.tasks[id].state == APPROVED
    && var t := db.tasks[id];
       Authorised(cfg.gate, IntentOf(cfg, id, t, req, clock), db.policies[t.policyId],
                  Readings(clock, killed, db.SpentOn(t.policyId, Day(clock)), false))
  }

  /** An admitted task ends SUCCEEDED and is charged once, on the day of the charge, or ends FAILED and is not. */
  ghost function Executed(cfg: Config, db: Db, clock: int, killed: bool, id: string, req: Request, outcome: Outcome,
                          spendWorks: bool): Db {
    if !Admitted(cfg, db, clock, killed, id, req) then db
    else
      var t := db.tasks[id];
      if outcome == AdapterSucceeds && spendWorks then
        AddSpend(db.(tasks := db.tasks[id := t.(state := SUCCEEDED, receipt := Some(true), version := t.version + 2)]),
                 t.policyId, Day(clock), req.value)
      else
        db.(tasks := db.tasks[id := t.(state := FAILED, receipt := Some(false),
                                       version := t.version + if outcome == AdapterSucceeds then 3 else 2)])
  }

  function Simulated(cfg: Config, db: Db, clock: int, id: string, passed: bool): Db {
    if id !in db.tasks || db.tasks[id].state != DRAFT || !passed then db
    else
      var t := db.tasks[id];
      db.(tasks := db.tasks[id := t.(state := APPROVAL_REQUIRED, version := t.version + 2,
                                     simulation := Some(Simulation(cfg.digest(t.request), t.policyId, clock + 300)))])
  }

  /** approve and revoke_task: one edge, one version. */
  function Stepped(db: Db, id: string, state: TaskState): Db {
    if id !in db.tasks || !Edge(db.tasks[id].state, state) then db
    else db.(tasks := db.tasks[id := db.tasks[id].(state := state, version := db.tasks[id].version + 1)])
  }

  // ---------------------------------------------------------------- the same in pieces

  function Moved(db: Db, id: string, state: TaskState, receipt: Option<bool>): Db
    requires id in db.tasks
  {
    var t := db.tasks[id];
    db.(tasks := db.tasks[id := t.(state := state, version := t.version + 1,
                                   receipt := if receipt.Some? then receipt else t.receipt)])
  }

  /** From the SUCCEEDED commit on. */
  function Settled(db: Db, clock: int, id: string, policyId: string, v: real, spendWorks: bool): Db
    requires id in db.tasks
  {
    if spendWorks then AddSpend(db, policyId, Day(clock), v) else Moved(db, id, FAILED, Some(false))
  }

  /** From the adapter call on. */
  function Closed(db: Db, clock: int, id: string, policyId: string, v: real, outcome: Outcome, spendWorks: bool): Db
    requires id in db.tasks
  {
    if outcome == AdapterSucceeds then Settled(Moved(db, id, SUCCEEDED, Some(true)), clock, id, policyId, v, spendWorks)
    else Moved(db, id, FAILED, Some(false))
  }

  lemma RefusedStays(cfg: Config, db: Db, clock: int, killed: bool, id: string, req: Request, outcome: Outcome,
                     spendWorks: bool)
    ensures !Admitted(cfg, db, clock, killed, id, req)
            ==> Executed(cfg, db, clock, killed, id, req, outcome, spendWorks) == db
  {
    hide Admitted;
  }

  lemma ClosedIsExecuted(cfg: Config, db: Db, clock: int, killed: bool, id: string, req: Request, outcome: Outcome,
                         spendWorks: bool)
    requires Admitted(cfg, db, clock, killed, id, req)
    ensures Closed(Moved(db, id, EXECUTING, None), clock, id, db.tasks[id].policyId, req.value, outcome, spendWorks)
            == Executed(cfg, db, clock, killed, id, req, outcome, spendWorks)
  {
    hide Authorised, SimulationValid;
  }

  function Lowered(cfg: Config, xs: seq<string>): seq<string> {
    seq(|xs|, n requires 0 <= n < |xs| => cfg.gate.lower(xs[n]))
  }

  /** The policy create_policy stores: lower-cased allowlists, an expiry, and not revoked. */
  function Issued(cfg: Config, draft: Policy, expiresAt: int): Policy {
    draft.(targets := Lowered(cfg, draft.targets), methods := Lowered(cfg, draft.methods), expiresAt := expiresAt,
           revoked := false)
  }

  /** When lowering twice is lowering once, the allowlists admit what their drafts admit. */
  lemma IssuedListsTheSame(cfg: Config, x: string, allowed: seq<string>)
    requires forall y :: cfg.gate.lower(cfg.gate.lower(y)) == cfg.gate.lower(y)
    ensures Listed(cfg.gate, x, Lowered(cfg, allowed)) <==> Listed(cfg.gate, x, allowed)
  {
    var lowered := Lowered(cfg, allowed);
    assert forall i | 0 <= i < |allowed| :: cfg.gate.lower(lowered[i]) == cfg.gate.lower(allowed[i]);
  }

  class TaskService {
    const cfg: Config
    const store: SQLiteStore

    constructor (cfg: Config, store: SQLiteStore)
      ensures this.cfg == cfg && this.store == store
    {
      this.cfg, this.store := cfg, store;
    }

    method CreatePolicy(policyId: string, draft: Policy, ttlMinutes: int, clock: int) returns (done: bool)
      modifies store
      ensures done <==> 0 < ttlMinutes <= 1440 && draft.targets != [] && draft.methods != []
      ensures store.State()
              == if done
                 then SavePolicy(old(store.State()), policyId, Issued(cfg, draft, clock + 60 * ttlMinutes))
                 else old(store.State())
    {
      if ttlMinutes <= 0 || ttlMinutes > 1440 {
        return false;
      }
      if draft.targets == [] || draft.methods == [] {
        return false;
      }
      store.Save(policyId, Issued(cfg, draft, clock + 60 * ttlMinutes));
      done := true;
    }

    method RevokePolicy(policyId: string) returns (done: bool)
      modifies store
      ensures done <==> policyId in old(store.policies)
      ensures store.State() == if done
                               then SavePolicy(old(store.State()), policyId,
                                               old(store.policies)[policyId].(revoked := true))
                               else old(store.State())
    {
      if policyId !in store.policies {
        return false;
      }
      store.Save(policyId, store.policies[policyId].(revoked := true));
      done := true;
    }

    method CreateTask(newId: string, agentId: string, policyId: string, request: string,
                      key: string) returns (done: bool)
      modifies store
      ensures done <==> policyId in old(store.policies) && old(store.policies)[policyId].agentId == agentId
                        && InsertTask(old(store.State()), newId, agentId, policyId, request, key).Some?
      ensures store.State() == if done then InsertTask(old(store.State()), newId, agentId, policyId, request, key).value
                               else old(store.State())
    {
      if policyId !in store.policies || store.policies[policyId].agentId != agentId {
        return false;
      }
      done := store.Create(newId, agentId, policyId, request, key);
    }

    method Simulate(id: string, passed: bool, clock: int) returns (done: bool)
      modifies store
      ensures store.State() == Simulated(cfg, old(store.State()), clock, id, passed)
      ensures done <==> store.State() != old(store.State())
    {
      if id !in store.tasks {
        return false;
      }
      var task := store.tasks[id];
      if !Edge(task.state, SIMULATED) || !passed {
        return false;
      }
      var simulation := Simulation(cfg.digest(task.request), task.policyId, clock + 300);
      done := store.Update(id, task.version, SIMULATED, Some(simulation), None);
      task := store.tasks[id];
      if !Edge(task.state, APPROVAL_REQUIRED) {
        return false;
      }
      done := store.Update(id, task.version, APPROVAL_REQUIRED, None, None);
    }

    method Approve(id: string) returns (done: bool)
      modifies store
      ensures store.State() == Stepped(old(store.State()), id, APPROVED)
      ensures done <==> store.State() != old(store.State())
    {
      if id !in store.tasks || !Edge(store.tasks[id].state, APPROVED) {
        return false;
      }
      done := store.Update(id, store.tasks[id].version, APPROVED, None, None);
    }

    method RevokeTask(id: string) returns (done: bool)
      modifies store
      ensures store.State() == Stepped(old(store.State()), id, REVOKED)
      ensures done <==> store.State() != old(store.State())
    {
      if id !in store.tasks || !Edge(store.tasks[id].state, REVOKED) {
        return false;
      }
      done := store.Update(id, store.tasks[id].version, REVOKED, None, None);
    }

    /** None is an exception to the caller, otherwise the state the task ends in. */
    method Execute(id: string, req: Request, clock: int, killed: bool, outcome: Outcome, spendWorks: bool)
      returns (result: Option<TaskState>)
      modifies store
      ensures store.State() == Executed(cfg, old(store.State()), clock, killed, id, req, outcome, spendWorks)
      ensures result.Some? <==> Admitted(cfg, old(store.State()), clock, killed, id, req)
      ensures result.Some? ==> id in store.tasks && result.value == store.tasks[id].state
    {
      hide Authorised, IntentOf, Closed, Executed;
      RefusedStays(cfg, store.State(), clock, killed, id, req, outcome, spendWorks);
      if id !in store.tasks || store.tasks[id].policyId !in store.policies || req.mode != DEMO {
        return None;
      }
      var task := store.tasks[id];
      var policy := store.policies[task.policyId];
      var intent := IntentOf(cfg, id, task, req, clock);
      var spent := store.SpentToday(task.policyId, clock);
      var allowed, _ := Evaluate(cfg.gate, intent, policy, Readings(clock, killed, spent, false));
      if !allowed || !Edge(task.state, EXECUTING) {
        return None;
      }
      ClosedIsExecuted(cfg, store.State(), clock, killed, id, req, outcome, spendWorks);
      Carry(id, req.value, clock, outcome, spendWorks);
      result := Some(store.tasks[id].state);
    }

    /** The part of execute() from the EXECUTING commit on: the adapter's answer, the closing update and the charge
        inside the try block, and the handler that records FAILED. */
    method Carry(id: string, value: real, clock: int, outcome: Outcome, spendWorks: bool)
      requires id in store.tasks
      modifies store
      ensures id in store.tasks
      ensures store.State() == Closed(Moved(old(store.State()), id, EXECUTING, None), clock, id,
                                      old(store.tasks)[id].policyId, value, outcome, spendWorks)
    {
      var task := store.tasks[id];
      var _ := store.Update(id, task.version, EXECUTING, None, None);
      task := store.tasks[id];
      var raised := outcome == AdapterRaises;
      if !raised {
        var success := outcome == AdapterSucceeds;
        var _ := store.Update(id, task.version, if success then SUCCEEDED else FAILED, None, Some(success));
        task := store.tasks[id];
        if success {
          if spendWorks {
            store.RecordSpend(task.policyId, clock, value);
          } else {
            raised := true;
          }
        }
      }
      if raised {
        var _ := store.Update(id, task.version, FAILED, None, Some(false));
      }
    }
  }

  // ---------------------------------------------------------------- the protocol with one running client

  /** n steps of client c, with no other client, tick or crash between them. */
  ghost function Drive(cfg: Config, w: World, c: nat, outcome: Outcome, spendWorks: bool, n: nat): World
    decreases n
  {
    if n == 0 || c >= |w.clients| then w
    else Drive(cfg, Next(cfg, w, c, outcome, spendWorks), c, outcome, spendWorks, n - 1)
  }

  function Repeated(a: Action, n: nat): seq<Action> {
    if n == 0 then [] else [a] + Repeated(a, n - 1)
  }

  /** The same steps as a run of the protocol. */
  lemma {:induction false} DriveIsRun(cfg: Config, w: World, as_: seq<Action>, c: nat, outcome: Outcome,
                                      spendWorks: bool, n: nat)
    ensures Run(cfg, w, as_ + Repeated(Advance(c, outcome, spendWorks), n))
            == Drive(cfg, Run(cfg, w, as_), c, outcome, spendWorks, n)
    decreases n
  {
    hide Next, Run;
    var a := Advance(c, outcome, spendWorks);
    if n == 0 {
      assert as_ + [] == as_;
    } else {
      RunThen(cfg, w, as_, a);
      DriveIsRun(cfg, w, as_ + [a], c, outcome, spendWorks, n - 1);
      assert (as_ + [a]) + Repeated(a, n - 1) == as_ + ([a] + Repeated(a, n - 1));
    }
  }

  lemma RunThen(cfg: Config, w: World, as_: seq<Action>, a: Action)
    ensures Run(cfg, w, as_ + [a]) == Apply(cfg, Run(cfg, w, as_), a)
  {
    hide Apply;
    assert (as_ + [a])[..|as_|] == as_;
  }

  /** After n steps of client c it is done, and the store is db. */
  ghost predicate Ends(cfg: Config, w: World, c: nat, outcome: Outcome, spendWorks: bool, n: nat, db: Db) {
    var u := Drive(cfg, w, c, outcome, spendWorks, n);
    c < |w.clients| && c < |u.clients| && u.db == db && u.clients[c] == Idle
  }

  lemma EndsAfter(cfg: Config, w: World, c: nat, outcome: Outcome, spendWorks: bool, n: nat, db: Db)
    requires c < |w.clients| && 0 < n
             && Ends(cfg, Next(cfg, w, c, outcome, spendWorks), c, outcome, spendWorks, n - 1, db)
    ensures Ends(cfg, w, c, outcome, spendWorks, n, db)
  {
    hide Next;
  }

  lemma {:induction false} IdleEnds(cfg: Config, w: World, c: nat, outcome: Outcome, spendWorks: bool, n: nat)
    requires c < |w.clients| && w.clients[c] == Idle
    ensures Ends(cfg, w, c, outcome, spendWorks, n, w.db)
    decreases n
  {
    if n > 0 {
      IdleStep(cfg, w, c, outcome, spendWorks);
      IdleEnds(cfg, w, c, outcome, spendWorks, n - 1);
    }
  }

  lemma IdleStep(cfg: Config, w: World, c: nat, outcome: Outcome, spendWorks: bool)
    requires c < |w.clients| && w.clients[c] == Idle
    ensures Next(cfg, w, c, outcome, spendWorks) == w
  {
  }

  predicate At(w: World, c: nat, pc: Client, id: string, version: nat) {
    c < |w.clients| && w.clients[c] == pc && id in w.db.tasks && w.db.tasks[id].version == version
  }

  lemma FailEnds(cfg: Config, w: World, c: nat, outcome: Outcome, spendWorks: bool, n: nat, id: string, version: nat,
                 policyId: string, v: real)
    requires 0 < n
    requires At(w, c, ExecuteFail(id, version, policyId, v), id, version)
             || At(w, c, SpendFail(id, version, policyId, v), id, version)
    ensures Ends(cfg, w, c, outcome, spendWorks, n, Moved(w.db, id, FAILED, Some(false)))
  {
    hide Ends, Amount;
    var u := Next(cfg, w, c, outcome, spendWorks);
    assert u.clients[c] == Idle && u.db == Moved(w.db, id, FAILED, Some(false));
    IdleEnds(cfg, u, c, outcome, spendWorks, n - 1);
    EndsAfter(cfg, w, c, outcome, spendWorks, n, u.db);
  }

  lemma SpendEnds(cfg: Config, w: World, c: nat, outcome: Outcome, spendWorks: bool, n: nat, id: string,
                  version: nat, policyId: string, v: real)
    requires 1 < n && At(w, c, SpendAdd(id, version, policyId, v), id, version)
    ensures Ends(cfg, w, c, outcome, spendWorks, n, Settled(w.db, w.clock, id, policyId, v, spendWorks))
  {
    hide Ends, Commit, AddSpend;
    var u := Next(cfg, w, c, outcome, spendWorks);
    if spendWorks {
      IdleEnds(cfg, u, c, outcome, spendWorks, n - 1);
    } else {
      FailEnds(cfg, u, c, outcome, spendWorks, n - 1, id, version, policyId, v);
    }
    EndsAfter(cfg, w, c, outcome, spendWorks, n, Settled(w.db, w.clock, id, policyId, v, spendWorks));
  }

  lemma SpendRereadEnds(cfg: Config, w: World, c: nat, outcome: Outcome, spendWorks: bool, n: nat, id: string,
                        policyId: string, v: real)
    requires 2 < n && c < |w.clients| && w.clients[c] == SpendReread(id, policyId, v) && id in w.db.tasks
    ensures Ends(cfg, w, c, outcome, spendWorks, n, Settled(w.db, w.clock, id, policyId, v, spendWorks))
  {
    hide Ends, Settled;
    var u := Next(cfg, w, c, outcome, spendWorks);
    SpendEnds(cfg, u, c, outcome, spendWorks, n - 1, id, w.db.tasks[id].version, policyId, v);
    EndsAfter(cfg, w, c, outcome, spendWorks, n, Settled(w.db, w.clock, id, policyId, v, spendWorks));
  }

  lemma CloseEnds(cfg: Config, w: World, c: nat, outcome: Outcome, spendWorks: bool, n: nat, id: string,
                  version: nat, policyId: string, v: real)
    requires 3 < n && outcome != AdapterRaises
    requires At(w, c, ExecuteClose(id, version, policyId, v, outcome == AdapterSucceeds), id, version)
    ensures Ends(cfg, w, c, outcome, spendWorks, n, Closed(w.db, w.clock, id, policyId, v, outcome, spendWorks))
  {
    hide Ends, Settled, Amount;
    var u := Next(cfg, w, c, outcome, spendWorks);
    if outcome == AdapterSucceeds {
      assert u.db == Moved(w.db, id, SUCCEEDED, Some(true)) && u.clients[c] == SpendReread(id, policyId, v)
             && u.clock == w.clock;
      SpendRereadEnds(cfg, u, c, outcome, spendWorks, n - 1, id, policyId, v);
    } else {
      assert u.db == Moved(w.db, id, FAILED, Some(false)) && u.clients[c] == Idle;
      IdleEnds(cfg, u, c, outcome, spendWorks, n - 1);
    }
    EndsAfter(cfg, w, c, outcome, spendWorks, n, Closed(w.db, w.clock, id, policyId, v, outcome, spendWorks));
  }

  lemma AwaitEnds(cfg: Config, w: World, c: nat, outcome: Outcome, spendWorks: bool, n: nat, id: string,
                  version: nat, policyId: string, v: real)
    requires 4 < n && At(w, c, ExecuteAwait(id, version, policyId, v), id, version)
    ensures Ends(cfg, w, c, outcome, spendWorks, n, Closed(w.db, w.clock, id, policyId, v, outcome, spendWorks))
  {
    hide Ends, Settled, Moved;
    var u := Next(cfg, w, c, outcome, spendWorks);
    if outcome == AdapterRaises {
      FailEnds(cfg, u, c, outcome, spendWorks, n - 1, id, version, policyId, v);
    } else {
      CloseEnds(cfg, u, c, outcome, spendWorks, n - 1, id, version, policyId, v);
    }
    EndsAfter(cfg, w, c, outcome, spendWorks, n, Closed(w.db, w.clock, id, policyId, v, outcome, spendWorks));
  }

  lemma CallEnds(cfg: Config, w: World, c: nat, outcome: Outcome, spendWorks: bool, n: nat, id: string, version: nat,
                 policyId: string, v: real)
    requires 5 < n && At(w, c, ExecuteCall(id, version, policyId, v), id, version)
    ensures Ends(cfg, w, c, outcome, spendWorks, n, Closed(w.db, w.clock, id, policyId, v, outcome, spendWorks))
  {
    hide Ends, Closed;
    AwaitEnds(cfg, Next(cfg, w, c, outcome, spendWorks), c, outcome, spendWorks, n - 1, id, version, policyId, v);
    EndsAfter(cfg, w, c, outcome, spendWorks, n, Closed(w.db, w.clock, id, policyId, v, outcome, spendWorks));
  }

  lemma RereadEnds(cfg: Config, w: World, c: nat, outcome: Outcome, spendWorks: bool, n: nat, id: string,
                   policyId: string, v: real)
    requires 6 < n && c < |w.clients| && w.clients[c] == ExecuteReread(id, policyId, v) && id in w.db.tasks
    ensures Ends(cfg, w, c, outcome, spendWorks, n, Closed(w.db, w.clock, id, policyId, v, outcome, spendWorks))
  {
    hide Ends, Closed;
    CallEnds(cfg, Next(cfg, w, c, outcome, spendWorks), c, outcome, spendWorks, n - 1, id, w.db.tasks[id].version,
             policyId, v);
    EndsAfter(cfg, w, c, outcome, spendWorks, n, Closed(w.db, w.clock, id, policyId, v, outcome, spendWorks));
  }

  lemma CommitEnds(cfg: Config, w: World, c: nat, outcome: Outcome, spendWorks: bool, n: nat, id: string,
                   version: nat, policyId: string, v: real)
    requires 7 < n && At(w, c, ExecuteCommit(id, version, policyId, v), id, version)
    ensures Ends(cfg, w, c, outcome, spendWorks, n,
                 Closed(Moved(w.db, id, EXECUTING, None), w.clock, id, policyId, v, outcome, spendWorks))
  {
    hide Ends, Closed;
    var u := Next(cfg, w, c, outcome, spendWorks);
    assert u.db == Moved(w.db, id, EXECUTING, None) && u.clients[c] == ExecuteReread(id, policyId, v)
           && u.clock == w.clock;
    RereadEnds(cfg, u, c, outcome, spendWorks, n - 1, id, policyId, v);
    EndsAfter(cfg, w, c, outcome, spendWorks, n, Closed(u.db, w.clock, id, policyId, v, outcome, spendWorks));
  }

  lemma GateEnds(cfg: Config, w: World, c: nat, outcome: Outcome, spendWorks: bool, n: nat, id: string, req: Request)
    requires 8 < n && c < |w.clients| && id in w.db.tasks && w.db.tasks[id].policyId in w.db.policies
             && req.mode == DEMO
    requires var t := w.db.tasks[id];
             w.clients[c] == ExecuteGate(id, t, w.db.policies[t.policyId], IntentOf(cfg, id, t, req, w.clock), w.clock)
    ensures Ends(cfg, w, c, outcome, spendWorks, n,
                 Executed(cfg, w.db, w.clock, w.killed, id, req, outcome, spendWorks))
  {
    hide Ends, SimulationValid, Authorised;
    var u := Next(cfg, w, c, outcome, spendWorks);
    var t := w.db.tasks[id];
    var end := Executed(cfg, w.db, w.clock, w.killed, id, req, outcome, spendWorks);
    if Admitted(cfg, w.db, w.clock, w.killed, id, req) {
      CommitEnds(cfg, u, c, outcome, spendWorks, n - 1, id, t.version, t.policyId, req.value);
      ClosedIsExecuted(cfg, w.db, w.clock, w.killed, id, req, outcome, spendWorks);
    } else {
      IdleEnds(cfg, u, c, outcome, spendWorks, n - 1);
    }
    EndsAfter(cfg, w, c, outcome, spendWorks, n, end);
  }

  /** MAIN RESULT. execute() as a method and as eleven steps of the interleaved protocol agree: with no other client
      moving, no tick and no crash in between, the protocol ends where the method ends. */
  lemma AloneIsSerial(cfg: Config, w: World, c: nat, id: string, req: Request, outcome: Outcome, spendWorks: bool)
    requires c < |w.clients| && w.clients[c] == Idle
    ensures Ends(cfg, Apply(cfg, w, Begin(c, Execute(id, req))), c, outcome, spendWorks, 11,
                 Executed(cfg, w.db, w.clock, w.killed, id, req, outcome, spendWorks))
  {
    hide Ends, SimulationValid, Authorised, IntentOf;
    var u := Apply(cfg, w, Begin(c, Execute(id, req)));
    var end := Executed(cfg, w.db, w.clock, w.killed, id, req, outcome, spendWorks);
    if id !in w.db.tasks {
      IdleEnds(cfg, u, c, outcome, spendWorks, 11);
    } else {
      PolicyEnds(cfg, u, c, outcome, spendWorks, id, req);
    }
  }

  lemma PolicyEnds(cfg: Config, w: World, c: nat, outcome: Outcome, spendWorks: bool, id: string, req: Request)
    requires c < |w.clients| && id in w.db.tasks && w.clients[c] == ExecutePolicy(id, w.db.tasks[id], req)
    ensures Ends(cfg, w, c, outcome, spendWorks, 11,
                 Executed(cfg, w.db, w.clock, w.killed, id, req, outcome, spendWorks))
  {
    hide Ends, SimulationValid, Authorised, IntentOf;
    var u := Next(cfg, w, c, outcome, spendWorks);
    var end := Executed(cfg, w.db, w.clock, w.killed, id, req, outcome, spendWorks);
    if w.db.tasks[id].policyId in w.db.policies && req.mode == DEMO {
      GateEnds(cfg, Next(cfg, u, c, outcome, spendWorks), c, outcome, spendWorks, 9, id, req);
      EndsAfter(cfg, u, c, outcome, spendWorks, 10, end);
    } else {
      IdleEnds(cfg, u, c, outcome, spendWorks, 10);
    }
    EndsAfter(cfg, w, c, outcome, spendWorks, 11, end);
  }
}
