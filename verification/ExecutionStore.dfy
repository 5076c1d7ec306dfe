/** SQLiteStore: tasks under optimistic versions, idempotency keys, policies, and spend per policy and day. */
module ExecutionStore {
  import opened Values
  import opened RiskGate

  /** What simulate() records: the request it saw, its policy, and when it stops counting. */
  datatype Simulation = Simulation(requestHash: string, policyId: string, expiresAt: int)

  datatype Task = Task(
    agentId: string, policyId: string, state: TaskState, request: string,
    simulation: Option<Simulation>, receipt: Option<bool>, version: nat)

  datatype Db = Db(
    tasks: map<string, Task>, keys: map<string, string>, policies: map<string, Policy>,
    spend: map<(string, int), real>)
  {
    function SpentOn(policyId: string, day: int): real {
      if (policyId, day) in spend then spend[(policyId, day)] else 0.0
    }
  }

  const SECONDS_PER_DAY := 86400

  function Day(clock: int): int {
    clock / SECONDS_PER_DAY
  }

  /** update_task: commits only against the version the caller read. None is KeyError or a conflict. */
  function UpdateTask(db: Db, id: string, expected: nat, state: TaskState, simulation: Option<Simulation>,
                      receipt: Option<bool>): Option<Db>
  {
    if id !in db.tasks || db.tasks[id].version != expected then None
    else
      var t := db.tasks[id];
      var updated := t.(state := state,
                        simulation := if simulation.Some? then simulation else t.simulation,
                        receipt := if receipt.Some? then receipt else t.receipt,
                        version := t.version + 1);
      Some(db.(tasks := db.tasks[id := updated]))
  }

  /** create_task: None is a repeated idempotency key or task id. */
  function InsertTask(db: Db, id: string, agentId: string, policyId: string, request: string, key: string): Option<Db> {
    if key in db.keys || id in db.tasks then None
    else Some(db.(tasks := db.tasks[id := Task(agentId, policyId, DRAFT, request, None, None, 0)],
                  keys := db.keys[key := id]))
  }

  function AddSpend(db: Db, policyId: string, day: int, value: real): Db {
    db.(spend := db.spend[(policyId, day) := db.SpentOn(policyId, day) + value])
  }

  function SavePolicy(db: Db, id: string, p: Policy): Db {
    db.(policies := db.policies[id := p])
  }

  class SQLiteStore {
    var tasks: map<string, Task>
    var keys: map<string, string>
    var policies: map<string, Policy>
    var spend: map<(string, int), real>

    constructor ()
      ensures State() == Db(map[], map[], map[], map[])
    {
      tasks, keys, policies, spend := map[], map[], map[], map[];
    }

    function State(): Db
      reads this
    {
      Db(tasks, keys, policies, spend)
    }

    method Update(id: string, expected: nat, state: TaskState, simulation: Option<Simulation>, receipt: Option<bool>)
      returns (committed: bool)
      modifies this`tasks
      ensures committed <==> UpdateTask(old(State()), id, expected, state, simulation, receipt).Some?
      ensures State() == if committed then UpdateTask(old(State()), id, expected, state, simulation, receipt).value
                         else old(State())
    {
      if id !in tasks {
        return false;
      }
      var current := tasks[id];
      if current.version != expected {
        return false;
      }
      tasks := tasks[id := Task(
        current.agentId, current.policyId, state, current.request,
        if simulation.Some? then simulation else current.simulation,
        if receipt.Some? then receipt else current.receipt, current.version + 1)];
      committed := true;
    }

    method Create(id: string, agentId: string, policyId: string, request: string, key: string) returns (created: bool)
      modifies this`tasks, this`keys
      ensures created <==> InsertTask(old(State()), id, agentId, policyId, request, key).Some?
      ensures State() == if created then InsertTask(old(State()), id, agentId, policyId, request, key).value
                         else old(State())
    {
      if key in keys || id in tasks {
        return false;
      }
      tasks := tasks[id := Task(agentId, policyId, DRAFT, request, None, None, 0)];
      keys := keys[key := id];
      created := true;
    }

    method SpentToday(policyId: string, clock: int) returns (r: real)
      ensures r == State().SpentOn(policyId, Day(clock))
    {
      r := if (policyId, Day(clock)) in spend then spend[(policyId, Day(clock))] else 0.0;
    }

    method RecordSpend(policyId: string, clock: int, value: real)
      modifies this`spend
      ensures State() == AddSpend(old(State()), policyId, Day(clock), value)
    {
      var row := (policyId, Day(clock));
      if row in spend {
        spend := spend[row := spend[row] + value];
      } else {
        spend := spend[row := 0.0 + value];
      }
    }

    method Save(id: string, p: Policy)
      modifies this`policies
      ensures State() == SavePolicy(old(State()), id, p)
    {
      policies := policies[id := p];
    }
  }

  /** A second writer with the same expected version cannot commit after the first. */
  lemma OneWriterPerVersion(db: Db, id: string, expected: nat, a: TaskState, b: TaskState)
    requires UpdateTask(db, id, expected, a, None, None).Some?
    ensures UpdateTask(UpdateTask(db, id, expected, a, None, None).value, id, expected, b, None, None).None?
  {
  }

  /** Spend adds up, whatever order the additions come in, and touches no other policy or day. */
  lemma SpendAdds(db: Db, p: string, day: int, v: real, q: string, other: int)
    ensures AddSpend(db, p, day, v).SpentOn(q, other)
            == db.SpentOn(q, other) + if q == p && other == day then v else 0.0
  {
  }

  /** A day of the spend table is a UTC day of the Unix clock. */
  lemma DayIs(clock: int, day: int)
    ensures Day(clock) == day <==> day * 24 * 60 * 60 <= clock < (day + 1) * 24 * 60 * 60
  {
  }
}
