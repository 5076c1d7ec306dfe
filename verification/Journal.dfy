/** TaskStore: the append-only, hash-chained, per-task event journal. Each SQL transaction is one
    atomic step; the function of a step says what the transaction does to the tables. */
module Journal {
  import opened Values
  import opened Arena
  import BundleVerifier

  datatype Error = ValueError | CapacityError | Conflict | MissingTask | IntegrityError

  datatype Result<+T> = Ok(value: T) | Err(error: Error)

  datatype TaskRow = TaskRow(tokenHash: string, taskJson: string, taskHash: string, version: int, createdAt: string)

  datatype ProposalRow = ProposalRow(
    proposalId: string, requestKey: string, rawText: string, rawSha256: string,
    proposalHash: string, reportJson: string, sourceMode: string, version: int)

  datatype EventRow = EventRow(sequence: int, eventJson: string, previousHash: string, eventHash: string)

  /** The three tables; rows of a task are kept in insertion order under its task_id. */
  datatype Tables = Tables(
    tasks: map<string, TaskRow>, proposals: map<string, seq<ProposalRow>>, events: map<string, seq<EventRow>>)
  {
    function ProposalsOf(id: string): seq<ProposalRow> {
      if id in proposals then proposals[id] else []
    }

    function EventsOf(id: string): seq<EventRow> {
      if id in events then events[id] else []
    }
  }

  const EMPTY := Tables(map[], map[], map[])

  datatype Quotas = Quotas(maxTasks: int, maxProposals: int)

  datatype Created = Created(taskId: string, version: int, taskHash: string)

  datatype Receipt = Receipt(proposalId: string, version: int, report: Json, replayed: bool)

  function EventValue(taskId: string, sequence: int, kind: string, observedAt: Json, data: Json, head: string): Json {
    Obj(map["schema" := Str("safehire-local-event/2"), "task_id" := Str(taskId), "sequence" := Num(sequence),
            "kind" := Str(kind), "observed_at" := observedAt, "data" := data, "previous_hash" := Str(head)])
  }

  function Head(events: seq<EventRow>): string {
    if events == [] then GENESIS else events[|events| - 1].eventHash
  }

  function LastSequence(events: seq<EventRow>): int {
    if events == [] then 0 else events[|events| - 1].sequence
  }

  /** The row _event inserts after the rows already there. */
  function NextEvent(e: Arena, events: seq<EventRow>, taskId: string, kind: string, data: Json, now: string): EventRow {
    var value := EventValue(taskId, LastSequence(events) + 1, kind, Str(now), data, Head(events));
    EventRow(LastSequence(events) + 1, e.dumps(value), Head(events), Digest(e, value))
  }

  function OpenedData(taskHash: string, observation: Option<Json>): Json {
    if observation.None? then Obj(map["task_hash" := Str(taskHash)])
    else Obj(map["task_hash" := Str(taskHash), "source_observation" := observation.value,
                 "financial_inputs_authenticated" := Bool(false)])
  }

  function CheckedData(proposalId: string, rawSha256: string, proposalHash: string, reportHash: string,
                       sourceMode: string): Json {
    Obj(map["proposal_id" := Str(proposalId), "raw_sha256" := Str(rawSha256), "proposal_hash" := Str(proposalHash),
            "report_hash" := Str(reportHash), "source_mode" := Str(sourceMode)])
  }

  datatype CreateArgs = CreateArgs(taskId: string, token: string, task: Json, now: string, observation: Option<Json>)

  function CreateStep(e: Arena, q: Quotas, t: Tables, a: CreateArgs): (Tables, Result<Created>) {
    if !e.isFresh(a.task, a.now) then (t, Err(ValueError))
    else if |t.tasks| >= q.maxTasks then (t, Err(CapacityError))
    else if a.taskId in t.tasks then (t, Err(IntegrityError))
    else
      var hash := TaskHash(e, a.task);
      var row := TaskRow(e.sha(a.token), e.dumps(a.task), hash, 1, a.now);
      var event := NextEvent(e, t.EventsOf(a.taskId), a.taskId, "task_opened", OpenedData(hash, a.observation), a.now);
      (Tables(t.tasks[a.taskId := row], t.proposals, t.events[a.taskId := t.EventsOf(a.taskId) + [event]]),
       Ok(Created(a.taskId, 1, hash)))
  }

  datatype SubmitArgs = SubmitArgs(
    taskId: string, token: string, text: string, key: string, expected: Json, now: string, proposalId: string)

  predicate KeyOk(key: string) {
    8 <= |key| <= 128 && forall i | 0 <= i < |key| :: key[i] < 128 as char
  }

  function FindKey(ps: seq<ProposalRow>, key: string): Option<ProposalRow> {
    if ps == [] then None else if ps[0].requestKey == key then Some(ps[0]) else FindKey(ps[1..], key)
  }

  predicate Authorised(e: Arena, t: Tables, taskId: string, token: string) {
    taskId in t.tasks && t.tasks[taskId].tokenHash == e.sha(token)
  }

  /** What the row of a task records about one checked output. */
  function CheckedRow(e: Arena, a: SubmitArgs, proposal: Json, report: Json, version: int): ProposalRow {
    ProposalRow(a.proposalId, a.key, a.text, e.sha(a.text), Digest(e, proposal), e.dumps(report),
                "caller_import", version)
  }

  function Replay(e: Arena, a: SubmitArgs, prior: ProposalRow): Result<Receipt> {
    if prior.rawSha256 != e.sha(a.text) then Err(Conflict)
    else
      match e.loads(prior.reportJson)
      case None => Err(ValueError)
      case Some(report) => Ok(Receipt(prior.proposalId, prior.version, report, true))
  }

  function StoredTask(e: Arena, row: TaskRow): Option<Json> {
    var decoded :- e.loads(row.taskJson);
    e.validateTask(decoded)
  }

  function Commit(e: Arena, t: Tables, a: SubmitArgs, proposal: Json, report: Json): Tables {
    var row := if a.taskId in t.tasks then t.tasks[a.taskId] else TaskRow("", "", "", 0, "");
    var checked := CheckedRow(e, a, proposal, report, row.version + 1);
    var data := CheckedData(a.proposalId, checked.rawSha256, checked.proposalHash, Digest(e, report), "caller_import");
    var event := NextEvent(e, t.EventsOf(a.taskId), a.taskId, "proposal_checked", data, a.now);
    Tables(t.tasks[a.taskId := row.(version := row.version + 1)],
           t.proposals[a.taskId := t.ProposalsOf(a.taskId) + [checked]],
           t.events[a.taskId := t.EventsOf(a.taskId) + [event]])
  }

  function SubmitStep(e: Arena, q: Quotas, t: Tables, a: SubmitArgs): (Tables, Result<Receipt>) {
    if !KeyOk(a.key) then (t, Err(ValueError))
    else
      match e.parseProposal(a.text)
      case None => (t, Err(ValueError))
      case Some(proposal) =>
        if !Authorised(e, t, a.taskId, a.token) then (t, Err(MissingTask))
        else
          var row := t.tasks[a.taskId];
          var ps := t.ProposalsOf(a.taskId);
          match FindKey(ps, a.key)
          case Some(prior) => (t, Replay(e, a, prior))
          case None =>
            if a.expected != Num(row.version) then (t, Err(Conflict))
            else if |ps| >= q.maxProposals then (t, Err(CapacityError))
            else
              match StoredTask(e, row)
              case None => (t, Err(ValueError))
              case Some(task) =>
                if exists i | 0 <= i < |ps| :: ps[i].proposalId == a.proposalId then (t, Err(IntegrityError))
                else
                  var report := e.evaluate(task, proposal, a.now);
                  (Commit(e, t, a, proposal, report), Ok(Receipt(a.proposalId, row.version + 1, report, false)))
  }

  function ProposalJson(p: ProposalRow): Json {
    Obj(map["proposal_id" := Str(p.proposalId), "raw_text" := Str(p.rawText), "raw_sha256" := Str(p.rawSha256),
            "proposal_hash" := Str(p.proposalHash), "report_json" := Str(p.reportJson),
            "source_mode" := Str(p.sourceMode), "version" := Num(p.version)])
  }

  function EventJson(r: EventRow): Json {
    Obj(map["sequence" := Num(r.sequence), "event_json" := Str(r.eventJson),
            "event_hash" := Str(r.eventHash), "previous_hash" := Str(r.previousHash)])
  }

  function ProposalJsons(ps: seq<ProposalRow>): seq<Json> {
    seq(|ps|, i requires 0 <= i < |ps| => ProposalJson(ps[i]))
  }

  function EventJsons(events: seq<EventRow>): seq<Json> {
    seq(|events|, i requires 0 <= i < |events| => EventJson(events[i]))
  }

  /** The exported dictionary before its integrity report and checksum are added. */
  const EVIDENCE_MODE := "private_caller_supplied_analysis"
  const TRUST_BOUNDARY := "Local journal. Preserve exported head outside the database; not an onchain attestation."

  function Body(taskId: string, task: Json, row: TaskRow,
                ps: seq<ProposalRow>, events: seq<EventRow>): map<string, Json> {
    map["schema_version" := Str("safehire-private-bundle/2"), "task_id" := Str(taskId), "version" := Num(row.version),
        "task" := task, "task_hash" := Str(row.taskHash),
        "proposals" := Arr(ProposalJsons(ps)), "events" := Arr(EventJsons(events)),
        "evidence_mode" := Str(EVIDENCE_MODE),
        "paid_delivery_verified" := Bool(false), "agent_authorship_verified" := Bool(false),
        "trust_boundary" := Str(TRUST_BOUNDARY)]
  }

  /** The integrity report as the bundle carries it: its validity and head. */
  function IntegrityJson(v: Option<BundleVerifier.Verdict>): Json {
    if v.None? then Obj(map["valid" := Bool(false)])
    else Obj(map["valid" := Bool(v.value.Valid()), "head" := v.value.head])
  }

  function Sealed(e: Arena, body: map<string, Json>): Json {
    var checked := body["integrity" := IntegrityJson(BundleVerifier.Verify(e, Obj(body), None))];
    Obj(checked["bundle_sha256" := Str(Digest(e, Obj(checked)))])
  }

  function Export(e: Arena, t: Tables, taskId: string, token: string): Result<Json> {
    if !Authorised(e, t, taskId, token) then Err(MissingTask)
    else
      match e.loads(t.tasks[taskId].taskJson)
      case None => Err(ValueError)
      case Some(task) =>
        Ok(Sealed(e, Body(taskId, task, t.tasks[taskId], t.ProposalsOf(taskId), t.EventsOf(taskId))))
  }

  class TaskStore {
    const e: Arena
    const q: Quotas
    var tasks: map<string, TaskRow>
    var proposals: map<string, seq<ProposalRow>>
    var events: map<string, seq<EventRow>>

    constructor (e: Arena, q: Quotas)
      ensures this.e == e && this.q == q && State() == EMPTY
    {
      this.e, this.q := e, q;
      tasks, proposals, events := map[], map[], map[];
    }

    function State(): Tables
      reads this
    {
      Tables(tasks, proposals, events)
    }

    /** _event: append one link to the task's chain. */
    method AppendEvent(taskId: string, kind: string, data: Json, now: string)
      modifies this`events
      ensures events == old(events)[taskId := old(State().EventsOf(taskId))
                                              + [NextEvent(e, old(State().EventsOf(taskId)), taskId, kind, data, now)]]
    {
      var rows := State().EventsOf(taskId);
      var sequence, head := 1, GENESIS;
      if rows != [] {
        var previous := rows[|rows| - 1];
        sequence, head := previous.sequence + 1, previous.eventHash;
      }
      var value := EventValue(taskId, sequence, kind, Str(now), data, head);
      events := events[taskId := rows + [EventRow(sequence, e.dumps(value), head, Digest(e, value))]];
    }

    method Create(a: CreateArgs) returns (r: Result<Created>)
      modifies this
      ensures (State(), r) == CreateStep(e, q, old(State()), a)
    {
      if !e.isFresh(a.task, a.now) {
        return Err(ValueError);
      }
      if |tasks| >= q.maxTasks {
        return Err(CapacityError);
      }
      if a.taskId in tasks {
        return Err(IntegrityError);
      }
      var hash := TaskHash(e, a.task);
      tasks := tasks[a.taskId := TaskRow(e.sha(a.token), e.dumps(a.task), hash, 1, a.now)];
      AppendEvent(a.taskId, "task_opened", OpenedData(hash, a.observation), a.now);
      r := Ok(Created(a.taskId, 1, hash));
    }

    method Submit(a: SubmitArgs) returns (r: Result<Receipt>)
      modifies this
      ensures (State(), r) == SubmitStep(e, q, old(State()), a)
    {
      if !KeyOk(a.key) {
        return Err(ValueError);
      }
      var parsed := e.parseProposal(a.text);
      if parsed.None? {
        return Err(ValueError);
      }
      if !Authorised(e, State(), a.taskId, a.token) {
        return Err(MissingTask);
      }
      var row := tasks[a.taskId];
      var ps := State().ProposalsOf(a.taskId);
      var prior := FindKey(ps, a.key);
      if prior.Some? {
        return Replay(e, a, prior.value);
      }
      if a.expected != Num(row.version) {
        return Err(Conflict);
      }
      if |ps| >= q.maxProposals {
        return Err(CapacityError);
      }
      var task := StoredTask(e, row);
      if task.None? {
        return Err(ValueError);
      }
      if exists i | 0 <= i < |ps| :: ps[i].proposalId == a.proposalId {
        return Err(IntegrityError);
      }
      var report := e.evaluate(task.value, parsed.value, a.now);
      var version := row.version + 1;
      var checked := CheckedRow(e, a, parsed.value, report, version);
      proposals := proposals[a.taskId := ps + [checked]];
      tasks := tasks[a.taskId := row.(version := version)];
      AppendEvent(a.taskId, "proposal_checked",
                  CheckedData(a.proposalId, checked.rawSha256, checked.proposalHash, Digest(e, report),
                              "caller_import"), a.now);
      r := Ok(Receipt(a.proposalId, version, report, false));
    }

    method Bundle(taskId: string, token: string) returns (r: Result<Json>)
      ensures r == Export(e, State(), taskId, token)
    {
      if !Authorised(e, State(), taskId, token) {
        return Err(MissingTask);
      }
      var row := tasks[taskId];
      var task := e.loads(row.taskJson);
      if task.None? {
        return Err(ValueError);
      }
      var body := Body(taskId, task.value, row, State().ProposalsOf(taskId), State().EventsOf(taskId));
      var integrity := BundleVerifier.VerifyBundle(e, Obj(body), None);
      body := body["integrity" := IntegrityJson(integrity)];
      r := Ok(Obj(body["bundle_sha256" := Str(Digest(e, Obj(body)))]));
    }
  }
}
