/** The journal as the history of the calls it accepted: what every call returns, what every row and every export
    holds, said in terms of the arguments of those calls alone. */
module JournalHistory {
  import opened Values
  import opened Arena
  import opened Journal
  import opened JournalTheorems
  import BundleTheorems
  import BundleSpec
  import BundleVerifier

  /** A task: the call that created it and the submissions that were committed, in order. */
  datatype Entry = Entry(create: CreateArgs, accepted: seq<SubmitArgs>)

  type History = map<string, Entry>

  // ---------------------------------------------------------------- what a call returns

  /** The report on the k-th output: the created task, the output as parsed, at the time it was submitted. */
  function ReportOf(e: Arena, x: Entry, k: nat): Json
    requires k < |x.accepted|
  {
    var a := x.accepted[k];
    match e.parseProposal(a.text)
    case None => Null
    case Some(proposal) => e.evaluate(x.create.task, proposal, a.now)
  }

  function HashOf(e: Arena, task: Json): string {
    e.sha(e.dumps(Obj(map["domain" := Str("safehire-acceptance-task-v2"), "task" := task])))
  }

  function Create(e: Arena, q: Quotas, h: History, a: CreateArgs): (History, Result<Created>) {
    if !e.isFresh(a.task, a.now) then (h, Err(ValueError))
    else if q.maxTasks <= |h| then (h, Err(CapacityError))
    else if a.taskId in h then (h, Err(IntegrityError))
    else (h[a.taskId := Entry(a, [])], Ok(Created(a.taskId, 1, HashOf(e, a.task))))
  }

  /** An idempotency key: 8 to 128 ASCII characters. */
  predicate AsciiKey(key: string) {
    8 <= |key| && |key| <= 128 && forall c | c in key :: 0 <= c as int <= 127
  }

  ghost predicate KeyUsed(x: Entry, key: string) {
    exists b | b in x.accepted :: b.key == key
  }

  ghost predicate Opened(h: History, id: string, token: string) {
    id in h && h[id].create.token == token
  }

  /** The submissions that are committed. */
  ghost predicate Commits(e: Arena, q: Quotas, h: History, a: SubmitArgs) {
    && AsciiKey(a.key) && e.parseProposal(a.text).Some? && Opened(h, a.taskId, a.token)
    && var x := h[a.taskId];
       && !KeyUsed(x, a.key) && a.expected == Num(|x.accepted| + 1) && |x.accepted| < q.maxProposals
       && forall b | b in x.accepted :: b.proposalId != a.proposalId
  }

  ghost function Submitted(e: Arena, q: Quotas, h: History, a: SubmitArgs): History {
    if Commits(e, q, h, a) then h[a.taskId := Entry(h[a.taskId].create, h[a.taskId].accepted + [a])] else h
  }

  /** The receipt for output k of a task. */
  function ReceiptOf(e: Arena, x: Entry, k: nat, replayed: bool): Receipt
    requires k < |x.accepted|
  {
    Receipt(x.accepted[k].proposalId, k + 2, ReportOf(e, x, k), replayed)
  }

  ghost predicate Replays(e: Arena, x: Entry, a: SubmitArgs, r: Result<Receipt>, k: nat) {
    && k < |x.accepted| && x.accepted[k].key == a.key
    && r == if x.accepted[k].text == a.text then Ok(ReceiptOf(e, x, k, true)) else Err(Conflict)
  }

  /** What submit returns. */
  ghost predicate Replies(e: Arena, q: Quotas, h: History, a: SubmitArgs, r: Result<Receipt>) {
    if !AsciiKey(a.key) || e.parseProposal(a.text).None? then r == Err(ValueError)
    else if !Opened(h, a.taskId, a.token) then r == Err(MissingTask)
    else
      var x := h[a.taskId];
      if KeyUsed(x, a.key) then exists k :: Replays(e, x, a, r, k)
      else if a.expected != Num(|x.accepted| + 1) then r == Err(Conflict)
      else if q.maxProposals <= |x.accepted| then r == Err(CapacityError)
      else if exists b | b in x.accepted :: b.proposalId == a.proposalId then r == Err(IntegrityError)
      else r == Ok(ReceiptOf(e, Entry(x.create, x.accepted + [a]), |x.accepted|, false))
  }

  // ---------------------------------------------------------------- what the tables hold

  /** The data of a task's k-th event. */
  function DataAt(e: Arena, x: Entry, k: nat): Json
    requires k <= |x.accepted|
  {
    if k == 0 then
      if x.create.observation.None? then Obj(map["task_hash" := Str(HashOf(e, x.create.task))])
      else Obj(map["task_hash" := Str(HashOf(e, x.create.task)), "source_observation" := x.create.observation.value,
                   "financial_inputs_authenticated" := Bool(false)])
    else
      var a := x.accepted[k - 1];
      var proposal := if e.parseProposal(a.text).Some? then e.parseProposal(a.text).value else Null;
      Obj(map["proposal_id" := Str(a.proposalId), "raw_sha256" := Str(e.sha(a.text)),
              "proposal_hash" := Str(e.sha(e.dumps(proposal))),
              "report_hash" := Str(e.sha(e.dumps(ReportOf(e, x, k - 1)))), "source_mode" := Str("caller_import")])
  }

  /** A task's k-th event. It names the hash of the event before it. */
  function EventAt(e: Arena, id: string, x: Entry, k: nat): Json
    requires k <= |x.accepted|
    decreases k, 1
  {
    Obj(map["schema" := Str("safehire-local-event/2"), "task_id" := Str(id), "sequence" := Num(k + 1),
            "kind" := Str(if k == 0 then "task_opened" else "proposal_checked"),
            "observed_at" := Str(if k == 0 then x.create.now else x.accepted[k - 1].now),
            "data" := DataAt(e, x, k), "previous_hash" := Str(HashBefore(e, id, x, k))])
  }

  function HashBefore(e: Arena, id: string, x: Entry, k: nat): string
    requires k <= |x.accepted|
    decreases k, 0
  {
    if k == 0 then GENESIS else e.sha(e.dumps(EventAt(e, id, x, k - 1)))
  }

  function EventRowAt(e: Arena, id: string, x: Entry, k: nat): EventRow
    requires k <= |x.accepted|
  {
    var event := EventAt(e, id, x, k);
    EventRow(k + 1, e.dumps(event), HashBefore(e, id, x, k), e.sha(e.dumps(event)))
  }

  function ProposalRowAt(e: Arena, x: Entry, k: nat): ProposalRow
    requires k < |x.accepted|
  {
    var a := x.accepted[k];
    var proposal := if e.parseProposal(a.text).Some? then e.parseProposal(a.text).value else Null;
    ProposalRow(a.proposalId, a.key, a.text, e.sha(a.text), e.sha(e.dumps(proposal)), e.dumps(ReportOf(e, x, k)),
                "caller_import", k + 2)
  }

  function TaskRowOf(e: Arena, x: Entry): TaskRow {
    TaskRow(e.sha(x.create.token), e.dumps(x.create.task), HashOf(e, x.create.task), |x.accepted| + 1, x.create.now)
  }

  ghost predicate HoldsRows(e: Arena, id: string, x: Entry, ps: seq<ProposalRow>, events: seq<EventRow>) {
    && |ps| == |x.accepted| && |events| == |x.accepted| + 1
    && (forall k | 0 <= k < |ps| :: ps[k] == ProposalRowAt(e, x, k))
    && (forall k | 0 <= k < |events| :: events[k] == EventRowAt(e, id, x, k))
  }

  /** A typed task and parsed outputs. */
  ghost predicate Proper(e: Arena, x: Entry) {
    TypedCreate(e, x.create) && forall a | a in x.accepted :: e.parseProposal(a.text).Some?
  }

  ghost predicate HoldsTask(e: Arena, id: string, x: Entry, t: Tables) {
    && Proper(e, x) && id in t.tasks && t.tasks[id] == TaskRowOf(e, x)
    && HoldsRows(e, id, x, t.ProposalsOf(id), t.EventsOf(id))
  }

  /** The tables hold this history and nothing else. */
  ghost predicate Holds(e: Arena, h: History, t: Tables) {
    && t.tasks.Keys == h.Keys
    && (forall id | id !in h :: t.ProposalsOf(id) == [] && t.EventsOf(id) == [])
    && (forall id | id in h :: HoldsTask(e, id, h[id], t))
  }

  ghost predicate SameElsewhere(t: Tables, u: Tables, id: string) {
    forall x | x != id ::
      (x in t.tasks ==> x in u.tasks && u.tasks[x] == t.tasks[x])
      && u.ProposalsOf(x) == t.ProposalsOf(x) && u.EventsOf(x) == t.EventsOf(x)
  }

  /** A transaction on one task. */
  lemma OneTaskTold(e: Arena, h: History, t: Tables, u: Tables, id: string, y: Entry)
    requires Holds(e, h, t) && HoldsTask(e, id, y, u) && u.tasks.Keys == t.tasks.Keys + {id} && SameElsewhere(t, u, id)
    ensures Holds(e, h[id := y], u)
  {
    hide HoldsRows, Proper, TaskRowOf, Tables.ProposalsOf, Tables.EventsOf;
  }

  // ---------------------------------------------------------------- one more output

  lemma {:induction false} EventStays(e: Arena, id: string, x: Entry, a: SubmitArgs, k: nat)
    requires k <= |x.accepted|
    ensures var y := Entry(x.create, x.accepted + [a]);
            EventAt(e, id, y, k) == EventAt(e, id, x, k) && EventRowAt(e, id, y, k) == EventRowAt(e, id, x, k)
  {
    if k > 0 {
      EventStays(e, id, x, a, k - 1);
    }
  }

  lemma RowsGrow(e: Arena, id: string, x: Entry, a: SubmitArgs, ps: seq<ProposalRow>, events: seq<EventRow>)
    requires HoldsRows(e, id, x, ps, events)
    ensures var y, n := Entry(x.create, x.accepted + [a]), |x.accepted|;
            HoldsRows(e, id, y, ps + [ProposalRowAt(e, y, n)], events + [EventRowAt(e, id, y, n + 1)])
  {
    hide EventRowAt;
    forall k | 0 <= k < |events| ensures events[k] == EventRowAt(e, id, Entry(x.create, x.accepted + [a]), k) {
      EventStays(e, id, x, a, k);
    }
  }

  lemma LastEvent(e: Arena, id: string, x: Entry, ps: seq<ProposalRow>, events: seq<EventRow>)
    requires HoldsRows(e, id, x, ps, events)
    ensures LastSequence(events) == |events| && Head(events) == e.sha(e.dumps(EventAt(e, id, x, |x.accepted|)))
  {
    hide EventAt;
  }

  /** The event appended for the next output. */
  lemma NextIs(e: Arena, id: string, x: Entry, a: SubmitArgs, ps: seq<ProposalRow>, events: seq<EventRow>)
    requires HoldsRows(e, id, x, ps, events)
    ensures var y, n := Entry(x.create, x.accepted + [a]), |x.accepted|;
            EventRowAt(e, id, y, n + 1) == NextEvent(e, events, id, "proposal_checked", DataAt(e, y, n + 1), a.now)
  {
    hide DataAt;
    LastEvent(e, id, x, ps, events);
    EventStays(e, id, x, a, |x.accepted|);
  }

  lemma KeysAgree(key: string)
    ensures KeyOk(key) <==> AsciiKey(key)
  {
    if KeyOk(key) {
      forall c | c in key ensures 0 <= c as int <= 127 {
        var i :| 0 <= i < |key| && key[i] == c;
      }
    }
    if AsciiKey(key) {
      forall i | 0 <= i < |key| ensures key[i] < 128 as char {
        assert key[i] in key;
      }
    }
  }

  /** The stored task is the one create was given. */
  lemma StoredIs(e: Arena, x: Entry)
    requires Sound(e) && Proper(e, x)
    ensures StoredTask(e, TaskRowOf(e, x)) == Some(x.create.task)
            && e.loads(e.dumps(x.create.task)) == Some(x.create.task)
  {
    hide InjectiveSha;
  }

  lemma OpenedIff(e: Arena, h: History, t: Tables, id: string, token: string)
    requires Sound(e) && Holds(e, h, t)
    ensures Authorised(e, t, id, token) <==> Opened(h, id, token)
  {
    hide RoundTrips, HoldsRows, Proper;
  }

  /** Finding a key among the rows is finding it among the committed calls. */
  lemma KeyFound(e: Arena, id: string, x: Entry, ps: seq<ProposalRow>, events: seq<EventRow>, key: string)
    requires HoldsRows(e, id, x, ps, events)
    ensures FindKey(ps, key).Some? <==> KeyUsed(x, key)
    ensures FindKey(ps, key).Some? ==>
              exists k | 0 <= k < |ps| :: ps[k] == FindKey(ps, key).value && x.accepted[k].key == key
  {
    hide EventRowAt;
    FindKeyIs(ps, key);
    if b :| b in x.accepted && b.key == key {
      var k :| 0 <= k < |x.accepted| && x.accepted[k] == b;
      assert ps[k].requestKey == key;
    }
  }

  lemma ReplayIs(e: Arena, id: string, x: Entry, ps: seq<ProposalRow>, events: seq<EventRow>, a: SubmitArgs)
    requires Sound(e) && HoldsRows(e, id, x, ps, events) && FindKey(ps, a.key).Some?
    ensures exists k :: Replays(e, x, a, Replay(e, a, FindKey(ps, a.key).value), k)
  {
    hide EventRowAt, ReportOf;
    KeyFound(e, id, x, ps, events, a.key);
    var k :| 0 <= k < |ps| && ps[k] == FindKey(ps, a.key).value && x.accepted[k].key == a.key;
    assert e.sha(x.accepted[k].text) == e.sha(a.text) <==> x.accepted[k].text == a.text;
    assert e.loads(e.dumps(ReportOf(e, x, k))) == Some(ReportOf(e, x, k));
    assert Replays(e, x, a, Replay(e, a, FindKey(ps, a.key).value), k);
  }

  lemma IdsAgree(e: Arena, id: string, x: Entry, ps: seq<ProposalRow>, events: seq<EventRow>, proposalId: string)
    requires HoldsRows(e, id, x, ps, events)
    ensures (exists i | 0 <= i < |ps| :: ps[i].proposalId == proposalId)
            <==> exists b | b in x.accepted :: b.proposalId == proposalId
  {
    hide EventRowAt;
    if b :| b in x.accepted && b.proposalId == proposalId {
      var k :| 0 <= k < |x.accepted| && x.accepted[k] == b;
      assert ps[k].proposalId == proposalId;
    }
  }

  // ---------------------------------------------------------------- each call

  lemma CreateTells(e: Arena, q: Quotas, h: History, t: Tables, a: CreateArgs)
    requires Holds(e, h, t) && TypedCreate(e, a)
    ensures Holds(e, Create(e, q, h, a).0, CreateStep(e, q, t, a).0)
    ensures CreateStep(e, q, t, a).1 == Create(e, q, h, a).1
  {
    hide Holds, HoldsTask, CreateStep;
    SameSize(e, h, t);
    CreateReturns(e, q, h, t, a);
    if Create(e, q, h, a).1.Ok? {
      NothingHeldYet(e, h, t, a.taskId);
      CreateOpens(e, q, t, a);
      CreateElsewhere(e, q, t, a);
      OneTaskTold(e, h, t, CreateStep(e, q, t, a).0, a.taskId, Entry(a, []));
    }
  }

  lemma SameSize(e: Arena, h: History, t: Tables)
    requires Holds(e, h, t)
    ensures t.tasks.Keys == h.Keys && |t.tasks| == |h|
  {
    hide HoldsTask;
    assert |t.tasks| == |t.tasks.Keys| == |h.Keys| == |h|;
  }

  lemma NothingHeldYet(e: Arena, h: History, t: Tables, id: string)
    requires Holds(e, h, t) && id !in h
    ensures t.ProposalsOf(id) == [] && t.EventsOf(id) == []
  {
    hide HoldsTask;
  }

  lemma CreateElsewhere(e: Arena, q: Quotas, t: Tables, a: CreateArgs)
    requires CreateStep(e, q, t, a).1.Ok?
    ensures var u := CreateStep(e, q, t, a).0;
            u.tasks.Keys == t.tasks.Keys + {a.taskId} && SameElsewhere(t, u, a.taskId)
  {
    hide CreateStep, Tables.ProposalsOf, Tables.EventsOf;
    CreateTouchesOne(e, q, t, a);
  }

  lemma CreateReturns(e: Arena, q: Quotas, h: History, t: Tables, a: CreateArgs)
    requires t.tasks.Keys == h.Keys && |t.tasks| == |h|
    ensures CreateStep(e, q, t, a).1 == Create(e, q, h, a).1
    ensures CreateStep(e, q, t, a).1.Err? ==> CreateStep(e, q, t, a).0 == t
  {
    hide NextEvent, OpenedData;
  }

  lemma CreateOpens(e: Arena, q: Quotas, t: Tables, a: CreateArgs)
    requires CreateStep(e, q, t, a).1.Ok? && TypedCreate(e, a)
    requires t.ProposalsOf(a.taskId) == [] && t.EventsOf(a.taskId) == []
    ensures HoldsTask(e, a.taskId, Entry(a, []), CreateStep(e, q, t, a).0)
  {
    var u, x := CreateStep(e, q, t, a).0, Entry(a, []);
    assert u.EventsOf(a.taskId) == [] + [NextEvent(e, [], a.taskId, "task_opened", DataAt(e, x, 0), a.now)];
  }

  lemma SubmitTells(e: Arena, q: Quotas, h: History, t: Tables, a: SubmitArgs)
    requires Sound(e) && Holds(e, h, t)
    ensures Holds(e, Submitted(e, q, h, a), SubmitStep(e, q, t, a).0)
    ensures Replies(e, q, h, a, SubmitStep(e, q, t, a).1)
  {
    hide Holds, Sound, Replies, SubmitStep;
    KeysAgree(a.key);
    OpenedIff(e, h, t, a.taskId, a.token);
    if AsciiKey(a.key) && e.parseProposal(a.text).Some? && Opened(h, a.taskId, a.token) {
      ToldTask(e, h, t, a.taskId);
      SubmitToTask(e, q, h, t, a);
      if Commits(e, q, h, a) {
        CommitHolds(e, q, h, t, a);
      }
    } else {
      SubmitRefused(e, q, h, t, a);
    }
  }

  lemma SubmitRefused(e: Arena, q: Quotas, h: History, t: Tables, a: SubmitArgs)
    requires KeyOk(a.key) <==> AsciiKey(a.key)
    requires Authorised(e, t, a.taskId, a.token) <==> Opened(h, a.taskId, a.token)
    requires !(AsciiKey(a.key) && e.parseProposal(a.text).Some? && Opened(h, a.taskId, a.token))
    ensures SubmitStep(e, q, t, a).0 == t && !Commits(e, q, h, a) && Replies(e, q, h, a, SubmitStep(e, q, t, a).1)
  {
    hide KeyOk, AsciiKey, Authorised, Opened, FindKey, Replay, Commit, StoredTask;
  }

  lemma ToldTask(e: Arena, h: History, t: Tables, id: string)
    requires Holds(e, h, t) && id in h
    ensures HoldsTask(e, id, h[id], t)
    ensures id in t.tasks && Proper(e, h[id]) && t.tasks[id] == TaskRowOf(e, h[id])
    ensures HoldsRows(e, id, h[id], t.ProposalsOf(id), t.EventsOf(id))
  {
    hide Proper, HoldsRows, TaskRowOf;
  }

  /** A submission to a task that exists, with its token. */
  lemma SubmitToTask(e: Arena, q: Quotas, h: History, t: Tables, a: SubmitArgs)
    requires Sound(e) && KeyOk(a.key) && AsciiKey(a.key) && e.parseProposal(a.text).Some?
    requires Authorised(e, t, a.taskId, a.token) && Opened(h, a.taskId, a.token)
    requires Proper(e, h[a.taskId]) && t.tasks[a.taskId] == TaskRowOf(e, h[a.taskId])
    requires HoldsRows(e, a.taskId, h[a.taskId], t.ProposalsOf(a.taskId), t.EventsOf(a.taskId))
    ensures Replies(e, q, h, a, SubmitStep(e, q, t, a).1)
    ensures var x := h[a.taskId];
            if Commits(e, q, h, a) then
              SubmitStep(e, q, t, a).0
              == Commit(e, t, a, e.parseProposal(a.text).value,
                        ReportOf(e, Entry(x.create, x.accepted + [a]), |x.accepted|))
            else SubmitStep(e, q, t, a).0 == t
  {
    hide KeyOk, AsciiKey, Commit, StoredTask, FindKey, Replay, Proper, Sound, Replays, EventRowAt;
    var id, x := a.taskId, h[a.taskId];
    var ps, events := t.ProposalsOf(id), t.EventsOf(id);
    StoredIs(e, x);
    KeyFound(e, id, x, ps, events, a.key);
    IdsAgree(e, id, x, ps, events, a.proposalId);
    if FindKey(ps, a.key).Some? {
      ReplayIs(e, id, x, ps, events, a);
    }
  }

  lemma CommitHolds(e: Arena, q: Quotas, h: History, t: Tables, a: SubmitArgs)
    requires Holds(e, h, t) && Commits(e, q, h, a)
    ensures var x := h[a.taskId];
            var y := Entry(x.create, x.accepted + [a]);
            Holds(e, h[a.taskId := y],
                  Commit(e, t, a, e.parseProposal(a.text).value, ReportOf(e, y, |x.accepted|)))
  {
    hide HoldsTask, HoldsRows, AsciiKey, Commit, Holds;
    var id, x := a.taskId, h[a.taskId];
    var y, n := Entry(x.create, x.accepted + [a]), |x.accepted|;
    var u := Commit(e, t, a, e.parseProposal(a.text).value, ReportOf(e, y, n));
    ToldTask(e, h, t, id);
    CommitTellsTask(e, t, x, a);
    CommitElsewhere(e, t, a, e.parseProposal(a.text).value, ReportOf(e, y, n));
    OneTaskTold(e, h, t, u, id, y);
  }

  lemma CommitTellsTask(e: Arena, t: Tables, x: Entry, a: SubmitArgs)
    requires HoldsTask(e, a.taskId, x, t) && e.parseProposal(a.text).Some?
    ensures var y := Entry(x.create, x.accepted + [a]);
            HoldsTask(e, a.taskId, y, Commit(e, t, a, e.parseProposal(a.text).value, ReportOf(e, y, |x.accepted|)))
  {
    hide HoldsRows, EventRowAt, NextEvent;
    var id, y, n := a.taskId, Entry(x.create, x.accepted + [a]), |x.accepted|;
    var u := Commit(e, t, a, e.parseProposal(a.text).value, ReportOf(e, y, n));
    RowsGrow(e, id, x, a, t.ProposalsOf(id), t.EventsOf(id));
    NextIs(e, id, x, a, t.ProposalsOf(id), t.EventsOf(id));
    assert u.ProposalsOf(id) == t.ProposalsOf(id) + [ProposalRowAt(e, y, n)];
    assert u.EventsOf(id) == t.EventsOf(id) + [EventRowAt(e, id, y, n + 1)];
  }

  lemma CommitElsewhere(e: Arena, t: Tables, a: SubmitArgs, proposal: Json, report: Json)
    requires a.taskId in t.tasks
    ensures var u := Commit(e, t, a, proposal, report);
            u.tasks.Keys == t.tasks.Keys + {a.taskId} && SameElsewhere(t, u, a.taskId)
  {
    hide NextEvent, CheckedRow, CheckedData;
  }

  // ---------------------------------------------------------------- whole runs

  ghost function Next(e: Arena, q: Quotas, h: History, op: Op): History {
    match op
    case CreateOp(a) => Create(e, q, h, a).0
    case SubmitOp(a) => Submitted(e, q, h, a)
  }

  ghost function Told(e: Arena, q: Quotas, h: History, ops: seq<Op>): History
    decreases |ops|
  {
    if ops == [] then h else Told(e, q, Next(e, q, h, ops[0]), ops[1..])
  }

  lemma {:induction false} RunHolds(e: Arena, q: Quotas, h: History, t: Tables, ops: seq<Op>)
    requires Sound(e) && Holds(e, h, t) && forall i | 0 <= i < |ops| :: Typed(e, ops[i])
    ensures Holds(e, Told(e, q, h, ops), After(e, q, t, ops))
    decreases |ops|
  {
    hide Holds, Sound, Create, Submitted, CreateStep, SubmitStep;
    if ops != [] {
      assert Typed(e, ops[0]);
      match ops[0] {
        case CreateOp(a) => CreateTells(e, q, h, t, a);
        case SubmitOp(a) => SubmitTells(e, q, h, t, a);
      }
      RunHolds(e, q, Next(e, q, h, ops[0]), Step(e, q, t, ops[0]), ops[1..]);
    }
  }

  lemma NothingHeld(e: Arena)
    ensures Holds(e, map[], EMPTY)
  {
  }

  /** MAIN RESULT, over every run of create and submit. The tables hold exactly the rows of the accepted calls, and what
      the next call returns is a function of those calls and its own arguments. */
  lemma JournalIsHistory(e: Arena, q: Quotas, ops: seq<Op>)
    requires Sound(e) && forall i | 0 <= i < |ops| :: Typed(e, ops[i])
    ensures Holds(e, Told(e, q, map[], ops), After(e, q, EMPTY, ops))
    ensures forall a | TypedCreate(e, a) ::
              CreateStep(e, q, After(e, q, EMPTY, ops), a).1 == Create(e, q, Told(e, q, map[], ops), a).1
    ensures forall a :: Replies(e, q, Told(e, q, map[], ops), a, SubmitStep(e, q, After(e, q, EMPTY, ops), a).1)
  {
    hide Holds, Sound, Create, CreateStep, SubmitStep, Replies, Told, After;
    NothingHeld(e);
    RunHolds(e, q, map[], EMPTY, ops);
    forall a | TypedCreate(e, a)
      ensures CreateStep(e, q, After(e, q, EMPTY, ops), a).1 == Create(e, q, Told(e, q, map[], ops), a).1
    {
      CreateTells(e, q, Told(e, q, map[], ops), After(e, q, EMPTY, ops), a);
    }
    forall a ensures Replies(e, q, Told(e, q, map[], ops), a, SubmitStep(e, q, After(e, q, EMPTY, ops), a).1) {
      SubmitTells(e, q, Told(e, q, map[], ops), After(e, q, EMPTY, ops), a);
    }
  }

  lemma {:induction false} ToldGrows(e: Arena, q: Quotas, h: History, ops: seq<Op>, id: string)
    requires id in h
    ensures var g := Told(e, q, h, ops);
            id in g && g[id].create == h[id].create && h[id].accepted <= g[id].accepted
    decreases |ops|
  {
    hide AsciiKey, HashOf;
    if ops != [] {
      ToldGrows(e, q, Next(e, q, h, ops[0]), ops[1..], id);
    }
  }

  // ---------------------------------------------------------------- exports

  function ProposalField(e: Arena, x: Entry, k: nat): Json
    requires k < |x.accepted|
  {
    var a := x.accepted[k];
    var proposal := if e.parseProposal(a.text).Some? then e.parseProposal(a.text).value else Null;
    Obj(map["proposal_id" := Str(a.proposalId), "raw_text" := Str(a.text), "raw_sha256" := Str(e.sha(a.text)),
            "proposal_hash" := Str(e.sha(e.dumps(proposal))), "report_json" := Str(e.dumps(ReportOf(e, x, k))),
            "source_mode" := Str("caller_import"), "version" := Num(k + 2)])
  }

  function EventField(e: Arena, id: string, x: Entry, k: nat): Json
    requires k <= |x.accepted|
  {
    var event := EventAt(e, id, x, k);
    Obj(map["sequence" := Num(k + 1), "event_json" := Str(e.dumps(event)),
            "event_hash" := Str(e.sha(e.dumps(event))), "previous_hash" := Str(HashBefore(e, id, x, k))])
  }

  function ExportFields(e: Arena, id: string, x: Entry): map<string, Json> {
    map["schema_version" := Str("safehire-private-bundle/2"), "task_id" := Str(id),
        "version" := Num(|x.accepted| + 1), "task" := x.create.task, "task_hash" := Str(HashOf(e, x.create.task)),
        "proposals" := Arr(seq(|x.accepted|, k requires 0 <= k < |x.accepted| => ProposalField(e, x, k))),
        "events" := Arr(seq(|x.accepted| + 1, k requires 0 <= k < |x.accepted| + 1 => EventField(e, id, x, k))),
        "evidence_mode" := Str(EVIDENCE_MODE),
        "paid_delivery_verified" := Bool(false), "agent_authorship_verified" := Bool(false),
        "trust_boundary" := Str(TRUST_BOUNDARY)]
  }

  /** The export of a task: its history, then the verdict on that, then the checksum of both. */
  ghost predicate Exports(e: Arena, id: string, x: Entry, b: Json) {
    && b.Obj? && "integrity" in b.fields && "bundle_sha256" in b.fields
    && b.fields - {"integrity", "bundle_sha256"} == ExportFields(e, id, x)
    && (GetOrNull(b.fields["integrity"], "valid") == Bool(true)
        <==> BundleTheorems.Accepted(e, Obj(ExportFields(e, id, x)), None))
    && b.fields["bundle_sha256"] == Str(Digest(e, Obj(b.fields - {"bundle_sha256"})))
  }

  lemma BodyTells(e: Arena, id: string, x: Entry, ps: seq<ProposalRow>, events: seq<EventRow>)
    requires HoldsRows(e, id, x, ps, events)
    ensures Body(id, x.create.task, TaskRowOf(e, x), ps, events) == ExportFields(e, id, x)
  {
    hide EventAt, ReportOf, HashBefore, EVIDENCE_MODE, TRUST_BOUNDARY;
    assert ProposalJsons(ps) == seq(|x.accepted|, k requires 0 <= k < |x.accepted| => ProposalField(e, x, k));
    assert EventJsons(events)
        == seq(|x.accepted| + 1, k requires 0 <= k < |x.accepted| + 1 => EventField(e, id, x, k));
  }

  lemma SealTells(e: Arena, id: string, x: Entry, fields: map<string, Json>)
    requires fields == ExportFields(e, id, x) && "integrity" !in fields && "bundle_sha256" !in fields
    ensures Exports(e, id, x, Sealed(e, fields))
  {
    hide ExportFields, Digest, BundleVerifier.Verify;
    var b := Sealed(e, fields);
    var verdict := BundleVerifier.Verify(e, Obj(fields), None);
    var checked := fields["integrity" := IntegrityJson(verdict)];
    assert b.fields - {"bundle_sha256"} == checked;
    assert "integrity"[0] != "bundle_sha256"[0];
    assert b.fields - {"integrity", "bundle_sha256"} == fields;
    assert "valid"[0] != "head"[0];
  }

  lemma NotYetSealed(e: Arena, id: string, x: Entry)
    ensures "integrity" !in ExportFields(e, id, x) && "bundle_sha256" !in ExportFields(e, id, x)
  {
    hide ProposalField, EventField, HashOf, EVIDENCE_MODE, TRUST_BOUNDARY;
    assert "bundle_sha256"[0] != "evidence_mode"[0] && "integrity"[0] != "events"[0];
  }

  /** What bundle returns. */
  lemma ExportIs(e: Arena, h: History, t: Tables, id: string, token: string)
    requires Sound(e) && Holds(e, h, t)
    ensures if Opened(h, id, token) then Export(e, t, id, token).Ok?
                                         && Exports(e, id, h[id], Export(e, t, id, token).value)
            else Export(e, t, id, token) == Err(MissingTask)
  {
    hide Holds, Sound, Exports, Sealed, Body, Opened, Authorised, HoldsRows, ExportFields, Proper;
    OpenedIff(e, h, t, id, token);
    if Opened(h, id, token) {
      OpenedExists(h, id, token);
      ToldTask(e, h, t, id);
      StoredIs(e, h[id]);
      BodyTells(e, id, h[id], t.ProposalsOf(id), t.EventsOf(id));
      NotYetSealed(e, id, h[id]);
      SealTells(e, id, h[id], ExportFields(e, id, h[id]));
    }
  }

  lemma OpenedExists(h: History, id: string, token: string)
    requires Opened(h, id, token)
    ensures id in h
  {
  }

  /** MAIN RESULT, over every run: bundle returns the history of a task to the token the task was created with, and
      MissingTask to any other. */
  lemma ExportTellsHistory(e: Arena, q: Quotas, ops: seq<Op>, id: string, token: string)
    requires Sound(e) && forall i | 0 <= i < |ops| :: Typed(e, ops[i])
    ensures var h, r := Told(e, q, map[], ops), Export(e, After(e, q, EMPTY, ops), id, token);
            if id in h && h[id].create.token == token then r.Ok? && Exports(e, id, h[id], r.value)
            else r == Err(MissingTask)
  {
    hide Holds, Sound, Told, After, Export, Exports;
    NothingHeld(e);
    RunHolds(e, q, map[], EMPTY, ops);
    ExportIs(e, Told(e, q, map[], ops), After(e, q, EMPTY, ops), id, token);
  }

  /** MAIN RESULT. A submission that is committed to a task, however many transactions come between, is judged as the
      task create was given, with the output it carries, at the time it is made; and every later export of the task
      carries that output and that report. */
  lemma CommittedReport(e: Arena, q: Quotas, before: seq<Op>, a0: CreateArgs, between: seq<Op>, a: SubmitArgs,
                        later: seq<Op>)
    returns (bundle: Json, k: nat)
    requires Sound(e) && TypedCreate(e, a0) && a.taskId == a0.taskId
    requires forall i | 0 <= i < |before| :: Typed(e, before[i])
    requires forall i | 0 <= i < |between| :: Typed(e, between[i])
    requires forall i | 0 <= i < |later| :: Typed(e, later[i])
    requires CreateStep(e, q, After(e, q, EMPTY, before), a0).1.Ok?
    requires var v := After(e, q, CreateStep(e, q, After(e, q, EMPTY, before), a0).0, between);
             SubmitStep(e, q, v, a).1.Ok? && !SubmitStep(e, q, v, a).1.value.replayed
    ensures var v := After(e, q, CreateStep(e, q, After(e, q, EMPTY, before), a0).0, between);
            var receipt, w := SubmitStep(e, q, v, a).1.value, After(e, q, SubmitStep(e, q, v, a).0, later);
            && a.token == a0.token && e.parseProposal(a.text).Some?
            && receipt.report == e.evaluate(a0.task, e.parseProposal(a.text).value, a.now)
            && k < |w.ProposalsOf(a.taskId)| && receipt.version == k + 2
            && w.ProposalsOf(a.taskId)[k].rawText == a.text
            && w.ProposalsOf(a.taskId)[k].reportJson == e.dumps(receipt.report)
            && Export(e, w, a.taskId, a0.token) == Ok(bundle)
            && var items := GetOrNull(bundle, "proposals");
               && items.Arr? && k < |items.items|
               && Field(items.items[k], "proposal_id") == Some(Str(receipt.proposalId))
               && Field(items.items[k], "raw_text") == Some(Str(a.text))
               && Field(items.items[k], "report_json") == Some(Str(e.dumps(receipt.report)))
  {
    hide Holds, Sound, Told, After, Export, Exports, Commits, CreateStep, SubmitStep, Replies;
    var t, h := After(e, q, EMPTY, before), Told(e, q, map[], before);
    NothingHeld(e);
    RunHolds(e, q, map[], EMPTY, before);
    CreateTells(e, q, h, t, a0);
    var u, g := CreateStep(e, q, t, a0).0, Create(e, q, h, a0).0;
    RunHolds(e, q, g, u, between);
    ToldGrows(e, q, g, between, a.taskId);
    var v, f := After(e, q, u, between), Told(e, q, g, between);
    SubmitTells(e, q, f, v, a);
    var r := SubmitStep(e, q, v, a).1;
    k := CommittedIs(e, q, f, a, r);
    var f' := Submitted(e, q, f, a);
    RunHolds(e, q, f', SubmitStep(e, q, v, a).0, later);
    ToldGrows(e, q, f', later, a.taskId);
    var w, last := After(e, q, SubmitStep(e, q, v, a).0, later), Told(e, q, f', later);
    ExportIs(e, last, w, a.taskId, a0.token);
    ToldTask(e, last, w, a.taskId);
    bundle := Export(e, w, a.taskId, a0.token).value;
    OutputKept(e, a.taskId, f'[a.taskId], last[a.taskId], k, w.ProposalsOf(a.taskId), w.EventsOf(a.taskId), bundle);
  }

  /** The last step of a committed submission. */
  lemma CommittedIs(e: Arena, q: Quotas, h: History, a: SubmitArgs, r: Result<Receipt>) returns (k: nat)
    requires Replies(e, q, h, a, r) && r.Ok? && !r.value.replayed && a.taskId in h
    ensures Opened(h, a.taskId, a.token) && e.parseProposal(a.text).Some? && k == |h[a.taskId].accepted|
    ensures var x := h[a.taskId]; var y := Entry(x.create, x.accepted + [a]);
            Submitted(e, q, h, a) == h[a.taskId := y] && r.value == ReceiptOf(e, y, k, false)
  {
    hide AsciiKey;
    k := |h[a.taskId].accepted|;
  }

  lemma OutputKept(e: Arena, id: string, x: Entry, y: Entry, k: nat, ps: seq<ProposalRow>, events: seq<EventRow>,
                   b: Json)
    requires k < |x.accepted| && x.create == y.create && x.accepted <= y.accepted
    requires HoldsRows(e, id, y, ps, events) && Exports(e, id, y, b)
    ensures k < |ps| && ps[k].rawText == x.accepted[k].text && ps[k].reportJson == e.dumps(ReportOf(e, x, k))
    ensures var items := GetOrNull(b, "proposals");
            && items.Arr? && k < |items.items|
            && Field(items.items[k], "proposal_id") == Some(Str(x.accepted[k].proposalId))
            && Field(items.items[k], "raw_text") == Some(Str(x.accepted[k].text))
            && Field(items.items[k], "report_json") == Some(Str(e.dumps(ReportOf(e, x, k))))
  {
    hide EventField, EventRowAt, HashOf, ExportFields, ProposalField;
    ProposalsKept(e, id, y, b);
    OutputFields(e, y, k);
    assert y.accepted[k] == x.accepted[k] && ReportOf(e, y, k) == ReportOf(e, x, k);
  }

  lemma ProposalsKept(e: Arena, id: string, x: Entry, b: Json)
    requires Exports(e, id, x, b)
    ensures GetOrNull(b, "proposals")
            == Arr(seq(|x.accepted|, k requires 0 <= k < |x.accepted| => ProposalField(e, x, k)))
  {
    hide EventField, HashOf, ProposalField, Digest, BundleTheorems.Accepted, EVIDENCE_MODE, TRUST_BOUNDARY;
    var fields := ExportFields(e, id, x);
    assert "proposals" in fields && "proposals" in b.fields - {"integrity", "bundle_sha256"};
  }

  lemma OutputFields(e: Arena, x: Entry, k: nat)
    requires k < |x.accepted|
    ensures var j := ProposalField(e, x, k);
            && Field(j, "proposal_id") == Some(Str(x.accepted[k].proposalId))
            && Field(j, "raw_text") == Some(Str(x.accepted[k].text))
            && Field(j, "report_json") == Some(Str(e.dumps(ReportOf(e, x, k))))
  {
    hide ReportOf;
    assert "proposal_id"[0] != "report_json"[0] && "report_json"[0] != "source_mode"[0]
           && "proposal_id"[0] != "source_mode"[0];
  }

  /** MAIN RESULT. An accepted bundle that carries the checksum of a genuine export, after any run, is that export. */
  lemma ChecksumPinsExport(e: Arena, q: Quotas, ops: seq<Op>, id: string, token: string, forged: Json,
                           trusted: Option<string>)
    requires Sound(e) && forall i | 0 <= i < |ops| :: Typed(e, ops[i])
    requires Export(e, After(e, q, EMPTY, ops), id, token).Ok? && BundleTheorems.Accepted(e, forged, trusted)
    requires Field(forged, "bundle_sha256")
             == Field(Export(e, After(e, q, EMPTY, ops), id, token).value, "bundle_sha256")
    ensures forged == Export(e, After(e, q, EMPTY, ops), id, token).value
  {
    hide Sound, Told, After, Export, BundleTheorems.Accepted, ExportFields;
    ExportTellsHistory(e, q, ops, id, token);
    var x := BundleSpec.Reading(e, forged, trusted);
    hide BundleSpec.Chained, BundleSpec.AllChecked, Rows, Digest, TaskHash;
    BundleSpec.SameChecksum(e, forged, Export(e, After(e, q, EMPTY, ops), id, token).value);
  }
}
