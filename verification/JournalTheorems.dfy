/** What every run of the journal keeps, and what its exports and its idempotency keys promise. */
module JournalTheorems {
  import opened Values
  import opened Arena
  import opened Journal
  import BundleVerifier
  import BundleTheorems

  // ---------------------------------------------------------------- invariant

  /** The fields of the event stored in row k of a task's chain. */
  ghost predicate EventOk(e: Arena, id: string, events: seq<EventRow>, k: nat, kind: string)
    requires k < |events|
  {
    var r := events[k];
    && r.sequence == k + 1
    && r.previousHash == Head(events[..k])
    && e.loads(r.eventJson).Some?
    && var ev := e.loads(r.eventJson).value;
       && r.eventHash == Digest(e, ev)
       && Field(ev, "task_id") == Some(Str(id))
       && Field(ev, "sequence") == Some(Num(k + 1))
       && Field(ev, "kind") == Some(Str(kind))
       && Field(ev, "previous_hash") == Some(Str(r.previousHash))
       && Field(ev, "data").Some?
  }

  ghost function DataOf(e: Arena, r: EventRow): Json {
    if e.loads(r.eventJson).Some? then GetOrNull(e.loads(r.eventJson).value, "data") else Null
  }

  /** The collector's observation recorded when the task was opened, if any. */
  ghost function ObservationOf(e: Arena, events: seq<EventRow>): Option<Json> {
    if events == [] then None else Field(DataOf(e, events[0]), "source_observation")
  }

  ghost predicate ProposalOk(e: Arena, p: ProposalRow, version: int, data: Json) {
    && p.version == version
    && p.sourceMode == "caller_import"
    && p.rawSha256 == e.sha(p.rawText)
    && e.parseProposal(p.rawText).Some? && p.proposalHash == Digest(e, e.parseProposal(p.rawText).value)
    && e.loads(p.reportJson).Some?
    && data == CheckedData(p.proposalId, p.rawSha256, p.proposalHash,
                           Digest(e, e.loads(p.reportJson).value), p.sourceMode)
  }

  /** One task: its version counts its events, every event but the first checks one proposal, and
      proposal k carries the sequence number of its event. */
  ghost predicate GoodTask(e: Arena, q: Quotas, id: string, row: TaskRow, ps: seq<ProposalRow>, events: seq<EventRow>) {
    && StoredTask(e, row).Some? && e.loads(row.taskJson) == StoredTask(e, row)
    && row.taskHash == TaskHash(e, StoredTask(e, row).value)
    && row.version == |events| == 1 + |ps|
    && (|ps| == 0 || |ps| <= q.maxProposals)
    && EventOk(e, id, events, 0, "task_opened")
    && DataOf(e, events[0]) == OpenedData(row.taskHash, ObservationOf(e, events))
    && (forall k | 1 <= k < |events| :: EventOk(e, id, events, k, "proposal_checked"))
    && (forall k | 0 <= k < |ps| :: ProposalOk(e, ps[k], k + 2, DataOf(e, events[k + 1])))
    && (forall i, j | 0 <= i < j < |ps| :: ps[i].proposalId != ps[j].proposalId && ps[i].requestKey != ps[j].requestKey)
  }

  ghost predicate Good(e: Arena, q: Quotas, t: Tables) {
    && (|t.tasks| == 0 || |t.tasks| <= q.maxTasks)
    && (forall id | id !in t.tasks :: t.ProposalsOf(id) == [] && t.EventsOf(id) == [])
    && (forall id | id in t.tasks :: GoodTask(e, q, id, t.tasks[id], t.ProposalsOf(id), t.EventsOf(id)))
  }

  // ---------------------------------------------------------------- fields of the values written

  lemma EventFields(id: string, n: int, kind: string, at: Json, data: Json, head: string)
    ensures var ev := EventValue(id, n, kind, at, data, head);
            && Field(ev, "task_id") == Some(Str(id)) && Field(ev, "sequence") == Some(Num(n))
            && Field(ev, "kind") == Some(Str(kind)) && Field(ev, "data") == Some(data)
            && Field(ev, "previous_hash") == Some(Str(head))
  {
    assert "kind"[0] != "data"[0];
  }

  lemma OpenedFields(hash: string, observation: Option<Json>)
    ensures var d := OpenedData(hash, observation);
            d.Obj? && GetOrNull(d, "task_hash") == Str(hash) && Field(d, "source_observation") == observation
  {
  }

  lemma CheckedFields(id: string, raw: string, hash: string, report: string, mode: string, n: int)
    ensures var d := CheckedData(id, raw, hash, report, mode);
            && Field(d, "proposal_id") == Some(Str(id))
            && var ref := Obj(d.fields["version" := Num(n)]);
               && GetOrNull(ref, "version") == Num(n) && GetOrNull(ref, "raw_sha256") == Str(raw)
               && GetOrNull(ref, "proposal_hash") == Str(hash) && GetOrNull(ref, "report_hash") == Str(report)
               && GetOrNull(ref, "source_mode") == Str(mode)
  {
    assert "proposal_id"[0] != "report_hash"[0] && "proposal_id"[0] != "source_mode"[0]
           && "report_hash"[0] != "source_mode"[0];
  }

  // ---------------------------------------------------------------- steps keep the invariant

  /** The row NextEvent writes continues the chain. */
  lemma NextEventOk(e: Arena, events: seq<EventRow>, id: string, kind: string, data: Json, now: string)
    requires Sound(e)
    requires |events| == 0 || events[|events| - 1].sequence == |events|
    ensures var all := events + [NextEvent(e, events, id, kind, data, now)];
            EventOk(e, id, all, |events|, kind) && DataOf(e, all[|events|]) == data
  {
    var all := events + [NextEvent(e, events, id, kind, data, now)];
    assert all[..|events|] == events;
    EventFields(id, LastSequence(events) + 1, kind, Str(now), data, Head(events));
  }

  lemma EventOkAppend(e: Arena, id: string, events: seq<EventRow>, r: EventRow, k: nat, kind: string)
    requires k < |events| && EventOk(e, id, events, k, kind)
    ensures EventOk(e, id, events + [r], k, kind)
  {
    assert (events + [r])[..k] == events[..k];
  }

  predicate TypedCreate(e: Arena, a: CreateArgs) {
    e.validateTask(a.task) == Some(a.task)
  }

  lemma CreateOpensTask(e: Arena, q: Quotas, t: Tables, a: CreateArgs)
    requires Sound(e) && TypedCreate(e, a) && CreateStep(e, q, t, a).1.Ok?
    requires t.ProposalsOf(a.taskId) == [] && t.EventsOf(a.taskId) == []
    ensures var u := CreateStep(e, q, t, a).0;
            ObservationOf(e, u.EventsOf(a.taskId)) == a.observation
            && GoodTask(e, q, a.taskId, u.tasks[a.taskId], u.ProposalsOf(a.taskId), u.EventsOf(a.taskId))
  {
    hide EventOk, Digest, TaskHash, NextEvent, OpenedData, DataOf, ProposalOk, InjectiveSha;
    var u := CreateStep(e, q, t, a).0;
    var data := OpenedData(TaskHash(e, a.task), a.observation);
    NextEventOk(e, [], a.taskId, "task_opened", data, a.now);
    OpenedFields(TaskHash(e, a.task), a.observation);
    assert u.EventsOf(a.taskId) == [] + [NextEvent(e, [], a.taskId, "task_opened", data, a.now)];
    assert e.loads(e.dumps(a.task)) == Some(a.task);
  }

  /** A task that is created changes no other task's rows and respects the quota. */
  lemma CreateTouchesOne(e: Arena, q: Quotas, t: Tables, a: CreateArgs)
    requires CreateStep(e, q, t, a).1.Ok?
    ensures var u := CreateStep(e, q, t, a).0;
            && u.tasks.Keys == t.tasks.Keys + {a.taskId} && a.taskId !in t.tasks && |u.tasks| <= q.maxTasks
            && forall id | id != a.taskId ::
                 (id in t.tasks ==> u.tasks[id] == t.tasks[id])
                 && u.ProposalsOf(id) == t.ProposalsOf(id) && u.EventsOf(id) == t.EventsOf(id)
  {
    hide Digest, TaskHash, NextEvent, OpenedData, Tables.EventsOf, Tables.ProposalsOf;
    var u := CreateStep(e, q, t, a).0;
    OneTaskAdded(t, u, a.taskId, u.tasks[a.taskId], u.events[a.taskId]);
  }

  lemma OneTaskAdded(t: Tables, u: Tables, id: string, row: TaskRow, events: seq<EventRow>)
    requires id !in t.tasks && u == Tables(t.tasks[id := row], t.proposals, t.events[id := events])
    ensures u.tasks.Keys == t.tasks.Keys + {id} && |u.tasks| == |t.tasks| + 1
    ensures forall x | x != id ::
              (x in t.tasks ==> u.tasks[x] == t.tasks[x])
              && u.ProposalsOf(x) == t.ProposalsOf(x) && u.EventsOf(x) == t.EventsOf(x)
  {
    assert |u.tasks| == |u.tasks.Keys| && |t.tasks| == |t.tasks.Keys|;
  }

  lemma CreateKeepsGood(e: Arena, q: Quotas, t: Tables, a: CreateArgs)
    requires Sound(e) && Good(e, q, t) && TypedCreate(e, a)
    ensures Good(e, q, CreateStep(e, q, t, a).0)
    ensures CreateStep(e, q, t, a).1.Ok? ==>
              ObservationOf(e, CreateStep(e, q, t, a).0.EventsOf(a.taskId)) == a.observation
  {
    hide Sound, GoodTask, ObservationOf, CreateStep;
    var (u, r) := CreateStep(e, q, t, a);
    if !r.Ok? {
      RefusedCreate(e, q, t, a);
    } else {
      CreateTouchesOne(e, q, t, a);
      CreateOpensTask(e, q, t, a);
      forall id | id in u.tasks ensures GoodTask(e, q, id, u.tasks[id], u.ProposalsOf(id), u.EventsOf(id)) {
        if id != a.taskId {
          assert GoodTask(e, q, id, t.tasks[id], t.ProposalsOf(id), t.EventsOf(id));
        }
      }
    }
  }

  lemma RefusedCreate(e: Arena, q: Quotas, t: Tables, a: CreateArgs)
    requires !CreateStep(e, q, t, a).1.Ok?
    ensures CreateStep(e, q, t, a).0 == t
  {
    hide Digest, TaskHash, NextEvent, OpenedData;
  }

  lemma {:induction false} FindKeyIs(ps: seq<ProposalRow>, key: string)
    ensures FindKey(ps, key).None? ==> forall i | 0 <= i < |ps| :: ps[i].requestKey != key
    ensures FindKey(ps, key).Some? ==> exists i | 0 <= i < |ps| ::
              ps[i] == FindKey(ps, key).value && ps[i].requestKey == key
  {
    if ps != [] {
      FindKeyIs(ps[1..], key);
      if ps[0].requestKey != key && FindKey(ps[1..], key).Some? {
        var i :| 0 <= i < |ps[1..]| && ps[1..][i] == FindKey(ps[1..], key).value && ps[1..][i].requestKey == key;
        assert ps[i + 1] == ps[1..][i];
      }
    }
  }

  /** One more proposal and its event keep a task good. */
  lemma GoodTaskGrows(e: Arena, q: Quotas, id: string, row: TaskRow, ps: seq<ProposalRow>, events: seq<EventRow>,
                      p: ProposalRow, last: EventRow)
    requires GoodTask(e, q, id, row, ps, events) && |ps| < q.maxProposals
    requires EventOk(e, id, events + [last], |events|, "proposal_checked")
             && ProposalOk(e, p, |ps| + 2, DataOf(e, last))
    requires forall i | 0 <= i < |ps| :: ps[i].proposalId != p.proposalId && ps[i].requestKey != p.requestKey
    ensures GoodTask(e, q, id, row.(version := row.version + 1), ps + [p], events + [last])
  {
    hide EventOk, ProposalOk, TaskHash, OpenedData, DataOf;
    EventOkAppend(e, id, events, last, 0, "task_opened");
    forall k | 1 <= k < |events| ensures EventOk(e, id, events + [last], k, "proposal_checked") {
      EventOkAppend(e, id, events, last, k, "proposal_checked");
    }
  }

  lemma CommitKeepsTask(e: Arena, q: Quotas, t: Tables, a: SubmitArgs, proposal: Json, report: Json)
    requires Sound(e) && a.taskId in t.tasks
    requires GoodTask(e, q, a.taskId, t.tasks[a.taskId], t.ProposalsOf(a.taskId), t.EventsOf(a.taskId))
    requires e.parseProposal(a.text) == Some(proposal)
    requires |t.ProposalsOf(a.taskId)| < q.maxProposals && FindKey(t.ProposalsOf(a.taskId), a.key).None?
    requires forall i | 0 <= i < |t.ProposalsOf(a.taskId)| :: t.ProposalsOf(a.taskId)[i].proposalId != a.proposalId
    ensures var u := Commit(e, t, a, proposal, report);
            GoodTask(e, q, a.taskId, u.tasks[a.taskId], u.ProposalsOf(a.taskId), u.EventsOf(a.taskId))
  {
    hide Sound, GoodTask, EventOk, ProposalOk, Digest, NextEvent, DataOf, CheckedData, CheckedRow;
    var id, row := a.taskId, t.tasks[a.taskId];
    var u := Commit(e, t, a, proposal, report);
    var ps, events := t.ProposalsOf(id), t.EventsOf(id);
    var p := CheckedRow(e, a, proposal, report, row.version + 1);
    var data := CheckedData(a.proposalId, p.rawSha256, p.proposalHash, Digest(e, report), "caller_import");
    var last := NextEvent(e, events, id, "proposal_checked", data, a.now);
    assert u.EventsOf(id) == events + [last] && u.ProposalsOf(id) == ps + [p];
    assert row.version == |ps| + 1 && (|events| == 0 || events[|events| - 1].sequence == |events|) by {
      SequenceOf(e, q, id, row, ps, events);
      GoodTaskCounts(e, q, id, row, ps, events);
    }
    NextEventOk(e, events, id, "proposal_checked", data, a.now);
    CheckedRowOk(e, a, proposal, report, |ps| + 2);
    NewKeyDistinct(e, a, proposal, report, ps, |ps| + 2);
    GoodTaskGrows(e, q, id, row, ps, events, p, last);
  }

  lemma GoodTaskCounts(e: Arena, q: Quotas, id: string, row: TaskRow, ps: seq<ProposalRow>, events: seq<EventRow>)
    requires GoodTask(e, q, id, row, ps, events)
    ensures row.version == |events| == 1 + |ps|
  {
    hide EventOk, ProposalOk;
  }

  lemma CheckedRowOk(e: Arena, a: SubmitArgs, proposal: Json, report: Json, version: int)
    requires Sound(e) && e.parseProposal(a.text) == Some(proposal)
    ensures var row := CheckedRow(e, a, proposal, report, version);
            ProposalOk(e, row, version,
                       CheckedData(a.proposalId, row.rawSha256, row.proposalHash, Digest(e, report), "caller_import"))
  {
    hide Digest, CheckedData, InjectiveSha;
    assert e.loads(e.dumps(report)) == Some(report);
  }

  lemma NewKeyDistinct(e: Arena, a: SubmitArgs, proposal: Json, report: Json, ps: seq<ProposalRow>, version: int)
    requires FindKey(ps, a.key).None? && forall i | 0 <= i < |ps| :: ps[i].proposalId != a.proposalId
    ensures var row := CheckedRow(e, a, proposal, report, version);
            forall i | 0 <= i < |ps| :: ps[i].proposalId != row.proposalId && ps[i].requestKey != row.requestKey
  {
    hide Digest;
    FindKeyIs(ps, a.key);
  }

  lemma SequenceOf(e: Arena, q: Quotas, id: string, row: TaskRow, ps: seq<ProposalRow>, events: seq<EventRow>)
    requires GoodTask(e, q, id, row, ps, events)
    ensures forall k | 0 <= k < |events| :: events[k].sequence == k + 1
  {
    hide Digest, Field, DataOf, ProposalOk, TaskHash;
    forall k | 0 <= k < |events| ensures events[k].sequence == k + 1 {
      assert EventOk(e, id, events, k, if k == 0 then "task_opened" else "proposal_checked");
    }
  }

  lemma SubmitKeepsGood(e: Arena, q: Quotas, t: Tables, a: SubmitArgs)
    requires Sound(e) && Good(e, q, t)
    ensures Good(e, q, SubmitStep(e, q, t, a).0)
  {
    hide GoodTask, FindKey, Digest, NextEvent, CheckedData, InjectiveSha, RoundTrips;
    var (u, r) := SubmitStep(e, q, t, a);
    if u != t {
      var proposal := e.parseProposal(a.text).value;
      var report := e.evaluate(StoredTask(e, t.tasks[a.taskId]).value, proposal, a.now);
      CommitKeepsTask(e, q, t, a, proposal, report);
      assert u.tasks.Keys == t.tasks.Keys;
      assert |u.tasks| == |u.tasks.Keys| == |t.tasks.Keys| == |t.tasks|;
      forall id | id in u.tasks ensures GoodTask(e, q, id, u.tasks[id], u.ProposalsOf(id), u.EventsOf(id)) {
        if id != a.taskId {
          assert GoodTask(e, q, id, t.tasks[id], t.ProposalsOf(id), t.EventsOf(id));
        }
      }
    }
  }

  // ---------------------------------------------------------------- exports verify

  /** The references the verifier holds after the events of the first m proposals. */
  ghost function RefsTo(e: Arena, ps: seq<ProposalRow>, m: nat): map<Json, Json>
    requires m <= |ps|
  {
    if m == 0 then map[]
    else RefsTo(e, ps, m - 1)[Str(ps[m - 1].proposalId) := RefOf(e, ps[m - 1], m + 1)]
  }

  ghost function RefOf(e: Arena, p: ProposalRow, version: int): Json {
    var report := if e.loads(p.reportJson).Some? then e.loads(p.reportJson).value else Null;
    Obj(CheckedData(p.proposalId, p.rawSha256, p.proposalHash, Digest(e, report), p.sourceMode)
        .fields["version" := Num(version)])
  }

  lemma {:induction false} RefsKeys(e: Arena, ps: seq<ProposalRow>, m: nat)
    requires m <= |ps|
    requires forall i, j | 0 <= i < j < |ps| :: ps[i].proposalId != ps[j].proposalId
    ensures forall i | 0 <= i < m :: Str(ps[i].proposalId) in RefsTo(e, ps, m)
                                     && RefsTo(e, ps, m)[Str(ps[i].proposalId)] == RefOf(e, ps[i], i + 2)
    ensures forall i | m <= i < |ps| :: Str(ps[i].proposalId) !in RefsTo(e, ps, m)
    ensures |RefsTo(e, ps, m)| == m
  {
    hide RefOf;
    if 0 < m {
      RefsKeys(e, ps, m - 1);
    }
  }

  ghost function SourceFailures(e: Arena, task: Json, observation: Option<Json>): Option<set<BundleVerifier.Failure>> {
    if observation.None? then Some({})
    else
      var broken :- BundleVerifier.SourceBroken(e, task, observation.value);
      Some(BundleVerifier.Note(broken, BundleVerifier.FinancialSourceBinding))
  }

  lemma SourceFailuresIff(e: Arena, task: Json, observation: Option<Json>)
    ensures SourceFailures(e, task, observation) == Some({}) <==> BundleTheorems.ObservationBound(e, task, observation)
  {
    hide Digest, BundleVerifier.SnapshotField;
  }

  lemma EventRowFields(r: EventRow)
    ensures var j := EventJson(r);
            && Field(j, "sequence") == Some(Num(r.sequence)) && TextField(j, "event_json") == Some(r.eventJson)
            && Field(j, "event_hash") == Some(Str(r.eventHash))
               && Field(j, "previous_hash") == Some(Str(r.previousHash))
  {
    assert "event_json"[6] != "event_hash"[6];
  }

  /** A stored row passes every check but the one on the collector's observation. */
  lemma StoredRowPasses(e: Arena, bundle: Json, task: Json, id: string, events: seq<EventRow>, k: nat, kind: string,
                        observation: Option<Json>)
    requires k < |events| && EventOk(e, id, events, k, kind)
    requires Field(bundle, "task_id") == Some(Str(id))
    requires k == 0 ==> kind == "task_opened" && DataOf(e, events[0]) == OpenedData(TaskHash(e, task), observation)
    ensures BundleVerifier.EventOf(e, EventJson(events[k])) == e.loads(events[k].eventJson) != None
    ensures Field(EventJson(events[k]), "event_hash") == Some(Str(events[k].eventHash))
    ensures BundleVerifier.RowFailures(e, bundle, task, k + 1, Str(Head(events[..k])), EventJson(events[k]),
                                       e.loads(events[k].eventJson).value)
            == if k == 0 then SourceFailures(e, task, observation) else Some({})
  {
    hide Digest, TaskHash, EventJson, OpenedData, BundleVerifier.SourceBroken;
    EventRowFields(events[k]);
    if k == 0 {
      OpenedFields(TaskHash(e, task), observation);
    }
  }

  lemma {:induction false} ExportScan(e: Arena, q: Quotas, bundle: Json, id: string, row: TaskRow,
                                      ps: seq<ProposalRow>, events: seq<EventRow>, k: nat)
    requires GoodTask(e, q, id, row, ps, events)
    requires 1 <= k <= |events|
    requires Field(bundle, "task_id") == Some(Str(id))
    ensures var task := StoredTask(e, row).value;
            BundleVerifier.ScanTo(e, bundle, task, EventJsons(events), k)
            == var found := SourceFailures(e, task, ObservationOf(e, events));
               if found.None? then None
               else Some(BundleVerifier.Scan(found.value, Str(events[k - 1].eventHash), RefsTo(e, ps, k - 1)))
  {
    hide Digest, TaskHash, EventJson, OpenedData, SourceFailures, BundleVerifier.RowFailures, BundleVerifier.EventOf,
         CheckedData, StoredTask, DataOf, ObservationOf, EventOk, ProposalOk, BundleVerifier.ScanTo;
    var task := StoredTask(e, row).value;
    if k == 1 {
      ExportOpening(e, bundle, task, id, row, events);
    } else {
      ExportScan(e, q, bundle, id, row, ps, events, k - 1);
      assert EventOk(e, id, events, k - 1, "proposal_checked");
      ExportStep(e, bundle, task, id, ps, events, k - 1, SourceFailures(e, task, ObservationOf(e, events)));
    }
  }

  lemma ExportOpening(e: Arena, bundle: Json, task: Json, id: string, row: TaskRow, events: seq<EventRow>)
    requires 0 < |events| && EventOk(e, id, events, 0, "task_opened")
    requires row.taskHash == TaskHash(e, task)
             && DataOf(e, events[0]) == OpenedData(row.taskHash, ObservationOf(e, events))
    requires Field(bundle, "task_id") == Some(Str(id))
    ensures BundleVerifier.ScanTo(e, bundle, task, EventJsons(events), 1)
            == var found := SourceFailures(e, task, ObservationOf(e, events));
               if found.None? then None else Some(BundleVerifier.Scan(found.value, Str(events[0].eventHash), map[]))
  {
    hide Digest, TaskHash, EventJson, OpenedData, SourceFailures, BundleVerifier.RowFailures, BundleVerifier.EventOf,
         DataOf, ObservationOf, EventOk;
    var observation := ObservationOf(e, events);
    assert EventJsons(events)[0] == EventJson(events[0]);
    assert events[..0] == [];
    StoredRowPasses(e, bundle, task, id, events, 0, "task_opened", observation);
    OpeningIndexed(e, id, events);
    var found := SourceFailures(e, task, observation);
    assert found.Some? ==> {} + found.value + {} == found.value;
    assert BundleVerifier.ScanTo(e, bundle, task, EventJsons(events), 0) == Some(BundleVerifier.START);
  }

  lemma ExportStep(e: Arena, bundle: Json, task: Json, id: string, ps: seq<ProposalRow>, events: seq<EventRow>, k: nat,
                   found: Option<set<BundleVerifier.Failure>>)
    requires 1 <= k < |events| == |ps| + 1 && EventOk(e, id, events, k, "proposal_checked")
    requires ProposalOk(e, ps[k - 1], k + 1, DataOf(e, events[k]))
    requires forall i, j | 0 <= i < j < |ps| :: ps[i].proposalId != ps[j].proposalId
    requires Field(bundle, "task_id") == Some(Str(id))
    requires BundleVerifier.ScanTo(e, bundle, task, EventJsons(events), k)
             == if found.None? then None
                else Some(BundleVerifier.Scan(found.value, Str(events[k - 1].eventHash), RefsTo(e, ps, k - 1)))
    ensures BundleVerifier.ScanTo(e, bundle, task, EventJsons(events), k + 1)
            == if found.None? then None
               else Some(BundleVerifier.Scan(found.value, Str(events[k].eventHash), RefsTo(e, ps, k)))
  {
    hide Digest, EventJson, BundleVerifier.RowFailures, BundleVerifier.EventOf, BundleVerifier.IndexEvent, DataOf,
         EventOk, ProposalOk, RefOf;
    assert EventJsons(events)[k] == EventJson(events[k]);
    assert events[..k][|events[..k]| - 1] == events[k - 1];
    StoredRowPasses(e, bundle, task, id, events, k, "proposal_checked", None);
    RefsKeys(e, ps, k - 1);
    CheckedIndexed(e, id, events, k, ps[k - 1], RefsTo(e, ps, k - 1));
    assert found.Some? ==> found.value + {} + {} == found.value;
  }

  lemma OpeningIndexed(e: Arena, id: string, events: seq<EventRow>)
    requires 0 < |events| && EventOk(e, id, events, 0, "task_opened")
    ensures BundleVerifier.IndexEvent(1, map[], e.loads(events[0].eventJson).value) == Some(({}, map[]))
  {
    hide Digest;
    assert "task_opened"[0] != "proposal_checked"[0];
  }

  lemma CheckedIndexed(e: Arena, id: string, events: seq<EventRow>, k: nat, p: ProposalRow, refs: map<Json, Json>)
    requires 1 <= k < |events| && EventOk(e, id, events, k, "proposal_checked")
    requires ProposalOk(e, p, k + 1, DataOf(e, events[k]))
    requires Str(p.proposalId) !in refs
    ensures BundleVerifier.IndexEvent(k + 1, refs, e.loads(events[k].eventJson).value)
            == Some(({}, refs[Str(p.proposalId) := RefOf(e, p, k + 1)]))
  {
    hide Digest, CheckedData;
    CheckedFields(p.proposalId, p.rawSha256, p.proposalHash, Digest(e, e.loads(p.reportJson).value), p.sourceMode,
                  k + 1);
  }

  lemma ProposalRowFields(p: ProposalRow)
    ensures var j := ProposalJson(p);
            && Field(j, "proposal_id") == Some(Str(p.proposalId)) && TextField(j, "raw_text") == Some(p.rawText)
            && Field(j, "raw_sha256") == Some(Str(p.rawSha256))
               && Field(j, "proposal_hash") == Some(Str(p.proposalHash))
            && TextField(j, "report_json") == Some(p.reportJson) && Field(j, "source_mode") == Some(Str(p.sourceMode))
            && Field(j, "version") == Some(Num(p.version))
  {
    assert "proposal_id"[0] != "report_json"[0] && "proposal_id"[0] != "source_mode"[0]
           && "report_json"[0] != "source_mode"[0];
  }

  lemma StoredProposalPasses(e: Arena, refs: map<Json, Json>, p: ProposalRow, version: int, data: Json)
    requires ProposalOk(e, p, version, data)
    requires Str(p.proposalId) in refs && refs[Str(p.proposalId)] == RefOf(e, p, version)
    ensures BundleVerifier.ProposalFailures(e, refs, ProposalJson(p)) == Some({})
  {
    hide Digest, ProposalJson, CheckedData;
    ProposalRowFields(p);
    CheckedFields(p.proposalId, p.rawSha256, p.proposalHash, Digest(e, e.loads(p.reportJson).value), p.sourceMode,
                  version);
  }

  /** Every stored proposal passes the verifier against the references of the exported events. */
  lemma ExportProposals(e: Arena, q: Quotas, id: string, row: TaskRow, ps: seq<ProposalRow>, events: seq<EventRow>)
    requires GoodTask(e, q, id, row, ps, events)
    ensures BundleVerifier.ProposalScan(e, RefsTo(e, ps, |ps|), ProposalJsons(ps), |ps|) == Some({})
  {
    hide Digest, ProposalJson, CheckedData, EventOk, OpenedData, TaskHash, StoredTask, DataOf, ObservationOf,
         ProposalOk, BundleVerifier.ProposalFailures, BundleVerifier.ProposalScan, RefOf, RefsTo;
    var refs, js := RefsTo(e, ps, |ps|), ProposalJsons(ps);
    RefsKeys(e, ps, |ps|);
    forall k | 0 <= k < |js| ensures BundleVerifier.ProposalFailures(e, refs, js[k]) == Some({}) {
      StoredProposalPasses(e, refs, ps[k], k + 2, DataOf(e, events[k + 1]));
    }
    BundleTheorems.CleanScan(e, refs, js, |js|);
  }

  /** Distinct identifiers make a set as large as the list. */
  lemma {:induction false} ExportIds(ps: seq<ProposalRow>, k: nat)
    requires k <= |ps|
    requires forall i, j | 0 <= i < j < |ps| :: ps[i].proposalId != ps[j].proposalId
    ensures var ids := BundleVerifier.ProposalIds(ProposalJsons(ps), k);
            ids.Some? && |ids.value| == k && forall i | k <= i < |ps| :: Str(ps[i].proposalId) !in ids.value
  {
    hide ProposalJson, Field;
    if 0 < k {
      ExportIds(ps, k - 1);
      ProposalRowFields(ps[k - 1]);
      assert ProposalJsons(ps)[k - 1] == ProposalJson(ps[k - 1]);
    }
  }

  /** Sealing adds two keys, and the checksum it adds is the one the verifier recomputes. */
  lemma SealedFields(e: Arena, body: map<string, Json>)
    requires "bundle_sha256" !in body
    ensures var b := Sealed(e, body);
            b.Obj? && !BundleVerifier.BundleShaBroken(e, b)
            && forall key | key != "integrity" && key != "bundle_sha256" :: Field(b, key) == Field(Obj(body), key)
  {
    hide Digest, BundleVerifier.Verify, IntegrityJson;
    var checked := body["integrity" := IntegrityJson(BundleVerifier.Verify(e, Obj(body), None))];
    assert checked["bundle_sha256" := Str(Digest(e, Obj(checked)))] - {"bundle_sha256"} == checked;
  }

  /** The fields verify_bundle reads from an export. */
  lemma BodyFields(e: Arena, id: string, task: Json, row: TaskRow, ps: seq<ProposalRow>, events: seq<EventRow>)
    ensures var b := Sealed(e, Body(id, task, row, ps, events));
            && b.Obj? && Field(b, "schema_version") == Some(Str("safehire-private-bundle/2"))
            && Field(b, "task_id") == Some(Str(id)) && Field(b, "version") == Some(Num(row.version))
            && Field(b, "task") == Some(task) && Field(b, "task_hash") == Some(Str(row.taskHash))
            && Field(b, "proposals") == Some(Arr(ProposalJsons(ps)))
               && Field(b, "events") == Some(Arr(EventJsons(events)))
            && !BundleVerifier.BundleShaBroken(e, b)
  {
    hide Digest, Body, ProposalJsons, EventJsons, Sealed, BundleVerifier.BundleShaBroken;
    HeaderFields(id, task, row, ps, events);
    RowFields(id, task, row, ps, events);
    SealedFields(e, Body(id, task, row, ps, events));
  }

  lemma HeaderFields(id: string, task: Json, row: TaskRow, ps: seq<ProposalRow>, events: seq<EventRow>)
    ensures var b := Body(id, task, row, ps, events);
            && "schema_version" in b && b["schema_version"] == Str("safehire-private-bundle/2")
            && "task_id" in b && b["task_id"] == Str(id) && "version" in b && b["version"] == Num(row.version)
            && "bundle_sha256" !in b
  {
    hide ProposalJsons, EventJsons, EVIDENCE_MODE, TRUST_BOUNDARY;
    assert "bundle_sha256"[0] != "evidence_mode"[0] && "schema_version"[0] != "trust_boundary"[0]
           && "task_id"[0] != "version"[0];
  }

  lemma RowFields(id: string, task: Json, row: TaskRow, ps: seq<ProposalRow>, events: seq<EventRow>)
    ensures var b := Body(id, task, row, ps, events);
            && "task" in b && b["task"] == task && "task_hash" in b && b["task_hash"] == Str(row.taskHash)
            && "proposals" in b && b["proposals"] == Arr(ProposalJsons(ps))
            && "events" in b && b["events"] == Arr(EventJsons(events))
  {
    hide ProposalJsons, EventJsons, EVIDENCE_MODE, TRUST_BOUNDARY;
    assert "proposals"[0] != "task_hash"[0];
  }

  /** The verdict on an export of a good task: only the collector's observation can fail it. */
  lemma ExportVerdict(e: Arena, q: Quotas, id: string, row: TaskRow, ps: seq<ProposalRow>, events: seq<EventRow>,
                      trusted: Option<string>)
    requires GoodTask(e, q, id, row, ps, events)
    requires e.validateTask(StoredTask(e, row).value) == StoredTask(e, row)
    requires trusted.Some? ==> trusted.value == Head(events)
    ensures var task := StoredTask(e, row).value;
            BundleVerifier.Verify(e, Sealed(e, Body(id, task, row, ps, events)), trusted)
            == var found := SourceFailures(e, task, ObservationOf(e, events));
               if found.None? then None else Some(BundleVerifier.Verdict(found.value, Str(Head(events))))
  {
    hide Digest, TaskHash, StoredTask, ObservationOf, DataOf, OpenedData, EventOk, ProposalOk, SourceFailures,
         Sealed, Body, BundleVerifier.ScanTo, BundleVerifier.ProposalScan, BundleVerifier.ProposalIds,
         BundleVerifier.BundleShaBroken, ProposalJson, EventJson, RefsTo;
    var task := StoredTask(e, row).value;
    var b := Sealed(e, Body(id, task, row, ps, events));
    BodyFields(e, id, task, row, ps, events);
    ExportScan(e, q, b, id, row, ps, events, |events|);
    ExportProposals(e, q, id, row, ps, events);
    ExportIds(ps, |ps|);
    RefsKeys(e, ps, |ps|);
    var found := SourceFailures(e, task, ObservationOf(e, events));
    assert EventJsons(events) != [];
    if found.Some? {
      var v := BundleVerifier.Verify(e, b, trusted);
      assert v.value.failures == found.value;
    }
  }

  /** MAIN RESULT. In every good state an export verifies, anchored to its own head or not, exactly when
      the collector's observation (if the task has one) is bound to the task's snapshot. */
  lemma ExportVerifies(e: Arena, q: Quotas, t: Tables, id: string, token: string,
                       trusted: Option<string>) returns (bundle: Json)
    requires Sound(e) && Good(e, q, t) && Authorised(e, t, id, token)
    requires e.validateTask(StoredTask(e, t.tasks[id]).value) == StoredTask(e, t.tasks[id])
    requires trusted.Some? ==> trusted.value == Head(t.EventsOf(id))
    ensures Export(e, t, id, token) == Ok(bundle)
    ensures BundleTheorems.Accepted(e, bundle, trusted)
            <==> BundleTheorems.ObservationBound(e, StoredTask(e, t.tasks[id]).value, ObservationOf(e, t.EventsOf(id)))
    ensures BundleTheorems.Accepted(e, bundle, trusted) ==>
              BundleVerifier.Verify(e, bundle, trusted).value.head == Str(Head(t.EventsOf(id)))
  {
    hide Sound, EventOk, ProposalOk, ObservationOf, BundleTheorems.ObservationBound, Sealed, BundleVerifier.Verify,
         SourceFailures, Body;
    var row, ps, events := t.tasks[id], t.ProposalsOf(id), t.EventsOf(id);
    var task := StoredTask(e, row).value;
    bundle := Sealed(e, Body(id, task, row, ps, events));
    ExportVerdict(e, q, id, row, ps, events, trusted);
    SourceFailuresIff(e, task, ObservationOf(e, events));
  }

  // ---------------------------------------------------------------- runs

  datatype Op = CreateOp(create: CreateArgs) | SubmitOp(submit: SubmitArgs)

  /** Callers of create pass a validated TaskSpec. */
  predicate Typed(e: Arena, op: Op) {
    op.CreateOp? ==> TypedCreate(e, op.create)
  }

  function Step(e: Arena, q: Quotas, t: Tables, op: Op): Tables {
    match op
    case CreateOp(a) => CreateStep(e, q, t, a).0
    case SubmitOp(a) => SubmitStep(e, q, t, a).0
  }

  /** The tables after the transactions of ops, in commit order. */
  function After(e: Arena, q: Quotas, t: Tables, ops: seq<Op>): Tables
    decreases |ops|
  {
    if ops == [] then t else After(e, q, Step(e, q, t, ops[0]), ops[1..])
  }

  /** Stored tasks re-validate to themselves, as TaskSpec instances do. */
  ghost predicate Revalidates(e: Arena, t: Tables) {
    forall id | id in t.tasks :: StoredTask(e, t.tasks[id]).Some? &&
      e.validateTask(StoredTask(e, t.tasks[id]).value) == StoredTask(e, t.tasks[id])
  }

  lemma StepKeepsGood(e: Arena, q: Quotas, t: Tables, op: Op)
    requires Sound(e) && Good(e, q, t) && Revalidates(e, t) && Typed(e, op)
    ensures Good(e, q, Step(e, q, t, op)) && Revalidates(e, Step(e, q, t, op))
  {
    hide Good, Digest, NextEvent, CheckedRow, CheckedData, OpenedData, FindKey, InjectiveSha, TaskHash;
    match op
    case CreateOp(a) => CreateKeepsGood(e, q, t, a);
    case SubmitOp(a) => SubmitKeepsGood(e, q, t, a);
  }

  lemma {:induction false} RunKeepsGood(e: Arena, q: Quotas, t: Tables, ops: seq<Op>)
    requires Sound(e) && Good(e, q, t) && Revalidates(e, t)
    requires forall i | 0 <= i < |ops| :: Typed(e, ops[i])
    ensures Good(e, q, After(e, q, t, ops)) && Revalidates(e, After(e, q, t, ops))
    decreases |ops|
  {
    hide Good, Revalidates, Step, Sound;
    if ops != [] {
      assert Typed(e, ops[0]);
      StepKeepsGood(e, q, t, ops[0]);
      RunKeepsGood(e, q, Step(e, q, t, ops[0]), ops[1..]);
    }
  }

  /** MAIN RESULT, over whole runs from the empty journal: quotas hold; every task's version is its number
      of events and one more than its number of proposals; proposal k has the sequence number of its event;
      no request key and no proposal identifier repeats. */
  lemma EveryRun(e: Arena, q: Quotas, ops: seq<Op>, id: string)
    requires Sound(e) && forall i | 0 <= i < |ops| :: Typed(e, ops[i])
    requires id in After(e, q, EMPTY, ops).tasks
    ensures var t := After(e, q, EMPTY, ops);
            var ps, events := t.ProposalsOf(id), t.EventsOf(id);
            && |t.tasks| <= q.maxTasks
            && t.tasks[id].version == |events| == 1 + |ps|
            && (|ps| == 0 || |ps| <= q.maxProposals)
            && (forall k | 0 <= k < |events| :: events[k].sequence == k + 1)
            && (forall k | 0 <= k < |ps| :: ps[k].version == events[k + 1].sequence)
            && (forall i, j | 0 <= i < j < |ps| ::
                  ps[i].requestKey != ps[j].requestKey && ps[i].proposalId != ps[j].proposalId)
  {
    hide Sound, After, EventOk, Digest, CheckedData, DataOf, StoredTask, TaskHash, OpenedData, ObservationOf;
    var t := After(e, q, EMPTY, ops);
    RunKeepsGood(e, q, EMPTY, ops);
    assert GoodTask(e, q, id, t.tasks[id], t.ProposalsOf(id), t.EventsOf(id));
    SequenceOf(e, q, id, t.tasks[id], t.ProposalsOf(id), t.EventsOf(id));
    assert t.tasks != map[];
  }

  /** An anchored acceptance is a plain acceptance whose head is the anchor. */
  lemma AnchorIsExtra(e: Arena, b: Json, head: string)
    requires BundleTheorems.Accepted(e, b, Some(head))
    ensures BundleTheorems.Accepted(e, b, None) && BundleVerifier.Verify(e, b, None).value.head == Str(head)
  {
    hide Digest, TaskHash, Rows, BundleVerifier.ScanTo, BundleVerifier.ProposalScan, BundleVerifier.ProposalIds,
         BundleVerifier.BundleShaBroken;
    var x, y := BundleVerifier.Verify(e, b, Some(head)).value, BundleVerifier.Verify(e, b, None).value;
    assert BundleVerifier.ExternalHeadMismatch !in x.failures;
    assert y.failures <= x.failures;
  }

  lemma ExportTaskId(e: Arena, t: Tables, id: string, token: string, bundle: Json)
    requires Export(e, t, id, token) == Ok(bundle)
    ensures Field(bundle, "task_id") == Some(Str(id))
  {
    hide Sealed, Body;
    BodyFields(e, id, e.loads(t.tasks[id].taskJson).value, t.tasks[id], t.ProposalsOf(id), t.EventsOf(id));
  }

  /** The task's recorded observation, if any, is bound to its snapshot. */
  ghost predicate ExportBound(e: Arena, t: Tables, id: string) {
    && id in t.tasks && StoredTask(e, t.tasks[id]).Some?
    && BundleTheorems.ObservationBound(e, StoredTask(e, t.tasks[id]).value, ObservationOf(e, t.EventsOf(id)))
  }

  ghost function Kind(k: nat): string {
    if k == 0 then "task_opened" else "proposal_checked"
  }

  /** Backward along a clean chain and the stored rows it ends like: both have the same length, and the chain opens
      with the stored opening event, which the verifier found bound to the chain's task. */
  lemma {:induction false} ChainMeetsStore(e: Arena, id: string, events: seq<EventRow>, m: nat,
                                           b: Json, task: Json, rows: seq<Json>, k: nat)
    requires Sound(e) && 1 <= m <= |events| && forall j | 0 <= j < |events| :: EventOk(e, id, events, j, Kind(j))
    requires 1 <= k <= |rows| && BundleTheorems.Clean(e, b, task, rows, k)
    requires BundleVerifier.ScanTo(e, b, task, rows, k).value.head == Str(events[m - 1].eventHash)
    ensures k == m && e.loads(events[0].eventJson).Some?
    ensures BundleVerifier.OpeningFailures(e, task, e.loads(events[0].eventJson).value) == Some({})
    decreases m
  {
    hide BundleVerifier.ScanTo, BundleVerifier.IndexEvent, BundleVerifier.OpeningFailures, Digest, InjectiveSha,
         RoundTrips;
    var event := BundleTheorems.CleanStep(e, b, task, rows, k);
    assert EventOk(e, id, events, m - 1, Kind(m - 1));
    DigestInjective(e, event, e.loads(events[m - 1].eventJson).value);
    assert k == m;
    if m > 1 {
      assert Head(events[..m - 1]) == events[m - 2].eventHash;
      BundleTheorems.CleanPrefix(e, b, task, rows, k - 1, k);
      ChainMeetsStore(e, id, events, m - 1, b, task, rows, k - 1);
    }
  }

  /** An opening event without failures names the task whose observation it carries, and binds that observation. */
  lemma OpeningBindsSource(e: Arena, task: Json, event: Json, stored: Json, observation: Option<Json>)
    requires Sound(e) && BundleVerifier.OpeningFailures(e, task, event) == Some({})
    requires Field(event, "data") == Some(OpenedData(TaskHash(e, stored), observation))
    ensures task == stored && BundleTheorems.ObservationBound(e, stored, observation)
  {
    hide TaskHash, BundleVerifier.SourceBroken, InjectiveSha, RoundTrips, BundleTheorems.ObservationBound, OpenedData;
    OpenedFields(TaskHash(e, stored), observation);
    BundleTheorems.OpeningBinds(e, task, event);
    TaskHashInjective(e, task, stored);
    SourceFailuresIff(e, stored, observation);
    if observation.Some? {
      var broken := BundleVerifier.SourceBroken(e, task, observation.value);
      assert BundleVerifier.OpeningFailures(e, task, event)
             == Some(BundleVerifier.Note(BundleVerifier.OpeningBroken(e, task, event).value, BundleVerifier.TaskBinding)
                     + BundleVerifier.Note(broken.value, BundleVerifier.FinancialSourceBinding));
      assert BundleVerifier.FinancialSourceBinding
             !in BundleVerifier.OpeningFailures(e, task, event).value;
    }
  }

  /** Whatever is accepted against a task's head, the task's own observation is bound. */
  lemma AcceptedHeadIsBound(e: Arena, q: Quotas, t: Tables, id: string, forged: Json)
    requires Sound(e) && Good(e, q, t) && id in t.tasks
    requires BundleTheorems.Accepted(e, forged, Some(Head(t.EventsOf(id))))
    ensures ExportBound(e, t, id)
  {
    hide Sound, EventOk, ProposalOk, ObservationOf, BundleTheorems.ObservationBound, BundleVerifier.Verify,
         BundleVerifier.ScanTo, BundleVerifier.ProposalScan, BundleVerifier.OpeningFailures, TaskHash, OpenedData,
         DataOf, StoredTask;
    var row, ps, events := t.tasks[id], t.ProposalsOf(id), t.EventsOf(id);
    assert GoodTask(e, q, id, row, ps, events);
    var parts := BundleTheorems.TakeApart(e, forged, Some(Head(events)));
    ChainMeetsStore(e, id, events, |events|, forged, parts.task, parts.rows, |parts.rows|);
    OpeningData(e, id, events);
    OpeningBindsSource(e, parts.task, e.loads(events[0].eventJson).value, StoredTask(e, row).value,
                       ObservationOf(e, events));
  }

  lemma OpeningData(e: Arena, id: string, events: seq<EventRow>)
    requires events != [] && EventOk(e, id, events, 0, "task_opened")
    ensures e.loads(events[0].eventJson).Some?
    ensures Field(e.loads(events[0].eventJson).value, "data") == Some(DataOf(e, events[0]))
  {
    hide Digest;
  }

  /** MAIN RESULT. A bundle accepted against the head of a genuine export, after any run, tells exactly
      the history of that export. */
  lemma TrustedHeadPinsExport(e: Arena, q: Quotas, ops: seq<Op>, id: string, token: string, forged: Json)
    returns (genuine: Json, x: BundleTheorems.Parts, y: BundleTheorems.Parts)
    requires Sound(e) && forall i | 0 <= i < |ops| :: Typed(e, ops[i])
    requires Authorised(e, After(e, q, EMPTY, ops), id, token)
    requires BundleTheorems.Accepted(e, forged, Some(Head(After(e, q, EMPTY, ops).EventsOf(id))))
    ensures Export(e, After(e, q, EMPTY, ops), id, token) == Ok(genuine)
    ensures var head := Str(Head(After(e, q, EMPTY, ops).EventsOf(id)));
            BundleTheorems.Apart(e, genuine, head, x) && BundleTheorems.Apart(e, forged, head, y)
    ensures BundleTheorems.SameHistory(e, x, y)
    ensures Field(forged, "task_id") == Some(Str(id))
  {
    hide Sound, Good, BundleTheorems.ObservationBound, ObservationOf, Export, BundleVerifier.Verify,
         BundleTheorems.Apart, BundleTheorems.SameHistory, Typed, After;
    var t := After(e, q, EMPTY, ops);
    EmptyIsGood(e, q);
    RunKeepsGood(e, q, EMPTY, ops);
    AcceptedHeadIsBound(e, q, t, id, forged);
    genuine := ExportVerifies(e, q, t, id, token, None);
    AnchorIsExtra(e, forged, Head(t.EventsOf(id)));
    x, y := BundleTheorems.SameHeadSameHistory(e, genuine, None, forged, None, Str(Head(t.EventsOf(id))));
    ExportTaskId(e, t, id, token, genuine);
  }

  /** MAIN RESULT. Against the head of a task, after any run, some bundle is accepted if and only if the task's
      observation is bound: an unbound task has no acceptable bundle at all, genuine or forged. */
  lemma HeadAcceptsIffBound(e: Arena, q: Quotas, ops: seq<Op>, id: string, token: string)
    requires Sound(e) && forall i | 0 <= i < |ops| :: Typed(e, ops[i])
    requires Authorised(e, After(e, q, EMPTY, ops), id, token)
    ensures var t := After(e, q, EMPTY, ops);
            (exists b :: BundleTheorems.Accepted(e, b, Some(Head(t.EventsOf(id))))) <==> ExportBound(e, t, id)
  {
    hide Sound, Good, BundleTheorems.ObservationBound, ObservationOf, Export, BundleTheorems.Accepted, Typed, After;
    var t := After(e, q, EMPTY, ops);
    EmptyIsGood(e, q);
    RunKeepsGood(e, q, EMPTY, ops);
    if b :| BundleTheorems.Accepted(e, b, Some(Head(t.EventsOf(id)))) {
      AcceptedHeadIsBound(e, q, t, id, b);
    }
    var genuine := ExportVerifies(e, q, t, id, token, Some(Head(t.EventsOf(id))));
  }

  lemma EmptyIsGood(e: Arena, q: Quotas)
    ensures Good(e, q, EMPTY) && Revalidates(e, EMPTY)
  {
  }

  // ---------------------------------------------------------------- append-only history

  /** Transactions only add rows behind those already there, and never rewrite a task's specification. */
  ghost predicate Extends(t: Tables, u: Tables, id: string)
    requires id in t.tasks
  {
    && id in u.tasks && u.tasks[id] == t.tasks[id].(version := u.tasks[id].version)
    && t.tasks[id].version <= u.tasks[id].version
    && t.ProposalsOf(id) <= u.ProposalsOf(id) && t.EventsOf(id) <= u.EventsOf(id)
  }

  lemma StepExtends(e: Arena, q: Quotas, t: Tables, op: Op, id: string)
    requires id in t.tasks
    ensures Extends(t, Step(e, q, t, op), id)
  {
    hide Digest, NextEvent, CheckedData, TaskHash, OpenedData, StoredTask, Replay, FindKey, CheckedRow;
  }

  lemma {:induction false} AppendOnly(e: Arena, q: Quotas, t: Tables, ops: seq<Op>, id: string)
    requires id in t.tasks
    ensures Extends(t, After(e, q, t, ops), id)
    decreases |ops|
  {
    hide Step;
    if ops != [] {
      StepExtends(e, q, t, ops[0], id);
      AppendOnly(e, q, Step(e, q, t, ops[0]), ops[1..], id);
    }
  }

  /** MAIN RESULT. Whatever runs before and after a task is created, its export verifies exactly when the
      collector's observation passed to create is bound to the snapshot of the task passed to create. */
  lemma CreatedTaskVerifies(e: Arena, q: Quotas, before: seq<Op>, a: CreateArgs, after: seq<Op>) returns (bundle: Json)
    requires Sound(e) && TypedCreate(e, a)
    requires forall i | 0 <= i < |before| :: Typed(e, before[i])
    requires forall i | 0 <= i < |after| :: Typed(e, after[i])
    requires CreateStep(e, q, After(e, q, EMPTY, before), a).1.Ok?
    ensures var w := After(e, q, CreateStep(e, q, After(e, q, EMPTY, before), a).0, after);
            Export(e, w, a.taskId, a.token) == Ok(bundle)
            && (BundleTheorems.Accepted(e, bundle, None) <==> BundleTheorems.ObservationBound(e, a.task, a.observation))
  {
    hide Good, After, EventOk, Export, BundleTheorems.ObservationBound, BundleTheorems.Accepted, InjectiveSha,
         NextEvent, OpenedData, TaskHash, Typed;
    var t := After(e, q, EMPTY, before);
    EmptyIsGood(e, q);
    RunKeepsGood(e, q, EMPTY, before);
    CreateKeepsGood(e, q, t, a);
    var u := CreateStep(e, q, t, a).0;
    assert e.loads(e.dumps(a.task)) == Some(a.task);
    RunKeepsGood(e, q, u, after);
    AppendOnly(e, q, u, after, a.taskId);
    var w := After(e, q, u, after);
    assert ObservationOf(e, w.EventsOf(a.taskId)) == ObservationOf(e, u.EventsOf(a.taskId));
    bundle := ExportVerifies(e, q, w, a.taskId, a.token, None);
  }

  // ---------------------------------------------------------------- idempotency keys and versions

  /** Key k of a task is taken by row p. */
  ghost predicate Taken(t: Tables, id: string, p: ProposalRow) {
    id in t.tasks && FindKey(t.ProposalsOf(id), p.requestKey) == Some(p)
  }

  lemma {:induction false} FindKeyAppend(ps: seq<ProposalRow>, p: ProposalRow, key: string)
    ensures FindKey(ps + [p], key)
            == if FindKey(ps, key).Some? then FindKey(ps, key) else if p.requestKey == key then Some(p) else None
  {
    if ps == [] {
      assert [p][1..] == [];
      assert FindKey([], key) == None;
    } else {
      assert (ps + [p])[1..] == ps[1..] + [p];
      FindKeyAppend(ps[1..], p, key);
    }
  }

  /** No transaction frees a key. */
  lemma StepKeepsTaken(e: Arena, q: Quotas, t: Tables, op: Op, id: string, p: ProposalRow)
    requires id in t.tasks
    ensures var u := Step(e, q, t, op);
            id in u.tasks && (Taken(t, id, p) ==> Taken(u, id, p))
  {
    hide FindKey, Digest, NextEvent, CheckedData, TaskHash, OpenedData, StoredTask, Replay;
    if op.SubmitOp? && op.submit.taskId == id {
      var a := op.submit;
      var u := Step(e, q, t, op);
      if u != t {
        var proposal := e.parseProposal(a.text).value;
        var report := e.evaluate(StoredTask(e, t.tasks[id]).value, proposal, a.now);
        FindKeyAppend(t.ProposalsOf(id), CheckedRow(e, a, proposal, report, t.tasks[id].version + 1), p.requestKey);
      }
    }
  }

  lemma {:induction false} RunKeepsTaken(e: Arena, q: Quotas, t: Tables, ops: seq<Op>, id: string, p: ProposalRow)
    requires id in t.tasks
    ensures var u := After(e, q, t, ops);
            id in u.tasks && (Taken(t, id, p) ==> Taken(u, id, p))
    decreases |ops|
  {
    hide Taken, Step;
    if ops != [] {
      StepKeepsTaken(e, q, t, ops[0], id, p);
      RunKeepsTaken(e, q, Step(e, q, t, ops[0]), ops[1..], id, p);
    }
  }

  /** What an accepted submission leaves behind its key, whether it committed or was itself a repeat. */
  lemma AcceptedIsTaken(e: Arena, q: Quotas, t: Tables, a: SubmitArgs) returns (p: ProposalRow)
    requires Sound(e) && SubmitStep(e, q, t, a).1.Ok?
    ensures var (u, r) := SubmitStep(e, q, t, a);
            && Taken(u, a.taskId, p) && p.requestKey == a.key && p.rawSha256 == e.sha(a.text)
            && e.loads(p.reportJson) == Some(r.value.report)
            && p.proposalId == r.value.proposalId && p.version == r.value.version
            && Authorised(e, u, a.taskId, a.token)
  {
    hide FindKey, Digest, NextEvent, CheckedData, StoredTask, InjectiveSha;
    var ps := t.ProposalsOf(a.taskId);
    FindKeyIs(ps, a.key);
    if FindKey(ps, a.key).Some? {
      p := FindKey(ps, a.key).value;
    } else {
      var proposal := e.parseProposal(a.text).value;
      var report := e.evaluate(StoredTask(e, t.tasks[a.taskId]).value, proposal, a.now);
      p := CheckedRow(e, a, proposal, report, t.tasks[a.taskId].version + 1);
      FindKeyAppend(ps, p, a.key);
    }
  }

  /** MAIN RESULT. However many transactions of other clients come between, repeating an accepted request
      with the same bytes returns the original id, version and report and changes nothing, whatever version
      it expects; repeating its key with other bytes is refused and changes nothing. */
  lemma RepeatIsReplayed(e: Arena, q: Quotas, t: Tables, a: SubmitArgs, between: seq<Op>, b: SubmitArgs)
    requires Sound(e) && SubmitStep(e, q, t, a).1.Ok?
    requires b.taskId == a.taskId && b.token == a.token && b.key == a.key && e.parseProposal(b.text).Some?
    ensures var (u, r) := SubmitStep(e, q, t, a);
            var w := After(e, q, u, between);
            SubmitStep(e, q, w, b)
            == (w, if b.text == a.text then Ok(r.value.(replayed := true)) else Err(Conflict))
  {
    hide FindKey, Digest, NextEvent, CheckedData, StoredTask, RoundTrips, Commit, After;
    var u := SubmitStep(e, q, t, a).0;
    var p := AcceptedIsTaken(e, q, t, a);
    RunKeepsTaken(e, q, u, between, a.taskId, p);
    AppendOnly(e, q, u, between, a.taskId);
    assert KeyOk(b.key);
    assert b.text == a.text <==> e.sha(b.text) == e.sha(a.text);
  }

  /** MAIN RESULT. Of submissions that expect one version of a task, at most one commits: after it, and after
      any further transactions, another one is either a repeat of an old key or refused. */
  lemma OneCommitPerVersion(e: Arena, q: Quotas, t: Tables, a: SubmitArgs, between: seq<Op>, b: SubmitArgs)
    requires SubmitStep(e, q, t, a).1.Ok? && !SubmitStep(e, q, t, a).1.value.replayed
    requires b.taskId == a.taskId && b.expected == a.expected
    ensures var w := After(e, q, SubmitStep(e, q, t, a).0, between);
            var (x, r) := SubmitStep(e, q, w, b);
            x == w && (r.Ok? ==> r.value.replayed)
  {
    hide FindKey, Digest, NextEvent, CheckedData, StoredTask, After, CheckedRow;
    var u := SubmitStep(e, q, t, a).0;
    assert u.tasks[a.taskId].version == t.tasks[a.taskId].version + 1;
    AppendOnly(e, q, u, between, a.taskId);
  }
}
