/** What each failure that verify_bundle reports says about the bundle. */
module BundleFaults {
  import opened Values
  import opened Arena
  import opened BundleVerifier
  import opened BundleTheorems
  import opened BundleSpec

  ghost function EventAt(e: Arena, rows: seq<Json>, k: nat): Json
    requires k < |rows|
  {
    if EventOf(e, rows[k]).Some? then EventOf(e, rows[k]).value else Null
  }

  /** The row at k holds a check of the proposal id. */
  ghost predicate ChecksId(e: Arena, rows: seq<Json>, k: nat, id: Json)
    requires k < |rows|
  {
    Field(EventAt(e, rows, k), "kind") == Some(Str("proposal_checked")) && CheckedId(EventAt(e, rows, k)) == id
  }

  /** The last of the first k rows that checks id. */
  ghost function LastCheck(e: Arena, rows: seq<Json>, k: nat, id: Json): Option<nat>
    requires k <= |rows|
  {
    if k == 0 then None else if ChecksId(e, rows, k - 1, id) then Some(k - 1) else LastCheck(e, rows, k - 1, id)
  }

  /** What is wrong with the row at k. */
  ghost predicate RowFault(e: Arena, b: Json, task: Json, rows: seq<Json>, k: nat, f: Failure)
    requires k < |rows|
  {
    var row, event, previous := rows[k], EventAt(e, rows, k), Previous(rows, k);
    var kind, data := Field(event, "kind"), GetOrNull(event, "data");
    match f
    case Sequence => Field(row, "sequence") != Some(Num(k + 1)) || Field(event, "sequence") != Some(Num(k + 1))
    case ChainLink =>
      Field(event, "task_id") != Field(b, "task_id") || Field(row, "previous_hash") != Some(previous)
      || Field(event, "previous_hash") != Some(previous)
    case EventHash => Field(row, "event_hash") != Some(Str(Digest(e, event)))
    case TaskBinding =>
      k == 0 && (kind != Some(Str("task_opened")) || GetOrNull(data, "task_hash") != Str(TaskHash(e, task)))
    case FinancialSourceBinding => k == 0 && !ObservationBound(e, task, Field(data, "source_observation"))
    case DuplicateOrMisorderedProposal =>
      kind == Some(Str("proposal_checked")) && (k == 0 || LastCheck(e, rows, k, CheckedId(event)).Some?)
    case UnknownEvent => kind != Some(Str("proposal_checked")) && (kind != Some(Str("task_opened")) || k > 0)
    case _ => false
  }

  /** What is recorded about a proposal: the data of the last event that checks it, with its position. */
  ghost function RefAt(e: Arena, rows: seq<Json>, id: Json): Json {
    var last := LastCheck(e, rows, |rows|, id);
    if last.Some? && last.value < |rows| then RefFor(EventAt(e, rows, last.value), last.value + 1) else Obj(map[])
  }

  /** What is wrong with a proposal. */
  ghost predicate ProposalFault(e: Arena, rows: seq<Json>, p: Json, f: Failure) {
    var ref := RefAt(e, rows, GetOrNull(p, "proposal_id"));
    var text := if TextField(p, "raw_text").Some? then TextField(p, "raw_text").value else "";
    var parsed := if e.parseProposal(text).Some? then e.parseProposal(text).value else Null;
    var reportText := if TextField(p, "report_json").Some? then TextField(p, "report_json").value else "";
    var report := if e.loads(reportText).Some? then e.loads(reportText).value else Null;
    match f
    case ProposalVersion => Field(p, "version") != Some(GetOrNull(ref, "version"))
    case OutputBytes =>
      Field(p, "raw_sha256") != Some(Str(e.sha(text))) || GetOrNull(ref, "raw_sha256") != Str(e.sha(text))
    case ProposalHash =>
      Field(p, "proposal_hash") != Some(Str(Digest(e, parsed)))
      || GetOrNull(ref, "proposal_hash") != Str(Digest(e, parsed))
    case ReportBinding =>
      GetOrNull(ref, "report_hash") != Str(Digest(e, report))
      || Field(p, "source_mode") != Some(GetOrNull(ref, "source_mode"))
    case _ => false
  }

  ghost function AllChecks(e: Arena, rows: seq<Json>, k: nat): set<Json>
    requires k <= |rows|
  {
    if k == 0 then {}
    else
      AllChecks(e, rows, k - 1)
      + if Field(EventAt(e, rows, k - 1), "kind") == Some(Str("proposal_checked"))
        then {CheckedId(EventAt(e, rows, k - 1))} else {}
  }

  lemma InNote(c: bool, g: Failure, f: Failure)
    ensures f in Note(c, g) <==> c && f == g
  {
  }

  // ---------------------------------------------------------------- rows

  /** What a row adds to the scan. */
  ghost function Found(e: Arena, b: Json, task: Json, rows: seq<Json>, k: nat): set<Failure>
    requires k < |rows| && ScanTo(e, b, task, rows, k + 1).Some?
  {
    var s := ScanTo(e, b, task, rows, k).value;
    RowFailures(e, b, task, k + 1, s.head, rows[k], EventAt(e, rows, k)).value
    + IndexEvent(k + 1, s.refs, EventAt(e, rows, k)).value.0
  }

  lemma StepReads(e: Arena, b: Json, task: Json, rows: seq<Json>, k: nat)
    requires k < |rows| && ScanTo(e, b, task, rows, k + 1).Some?
    ensures ScanTo(e, b, task, rows, k).Some? && EventOf(e, rows[k]).Some?
    ensures var s, event := ScanTo(e, b, task, rows, k).value, EventAt(e, rows, k);
            && RowFailures(e, b, task, k + 1, s.head, rows[k], event).Some? && IndexEvent(k + 1, s.refs, event).Some?
            && ScanTo(e, b, task, rows, k + 1).value.failures == s.failures + Found(e, b, task, rows, k)
            && ScanTo(e, b, task, rows, k + 1).value.refs == IndexEvent(k + 1, s.refs, event).value.1
            && Field(rows[k], "event_hash") == Some(ScanTo(e, b, task, rows, k + 1).value.head)
  {
    hide EventOf, RowFailures, IndexEvent;
    var s := ScanTo(e, b, task, rows, k).value;
    var found := RowFailures(e, b, task, k + 1, s.head, rows[k], EventAt(e, rows, k)).value;
    var indexed := IndexEvent(k + 1, s.refs, EventAt(e, rows, k)).value.0;
    assert s.failures + found + indexed == s.failures + (found + indexed);
  }

  lemma {:induction false} ScanReadsPrefix(e: Arena, b: Json, task: Json, rows: seq<Json>, k: nat, n: nat)
    requires k <= n <= |rows| && ScanTo(e, b, task, rows, n).Some?
    ensures ScanTo(e, b, task, rows, k).Some?
  {
    hide ScanTo;
    if k < n {
      StepReads(e, b, task, rows, n - 1);
      ScanReadsPrefix(e, b, task, rows, k, n - 1);
    }
  }

  lemma HeadIs(e: Arena, b: Json, task: Json, rows: seq<Json>, k: nat)
    requires k <= |rows| && ScanTo(e, b, task, rows, k).Some?
    ensures ScanTo(e, b, task, rows, k).value.head == Previous(rows, k)
  {
    if k > 0 {
      StepReads(e, b, task, rows, k - 1);
    }
  }

  lemma {:induction false} RefsAre(e: Arena, b: Json, task: Json, rows: seq<Json>, k: nat)
    requires k <= |rows| && ScanTo(e, b, task, rows, k).Some?
    ensures var refs := ScanTo(e, b, task, rows, k).value.refs;
            && refs.Keys == AllChecks(e, rows, k)
            && forall id :: (id in refs <==> LastCheck(e, rows, k, id).Some?)
                            && (id in refs ==>
                                  var j := LastCheck(e, rows, k, id).value;
                                  j < k && refs[id] == RefFor(EventAt(e, rows, j), j + 1))
  {
    hide ScanTo, RefFor, EventOf, CheckedId, IndexEvent, EventAt, Found, RowFailures;
    if k == 0 {
      ScanEmpty(e, b, task, rows);
    } else {
      StepReads(e, b, task, rows, k - 1);
      RefsAre(e, b, task, rows, k - 1);
      IndexAdds(k, ScanTo(e, b, task, rows, k - 1).value.refs, EventAt(e, rows, k - 1));
    }
  }

  lemma IndexAdds(n: int, refs: map<Json, Json>, event: Json)
    requires IndexEvent(n, refs, event).Some?
    ensures IndexEvent(n, refs, event).value.1
            == if Field(event, "kind") == Some(Str("proposal_checked")) then refs[CheckedId(event) := RefFor(event, n)]
               else refs
    ensures Field(event, "kind").Some?
  {
  }

  lemma IndexFinds(n: int, refs: map<Json, Json>, event: Json, f: Failure)
    requires IndexEvent(n, refs, event).Some?
    ensures f in IndexEvent(n, refs, event).value.0
            <==> var kind := Field(event, "kind");
                 || (f == DuplicateOrMisorderedProposal && kind == Some(Str("proposal_checked"))
                     && (n == 1 || CheckedId(event) in refs))
                 || (f == UnknownEvent && kind != Some(Str("proposal_checked"))
                     && (kind != Some(Str("task_opened")) || n != 1))
  {
  }

  lemma OpeningFinds(e: Arena, task: Json, event: Json, f: Failure)
    requires OpeningFailures(e, task, event).Some?
    ensures f in OpeningFailures(e, task, event).value
            <==> var data := GetOrNull(event, "data");
                 || (f == TaskBinding && (Field(event, "kind") != Some(Str("task_opened"))
                                          || GetOrNull(data, "task_hash") != Str(TaskHash(e, task))))
                 || (f == FinancialSourceBinding && !ObservationBound(e, task, Field(data, "source_observation")))
  {
    hide TaskHash, SourceBroken, ObservationBound;
    var data := GetOrNull(event, "data");
    if "source_observation" in data.fields {
      SourceIff(e, task, data.fields["source_observation"]);
    } else {
      NothingToBind(e, task);
    }
  }

  lemma RowFinds(e: Arena, b: Json, task: Json, n: int, head: Json, row: Json, event: Json, f: Failure)
    requires RowFailures(e, b, task, n, head, row, event).Some?
    ensures f in RowFailures(e, b, task, n, head, row, event).value
            <==> || (f == Sequence
                     && (Field(row, "sequence") != Some(Num(n)) || Field(event, "sequence") != Some(Num(n))))
                 || (f == ChainLink && (Field(event, "task_id") != Field(b, "task_id")
                                        || Field(row, "previous_hash") != Some(head)
                                        || Field(event, "previous_hash") != Some(head)))
                 || (f == EventHash && Field(row, "event_hash") != Some(Str(Digest(e, event))))
                 || (n == 1 && OpeningFailures(e, task, event).Some?
                     && f in OpeningFailures(e, task, event).value)
  {
    hide Digest, OpeningFailures, Note;
    InNote(SequenceBroken(row, event, n).value, Sequence, f);
    InNote(LinkBroken(b, row, event, head).value, ChainLink, f);
    InNote(Str(Digest(e, event)) != Field(row, "event_hash").value, EventHash, f);
  }

  lemma RowFaultIs(e: Arena, b: Json, task: Json, rows: seq<Json>, k: nat, f: Failure)
    requires k < |rows|
    ensures var row, event, head := rows[k], EventAt(e, rows, k), Previous(rows, k);
            var kind, data := Field(event, "kind"), GetOrNull(event, "data");
            RowFault(e, b, task, rows, k, f)
            <==> || (f == Sequence
                     && (Field(row, "sequence") != Some(Num(k + 1)) || Field(event, "sequence") != Some(Num(k + 1))))
                 || (f == ChainLink && (Field(event, "task_id") != Field(b, "task_id")
                                        || Field(row, "previous_hash") != Some(head)
                                        || Field(event, "previous_hash") != Some(head)))
                 || (f == EventHash && Field(row, "event_hash") != Some(Str(Digest(e, event))))
                 || (f == TaskBinding && k == 0 && (kind != Some(Str("task_opened"))
                                                    || GetOrNull(data, "task_hash") != Str(TaskHash(e, task))))
                 || (f == FinancialSourceBinding && k == 0
                     && !ObservationBound(e, task, Field(data, "source_observation")))
                 || (f == DuplicateOrMisorderedProposal && kind == Some(Str("proposal_checked"))
                     && (k == 0 || LastCheck(e, rows, k, CheckedId(event)).Some?))
                 || (f == UnknownEvent && kind != Some(Str("proposal_checked"))
                     && (kind != Some(Str("task_opened")) || k > 0))
  {
    hide EventAt, Previous, Digest, TaskHash, ObservationBound, LastCheck, CheckedId, Field;
  }

  /** A row adds exactly its faults. */
  lemma FoundIsFault(e: Arena, b: Json, task: Json, rows: seq<Json>, k: nat, f: Failure)
    requires k < |rows| && ScanTo(e, b, task, rows, k + 1).Some?
    ensures f in Found(e, b, task, rows, k) <==> RowFault(e, b, task, rows, k, f)
  {
    hide ScanTo, RowFailures, IndexEvent, OpeningFailures, Digest, TaskHash, ObservationBound, CheckedId, EventAt,
         LastCheck, Previous, RowFault, Field, GetOrNull, RefFor;
    StepReads(e, b, task, rows, k);
    HeadIs(e, b, task, rows, k);
    RefsAre(e, b, task, rows, k);
    RowFaultIs(e, b, task, rows, k, f);
    var s, event := ScanTo(e, b, task, rows, k).value, EventAt(e, rows, k);
    RowFinds(e, b, task, k + 1, s.head, rows[k], event, f);
    IndexFinds(k + 1, s.refs, event, f);
    if k == 0 {
      OpeningRead(e, b, task, s.head, rows[k], event);
      OpeningFinds(e, task, event, f);
    }
  }

  lemma OpeningRead(e: Arena, b: Json, task: Json, head: Json, row: Json, event: Json)
    requires RowFailures(e, b, task, 1, head, row, event).Some?
    ensures OpeningFailures(e, task, event).Some?
  {
    hide OpeningFailures;
  }

  lemma {:induction false} ScanFinds(e: Arena, b: Json, task: Json, rows: seq<Json>, n: nat, f: Failure)
    requires n <= |rows| && ScanTo(e, b, task, rows, n).Some?
    ensures f in ScanTo(e, b, task, rows, n).value.failures
            <==> exists k: nat :: k < n && RowFault(e, b, task, rows, k, f)
  {
    hide ScanTo, RowFault, Found;
    if n == 0 {
      ScanEmpty(e, b, task, rows);
    } else {
      StepReads(e, b, task, rows, n - 1);
      ScanFinds(e, b, task, rows, n - 1, f);
      FoundIsFault(e, b, task, rows, n - 1, f);
    }
  }

  // ---------------------------------------------------------------- proposals

  lemma DiffersIs(value: Json, key: string, expected: Json)
    ensures Differs(value, key, expected).Some? ==>
              Differs(value, key, expected).value == (Field(value, key) != Some(expected))
  {
  }

  lemma OrDiffers(value: Json, key: string, expected: Json, c: bool)
    ensures Or(Differs(value, key, expected), Some(c)).Some? ==>
              Or(Differs(value, key, expected), Some(c)).value == (Field(value, key) != Some(expected) || c)
    ensures Or(Some(c), Differs(value, key, expected)).Some? ==>
              Or(Some(c), Differs(value, key, expected)).value == (c || Field(value, key) != Some(expected))
  {
  }

  lemma ProposalNotes(e: Arena, refs: map<Json, Json>, p: Json, f: Failure)
    requires ProposalFailures(e, refs, p).Some?
    ensures Field(p, "proposal_id").Some? && TextField(p, "raw_text").Some? && TextField(p, "report_json").Some?
    ensures e.parseProposal(TextField(p, "raw_text").value).Some? && e.loads(TextField(p, "report_json").value).Some?
    ensures var id := Field(p, "proposal_id").value; var ref := if id in refs then refs[id] else Obj(map[]);
            var raw := Str(e.sha(TextField(p, "raw_text").value));
            var parsed := Str(Digest(e, e.parseProposal(TextField(p, "raw_text").value).value));
            var report := Str(Digest(e, e.loads(TextField(p, "report_json").value).value));
            f in ProposalFailures(e, refs, p).value
            <==> || (f == ProposalVersion && Field(p, "version") != Some(GetOrNull(ref, "version")))
                 || (f == OutputBytes && (Field(p, "raw_sha256") != Some(raw) || GetOrNull(ref, "raw_sha256") != raw))
                 || (f == ProposalHash
                     && (Field(p, "proposal_hash") != Some(parsed) || GetOrNull(ref, "proposal_hash") != parsed))
                 || (f == ReportBinding && (GetOrNull(ref, "report_hash") != report
                                            || Field(p, "source_mode") != Some(GetOrNull(ref, "source_mode"))))
  {
    hide Digest, Note, Or, Differs;
    var ref := if Field(p, "proposal_id").value in refs then refs[Field(p, "proposal_id").value] else Obj(map[]);
    var raw := Str(e.sha(TextField(p, "raw_text").value));
    var parsed := Str(Digest(e, e.parseProposal(TextField(p, "raw_text").value).value));
    var report := Str(Digest(e, e.loads(TextField(p, "report_json").value).value));
    DiffersIs(p, "version", GetOrNull(ref, "version"));
    OrDiffers(p, "raw_sha256", raw, raw != GetOrNull(ref, "raw_sha256"));
    OrDiffers(p, "proposal_hash", parsed, parsed != GetOrNull(ref, "proposal_hash"));
    OrDiffers(p, "source_mode", GetOrNull(ref, "source_mode"), report != GetOrNull(ref, "report_hash"));
    InNote(Differs(p, "version", GetOrNull(ref, "version")).value, ProposalVersion, f);
    InNote(Or(Differs(p, "raw_sha256", raw), Some(raw != GetOrNull(ref, "raw_sha256"))).value, OutputBytes, f);
    InNote(Or(Differs(p, "proposal_hash", parsed), Some(parsed != GetOrNull(ref, "proposal_hash"))).value,
           ProposalHash, f);
    InNote(Or(Some(report != GetOrNull(ref, "report_hash")),
              Differs(p, "source_mode", GetOrNull(ref, "source_mode"))).value, ReportBinding, f);
  }

  lemma RefIs(e: Arena, b: Json, task: Json, rows: seq<Json>, id: Json)
    requires ScanTo(e, b, task, rows, |rows|).Some?
    ensures var refs := ScanTo(e, b, task, rows, |rows|).value.refs;
            RefAt(e, rows, id) == if id in refs then refs[id] else Obj(map[])
  {
    hide ScanTo, LastCheck, RefFor, EventAt, AllChecks;
    RefsAre(e, b, task, rows, |rows|);
  }

  lemma ProposalFinds(e: Arena, b: Json, task: Json, rows: seq<Json>, p: Json, f: Failure)
    requires ScanTo(e, b, task, rows, |rows|).Some?
    requires ProposalFailures(e, ScanTo(e, b, task, rows, |rows|).value.refs, p).Some?
    ensures f in ProposalFailures(e, ScanTo(e, b, task, rows, |rows|).value.refs, p).value
            <==> ProposalFault(e, rows, p, f)
  {
    hide ScanTo, RefAt, Digest, ProposalFailures;
    ProposalNotes(e, ScanTo(e, b, task, rows, |rows|).value.refs, p, f);
    RefIs(e, b, task, rows, GetOrNull(p, "proposal_id"));
  }

  lemma {:induction false} ProposalsFind(e: Arena, refs: map<Json, Json>, ps: seq<Json>, n: nat, f: Failure)
    requires n <= |ps| && ProposalScan(e, refs, ps, n).Some?
    ensures forall i | 0 <= i < n :: ProposalFailures(e, refs, ps[i]).Some?
    ensures f in ProposalScan(e, refs, ps, n).value
            <==> exists i :: 0 <= i < n && f in ProposalFailures(e, refs, ps[i]).value
  {
    hide ProposalFailures;
    if n > 0 {
      ProposalsFind(e, refs, ps, n - 1, f);
    }
  }

  lemma {:induction false} SmallerIfRepeated(ps: seq<Json>, n: nat)
    requires n <= |ps| && ProposalIds(ps, n).Some?
    ensures |ProposalIds(ps, n).value| != n
            <==> exists i, j :: 0 <= i < j < n && Field(ps[i], "proposal_id") == Field(ps[j], "proposal_id")
  {
    hide Field;
    if n > 0 {
      SmallerIfRepeated(ps, n - 1);
      IdsAre(ps, n - 1);
    }
  }

  // ---------------------------------------------------------------- the report

  ghost function TaskOf(e: Arena, b: Json): Json {
    var task := e.validateTask(GetOrNull(b, "task"));
    if task.Some? then task.value else Null
  }

  ghost function RowsOf(b: Json, key: string): seq<Json> {
    var rows := Rows(GetOrNull(b, key));
    if rows.Some? then rows.value else []
  }

  /** What is wrong with the bundle as a whole. */
  ghost predicate BundleFault(e: Arena, b: Json, trusted: Option<string>, f: Failure)
    requires b.Obj?
  {
    var rows, ps := RowsOf(b, "events"), RowsOf(b, "proposals");
    match f
    case SchemaVersion => Field(b, "schema_version") != Some(Str("safehire-private-bundle/2"))
    case TaskHashMismatch => Field(b, "task_hash") != Some(Str(TaskHash(e, TaskOf(e, b))))
    case MissingEvents => rows == []
    case HeadVersion => Field(b, "version") != Some(Num(|rows|))
    case MissingProposal => |AllChecks(e, rows, |rows|)| != |ps|
    case DuplicateProposal =>
      exists i, j :: 0 <= i < j < |ps| && Field(ps[i], "proposal_id") == Field(ps[j], "proposal_id")
    case ExternalHeadMismatch => trusted.Some? && Previous(rows, |rows|) != Str(trusted.value)
    case BundleSha256 => !ChecksumHolds(e, b)
    case _ => false
  }

  lemma TopLevel(e: Arena, b: Json, trusted: Option<string>, f: Failure)
    requires Verify(e, b, trusted).Some?
    ensures b.Obj? && ScanTo(e, b, TaskOf(e, b), RowsOf(b, "events"), |RowsOf(b, "events")|).Some?
    ensures var rows, ps := RowsOf(b, "events"), RowsOf(b, "proposals");
            var s := ScanTo(e, b, TaskOf(e, b), rows, |rows|).value;
            && ProposalIds(ps, |ps|).Some? && ProposalScan(e, s.refs, ps, |ps|).Some?
            && (f in Verify(e, b, trusted).value.failures
                <==> || f in s.failures || f in ProposalScan(e, s.refs, ps, |ps|).value
                     || (f == MissingProposal && |s.refs| != |ps|)
                     || (f == DuplicateProposal && |ProposalIds(ps, |ps|).value| != |ps|)
                     || (f == ExternalHeadMismatch && trusted.Some? && s.head != Str(trusted.value))
                     || (f == BundleSha256 && BundleShaBroken(e, b))
                     || (f == SchemaVersion && Field(b, "schema_version") != Some(Str("safehire-private-bundle/2")))
                     || (f == TaskHashMismatch && Field(b, "task_hash") != Some(Str(TaskHash(e, TaskOf(e, b)))))
                     || (f == MissingEvents && rows == [])
                     || (f == HeadVersion && Field(b, "version") != Some(Num(|rows|))))
  {
    hide TaskHash, ScanTo, ProposalScan, ProposalIds, BundleShaBroken, Rows, Note;
    var rows, ps := RowsOf(b, "events"), RowsOf(b, "proposals");
    var s := ScanTo(e, b, TaskOf(e, b), rows, |rows|).value;
    InNote(GetOrNull(b, "schema_version") != Str("safehire-private-bundle/2"), SchemaVersion, f);
    InNote(Str(TaskHash(e, TaskOf(e, b))) != Field(b, "task_hash").value, TaskHashMismatch, f);
    InNote(rows == [], MissingEvents, f);
    InNote(Num(|rows|) != Field(b, "version").value, HeadVersion, f);
    InNote(|s.refs| != |ps|, MissingProposal, f);
    InNote(|ProposalIds(ps, |ps|).value| != |ps|, DuplicateProposal, f);
    InNote(trusted.Some? && s.head != Str(trusted.value), ExternalHeadMismatch, f);
    InNote(BundleShaBroken(e, b), BundleSha256, f);
  }

  /** MAIN RESULT. When verify_bundle does not raise it reports exactly the faults of the bundle, of its event rows and
      of its proposals, each under its own name. */
  lemma FailuresSayWhy(e: Arena, b: Json, trusted: Option<string>, f: Failure)
    requires Verify(e, b, trusted).Some?
    ensures b.Obj?
    ensures var rows, ps := RowsOf(b, "events"), RowsOf(b, "proposals");
            f in Verify(e, b, trusted).value.failures
            <==> || BundleFault(e, b, trusted, f)
                 || (exists k: nat :: k < |rows| && RowFault(e, b, TaskOf(e, b), rows, k, f))
                 || (exists i: nat :: i < |ps| && ProposalFault(e, rows, ps[i], f))
  {
    hide Verify, ScanTo, ProposalScan, ProposalIds, BundleShaBroken, RowFault, ProposalFault, ProposalFailures,
         TaskOf, RowsOf, TaskHash, ChecksumHolds, AllChecks;
    TopLevel(e, b, trusted, f);
    var task, rows, ps := TaskOf(e, b), RowsOf(b, "events"), RowsOf(b, "proposals");
    var s := ScanTo(e, b, task, rows, |rows|).value;
    HeadIs(e, b, task, rows, |rows|);
    ChecksCounted(e, b, task, rows);
    ScanFinds(e, b, task, rows, |rows|, f);
    ProposalsFind(e, s.refs, ps, |ps|, f);
    SmallerIfRepeated(ps, |ps|);
    HasChecksum(e, b);
    forall i: nat | i < |ps|
      ensures f in ProposalFailures(e, s.refs, ps[i]).value <==> ProposalFault(e, rows, ps[i], f)
    {
      ProposalFinds(e, b, task, rows, ps[i], f);
    }
  }

  lemma ChecksCounted(e: Arena, b: Json, task: Json, rows: seq<Json>)
    requires ScanTo(e, b, task, rows, |rows|).Some?
    ensures |ScanTo(e, b, task, rows, |rows|).value.refs| == |AllChecks(e, rows, |rows|)|
  {
    hide ScanTo, AllChecks, LastCheck, RefFor, EventAt;
    RefsAre(e, b, task, rows, |rows|);
    var refs := ScanTo(e, b, task, rows, |rows|).value.refs;
    assert |refs| == |refs.Keys|;
  }
}
