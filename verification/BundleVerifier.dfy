/** verify_bundle: the offline checker of an exported journal. */
module BundleVerifier {
  import opened Values
  import opened Arena

  datatype Failure =
    | SchemaVersion | TaskHashMismatch | MissingEvents | Sequence | ChainLink | EventHash
    | TaskBinding | FinancialSourceBinding | DuplicateOrMisorderedProposal | UnknownEvent
    | HeadVersion | MissingProposal | DuplicateProposal | ProposalVersion | OutputBytes
    | ProposalHash | ReportBinding | ExternalHeadMismatch | BundleSha256

  datatype Verdict = Verdict(failures: set<Failure>, head: Json) {
    predicate Valid() {
      failures == {}
    }
  }

  /** What the event loop carries from row to row. */
  datatype Scan = Scan(failures: set<Failure>, head: Json, refs: map<Json, Json>)

  function Note(bad: bool, f: Failure): set<Failure> {
    if bad then {f} else {}
  }

  const START := Scan({}, Str(GENESIS), map[])

  function EventOf(e: Arena, row: Json): Option<Json> {
    var text :- TextField(row, "event_json");
    e.loads(text)
  }

  function SequenceBroken(row: Json, event: Json, n: int): Option<bool> {
    Or(Differs(row, "sequence", Num(n)), Differs(event, "sequence", Num(n)))
  }

  function TaskIdDiffers(bundle: Json, event: Json): Option<bool> {
    var ours :- Field(event, "task_id");
    var theirs :- Field(bundle, "task_id");
    Some(ours != theirs)
  }

  function LinkBroken(bundle: Json, row: Json, event: Json, head: Json): Option<bool> {
    Or(TaskIdDiffers(bundle, event),
       Or(Differs(row, "previous_hash", head), Differs(event, "previous_hash", head)))
  }

  function OpeningBroken(e: Arena, task: Json, event: Json): Option<bool> {
    var kind :- Field(event, "kind");
    var data :- Field(event, "data");
    if kind != Str("task_opened") then Some(true)
    else if !data.Obj? then None
    else Some(GetOrNull(data, "task_hash") != Str(TaskHash(e, task)))
  }

  /** task.snapshot.<key> */
  function SnapshotField(task: Json, key: string): Json {
    GetOrNull(GetOrNull(task, "snapshot"), key)
  }

  /** The collector's observation must hash to its own observation_hash and name the task's block. */
  function SourceBroken(e: Arena, task: Json, source: Json): Option<bool> {
    if !source.Obj? then None
    else
      Or(Differs(source, "observation_hash", Str(Digest(e, Obj(source.fields - {"observation_hash"})))),
         Or(Differs(source, "block_hash", SnapshotField(task, "block_hash")),
            Or(Differs(source, "block_number", SnapshotField(task, "block_number")),
               Differs(source, "chain_id", SnapshotField(task, "chain_id")))))
  }

  function OpeningFailures(e: Arena, task: Json, event: Json): Option<set<Failure>> {
    var binding :- OpeningBroken(e, task, event);
    var data :- Field(event, "data");
    if !data.Obj? then None
    else if "source_observation" in data.fields then
      var source :- SourceBroken(e, task, data.fields["source_observation"]);
      Some(Note(binding, TaskBinding) + Note(source, FinancialSourceBinding))
    else Some(Note(binding, TaskBinding))
  }

  /** The identifier and the event data a proposal_checked event contributes to `referenced`. */
  function ReferenceOf(event: Json, n: int): Option<(Json, Json)> {
    var data :- Field(event, "data");
    var id :- Field(data, "proposal_id");
    if Hashable(id) then Some((id, Obj(data.fields["version" := Num(n)]))) else None
  }

  /** The checks one row undergoes whatever its kind, given the hash of the row before it. */
  function RowFailures(e: Arena, bundle: Json, task: Json, n: int, head: Json, row: Json, event: Json)
    : Option<set<Failure>>
  {
    var sequence :- SequenceBroken(row, event, n);
    var link :- LinkBroken(bundle, row, event, head);
    var stored :- Field(row, "event_hash");
    var opening :- if n == 1 then OpeningFailures(e, task, event) else Some({});
    Some(Note(sequence, Sequence) + Note(link, ChainLink)
         + Note(Str(Digest(e, event)) != stored, EventHash) + opening)
  }

  /** The checks that depend on the event's kind, and the references after it. */
  function IndexEvent(n: int, refs: map<Json, Json>, event: Json): Option<(set<Failure>, map<Json, Json>)> {
    var kind :- Field(event, "kind");
    if kind == Str("proposal_checked") then
      var (id, data) :- ReferenceOf(event, n);
      Some((Note(n == 1 || id in refs, DuplicateOrMisorderedProposal), refs[id := data]))
    else
      Some((Note(kind != Str("task_opened") || n != 1, UnknownEvent), refs))
  }

  /** One iteration of the event loop, for the row at one-based position n. */
  function StepEvent(e: Arena, bundle: Json, task: Json, n: int, s: Scan, row: Json): Option<Scan> {
    var event :- EventOf(e, row);
    var found :- RowFailures(e, bundle, task, n, s.head, row, event);
    var (indexed, refs) :- IndexEvent(n, s.refs, event);
    var stored :- Field(row, "event_hash");
    Some(Scan(s.failures + found + indexed, stored, refs))
  }

  /** The loop state after the first k rows. */
  function ScanTo(e: Arena, bundle: Json, task: Json, rows: seq<Json>, k: nat): Option<Scan>
    requires k <= |rows|
  {
    if k == 0 then Some(START)
    else
      var s :- ScanTo(e, bundle, task, rows, k - 1);
      StepEvent(e, bundle, task, k, s, rows[k - 1])
  }

  function ProposalFailures(e: Arena, refs: map<Json, Json>, p: Json): Option<set<Failure>> {
    var id :- Field(p, "proposal_id");
    var ref := if id in refs then refs[id] else Obj(map[]);
    var version :- Differs(p, "version", GetOrNull(ref, "version"));
    var text :- TextField(p, "raw_text");
    var raw := Str(e.sha(text));
    var parsed :- e.parseProposal(text);
    var normalized := Str(Digest(e, parsed));
    var reportText :- TextField(p, "report_json");
    var report :- e.loads(reportText);
    var bytes :- Or(Differs(p, "raw_sha256", raw), Some(raw != GetOrNull(ref, "raw_sha256")));
    var proposal :- Or(Differs(p, "proposal_hash", normalized), Some(normalized != GetOrNull(ref, "proposal_hash")));
    var binding :- Or(Some(Str(Digest(e, report)) != GetOrNull(ref, "report_hash")),
                      Differs(p, "source_mode", GetOrNull(ref, "source_mode")));
    Some(Note(version, ProposalVersion) + Note(bytes, OutputBytes)
         + Note(proposal, ProposalHash) + Note(binding, ReportBinding))
  }

  /** The failures of the first k proposals. */
  function ProposalScan(e: Arena, refs: map<Json, Json>, ps: seq<Json>, k: nat): Option<set<Failure>>
    requires k <= |ps|
  {
    if k == 0 then Some({})
    else
      var before :- ProposalScan(e, refs, ps, k - 1);
      var now :- ProposalFailures(e, refs, ps[k - 1]);
      Some(before + now)
  }

  /** {p['proposal_id'] for p in proposals}, over the first k of them. */
  function ProposalIds(ps: seq<Json>, k: nat): Option<set<Json>>
    requires k <= |ps|
  {
    if k == 0 then Some({})
    else
      var before :- ProposalIds(ps, k - 1);
      var id :- Field(ps[k - 1], "proposal_id");
      if Hashable(id) then Some(before + {id}) else None
  }

  function BundleShaBroken(e: Arena, bundle: Json): bool {
    bundle.Obj? && "bundle_sha256" in bundle.fields &&
    Str(Digest(e, Obj(bundle.fields - {"bundle_sha256"}))) != bundle.fields["bundle_sha256"]
  }

  /** The verdict as a function of the bundle; None is the report 'malformed_bundle'. */
  function Verify(e: Arena, bundle: Json, trusted: Option<string>): Option<Verdict> {
    if !bundle.Obj? then None
    else
      var taskJson :- Field(bundle, "task");
      var task :- e.validateTask(taskJson);
      var taskHash :- Field(bundle, "task_hash");
      var eventsJson :- Field(bundle, "events");
      var rows :- Rows(eventsJson);
      var s :- ScanTo(e, bundle, task, rows, |rows|);
      var version :- Field(bundle, "version");
      var proposalsJson :- Field(bundle, "proposals");
      var ps :- Rows(proposalsJson);
      var ids :- ProposalIds(ps, |ps|);
      var checked :- ProposalScan(e, s.refs, ps, |ps|);
      Some(Verdict(
             Note(GetOrNull(bundle, "schema_version") != Str("safehire-private-bundle/2"), SchemaVersion)
             + Note(Str(TaskHash(e, task)) != taskHash, TaskHashMismatch)
             + Note(rows == [], MissingEvents)
             + s.failures
             + Note(Num(|rows|) != version, HeadVersion)
             + Note(|s.refs| != |ps|, MissingProposal)
             + Note(|ids| != |ps|, DuplicateProposal)
             + checked
             + Note(trusted.Some? && s.head != Str(trusted.value), ExternalHeadMismatch)
             + Note(BundleShaBroken(e, bundle), BundleSha256),
             s.head))
  }

  /** The event loop of verify_bundle. */
  method CheckEvents(e: Arena, bundle: Json, task: Json, rows: seq<Json>) returns (r: Option<Scan>)
    ensures r == ScanTo(e, bundle, task, rows, |rows|)
  {
    hide EventOf, RowFailures, IndexEvent, Field;
    var failures: set<Failure>, head: Json, referenced: map<Json, Json> := {}, Str(GENESIS), map[];
    var i := 0;
    while i < |rows|
      invariant 0 <= i <= |rows|
      invariant ScanTo(e, bundle, task, rows, i) == Some(Scan(failures, head, referenced))
    {
      var row := rows[i];
      i := i + 1;
      if StepEvent(e, bundle, task, i, Scan(failures, head, referenced), row).None? {
        ScanStops(e, bundle, task, rows, i, |rows|);
      }
      var event :- EventOf(e, row);
      var found :- RowFailures(e, bundle, task, i, head, row, event);
      var indexed :- IndexEvent(i, referenced, event);
      failures, referenced := failures + found + indexed.0, indexed.1;
      head :- Field(row, "event_hash");
    }
    r := Some(Scan(failures, head, referenced));
  }

  /** The proposal loop of verify_bundle. */
  method CheckProposals(e: Arena, referenced: map<Json, Json>, ps: seq<Json>) returns (r: Option<set<Failure>>)
    ensures r == ProposalScan(e, referenced, ps, |ps|)
  {
    hide ProposalFailures;
    var failures: set<Failure> := {};
    var i := 0;
    while i < |ps|
      invariant 0 <= i <= |ps|
      invariant ProposalScan(e, referenced, ps, i) == Some(failures)
    {
      var found := ProposalFailures(e, referenced, ps[i]);
      i := i + 1;
      if found.None? {
        ProposalScanStops(e, referenced, ps, i, |ps|);
        return None;
      }
      failures := failures + found.value;
    }
    r := Some(failures);
  }

  /** verify_bundle as the program runs it. */
  method VerifyBundle(e: Arena, bundle: Json, trusted: Option<string>) returns (verdict: Option<Verdict>)
    ensures verdict == Verify(e, bundle, trusted)
  {
    hide TaskHash, Rows, ScanTo, ProposalScan, ProposalIds, BundleShaBroken;
    if !bundle.Obj? {
      return None;
    }
    var failures := Note(GetOrNull(bundle, "schema_version") != Str("safehire-private-bundle/2"), SchemaVersion);
    var taskJson :- Field(bundle, "task");
    var task :- e.validateTask(taskJson);
    var taskHash :- Field(bundle, "task_hash");
    failures := failures + Note(Str(TaskHash(e, task)) != taskHash, TaskHashMismatch);
    var eventsJson :- Field(bundle, "events");
    var rows :- Rows(eventsJson);
    failures := failures + Note(rows == [], MissingEvents);
    var scanned := CheckEvents(e, bundle, task, rows);
    var s :- scanned;
    failures := failures + s.failures;
    var version :- Field(bundle, "version");
    failures := failures + Note(Num(|rows|) != version, HeadVersion);
    var proposalsJson :- Field(bundle, "proposals");
    var ps :- Rows(proposalsJson);
    failures := failures + Note(|s.refs| != |ps|, MissingProposal);
    var ids :- ProposalIds(ps, |ps|);
    failures := failures + Note(|ids| != |ps|, DuplicateProposal);
    var checked := CheckProposals(e, s.refs, ps);
    var found :- checked;
    failures := failures + found;
    failures := failures + Note(trusted.Some? && s.head != Str(trusted.value), ExternalHeadMismatch);
    failures := failures + Note(BundleShaBroken(e, bundle), BundleSha256);
    verdict := Some(Verdict(failures, s.head));
  }

  /** An exception at one row leaves no loop state at any later row. */
  lemma {:induction false} ScanStops(e: Arena, bundle: Json, task: Json, rows: seq<Json>, k: nat, n: nat)
    requires k <= n <= |rows| && ScanTo(e, bundle, task, rows, k).None?
    ensures ScanTo(e, bundle, task, rows, n).None?
  {
    hide StepEvent;
    if k < n {
      ScanStops(e, bundle, task, rows, k, n - 1);
    }
  }

  lemma {:induction false} ProposalScanStops(e: Arena, refs: map<Json, Json>, ps: seq<Json>, k: nat, n: nat)
    requires k <= n <= |ps| && ProposalScan(e, refs, ps, k).None?
    ensures ProposalScan(e, refs, ps, n).None?
  {
    hide ProposalFailures;
    if k < n {
      ProposalScanStops(e, refs, ps, k, n - 1);
    }
  }
}
