/** What verify_bundle accepts, said without running it: the conditions a bundle meets if and only if it is accepted. */
module BundleSpec {
  import opened Values
  import opened Arena
  import opened BundleVerifier
  import opened BundleTheorems

  /** A bundle's task, its event rows with the events they hold, and its proposals. */
  datatype Tale = Tale(task: Json, rows: seq<Json>, events: seq<Json>, ps: seq<Json>)

  /** The first event opens the task, and an observation it carries is bound to the task's snapshot. */
  ghost predicate Opens(e: Arena, task: Json, event: Json) {
    && Field(event, "kind") == Some(Str("task_opened"))
    && Field(event, "data").Some? && Field(event, "data").value.Obj?
    && GetOrNull(Field(event, "data").value, "task_hash") == Str(TaskHash(e, task))
    && ObservationBound(e, task, Field(Field(event, "data").value, "source_observation"))
  }

  /** Every other event checks a proposal. */
  ghost predicate Checks(event: Json) {
    && Field(event, "kind") == Some(Str("proposal_checked"))
    && Field(event, "data").Some? && Field(Field(event, "data").value, "proposal_id").Some?
    && Hashable(CheckedId(event))
  }

  ghost function CheckedId(event: Json): Json {
    GetOrNull(GetOrNull(event, "data"), "proposal_id")
  }

  /** The hash the row at position k follows. */
  ghost function Previous(rows: seq<Json>, k: nat): Json
    requires k <= |rows|
  {
    if k == 0 then Str(GENESIS) else GetOrNull(rows[k - 1], "event_hash")
  }

  ghost predicate AllLinked(e: Arena, b: Json, rows: seq<Json>, events: seq<Json>, k: nat)
    requires k <= |rows| == |events|
  {
    forall j | 0 <= j < k :: Linked(e, b, j + 1, Previous(rows, j), rows[j], events[j])
  }

  ghost predicate ChecksDiffer(events: seq<Json>, k: nat)
    requires k <= |events|
  {
    && (forall j | 1 <= j < k :: Checks(events[j]))
    && (forall i, j | 1 <= i < j < k :: CheckedId(events[i]) != CheckedId(events[j]))
  }

  /** The first k rows are a chain from the genesis hash: one opening event, then checks of different proposals. */
  ghost predicate Chained(e: Arena, b: Json, x: Tale, k: nat)
    requires k <= |x.rows| == |x.events|
  {
    AllLinked(e, b, x.rows, x.events, k) && (0 < k ==> Opens(e, x.task, x.events[0])) && ChecksDiffer(x.events, k)
  }

  /** Proposal p is the one the event at one-based position n checked: same identifier, its output text hashes to the
      recorded hash and parses to the recorded proposal, and its report is the recorded one. */
  ghost predicate CheckedBy(e: Arena, p: Json, event: Json, n: int) {
    var data := GetOrNull(event, "data");
    && Field(p, "proposal_id") == Some(CheckedId(event)) && Field(p, "version") == Some(Num(n))
    && TextField(p, "raw_text").Some? && TextField(p, "report_json").Some?
    && var text, report := TextField(p, "raw_text").value, e.loads(TextField(p, "report_json").value);
       && Field(p, "raw_sha256") == Some(Str(e.sha(text))) == Field(data, "raw_sha256")
       && e.parseProposal(text).Some?
       && Field(p, "proposal_hash") == Some(Str(Digest(e, e.parseProposal(text).value)))
          == Field(data, "proposal_hash")
       && report.Some? && Field(data, "report_hash") == Some(Str(Digest(e, report.value)))
       && Field(p, "source_mode") == Some(GetOrNull(data, "source_mode"))
  }

  ghost predicate IsChecked(e: Arena, p: Json, events: seq<Json>) {
    exists k | 1 <= k < |events| :: CheckedBy(e, p, events[k], k + 1)
  }

  /** Each proposal was checked by one of the events, and there are as many as checking events, none twice. */
  ghost predicate AllChecked(e: Arena, x: Tale)
    requires |x.rows| == |x.events| && x.rows != []
  {
    && |x.ps| == |x.rows| - 1
    && (forall i | 0 <= i < |x.ps| :: IsChecked(e, x.ps[i], x.events))
    && DistinctIds(x.ps)
  }

  ghost predicate Exact(e: Arena, b: Json, trusted: Option<string>, x: Tale) {
    && b.Obj? && Field(b, "schema_version") == Some(Str("safehire-private-bundle/2"))
    && Field(b, "task").Some? && e.validateTask(Field(b, "task").value) == Some(x.task)
    && Field(b, "task_hash") == Some(Str(TaskHash(e, x.task)))
    && Field(b, "events").Some? && Rows(Field(b, "events").value) == Some(x.rows) && x.rows != []
    && |x.events| == |x.rows| && Field(b, "version") == Some(Num(|x.rows|))
    && Chained(e, b, x, |x.rows|)
    && Field(b, "proposals").Some? && Rows(Field(b, "proposals").value) == Some(x.ps) && AllChecked(e, x)
    && (trusted.Some? ==> Previous(x.rows, |x.rows|) == Str(trusted.value))
    && ChecksumHolds(e, b)
  }

  // ---------------------------------------------------------------- one row

  lemma SourceIff(e: Arena, task: Json, source: Json)
    ensures SourceBroken(e, task, source) == Some(false) <==> ObservationBound(e, task, Some(source))
  {
    hide Digest, SnapshotField;
  }

  lemma OpensIff(e: Arena, task: Json, event: Json)
    ensures OpeningFailures(e, task, event) == Some({}) && Field(event, "kind") == Some(Str("task_opened"))
            <==> Opens(e, task, event)
  {
    hide TaskHash, SourceBroken, ObservationBound;
    var found := OpeningFailures(e, task, event);
    var data := Field(event, "data");
    if Field(event, "kind") == Some(Str("task_opened")) && data.Some? && data.value.Obj? {
      var source := Field(data.value, "source_observation");
      var named := GetOrNull(data.value, "task_hash") == Str(TaskHash(e, task));
      assert OpeningBroken(e, task, event) == Some(!named);
      if source.None? {
        NothingToBind(e, task);
        assert found == Some(Note(!named, TaskBinding));
      } else {
        SourceIff(e, task, source.value);
        var broken := SourceBroken(e, task, source.value);
        if broken.Some? {
          BothFine(!named, broken.value);
          assert found == Some(Note(!named, TaskBinding) + Note(broken.value, FinancialSourceBinding));
        }
      }
    }
  }

  lemma BothFine(x: bool, y: bool)
    ensures Note(x, TaskBinding) + Note(y, FinancialSourceBinding) == {} <==> !x && !y
  {
    assert x ==> TaskBinding in Note(x, TaskBinding) + Note(y, FinancialSourceBinding);
    assert y ==> FinancialSourceBinding in Note(x, TaskBinding) + Note(y, FinancialSourceBinding);
  }

  lemma NothingToBind(e: Arena, task: Json)
    ensures ObservationBound(e, task, None)
  {
  }

  lemma LinkedRow(e: Arena, b: Json, task: Json, n: int, head: Json, row: Json, event: Json)
    requires Linked(e, b, n, head, row, event) && (n == 1 ==> OpeningFailures(e, task, event) == Some({}))
    ensures RowFailures(e, b, task, n, head, row, event) == Some({})
  {
    hide Digest, OpeningFailures;
  }

  /** What the checks that depend on the kind of an event leave behind. */
  ghost function RefFor(event: Json, n: int): Json {
    var data := GetOrNull(event, "data");
    if data.Obj? then Obj(data.fields["version" := Num(n)]) else Null
  }

  lemma IndexIff(n: int, refs: map<Json, Json>, event: Json)
    requires n >= 2
    ensures var indexed := IndexEvent(n, refs, event);
            && (indexed.Some? && indexed.value.0 == {} <==> Checks(event) && CheckedId(event) !in refs)
            && (Checks(event) && CheckedId(event) !in refs ==>
                  indexed == Some(({}, refs[CheckedId(event) := RefFor(event, n)])))
  {
    assert "task_opened"[0] != "proposal_checked"[0];
    var indexed := IndexEvent(n, refs, event);
    if indexed.Some? && indexed.value.0 == {} {
      assert UnknownEvent !in indexed.value.0 && DuplicateOrMisorderedProposal !in indexed.value.0;
    }
  }

  lemma OpeningIndexes(event: Json)
    requires Field(event, "kind").Some?
    ensures var indexed := IndexEvent(1, map[], event);
            && (indexed.Some? && indexed.value.0 == {} <==> Field(event, "kind") == Some(Str("task_opened")))
            && (Field(event, "kind") == Some(Str("task_opened")) ==> indexed == Some(({}, map[])))
  {
    assert "task_opened"[0] != "proposal_checked"[0];
    var indexed := IndexEvent(1, map[], event);
    if indexed.Some? && indexed.value.0 == {} {
      assert UnknownEvent !in indexed.value.0 && DuplicateOrMisorderedProposal !in indexed.value.0;
    }
  }

  // ---------------------------------------------------------------- the chain

  /** What the events at positions 1 to k - 1 have checked. */
  ghost function RefMap(events: seq<Json>, k: nat): map<Json, Json>
    requires k <= |events|
  {
    if k <= 1 then map[] else RefMap(events, k - 1)[CheckedId(events[k - 1]) := RefFor(events[k - 1], k)]
  }

  lemma {:induction false} RefMapKeys(events: seq<Json>, k: nat)
    requires k <= |events|
    ensures forall id :: id in RefMap(events, k) <==> exists j | 1 <= j < k :: CheckedId(events[j]) == id
  {
    hide CheckedId, RefFor;
    if k > 1 {
      RefMapKeys(events, k - 1);
    }
  }

  lemma {:induction false} RefMapAt(events: seq<Json>, k: nat, j: nat)
    requires 1 <= j < k <= |events|
    requires forall i, j | 1 <= i < j < k :: CheckedId(events[i]) != CheckedId(events[j])
    ensures RefMap(events, k).Keys == set i | 1 <= i < k :: CheckedId(events[i])
    ensures CheckedId(events[j]) in RefMap(events, k)
            && RefMap(events, k)[CheckedId(events[j])] == RefFor(events[j], j + 1)
  {
    hide CheckedId, RefFor;
    RefMapKeys(events, k);
    if j < k - 1 {
      RefMapAt(events, k - 1, j);
    }
  }

  lemma {:induction false} RefMapSize(events: seq<Json>, k: nat)
    requires 1 <= k <= |events|
    requires forall i, j | 1 <= i < j < k :: CheckedId(events[i]) != CheckedId(events[j])
    ensures |RefMap(events, k)| == k - 1
  {
    hide CheckedId, RefFor;
    if k > 1 {
      RefMapSize(events, k - 1);
      RefMapKeys(events, k - 1);
    }
  }

  /** The last of k rows of a chain, and the rows before it. */
  lemma LastLink(e: Arena, b: Json, x: Tale, k: nat)
    requires 1 <= k <= |x.rows| == |x.events| && Chained(e, b, x, k)
    ensures Chained(e, b, x, k - 1)
    ensures Linked(e, b, k, Previous(x.rows, k - 1), x.rows[k - 1], x.events[k - 1])
    ensures if k == 1 then Opens(e, x.task, x.events[0])
            else Checks(x.events[k - 1]) && CheckedId(x.events[k - 1]) !in RefMap(x.events, k - 1)
  {
    hide Linked, Opens, ChecksDiffer;
    LastDiffers(x.events, k);
  }

  lemma LastDiffers(events: seq<Json>, k: nat)
    requires 1 <= k <= |events| && ChecksDiffer(events, k)
    ensures ChecksDiffer(events, k - 1)
    ensures k > 1 ==> Checks(events[k - 1]) && CheckedId(events[k - 1]) !in RefMap(events, k - 1)
  {
    hide Checks, CheckedId, RefFor;
    RefMapKeys(events, k - 1);
  }

  /** The scan of a chain finds nothing. */
  lemma {:induction false} ChainScans(e: Arena, b: Json, x: Tale, k: nat)
    requires k <= |x.rows| == |x.events| && Chained(e, b, x, k)
    ensures ScanTo(e, b, x.task, x.rows, k) == Some(Scan({}, Previous(x.rows, k), RefMap(x.events, k)))
  {
    hide Chained, Linked, Opens, Checks, CheckedId, RefFor, StepEvent;
    if k > 0 {
      LastLink(e, b, x, k);
      ChainScans(e, b, x, k - 1);
      ChainStep(e, b, x.task, k, Previous(x.rows, k - 1), RefMap(x.events, k - 1), x.rows[k - 1], x.events[k - 1]);
    }
  }

  lemma ChainStep(e: Arena, b: Json, task: Json, n: nat, head: Json, refs: map<Json, Json>, row: Json, event: Json)
    requires 1 <= n && Linked(e, b, n, head, row, event)
    requires if n == 1 then Opens(e, task, event) && refs == map[] else Checks(event) && CheckedId(event) !in refs
    ensures StepEvent(e, b, task, n, Scan({}, head, refs), row)
            == Some(Scan({}, GetOrNull(row, "event_hash"),
                         if n == 1 then map[] else refs[CheckedId(event) := RefFor(event, n)]))
  {
    hide IndexEvent, RowFailures, OpeningFailures, Opens, Checks, CheckedId, RefFor, Digest;
    OpensIff(e, task, event);
    if n == 1 {
      OpeningIndexes(event);
    } else {
      IndexIff(n, refs, event);
    }
    LinkedRow(e, b, task, n, head, row, event);
    var none: set<Failure> := {};
    assert none + none + none == none;
  }

  /** A scan that finds nothing reads a chain. */
  lemma {:induction false} ScanReads(e: Arena, b: Json, task: Json, rows: seq<Json>, k: nat) returns (events: seq<Json>)
    requires k <= |rows| && Clean(e, b, task, rows, k)
    ensures |events| == k && Chained(e, b, Tale(task, rows[..k], events, []), k)
  {
    hide Linked, Opens, Checks, CheckedId, RefFor, IndexEvent, OpeningFailures, ScanTo, Digest;
    events := [];
    if k > 0 {
      CleanPrefix(e, b, task, rows, k - 1, k);
      var before := ScanReads(e, b, task, rows, k - 1);
      var event := CleanStep(e, b, task, rows, k);
      events := before + [event];
      var x, y := Tale(task, rows[..k - 1], before, []), Tale(task, rows[..k], events, []);
      ChainScansPrefix(e, b, x, rows, k - 1);
      ChainGrows(e, b, x, y, k, Before(e, b, task, rows, k));
    }
  }

  /** The scan of the first k rows does not look at the others. */
  lemma {:induction false} ScanPrefix(e: Arena, b: Json, task: Json, rows: seq<Json>, n: nat, k: nat)
    requires k <= n <= |rows|
    ensures ScanTo(e, b, task, rows[..n], k) == ScanTo(e, b, task, rows, k)
  {
    hide StepEvent;
    if k > 0 {
      ScanPrefix(e, b, task, rows, n, k - 1);
    }
  }

  lemma ChainScansPrefix(e: Arena, b: Json, x: Tale, rows: seq<Json>, k: nat)
    requires k <= |rows| && x.rows == rows[..k] && |x.events| == k && Chained(e, b, x, k)
    ensures ScanTo(e, b, x.task, rows, k) == Some(Scan({}, Previous(rows, k), RefMap(x.events, k)))
  {
    hide Chained, RefMap, ScanTo;
    ChainScans(e, b, x, k);
    ScanPrefix(e, b, x.task, rows, k, k);
  }

  lemma ChainGrows(e: Arena, b: Json, x: Tale, y: Tale, k: nat, before: Scan)
    requires 1 <= k == |y.rows| == |y.events| && |x.rows| == |x.events| == k - 1 && x.task == y.task
    requires x.rows == y.rows[..k - 1] && x.events == y.events[..k - 1] && Chained(e, b, x, k - 1)
    requires before == Scan({}, Previous(y.rows, k - 1), RefMap(x.events, k - 1))
    requires Linked(e, b, k, before.head, y.rows[k - 1], y.events[k - 1])
    requires k == 1 ==> OpeningFailures(e, x.task, y.events[0]) == Some({})
    requires IndexEvent(k, before.refs, y.events[k - 1]).Some?
             && IndexEvent(k, before.refs, y.events[k - 1]).value.0 == {}
    ensures Chained(e, b, y, k)
  {
    hide Linked, Opens, Checks, CheckedId, RefFor, IndexEvent, OpeningFailures, Chained, RefMap;
    var event := y.events[k - 1];
    if k == 1 {
      KindIsThere(k, before.refs, event);
      assert before.refs == map[] by {
        NothingChecked(x.events);
      }
      OpeningIndexes(event);
      OpensIff(e, x.task, event);
    } else {
      IndexIff(k, before.refs, event);
    }
    ChainExtends(e, b, x, y, k);
  }

  lemma NothingChecked(events: seq<Json>)
    ensures RefMap(events, 0) == map[]
  {
  }

  lemma ChainExtends(e: Arena, b: Json, x: Tale, y: Tale, k: nat)
    requires 1 <= k == |y.rows| == |y.events| && |x.rows| == |x.events| == k - 1 && x.task == y.task
    requires x.rows == y.rows[..k - 1] && x.events == y.events[..k - 1] && Chained(e, b, x, k - 1)
    requires Linked(e, b, k, Previous(y.rows, k - 1), y.rows[k - 1], y.events[k - 1])
    requires if k == 1 then Opens(e, x.task, y.events[0])
             else Checks(y.events[k - 1]) && CheckedId(y.events[k - 1]) !in RefMap(x.events, k - 1)
    ensures Chained(e, b, y, k)
  {
    hide Linked, Opens, ChecksDiffer, RefMap, Checks;
    assert k > 1 ==> x.events[0] == y.events[0];
    DifferExtends(x.events, y.events, k);
    forall j | 0 <= j < k ensures Linked(e, b, j + 1, Previous(y.rows, j), y.rows[j], y.events[j]) {
      if j < k - 1 {
        assert Linked(e, b, j + 1, Previous(x.rows, j), x.rows[j], x.events[j]);
      }
    }
  }

  lemma DifferExtends(before: seq<Json>, events: seq<Json>, k: nat)
    requires 1 <= k == |events| && before == events[..k - 1] && ChecksDiffer(before, k - 1)
    requires k > 1 ==> Checks(events[k - 1]) && CheckedId(events[k - 1]) !in RefMap(before, k - 1)
    ensures ChecksDiffer(events, k)
  {
    hide Checks, CheckedId, RefMap;
    RefMapKeys(before, k - 1);
    forall i, j | 1 <= i < j < k ensures CheckedId(events[i]) != CheckedId(events[j]) {
      assert events[i] == before[i];
      if j < k - 1 {
        assert events[j] == before[j];
      }
    }
    forall j | 1 <= j < k ensures Checks(events[j]) {
      if j < k - 1 {
        assert events[j] == before[j];
      }
    }
  }

  lemma KindIsThere(n: int, refs: map<Json, Json>, event: Json)
    requires IndexEvent(n, refs, event).Some?
    ensures Field(event, "kind").Some?
  {
  }

  // ---------------------------------------------------------------- the proposals

  lemma BoundPasses(e: Arena, refs: map<Json, Json>, p: Json)
    requires Field(p, "proposal_id").Some? && Field(p, "proposal_id").value in refs
    requires BoundTo(e, p, refs[Field(p, "proposal_id").value])
    ensures ProposalFailures(e, refs, p) == Some({})
  {
    hide Digest;
  }

  lemma BoundIff(e: Arena, p: Json, event: Json, n: int)
    requires Checks(event) && Field(p, "proposal_id") == Some(CheckedId(event))
    ensures BoundTo(e, p, RefFor(event, n)) <==> CheckedBy(e, p, event, n)
  {
    hide Digest;
    var data := GetOrNull(event, "data");
    forall key | key != "version" ensures GetOrNull(RefFor(event, n), key) == GetOrNull(data, key) {
    }
    assert "raw_sha256" != "version" && "proposal_hash" != "version" && "report_hash" != "version"
           && "source_mode" != "version" by {
      assert "raw_sha256"[0] != "version"[0] && "proposal_hash"[0] != "version"[0] && "report_hash"[0] != "version"[0]
             && "source_mode"[0] != "version"[0];
    }
  }

  lemma ProposalIff(e: Arena, events: seq<Json>, p: Json)
    requires ChecksDiffer(events, |events|)
    ensures ProposalFailures(e, RefMap(events, |events|), p) == Some({})
            <==> IsChecked(e, p, events)
  {
    hide ProposalFailures, Checks, BoundTo, CheckedBy, RefFor, CheckedId;
    var refs := RefMap(events, |events|);
    RefMapKeys(events, |events|);
    if ProposalFailures(e, refs, p) == Some({}) {
      CleanProposal(e, refs, p);
      var k :| 1 <= k < |events| && CheckedId(events[k]) == Field(p, "proposal_id").value;
      RefMapAt(events, |events|, k);
      BoundIff(e, p, events[k], k + 1);
    }
    if k :| 1 <= k < |events| && CheckedBy(e, p, events[k], k + 1) {
      CheckedHasId(e, p, events[k], k + 1);
      RefMapAt(events, |events|, k);
      BoundIff(e, p, events[k], k + 1);
      BoundPasses(e, refs, p);
    }
  }

  lemma CheckedHasId(e: Arena, p: Json, event: Json, n: int)
    requires CheckedBy(e, p, event, n)
    ensures Field(p, "proposal_id") == Some(CheckedId(event))
  {
    hide Digest;
  }

  ghost predicate Identified(ps: seq<Json>) {
    forall i | 0 <= i < |ps| :: Field(ps[i], "proposal_id").Some? && Hashable(Field(ps[i], "proposal_id").value)
  }

  /** Different hashable identifiers make a set as large as the list. */
  lemma {:induction false} IdsCount(ps: seq<Json>, k: nat)
    requires k <= |ps| && DistinctIds(ps) && Identified(ps)
    ensures ProposalIds(ps, k).Some? && |ProposalIds(ps, k).value| == k
  {
    hide Field, Hashable, DistinctIds;
    if k > 0 {
      IdsCount(ps, k - 1);
      NewId(ps, k - 1);
    }
  }

  lemma NewId(ps: seq<Json>, k: nat)
    requires k < |ps| && DistinctIds(ps) && Identified(ps) && ProposalIds(ps, k).Some?
    ensures Field(ps[k], "proposal_id").value !in ProposalIds(ps, k).value
  {
    hide Field, Hashable, ProposalIds;
    IdsAre(ps, k);
  }

  // ---------------------------------------------------------------- both directions

  lemma Reading(e: Arena, b: Json, trusted: Option<string>) returns (x: Tale)
    requires Accepted(e, b, trusted)
    ensures Exact(e, b, trusted, x)
  {
    hide Exact, Verify, Apart, Chained;
    var p := TakeApart(e, b, trusted);
    x := PartsTell(e, b, Verify(e, b, trusted).value.head, p);
    PartsExact(e, b, trusted, Verify(e, b, trusted).value.head, p, x);
  }

  /** The events behind the rows of an accepted bundle. */
  lemma PartsTell(e: Arena, b: Json, head: Json, p: Parts) returns (x: Tale)
    requires Apart(e, b, head, p)
    ensures x.task == p.task && x.rows == p.rows && x.ps == p.ps && |x.events| == |x.rows|
    ensures Chained(e, b, x, |x.rows|) && AllChecked(e, x)
    ensures p.scan == Scan({}, Previous(x.rows, |x.rows|), RefMap(x.events, |x.events|))
  {
    hide ScanTo, ProposalScan, ProposalIds, TaskHash, Rows, RefMap, Clean, CheckedBy, ProposalFailures,
         ChecksumHolds, DistinctIds, Chained, IsChecked;
    var events := ScanReads(e, b, p.task, p.rows, |p.rows|);
    assert p.rows[..|p.rows|] == p.rows;
    x := Tale(p.task, p.rows, events, p.ps);
    ChainRetold(e, b, Tale(p.task, p.rows, events, []), x);
    ChainScans(e, b, x, |x.rows|);
    ChainDiffers(e, b, x);
    RefMapSize(events, |events|) by {
      Differing(events);
    }
    ReferencedIds(e, b, head, p);
    forall i | 0 <= i < |x.ps| ensures IsChecked(e, x.ps[i], events) {
      ProposalIff(e, events, x.ps[i]);
    }
    PartsDiffer(p.ps);
  }

  lemma PartsExact(e: Arena, b: Json, trusted: Option<string>, head: Json, p: Parts, x: Tale)
    requires Apart(e, b, head, p) && (trusted.Some? ==> p.scan.head == Str(trusted.value))
    requires x.task == p.task && x.rows == p.rows && x.ps == p.ps && |x.events| == |x.rows|
    requires Chained(e, b, x, |x.rows|) && AllChecked(e, x) && p.scan.head == Previous(x.rows, |x.rows|)
    ensures Exact(e, b, trusted, x)
  {
    hide Chained, AllChecked, ScanTo, ProposalScan, ProposalIds, TaskHash, Rows, Clean, ChecksumHolds, Previous;
  }

  lemma PartsDiffer(ps: seq<Json>)
    requires ProposalIds(ps, |ps|).Some? && |ProposalIds(ps, |ps|).value| == |ps|
    ensures DistinctIds(ps)
  {
    hide ProposalIds, Field;
    forall i, j | 0 <= i < j < |ps| ensures Field(ps[i], "proposal_id") != Field(ps[j], "proposal_id") {
      IdsDistinct(ps, |ps|, i, j);
    }
  }

  lemma Differing(events: seq<Json>)
    requires ChecksDiffer(events, |events|)
    ensures forall i, j | 1 <= i < j < |events| :: CheckedId(events[i]) != CheckedId(events[j])
  {
    hide Checks, CheckedId;
  }

  lemma ChainRetold(e: Arena, b: Json, x: Tale, y: Tale)
    requires |x.rows| == |x.events| && Chained(e, b, x, |x.rows|) && y == x.(ps := y.ps)
    ensures Chained(e, b, y, |y.rows|)
  {
    hide AllLinked, Opens, ChecksDiffer;
  }

  lemma Writing(e: Arena, b: Json, trusted: Option<string>, x: Tale)
    requires Exact(e, b, trusted, x)
    ensures Verify(e, b, trusted) == Some(Verdict({}, Previous(x.rows, |x.rows|)))
  {
    hide ChecksumHolds, BundleShaBroken, DistinctIds, ScanTo, ProposalScan, ProposalIds, TaskHash, Rows, RefMap,
         CheckedBy, ProposalFailures, Chained, Checks;
    ChainScans(e, b, x, |x.rows|);
    var refs := RefMap(x.events, |x.events|);
    ChainDiffers(e, b, x);
    RefMapSize(x.events, |x.events|) by {
      Differing(x.events);
    }
    forall i | 0 <= i < |x.ps|
      ensures ProposalFailures(e, refs, x.ps[i]) == Some({})
      ensures Field(x.ps[i], "proposal_id").Some? && Hashable(Field(x.ps[i], "proposal_id").value)
    {
      ProposalIff(e, x.events, x.ps[i]);
      var k :| 1 <= k < |x.rows| && CheckedBy(e, x.ps[i], x.events[k], k + 1);
      CheckedHasId(e, x.ps[i], x.events[k], k + 1);
      CheckedIsHashable(x.events, k);
    }
    CleanScan(e, refs, x.ps, |x.ps|);
    IdsCount(x.ps, |x.ps|);
    HasChecksum(e, b);
  }

  lemma CheckedIsHashable(events: seq<Json>, k: nat)
    requires 1 <= k < |events| && ChecksDiffer(events, |events|)
    ensures Hashable(CheckedId(events[k]))
  {
    assert Checks(events[k]);
  }

  lemma ChainDiffers(e: Arena, b: Json, x: Tale)
    requires |x.rows| == |x.events| && Chained(e, b, x, |x.rows|)
    ensures ChecksDiffer(x.events, |x.events|)
  {
    hide AllLinked, Opens, ChecksDiffer;
  }

  lemma HasChecksum(e: Arena, b: Json)
    requires b.Obj?
    ensures BundleShaBroken(e, b) <==> !ChecksumHolds(e, b)
  {
    hide Digest;
  }

  /** MAIN RESULT. verify_bundle accepts a bundle if and only if it has the schema's version, a task with its hash, a
      chain from the genesis hash that opens that task and then checks different proposals, exactly those proposals
      with the outputs and reports the events recorded, the trusted head, and, if it carries a checksum, its own. */
  lemma AcceptedIff(e: Arena, b: Json, trusted: Option<string>)
    ensures Accepted(e, b, trusted) <==> exists x :: Exact(e, b, trusted, x)
  {
    hide Exact, Verify;
    if Accepted(e, b, trusted) {
      var _ := Reading(e, b, trusted);
    }
    if x :| Exact(e, b, trusted, x) {
      Writing(e, b, trusted, x);
    }
  }

  /** MAIN RESULT. Two accepted bundles with one checksum are one bundle. */
  lemma SameChecksumSameBundle(e: Arena, a: Json, trusted: Option<string>, b: Json, other: Option<string>)
    requires Sound(e) && Accepted(e, a, trusted) && Accepted(e, b, other)
    requires Field(a, "bundle_sha256") == Field(b, "bundle_sha256") != None
    ensures a == b
  {
    hide Verify, InjectiveSha, RoundTrips, Accepted;
    var x := Reading(e, a, trusted);
    var y := Reading(e, b, other);
    hide Exact;
    SameChecksum(e, a, b);
  }

  lemma SameChecksum(e: Arena, a: Json, b: Json)
    requires Sound(e) && a.Obj? && b.Obj? && ChecksumHolds(e, a) && ChecksumHolds(e, b)
    requires Field(a, "bundle_sha256") == Field(b, "bundle_sha256") != None
    ensures a == b
  {
    hide InjectiveSha, RoundTrips, Digest;
    var x, y := a.fields - {"bundle_sha256"}, b.fields - {"bundle_sha256"};
    DigestInjective(e, Obj(x), Obj(y));
    assert a.fields == x["bundle_sha256" := a.fields["bundle_sha256"]];
    assert b.fields == y["bundle_sha256" := b.fields["bundle_sha256"]];
  }
}
