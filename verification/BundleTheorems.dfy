/** What a clean verdict pins down: two bundles that verify with the same head tell the same history. */
module BundleTheorems {
  import opened Values
  import opened Arena
  import opened BundleVerifier

  ghost predicate Clean(e: Arena, bundle: Json, task: Json, rows: seq<Json>, k: nat)
    requires k <= |rows|
  {
    var s := ScanTo(e, bundle, task, rows, k);
    s.Some? && s.value.failures == {}
  }

  lemma {:induction false} CleanPrefix(e: Arena, bundle: Json, task: Json, rows: seq<Json>, k: nat, n: nat)
    requires k <= n <= |rows| && Clean(e, bundle, task, rows, n)
    ensures Clean(e, bundle, task, rows, k)
    decreases n
  {
    hide EventOf, RowFailures, IndexEvent, Field;
    if k < n {
      CleanPrefix(e, bundle, task, rows, k, n - 1);
    }
  }

  /** The state before row k of a scan that stays clean through row k. */
  ghost function Before(e: Arena, bundle: Json, task: Json, rows: seq<Json>, k: nat): (s: Scan)
    requires 1 <= k <= |rows| && Clean(e, bundle, task, rows, k)
    ensures ScanTo(e, bundle, task, rows, k - 1) == Some(s) && s.failures == {}
  {
    CleanPrefix(e, bundle, task, rows, k - 1, k);
    ScanTo(e, bundle, task, rows, k - 1).value
  }

  /** Everything a clean row binds: its position, its predecessor, its own content. */
  ghost predicate Linked(e: Arena, bundle: Json, n: int, head: Json, row: Json, event: Json) {
    && EventOf(e, row) == Some(event)
    && Field(row, "sequence") == Some(Num(n)) == Field(event, "sequence")
    && Field(event, "task_id") == Field(bundle, "task_id") != None
    && Field(row, "previous_hash") == Some(head) == Field(event, "previous_hash")
    && Field(row, "event_hash") == Some(Str(Digest(e, event)))
  }

  lemma CleanRow(e: Arena, bundle: Json, task: Json, n: int, head: Json, row: Json, event: Json)
    requires EventOf(e, row) == Some(event)
    requires RowFailures(e, bundle, task, n, head, row, event) == Some({})
    ensures Linked(e, bundle, n, head, row, event)
    ensures n == 1 ==> OpeningFailures(e, task, event) == Some({})
  {
    hide Digest, OpeningFailures;
    var sequence, link := SequenceBroken(row, event, n).value, LinkBroken(bundle, row, event, head).value;
    var stored := Field(row, "event_hash").value;
    var opening := if n == 1 then OpeningFailures(e, task, event).value else {};
    var all := Note(sequence, Sequence) + Note(link, ChainLink)
               + Note(Str(Digest(e, event)) != stored, EventHash) + opening;
    assert all == {};
    assert Sequence !in all;
    assert ChainLink !in all;
    assert EventHash !in all && opening <= all;
  }

  /** One clean step of the scan. */
  lemma CleanStep(e: Arena, bundle: Json, task: Json, rows: seq<Json>, k: nat) returns (event: Json)
    requires 1 <= k <= |rows| && Clean(e, bundle, task, rows, k)
    ensures var before := Before(e, bundle, task, rows, k);
            Linked(e, bundle, k, before.head, rows[k - 1], event)
            && (k == 1 ==> OpeningFailures(e, task, event) == Some({}))
            && IndexEvent(k, before.refs, event).Some?
            && IndexEvent(k, before.refs, event).value.0 == {}
            && ScanTo(e, bundle, task, rows, k)
               == Some(Scan({}, Str(Digest(e, event)), IndexEvent(k, before.refs, event).value.1))
  {
    hide EventOf, RowFailures, IndexEvent, Field, OpeningFailures;
    var before := Before(e, bundle, task, rows, k);
    var row := rows[k - 1];
    event := EventOf(e, row).value;
    var found := RowFailures(e, bundle, task, k, before.head, row, event).value;
    var indexed := IndexEvent(k, before.refs, event).value;
    assert found + indexed.0 == {} by { assert before.failures + found + indexed.0 == {}; }
    assert found == {} && indexed.0 == {};
    CleanRow(e, bundle, task, k, before.head, row, event);
  }

  /** Backward along both chains: equal hashes force equal events, whose own sequence numbers
      and previous hashes force equal positions and equal hashes one row earlier. */
  lemma {:induction false} ChainBack(e: Arena, b1: Json, t1: Json, r1: seq<Json>, k1: nat,
                                     b2: Json, t2: Json, r2: seq<Json>, k2: nat)
    requires Sound(e)
    requires 1 <= k1 <= |r1| && Clean(e, b1, t1, r1, k1)
    requires 1 <= k2 <= |r2| && Clean(e, b2, t2, r2, k2)
    requires ScanTo(e, b1, t1, r1, k1).value.head == ScanTo(e, b2, t2, r2, k2).value.head
    ensures k1 == k2
    ensures forall i | 0 <= i < k1 :: SameRow(e, r1[i], r2[i])
    decreases k1
  {
    hide IndexEvent, OpeningFailures, ScanTo, InjectiveSha, RoundTrips, Digest;
    var e1 := CleanStep(e, b1, t1, r1, k1);
    var e2 := CleanStep(e, b2, t2, r2, k2);
    DigestInjective(e, e1, e2);
    assert k1 == k2;
    assert SameRow(e, r1[k1 - 1], r2[k1 - 1]);
    if 1 < k1 {
      ChainBack(e, b1, t1, r1, k1 - 1, b2, t2, r2, k2 - 1);
    }
  }

  /** The decoded event and every stored column agree. */
  ghost predicate SameRow(e: Arena, x: Json, y: Json) {
    && EventOf(e, x) == EventOf(e, y) != None
    && Field(x, "sequence") == Field(y, "sequence")
    && Field(x, "previous_hash") == Field(y, "previous_hash")
    && Field(x, "event_hash") == Field(y, "event_hash")
  }

  lemma ScanEmpty(e: Arena, bundle: Json, task: Json, rows: seq<Json>)
    ensures ScanTo(e, bundle, task, rows, 0) == Some(START)
  {
  }

  /** The references after a clean row depend on its event alone. */
  lemma ReferencesAfter(e: Arena, b: Json, t: Json, rows: seq<Json>, k: nat) returns (event: Json)
    requires 1 <= k <= |rows| && Clean(e, b, t, rows, k)
    ensures EventOf(e, rows[k - 1]) == Some(event)
    ensures Clean(e, b, t, rows, k - 1) && ScanTo(e, b, t, rows, k - 1).Some? && ScanTo(e, b, t, rows, k).Some?
    ensures var indexed := IndexEvent(k, ScanTo(e, b, t, rows, k - 1).value.refs, event);
            indexed.Some? && ScanTo(e, b, t, rows, k).value.refs == indexed.value.1
  {
    hide IndexEvent, OpeningFailures, Digest, ScanTo, EventOf;
    event := CleanStep(e, b, t, rows, k);
  }

  lemma {:induction false} SameReferences(e: Arena, b1: Json, t1: Json, r1: seq<Json>,
                                          b2: Json, t2: Json, r2: seq<Json>, k: nat)
    requires k <= |r1| && k <= |r2| && Clean(e, b1, t1, r1, k) && Clean(e, b2, t2, r2, k)
    requires forall i | 0 <= i < k :: SameRow(e, r1[i], r2[i])
    ensures ScanTo(e, b1, t1, r1, k).value.refs == ScanTo(e, b2, t2, r2, k).value.refs
  {
    hide IndexEvent, ScanTo, EventOf;
    if k == 0 {
      ScanEmpty(e, b1, t1, r1);
      ScanEmpty(e, b2, t2, r2);
    } else {
      var e1 := ReferencesAfter(e, b1, t1, r1, k);
      var e2 := ReferencesAfter(e, b2, t2, r2, k);
      assert SameRow(e, r1[k - 1], r2[k - 1]);
      SameReferences(e, b1, t1, r1, b2, t2, r2, k - 1);
    }
  }

  /** What a clean proposal row is bound to by the event that checked it. */
  ghost predicate BoundTo(e: Arena, p: Json, ref: Json) {
    && Field(p, "version") == Some(GetOrNull(ref, "version"))
    && TextField(p, "raw_text").Some?
    && Some(Str(e.sha(TextField(p, "raw_text").value))) == Field(p, "raw_sha256") == Some(GetOrNull(ref, "raw_sha256"))
    && e.parseProposal(TextField(p, "raw_text").value).Some?
    && Field(p, "proposal_hash") == Some(GetOrNull(ref, "proposal_hash"))
       == Some(Str(Digest(e, e.parseProposal(TextField(p, "raw_text").value).value)))
    && TextField(p, "report_json").Some?
    && e.loads(TextField(p, "report_json").value).Some?
    && Str(Digest(e, e.loads(TextField(p, "report_json").value).value)) == GetOrNull(ref, "report_hash")
    && Field(p, "source_mode") == Some(GetOrNull(ref, "source_mode"))
  }

  /** The same proposal: identifier, exact output text, hashes, version, provenance and decoded report. */
  ghost predicate SameProposal(e: Arena, p: Json, q: Json) {
    && Field(p, "proposal_id") == Field(q, "proposal_id") != None
    && Field(p, "version") == Field(q, "version") != None
    && TextField(p, "raw_text") == TextField(q, "raw_text") != None
    && Field(p, "raw_sha256") == Field(q, "raw_sha256")
    && Field(p, "proposal_hash") == Field(q, "proposal_hash")
    && Field(p, "source_mode") == Field(q, "source_mode")
    && TextField(p, "report_json").Some? && TextField(q, "report_json").Some?
    && e.loads(TextField(p, "report_json").value) == e.loads(TextField(q, "report_json").value) != None
  }

  lemma CleanProposal(e: Arena, refs: map<Json, Json>, p: Json)
    requires ProposalFailures(e, refs, p) == Some({})
    ensures Field(p, "proposal_id").Some? && Field(p, "proposal_id").value in refs
    ensures BoundTo(e, p, refs[Field(p, "proposal_id").value])
  {
    hide Digest;
    var id := Field(p, "proposal_id").value;
    var ref := if id in refs then refs[id] else Obj(map[]);
    var version := Differs(p, "version", GetOrNull(ref, "version")).value;
    var text := TextField(p, "raw_text").value;
    var raw := Str(e.sha(text));
    var normalized := Str(Digest(e, e.parseProposal(text).value));
    var report := e.loads(TextField(p, "report_json").value).value;
    var bytes := Or(Differs(p, "raw_sha256", raw), Some(raw != GetOrNull(ref, "raw_sha256"))).value;
    var proposal := Or(Differs(p, "proposal_hash", normalized),
                       Some(normalized != GetOrNull(ref, "proposal_hash"))).value;
    var binding := Or(Some(Str(Digest(e, report)) != GetOrNull(ref, "report_hash")),
                      Differs(p, "source_mode", GetOrNull(ref, "source_mode"))).value;
    var all := Note(version, ProposalVersion) + Note(bytes, OutputBytes)
               + Note(proposal, ProposalHash) + Note(binding, ReportBinding);
    assert all == {};
    assert ProposalVersion !in all;
    assert OutputBytes !in all;
    assert ProposalHash !in all;
    assert ReportBinding !in all;
  }

  lemma {:induction false} CleanProposals(e: Arena, refs: map<Json, Json>, ps: seq<Json>, k: nat, i: nat)
    requires i < k <= |ps| && ProposalScan(e, refs, ps, k) == Some({})
    ensures ProposalFailures(e, refs, ps[i]) == Some({})
  {
    hide ProposalFailures;
    var before, now := ProposalScan(e, refs, ps, k - 1).value, ProposalFailures(e, refs, ps[k - 1]).value;
    assert before + now == {};
    assert before == {} && now == {};
    if i < k - 1 {
      CleanProposals(e, refs, ps, k - 1, i);
    }
  }

  lemma {:induction false} CleanScan(e: Arena, refs: map<Json, Json>, js: seq<Json>, k: nat)
    requires k <= |js|
    requires forall i | 0 <= i < |js| :: ProposalFailures(e, refs, js[i]) == Some({})
    ensures ProposalScan(e, refs, js, k) == Some({})
  {
    hide ProposalFailures;
    if 0 < k {
      CleanScan(e, refs, js, k - 1);
      var none: set<Failure> := {};
      assert none + none == none;
    }
  }

  /** The identifier set of the first k proposals, and its size when no identifier repeats. */
  lemma {:induction false} IdsAre(ps: seq<Json>, k: nat)
    requires k <= |ps| && ProposalIds(ps, k).Some?
    ensures forall i | 0 <= i < k ::
              Field(ps[i], "proposal_id").Some? && Field(ps[i], "proposal_id").value in ProposalIds(ps, k).value
    ensures forall id | id in ProposalIds(ps, k).value ::
              exists i | 0 <= i < k :: Field(ps[i], "proposal_id") == Some(id)
    ensures |ProposalIds(ps, k).value| <= k
  {
    hide Field;
    if 0 < k {
      IdsAre(ps, k - 1);
    }
  }

  /** What verify_bundle demands of a collector's observation; without one there is nothing to demand. */
  ghost predicate ObservationBound(e: Arena, task: Json, observation: Option<Json>) {
    observation.Some? ==>
      && observation.value.Obj?
      && var fields := observation.value.fields;
         && Field(observation.value, "observation_hash") == Some(Str(Digest(e, Obj(fields - {"observation_hash"}))))
         && Field(observation.value, "block_hash") == Some(SnapshotField(task, "block_hash"))
         && Field(observation.value, "block_number") == Some(SnapshotField(task, "block_number"))
         && Field(observation.value, "chain_id") == Some(SnapshotField(task, "chain_id"))
  }

  /** A checksum, if there is one, is that of everything else in the bundle. */
  ghost predicate ChecksumHolds(e: Arena, b: Json)
    requires b.Obj?
  {
    "bundle_sha256" in b.fields ==>
      b.fields["bundle_sha256"] == Str(Digest(e, Obj(b.fields - {"bundle_sha256"})))
  }

  /** An accepted bundle, taken apart. */
  datatype Parts = Parts(task: Json, rows: seq<Json>, scan: Scan, ps: seq<Json>, ids: set<Json>)

  ghost predicate Accepted(e: Arena, b: Json, trusted: Option<string>) {
    var v := Verify(e, b, trusted);
    v.Some? && v.value.Valid()
  }

  ghost predicate Apart(e: Arena, b: Json, head: Json, p: Parts) {
    && b.Obj?
    && Field(b, "task").Some? && e.validateTask(Field(b, "task").value) == Some(p.task)
    && Field(b, "task_hash") == Some(Str(TaskHash(e, p.task)))
    && Field(b, "events").Some? && Rows(Field(b, "events").value) == Some(p.rows) && p.rows != []
    && Field(b, "version") == Some(Num(|p.rows|))
    && ScanTo(e, b, p.task, p.rows, |p.rows|) == Some(p.scan)
    && Clean(e, b, p.task, p.rows, |p.rows|)
    && Field(b, "proposals").Some? && Rows(Field(b, "proposals").value) == Some(p.ps)
    && ProposalIds(p.ps, |p.ps|) == Some(p.ids) && |p.ids| == |p.ps| == |p.scan.refs|
    && ProposalScan(e, p.scan.refs, p.ps, |p.ps|) == Some({})
    && p.scan.head == head
    && Field(b, "schema_version") == Some(Str("safehire-private-bundle/2")) && ChecksumHolds(e, b)
  }

  lemma TakeApart(e: Arena, b: Json, trusted: Option<string>) returns (p: Parts)
    requires Accepted(e, b, trusted)
    ensures Apart(e, b, Verify(e, b, trusted).value.head, p)
    ensures trusted.Some? ==> p.scan.head == Str(trusted.value)
  {
    hide TaskHash, ScanTo, ProposalScan, ProposalIds, Rows;
    var task := e.validateTask(Field(b, "task").value).value;
    var rows := Rows(Field(b, "events").value).value;
    var s := ScanTo(e, b, task, rows, |rows|).value;
    var ps := Rows(Field(b, "proposals").value).value;
    var ids := ProposalIds(ps, |ps|).value;
    var checked := ProposalScan(e, s.refs, ps, |ps|).value;
    p := Parts(task, rows, s, ps, ids);
    var found := Verify(e, b, trusted).value.failures;
    assert s.failures <= found && checked <= found;
    assert TaskHashMismatch !in found && MissingEvents !in found && HeadVersion !in found
           && MissingProposal !in found && DuplicateProposal !in found && ExternalHeadMismatch !in found
           && SchemaVersion !in found && BundleSha256 !in found;
  }

  /** Every proposal of xs is in ys, up to its position. */
  ghost predicate OccurIn(e: Arena, xs: seq<Json>, ys: seq<Json>) {
    forall i | 0 <= i < |xs| :: exists j | 0 <= j < |ys| :: SameProposal(e, xs[i], ys[j])
  }

  ghost predicate DistinctIds(ps: seq<Json>) {
    forall i, j | 0 <= i < j < |ps| :: Field(ps[i], "proposal_id") != Field(ps[j], "proposal_id")
  }

  /** The whole of what two accepted bundles with one head have in common. */
  ghost predicate SameHistory(e: Arena, x: Parts, y: Parts) {
    && x.task == y.task
    && |x.rows| == |y.rows| && (forall i | 0 <= i < |x.rows| :: SameRow(e, x.rows[i], y.rows[i]))
    && |x.ps| == |y.ps| && OccurIn(e, x.ps, y.ps) && DistinctIds(y.ps)
  }

  lemma SubsetOfEqualSize<T>(a: set<T>, b: set<T>)
    requires a <= b && |a| == |b|
    ensures a == b
  {
    assert |b - a| == 0;
    assert b - a == {};
  }

  lemma {:induction false} IdsDistinct(ps: seq<Json>, k: nat, i: nat, j: nat)
    requires i < j < k <= |ps| && ProposalIds(ps, k).Some? && |ProposalIds(ps, k).value| == k
    ensures Field(ps[i], "proposal_id") != Field(ps[j], "proposal_id")
  {
    hide Field;
    IdsAre(ps, k - 1);
    if j < k - 1 {
      IdsDistinct(ps, k - 1, i, j);
    }
  }

  /** Every accepted proposal is one the events reference, and every reference has a proposal. */
  lemma ReferencedIds(e: Arena, b: Json, head: Json, p: Parts)
    requires Apart(e, b, head, p)
    ensures p.ids == p.scan.refs.Keys
    ensures forall i | 0 <= i < |p.ps| :: ProposalFailures(e, p.scan.refs, p.ps[i]) == Some({})
  {
    hide ProposalFailures, ScanTo, ProposalScan;
    forall i | 0 <= i < |p.ps| ensures ProposalFailures(e, p.scan.refs, p.ps[i]) == Some({}) {
      CleanProposals(e, p.scan.refs, p.ps, |p.ps|, i);
    }
    IdsAre(p.ps, |p.ps|);
    forall id | id in p.ids ensures id in p.scan.refs {
      var i :| 0 <= i < |p.ps| && Field(p.ps[i], "proposal_id") == Some(id);
      CleanProposal(e, p.scan.refs, p.ps[i]);
    }
    assert |p.scan.refs.Keys| == |p.scan.refs|;
    SubsetOfEqualSize(p.ids, p.scan.refs.Keys);
  }

  /** Two rows bound to one reference carry the same output, report and version. */
  lemma SameBinding(e: Arena, refs: map<Json, Json>, p: Json, q: Json)
    requires Sound(e)
    requires ProposalFailures(e, refs, p) == Some({}) && ProposalFailures(e, refs, q) == Some({})
    requires Field(p, "proposal_id") == Field(q, "proposal_id")
    ensures SameProposal(e, p, q)
  {
    hide ProposalFailures, Digest, RoundTrips;
    CleanProposal(e, refs, p);
    CleanProposal(e, refs, q);
    assert TextField(p, "raw_text") == TextField(q, "raw_text");
    DigestInjective(e, e.loads(TextField(p, "report_json").value).value,
                    e.loads(TextField(q, "report_json").value).value);
  }

  /** Two lists over the same identifiers, none repeated, all bound to the same references. */
  lemma SameProposals(e: Arena, refs: map<Json, Json>, xs: seq<Json>, ys: seq<Json>)
    requires Sound(e)
    requires ProposalIds(xs, |xs|) == ProposalIds(ys, |ys|) != None
    requires |ProposalIds(ys, |ys|).value| == |ys|
    requires forall i | 0 <= i < |xs| :: ProposalFailures(e, refs, xs[i]) == Some({})
    requires forall i | 0 <= i < |ys| :: ProposalFailures(e, refs, ys[i]) == Some({})
    ensures OccurIn(e, xs, ys) && DistinctIds(ys)
  {
    hide Sound, ProposalIds, ProposalFailures, SameProposal;
    IdsAre(xs, |xs|);
    IdsAre(ys, |ys|);
    forall i | 0 <= i < |xs| ensures exists j | 0 <= j < |ys| :: SameProposal(e, xs[i], ys[j]) {
      var id := Field(xs[i], "proposal_id").value;
      var j :| 0 <= j < |ys| && Field(ys[j], "proposal_id") == Some(id);
      SameBinding(e, refs, xs[i], ys[j]);
    }
    forall i, j | 0 <= i < j < |ys| ensures Field(ys[i], "proposal_id") != Field(ys[j], "proposal_id") {
      IdsDistinct(ys, |ys|, i, j);
    }
  }

  /** MAIN RESULT. Two bundles accepted with the same head carry the same task, the same events in the
      same order, and the same proposals up to reordering: nothing can be cut, inserted, swapped or edited. */
  lemma SameHeadSameHistory(e: Arena, b1: Json, trusted1: Option<string>, b2: Json, trusted2: Option<string>,
                            head: Json)
    returns (x: Parts, y: Parts)
    requires Sound(e)
    requires Accepted(e, b1, trusted1) && Verify(e, b1, trusted1).value.head == head
    requires Accepted(e, b2, trusted2) && Verify(e, b2, trusted2).value.head == head
    ensures Apart(e, b1, head, x) && Apart(e, b2, head, y)
    ensures SameHistory(e, x, y)
    ensures Field(b1, "task_id") == Field(b2, "task_id") != None
    ensures Field(b1, "version") == Field(b2, "version") && Field(b1, "task_hash") == Field(b2, "task_hash")
  {
    hide Sound, Verify, ScanTo, ProposalScan, ProposalIds, IndexEvent, Digest, ProposalFailures, Rows, SameRow,
         TaskHash, Clean, OccurIn, DistinctIds;
    x := TakeApart(e, b1, trusted1);
    y := TakeApart(e, b2, trusted2);
    ChainBack(e, b1, x.task, x.rows, |x.rows|, b2, y.task, y.rows, |y.rows|);
    SameReferences(e, b1, x.task, x.rows, b2, y.task, y.rows, |x.rows|);
    SameTask(e, b1, x.task, x.rows, b2, y.task, y.rows);
    ReferencedIds(e, b1, head, x);
    ReferencedIds(e, b2, head, y);
    SameProposals(e, x.scan.refs, x.ps, y.ps);
    assert |x.rows| == |y.rows| && |x.ps| == |y.ps|;
  }

  /** The opening event binds the task hash, and the hash binds the task. */
  lemma SameTask(e: Arena, b1: Json, t1: Json, r1: seq<Json>, b2: Json, t2: Json, r2: seq<Json>)
    requires Sound(e)
    requires 0 < |r1| == |r2| && Clean(e, b1, t1, r1, |r1|) && Clean(e, b2, t2, r2, |r2|)
    requires SameRow(e, r1[0], r2[0])
    ensures t1 == t2
    ensures Field(b1, "task_id") == Field(b2, "task_id") != None
  {
    hide Digest, IndexEvent, ScanTo, SourceBroken, TaskHash, InjectiveSha, RoundTrips;
    CleanPrefix(e, b1, t1, r1, 1, |r1|);
    CleanPrefix(e, b2, t2, r2, 1, |r2|);
    var e1 := CleanStep(e, b1, t1, r1, 1);
    var e2 := CleanStep(e, b2, t2, r2, 1);
    OpeningBinds(e, t1, e1);
    OpeningBinds(e, t2, e2);
    TaskHashInjective(e, t1, t2);
  }

  lemma OpeningBinds(e: Arena, task: Json, event: Json)
    requires OpeningFailures(e, task, event) == Some({})
    ensures Field(event, "kind") == Some(Str("task_opened"))
    ensures Field(event, "data").Some? && GetOrNull(Field(event, "data").value, "task_hash") == Str(TaskHash(e, task))
  {
    hide TaskHash, SourceBroken;
    var found := OpeningFailures(e, task, event).value;
    assert TaskBinding !in found;
  }
}
