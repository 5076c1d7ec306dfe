/** EvidenceLedger: a hash-chained file of records, one JSON object per line. */
module Ledger {
  import opened Values

  datatype Record = Record(
    index: int, recordId: string, occurredAt: string, kind: string, source: string,
    payload: Json, payloadHash: string, previousHash: string, recordHash: string)

  /** A line of the file. Reading a line that is not a record raises. */
  datatype Line = Blank | Garbage | Entry(record: Record)

  datatype LedgerError =
    | IndexMismatch(at: int, index: int) | PayloadHashMismatch(index: int)
    | PreviousHashMismatch(index: int) | RecordHashMismatch(index: int)

  datatype Report = Report(records: nat, head: string, errors: seq<LedgerError>) {
    predicate Valid() {
      errors == []
    }
  }

  /** sha256 of canonical JSON; never all zeros. */
  ghost predicate SoundHash(hash: Json -> string) {
    && (forall a, b {:trigger hash(a), hash(b)} :: hash(a) == hash(b) ==> a == b)
    && (forall a {:trigger hash(a)} :: hash(a) != GENESIS)
  }

  function Unsigned(r: Record): Json {
    Obj(map["index" := Num(r.index), "occurred_at" := Str(r.occurredAt), "kind" := Str(r.kind),
            "source" := Str(r.source),
            "payload_hash" := Str(r.payloadHash), "previous_hash" := Str(r.previousHash)])
  }

  function Records(lines: seq<Line>): Option<seq<Record>> {
    if lines == [] then Some([])
    else
      var before :- Records(lines[..|lines| - 1]);
      match lines[|lines| - 1]
      case Blank => Some(before)
      case Garbage => None
      case Entry(r) => Some(before + [r])
  }

  /** _last: index and hash of the last record, or those the first record follows. */
  function LastOf(records: seq<Record>): (int, string) {
    if records == [] then (-1, GENESIS) else (records[|records| - 1].index, records[|records| - 1].recordHash)
  }

  function NextRecord(hash: Json -> string, last: (int, string), kind: string, source: string, payload: Json,
                      now: string): Record {
    var draft := Record(last.0 + 1, "", now, kind, source, payload, hash(payload), last.1, "");
    var digest := hash(Unsigned(draft));
    draft.(recordId := "ev_" + if |digest| <= 20 then digest else digest[..20], recordHash := digest)
  }

  function NoteIf(errors: seq<LedgerError>, bad: bool, error: LedgerError): seq<LedgerError> {
    if bad then errors + [error] else errors
  }

  function ErrorsAfter(hash: Json -> string, errors: seq<LedgerError>, r: Record, count: int,
                       expected: string): seq<LedgerError> {
    NoteIf(
      NoteIf(
        NoteIf(
          NoteIf(errors, r.index != count, IndexMismatch(count, r.index)),
          r.payloadHash != hash(r.payload), PayloadHashMismatch(r.index)),
        r.previousHash != expected, PreviousHashMismatch(r.index)),
      r.recordHash != hash(Unsigned(r)), RecordHashMismatch(r.index))
  }

  /** The errors verify() collects over the whole file. */
  function Errors(hash: Json -> string, records: seq<Record>): seq<LedgerError> {
    if records == [] then []
    else
      var n := |records| - 1;
      ErrorsAfter(hash, Errors(hash, records[..n]), records[n], n, LastOf(records[..n]).1)
  }

  class EvidenceLedger {
    const hash: Json -> string
    const redact: Json -> Json
    var lines: seq<Line>

    constructor (hash: Json -> string, redact: Json -> Json)
      ensures this.hash == hash && this.redact == redact && lines == []
    {
      this.hash, this.redact, lines := hash, redact, [];
    }

    method Last() returns (r: Option<(int, string)>)
      ensures r == if Records(lines).None? then None else Some(LastOf(Records(lines).value))
    {
      var lastIndex, lastHash := -1, GENESIS;
      var i := 0;
      while i < |lines|
        invariant 0 <= i <= |lines|
        invariant Records(lines[..i]).Some? && LastOf(Records(lines[..i]).value) == (lastIndex, lastHash)
      {
        assert lines[..i + 1][..i] == lines[..i];
        match lines[i] {
          case Blank =>
          case Garbage =>
            RecordsStop(lines, i + 1);
            return None;
          case Entry(record) =>
            lastIndex, lastHash := record.index, record.recordHash;
        }
        i := i + 1;
      }
      assert lines[..i] == lines;
      r := Some((lastIndex, lastHash));
    }

    method Append(kind: string, source: string, payload: Json, now: string) returns (r: Option<Record>)
      modifies this
      ensures r == if Records(old(lines)).None? then None
                   else Some(NextRecord(hash, LastOf(Records(old(lines)).value), kind, source, redact(payload), now))
      ensures lines == if r.None? then old(lines) else old(lines) + [Entry(r.value)]
    {
      var clean := redact(payload);
      var found := Last();
      var last :- found;
      var draft := Record(last.0 + 1, "", now, kind, source, clean, hash(clean), last.1, "");
      var digest := hash(Unsigned(draft));
      var record := draft.(recordId := "ev_" + if |digest| <= 20 then digest else digest[..20], recordHash := digest);
      lines := lines + [Entry(record)];
      r := Some(record);
    }

    method Verify() returns (r: Option<Report>)
      ensures r == if Records(lines).None? then None
                   else Some(Report(|Records(lines).value|, LastOf(Records(lines).value).1,
                                    Errors(hash, Records(lines).value)))
    {
      var expected, count, errors: seq<LedgerError> := GENESIS, 0, [];
      var i := 0;
      while i < |lines|
        invariant 0 <= i <= |lines|
        invariant Records(lines[..i]).Some?
        invariant var rs := Records(lines[..i]).value;
                  count == |rs| && expected == LastOf(rs).1 && errors == Errors(hash, rs)
      {
        assert lines[..i + 1][..i] == lines[..i];
        match lines[i] {
          case Blank =>
          case Garbage =>
            RecordsStop(lines, i + 1);
            return None;
          case Entry(record) =>
            ghost var before := Records(lines[..i]).value;
            assert (before + [record])[..count] == before;
            errors := NoteIf(errors, record.index != count, IndexMismatch(count, record.index));
            errors := NoteIf(errors, record.payloadHash != hash(record.payload), PayloadHashMismatch(record.index));
            errors := NoteIf(errors, record.previousHash != expected, PreviousHashMismatch(record.index));
            errors := NoteIf(errors, record.recordHash != hash(Unsigned(record)), RecordHashMismatch(record.index));
            expected := record.recordHash;
            count := count + 1;
        }
        i := i + 1;
      }
      assert lines[..i] == lines;
      r := Some(Report(count, expected, errors));
    }
  }

  lemma {:induction false} RecordsStop(lines: seq<Line>, k: nat)
    requires k <= |lines| && Records(lines[..k]).None?
    ensures Records(lines).None?
    decreases |lines|
  {
    if k == |lines| {
      assert lines[..k] == lines;
    } else {
      assert lines[..|lines| - 1][..k] == lines[..k];
      RecordsStop(lines[..|lines| - 1], k);
    }
  }

  // ---------------------------------------------------------------- what a valid ledger binds

  ghost predicate Linked(hash: Json -> string, r: Record, n: int, previous: string) {
    r.index == n && r.payloadHash == hash(r.payload) && r.previousHash == previous && r.recordHash == hash(Unsigned(r))
  }

  /** verify() finds nothing exactly when every record is in place, hashed, and linked to its predecessor. */
  lemma {:induction false} ValidIffLinked(hash: Json -> string, records: seq<Record>)
    ensures Errors(hash, records) == []
            <==> forall i | 0 <= i < |records| :: Linked(hash, records[i], i, LastOf(records[..i]).1)
  {
    hide Unsigned, LastOf;
    if records != [] {
      var n := |records| - 1;
      var before := records[..n];
      ValidIffLinked(hash, before);
      assert forall i | 0 <= i < n :: before[..i] == records[..i];
    }
  }

  /** Everything but the identifier, which no hash covers. */
  ghost predicate EqualUpToId(a: seq<Record>, b: seq<Record>) {
    |a| == |b| && forall i | 0 <= i < |a| :: a[i].(recordId := "") == b[i].(recordId := "")
  }

  lemma UnsignedInjective(a: Record, b: Record)
    requires Unsigned(a) == Unsigned(b)
    ensures a.index == b.index && a.occurredAt == b.occurredAt && a.kind == b.kind && a.source == b.source
            && a.payloadHash == b.payloadHash && a.previousHash == b.previousHash
  {
    var x, y := Unsigned(a).fields, Unsigned(b).fields;
    assert x["index"] == y["index"] && x["occurred_at"] == y["occurred_at"] && x["kind"] == y["kind"]
           && x["source"] == y["source"] && x["payload_hash"] == y["payload_hash"]
              && x["previous_hash"] == y["previous_hash"];
  }

  lemma LastLinked(hash: Json -> string, a: seq<Record>)
    requires a != [] && Errors(hash, a) == []
    ensures Linked(hash, a[|a| - 1], |a| - 1, LastOf(a[..|a| - 1]).1) && Errors(hash, a[..|a| - 1]) == []
  {
    hide Unsigned;
  }

  lemma {:induction false} SameHeadBackwards(hash: Json -> string, a: seq<Record>, b: seq<Record>)
    requires SoundHash(hash) && Errors(hash, a) == [] && Errors(hash, b) == []
    requires LastOf(a).1 == LastOf(b).1
    ensures EqualUpToId(a, b)
  {
    hide Unsigned, Errors;
    if a != [] {
      LastLinked(hash, a);
    }
    if b != [] {
      LastLinked(hash, b);
    }
    if a != [] && b != [] {
      var m, n := |a| - 1, |b| - 1;
      UnsignedInjective(a[m], b[n]);
      SameHeadBackwards(hash, a[..m], b[..n]);
      assert forall i | 0 <= i < m :: a[i] == a[..m][i] && b[i] == b[..m][i];
    }
  }

  lemma {:induction false} IdIsNotCovered(hash: Json -> string, a: seq<Record>, b: seq<Record>)
    requires EqualUpToId(a, b)
    ensures Errors(hash, a) == Errors(hash, b) && LastOf(a) == LastOf(b)
  {
    if a != [] {
      var n := |a| - 1;
      assert a[n].(recordId := "") == b[n].(recordId := "");
      IdIsNotCovered(hash, a[..n], b[..n]);
    }
  }

  /** MAIN RESULT. Against the head of a valid ledger, another file passes exactly when it holds the same
      records in the same order, up to their record_id. */
  lemma HeadPinsLedger(hash: Json -> string, genuine: seq<Record>, other: seq<Record>)
    requires SoundHash(hash) && Errors(hash, genuine) == []
    ensures Errors(hash, other) == [] && LastOf(other).1 == LastOf(genuine).1 <==> EqualUpToId(genuine, other)
  {
    if Errors(hash, other) == [] && LastOf(other).1 == LastOf(genuine).1 {
      SameHeadBackwards(hash, genuine, other);
    }
    if EqualUpToId(genuine, other) {
      IdIsNotCovered(hash, genuine, other);
    }
  }

  lemma RecordsAppend(lines: seq<Line>, r: Record)
    requires Records(lines).Some?
    ensures Records(lines + [Entry(r)]) == Some(Records(lines).value + [r])
  {
    assert (lines + [Entry(r)])[..|lines|] == lines;
  }

  /** Appending to a valid ledger leaves it valid. */
  lemma AppendKeepsValid(hash: Json -> string, records: seq<Record>, kind: string, source: string, payload: Json,
                         now: string)
    requires Errors(hash, records) == []
    ensures Errors(hash, records + [NextRecord(hash, LastOf(records), kind, source, payload, now)]) == []
  {
    hide Unsigned;
    var r := NextRecord(hash, LastOf(records), kind, source, payload, now);
    ValidIffLinked(hash, records);
    assert (records + [r])[..|records|] == records;
    UnsignedIgnoresId(r, "", "");
  }

  /** What append is called with. */
  datatype Post = Post(kind: string, source: string, payload: Json, now: string)

  /** The lines of the file after a run of append calls. */
  function Posted(hash: Json -> string, redact: Json -> Json, lines: seq<Line>, posts: seq<Post>): seq<Line> {
    if posts == [] then lines
    else
      var before, p := Posted(hash, redact, lines, posts[..|posts| - 1]), posts[|posts| - 1];
      if Records(before).None? then before
      else before + [Entry(NextRecord(hash, LastOf(Records(before).value), p.kind, p.source, redact(p.payload), p.now))]
  }

  /** MAIN RESULT, over every run of append: a valid ledger stays valid, and gains one record for each call, behind the
      records it had. */
  lemma {:induction false} RunKeepsValid(hash: Json -> string, redact: Json -> Json, lines: seq<Line>, posts: seq<Post>)
    requires Records(lines).Some? && Errors(hash, Records(lines).value) == []
    ensures var after := Records(Posted(hash, redact, lines, posts));
            after.Some? && Errors(hash, after.value) == []
            && Records(lines).value <= after.value && |after.value| == |Records(lines).value| + |posts|
    decreases |posts|
  {
    hide NextRecord, LastOf, Errors;
    if posts != [] {
      var before, p := Posted(hash, redact, lines, posts[..|posts| - 1]), posts[|posts| - 1];
      RunKeepsValid(hash, redact, lines, posts[..|posts| - 1]);
      var records := Records(before).value;
      RecordsAppend(before, NextRecord(hash, LastOf(records), p.kind, p.source, redact(p.payload), p.now));
      AppendKeepsValid(hash, records, p.kind, p.source, redact(p.payload), p.now);
    }
  }

  lemma UnsignedIgnoresId(r: Record, id: string, h: string)
    ensures Unsigned(r.(recordId := id, recordHash := h)) == Unsigned(r)
  {
  }

  // ---------------------------------------------------------------- what is read and recorded

  /** Reading two stretches of lines; a blank line adds nothing and garbage raises. */
  lemma {:induction false} RecordsAreEntries(a: seq<Line>, b: seq<Line>, r: Record)
    ensures Records(a + b)
            == if Records(a).None? || Records(b).None? then None else Some(Records(a).value + Records(b).value)
    ensures Records([]) == Some([]) && Records([Blank]) == Some([]) && Records([Garbage]) == None
    ensures Records([Entry(r)]) == Some([r])
    decreases |b|
  {
    OneLine(r);
    if b == [] {
      assert a + b == a;
      assert Records(a).Some? ==> Records(a).value + [] == Records(a).value;
    } else {
      var n := |b| - 1;
      assert (a + b)[..|a + b| - 1] == a + b[..n] && (a + b)[|a + b| - 1] == b[n];
      RecordsAreEntries(a, b[..n], r);
      if Records(a).Some? && Records(b).Some? && b[n].Entry? {
        var x, y := Records(a).value, Records(b[..n]).value;
        assert (x + y) + [b[n].record] == x + (y + [b[n].record]);
      }
    }
  }

  lemma OneLine(r: Record)
    ensures Records([]) == Some([]) && Records([Blank]) == Some([]) && Records([Garbage]) == None
    ensures Records([Entry(r)]) == Some([r])
  {
    assert [Blank][..0] == [] && [Garbage][..0] == [] && [Entry(r)][..0] == [];
    assert Records([]) == Some([]);
    var none: seq<Record> := [];
    assert none + [r] == [r];
  }

  /** What one call of append must leave behind: what it was given, redacted, and the identifier from the hash. */
  ghost predicate Tells(hash: Json -> string, redact: Json -> Json, r: Record, p: Post, n: int) {
    && r.index == n && r.occurredAt == p.now && r.kind == p.kind && r.source == p.source
    && r.payload == redact(p.payload) && r.payloadHash == hash(redact(p.payload))
    && r.recordId == "ev_" + if 20 < |r.recordHash| then r.recordHash[..20] else r.recordHash
  }

  lemma NextTells(hash: Json -> string, redact: Json -> Json, records: seq<Record>, p: Post)
    requires Errors(hash, records) == []
    ensures Tells(hash, redact, NextRecord(hash, LastOf(records), p.kind, p.source, redact(p.payload), p.now), p,
                  |records|)
  {
    hide Unsigned, Errors;
    LastIndex(hash, records);
    hide LastOf;
  }

  lemma LastIndex(hash: Json -> string, records: seq<Record>)
    requires Errors(hash, records) == []
    ensures LastOf(records).0 == |records| - 1
  {
    hide Unsigned, Errors;
    if records != [] {
      LastLinked(hash, records);
    }
  }

  /** MAIN RESULT, over every run of append to a valid ledger: the k-th call's record holds the time, kind, source and
      redacted payload of that call, at the next index. */
  lemma {:induction false} RunTellsPosts(hash: Json -> string, redact: Json -> Json, lines: seq<Line>,
                                         posts: seq<Post>, k: nat)
    requires Records(lines).Some? && Errors(hash, Records(lines).value) == [] && k < |posts|
    ensures var before, after := Records(lines).value, Records(Posted(hash, redact, lines, posts));
            after.Some? && |after.value| == |before| + |posts|
            && Tells(hash, redact, after.value[|before| + k], posts[k], |before| + k)
    decreases |posts|
  {
    hide NextRecord, LastOf, Errors, Tells;
    var n, before := |posts| - 1, Records(lines).value;
    var earlier, p := Posted(hash, redact, lines, posts[..n]), posts[n];
    RunKeepsValid(hash, redact, lines, posts[..n]);
    RunKeepsValid(hash, redact, lines, posts);
    var records := Records(earlier).value;
    var r := NextRecord(hash, LastOf(records), p.kind, p.source, redact(p.payload), p.now);
    RecordsAppend(earlier, r);
    if k == n {
      NextTells(hash, redact, records, p);
    } else {
      RunTellsPosts(hash, redact, lines, posts[..n], k);
    }
  }

  lemma InNote(errors: seq<LedgerError>, bad: bool, error: LedgerError, x: LedgerError)
    ensures x in NoteIf(errors, bad, error) <==> x in errors || (bad && x == error)
  {
  }

  /** What is wrong with the record at place n. */
  ghost predicate Faulty(hash: Json -> string, records: seq<Record>, n: nat, x: LedgerError)
    requires n < |records|
  {
    var r := records[n];
    match x
    case IndexMismatch(at, index) => at == n && index == r.index && r.index != n
    case PayloadHashMismatch(index) => index == r.index && r.payloadHash != hash(r.payload)
    case PreviousHashMismatch(index) =>
      index == r.index && r.previousHash != if n == 0 then GENESIS else records[n - 1].recordHash
    case RecordHashMismatch(index) => index == r.index && r.recordHash != hash(Unsigned(r))
  }

  lemma FaultyIs(hash: Json -> string, records: seq<Record>, n: nat, x: LedgerError)
    requires n < |records|
    ensures var r := records[n];
            Faulty(hash, records, n, x)
            <==> || (r.index != n && x == IndexMismatch(n, r.index))
                 || (r.payloadHash != hash(r.payload) && x == PayloadHashMismatch(r.index))
                 || (r.previousHash != LastOf(records[..n]).1 && x == PreviousHashMismatch(r.index))
                 || (r.recordHash != hash(Unsigned(r)) && x == RecordHashMismatch(r.index))
  {
    hide Unsigned;
  }

  lemma LastFaults(hash: Json -> string, records: seq<Record>, x: LedgerError)
    requires records != []
    ensures var n := |records| - 1;
            x in Errors(hash, records) <==> x in Errors(hash, records[..n]) || Faulty(hash, records, n, x)
  {
    hide Unsigned, NoteIf, Faulty, LastOf;
    var n := |records| - 1;
    var r, before, expected := records[n], Errors(hash, records[..n]), LastOf(records[..n]).1;
    FaultyIs(hash, records, n, x);
    var a := NoteIf(before, r.index != n, IndexMismatch(n, r.index));
    var b := NoteIf(a, r.payloadHash != hash(r.payload), PayloadHashMismatch(r.index));
    var c := NoteIf(b, r.previousHash != expected, PreviousHashMismatch(r.index));
    InNote(before, r.index != n, IndexMismatch(n, r.index), x);
    InNote(a, r.payloadHash != hash(r.payload), PayloadHashMismatch(r.index), x);
    InNote(b, r.previousHash != expected, PreviousHashMismatch(r.index), x);
    InNote(c, r.recordHash != hash(Unsigned(r)), RecordHashMismatch(r.index), x);
  }

  lemma EarlierFaults(hash: Json -> string, records: seq<Record>, n: nat, k: nat, x: LedgerError)
    requires k < n <= |records|
    ensures Faulty(hash, records[..n], k, x) <==> Faulty(hash, records, k, x)
  {
    hide Unsigned;
  }

  /** MAIN RESULT. verify() reports exactly the faults of the records. */
  lemma {:induction false} ErrorsAreFaults(hash: Json -> string, records: seq<Record>, x: LedgerError)
    ensures x in Errors(hash, records) <==> exists n: nat :: n < |records| && Faulty(hash, records, n, x)
  {
    hide Faulty, ErrorsAfter;
    if records != [] {
      var n := |records| - 1;
      ErrorsAreFaults(hash, records[..n], x);
      LastFaults(hash, records, x);
      forall k: nat | k < n ensures Faulty(hash, records[..n], k, x) <==> Faulty(hash, records, k, x) {
        EarlierFaults(hash, records, n, k, x);
      }
    }
  }
}
