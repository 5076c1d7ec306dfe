/** ArenaBoundaryMiddleware: the bounded body read, the nesting scan over raw bytes, and the
    replay to the application. */
module NestingScanner {
  import opened Values

  type Byte = b: int | 0 <= b < 256

  const QUOTE: Byte := 34
  const COMMA: Byte := 44
  const COLON: Byte := 58
  const OPEN_BRACKET: Byte := 91
  const BACKSLASH: Byte := 92
  const CLOSE_BRACKET: Byte := 93
  const OPEN_BRACE: Byte := 123
  const CLOSE_BRACE: Byte := 125

  const MAX_BODY := 64000
  const MAX_DEPTH := 64

  // ---------------------------------------------------------------- the automaton

  datatype State = State(depth: int, quoted: bool, escaped: bool)

  const START := State(0, false, false)

  function Step(s: State, b: Byte): State {
    if s.quoted then
      if s.escaped then s.(escaped := false)
      else if b == BACKSLASH then s.(escaped := true)
      else if b == QUOTE then s.(quoted := false)
      else s
    else if b == QUOTE then s.(quoted := true)
    else if b == OPEN_BRACKET || b == OPEN_BRACE then s.(depth := s.depth + 1)
    else if b == CLOSE_BRACKET || b == CLOSE_BRACE then s.(depth := s.depth - 1)
    else s
  }

  function Scan(s: State, bytes: seq<Byte>): State
    decreases |bytes|
  {
    if bytes == [] then s else Scan(Step(s, bytes[0]), bytes[1..])
  }

  function Max(a: int, b: int): int {
    if a < b then b else a
  }

  /** The greatest depth reached on the way through the bytes. */
  function Peak(s: State, bytes: seq<Byte>): (peak: int)
    ensures s.depth <= peak
    decreases |bytes|
  {
    if bytes == [] then s.depth else Max(s.depth, Peak(Step(s, bytes[0]), bytes[1..]))
  }

  lemma {:induction false} ScanConcat(s: State, a: seq<Byte>, b: seq<Byte>)
    ensures Scan(s, a + b) == Scan(Scan(s, a), b)
    ensures Peak(s, a + b) == Max(Peak(s, a), Peak(Scan(s, a), b))
    decreases |a|
  {
    if a == [] {
      assert a + b == b;
    } else {
      assert (a + b)[1..] == a[1..] + b;
      ScanConcat(Step(s, a[0]), a[1..], b);
    }
  }

  lemma ScanOne(s: State, b: Byte)
    ensures Scan(s, [b]) == Step(s, b)
    ensures Peak(s, [b]) == Max(s.depth, Step(s, b).depth)
  {
    assert [b][1..] == [];
  }

  /** The scanning loop, which stops at the first byte that goes deeper than the limit. */
  method ScanBody(bytes: seq<Byte>) returns (tooDeep: bool, depth: int, quoted: bool)
    ensures tooDeep <==> Peak(START, bytes) > MAX_DEPTH
    ensures !tooDeep ==> Scan(START, bytes).depth == depth && Scan(START, bytes).quoted == quoted
  {
    var escaped := false;
    depth, quoted := 0, false;
    var i := 0;
    while i < |bytes|
      invariant 0 <= i <= |bytes|
      invariant Scan(START, bytes) == Scan(State(depth, quoted, escaped), bytes[i..])
      invariant depth <= MAX_DEPTH
      invariant Peak(START, bytes) > MAX_DEPTH <==> Peak(State(depth, quoted, escaped), bytes[i..]) > MAX_DEPTH
    {
      var byte := bytes[i];
      assert bytes[i..][0] == byte && bytes[i..][1..] == bytes[i + 1..];
      if quoted {
        if escaped {
          escaped := false;
        } else if byte == BACKSLASH {
          escaped := true;
        } else if byte == QUOTE {
          quoted := false;
        }
      } else if byte == QUOTE {
        quoted := true;
      } else if byte == OPEN_BRACKET || byte == OPEN_BRACE {
        depth := depth + 1;
        if depth > MAX_DEPTH {
          return true, depth, quoted;
        }
      } else if byte == CLOSE_BRACKET || byte == CLOSE_BRACE {
        depth := depth - 1;
      }
      i := i + 1;
    }
    assert bytes[i..] == [];
    return false, depth, quoted;
  }

  // ---------------------------------------------------------------- JSON texts

  /** Whitespace, and bytes of a number or a literal name: RFC 8259 sections 2, 3 and 6. The scalar alphabet is wider
      than the RFC's. */
  type Blank = b: Byte | b == 32 || b == 9 || b == 10 || b == 13 witness 32
  type ScalarByte = b: Byte |
    b != QUOTE && b != OPEN_BRACKET && b != CLOSE_BRACKET && b != OPEN_BRACE && b != CLOSE_BRACE
    && b != COMMA && b != COLON
    witness 48

  /** RFC 8259 section 7. The escape may be any byte after a backslash; the four digits of \u are plain bytes,
      and so are the bytes of multi-byte UTF-8 characters. */
  type PlainByte = b: Byte | b != QUOTE && b != BACKSLASH witness 97
  datatype Piece = Plain(plain: PlainByte) | Escape(code: Byte)

  /** JSON values as written, with all insignificant whitespace: RFC 8259 sections 3 to 7. */
  datatype Value =
    | Scalar(bytes: seq<ScalarByte>)
    | Text(pieces: seq<Piece>)
    | Array(blank: seq<Blank>, items: Items)
    | Object(blank: seq<Blank>, members: Members)

  datatype Items = NoItems | Item(before: seq<Blank>, value: Value, after: seq<Blank>, rest: Items)

  datatype Members =
    | NoMembers
    | Member(before: seq<Blank>, key: seq<Piece>, beforeColon: seq<Blank>, afterColon: seq<Blank>, value: Value,
             after: seq<Blank>, rest: Members)

  datatype Document = Document(before: seq<Blank>, value: Value, after: seq<Blank>)

  function Pieces(pieces: seq<Piece>): seq<Byte> {
    if pieces == [] then []
    else (match pieces[0] case Plain(b) => [b] case Escape(b) => [BACKSLASH, b]) + Pieces(pieces[1..])
  }

  function Quoted(pieces: seq<Piece>): seq<Byte> {
    [QUOTE] + (Pieces(pieces) + [QUOTE])
  }

  function Render(v: Value): seq<Byte> {
    match v
    case Scalar(bytes) => bytes
    case Text(pieces) => Quoted(pieces)
    case Array(blank, items) => [OPEN_BRACKET] + (blank + (RenderItems(items) + [CLOSE_BRACKET]))
    case Object(blank, members) => [OPEN_BRACE] + (blank + (RenderMembers(members) + [CLOSE_BRACE]))
  }

  function RenderItems(items: Items): seq<Byte> {
    match items
    case NoItems => []
    case Item(before, value, after, rest) =>
      before + (Render(value) + (after + ((if rest == NoItems then [] else [COMMA]) + RenderItems(rest))))
  }

  function RenderMembers(members: Members): seq<Byte> {
    match members
    case NoMembers => []
    case Member(before, key, beforeColon, afterColon, value, after, rest) =>
      before + (Quoted(key) + (beforeColon + ([COLON] + (afterColon
      + (Render(value) + (after + ((if rest == NoMembers then [] else [COMMA]) + RenderMembers(rest))))))))
  }

  function RenderDocument(d: Document): seq<Byte> {
    d.before + (Render(d.value) + d.after)
  }

  /** How many arrays and objects are open at the innermost point: the value's own structure, not its bytes. */
  function Nesting(v: Value): nat {
    match v
    case Scalar(_) => 0
    case Text(_) => 0
    case Array(_, items) => 1 + NestingOfItems(items)
    case Object(_, members) => 1 + NestingOfMembers(members)
  }

  function NestingOfItems(items: Items): nat {
    match items
    case NoItems => 0
    case Item(_, value, _, rest) => Max(Nesting(value), NestingOfItems(rest))
  }

  function NestingOfMembers(members: Members): nat {
    match members
    case NoMembers => 0
    case Member(_, _, _, _, value, _, rest) => Max(Nesting(value), NestingOfMembers(rest))
  }

  // ---------------------------------------------------------------- the scanner computes nesting

  /** From s the bytes lead back to s, climbing at most `climb` and exactly so. */
  ghost predicate Climbs(s: State, bytes: seq<Byte>, climb: nat) {
    Scan(s, bytes) == s && Peak(s, bytes) == s.depth + climb
  }

  lemma ClimbsConcat(s: State, a: seq<Byte>, x: nat, b: seq<Byte>, y: nat)
    requires Climbs(s, a, x) && Climbs(s, b, y)
    ensures Climbs(s, a + b, Max(x, y))
  {
    ScanConcat(s, a, b);
  }

  predicate Neutral(b: Byte) {
    b != QUOTE && b != OPEN_BRACKET && b != CLOSE_BRACKET && b != OPEN_BRACE && b != CLOSE_BRACE
  }

  lemma {:induction false} NeutralClimbs(s: State, bytes: seq<Byte>)
    requires !s.quoted && forall i | 0 <= i < |bytes| :: Neutral(bytes[i])
    ensures Climbs(s, bytes, 0)
    decreases |bytes|
  {
    if bytes != [] {
      assert Neutral(bytes[0]);
      NeutralClimbs(s, bytes[1..]);
    }
  }

  lemma {:induction false} PiecesStayQuoted(s: State, pieces: seq<Piece>)
    requires s.quoted && !s.escaped
    ensures Climbs(s, Pieces(pieces), 0)
    decreases |pieces|
  {
    if pieces != [] {
      PiecesStayQuoted(s, pieces[1..]);
      match pieces[0]
      case Plain(b) =>
        ScanOne(s, b);
        ScanConcat(s, [b], Pieces(pieces[1..]));
      case Escape(b) =>
        ScanOne(s, BACKSLASH);
        ScanOne(s.(escaped := true), b);
        assert [BACKSLASH, b] == [BACKSLASH] + [b];
        ScanConcat(s, [BACKSLASH], [b]);
        ScanConcat(s, [BACKSLASH, b], Pieces(pieces[1..]));
    }
  }

  /** Brackets inside a string do not count, escaped quotes do not end it. */
  lemma QuotedClimbs(s: State, pieces: seq<Piece>)
    requires !s.quoted && !s.escaped
    ensures Climbs(s, Quoted(pieces), 0)
  {
    var inside := s.(quoted := true);
    PiecesStayQuoted(inside, pieces);
    ScanOne(s, QUOTE);
    ScanOne(inside, QUOTE);
    ScanConcat(inside, Pieces(pieces), [QUOTE]);
    ScanConcat(s, [QUOTE], Pieces(pieces) + [QUOTE]);
  }

  /** An opening byte, contents that return to where they started one level down, and a closing byte. */
  lemma EnclosedClimbs(s: State, open: Byte, contents: seq<Byte>, close: Byte, climb: nat)
    requires !s.quoted && !s.escaped
    requires open == OPEN_BRACKET || open == OPEN_BRACE
    requires close == CLOSE_BRACKET || close == CLOSE_BRACE
    requires Climbs(s.(depth := s.depth + 1), contents, climb)
    ensures Climbs(s, [open] + (contents + [close]), 1 + climb)
  {
    var inside := s.(depth := s.depth + 1);
    ScanOne(s, open);
    ScanOne(inside, close);
    ScanConcat(inside, contents, [close]);
    ScanConcat(s, [open], contents + [close]);
  }

  lemma {:induction false} RenderClimbs(s: State, v: Value)
    requires !s.quoted && !s.escaped
    ensures Climbs(s, Render(v), Nesting(v))
    decreases v
  {
    hide Climbs;
    var inside := s.(depth := s.depth + 1);
    match v
    case Scalar(bytes) => NeutralClimbs(s, bytes);
    case Text(pieces) => QuotedClimbs(s, pieces);
    case Array(blank, items) =>
      NeutralClimbs(inside, blank);
      ItemsClimb(inside, items);
      ClimbsConcat(inside, blank, 0, RenderItems(items), NestingOfItems(items));
      EnclosedClimbs(s, OPEN_BRACKET, blank + RenderItems(items), CLOSE_BRACKET, NestingOfItems(items));
      assert (blank + RenderItems(items)) + [CLOSE_BRACKET] == blank + (RenderItems(items) + [CLOSE_BRACKET]);
    case Object(blank, members) =>
      NeutralClimbs(inside, blank);
      MembersClimb(inside, members);
      ClimbsConcat(inside, blank, 0, RenderMembers(members), NestingOfMembers(members));
      EnclosedClimbs(s, OPEN_BRACE, blank + RenderMembers(members), CLOSE_BRACE, NestingOfMembers(members));
      assert (blank + RenderMembers(members)) + [CLOSE_BRACE] == blank + (RenderMembers(members) + [CLOSE_BRACE]);
  }

  lemma {:induction false} ItemsClimb(s: State, items: Items)
    requires !s.quoted && !s.escaped
    ensures Climbs(s, RenderItems(items), NestingOfItems(items))
    decreases items
  {
    hide Climbs;
    match items
    case NoItems => NeutralClimbs(s, []);
    case Item(before, value, after, rest) =>
      RenderClimbs(s, value);
      ItemsClimb(s, rest);
      SeparatedClimbs(s, rest == NoItems, after, RenderItems(rest), NestingOfItems(rest));
      NeutralClimbs(s, before);
      var tail := after + ((if rest == NoItems then [] else [COMMA]) + RenderItems(rest));
      ClimbsConcat(s, Render(value), Nesting(value), tail, NestingOfItems(rest));
      ClimbsConcat(s, before, 0, Render(value) + tail, NestingOfItems(items));
  }

  lemma SeparatedClimbs(s: State, last: bool, after: seq<Blank>, rest: seq<Byte>, climb: nat)
    requires !s.quoted && !s.escaped && Climbs(s, rest, climb)
    ensures Climbs(s, after + ((if last then [] else [COMMA]) + rest), climb)
  {
    hide Climbs;
    var comma: seq<Byte> := if last then [] else [COMMA];
    NeutralClimbs(s, comma);
    NeutralClimbs(s, after);
    ClimbsConcat(s, comma, 0, rest, climb);
    ClimbsConcat(s, after, 0, comma + rest, climb);
  }

  lemma {:induction false} MembersClimb(s: State, members: Members)
    requires !s.quoted && !s.escaped
    ensures Climbs(s, RenderMembers(members), NestingOfMembers(members))
    decreases members
  {
    hide Climbs;
    match members
    case NoMembers => NeutralClimbs(s, []);
    case Member(before, key, beforeColon, afterColon, value, after, rest) =>
      RenderClimbs(s, value);
      MembersClimb(s, rest);
      SeparatedClimbs(s, rest == NoMembers, after, RenderMembers(rest), NestingOfMembers(rest));
      var tail := after + ((if rest == NoMembers then [] else [COMMA]) + RenderMembers(rest));
      ClimbsConcat(s, Render(value), Nesting(value), tail, NestingOfMembers(rest));
      MemberPrefixClimbs(s, before, key, beforeColon, afterColon, Render(value) + tail, NestingOfMembers(members));
  }

  lemma MemberPrefixClimbs(s: State,
                           before: seq<Blank>, key: seq<Piece>, beforeColon: seq<Blank>, afterColon: seq<Blank>,
                           rest: seq<Byte>, climb: nat)
    requires !s.quoted && !s.escaped && Climbs(s, rest, climb)
    ensures Climbs(s, before + (Quoted(key) + (beforeColon + ([COLON] + (afterColon + rest)))), climb)
  {
    hide Climbs, Quoted;
    NeutralClimbs(s, before);
    NeutralClimbs(s, beforeColon);
    NeutralClimbs(s, afterColon);
    NeutralClimbs(s, [COLON]);
    QuotedClimbs(s, key);
    ClimbsConcat(s, afterColon, 0, rest, climb);
    ClimbsConcat(s, [COLON], 0, afterColon + rest, climb);
    ClimbsConcat(s, beforeColon, 0, [COLON] + (afterColon + rest), climb);
    ClimbsConcat(s, Quoted(key), 0, beforeColon + ([COLON] + (afterColon + rest)), climb);
    ClimbsConcat(s, before, 0, Quoted(key) + (beforeColon + ([COLON] + (afterColon + rest))), climb);
  }

  /** MAIN RESULT. On every JSON text the scan reaches exactly the nesting of the value and ends where it began. */
  lemma ScanComputesNesting(d: Document)
    ensures Peak(START, RenderDocument(d)) == Nesting(d.value)
    ensures Scan(START, RenderDocument(d)) == START
  {
    NeutralClimbs(START, d.before);
    NeutralClimbs(START, d.after);
    RenderClimbs(START, d.value);
    ClimbsConcat(START, Render(d.value), Nesting(d.value), d.after, 0);
    ClimbsConcat(START, d.before, 0, Render(d.value) + d.after, Nesting(d.value));
  }

  // ---------------------------------------------------------------- the request

  datatype Message = Disconnect | Chunk(body: seq<Byte>, more: bool)

  /** Waiting: the client has not sent enough yet. Gone: it disconnected. The other two refusals answer 413. */
  datatype Outcome = Waiting | Gone | TooLarge | TooDeep | Forward(messages: seq<Message>)

  function Body(messages: seq<Message>): seq<Byte> {
    if messages == [] then []
    else
      var last := messages[|messages| - 1];
      Body(messages[..|messages| - 1]) + if last.Chunk? then last.body else []
  }

  /** Reading ends with message n: a disconnect, a body that is now too large, or the last chunk. */
  predicate Stops(incoming: seq<Message>, n: nat)
    requires n < |incoming|
  {
    incoming[n].Disconnect? || |Body(incoming[..n + 1])| > MAX_BODY || !incoming[n].more
  }

  /** What is decided when reading ends with message n. */
  function Decision(incoming: seq<Message>, n: nat): Outcome
    requires n < |incoming|
  {
    var body := Body(incoming[..n + 1]);
    if incoming[n].Disconnect? then Gone
    else if |body| > MAX_BODY then TooLarge
    else if Peak(START, body) > MAX_DEPTH then TooDeep
    else Forward(incoming[..n + 1])
  }

  /** The read loop and the scan; `taken` is how many messages were received. */
  method Intake(incoming: seq<Message>) returns (outcome: Outcome, taken: nat)
    ensures outcome == Waiting <==> forall n | 0 <= n < |incoming| :: !Stops(incoming, n)
    ensures outcome != Waiting ==>
              && 0 < taken <= |incoming| && Stops(incoming, taken - 1)
              && (forall n | 0 <= n < taken - 1 :: !Stops(incoming, n))
              && outcome == Decision(incoming, taken - 1)
  {
    hide Peak;
    var messages, size: nat := [], 0;
    taken := 0;
    while taken < |incoming|
      invariant 0 <= taken <= |incoming|
      invariant messages == incoming[..taken] && size == |Body(messages)| <= MAX_BODY
      invariant forall n | 0 <= n < taken :: !Stops(incoming, n)
    {
      var message := incoming[taken];
      taken := taken + 1;
      assert incoming[..taken][..taken - 1] == messages;
      if message.Disconnect? {
        assert Stops(incoming, taken - 1);
        return Gone, taken;
      }
      size := size + |message.body|;
      if size > MAX_BODY {
        assert Stops(incoming, taken - 1);
        return TooLarge, taken;
      }
      messages := messages + [message];
      if !message.more {
        assert Stops(incoming, taken - 1);
        var tooDeep, _, _ := ScanBody(Body(messages));
        return if tooDeep then TooDeep else Forward(messages), taken;
      }
    }
    return Waiting, taken;
  }

  lemma {:induction false} BodyGrows(messages: seq<Message>, n: nat)
    requires n <= |messages|
    ensures |Body(messages[..n])| <= |Body(messages)|
    decreases |messages|
  {
    if n < |messages| {
      assert messages[..|messages| - 1][..n] == messages[..n];
      BodyGrows(messages[..|messages| - 1], n);
    } else {
      assert messages[..n] == messages;
    }
  }

  /** MAIN RESULT. However a JSON text of at most 64000 bytes is cut into messages, reading ends with the last of
      them, and the request is forwarded unchanged exactly when the text nests at most 64 deep. */
  lemma SplitDoesNotMatter(d: Document, messages: seq<Message>)
    requires messages != [] && Body(messages) == RenderDocument(d) && |RenderDocument(d)| <= 64000
    requires forall i | 0 <= i < |messages| :: messages[i].Chunk? && messages[i].more == (i < |messages| - 1)
    ensures var last := |messages| - 1;
            && Stops(messages, last) && (forall n | 0 <= n < last :: !Stops(messages, n))
            && Decision(messages, last) == if Nesting(d.value) <= 64 then Forward(messages) else TooDeep
  {
    hide Peak, Scan, RenderDocument, Nesting, Body;
    KeepsReading(messages);
    assert messages[..|messages|] == messages;
    ScanComputesNesting(d);
  }

  lemma KeepsReading(messages: seq<Message>)
    requires messages != [] && |Body(messages)| <= MAX_BODY
    requires forall i | 0 <= i < |messages| :: messages[i].Chunk? && messages[i].more == (i < |messages| - 1)
    ensures forall n | 0 <= n < |messages| - 1 :: !Stops(messages, n)
  {
    forall n | 0 <= n < |messages| - 1 ensures !Stops(messages, n) {
      BodyGrows(messages, n + 1);
      assert messages[n].Chunk? && messages[n].more;
    }
  }

  lemma {:induction false} BodyJoins(a: seq<Message>, b: seq<Message>, body: seq<Byte>, more: bool)
    ensures Body(a + b) == Body(a) + Body(b)
    ensures Body([]) == [] && Body([Chunk(body, more)]) == body && Body([Disconnect]) == []
    decreases |b|
  {
    assert [Chunk(body, more)][..0] == [] && [Disconnect][..0] == [];
    if b == [] {
      assert a + b == a;
    } else {
      var n := |b| - 1;
      assert (a + b)[..|a + b| - 1] == a + b[..n] && (a + b)[|a + b| - 1] == b[n];
      BodyJoins(a, b[..n], body, more);
    }
  }

  /** A prefix of the bytes opens more than 64 levels. */
  ghost predicate DeeperThanAllowed(bytes: seq<Byte>) {
    exists k :: 0 <= k <= |bytes| && Scan(START, bytes[..k]).depth > 64
  }

  lemma {:induction false} PeakIsPrefix(s: State, bytes: seq<Byte>, limit: int)
    ensures Peak(s, bytes) > limit <==> exists k :: 0 <= k <= |bytes| && Scan(s, bytes[..k]).depth > limit
    decreases |bytes|
  {
    if bytes == [] {
      assert bytes[..0] == [];
    } else {
      PeakIsPrefix(Step(s, bytes[0]), bytes[1..], limit);
      if k :| 0 <= k <= |bytes| && Scan(s, bytes[..k]).depth > limit {
        if k > 0 {
          assert bytes[..k][1..] == bytes[1..][..k - 1] && bytes[..k][0] == bytes[0];
          assert Scan(Step(s, bytes[0]), bytes[1..][..k - 1]).depth > limit;
        }
      }
      if k :| 0 <= k <= |bytes[1..]| && Scan(Step(s, bytes[0]), bytes[1..][..k]).depth > limit {
        assert bytes[..k + 1][1..] == bytes[1..][..k] && bytes[..k + 1][0] == bytes[0];
        assert Scan(s, bytes[..k + 1]).depth > limit;
      }
      assert bytes[..0] == [];
    }
  }

  /** MAIN RESULT. Whatever the bytes, a request whose chunks all arrive is refused as too large when they are more than
      64000 in all, and otherwise refused as too deep exactly when some prefix opens more than 64 levels. */
  lemma AnyBodyIsBounded(messages: seq<Message>) returns (n: nat)
    requires messages != []
    requires forall i | 0 <= i < |messages| :: messages[i].Chunk? && messages[i].more == (i < |messages| - 1)
    ensures n < |messages| && Stops(messages, n) && forall k | 0 <= k < n :: !Stops(messages, k)
    ensures Decision(messages, n)
            == if |Body(messages)| > 64000 then TooLarge
               else if DeeperThanAllowed(Body(messages)) then TooDeep else Forward(messages)
  {
    hide Peak, Scan, Body;
    var last := |messages| - 1;
    assert messages[..|messages|] == messages;
    if |Body(messages)| <= 64000 {
      n := last;
      KeepsReading(messages);
      PeakIsPrefix(START, Body(messages), 64);
    } else {
      n := 0;
      while |Body(messages[..n + 1])| <= 64000
        invariant n <= last && forall k | 0 <= k < n :: !Stops(messages, k)
        decreases last - n
      {
        assert n < last;
        n := n + 1;
      }
    }
  }

  // ---------------------------------------------------------------- replay

  /** bounded_receive: what was read is handed out again, then the client is read directly. */
  class BoundedReceive {
    const messages: seq<Message>
    var index: nat
    var client: seq<Message>

    ghost predicate Valid()
      reads this
    {
      index <= |messages|
    }

    /** What the application has still to receive. */
    ghost function Stream(): seq<Message>
      reads this
      requires Valid()
    {
      messages[index..] + client
    }

    constructor (messages: seq<Message>, client: seq<Message>)
      ensures Valid() && Stream() == messages + client
    {
      this.messages, this.client := messages, client;
      index := 0;
    }

    /** None while the client has sent nothing more. */
    method Receive() returns (message: Option<Message>)
      requires Valid()
      modifies this
      ensures Valid()
      ensures message == if old(Stream()) == [] then None else Some(old(Stream())[0])
      ensures Stream() == if old(Stream()) == [] then [] else old(Stream())[1..]
    {
      if index < |messages| {
        message := Some(messages[index]);
        index := index + 1;
      } else if client != [] {
        message := Some(client[0]);
        client := client[1..];
      } else {
        message := None;
      }
    }
  }

  /** __call__ for a request under /api/arena: a forwarded application receives the original stream from its start. */
  method Call(incoming: seq<Message>) returns (outcome: Outcome, app: BoundedReceive?)
    ensures outcome.Forward? <==> app != null
    ensures app != null ==> fresh(app) && app.Valid() && app.Stream() == incoming
  {
    var taken;
    outcome, taken := Intake(incoming);
    app := null;
    if outcome.Forward? {
      app := new BoundedReceive(outcome.messages, incoming[taken..]);
      assert incoming[..taken] + incoming[taken..] == incoming;
    }
  }
}
