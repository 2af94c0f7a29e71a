/** Pipelined requests: printed one after the other, delivered in whatever chunks, they are framed and
    parsed back into what was meant, in order. */
module RequestStreams {
  import opened Bytes
  import opened UrlCodec
  import opened Framing
  import opened HeaderBlocks
  import opened HttpRequests
  import opened RequestRouters

  /** White space a client may put around the parts of a header line. */
  predicate Padding(t: Text) {
    AllOf(t, IsSpace) && '\r' !in t
  }

  /** A header line: key and value, and the white space before and after each. */
  datatype Header = Header(left: Text, key: Text, mid: Text, lead: Text, value: Text, trail: Text)
  {
    predicate Legal() {
      && key != [] && Trimmed(key) && ':' !in key && '\r' !in key && Trimmed(value) && '\r' !in value
      && Padding(left) && Padding(mid) && Padding(lead) && Padding(trail)
    }

    function Line(): Text {
      (left + key + mid) + ":" + (lead + value + trail)
    }
  }

  /** A request as a client means it; the target is spelt in pieces, each percent-encoded or not. */
  datatype Message = Message(verb: HttpMethod, target: seq<Piece>, version: Text, headers: seq<Header>, body: Text)
  {
    function RequestLine(): Text {
      VerbName(verb) + " " + PrintAll(target) + " HTTP/" + version
    }

    function Lines(): seq<Text> {
      [RequestLine()] + HeaderLines(headers)
    }

    function Head(): Text {
      Block(Lines())
    }

    function Print(): Text {
      Head() + body
    }

    /** Some header line announces the body, and the key occurs nowhere before it. */
    ghost predicate AnnouncesBody() {
      exists k :: 1 <= k < |Lines()| && AnnouncingLine(Lines()[k], |body|) && SilentLines(Lines()[..k])
    }
  }

  /** A message a client may send; its length fits `size_t`. */
  ghost predicate WellFormed(m: Message) {
    && m.verb != BAD_METHOD
    && AllLegal(m.target) && PrintAll(m.target) != [] && ' ' !in PrintAll(m.target) && '\r' !in PrintAll(m.target)
    && m.version != [] && AllOf(m.version, IsVersionChar)
    && (forall h :: h in m.headers ==> h.Legal())
    && (m.AnnouncesBody() || (SilentLines(m.Lines()) && m.body == []))
    && |m.Print()| < SIZE_MODULUS
  }

  function VerbName(verb: HttpMethod): Text {
    match verb
    case GET => "GET"
    case POST => "POST"
    case PUT => "PUT"
    case DELETE => "DELETE"
    case BAD_METHOD => "UNKNOWN"
  }

  function HeaderLines(headers: seq<Header>): (r: seq<Text>)
    ensures |r| == |headers| && forall i :: 0 <= i < |headers| ==> r[i] == headers[i].Line()
  {
    seq(|headers|, i requires 0 <= i < |headers| => headers[i].Line())
  }

  // ---------- what a request means ----------

  /** The value the last header with this case-folded key gives. */
  function LastValue(headers: seq<Header>, key: Text): Option<Text> {
    if headers == [] then None
    else
      var last := headers[|headers| - 1];
      if Lower(last.key) == key then Some(last.value) else LastValue(headers[..|headers| - 1], key)
  }

  /** The last header that decides whether the connection stays open does; else the version. */
  function Stays(version: Text, headers: seq<Header>): bool {
    if headers == [] then version == "1.1"
    else
      var last := headers[|headers| - 1];
      if Lower(last.key) == "connection" && Lower(last.value) == "close" then false
      else if Lower(last.key) == "connection" && Lower(last.value) == "keep-alive" then true
      else Stays(version, headers[..|headers| - 1])
  }

  ghost predicate SameHeaders(table: map<Text, Text>, headers: seq<Header>) {
    forall key :: LastValue(headers, key) == if key in table then Some(table[key]) else None
  }

  /** The parsed request says what the message meant; a GET has no body. */
  ghost predicate Says(r: Req, m: Message) {
    && AllLegal(m.target)
    && r.verb == m.verb && r.path == MeaningAll(m.target) && r.version == "HTTP/" + m.version
    && SameHeaders(r.headers, m.headers) && r.keepAlive == Stays(m.version, m.headers)
    && r.body == if m.verb == GET then [] else m.body
  }

  // ---------- its lines ----------

  lemma ConcatNoCr(a: Text, b: Text)
    requires '\r' !in a && '\r' !in b
    ensures '\r' !in a + b
  {
  }

  lemma RequestLineNoCr(m: Message)
    requires WellFormed(m)
    ensures '\r' !in m.RequestLine()
  {
    ConcatNoCr(VerbName(m.verb), " ");
    ConcatNoCr(VerbName(m.verb) + " ", PrintAll(m.target));
    ConcatNoCr(VerbName(m.verb) + " " + PrintAll(m.target), " HTTP/");
    forall i | 0 <= i < |m.version| ensures m.version[i] != '\r' {
      assert IsVersionChar(m.version[i]);
    }
    ConcatNoCr(VerbName(m.verb) + " " + PrintAll(m.target) + " HTTP/", m.version);
  }

  lemma HeaderNoCr(h: Header)
    requires h.Legal()
    ensures '\r' !in h.Line() && h.Line() != []
  {
    ConcatNoCr(h.left, h.key);
    ConcatNoCr(h.left + h.key, h.mid);
    ConcatNoCr(h.lead, h.value);
    ConcatNoCr(h.lead + h.value, h.trail);
    ConcatNoCr(h.left + h.key + h.mid, ":");
    ConcatNoCr((h.left + h.key + h.mid) + ":", h.lead + h.value + h.trail);
  }

  lemma LineIsLine(m: Message, i: nat)
    requires WellFormed(m) && i < |m.Lines()|
    ensures m.Lines()[i] != [] && '\r' !in m.Lines()[i]
  {
    if i == 0 {
      RequestLineNoCr(m);
    } else {
      var h := m.headers[i - 1];
      assert h in m.headers && m.Lines()[i] == h.Line();
      HeaderNoCr(h);
    }
  }

  lemma LinesAreLines(m: Message)
    requires WellFormed(m)
    ensures HeaderBlocks.Lines(m.Lines())
  {
    forall l | l in m.Lines() ensures l != [] && NoCrlf(l) {
      var i :| 0 <= i < |m.Lines()| && m.Lines()[i] == l;
      LineIsLine(m, i);
      NoCrIsNoCrlf(l);
    }
  }

  // ---------- framing ----------

  /** Whatever follows it, a legal request is cut off exactly. */
  lemma FramedExactly(m: Message, more: Text)
    requires WellFormed(m)
    ensures Extract(m.Print() + more) == Request(m.Print(), more)
  {
    LinesAreLines(m);
    HeaderEndOfBlock(m.Lines(), m.body + more);
    assert m.Print() + more == m.Head() + (m.body + more);
    AnnouncedRight(m);
    assert (m.Print() + more)[..|m.Head()|] == m.Head();
    assert (m.Print() + more)[..|m.Print()|] == m.Print();
  }

  lemma AnnouncedRight(m: Message)
    requires WellFormed(m)
    ensures AnnouncedLength(m.Head()) == |m.body|
  {
    if m.AnnouncesBody() {
      var k :| 1 <= k < |m.Lines()| && AnnouncingLine(m.Lines()[k], |m.body|) && SilentLines(m.Lines()[..k]);
      AnnouncingBlock(m.Lines(), k, |m.body|);
    } else {
      SilentBlock(m.Lines());
    }
  }

  function Prints(ms: seq<Message>): (r: seq<Text>)
    ensures |r| == |ms| && forall i :: 0 <= i < |ms| ==> r[i] == ms[i].Print()
  {
    seq(|ms|, i requires 0 <= i < |ms| => ms[i].Print())
  }

  ghost predicate AllWellFormed(ms: seq<Message>) {
    forall m :: m in ms ==> WellFormed(m)
  }

  /** The requests framed off a stream of printed messages are those messages, in order, and what is
      left is the rest of them. */
  lemma {:induction false} LeadsArePrints(ms: seq<Message>, raws: seq<Text>)
    requires AllWellFormed(ms) && Leads(Flat(Prints(ms)), raws)
    ensures |raws| <= |ms| && raws == Prints(ms[..|raws|])
    ensures After(Flat(Prints(ms)), raws) == Flat(Prints(ms[|raws|..]))
    decreases |raws|
  {
    hide WellFormed, Extract, Flat, Prints;
    NothingPrints();
    if raws == [] {
      assert ms[0..] == ms && ms[..0] == [];
    } else if ms == [] {
      assert false;
    } else {
      var rest := ms[1..];
      assert ms[0] in ms && forall m :: m in rest ==> m in ms;
      PrintsCons(ms);
      FramedExactly(ms[0], Flat(Prints(rest)));
      LeadsArePrints(rest, raws[1..]);
      assert ms[|raws|..] == rest[|raws| - 1..];
      PrintsCons(ms[..|raws|]);
      assert ms[..|raws|][1..] == rest[..|raws| - 1];
      assert raws == [raws[0]] + raws[1..];
    }
  }

  lemma NothingPrints()
    ensures Prints([]) == [] && Flat([]) == [] && Extract([]).Incomplete?
  {
  }

  lemma PrintsCons(ms: seq<Message>)
    requires ms != []
    ensures Prints(ms) == [ms[0].Print()] + Prints(ms[1..]) && Prints(ms)[1..] == Prints(ms[1..])
    ensures Flat(Prints(ms)) == ms[0].Print() + Flat(Prints(ms[1..]))
  {
    assert Prints(ms)[1..] == Prints(ms[1..]);
  }

  /** A stream with a message left over always has a complete request. */
  lemma LeftOverFrames(ms: seq<Message>)
    requires AllWellFormed(ms) && ms != []
    ensures Extract(Flat(Prints(ms))).Request?
  {
    hide WellFormed, Extract;
    assert ms[0] in ms;
    PrintsCons(ms);
    FramedExactly(ms[0], Flat(Prints(ms[1..])));
  }

  // ---------- parsing ----------

  lemma VerbIsUpper(verb: HttpMethod)
    ensures VerbName(verb) != [] && AllOf(VerbName(verb), IsUpper)
    ensures verb != BAD_METHOD ==> VerbOf(VerbName(verb)) == verb
  {
  }

  lemma RequestLineReads(m: Message, r: Req)
    requires WellFormed(m)
    ensures ApplyRequestLine(r, m.RequestLine()) ==
            (true, r.(verb := m.verb, path := MeaningAll(m.target), version := "HTTP/" + m.version,
                      keepAlive := m.version == "1.1"))
  {
    hide Captures, SplitRequestLine, UrlDecode, PrintAll, MeaningAll;
    VerbIsUpper(m.verb);
    RequestLineSplits(m);
    DecodeInvertsEncoding(m.target);
    var prefix: Text := "HTTP/";
    assert (prefix + m.version)[|prefix|..] == m.version;
    assert prefix + "1.1" == "HTTP/1.1";
  }

  lemma RequestLineSplits(m: Message)
    requires WellFormed(m)
    ensures SplitRequestLine(m.RequestLine()) ==
            Some(HttpRequests.RequestLine(VerbName(m.verb), PrintAll(m.target), m.version))
  {
    hide SplitRequestLine;
    VerbIsUpper(m.verb);
    SplitComplete(m.RequestLine(), HttpRequests.RequestLine(VerbName(m.verb), PrintAll(m.target), m.version));
  }

  lemma FrontHasNoColon(h: Header)
    requires h.Legal()
    ensures ':' !in h.left + h.key + h.mid
  {
    forall i | 0 <= i < |h.left| ensures h.left[i] != ':' {
      assert IsSpace(h.left[i]);
    }
    forall i | 0 <= i < |h.mid| ensures h.mid[i] != ':' {
      assert IsSpace(h.mid[i]);
    }
  }

  lemma HeaderLineReads(h: Header, r: Req)
    requires h.Legal()
    ensures ApplyHeaderLine(r, h.Line()) == (true, ApplyHeader(r, Lower(h.key), h.value))
  {
    hide Find, Trim, Lower, ApplyHeader;
    var front, back := h.left + h.key + h.mid, h.lead + h.value + h.trail;
    FrontHasNoColon(h);
    FindChar(front, ':', back);
    assert h.Line() == front + [':'] + back;
    assert h.Line()[..|front|] == front && h.Line()[|front| + 1..] == back;
    TrimIs(h.left, h.key, h.mid);
    TrimIs(h.lead, h.value, h.trail);
  }

  /** The headers applied one after the other. */
  function ApplyHeaders(r: Req, headers: seq<Header>): Req {
    if headers == [] then r
    else
      var last := headers[|headers| - 1];
      ApplyHeader(ApplyHeaders(r, headers[..|headers| - 1]), Lower(last.key), last.value)
  }

  lemma {:induction false} HeadersApplied(r: Req, version: Text, headers: seq<Header>)
    requires r.headers == map[] && r.keepAlive == (version == "1.1")
    ensures var r' := ApplyHeaders(r, headers);
            && r' == r.(headers := r'.headers, keepAlive := Stays(version, headers))
            && SameHeaders(r'.headers, headers)
  {
    if headers != [] {
      HeadersApplied(r, version, headers[..|headers| - 1]);
    }
  }

  lemma {:induction false} OffsetNext(lines: seq<Text>, k: nat)
    requires k < |lines|
    ensures Offset(lines, k + 1) == Offset(lines, k) + |lines[k]| + 2
  {
    if k > 0 {
      OffsetNext(lines[1..], k - 1);
    }
  }

  /** The next line end, for a scan that stands at the start of line `k`. */
  lemma LineEndAt(lines: seq<Text>, body: Text, k: nat)
    requires HeaderBlocks.Lines(lines) && k <= |lines|
    ensures var data, pos := Block(lines) + body, Offset(lines, k);
            && pos < |data|
            && Find(data, CRLF, pos) == pos + (if k < |lines| then |lines[k]| else 0)
            && (k < |lines| ==> data[pos..pos + |lines[k]|] == lines[k])
            && (k == |lines| ==> pos + 2 == |Block(lines)|)
  {
    hide Block, Find, Offset, HeaderBlocks.Lines;
    BlockCut(lines, k);
    var front := Block(lines)[..Offset(lines, k)];
    if k < |lines| {
      var tail := Block(lines[k + 1..]) + body;
      LineAfter(front, lines[k], tail);
      assert Block(lines) + body == front + (lines[k] + CRLF + tail);
    } else {
      LineAfter(front, [], body);
      assert Block(lines) + body == front + ([] + CRLF + body);
    }
  }

  lemma BlockCut(lines: seq<Text>, k: nat)
    requires HeaderBlocks.Lines(lines) && k <= |lines|
    ensures Offset(lines, k) <= |Block(lines)|
    ensures Block(lines) == Block(lines)[..Offset(lines, k)] +
                            if k < |lines| then lines[k] + CRLF + Block(lines[k + 1..]) else CRLF
    ensures NoCrlf(if k < |lines| then lines[k] else [])
  {
    BlockFrom(lines, k);
    NoCrIsNoCrlf([]);
    if k < |lines| {
      assert lines[k] in lines && lines[k..][1..] == lines[k + 1..];
    }
  }

  lemma LineAfter(front: Text, line: Text, tail: Text)
    requires NoCrlf(line)
    ensures var s := front + (line + CRLF + tail);
            Find(s, CRLF, |front|) == |front| + |line| && s[|front|..|front| + |line|] == line
  {
    FindLineEnd(line, tail);
    FindShift(front, line + CRLF + tail, CRLF);
    assert (line + CRLF + tail)[..|line|] == line;
  }

  lemma FindShift(front: Text, s: Text, pat: Text)
    requires Find(s, pat, 0) >= 0
    ensures Find(front + s, pat, |front|) == |front| + Find(s, pat, 0)
  {
    var r := Find(s, pat, 0);
    forall i | |front| <= i <= |front| + r ensures At(front + s, pat, i) <==> At(s, pat, i - |front|) {
      AtShift(front, s, pat, i - |front|);
    }
    FindIs(front + s, pat, |front|, |front| + r);
  }

  /** The parser, standing at header line `k`, goes on to the blank line and ends there. */
  lemma {:induction false} DriveHeaders(m: Message, r: Req, k: nat)
    requires WellFormed(m) && r.state == AtHeaders && k <= |m.headers|
    ensures DriveBy(ApplyLine, m.Print(), Offset(m.Lines(), k + 1), ApplyHeaders(r, m.headers[..k])) ==
            (Accepted(|m.Head()|), EndHeaders(ApplyHeaders(r, m.headers), m.Print(), |m.Head()|))
    decreases |m.headers| - k
  {
    hide WellFormed, ApplyLine, ApplyHeader, ApplyHeaders, EndHeaders, DriveBy, Block, Offset, Find, HeaderBlocks.Lines;
    var now := ApplyHeaders(r, m.headers[..k]);
    LinesAreLines(m);
    LineEndAt(m.Lines(), m.body, k + 1);
    ApplyHeadersState(r, m.headers[..k]);
    if k == |m.headers| {
      assert m.headers[..k] == m.headers;
      DriveBlank(ApplyLine, m.Print(), Offset(m.Lines(), k + 1), now);
    } else {
      var h := m.headers[k];
      HeaderAt(m, k, now);
      DriveLine(ApplyLine, m.Print(), Offset(m.Lines(), k + 1), now, ApplyHeader(now, Lower(h.key), h.value));
      ApplyHeadersNext(r, m.headers, k);
      OffsetNext(m.Lines(), k + 1);
      DriveHeaders(m, r, k + 1);
    }
  }

  lemma ApplyHeadersNext(r: Req, headers: seq<Header>, k: nat)
    requires k < |headers|
    ensures ApplyHeaders(r, headers[..k + 1]) ==
            ApplyHeader(ApplyHeaders(r, headers[..k]), Lower(headers[k].key), headers[k].value)
  {
    assert headers[..k + 1][..k] == headers[..k];
  }

  lemma HeaderAt(m: Message, k: nat, r: Req)
    requires WellFormed(m) && k < |m.headers| && r.state == AtHeaders
    ensures m.Lines()[k + 1] == m.headers[k].Line() != []
    ensures ApplyLine(r, m.headers[k].Line()) == (true, ApplyHeader(r, Lower(m.headers[k].key), m.headers[k].value))
  {
    assert m.headers[k] in m.headers;
    HeaderLineReads(m.headers[k], r);
  }

  /** One accepted line. */
  lemma DriveLine(rule: LineRule, data: Text, pos: nat, r: Req, r': Req)
    requires r.state == AtRequestLine || r.state == AtHeaders
    requires pos < |data| && Find(data, CRLF, pos) > pos
    requires rule(r, data[pos..Find(data, CRLF, pos)]) == (true, r')
    ensures DriveBy(rule, data, pos, r) == DriveBy(rule, data, Find(data, CRLF, pos) + 2, r')
  {
  }

  /** The blank line. */
  lemma DriveBlank(rule: LineRule, data: Text, pos: nat, r: Req)
    requires r.state == AtHeaders && pos < |data| && Find(data, CRLF, pos) == pos
    ensures DriveBy(rule, data, pos, r) == (Accepted(pos + 2), EndHeaders(r, data, pos + 2))
  {
  }

  lemma {:induction false} ApplyHeadersState(r: Req, headers: seq<Header>)
    ensures ApplyHeaders(r, headers).state == r.state && ApplyHeaders(r, headers).verb == r.verb
    ensures ApplyHeaders(r, headers).body == r.body
  {
    if headers != [] {
      ApplyHeadersState(r, headers[..|headers| - 1]);
    }
  }

  /** The parser accepts the request, up to its blank line, and it says what the message meant. */
  ghost predicate Understood(raw: Text, m: Message) {
    Parse(raw).0 == Accepted(|m.Head()|) && Says(Parse(raw).1, m)
  }

  /** Parsing a printed request gives back what was meant. */
  lemma ParsedExactly(m: Message)
    requires WellFormed(m)
    ensures Understood(m.Print(), m)
  {
    hide WellFormed, DriveBy, ApplyLine, ApplyRequestLine, ApplyHeaders, Block, Find, HeaderBlocks.Lines;
    LinesAreLines(m);
    LineEndAt(m.Lines(), m.body, 0);
    TargetLegal(m);
    var r := BLANK_REQUEST.(verb := m.verb, path := MeaningAll(m.target), version := "HTTP/" + m.version,
                            keepAlive := m.version == "1.1", state := AtHeaders);
    RequestLineAt(m, r);
    DriveLine(ApplyLine, m.Print(), 0, BLANK_REQUEST, r);
    OffsetNext(m.Lines(), 0);
    NoHeaders(r, m.headers);
    DriveHeaders(m, r, 0);
    HeadersApplied(r, m.version, m.headers);
    assert m.Print()[|m.Head()|..] == m.body;
  }

  lemma TargetLegal(m: Message)
    requires WellFormed(m)
    ensures AllLegal(m.target)
  {
  }

  lemma NoHeaders(r: Req, headers: seq<Header>)
    ensures ApplyHeaders(r, headers[..0]) == r
  {
  }

  lemma RequestLineAt(m: Message, r: Req)
    requires WellFormed(m) && AllLegal(m.target)
    requires r == BLANK_REQUEST.(verb := m.verb, path := MeaningAll(m.target), version := "HTTP/" + m.version,
                                 keepAlive := m.version == "1.1", state := AtHeaders)
    ensures ApplyLine(BLANK_REQUEST, m.RequestLine()) == (true, r) && m.RequestLine() != []
  {
    hide ApplyRequestLine;
    RequestLineReads(m, BLANK_REQUEST);
  }

  /** Looking a header up after parsing: any spelling of a key gives the value the message's last
      header with that key has, and nothing if there is none. */
  lemma HeaderFound(m: Message, key: Text, spelling: Text)
    requires WellFormed(m) && Lower(spelling) == Lower(key)
    ensures var value := HeaderOf(Parse(m.Print()).1, spelling);
            && value == HeaderOf(Parse(m.Print()).1, key)
            && (forall i :: 0 <= i < |m.headers| && Lower(m.headers[i].key) == Lower(key) &&
                            (forall j :: i < j < |m.headers| ==> Lower(m.headers[j].key) != Lower(key)) ==>
                  value == m.headers[i].value)
            && ((forall i :: 0 <= i < |m.headers| ==> Lower(m.headers[i].key) != Lower(key)) ==> value == [])
  {
    hide WellFormed, Parse;
    ParsedExactly(m);
    LastValueIs(m.headers, Lower(key));
  }

  lemma {:induction false} LastValueIs(headers: seq<Header>, key: Text)
    ensures LastValue(headers, key) == None <==> forall i :: 0 <= i < |headers| ==> Lower(headers[i].key) != key
    ensures forall i :: 0 <= i < |headers| && Lower(headers[i].key) == key &&
                        (forall j :: i < j < |headers| ==> Lower(headers[j].key) != key) ==>
              LastValue(headers, key) == Some(headers[i].value)
  {
    if headers != [] {
      var front := headers[..|headers| - 1];
      LastValueIs(front, key);
      assert forall i :: 0 <= i < |front| ==> front[i] == headers[i];
    }
  }

  // ---------- the round trip ----------

  /** For any legal requests, printed one after the other, of which any part has arrived in whatever
      chunks, extracted whenever: what has been extracted are the first messages, and each parses
      back into what was meant. Once all has arrived and nothing complete is left in the buffer,
      these are all the messages and the buffer is empty. */
  lemma PipelinedRoundTrip(ms: seq<Message>, ops: seq<BufferOp>, missing: Text)
    requires AllWellFormed(ms) && Play(ops).arrived + missing == Flat(Prints(ms))
    ensures var f := Play(ops);
            && |f.taken| <= |ms|
            && (forall i :: 0 <= i < |f.taken| ==> f.taken[i] == ms[i].Print() && Understood(f.taken[i], ms[i]))
            && (missing == [] && Extract(f.buf).Incomplete? ==> |f.taken| == |ms| && f.buf == [])
  {
    hide WellFormed, Understood, Leads, After, Extract, Play, Flat;
    var f := Play(ops);
    PlayConserves(ops);
    LeadsMore(f.arrived, missing, f.taken);
    LeadsArePrints(ms, f.taken);
    forall i | 0 <= i < |f.taken| ensures f.taken[i] == ms[i].Print() && Understood(f.taken[i], ms[i]) {
      assert ms[i] in ms;
      ParsedExactly(ms[i]);
    }
    if missing == [] && Extract(f.buf).Incomplete? {
      assert f.arrived + missing == f.arrived && f.buf + missing == f.buf;
      NothingLeftOver(ms, |f.taken|, f.buf);
    }
  }

  lemma NothingLeftOver(ms: seq<Message>, n: nat, buf: Text)
    requires AllWellFormed(ms) && n <= |ms| && buf == Flat(Prints(ms[n..])) && Extract(buf).Incomplete?
    ensures n == |ms| && buf == []
  {
    hide WellFormed, Extract;
    var left := ms[n..];
    assert forall m :: m in left ==> m in ms;
    if left != [] {
      LeftOverFrames(left);
    }
  }

  // ---------- when the length sum wraps ----------

  /** Announcing a length that wraps the sum to `d` bytes short of the header cuts the request inside
      its own header, and nothing of it is accepted. */
  lemma WrappedRequestIsCut(lines: seq<Text>, k: nat, d: nat, more: Text)
    requires HeaderBlocks.Lines(lines) && k < |lines| && SilentLines(lines[..k])
    requires 0 < d <= |Block(lines)| < SIZE_MODULUS && AnnouncingLine(lines[k], SIZE_MODULUS - d)
    ensures Extract(Block(lines) + more) ==
            Request(Block(lines)[..|Block(lines)| - d], Block(lines)[|Block(lines)| - d..] + more)
    ensures !Parse(Block(lines)[..|Block(lines)| - d]).0.Accepted?
  {
    hide Parse, AnnouncingLine, SilentLines, HeaderBlocks.Lines, Block, AnnouncedLength, Find;
    var head := Block(lines);
    HeaderEndOfBlock(lines, more);
    AnnouncingBlock(lines, k, SIZE_MODULUS - d);
    assert (head + more)[..|head|] == head;
    CutStable(head, more, |head| - d);
    FramerAndParserAgree(head + more);
  }
}
