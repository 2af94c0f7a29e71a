/** Response framing, and the repository's own client that reads responses back. */
module HttpResponses {
  import opened Bytes
  import opened Framing
  import opened HeaderBlocks

  function StatusText(code: nat): Text {
    match code
    case 200 => "OK"
    case 201 => "Created"
    case 301 => "Moved Permanently"
    case 304 => "Not Modified"
    case 400 => "Bad Request"
    case 401 => "Unauthorized"
    case 403 => "Forbidden"
    case 404 => "Not Found"
    case 405 => "Method Not Allowed"
    case 409 => "Conflict"
    case 413 => "Payload Too Large"
    case 500 => "Internal Server Error"
    case 502 => "Bad Gateway"
    case 503 => "Service Unavailable"
    case _ => "Unknown"
  }

  function StatusLine(code: nat): Text {
    "HTTP/1.1 " + Decimal(code) + " " + StatusText(code)
  }

  function LengthLine(n: nat): Text { "Content-Length: " + Decimal(n) }

  function ConnectionLine(keepAlive: bool): Text {
    "Connection: " + (if keepAlive then "keep-alive" else "close")
  }

  /** The header lines of `buildText`. */
  function TextLines(code: nat, length: nat, keepAlive: bool, contentType: Text): seq<Text> {
    [StatusLine(code), "Server: MiniServer/1.0", "Content-Type: " + contentType, LengthLine(length),
     ConnectionLine(keepAlive)]
  }

  function BuildText(code: nat, body: Text, keepAlive: bool, contentType: Text): Text {
    Block(TextLines(code, |body|, keepAlive, contentType)) + body
  }

  /** The header lines of `buildHeader`. */
  function HeaderLines(code: nat, contentType: Text, length: nat, keepAlive: bool): seq<Text> {
    TextLines(code, length, keepAlive, contentType) + ["Accept-Ranges: bytes"]
  }

  function BuildHeader(code: nat, contentType: Text, length: nat, keepAlive: bool): Text {
    Block(HeaderLines(code, contentType, length, keepAlive))
  }

  const HTML: Text := "text/html; charset=utf-8"

  const PLAIN_TEXT: Text := "text/plain; charset=utf-8"

  const BAD_REQUEST_LINES: seq<Text> :=
    [StatusLine(400), "Content-Type: " + PLAIN_TEXT, LengthLine(11), ConnectionLine(false)]

  /** The fixed answer to a request that does not parse. */
  const BAD_REQUEST: Text := Block(BAD_REQUEST_LINES) + "Bad Request"

  /** A prepared static response: a header, and either a body or a mapped file. */
  datatype Prepared = Prepared(statusCode: nat, header: Text, body: Text, file: Option<Text>)
  {
    function Payload(): Text {
      if file.Some? then file.value else body
    }
  }

  const FORBIDDEN_BODY: Text := "<html><body><h1>403 Forbidden</h1><p>Access denied.</p></body></html>"

  const WELCOME_BODY: Text :=
    "<html><body><h1>Welcome to MiniServer!</h1><p>Static file server is running.</p>" +
    "<p>Put your files in the <b>webroot/</b> directory.</p></body></html>"

  const NOT_FOUND_BODY: Text :=
    "<html><body><h1>404 Not Found</h1><p>The requested URL was not found on this server.</p></body></html>"

  /** `prepare`. What opening the file under the root gives, and the MIME type its name maps to,
      come from outside: `found` is `None` if the file cannot be opened. */
  function Prepare(path: Text, keepAlive: bool, found: Option<Text>, mime: Text): Prepared {
    var (code, contentType, body, file) :=
      if Find(path, "..", 0) != -1 then (403, HTML, FORBIDDEN_BODY, None)
      else if found.Some? then (200, mime, [], found)
      else if path == "/" || path == [] then (200, HTML, WELCOME_BODY, None)
      else (404, HTML, NOT_FOUND_BODY, None);
    var length := if file.Some? then |file.value| else |body|;
    Prepared(code, BuildHeader(code, contentType, length, keepAlive), body, file)
  }

  // ---------- the client ----------

  predicate StartsWithKey(line: Text) {
    At(Lower(line), LENGTH_KEY, 0)
  }

  /** `int(...)` of a string of digits; anything else counts as an error here. */
  function Number(s: Text): Option<nat> {
    if s != [] && forall i :: 0 <= i < |s| ==> IsDigit(s[i]) then Some(Value(s)) else None
  }

  /** The length the first matching header line announces, 0 without one. */
  function PeerLength(lines: seq<Text>): Option<nat> {
    if lines == [] then Some(0)
    else if StartsWithKey(lines[0]) then Number(Trim(lines[0][|LENGTH_KEY|..]))
    else PeerLength(lines[1..])
  }

  /** What the client makes of a stream: headers and body, or an error once the stream has ended. */
  datatype Received = Response(headers: Text, body: Text) | Failed

  function Decode(stream: Text): Received {
    var end := HeaderEnd(stream);
    if end == -1 then Failed
    else
      match PeerLength(Split(stream[..end], CRLF))
      case None => Failed
      case Some(n) => if |stream| - end < n then Failed else Response(stream[..end], stream[end..end + n])
  }

  /** Bytes that read back as one response covering all of them. */
  predicate SelfDelimiting(wire: Text) {
    Decode(wire).Response? && Decode(wire).headers + Decode(wire).body == wire
  }

  /** A response that decodes still does, to the same, when more bytes follow it. */
  lemma DecodeStable(stream: Text, more: Text)
    requires Decode(stream).Response?
    ensures Decode(stream + more) == Decode(stream)
  {
    HeaderEndStable(stream, more);
    var end := HeaderEnd(stream);
    var n := PeerLength(Split(stream[..end], CRLF)).value;
    assert (stream + more)[end..end + n] == stream[end..end + n];
  }

  lemma DecodeUnfolds(stream: Text, headers: Text, n: nat)
    requires HeaderEnd(stream) == |headers| && headers <= stream
    requires PeerLength(Split(headers, CRLF)) == Some(n)
    ensures Decode(stream) == if |stream| - |headers| < n then Failed
                              else Response(headers, stream[|headers|..|headers| + n])
  {
    assert stream[..|headers|] == headers;
  }

  /** What decoding gives once the header block is known and the body is long enough. */
  lemma DecodeLong(headers: Text, body: Text, rest: Text, n: nat)
    requires HeaderEnd(headers) == |headers| && PeerLength(Split(headers, CRLF)) == Some(n)
    requires |body| >= n
    ensures Decode(headers + body + rest) == Response(headers, body[..n])
  {
    hide Decode, PeerLength, Split, HeaderEnd;
    var stream := headers + body + rest;
    assert stream == headers + (body + rest);
    HeaderEndStable(headers, body + rest);
    DecodeUnfolds(stream, headers, n);
    assert stream[|headers|..|headers| + n] == body[..n];
  }

  lemma DecodeShort(headers: Text, body: Text, n: nat)
    requires HeaderEnd(headers) == |headers| && PeerLength(Split(headers, CRLF)) == Some(n)
    requires |body| < n
    ensures Decode(headers + body) == Failed
  {
    HeaderEndStable(headers, body);
    DecodeUnfolds(headers + body, headers, n);
  }

  // ---------- the round trip ----------

  ghost predicate NoLengthLines(lines: seq<Text>) {
    forall l :: l in lines ==> !StartsWithKey(l)
  }

  lemma PeerLengthCons(line: Text, rest: seq<Text>)
    ensures PeerLength([line] + rest) ==
            if StartsWithKey(line) then Number(Trim(line[|LENGTH_KEY|..])) else PeerLength(rest)
  {
    assert ([line] + rest)[1..] == rest;
  }

  /** The client's scan of a block stops at its first length line, if it has one. */
  lemma {:induction false} PeerLengthOfBlock(lines: seq<Text>, k: nat)
    requires Lines(lines) && k <= |lines| && NoLengthLines(lines[..k]) && (k < |lines| ==> StartsWithKey(lines[k]))
    ensures PeerLength(Split(Block(lines), CRLF)) ==
            if k < |lines| then Number(Trim(lines[k][|LENGTH_KEY|..])) else Some(0)
    decreases k
  {
    if lines == [] {
      NothingAnnounced();
    } else {
      assert lines[0] in lines;
      FindLineEnd(lines[0], Block(lines[1..]));
      SplitFirst(lines[0], CRLF, Block(lines[1..]));
      PeerLengthCons(lines[0], Split(Block(lines[1..]), CRLF));
      if k > 0 {
        assert lines[..k][0] == lines[0] && lines[0] in lines[..k];
        assert forall x :: x in lines[1..][..k - 1] ==> x in lines[..k];
        assert forall x :: x in lines[1..] ==> x in lines;
        PeerLengthOfBlock(lines[1..], k - 1);
      }
    }
  }

  lemma NothingAnnounced()
    ensures PeerLength(Split(Block([]), CRLF)) == Some(0)
  {
    assert [] + CRLF + [] == CRLF;
    FindLineEnd([], []);
    SplitFirst([], CRLF, []);
    SplitUnfolds([], CRLF);
    var empty: Text := [];
    PeerLengthCons(empty, [empty]);
    PeerLengthCons(empty, []);
    assert [empty] + [] == [empty];
  }

  /** What the client makes of any block of header lines and the bytes after it. The first line with the key
      decides: a number, in any white space, is the length of the body, and anything else, or a number larger
      than what follows, is an error; without such a line there is no body. */
  lemma ClientReads(lines: seq<Text>, k: nat, left: Text, field: Text, right: Text, rest: Text)
    requires Lines(lines) && lines != [] && k <= |lines| && NoLengthLines(lines[..k])
    requires k < |lines| ==>
               && LENGTH_KEY <= Lower(lines[k]) && lines[k][|LENGTH_KEY|..] == left + field + right
               && AllOf(left, IsSpace) && AllOf(right, IsSpace) && Trimmed(field)
    ensures Decode(Block(lines) + rest) ==
            if k == |lines| then Response(Block(lines), [])
            else if field != [] && AllOf(field, IsDigit) && Value(field) <= |rest|
            then Response(Block(lines), rest[..Value(field)])
            else Failed
  {
    hide Decode, PeerLength, Split, HeaderEnd, Trim;
    var block := Block(lines);
    HeaderEndOfBlock(lines, []);
    assert block + [] == block;
    if k < |lines| {
      KeyAtFront(lines[k]);
      TrimIs(left, field, right);
    }
    PeerLengthOfBlock(lines, k);
    HeaderEndStable(block, rest);
    DecodesBy(block, rest, if k < |lines| then Number(field) else Some(0));
  }

  lemma DecodesBy(block: Text, rest: Text, n: Option<nat>)
    requires HeaderEnd(block + rest) == |block| && PeerLength(Split(block, CRLF)) == n
    ensures Decode(block + rest) ==
            if n.Some? && n.value <= |rest| then Response(block, rest[..n.value]) else Failed
  {
    hide HeaderEnd, PeerLength, Split, Find;
    assert (block + rest)[..|block|] == block;
    if n.Some? && n.value <= |rest| {
      assert (block + rest)[|block|..|block| + n.value] == rest[..n.value];
    }
  }

  lemma LowerLengthLine(n: nat)
    ensures LENGTH_KEY <= Lower(LengthLine(n))
  {
    var key: Text := "Content-Length: ";
    LowerConcat(key, Decimal(n));
    assert Lower(key) == LENGTH_KEY + " ";
  }

  lemma LengthLineReads(n: nat)
    ensures StartsWithKey(LengthLine(n))
    ensures Number(Trim(LengthLine(n)[|LENGTH_KEY|..])) == Some(n)
  {
    LowerLengthLine(n);
    KeyAtFront(LengthLine(n));
    assert LengthLine(n)[|LENGTH_KEY|..] == " " + Decimal(n) + [];
    TrimIs(" ", Decimal(n), []);
    DecimalValue(n);
  }

  /** The client decodes any block of header lines, the first length line of which announces the
      body that follows, to exactly that block and that body. */
  lemma BlockDecodes(lines: seq<Text>, k: nat, body: Text, more: Text)
    requires Lines(lines) && k < |lines|
    requires NoLengthLines(lines[..k]) && lines[k] == LengthLine(|body|)
    ensures Decode(Block(lines) + body + more) == Response(Block(lines), body)
  {
    HeaderEndOfBlock(lines, []);
    assert Block(lines) + [] == Block(lines);
    LengthLineReads(|body|);
    PeerLengthOfBlock(lines, k);
    DecodeLong(Block(lines), body, more, |body|);
  }

  lemma NotLengthLine(line: Text, c: char)
    requires line != [] && line[0] == c && LowerChar(c) != 'c'
    ensures !StartsWithKey(line)
  {
    assert LENGTH_KEY[0] == 'c';
    assert Lower(line)[0 + 0] != LENGTH_KEY[0];
  }

  lemma DigitsNoCr(n: nat)
    ensures '\r' !in Decimal(n)
  {
  }

  lemma LowStatusNoCr(code: nat)
    requires code <= 401
    ensures '\r' !in StatusText(code)
  {
  }

  lemma HighStatusNoCr(code: nat)
    requires code > 401
    ensures '\r' !in StatusText(code)
  {
    match code
    case 403 =>
    case 404 =>
    case 405 =>
    case 409 =>
    case 413 =>
    case 500 =>
    case 502 =>
    case 503 =>
    case _ =>
  }

  lemma StatusTextNoCr(code: nat)
    ensures '\r' !in StatusText(code)
  {
    if code <= 401 {
      LowStatusNoCr(code);
    } else {
      HighStatusNoCr(code);
    }
  }

  lemma FourPartsNoCr(a: Text, b: Text, c: Text, d: Text)
    requires '\r' !in a && '\r' !in b && '\r' !in c && '\r' !in d
    ensures '\r' !in a + b + c + d
  {
  }

  lemma StatusLineIsLine(code: nat)
    ensures StatusLine(code) != [] && NoCrlf(StatusLine(code)) && !StartsWithKey(StatusLine(code))
  {
    DigitsNoCr(code);
    StatusTextNoCr(code);
    FourPartsNoCr("HTTP/1.1 ", Decimal(code), " ", StatusText(code));
    NoCrIsNoCrlf(StatusLine(code));
    NotLengthLine(StatusLine(code), 'H');
  }

  lemma LengthLineIsLine(n: nat)
    ensures LengthLine(n) != [] && NoCrlf(LengthLine(n))
  {
    DigitsNoCr(n);
    NoCrIsNoCrlf(LengthLine(n));
  }

  lemma ContentTypeIsLine(contentType: Text)
    requires NoCrlf(contentType)
    ensures NoCrlf("Content-Type: " + contentType) && !StartsWithKey("Content-Type: " + contentType)
  {
    var name: Text := "Content-Type: ";
    var line := name + contentType;
    forall i ensures !At(line, CRLF, i) {
      AtCrlf(line, i);
      if i >= |name| {
        AtShift(name, contentType, CRLF, i - |name|);
      }
    }
    assert LENGTH_KEY[8] == 'l' && line[8] == 'T';
    assert Lower(line)[0 + 8] != LENGTH_KEY[8];
  }

  lemma TextLinesAreLines(code: nat, length: nat, keepAlive: bool, contentType: Text)
    requires NoCrlf(contentType)
    ensures var lines := HeaderLines(code, contentType, length, keepAlive);
            Lines(lines) && Lines(lines[..5]) && NoLengthLines(lines[..3])
  {
    var lines := HeaderLines(code, contentType, length, keepAlive);
    StatusLineIsLine(code);
    LengthLineIsLine(length);
    ContentTypeIsLine(contentType);
    NoCrIsNoCrlf(ConnectionLine(keepAlive));
    NoCrIsNoCrlf("Server: MiniServer/1.0");
    NoCrIsNoCrlf("Accept-Ranges: bytes");
    NotLengthLine("Server: MiniServer/1.0", 'S');
  }

  /** For any body, any content type without a line break and whatever follows, the client reads
      `buildText` output back as its header block and its body. */
  lemma TextRoundTrip(code: nat, body: Text, keepAlive: bool, contentType: Text, more: Text)
    requires NoCrlf(contentType)
    ensures Decode(BuildText(code, body, keepAlive, contentType) + more)
         == Response(Block(TextLines(code, |body|, keepAlive, contentType)), body)
  {
    TextLinesAreLines(code, |body|, keepAlive, contentType);
    var lines := TextLines(code, |body|, keepAlive, contentType);
    assert HeaderLines(code, contentType, |body|, keepAlive)[..5] == lines;
    assert HeaderLines(code, contentType, |body|, keepAlive)[..3] == lines[..3];
    BlockDecodes(lines, 3, body, more);
  }

  /** The same for a `buildHeader` block followed by the announced number of body bytes. */
  lemma HeaderRoundTrip(code: nat, body: Text, keepAlive: bool, contentType: Text, more: Text)
    requires NoCrlf(contentType)
    ensures Decode(BuildHeader(code, contentType, |body|, keepAlive) + body + more)
         == Response(BuildHeader(code, contentType, |body|, keepAlive), body)
  {
    TextLinesAreLines(code, |body|, keepAlive, contentType);
    BlockDecodes(HeaderLines(code, contentType, |body|, keepAlive), 3, body, more);
  }

  /** What `prepare` announces is what it delivers, on every branch. */
  lemma PreparedRoundTrip(path: Text, keepAlive: bool, found: Option<Text>, mime: Text, more: Text)
    requires NoCrlf(mime)
    ensures var p := Prepare(path, keepAlive, found, mime);
            Decode(p.header + p.Payload() + more) == Response(p.header, p.Payload())
  {
    NoCrIsNoCrlf(HTML);
    var p := Prepare(path, keepAlive, found, mime);
    HeaderRoundTrip(p.statusCode, p.Payload(), keepAlive, if p.file.Some? then mime else HTML, more);
  }

  lemma BadRequestLines()
    ensures Lines(BAD_REQUEST_LINES) && NoLengthLines(BAD_REQUEST_LINES[..2])
  {
    StatusLineIsLine(400);
    NoCrIsNoCrlf(PLAIN_TEXT);
    ContentTypeIsLine(PLAIN_TEXT);
    LengthLineIsLine(11);
    NoCrIsNoCrlf(ConnectionLine(false));
  }

  lemma BadRequestRoundTrip(more: Text)
    ensures Decode(BAD_REQUEST + more) == Response(Block(BAD_REQUEST_LINES), "Bad Request")
  {
    BadRequestLines();
    BlockDecodes(BAD_REQUEST_LINES, 2, "Bad Request", more);
  }

  // ---------- what a response says ----------

  /** `atoi`: white space, a sign, and as many digits as there are. */
  function Atoi(s: Text): int {
    var from := SpanEnd(s, 0, IsSpace);
    var signed := from < |s| && (s[from] == '+' || s[from] == '-');
    var start := if signed then from + 1 else from;
    var end := SpanEnd(s, start, IsDigit);
    assert forall i :: 0 <= i < |s[start..end]| ==> s[start..end][i] == s[start + i];
    var value: int := Value(s[start..end]);
    if signed && s[from] == '-' then 0 - value else value
  }

  /** `statusCodeFromResponse`. */
  function StatusOf(response: Text): int {
    var space := Find(response, " ", 0);
    if space == -1 || space + 4 > |response| then 0 else Atoi(response[space + 1..space + 4])
  }

  lemma AtoiDecimal(n: nat)
    ensures Atoi(Decimal(n)) == n
  {
    var s := Decimal(n);
    assert IsDigit(s[0]);
    SpanEndIs(s, 0, IsSpace, 0);
    SpanEndIs(s, 0, IsDigit, |s|);
    assert s[0..|s|] == s;
    DecimalValue(n);
  }

  lemma ThreeDigits(code: nat)
    requires 100 <= code <= 999
    ensures |Decimal(code)| == 3
  {
    assert Decimal(code) == Decimal(code / 10) + [Digit(code % 10)];
    assert Decimal(code / 10) == Decimal(code / 100) + [Digit(code / 10 % 10)];
  }

  /** The status is read back from whatever starts with its status line. */
  lemma StatusReads(code: nat, rest: Text)
    requires 100 <= code <= 999
    ensures StatusOf(StatusLine(code) + rest) == code
  {
    hide Atoi, Decimal, StatusText;
    var s := StatusLine(code) + rest;
    var front: Text := "HTTP/1.1";
    ThreeDigits(code);
    AtoiDecimal(code);
    assert s == front + [' '] + (Decimal(code) + " " + StatusText(code) + rest);
    forall i | 0 <= i < 8 ensures !At(s, " ", i) {
      AtChar(s, ' ', i);
      assert s[i] == front[i];
    }
    AtChar(s, ' ', 8);
    FindIs(s, " ", 0, 8);
    assert s[9..12] == Decimal(code);
  }

  /** The phrases of section 15 of RFC 9110 for the statuses the server answers with. */
  lemma ReasonPhrases()
    ensures StatusText(200) == "OK" && StatusText(201) == "Created" && StatusText(400) == "Bad Request"
    ensures StatusText(401) == "Unauthorized" && StatusText(403) == "Forbidden" && StatusText(404) == "Not Found"
    ensures StatusText(405) == "Method Not Allowed" && StatusText(409) == "Conflict"
  {
  }

  lemma SplitBlankLine()
    ensures Split(CRLF, CRLF) == ["", ""]
  {
    AtSlice(CRLF, CRLF, 0);
    FindIs(CRLF, CRLF, 0, 0);
    SplitUnfolds(CRLF, CRLF);
    assert CRLF[..0] == "" && CRLF[2..] == "";
    SplitUnfolds("", CRLF);
  }

  /** Splitting a header block gives its lines back. */
  lemma {:induction false} BlockSplits(lines: seq<Text>)
    requires Lines(lines)
    ensures Split(Block(lines), CRLF) == lines + ["", ""]
  {
    hide Split, Find, NoCrlf;
    if lines == [] {
      SplitBlankLine();
    } else {
      assert lines[0] in lines && forall l :: l in lines[1..] ==> l in lines;
      FindLineEnd(lines[0], Block(lines[1..]));
      SplitFirst(lines[0], CRLF, Block(lines[1..]));
      BlockSplits(lines[1..]);
      assert lines + ["", ""] == [lines[0]] + (lines[1..] + ["", ""]);
    }
  }

  /** The header block carries the line. */
  predicate Carries(headers: Text, line: Text) {
    line in Split(headers, CRLF)
  }

  const CLOSE_LINE: Text := "Connection: close"
  const KEEP_LINE: Text := "Connection: keep-alive"

  /** What a header block says of the outcome, the type of the body and the connection. */
  ghost predicate Tells(headers: Text, code: nat, contentType: Text, keepAlive: bool) {
    && StatusOf(headers) == code && StatusLine(code) + CRLF <= headers
    && Carries(headers, "Content-Type: " + contentType)
    && (Carries(headers, CLOSE_LINE) <==> !keepAlive) && (Carries(headers, KEEP_LINE) <==> keepAlive)
  }

  predicate ConnectionFree(line: Text) {
    line != CLOSE_LINE && line != KEEP_LINE
  }

  lemma NotConnection(line: Text, i: nat)
    requires i < 4 && (i < |line| ==> line[i] != CLOSE_LINE[i])
    ensures ConnectionFree(line)
  {
    assert CLOSE_LINE[..4] == "Conn" && KEEP_LINE[..4] == "Conn";
    assert CLOSE_LINE[..4][i] == KEEP_LINE[..4][i];
  }

  lemma CarriesLine(lines: seq<Text>, line: Text)
    requires Lines(lines) && line != ""
    ensures Carries(Block(lines), line) <==> line in lines
  {
    hide Lines, Block, Split;
    BlockSplits(lines);
  }

  lemma OneConnectionLine(lines: seq<Text>, k: nat, keepAlive: bool)
    requires k < |lines| && lines[k] == (if keepAlive then KEEP_LINE else CLOSE_LINE)
    requires forall i :: 0 <= i < |lines| && i != k ==> ConnectionFree(lines[i])
    ensures (CLOSE_LINE in lines <==> !keepAlive) && (KEEP_LINE in lines <==> keepAlive)
  {
    assert KEEP_LINE[12] == 'k' && CLOSE_LINE[12] == 'c';
    assert lines[k] in lines;
  }

  lemma FirstLine(lines: seq<Text>, code: nat)
    requires lines != [] && lines[0] == StatusLine(code) && 100 <= code <= 999
    ensures StatusOf(Block(lines)) == code && StatusLine(code) + CRLF <= Block(lines)
  {
    hide StatusLine, StatusOf;
    StatusReads(code, CRLF + Block(lines[1..]));
    assert Block(lines) == StatusLine(code) + (CRLF + Block(lines[1..]));
  }

  /** A block of header lines, line `k` of which is its one connection line. */
  lemma BlockTells(lines: seq<Text>, k: nat, code: nat, contentType: Text, keepAlive: bool)
    requires Lines(lines) && 100 <= code <= 999 && k < |lines| && lines[0] == StatusLine(code)
    requires "Content-Type: " + contentType in lines && lines[k] == ConnectionLine(keepAlive)
    requires forall i :: 0 <= i < |lines| && i != k ==> ConnectionFree(lines[i])
    ensures Tells(Block(lines), code, contentType, keepAlive)
  {
    hide StatusLine, StatusOf, Carries, Block, ConnectionFree, Lines, ConnectionLine;
    FirstLine(lines, code);
    ConnectionLineIs(keepAlive);
    OneConnectionLine(lines, k, keepAlive);
    CarriesLine(lines, CLOSE_LINE);
    CarriesLine(lines, KEEP_LINE);
    CarriesLine(lines, "Content-Type: " + contentType);
  }

  lemma OtherLines(code: nat, length: nat, contentType: Text)
    ensures ConnectionFree(StatusLine(code)) && ConnectionFree("Server: MiniServer/1.0")
    ensures ConnectionFree("Content-Type: " + contentType) && ConnectionFree(LengthLine(length))
    ensures ConnectionFree("Accept-Ranges: bytes")
  {
    NotConnection(StatusLine(code), 0);
    NotConnection("Server: MiniServer/1.0", 0);
    NotConnection("Content-Type: " + contentType, 3);
    NotConnection(LengthLine(length), 3);
    NotConnection("Accept-Ranges: bytes", 0);
  }

  lemma ConnectionLineIs(keepAlive: bool)
    ensures ConnectionLine(keepAlive) == if keepAlive then KEEP_LINE else CLOSE_LINE
  {
  }

  /** Both kinds of header block say what they were built for. */
  lemma LinesTell(code: nat, length: nat, keepAlive: bool, contentType: Text)
    requires NoCrlf(contentType) && 100 <= code <= 999
    ensures Tells(Block(TextLines(code, length, keepAlive, contentType)), code, contentType, keepAlive)
    ensures Tells(BuildHeader(code, contentType, length, keepAlive), code, contentType, keepAlive)
  {
    hide Tells, StatusLine, LengthLine, ConnectionLine, Lines, ConnectionFree;
    var lines := HeaderLines(code, contentType, length, keepAlive);
    TextLinesAreLines(code, length, keepAlive, contentType);
    OtherLines(code, length, contentType);
    assert lines[..5] == TextLines(code, length, keepAlive, contentType);
    assert lines[2] in lines && lines[..5][2] in lines[..5];
    BlockTells(lines, 4, code, contentType, keepAlive);
    BlockTells(lines[..5], 4, code, contentType, keepAlive);
  }

  lemma BadRequestTells()
    ensures Tells(Block(BAD_REQUEST_LINES), 400, PLAIN_TEXT, false)
  {
    hide Tells, StatusLine, LengthLine, ConnectionLine, Lines, ConnectionFree;
    BadRequestLines();
    OtherLines(400, 11, PLAIN_TEXT);
    assert BAD_REQUEST_LINES[1] in BAD_REQUEST_LINES;
    BlockTells(BAD_REQUEST_LINES, 3, 400, PLAIN_TEXT, false);
  }

  /** Which page a path gets: exactly the paths with ".." in them are forbidden, and their answer does not
      depend on any file; any other is given the file under it, if that opens, under its MIME type; if
      not, the root gets the welcome page, and everything else is not found. */
  lemma PrepareOutcome(path: Text, keepAlive: bool, found: Option<Text>, mime: Text)
    ensures var p := Prepare(path, keepAlive, found, mime);
            && (p.statusCode == 403 <==> Occurs(path, ".."))
            && (Occurs(path, "..") ==> p.file == None && p.body == FORBIDDEN_BODY)
            && (!Occurs(path, "..") && found.Some? ==>
                  p.statusCode == 200 && p.file == found && p.Payload() == found.value)
            && (!Occurs(path, "..") && found == None && (path == "/" || path == []) ==>
                  p.statusCode == 200 && p.file == None && p.body == WELCOME_BODY)
            && (p.statusCode == 404 <==> !Occurs(path, "..") && found == None && path != "/" && path != [])
            && (p.statusCode == 404 ==> p.file == None && p.body == NOT_FOUND_BODY)
            && (NoCrlf(mime) ==> Tells(p.header, p.statusCode, if p.file.Some? then mime else HTML, keepAlive))
  {
    hide Tells, BuildHeader, FORBIDDEN_BODY, WELCOME_BODY, NOT_FOUND_BODY;
    NoCrIsNoCrlf(HTML);
    DotsFound(path);
    var p := Prepare(path, keepAlive, found, mime);
    if NoCrlf(mime) {
      LinesTell(p.statusCode, |p.Payload()|, keepAlive, if p.file.Some? then mime else HTML);
    }
  }

  lemma DotsFound(path: Text)
    ensures Find(path, "..", 0) != -1 <==> Occurs(path, "..")
  {
    if i :| At(path, "..", i) {
      assert Find(path, "..", 0) != -1;
    }
  }
}
