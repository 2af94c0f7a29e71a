/** The request parser: a line-driven state machine over one framed request. */
module HttpRequests {
  import opened Bytes
  import opened UrlCodec
  import opened Framing

  datatype ParseState = AtRequestLine | AtHeaders | AtBody | Finished

  datatype HttpMethod = GET | POST | PUT | DELETE | BAD_METHOD

  datatype Req = Req(
    state: ParseState,
    verb: HttpMethod,
    path: Text,
    version: Text,
    body: Text,
    keepAlive: bool,
    headers: map<Text, Text>)

  const BLANK_REQUEST := Req(AtRequestLine, BAD_METHOD, [], [], [], false, map[])

  // ---------- the request line ----------

  datatype RequestLine = RequestLine(verb: Text, target: Text, version: Text)

  predicate IsUpper(c: char) { 'A' <= c <= 'Z' }

  predicate IsVersionChar(c: char) { IsDigit(c) || c == '.' }

  /** What the request-line pattern captures. */
  ghost predicate Captures(line: Text, l: RequestLine) {
    && l.verb != [] && AllOf(l.verb, IsUpper)
    && l.target != [] && ' ' !in l.target
    && l.version != [] && AllOf(l.version, IsVersionChar)
    && (line == l.verb + " " + l.target + " HTTP/" + l.version ||
        line == l.verb + " " + l.target + " HTTP/" + l.version + "\r")
  }

  function DropCr(s: Text): Text {
    if s != [] && s[|s| - 1] == '\r' then s[..|s| - 1] else s
  }

  function SplitRequestLine(line: Text): Option<RequestLine> {
    var first := Find(line, " ", 0);
    if first == -1 then None
    else
      var second := Find(line, " ", first + 1);
      if second == -1 then None
      else
        AtChar(line, ' ', second);
        var verb, target, tail := line[..first], line[first + 1..second], line[second + 1..];
        if verb == [] || !AllOf(verb, IsUpper) || target == [] || |tail| < 5 || tail[..5] != "HTTP/" then None
        else
          var version := DropCr(tail[5..]);
          if version == [] || !AllOf(version, IsVersionChar) then None
          else Some(RequestLine(verb, target, version))
  }

  lemma SplitSound(line: Text)
    requires SplitRequestLine(line).Some?
    ensures Captures(line, SplitRequestLine(line).value)
  {
    var l := SplitRequestLine(line).value;
    var first := Find(line, " ", 0);
    var second := Find(line, " ", first + 1);
    AtChar(line, ' ', first);
    AtChar(line, ' ', second);
    forall i | 0 <= i < |l.target| ensures l.target[i] != ' ' {
      AtChar(line, ' ', first + 1 + i);
    }
    Rejoin(line, first, second, l.version);
  }

  /** A string cut at its first two spaces and after "HTTP/" is put together again. */
  lemma Rejoin(line: Text, first: nat, second: nat, version: Text)
    requires first < second < |line| && line[first] == ' ' && line[second] == ' '
    requires second + 6 <= |line| && line[second + 1..][..5] == "HTTP/"
    requires version == DropCr(line[second + 1..][5..])
    ensures var front := line[..first] + " " + line[first + 1..second] + " HTTP/";
            line == front + version || line == front + version + "\r"
  {
    var front := line[..first] + " " + line[first + 1..second] + " HTTP/";
    assert line[second..second + 6] == " HTTP/" by {
      assert line[second + 1..][..5] == line[second + 1..second + 6];
      assert line[second..second + 6] == " " + line[second + 1..second + 6];
    }
    assert front == line[..second + 6];
    assert line[second + 1..][5..] == line[second + 6..];
    assert line == front + line[second + 6..];
    if version != line[second + 6..] {
      assert line[second + 6..] == version + "\r";
    }
  }

  lemma SplitComplete(line: Text, l: RequestLine)
    requires Captures(line, l)
    ensures SplitRequestLine(line) == Some(l)
  {
    var cr: Text := if line == l.verb + " " + l.target + " HTTP/" + l.version then [] else "\r";
    Disjoin(line, l, cr);
    VersionKept(l.version, cr);
    SplitPieces(line, l);
  }

  lemma SplitPieces(line: Text, l: RequestLine)
    requires l.verb != [] && AllOf(l.verb, IsUpper) && l.target != [] && ' ' !in l.target
    requires l.version != [] && AllOf(l.version, IsVersionChar)
    requires var first, second := |l.verb|, |l.verb| + 1 + |l.target|;
             && second + 6 <= |line|
             && line[..first] == l.verb && line[first] == ' '
             && line[first + 1..second] == l.target && line[second] == ' '
             && line[second + 1..][..5] == "HTTP/" && DropCr(line[second + 1..][5..]) == l.version
    ensures SplitRequestLine(line) == Some(l)
  {
    hide Find, At, AllOf, DropCr;
    SpacesFound(line, l);
  }

  /** The first two spaces are the ones around the target. */
  lemma SpacesFound(line: Text, l: RequestLine)
    requires AllOf(l.verb, IsUpper) && ' ' !in l.target
    requires var first, second := |l.verb|, |l.verb| + 1 + |l.target|;
             && second < |line| && line[..first] == l.verb && line[first] == ' '
             && line[first + 1..second] == l.target && line[second] == ' '
    ensures Find(line, " ", 0) == |l.verb| && Find(line, " ", |l.verb| + 1) == |l.verb| + 1 + |l.target|
  {
    var first, second := |l.verb|, |l.verb| + 1 + |l.target|;
    forall i | 0 <= i < first ensures !At(line, " ", i) {
      AtChar(line, ' ', i);
      assert IsUpper(l.verb[i]) && line[..first][i] == line[i];
    }
    AtChar(line, ' ', first);
    FindIs(line, " ", 0, first);
    forall i | first + 1 <= i < second ensures !At(line, " ", i) {
      AtChar(line, ' ', i);
      assert line[i] == line[first + 1..second][i - first - 1];
    }
    AtChar(line, ' ', second);
    FindIs(line, " ", first + 1, second);
  }

  lemma Disjoin(line: Text, l: RequestLine, cr: Text)
    requires line == l.verb + " " + l.target + " HTTP/" + l.version + cr
    ensures var first, second := |l.verb|, |l.verb| + 1 + |l.target|;
            && second + 6 <= |line|
            && line[..first] == l.verb && line[first] == ' '
            && line[first + 1..second] == l.target && line[second] == ' '
            && line[second + 1..][..5] == "HTTP/" && line[second + 1..][5..] == l.version + cr
  {
    var second := |l.verb| + 1 + |l.target|;
    assert line == (l.verb + " " + l.target) + " HTTP/" + (l.version + cr);
    assert line[second + 1..][..5] == " HTTP/"[1..];
    assert line[second + 1..][5..] == line[second + 6..];
  }

  lemma VersionKept(version: Text, cr: Text)
    requires version != [] && AllOf(version, IsVersionChar) && (cr == [] || cr == "\r")
    ensures DropCr(version + cr) == version
  {
    if cr == [] {
      assert version + cr == version;
      assert IsVersionChar(version[|version| - 1]);
    }
  }

  /** The code's split finds exactly the captures of the pattern. */
  lemma SplitExact(line: Text, l: RequestLine)
    ensures SplitRequestLine(line) == Some(l) <==> Captures(line, l)
  {
    if SplitRequestLine(line) == Some(l) {
      SplitSound(line);
    } else if Captures(line, l) {
      SplitComplete(line, l);
    }
  }

  function VerbOf(verb: Text): HttpMethod {
    if verb == "GET" then GET
    else if verb == "POST" then POST
    else if verb == "PUT" then PUT
    else if verb == "DELETE" then DELETE
    else BAD_METHOD
  }

  // ---------- header lines ----------

  method TrimLoop(value: Text) returns (r: Text)
    ensures r == Trim(value)
  {
    var begin := 0;
    while begin < |value| && IsSpace(value[begin])
      invariant 0 <= begin <= |value|
      invariant forall i :: 0 <= i < begin ==> IsSpace(value[i])
    {
      begin := begin + 1;
    }
    SpanEndIs(value, 0, IsSpace, begin);
    var end := |value|;
    while end > begin && IsSpace(value[end - 1])
      invariant begin <= end <= |value|
      invariant TrimEnd(value, begin, end) == TrimEnd(value, begin, |value|)
    {
      end := end - 1;
    }
    return value[begin..end];
  }

  /** A header line as key and value, the key case-folded; `None` if there is no colon. */
  function SplitHeader(line: Text): Option<(Text, Text)> {
    var colon := Find(line, ":", 0);
    if colon == -1 then None
    else Some((Lower(Trim(line[..colon])), Trim(line[colon + 1..])))
  }

  function ApplyHeader(r: Req, key: Text, value: Text): Req {
    var keep :=
      if key != "connection" then r.keepAlive
      else if Lower(value) == "close" then false
      else if Lower(value) == "keep-alive" then true
      else r.keepAlive;
    r.(headers := r.headers[key := value], keepAlive := keep)
  }

  // ---------- the line-driven machine ----------

  /** How a parse ends: past the blank line at `headersEnd`, at a malformed line, or out of data. */
  datatype Verdict = Accepted(headersEnd: nat) | Rejected | Starved

  function ApplyRequestLine(r: Req, line: Text): (res: (bool, Req))
    ensures res.1.state == r.state && res.1.body == r.body
  {
    match SplitRequestLine(line)
    case None => (false, r)
    case Some(l) =>
      var verb := VerbOf(l.verb);
      if verb == BAD_METHOD then (false, r.(verb := BAD_METHOD))
      else
        var version := "HTTP/" + l.version;
        (true, r.(verb := verb, path := UrlDecode(l.target), version := version,
                  keepAlive := version == "HTTP/1.1"))
  }

  function ApplyHeaderLine(r: Req, line: Text): (res: (bool, Req))
    ensures res.1.state == r.state && res.1.body == r.body && res.1.verb == r.verb
  {
    match SplitHeader(line)
    case None => (false, r)
    case Some((key, value)) => (true, ApplyHeader(r, key, value))
  }

  /** What one non-blank line does to a parser that is still reading lines. */
  function ApplyLine(r: Req, line: Text): (res: (bool, Req))
    ensures res.1.body == r.body
    ensures res.0 && r.state != AtBody ==> res.1.state == AtHeaders || r.state == Finished
  {
    match r.state
    case AtRequestLine => var (ok, r') := ApplyRequestLine(r, line); (ok, if ok then r'.(state := AtHeaders) else r')
    case AtHeaders => ApplyHeaderLine(r, line)
    case _ => (true, r)
  }

  /** What a line does to a parser: whether it is accepted, and the parser after it. */
  type LineRule = (Req, Text) -> (bool, Req)

  /** The loop over the lines, for any rule of what a line does. */
  function DriveBy(rule: LineRule, data: Text, pos: nat, r: Req): (Verdict, Req)
    decreases |data| - pos
  {
    if r.state == Finished then (Accepted(0), r)
    else
      var end := Find(data, CRLF, pos);
      if pos >= |data| || end == -1 then (Starved, r)
      else if r.state == AtHeaders && end == pos then (Accepted(end + 2), EndHeaders(r, data, end + 2))
      else
        var (ok, r') := rule(r, data[pos..end]);
        if ok then DriveBy(rule, data, end + 2, r') else (Rejected, r')
  }

  /** `rule` is what the code does with a line. */
  ghost predicate IsLineRule(rule: LineRule) {
    forall r: Req, line: Text {:trigger ApplyLine(r, line)} :: rule(r, line) == ApplyLine(r, line)
  }

  function Drive(data: Text, pos: nat, r: Req): (Verdict, Req) {
    DriveBy(ApplyLine, data, pos, r)
  }

  function EndHeaders(r: Req, data: Text, bodyStart: nat): Req {
    if r.verb == GET then r.(state := Finished) else TakeBody(r.(state := AtBody), data, bodyStart)
  }

  function TakeBody(r: Req, data: Text, start: nat): Req {
    if start < |data| then r.(body := data[start..]) else r
  }

  /** What the server learns from one framed request, on a parser used once. */
  function Parse(data: Text): (Verdict, Req) {
    Drive(data, 0, BLANK_REQUEST)
  }

  /** The value a request has under a key, in any letter case; empty without one. */
  function HeaderOf(r: Req, key: Text): Text {
    if Lower(key) in r.headers then r.headers[Lower(key)] else []
  }

  class HttpRequest {
    var state: ParseState
    var verb: HttpMethod
    var path: Text
    var version: Text
    var body: Text
    var keepAlive: bool
    var headers: map<Text, Text>

    function View(): Req
      reads this
    {
      Req(state, verb, path, version, body, keepAlive, headers)
    }

    constructor ()
      ensures View() == BLANK_REQUEST
    {
      state, verb, keepAlive := AtRequestLine, BAD_METHOD, false;
      path, version, body, headers := [], [], [], map[];
    }

    method ParseRequestLine(line: Text) returns (ok: bool)
      modifies this
      ensures (ok, View()) == ApplyRequestLine(old(View()), line)
    {
      var l := SplitRequestLine(line);
      if l == None {
        return false;
      }
      verb := VerbOf(l.value.verb);
      if verb == BAD_METHOD {
        return false;
      }
      path := UrlDecodeLoop(l.value.target);
      version := "HTTP/" + l.value.version;
      keepAlive := version == "HTTP/1.1";
      return true;
    }

    method ParseHeader(line: Text) returns (ok: bool)
      modifies `headers, `keepAlive
      ensures (ok, View()) == ApplyHeaderLine(old(View()), line)
    {
      var colon := Find(line, ":", 0);
      if colon == -1 {
        return false;
      }
      var key := TrimLoop(line[..colon]);
      key := Lower(key);
      var value := TrimLoop(line[colon + 1..]);
      headers := headers[key := value];
      if key == "connection" {
        var lowered := Lower(value);
        if lowered == "close" {
          keepAlive := false;
        } else if lowered == "keep-alive" {
          keepAlive := true;
        }
      }
      return true;
    }

    method ParseBody(data: Text, bodyStart: nat)
      modifies `body
      ensures View() == TakeBody(old(View()), data, bodyStart)
    {
      if bodyStart < |data| {
        body := data[bodyStart..];
      }
    }

    /** The blank line: a GET is complete, any other request takes the rest as its body. */
    method FinishHeaders(data: Text, bodyStart: nat)
      modifies `state, `body
      ensures View() == EndHeaders(old(View()), data, bodyStart)
    {
      if verb == GET {
        state := Finished;
      } else {
        state := AtBody;
        ParseBody(data, bodyStart);
      }
    }

    /** The line cases of the parser's switch. */
    method ParseLine(line: Text, ghost rule: LineRule) returns (ok: bool)
      requires IsLineRule(rule)
      modifies this
      ensures (ok, View()) == rule(old(View()), line)
    {
      assert rule(View(), line) == ApplyLine(View(), line);
      match state {
        case AtRequestLine =>
          ok := ParseRequestLine(line);
          if ok {
            state := AtHeaders;
          }
        case AtHeaders =>
          ok := ParseHeader(line);
        case AtBody =>
          ok := true;
        case Finished =>
          ok := true;
      }
    }

    /** The parser's loop, from whatever state the object is in. */
    method ParseLines(data: Text, ghost rule: LineRule) returns (ok: bool)
      requires IsLineRule(rule)
      modifies this
      ensures ok == DriveBy(rule, data, 0, old(View())).0.Accepted?
      ensures View() == DriveBy(rule, data, 0, old(View())).1
    {
      ghost var all := DriveBy(rule, data, 0, View());
      var pos := 0;
      while pos < |data|
        invariant 0 <= pos <= |data|
        invariant DriveBy(rule, data, pos, View()) == all
        decreases |data| - pos
      {
        var lineEnd := Find(data, CRLF, pos);
        if lineEnd == -1 {
          break;
        }
        var line := data[pos..lineEnd];
        if state == Finished {
          return true;
        }
        if state == AtHeaders && line == [] {
          FinishHeaders(data, lineEnd + 2);
          return true;
        }
        var good := ParseLine(line, rule);
        if !good {
          return false;
        }
        pos := lineEnd + 2;
      }
      return state == Finished;
    }

    method ParseData(data: Text) returns (ok: bool)
      modifies this
      ensures data == [] ==> !ok && View() == old(View())
      ensures data != [] ==> ok == Drive(data, 0, old(View())).0.Accepted?
      ensures data != [] ==> View() == Drive(data, 0, old(View())).1
    {
      if data == [] {
        return false;
      }
      ok := ParseLines(data, ApplyLine);
    }

    method GetHeader(key: Text) returns (value: Text)
      ensures value == HeaderOf(View(), key)
    {
      value := [];
      var folded := Lower(key);
      if folded in headers {
        value := headers[folded];
      }
    }
  }

  // ---------- the parser against the framer ----------

  /** A parse that stands at `pos` has passed no blank line yet. */
  ghost predicate Standing(data: Text, pos: nat, r: Req) {
    && (r.state == AtRequestLine ==> pos == 0)
    && (r.state == AtHeaders ==> pos >= 2 && At(data, CRLF, pos - 2))
    && (r.state == AtRequestLine || r.state == AtHeaders)
    && forall i :: 0 <= i < pos - 2 ==> !At(data, BLANK, i)
  }

  /** Passing a non-empty line, or the request line, passes no blank line. */
  lemma StandingSteps(data: Text, pos: nat, r: Req, r': Req)
    requires Standing(data, pos, r) && r'.state == AtHeaders
    requires Find(data, CRLF, pos) >= 0
    requires r.state == AtHeaders ==> Find(data, CRLF, pos) != pos
    ensures Standing(data, Find(data, CRLF, pos) + 2, r')
  {
    var end := Find(data, CRLF, pos);
    forall i | 0 <= i < end ensures !At(data, BLANK, i) {
      NoBlankBefore(data, pos, r, i);
    }
  }

  lemma NoBlankBefore(data: Text, pos: nat, r: Req, i: nat)
    requires Standing(data, pos, r)
    requires r.state == AtHeaders && i == pos - 2 ==> !At(data, CRLF, pos)
    requires i >= pos ==> !At(data, CRLF, i)
    ensures !At(data, BLANK, i)
  {
    AtBlank(data, i);
    AtCrlf(data, i);
    if pos >= 2 {
      AtCrlf(data, pos - 2);
    }
  }

  /** A rule that leaves the body alone and goes on to the headers. */
  ghost predicate LineByLine(rule: LineRule) {
    forall r: Req, line: Text ::
      && rule(r, line).1.body == r.body
      && (rule(r, line).0 && (r.state == AtRequestLine || r.state == AtHeaders) ==> rule(r, line).1.state == AtHeaders)
  }

  lemma ApplyLineIsLineByLine()
    ensures LineByLine(ApplyLine)
  {
  }

  /** An accepted parse stops exactly where the framer saw the headers end, and the rest is the body;
      a parse runs out of data only if there is no blank line at all. */
  lemma {:induction false} DriveMeetsBlank(rule: LineRule, data: Text, pos: nat, r: Req)
    requires LineByLine(rule) && Standing(data, pos, r) && r.body == []
    ensures var (v, r') := DriveBy(rule, data, pos, r);
            && (v.Starved? ==> HeaderEnd(data) == -1)
            && (v.Accepted? ==>
                  && v.headersEnd == HeaderEnd(data)
                  && r'.body == if r'.verb == GET then [] else data[v.headersEnd..])
    decreases |data| - pos
  {
    var end := Find(data, CRLF, pos);
    if pos >= |data| || end == -1 {
      forall i | 0 <= i ensures !At(data, BLANK, i) {
        NoBlankBefore(data, pos, r, i);
      }
    } else if r.state == AtHeaders && end == pos {
      AtBlank(data, pos - 2);
      FindIs(data, BLANK, 0, pos - 2);
    } else {
      var (ok, r') := rule(r, data[pos..end]);
      if ok {
        StandingSteps(data, pos, r, r');
        DriveMeetsBlank(rule, data, end + 2, r');
      }
    }
  }

  lemma ParseMeetsBlank(data: Text)
    ensures var (v, r) := Parse(data);
            && (v.Starved? ==> HeaderEnd(data) == -1)
            && (v.Accepted? ==>
                  && v.headersEnd == HeaderEnd(data)
                  && r.body == if r.verb == GET then [] else data[v.headersEnd..])
  {
    ApplyLineIsLineByLine();
    DriveMeetsBlank(ApplyLine, data, 0, BLANK_REQUEST);
  }

  /** On every extracted request whose length sum does not wrap, the parser either rejects a line or
      reaches the blank line where the framer did; an accepted request other than GET gets exactly
      the announced number of body bytes; and nothing is accepted once the sum wraps. */
  lemma FramerAndParserAgree(buf: Text)
    requires Extract(buf).Request?
    ensures var (v, r) := Parse(Extract(buf).raw);
            && (NoWrap(buf) ==> !v.Starved?)
            && (v.Accepted? ==>
                  && NoWrap(buf)
                  && v.headersEnd == HeaderEnd(buf)
                  && (r.verb != GET ==> r.body == Extract(buf).raw[HeaderEnd(buf)..] && |r.body| == BodyLength(buf)))
  {
    var raw, p := Extract(buf).raw, Parse(Extract(buf).raw);
    ParseMeetsBlank(raw);
    Agreement(buf, raw, p.0, p.1);
  }

  lemma Agreement(buf: Text, raw: Text, v: Verdict, r: Req)
    requires Extract(buf).Request? && raw == Extract(buf).raw
    requires v.Starved? ==> HeaderEnd(raw) == -1
    requires v.Accepted? ==>
               v.headersEnd == HeaderEnd(raw) && r.body == if r.verb == GET then [] else raw[v.headersEnd..]
    ensures NoWrap(buf) ==> !v.Starved?
    ensures v.Accepted? ==>
              && NoWrap(buf)
              && v.headersEnd == HeaderEnd(buf)
              && (r.verb != GET ==> r.body == raw[HeaderEnd(buf)..] && |r.body| == BodyLength(buf))
  {
    ExtractWhole(buf);
    if !NoWrap(buf) {
      NoBlankInPrefix(buf, |raw|);
    }
  }

  lemma NoBlankInPrefix(buf: Text, n: nat)
    requires n <= |buf| && n < HeaderEnd(buf)
    ensures HeaderEnd(buf[..n]) == -1
  {
    forall i | 0 <= i ensures !At(buf[..n], BLANK, i) {
      assert At(buf[..n], BLANK, i) ==> At(buf, BLANK, i);
    }
  }

  /** Bytes after the blank line change nothing but the body. */
  lemma {:induction false} DriveStable(rule: LineRule, data: Text, more: Text, pos: nat, r: Req)
    requires DriveBy(rule, data, pos, r).0.Accepted?
    ensures DriveBy(rule, data + more, pos, r).0 == DriveBy(rule, data, pos, r).0
    ensures DriveBy(rule, data + more, pos, r).1.(body := []) == DriveBy(rule, data, pos, r).1.(body := [])
    decreases |data| - pos
  {
    if r.state != Finished {
      FindStable(data, more, CRLF, pos);
      var end := Find(data, CRLF, pos);
      assert (data + more)[pos..end] == data[pos..end];
      if !(r.state == AtHeaders && end == pos) {
        DriveStable(rule, data, more, end + 2, rule(r, data[pos..end]).1);
      }
    }
  }

  /** For a header block the parser accepts on its own, the framed request is accepted if and only if
      the length sum did not wrap. */
  lemma AcceptedIffNoWrap(buf: Text)
    requires Extract(buf).Request?
    requires Parse(buf[..HeaderEnd(buf)]).0.Accepted?
    ensures Parse(Extract(buf).raw).0.Accepted? <==> NoWrap(buf)
  {
    FramerAndParserAgree(buf);
    if NoWrap(buf) {
      ExtractWhole(buf);
      var raw, h := Extract(buf).raw, HeaderEnd(buf);
      assert raw == raw[..h] + raw[h..];
      DriveStable(ApplyLine, raw[..h], raw[h..], 0, BLANK_REQUEST);
    }
  }

  // ---------- which requests are accepted ----------

  /** A request line the server takes: captured by the pattern, with one of four methods. */
  ghost predicate GoodRequestLine(line: Text) {
    exists l :: Captures(line, l) && l.verb in ["GET", "POST", "PUT", "DELETE"]
  }

  lemma RequestLineAccepted(r: Req, line: Text)
    ensures ApplyRequestLine(r, line).0 <==> GoodRequestLine(line)
  {
    hide SplitRequestLine, Captures, UrlDecode;
    if SplitRequestLine(line).Some? {
      SplitExact(line, SplitRequestLine(line).value);
    }
    if GoodRequestLine(line) {
      var l :| Captures(line, l) && l.verb in ["GET", "POST", "PUT", "DELETE"];
      SplitExact(line, l);
    }
  }

  lemma HeaderLineAccepted(r: Req, line: Text)
    ensures ApplyHeaderLine(r, line).0 <==> ':' in line
  {
    hide Lower, Trim;
    var colon := Find(line, ":", 0);
    if colon != -1 {
      AtChar(line, ':', colon);
    }
    forall i | 0 <= i < |line| && line[i] == ':' ensures colon != -1 {
      AtChar(line, ':', i);
    }
  }

  /** The lines that are left are good ones: a request line, if none was read yet, and header lines. */
  ghost predicate GoodLines(state: ParseState, lines: seq<Text>) {
    && (state == AtRequestLine && lines != [] ==> GoodRequestLine(lines[0]))
    && forall i :: (if state == AtRequestLine then 1 else 0) <= i < |lines| ==> ':' in lines[i]
  }

  lemma GoodLinesCons(state: ParseState, line: Text, rest: seq<Text>)
    ensures GoodLines(state, [line] + rest) <==>
            (if state == AtRequestLine then GoodRequestLine(line) else ':' in line) && GoodLines(AtHeaders, rest)
  {
    hide GoodRequestLine;
    var lines := [line] + rest;
    assert lines[0] == line;
    if GoodLines(state, lines) {
      forall i | 0 <= i < |rest| ensures ':' in rest[i] {
        assert lines[i + 1] == rest[i];
      }
    }
    if GoodLines(AtHeaders, rest) {
      forall i | 1 <= i < |lines| ensures ':' in lines[i] {
        assert lines[i] == rest[i - 1];
      }
    }
  }

  lemma LineAccepted(r: Req, line: Text)
    requires r.state == AtRequestLine || r.state == AtHeaders
    ensures ApplyLine(r, line).0 <==> if r.state == AtRequestLine then GoodRequestLine(line) else ':' in line
    ensures ApplyLine(r, line).0 ==> ApplyLine(r, line).1.state == AtHeaders
  {
    hide ApplyRequestLine, ApplyHeaderLine, GoodRequestLine;
    RequestLineAccepted(r, line);
    HeaderLineAccepted(r, line);
  }

  lemma CrlfInPart(data: Text, pos: nat, blank: nat, i: nat)
    requires pos <= blank <= |data|
    ensures At(data[pos..blank], CRLF, i) <==> pos + i + 2 <= blank && At(data, CRLF, pos + i)
  {
    AtCrlf(data[pos..blank], i);
    AtCrlf(data, pos + i);
  }

  /** The first line end is the blank line's, or it lies well before it. */
  lemma LineEndBefore(data: Text, pos: nat, blank: nat)
    requires pos <= blank && At(data, BLANK, blank)
    ensures var end := Find(data, CRLF, pos); pos <= end && (end == blank || end + 2 <= blank)
  {
    AtBlank(data, blank);
    AtCrlf(data, blank);
    AtCrlf(data, Find(data, CRLF, pos));
  }

  lemma FindInPart(data: Text, pos: nat, blank: nat)
    requires pos <= blank && At(data, BLANK, blank)
    ensures var end := Find(data, CRLF, pos);
            Find(data[pos..blank], CRLF, 0) == if end == blank then -1 else end - pos
  {
    LineEndBefore(data, pos, blank);
    var end, part := Find(data, CRLF, pos), data[pos..blank];
    hide At;
    if end == blank {
      if Find(part, CRLF, 0) != -1 {
        CrlfInPart(data, pos, blank, Find(part, CRLF, 0));
        assert false;
      }
    } else {
      forall i | 0 <= i <= end - pos ensures At(part, CRLF, i) <==> At(data, CRLF, pos + i) {
        CrlfInPart(data, pos, blank, i);
      }
      FindIs(part, CRLF, 0, end - pos);
    }
  }

  /** The next line before the blank one, and what splitting makes of it. */
  lemma NextLine(data: Text, pos: nat, blank: nat)
    requires pos <= blank && At(data, BLANK, blank)
    ensures var end := Find(data, CRLF, pos);
            && pos <= end <= blank
            && (end == blank ==> Split(data[pos..blank], CRLF) == [data[pos..end]])
            && (end < blank ==>
                  end + 2 <= blank &&
                  Split(data[pos..blank], CRLF) == [data[pos..end]] + Split(data[end + 2..blank], CRLF))
  {
    LineEndBefore(data, pos, blank);
    FindInPart(data, pos, blank);
    hide Find, At, Split;
    var end, part := Find(data, CRLF, pos), data[pos..blank];
    SplitUnfolds(part, CRLF);
    if end < blank {
      assert part[..end - pos] == data[pos..end] && part[end - pos + 2..] == data[end + 2..blank];
    }
  }

  lemma BlankLineEnds(data: Text)
    requires HeaderEnd(data) != -1
    ensures var blank := HeaderEnd(data) - 4;
            At(data, BLANK, blank) && At(data, CRLF, blank + 2) && Find(data, CRLF, blank + 2) == blank + 2
  {
    AtBlank(data, HeaderEnd(data) - 4);
    FindIs(data, CRLF, HeaderEnd(data) - 2, HeaderEnd(data) - 2);
  }

  lemma AfterBlank(data: Text, pos: nat, r: Req)
    requires Standing(data, pos, r) && HeaderEnd(data) != -1 && pos == HeaderEnd(data) - 2
    ensures pos < |data| && r.state == AtHeaders
  {
  }

  lemma NotBlankYet(data: Text, pos: nat, r: Req)
    requires Standing(data, pos, r) && HeaderEnd(data) != -1 && pos <= HeaderEnd(data) - 4
    ensures pos < |data| && (r.state == AtRequestLine || r.state == AtHeaders)
    ensures r.state == AtHeaders ==> Find(data, CRLF, pos) != pos
  {
    if r.state == AtHeaders {
      AtBlank(data, pos - 2);
    }
  }

  lemma {:induction false} DriveAccepts(data: Text, pos: nat, r: Req)
    requires Standing(data, pos, r) && HeaderEnd(data) != -1
    requires pos <= HeaderEnd(data) - 4 || pos == HeaderEnd(data) - 2
    ensures DriveBy(ApplyLine, data, pos, r).0.Accepted? <==>
            pos == HeaderEnd(data) - 2 || GoodLines(r.state, Split(data[pos..HeaderEnd(data) - 4], CRLF))
    decreases |data| - pos
  {
    hide ApplyLine, GoodLines, Split, Find, At, Standing, GoodRequestLine;
    var blank := HeaderEnd(data) - 4;
    BlankLineEnds(data);
    if pos == blank + 2 {
      AfterBlank(data, pos, r);
    } else {
      NextLine(data, pos, blank);
      var end := Find(data, CRLF, pos);
      var line := data[pos..end];
      NotBlankYet(data, pos, r);
      LineAccepted(r, line);
      var rest := if end < blank then Split(data[end + 2..blank], CRLF) else [];
      GoodLinesCons(r.state, line, rest);
      assert [line] + [] == [line];
      NoLinesAreGood();
      if ApplyLine(r, line).0 {
        StandingSteps(data, pos, r, ApplyLine(r, line).1);
        DriveAccepts(data, end + 2, ApplyLine(r, line).1);
      }
    }
  }

  lemma NoLinesAreGood()
    ensures GoodLines(AtHeaders, [])
  {
  }

  /** Exactly which requests the parser accepts: those with a blank line, before it a request line that the
      pattern captures with the method spelt GET, POST, PUT or DELETE, and a colon in every line after. */
  lemma ParseAccepts(raw: Text)
    ensures Parse(raw).0.Accepted? <==>
            && HeaderEnd(raw) != -1
            && var lines := Split(raw[..HeaderEnd(raw) - 4], CRLF);
               && (exists l :: Captures(lines[0], l) && l.verb in ["GET", "POST", "PUT", "DELETE"])
               && forall i :: 1 <= i < |lines| ==> ':' in lines[i]
  {
    hide DriveBy, Captures;
    if HeaderEnd(raw) == -1 {
      ParseMeetsBlank(raw);
    } else {
      DriveAccepts(raw, 0, BLANK_REQUEST);
      SplitNotEmpty(raw[..HeaderEnd(raw) - 4]);
      assert raw[0..HeaderEnd(raw) - 4] == raw[..HeaderEnd(raw) - 4];
      var lines := Split(raw[..HeaderEnd(raw) - 4], CRLF);
      assert GoodLines(AtRequestLine, lines) <==>
             GoodRequestLine(lines[0]) && forall i :: 1 <= i < |lines| ==> ':' in lines[i];
    }
  }

  lemma SplitNotEmpty(s: Text)
    ensures Split(s, CRLF) != []
  {
  }
}
