/** What the service answers to a request, told from what the request meant. */
module ServiceMeanings {
  import opened Bytes
  import opened HeaderBlocks
  import opened HttpRequests
  import opened HttpResponses
  import opened RequestRouters
  import opened RequestStreams
  import opened Service
  import opened UrlCodec

  // ---------- any request ----------

  /** A request that does not parse is told so, and the connection closes. */
  lemma RejectedCloses(raw: Text, w: World, more: Text)
    requires !Parse(raw).0.Accepted?
    ensures var d := Decode(Respond(raw, w).Wire() + more);
            && Respond(raw, w).close && d.Response? && d.body == "Bad Request"
            && Tells(d.headers, 400, PLAIN_TEXT, false)
  {
    hide Parse, Decode, Tells, BAD_REQUEST;
    assert BAD_REQUEST + [] == BAD_REQUEST;
    BadRequestRoundTrip(more);
    BadRequestTells();
  }

  /** No answer to a path with ".." in it depends on any file, nor on the rest of the world. */
  lemma ForbiddenIgnoresFiles(raw: Text, w: World, w': World)
    requires Parse(raw).0.Accepted? && Occurs(Parse(raw).1.path, "..")
    ensures Respond(raw, w) == Respond(raw, w') && Respond(raw, w).file == None
  {
    var path: Text := Parse(raw).1.path;
    NoDots();
    DotsFound(path);
  }

  lemma NoDots()
    ensures !Occurs("/register", "..") && !Occurs("/login", "..")
  {
    forall i ensures !At("/register", "..", i) && !At("/login", "..", i) {
      assert ".."[0] == '.';
    }
  }

  // ---------- what a request asks for ----------

  /** The body the server sees: a GET has none. */
  function Body(m: Message): Text {
    if m.verb == GET then [] else m.body
  }

  predicate IsForm(path: Text) {
    path == "/register" || path == "/login"
  }

  predicate Filled(m: Message) {
    FormField(Body(m), "username") != [] && FormField(Body(m), "password") != []
  }

  /** The status a request is due. */
  ghost predicate StatusDue(m: Message, w: World, status: int)
    requires AllLegal(m.target)
  {
    var path := MeaningAll(m.target);
    if IsForm(path) then
      && (status == 405 <==> m.verb != POST)
      && (status == 400 <==> m.verb == POST && !Filled(m))
      && (status == 409 <==> m.verb == POST && Filled(m) && !w.accepted && path == "/register")
      && (status == 401 <==> m.verb == POST && Filled(m) && !w.accepted && path == "/login")
      && (status == 201 <==> m.verb == POST && Filled(m) && w.accepted && path == "/register")
      && (status == 200 <==> m.verb == POST && Filled(m) && w.accepted && path == "/login")
    else
      && (status == 403 <==> Occurs(path, ".."))
      && (status == 200 <==> !Occurs(path, "..") && (w.found.Some? || path == "/" || path == []))
      && (status == 404 <==> !Occurs(path, "..") && w.found == None && path != "/" && path != [])
  }

  /** The body and its type a request is due, where the outside decides them. */
  ghost predicate Delivers(m: Message, w: World, headers: Text, body: Text)
    requires AllLegal(m.target)
  {
    var path := MeaningAll(m.target);
    !IsForm(path) && !Occurs(path, "..") && w.found.Some? ==>
      body == w.found.value && Carries(headers, "Content-Type: " + w.mime)
  }

  lemma FormAnswered(m: Message, w: World, r: Req, more: Text)
    requires AllLegal(m.target) && Says(r, m) && IsForm(MeaningAll(m.target))
    ensures var routed := Route(r, w.accepted);
            var d := Decode(BuildText(routed.statusCode, routed.body, r.keepAlive, routed.contentType) + more);
            && d.Response? && d.body == routed.body && StatusDue(m, w, StatusOf(d.headers))
            && (Carries(d.headers, CLOSE_LINE) <==> !r.keepAlive) && (Carries(d.headers, KEEP_LINE) <==> r.keepAlive)
  {
    hide BuildText, Decode, StatusOf, StatusLine, Carries, FormField, TextLines, Block;
    var routed := Route(r, w.accepted);
    RouteAdmits(r, w.accepted);
    RouteTypeHasNoCrlf(r, w.accepted);
    TextRoundTrip(routed.statusCode, routed.body, r.keepAlive, routed.contentType, more);
    LinesTell(routed.statusCode, |routed.body|, r.keepAlive, routed.contentType);
  }

  lemma PageAnswered(m: Message, w: World, r: Req, more: Text)
    requires AllLegal(m.target) && Says(r, m) && !IsForm(MeaningAll(m.target)) && NoCrlf(w.mime)
    ensures var p := Prepare(r.path, r.keepAlive, w.found, w.mime);
            var d := Decode(p.header + p.Payload() + more);
            && d.Response? && StatusDue(m, w, StatusOf(d.headers)) && Delivers(m, w, d.headers, d.body)
            && (Carries(d.headers, CLOSE_LINE) <==> !r.keepAlive) && (Carries(d.headers, KEEP_LINE) <==> r.keepAlive)
  {
    hide Prepare, Decode, StatusOf, Carries, FORBIDDEN_BODY, WELCOME_BODY, NOT_FOUND_BODY;
    PrepareOutcome(r.path, r.keepAlive, w.found, w.mime);
    PreparedRoundTrip(r.path, r.keepAlive, w.found, w.mime, more);
  }

  lemma FormDelivers(m: Message, w: World)
    requires AllLegal(m.target) && IsForm(MeaningAll(m.target))
    ensures forall headers, body :: Delivers(m, w, headers, body)
  {
  }

  lemma AcceptedWire(raw: Text, w: World, r: Req)
    requires Parse(raw).0.Accepted? && Parse(raw).1 == r
    ensures Respond(raw, w).close == !r.keepAlive
    ensures var routed, p := Route(r, w.accepted), Prepare(r.path, r.keepAlive, w.found, w.mime);
            Respond(raw, w).Wire() ==
            if IsForm(r.path) then BuildText(routed.statusCode, routed.body, r.keepAlive, routed.contentType)
            else p.header + p.Payload()
  {
    hide Parse, BuildText, Prepare, Route;
    var routed, p := Route(r, w.accepted), Prepare(r.path, r.keepAlive, w.found, w.mime);
    var text := BuildText(routed.statusCode, routed.body, r.keepAlive, routed.contentType);
    assert text + [] == text && p.header + p.body + [] == p.header + p.body;
  }

  /** What a well-formed request is answered, whatever follows the answer: the status it is due, the file it
      asks for under its type, and the connection kept exactly if the request lets it stay, which the
      header block says too. */
  lemma AnsweredAsMeant(m: Message, w: World, more: Text)
    requires WellFormed(m) && '\r' !in w.mime
    ensures AllLegal(m.target)
    ensures var reply := Respond(m.Print(), w);
            var d := Decode(reply.Wire() + more);
            && (reply.close <==> !Stays(m.version, m.headers))
            && d.Response? && StatusDue(m, w, StatusOf(d.headers)) && Delivers(m, w, d.headers, d.body)
            && (Carries(d.headers, CLOSE_LINE) <==> reply.close) && (Carries(d.headers, KEEP_LINE) <==> !reply.close)
  {
    hide WellFormed, Parse, BuildText, Prepare, Decode, StatusOf, Carries, Route, StatusDue, Delivers, Stays;
    ParsedExactly(m);
    TargetLegal(m);
    NoCrIsNoCrlf(w.mime);
    var r := Parse(m.Print()).1;
    AcceptedWire(m.Print(), w, r);
    hide Respond;
    if IsForm(r.path) {
      FormAnswered(m, w, r, more);
      FormDelivers(m, w);
    } else {
      PageAnswered(m, w, r, more);
    }
  }
}
