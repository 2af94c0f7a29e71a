/** What the server answers to one framed request: parse it, route it, and build the reply. */
module Service {
  import opened Bytes
  import opened HttpRequests
  import opened HttpResponses
  import opened HeaderBlocks
  import opened RequestRouters
  import opened Connections

  /** What the outside decides while one request is served: whether the user service accepts the
      credentials, what opening the requested file gives, and the MIME type of its name. */
  datatype World = World(accepted: bool, found: Option<Text>, mime: Text)

  /** A reply as it is loaded into a connection: text, perhaps a mapped file after it, and whether
      the connection closes once it is out. */
  datatype Reply = Reply(text: Text, file: Option<Text>, close: bool)
  {
    /** The reply's bytes on the wire. */
    function Wire(): Text {
      text + (if file.Some? then file.value else [])
    }
  }

  function Respond(raw: Text, w: World): Reply {
    var (verdict, r) := Parse(raw);
    if !verdict.Accepted? then Reply(BAD_REQUEST, None, true)
    else if Handles(r) then
      var routed := Route(r, w.accepted);
      Reply(BuildText(routed.statusCode, routed.body, r.keepAlive, routed.contentType), None, !r.keepAlive)
    else
      var p := Prepare(r.path, r.keepAlive, w.found, w.mime);
      if p.file.Some? then Reply(p.header, p.file, !r.keepAlive)
      else Reply(p.header + p.body, None, !r.keepAlive)
  }

  function Load(c: Conn, reply: Reply): Conn {
    (if reply.file.Some? then SetMapped(c, reply.text, reply.file.value) else SetText(c, reply.text))
    .(closeAfterWrite := reply.close)
  }

  lemma LoadUnsent(c: Conn, reply: Reply)
    ensures Cursor(Load(c, reply)) && Unsent(Load(c, reply)) == reply.Wire()
  {
    LoadedUnsent(c, reply.text, if reply.file.Some? then reply.file.value else []);
    assert reply.text + [] == reply.text;
  }

  lemma RouteTypeHasNoCrlf(r: Req, accepted: bool)
    ensures NoCrlf(Route(r, accepted).contentType)
  {
    NoCrIsNoCrlf(JSON);
  }

  /** Every reply, to whatever request in whatever world, is non-empty and reads back at the client
      as one response that covers exactly its bytes. */
  lemma ReplyDecodes(raw: Text, w: World, more: Text)
    requires NoCrlf(w.mime)
    ensures var wire := Respond(raw, w).Wire();
            && wire != []
            && Decode(wire + more).Response?
            && Decode(wire + more).headers + Decode(wire + more).body == wire
  {
    var (verdict, r) := Parse(raw);
    var wire := Respond(raw, w).Wire();
    if !verdict.Accepted? {
      BadRequestRoundTrip(more);
      assert wire == BAD_REQUEST;
    } else if Handles(r) {
      var routed := Route(r, w.accepted);
      RouteTypeHasNoCrlf(r, w.accepted);
      TextRoundTrip(routed.statusCode, routed.body, r.keepAlive, routed.contentType, more);
      assert wire == BuildText(routed.statusCode, routed.body, r.keepAlive, routed.contentType);
    } else {
      var p := Prepare(r.path, r.keepAlive, w.found, w.mime);
      PreparedRoundTrip(r.path, r.keepAlive, w.found, w.mime, more);
      assert wire == p.header + p.Payload();
    }
  }

  // ---------- a stream of replies ----------

  /** How a server answers a request in a world. */
  type Responder = (Text, World) -> Reply

  /** One request served: what was framed, the world it was served in, and the reply. */
  datatype Exchange = Exchange(raw: Text, world: World, reply: Reply)

  function Raws(served: seq<Exchange>): (r: seq<Text>)
    ensures |r| == |served| && forall i :: 0 <= i < |served| ==> r[i] == served[i].raw
  {
    seq(|served|, i requires 0 <= i < |served| => served[i].raw)
  }

  function Wires(served: seq<Exchange>): (r: seq<Text>)
    ensures |r| == |served| && forall i :: 0 <= i < |served| ==> r[i] == served[i].reply.Wire()
  {
    seq(|served|, i requires 0 <= i < |served| => served[i].reply.Wire())
  }

  /** The replies' bytes, in order. */
  function Stream(served: seq<Exchange>): Text {
    Flat(Wires(served))
  }

  lemma ServeSnoc(served: seq<Exchange>, x: Exchange)
    ensures Stream(served + [x]) == Stream(served) + x.reply.Wire()
    ensures Raws(served + [x]) == Raws(served) + [x.raw]
  {
    assert Wires(served + [x]) == Wires(served) + [x.reply.Wire()];
    FlatSnoc(Wires(served), x.reply.Wire());
  }

  // ---------- reading the stream back ----------

  /** Replies this service gives, in worlds whose MIME types hold no carriage return. */
  predicate GivenBy(respond: Responder, served: seq<Exchange>) {
    forall i :: 0 <= i < |served| ==> served[i].reply == respond(served[i].raw, served[i].world)
  }

  predicate LegalWorlds(served: seq<Exchange>) {
    forall i :: 0 <= i < |served| ==> '\r' !in served[i].world.mime
  }

  lemma ReplySelfDelimiting(raw: Text, w: World)
    requires '\r' !in w.mime
    ensures SelfDelimiting(Respond(raw, w).Wire())
  {
    hide Respond, Decode;
    NoCrIsNoCrlf(w.mime);
    ReplyDecodes(raw, w, []);
    assert Respond(raw, w).Wire() + [] == Respond(raw, w).Wire();
  }

  lemma AllRepliesSelfDelimiting(served: seq<Exchange>)
    requires GivenBy(Respond, served) && LegalWorlds(served)
    ensures forall i :: 0 <= i < |served| ==> SelfDelimiting(served[i].reply.Wire())
    ensures forall w :: w in Wires(served) ==> SelfDelimiting(w)
  {
    hide Respond, SelfDelimiting;
    forall i | 0 <= i < |served| ensures SelfDelimiting(served[i].reply.Wire()) {
      ReplySelfDelimiting(served[i].raw, served[i].world);
    }
  }

  /** A buffering reader: it reads `n` responses off a stream and keeps what it has received past one
      response for the next. (The repository's own client does not; see `Clients`.) */
  function ReadOn(stream: Text, n: nat): Option<seq<Received>> {
    if n == 0 then Some([])
    else
      var r := Decode(stream);
      if r.Failed? || |r.headers| + |r.body| > |stream| then None
      else
        var rest := ReadOn(stream[|r.headers| + |r.body|..], n - 1);
        if rest == None then None else Some([r] + rest.value)
  }

  lemma {:induction false} DelimitedReadsOn(wires: seq<Text>, more: Text)
    requires forall i :: 0 <= i < |wires| ==> SelfDelimiting(wires[i])
    ensures var got := ReadOn(Flat(wires) + more, |wires|);
            && got.Some? && |got.value| == |wires|
            && forall i :: 0 <= i < |wires| ==>
                 got.value[i].Response? && got.value[i].headers + got.value[i].body == wires[i]
    decreases |wires|
  {
    hide Decode;
    if wires != [] {
      var rest := Flat(wires[1..]) + more;
      assert Flat(wires) + more == wires[0] + rest;
      DelimitedReadsOn(wires[1..], more);
      DecodeStable(wires[0], rest);
      var first := Decode(wires[0] + rest);
      assert (wires[0] + rest)[|first.headers| + |first.body|..] == rest;
    }
  }

  /** A buffering reader gets from a stream of the service's replies exactly those replies, in order,
      each split into its header block and its body: the announced lengths delimit the stream
      (section 6.3 of RFC 9112). */
  lemma StreamDelimited(served: seq<Exchange>, more: Text)
    requires GivenBy(Respond, served) && LegalWorlds(served)
    ensures var got := ReadOn(Stream(served) + more, |served|);
            && got.Some? && |got.value| == |served|
            && forall i :: 0 <= i < |served| ==>
                 got.value[i].Response? && got.value[i].headers + got.value[i].body == served[i].reply.Wire()
  {
    hide ReadOn, SelfDelimiting, Respond, Decode;
    AllRepliesSelfDelimiting(served);
    DelimitedReadsOn(Wires(served), more);
  }
}
