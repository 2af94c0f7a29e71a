/** One connection's data through one life: what its buffers and its history owe each other at every
    stage of being read, served and written. */
module ServerData {
  import opened Bytes
  import opened Framing
  import opened Connections
  import opened Service
  import opened Server

  /** The stage a connection is at, as its place and its worker's block determine it. */
  datatype Stage =
    | Quiet                 // nothing unsent, no complete request buffered
    | Clean                 // nothing unsent
    | Received(data: Text)  // nothing unsent, bytes read but not yet appended
    | Extracted(raw: Text)  // nothing unsent, a request taken off the buffer but not yet answered
    | Loaded                // bytes to send
    | Sending               // perhaps bytes to send
    | InWrite(iov: seq<Text>)
    | Wrote(n: nat)         // bytes taken by the kernel but not yet consumed
    | Flushed               // everything sent, the last reply perhaps a closing one
    | Gone

  datatype Busy = Yes | No | Either

  datatype Phase = Phase(stage: Stage, busy: Busy)

  function DirStage(dir: Dir): Stage {
    if dir == In then Quiet else Loaded
  }

  function BlockStage(pc: Worker): Stage {
    match pc
    case ReadGet(_) => Quiet
    case ReadRecv(_, _) => Clean
    case ReadAppend(_, _, data) => Received(data)
    case ReadRefresh(_) => Clean
    case ProcessGet(_) => Clean
    case ProcessExtract(_, _) => Clean
    case ProcessReply(_, _, raw) => Extracted(raw)
    case WriteGet(_) => Loaded
    case WriteGather(_, _) => Sending
    case WriteSend(_, _, iov) => InWrite(iov)
    case WriteConsume(_, _, n) => Wrote(n)
    case WriteClear(_, _) => Flushed
    case WriteRefresh(_, _, pending) => if pending then Clean else Quiet
    case Finish(_, _, dir) => DirStage(dir)
    case Arm(_, dir) => DirStage(dir)
    case Idle => Gone
    case Closing(_) => Gone
  }

  function BlockPhase(pc: Worker): Phase {
    Phase(BlockStage(pc), if pc.Arm? then No else if pc.Idle? || pc.Closing? then Either else Yes)
  }

  function PhaseOf(place: Place, workers: Crew): Phase {
    match place
    case Accepted => Phase(Quiet, No)
    case Armed(dir) => Phase(DirStage(dir), No)
    case Delivered(dir) => Phase(DirStage(dir), No)
    case Dispatching(dir) => Phase(DirStage(dir), No)
    case Claimed(dir) => Phase(DirStage(dir), Yes)
    case Queued(dir) => Phase(DirStage(dir), Yes)
    case Running(w) => BlockPhase(if w in workers then workers[w] else Idle)
    case Leaving => Phase(Gone, Either)
  }

  // ---------- what holds at each stage ----------

  predicate LastCloses(served: seq<Exchange>) {
    served != [] && served[|served| - 1].reply.close
  }

  /** Only the last reply may be a closing one. */
  predicate ClosesLast(served: seq<Exchange>) {
    forall i :: 0 <= i < |served| - 1 ==> !served[i].reply.close
  }

  /** All answers but the last are out completely. */
  ghost predicate Sequential(h: History) {
    h.served == [] || Stream(h.served[..|h.served| - 1]) <= h.tx
  }

  /** What is true of a socket's history for ever: the requests served are the first that the peer's
      bytes frame to, each answered as the service answers it; the bytes written are a prefix of the
      answers in order, and no request is served before the answers to the earlier ones are out; and
      nothing is served after a closing answer. */
  ghost predicate HistoryOk(h: History, respond: Responder) {
    && h.rx <= h.input
    && Leads(h.rx, Raws(h.served))
    && h.tx <= Stream(h.served) && Sequential(h)
    && ClosesLast(h.served)
    && GivenBy(respond, h.served) && LegalWorlds(h.served)
  }

  /** Input and read buffer: what was served, the requests in `taken` and the buffer are the framing
      of what arrived, and `flying` bytes have been read but not appended. */
  ghost predicate InputOk(c: Conn, h: History, taken: seq<Text>, flying: Text) {
    && Leads(h.rx, Raws(h.served) + taken)
    && After(h.rx, Raws(h.served) + taken) == c.readBuf
    && h.taken <= |h.input| && h.rx + flying == h.input[..h.taken]
    && c.closeAfterWrite == LastCloses(h.served)
  }

  ghost predicate NothingUnsent(c: Conn, h: History)
    requires Cursor(c)
  {
    Unsent(c) == [] && h.tx == Stream(h.served) && !LastCloses(h.served)
  }

  ghost predicate StageOk(stage: Stage, c: Conn, h: History)
    requires Cursor(c)
  {
    match stage
    case Quiet => InputOk(c, h, [], []) && NothingUnsent(c, h) && Extract(c.readBuf).Incomplete?
    case Clean => InputOk(c, h, [], []) && NothingUnsent(c, h)
    case Received(data) => InputOk(c, h, [], data) && NothingUnsent(c, h)
    case Extracted(raw) => InputOk(c, h, [raw], []) && NothingUnsent(c, h)
    case Loaded => InputOk(c, h, [], []) && h.tx + Unsent(c) == Stream(h.served) && Unsent(c) != []
    case Sending => InputOk(c, h, [], []) && h.tx + Unsent(c) == Stream(h.served)
    case InWrite(iov) =>
      InputOk(c, h, [], []) && h.tx + Unsent(c) == Stream(h.served) && Flat(iov) == Unsent(c) && Unsent(c) != []
    case Wrote(n) => InputOk(c, h, [], []) && n <= |Unsent(c)| && h.tx + Unsent(c)[n..] == Stream(h.served)
    case Flushed => InputOk(c, h, [], []) && h.tx == Stream(h.served) && Unsent(c) == []
    case Gone => true
  }

  predicate BusyOk(busy: Busy, c: Conn) {
    busy == Either || (c.processing <==> busy == Yes)
  }

  /** The data invariant of one connection. Once it is closed only its history counts, and a write
      already under way. */
  ghost predicate Fine(phase: Phase, c: Conn, h: History, respond: Responder) {
    && HistoryOk(h, respond)
    && Cursor(c)
    && (!c.closed ==> BusyOk(phase.busy, c) && StageOk(phase.stage, c, h))
    && (c.closed && phase.stage.InWrite? ==>
          h.tx + Unsent(c) == Stream(h.served) && Flat(phase.stage.iov) == Unsent(c))
  }

  // ---------- what each block does to it ----------

  lemma PastFine(respond: Responder, p: Phase, c: Conn, h: History)
    requires Fine(p, c, h, respond)
    ensures HistoryOk(h, respond)
  {
  }

  lemma NewFine(respond: Responder)
    ensures Fine(Phase(Quiet, No), FRESH, QUIET, respond)
  {
    assert Raws([]) + [] == [];
  }

  /** More bytes from the peer. */
  lemma PeerFine(respond: Responder, p: Phase, c: Conn, h: History, data: Text)
    requires HistoryOk(h, respond)
    ensures HistoryOk(h.(input := h.input + data), respond)
    ensures Fine(p, c, h, respond) ==> Fine(p, c, h.(input := h.input + data), respond)
  {
    hide After, Extract, Stream, Raws, GivenBy, LegalWorlds, ClosesLast;
    if h.taken <= |h.input| {
      assert (h.input + data)[..h.taken] == h.input[..h.taken];
    }
  }

  /** Stages and flags may be forgotten: a quiet connection is clean, a loaded one is sending. */
  lemma WeakerFine(respond: Responder, s: Stage, t: Stage, b: Busy, c: Conn, h: History)
    requires Fine(Phase(s, b), c, h, respond)
    requires t == s || t == Gone || (s == Quiet && t == Clean) || (s == Loaded && t == Sending)
    ensures Fine(Phase(t, b), c, h, respond) && Fine(Phase(t, Either), c, h, respond)
  {
    hide Leads, After, Extract, Stream, Raws, HistoryOk;
  }

  lemma ReadFine(respond: Responder, c: Conn, h: History, n: nat)
    requires Fine(Phase(Clean, Yes), c, h, respond) && h.taken + n <= |h.input|
    ensures Fine(Phase(Received(Slice(h.input, h.taken, n)), Yes), c, h.(taken := h.taken + n), respond)
  {
    hide Leads, After, Extract, Stream, Raws, GivenBy, LegalWorlds, ClosesLast;
    TakeMore(h.input, h.taken, n);
  }

  lemma TakeMore(input: Text, taken: nat, n: nat)
    requires taken + n <= |input|
    ensures input[..taken + n] == input[..taken] + Slice(input, taken, n)
    ensures input[..taken] + [] == input[..taken]
  {
  }

  lemma SendMore(tx: Text, unsent: Text, n: nat)
    requires n <= |unsent|
    ensures tx + Slice(unsent, 0, n) + unsent[n..] == tx + unsent
    ensures tx + Slice(unsent, 0, n) <= tx + unsent
  {
    assert unsent[0..0 + n] + unsent[n..] == unsent;
  }

  lemma AppendFine(respond: Responder, c: Conn, h: History, data: Text)
    requires Fine(Phase(Received(data), Yes), c, h, respond)
    ensures c.closed ==> Fine(Phase(Clean, Yes), c, h, respond)
    ensures !c.closed ==> Fine(Phase(Clean, Yes), AppendRead(c, data), h.(rx := h.rx + data), respond)
  {
    hide Extract, Stream, GivenBy, LegalWorlds, ClosesLast;
    if !c.closed {
      assert Raws(h.served) + [] == Raws(h.served);
      LeadsMore(h.rx, data, Raws(h.served));
      assert (h.rx + data) + [] == h.rx + data;
      var c' := AppendRead(c, data);
      assert Cursor(c') && Unsent(c') == Unsent(c);
    }
  }

  lemma NoRequestFine(respond: Responder, c: Conn, h: History)
    requires Fine(Phase(Clean, Yes), c, h, respond) && (c.closed || Extract(c.readBuf).Incomplete?)
    ensures Fine(Phase(Quiet, No), c.(processing := false), h, respond)
    ensures Fine(Phase(Gone, Either), c.(processing := false), h, respond)
  {
    hide Leads, After, Extract, Stream, Raws, GivenBy, LegalWorlds, ClosesLast;
    var c' := c.(processing := false);
    assert Cursor(c') && Unsent(c') == Unsent(c);
  }

  lemma ExtractFine(respond: Responder, c: Conn, h: History, x: Extraction)
    requires Fine(Phase(Clean, Yes), c, h, respond) && !c.closed && x == Extract(c.readBuf) && x.Request?
    ensures Fine(Phase(Extracted(x.raw), Yes), c.(readBuf := x.rest), h, respond)
  {
    hide Extract, Stream, GivenBy, LegalWorlds, ClosesLast;
    assert Raws(h.served) + [] == Raws(h.served);
    LeadsSnoc(h.rx, Raws(h.served));
    var c' := c.(readBuf := x.rest);
    assert Cursor(c') && Unsent(c') == Unsent(c);
  }

  /** Answering an extracted request: the setters are called only when nothing is unsent, so the
      reply is appended to the stream of answers and nothing is overwritten. */
  lemma ReplyFine(respond: Responder, c: Conn, h: History, x: Exchange)
    requires Fine(Phase(Extracted(x.raw), Yes), c, h, respond) && !c.closed
    requires x.reply == respond(x.raw, x.world) && '\r' !in x.world.mime && x.reply.Wire() != []
    ensures Fine(Phase(Loaded, Yes), Load(c, x.reply), h.(served := h.served + [x]), respond)
  {
    hide Extract;
    ServeSnoc(h.served, x);
    LoadUnsent(c, x.reply);
    assert (h.served + [x])[..|h.served|] == h.served;
    assert Raws(h.served + [x]) + [] == Raws(h.served) + [x.raw];
    LeadsPrefix(h.rx, Raws(h.served) + [x.raw], |Raws(h.served)| + 1);
  }

  lemma FinishFine(respond: Responder, stage: Stage, c: Conn, h: History)
    requires Fine(Phase(stage, Yes), c, h, respond)
    ensures Fine(Phase(stage, No), if c.closed then c else c.(processing := false), h, respond)
  {
    hide Leads, After, Extract, Stream, Raws, GivenBy, LegalWorlds, ClosesLast;
    var c' := c.(processing := false);
    assert Cursor(c') && Unsent(c') == Unsent(c);
  }

  lemma ClaimFine(respond: Responder, stage: Stage, c: Conn, h: History)
    requires Fine(Phase(stage, No), c, h, respond)
    ensures Fine(Phase(stage, Yes), c.(processing := true), h, respond)
    ensures !c.closed ==> !c.processing
  {
    hide Leads, After, Extract, Stream, Raws, GivenBy, LegalWorlds, ClosesLast;
    var c' := c.(processing := true);
    assert Cursor(c') && Unsent(c') == Unsent(c);
  }

  lemma GatherFine(respond: Responder, c: Conn, h: History)
    requires Fine(Phase(Sending, Yes), c, h, respond)
    ensures Cursor(c)
    ensures c.closed || !HasWriteData(c) ==> Fine(Phase(Flushed, Yes), c, h, respond)
    ensures !c.closed && HasWriteData(c) ==> Fine(Phase(InWrite(Gather(c)), Yes), c, h, respond)
  {
    hide Leads, After, Extract, Stream, Raws, HistoryOk;
    GatherIsUnsent(c);
  }

  lemma SendFine(respond: Responder, c: Conn, h: History, iov: seq<Text>, n: nat)
    requires Fine(Phase(InWrite(iov), Yes), c, h, respond) && n <= |Flat(iov)|
    ensures Fine(Phase(Wrote(n), Yes), c, h.(tx := h.tx + Slice(Flat(iov), 0, n)), respond)
  {
    hide Leads, After, Extract, Stream, Raws, GivenBy, LegalWorlds, ClosesLast;
    if !c.closed || h.tx + Unsent(c) == Stream(h.served) {
      SendMore(h.tx, Unsent(c), n);
    }
  }

  /** A write that would block finds the connection loaded. */
  lemma BlockedFine(respond: Responder, c: Conn, h: History, iov: seq<Text>)
    requires Fine(Phase(InWrite(iov), Yes), c, h, respond)
    ensures Fine(Phase(Loaded, Yes), c, h, respond)
  {
    hide Leads, After, Extract, Stream, Raws, GivenBy, LegalWorlds, ClosesLast;
  }

  lemma ConsumeFine(respond: Responder, c: Conn, h: History, n: nat)
    requires Fine(Phase(Wrote(n), Yes), c, h, respond)
    ensures Cursor(c) && Fine(Phase(Sending, Yes), Consume(c, n), h, respond)
  {
    hide Leads, After, Extract, Stream, Raws, GivenBy, LegalWorlds, ClosesLast;
    if n <= |Unsent(c)| {
      ConsumeDrops(c, n);
    }
  }

  lemma ClearFine(respond: Responder, c: Conn, h: History)
    requires Fine(Phase(Flushed, Yes), c, h, respond)
    ensures var c' := ClearWrite(c).(writeReady := false);
            && Fine(Phase(Gone, Either), c', h, respond)
            && (!c.closeAfterWrite ==> Fine(Phase(if c.readBuf != [] then Clean else Quiet, Yes), c', h, respond))
  {
    hide Leads, After, Extract, Stream, Raws, GivenBy, LegalWorlds, ClosesLast;
    var c' := ClearWrite(c).(writeReady := false);
    assert Cursor(c') && Unsent(c') == [];
    NothingFramed();
  }

  lemma MarkFine(respond: Responder, p: Phase, c: Conn, h: History)
    requires Fine(p, c, h, respond)
    ensures Fine(p, c.(closed := true), h, respond)
  {
    hide Leads, After, Extract, Stream, Raws, GivenBy, LegalWorlds, ClosesLast;
    var c' := c.(closed := true);
    assert Cursor(c') && Unsent(c') == Unsent(c);
  }
}
