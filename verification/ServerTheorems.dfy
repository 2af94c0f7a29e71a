/** What the server guarantees in every run in which `accept` returns no descriptor that a queued or
    running task still names. */
module ServerTheorems {
  import opened Bytes
  import opened Framing
  import opened Connections
  import opened HttpResponses
  import HttpRequests
  import opened RequestStreams
  import opened Service
  import opened ServiceMeanings
  import opened Timers
  import opened Server
  import opened ServerTable
  import opened ServerData
  import opened ServerToken
  import opened ServerRuns

  // ---------- what a peer sees ----------

  lemma HistoryKept(respond: Responder, s: State, id: ConnId)
    requires Steady(respond, s) && id in s.hist
    ensures HistoryOk(s.hist[id], respond)
  {
    hide Tokens, DataOk, OpenOk, HistoryOk;
  }

  /** End to end: in every interleaving, for every socket ever accepted, the requests served are the
      first that the bytes received so far frame to, in order, each answered as the service answers
      it; the bytes written are a prefix of the answers in order, with every answer but the last out
      completely; and nothing follows a closing answer. */
  lemma EndToEnd(cfg: Config, now: int, acts: seq<Action>, s: State, id: ConnId)
    requires Speaks(cfg.respond) && Run(Init(cfg, now), acts, s, true) && id in s.hist
    ensures var h := s.hist[id];
            && Leads(h.input, Raws(h.served))
            && GivenBy(cfg.respond, h.served) && LegalWorlds(h.served)
            && h.tx <= Stream(h.served) && Sequential(h)
            && ClosesLast(h.served)
  {
    hide Run, Sound, Steady, Leads, Stream, Sequential, GivenBy, LegalWorlds, ClosesLast, Speaks;
    CarefulRun(cfg, now, acts, s);
    HistoryKept(cfg.respond, s, id);
    var h := s.hist[id];
    LeadsMore(h.rx, h.input[|h.rx|..], Raws(h.served));
    assert h.rx + h.input[|h.rx|..] == h.input;
  }

  lemma ServiceSpeaks()
    ensures Speaks(Respond)
  {
    hide Respond, Decode;
    forall raw: Text, w: World | '\r' !in w.mime ensures Respond(raw, w).Wire() != [] {
      HeaderBlocks.NoCrIsNoCrlf(w.mime);
      ReplyDecodes(raw, w, []);
    }
  }

  lemma PrefixOfService(respond: Responder, served: seq<Exchange>, n: nat)
    requires GivenBy(respond, served) && LegalWorlds(served) && n <= |served|
    ensures GivenBy(respond, served[..n]) && LegalWorlds(served[..n])
  {
  }

  /** A buffering reader gets from what has been written exactly the complete answers, each split into
      its header block and its body. */
  lemma WrittenAnswersDelimited(cfg: Config, now: int, acts: seq<Action>, s: State, id: ConnId, n: nat)
    requires cfg.respond == Respond && Run(Init(cfg, now), acts, s, true) && id in s.hist
    requires n <= |s.hist[id].served| && Stream(s.hist[id].served[..n]) <= s.hist[id].tx
    ensures var h := s.hist[id];
            var got := ReadOn(h.tx, n);
            && got.Some? && |got.value| == n
            && forall i :: 0 <= i < n ==>
                 got.value[i].Response? && got.value[i].headers + got.value[i].body == h.served[i].reply.Wire()
  {
    hide Run, Leads, Stream, Sequential, GivenBy, LegalWorlds, ClosesLast, Speaks, Respond, Decode, ReadOn;
    ServiceSpeaks();
    EndToEnd(cfg, now, acts, s, id);
    var h := s.hist[id];
    PrefixOfService(Respond, h.served, n);
    StreamDelimited(h.served[..n], h.tx[|Stream(h.served[..n])|..]);
    assert Stream(h.served[..n]) + h.tx[|Stream(h.served[..n])|..] == h.tx;
  }

  /** A peer that sends well-formed requests, pipelined and in whatever chunks: the requests served
      are its messages, in order, each understood as meant and answered as the service answers it; the
      answer closes the connection exactly if the message does not let it stay, and then it is the last. */
  lemma PeerIsUnderstood(cfg: Config, now: int, acts: seq<Action>, s: State, id: ConnId, ms: seq<Message>,
                         missing: Text)
    requires cfg.respond == Respond && Run(Init(cfg, now), acts, s, true) && id in s.hist
    requires AllWellFormed(ms) && s.hist[id].input + missing == Flat(Prints(ms))
    ensures var served := s.hist[id].served;
            && |served| <= |ms|
            && forall i :: 0 <= i < |served| ==>
                 && served[i].raw == ms[i].Print() && Understood(served[i].raw, ms[i])
                 && served[i].reply == Respond(served[i].raw, served[i].world)
                 && (served[i].reply.close <==> !Stays(ms[i].version, ms[i].headers))
                 && (!Stays(ms[i].version, ms[i].headers) ==> i == |served| - 1)
  {
    hide Run, Leads, Stream, Sequential, GivenBy, LegalWorlds, ClosesLast, Speaks, Respond, WellFormed, Understood,
         Flat, Stays, Decode, StatusOf, Carries, StatusDue, Delivers;
    ServiceSpeaks();
    EndToEnd(cfg, now, acts, s, id);
    var h := s.hist[id];
    LeadsMore(h.input, missing, Raws(h.served));
    LeadsArePrints(ms, Raws(h.served));
    forall i | 0 <= i < |h.served|
      ensures h.served[i].raw == ms[i].Print() && Understood(h.served[i].raw, ms[i])
      ensures h.served[i].reply == Respond(h.served[i].raw, h.served[i].world)
      ensures h.served[i].reply.close <==> !Stays(ms[i].version, ms[i].headers)
    {
      assert ms[i] in ms;
      ParsedExactly(ms[i]);
      WorldOf(h.served, i);
      AnsweredAsMeant(ms[i], h.served[i].world, []);
    }
    OnlyLastCloses(h.served);
  }

  lemma WorldOf(served: seq<Exchange>, i: nat)
    requires LegalWorlds(served) && GivenBy(Respond, served) && i < |served|
    ensures '\r' !in served[i].world.mime && served[i].reply == Respond(served[i].raw, served[i].world)
  {
    hide Respond;
  }

  lemma OnlyLastCloses(served: seq<Exchange>)
    requires ClosesLast(served)
    ensures forall i :: 0 <= i < |served| && served[i].reply.close ==> i == |served| - 1
  {
  }

  // ---------- where a connection is ----------

  /** Where a registered connection can be, told from the shared state alone. */
  datatype Station = AtAccept | AtEpoll | InBatch | AtDispatch | InQueue | AtWorker(worker: WorkerId) | AtHangup

  ghost predicate Stands(s: State, f: Fd, at: Station) {
    match at
    case AtAccept => (s.loop.Inserting? || s.loop.Adding?) && s.loop.fd == f
    case AtEpoll => f in s.interest && s.interest[f] != Off
    case InBatch => exists i :: 0 <= i < |BatchOf(s.loop)| && Concerns(BatchOf(s.loop)[i], f)
    case AtDispatch => (s.loop.Beginning? || s.loop.Enqueueing?) && s.loop.fd == f
    case InQueue => exists i :: 0 <= i < |s.queue| && s.queue[i].fd == f
    case AtWorker(w) => w in s.workers && s.workers[w].Names() == Some(f)
    case AtHangup => s.loop.LoopClosing? && s.loop.close == Erase(f) && s.loop.resume.ToBatch?
  }

  function StationOf(p: Place): Station {
    match p
    case Accepted => AtAccept
    case Armed(_) => AtEpoll
    case Delivered(_) => InBatch
    case Dispatching(_) => AtDispatch
    case Claimed(_) => AtDispatch
    case Queued(_) => InQueue
    case Running(w) => AtWorker(w)
    case Leaving => AtHangup
  }

  lemma StandsWhereTold(s: State, f: Fd)
    requires Tokens(s) && f in s.token && f in s.table
    ensures Stands(s, f, StationOf(s.token[f]))
  {
    hide MarksOk;
    match s.token[f]
    case Queued(dir) =>
      var i :| 0 <= i < |s.queue| && s.queue[i] == Task(f, dir);
    case _ =>
  }

  lemma ToldWhereStands(s: State, f: Fd, at: Station)
    requires Tokens(s) && f in s.token && f in s.open && Stands(s, f, at)
    ensures StationOf(s.token[f]) == at
  {
    hide MarksOk;
    match at
    case AtWorker(w) => assert Assigned(s.open, s.token, w, s.workers[w]);
    case _ =>
  }

  lemma QueuedOnce(s: State, i: nat, k: nat)
    requires Tokens(s) && i < |s.queue| && k < |s.queue| && s.queue[i].fd == s.queue[k].fd
    ensures i == k
  {
  }

  lemma TabledIsOpen(s: State, f: Fd)
    requires Sound(s) && Tokens(s) && f in s.table
    ensures f in s.token && f in s.open && s.table[f] == s.open[f]
  {
  }

  /** Every registered connection is in exactly one place: being accepted, armed in epoll, an event
      in the loop's batch, being dispatched, a queued task, one worker's task, or being closed after
      a hang-up. */
  lemma ExactlyOnePlace(cfg: Config, now: int, acts: seq<Action>, s: State, f: Fd)
    requires Speaks(cfg.respond) && Run(Init(cfg, now), acts, s, true) && f in s.table
    ensures exists at :: Stands(s, f, at)
    ensures forall at, other :: Stands(s, f, at) && Stands(s, f, other) ==> at == other
    ensures forall i, k :: 0 <= i < |s.queue| && 0 <= k < |s.queue| && s.queue[i].fd == f && s.queue[k].fd == f ==>
            i == k
  {
    hide Run, Sound, Steady, Stands, Speaks;
    CarefulRun(cfg, now, acts, s);
    SteadyTokens(cfg.respond, s);
    hide Tokens;
    TabledIsOpen(s, f);
    StandsWhereTold(s, f);
    forall at | Stands(s, f, at) ensures at == StationOf(s.token[f]) {
      ToldWhereStands(s, f, at);
    }
    forall i, k | 0 <= i < |s.queue| && 0 <= k < |s.queue| && s.queue[i].fd == f && s.queue[k].fd == f ensures i == k {
      QueuedOnce(s, i, k);
    }
  }

  /** Mutual exclusion: two workers never name the same open descriptor, registered or not. */
  lemma OneWorkerEach(cfg: Config, now: int, acts: seq<Action>, s: State, w: WorkerId, u: WorkerId)
    requires Speaks(cfg.respond) && Run(Init(cfg, now), acts, s, true)
    requires w in s.workers && u in s.workers && s.workers[w].Names().Some?
    requires s.workers[w].Names() == s.workers[u].Names()
    requires s.workers[w].Names().value in s.open
    ensures w == u
  {
    hide Run, Sound, Steady, Speaks;
    CarefulRun(cfg, now, acts, s);
    SteadyTokens(cfg.respond, s);
    OneWorker(s.open, s.token, s.workers, w, u, s.workers[w].Names().value);
  }

  // ---------- exactly when each connection is in one place ----------

  /** No open descriptor is in two places. */
  ghost predicate Single(s: State) {
    forall f, at, other :: f in s.open && Stands(s, f, at) && Stands(s, f, other) ==> at == other
  }

  lemma SteadyIsSingle(s: State)
    requires Tokens(s)
    ensures Single(s)
  {
    hide Tokens, Stands;
    forall f, at, other | f in s.open && Stands(s, f, at) && Stands(s, f, other) ensures at == other {
      PlacedWhereOpen(s, f);
      ToldWhereStands(s, f, at);
      ToldWhereStands(s, f, other);
    }
  }

  lemma PlacedWhereOpen(s: State, f: Fd)
    requires Tokens(s) && f in s.open
    ensures f in s.token
  {
  }

  /** Accepting a descriptor a task still names puts it in two places. */
  lemma NamedTwice(s: State, f: Fd, id: ConnId)
    requires s.loop.Accepting? && !Unnamed(s, f)
    ensures !Single(StepAccept(s, f, id))
  {
    var s' := StepAccept(s, f, id);
    assert Stands(s', f, AtAccept);
    if i :| 0 <= i < |s.queue| && s.queue[i].fd == f {
      assert Stands(s', f, InQueue);
    } else {
      var w :| w in s.workers && s.workers[w].Names() == Some(f);
      assert Stands(s', f, AtWorker(w));
    }
  }

  /** After any careful run, accepting a descriptor leaves every open one in a single place if and
      only if no queued or running task still names it. */
  lemma SingleIffUnnamed(cfg: Config, now: int, acts: seq<Action>, s: State, f: Fd, id: ConnId)
    requires Speaks(cfg.respond) && Run(Init(cfg, now), acts, s, true)
    requires s.loop.Accepting? && LoopEnabled(s, AcceptFd(f, id))
    ensures Single(StepAccept(s, f, id)) <==> Unnamed(s, f)
  {
    hide Run, Sound, Steady, Speaks, Unnamed, Single, StepAccept;
    if Unnamed(s, f) {
      CarefulRun(cfg, now, acts, s);
      AcceptSteady(cfg.respond, s, f, id);
      SteadyTokens(cfg.respond, StepAccept(s, f, id));
      SteadyIsSingle(StepAccept(s, f, id));
    } else {
      NamedTwice(s, f, id);
    }
  }

  /** Every state along the run has every open descriptor in a single place. */
  ghost predicate SingleAlong(start: State, acts: seq<Action>) {
    forall k, m :: 0 <= k <= |acts| && Run(start, acts[..k], m, false) ==> Single(m)
  }

  /** The hypothesis is exact: a run is careful if and only if every open descriptor is in a single
      place all along it. */
  lemma CarefulIffSingle(cfg: Config, now: int, acts: seq<Action>, s: State)
    requires Speaks(cfg.respond) && Run(Init(cfg, now), acts, s, false)
    ensures Run(Init(cfg, now), acts, s, true) <==> SingleAlong(Init(cfg, now), acts)
  {
    hide Run, Speaks, Single;
    if Run(Init(cfg, now), acts, s, true) {
      forall k, m | 0 <= k <= |acts| && Run(Init(cfg, now), acts[..k], m, false) ensures Single(m) {
        CarefulIsSingle(cfg, now, acts, s, k, m);
      }
    }
    if SingleAlong(Init(cfg, now), acts) {
      SingleIsCareful(cfg, now, acts, s);
    }
  }

  lemma CarefulIsSingle(cfg: Config, now: int, acts: seq<Action>, s: State, k: nat, m: State)
    requires Speaks(cfg.respond) && Run(Init(cfg, now), acts, s, true)
    requires k <= |acts| && Run(Init(cfg, now), acts[..k], m, false)
    ensures Single(m)
  {
    hide Run, Sound, Steady, Speaks, Single, Tokens;
    var m' := RunPasses(Init(cfg, now), acts, s, k, true);
    RunForgets(Init(cfg, now), acts[..k], m');
    RunSame(Init(cfg, now), acts[..k], m, m');
    CarefulRun(cfg, now, acts[..k], m');
    SteadyTokens(cfg.respond, m);
    SteadyIsSingle(m);
  }

  lemma {:induction false} SingleIsCareful(cfg: Config, now: int, acts: seq<Action>, s: State)
    requires Run(Init(cfg, now), acts, s, false) && SingleAlong(Init(cfg, now), acts)
    ensures Run(Init(cfg, now), acts, s, true)
  {
    hide Enabled, Step, FdReuseOk, Single;
    if acts != [] {
      var n := |acts| - 1;
      var last := acts[n];
      var m :| Run(Init(cfg, now), acts[..n], m, false) && Enabled(m, last) && s == Step(m, last);
      forall k, q | 0 <= k <= n && Run(Init(cfg, now), acts[..n][..k], q, false) ensures Single(q) {
        assert acts[..n][..k] == acts[..k];
      }
      SingleIsCareful(cfg, now, acts[..n], m);
      assert acts[..|acts|] == acts;
      SingleReuse(m, last);
    }
  }

  lemma SingleReuse(s: State, a: Action)
    requires Enabled(s, a) && Single(Step(s, a))
    ensures FdReuseOk(s, a)
  {
    hide Single, Unnamed, StepAccept;
    if a.LoopActs? && s.loop.Accepting? && a.loopAnswer.AcceptFd? && !Unnamed(s, a.loopAnswer.fd) {
      NamedTwice(s, a.loopAnswer.fd, a.loopAnswer.id);
      assert false;
    }
  }

  // ---------- the buffers ----------

  lemma TabledFine(respond: Responder, s: State, f: Fd)
    requires Sound(s) && Steady(respond, s) && f in s.table
    ensures f in s.token && f in s.open && s.table[f] == s.open[f]
    ensures Fine(PhaseOf(s.token[f], s.workers), s.ConnAt(s.table[f]), s.HistAt(s.table[f]), respond)
    ensures !s.ConnAt(s.table[f]).closed
  {
    hide Fine, HistoryOk, WorkersOk, QueueOk, BatchOk, HandOk, ArmedOk, PlacesOk, ClosersOk, PendingOk, HoldersOk,
         OnceOk, Covered, StopOk;
    TabledIsOpen(s, f);
  }

  lemma ArmedPlace(s: State, f: Fd)
    requires Tokens(s) && f in s.interest && s.interest[f] != Off
    ensures f in s.token && s.token[f] == Armed(s.interest[f].dir)
  {
    hide WorkersOk, QueueOk, BatchOk, HandOk, PlacesOk, MarksOk;
  }

  /** What a connection waiting in epoll owes. */
  ghost predicate Waits(dir: Dir, c: Conn) {
    && Cursor(c) && !c.processing
    && (dir == In ==> Unsent(c) == [] && Extract(c.readBuf).Incomplete?)
    && (dir == Out ==> Unsent(c) != [])
  }

  lemma ArmedFine(respond: Responder, dir: Dir, c: Conn, h: History)
    requires Fine(Phase(DirStage(dir), No), c, h, respond) && !c.closed
    ensures Waits(dir, c)
  {
    hide Extract, Leads, After, Stream, Raws, HistoryOk;
  }

  /** Armed for reading, a connection has nothing unsent and no complete request buffered; armed for
      writing, it has unsent bytes; and either way it is not marked as being processed, so the guard
      of `beginProcessing` cannot drop its next event. */
  lemma ArmedDiscipline(cfg: Config, now: int, acts: seq<Action>, s: State, f: Fd, dir: Dir)
    requires Speaks(cfg.respond) && Run(Init(cfg, now), acts, s, true)
    requires f in s.table && f in s.interest && s.interest[f] == On(dir)
    ensures Waits(dir, s.ConnAt(s.table[f])) && !s.ConnAt(s.table[f]).closed
  {
    hide Run, Sound, Steady, Speaks, Waits, Fine, Tokens;
    CarefulRun(cfg, now, acts, s);
    SteadyTokens(cfg.respond, s);
    TabledFine(cfg.respond, s, f);
    ArmedPlace(s, f);
    ArmedFine(cfg.respond, dir, s.ConnAt(s.table[f]), s.HistAt(s.table[f]));
  }

  lemma ExtractedFine(respond: Responder, raw: Text, c: Conn, h: History)
    requires Fine(Phase(Extracted(raw), Yes), c, h, respond) && !c.closed
    ensures Cursor(c) && Unsent(c) == [] && h.tx == Stream(h.served)
  {
    hide Extract, Leads, After, Stream, Raws, HistoryOk;
  }

  /** The overwriting setters are called only when nothing is unsent: a worker about to load an answer
      into a live connection finds every earlier answer written out. */
  lemma SettersOverwriteNothing(cfg: Config, now: int, acts: seq<Action>, s: State, w: WorkerId)
    requires Speaks(cfg.respond) && Run(Init(cfg, now), acts, s, true)
    requires w in s.workers && s.workers[w].ProcessReply? && !s.ConnAt(s.workers[w].id).closed
    ensures var id := s.workers[w].id;
            && s.workers[w].fd in s.open && s.open[s.workers[w].fd] == id
            && Cursor(s.ConnAt(id)) && Unsent(s.ConnAt(id)) == []
            && s.HistAt(id).tx == Stream(s.HistAt(id).served)
  {
    hide Run, Sound, Steady, Speaks, Fine, Tokens;
    CarefulRun(cfg, now, acts, s);
    SteadyTokens(cfg.respond, s);
    GroundedHolds(s, w);
    AtWork(cfg.respond, s, w, s.workers[w].fd);
    ExtractedFine(cfg.respond, s.workers[w].raw, s.ConnAt(s.workers[w].id), s.HistAt(s.workers[w].id));
  }

  // ---------- every request is answered ----------

  /** An empty request gets a closing answer. */
  lemma EmptyCloses(w: World)
    ensures Respond([], w).close
  {
    hide BuildText, Prepare;
    assert HttpRequests.Parse([]).0.Starved?;
  }

  lemma NoneEmpty(served: seq<Exchange>)
    requires GivenBy(Respond, served) && ClosesLast(served) && !LastCloses(served)
    ensures [] !in Raws(served)
  {
    hide Respond;
    forall i | 0 <= i < |served| ensures Raws(served)[i] != [] {
      EmptyCloses(served[i].world);
    }
  }

  lemma QuietAnswered(c: Conn, h: History)
    requires Fine(Phase(Quiet, No), c, h, Respond) && !c.closed
    ensures h.taken <= |h.input| && Raws(h.served) == Frames(h.input[..h.taken]) && h.tx == Stream(h.served)
  {
    hide Leads, After, Extract, Stream, Raws, Respond, Frames, GivenBy, LegalWorlds, Unsent;
    NoneEmpty(h.served);
    assert Raws(h.served) + [] == Raws(h.served) && h.rx + [] == h.rx;
    NothingMore(c.readBuf);
    LeadsFrames(h.rx, Raws(h.served));
  }

  /** Whenever a connection waits in epoll for input, every request in what the server has read has
      been answered, and every answer is out completely; so once all input is read, the requests
      served are the whole framing of the input. */
  lemma EverythingAnswered(cfg: Config, now: int, acts: seq<Action>, s: State, f: Fd)
    requires cfg.respond == Respond && Run(Init(cfg, now), acts, s, true)
    requires f in s.table && f in s.interest && s.interest[f] == On(In)
    ensures var h := s.HistAt(s.table[f]);
            && h.taken <= |h.input|
            && Raws(h.served) == Frames(h.input[..h.taken]) && h.tx == Stream(h.served)
            && (h.taken == |h.input| ==> Raws(h.served) == Frames(h.input))
  {
    hide Run, Sound, Steady, Speaks, Fine, Tokens, Frames, Raws, Stream, Respond;
    ServiceSpeaks();
    CarefulRun(cfg, now, acts, s);
    SteadyTokens(Respond, s);
    TabledFine(Respond, s, f);
    ArmedPlace(s, f);
    var h := s.HistAt(s.table[f]);
    QuietAnswered(s.ConnAt(s.table[f]), h);
    assert h.taken == |h.input| ==> h.input[..h.taken] == h.input;
  }

  // ---------- no event is dropped ----------

  lemma DeliveredPlace(s: State, i: nat)
    requires Tokens(s) && i < |BatchOf(s.loop)| && !BatchOf(s.loop)[i].Listen?
    ensures var f := BatchOf(s.loop)[i].fd; f in s.table && f in s.token && s.token[f].Delivered?
  {
    hide WorkersOk, QueueOk, HandOk, ArmedOk, MarksOk;
  }

  /** An event in the loop's batch, and a dispatch, always find their connection registered, not
      closed and not being processed: neither guard of the dispatch ever drops an event. */
  lemma NoEventDropped(cfg: Config, now: int, acts: seq<Action>, s: State)
    requires Speaks(cfg.respond) && Run(Init(cfg, now), acts, s, true)
    ensures forall i :: 0 <= i < |BatchOf(s.loop)| && !BatchOf(s.loop)[i].Listen? ==>
              var f := BatchOf(s.loop)[i].fd;
              f in s.table && !s.ConnAt(s.table[f]).closed && !s.ConnAt(s.table[f]).processing
    ensures s.loop.Beginning? ==>
              s.loop.fd in s.table && s.table[s.loop.fd] == s.loop.id && !s.ConnAt(s.loop.id).closed &&
              !s.ConnAt(s.loop.id).processing
  {
    hide Run, Sound, Steady, Speaks, Fine, Tokens;
    CarefulRun(cfg, now, acts, s);
    SteadyTokens(cfg.respond, s);
    forall i | 0 <= i < |BatchOf(s.loop)| && !BatchOf(s.loop)[i].Listen?
      ensures var f := BatchOf(s.loop)[i].fd;
              f in s.table && !s.ConnAt(s.table[f]).closed && !s.ConnAt(s.table[f]).processing
    {
      var f := BatchOf(s.loop)[i].fd;
      DeliveredPlace(s, i);
      TabledFine(cfg.respond, s, f);
      ClaimFine(cfg.respond, DirStage(s.token[f].dir), s.ConnAt(s.table[f]), s.HistAt(s.table[f]));
    }
    if s.loop.Beginning? {
      BeginGround(s);
      BeginKeeps(cfg.respond, s);
    }
  }
}
