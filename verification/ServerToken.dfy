/** Who answers for a connection: under the one hypothesis on descriptor reuse, every open connection
    is in exactly one place, and the data invariant of `ServerData` holds of each. */
module ServerToken {
  import opened Bytes
  import opened Framing
  import opened Connections
  import opened Service
  import opened Timers
  import opened Server
  import opened ServerTable
  import opened ServerData

  // ---------- the places, clause by clause ----------

  /** A worker that names an open descriptor is the one running for it, and the connection it holds
      is the one behind it. */
  ghost predicate Assigned(open: Sockets, token: Places, w: WorkerId, pc: Worker) {
    pc.Names().Some? && pc.Names().value in open ==>
      && pc.Names().value in token && token[pc.Names().value] == Running(w)
      && (pc.Holds().Some? ==> pc.Holds().value == open[pc.Names().value])
  }

  ghost predicate WorkersOk(open: Sockets, token: Places, workers: Crew) {
    && (forall w :: w in workers ==> Assigned(open, token, w, workers[w]))
    && (forall f :: f in token && token[f].Running? ==>
          token[f].worker in workers && workers[token[f].worker].Names() == Some(f))
  }

  ghost predicate QueueOk(open: Sockets, token: Places, queue: seq<Task>) {
    && (forall i :: 0 <= i < |queue| && queue[i].fd in open ==>
          queue[i].fd in token && token[queue[i].fd] == Queued(queue[i].dir))
    && (forall i, k :: 0 <= i < k < |queue| ==> queue[i].fd != queue[k].fd)
    && (forall f :: f in token && token[f].Queued? ==> Task(f, token[f].dir) in queue)
  }

  function BatchOf(loop: Loop): seq<Event> {
    match loop
    case Waiting(batch) => batch
    case Handling(batch) => batch
    case Accepting(batch) => batch
    case Inserting(_, _, batch) => batch
    case Adding(_, batch) => batch
    case Beginning(_, _, _, batch) => batch
    case Enqueueing(_, _, batch) => batch
    case LoopClosing(_, ToBatch(batch)) => batch
    case _ => []
  }

  predicate Concerns(e: Event, f: Fd) {
    !e.Listen? && e.fd == f
  }

  ghost predicate BatchOk(token: Places, batch: seq<Event>) {
    && (forall i :: 0 <= i < |batch| && !batch[i].Listen? ==>
          && batch[i].fd in token && token[batch[i].fd].Delivered?
          && (batch[i].Ready? ==> token[batch[i].fd] == Delivered(batch[i].dir)))
    && (forall i, k :: 0 <= i < k < |batch| && !batch[i].Listen? && !batch[k].Listen? ==> batch[i].fd != batch[k].fd)
    && (forall f :: f in token && token[f].Delivered? ==> exists i :: 0 <= i < |batch| && Concerns(batch[i], f))
  }

  /** The descriptor the loop is working on, and its place. */
  function InHand(loop: Loop): Option<(Fd, Place)> {
    match loop
    case Inserting(fd, _, _) => Some((fd, Accepted))
    case Adding(fd, _) => Some((fd, Accepted))
    case Beginning(fd, _, dir, _) => Some((fd, Dispatching(dir)))
    case Enqueueing(fd, dir, _) => Some((fd, Claimed(dir)))
    case _ => None
  }

  predicate LoopPlace(p: Place) {
    p.Accepted? || p.Dispatching? || p.Claimed?
  }

  ghost predicate HandOk(open: Sockets, table: Sockets, token: Places, loop: Loop) {
    && (InHand(loop).Some? ==>
          var (f, p) := InHand(loop).value;
          f in token && token[f] == p && (!loop.Inserting? ==> f in table))
    && (forall f :: f in token && LoopPlace(token[f]) ==> InHand(loop) == Some((f, token[f])))
    && (loop.Beginning? ==> loop.fd in open && open[loop.fd] == loop.id)
  }

  ghost predicate ArmedOk(table: Sockets, token: Places, interest: Interests) {
    && (forall f :: f in interest ==> f in token && forall d :: interest[f] == On(d) ==> token[f] == Armed(d))
    && (forall f :: f in table && f in token && token[f].Armed? ==> f in interest && interest[f] == On(token[f].dir))
    && (forall f :: f in table && f in token && token[f] != Accepted ==> f in interest)
  }

  /** Events and dispatches concern registered descriptors; only the loop, closing a connection,
      leaves a descriptor armed without one; and a hang-up leaves one registered for a moment. */
  ghost predicate PlacesOk(table: Sockets, token: Places, owner: Owners, loop: Loop) {
    && (forall f :: f in token && token[f].Delivered? ==> f in table)
    && (forall f :: f in token && token[f].Armed? && f !in table ==> f in owner && owner[f] == ClosedBy(LoopThread))
    && (forall f :: f in table && f in token && token[f] == Leaving ==>
          loop.LoopClosing? && loop.close == Erase(f) && loop.resume.ToBatch?)
    && (loop.LoopClosing? && loop.close.Erase? && loop.resume.ToBatch? && loop.close.fd in token ==>
          token[loop.close.fd] == Leaving)
  }

  /** A thread past the mark has marked its connection. */
  predicate Marked(c: Option<Close>, conns: Conns) {
    c.Some? && (c.value.Unregister? || c.value.Shut?) ==> ConnIn(conns, c.value.id).closed
  }

  /** Registered connections are not marked closed; those whose descriptor is closed are. */
  ghost predicate MarksOk(open: Sockets, table: Sockets, sock: Descriptors, conns: Conns, loop: Loop, workers: Crew) {
    && (forall f :: f in table ==> !ConnIn(conns, table[f]).closed)
    && (forall id :: id in conns && !IsOpen(open, sock, id) ==> conns[id].closed)
    && Marked(CloseOf(loop, workers, LoopThread), conns)
    && (forall w :: w in workers ==> Marked(CloseOf(loop, workers, WorkerThread(w)), conns))
    && (loop.Inserting? ==> loop.id !in conns)
  }

  ghost predicate Tokens(s: State) {
    && s.token.Keys == s.open.Keys
    && WorkersOk(s.open, s.token, s.workers)
    && QueueOk(s.open, s.token, s.queue)
    && BatchOk(s.token, BatchOf(s.loop))
    && HandOk(s.open, s.table, s.token, s.loop)
    && ArmedOk(s.table, s.token, s.interest)
    && PlacesOk(s.table, s.token, s.owner, s.loop)
    && MarksOk(s.open, s.table, s.sock, s.conns, s.loop, s.workers)
  }

  ghost predicate DataOk(respond: Responder, open: Sockets, token: Places, workers: Crew, conns: Conns,
                         hist: Histories) {
    forall f :: f in open && f in token ==>
      Fine(PhaseOf(token[f], workers), ConnIn(conns, open[f]), HistIn(hist, open[f]), respond)
  }

  ghost predicate PastOk(respond: Responder, hist: Histories) {
    forall id :: id in hist ==> HistoryOk(hist[id], respond)
  }

  ghost predicate Data(respond: Responder, s: State) {
    && DataOk(respond, s.open, s.token, s.workers, s.conns, s.hist)
    && PastOk(respond, s.hist) && s.hist.Keys == s.sock.Keys
  }

  ghost predicate Steady(respond: Responder, s: State) {
    s.cfg.respond == respond && OpenOk(s.open, s.owner, s.sock) && Tokens(s) && Data(respond, s)
  }

  // ---------- a worker goes on with its descriptor ----------

  lemma WorkersStay(open: Sockets, token: Places, workers: Crew, w: WorkerId, pc: Worker)
    requires WorkersOk(open, token, workers) && w in workers
    requires pc.Names() == workers[w].Names() && pc.Names().Some?
    requires pc.Names().value in open && pc.Holds().Some? ==> pc.Holds().value == open[pc.Names().value]
    ensures WorkersOk(open, token, workers[w := pc])
  {
    assert Assigned(open, token, w, workers[w]);
    var moved := workers[w := pc];
    forall u | u in moved ensures Assigned(open, token, u, moved[u]) {
      assert u != w ==> Assigned(open, token, u, workers[u]);
    }
  }

  /** Only the connection and the history behind descriptor `f` may change. */
  ghost predicate OnlyBehind(open: Sockets, f: Fd, conns: Conns, conns': Conns, hist: Histories, hist': Histories) {
    forall g :: g in open && g != f ==>
      ConnIn(conns', open[g]) == ConnIn(conns, open[g]) && HistIn(hist', open[g]) == HistIn(hist, open[g])
  }

  lemma DataStay(respond: Responder, open: Sockets, token: Places, workers: Crew, conns: Conns, hist: Histories,
                 conns': Conns, hist': Histories, w: WorkerId, pc: Worker, f: Fd)
    requires DataOk(respond, open, token, workers, conns, hist) && WorkersOk(open, token, workers)
    requires w in workers && workers[w].Names() == Some(f)
    requires OnlyBehind(open, f, conns, conns', hist, hist')
    requires f in open && f in token ==>
               token[f] == Running(w) && Fine(BlockPhase(pc), ConnIn(conns', open[f]), HistIn(hist', open[f]), respond)
    ensures DataOk(respond, open, token, workers[w := pc], conns', hist')
  {
    forall g | g in open && g in token && g != f
      ensures PhaseOf(token[g], workers[w := pc]) == PhaseOf(token[g], workers)
    {
    }
  }

  /** What a worker knows of the descriptor it names, if that is open. */
  lemma AtWorkData(respond: Responder, s: State, w: WorkerId, f: Fd)
    requires WorkersOk(s.open, s.token, s.workers) && DataOk(respond, s.open, s.token, s.workers, s.conns, s.hist)
    requires w in s.workers && s.workers[w].Names() == Some(f) && f in s.open
    ensures f in s.token && s.token[f] == Running(w)
    ensures s.workers[w].Holds().Some? ==> s.workers[w].Holds().value == s.open[f]
    ensures Fine(BlockPhase(s.workers[w]), s.ConnAt(s.open[f]), s.HistAt(s.open[f]), respond)
  {
    assert Assigned(s.open, s.token, w, s.workers[w]);
  }

  lemma AtWork(respond: Responder, s: State, w: WorkerId, f: Fd)
    requires Steady(respond, s) && w in s.workers && s.workers[w].Names() == Some(f) && f in s.open
    ensures f in s.token && s.token[f] == Running(w)
    ensures s.workers[w].Holds().Some? ==> s.workers[w].Holds().value == s.open[f]
    ensures Fine(BlockPhase(s.workers[w]), s.ConnAt(s.open[f]), s.HistAt(s.open[f]), respond)
  {
    hide WorkersOk, QueueOk, BatchOk, HandOk, ArmedOk, PlacesOk, MarksOk, DataOk, PastOk, OpenOk, Fine, HistoryOk;
    AtWorkData(respond, s, w, f);
  }

  lemma OnlyBehindId(open: Sockets, sock: Descriptors, owner: Owners, f: Fd, conns: Conns, conns': Conns,
                     hist: Histories, hist': Histories)
    requires OpenOk(open, owner, sock)
    requires forall id :: id in sock && sock[id] != f ==>
               ConnIn(conns', id) == ConnIn(conns, id) && HistIn(hist', id) == HistIn(hist, id)
    ensures OnlyBehind(open, f, conns, conns', hist, hist')
  {
  }

  lemma MarksWorker(open: Sockets, table: Sockets, sock: Descriptors, conns: Conns, loop: Loop, workers: Crew,
                    w: WorkerId, pc: Worker)
    requires MarksOk(open, table, sock, conns, loop, workers)
    requires Marked(if pc.Closing? then Some(pc.close) else None, conns)
    ensures MarksOk(open, table, sock, conns, loop, workers[w := pc])
  {
    var moved := workers[w := pc];
    forall u | u in moved ensures Marked(CloseOf(loop, moved, WorkerThread(u)), conns) {
      assert u != w ==> CloseOf(loop, moved, WorkerThread(u)) == CloseOf(loop, workers, WorkerThread(u));
    }
  }

  lemma MarksConns(open: Sockets, table: Sockets, sock: Descriptors, conns: Conns, conns': Conns, loop: Loop,
                   workers: Crew)
    requires MarksOk(open, table, sock, conns, loop, workers)
    requires conns'.Keys == conns.Keys && forall id :: ConnIn(conns', id).closed == ConnIn(conns, id).closed
    ensures MarksOk(open, table, sock, conns', loop, workers)
  {
    forall id | id in conns ensures conns'[id].closed == conns[id].closed {
      assert ConnIn(conns', id).closed == ConnIn(conns, id).closed;
    }
    forall w | w in workers ensures Marked(CloseOf(loop, workers, WorkerThread(w)), conns') {
      assert Marked(CloseOf(loop, workers, WorkerThread(w)), conns);
    }
  }

  lemma MarksStay(open: Sockets, table: Sockets, sock: Descriptors, conns: Conns, conns': Conns, loop: Loop,
                  workers: Crew, w: WorkerId, pc: Worker)
    requires MarksOk(open, table, sock, conns, loop, workers)
    requires conns'.Keys == conns.Keys && forall id :: ConnIn(conns', id).closed == ConnIn(conns, id).closed
    requires pc.Closing? ==> pc.close.Erase? || pc.close.Mark?
    ensures MarksOk(open, table, sock, conns', loop, workers[w := pc])
  {
    MarksConns(open, table, sock, conns, conns', loop, workers);
    MarksWorker(open, table, sock, conns', loop, workers, w, pc);
  }

  /** Worker `w` may go on to block `pc` with the same descriptor, connections becoming `conns`. */
  ghost predicate MayStay(s: State, w: WorkerId, f: Fd, pc: Worker, conns: Conns) {
    && w in s.workers && s.workers[w].Names() == Some(f) && pc.Names() == Some(f)
    && (pc.Closing? ==> pc.close.Erase?)
    && (f in s.open && pc.Holds().Some? ==> pc.Holds().value == s.open[f])
    && conns.Keys == s.conns.Keys
    && (forall id :: ConnIn(conns, id).closed == ConnIn(s.conns, id).closed)
    && (forall id :: id in s.sock && s.sock[id] != f ==> ConnIn(conns, id) == ConnIn(s.conns, id))
  }

  lemma StayTokens(s: State, w: WorkerId, f: Fd, pc: Worker, conns: Conns)
    requires Tokens(s) && MayStay(s, w, f, pc, conns)
    ensures WorkersOk(s.open, s.token, s.workers[w := pc])
    ensures MarksOk(s.open, s.table, s.sock, conns, s.loop, s.workers[w := pc])
  {
    hide WorkersOk, QueueOk, BatchOk, HandOk, ArmedOk, PlacesOk, MarksOk, DataOk, PastOk, OpenOk, Fine, HistoryOk;
    WorkersStay(s.open, s.token, s.workers, w, pc);
    MarksStay(s.open, s.table, s.sock, s.conns, conns, s.loop, s.workers, w, pc);
  }

  lemma StayData(respond: Responder, s: State, w: WorkerId, f: Fd, pc: Worker, conns: Conns)
    requires OpenOk(s.open, s.owner, s.sock) && WorkersOk(s.open, s.token, s.workers)
    requires DataOk(respond, s.open, s.token, s.workers, s.conns, s.hist) && MayStay(s, w, f, pc, conns)
    requires f in s.open ==> Fine(BlockPhase(pc), ConnIn(conns, s.open[f]), HistIn(s.hist, s.open[f]), respond)
    ensures DataOk(respond, s.open, s.token, s.workers[w := pc], conns, s.hist)
  {
    hide WorkersOk, QueueOk, BatchOk, HandOk, ArmedOk, PlacesOk, MarksOk, DataOk, PastOk, OpenOk, Fine, HistoryOk;
    if f in s.open {
      AtWorkData(respond, s, w, f);
    }
    OnlyBehindId(s.open, s.sock, s.owner, f, s.conns, conns, s.hist, s.hist);
    DataStay(respond, s.open, s.token, s.workers, s.conns, s.hist, conns, s.hist, w, pc, f);
  }

  /** Worker `w` goes on to block `pc` with the same descriptor. */
  lemma Stay(respond: Responder, s: State, w: WorkerId, f: Fd, pc: Worker, conns: Conns, timers: Deadlines)
    requires Steady(respond, s) && MayStay(s, w, f, pc, conns)
    requires f in s.open ==> Fine(BlockPhase(pc), ConnIn(conns, s.open[f]), HistIn(s.hist, s.open[f]), respond)
    ensures var s' := s.(workers := s.workers[w := pc], conns := conns, timers := timers);
            Steady(respond, s')
  {
    hide WorkersOk, QueueOk, BatchOk, HandOk, ArmedOk, PlacesOk, MarksOk, DataOk, PastOk, OpenOk, Fine, HistoryOk;
    StayTokens(s, w, f, pc, conns);
    StayData(respond, s, w, f, pc, conns);
  }

  lemma StayDataHist(respond: Responder, s: State, w: WorkerId, f: Fd, pc: Worker, conns: Conns, h: History)
    requires OpenOk(s.open, s.owner, s.sock) && WorkersOk(s.open, s.token, s.workers)
    requires DataOk(respond, s.open, s.token, s.workers, s.conns, s.hist) && MayStay(s, w, f, pc, conns) && f in s.open
    requires Fine(BlockPhase(pc), ConnIn(conns, s.open[f]), h, respond)
    ensures DataOk(respond, s.open, s.token, s.workers[w := pc], conns, s.hist[s.open[f] := h])
  {
    hide WorkersOk, QueueOk, BatchOk, HandOk, ArmedOk, PlacesOk, MarksOk, DataOk, PastOk, Fine, HistoryOk;
    AtWorkData(respond, s, w, f);
    var hist := s.hist[s.open[f] := h];
    assert s.sock[s.open[f]] == f;
    OnlyBehindId(s.open, s.sock, s.owner, f, s.conns, conns, s.hist, hist);
    DataStay(respond, s.open, s.token, s.workers, s.conns, s.hist, conns, hist, w, pc, f);
  }

  lemma PastPut(respond: Responder, hist: Histories, k: ConnId, h: History)
    requires PastOk(respond, hist) && HistoryOk(h, respond)
    ensures PastOk(respond, hist[k := h]) && (k in hist ==> hist[k := h].Keys == hist.Keys)
  {
  }

  /** The same, and the history behind the descriptor becomes `h`. */
  lemma StayHist(respond: Responder, s: State, w: WorkerId, f: Fd, pc: Worker, conns: Conns, h: History)
    requires Steady(respond, s) && MayStay(s, w, f, pc, conns) && f in s.open
    requires Fine(BlockPhase(pc), ConnIn(conns, s.open[f]), h, respond)
    ensures var s' := s.(workers := s.workers[w := pc], conns := conns, hist := s.hist[s.open[f] := h]);
            Steady(respond, s')
  {
    hide WorkersOk, QueueOk, BatchOk, HandOk, ArmedOk, PlacesOk, MarksOk, DataOk, PastOk, Fine, HistoryOk;
    StayTokens(s, w, f, pc, conns);
    StayDataHist(respond, s, w, f, pc, conns, h);
    AtWork(respond, s, w, f);
    PastFine(respond, BlockPhase(pc), ConnIn(conns, s.open[f]), h);
    PastPut(respond, s.hist, s.open[f], h);
  }

  // ---------- a place changes ----------

  lemma QueueOther(open: Sockets, token: Places, queue: seq<Task>, f: Fd, p: Place)
    requires QueueOk(open, token, queue) && f in token && !token[f].Queued? && !p.Queued?
    ensures QueueOk(open, token[f := p], queue)
  {
  }

  lemma BatchOther(token: Places, batch: seq<Event>, f: Fd, p: Place)
    requires BatchOk(token, batch) && f in token && !token[f].Delivered? && !p.Delivered?
    ensures BatchOk(token[f := p], batch)
  {
  }

  lemma HandOther(open: Sockets, table: Sockets, token: Places, loop: Loop, f: Fd, p: Place)
    requires HandOk(open, table, token, loop) && f in token && !LoopPlace(token[f]) && !LoopPlace(p)
    ensures HandOk(open, table, token[f := p], loop)
  {
  }

  lemma DataOther(respond: Responder, open: Sockets, token: Places, workers: Crew, conns: Conns, hist: Histories,
                  conns': Conns, f: Fd, p: Place)
    requires DataOk(respond, open, token, workers, conns, hist) && OnlyBehind(open, f, conns, conns', hist, hist)
    requires f in open ==> Fine(PhaseOf(p, workers), ConnIn(conns', open[f]), HistIn(hist, open[f]), respond)
    ensures DataOk(respond, open, token[f := p], workers, conns', hist)
  {
  }

  lemma DataAt(respond: Responder, s: State, f: Fd)
    requires DataOk(respond, s.open, s.token, s.workers, s.conns, s.hist) && f in s.open && f in s.token
    ensures Fine(PhaseOf(s.token[f], s.workers), s.ConnAt(s.open[f]), s.HistAt(s.open[f]), respond)
  {
    hide Fine, HistoryOk;
  }

  lemma Untouched(s: State, f: Fd)
    ensures OnlyBehind(s.open, f, s.conns, s.conns, s.hist, s.hist)
  {
  }

  /** The worker goes idle; the descriptor it had, if still open, is in place `p` from now on. */
  lemma WorkersLeave(open: Sockets, token: Places, workers: Crew, w: WorkerId, f: Fd, p: Place)
    requires WorkersOk(open, token, workers) && w in workers && workers[w].Names() == Some(f) && !p.Running?
    requires f in open && f in token
    ensures WorkersOk(open, token[f := p], workers[w := Idle])
  {
    assert Assigned(open, token, w, workers[w]);
    var moved := workers[w := Idle];
    forall u | u in moved ensures Assigned(open, token[f := p], u, moved[u]) {
      assert u != w ==> Assigned(open, token, u, workers[u]);
    }
  }

  lemma WorkersForget(open: Sockets, token: Places, workers: Crew, w: WorkerId, f: Fd)
    requires WorkersOk(open, token, workers) && w in workers && workers[w].Names() == Some(f)
    requires token.Keys == open.Keys && f !in open
    ensures WorkersOk(open, token, workers[w := Idle])
  {
    var moved := workers[w := Idle];
    forall u | u in moved ensures Assigned(open, token, u, moved[u]) {
      assert u != w ==> Assigned(open, token, u, workers[u]);
    }
  }

  lemma DataIdle(respond: Responder, open: Sockets, token: Places, workers: Crew, conns: Conns, hist: Histories,
                 w: WorkerId)
    requires DataOk(respond, open, token, workers, conns, hist)
    requires forall g :: g in token && g in open ==> token[g] != Running(w)
    ensures DataOk(respond, open, token, workers[w := Idle], conns, hist)
  {
    hide Steady, Fine;
    forall g | g in open && g in token ensures PhaseOf(token[g], workers[w := Idle]) == PhaseOf(token[g], workers) {
    }
  }

  lemma OneWorker(open: Sockets, token: Places, workers: Crew, w: WorkerId, u: WorkerId, f: Fd)
    requires WorkersOk(open, token, workers) && f in open
    requires w in workers && workers[w].Names() == Some(f) && u in workers && workers[u].Names() == Some(f)
    ensures u == w
  {
    assert Assigned(open, token, w, workers[w]) && Assigned(open, token, u, workers[u]);
  }

  lemma NotLoops(open: Sockets, table: Sockets, token: Places, workers: Crew, loop: Loop, w: WorkerId, f: Fd)
    requires WorkersOk(open, token, workers) && HandOk(open, table, token, loop) && f in open
    requires w in workers && workers[w].Names() == Some(f)
    ensures f in token && token[f] == Running(w) && !(loop.Inserting? && loop.fd == f)
  {
    assert Assigned(open, token, w, workers[w]);
  }

  lemma CloserNames(loop: Loop, workers: Crew, u: WorkerId)
    requires PastErase(CloseOf(loop, workers, WorkerThread(u)))
    ensures u in workers && workers[u].Names() == Some(CloseOf(loop, workers, WorkerThread(u)).value.fd)
  {
  }

  /** Nobody but the loop can be closing a descriptor a worker outside `closeConnection` has. */
  lemma OnlyLoopCloses(open: Sockets, table: Sockets, owner: Owners, sock: Descriptors, made: set<ConnId>,
                       token: Places, loop: Loop, workers: Crew, w: WorkerId, f: Fd)
    requires OpenOk(open, owner, sock) && TableOk(open, table, owner, made) && ClosersOk(loop, workers, open, owner)
    requires PendingOk(loop, open, owner, made)
    requires WorkersOk(open, token, workers) && HandOk(open, table, token, loop)
    requires w in workers && workers[w].Names() == Some(f) && f in open && f !in table
    requires !PastErase(CloseOf(loop, workers, WorkerThread(w)))
    ensures f in owner && owner[f] == ClosedBy(LoopThread)
  {
    NotLoops(open, table, token, workers, loop, w, f);
    var t := if owner[f].ClosedBy? then owner[f].thread else LoopThread;
    if t.WorkerThread? {
      CloserNames(loop, workers, t.worker);
      OneWorker(open, token, workers, w, t.worker, f);
    }
  }

  lemma MarksIdle(s: State, w: WorkerId, conns: Conns)
    requires Tokens(s) && w in s.workers
    requires conns.Keys == s.conns.Keys && forall id :: ConnIn(conns, id).closed == ConnIn(s.conns, id).closed
    ensures MarksOk(s.open, s.table, s.sock, conns, s.loop, s.workers[w := Idle])
  {
    hide WorkersOk, QueueOk, BatchOk, HandOk, ArmedOk, PlacesOk, MarksOk, DataOk, PastOk, OpenOk, Fine, HistoryOk;
    MarksStay(s.open, s.table, s.sock, s.conns, conns, s.loop, s.workers, w, Idle);
  }

  lemma LeaveTokens(s: State, w: WorkerId, f: Fd, p: Place)
    requires Tokens(s) && w in s.workers && s.workers[w].Names() == Some(f) && f in s.open
    requires p == Leaving || p.Armed?
    ensures var token := s.token[f := p];
            && WorkersOk(s.open, token, s.workers[w := Idle])
            && QueueOk(s.open, token, s.queue)
            && BatchOk(token, BatchOf(s.loop))
            && HandOk(s.open, s.table, token, s.loop)
            && token.Keys == s.open.Keys
  {
    hide QueueOk, BatchOk, HandOk, ArmedOk, PlacesOk, MarksOk, DataOk, PastOk, OpenOk, Fine, HistoryOk;
    assert Assigned(s.open, s.token, w, s.workers[w]);
    WorkersLeave(s.open, s.token, s.workers, w, f, p);
    QueueOther(s.open, s.token, s.queue, f, p);
    BatchOther(s.token, BatchOf(s.loop), f, p);
    HandOther(s.open, s.table, s.token, s.loop, f, p);
  }

  /** The worker's descriptor goes to place `p`; connections but the one behind it are as before. */
  lemma LeaveData(respond: Responder, open: Sockets, owner: Owners, sock: Descriptors, token: Places, workers: Crew,
                  conns: Conns, hist: Histories, w: WorkerId, f: Fd, p: Place, conns': Conns)
    requires DataOk(respond, open, token, workers, conns, hist) && WorkersOk(open, token, workers)
    requires OpenOk(open, owner, sock)
    requires w in workers && workers[w].Names() == Some(f) && f in open && !p.Running?
    requires forall id :: id in sock && sock[id] != f ==> ConnIn(conns', id) == ConnIn(conns, id)
    requires Fine(PhaseOf(p, workers), ConnIn(conns', open[f]), HistIn(hist, open[f]), respond)
    ensures DataOk(respond, open, token[f := p], workers[w := Idle], conns', hist)
  {
    hide Steady, Fine;
    assert Assigned(open, token, w, workers[w]);
    OnlyBehindId(open, sock, owner, f, conns, conns', hist, hist);
    DataOther(respond, open, token, workers, conns, hist, conns', f, p);
    DataIdle(respond, open, token[f := p], workers, conns', hist, w);
  }

  /** Leaving an unregistered descriptor behind. */
  lemma LeavingPlaces(table: Sockets, token: Places, owner: Owners, interest: Interests, loop: Loop, f: Fd)
    requires ArmedOk(table, token, interest) && PlacesOk(table, token, owner, loop)
    requires f !in table && f in token && token[f].Running?
    ensures ArmedOk(table, token[f := Leaving], interest) && PlacesOk(table, token[f := Leaving], owner, loop)
  {
  }

  /** Connections but the one behind `f` are as before, and none is newly closed. */
  ghost predicate Touched(s: State, f: Fd, conns: Conns) {
    && conns.Keys == s.conns.Keys
    && (forall id :: ConnIn(conns, id).closed == ConnIn(s.conns, id).closed)
    && (forall id :: id in s.sock && s.sock[id] != f ==> ConnIn(conns, id) == ConnIn(s.conns, id))
  }

  /** A worker leaves an open descriptor in place `p`. */
  lemma LeaveOpen(respond: Responder, s: State, w: WorkerId, f: Fd, p: Place, conns: Conns, interest: Interests)
    requires Steady(respond, s) && w in s.workers && s.workers[w].Names() == Some(f) && f in s.open
    requires Touched(s, f, conns) && (p == Leaving || p.Armed?)
    requires Fine(PhaseOf(p, s.workers), ConnIn(conns, s.open[f]), s.HistAt(s.open[f]), respond)
    requires ArmedOk(s.table, s.token[f := p], interest) && PlacesOk(s.table, s.token[f := p], s.owner, s.loop)
    ensures Steady(respond, s.(workers := s.workers[w := Idle], conns := conns, interest := interest,
                               token := s.token[f := p]))
  {
    hide WorkersOk, QueueOk, BatchOk, HandOk, ArmedOk, PlacesOk, MarksOk, DataOk, PastOk, OpenOk, Fine, HistoryOk;
    LeaveTokens(s, w, f, p);
    LeaveData(respond, s.open, s.owner, s.sock, s.token, s.workers, s.conns, s.hist, w, f, p, conns);
    MarksIdle(s, w, conns);
  }

  /** A worker leaves a descriptor that has been closed. */
  lemma LeaveShut(respond: Responder, s: State, w: WorkerId, f: Fd, conns: Conns)
    requires Steady(respond, s) && w in s.workers && s.workers[w].Names() == Some(f) && f !in s.open
    requires Touched(s, f, conns)
    ensures Steady(respond, s.(workers := s.workers[w := Idle], conns := conns))
  {
    hide QueueOk, BatchOk, HandOk, ArmedOk, PlacesOk, MarksOk, DataOk, PastOk, OpenOk, Fine, HistoryOk;
    MarksIdle(s, w, conns);
    WorkersForget(s.open, s.token, s.workers, w, f);
    OnlyBehindId(s.open, s.sock, s.owner, f, s.conns, conns, s.hist, s.hist);
    DataIdle(respond, s.open, s.token, s.workers, s.conns, s.hist, w);
    DataSame(respond, s.open, s.token, s.workers[w := Idle], s.conns, s.hist, conns, f);
  }

  lemma DataSame(respond: Responder, open: Sockets, token: Places, workers: Crew, conns: Conns, hist: Histories,
                 conns': Conns, f: Fd)
    requires DataOk(respond, open, token, workers, conns, hist) && OnlyBehind(open, f, conns, conns', hist, hist)
    requires f !in open
    ensures DataOk(respond, open, token, workers, conns', hist)
  {
  }

  lemma DropConn(respond: Responder, s: State, w: WorkerId, f: Fd, conns: Conns)
    requires Steady(respond, s) && w in s.workers && s.workers[w].Names() == Some(f) && f !in s.table
    requires Touched(s, f, conns)
    requires f in s.open ==> Fine(Phase(Gone, Either), ConnIn(conns, s.open[f]), s.HistAt(s.open[f]), respond)
    ensures Steady(respond, Drop(s.(conns := conns), w, f))
  {
    hide WorkersOk, QueueOk, BatchOk, HandOk, ArmedOk, PlacesOk, MarksOk, DataOk, PastOk, OpenOk, Fine, HistoryOk;
    if f in s.open {
      AtWork(respond, s, w, f);
      LeavingPlaces(s.table, s.token, s.owner, s.interest, s.loop, f);
      LeaveOpen(respond, s, w, f, Leaving, conns, s.interest);
    } else {
      LeaveShut(respond, s, w, f, conns);
    }
  }

  /** A worker is done with a descriptor that is no longer registered. */
  lemma DropKeeps(respond: Responder, s: State, w: WorkerId, f: Fd)
    requires Steady(respond, s)
    requires w in s.workers && s.workers[w].Names() == Some(f) && f !in s.table
    ensures Steady(respond, Drop(s, w, f))
  {
    hide WorkersOk, QueueOk, BatchOk, HandOk, ArmedOk, PlacesOk, MarksOk, DataOk, PastOk, OpenOk, Fine, HistoryOk;
    if f in s.open {
      AtWork(respond, s, w, f);
      WeakerFine(respond, BlockStage(s.workers[w]), Gone, BlockPhase(s.workers[w]).busy, s.ConnAt(s.open[f]),
                 s.HistAt(s.open[f]));
    }
    DropConn(respond, s, w, f, s.conns);
  }

  lemma ArmingPlaces(table: Sockets, token: Places, owner: Owners, interest: Interests, loop: Loop, f: Fd, dir: Dir)
    requires ArmedOk(table, token, interest) && PlacesOk(table, token, owner, loop)
    requires f in token && token[f].Running?
    requires f in table || (f in owner && owner[f] == ClosedBy(LoopThread))
    ensures ArmedOk(table, token[f := Armed(dir)], interest[f := On(dir)])
    ensures PlacesOk(table, token[f := Armed(dir)], owner, loop)
  {
  }

  lemma RegisteredOpen(s: State, f: Fd)
    requires Tokens(s) && f in s.interest
    ensures f in s.open
  {
  }

  lemma ArmOpen(respond: Responder, s: State, w: WorkerId, f: Fd, dir: Dir, conns: Conns)
    requires Steady(respond, s) && w in s.workers && s.workers[w].Names() == Some(f) && f in s.open && f in s.interest
    requires f in s.table || (f in s.owner && s.owner[f] == ClosedBy(LoopThread))
    requires Touched(s, f, conns)
    requires Fine(Phase(DirStage(dir), No), ConnIn(conns, s.open[f]), s.HistAt(s.open[f]), respond)
    ensures Steady(respond, ArmAndLeave(s.(conns := conns), w, f, dir))
  {
    hide WorkersOk, QueueOk, BatchOk, HandOk, ArmedOk, PlacesOk, MarksOk, DataOk, PastOk, OpenOk, Fine, HistoryOk;
    AtWork(respond, s, w, f);
    ArmingPlaces(s.table, s.token, s.owner, s.interest, s.loop, f, dir);
    LeaveOpen(respond, s, w, f, Armed(dir), conns, s.interest[f := On(dir)]);
  }

  lemma Unregistered(s: State, w: WorkerId, f: Fd)
    requires Tokens(s) && w in s.workers && s.workers[w].Names() == Some(f) && f !in s.interest
    requires f in s.table ==> f in s.open
    ensures f !in s.table
  {
    if f in s.open {
      assert Assigned(s.open, s.token, w, s.workers[w]);
    }
  }

  /** `epoller_.mod` by a worker that is done: the connection is handed back to epoll. */
  lemma ArmConn(respond: Responder, s: State, w: WorkerId, f: Fd, dir: Dir, conns: Conns)
    requires Steady(respond, s) && w in s.workers && s.workers[w].Names() == Some(f)
    requires f in s.open ==> f in s.table || (f in s.owner && s.owner[f] == ClosedBy(LoopThread))
    requires f in s.table ==> f in s.open
    requires Touched(s, f, conns)
    requires f in s.open ==> Fine(Phase(DirStage(dir), No), ConnIn(conns, s.open[f]), s.HistAt(s.open[f]), respond)
    requires f in s.open ==> Fine(Phase(Gone, Either), ConnIn(conns, s.open[f]), s.HistAt(s.open[f]), respond)
    ensures Steady(respond, ArmAndLeave(s.(conns := conns), w, f, dir))
  {
    hide WorkersOk, QueueOk, BatchOk, HandOk, ArmedOk, PlacesOk, MarksOk, DataOk, PastOk, OpenOk, Fine, HistoryOk;
    if f in s.interest {
      RegisteredOpen(s, f);
      ArmOpen(respond, s, w, f, dir, conns);
    } else {
      Unregistered(s, w, f);
      DropConn(respond, s, w, f, conns);
    }
  }

  // ---------- the worker's blocks, one by one ----------

  lemma MayPut(s: State, w: WorkerId, f: Fd, pc: Worker, id: ConnId, c: Conn)
    requires w in s.workers && s.workers[w].Names() == Some(f) && pc.Names() == Some(f)
    requires pc.Closing? ==> pc.close.Erase?
    requires f in s.open && pc.Holds().Some? ==> pc.Holds().value == s.open[f]
    requires id in s.conns && id in s.sock && s.sock[id] == f && c.closed == s.ConnAt(id).closed
    ensures MayStay(s, w, f, pc, s.conns[id := c])
  {
  }

  /** What a worker's block may rely on: the connection it holds was made for its descriptor, and it
      is the one behind the descriptor if that is open. */
  ghost predicate Held(s: State, w: WorkerId, f: Fd, id: ConnId) {
    && w in s.workers && s.workers[w].Names() == Some(f) && s.workers[w].Holds() == Some(id)
    && id in s.conns && id in s.sock && s.sock[id] == f
    && (f in s.open ==> s.open[f] == id)
  }

  /** The worker moves on, nothing else changing. */
  lemma MoveKeeps(respond: Responder, s: State, w: WorkerId, f: Fd, pc: Worker)
    requires Steady(respond, s) && w in s.workers && s.workers[w].Names() == Some(f) && pc.Names() == Some(f)
    requires pc.Closing? ==> pc.close.Erase?
    requires f in s.open && pc.Holds().Some? ==> pc.Holds().value == s.open[f]
    requires f in s.open ==> Fine(BlockPhase(pc), s.ConnAt(s.open[f]), s.HistAt(s.open[f]), respond)
    ensures Steady(respond, SetWorker(s, w, pc))
  {
    hide WorkersOk, QueueOk, BatchOk, HandOk, ArmedOk, PlacesOk, MarksOk, DataOk, PastOk, OpenOk, Fine, HistoryOk;
    Stay(respond, s, w, f, pc, s.conns, s.timers);
  }

  /** The worker moves on and changes the connection it holds. */
  lemma ConnKeeps(respond: Responder, s: State, w: WorkerId, f: Fd, id: ConnId, pc: Worker, c: Conn)
    requires Steady(respond, s) && Held(s, w, f, id) && pc.Names() == Some(f)
    requires pc.Closing? ==> pc.close.Erase?
    requires pc.Holds().Some? ==> pc.Holds().value == id
    requires c.closed == s.ConnAt(id).closed
    requires f in s.open ==> Fine(BlockPhase(pc), c, s.HistAt(id), respond)
    ensures Steady(respond, SetWorker(SetConn(s, id, c), w, pc))
  {
    hide WorkersOk, QueueOk, BatchOk, HandOk, ArmedOk, PlacesOk, MarksOk, DataOk, PastOk, OpenOk, Fine, HistoryOk;
    MayPut(s, w, f, pc, id, c);
    Stay(respond, s, w, f, pc, s.conns[id := c], s.timers);
  }

  lemma HistKeeps(respond: Responder, s: State, w: WorkerId, f: Fd, id: ConnId, pc: Worker, h: History)
    requires Steady(respond, s) && Held(s, w, f, id) && pc.Names() == Some(f) && f in s.open
    requires pc.Closing? ==> pc.close.Erase?
    requires pc.Holds().Some? ==> pc.Holds().value == id
    requires Fine(BlockPhase(pc), s.ConnAt(id), h, respond)
    ensures Steady(respond, SetWorker(SetHist(s, id, h), w, pc))
  {
    hide WorkersOk, QueueOk, BatchOk, HandOk, ArmedOk, PlacesOk, MarksOk, DataOk, PastOk, OpenOk, Fine, HistoryOk;
    StayHist(respond, s, w, f, pc, s.conns, h);
  }

  lemma BothKeeps(respond: Responder, s: State, w: WorkerId, f: Fd, id: ConnId, pc: Worker, c: Conn, h: History)
    requires Steady(respond, s) && Held(s, w, f, id) && pc.Names() == Some(f) && f in s.open
    requires pc.Closing? ==> pc.close.Erase?
    requires pc.Holds().Some? ==> pc.Holds().value == id
    requires c.closed == s.ConnAt(id).closed
    requires Fine(BlockPhase(pc), c, h, respond)
    ensures Steady(respond, SetWorker(SetHist(SetConn(s, id, c), id, h), w, pc))
  {
    hide WorkersOk, QueueOk, BatchOk, HandOk, ArmedOk, PlacesOk, MarksOk, DataOk, PastOk, OpenOk, Fine, HistoryOk;
    MayPut(s, w, f, pc, id, c);
    StayHist(respond, s, w, f, pc, s.conns[id := c], h);
  }

  lemma TimersSteady(respond: Responder, s: State, timers: Deadlines)
    requires Steady(respond, s)
    ensures Steady(respond, s.(timers := timers))
  {
    hide WorkersOk, QueueOk, BatchOk, HandOk, ArmedOk, PlacesOk, MarksOk, DataOk, PastOk, OpenOk, Fine, HistoryOk;
  }

  lemma LookupSteady(respond: Responder, s: State, w: WorkerId, f: Fd, found: Worker, from: Stage)
    requires Steady(respond, s) && w in s.workers && s.workers[w].Names() == Some(f)
    requires f in s.table ==> f in s.open && s.table[f] == s.open[f]
    requires found.Names() == Some(f) && found.Holds() == Some(s.Entry(f))
    requires BlockPhase(s.workers[w]) == Phase(from, Yes) && BlockPhase(found).busy == Yes
    requires BlockStage(found) == from || (from == Quiet && BlockStage(found) == Clean) ||
             (from == Loaded && BlockStage(found) == Sending)
    ensures Steady(respond, Lookup(s, w, f, found))
  {
    hide Steady, Fine;
    if f in s.table {
      AtWork(respond, s, w, f);
      WeakerFine(respond, from, BlockStage(found), Yes, s.ConnAt(s.open[f]), s.HistAt(s.open[f]));
      MoveKeeps(respond, s, w, f, found);
    } else {
      DropKeeps(respond, s, w, f);
    }
  }

  /** Giving up on the descriptor: on to `closeConnection`. */
  lemma FailSteady(respond: Responder, s: State, w: WorkerId, f: Fd)
    requires Steady(respond, s) && w in s.workers && s.workers[w].Names() == Some(f)
    ensures Steady(respond, SetWorker(s, w, Closing(Erase(f))))
  {
    hide Steady, Fine;
    if f in s.open {
      AtWork(respond, s, w, f);
      var p := BlockPhase(s.workers[w]);
      WeakerFine(respond, p.stage, Gone, p.busy, s.ConnAt(s.open[f]), s.HistAt(s.open[f]));
    }
    MoveKeeps(respond, s, w, f, Closing(Erase(f)));
  }

  lemma RecvSteady(respond: Responder, s: State, w: WorkerId, f: Fd, id: ConnId, a: Answer)
    requires Steady(respond, s) && Held(s, w, f, id) && s.workers[w] == ReadRecv(f, id)
    requires a.Got? ==> f in s.open && s.HistAt(s.open[f]).taken + a.n <= |s.HistAt(s.open[f]).input|
    ensures Steady(respond, StepRecv(s, w, f, id, a))
  {
    hide Steady, Fine;
    if f in s.open {
      AtWork(respond, s, w, f);
    }
    match a
    case Got(n) =>
      var h := s.HistAt(id);
      ReadFine(respond, s.ConnAt(id), h, n);
      HistKeeps(respond, s, w, f, id, ReadAppend(f, id, Slice(h.input, h.taken, n)), h.(taken := h.taken + n));
    case WouldBlock => MoveKeeps(respond, s, w, f, ReadRefresh(f));
    case _ => FailSteady(respond, s, w, f);
  }

  lemma AppendSteady(respond: Responder, s: State, w: WorkerId, f: Fd, id: ConnId, data: Text)
    requires Steady(respond, s) && Held(s, w, f, id) && s.workers[w] == ReadAppend(f, id, data)
    requires f !in s.open ==> s.ConnAt(id).closed
    ensures Steady(respond, StepAppend(s, w, f, id, data))
  {
    hide Steady, Fine;
    var c, h := s.ConnAt(id), s.HistAt(id);
    if f in s.open {
      AtWork(respond, s, w, f);
      AppendFine(respond, c, h, data);
    }
    if c.closed {
      MoveKeeps(respond, s, w, f, ReadRecv(f, id));
    } else {
      BothKeeps(respond, s, w, f, id, ReadRecv(f, id), AppendRead(c, data), h.(rx := h.rx + data));
    }
  }

  lemma ReplySteady(respond: Responder, s: State, w: WorkerId, f: Fd, id: ConnId, raw: Text, e: Exchange)
    requires Steady(respond, s) && Held(s, w, f, id) && s.workers[w] == ProcessReply(f, id, raw)
    requires s.ConnAt(id).closed ==> f !in s.table
    requires f !in s.open ==> s.ConnAt(id).closed
    requires e.raw == raw && e.reply == respond(raw, e.world) && '\r' !in e.world.mime && e.reply.Wire() != []
    ensures Steady(respond, StepReply(s, w, f, id, e))
  {
    hide Steady, Fine;
    var c, h := s.ConnAt(id), s.HistAt(id);
    if c.closed {
      DropKeeps(respond, s, w, f);
    } else {
      AtWork(respond, s, w, f);
      ReplyFine(respond, c, h, e);
      BothKeeps(respond, s, w, f, id, Finish(f, id, Out), Load(c, e.reply), h.(served := h.served + [e]));
    }
  }

  lemma FinishSteady(respond: Responder, s: State, w: WorkerId, f: Fd, id: ConnId, dir: Dir)
    requires Steady(respond, s) && Held(s, w, f, id) && s.workers[w] == Finish(f, id, dir)
    ensures Steady(respond, StepFinish(s, w, f, id, dir))
  {
    hide Steady, Fine;
    var c := s.ConnAt(id);
    if f in s.open {
      AtWork(respond, s, w, f);
      FinishFine(respond, DirStage(dir), c, s.HistAt(id));
    }
    if c.closed {
      MoveKeeps(respond, s, w, f, Arm(f, dir));
    } else {
      ConnKeeps(respond, s, w, f, id, Arm(f, dir), c.(processing := false));
    }
  }

  lemma GatherSteady(respond: Responder, s: State, w: WorkerId, f: Fd, id: ConnId)
    requires Steady(respond, s) && Held(s, w, f, id) && s.workers[w] == WriteGather(f, id)
    ensures Steady(respond, StepGather(s, w, f, id))
  {
    hide Steady, Fine;
    var c := s.ConnAt(id);
    if f in s.open {
      AtWork(respond, s, w, f);
      GatherFine(respond, c, s.HistAt(id));
    }
    MoveKeeps(respond, s, w, f, if c.closed || !HasWriteData(c) || !Cursor(c) then WriteClear(f, id)
                                else WriteSend(f, id, Gather(c)));
  }

  lemma SendSteady(respond: Responder, s: State, w: WorkerId, f: Fd, id: ConnId, iov: seq<Text>, a: Answer)
    requires Steady(respond, s) && Held(s, w, f, id) && s.workers[w] == WriteSend(f, id, iov)
    requires a.Got? ==> f in s.open && a.n <= |Flat(iov)|
    ensures Steady(respond, StepSend(s, w, f, id, iov, a))
  {
    hide Steady, Fine;
    if f in s.open {
      AtWork(respond, s, w, f);
      BlockedFine(respond, s.ConnAt(id), s.HistAt(id), iov);
    }
    match a
    case Got(n) =>
      var h := s.HistAt(id);
      SendFine(respond, s.ConnAt(id), h, iov, n);
      HistKeeps(respond, s, w, f, id, WriteConsume(f, id, n), h.(tx := h.tx + Slice(Flat(iov), 0, n)));
    case WouldBlock => MoveKeeps(respond, s, w, f, Finish(f, id, Out));
    case _ => FailSteady(respond, s, w, f);
  }

  lemma ConsumeSteady(respond: Responder, s: State, w: WorkerId, f: Fd, id: ConnId, n: nat)
    requires Steady(respond, s) && Held(s, w, f, id) && s.workers[w] == WriteConsume(f, id, n)
    ensures Steady(respond, StepConsume(s, w, f, id, n))
  {
    hide Steady, Fine;
    var c := s.ConnAt(id);
    if f in s.open {
      AtWork(respond, s, w, f);
      ConsumeFine(respond, c, s.HistAt(id), n);
    }
    ConnKeeps(respond, s, w, f, id, WriteGather(f, id), if Cursor(c) then Consume(c, n) else c);
  }

  lemma ClearSteady(respond: Responder, s: State, w: WorkerId, f: Fd, id: ConnId)
    requires Steady(respond, s) && Held(s, w, f, id) && s.workers[w] == WriteClear(f, id)
    ensures Steady(respond, StepClear(s, w, f, id))
  {
    hide Steady, Fine;
    var c := s.ConnAt(id);
    if f in s.open {
      AtWork(respond, s, w, f);
      ClearFine(respond, c, s.HistAt(id));
    }
    ConnKeeps(respond, s, w, f, id, if c.closeAfterWrite then Closing(Erase(f))
              else WriteRefresh(f, id, c.readBuf != []),
               ClearWrite(c).(writeReady := false));
  }

  lemma ExtractSteady(respond: Responder, s: State, w: WorkerId, f: Fd, id: ConnId, e: Extraction)
    requires Steady(respond, s) && Held(s, w, f, id) && s.workers[w] == ProcessExtract(f, id)
    requires f in s.open ==> f in s.table || (f in s.owner && s.owner[f] == ClosedBy(LoopThread))
    requires f in s.table ==> f in s.open
    requires e == Extract(s.ConnAt(id).readBuf)
    ensures Steady(respond, StepExtract(s, w, f, id, e))
  {
    hide Steady, Fine;
    var c := s.ConnAt(id);
    if f in s.open {
      AtWork(respond, s, w, f);
    }
    if c.closed || e.Incomplete? {
      var c' := c.(processing := false);
      if f in s.open {
        NoRequestFine(respond, c, s.HistAt(id));
      }
      PutTouches(s, f, id, c');
      ArmConn(respond, s, w, f, In, s.conns[id := c']);
    } else {
      if f in s.open {
        ExtractFine(respond, c, s.HistAt(id), e);
      }
      ConnKeeps(respond, s, w, f, id, ProcessReply(f, id, e.raw), c.(readBuf := e.rest));
    }
  }

  lemma PutTouches(s: State, f: Fd, id: ConnId, c: Conn)
    requires id in s.conns && id in s.sock && s.sock[id] == f && c.closed == s.ConnAt(id).closed
    ensures Touched(s, f, s.conns[id := c])
  {
  }

  lemma ArmBlockSteady(respond: Responder, s: State, w: WorkerId, f: Fd, dir: Dir)
    requires Steady(respond, s) && w in s.workers && s.workers[w] == Arm(f, dir)
    requires f in s.open ==> f in s.table || (f in s.owner && s.owner[f] == ClosedBy(LoopThread))
    requires f in s.table ==> f in s.open
    ensures Steady(respond, ArmAndLeave(s, w, f, dir))
  {
    hide Steady, Fine;
    if f in s.open {
      AtWork(respond, s, w, f);
      WeakerFine(respond, DirStage(dir), Gone, No, s.ConnAt(s.open[f]), s.HistAt(s.open[f]));
    }
    ArmConn(respond, s, w, f, dir, s.conns);
  }

  /** Refreshing the timer and going on at the same stage. */
  lemma RefreshSteady(respond: Responder, s: State, w: WorkerId, f: Fd, pc: Worker)
    requires Steady(respond, s) && w in s.workers && s.workers[w].Names() == Some(f) && pc.Names() == Some(f)
    requires !pc.Closing? && BlockPhase(pc) == BlockPhase(s.workers[w])
    requires pc.Holds() == None || pc.Holds() == s.workers[w].Holds()
    ensures Steady(respond, SetWorker(Refresh(s, f), w, pc))
  {
    hide Steady, Fine;
    if f in s.open {
      AtWork(respond, s, w, f);
    }
    MoveKeeps(respond, s, w, f, pc);
    TimersSteady(respond, SetWorker(s, w, pc), Refresh(s, f).timers);
  }

  // ---------- taking a task ----------

  lemma TakeWorkers(open: Sockets, token: Places, workers: Crew, w: WorkerId, f: Fd, pc: Worker)
    requires WorkersOk(open, token, workers) && w in workers && workers[w] == Idle
    requires pc.Names() == Some(f) && pc.Holds() == None
    requires f in open ==> f in token && token[f].Queued?
    requires token.Keys == open.Keys
    ensures WorkersOk(open, if f in open then token[f := Running(w)] else token, workers[w := pc])
  {
    var moved, token' := workers[w := pc], if f in open then token[f := Running(w)] else token;
    forall u | u in moved ensures Assigned(open, token', u, moved[u]) {
      assert u != w ==> Assigned(open, token, u, workers[u]);
    }
  }

  lemma TakeQueue(open: Sockets, token: Places, queue: seq<Task>, w: WorkerId)
    requires QueueOk(open, token, queue) && queue != [] && token.Keys == open.Keys
    ensures var f := queue[0].fd;
            QueueOk(open, if f in open then token[f := Running(w)] else token, queue[1..])
  {
    var f, rest := queue[0].fd, queue[1..];
    forall i | 0 <= i < |rest| ensures rest[i] == queue[i + 1] && rest[i].fd != f {
    }
    forall g | g in token && token[g].Queued? && g != f ensures Task(g, token[g].dir) in rest {
      var i :| 0 <= i < |queue| && queue[i] == Task(g, token[g].dir);
      assert rest[i - 1] == queue[i];
    }
  }

  lemma TakePlaces(table: Sockets, token: Places, owner: Owners, interest: Interests, loop: Loop, f: Fd, w: WorkerId)
    requires ArmedOk(table, token, interest) && PlacesOk(table, token, owner, loop) && f in token && token[f].Queued?
    ensures ArmedOk(table, token[f := Running(w)], interest) && PlacesOk(table, token[f := Running(w)], owner, loop)
  {
  }

  lemma TakeData(respond: Responder, open: Sockets, token: Places, workers: Crew, conns: Conns, hist: Histories,
                 w: WorkerId, f: Fd, pc: Worker)
    requires DataOk(respond, open, token, workers, conns, hist) && WorkersOk(open, token, workers)
    requires w in workers && workers[w] == Idle && token.Keys == open.Keys
    requires f in open ==> PhaseOf(token[f], workers) == BlockPhase(pc)
    ensures DataOk(respond, open, if f in open then token[f := Running(w)] else token, workers[w := pc], conns, hist)
  {
    hide Steady, Fine;
    forall g | g in open && g != f ensures PhaseOf(token[g], workers[w := pc]) == PhaseOf(token[g], workers) {
    }
  }

  lemma TakeFinds(open: Sockets, token: Places, queue: seq<Task>)
    requires QueueOk(open, token, queue) && queue != []
    ensures queue[0].fd in open ==> queue[0].fd in token && token[queue[0].fd] == Queued(queue[0].dir)
  {
  }

  lemma TakeOpen(respond: Responder, s: State, w: WorkerId, f: Fd, pc: Worker)
    requires Steady(respond, s) && w in s.workers && s.workers[w] == Idle && s.queue != [] && f == s.queue[0].fd
    requires f in s.open
    requires pc.Names() == Some(f) && pc.Holds() == None && !pc.Closing?
    requires BlockPhase(pc) == PhaseOf(Queued(s.queue[0].dir), s.workers)
    ensures Steady(respond, s.(workers := s.workers[w := pc], queue := s.queue[1..], token := s.token[f := Running(w)]))
  {
    hide WorkersOk, QueueOk, BatchOk, HandOk, ArmedOk, PlacesOk, MarksOk, DataOk, PastOk, OpenOk, Fine, HistoryOk;
    TakeFinds(s.open, s.token, s.queue);
    TakeWorkers(s.open, s.token, s.workers, w, f, pc);
    TakeQueue(s.open, s.token, s.queue, w);
    TakeData(respond, s.open, s.token, s.workers, s.conns, s.hist, w, f, pc);
    MarksStay(s.open, s.table, s.sock, s.conns, s.conns, s.loop, s.workers, w, pc);
    BatchOther(s.token, BatchOf(s.loop), f, Running(w));
    HandOther(s.open, s.table, s.token, s.loop, f, Running(w));
    TakePlaces(s.table, s.token, s.owner, s.interest, s.loop, f, w);
  }

  lemma TakeShut(respond: Responder, s: State, w: WorkerId, f: Fd, pc: Worker)
    requires Steady(respond, s) && w in s.workers && s.workers[w] == Idle && s.queue != [] && f == s.queue[0].fd
    requires f !in s.open
    requires pc.Names() == Some(f) && pc.Holds() == None && !pc.Closing?
    ensures Steady(respond, s.(workers := s.workers[w := pc], queue := s.queue[1..]))
  {
    hide WorkersOk, QueueOk, BatchOk, HandOk, ArmedOk, PlacesOk, MarksOk, DataOk, PastOk, OpenOk, Fine, HistoryOk;
    TakeWorkers(s.open, s.token, s.workers, w, f, pc);
    TakeQueue(s.open, s.token, s.queue, w);
    TakeData(respond, s.open, s.token, s.workers, s.conns, s.hist, w, f, pc);
    MarksStay(s.open, s.table, s.sock, s.conns, s.conns, s.loop, s.workers, w, pc);
  }

  lemma TakeKeeps(respond: Responder, s: State, w: WorkerId, t: Task)
    requires Steady(respond, s) && w in s.workers && s.workers[w] == Idle && s.queue != [] && t == s.queue[0]
    ensures Steady(respond, StepTake(s, w, t))
  {
    hide Steady;
    var pc := if t.dir == In then ReadGet(t.fd) else WriteGet(t.fd);
    if t.fd in s.open {
      TakeOpen(respond, s, w, t.fd, pc);
    } else {
      TakeShut(respond, s, w, t.fd, pc);
    }
  }

  // ---------- closing ----------

  lemma EraseHand(open: Sockets, table: Sockets, token: Places, loop: Loop, f: Fd)
    requires HandOk(open, table, token, loop) && (f in token ==> !LoopPlace(token[f]))
    ensures HandOk(open, table - {f}, token, loop)
  {
  }

  lemma EraseMarks(open: Sockets, table: Sockets, sock: Descriptors, conns: Conns, loop: Loop, workers: Crew, f: Fd)
    requires MarksOk(open, table, sock, conns, loop, workers)
    ensures MarksOk(open, table - {f}, sock, conns, loop, workers)
  {
  }

  lemma WorkerErasePlaces(table: Sockets, token: Places, owner: Owners, interest: Interests, loop: Loop, f: Fd,
                          t: Thread)
    requires ArmedOk(table, token, interest) && PlacesOk(table, token, owner, loop) && f in token && token[f].Running?
    ensures ArmedOk(table - {f}, token, interest) && PlacesOk(table - {f}, token, owner[f := ClosedBy(t)], loop)
  {
  }

  lemma WorkerEraseMarks(s: State, w: WorkerId, f: Fd, id: ConnId)
    requires Tokens(s) && w in s.workers && s.workers[w] == Closing(Erase(f))
    requires f in s.open && id == s.open[f]
    ensures WorkersOk(s.open, s.token, s.workers[w := Closing(Mark(f, id))])
    ensures MarksOk(s.open, s.table - {f}, s.sock, s.conns, s.loop, s.workers[w := Closing(Mark(f, id))])
  {
    hide WorkersOk, QueueOk, BatchOk, HandOk, ArmedOk, PlacesOk, MarksOk, DataOk, PastOk, OpenOk, Fine, HistoryOk;
    var pc := Closing(Mark(f, id));
    WorkersStay(s.open, s.token, s.workers, w, pc);
    MarksWorker(s.open, s.table, s.sock, s.conns, s.loop, s.workers, w, pc);
    EraseMarks(s.open, s.table, s.sock, s.conns, s.loop, s.workers[w := pc], f);
  }

  lemma WorkerErasePlacesOk(s: State, w: WorkerId, f: Fd)
    requires Tokens(s) && w in s.workers && s.workers[w] == Closing(Erase(f)) && f in s.open
    ensures HandOk(s.open, s.table - {f}, s.token, s.loop)
    ensures ArmedOk(s.table - {f}, s.token, s.interest)
    ensures PlacesOk(s.table - {f}, s.token, s.owner[f := ClosedBy(WorkerThread(w))], s.loop)
  {
    hide QueueOk, BatchOk, HandOk, ArmedOk, PlacesOk, MarksOk, DataOk, PastOk, OpenOk, Fine, HistoryOk;
    assert Assigned(s.open, s.token, w, s.workers[w]);
    EraseHand(s.open, s.table, s.token, s.loop, f);
    WorkerErasePlaces(s.table, s.token, s.owner, s.interest, s.loop, f, WorkerThread(w));
  }

  lemma OwnerOther(open: Sockets, owner: Owners, sock: Descriptors, f: Fd, o: Owner)
    requires OpenOk(open, owner, sock) && f in open
    ensures OpenOk(open, owner[f := o], sock)
  {
  }

  lemma WorkerEraseKeeps(respond: Responder, s: State, w: WorkerId, f: Fd)
    requires Steady(respond, s) && w in s.workers && s.workers[w] == Closing(Erase(f))
    requires f in s.table && f in s.open && s.table[f] == s.open[f]
    ensures Steady(respond, SetWorker(CloseEffect(s, WorkerThread(w), Erase(f)), w, Closing(Mark(f, s.table[f]))))
  {
    hide WorkersOk, QueueOk, BatchOk, HandOk, ArmedOk, PlacesOk, MarksOk, DataOk, PastOk, OpenOk, Fine, HistoryOk;
    OwnerOther(s.open, s.owner, s.sock, f, ClosedBy(WorkerThread(w)));
    AtWork(respond, s, w, f);
    WorkerEraseMarks(s, w, f, s.table[f]);
    WorkerErasePlacesOk(s, w, f);
    DataStay(respond, s.open, s.token, s.workers, s.conns, s.hist, s.conns, s.hist, w, Closing(Mark(f, s.table[f])), f);
  }

  /** Marking a connection that is not registered. */
  lemma MarkFlag(open: Sockets, table: Sockets, sock: Descriptors, conns: Conns, loop: Loop, workers: Crew, id: ConnId)
    requires MarksOk(open, table, sock, conns, loop, workers) && id in conns
    requires forall g :: g in table ==> table[g] != id
    ensures MarksOk(open, table, sock, conns[id := conns[id].(closed := true)], loop, workers)
  {
    var conns' := conns[id := conns[id].(closed := true)];
    forall w | w in workers ensures Marked(CloseOf(loop, workers, WorkerThread(w)), conns') {
      assert Marked(CloseOf(loop, workers, WorkerThread(w)), conns);
    }
  }

  /** A step of `closeConnection` past the erase, as far as the worker's place goes. */
  ghost predicate PastHeld(s: State, f: Fd, id: ConnId) {
    && f in s.open && s.open[f] == id && f !in s.table && id in s.conns && id in s.sock && s.sock[id] == f
    && forall g :: g in s.table ==> g in s.sock.Values && s.table[g] != id
  }

  lemma WorkerMarkKeeps(respond: Responder, s: State, w: WorkerId, f: Fd, id: ConnId)
    requires Steady(respond, s) && w in s.workers && s.workers[w] == Closing(Mark(f, id))
    requires PastHeld(s, f, id)
    ensures Steady(respond, SetWorker(CloseEffect(s, WorkerThread(w), Mark(f, id)), w, Closing(Unregister(f, id))))
  {
    hide WorkersOk, QueueOk, BatchOk, HandOk, ArmedOk, PlacesOk, MarksOk, DataOk, PastOk, OpenOk, Fine, HistoryOk;
    var pc, c := Closing(Unregister(f, id)), s.ConnAt(id).(closed := true);
    var conns := s.conns[id := c];
    AtWork(respond, s, w, f);
    MarkFine(respond, Phase(Gone, Either), s.ConnAt(id), s.HistAt(id));
    WorkersStay(s.open, s.token, s.workers, w, pc);
    MarkFlag(s.open, s.table, s.sock, s.conns, s.loop, s.workers, id);
    MarksWorker(s.open, s.table, s.sock, conns, s.loop, s.workers, w, pc);
    OnlyBehindId(s.open, s.sock, s.owner, f, s.conns, conns, s.hist, s.hist);
    DataStay(respond, s.open, s.token, s.workers, s.conns, s.hist, conns, s.hist, w, pc, f);
  }

  lemma UnregisterPlaces(table: Sockets, token: Places, interest: Interests, f: Fd)
    requires ArmedOk(table, token, interest) && f !in table
    ensures ArmedOk(table, token, interest - {f})
  {
  }

  lemma WorkerUnregisterKeeps(respond: Responder, s: State, w: WorkerId, f: Fd, id: ConnId)
    requires Steady(respond, s) && w in s.workers && s.workers[w] == Closing(Unregister(f, id))
    requires PastHeld(s, f, id)
    ensures Steady(respond, SetWorker(CloseEffect(s, WorkerThread(w), Unregister(f, id)), w, Closing(Shut(f, id))))
  {
    hide WorkersOk, QueueOk, BatchOk, HandOk, ArmedOk, PlacesOk, DataOk, PastOk, OpenOk, Fine, HistoryOk;
    var pc := Closing(Shut(f, id));
    AtWork(respond, s, w, f);
    WorkersStay(s.open, s.token, s.workers, w, pc);
    assert Marked(CloseOf(s.loop, s.workers, WorkerThread(w)), s.conns);
    MarksWorker(s.open, s.table, s.sock, s.conns, s.loop, s.workers, w, pc);
    UnregisterPlaces(s.table, s.token, s.interest, f);
    DataStay(respond, s.open, s.token, s.workers, s.conns, s.hist, s.conns, s.hist, w, pc, f);
  }

  /** Dropping a descriptor that is out of the table, the queue, the batch and the loop's hand. */
  lemma ShutQueue(open: Sockets, token: Places, queue: seq<Task>, batch: seq<Event>, f: Fd)
    requires QueueOk(open, token, queue) && BatchOk(token, batch) && f in token && !token[f].Delivered?
    ensures QueueOk(open - {f}, token - {f}, queue) && BatchOk(token - {f}, batch)
  {
  }

  lemma ShutPlaces(open: Sockets, table: Sockets, token: Places, owner: Owners, interest: Interests, loop: Loop, f: Fd)
    requires HandOk(open, table, token, loop) && ArmedOk(table, token, interest) && PlacesOk(table, token, owner, loop)
    requires f !in table && f in token && !token[f].Delivered? && !LoopPlace(token[f])
    ensures HandOk(open - {f}, table, token - {f}, loop)
    ensures ArmedOk(table, token - {f}, interest - {f}) && PlacesOk(table, token - {f}, owner - {f}, loop)
  {
  }

  lemma ShutMarks(open: Sockets, table: Sockets, sock: Descriptors, conns: Conns, loop: Loop, workers: Crew, f: Fd,
                  id: ConnId)
    requires MarksOk(open, table, sock, conns, loop, workers) && f in open && open[f] == id && ConnIn(conns, id).closed
    ensures MarksOk(open - {f}, table, sock, conns, loop, workers)
  {
    forall k | k in conns && !IsOpen(open - {f}, sock, k) ensures conns[k].closed {
      assert k != id ==> !IsOpen(open, sock, k);
    }
  }

  lemma ShutWorkers(open: Sockets, token: Places, workers: Crew, w: WorkerId, f: Fd)
    requires WorkersOk(open, token, workers) && w in workers && workers[w].Names() == Some(f) && f in open
    ensures WorkersOk(open - {f}, token - {f}, workers[w := Idle])
  {
    assert Assigned(open, token, w, workers[w]);
    var moved := workers[w := Idle];
    forall u | u in moved ensures Assigned(open - {f}, token - {f}, u, moved[u]) {
      assert u != w ==> Assigned(open, token, u, workers[u]);
    }
  }

  lemma ShutData(respond: Responder, open: Sockets, token: Places, workers: Crew, conns: Conns, hist: Histories,
                 w: WorkerId, f: Fd)
    requires DataOk(respond, open, token, workers, conns, hist) && WorkersOk(open, token, workers)
    requires w in workers && workers[w].Names() == Some(f)
    ensures DataOk(respond, open - {f}, token - {f}, workers[w := Idle], conns, hist)
  {
    hide Steady, Fine;
    forall g | g in open && g in token && g != f
      ensures PhaseOf(token[g], workers[w := Idle]) == PhaseOf(token[g], workers)
    {
    }
  }

  lemma WorkerShutKeeps(respond: Responder, s: State, w: WorkerId, f: Fd, id: ConnId)
    requires Steady(respond, s) && w in s.workers && s.workers[w] == Closing(Shut(f, id))
    requires PastHeld(s, f, id) && OpenOk(s.open - {f}, s.owner - {f}, s.sock)
    ensures Steady(respond, SetWorker(CloseEffect(s, WorkerThread(w), Shut(f, id)), w, Idle))
  {
    hide WorkersOk, QueueOk, BatchOk, HandOk, ArmedOk, PlacesOk, DataOk, PastOk, OpenOk, Fine, HistoryOk;
    AtWork(respond, s, w, f);
    ShutQueue(s.open, s.token, s.queue, BatchOf(s.loop), f);
    ShutPlaces(s.open, s.table, s.token, s.owner, s.interest, s.loop, f);
    assert Marked(CloseOf(s.loop, s.workers, WorkerThread(w)), s.conns);
    ShutMarks(s.open, s.table, s.sock, s.conns, s.loop, s.workers, f, id);
    MarksWorker(s.open - {f}, s.table, s.sock, s.conns, s.loop, s.workers, w, Idle);
    ShutWorkers(s.open, s.token, s.workers, w, f);
    ShutData(respond, s.open, s.token, s.workers, s.conns, s.hist, w, f);
  }

  // ---------- the loop's blocks ----------

  /** The loop moves with nothing in hand, before and after. */
  lemma LoopMoveClauses(open: Sockets, table: Sockets, token: Places, owner: Owners, loop: Loop, loop': Loop)
    requires HandOk(open, table, token, loop) && PlacesOk(table, token, owner, loop)
    requires InHand(loop) == None && InHand(loop') == None && !loop.LoopClosing?
    requires loop'.LoopClosing? ==> loop'.close.Erase? && loop'.resume.ToIdle?
    ensures HandOk(open, table, token, loop') && PlacesOk(table, token, owner, loop')
  {
  }

  /** Only the loop moves; neither its batch nor what it has in hand changes, and it is not closing. */
  lemma LoopMoveKeeps(respond: Responder, s: State, l: Loop)
    requires Steady(respond, s) && InHand(l) == None && InHand(s.loop) == None && BatchOf(l) == BatchOf(s.loop)
    requires !s.loop.LoopClosing?
    requires l.LoopClosing? ==> l.close.Erase? && l.resume.ToIdle?
    ensures Steady(respond, s.(loop := l))
  {
    hide WorkersOk, QueueOk, BatchOk, HandOk, ArmedOk, PlacesOk, MarksOk, DataOk, PastOk, OpenOk, Fine, HistoryOk;
    LoopMoveClauses(s.open, s.table, s.token, s.owner, s.loop, l);
    LoopMarks(s.open, s.table, s.sock, s.conns, s.loop, l, s.workers);
  }

  lemma LoopMarks(open: Sockets, table: Sockets, sock: Descriptors, conns: Conns, loop: Loop, loop': Loop,
                  workers: Crew)
    requires MarksOk(open, table, sock, conns, loop, workers)
    requires loop'.Inserting? ==> loop'.id !in conns
    requires Marked(CloseOf(loop', workers, LoopThread), conns)
    ensures MarksOk(open, table, sock, conns, loop', workers)
  {
    forall w | w in workers ensures Marked(CloseOf(loop', workers, WorkerThread(w)), conns) {
      assert CloseOf(loop', workers, WorkerThread(w)) == CloseOf(loop, workers, WorkerThread(w));
    }
  }

  /** A change of place that no worker is involved in. */
  lemma WorkersOther(open: Sockets, token: Places, workers: Crew, f: Fd, p: Place)
    requires WorkersOk(open, token, workers) && f in token && !token[f].Running? && !p.Running?
    ensures WorkersOk(open, token[f := p], workers)
  {
    forall w | w in workers ensures Assigned(open, token[f := p], w, workers[w]) {
      assert Assigned(open, token, w, workers[w]);
    }
  }

  /** One more event is delivered: its descriptor is disarmed and goes into the batch. */
  lemma CollectBatch(token: Places, batch: seq<Event>, e: Event, dir: Dir)
    requires BatchOk(token, batch) && !e.Listen? && e.fd in token && token[e.fd] == Armed(dir)
    requires e.Ready? ==> e.dir == dir
    ensures BatchOk(token[e.fd := Delivered(dir)], batch + [e])
  {
    var batch', token' := batch + [e], token[e.fd := Delivered(dir)];
    forall i | 0 <= i < |batch| ensures batch'[i] == batch[i] && !Concerns(batch[i], e.fd) {
    }
    assert Concerns(batch'[|batch|], e.fd);
    forall f | f in token' && token'[f].Delivered? && f != e.fd
      ensures exists i :: 0 <= i < |batch'| && Concerns(batch'[i], f)
    {
      var i :| 0 <= i < |batch| && Concerns(batch[i], f);
      assert Concerns(batch'[i], f);
    }
  }

  lemma ListenBatch(token: Places, batch: seq<Event>)
    requires BatchOk(token, batch)
    ensures BatchOk(token, batch + [Listen])
  {
    var batch' := batch + [Listen];
    forall f | f in token && token[f].Delivered? ensures exists i :: 0 <= i < |batch'| && Concerns(batch'[i], f) {
      var i :| 0 <= i < |batch| && Concerns(batch[i], f);
      assert Concerns(batch'[i], f);
    }
  }

  lemma CollectPlaces(table: Sockets, token: Places, owner: Owners, interest: Interests, loop: Loop, loop': Loop,
                      f: Fd, dir: Dir)
    requires ArmedOk(table, token, interest) && PlacesOk(table, token, owner, loop)
    requires f in table && f in interest && interest[f] == On(dir) && !loop.LoopClosing? && !loop'.LoopClosing?
    ensures ArmedOk(table, token[f := Delivered(dir)], interest[f := Off])
    ensures PlacesOk(table, token[f := Delivered(dir)], owner, loop')
  {
  }

  lemma CollectTokens(s: State, e: Event, dir: Dir)
    requires Tokens(s) && s.loop.Waiting? && !e.Listen?
    requires e.fd in s.interest && s.interest[e.fd] == On(dir) && (e.Ready? ==> e.dir == dir)
    ensures e.fd in s.open && e.fd in s.token && s.token[e.fd] == Armed(dir)
    ensures var token := s.token[e.fd := Delivered(dir)];
            && WorkersOk(s.open, token, s.workers) && QueueOk(s.open, token, s.queue)
            && BatchOk(token, s.loop.batch + [e]) && HandOk(s.open, s.table, token, Waiting(s.loop.batch + [e]))
  {
    hide WorkersOk, QueueOk, BatchOk, PlacesOk, MarksOk, DataOk, PastOk, OpenOk, Fine, HistoryOk;
    WorkersOther(s.open, s.token, s.workers, e.fd, Delivered(dir));
    QueueOther(s.open, s.token, s.queue, e.fd, Delivered(dir));
    CollectBatch(s.token, s.loop.batch, e, dir);
    HandOther(s.open, s.table, s.token, s.loop, e.fd, Delivered(dir));
  }

  lemma CollectRest(s: State, e: Event, dir: Dir)
    requires Tokens(s) && s.loop.Waiting? && !e.Listen?
    requires e.fd in s.interest && s.interest[e.fd] == On(dir) && e.fd in s.table
    ensures var token, l := s.token[e.fd := Delivered(dir)], Waiting(s.loop.batch + [e]);
            && ArmedOk(s.table, token, s.interest[e.fd := Off]) && PlacesOk(s.table, token, s.owner, l)
            && MarksOk(s.open, s.table, s.sock, s.conns, l, s.workers)
  {
    hide WorkersOk, QueueOk, BatchOk, HandOk, ArmedOk, PlacesOk, MarksOk, DataOk, PastOk, OpenOk, Fine, HistoryOk;
    var l := Waiting(s.loop.batch + [e]);
    CollectPlaces(s.table, s.token, s.owner, s.interest, s.loop, l, e.fd, dir);
    LoopMarks(s.open, s.table, s.sock, s.conns, s.loop, l, s.workers);
  }

  lemma CollectKeeps(respond: Responder, s: State, e: Event, dir: Dir)
    requires Steady(respond, s) && s.loop.Waiting? && !e.Listen?
    requires e.fd in s.interest && s.interest[e.fd] == On(dir) && (e.Ready? ==> e.dir == dir)
    requires e.fd in s.table
    ensures Steady(respond, s.(loop := Waiting(s.loop.batch + [e]), interest := s.interest[e.fd := Off],
                               token := s.token[e.fd := Delivered(dir)]))
  {
    hide WorkersOk, QueueOk, BatchOk, HandOk, ArmedOk, PlacesOk, MarksOk, DataOk, PastOk, OpenOk, Fine, HistoryOk;
    CollectTokens(s, e, dir);
    CollectRest(s, e, dir);
    DataAt(respond, s, e.fd);
    Untouched(s, e.fd);
    DataOther(respond, s.open, s.token, s.workers, s.conns, s.hist, s.conns, e.fd, Delivered(dir));
  }

  lemma ListenKeeps(respond: Responder, s: State)
    requires Steady(respond, s) && s.loop.Waiting?
    ensures Steady(respond, StepCollect(s, Listen))
  {
    hide WorkersOk, QueueOk, BatchOk, HandOk, ArmedOk, PlacesOk, MarksOk, DataOk, PastOk, OpenOk, Fine, HistoryOk;
    var l := Waiting(s.loop.batch + [Listen]);
    ListenBatch(s.token, s.loop.batch);
    LoopMoveClauses(s.open, s.table, s.token, s.owner, s.loop, l);
    LoopMarks(s.open, s.table, s.sock, s.conns, s.loop, l, s.workers);
  }

  /** Taking the first event off the batch; if it concerns a descriptor, that gets place `p`. */
  lemma PopBatch(token: Places, batch: seq<Event>, p: Place)
    requires BatchOk(token, batch) && batch != [] && !p.Delivered?
    ensures batch[0].Listen? ==> BatchOk(token, batch[1..])
    ensures !batch[0].Listen? ==> BatchOk(token[batch[0].fd := p], batch[1..])
  {
    var rest := batch[1..];
    forall i | 0 <= i < |rest| ensures rest[i] == batch[i + 1] {
    }
    forall f | f in token && token[f].Delivered? && !Concerns(batch[0], f)
      ensures exists i :: 0 <= i < |rest| && Concerns(rest[i], f)
    {
      var i :| 0 <= i < |batch| && Concerns(batch[i], f);
      assert Concerns(rest[i - 1], f);
    }
  }

  lemma HandleListenKeeps(respond: Responder, s: State)
    requires Steady(respond, s) && s.loop.Handling? && s.loop.batch != [] && s.loop.batch[0] == Listen
    ensures Steady(respond, s.(loop := Accepting(s.loop.batch[1..])))
  {
    hide WorkersOk, QueueOk, BatchOk, HandOk, ArmedOk, PlacesOk, MarksOk, DataOk, PastOk, OpenOk, Fine, HistoryOk;
    var l := Accepting(s.loop.batch[1..]);
    PopBatch(s.token, s.loop.batch, Leaving);
    LoopMoveClauses(s.open, s.table, s.token, s.owner, s.loop, l);
    LoopMarks(s.open, s.table, s.sock, s.conns, s.loop, l, s.workers);
  }

  /** Going on to dispatch or to close the descriptor of the first event. */
  lemma HandlePlaces(table: Sockets, token: Places, owner: Owners, interest: Interests, loop: Loop, loop': Loop, f: Fd,
                     p: Place)
    requires ArmedOk(table, token, interest) && PlacesOk(table, token, owner, loop)
    requires f in token && token[f].Delivered? && !loop.LoopClosing?
    requires p.Dispatching? || p == Leaving
    requires p == Leaving ==> loop'.LoopClosing? && loop'.close == Erase(f) && loop'.resume.ToBatch?
    requires p != Leaving ==> !loop'.LoopClosing?
    ensures ArmedOk(table, token[f := p], interest) && PlacesOk(table, token[f := p], owner, loop')
  {
  }

  lemma HandlePlace(s: State, f: Fd)
    requires Tokens(s) && s.loop.Handling? && s.loop.batch != [] && !s.loop.batch[0].Listen? && f == s.loop.batch[0].fd
    ensures f in s.open && f in s.token && s.token[f].Delivered? && f in s.table
    ensures s.loop.batch[0].Ready? ==> s.token[f] == Delivered(s.loop.batch[0].dir)
  {
  }

  lemma HandleHand(open: Sockets, table: Sockets, token: Places, loop: Loop, loop': Loop, f: Fd, p: Place)
    requires HandOk(open, table, token, loop) && f in token && f in open && f in table && InHand(loop) == None
    requires !LoopPlace(token[f])
    requires InHand(loop') == if LoopPlace(p) then Some((f, p)) else None
    requires loop'.Beginning? ==> loop'.fd == f && loop'.id == open[f]
    ensures HandOk(open, table, token[f := p], loop')
  {
  }

  /** What the loop does with the first event of its batch: dispatch or close. */
  ghost predicate Handles(s: State, f: Fd, p: Place, l: Loop) {
    && s.loop.Handling? && s.loop.batch != [] && !s.loop.batch[0].Listen? && f == s.loop.batch[0].fd
    && (p.Dispatching? || p == Leaving)
    && (p == Leaving ==> l == LoopClosing(Erase(f), ToBatch(s.loop.batch[1..])))
    && (p != Leaving ==> f in s.open && l == Beginning(f, s.open[f], p.dir, s.loop.batch[1..]))
  }

  lemma HandleTokens(s: State, f: Fd, p: Place, l: Loop)
    requires Tokens(s) && Handles(s, f, p, l)
    ensures f in s.token
    ensures var token := s.token[f := p];
            && WorkersOk(s.open, token, s.workers) && QueueOk(s.open, token, s.queue)
            && BatchOk(token, BatchOf(l)) && HandOk(s.open, s.table, token, l)
  {
    hide WorkersOk, QueueOk, BatchOk, HandOk, ArmedOk, PlacesOk, MarksOk, DataOk, PastOk, OpenOk, Fine, HistoryOk;
    HandlePlace(s, f);
    WorkersOther(s.open, s.token, s.workers, f, p);
    QueueOther(s.open, s.token, s.queue, f, p);
    PopBatch(s.token, s.loop.batch, p);
    HandleHand(s.open, s.table, s.token, s.loop, l, f, p);
  }

  lemma HandleKeeps(respond: Responder, s: State, f: Fd, p: Place, l: Loop)
    requires Steady(respond, s) && Handles(s, f, p, l)
    requires f in s.open && f in s.token ==>
             Fine(PhaseOf(p, s.workers), s.ConnAt(s.open[f]), s.HistAt(s.open[f]), respond)
    ensures Steady(respond, SetPlace(s.(loop := l), f, p))
  {
    hide WorkersOk, QueueOk, BatchOk, HandOk, ArmedOk, PlacesOk, MarksOk, DataOk, PastOk, OpenOk, Fine, HistoryOk;
    HandlePlace(s, f);
    HandleTokens(s, f, p, l);
    HandlePlaces(s.table, s.token, s.owner, s.interest, s.loop, l, f, p);
    LoopMarks(s.open, s.table, s.sock, s.conns, s.loop, l, s.workers);
    DataOther(respond, s.open, s.token, s.workers, s.conns, s.hist, s.conns, f, p);
  }

  /** Every event the loop takes up finds its connection: the lookup in the dispatch succeeds. */
  lemma HandleSteady(respond: Responder, s: State)
    requires Steady(respond, s) && s.loop.Handling? && s.loop.batch != []
    requires forall f :: f in s.table ==> f in s.open && s.table[f] == s.open[f]
    ensures Steady(respond, StepHandle(s))
  {
    hide WorkersOk, QueueOk, BatchOk, HandOk, ArmedOk, PlacesOk, MarksOk, DataOk, PastOk, OpenOk, Fine, HistoryOk;
    match s.loop.batch[0]
    case Listen => HandleListenKeeps(respond, s);
    case Hangup(f) =>
      HandlePlace(s, f);
      DataAt(respond, s, f);
      var d := s.token[f].dir;
      WeakerFine(respond, DirStage(d), Gone, No, s.ConnAt(s.open[f]), s.HistAt(s.open[f]));
      HandleKeeps(respond, s, f, Leaving, LoopClosing(Erase(f), ToBatch(s.loop.batch[1..])));
    case Ready(f, dir) =>
      HandlePlace(s, f);
      DataAt(respond, s, f);
      HandleKeeps(respond, s, f, Dispatching(dir), Beginning(f, s.open[f], dir, s.loop.batch[1..]));
  }

  // Accepting: a new descriptor, named by nobody.

  lemma AcceptQueue(open: Sockets, token: Places, queue: seq<Task>, batch: seq<Event>, f: Fd, id: ConnId)
    requires token.Keys == open.Keys && f !in open
    requires QueueOk(open, token, queue) && BatchOk(token, batch)
    requires forall i :: 0 <= i < |queue| ==> queue[i].fd != f
    ensures QueueOk(open[f := id], token[f := Accepted], queue) && BatchOk(token[f := Accepted], batch)
  {
  }

  lemma AcceptClauses(open: Sockets, table: Sockets, token: Places, owner: Owners, interest: Interests, loop: Loop,
                      loop': Loop, f: Fd, id: ConnId)
    requires token.Keys == open.Keys && f !in open && f !in table && loop.Accepting?
    requires loop' == Inserting(f, id, loop.batch)
    requires HandOk(open, table, token, loop) && ArmedOk(table, token, interest) && PlacesOk(table, token, owner, loop)
    ensures HandOk(open[f := id], table, token[f := Accepted], loop')
    ensures ArmedOk(table, token[f := Accepted], interest)
    ensures PlacesOk(table, token[f := Accepted], owner[f := Pending], loop')
  {
  }

  lemma AcceptWorkers(open: Sockets, token: Places, workers: Crew, f: Fd, id: ConnId)
    requires WorkersOk(open, token, workers) && f !in open
    requires forall w :: w in workers ==> workers[w].Names() != Some(f)
    ensures WorkersOk(open[f := id], token[f := Accepted], workers)
  {
    forall w | w in workers ensures Assigned(open[f := id], token[f := Accepted], w, workers[w]) {
      assert Assigned(open, token, w, workers[w]);
    }
  }

  lemma AcceptMarks(open: Sockets, table: Sockets, sock: Descriptors, conns: Conns, loop: Loop, loop': Loop,
                    workers: Crew, f: Fd, id: ConnId)
    requires MarksOk(open, table, sock, conns, loop, workers) && f !in open && id !in sock && conns.Keys <= sock.Keys
    requires loop.Accepting? && loop' == Inserting(f, id, loop.batch)
    ensures MarksOk(open[f := id], table, sock[id := f], conns, loop', workers)
  {
    forall k | k in conns && !IsOpen(open[f := id], sock[id := f], k) ensures conns[k].closed {
      assert !IsOpen(open, sock, k);
    }
    LoopMarks(open, table, sock, conns, loop, loop', workers);
  }

  lemma AcceptData(respond: Responder, open: Sockets, sock: Descriptors, owner: Owners, token: Places, workers: Crew,
                   conns: Conns, hist: Histories, f: Fd, id: ConnId)
    requires DataOk(respond, open, token, workers, conns, hist) && PastOk(respond, hist)
    requires OpenOk(open, owner, sock) && f !in open && id !in sock && id !in conns
    ensures DataOk(respond, open[f := id], token[f := Accepted], workers, conns, hist[id := QUIET])
    ensures PastOk(respond, hist[id := QUIET])
  {
    NewFine(respond);
    PastFine(respond, Phase(Quiet, No), FRESH, QUIET);
  }

  lemma AcceptKeeps(respond: Responder, s: State, f: Fd, id: ConnId)
    requires Steady(respond, s) && s.loop.Accepting? && f !in s.open && id !in s.sock
    requires s.conns.Keys <= s.sock.Keys && f !in s.table
    requires OpenOk(s.open[f := id], s.owner[f := Pending], s.sock[id := f])
    requires Unnamed(s, f)
    ensures Steady(respond, StepAccept(s, f, id))
  {
    hide WorkersOk, QueueOk, BatchOk, HandOk, ArmedOk, PlacesOk, MarksOk, DataOk, PastOk, OpenOk, Fine, HistoryOk;
    AcceptQueue(s.open, s.token, s.queue, s.loop.batch, f, id);
    AcceptClauses(s.open, s.table, s.token, s.owner, s.interest, s.loop, Inserting(f, id, s.loop.batch), f, id);
    AcceptWorkers(s.open, s.token, s.workers, f, id);
    AcceptMarks(s.open, s.table, s.sock, s.conns, s.loop, Inserting(f, id, s.loop.batch), s.workers, f, id);
    AcceptData(respond, s.open, s.sock, s.owner, s.token, s.workers, s.conns, s.hist, f, id);
  }

  // Registering the accepted descriptor.

  lemma InsertClauses(open: Sockets, table: Sockets, token: Places, owner: Owners, interest: Interests, loop: Loop,
                      loop': Loop)
    requires loop.Inserting? && loop' == Adding(loop.fd, loop.batch)
    requires HandOk(open, table, token, loop) && ArmedOk(table, token, interest) && PlacesOk(table, token, owner, loop)
    ensures HandOk(open, table[loop.fd := loop.id], token, loop')
    ensures ArmedOk(table[loop.fd := loop.id], token, interest)
    ensures PlacesOk(table[loop.fd := loop.id], token, owner[loop.fd := Tabled], loop')
  {
  }

  lemma InsertMarks(open: Sockets, table: Sockets, sock: Descriptors, conns: Conns, loop: Loop, loop': Loop,
                    workers: Crew)
    requires MarksOk(open, table, sock, conns, loop, workers)
    requires loop.Inserting? && loop' == Adding(loop.fd, loop.batch) && IsOpen(open, sock, loop.id)
    requires forall f :: f in table ==> table[f] in conns
    requires forall w :: w in workers && PastErase(CloseOf(loop, workers, WorkerThread(w))) ==>
               CloseOf(loop, workers, WorkerThread(w)).value.id in conns
    ensures loop.id !in conns
    ensures MarksOk(open, table[loop.fd := loop.id], sock, conns[loop.id := FRESH], loop', workers)
  {
    var conns' := conns[loop.id := FRESH];
    forall w | w in workers ensures Marked(CloseOf(loop', workers, WorkerThread(w)), conns') {
      assert CloseOf(loop', workers, WorkerThread(w)) == CloseOf(loop, workers, WorkerThread(w));
      assert Marked(CloseOf(loop, workers, WorkerThread(w)), conns);
    }
  }

  lemma InsertKeeps(respond: Responder, s: State, timers: Deadlines)
    requires Steady(respond, s) && s.loop.Inserting? && s.loop.fd in s.open && s.open[s.loop.fd] == s.loop.id
    requires OpenOk(s.open, s.owner[s.loop.fd := Tabled], s.sock)
    requires forall f :: f in s.table ==> s.table[f] in s.conns
    requires forall w :: w in s.workers && PastErase(CloseOf(s.loop, s.workers, WorkerThread(w))) ==>
               CloseOf(s.loop, s.workers, WorkerThread(w)).value.id in s.conns
    ensures Steady(respond, s.(loop := Adding(s.loop.fd, s.loop.batch), table := s.table[s.loop.fd := s.loop.id],
                         conns := s.conns[s.loop.id := FRESH], owner := s.owner[s.loop.fd := Tabled], timers := timers))
  {
    hide WorkersOk, QueueOk, BatchOk, HandOk, ArmedOk, PlacesOk, MarksOk, DataOk, PastOk, Fine, HistoryOk;
    var l := Adding(s.loop.fd, s.loop.batch);
    InsertClauses(s.open, s.table, s.token, s.owner, s.interest, s.loop, l);
    InsertMarks(s.open, s.table, s.sock, s.conns, s.loop, l, s.workers);
    InsertData(respond, s.open, s.token, s.workers, s.conns, s.hist, s.loop.id);
  }

  /** The new connection object reads like no connection at all did. */
  lemma InsertData(respond: Responder, open: Sockets, token: Places, workers: Crew, conns: Conns, hist: Histories,
                   id: ConnId)
    requires DataOk(respond, open, token, workers, conns, hist) && id !in conns
    ensures DataOk(respond, open, token, workers, conns[id := FRESH], hist)
  {
    hide Steady, Fine;
    forall f | f in open && f in token ensures ConnIn(conns[id := FRESH], open[f]) == ConnIn(conns, open[f]) {
    }
  }

  // Arming it for its first read.

  lemma AddClauses(open: Sockets, table: Sockets, token: Places, owner: Owners, interest: Interests, loop: Loop,
                   loop': Loop)
    requires loop.Adding? && loop' == Accepting(loop.batch)
    requires HandOk(open, table, token, loop) && ArmedOk(table, token, interest) && PlacesOk(table, token, owner, loop)
    ensures loop.fd in token && token[loop.fd] == Accepted && loop.fd in table
    ensures HandOk(open, table, token[loop.fd := Armed(In)], loop')
    ensures ArmedOk(table, token[loop.fd := Armed(In)], interest[loop.fd := On(In)])
    ensures PlacesOk(table, token[loop.fd := Armed(In)], owner, loop')
  {
  }

  lemma AddKeeps(respond: Responder, s: State)
    requires Steady(respond, s) && s.loop.Adding?
    ensures Steady(respond, StepAdd(s))
  {
    hide WorkersOk, QueueOk, BatchOk, HandOk, ArmedOk, PlacesOk, MarksOk, DataOk, PastOk, OpenOk, Fine, HistoryOk;
    var f, l := s.loop.fd, Accepting(s.loop.batch);
    AddClauses(s.open, s.table, s.token, s.owner, s.interest, s.loop, l);
    WorkersOther(s.open, s.token, s.workers, f, Armed(In));
    QueueOther(s.open, s.token, s.queue, f, Armed(In));
    BatchOther(s.token, s.loop.batch, f, Armed(In));
    LoopMarks(s.open, s.table, s.sock, s.conns, s.loop, l, s.workers);
    DataAt(respond, s, f);
    Untouched(s, f);
    DataOther(respond, s.open, s.token, s.workers, s.conns, s.hist, s.conns, f, Armed(In));
  }

  // Dispatching: the connection is never busy or closed when its event is taken up.

  lemma BeginClauses(open: Sockets, table: Sockets, token: Places, owner: Owners, interest: Interests, loop: Loop,
                     loop': Loop, f: Fd, p: Place)
    requires f in token && InHand(loop) == Some((f, token[f])) && LoopPlace(token[f]) && !token[f].Accepted?
    requires (p.Claimed? && InHand(loop') == Some((f, p)) && !loop'.Inserting? && !loop'.Beginning?) ||
             (p.Queued? && InHand(loop') == None && !loop'.LoopClosing?)
    requires HandOk(open, table, token, loop) && ArmedOk(table, token, interest) && PlacesOk(table, token, owner, loop)
    requires !loop.LoopClosing? && !loop.Inserting?
    ensures HandOk(open, table, token[f := p], loop')
    ensures ArmedOk(table, token[f := p], interest) && PlacesOk(table, token[f := p], owner, loop')
  {
  }

  lemma BeginKeeps(respond: Responder, s: State)
    requires Steady(respond, s) && s.loop.Beginning? && s.loop.id in s.conns && s.loop.id in s.sock
    requires s.sock[s.loop.id] == s.loop.fd
    requires s.loop.fd in s.table && s.table[s.loop.fd] == s.loop.id
    ensures !s.ConnAt(s.loop.id).closed && !s.ConnAt(s.loop.id).processing
    ensures Steady(respond, StepBegin(s))
  {
    hide WorkersOk, QueueOk, BatchOk, HandOk, ArmedOk, PlacesOk, MarksOk, DataOk, PastOk, OpenOk, Fine, HistoryOk;
    BeginTokens(s);
    BeginData(respond, s);
    BeginMarks(s);
  }

  lemma BeginTokens(s: State)
    requires Tokens(s) && s.loop.Beginning?
    ensures var f, p, l := s.loop.fd, Claimed(s.loop.dir), Enqueueing(s.loop.fd, s.loop.dir, s.loop.batch);
            && f in s.open && f in s.token && s.token[f] == Dispatching(s.loop.dir) && s.open[f] == s.loop.id
            && WorkersOk(s.open, s.token[f := p], s.workers) && QueueOk(s.open, s.token[f := p], s.queue)
            && BatchOk(s.token[f := p], BatchOf(l)) && HandOk(s.open, s.table, s.token[f := p], l)
            && ArmedOk(s.table, s.token[f := p], s.interest) && PlacesOk(s.table, s.token[f := p], s.owner, l)
  {
    hide WorkersOk, QueueOk, BatchOk, ArmedOk, PlacesOk, MarksOk, DataOk, PastOk, OpenOk, Fine, HistoryOk;
    var f, p, l := s.loop.fd, Claimed(s.loop.dir), Enqueueing(s.loop.fd, s.loop.dir, s.loop.batch);
    WorkersOther(s.open, s.token, s.workers, f, p);
    QueueOther(s.open, s.token, s.queue, f, p);
    BatchOther(s.token, s.loop.batch, f, p);
    BeginClauses(s.open, s.table, s.token, s.owner, s.interest, s.loop, l, f, p);
  }

  lemma BeginMarks(s: State)
    requires Tokens(s) && s.loop.Beginning? && s.loop.id in s.conns && s.loop.fd in s.table
    requires s.table[s.loop.fd] == s.loop.id
    ensures !s.ConnAt(s.loop.id).closed
    ensures var l, c := Enqueueing(s.loop.fd, s.loop.dir, s.loop.batch), s.ConnAt(s.loop.id).(processing := true);
            MarksOk(s.open, s.table, s.sock, s.conns[s.loop.id := c], l, s.workers)
  {
    hide WorkersOk, QueueOk, BatchOk, HandOk, ArmedOk, PlacesOk, MarksOk, DataOk, PastOk, OpenOk, Fine, HistoryOk;
    var l, c := Enqueueing(s.loop.fd, s.loop.dir, s.loop.batch), s.ConnAt(s.loop.id).(processing := true);
    MarksConns(s.open, s.table, s.sock, s.conns, s.conns[s.loop.id := c], s.loop, s.workers);
    LoopMarks(s.open, s.table, s.sock, s.conns[s.loop.id := c], s.loop, l, s.workers);
  }

  lemma BeginData(respond: Responder, s: State)
    requires DataOk(respond, s.open, s.token, s.workers, s.conns, s.hist) && OpenOk(s.open, s.owner, s.sock)
    requires s.loop.Beginning? && s.loop.id in s.conns && s.loop.id in s.sock && s.sock[s.loop.id] == s.loop.fd
    requires s.loop.fd in s.open && s.loop.fd in s.token && s.token[s.loop.fd] == Dispatching(s.loop.dir)
    requires s.open[s.loop.fd] == s.loop.id
    ensures !s.ConnAt(s.loop.id).closed ==> !s.ConnAt(s.loop.id).processing
    ensures var c := s.ConnAt(s.loop.id).(processing := true);
            DataOk(respond, s.open, s.token[s.loop.fd := Claimed(s.loop.dir)], s.workers, s.conns[s.loop.id := c],
                   s.hist)
  {
    hide WorkersOk, QueueOk, BatchOk, HandOk, ArmedOk, PlacesOk, MarksOk, DataOk, PastOk, OpenOk, Fine, HistoryOk;
    var f, id, c := s.loop.fd, s.loop.id, s.ConnAt(s.loop.id).(processing := true);
    DataAt(respond, s, f);
    ClaimFine(respond, DirStage(s.loop.dir), s.ConnAt(id), s.HistAt(id));
    OnlyBehindId(s.open, s.sock, s.owner, f, s.conns, s.conns[id := c], s.hist, s.hist);
    DataOther(respond, s.open, s.token, s.workers, s.conns, s.hist, s.conns[id := c], f, Claimed(s.loop.dir));
  }

  lemma EnqueueQueue(open: Sockets, token: Places, queue: seq<Task>, f: Fd, dir: Dir)
    requires QueueOk(open, token, queue) && f in token && f in open && !token[f].Queued?
    ensures QueueOk(open, token[f := Queued(dir)], queue + [Task(f, dir)])
  {
    var queue' := queue + [Task(f, dir)];
    forall i | 0 <= i < |queue| ensures queue'[i] == queue[i] && queue[i].fd != f {
    }
    assert queue'[|queue|] == Task(f, dir);
    forall g | g in token && token[g].Queued? ensures Task(g, token[g].dir) in queue' {
      assert Task(g, token[g].dir) in queue;
    }
  }

  lemma EnqueueTokens(s: State)
    requires Tokens(s) && s.loop.Enqueueing?
    ensures var f, p, l := s.loop.fd, Queued(s.loop.dir), Handling(s.loop.batch);
            && f in s.open && f in s.token && s.token[f] == Claimed(s.loop.dir)
            && WorkersOk(s.open, s.token[f := p], s.workers)
            && QueueOk(s.open, s.token[f := p], s.queue + [Task(f, s.loop.dir)])
            && BatchOk(s.token[f := p], BatchOf(l)) && HandOk(s.open, s.table, s.token[f := p], l)
            && ArmedOk(s.table, s.token[f := p], s.interest) && PlacesOk(s.table, s.token[f := p], s.owner, l)
  {
    hide WorkersOk, QueueOk, BatchOk, ArmedOk, PlacesOk, MarksOk, DataOk, PastOk, OpenOk, Fine, HistoryOk;
    var f, p, l := s.loop.fd, Queued(s.loop.dir), Handling(s.loop.batch);
    WorkersOther(s.open, s.token, s.workers, f, p);
    EnqueueQueue(s.open, s.token, s.queue, f, s.loop.dir);
    BatchOther(s.token, s.loop.batch, f, p);
    BeginClauses(s.open, s.table, s.token, s.owner, s.interest, s.loop, l, f, p);
  }

  lemma EnqueueKeeps(respond: Responder, s: State)
    requires Steady(respond, s) && s.loop.Enqueueing?
    ensures Steady(respond, StepEnqueue(s))
  {
    hide WorkersOk, QueueOk, BatchOk, HandOk, ArmedOk, PlacesOk, MarksOk, DataOk, PastOk, OpenOk, Fine, HistoryOk;
    var f, p := s.loop.fd, Queued(s.loop.dir);
    EnqueueTokens(s);
    LoopMarks(s.open, s.table, s.sock, s.conns, s.loop, Handling(s.loop.batch), s.workers);
    DataAt(respond, s, f);
    Untouched(s, f);
    DataOther(respond, s.open, s.token, s.workers, s.conns, s.hist, s.conns, f, p);
  }

  // The loop's own steps of `closeConnection`.

  lemma LoopErasePlaces(open: Sockets, table: Sockets, token: Places, owner: Owners, interest: Interests, loop: Loop,
                        loop': Loop, f: Fd)
    requires token.Keys == open.Keys && loop.LoopClosing? && loop.close == Erase(f) && f in open
    requires loop'.LoopClosing? && !loop'.close.Erase?
    requires BatchOk(token, BatchOf(loop)) && HandOk(open, table, token, loop)
    requires ArmedOk(table, token, interest) && PlacesOk(table, token, owner, loop)
    requires loop.resume.ToIdle? ==> !token[f].Delivered?
    ensures HandOk(open, table - {f}, token, loop') && ArmedOk(table - {f}, token, interest)
    ensures PlacesOk(table - {f}, token, owner[f := ClosedBy(LoopThread)], loop')
  {
  }

  lemma NothingDelivered(token: Places, f: Fd)
    requires BatchOk(token, []) && f in token
    ensures !token[f].Delivered?
  {
  }

  lemma LoopEraseKeeps(respond: Responder, s: State, f: Fd, l: Loop, timers: Deadlines)
    requires Steady(respond, s) && s.loop.LoopClosing? && s.loop.close == Erase(f) && f in s.table && f in s.open
    requires l == LoopClosing(Mark(f, s.table[f]), s.loop.resume)
    ensures Steady(respond, s.(loop := l, table := s.table - {f}, owner := s.owner[f := ClosedBy(LoopThread)],
                               timers := timers))
  {
    hide WorkersOk, QueueOk, HandOk, ArmedOk, PlacesOk, MarksOk, DataOk, PastOk, OpenOk, Fine, HistoryOk;
    OwnerOther(s.open, s.owner, s.sock, f, ClosedBy(LoopThread));
    if s.loop.resume.ToIdle? {
      NothingDelivered(s.token, f);
    }
    LoopErasePlaces(s.open, s.table, s.token, s.owner, s.interest, s.loop, l, f);
    LoopMarks(s.open, s.table, s.sock, s.conns, s.loop, l, s.workers);
    EraseMarks(s.open, s.table, s.sock, s.conns, l, s.workers, f);
  }

  /** The same, within `closeConnection` or out of it. */
  lemma LoopCloseClauses(open: Sockets, table: Sockets, token: Places, owner: Owners, loop: Loop, loop': Loop)
    requires HandOk(open, table, token, loop) && PlacesOk(table, token, owner, loop)
    requires loop.LoopClosing? && InHand(loop') == None
    requires loop'.LoopClosing? ==> !loop'.close.Erase?
    requires forall f :: f in table && f in token && token[f] == Leaving ==> loop.close != Erase(f)
    ensures HandOk(open, table, token, loop') && PlacesOk(table, token, owner, loop')
  {
  }

  /** The loop moves on within `closeConnection`, or out of it, with the same batch and nothing in hand. */
  lemma LoopCloseMove(respond: Responder, s: State, l: Loop)
    requires Steady(respond, s) && s.loop.LoopClosing? && BatchOf(l) == BatchOf(s.loop) && InHand(l) == None
    requires l.LoopClosing? ==> !l.close.Erase?
    requires forall f :: f in s.table && f in s.token && s.token[f] == Leaving ==> s.loop.close != Erase(f)
    requires Marked(if l.LoopClosing? then Some(l.close) else None, s.conns)
    ensures Steady(respond, s.(loop := l))
  {
    hide WorkersOk, QueueOk, BatchOk, HandOk, ArmedOk, PlacesOk, MarksOk, DataOk, PastOk, OpenOk, Fine, HistoryOk;
    LoopCloseClauses(s.open, s.table, s.token, s.owner, s.loop, l);
    LoopMarks(s.open, s.table, s.sock, s.conns, s.loop, l, s.workers);
  }

  lemma MarkData(respond: Responder, open: Sockets, owner: Owners, sock: Descriptors, token: Places, workers: Crew,
                 conns: Conns, hist: Histories, f: Fd, id: ConnId)
    requires DataOk(respond, open, token, workers, conns, hist) && OpenOk(open, owner, sock)
    requires token.Keys == open.Keys && f in open && open[f] == id && id in conns && id in sock && sock[id] == f
    ensures DataOk(respond, open, token, workers, conns[id := conns[id].(closed := true)], hist)
  {
    var conns' := conns[id := conns[id].(closed := true)];
    MarkFine(respond, PhaseOf(token[f], workers), ConnIn(conns, id), HistIn(hist, id));
    OnlyBehindId(open, sock, owner, f, conns, conns', hist, hist);
  }

  /** Marking the connection closed, whoever does it. */
  lemma MarkKeeps(respond: Responder, s: State, f: Fd, id: ConnId)
    requires Steady(respond, s) && PastHeld(s, f, id)
    ensures Steady(respond, SetConn(s, id, s.ConnAt(id).(closed := true))) && s.ConnAt(id) == s.conns[id]
  {
    hide WorkersOk, QueueOk, BatchOk, HandOk, ArmedOk, PlacesOk, MarksOk, DataOk, PastOk, OpenOk, Fine, HistoryOk;
    MarkFlag(s.open, s.table, s.sock, s.conns, s.loop, s.workers, id);
    MarkData(respond, s.open, s.owner, s.sock, s.token, s.workers, s.conns, s.hist, f, id);
  }

  lemma LoopMarkKeeps(respond: Responder, s: State, f: Fd, id: ConnId)
    requires Steady(respond, s) && PastHeld(s, f, id)
    requires s.loop.LoopClosing? && s.loop.close == Mark(f, id)
    ensures Steady(respond, SetConn(s, id, s.ConnAt(id).(closed := true))
                            .(loop := LoopClosing(Unregister(f, id), s.loop.resume)))
  {
    hide WorkersOk, QueueOk, BatchOk, HandOk, ArmedOk, PlacesOk, MarksOk, DataOk, PastOk, OpenOk, Fine, HistoryOk;
    MarkKeeps(respond, s, f, id);
    LoopCloseMove(respond, SetConn(s, id, s.ConnAt(id).(closed := true)),
                  LoopClosing(Unregister(f, id), s.loop.resume));
  }

  lemma LoopUnregisterKeeps(respond: Responder, s: State, f: Fd, id: ConnId)
    requires Steady(respond, s) && PastHeld(s, f, id)
    requires s.loop.LoopClosing? && s.loop.close == Unregister(f, id)
    ensures Steady(respond, s.(interest := s.interest - {f}, loop := LoopClosing(Shut(f, id), s.loop.resume)))
  {
    hide WorkersOk, QueueOk, BatchOk, HandOk, ArmedOk, PlacesOk, DataOk, PastOk, OpenOk, Fine, HistoryOk;
    LoopCloseMove(respond, s, LoopClosing(Shut(f, id), s.loop.resume));
    UnregisterPlaces(s.table, s.token, s.interest, f);
  }

  lemma ShutLoopWorkers(open: Sockets, token: Places, workers: Crew, f: Fd)
    requires WorkersOk(open, token, workers)
    ensures WorkersOk(open - {f}, token - {f}, workers)
  {
    forall w | w in workers ensures Assigned(open - {f}, token - {f}, w, workers[w]) {
      assert Assigned(open, token, w, workers[w]);
    }
  }

  lemma LoopShutTokens(s: State, f: Fd, id: ConnId)
    requires Tokens(s) && PastHeld(s, f, id)
    requires s.loop.LoopClosing? && s.loop.close == Shut(f, id)
    ensures var open, token := s.open - {f}, s.token - {f};
            && WorkersOk(open, token, s.workers) && QueueOk(open, token, s.queue) && BatchOk(token, BatchOf(s.loop))
            && HandOk(open, s.table, token, s.loop) && ArmedOk(s.table, token, s.interest - {f})
            && PlacesOk(s.table, token, s.owner - {f}, s.loop)
            && MarksOk(open, s.table, s.sock, s.conns, s.loop, s.workers)
  {
    hide WorkersOk, QueueOk, BatchOk, ArmedOk, DataOk, PastOk, OpenOk, Fine, HistoryOk;
    ShutQueue(s.open, s.token, s.queue, BatchOf(s.loop), f);
    ShutPlaces(s.open, s.table, s.token, s.owner, s.interest, s.loop, f);
    ShutLoopWorkers(s.open, s.token, s.workers, f);
    ShutMarks(s.open, s.table, s.sock, s.conns, s.loop, s.workers, f, id);
  }

  lemma ShutLoopData(respond: Responder, open: Sockets, token: Places, workers: Crew, conns: Conns, hist: Histories,
                     f: Fd)
    requires DataOk(respond, open, token, workers, conns, hist)
    ensures DataOk(respond, open - {f}, token - {f}, workers, conns, hist)
  {
    hide Fine, HistoryOk;
  }

  lemma LoopShutKeeps(respond: Responder, s: State, f: Fd, id: ConnId, l: Loop, closes: map<ConnId, nat>)
    requires Steady(respond, s) && PastHeld(s, f, id) && OpenOk(s.open - {f}, s.owner - {f}, s.sock)
    requires s.loop.LoopClosing? && s.loop.close == Shut(f, id) && l == Resumed(s.loop.resume)
    ensures Steady(respond, s.(loop := l, open := s.open - {f}, token := s.token - {f}, owner := s.owner - {f},
                               interest := s.interest - {f}, closes := closes))
  {
    hide WorkersOk, QueueOk, BatchOk, HandOk, ArmedOk, PlacesOk, MarksOk, DataOk, PastOk, OpenOk, Fine, HistoryOk;
    LoopShutTokens(s, f, id);
    ShutLoopData(respond, s.open, s.token, s.workers, s.conns, s.hist, f);
    var shut := s.(open := s.open - {f}, token := s.token - {f}, owner := s.owner - {f}, interest := s.interest - {f},
                   closes := closes);
    assert Steady(respond, shut);
    LoopCloseMove(respond, shut, l);
  }

  /** Stopping: nothing is open any more, and every connection is marked. */
  lemma NothingLeft(table: Sockets, sock: Descriptors, conns: Conns, workers: Crew)
    requires forall id :: id in conns ==> conns[id].closed
    requires forall w :: w in workers ==> workers[w] == Idle
    ensures WorkersOk(map[], map[], workers) && QueueOk(map[], map[], []) && BatchOk(map[], [])
    ensures HandOk(map[], map[], map[], Stopped) && ArmedOk(map[], map[], map[])
    ensures PlacesOk(map[], map[], map[], Stopped)
    ensures MarksOk(map[], map[], sock, conns, Stopped, workers)
  {
    forall w | w in workers ensures Marked(CloseOf(Stopped, workers, WorkerThread(w)), conns) {
    }
  }

  lemma SweepMarks(open: Sockets, table: Sockets, sock: Descriptors, conns: Conns, loop: Loop, workers: Crew)
    requires MarksOk(open, table, sock, conns, loop, workers)
    requires open.Keys == table.Keys && forall f :: f in table ==> table[f] == open[f]
    ensures forall id :: id in SweptConns(conns, table) ==> SweptConns(conns, table)[id].closed
  {
    forall id | id in conns ensures SweptConns(conns, table)[id].closed {
      if IsOpen(open, sock, id) {
        assert sock[id] in table && table[sock[id]] == id;
      }
    }
  }

  lemma SweepEmpties(respond: Responder, s: State)
    requires Steady(respond, s) && s.open.Keys == s.table.Keys
    ensures var s' := StepSweep(s);
            s'.open == map[] && s'.token == map[] && s'.owner == map[] && s'.interest == map[] && s'.table == map[]
  {
    hide WorkersOk, QueueOk, BatchOk, HandOk, PlacesOk, MarksOk, DataOk, PastOk, Fine, HistoryOk, SweptConns,
         SweptCloses;
    assert forall f :: f in s.interest ==> f in s.open;
  }

  lemma NoData(respond: Responder, workers: Crew, conns: Conns, hist: Histories, sock: Descriptors)
    ensures DataOk(respond, map[], map[], workers, conns, hist) && OpenOk(map[], map[], sock)
  {
    hide Fine, HistoryOk;
  }

  lemma SweepKeeps(respond: Responder, s: State)
    requires Steady(respond, s) && s.loop == Sweeping
    requires s.queue == [] && forall w :: w in s.workers ==> s.workers[w] == Idle
    requires s.open.Keys == s.table.Keys && forall f :: f in s.table ==> s.table[f] == s.open[f]
    ensures Steady(respond, StepSweep(s))
  {
    hide WorkersOk, QueueOk, BatchOk, HandOk, ArmedOk, PlacesOk, MarksOk, DataOk, PastOk, OpenOk, Fine, HistoryOk,
         SweptConns, SweptCloses;
    SweepEmpties(respond, s);
    SweepMarks(s.open, s.table, s.sock, s.conns, s.loop, s.workers);
    NothingLeft(map[], s.sock, SweptConns(s.conns, s.table), s.workers);
    NoData(respond, s.workers, SweptConns(s.conns, s.table), s.hist, s.sock);
  }

  // ---------- every step of a worker ----------

  /** What the descriptor table grants a worker, whatever it is about to do. */
  ghost predicate Grounded(s: State, w: WorkerId) {
    && w in s.workers
    && (forall f :: f in s.table ==> f in s.open && s.table[f] == s.open[f])
    && (s.workers[w].Names().Some? && s.workers[w].Names().value in s.open && s.workers[w].Names().value !in s.table &&
        !PastErase(CloseOf(s.loop, s.workers, WorkerThread(w))) ==>
          s.workers[w].Names().value in s.owner && s.owner[s.workers[w].Names().value] == ClosedBy(LoopThread))
    && (s.workers[w].Names().Some? && s.workers[w].Holds().Some? ==>
          var f, id := s.workers[w].Names().value, s.workers[w].Holds().value;
          && Held(s, w, f, id)
          && (f !in s.open ==> s.ConnAt(id).closed)
          && (s.ConnAt(id).closed ==> f !in s.table))
    && (PastErase(CloseOf(s.loop, s.workers, WorkerThread(w))) ==>
          var c := s.workers[w].close;
          PastHeld(s, c.fd, c.id) && OpenOk(s.open - {c.fd}, s.owner - {c.fd}, s.sock))
  }

  lemma GroundedHolds(s: State, w: WorkerId)
    requires Sound(s) && Tokens(s) && w in s.workers && s.workers[w].Names().Some? && s.workers[w].Holds().Some?
    ensures var f, id := s.workers[w].Names().value, s.workers[w].Holds().value;
            && Held(s, w, f, id)
            && (f !in s.open ==> s.ConnAt(id).closed)
            && (s.ConnAt(id).closed ==> f !in s.table)
  {
    assert HolderOk(s.workers[w].Names(), s.workers[w].Holds(), s.conns.Keys, s.sock);
    assert Assigned(s.open, s.token, w, s.workers[w]);
  }

  lemma PastGround(s: State, t: Thread)
    requires Sound(s) && PastErase(CloseOf(s.loop, s.workers, t))
    ensures var c := CloseOf(s.loop, s.workers, t).value;
            PastHeld(s, c.fd, c.id) && OpenOk(s.open - {c.fd}, s.owner - {c.fd}, s.sock)
  {
    hide Covered, StopOk, OnceOk, PendingOk;
    var c := CloseOf(s.loop, s.workers, t).value;
    match t
    case LoopThread => assert HolderOk(Some(c.fd), Some(c.id), s.conns.Keys, s.sock);
    case WorkerThread(w) => assert HolderOk(s.workers[w].Names(), s.workers[w].Holds(), s.conns.Keys, s.sock);
  }

  lemma Ground(s: State, w: WorkerId)
    requires Sound(s) && Tokens(s) && w in s.workers
    ensures Grounded(s, w)
  {
    hide WorkersOk, QueueOk, BatchOk, HandOk, ArmedOk, PlacesOk, MarksOk, DataOk, PastOk, OpenOk, Fine, HistoryOk;
    var pc := s.workers[w];
    if PastErase(CloseOf(s.loop, s.workers, WorkerThread(w))) {
      PastGround(s, WorkerThread(w));
    } else if pc.Names().Some? && pc.Names().value in s.open && pc.Names().value !in s.table {
      OnlyLoopCloses(s.open, s.table, s.owner, s.sock, s.conns.Keys, s.token, s.loop, s.workers, w, pc.Names().value);
    }
    if pc.Names().Some? && pc.Holds().Some? {
      GroundedHolds(s, w);
    }
  }

  /** The service never answers with nothing. */
  ghost predicate Speaks(respond: Responder) {
    forall raw: Text, w: World :: '\r' !in w.mime ==> respond(raw, w).Wire() != []
  }

  lemma ReadStepSteady(respond: Responder, s: State, w: WorkerId, a: Answer)
    requires Steady(respond, s) && Grounded(s, w) && WorkerEnabled(s, w, a)
    requires var pc := s.workers[w]; pc.ReadGet? || pc.ReadRecv? || pc.ReadAppend? || pc.ReadRefresh? || pc.ProcessGet?
    ensures Steady(respond, WorkerStep(s, w, a))
  {
    hide Steady, Fine;
    match s.workers[w]
    case ReadGet(f) => LookupSteady(respond, s, w, f, ReadRecv(f, s.Entry(f)), Quiet);
    case ReadRecv(f, id) => RecvSteady(respond, s, w, f, id, a);
    case ReadAppend(f, id, data) => AppendSteady(respond, s, w, f, id, data);
    case ReadRefresh(f) => RefreshSteady(respond, s, w, f, ProcessGet(f));
    case ProcessGet(f) => LookupSteady(respond, s, w, f, ProcessExtract(f, s.Entry(f)), Clean);
  }

  lemma SameService(respond: Responder, s: State)
    requires Steady(respond, s)
    ensures s.cfg.respond == respond
  {
    hide Tokens, Data, OpenOk;
  }

  lemma ProcessStepSteady(respond: Responder, s: State, w: WorkerId, a: Answer)
    requires Steady(respond, s) && Grounded(s, w) && WorkerEnabled(s, w, a)
    requires Speaks(respond)
    requires var pc := s.workers[w]; pc.ProcessExtract? || pc.ProcessReply? || pc.Finish? || pc.Arm?
    ensures Steady(respond, WorkerStep(s, w, a))
  {
    hide Steady, Fine;
    match s.workers[w]
    case ProcessExtract(f, id) => ExtractSteady(respond, s, w, f, id, Extract(s.ConnAt(id).readBuf));
    case ProcessReply(f, id, raw) =>
      SameService(respond, s);
      ReplySteady(respond, s, w, f, id, raw, Exchange(raw, a.world, s.cfg.respond(raw, a.world)));
    case Finish(f, id, dir) => FinishSteady(respond, s, w, f, id, dir);
    case Arm(f, dir) => ArmBlockSteady(respond, s, w, f, dir);
  }

  lemma WriteStepSteady(respond: Responder, s: State, w: WorkerId, a: Answer)
    requires Steady(respond, s) && Grounded(s, w) && WorkerEnabled(s, w, a)
    requires var pc := s.workers[w];
             pc.WriteGet? || pc.WriteGather? || pc.WriteSend? || pc.WriteConsume? || pc.WriteClear? || pc.WriteRefresh?
    ensures Steady(respond, WorkerStep(s, w, a))
  {
    hide Steady, Fine;
    match s.workers[w]
    case WriteGet(f) => LookupSteady(respond, s, w, f, WriteGather(f, s.Entry(f)), Loaded);
    case WriteGather(f, id) => GatherSteady(respond, s, w, f, id);
    case WriteSend(f, id, iov) => SendSteady(respond, s, w, f, id, iov, a);
    case WriteConsume(f, id, n) => ConsumeSteady(respond, s, w, f, id, n);
    case WriteClear(f, id) => ClearSteady(respond, s, w, f, id);
    case WriteRefresh(f, id, pending) =>
      RefreshSteady(respond, s, w, f, if pending then ProcessGet(f) else Finish(f, id, In));
  }

  lemma ClosingSteady(respond: Responder, s: State, w: WorkerId, c: Close)
    requires Steady(respond, s) && Grounded(s, w) && s.workers[w] == Closing(c)
    ensures Steady(respond, StepClosing(s, w, c))
  {
    hide WorkersOk, QueueOk, BatchOk, HandOk, ArmedOk, PlacesOk, MarksOk, DataOk, PastOk, OpenOk, Fine, HistoryOk;
    match c
    case Erase(f) =>
      if f in s.table {
        WorkerEraseKeeps(respond, s, w, f);
      } else {
        DropKeeps(respond, s, w, f);
      }
    case Mark(f, id) => WorkerMarkKeeps(respond, s, w, f, id);
    case Unregister(f, id) => WorkerUnregisterKeeps(respond, s, w, f, id);
    case Shut(f, id) => WorkerShutKeeps(respond, s, w, f, id);
  }

  lemma WorkerStepSteady(respond: Responder, s: State, w: WorkerId, a: Answer)
    requires Steady(respond, s) && Grounded(s, w) && WorkerEnabled(s, w, a)
    requires Speaks(respond)
    ensures Steady(respond, WorkerStep(s, w, a))
  {
    hide Steady, Fine;
    match s.workers[w]
    case Idle => TakeSteady(respond, s, w);
    case Closing(c) => ClosingSteady(respond, s, w, c);
    case ReadGet(_) => ReadStepSteady(respond, s, w, a);
    case ReadRecv(_, _) => ReadStepSteady(respond, s, w, a);
    case ReadAppend(_, _, _) => ReadStepSteady(respond, s, w, a);
    case ReadRefresh(_) => ReadStepSteady(respond, s, w, a);
    case ProcessGet(_) => ReadStepSteady(respond, s, w, a);
    case ProcessExtract(_, _) => ProcessStepSteady(respond, s, w, a);
    case ProcessReply(_, _, _) => ProcessStepSteady(respond, s, w, a);
    case Finish(_, _, _) => ProcessStepSteady(respond, s, w, a);
    case Arm(_, _) => ProcessStepSteady(respond, s, w, a);
    case _ => WriteStepSteady(respond, s, w, a);
  }

  lemma TakeSteady(respond: Responder, s: State, w: WorkerId)
    requires Steady(respond, s) && w in s.workers && s.workers[w] == Idle && s.queue != []
    ensures Steady(respond, StepTake(s, w, s.queue[0]))
  {
    hide WorkersOk, QueueOk, BatchOk, HandOk, ArmedOk, PlacesOk, MarksOk, DataOk, PastOk, OpenOk, Fine, HistoryOk;
    TakeKeeps(respond, s, w, s.queue[0]);
  }

  // ---------- every step of the loop ----------

  lemma LoopMoveSteady(respond: Responder, s: State, l: Loop)
    requires Steady(respond, s) && InHand(l) == None && InHand(s.loop) == None && BatchOf(l) == BatchOf(s.loop)
    requires !s.loop.LoopClosing? && (l.LoopClosing? ==> l.close.Erase? && l.resume.ToIdle?)
    ensures Steady(respond, s.(loop := l))
  {
    hide Steady, Fine;
    LoopMoveKeeps(respond, s, l);
  }

  lemma ArmedIsTabled(s: State, f: Fd)
    requires Sound(s) && Tokens(s) && !s.loop.LoopClosing? && f in s.interest && s.interest[f] != Off
    ensures f in s.table
  {
    assert f in s.token && s.token[f] == Armed(s.interest[f].dir);
    if f !in s.table {
      assert false;
    }
  }

  lemma WaitSteady(respond: Responder, s: State, a: LoopAnswer)
    requires Steady(respond, s) && s.loop.Waiting? && LoopEnabled(s, a)
    requires forall f :: f in s.interest && s.interest[f] != Off ==> f in s.table
    ensures Steady(respond, LoopStep(s, a))
  {
    hide WorkersOk, QueueOk, BatchOk, HandOk, ArmedOk, PlacesOk, MarksOk, DataOk, PastOk, OpenOk, Fine, HistoryOk;
    match a
    case Collect(e) =>
      if e.Listen? {
        ListenKeeps(respond, s);
      } else {
        CollectOpen(s, e.fd);
        CollectKeeps(respond, s, e, s.interest[e.fd].dir);
      }
    case WaitDone => LoopMoveSteady(respond, s, Handling(s.loop.batch));
    case WaitFails => LoopMoveSteady(respond, s, Draining); RunningSteady(respond, s.(loop := Draining), false);
    case _ => LoopMoveSteady(respond, s, LoopTop);
  }

  lemma CollectOpen(s: State, f: Fd)
    requires Tokens(s) && f in s.interest
    ensures f in s.open
  {
  }

  lemma RunningSteady(respond: Responder, s: State, running: bool)
    requires Steady(respond, s)
    ensures Steady(respond, s.(running := running))
  {
    hide WorkersOk, QueueOk, BatchOk, HandOk, ArmedOk, PlacesOk, MarksOk, DataOk, PastOk, OpenOk, Fine, HistoryOk;
    assert Steady(respond, s) && Steady(respond, s.(running := running));
  }
}
