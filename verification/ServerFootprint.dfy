/** How far one step reaches: a worker's to one descriptor, one connection and its own place, and the loop's. */
module ServerFootprint {
  import opened Bytes
  import opened Framing
  import opened Connections
  import opened Service
  import opened Timers
  import opened Server

  // ---------- how far a worker's step reaches ----------

  predicate SameAt<V(==)>(m: map<Fd, V>, m': map<Fd, V>, g: Fd) {
    (g in m' <==> g in m) && (g in m ==> m'[g] == m[g])
  }

  predicate StaysAt(s: State, s': State, g: Fd) {
    && SameAt(s.table, s'.table, g) && SameAt(s.token, s'.token, g)
    && SameAt(s.interest, s'.interest, g) && SameAt(s.timers, s'.timers, g)
  }

  /** The worker is about to move the descriptor's deadline. */
  predicate Refreshes(pc: Worker, fd: Fd) {
    (pc.ReadRefresh? || pc.WriteRefresh?) && pc.fd == fd
  }

  predicate Renewed(s: State, s': State, fd: Fd) {
    fd in s'.timers && s'.timers[fd] == s.now + s.cfg.timeout
  }

  /** The registration and the deadline of the worker's descriptor stay, but for a refresh, which gives it
      the whole timeout, and an erase, which takes both. */
  predicate Handled(s: State, s': State, pc: Worker, fd: Fd) {
    || (s'.table == s.table && s'.timers == s.timers)
    || (s'.table == s.table && Refreshes(pc, fd) && Renewed(s, s', fd))
    || (pc == Closing(Erase(fd)) && fd !in s'.table && fd !in s'.timers)
  }

  predicate SameConn(conns: Conns, conns': Conns, j: ConnId) {
    (j in conns' <==> j in conns) && ConnIn(conns', j) == ConnIn(conns, j)
  }

  /** A connection that is closed is read into, served and answered no more. */
  predicate Frozen(c: Conn, h: History, c': Conn, h': History) {
    c.closed ==>
      && c'.closed && c'.readBuf == c.readBuf && c'.closeAfterWrite == c.closeAfterWrite
      && h'.rx == h.rx && h'.served == h.served
  }

  /** The worker is about to release the connection it processes. */
  predicate Releases(pc: Worker, k: ConnId) {
    (pc.Finish? || pc.ProcessExtract?) && pc.id == k
  }

  /** A connection that is being processed stays so unless the worker releases it. */
  predicate StaysClaimed(c: Conn, c': Conn, pc: Worker, k: ConnId) {
    c.processing ==> c'.processing || Releases(pc, k)
  }

  /** Where a worker does not go: to a write for a closed connection, and to closing a descriptor that epoll
      still knows. */
  predicate Rightful(pc: Worker, c: Conn, fd: Fd, interest: Interests) {
    && (pc.WriteSend? ==> !c.closed)
    && (pc.Closing? && pc.close.Shut? ==> fd !in interest)
  }

  /** Nothing changes but the worker's place, one descriptor and one connection. */
  ghost predicate Elsewhere(s: State, s': State, w: WorkerId, fd: Fd, k: ConnId) {
    && s'.workers.Keys == s.workers.Keys
    && (forall u :: u in s.workers && u != w ==> s'.workers[u] == s.workers[u])
    && (forall g :: g != fd ==> StaysAt(s, s', g))
    && (forall j :: j != k ==> HistIn(s'.hist, j) == HistIn(s.hist, j))
    && (forall j :: j != k ==> SameConn(s.conns, s'.conns, j))
  }

  /** The step is the worker's own: it concerns one descriptor and one connection, and no bytes arrive. */
  ghost predicate Local(s: State, s': State, w: WorkerId, fd: Fd, k: ConnId) {
    && w in s.workers && Elsewhere(s, s', w, fd, k)
    && (s'.workers[w] == Idle || s'.workers[w].Names() == Some(fd))
    && s'.loop == s.loop && s'.now == s.now && s'.running == s.running && s'.cfg == s.cfg
    && Handled(s, s', s.workers[w], fd) && s'.interest.Keys <= s.interest.Keys
    && HistIn(s'.hist, k).input == HistIn(s.hist, k).input
    && Frozen(ConnIn(s.conns, k), HistIn(s.hist, k), ConnIn(s'.conns, k), HistIn(s'.hist, k))
    && Rightful(s'.workers[w], ConnIn(s.conns, k), fd, s'.interest)
    && StaysClaimed(ConnIn(s.conns, k), ConnIn(s'.conns, k), s.workers[w], k)
    && (s'.queue == s.queue || (s.queue != [] && s'.queue == s.queue[1..] && s.queue[0].fd == fd))
  }

  lemma LocalPc(s: State, w: WorkerId, fd: Fd, k: ConnId, pc: Worker)
    requires w in s.workers && pc.Names() == Some(fd) && Rightful(pc, s.ConnAt(k), fd, s.interest)
    ensures Local(s, SetWorker(s, w, pc), w, fd, k)
  {
  }

  lemma LocalRefresh(s: State, w: WorkerId, fd: Fd, k: ConnId, pc: Worker)
    requires w in s.workers && pc.Names() == Some(fd) && Refreshes(s.workers[w], fd)
    requires Rightful(pc, s.ConnAt(k), fd, s.interest)
    ensures Local(s, SetWorker(Refresh(s, fd), w, pc), w, fd, k)
  {
  }

  lemma LocalConn(s: State, w: WorkerId, fd: Fd, k: ConnId, c: Conn, pc: Worker)
    requires w in s.workers && pc.Names() == Some(fd) && Rightful(pc, s.ConnAt(k), fd, s.interest)
    requires Frozen(s.ConnAt(k), s.HistAt(k), c, s.HistAt(k)) && StaysClaimed(s.ConnAt(k), c, s.workers[w], k)
    ensures Local(s, SetWorker(SetConn(s, k, c), w, pc), w, fd, k)
  {
  }

  lemma HistElsewhere(s: State, w: WorkerId, fd: Fd, k: ConnId, h: History, pc: Worker)
    requires w in s.workers
    ensures Elsewhere(s, SetWorker(SetHist(s, k, h), w, pc), w, fd, k)
  {
  }

  lemma BothElsewhere(s: State, w: WorkerId, fd: Fd, k: ConnId, c: Conn, h: History, pc: Worker)
    requires w in s.workers
    ensures Elsewhere(s, SetWorker(SetHist(SetConn(s, k, c), k, h), w, pc), w, fd, k)
  {
  }

  lemma LocalHist(s: State, w: WorkerId, fd: Fd, k: ConnId, h: History, pc: Worker)
    requires w in s.workers && pc.Names() == Some(fd) && h.input == s.HistAt(k).input
    requires Rightful(pc, s.ConnAt(k), fd, s.interest) && Frozen(s.ConnAt(k), s.HistAt(k), s.ConnAt(k), h)
    ensures Local(s, SetWorker(SetHist(s, k, h), w, pc), w, fd, k)
  {
    hide Elsewhere;
    HistElsewhere(s, w, fd, k, h, pc);
  }

  lemma LocalBoth(s: State, w: WorkerId, fd: Fd, k: ConnId, c: Conn, h: History, pc: Worker)
    requires w in s.workers && pc.Names() == Some(fd) && h.input == s.HistAt(k).input
    requires Rightful(pc, s.ConnAt(k), fd, s.interest) && Frozen(s.ConnAt(k), s.HistAt(k), c, h)
    requires StaysClaimed(s.ConnAt(k), c, s.workers[w], k)
    ensures Local(s, SetWorker(SetHist(SetConn(s, k, c), k, h), w, pc), w, fd, k)
  {
    hide Elsewhere;
    BothElsewhere(s, w, fd, k, c, h, pc);
  }

  lemma LocalBy(s: State, s': State, w: WorkerId, fd: Fd, k: ConnId, pc: Worker)
    requires pc == Idle || pc.Names() == Some(fd)
    requires w in s.workers && s'.workers == s.workers[w := pc] && s'.queue == s.queue && s'.hist == s.hist
    requires s'.loop == s.loop && s'.now == s.now && s'.running == s.running && s'.cfg == s.cfg
    requires s'.table == s.table && s'.timers == s.timers && s'.interest.Keys <= s.interest.Keys
    requires forall g :: g != fd ==> SameAt(s.token, s'.token, g) && SameAt(s.interest, s'.interest, g)
    requires forall j :: j != k ==> SameConn(s.conns, s'.conns, j)
    requires Frozen(s.ConnAt(k), s.HistAt(k), s'.ConnAt(k), s.HistAt(k)) && Rightful(pc, s.ConnAt(k), fd, s'.interest)
    requires StaysClaimed(s.ConnAt(k), s'.ConnAt(k), s.workers[w], k)
    ensures Local(s, s', w, fd, k)
  {
  }

  /** The worker is done with the descriptor, and leaves a connection as said. */
  lemma LocalIdle(s: State, w: WorkerId, fd: Fd, k: ConnId, conns: Conns, p: Place, interest: Interests)
    requires w in s.workers && interest.Keys <= s.interest.Keys
    requires forall g :: g != fd ==> SameAt(s.interest, interest, g)
    requires forall j :: j != k ==> SameConn(s.conns, conns, j)
    requires Frozen(s.ConnAt(k), s.HistAt(k), ConnIn(conns, k), s.HistAt(k))
    requires StaysClaimed(s.ConnAt(k), ConnIn(conns, k), s.workers[w], k)
    ensures Local(s, SetPlace(SetWorker(s.(conns := conns), w, Idle).(interest := interest), fd, p), w, fd, k)
  {
    hide Local;
    var t := s.(conns := conns);
    LocalBy(s, SetPlace(SetWorker(t, w, Idle).(interest := interest), fd, p), w, fd, k, Idle);
  }

  lemma LocalLeft(s: State, w: WorkerId, fd: Fd, k: ConnId, conns: Conns)
    requires w in s.workers
    requires forall j :: j != k ==> SameConn(s.conns, conns, j)
    requires Frozen(s.ConnAt(k), s.HistAt(k), ConnIn(conns, k), s.HistAt(k))
    requires StaysClaimed(s.ConnAt(k), ConnIn(conns, k), s.workers[w], k)
    ensures var t := SetWorker(s.(conns := conns), w, Idle);
            Local(s, t, w, fd, k) && Local(s, SetPlace(t, fd, Leaving), w, fd, k)
  {
    hide Local;
    var t := SetWorker(s.(conns := conns), w, Idle);
    LocalBy(s, t, w, fd, k, Idle);
    LocalBy(s, SetPlace(t, fd, Leaving), w, fd, k, Idle);
  }

  lemma LocalDrop(s: State, w: WorkerId, fd: Fd, k: ConnId, conns: Conns)
    requires w in s.workers
    requires forall j :: j != k ==> SameConn(s.conns, conns, j)
    requires Frozen(s.ConnAt(k), s.HistAt(k), ConnIn(conns, k), s.HistAt(k))
    requires StaysClaimed(s.ConnAt(k), ConnIn(conns, k), s.workers[w], k)
    ensures Local(s, Drop(s.(conns := conns), w, fd), w, fd, k)
  {
    hide Local, SetPlace, SetWorker;
    LocalLeft(s, w, fd, k, conns);
  }

  lemma LocalLeave(s: State, w: WorkerId, fd: Fd, k: ConnId, conns: Conns, dir: Dir)
    requires w in s.workers
    requires forall j :: j != k ==> SameConn(s.conns, conns, j)
    requires Frozen(s.ConnAt(k), s.HistAt(k), ConnIn(conns, k), s.HistAt(k))
    requires StaysClaimed(s.ConnAt(k), ConnIn(conns, k), s.workers[w], k)
    ensures Local(s, ArmAndLeave(s.(conns := conns), w, fd, dir), w, fd, k)
  {
    hide Local, SetPlace, SetWorker, Drop;
    if fd in s.interest {
      LocalIdle(s, w, fd, k, conns, Armed(dir), s.interest[fd := On(dir)]);
    } else {
      LocalDrop(s, w, fd, k, conns);
    }
  }

  lemma SameConns(s: State)
    ensures s.(conns := s.conns) == s
  {
  }

  lemma LocalLookup(s: State, w: WorkerId, fd: Fd, k: ConnId, found: Worker)
    requires w in s.workers && found.Names() == Some(fd) && !found.WriteSend? && !found.Closing?
    ensures Local(s, Lookup(s, w, fd, found), w, fd, k)
  {
    hide Local, SetWorker, Drop;
    if fd in s.table {
      LocalPc(s, w, fd, k, found);
    } else {
      SameConns(s);
      LocalDrop(s, w, fd, k, s.conns);
    }
  }

  lemma LocalRecv(s: State, w: WorkerId, fd: Fd, id: ConnId, a: Answer, k: ConnId)
    requires w in s.workers && (a.Got? ==> s.Behind(fd) == k)
    ensures Local(s, StepRecv(s, w, fd, id, a), w, fd, k)
  {
    hide Local, SetWorker, SetHist, Slice;
    match a
    case Got(n) =>
      var h := s.HistAt(k);
      LocalHist(s, w, fd, k, h.(taken := h.taken + n), ReadAppend(fd, id, Slice(h.input, h.taken, n)));
    case WouldBlock => LocalPc(s, w, fd, k, ReadRefresh(fd));
    case _ => LocalPc(s, w, fd, k, Closing(Erase(fd)));
  }

  /** What the writing and the loading of a connection leave alone. */
  lemma BufferSteps(c: Conn, h: History, n: nat, data: Text, reply: Reply)
    ensures Cursor(c) ==> Frozen(c, h, Consume(c, n), h) && Consume(c, n).processing == c.processing
    ensures Frozen(c, h, ClearWrite(c), h) && ClearWrite(c).processing == c.processing
    ensures ClearWrite(c).closed == c.closed && ClearWrite(c).readBuf == c.readBuf
    ensures ClearWrite(c).closeAfterWrite == c.closeAfterWrite
    ensures AppendRead(c, data).processing == c.processing && Load(c, reply).processing == c.processing
  {
  }

  lemma LocalAppend(s: State, w: WorkerId, fd: Fd, id: ConnId, data: Text)
    requires w in s.workers
    ensures Local(s, StepAppend(s, w, fd, id, data), w, fd, id)
  {
    hide Local, SetWorker, SetHist, SetConn, AppendRead;
    var c, h := s.ConnAt(id), s.HistAt(id);
    if c.closed {
      LocalPc(s, w, fd, id, ReadRecv(fd, id));
    } else {
      BufferSteps(c, h, 0, data, Reply([], None, false));
      LocalBoth(s, w, fd, id, AppendRead(c, data), h.(rx := h.rx + data), ReadRecv(fd, id));
    }
  }

  lemma LocalExtract(s: State, w: WorkerId, fd: Fd, id: ConnId, x: Extraction)
    requires w in s.workers && s.workers[w] == ProcessExtract(fd, id)
    ensures Local(s, StepExtract(s, w, fd, id, x), w, fd, id)
  {
    hide Local, SetWorker, ArmAndLeave;
    var c := s.ConnAt(id);
    if c.closed || x.Incomplete? {
      LocalLeave(s, w, fd, id, s.conns[id := c.(processing := false)], In);
    } else {
      LocalConn(s, w, fd, id, c.(readBuf := x.rest), ProcessReply(fd, id, x.raw));
    }
  }

  lemma LocalReply(s: State, w: WorkerId, fd: Fd, id: ConnId, x: Exchange)
    requires w in s.workers
    ensures Local(s, StepReply(s, w, fd, id, x), w, fd, id)
  {
    hide Local, SetWorker, SetHist, SetConn, Load, Drop;
    var c, h := s.ConnAt(id), s.HistAt(id);
    if c.closed {
      SameConns(s);
      LocalDrop(s, w, fd, id, s.conns);
    } else {
      BufferSteps(c, h, 0, [], x.reply);
      LocalBoth(s, w, fd, id, Load(c, x.reply), h.(served := h.served + [x]), Finish(fd, id, Out));
    }
  }

  lemma LocalFinish(s: State, w: WorkerId, fd: Fd, id: ConnId, dir: Dir)
    requires w in s.workers && s.workers[w] == Finish(fd, id, dir)
    ensures Local(s, StepFinish(s, w, fd, id, dir), w, fd, id)
  {
    hide Local, SetWorker, SetConn;
    if s.ConnAt(id).closed {
      LocalPc(s, w, fd, id, Arm(fd, dir));
    } else {
      LocalConn(s, w, fd, id, s.ConnAt(id).(processing := false), Arm(fd, dir));
    }
  }

  lemma LocalGather(s: State, w: WorkerId, fd: Fd, id: ConnId)
    requires w in s.workers
    ensures Local(s, StepGather(s, w, fd, id), w, fd, id)
  {
    hide Local, SetWorker, Gather, HasWriteData, Cursor;
    var c := s.ConnAt(id);
    LocalPc(s, w, fd, id, if c.closed || !HasWriteData(c) || !Cursor(c) then WriteClear(fd, id)
                          else WriteSend(fd, id, Gather(c)));
  }

  lemma LocalSend(s: State, w: WorkerId, fd: Fd, id: ConnId, iov: seq<Text>, a: Answer, k: ConnId)
    requires w in s.workers && (a.Got? ==> s.Behind(fd) == k)
    ensures Local(s, StepSend(s, w, fd, id, iov, a), w, fd, k)
  {
    hide Local, SetWorker, SetHist, Slice, Flat;
    match a
    case Got(n) =>
      var h := s.HistAt(k);
      LocalHist(s, w, fd, k, h.(tx := h.tx + Slice(Flat(iov), 0, n)), WriteConsume(fd, id, n));
    case WouldBlock => LocalPc(s, w, fd, k, Finish(fd, id, Out));
    case _ => LocalPc(s, w, fd, k, Closing(Erase(fd)));
  }

  lemma LocalConsume(s: State, w: WorkerId, fd: Fd, id: ConnId, n: nat)
    requires w in s.workers
    ensures Local(s, StepConsume(s, w, fd, id, n), w, fd, id)
  {
    hide Local, SetWorker, SetConn, Consume, Cursor;
    BufferSteps(s.ConnAt(id), s.HistAt(id), n, [], Reply([], None, false));
    var c := s.ConnAt(id);
    LocalConn(s, w, fd, id, if Cursor(c) then Consume(c, n) else c, WriteGather(fd, id));
  }

  lemma LocalClear(s: State, w: WorkerId, fd: Fd, id: ConnId)
    requires w in s.workers
    ensures Local(s, StepClear(s, w, fd, id), w, fd, id)
  {
    hide Local, SetWorker, SetConn, ClearWrite;
    BufferSteps(s.ConnAt(id), s.HistAt(id), 0, [], Reply([], None, false));
    var c := s.ConnAt(id);
    LocalConn(s, w, fd, id, ClearWrite(c).(writeReady := false),
              if c.closeAfterWrite then Closing(Erase(fd)) else WriteRefresh(fd, id, c.readBuf != []));
  }

  lemma LocalTake(s: State, w: WorkerId, k: ConnId)
    requires w in s.workers && s.queue != []
    ensures Local(s, StepTake(s, w, s.queue[0]), w, s.queue[0].fd, k)
  {
  }

  lemma LocalErase(s: State, w: WorkerId, fd: Fd, k: ConnId)
    requires w in s.workers && s.workers[w] == Closing(Erase(fd)) && fd in s.table
    ensures Local(s, SetWorker(CloseEffect(s, WorkerThread(w), Erase(fd)), w, Closing(Mark(fd, s.table[fd]))), w, fd, k)
  {
  }

  lemma LocalShut(s: State, w: WorkerId, fd: Fd, id: ConnId, k: ConnId)
    requires w in s.workers
    ensures var t := SetWorker(CloseEffect(s, WorkerThread(w), Shut(fd, id)), w, Idle);
            Local(s, t, w, fd, k) && Local(s, SetPlace(t, fd, Leaving), w, fd, k)
  {
  }

  lemma LocalUnregister(s: State, w: WorkerId, fd: Fd, id: ConnId, k: ConnId)
    requires w in s.workers
    ensures Local(s, SetWorker(CloseEffect(s, WorkerThread(w), Unregister(fd, id)), w, Closing(Shut(fd, id))), w, fd, k)
  {
  }

  lemma LocalClosing(s: State, w: WorkerId, c: Close, k: ConnId)
    requires w in s.workers && s.workers[w] == Closing(c) && (!c.Erase? ==> k == c.id)
    ensures Local(s, StepClosing(s, w, c), w, c.fd, k)
  {
    hide Local, SetWorker, SetPlace, SetConn;
    match c
    case Erase(fd) =>
      if fd in s.table {
        hide CloseEffect;
        LocalErase(s, w, fd, k);
      } else {
        SameConns(s);
        hide Drop;
        LocalDrop(s, w, fd, k, s.conns);
      }
    case Mark(fd, id) => LocalConn(s, w, fd, id, s.ConnAt(id).(closed := true), Closing(Unregister(fd, id)));
    case Unregister(fd, id) =>
      hide CloseEffect;
      LocalUnregister(s, w, fd, id, k);
    case Shut(fd, id) =>
      hide CloseEffect;
      LocalShut(s, w, fd, id, k);
  }

  /** The worker has something to do. */
  predicate CanWork(s: State, w: WorkerId) {
    w in s.workers && (s.workers[w] == Idle ==> s.queue != [])
  }

  /** What a worker's next step is about. */
  function Subject(s: State, w: WorkerId): Fd
    requires CanWork(s, w)
  {
    if s.workers[w] == Idle then s.queue[0].fd else s.workers[w].Names().value
  }

  lemma WorkerLocal(s: State, w: WorkerId, a: Answer, k: ConnId)
    requires WorkerEnabled(s, w, a)
    requires if s.workers[w].ReadRecv? || s.workers[w].WriteSend? then a.Got? ==> s.Behind(s.workers[w].fd) == k
             else s.workers[w].Holds().Some? ==> k == s.workers[w].Holds().value
    ensures Local(s, WorkerStep(s, w, a), w, Subject(s, w), k)
  {
    hide Local, Lookup, StepTake, StepRecv, StepAppend, StepExtract, StepReply, StepFinish, StepGather, StepSend,
         StepConsume, StepClear, StepClosing, ArmAndLeave, Extract, SetWorker, Refresh;
    match s.workers[w]
    case Idle => LocalTake(s, w, k);
    case ReadGet(fd) => LocalLookup(s, w, fd, k, ReadRecv(fd, s.Entry(fd)));
    case ReadRecv(fd, id) => LocalRecv(s, w, fd, id, a, k);
    case ReadAppend(fd, id, data) => LocalAppend(s, w, fd, id, data);
    case ReadRefresh(fd) => LocalRefresh(s, w, fd, k, ProcessGet(fd));
    case ProcessGet(fd) => LocalLookup(s, w, fd, k, ProcessExtract(fd, s.Entry(fd)));
    case ProcessExtract(fd, id) => LocalExtract(s, w, fd, id, Extract(s.ConnAt(id).readBuf));
    case ProcessReply(fd, id, raw) =>
      LocalReply(s, w, fd, id, Exchange(raw, a.world, s.cfg.respond(raw, a.world)));
    case WriteGet(fd) => LocalLookup(s, w, fd, k, WriteGather(fd, s.Entry(fd)));
    case WriteGather(fd, id) => LocalGather(s, w, fd, id);
    case WriteSend(fd, id, iov) => LocalSend(s, w, fd, id, iov, a, k);
    case WriteConsume(fd, id, n) => LocalConsume(s, w, fd, id, n);
    case WriteClear(fd, id) => LocalClear(s, w, fd, id);
    case WriteRefresh(fd, id, pending) =>
      LocalRefresh(s, w, fd, id, if pending then ProcessGet(fd) else Finish(fd, id, In));
    case Finish(fd, id, dir) => LocalFinish(s, w, fd, id, dir);
    case Arm(fd, dir) =>
      SameConns(s);
      LocalLeave(s, w, fd, k, s.conns, dir);
    case Closing(c) => LocalClosing(s, w, c, k);
  }

  /** The connection a worker's next step is about. */
  function Concerned(s: State, w: WorkerId): ConnId
    requires w in s.workers
  {
    var pc := s.workers[w];
    if pc.ReadRecv? || pc.WriteSend? then s.Behind(pc.fd) else if pc.Holds().Some? then pc.Holds().value else 0
  }

  /** Every step of a worker, in whatever state, reaches no farther than its own descriptor and connection. */
  lemma WorkerReach(s: State, w: WorkerId, a: Answer)
    requires WorkerEnabled(s, w, a)
    ensures CanWork(s, w) && Local(s, WorkerStep(s, w, a), w, Subject(s, w), Concerned(s, w))
  {
    hide Local, WorkerStep;
    WorkerLocal(s, w, a, Concerned(s, w));
  }

  // ---------- how far the loop's step reaches ----------

  /** The loop is about to close a descriptor that epoll still knows. */
  predicate Ahead(l: Loop, interest: Interests) {
    l.LoopClosing? && l.close.Shut? && l.close.fd in interest
  }

  /** A step of the loop moves no worker and adds no deadline and no registration; what it takes from the
      table it takes from the deadlines; epoll gets to know only a descriptor the loop is adding; and what the
      sockets have been through, and the connections that are closed, stay as they are. */
  ghost predicate Confined(s: State, s': State) {
    && s'.cfg == s.cfg && s'.now == s.now && s'.workers == s.workers
    && (forall f :: f in s'.timers ==> f in s.timers && s'.timers[f] == s.timers[f])
    && (forall f :: f in s'.table ==> f in s.table && s'.table[f] == s.table[f])
    && (forall f :: f in s.table && f !in s'.table && s'.loop != Stopped ==> f !in s'.timers)
    && (forall f :: f in s'.interest && f !in s.interest ==> s.loop.Adding? && s.loop.fd == f)
    && !Ahead(s'.loop, s'.interest)
    && (forall j :: j in s.sock ==> HistIn(s'.hist, j) == HistIn(s.hist, j))
    && Steadfast(s.conns, s'.conns)
  }

  /** Closed connections stay as they are, and connections that are being processed stay so. */
  ghost predicate Steadfast(conns: Conns, conns': Conns) {
    && (forall j :: j in conns && conns[j].closed ==> j in conns' && conns'[j] == conns[j])
    && (forall j :: j in conns && conns[j].processing ==> j in conns' && conns'[j].processing)
  }

  lemma PlaceConfined(s: State, s': State, fd: Fd, p: Place)
    requires Confined(s, s')
    ensures Confined(s, SetPlace(s', fd, p))
  {
  }

  lemma ConfinedBy(s: State, s': State)
    requires s'.cfg == s.cfg && s'.now == s.now && s'.workers == s.workers
    requires s'.timers == s.timers && s'.table == s.table && s'.hist == s.hist && !Ahead(s'.loop, s'.interest)
    requires || s'.interest.Keys <= s.interest.Keys
             || (s.loop.Adding? && s'.interest.Keys <= s.interest.Keys + {s.loop.fd})
    requires Steadfast(s.conns, s'.conns)
    ensures Confined(s, s')
  {
  }

  lemma MoveConfined(s: State, l: Loop, running: bool, queue: seq<Task>)
    requires !Ahead(l, s.interest)
    ensures Confined(s, s.(loop := l)) && Confined(s, s.(loop := l, queue := queue))
    ensures Confined(s, s.(loop := l, running := running))
  {
    hide Confined;
    ConfinedBy(s, s.(loop := l));
    ConfinedBy(s, s.(loop := l, queue := queue));
    ConfinedBy(s, s.(loop := l, running := running));
  }

  lemma ArmConfined(s: State, l: Loop, interest: Interests)
    requires !Ahead(l, interest)
    requires interest.Keys <= s.interest.Keys || (s.loop.Adding? && interest.Keys <= s.interest.Keys + {s.loop.fd})
    ensures Confined(s, s.(loop := l, interest := interest))
  {
    hide Confined;
    ConfinedBy(s, s.(loop := l, interest := interest));
  }

  lemma ClaimConfined(s: State, l: Loop, id: ConnId, c: Conn)
    requires !s.ConnAt(id).closed && c.processing && !Ahead(l, s.interest)
    ensures Confined(s, s.(loop := l, conns := s.conns[id := c]))
  {
    hide Confined;
    ConfinedBy(s, s.(loop := l, conns := s.conns[id := c]));
  }

  lemma CollectConfined(s: State, e: Event)
    requires s.loop.Waiting?
    ensures Confined(s, StepCollect(s, e))
  {
    hide Confined, SetPlace;
    var l := Waiting(s.loop.batch + [e]);
    MoveConfined(s, l, s.running, s.queue);
    if !e.Listen? && e.fd in s.interest && s.interest[e.fd] != Off {
      ArmConfined(s, l, s.interest[e.fd := Off]);
      PlaceConfined(s, s.(loop := l, interest := s.interest[e.fd := Off]), e.fd, Delivered(s.interest[e.fd].dir));
    }
  }

  lemma TakesNoShut(s: State, e: Event, rest: seq<Event>)
    ensures !Ahead(TakeUp(s.table, e, rest), s.interest)
  {
  }

  lemma HandleConfined(s: State)
    requires s.loop.Handling? && s.loop.batch != []
    ensures Confined(s, StepHandle(s))
  {
    hide Confined, SetPlace, TakeUp, TakenPlace;
    var e := s.loop.batch[0];
    var l := TakeUp(s.table, e, s.loop.batch[1..]);
    TakesNoShut(s, e, s.loop.batch[1..]);
    MoveConfined(s, l, s.running, s.queue);
    if !e.Listen? {
      PlaceConfined(s, s.(loop := l), e.fd, TakenPlace(s.table, e));
    }
  }

  lemma BlockConfined(s: State)
    requires s.loop.Adding? || s.loop.Beginning? || s.loop.Enqueueing?
    ensures Confined(s, LoopStep(s, Onward))
  {
    hide Confined, SetPlace;
    match s.loop
    case Adding(fd, batch) =>
      var l := Accepting(batch);
      MoveConfined(s, l, s.running, s.queue);
      ArmConfined(s, l, s.interest[fd := On(In)]);
      PlaceConfined(s, s.(loop := l, interest := s.interest[fd := On(In)]), fd, Armed(In));
    case Beginning(fd, _, dir, batch) =>
      var c := s.ConnAt(s.loop.id);
      var free := !c.closed && !c.processing;
      if free {
        var conns := s.conns[s.loop.id := c.(processing := true)];
        ClaimConfined(s, Enqueueing(fd, dir, batch), s.loop.id, c.(processing := true));
        PlaceConfined(s, s.(conns := conns, loop := Enqueueing(fd, dir, batch)), fd, Claimed(dir));
      } else {
        MoveConfined(s, Handling(batch), s.running, s.queue);
        PlaceConfined(s, s.(loop := Handling(batch)), fd, Leaving);
      }
    case Enqueueing(fd, dir, batch) =>
      var l := Handling(batch);
      MoveConfined(s, l, s.running, s.queue + [Task(fd, dir)]);
      PlaceConfined(s, s.(loop := l, queue := s.queue + [Task(fd, dir)]), fd, Queued(dir));
  }

  lemma AcceptConfined(s: State, fd: Fd, id: ConnId)
    requires s.loop.Accepting? && id !in s.sock
    ensures Confined(s, StepAccept(s, fd, id))
  {
  }

  lemma PopConfined(s: State, fds: seq<Fd>)
    ensures Confined(s, StepPop(s, fds))
  {
    hide Registered;
  }

  lemma SweepLeaves(conns: Conns, table: Sockets)
    ensures Steadfast(conns, SweptConns(conns, table))
  {
  }

  lemma SweepConfined(s: State)
    ensures Confined(s, StepSweep(s))
  {
    hide SweptConns, SweptCloses, Steadfast;
    SweepLeaves(s.conns, s.table);
  }

  lemma EraseConfined(s: State, fd: Fd, owner: Owners, l: Loop)
    requires !Ahead(l, s.interest)
    ensures Confined(s, s.(table := s.table - {fd}, timers := Without(s.timers, [fd]), owner := owner, loop := l))
  {
  }

  lemma EffectConfined(s: State, c: Close, l: Loop)
    requires !Ahead(l, CloseEffect(s, LoopThread, c).interest)
    ensures Confined(s, CloseEffect(s, LoopThread, c).(loop := l))
  {
    hide Confined, Without;
    if c.Erase? && c.fd in s.table {
      EraseConfined(s, c.fd, if c.fd in s.open then s.owner[c.fd := ClosedBy(LoopThread)] else s.owner, l);
    } else {
      ConfinedBy(s, CloseEffect(s, LoopThread, c).(loop := l));
    }
  }

  lemma NotAhead(s: State, c: Close)
    ensures c.Unregister? ==> c.fd !in CloseEffect(s, LoopThread, c).interest
  {
  }

  lemma WaitConfined(s: State, a: LoopAnswer)
    requires s.loop.Waiting? || s.loop.LoopTop? || s.loop.Draining? || s.loop.Stopped?
    ensures Confined(s, LoopStep(s, a))
  {
    hide Confined, StepCollect;
    if s.loop.Waiting? && a.Collect? {
      CollectConfined(s, a.event);
    } else {
      MoveConfined(s, LoopStep(s, a).loop, LoopStep(s, a).running, s.queue);
    }
  }

  lemma ClosingConfined(s: State)
    requires s.loop.LoopClosing?
    ensures Confined(s, StepLoopClosing(s))
  {
    hide Confined, CloseEffect, Ahead;
    var l := StepLoopClosing(s).loop;
    NextNotAhead(s, s.loop.close, s.loop.resume);
    EffectConfined(s, s.loop.close, l);
  }

  lemma NextNotAhead(s: State, c: Close, r: Resume)
    ensures var next, interest := CloseNext(s, c), CloseEffect(s, LoopThread, c).interest;
            !Ahead(if next.Some? then LoopClosing(next.value, r) else Resumed(r), interest)
  {
    hide CloseEffect;
    NotAhead(s, c);
  }

  lemma ExpiringConfined(s: State)
    requires s.loop.Expiring?
    ensures Confined(s, LoopStep(s, Onward))
  {
    hide Confined;
    var rest := s.loop.rest;
    var l := if rest == [] then LoopTop else LoopClosing(Erase(rest[0].fd), ToIdle(rest[0], rest[1..]));
    MoveConfined(s, l, s.running, s.queue);
  }

  lemma CloseConfined(s: State, a: LoopAnswer)
    requires LoopEnabled(s, a)
    requires s.loop.LoopClosing? || s.loop.Popping? || s.loop.Sweeping? || s.loop.Expiring?
    ensures Confined(s, LoopStep(s, a))
  {
    hide Confined, StepPop, StepSweep, StepLoopClosing, StepCollect, StepHandle, StepAccept, StepInsert, StepAdd,
         StepBegin, StepEnqueue, ExpiredList;
    if s.loop.Expiring? {
      hide LoopStep;
      ExpiringConfined(s);
    } else {
      match s.loop
      case LoopClosing(_, _) => ClosingConfined(s);
      case Popping => PopConfined(s, a.fds);
      case Sweeping => SweepConfined(s);
    }
  }

  lemma TakeConfined(s: State, a: LoopAnswer)
    requires LoopEnabled(s, a) && (s.loop.Handling? || s.loop.Accepting?)
    ensures Confined(s, LoopStep(s, a))
  {
    hide Confined, StepHandle, StepAccept;
    match s.loop
    case Handling(batch) =>
      if batch == [] {
        MoveConfined(s, Popping, s.running, s.queue);
      } else {
        HandleConfined(s);
      }
    case Accepting(batch) =>
      if a.AcceptFd? {
        AcceptConfined(s, a.fd, a.id);
      } else {
        MoveConfined(s, Handling(batch), s.running, s.queue);
      }
  }

  lemma LoopConfined(s: State, a: LoopAnswer)
    requires LoopEnabled(s, a) && !s.loop.Inserting?
    ensures Confined(s, LoopStep(s, a))
  {
    hide Confined, LoopStep, ExpiredList;
    if s.loop.Adding? || s.loop.Beginning? || s.loop.Enqueueing? {
      BlockConfined(s);
    } else if s.loop.Handling? || s.loop.Accepting? {
      TakeConfined(s, a);
    } else if s.loop.LoopClosing? || s.loop.Popping? || s.loop.Sweeping? || s.loop.Expiring? {
      CloseConfined(s, a);
    } else {
      WaitConfined(s, a);
    }
  }
}
