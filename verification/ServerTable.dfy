/** What holds in every run, with no hypothesis on descriptor reuse: the descriptor table, the one
    close of every accepted socket, and the coverage of live connections by timers. */
module ServerTable {
  import opened Bytes
  import opened Framing
  import opened Connections
  import opened Service
  import opened Timers
  import opened Server

  /** The step of `closeConnection` a thread stands at. */
  function CloseOf(loop: Loop, workers: Crew, t: Thread): Option<Close> {
    match t
    case LoopThread => if loop.LoopClosing? then Some(loop.close) else None
    case WorkerThread(w) => if w in workers && workers[w].Closing? then Some(workers[w].close) else None
  }

  /** The thread has taken a connection out of the table and has yet to close its descriptor. */
  predicate PastErase(c: Option<Close>) {
    c.Some? && !c.value.Erase?
  }

  /** Descriptors whose timer has fired and that the loop has yet to close. */
  function Due(l: Loop): seq<Expiry> {
    match l
    case Expiring(rest) => rest
    case LoopClosing(c, ToIdle(current, rest)) => if c.Erase? then [current] + rest else rest
    case _ => []
  }

  // ---------- the invariant, clause by clause ----------

  ghost predicate OpenOk(open: Sockets, owner: Owners, sock: Descriptors) {
    && owner.Keys == open.Keys
    && forall f :: f in open ==> open[f] in sock && sock[open[f]] == f
  }

  /** Every registered descriptor is open, and registered with the socket behind it. */
  ghost predicate TableOk(open: Sockets, table: Sockets, owner: Owners, made: set<ConnId>) {
    && (forall f :: f in table <==> f in open && f in owner && owner[f] == Tabled)
    && (forall f :: f in table ==> table[f] == open[f] && table[f] in made)
  }

  /** A thread past the erase of a descriptor is the only one to close it, and the socket behind the
      descriptor is still the one it erased. */
  ghost predicate ClosersOk(loop: Loop, workers: Crew, open: Sockets, owner: Owners) {
    && (forall t :: PastErase(CloseOf(loop, workers, t)) ==>
          var c := CloseOf(loop, workers, t).value;
          c.fd in open && open[c.fd] == c.id && c.fd in owner && owner[c.fd] == ClosedBy(t))
    && (forall f :: f in owner && owner[f].ClosedBy? ==>
          var c := CloseOf(loop, workers, owner[f].thread);
          PastErase(c) && c.value.fd == f)
  }

  ghost predicate PendingOk(loop: Loop, open: Sockets, owner: Owners, made: set<ConnId>) {
    && (loop.Inserting? ==>
          && loop.fd in open && open[loop.fd] == loop.id && loop.fd in owner && owner[loop.fd] == Pending
          && loop.id !in made)
    && (forall f :: f in owner && owner[f] == Pending ==> loop.Inserting? && loop.fd == f)
  }

  /** A thread that holds a connection holds one that was made for the descriptor it names. */
  ghost predicate HolderOk(names: Option<Fd>, holds: Option<ConnId>, made: set<ConnId>, sock: Descriptors) {
    holds.Some? ==> holds.value in made && holds.value in sock && names == Some(sock[holds.value])
  }

  ghost predicate HoldersOk(loop: Loop, workers: Crew, made: set<ConnId>, sock: Descriptors) {
    && (forall w :: w in workers ==> HolderOk(workers[w].Names(), workers[w].Holds(), made, sock))
    && (loop.Beginning? ==> HolderOk(Some(loop.fd), Some(loop.id), made, sock))
    && (loop.LoopClosing? && !loop.close.Erase? ==> HolderOk(Some(loop.close.fd), Some(loop.close.id), made, sock))
    && made <= sock.Keys
  }

  predicate IsOpen(open: Sockets, sock: Descriptors, id: ConnId) {
    id in sock && sock[id] in open && open[sock[id]] == id
  }

  ghost predicate OnceOk(open: Sockets, sock: Descriptors, closes: map<ConnId, nat>) {
    && closes.Keys == sock.Keys
    && forall id :: id in closes ==> closes[id] == if IsOpen(open, sock, id) then 0 else 1
  }

  ghost predicate Listed(due: seq<Expiry>, fd: Fd) {
    exists i :: 0 <= i < |due| && due[i].fd == fd
  }

  /** Every registered descriptor has a timer or is on the list of expired ones being closed, and a
      listed descriptor that is registered is registered as it was when its timer fired. */
  ghost predicate Covered(due: seq<Expiry>, table: Sockets, timed: set<Fd>) {
    && (forall f :: f in table && f !in timed ==> Listed(due, f))
    && (forall i :: 0 <= i < |due| && due[i].fd in table ==> due[i].registered == Some(table[due[i].fd]))
  }

  /** The expired descriptor being closed is the one at the head of the list. */
  predicate CurrentOk(loop: Loop) {
    loop.LoopClosing? && loop.resume.ToIdle? && loop.close.Erase? ==> loop.close.fd == loop.resume.current.fd
  }

  ghost predicate StopOk(loop: Loop, workers: Crew, queue: seq<Task>, open: Sockets) {
    && (loop.Sweeping? || loop.Stopped? ==> queue == [] && forall w :: w in workers ==> workers[w] == Idle)
    && (loop.Stopped? ==> open.Keys == {})
  }

  /** The pool has the configured number of workers. */
  ghost predicate CrewOk(cfg: Config, workers: Crew) {
    forall w: WorkerId :: w in workers <==> w < cfg.workers
  }

  ghost predicate Sound(s: State) {
    && OpenOk(s.open, s.owner, s.sock)
    && TableOk(s.open, s.table, s.owner, s.conns.Keys)
    && ClosersOk(s.loop, s.workers, s.open, s.owner)
    && PendingOk(s.loop, s.open, s.owner, s.conns.Keys)
    && HoldersOk(s.loop, s.workers, s.conns.Keys, s.sock)
    && OnceOk(s.open, s.sock, s.closes)
    && Covered(Due(s.loop), s.table, s.timers.Keys) && CurrentOk(s.loop)
    && StopOk(s.loop, s.workers, s.queue, s.open)
    && CrewOk(s.cfg, s.workers)
  }

  // ---------- worker steps that leave the descriptors alone ----------

  lemma ClosersMove(loop: Loop, workers: Crew, open: Sockets, owner: Owners, w: WorkerId, pc: Worker)
    requires ClosersOk(loop, workers, open, owner)
    requires w in workers && !PastErase(CloseOf(loop, workers, WorkerThread(w)))
    requires pc.Closing? ==> pc.close.Erase?
    ensures ClosersOk(loop, workers[w := pc], open, owner)
  {
    hide Sound;
    var moved := workers[w := pc];
    assert !PastErase(CloseOf(loop, moved, WorkerThread(w)));
    forall t ensures t != WorkerThread(w) ==> CloseOf(loop, moved, t) == CloseOf(loop, workers, t) {
    }
  }

  /** The worker moves from one block to another; nothing the descriptors depend on changes. */
  ghost predicate Ordinary(s: State, s': State, w: WorkerId, pc: Worker) {
    && w in s.workers && s'.workers == s.workers[w := pc] && s'.cfg == s.cfg
    && s'.loop == s.loop && s'.open == s.open && s'.table == s.table && s'.owner == s.owner
    && s'.sock == s.sock && s'.closes == s.closes && s'.conns.Keys == s.conns.Keys
    && s.timers.Keys <= s'.timers.Keys
    && (s'.queue == s.queue || (s.queue != [] && s'.queue == s.queue[1..]))
  }

  lemma OrdinaryKeeps(s: State, s': State, w: WorkerId, pc: Worker)
    requires Sound(s) && Ordinary(s, s', w, pc)
    requires !PastErase(CloseOf(s.loop, s.workers, WorkerThread(w)))
    requires pc.Closing? ==> pc.close.Erase?
    requires HolderOk(pc.Names(), pc.Holds(), s.conns.Keys, s.sock)
    requires s.workers[w] != Idle || s.queue != []
    ensures Sound(s')
  {
    ClosersMove(s.loop, s.workers, s.open, s.owner, w, pc);
  }

  // Every step of a worker outside `closeConnection` is one of these: a move, perhaps with a change
  // to the connection it holds, to a socket's history, or to the arming of its descriptor.

  lemma MoveSound(s: State, w: WorkerId, pc: Worker)
    requires Sound(s) && w in s.workers && s.workers[w] != Idle
    requires !PastErase(CloseOf(s.loop, s.workers, WorkerThread(w)))
    requires pc.Closing? ==> pc.close.Erase?
    requires HolderOk(pc.Names(), pc.Holds(), s.conns.Keys, s.sock)
    ensures Sound(SetWorker(s, w, pc))
  {
    hide Sound;
    OrdinaryKeeps(s, SetWorker(s, w, pc), w, pc);
  }

  lemma RefreshSound(s: State, fd: Fd)
    requires Sound(s)
    ensures Sound(Refresh(s, fd))
  {
  }

  lemma ConnSound(s: State, id: ConnId, c: Conn)
    requires Sound(s) && id in s.conns
    ensures Sound(SetConn(s, id, c))
  {
    hide OpenOk, TableOk, ClosersOk, PendingOk, HoldersOk, OnceOk, Covered, StopOk;
    assert s.conns[id := c].Keys == s.conns.Keys;
  }

  lemma HistSound(s: State, id: ConnId, h: History)
    requires Sound(s)
    ensures Sound(SetHist(s, id, h))
  {
    hide OpenOk, TableOk, ClosersOk, PendingOk, HoldersOk, OnceOk, Covered, StopOk;
  }

  lemma PlaceSound(s: State, fd: Fd, p: Place)
    requires Sound(s)
    ensures Sound(SetPlace(s, fd, p))
  {
    hide OpenOk, TableOk, ClosersOk, PendingOk, HoldersOk, OnceOk, Covered, StopOk;
  }

  lemma InterestSound(s: State, interest: Interests)
    requires Sound(s)
    ensures Sound(s.(interest := interest))
  {
    hide OpenOk, TableOk, ClosersOk, PendingOk, HoldersOk, OnceOk, Covered, StopOk;
  }

  lemma DropSound(s: State, w: WorkerId, fd: Fd)
    requires Sound(s) && w in s.workers && s.workers[w] != Idle
    requires !PastErase(CloseOf(s.loop, s.workers, WorkerThread(w)))
    ensures Sound(Drop(s, w, fd))
  {
    hide Sound;
    MoveSound(s, w, Idle);
    PlaceSound(SetWorker(s, w, Idle), fd, Leaving);
  }

  lemma LeaveSound(s: State, w: WorkerId, fd: Fd, dir: Dir)
    requires Sound(s) && w in s.workers && s.workers[w] != Idle
    requires !PastErase(CloseOf(s.loop, s.workers, WorkerThread(w)))
    ensures Sound(ArmAndLeave(s, w, fd, dir))
  {
    hide Sound;
    if fd in s.interest {
      MoveSound(s, w, Idle);
      var idle := SetWorker(s, w, Idle);
      InterestSound(idle, s.interest[fd := On(dir)]);
      PlaceSound(idle.(interest := s.interest[fd := On(dir)]), fd, Armed(dir));
    } else {
      DropSound(s, w, fd);
    }
  }

  /** A worker that is running, and not past an erase. */
  ghost predicate Working(s: State, w: WorkerId) {
    Sound(s) && w in s.workers && s.workers[w] != Idle && !s.workers[w].Closing?
  }

  lemma WorkerHolds(s: State, w: WorkerId)
    requires Sound(s) && w in s.workers
    ensures HolderOk(s.workers[w].Names(), s.workers[w].Holds(), s.conns.Keys, s.sock)
  {
    hide TableOk, ClosersOk, OnceOk, Covered, PendingOk;
  }

  lemma MoveConn(s: State, w: WorkerId, pc: Worker, id: ConnId, c: Conn)
    requires Working(s, w) && id in s.conns
    requires pc.Closing? ==> pc.close.Erase?
    requires HolderOk(pc.Names(), pc.Holds(), s.conns.Keys, s.sock)
    ensures Sound(SetWorker(SetConn(s, id, c), w, pc))
  {
    hide Sound;
    MoveSound(s, w, pc);
    ConnSound(SetWorker(s, w, pc), id, c);
  }

  lemma MoveHist(s: State, w: WorkerId, pc: Worker, k: ConnId, h: History)
    requires Working(s, w)
    requires pc.Closing? ==> pc.close.Erase?
    requires HolderOk(pc.Names(), pc.Holds(), s.conns.Keys, s.sock)
    ensures Sound(SetWorker(SetHist(s, k, h), w, pc))
  {
    hide Sound;
    MoveSound(s, w, pc);
    HistSound(SetWorker(s, w, pc), k, h);
  }

  lemma MoveBoth(s: State, w: WorkerId, pc: Worker, id: ConnId, c: Conn, h: History)
    requires Working(s, w) && id in s.conns
    requires pc.Closing? ==> pc.close.Erase?
    requires HolderOk(pc.Names(), pc.Holds(), s.conns.Keys, s.sock)
    ensures Sound(SetWorker(SetHist(SetConn(s, id, c), id, h), w, pc))
  {
    hide Sound;
    MoveConn(s, w, pc, id, c);
    HistSound(SetWorker(SetConn(s, id, c), w, pc), id, h);
  }

  lemma LookupSound(s: State, w: WorkerId, fd: Fd, found: Worker)
    requires Working(s, w) && !found.Closing?
    requires found.Names() == Some(fd) && (found.Holds() == Some(s.Entry(fd)) || found.Holds() == None)
    ensures Sound(Lookup(s, w, fd, found))
  {
    hide ClosersOk, PendingOk, HoldersOk, OnceOk, Covered;
    if fd in s.table {
      MoveSound(s, w, found);
    } else {
      DropSound(s, w, fd);
    }
  }

  lemma RecvSound(s: State, w: WorkerId, fd: Fd, id: ConnId, a: Answer)
    requires Working(s, w) && s.workers[w] == ReadRecv(fd, id)
    ensures Sound(StepRecv(s, w, fd, id, a))
  {
    hide OpenOk, TableOk, ClosersOk, PendingOk, HoldersOk, OnceOk, Covered, StopOk;
    WorkerHolds(s, w);
    var k := s.Behind(fd);
    var h := s.HistAt(k);
    match a
    case Got(n) => MoveHist(s, w, ReadAppend(fd, id, Slice(h.input, h.taken, n)), k, h.(taken := h.taken + n));
    case WouldBlock => MoveSound(s, w, ReadRefresh(fd));
    case _ => MoveSound(s, w, Closing(Erase(fd)));
  }

  lemma AppendSound(s: State, w: WorkerId, fd: Fd, id: ConnId, data: Text)
    requires Working(s, w) && s.workers[w] == ReadAppend(fd, id, data)
    ensures Sound(StepAppend(s, w, fd, id, data))
  {
    hide Sound;
    WorkerHolds(s, w);
    var c, h := s.ConnAt(id), s.HistAt(id);
    if c.closed {
      MoveSound(s, w, ReadRecv(fd, id));
    } else {
      MoveBoth(s, w, ReadRecv(fd, id), id, AppendRead(c, data), h.(rx := h.rx + data));
    }
  }

  lemma ExtractSound(s: State, w: WorkerId, fd: Fd, id: ConnId, x: Extraction)
    requires Working(s, w) && s.workers[w] == ProcessExtract(fd, id)
    ensures Sound(StepExtract(s, w, fd, id, x))
  {
    hide Sound;
    WorkerHolds(s, w);
    var c := s.ConnAt(id);
    if c.closed || x.Incomplete? {
      ConnSound(s, id, c.(processing := false));
      LeaveSound(SetConn(s, id, c.(processing := false)), w, fd, In);
    } else {
      MoveConn(s, w, ProcessReply(fd, id, x.raw), id, c.(readBuf := x.rest));
    }
  }

  lemma ReplySound(s: State, w: WorkerId, fd: Fd, id: ConnId, raw: Text, x: Exchange)
    requires Working(s, w) && s.workers[w] == ProcessReply(fd, id, raw)
    ensures Sound(StepReply(s, w, fd, id, x))
  {
    hide Sound;
    WorkerHolds(s, w);
    var c, h := s.ConnAt(id), s.HistAt(id);
    if c.closed {
      DropSound(s, w, fd);
    } else {
      MoveBoth(s, w, Finish(fd, id, Out), id, Load(c, x.reply), h.(served := h.served + [x]));
    }
  }

  lemma FinishSound(s: State, w: WorkerId, fd: Fd, id: ConnId, dir: Dir)
    requires Working(s, w) && s.workers[w] == Finish(fd, id, dir)
    ensures Sound(StepFinish(s, w, fd, id, dir))
  {
    hide Sound;
    WorkerHolds(s, w);
    if s.ConnAt(id).closed {
      MoveSound(s, w, Arm(fd, dir));
    } else {
      MoveConn(s, w, Arm(fd, dir), id, s.ConnAt(id).(processing := false));
    }
  }

  lemma GatherSound(s: State, w: WorkerId, fd: Fd, id: ConnId)
    requires Working(s, w) && s.workers[w] == WriteGather(fd, id)
    ensures Sound(StepGather(s, w, fd, id))
  {
    hide Sound;
    WorkerHolds(s, w);
    var c := s.ConnAt(id);
    MoveSound(s, w, if c.closed || !HasWriteData(c) || !Cursor(c) then WriteClear(fd, id)
                    else WriteSend(fd, id, Gather(c)));
  }

  lemma SendSound(s: State, w: WorkerId, fd: Fd, id: ConnId, iov: seq<Text>, a: Answer)
    requires Working(s, w) && s.workers[w] == WriteSend(fd, id, iov)
    ensures Sound(StepSend(s, w, fd, id, iov, a))
  {
    hide Sound;
    WorkerHolds(s, w);
    var k := s.Behind(fd);
    var h := s.HistAt(k);
    match a
    case Got(n) => MoveHist(s, w, WriteConsume(fd, id, n), k, h.(tx := h.tx + Slice(Flat(iov), 0, n)));
    case WouldBlock => MoveSound(s, w, Finish(fd, id, Out));
    case _ => MoveSound(s, w, Closing(Erase(fd)));
  }

  lemma ConsumeSound(s: State, w: WorkerId, fd: Fd, id: ConnId, n: nat)
    requires Working(s, w) && s.workers[w] == WriteConsume(fd, id, n)
    ensures Sound(StepConsume(s, w, fd, id, n))
  {
    hide Sound;
    WorkerHolds(s, w);
    var c := s.ConnAt(id);
    MoveConn(s, w, WriteGather(fd, id), id, if Cursor(c) then Consume(c, n) else c);
  }

  lemma ClearSound(s: State, w: WorkerId, fd: Fd, id: ConnId)
    requires Working(s, w) && s.workers[w] == WriteClear(fd, id)
    ensures Sound(StepClear(s, w, fd, id))
  {
    hide Sound;
    WorkerHolds(s, w);
    var c := s.ConnAt(id);
    MoveConn(s, w, if c.closeAfterWrite then Closing(Erase(fd)) else WriteRefresh(fd, id, c.readBuf != []),
             id, ClearWrite(c).(writeReady := false));
  }

  lemma DequeueSound(s: State, w: WorkerId, pc: Worker)
    requires Sound(s) && w in s.workers && s.workers[w] == Idle && s.queue != []
    requires !pc.Closing? && pc.Holds() == None
    ensures Sound(Dequeue(s, w, pc))
  {
    hide Sound;
    OrdinaryKeeps(s, Dequeue(s, w, pc), w, pc);
  }

  lemma TakeSound(s: State, w: WorkerId, t: Task)
    requires Sound(s) && w in s.workers && s.workers[w] == Idle && s.queue != []
    ensures Sound(StepTake(s, w, t))
  {
    hide Sound;
    var pc := if t.dir == In then ReadGet(t.fd) else WriteGet(t.fd);
    DequeueSound(s, w, pc);
    PlaceSound(Dequeue(s, w, pc), t.fd, Running(w));
  }

  // ---------- closing a connection ----------

  lemma EraseTables(open: Sockets, table: Sockets, owner: Owners, sock: Descriptors, made: set<ConnId>, loop: Loop,
                    t: Thread, fd: Fd)
    requires OpenOk(open, owner, sock) && TableOk(open, table, owner, made) && PendingOk(loop, open, owner, made)
    requires fd in table
    ensures var owner' := owner[fd := ClosedBy(t)];
            && OpenOk(open, owner', sock) && TableOk(open, table - {fd}, owner', made)
            && PendingOk(loop, open, owner', made)
  {
    hide Sound;
  }

  /** Erasing hands the descriptor to the thread alone; everyone else's stays as it was. */
  lemma ClosersErase(loop: Loop, workers: Crew, loop': Loop, workers': Crew, open: Sockets, owner: Owners, t: Thread,
                     fd: Fd, id: ConnId)
    requires ClosersOk(loop, workers, open, owner)
    requires !PastErase(CloseOf(loop, workers, t)) && fd in open && open[fd] == id
    requires fd in owner && owner[fd] == Tabled
    requires CloseOf(loop', workers', t) == Some(Mark(fd, id))
    requires forall u :: u != t ==> CloseOf(loop', workers', u) == CloseOf(loop, workers, u)
    ensures ClosersOk(loop', workers', open, owner[fd := ClosedBy(t)])
  {
    hide Sound;
  }

  /** Going on from one step to the next keeps the claim on the descriptor. */
  lemma ClosersStep(loop: Loop, workers: Crew, loop': Loop, workers': Crew, open: Sockets, owner: Owners, t: Thread)
    requires ClosersOk(loop, workers, open, owner)
    requires PastErase(CloseOf(loop, workers, t)) && PastErase(CloseOf(loop', workers', t))
    requires CloseOf(loop, workers, t).value.fd == CloseOf(loop', workers', t).value.fd
    requires CloseOf(loop, workers, t).value.id == CloseOf(loop', workers', t).value.id
    requires forall u :: u != t ==> CloseOf(loop', workers', u) == CloseOf(loop, workers, u)
    ensures ClosersOk(loop', workers', open, owner)
  {
    hide Sound;
  }

  /** Closing the descriptor ends the claim. */
  lemma ClosersShut(loop: Loop, workers: Crew, loop': Loop, workers': Crew, open: Sockets, owner: Owners, t: Thread,
                    fd: Fd, id: ConnId)
    requires ClosersOk(loop, workers, open, owner)
    requires CloseOf(loop, workers, t) == Some(Shut(fd, id))
    requires !PastErase(CloseOf(loop', workers', t))
    requires forall u :: u != t ==> CloseOf(loop', workers', u) == CloseOf(loop, workers, u)
    ensures ClosersOk(loop', workers', open - {fd}, owner - {fd})
  {
    hide Sound;
    forall u | PastErase(CloseOf(loop', workers', u))
      ensures var c := CloseOf(loop', workers', u).value;
              c.fd != fd && c.fd in open && open[c.fd] == c.id && c.fd in owner && owner[c.fd] == ClosedBy(u)
    {
      assert u != t && PastErase(CloseOf(loop, workers, u));
    }
  }

  lemma ShutTables(open: Sockets, table: Sockets, owner: Owners, sock: Descriptors, made: set<ConnId>, loop: Loop,
                   fd: Fd)
    requires OpenOk(open, owner, sock) && TableOk(open, table, owner, made) && PendingOk(loop, open, owner, made)
    requires fd in owner && owner[fd].ClosedBy?
    ensures && OpenOk(open - {fd}, owner - {fd}, sock) && TableOk(open - {fd}, table, owner - {fd}, made)
            && PendingOk(loop, open - {fd}, owner - {fd}, made)
  {
    hide Sound;
  }

  /** The close counted is the first and the last of its socket. */
  lemma ShutOnce(open: Sockets, sock: Descriptors, closes: map<ConnId, nat>, fd: Fd, id: ConnId)
    requires OnceOk(open, sock, closes)
    requires fd in open && open[fd] == id && id in sock && sock[id] == fd
    ensures closes[id] == 0 && OnceOk(open - {fd}, sock, closes[id := 1])
  {
    hide Sound;
    assert IsOpen(open, sock, id);
    forall k | k in sock ensures IsOpen(open - {fd}, sock, k) <==> k != id && IsOpen(open, sock, k) {
    }
  }

  // ---------- closing steps of a worker ----------

  lemma WorkerClose(s: State, w: WorkerId, c: Close)
    requires Sound(s) && w in s.workers && s.workers[w] == Closing(c)
    ensures CloseOf(s.loop, s.workers, WorkerThread(w)) == Some(c)
    ensures PastErase(Some(c)) ==> c.fd in s.open && s.open[c.fd] == c.id && c.fd in s.owner &&
                                   s.owner[c.fd] == ClosedBy(WorkerThread(w)) && c.id in s.conns &&
                                   c.id in s.sock && s.sock[c.id] == c.fd
    ensures !s.loop.Sweeping? && !s.loop.Stopped?
  {
    assert HolderOk(s.workers[w].Names(), s.workers[w].Holds(), s.conns.Keys, s.sock);
  }

  lemma OthersKeepPlace(loop: Loop, workers: Crew, w: WorkerId, pc: Worker)
    ensures forall u :: u != WorkerThread(w) ==> CloseOf(loop, workers[w := pc], u) == CloseOf(loop, workers, u)
  {
    hide Sound;
  }

  lemma HoldersMove(loop: Loop, workers: Crew, made: set<ConnId>, sock: Descriptors, w: WorkerId, pc: Worker)
    requires HoldersOk(loop, workers, made, sock) && HolderOk(pc.Names(), pc.Holds(), made, sock)
    ensures HoldersOk(loop, workers[w := pc], made, sock)
  {
    hide Sound;
  }

  lemma CoveredErase(due: seq<Expiry>, table: Sockets, timed: set<Fd>, fd: Fd)
    requires Covered(due, table, timed)
    ensures Covered(due, table - {fd}, timed - {fd})
  {
    hide Sound;
  }

  lemma WorkerEraseClosers(s: State, w: WorkerId, fd: Fd)
    requires Sound(s) && w in s.workers && s.workers[w] == Closing(Erase(fd)) && fd in s.table
    ensures var workers := s.workers[w := Closing(Mark(fd, s.table[fd]))];
            && ClosersOk(s.loop, workers, s.open, s.owner[fd := ClosedBy(WorkerThread(w))])
            && HoldersOk(s.loop, workers, s.conns.Keys, s.sock)
  {
    hide ClosersOk, PendingOk, HoldersOk, OnceOk, Covered;
    var t, pc := WorkerThread(w), Closing(Mark(fd, s.table[fd]));
    WorkerClose(s, w, Erase(fd));
    OthersKeepPlace(s.loop, s.workers, w, pc);
    ClosersErase(s.loop, s.workers, s.loop, s.workers[w := pc], s.open, s.owner, t, fd, s.table[fd]);
    HoldersMove(s.loop, s.workers, s.conns.Keys, s.sock, w, pc);
  }

  lemma WorkerEraseSound(s: State, w: WorkerId, fd: Fd)
    requires Sound(s) && w in s.workers && s.workers[w] == Closing(Erase(fd)) && fd in s.table
    ensures Sound(SetWorker(CloseEffect(s, WorkerThread(w), Erase(fd)), w, Closing(Mark(fd, s.table[fd]))))
  {
    hide ClosersOk, PendingOk, HoldersOk, OnceOk, Covered;
    WorkerClose(s, w, Erase(fd));
    WorkerEraseClosers(s, w, fd);
    EraseTables(s.open, s.table, s.owner, s.sock, s.conns.Keys, s.loop, WorkerThread(w), fd);
    CoveredErase(Due(s.loop), s.table, s.timers.Keys, fd);
    assert Without(s.timers, [fd]).Keys == s.timers.Keys - {fd};
  }

  lemma WorkerMoveOn(s: State, w: WorkerId, c: Close, c': Close)
    requires Sound(s) && w in s.workers && s.workers[w] == Closing(c)
    requires PastErase(Some(c)) && PastErase(Some(c')) && c'.fd == c.fd && c'.id == c.id
    ensures Sound(SetWorker(s, w, Closing(c')))
  {
    hide ClosersOk, PendingOk, HoldersOk, OnceOk, Covered;
    WorkerClose(s, w, c);
    OthersKeepPlace(s.loop, s.workers, w, Closing(c'));
    ClosersStep(s.loop, s.workers, s.loop, s.workers[w := Closing(c')], s.open, s.owner, WorkerThread(w));
    HoldersMove(s.loop, s.workers, s.conns.Keys, s.sock, w, Closing(c'));
  }

  lemma WorkerShutClosers(s: State, w: WorkerId, fd: Fd, id: ConnId)
    requires Sound(s) && w in s.workers && s.workers[w] == Closing(Shut(fd, id))
    ensures ClosersOk(s.loop, s.workers[w := Idle], s.open - {fd}, s.owner - {fd})
    ensures HoldersOk(s.loop, s.workers[w := Idle], s.conns.Keys, s.sock)
  {
    hide OpenOk, TableOk, ClosersOk, PendingOk, HoldersOk, OnceOk, Covered, StopOk;
    WorkerClose(s, w, Shut(fd, id));
    OthersKeepPlace(s.loop, s.workers, w, Idle);
    ClosersShut(s.loop, s.workers, s.loop, s.workers[w := Idle], s.open, s.owner, WorkerThread(w), fd, id);
    HoldersMove(s.loop, s.workers, s.conns.Keys, s.sock, w, Idle);
  }

  lemma WorkerShutSound(s: State, w: WorkerId, fd: Fd, id: ConnId)
    requires Sound(s) && w in s.workers && s.workers[w] == Closing(Shut(fd, id))
    ensures Sound(SetWorker(CloseEffect(s, WorkerThread(w), Shut(fd, id)), w, Idle))
  {
    hide TableOk, ClosersOk, OnceOk, Covered, PendingOk;
    WorkerClose(s, w, Shut(fd, id));
    WorkerShutClosers(s, w, fd, id);
    ShutTables(s.open, s.table, s.owner, s.sock, s.conns.Keys, s.loop, fd);
    ShutOnce(s.open, s.sock, s.closes, fd, id);
  }

  lemma WorkerClosingSound(s: State, w: WorkerId, c: Close)
    requires Sound(s) && w in s.workers && s.workers[w] == Closing(c)
    ensures Sound(StepClosing(s, w, c))
  {
    hide Sound;
    WorkerClose(s, w, c);
    match c
    case Erase(fd) =>
      if fd in s.table {
        WorkerEraseSound(s, w, fd);
      } else {
        DropSound(s, w, fd);
      }
    case Mark(fd, id) =>
      WorkerMoveOn(s, w, c, Unregister(fd, id));
      ConnSound(SetWorker(s, w, Closing(Unregister(fd, id))), id, s.ConnAt(id).(closed := true));
    case Unregister(fd, id) =>
      WorkerMoveOn(s, w, c, Shut(fd, id));
      InterestSound(SetWorker(s, w, Closing(Shut(fd, id))), s.interest - {fd});
    case Shut(fd, id) =>
      WorkerShutSound(s, w, fd, id);
  }

  // ---------- the loop's steps ----------

  /** Only the loop moves; it is not in the middle of an insert or past an erase, before or after. */
  lemma LoopMoveSound(s: State, l: Loop)
    requires Sound(s) && !s.loop.Inserting? && !PastErase(CloseOf(s.loop, s.workers, LoopThread))
    requires !l.Inserting? && !l.Sweeping? && !l.Stopped?
    requires l.LoopClosing? ==> l.close.Erase? && (l.resume.ToIdle? ==> l.close.fd == l.resume.current.fd)
    requires Covered(Due(l), s.table, s.timers.Keys)
    requires l.Beginning? ==> HolderOk(Some(l.fd), Some(l.id), s.conns.Keys, s.sock)
    ensures Sound(s.(loop := l))
  {
    LoopLeavesClosers(s.loop, l, s.workers, s.open, s.owner);
  }

  lemma LoopLeavesClosers(l: Loop, l': Loop, workers: Crew, open: Sockets, owner: Owners)
    requires ClosersOk(l, workers, open, owner)
    requires !PastErase(CloseOf(l, workers, LoopThread)) && !PastErase(CloseOf(l', workers, LoopThread))
    ensures ClosersOk(l', workers, open, owner)
  {
    hide Sound;
    forall t ensures t != LoopThread ==> CloseOf(l', workers, t) == CloseOf(l, workers, t) {
    }
  }

  lemma HandleReady(s: State, fd: Fd, dir: Dir)
    requires Sound(s) && s.loop.Handling? && s.loop.batch != [] && s.loop.batch[0] == Ready(fd, dir)
    ensures Sound(StepHandle(s))
  {
    hide OpenOk, TableOk, ClosersOk, PendingOk, HoldersOk, OnceOk, Covered, StopOk;
    var rest := s.loop.batch[1..];
    if fd in s.table {
      TableHolds(s, fd);
      var l := Beginning(fd, s.table[fd], dir, rest);
      LoopMoveSound(s, l);
      PlaceSound(s.(loop := l), fd, Dispatching(dir));
    } else {
      LoopMoveSound(s, Handling(rest));
      PlaceSound(s.(loop := Handling(rest)), fd, Leaving);
    }
  }

  lemma HandleSound(s: State)
    requires Sound(s) && s.loop.Handling? && s.loop.batch != []
    ensures Sound(StepHandle(s))
  {
    hide OpenOk, TableOk, ClosersOk, PendingOk, HoldersOk, OnceOk, Covered, StopOk;
    var rest := s.loop.batch[1..];
    match s.loop.batch[0]
    case Listen => LoopMoveSound(s, Accepting(rest));
    case Hangup(fd) =>
      var l := LoopClosing(Erase(fd), ToBatch(rest));
      LoopMoveSound(s, l);
      PlaceSound(s.(loop := l), fd, Leaving);
    case Ready(fd, dir) => HandleReady(s, fd, dir);
  }

  lemma TableHolds(s: State, fd: Fd)
    requires Sound(s) && fd in s.table
    ensures HolderOk(Some(fd), Some(s.table[fd]), s.conns.Keys, s.sock)
  {
    hide ClosersOk, PendingOk, HoldersOk, OnceOk, Covered;
  }

  lemma CollectSound(s: State, e: Event)
    requires Sound(s) && s.loop.Waiting?
    ensures Sound(StepCollect(s, e))
  {
    hide OpenOk, TableOk, ClosersOk, PendingOk, HoldersOk, OnceOk, Covered, StopOk;
    var l := Waiting(s.loop.batch + [e]);
    LoopMoveSound(s, l);
    if !(e.Listen? || e.fd !in s.interest || s.interest[e.fd] == Off) {
      InterestSound(s.(loop := l), s.interest[e.fd := Off]);
      PlaceSound(s.(loop := l, interest := s.interest[e.fd := Off]), e.fd, Delivered(s.interest[e.fd].dir));
    }
  }

  lemma AddSound(s: State)
    requires Sound(s) && s.loop.Adding?
    ensures Sound(StepAdd(s))
  {
    hide OpenOk, TableOk, ClosersOk, PendingOk, HoldersOk, OnceOk, Covered, StopOk;
    var fd, l := s.loop.fd, Accepting(s.loop.batch);
    LoopMoveSound(s, l);
    InterestSound(s.(loop := l), s.interest[fd := On(In)]);
    PlaceSound(s.(loop := l, interest := s.interest[fd := On(In)]), fd, Armed(In));
  }

  lemma BeginSound(s: State)
    requires Sound(s) && s.loop.Beginning?
    ensures Sound(StepBegin(s))
  {
    hide TableOk, ClosersOk, OnceOk, Covered, PendingOk;
    var c := s.ConnAt(s.loop.id);
    if !c.closed && !c.processing {
      var l := Enqueueing(s.loop.fd, s.loop.dir, s.loop.batch);
      LoopMoveSound(s, l);
      ConnSound(s.(loop := l), s.loop.id, c.(processing := true));
      PlaceSound(SetConn(s.(loop := l), s.loop.id, c.(processing := true)), s.loop.fd, Claimed(s.loop.dir));
    } else {
      var l := Handling(s.loop.batch);
      LoopMoveSound(s, l);
      PlaceSound(s.(loop := l), s.loop.fd, Leaving);
    }
  }

  lemma EnqueueSound(s: State)
    requires Sound(s) && s.loop.Enqueueing?
    ensures Sound(StepEnqueue(s))
  {
    hide ClosersOk, PendingOk, HoldersOk, OnceOk, Covered;
    var l := Handling(s.loop.batch);
    LoopMoveSound(s, l);
    PlaceSound(s.(loop := l, queue := s.queue + [Task(s.loop.fd, s.loop.dir)]), s.loop.fd, Queued(s.loop.dir));
  }

  lemma AcceptTables(open: Sockets, table: Sockets, owner: Owners, sock: Descriptors, made: set<ConnId>, l: Loop,
                     l': Loop, fd: Fd, id: ConnId)
    requires OpenOk(open, owner, sock) && TableOk(open, table, owner, made) && PendingOk(l, open, owner, made)
    requires fd !in open && id !in sock && made <= sock.Keys && !l.Inserting?
    requires l'.Inserting? && l'.fd == fd && l'.id == id
    ensures var owner' := owner[fd := Pending];
            && OpenOk(open[fd := id], owner', sock[id := fd])
            && TableOk(open[fd := id], table, owner', made)
            && PendingOk(l', open[fd := id], owner', made)
  {
    hide Sound;
  }

  lemma AcceptOnce(open: Sockets, sock: Descriptors, closes: map<ConnId, nat>, fd: Fd, id: ConnId)
    requires OnceOk(open, sock, closes) && fd !in open && id !in sock
    ensures OnceOk(open[fd := id], sock[id := fd], closes[id := 0])
  {
    hide Sound;
    forall k | k in sock ensures IsOpen(open[fd := id], sock[id := fd], k) <==> IsOpen(open, sock, k) {
    }
  }

  lemma AcceptClosers(l: Loop, l': Loop, workers: Crew, open: Sockets, owner: Owners, fd: Fd, id: ConnId)
    requires ClosersOk(l, workers, open, owner) && fd !in open && fd !in owner && !l.LoopClosing? && !l'.LoopClosing?
    ensures ClosersOk(l', workers, open[fd := id], owner[fd := Pending])
  {
    hide Sound;
    forall t ensures CloseOf(l', workers, t) == CloseOf(l, workers, t) {
    }
  }

  lemma AcceptHolders(l: Loop, l': Loop, workers: Crew, made: set<ConnId>, sock: Descriptors, fd: Fd, id: ConnId)
    requires HoldersOk(l, workers, made, sock) && id !in sock && !l'.Beginning? && !l'.LoopClosing?
    ensures HoldersOk(l', workers, made, sock[id := fd])
  {
    hide Sound;
    forall w | w in workers ensures HolderOk(workers[w].Names(), workers[w].Holds(), made, sock[id := fd]) {
      assert HolderOk(workers[w].Names(), workers[w].Holds(), made, sock);
    }
  }

  lemma AcceptSound(s: State, fd: Fd, id: ConnId)
    requires Sound(s) && s.loop.Accepting? && fd !in s.open && id !in s.sock
    ensures Sound(StepAccept(s, fd, id))
  {
    hide TableOk, ClosersOk, OnceOk, Covered, PendingOk;
    var l := Inserting(fd, id, s.loop.batch);
    AcceptTables(s.open, s.table, s.owner, s.sock, s.conns.Keys, s.loop, l, fd, id);
    AcceptOnce(s.open, s.sock, s.closes, fd, id);
    AcceptClosers(s.loop, l, s.workers, s.open, s.owner, fd, id);
    AcceptHolders(s.loop, l, s.workers, s.conns.Keys, s.sock, fd, id);
  }

  lemma InsertTables(open: Sockets, table: Sockets, owner: Owners, sock: Descriptors, made: set<ConnId>, l: Loop,
                     l': Loop)
    requires OpenOk(open, owner, sock) && TableOk(open, table, owner, made) && PendingOk(l, open, owner, made)
    requires l.Inserting? && !l'.Inserting?
    ensures var owner' := owner[l.fd := Tabled];
            && l.fd !in table
            && OpenOk(open, owner', sock)
            && TableOk(open, table[l.fd := l.id], owner', made + {l.id})
            && PendingOk(l', open, owner', made + {l.id})
  {
    hide Sound;
  }

  lemma InsertClosers(l: Loop, l': Loop, workers: Crew, open: Sockets, owner: Owners, fd: Fd)
    requires ClosersOk(l, workers, open, owner) && fd in owner && owner[fd] == Pending && !l.LoopClosing?
    requires !l'.LoopClosing?
    ensures ClosersOk(l', workers, open, owner[fd := Tabled])
  {
    hide Sound;
    forall t ensures CloseOf(l', workers, t) == CloseOf(l, workers, t) {
    }
  }

  lemma InsertSound(s: State)
    requires Sound(s) && s.loop.Inserting?
    ensures Sound(StepInsert(s))
  {
    var fd, id, l := s.loop.fd, s.loop.id, Adding(s.loop.fd, s.loop.batch);
    InsertTables(s.open, s.table, s.owner, s.sock, s.conns.Keys, s.loop, l);
    InsertClosers(s.loop, l, s.workers, s.open, s.owner, fd);
    InsertHolders(s.loop, l, s.workers, s.conns.Keys, s.sock, id);
    assert s.conns[id := FRESH].Keys == s.conns.Keys + {id};
    assert s.sock[s.open[fd]] == fd;
  }

  lemma InsertHolders(l: Loop, l': Loop, workers: Crew, made: set<ConnId>, sock: Descriptors, id: ConnId)
    requires HoldersOk(l, workers, made, sock) && id in sock && !l'.Beginning? && !l'.LoopClosing?
    ensures HoldersOk(l', workers, made + {id}, sock)
  {
    hide Sound;
    forall w | w in workers ensures HolderOk(workers[w].Names(), workers[w].Holds(), made + {id}, sock) {
      assert HolderOk(workers[w].Names(), workers[w].Holds(), made, sock);
    }
  }

  lemma PopSound(s: State, fds: seq<Fd>)
    requires Sound(s) && s.loop == Popping && ExpiredList(s.timers, s.now, fds)
    ensures Sound(StepPop(s, fds))
  {
    hide OpenOk, TableOk, ClosersOk, OnceOk, Covered;
    var due := Registered(s, fds);
    LoopLeavesClosers(s.loop, Expiring(due), s.workers, s.open, s.owner);
    PopTimers(s, fds);
  }

  lemma PopTimers(s: State, fds: seq<Fd>)
    requires Covered([], s.table, s.timers.Keys)
    ensures Covered(Registered(s, fds), s.table, Without(s.timers, fds).Keys)
  {
    hide Sound;
    var due := Registered(s, fds);
    forall f | f in s.table && f !in Without(s.timers, fds) ensures Listed(due, f) {
      assert !Listed([], f);
      assert f in fds;
      var i :| 0 <= i < |fds| && fds[i] == f;
      assert due[i].fd == f;
    }
  }

  lemma ExpiringSound(s: State)
    requires Sound(s) && s.loop.Expiring? && s.loop.rest != []
    ensures Sound(s.(loop := LoopClosing(Erase(s.loop.rest[0].fd), ToIdle(s.loop.rest[0], s.loop.rest[1..]))))
  {
    hide OpenOk, TableOk, ClosersOk, PendingOk, HoldersOk, OnceOk, Covered, StopOk;
    var rest := s.loop.rest;
    assert [rest[0]] + rest[1..] == rest;
    LoopMoveSound(s, LoopClosing(Erase(rest[0].fd), ToIdle(rest[0], rest[1..])));
  }

  // The loop's own steps of `closeConnection`.

  lemma LoopClose(s: State)
    requires Sound(s) && s.loop.LoopClosing?
    ensures var c := s.loop.close;
            CloseOf(s.loop, s.workers, LoopThread) == Some(c) &&
            (PastErase(Some(c)) ==> c.fd in s.open && s.open[c.fd] == c.id && c.fd in s.owner &&
                                    s.owner[c.fd] == ClosedBy(LoopThread) && c.id in s.conns &&
                                    c.id in s.sock && s.sock[c.id] == c.fd)
  {
  }

  lemma OtherThreadsStay(l: Loop, l': Loop, workers: Crew)
    ensures forall u :: u != LoopThread ==> CloseOf(l', workers, u) == CloseOf(l, workers, u)
  {
    hide Sound;
  }

  lemma HoldersLoop(l: Loop, l': Loop, workers: Crew, made: set<ConnId>, sock: Descriptors)
    requires HoldersOk(l, workers, made, sock) && !l'.Beginning?
    requires l'.LoopClosing? && !l'.close.Erase? ==> HolderOk(Some(l'.close.fd), Some(l'.close.id), made, sock)
    ensures HoldersOk(l', workers, made, sock)
  {
    hide Sound;
  }

  lemma CoveredPop(current: Expiry, rest: seq<Expiry>, table: Sockets, timed: set<Fd>)
    requires Covered([current] + rest, table, timed)
    ensures Covered(rest, table - {current.fd}, timed - {current.fd})
    ensures current.fd !in table ==> Covered(rest, table, timed)
  {
    hide Sound;
    var due := [current] + rest;
    assert forall i :: 0 <= i < |rest| ==> due[i + 1] == rest[i];
    forall f | f in table && f != current.fd && f !in timed ensures Listed(rest, f) {
      assert Listed(due, f);
      var i :| 0 <= i < |due| && due[i].fd == f;
      assert rest[i - 1].fd == f;
    }
  }

  lemma LoopEraseTimers(r: Resume, table: Sockets, timed: set<Fd>, fd: Fd, id: ConnId)
    requires Covered(Due(LoopClosing(Erase(fd), r)), table, timed) && (r.ToIdle? ==> fd == r.current.fd)
    ensures Covered(Due(LoopClosing(Mark(fd, id), r)), table - {fd}, timed - {fd})
    ensures fd !in table ==> Covered(Due(Resumed(r)), table, timed)
  {
    hide Sound;
    if r.ToIdle? {
      CoveredPop(r.current, r.rest, table, timed);
    }
  }

  lemma LoopEraseClosers(s: State, l: Loop)
    requires Sound(s) && s.loop.LoopClosing? && s.loop.close.Erase? && s.loop.close.fd in s.table
    requires l == LoopClosing(Mark(s.loop.close.fd, s.table[s.loop.close.fd]), s.loop.resume)
    ensures ClosersOk(l, s.workers, s.open, s.owner[s.loop.close.fd := ClosedBy(LoopThread)])
    ensures HoldersOk(l, s.workers, s.conns.Keys, s.sock)
  {
    hide ClosersOk, PendingOk, HoldersOk, OnceOk, Covered;
    var fd := s.loop.close.fd;
    LoopClose(s);
    OtherThreadsStay(s.loop, l, s.workers);
    ClosersErase(s.loop, s.workers, l, s.workers, s.open, s.owner, LoopThread, fd, s.table[fd]);
    HoldersLoop(s.loop, l, s.workers, s.conns.Keys, s.sock);
  }

  lemma LoopEraseTables(s: State, l: Loop, fd: Fd)
    requires Sound(s) && s.loop.LoopClosing? && s.loop.close == Erase(fd) && fd in s.table
    requires l == LoopClosing(Mark(fd, s.table[fd]), s.loop.resume)
    ensures var s' := CloseEffect(s, LoopThread, Erase(fd));
            && OpenOk(s'.open, s'.owner, s'.sock) && TableOk(s'.open, s'.table, s'.owner, s'.conns.Keys)
            && PendingOk(l, s'.open, s'.owner, s'.conns.Keys)
            && Covered(Due(l), s'.table, s'.timers.Keys)
  {
    EraseTables(s.open, s.table, s.owner, s.sock, s.conns.Keys, s.loop, LoopThread, fd);
    LoopEraseTimers(s.loop.resume, s.table, s.timers.Keys, fd, s.table[fd]);
    assert Without(s.timers, [fd]).Keys == s.timers.Keys - {fd};
  }

  lemma LoopEraseNothing(s: State)
    requires Sound(s) && s.loop.LoopClosing? && s.loop.close.Erase? && s.loop.close.fd !in s.table
    ensures Sound(StepLoopClosing(s))
  {
    hide OpenOk, TableOk, ClosersOk, PendingOk, HoldersOk, OnceOk, Covered, StopOk;
    LoopEraseTimers(s.loop.resume, s.table, s.timers.Keys, s.loop.close.fd, 0);
    LoopMoveSound(s, Resumed(s.loop.resume));
  }

  lemma LoopEraseSound(s: State)
    requires Sound(s) && s.loop.LoopClosing? && s.loop.close.Erase?
    ensures Sound(StepLoopClosing(s))
  {
    hide ClosersOk, PendingOk, HoldersOk, OnceOk, Covered;
    var fd := s.loop.close.fd;
    if fd in s.table {
      var l := LoopClosing(Mark(fd, s.table[fd]), s.loop.resume);
      LoopEraseClosers(s, l);
      LoopEraseTables(s, l, fd);
    } else {
      LoopEraseNothing(s);
    }
  }

  lemma LoopMoveOn(s: State, c: Close)
    requires Sound(s) && s.loop.LoopClosing? && PastErase(Some(s.loop.close)) && PastErase(Some(c))
    requires c.fd == s.loop.close.fd && c.id == s.loop.close.id
    ensures Sound(s.(loop := LoopClosing(c, s.loop.resume)))
  {
    hide OpenOk, TableOk, ClosersOk, OnceOk, Covered;
    var l := LoopClosing(c, s.loop.resume);
    LoopClose(s);
    OtherThreadsStay(s.loop, l, s.workers);
    ClosersStep(s.loop, s.workers, l, s.workers, s.open, s.owner, LoopThread);
    HoldersLoop(s.loop, l, s.workers, s.conns.Keys, s.sock);
  }

  lemma LoopShutClosers(s: State, fd: Fd, id: ConnId)
    requires Sound(s) && s.loop.LoopClosing? && s.loop.close == Shut(fd, id)
    ensures ClosersOk(Resumed(s.loop.resume), s.workers, s.open - {fd}, s.owner - {fd})
    ensures HoldersOk(Resumed(s.loop.resume), s.workers, s.conns.Keys, s.sock)
  {
    hide OpenOk, TableOk, ClosersOk, PendingOk, HoldersOk, OnceOk, Covered, StopOk;
    var l := Resumed(s.loop.resume);
    OtherThreadsStay(s.loop, l, s.workers);
    ClosersShut(s.loop, s.workers, l, s.workers, s.open, s.owner, LoopThread, fd, id);
    HoldersLoop(s.loop, l, s.workers, s.conns.Keys, s.sock);
  }

  lemma LoopShutTables(s: State, fd: Fd, id: ConnId)
    requires Sound(s) && s.loop.LoopClosing? && s.loop.close == Shut(fd, id)
    ensures var s' := StepLoopClosing(s);
            && s'.loop == Resumed(s.loop.resume) && s'.open == s.open - {fd} && s'.owner == s.owner - {fd}
            && OpenOk(s'.open, s'.owner, s'.sock) && TableOk(s'.open, s'.table, s'.owner, s'.conns.Keys)
            && PendingOk(s'.loop, s'.open, s'.owner, s'.conns.Keys) && OnceOk(s'.open, s'.sock, s'.closes)
            && Covered(Due(s'.loop), s'.table, s'.timers.Keys) && CurrentOk(s'.loop)
            && StopOk(s'.loop, s'.workers, s'.queue, s'.open)
  {
    hide OpenOk, TableOk, OnceOk, Covered, HoldersOk;
    LoopClose(s);
    assert Due(Resumed(s.loop.resume)) == Due(s.loop);
    ShutTables(s.open, s.table, s.owner, s.sock, s.conns.Keys, s.loop, fd);
    ShutOnce(s.open, s.sock, s.closes, fd, id);
  }

  lemma LoopShutSound(s: State, fd: Fd, id: ConnId)
    requires Sound(s) && s.loop.LoopClosing? && s.loop.close == Shut(fd, id)
    ensures Sound(StepLoopClosing(s))
  {
    hide OpenOk, TableOk, ClosersOk, PendingOk, HoldersOk, OnceOk, Covered, StopOk;
    LoopShutTables(s, fd, id);
    LoopShutClosers(s, fd, id);
  }

  lemma LoopMarkSound(s: State, fd: Fd, id: ConnId)
    requires Sound(s) && s.loop.LoopClosing? && s.loop.close == Mark(fd, id)
    ensures Sound(StepLoopClosing(s))
  {
    hide Sound;
    LoopClose(s);
    LoopMoveOn(s, Unregister(fd, id));
    ConnSound(s.(loop := LoopClosing(Unregister(fd, id), s.loop.resume)), id, s.ConnAt(id).(closed := true));
  }

  lemma LoopUnregisterSound(s: State, fd: Fd, id: ConnId)
    requires Sound(s) && s.loop.LoopClosing? && s.loop.close == Unregister(fd, id)
    ensures Sound(StepLoopClosing(s))
  {
    hide Sound;
    LoopMoveOn(s, Shut(fd, id));
    InterestSound(s.(loop := LoopClosing(Shut(fd, id), s.loop.resume)), s.interest - {fd});
  }

  lemma LoopClosingSound(s: State)
    requires Sound(s) && s.loop.LoopClosing?
    ensures Sound(StepLoopClosing(s))
  {
    hide Sound;
    match s.loop.close
    case Erase(fd) => LoopEraseSound(s);
    case Mark(fd, id) => LoopMarkSound(s, fd, id);
    case Unregister(fd, id) => LoopUnregisterSound(s, fd, id);
    case Shut(fd, id) => LoopShutSound(s, fd, id);
  }

  // ---------- stopping ----------

  /** When the loop and the workers are done, what is open is exactly what is registered. */
  lemma AllTabled(s: State)
    requires Sound(s) && (s.loop == Draining || s.loop == Sweeping)
    requires forall w :: w in s.workers ==> s.workers[w] == Idle
    ensures s.open.Keys == s.table.Keys
  {
    forall t ensures !PastErase(CloseOf(s.loop, s.workers, t)) {
    }
    forall f ensures f in s.open <==> f in s.table {
      assert f in s.owner ==> s.owner[f] == Tabled;
    }
  }

  /** The sweep closes each connection of the table once, and the table holds every open one. */
  lemma SweepOnce(open: Sockets, table: Sockets, sock: Descriptors, closes: map<ConnId, nat>)
    requires OnceOk(open, sock, closes) && open == table
    requires forall f :: f in open ==> open[f] in sock && sock[open[f]] == f
    ensures OnceOk(map[], sock, SweptCloses(closes, table))
  {
    forall id | id in closes ensures |Entries(table, id)| == if IsOpen(open, sock, id) then 1 else 0 {
      if IsOpen(open, sock, id) {
        assert Entries(table, id) == {sock[id]};
      } else {
        assert Entries(table, id) == {};
      }
    }
  }

  lemma SweepHolders(s: State)
    requires Sound(s) && s.loop == Sweeping
    ensures ClosersOk(Stopped, s.workers, map[], map[]) && HoldersOk(Stopped, s.workers, s.conns.Keys, s.sock)
  {
    forall t ensures !PastErase(CloseOf(Stopped, s.workers, t)) {
    }
    HoldersLoop(s.loop, Stopped, s.workers, s.conns.Keys, s.sock);
  }

  lemma SweepEmpty(s: State)
    requires Sound(s) && s.open.Keys == s.table.Keys
    ensures s.open == s.table && forall f :: f in s.open ==> s.open[f] in s.sock && s.sock[s.open[f]] == f
    ensures StepSweep(s).open == map[] && StepSweep(s).owner == map[] && StepSweep(s).conns.Keys == s.conns.Keys
  {
    hide ClosersOk, PendingOk, HoldersOk, OnceOk, Covered, StopOk;
  }

  lemma SweepSound(s: State)
    requires Sound(s) && s.loop == Sweeping
    ensures Sound(StepSweep(s)) && StepSweep(s).open == map[]
  {
    hide OpenOk, TableOk, ClosersOk, PendingOk, HoldersOk, OnceOk, SweptConns, SweptCloses;
    AllTabled(s);
    SweepEmpty(s);
    SweepOnce(s.open, s.table, s.sock, s.closes);
    SweepHolders(s);
    SweptTables(s.conns.Keys, s.sock);
  }

  lemma SweptTables(made: set<ConnId>, sock: Descriptors)
    ensures OpenOk(map[], map[], sock) && TableOk(map[], map[], map[], made) && PendingOk(Stopped, map[], map[], made)
  {
    hide Sound;
  }

  lemma DrainSound(s: State)
    requires Sound(s) && s.loop == Draining && s.queue == [] && forall w :: w in s.workers ==> s.workers[w] == Idle
    ensures Sound(s.(loop := Sweeping))
  {
    hide OpenOk, TableOk, ClosersOk, OnceOk, Covered;
    LoopLeavesClosers(s.loop, Sweeping, s.workers, s.open, s.owner);
  }

  // ---------- every step ----------

  lemma WorkerStepSound(s: State, w: WorkerId, a: Answer)
    requires Sound(s) && WorkerEnabled(s, w, a)
    ensures Sound(WorkerStep(s, w, a))
  {
    hide Sound, Lookup, StepTake, StepRecv, StepAppend, StepExtract, StepReply, StepFinish, StepGather, StepSend,
         StepConsume, StepClear, StepClosing, ArmAndLeave, Extract, SetWorker, Refresh;
    match s.workers[w]
    case Idle => TakeSound(s, w, s.queue[0]);
    case ReadGet(fd) => LookupSound(s, w, fd, ReadRecv(fd, s.Entry(fd)));
    case ReadRecv(fd, id) => RecvSound(s, w, fd, id, a);
    case ReadAppend(fd, id, data) => AppendSound(s, w, fd, id, data);
    case ReadRefresh(fd) => RefreshMoveSound(s, w, fd, ProcessGet(fd));
    case ProcessGet(fd) => LookupSound(s, w, fd, ProcessExtract(fd, s.Entry(fd)));
    case ProcessExtract(fd, id) => ExtractSound(s, w, fd, id, Extract(s.ConnAt(id).readBuf));
    case ProcessReply(fd, id, raw) =>
      ReplySound(s, w, fd, id, raw, Exchange(raw, a.world, s.cfg.respond(raw, a.world)));
    case WriteGet(fd) => LookupSound(s, w, fd, WriteGather(fd, s.Entry(fd)));
    case WriteGather(fd, id) => GatherSound(s, w, fd, id);
    case WriteSend(fd, id, iov) => SendSound(s, w, fd, id, iov, a);
    case WriteConsume(fd, id, n) => ConsumeSound(s, w, fd, id, n);
    case WriteClear(fd, id) => ClearSound(s, w, fd, id);
    case WriteRefresh(fd, id, pending) =>
      WorkerHolds(s, w);
      RefreshMoveSound(s, w, fd, if pending then ProcessGet(fd) else Finish(fd, id, In));
    case Finish(fd, id, dir) => FinishSound(s, w, fd, id, dir);
    case Arm(fd, dir) => LeaveSound(s, w, fd, dir);
    case Closing(c) => WorkerClosingSound(s, w, c);
  }

  lemma RefreshMoveSound(s: State, w: WorkerId, fd: Fd, pc: Worker)
    requires Working(s, w) && !pc.Closing?
    requires HolderOk(pc.Names(), pc.Holds(), s.conns.Keys, s.sock)
    ensures Sound(SetWorker(Refresh(s, fd), w, pc))
  {
    hide Sound;
    MoveSound(s, w, pc);
    RefreshSound(SetWorker(s, w, pc), fd);
  }

  lemma LoopStepSound(s: State, a: LoopAnswer)
    requires Sound(s) && LoopEnabled(s, a)
    ensures Sound(LoopStep(s, a))
  {
    hide OpenOk, TableOk, ClosersOk, PendingOk, HoldersOk, OnceOk, Covered, StopOk;
    match s.loop
    case LoopTop => LoopMoveSound(s, if s.running then Waiting([]) else Draining);
    case Waiting(batch) => WaitSound(s, a);
    case Handling(batch) =>
      if batch == [] {
        LoopMoveSound(s, Popping);
      } else {
        HandleSound(s);
      }
    case Accepting(batch) =>
      if a.AcceptFd? {
        AcceptSound(s, a.fd, a.id);
      } else {
        LoopMoveSound(s, Handling(batch));
      }
    case Inserting(_, _, _) => InsertSound(s);
    case Adding(_, _) => AddSound(s);
    case Beginning(_, _, _, _) => BeginSound(s);
    case Enqueueing(_, _, _) => EnqueueSound(s);
    case LoopClosing(_, _) => LoopClosingSound(s);
    case Popping => PopSound(s, a.fds);
    case Expiring(rest) =>
      if rest == [] {
        LoopMoveSound(s, LoopTop);
      } else {
        ExpiringSound(s);
      }
    case Draining => DrainSound(s);
    case Sweeping => SweepSound(s);
  }

  lemma WaitSound(s: State, a: LoopAnswer)
    requires Sound(s) && s.loop.Waiting? && LoopEnabled(s, a)
    ensures Sound(LoopStep(s, a))
  {
    hide OpenOk, TableOk, ClosersOk, PendingOk, HoldersOk, OnceOk, Covered, StopOk;
    match a
    case Collect(e) => CollectSound(s, e);
    case WaitDone => LoopMoveSound(s, Handling(s.loop.batch));
    case WaitFails => LoopMoveSound(s, Draining);
    case _ => LoopMoveSound(s, LoopTop);
  }

  lemma StepSound(s: State, a: Action)
    requires Sound(s) && Enabled(s, a)
    ensures Sound(Step(s, a))
  {
    hide OpenOk, TableOk, ClosersOk, PendingOk, HoldersOk, OnceOk, Covered, StopOk;
    match a
    case PeerSends(id, data) => HistSound(s, id, s.hist[id].(input := s.hist[id].input + data));
    case Tick(_) =>
    case RequestStop =>
    case LoopActs(la) => LoopStepSound(s, la);
    case WorkerActs(w, wa) => WorkerStepSound(s, w, wa);
  }

  lemma InitSound(cfg: Config, now: int)
    ensures Sound(Init(cfg, now))
  {
    var s := Init(cfg, now);
    forall t ensures CloseOf(s.loop, s.workers, t) == None {
    }
  }

  /** Every state of every run is sound, whatever descriptors `accept` hands out. */
  lemma {:induction false} RunSound(cfg: Config, now: int, acts: seq<Action>, s: State, careful: bool)
    requires Run(Init(cfg, now), acts, s, careful)
    ensures Sound(s)
  {
    hide Sound;
    if acts == [] {
      InitSound(cfg, now);
    } else {
      var last := acts[|acts| - 1];
      var m :| Run(Init(cfg, now), acts[..|acts| - 1], m, careful) && Enabled(m, last) && s == Step(m, last);
      RunSound(cfg, now, acts[..|acts| - 1], m, careful);
      StepSound(m, last);
    }
  }

  // ---------- what it says ----------

  /** In every run: a registered descriptor is open in the kernel, for the very socket it was
      accepted for; `accept` never overwrites a registration; and `close` has been called for an
      accepted connection once if its descriptor is no longer open, and not at all before. */
  lemma DescriptorsSafe(cfg: Config, now: int, acts: seq<Action>, s: State)
    requires Run(Init(cfg, now), acts, s, false)
    ensures forall f :: f in s.table ==>
              f in s.open && s.table[f] == s.open[f] && s.table[f] in s.sock && s.sock[s.table[f]] == f
    ensures s.loop.Inserting? ==> s.loop.fd !in s.table
    ensures forall id :: id in s.sock ==> id in s.closes && s.closes[id] == if IsOpen(s.open, s.sock, id) then 0 else 1
  {
    RunSound(cfg, now, acts, s, false);
  }

  /** In every run, every `close` about to be called is called on an open descriptor, which is that of
      the very connection it is meant for, is registered no more, and was never closed before; and so
      is every `close` the final sweep will call on a registered descriptor. */
  lemma NoStrayClose(cfg: Config, now: int, acts: seq<Action>, s: State, t: Thread)
    requires Run(Init(cfg, now), acts, s, false)
    ensures PastErase(CloseOf(s.loop, s.workers, t)) ==>
              var c := CloseOf(s.loop, s.workers, t).value;
              c.fd in s.open && s.open[c.fd] == c.id && c.fd !in s.table && c.id in s.closes && s.closes[c.id] == 0
    ensures forall f :: f in s.table ==> f in s.open && s.open[f] == s.table[f] && s.ClosesAt(s.table[f]) == 0
  {
    hide Run;
    RunSound(cfg, now, acts, s, false);
    if PastErase(CloseOf(s.loop, s.workers, t)) {
      var c := CloseOf(s.loop, s.workers, t).value;
      assert IsOpen(s.open, s.sock, c.id);
    }
    forall f | f in s.table ensures s.ClosesAt(s.table[f]) == 0 {
      assert IsOpen(s.open, s.sock, s.table[f]);
    }
  }

  /** The thread has erased the descriptor's registration and will close the descriptor. */
  ghost predicate Shutting(s: State, t: Thread, f: Fd) {
    PastErase(CloseOf(s.loop, s.workers, t)) && CloseOf(s.loop, s.workers, t).value.fd == f
  }

  /** In every run, every open descriptor has someone to close it: the table it is registered in,
      the loop about to register it, or exactly one thread that is past erasing it. */
  lemma NoDescriptorLost(cfg: Config, now: int, acts: seq<Action>, s: State, f: Fd)
    requires Run(Init(cfg, now), acts, s, false) && f in s.open
    ensures f in s.table || (s.loop.Inserting? && s.loop.fd == f)
            || exists t :: Shutting(s, t, f)
    ensures forall t, u :: Shutting(s, t, f) && Shutting(s, u, f) ==> t == u
    ensures forall t :: Shutting(s, t, f) ==> f !in s.table && CloseOf(s.loop, s.workers, t).value.id == s.open[f]
  {
    RunSound(cfg, now, acts, s, false);
    if s.owner[f].ClosedBy? {
      assert Shutting(s, s.owner[f].thread, f);
    }
  }

  /** In every run, every registered descriptor has a timer or is on the list of expired ones the
      loop is closing; and the connection that is closed for an expired descriptor is the one that
      was registered when its timer fired. */
  lemma TimersCover(cfg: Config, now: int, acts: seq<Action>, s: State, f: Fd)
    requires Run(Init(cfg, now), acts, s, false) && f in s.table
    ensures f in s.timers || Listed(Due(s.loop), f)
    ensures s.loop.LoopClosing? && s.loop.close == Erase(f) && s.loop.resume.ToIdle? ==>
              s.loop.resume.current == Expiry(f, Some(s.table[f]))
  {
    RunSound(cfg, now, acts, s, false);
    if s.loop.LoopClosing? && s.loop.close == Erase(f) && s.loop.resume.ToIdle? {
      assert Due(s.loop)[0] == s.loop.resume.current;
    }
  }

  /** When the server has stopped, no accepted descriptor is open, and `close` was called exactly once
      for every connection ever accepted. */
  lemma StopClosesAll(cfg: Config, now: int, acts: seq<Action>, s: State)
    requires Run(Init(cfg, now), acts, s, false) && s.loop == Stopped
    ensures s.open == map[] && forall id :: id in s.sock ==> id in s.closes && s.closes[id] == 1
    ensures s.queue == [] && forall w :: w in s.workers ==> s.workers[w] == Idle
  {
    RunSound(cfg, now, acts, s, false);
  }
}
