/** The connection protocol: one event-loop thread and a set of workers over shared tables, as a
    transition system. Every mutex-protected block and every system call is one atomic step, and the
    steps of different threads interleave freely. */
module Server {
  import opened Bytes
  import opened Framing
  import opened Connections
  import opened Service
  import opened Timers

  /** An accepted socket and the connection object made for it; never used twice. */
  type ConnId = nat

  type WorkerId = nat

  datatype Dir = In | Out

  /** A registered descriptor: disarmed, or armed for one event. */
  datatype Interest = Off | On(dir: Dir)

  /** A queued task names a descriptor, not a connection. */
  datatype Task = Task(fd: Fd, dir: Dir)

  datatype Event = Listen | Ready(fd: Fd, dir: Dir) | Hangup(fd: Fd)

  /** The steps of `closeConnection`. */
  datatype Close =
    | Erase(fd: Fd)
    | Mark(fd: Fd, id: ConnId)
    | Unregister(fd: Fd, id: ConnId)
    | Shut(fd: Fd, id: ConnId)

  /** Where a worker stands; each value is the next atomic block it will run. */
  datatype Worker =
    | Idle
    | ReadGet(fd: Fd)
    | ReadRecv(fd: Fd, id: ConnId)
    | ReadAppend(fd: Fd, id: ConnId, data: Text)
    | ReadRefresh(fd: Fd)
    | ProcessGet(fd: Fd)
    | ProcessExtract(fd: Fd, id: ConnId)
    | ProcessReply(fd: Fd, id: ConnId, raw: Text)
    | WriteGet(fd: Fd)
    | WriteGather(fd: Fd, id: ConnId)
    | WriteSend(fd: Fd, id: ConnId, iov: seq<Text>)
    | WriteConsume(fd: Fd, id: ConnId, n: nat)
    | WriteClear(fd: Fd, id: ConnId)
    | WriteRefresh(fd: Fd, id: ConnId, pending: bool)
    | Finish(fd: Fd, id: ConnId, dir: Dir)
    | Arm(fd: Fd, dir: Dir)
    | Closing(close: Close)
  {
    function Names(): Option<Fd> {
      match this
      case Idle => None
      case Closing(c) => Some(c.fd)
      case _ => Some(fd)
    }

    /** The connection object a worker holds for its descriptor, once it has looked it up. */
    function Holds(): Option<ConnId> {
      match this
      case Idle => None
      case ReadGet(_) => None
      case ReadRefresh(_) => None
      case ProcessGet(_) => None
      case WriteGet(_) => None
      case Arm(_, _) => None
      case Closing(c) => if c.Erase? then None else Some(c.id)
      case _ => Some(id)
    }
  }

  /** An expired descriptor, with the connection that was registered for it when its timer fired. */
  datatype Expiry = Expiry(fd: Fd, registered: Option<ConnId>)

  /** What the loop goes back to after closing a connection. */
  datatype Resume = ToBatch(batch: seq<Event>) | ToIdle(current: Expiry, rest: seq<Expiry>)

  datatype Loop =
    | LoopTop
    | Waiting(batch: seq<Event>)
    | Handling(batch: seq<Event>)
    | Accepting(batch: seq<Event>)
    | Inserting(fd: Fd, id: ConnId, batch: seq<Event>)
    | Adding(fd: Fd, batch: seq<Event>)
    | Beginning(fd: Fd, id: ConnId, dir: Dir, batch: seq<Event>)
    | Enqueueing(fd: Fd, dir: Dir, batch: seq<Event>)
    | LoopClosing(close: Close, resume: Resume)
    | Popping
    | Expiring(rest: seq<Expiry>)
    | Draining
    | Sweeping
    | Stopped

  // Two history variables, read by no guard: who answers for an open descriptor's events, and for
  // its being closed.

  datatype Place =
    | Accepted
    | Armed(dir: Dir)
    | Delivered(dir: Dir)
    | Dispatching(dir: Dir)
    | Claimed(dir: Dir)
    | Queued(dir: Dir)
    | Running(worker: WorkerId)
    | Leaving

  datatype Thread = LoopThread | WorkerThread(worker: WorkerId)

  datatype Owner = Pending | Tabled | ClosedBy(thread: Thread)

  /** What has passed over one accepted socket: the peer's bytes so far, how many the server has
      read, the bytes appended to the read buffer, the requests served, and the bytes written. */
  datatype History = History(input: Text, taken: nat, rx: Text, served: seq<Exchange>, tx: Text)

  const QUIET := History([], 0, [], [], [])

  type Sockets = map<Fd, ConnId>

  type Descriptors = map<ConnId, Fd>

  type Interests = map<Fd, Interest>

  type Places = map<Fd, Place>

  type Owners = map<Fd, Owner>

  type Crew = map<WorkerId, Worker>

  type Conns = map<ConnId, Conn>

  type Histories = map<ConnId, History>

  function ConnIn(conns: Conns, id: ConnId): Conn {
    if id in conns then conns[id] else FRESH
  }

  function HistIn(hist: Histories, id: ConnId): History {
    if id in hist then hist[id] else QUIET
  }

  datatype Config = Config(workers: nat, timeout: int, readSize: nat, maxEvents: nat, respond: Responder)

  datatype State = State(
    cfg: Config,
    now: int,
    running: bool,
    open: Sockets,
    interest: Interests,
    table: Sockets,
    timers: Deadlines,
    queue: seq<Task>,
    loop: Loop,
    workers: Crew,
    conns: Conns,
    hist: Histories,
    sock: Descriptors,          // the descriptor every accepted socket was given
    closes: map<ConnId, nat>,       // how often `close` was called to close that connection
    token: Places,
    owner: Owners)
  {
    function ConnAt(id: ConnId): Conn {
      ConnIn(conns, id)
    }

    /** The socket behind an open descriptor. */
    function Behind(fd: Fd): ConnId {
      if fd in open then open[fd] else 0
    }

    function ClosesAt(id: ConnId): nat {
      if id in closes then closes[id] else 0
    }

    function Entry(fd: Fd): ConnId {
      if fd in table then table[fd] else 0
    }

    function HistAt(id: ConnId): History {
      HistIn(hist, id)
    }
  }

  function Init(cfg: Config, now: int): State {
    State(cfg, now, true, map[], map[], map[], map[], [], LoopTop,
          AllIdle(cfg.workers), map[], map[], map[], map[], map[], map[])
  }

  function AllIdle(n: nat): (r: Crew)
    ensures forall w: WorkerId :: w in r <==> w < n
    ensures forall w :: w in r ==> r[w] == Idle
  {
    if n == 0 then map[] else AllIdle(n - 1)[n - 1 := Idle]
  }

  // ---------- small updates ----------

  function SetWorker(s: State, w: WorkerId, pc: Worker): State {
    s.(workers := s.workers[w := pc])
  }

  function SetConn(s: State, id: ConnId, c: Conn): State {
    s.(conns := s.conns[id := c])
  }

  function SetHist(s: State, id: ConnId, h: History): State {
    s.(hist := s.hist[id := h])
  }

  function SetPlace(s: State, fd: Fd, p: Place): State {
    s.(token := if fd in s.open then s.token[fd := p] else s.token)
  }

  function Refresh(s: State, fd: Fd): State {
    s.(timers := s.timers[fd := s.now + s.cfg.timeout])
  }

  /** A worker is done with a descriptor without re-arming it. */
  function Drop(s: State, w: WorkerId, fd: Fd): State {
    var s' := SetWorker(s, w, Idle);
    if fd in s.token && s.token[fd] == Running(w) then SetPlace(s', fd, Leaving) else s'
  }

  /** `epoller_.mod` by a worker that then is done: it arms the descriptor if it is registered. */
  function ArmAndLeave(s: State, w: WorkerId, fd: Fd, dir: Dir): State {
    if fd in s.interest then
      SetPlace(SetWorker(s, w, Idle).(interest := s.interest[fd := On(dir)]), fd, Armed(dir))
    else Drop(s, w, fd)
  }

  // ---------- the worker's steps ----------

  /** What the system answers to a worker's next step. */
  datatype Answer = Proceed | Got(n: nat) | EndOfFile | WouldBlock | Fails | Serve(world: World)

  /** A lookup in the connection table: on with `found` if the descriptor has a connection. */
  function Lookup(s: State, w: WorkerId, fd: Fd, found: Worker): State {
    if fd in s.table then SetWorker(s, w, found) else Drop(s, w, fd)
  }

  /** The next read: bytes taken off the socket behind the descriptor, end of file, or no data. */
  function StepRecv(s: State, w: WorkerId, fd: Fd, id: ConnId, a: Answer): State {
    match a
    case Got(n) =>
      var k := s.Behind(fd);
      var h := s.HistAt(k);
      SetWorker(SetHist(s, k, h.(taken := h.taken + n)), w, ReadAppend(fd, id, Slice(h.input, h.taken, n)))
    case WouldBlock => SetWorker(s, w, ReadRefresh(fd))
    case _ => SetWorker(s, w, Closing(Erase(fd)))
  }

  function Slice(t: Text, from: nat, n: nat): Text {
    if from + n <= |t| then t[from..from + n] else []
  }

  function StepAppend(s: State, w: WorkerId, fd: Fd, id: ConnId, data: Text): State {
    var c, h := s.ConnAt(id), s.HistAt(id);
    if c.closed then SetWorker(s, w, ReadRecv(fd, id))
    else SetWorker(SetHist(SetConn(s, id, AppendRead(c, data)), id, h.(rx := h.rx + data)), w, ReadRecv(fd, id))
  }

  /** `x` is what extracting from the read buffer gives. Without a complete request the connection
      is handed back to epoll, in the same critical section. */
  function StepExtract(s: State, w: WorkerId, fd: Fd, id: ConnId, x: Extraction): State {
    var c := s.ConnAt(id);
    if c.closed || x.Incomplete? then ArmAndLeave(SetConn(s, id, c.(processing := false)), w, fd, In)
    else SetWorker(SetConn(s, id, c.(readBuf := x.rest)), w, ProcessReply(fd, id, x.raw))
  }

  function StepReply(s: State, w: WorkerId, fd: Fd, id: ConnId, x: Exchange): State {
    var c, h := s.ConnAt(id), s.HistAt(id);
    if c.closed then Drop(s, w, fd)
    else
      SetWorker(SetHist(SetConn(s, id, Load(c, x.reply)), id, h.(served := h.served + [x])),
                w, Finish(fd, id, Out))
  }

  function StepFinish(s: State, w: WorkerId, fd: Fd, id: ConnId, dir: Dir): State {
    var c := s.ConnAt(id);
    if c.closed then SetWorker(s, w, Arm(fd, dir))
    else SetWorker(SetConn(s, id, c.(processing := false)), w, Arm(fd, dir))
  }

  function StepGather(s: State, w: WorkerId, fd: Fd, id: ConnId): State {
    var c := s.ConnAt(id);
    SetWorker(s, w, if c.closed || !HasWriteData(c) || !Cursor(c) then WriteClear(fd, id)
                    else WriteSend(fd, id, Gather(c)))
  }

  /** The next `writev`: the socket behind the descriptor takes some of the gathered bytes, or none. */
  function StepSend(s: State, w: WorkerId, fd: Fd, id: ConnId, iov: seq<Text>, a: Answer): State {
    match a
    case Got(n) =>
      var k := s.Behind(fd);
      var h := s.HistAt(k);
      SetWorker(SetHist(s, k, h.(tx := h.tx + Slice(Flat(iov), 0, n))), w, WriteConsume(fd, id, n))
    case WouldBlock => SetWorker(s, w, Finish(fd, id, Out))
    case _ => SetWorker(s, w, Closing(Erase(fd)))
  }

  function StepConsume(s: State, w: WorkerId, fd: Fd, id: ConnId, n: nat): State {
    var c := s.ConnAt(id);
    SetWorker(SetConn(s, id, if Cursor(c) then Consume(c, n) else c), w, WriteGather(fd, id))
  }

  function StepClear(s: State, w: WorkerId, fd: Fd, id: ConnId): State {
    var c := s.ConnAt(id);
    SetWorker(SetConn(s, id, ClearWrite(c).(writeReady := false)), w,
              if c.closeAfterWrite then Closing(Erase(fd)) else WriteRefresh(fd, id, c.readBuf != []))
  }

  /** What the kernel does at `close`: nothing if the descriptor is not open. */
  function KernelClose(s: State, fd: Fd): State {
    s.(open := s.open - {fd}, interest := s.interest - {fd}, token := s.token - {fd}, owner := s.owner - {fd})
  }

  /** The shared part of a step of `closeConnection`: tables, flags and the kernel, not the thread. */
  function CloseEffect(s: State, t: Thread, c: Close): State {
    match c
    case Erase(fd) =>
      if fd in s.table then
        s.(table := s.table - {fd}, timers := Without(s.timers, [fd]),
           owner := if fd in s.open then s.owner[fd := ClosedBy(t)] else s.owner)
      else s
    case Mark(fd, id) => SetConn(s, id, s.ConnAt(id).(closed := true))
    case Unregister(fd, _) => s.(interest := s.interest - {fd})
    case Shut(fd, id) => KernelClose(s.(closes := s.closes[id := s.ClosesAt(id) + 1]), fd)
  }

  /** Where `closeConnection` goes on; `None` when it returns. */
  function CloseNext(s: State, c: Close): Option<Close> {
    match c
    case Erase(fd) => if fd in s.table then Some(Mark(fd, s.table[fd])) else None
    case Mark(fd, id) => Some(Unregister(fd, id))
    case Unregister(fd, id) => Some(Shut(fd, id))
    case Shut(_, _) => None
  }

  function StepClosing(s: State, w: WorkerId, c: Close): State {
    var s' := CloseEffect(s, WorkerThread(w), c);
    match CloseNext(s, c)
    case Some(c') => SetWorker(s', w, Closing(c'))
    case None => Drop(s', w, c.fd)
  }

  /** The front of the queue goes to an idle worker. */
  function Dequeue(s: State, w: WorkerId, pc: Worker): State
    requires s.queue != []
  {
    SetWorker(s, w, pc).(queue := s.queue[1..])
  }

  function StepTake(s: State, w: WorkerId, t: Task): State
    requires s.queue != []
  {
    SetPlace(Dequeue(s, w, if t.dir == In then ReadGet(t.fd) else WriteGet(t.fd)), t.fd, Running(w))
  }

  predicate WorkerEnabled(s: State, w: WorkerId, a: Answer) {
    && w in s.workers
    && match s.workers[w]
       case Idle => s.queue != [] && a == Proceed
       case ReadRecv(fd, _) =>
         if a.Got? then fd in s.open && 0 < a.n <= s.cfg.readSize &&
                        s.HistAt(s.open[fd]).taken + a.n <= |s.HistAt(s.open[fd]).input|
         else a == Fails || (fd in s.open && (a == EndOfFile || a == WouldBlock))
       case WriteSend(fd, _, iov) =>
         if a.Got? then fd in s.open && 0 < a.n <= |Flat(iov)|
         else a == Fails || (fd in s.open && a == WouldBlock)
       case ProcessReply(_, _, _) => a.Serve? && '\r' !in a.world.mime
       case _ => a == Proceed
  }

  function WorkerStep(s: State, w: WorkerId, a: Answer): State
    requires WorkerEnabled(s, w, a)
  {
    match s.workers[w]
    case Idle => StepTake(s, w, s.queue[0])
    case ReadGet(fd) => Lookup(s, w, fd, ReadRecv(fd, s.Entry(fd)))
    case ReadRecv(fd, id) => StepRecv(s, w, fd, id, a)
    case ReadAppend(fd, id, data) => StepAppend(s, w, fd, id, data)
    case ReadRefresh(fd) => SetWorker(Refresh(s, fd), w, ProcessGet(fd))
    case ProcessGet(fd) => Lookup(s, w, fd, ProcessExtract(fd, s.Entry(fd)))
    case ProcessExtract(fd, id) => StepExtract(s, w, fd, id, Extract(s.ConnAt(id).readBuf))
    case ProcessReply(fd, id, raw) => StepReply(s, w, fd, id, Exchange(raw, a.world, s.cfg.respond(raw, a.world)))
    case WriteGet(fd) => Lookup(s, w, fd, WriteGather(fd, s.Entry(fd)))
    case WriteGather(fd, id) => StepGather(s, w, fd, id)
    case WriteSend(fd, id, iov) => StepSend(s, w, fd, id, iov, a)
    case WriteConsume(fd, id, n) => StepConsume(s, w, fd, id, n)
    case WriteClear(fd, id) => StepClear(s, w, fd, id)
    case WriteRefresh(fd, id, pending) =>
      SetWorker(Refresh(s, fd), w, if pending then ProcessGet(fd) else Finish(fd, id, In))
    case Finish(fd, id, dir) => StepFinish(s, w, fd, id, dir)
    case Arm(fd, dir) => ArmAndLeave(s, w, fd, dir)
    case Closing(c) => StepClosing(s, w, c)
  }

  // ---------- the loop's steps ----------

  /** What the system answers to the loop's next step. */
  datatype LoopAnswer =
    | Onward
    | Collect(event: Event)
    | WaitDone
    | WaitFails
    | WaitInterrupted
    | AcceptFd(fd: Fd, id: ConnId)
    | AcceptFails
    | Expire(fds: seq<Fd>)

  function StepCollect(s: State, e: Event): State
    requires s.loop.Waiting?
  {
    var s' := s.(loop := Waiting(s.loop.batch + [e]));
    if e.Listen? || e.fd !in s.interest || s.interest[e.fd] == Off then s'
    else SetPlace(s'.(interest := s.interest[e.fd := Off]), e.fd, Delivered(s.interest[e.fd].dir))
  }

  /** Where the loop goes on with an event; a dispatch starts with the table lookup. */
  function TakeUp(table: Sockets, e: Event, rest: seq<Event>): Loop {
    match e
    case Listen => Accepting(rest)
    case Hangup(fd) => LoopClosing(Erase(fd), ToBatch(rest))
    case Ready(fd, dir) => if fd in table then Beginning(fd, table[fd], dir, rest) else Handling(rest)
  }

  function TakenPlace(table: Sockets, e: Event): Place {
    if e.Ready? && e.fd in table then Dispatching(e.dir) else Leaving
  }

  /** Taking the next event of the batch. */
  function StepHandle(s: State): State
    requires s.loop.Handling? && s.loop.batch != []
  {
    var e := s.loop.batch[0];
    var s' := s.(loop := TakeUp(s.table, e, s.loop.batch[1..]));
    if e.Listen? then s' else SetPlace(s', e.fd, TakenPlace(s.table, e))
  }

  /** The kernel hands out a free descriptor for a new socket. */
  function StepAccept(s: State, fd: Fd, id: ConnId): State
    requires s.loop.Accepting?
  {
    s.(loop := Inserting(fd, id, s.loop.batch),
       open := s.open[fd := id], sock := s.sock[id := fd], closes := s.closes[id := 0],
       hist := s.hist[id := QUIET],
       token := s.token[fd := Accepted], owner := s.owner[fd := Pending])
  }

  function StepInsert(s: State): State
    requires s.loop.Inserting?
  {
    var fd, id := s.loop.fd, s.loop.id;
    Refresh(SetConn(s, id, FRESH), fd)
    .(table := s.table[fd := id], loop := Adding(fd, s.loop.batch),
      owner := if fd in s.open then s.owner[fd := Tabled] else s.owner)
  }

  function StepAdd(s: State): State
    requires s.loop.Adding?
  {
    var fd := s.loop.fd;
    var s' := s.(loop := Accepting(s.loop.batch));
    if fd in s.open then SetPlace(s'.(interest := s.interest[fd := On(In)]), fd, Armed(In)) else s'
  }

  /** `beginProcessing`: the event is dropped if the connection is closed or already processing. */
  function StepBegin(s: State): State
    requires s.loop.Beginning?
  {
    var c := s.ConnAt(s.loop.id);
    var free := !c.closed && !c.processing;
    SetPlace(s.(conns := if free then s.conns[s.loop.id := c.(processing := true)] else s.conns,
                loop := if free then Enqueueing(s.loop.fd, s.loop.dir, s.loop.batch) else Handling(s.loop.batch)),
             s.loop.fd, if free then Claimed(s.loop.dir) else Leaving)
  }

  function StepEnqueue(s: State): State
    requires s.loop.Enqueueing?
  {
    SetPlace(s.(queue := s.queue + [Task(s.loop.fd, s.loop.dir)], loop := Handling(s.loop.batch)),
             s.loop.fd, Queued(s.loop.dir))
  }

  function Resumed(r: Resume): Loop {
    match r
    case ToBatch(batch) => Handling(batch)
    case ToIdle(_, rest) => Expiring(rest)
  }

  function StepLoopClosing(s: State): State
    requires s.loop.LoopClosing?
  {
    var next := CloseNext(s, s.loop.close);
    CloseEffect(s, LoopThread, s.loop.close)
    .(loop := if next.Some? then LoopClosing(next.value, s.loop.resume) else Resumed(s.loop.resume))
  }

  function Registered(s: State, fds: seq<Fd>): (r: seq<Expiry>)
    ensures |r| == |fds|
    ensures forall i :: 0 <= i < |fds| ==>
              r[i] == Expiry(fds[i], if fds[i] in s.table then Some(s.table[fds[i]]) else None)
  {
    seq(|fds|, i requires 0 <= i < |fds| => Expiry(fds[i], if fds[i] in s.table then Some(s.table[fds[i]]) else None))
  }

  function StepPop(s: State, fds: seq<Fd>): State {
    s.(timers := Without(s.timers, fds), loop := Expiring(Registered(s, fds)))
  }

  /** Marking every registered connection closed. */
  function SweptConns(conns: Conns, table: Sockets): Conns {
    map id | id in conns ::
      if exists fd :: fd in table && table[fd] == id then conns[id].(closed := true) else conns[id]
  }

  /** Calling `close` once for every entry of the table, on behalf of its connection. */
  function SweptCloses(closes: map<ConnId, nat>, table: Sockets): map<ConnId, nat> {
    map id | id in closes :: closes[id] + |Entries(table, id)|
  }

  function Entries(table: Sockets, id: ConnId): set<Fd> {
    set fd | fd in table && table[fd] == id
  }

  /** The last phase of `stop`: every registered connection is marked closed and its descriptor
      closed, under the table's mutex. */
  function StepSweep(s: State): State {
    s.(loop := Stopped, table := map[],
       conns := SweptConns(s.conns, s.table), closes := SweptCloses(s.closes, s.table),
       open := s.open - s.table.Keys, interest := s.interest - s.table.Keys,
       token := s.token - s.table.Keys, owner := s.owner - s.table.Keys)
  }

  ghost predicate LoopEnabled(s: State, a: LoopAnswer) {
    match s.loop
    case Waiting(batch) =>
      (match a
       case Collect(e) =>
         && |batch| < s.cfg.maxEvents
         && (match e
             case Listen => Listen !in batch
             case Ready(fd, dir) => fd in s.interest && s.interest[fd] == On(dir)
             case Hangup(fd) => fd in s.interest && s.interest[fd] != Off)
       case WaitDone => true
       case WaitFails => batch == []
       case WaitInterrupted => batch == []
       case _ => false)
    case Accepting(_) => a == AcceptFails || (a.AcceptFd? && a.fd !in s.open && a.id !in s.sock)
    case Popping => a.Expire? && ExpiredList(s.timers, s.now, a.fds)
    case Draining => a == Onward && s.queue == [] && forall w :: w in s.workers ==> s.workers[w] == Idle
    case Stopped => false
    case _ => a == Onward
  }

  function LoopStep(s: State, a: LoopAnswer): State {
    match s.loop
    case LoopTop => s.(loop := if s.running then Waiting([]) else Draining)
    case Waiting(batch) =>
      (match a
       case Collect(e) => StepCollect(s, e)
       case WaitDone => s.(loop := Handling(batch))
       case WaitFails => s.(loop := Draining, running := false)
       case _ => s.(loop := LoopTop))
    case Handling(batch) => if batch == [] then s.(loop := Popping) else StepHandle(s)
    case Accepting(batch) => if a.AcceptFd? then StepAccept(s, a.fd, a.id) else s.(loop := Handling(batch))
    case Inserting(_, _, _) => StepInsert(s)
    case Adding(_, _) => StepAdd(s)
    case Beginning(_, _, _, _) => StepBegin(s)
    case Enqueueing(_, _, _) => StepEnqueue(s)
    case LoopClosing(_, _) => StepLoopClosing(s)
    case Popping => if a.Expire? then StepPop(s, a.fds) else s
    case Expiring(rest) =>
      if rest == [] then s.(loop := LoopTop)
      else s.(loop := LoopClosing(Erase(rest[0].fd), ToIdle(rest[0], rest[1..])))
    case Draining => s.(loop := Sweeping)
    case Sweeping => StepSweep(s)
    case Stopped => s
  }

  // ---------- runs ----------

  datatype Action =
    | PeerSends(id: ConnId, data: Text)
    | Tick(ticks: nat)
    | RequestStop
    | LoopActs(loopAnswer: LoopAnswer)
    | WorkerActs(worker: WorkerId, answer: Answer)

  ghost predicate Enabled(s: State, a: Action) {
    match a
    case PeerSends(id, _) => id in s.hist
    case Tick(_) => true
    case RequestStop => true
    case LoopActs(la) => LoopEnabled(s, la)
    case WorkerActs(w, wa) => WorkerEnabled(s, w, wa)
  }

  ghost function Step(s: State, a: Action): State
    requires Enabled(s, a)
  {
    match a
    case PeerSends(id, data) => SetHist(s, id, s.hist[id].(input := s.hist[id].input + data))
    case Tick(ticks) => s.(now := s.now + ticks)
    case RequestStop => s.(running := false)
    case LoopActs(la) => LoopStep(s, la)
    case WorkerActs(w, wa) => WorkerStep(s, w, wa)
  }

  /** No queued or running task still names the descriptor. */
  ghost predicate Unnamed(s: State, fd: Fd) {
    && (forall i :: 0 <= i < |s.queue| ==> s.queue[i].fd != fd)
    && (forall w :: w in s.workers ==> s.workers[w].Names() != Some(fd))
  }

  /** The one hypothesis some results need: `accept` returns no descriptor a task still names. */
  ghost predicate FdReuseOk(s: State, a: Action) {
    a.LoopActs? && s.loop.Accepting? && a.loopAnswer.AcceptFd? ==> Unnamed(s, a.loopAnswer.fd)
  }

  /** `acts` is a run from `s` to `s'`; `careful` runs meet the hypothesis at every accept. */
  ghost predicate Run(s: State, acts: seq<Action>, s': State, careful: bool) {
    if acts == [] then s' == s
    else
      var last := acts[|acts| - 1];
      exists m: State :: Run(s, acts[..|acts| - 1], m, careful) && Enabled(m, last) && s' == Step(m, last) &&
                         (careful ==> FdReuseOk(m, last))
  }
}
