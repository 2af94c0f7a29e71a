/** Stopping comes to an end. In every run, every step of a worker lowers a pair of numbers: how many
    answers can still be loaded, and how much there is to do until the next is. In careful runs it lowers
    the second number alone, which bounds the steps that are left. */
module ServerShutdown {
  import opened Bytes
  import opened Framing
  import opened Connections
  import opened Service
  import opened Timers
  import opened Server
  import opened ServerTable
  import opened ServerToken
  import opened ServerRuns
  import opened ServerGrowth

  // ---------- what is left to do ----------

  function Minus(a: nat, b: nat): nat {
    if a > b then a - b else 0
  }

  function AtLeastOne(n: nat): nat {
    if n > 0 then n else 1
  }

  function UnreadOf(h: History): nat {
    Minus(|h.input|, h.taken)
  }

  function LeftOf(c: Conn): nat {
    if Cursor(c) then |Unsent(c)| else 0
  }

  /** Bytes waiting in the kernel for a descriptor, and bytes to send through it. */
  function Unread(open: Sockets, hist: Histories, fd: Fd): nat {
    if fd in open then UnreadOf(HistIn(hist, open[fd])) else 0
  }

  function LeftAt(table: Sockets, conns: Conns, fd: Fd): nat {
    if fd in table then LeftOf(ConnIn(conns, table[fd])) else 0
  }

  /** An upper bound on the steps a worker can still take for its descriptor. */
  function BlockWork(open: Sockets, table: Sockets, conns: Conns, hist: Histories, pc: Worker): nat {
    match pc
    case Idle => 0
    case Closing(Shut(_, _)) => 1
    case Closing(Unregister(_, _)) => 2
    case Closing(Mark(_, _)) => 3
    case Closing(Erase(_)) => 4
    case Arm(_, _) => 5
    case Finish(_, _, _) => 6
    case ProcessReply(_, _, _) => 7
    case ProcessExtract(_, _) => 8
    case ProcessGet(_) => 9
    case ReadRefresh(_) => 10
    case WriteRefresh(_, _, _) => 10
    case WriteClear(_, _) => 11
    case WriteSend(_, id, _) => 11 + 4 * AtLeastOne(LeftOf(ConnIn(conns, id)))
    case WriteGather(_, id) => 12 + 4 * LeftOf(ConnIn(conns, id))
    case WriteConsume(_, id, n) => 13 + 4 * Minus(LeftOf(ConnIn(conns, id)), n)
    case WriteGet(fd) => 13 + 4 * LeftAt(table, conns, fd)
    case ReadRecv(fd, _) => 11 + 2 * Unread(open, hist, fd)
    case ReadAppend(fd, _, _) => 12 + 2 * Unread(open, hist, fd)
    case ReadGet(fd) => 12 + 2 * Unread(open, hist, fd)
  }

  function TaskWork(open: Sockets, table: Sockets, conns: Conns, hist: Histories, t: Task): nat {
    if t.dir == In then 13 + 2 * Unread(open, hist, t.fd) else 14 + 4 * LeftAt(table, conns, t.fd)
  }

  function BlockAt(s: State, pc: Worker): nat {
    BlockWork(s.open, s.table, s.conns, s.hist, pc)
  }

  function TaskAt(s: State, t: Task): nat {
    TaskWork(s.open, s.table, s.conns, s.hist, t)
  }

  function CrewWork(s: State, n: nat): nat {
    if n == 0 then 0
    else CrewWork(s, n - 1) + if n - 1 in s.workers then BlockAt(s, s.workers[n - 1]) else 0
  }

  function QueueWork(s: State, queue: seq<Task>): nat {
    if queue == [] then 0 else TaskAt(s, queue[0]) + QueueWork(s, queue[1..])
  }

  /** All the workers and the queue still have to do. */
  function Work(s: State): nat {
    CrewWork(s, s.cfg.workers) + QueueWork(s, s.queue)
  }

  /** Whether the block can still be followed by the loading of an answer. */
  predicate MayLoad(pc: Worker) {
    !pc.Idle? && !pc.Finish? && !pc.Arm? && !pc.Closing?
  }

  function CrewLoads(workers: Crew, n: nat): nat {
    if n == 0 then 0
    else CrewLoads(workers, n - 1) + if n - 1 in workers && MayLoad(workers[n - 1]) then 1 else 0
  }

  /** At most how many more answers the workers will load: one for each task, queued or running. */
  function Loads(s: State): nat {
    |s.queue| + CrewLoads(s.workers, s.cfg.workers)
  }

  /** Fewer answers can still be loaded, or as many, and there is less to do. */
  ghost predicate Closer(s: State, s': State) {
    Loads(s') < Loads(s) || (Loads(s') == Loads(s) && Work(s') < Work(s))
  }

  // ---------- one worker's step ----------

  /** Everybody else has no more to do than before, and the worker's own step lowers the sum: it goes
      on to a lower block, or takes the front task for less than that stood for. */
  ghost predicate Lighter(s: State, s': State, w: WorkerId) {
    && w in s.workers && s'.workers.Keys == s.workers.Keys
    && s'.cfg == s.cfg && s'.loop == s.loop
    && (forall u :: u in s.workers && u != w ==>
          s'.workers[u] == s.workers[u] && BlockAt(s', s.workers[u]) <= BlockAt(s, s.workers[u]))
    && (forall i :: 0 <= i < |s'.queue| ==> TaskAt(s', s'.queue[i]) <= TaskAt(s, s'.queue[i]))
    && (if s'.queue == s.queue then BlockAt(s', s'.workers[w]) < BlockAt(s, s.workers[w])
        else s.queue != [] && s'.queue == s.queue[1..] && BlockAt(s', s'.workers[w]) < TaskAt(s, s.queue[0]))
  }

  lemma {:induction false} CrewLowers(s: State, s': State, w: WorkerId, n: nat)
    requires w in s.workers && s'.workers.Keys == s.workers.Keys
    requires forall u :: u in s.workers && u != w ==>
               s'.workers[u] == s.workers[u] && BlockAt(s', s.workers[u]) <= BlockAt(s, s.workers[u])
    ensures CrewWork(s', n) + (if w < n then BlockAt(s, s.workers[w]) else 0)
         <= CrewWork(s, n) + (if w < n then BlockAt(s', s'.workers[w]) else 0)
  {
    hide BlockAt;
    if n > 0 {
      CrewLowers(s, s', w, n - 1);
    }
  }

  lemma {:induction false} QueueLowers(s: State, s': State, queue: seq<Task>)
    requires forall i :: 0 <= i < |queue| ==> TaskAt(s', queue[i]) <= TaskAt(s, queue[i])
    ensures QueueWork(s', queue) <= QueueWork(s, queue)
  {
    hide TaskAt;
    if queue != [] {
      QueueLowers(s, s', queue[1..]);
    }
  }

  lemma LighterWorks(s: State, s': State, w: WorkerId)
    requires Lighter(s, s', w) && w < s.cfg.workers
    ensures Work(s') < Work(s) && s'.loop == s.loop
  {
    hide BlockAt, TaskAt;
    CrewLowers(s, s', w, s.cfg.workers);
    QueueLowers(s, s', s'.queue);
  }

  lemma {:induction false} CrewLoadsMove(workers: Crew, workers': Crew, w: WorkerId, n: nat)
    requires w in workers && workers'.Keys == workers.Keys
    requires forall u :: u in workers && u != w ==> workers'[u] == workers[u]
    ensures CrewLoads(workers', n) + (if w < n && MayLoad(workers[w]) then 1 else 0)
         == CrewLoads(workers, n) + (if w < n && MayLoad(workers'[w]) then 1 else 0)
  {
    hide MayLoad;
    if n > 0 {
      CrewLoadsMove(workers, workers', w, n - 1);
    }
  }

  lemma LoadRank(s: State, pc: Worker)
    ensures MayLoad(pc) <==> BlockAt(s, pc) >= 7
  {
  }

  lemma LighterCloser(s: State, s': State, w: WorkerId)
    requires Lighter(s, s', w) && w < s.cfg.workers
    ensures Closer(s, s')
  {
    hide BlockAt, TaskAt, MayLoad, CrewLoads, Work;
    LighterWorks(s, s', w);
    CrewLoadsMove(s.workers, s'.workers, w, s.cfg.workers);
    LoadRank(s, s.workers[w]);
    LoadRank(s', s'.workers[w]);
  }

  /** No descriptor has more to read or to send than before, and no connection more to send. */
  ghost predicate Eases(s: State, s': State) {
    && (forall fd :: Unread(s'.open, s'.hist, fd) <= Unread(s.open, s.hist, fd))
    && (forall fd :: LeftAt(s'.table, s'.conns, fd) <= LeftAt(s.table, s.conns, fd))
    && (forall id :: LeftOf(ConnIn(s'.conns, id)) <= LeftOf(ConnIn(s.conns, id)))
  }

  lemma EasesFrom(s: State, s': State)
    requires forall fd :: fd in s'.open ==> fd in s.open && s'.open[fd] == s.open[fd]
    requires forall fd :: fd in s'.table ==> fd in s.table && s'.table[fd] == s.table[fd]
    requires forall id :: UnreadOf(HistIn(s'.hist, id)) <= UnreadOf(HistIn(s.hist, id))
    requires forall id :: LeftOf(ConnIn(s'.conns, id)) <= LeftOf(ConnIn(s.conns, id))
    ensures Eases(s, s')
  {
    hide UnreadOf, LeftOf, ConnIn, HistIn;
  }

  lemma BlockEases(s: State, s': State, pc: Worker)
    requires Eases(s, s')
    ensures BlockAt(s', pc) <= BlockAt(s, pc)
  {
    hide Unread, LeftAt, LeftOf, ConnIn;
  }

  lemma TaskEases(s: State, s': State, t: Task)
    requires Eases(s, s')
    ensures TaskAt(s', t) <= TaskAt(s, t)
  {
    hide Unread, LeftAt, LeftOf, ConnIn;
  }

  /** A worker goes on to a lower block, and nobody has more to do. */
  lemma LighterBy(s: State, s': State, w: WorkerId, pc: Worker)
    requires w in s.workers && s'.workers == s.workers[w := pc] && s'.queue == s.queue
    requires s'.cfg == s.cfg && s'.loop == s.loop
    requires Eases(s, s') && BlockAt(s', pc) < BlockAt(s, s.workers[w])
    ensures Lighter(s, s', w)
  {
    hide Eases, BlockAt, TaskAt;
    forall u | u in s.workers ensures BlockAt(s', s.workers[u]) <= BlockAt(s, s.workers[u]) {
      BlockEases(s, s', s.workers[u]);
    }
    forall i | 0 <= i < |s.queue| ensures TaskAt(s', s.queue[i]) <= TaskAt(s, s.queue[i]) {
      TaskEases(s, s', s.queue[i]);
    }
  }

  lemma SomethingLeft(s: State, pc: Worker)
    ensures pc != Idle ==> BlockAt(s, pc) > 0
    ensures BlockAt(s, Idle) == 0
  {
  }

  /** The worker only moves: descriptors, connections and histories stay. */
  lemma MoveLighter(s: State, s': State, w: WorkerId, pc: Worker)
    requires w in s.workers && s'.workers == s.workers[w := pc] && s'.queue == s.queue
    requires s'.cfg == s.cfg && s'.loop == s.loop
    requires s'.open == s.open && s'.table == s.table && s'.conns == s.conns && s'.hist == s.hist
    requires BlockAt(s, pc) < BlockAt(s, s.workers[w])
    ensures Lighter(s, s', w)
  {
    hide Lighter, BlockWork;
    EasesFrom(s, s');
    LighterBy(s, s', w, pc);
  }

  lemma PcLighter(s: State, w: WorkerId, pc: Worker)
    requires w in s.workers && BlockAt(s, pc) < BlockAt(s, s.workers[w])
    ensures Lighter(s, SetWorker(s, w, pc), w)
  {
    hide Lighter, BlockWork;
    MoveLighter(s, SetWorker(s, w, pc), w, pc);
  }

  lemma DropLighter(s: State, w: WorkerId, fd: Fd)
    requires w in s.workers && s.workers[w] != Idle
    ensures Lighter(s, Drop(s, w, fd), w)
  {
    hide Lighter, SetPlace, SetWorker, BlockAt;
    IdleLighter(s, w, fd, Leaving, s.interest);
    NoInterest(s, w, fd);
  }

  lemma IdleLighter(s: State, w: WorkerId, fd: Fd, p: Place, interest: Interests)
    requires w in s.workers && s.workers[w] != Idle
    ensures Lighter(s, SetPlace(SetWorker(s, w, Idle).(interest := interest), fd, p), w)
    ensures Lighter(s, SetWorker(s, w, Idle), w)
  {
    hide Lighter, BlockAt;
    SomethingLeft(s, s.workers[w]);
    MoveLighter(s, SetPlace(SetWorker(s, w, Idle).(interest := interest), fd, p), w, Idle);
    PcLighter(s, w, Idle);
  }

  lemma NoInterest(s: State, w: WorkerId, fd: Fd)
    ensures SetWorker(s, w, Idle).(interest := s.interest) == SetWorker(s, w, Idle)
  {
  }

  lemma LeaveLighter(s: State, w: WorkerId, fd: Fd, dir: Dir)
    requires w in s.workers && s.workers[w] != Idle
    ensures Lighter(s, ArmAndLeave(s, w, fd, dir), w)
  {
    hide Lighter, SetPlace, SetWorker, BlockAt, Drop;
    if fd in s.interest {
      IdleLighter(s, w, fd, Armed(dir), s.interest[fd := On(dir)]);
    } else {
      DropLighter(s, w, fd);
    }
  }

  lemma LookupLighter(s: State, w: WorkerId, fd: Fd, found: Worker)
    requires w in s.workers && s.workers[w] != Idle && (fd in s.table ==> BlockAt(s, found) < BlockAt(s, s.workers[w]))
    ensures Lighter(s, Lookup(s, w, fd, found), w)
  {
    hide Lighter, BlockAt, Drop;
    if fd in s.table {
      PcLighter(s, w, found);
    } else {
      DropLighter(s, w, fd);
    }
  }

  /** The worker moves on and changes the history of a socket, without giving it more unread. */
  lemma HistLighter(s: State, w: WorkerId, k: ConnId, h: History, pc: Worker)
    requires w in s.workers && UnreadOf(h) <= UnreadOf(s.HistAt(k))
    requires BlockWork(s.open, s.table, s.conns, s.hist[k := h], pc) < BlockAt(s, s.workers[w])
    ensures Lighter(s, SetWorker(SetHist(s, k, h), w, pc), w)
  {
    hide Lighter, BlockWork, UnreadOf;
    var s' := SetWorker(SetHist(s, k, h), w, pc);
    EasesFrom(s, s');
    LighterBy(s, s', w, pc);
  }

  lemma RecvLighter(s: State, w: WorkerId, fd: Fd, id: ConnId, a: Answer)
    requires w in s.workers && s.workers[w] == ReadRecv(fd, id) && WorkerEnabled(s, w, a)
    ensures Lighter(s, StepRecv(s, w, fd, id, a), w)
  {
    hide Lighter, Slice, SetWorker, SetHist;
    match a
    case Got(n) =>
      var k := s.open[fd];
      var h := s.HistAt(k);
      HistLighter(s, w, k, h.(taken := h.taken + n), ReadAppend(fd, id, Slice(h.input, h.taken, n)));
    case WouldBlock => PcLighter(s, w, ReadRefresh(fd));
    case _ => PcLighter(s, w, Closing(Erase(fd)));
  }

  /** The worker moves on and changes the connection it holds, without giving it more to send. */
  lemma ConnLighter(s: State, w: WorkerId, id: ConnId, c: Conn, pc: Worker)
    requires w in s.workers && LeftOf(c) <= LeftOf(s.ConnAt(id))
    requires BlockWork(s.open, s.table, s.conns[id := c], s.hist, pc) < BlockAt(s, s.workers[w])
    ensures Lighter(s, SetWorker(SetConn(s, id, c), w, pc), w)
  {
    hide Lighter, BlockWork, LeftOf;
    var s' := SetWorker(SetConn(s, id, c), w, pc);
    EasesFrom(s, s');
    LighterBy(s, s', w, pc);
  }

  lemma SameLeft(c: Conn, data: Text, processing: bool, readBuf: Text, closed: bool)
    ensures LeftOf(AppendRead(c, data)) == LeftOf(c) && LeftOf(c.(processing := processing)) == LeftOf(c)
    ensures LeftOf(c.(readBuf := readBuf)) == LeftOf(c) && LeftOf(c.(closed := closed)) == LeftOf(c)
  {
  }

  lemma AppendLighter(s: State, w: WorkerId, fd: Fd, id: ConnId, data: Text)
    requires w in s.workers && s.workers[w] == ReadAppend(fd, id, data)
    ensures Lighter(s, StepAppend(s, w, fd, id, data), w)
  {
    hide Lighter, LeftOf, AppendRead;
    var c, h := s.ConnAt(id), s.HistAt(id);
    var pc := ReadRecv(fd, id);
    if c.closed {
      PcLighter(s, w, pc);
    } else {
      SameLeft(c, data, false, [], false);
      var s' := SetWorker(SetHist(SetConn(s, id, AppendRead(c, data)), id, h.(rx := h.rx + data)), w, pc);
      EasesFrom(s, s');
      LighterBy(s, s', w, pc);
    }
  }

  /** Handing the connection back changes one of its flags and leaves the worker idle. */
  lemma LeaveConnLighter(s: State, w: WorkerId, fd: Fd, dir: Dir, id: ConnId, c: Conn)
    requires w in s.workers && s.workers[w] != Idle && LeftOf(c) <= LeftOf(s.ConnAt(id))
    ensures Lighter(s, ArmAndLeave(SetConn(s, id, c), w, fd, dir), w)
  {
    hide Lighter, LeftOf, BlockWork, SetPlace, SetWorker, Drop;
    var t := SetConn(s, id, c);
    IdleConnLighter(s, w, fd, Leaving, s.interest, id, c);
    NoInterest(t, w, fd);
    if fd in s.interest {
      IdleConnLighter(s, w, fd, Armed(dir), s.interest[fd := On(dir)], id, c);
    } else {
      DropConnLighter(s, w, fd, id, c);
    }
  }

  lemma DropConnLighter(s: State, w: WorkerId, fd: Fd, id: ConnId, c: Conn)
    requires w in s.workers && s.workers[w] != Idle && LeftOf(c) <= LeftOf(s.ConnAt(id))
    ensures Lighter(s, Drop(SetConn(s, id, c), w, fd), w)
  {
    hide Lighter, LeftOf, BlockWork, SetPlace, SetWorker;
    IdleConnLighter(s, w, fd, Leaving, s.interest, id, c);
    NoInterest(SetConn(s, id, c), w, fd);
  }

  lemma IdleConnLighter(s: State, w: WorkerId, fd: Fd, p: Place, interest: Interests, id: ConnId, c: Conn)
    requires w in s.workers && s.workers[w] != Idle && LeftOf(c) <= LeftOf(s.ConnAt(id))
    ensures Lighter(s, SetPlace(SetWorker(SetConn(s, id, c), w, Idle).(interest := interest), fd, p), w)
    ensures Lighter(s, SetWorker(SetConn(s, id, c), w, Idle), w)
  {
    hide Lighter, LeftOf;
    SomethingLeft(s, s.workers[w]);
    var t := SetConn(s, id, c);
    EasesFrom(s, SetWorker(t, w, Idle));
    LighterBy(s, SetWorker(t, w, Idle), w, Idle);
    var p' := SetPlace(SetWorker(t, w, Idle).(interest := interest), fd, p);
    EasesFrom(s, p');
    LighterBy(s, p', w, Idle);
  }

  lemma ExtractLighter(s: State, w: WorkerId, fd: Fd, id: ConnId, x: Extraction)
    requires w in s.workers && s.workers[w] == ProcessExtract(fd, id)
    ensures Lighter(s, StepExtract(s, w, fd, id, x), w)
  {
    hide Lighter, LeftOf, ArmAndLeave;
    var c := s.ConnAt(id);
    if c.closed || x.Incomplete? {
      SameLeft(c, [], false, [], false);
      LeaveConnLighter(s, w, fd, In, id, c.(processing := false));
    } else {
      SameLeft(c, [], false, x.rest, false);
      ConnLighter(s, w, id, c.(readBuf := x.rest), ProcessReply(fd, id, x.raw));
    }
  }

  lemma FinishLighter(s: State, w: WorkerId, fd: Fd, id: ConnId, dir: Dir)
    requires w in s.workers && s.workers[w] == Finish(fd, id, dir)
    ensures Lighter(s, StepFinish(s, w, fd, id, dir), w)
  {
    hide Lighter, LeftOf;
    var c := s.ConnAt(id);
    if c.closed {
      PcLighter(s, w, Arm(fd, dir));
    } else {
      SameLeft(c, [], false, [], false);
      ConnLighter(s, w, id, c.(processing := false), Arm(fd, dir));
    }
  }

  lemma DataIsLeft(c: Conn)
    ensures Cursor(c) && HasWriteData(c) ==> LeftOf(c) > 0
  {
  }

  lemma GatherLighter(s: State, w: WorkerId, fd: Fd, id: ConnId)
    requires w in s.workers && s.workers[w] == WriteGather(fd, id)
    ensures Lighter(s, StepGather(s, w, fd, id), w)
  {
    hide Lighter, LeftOf, Gather, HasWriteData, Cursor;
    var c := s.ConnAt(id);
    var pc := if c.closed || !HasWriteData(c) || !Cursor(c) then WriteClear(fd, id) else WriteSend(fd, id, Gather(c));
    DataIsLeft(c);
    PcLighter(s, w, pc);
  }

  /** `n` bytes of what the connection has to send are taken. */
  lemma SendLighter(s: State, w: WorkerId, fd: Fd, id: ConnId, iov: seq<Text>, a: Answer)
    requires w in s.workers && s.workers[w] == WriteSend(fd, id, iov)
    requires a.Got? ==> 0 < a.n
    ensures Lighter(s, StepSend(s, w, fd, id, iov, a), w)
  {
    hide Lighter, LeftOf, Slice, Flat, SetWorker, SetHist;
    match a
    case Got(n) =>
      var h := s.HistAt(s.Behind(fd));
      HistLighter(s, w, s.Behind(fd), h.(tx := h.tx + Slice(Flat(iov), 0, n)), WriteConsume(fd, id, n));
    case WouldBlock => PcLighter(s, w, Finish(fd, id, Out));
    case _ => PcLighter(s, w, Closing(Erase(fd)));
  }

  lemma ConsumeLeaves(c: Conn, n: nat)
    requires Cursor(c)
    ensures LeftOf(Consume(c, n)) <= Minus(LeftOf(c), n)
  {
    if n <= |Unsent(c)| {
      ConsumeDrops(c, n);
    } else {
      ConsumeDrops(c, |Unsent(c)|);
      assert Consume(c, n) == Consume(c, |Unsent(c)|);
    }
  }

  lemma ConsumeLighter(s: State, w: WorkerId, fd: Fd, id: ConnId, n: nat)
    requires w in s.workers && s.workers[w] == WriteConsume(fd, id, n)
    ensures Lighter(s, StepConsume(s, w, fd, id, n), w)
  {
    hide Lighter, Consume;
    var c := s.ConnAt(id);
    var c' := if Cursor(c) then Consume(c, n) else c;
    if Cursor(c) {
      ConsumeLeaves(c, n);
    }
    ConnLighter(s, w, id, c', WriteGather(fd, id));
  }

  lemma ClearLighter(s: State, w: WorkerId, fd: Fd, id: ConnId)
    requires w in s.workers && s.workers[w] == WriteClear(fd, id)
    ensures Lighter(s, StepClear(s, w, fd, id), w)
  {
    hide Lighter;
    var c := s.ConnAt(id);
    var pc := if c.closeAfterWrite then Closing(Erase(fd)) else WriteRefresh(fd, id, c.readBuf != []);
    ConnLighter(s, w, id, ClearWrite(c).(writeReady := false), pc);
  }

  lemma RefreshLighter(s: State, w: WorkerId, fd: Fd, pc: Worker)
    requires w in s.workers && BlockAt(s, pc) < BlockAt(s, s.workers[w])
    ensures Lighter(s, SetWorker(Refresh(s, fd), w, pc), w)
  {
    hide Lighter, BlockWork;
    MoveLighter(s, SetWorker(Refresh(s, fd), w, pc), w, pc);
  }

  lemma TakeLighter(s: State, w: WorkerId)
    requires w in s.workers && s.workers[w] == Idle && s.queue != []
    ensures Lighter(s, StepTake(s, w, s.queue[0]), w)
  {
    hide Unread, LeftAt;
  }

  // ---------- closing ----------

  lemma EraseLighter(s: State, w: WorkerId, fd: Fd)
    requires w in s.workers && s.workers[w] == Closing(Erase(fd)) && fd in s.table
    ensures Lighter(s, SetWorker(CloseEffect(s, WorkerThread(w), Erase(fd)), w, Closing(Mark(fd, s.table[fd]))), w)
  {
    hide Lighter, LeftOf, UnreadOf, Without;
    var s' := SetWorker(CloseEffect(s, WorkerThread(w), Erase(fd)), w, Closing(Mark(fd, s.table[fd])));
    EasesFrom(s, s');
    LighterBy(s, s', w, Closing(Mark(fd, s.table[fd])));
  }

  lemma ShutLighter(s: State, w: WorkerId, fd: Fd, id: ConnId)
    requires w in s.workers && s.workers[w] == Closing(Shut(fd, id))
    ensures Lighter(s, Drop(CloseEffect(s, WorkerThread(w), Shut(fd, id)), w, fd), w)
  {
    hide Lighter, SetPlace, SetWorker;
    ShutForms(s, w, fd, id);
  }

  lemma ShutForms(s: State, w: WorkerId, fd: Fd, id: ConnId)
    requires w in s.workers && s.workers[w] == Closing(Shut(fd, id))
    ensures var t := SetWorker(CloseEffect(s, WorkerThread(w), Shut(fd, id)), w, Idle);
            Lighter(s, t, w) && Lighter(s, SetPlace(t, fd, Leaving), w)
  {
    hide Lighter, LeftOf, UnreadOf;
    var t := SetWorker(CloseEffect(s, WorkerThread(w), Shut(fd, id)), w, Idle);
    EasesFrom(s, t);
    LighterBy(s, t, w, Idle);
    EasesFrom(s, SetPlace(t, fd, Leaving));
    LighterBy(s, SetPlace(t, fd, Leaving), w, Idle);
  }

  lemma ClosingLighter(s: State, w: WorkerId, c: Close)
    requires w in s.workers && s.workers[w] == Closing(c)
    ensures Lighter(s, StepClosing(s, w, c), w)
  {
    hide Lighter, LeftOf, Drop;
    match c
    case Erase(fd) =>
      if fd in s.table {
        EraseLighter(s, w, fd);
      } else {
        DropLighter(s, w, fd);
      }
    case Mark(fd, id) =>
      SameLeft(s.ConnAt(id), [], false, [], true);
      ConnLighter(s, w, id, s.ConnAt(id).(closed := true), Closing(Unregister(fd, id)));
    case Unregister(fd, id) =>
      MoveLighter(s, SetWorker(s.(interest := s.interest - {fd}), w, Closing(Shut(fd, id))), w, Closing(Shut(fd, id)));
    case Shut(fd, id) => ShutLighter(s, w, fd, id);
  }

  // ---------- answering ----------

  /** A block that neither holds the connection nor looks it up has as much to do as before. */
  lemma BlockApart(s: State, s': State, fd: Fd, id: ConnId, pc: Worker)
    requires s'.open == s.open && s'.table == s.table
    requires forall k :: k != id ==> ConnIn(s'.conns, k) == ConnIn(s.conns, k)
    requires forall k :: UnreadOf(HistIn(s'.hist, k)) == UnreadOf(HistIn(s.hist, k))
    requires forall g :: g in s.table && g != fd ==> s.table[g] != id
    requires pc.Holds() != Some(id) && pc.Names() != Some(fd)
    ensures BlockAt(s', pc) == BlockAt(s, pc)
  {
    hide UnreadOf, LeftOf, ConnIn, HistIn;
  }

  lemma TaskApart(s: State, s': State, fd: Fd, id: ConnId, t: Task)
    requires s'.open == s.open && s'.table == s.table
    requires forall k :: k != id ==> ConnIn(s'.conns, k) == ConnIn(s.conns, k)
    requires forall k :: UnreadOf(HistIn(s'.hist, k)) == UnreadOf(HistIn(s.hist, k))
    requires forall g :: g in s.table && g != fd ==> s.table[g] != id
    requires t.fd != fd
    ensures TaskAt(s', t) == TaskAt(s, t)
  {
    hide UnreadOf, LeftOf, ConnIn, HistIn;
  }

  /** Nobody but the worker answering has to do with its descriptor or its connection. */
  ghost predicate Alone(s: State, w: WorkerId, fd: Fd, id: ConnId) {
    && (forall u :: u in s.workers && u != w ==> s.workers[u].Holds() != Some(id) && s.workers[u].Names() != Some(fd))
    && (forall i :: 0 <= i < |s.queue| ==> s.queue[i].fd != fd)
    && (forall g :: g in s.table && g != fd ==> s.table[g] != id)
  }

  lemma AnswersAlone(s: State, w: WorkerId, fd: Fd, id: ConnId)
    requires Sound(s) && Tokens(s) && Held(s, w, fd, id) && fd in s.open
    ensures Alone(s, w, fd, id)
  {
    hide BatchOk, HandOk, ArmedOk, PlacesOk, MarksOk, ClosersOk, PendingOk, OnceOk, Covered, StopOk;
    assert Assigned(s.open, s.token, w, s.workers[w]);
    forall u | u in s.workers && u != w ensures s.workers[u].Holds() != Some(id) && s.workers[u].Names() != Some(fd) {
      assert HolderOk(s.workers[u].Names(), s.workers[u].Holds(), s.conns.Keys, s.sock);
      assert Assigned(s.open, s.token, u, s.workers[u]);
    }
    forall g | g in s.table && g != fd ensures s.table[g] != id {
      assert s.sock[s.open[g]] == g;
    }
  }

  lemma LoadLighter(s: State, w: WorkerId, fd: Fd, id: ConnId, raw: Text, x: Exchange)
    requires Alone(s, w, fd, id) && w in s.workers && s.workers[w] == ProcessReply(fd, id, raw)
    ensures var h' := s.HistAt(id).(served := s.HistAt(id).served + [x]);
            Lighter(s, SetWorker(SetHist(SetConn(s, id, Load(s.ConnAt(id), x.reply)), id, h'), w, Finish(fd, id, Out)),
                    w)
  {
    hide LeftOf, Load, Unread, LeftAt;
    var h' := s.HistAt(id).(served := s.HistAt(id).served + [x]);
    var s' := SetWorker(SetHist(SetConn(s, id, Load(s.ConnAt(id), x.reply)), id, h'), w, Finish(fd, id, Out));
    assert BlockAt(s', s'.workers[w]) == 6 && BlockAt(s, s.workers[w]) == 7;
    hide BlockAt, TaskAt;
    forall u | u in s.workers && u != w ensures BlockAt(s', s.workers[u]) <= BlockAt(s, s.workers[u]) {
      BlockApart(s, s', fd, id, s.workers[u]);
    }
    forall i | 0 <= i < |s.queue| ensures TaskAt(s', s.queue[i]) <= TaskAt(s, s.queue[i]) {
      TaskApart(s, s', fd, id, s.queue[i]);
    }
  }

  lemma ReplyLighter(s: State, w: WorkerId, fd: Fd, id: ConnId, raw: Text, x: Exchange)
    requires Sound(s) && Tokens(s) && w in s.workers && s.workers[w] == ProcessReply(fd, id, raw)
    ensures Lighter(s, StepReply(s, w, fd, id, x), w)
  {
    hide Sound, Tokens, Lighter, Alone, Load, Drop;
    if s.ConnAt(id).closed {
      DropLighter(s, w, fd);
    } else {
      GroundedHolds(s, w);
      AnswersAlone(s, w, fd, id);
      LoadLighter(s, w, fd, id, raw, x);
    }
  }

  // ---------- every step of a worker ----------

  /** Every step but that of loading an answer. */
  lemma WorkerLighter(s: State, w: WorkerId, a: Answer)
    requires WorkerEnabled(s, w, a) && !s.workers[w].ProcessReply?
    ensures Lighter(s, WorkerStep(s, w, a), w)
  {
    hide Lighter, Lookup, StepTake, StepRecv, StepAppend, StepExtract, StepReply, StepFinish, StepGather,
         StepSend, StepConsume, StepClear, StepClosing, ArmAndLeave, Extract, SetWorker, Refresh;
    match s.workers[w]
    case Idle => TakeLighter(s, w);
    case ReadGet(fd) => LookupLighter(s, w, fd, ReadRecv(fd, s.Entry(fd)));
    case ReadRecv(fd, id) => RecvLighter(s, w, fd, id, a);
    case ReadAppend(fd, id, data) => AppendLighter(s, w, fd, id, data);
    case ReadRefresh(fd) => RefreshLighter(s, w, fd, ProcessGet(fd));
    case ProcessGet(fd) => LookupLighter(s, w, fd, ProcessExtract(fd, s.Entry(fd)));
    case ProcessExtract(fd, id) => ExtractLighter(s, w, fd, id, Extract(s.ConnAt(id).readBuf));
    case WriteGet(fd) => LookupLighter(s, w, fd, WriteGather(fd, s.Entry(fd)));
    case WriteGather(fd, id) => GatherLighter(s, w, fd, id);
    case WriteSend(fd, id, iov) => SendLighter(s, w, fd, id, iov, a);
    case WriteConsume(fd, id, n) => ConsumeLighter(s, w, fd, id, n);
    case WriteClear(fd, id) => ClearLighter(s, w, fd, id);
    case WriteRefresh(fd, id, pending) =>
      RefreshLighter(s, w, fd, if pending then ProcessGet(fd) else Finish(fd, id, In));
    case Finish(fd, id, dir) => FinishLighter(s, w, fd, id, dir);
    case Arm(fd, dir) => LeaveLighter(s, w, fd, dir);
    case Closing(c) => ClosingLighter(s, w, c);
  }

  ghost predicate Unloads(s: State, s': State) {
    Loads(s') < Loads(s) && s'.loop == s.loop
  }

  lemma UnloadsBy(s: State, s': State, w: WorkerId, pc: Worker)
    requires w in s.workers && w < s.cfg.workers && MayLoad(s.workers[w]) && !MayLoad(pc)
    requires s'.workers == s.workers[w := pc] && s'.queue == s.queue && s'.cfg == s.cfg && s'.loop == s.loop
    ensures Unloads(s, s')
  {
    hide CrewLoads;
    CrewLoadsMove(s.workers, s'.workers, w, s.cfg.workers);
  }

  lemma DropUnloads(s: State, w: WorkerId, fd: Fd)
    requires w in s.workers && w < s.cfg.workers && MayLoad(s.workers[w])
    ensures Unloads(s, Drop(s, w, fd))
  {
    hide Unloads, SetPlace, SetWorker;
    IdleUnloads(s, w, fd);
  }

  lemma IdleUnloads(s: State, w: WorkerId, fd: Fd)
    requires w in s.workers && w < s.cfg.workers && MayLoad(s.workers[w])
    ensures Unloads(s, SetWorker(s, w, Idle)) && Unloads(s, SetPlace(SetWorker(s, w, Idle), fd, Leaving))
  {
    hide Unloads;
    UnloadsBy(s, SetWorker(s, w, Idle), w, Idle);
    UnloadsBy(s, SetPlace(SetWorker(s, w, Idle), fd, Leaving), w, Idle);
  }

  /** Loading an answer, or finding the connection closed, leaves one answer less to load. */
  lemma ReplyUnloads(s: State, w: WorkerId, fd: Fd, id: ConnId, raw: Text, x: Exchange)
    requires w in s.workers && w < s.cfg.workers && s.workers[w] == ProcessReply(fd, id, raw)
    ensures Unloads(s, StepReply(s, w, fd, id, x))
  {
    hide Unloads, Load, Drop;
    if s.ConnAt(id).closed {
      DropUnloads(s, w, fd);
    } else {
      var h := s.HistAt(id).(served := s.HistAt(id).served + [x]);
      UnloadsBy(s, SetWorker(SetHist(SetConn(s, id, Load(s.ConnAt(id), x.reply)), id, h), w, Finish(fd, id, Out)),
                w, Finish(fd, id, Out));
    }
  }

  lemma WorkerCloser(s: State, w: WorkerId, a: Answer)
    requires WorkerEnabled(s, w, a) && w < s.cfg.workers
    ensures Closer(s, WorkerStep(s, w, a)) && WorkerStep(s, w, a).loop == s.loop
  {
    hide Loads, Work, Lighter, StepReply;
    if s.workers[w].ProcessReply? {
      var (fd, id, raw) := (s.workers[w].fd, s.workers[w].id, s.workers[w].raw);
      ReplyUnloads(s, w, fd, id, raw, Exchange(raw, a.world, s.cfg.respond(raw, a.world)));
    } else {
      hide WorkerStep, WorkerEnabled, Closer;
      WorkerLighter(s, w, a);
      LighterCloser(s, WorkerStep(s, w, a), w);
      LighterWorks(s, WorkerStep(s, w, a), w);
    }
  }

  /** In every run, every step of a worker, whatever the system answers it, leaves fewer answers to load,
      or as many and less to do. */
  lemma WorkersProgress(cfg: Config, now: int, acts: seq<Action>, s: State, w: WorkerId, a: Answer)
    requires Run(Init(cfg, now), acts, s, false) && WorkerEnabled(s, w, a)
    ensures Closer(s, WorkerStep(s, w, a)) && WorkerStep(s, w, a).loop == s.loop
  {
    hide Run, Closer, WorkerStep;
    RunSound(cfg, now, acts, s, false);
    WorkerInCrew(s, w, a);
    WorkerCloser(s, w, a);
  }

  /** In a careful run, it always leaves less to do. */
  lemma CarefulProgress(cfg: Config, now: int, acts: seq<Action>, s: State, w: WorkerId, a: Answer)
    requires Speaks(cfg.respond) && Run(Init(cfg, now), acts, s, true) && WorkerEnabled(s, w, a)
    ensures Work(WorkerStep(s, w, a)) < Work(s) && WorkerStep(s, w, a).loop == s.loop
  {
    hide Run, Speaks, Steady, Work, Lighter, WorkerStep, StepReply;
    CarefulRun(cfg, now, acts, s);
    WorkerInCrew(s, w, a);
    if s.workers[w].ProcessReply? {
      SteadyTokens(cfg.respond, s);
      AnswerLighter(s, w, a);
    } else {
      WorkerLighter(s, w, a);
    }
    LighterWorks(s, WorkerStep(s, w, a), w);
  }

  lemma AnswerLighter(s: State, w: WorkerId, a: Answer)
    requires Sound(s) && Tokens(s) && WorkerEnabled(s, w, a) && s.workers[w].ProcessReply?
    ensures Lighter(s, WorkerStep(s, w, a), w)
  {
    hide Sound, Tokens, Lighter, StepReply;
    var (fd, id, raw) := (s.workers[w].fd, s.workers[w].id, s.workers[w].raw);
    ReplyLighter(s, w, fd, id, raw, Exchange(raw, a.world, s.cfg.respond(raw, a.world)));
  }

  lemma WorkerInCrew(s: State, w: WorkerId, a: Answer)
    requires Sound(s) && WorkerEnabled(s, w, a)
    ensures w in s.workers && w < s.cfg.workers
  {
    hide OpenOk, TableOk, ClosersOk, PendingOk, HoldersOk, OnceOk, Covered, StopOk;
  }

  // ---------- the drain ----------

  /** What the system can answer a worker that has something to do. */
  function SomeAnswer(pc: Worker): Answer {
    if pc.ReadRecv? || pc.WriteSend? then Fails
    else if pc.ProcessReply? then Serve(World(false, None, []))
    else Proceed
  }

  /** With at least one worker, a drain that is not complete has a step of a worker to wait for. */
  lemma DrainGoesOn(s: State)
    requires Sound(s) && s.loop == Draining && s.cfg.workers > 0
    ensures LoopEnabled(s, Onward) || exists w, a :: WorkerEnabled(s, w, a)
  {
    hide OpenOk, TableOk, ClosersOk, PendingOk, HoldersOk, OnceOk, Covered, StopOk;
    if w :| w in s.workers && s.workers[w] != Idle {
      assert WorkerEnabled(s, w, SomeAnswer(s.workers[w]));
    } else if s.queue != [] {
      assert WorkerEnabled(s, 0, Proceed);
    }
  }

  /** The steps of the drain: the workers, the clock, and further requests to stop. */
  predicate DrainAction(a: Action) {
    a.WorkerActs? || a.Tick? || a.RequestStop?
  }

  function WorkerSteps(acts: seq<Action>): nat {
    if acts == [] then 0 else WorkerSteps(acts[..|acts| - 1]) + if acts[|acts| - 1].WorkerActs? then 1 else 0
  }

  lemma SameWork(s: State, s': State)
    requires s'.open == s.open && s'.table == s.table && s'.conns == s.conns && s'.hist == s.hist
    requires s'.workers == s.workers && s'.queue == s.queue && s'.cfg == s.cfg
    ensures Work(s') == Work(s)
  {
    hide BlockWork, TaskWork;
    SameCrew(s, s', s.cfg.workers);
    SameQueue(s, s', s.queue);
  }

  lemma {:induction false} SameCrew(s: State, s': State, n: nat)
    requires s'.open == s.open && s'.table == s.table && s'.conns == s.conns && s'.hist == s.hist
    requires s'.workers == s.workers
    ensures CrewWork(s', n) == CrewWork(s, n)
  {
    hide BlockWork;
    if n > 0 {
      SameCrew(s, s', n - 1);
    }
  }

  lemma {:induction false} SameQueue(s: State, s': State, queue: seq<Task>)
    requires s'.open == s.open && s'.table == s.table && s'.conns == s.conns && s'.hist == s.hist
    ensures QueueWork(s', queue) == QueueWork(s, queue)
  {
    hide TaskWork;
    if queue != [] {
      SameQueue(s, s', queue[1..]);
    }
  }

  /** Whatever else happens while the loop and the peers stay where they are changes nothing of this. */
  lemma OthersWait(s: State, a: Action)
    requires Enabled(s, a) && DrainAction(a) && !a.WorkerActs?
    ensures Work(Step(s, a)) == Work(s) && Loads(Step(s, a)) == Loads(s) && Step(s, a).loop == s.loop
    ensures Step(s, a).cfg == s.cfg
  {
    hide WorkerStep, WorkerEnabled, Work;
    match a
    case Tick(ticks) => SameWork(s, s.(now := s.now + ticks));
    case RequestStop => SameWork(s, s.(running := false));
  }

  // ---------- every drain ends ----------

  /** An endless drain: what happens, and the states it passes through. */
  ghost predicate Drains(at: nat -> State, acts: nat -> Action) {
    forall k: nat {:trigger acts(k)} ::
      Enabled(at(k), acts(k)) && DrainAction(acts(k)) && at(k + 1) == Step(at(k), acts(k))
  }

  lemma {:induction false} DrainSound(at: nat -> State, acts: nat -> Action, k: nat)
    requires Sound(at(0)) && Drains(at, acts)
    ensures Sound(at(k))
  {
    hide Sound, Enabled, Step;
    if k > 0 {
      DrainSound(at, acts, k - 1);
      assert Enabled(at(k - 1), acts(k - 1));
      StepSound(at(k - 1), acts(k - 1));
    }
  }

  ghost predicate NoFarther(s: State, s': State) {
    Loads(s') < Loads(s) || (Loads(s') == Loads(s) && Work(s') <= Work(s))
  }

  lemma DrainStep(at: nat -> State, acts: nat -> Action, k: nat)
    requires Sound(at(0)) && Drains(at, acts)
    ensures NoFarther(at(k), at(k + 1)) && at(k + 1).loop == at(k).loop
    ensures acts(k).WorkerActs? ==> Closer(at(k), at(k + 1))
  {
    hide Sound, Loads, Work, WorkerStep, WorkerEnabled, LoopStep, LoopEnabled;
    DrainSound(at, acts, k);
    var s, a := at(k), acts(k);
    assert Enabled(s, a) && DrainAction(a);
    if a.WorkerActs? {
      WorkerInCrew(s, a.worker, a.answer);
      WorkerCloser(s, a.worker, a.answer);
    } else {
      OthersWait(s, a);
    }
  }

  lemma {:induction false} DrainNears(at: nat -> State, acts: nat -> Action, k: nat, j: nat)
    requires Sound(at(0)) && Drains(at, acts) && k <= j
    ensures NoFarther(at(k), at(j)) && at(j).loop == at(k).loop
    decreases j
  {
    hide Sound, Loads, Work, Drains;
    if k < j {
      DrainNears(at, acts, k, j - 1);
      DrainStep(at, acts, j - 1);
    }
  }

  /** In every endless drain the workers take finitely many steps. */
  lemma {:induction false} WorkersHalt(at: nat -> State, acts: nat -> Action, k: nat) returns (n: nat)
    requires Sound(at(0)) && Drains(at, acts)
    ensures n >= k && forall j: nat :: j >= n ==> !acts(j).WorkerActs?
    decreases Loads(at(k)), Work(at(k))
  {
    hide Sound, Loads, Work, Drains;
    if j: nat :| j >= k && acts(j).WorkerActs? {
      DrainNears(at, acts, k, j);
      DrainStep(at, acts, j);
      n := WorkersHalt(at, acts, j + 1);
    } else {
      n := k;
    }
  }

  /** Some worker moves again as long as one can: nothing more is asked of the scheduler. */
  ghost predicate Scheduled(at: nat -> State, acts: nat -> Action) {
    forall k: nat, w, a :: WorkerEnabled(at(k), w, a) ==> exists j: nat :: j >= k && acts(j).WorkerActs?
  }

  /** Take any run that has reached the drain of `stop`, with at least one worker, and let it go on without
      further input from the peers, in any order: the workers take finitely many steps, and if one of them
      moves as long as one can, the drain is complete in the end, and the loop can go on to close the
      connections. */
  lemma DrainEnds(cfg: Config, now: int, before: seq<Action>, at: nat -> State, acts: nat -> Action)
    returns (n: nat)
    requires Run(Init(cfg, now), before, at(0), false) && at(0).loop == Draining && cfg.workers > 0
    requires Drains(at, acts)
    ensures forall j: nat :: j >= n ==> !acts(j).WorkerActs?
    ensures Scheduled(at, acts) ==> LoopEnabled(at(n), Onward)
  {
    hide Run, Sound, Drains, LoopEnabled, WorkerEnabled;
    RunSound(cfg, now, before, at(0), false);
    n := WorkersHalt(at, acts, 0);
    DrainNears(at, acts, 0, n);
    DrainSound(at, acts, n);
    ConfigStays(cfg, now, before, at(0));
    DrainKeepsConfig(at, acts, n);
    if Scheduled(at, acts) {
      DrainGoesOn(at(n));
    }
  }

  lemma {:induction false} DrainKeepsConfig(at: nat -> State, acts: nat -> Action, k: nat)
    requires Sound(at(0)) && Drains(at, acts)
    ensures at(k).cfg == at(0).cfg
  {
    hide Sound, WorkerStep, WorkerEnabled, LoopStep, LoopEnabled, Grown;
    if k > 0 {
      DrainKeepsConfig(at, acts, k - 1);
      DrainSound(at, acts, k - 1);
      var s, a := at(k - 1), acts(k - 1);
      assert Enabled(s, a) && DrainAction(a);
      if a.WorkerActs? {
        WorkerGrows(s, a.worker, a.answer, 0);
        GrownConfig(s, WorkerStep(s, a.worker, a.answer));
      } else {
        OthersWait(s, a);
      }
    }
  }

  lemma GrownConfig(s: State, s': State)
    requires Grown(s, s', 0)
    ensures s'.cfg == s.cfg
  {
  }

  // ---------- how long a careful drain takes ----------

  lemma CarefulStep(cfg: Config, now: int, acts: seq<Action>, s: State, a: Action)
    requires Speaks(cfg.respond) && Run(Init(cfg, now), acts, s, true) && Enabled(s, a) && DrainAction(a)
    ensures Work(Step(s, a)) + (if a.WorkerActs? then 1 else 0) <= Work(s) && Step(s, a).loop == s.loop
  {
    hide Run, Speaks, WorkerStep, WorkerEnabled, Work, Loads;
    match a
    case WorkerActs(w, wa) => CarefulProgress(cfg, now, acts, s, w, wa);
    case Tick(_) => OthersWait(s, a);
    case RequestStop => OthersWait(s, a);
  }

  /** From a draining state of a careful run, without further input from the peers, the workers can take
      no more steps than there was work, and until the drain is complete one of them can take a step. */
  lemma {:induction false} DrainBound(cfg: Config, now: int, acts: seq<Action>, s: State, more: seq<Action>, s': State)
    requires Speaks(cfg.respond) && cfg.workers > 0
    requires Run(Init(cfg, now), acts, s, true) && s.loop == Draining
    requires Run(s, more, s', true) && forall i :: 0 <= i < |more| ==> DrainAction(more[i])
    ensures s'.loop == Draining && WorkerSteps(more) + Work(s') <= Work(s)
    ensures LoopEnabled(s', Onward) || exists w, a :: WorkerEnabled(s', w, a)
  {
    hide Enabled, Step, FdReuseOk, Speaks, Work, Sound, Steady, LoopEnabled, WorkerEnabled;
    RunJoin(Init(cfg, now), acts, s, more, s', true);
    if more != [] {
      var n := |more| - 1;
      var m :| Run(s, more[..n], m, true) && Enabled(m, more[n]) && s' == Step(m, more[n]);
      DrainBound(cfg, now, acts, s, more[..n], m);
      RunJoin(Init(cfg, now), acts, s, more[..n], m, true);
      CarefulStep(cfg, now, acts + more[..n], m, more[n]);
    }
    RunForgets(Init(cfg, now), acts + more, s');
    RunSound(cfg, now, acts + more, s', false);
    ConfigStays(cfg, now, acts + more, s');
    DrainGoesOn(s');
  }
}
