/** What a socket was served and sent is never taken back, and the configuration never changes: in every
    run, with no hypothesis on descriptor reuse. */
module ServerGrowth {
  import opened Bytes
  import opened Framing
  import opened Connections
  import opened Service
  import opened Timers
  import opened Server
  import opened ServerTable
  import opened ServerRuns

  /** What the socket was served and sent stays served and sent, the configuration stays, and only
      sockets that were accepted get a history. */
  ghost predicate Grown(s: State, s': State, id: ConnId) {
    && s'.cfg == s.cfg && s.sock.Keys <= s'.sock.Keys && s'.hist.Keys <= s.hist.Keys + s'.sock.Keys
    && (id in s.hist ==>
          id in s'.hist && s.hist[id].served <= s'.hist[id].served && s.hist[id].tx <= s'.hist[id].tx)
  }

  lemma GrownSame(s: State, s': State, id: ConnId)
    requires s'.hist == s.hist && s'.sock == s.sock && s'.cfg == s.cfg
    ensures Grown(s, s', id)
  {
  }

  lemma GrownPut(s: State, s': State, k: ConnId, h: History, id: ConnId)
    requires s'.cfg == s.cfg && s'.sock == s.sock && s'.hist == s.hist[k := h] && (k in s.hist || k in s.sock)
    requires s.HistAt(k).served <= h.served && s.HistAt(k).tx <= h.tx
    ensures Grown(s, s', id)
  {
  }

  lemma DropGrows(s: State, s': State, w: WorkerId, fd: Fd, id: ConnId)
    requires s'.hist == s.hist && s'.sock == s.sock && s'.cfg == s.cfg
    ensures Grown(s, Drop(s', w, fd), id)
  {
    hide Grown, SetPlace, SetWorker;
    PlaceGrows(s, s', w, fd, id);
  }

  lemma PlaceGrows(s: State, s': State, w: WorkerId, fd: Fd, id: ConnId)
    requires s'.hist == s.hist && s'.sock == s.sock && s'.cfg == s.cfg
    ensures Grown(s, SetPlace(SetWorker(s', w, Idle), fd, Leaving), id) && Grown(s, SetWorker(s', w, Idle), id)
  {
  }

  lemma LeaveGrows(s: State, s': State, w: WorkerId, fd: Fd, dir: Dir, id: ConnId)
    requires s'.hist == s.hist && s'.sock == s.sock && s'.cfg == s.cfg
    ensures Grown(s, ArmAndLeave(s', w, fd, dir), id)
  {
    hide Grown, Drop;
    if fd in s'.interest {
      GrownSame(s, SetPlace(SetWorker(s', w, Idle).(interest := s'.interest[fd := On(dir)]), fd, Armed(dir)), id);
    } else {
      DropGrows(s, s', w, fd, id);
    }
  }

  lemma LookupGrows(s: State, w: WorkerId, fd: Fd, found: Worker, id: ConnId)
    ensures Grown(s, Lookup(s, w, fd, found), id)
  {
    hide Grown, Drop;
    if fd in s.table {
      GrownSame(s, SetWorker(s, w, found), id);
    } else {
      DropGrows(s, s, w, fd, id);
    }
  }

  lemma RecvGrows(s: State, w: WorkerId, fd: Fd, k: ConnId, a: Answer, id: ConnId)
    requires a.Got? ==> s.Behind(fd) in s.sock
    ensures Grown(s, StepRecv(s, w, fd, k, a), id)
  {
    hide Slice;
  }

  lemma AppendGrows(s: State, w: WorkerId, fd: Fd, k: ConnId, data: Text, id: ConnId)
    requires k in s.sock
    ensures Grown(s, StepAppend(s, w, fd, k, data), id)
  {
    hide Grown, AppendRead;
    var c, h := s.ConnAt(k), s.HistAt(k);
    if c.closed {
      GrownSame(s, SetWorker(s, w, ReadRecv(fd, k)), id);
    } else {
      var h' := h.(rx := h.rx + data);
      GrownPut(s, SetWorker(SetHist(SetConn(s, k, AppendRead(c, data)), k, h'), w, ReadRecv(fd, k)), k, h', id);
    }
  }

  lemma ExtractGrows(s: State, w: WorkerId, fd: Fd, k: ConnId, x: Extraction, id: ConnId)
    ensures Grown(s, StepExtract(s, w, fd, k, x), id)
  {
    hide Grown, ArmAndLeave;
    var c := s.ConnAt(k);
    if c.closed || x.Incomplete? {
      LeaveGrows(s, SetConn(s, k, c.(processing := false)), w, fd, In, id);
    } else {
      GrownSame(s, SetWorker(SetConn(s, k, c.(readBuf := x.rest)), w, ProcessReply(fd, k, x.raw)), id);
    }
  }

  lemma ReplyGrows(s: State, w: WorkerId, fd: Fd, k: ConnId, x: Exchange, id: ConnId)
    requires k in s.sock
    ensures Grown(s, StepReply(s, w, fd, k, x), id)
  {
    hide Grown, Drop, Load;
    var c, h := s.ConnAt(k), s.HistAt(k);
    if c.closed {
      DropGrows(s, s, w, fd, id);
    } else {
      var h' := h.(served := h.served + [x]);
      GrownPut(s, SetWorker(SetHist(SetConn(s, k, Load(c, x.reply)), k, h'), w, Finish(fd, k, Out)), k, h', id);
    }
  }

  lemma FinishGrows(s: State, w: WorkerId, fd: Fd, k: ConnId, dir: Dir, id: ConnId)
    ensures Grown(s, StepFinish(s, w, fd, k, dir), id)
  {
    hide Grown;
    if s.ConnAt(k).closed {
      GrownSame(s, SetWorker(s, w, Arm(fd, dir)), id);
    } else {
      GrownSame(s, SetWorker(SetConn(s, k, s.ConnAt(k).(processing := false)), w, Arm(fd, dir)), id);
    }
  }

  lemma SendGrows(s: State, w: WorkerId, fd: Fd, k: ConnId, iov: seq<Text>, a: Answer, id: ConnId)
    requires a.Got? ==> s.Behind(fd) in s.sock
    ensures Grown(s, StepSend(s, w, fd, k, iov, a), id)
  {
    hide Slice, Flat;
  }

  lemma WriteGrows(s: State, w: WorkerId, fd: Fd, k: ConnId, n: nat, id: ConnId)
    ensures Grown(s, StepGather(s, w, fd, k), id)
    ensures Grown(s, StepConsume(s, w, fd, k, n), id)
    ensures Grown(s, StepClear(s, w, fd, k), id)
  {
    hide Gather, HasWriteData, Cursor, Consume, ClearWrite, ConnIn;
  }

  lemma CloseKeeps(s: State, t: Thread, c: Close)
    ensures var s' := CloseEffect(s, t, c); s'.hist == s.hist && s'.sock == s.sock && s'.cfg == s.cfg
  {
    hide ConnIn, Without;
  }

  lemma ClosingGrows(s: State, w: WorkerId, c: Close, id: ConnId)
    ensures Grown(s, StepClosing(s, w, c), id)
  {
    hide Grown, CloseEffect, Drop;
    var s' := CloseEffect(s, WorkerThread(w), c);
    CloseKeeps(s, WorkerThread(w), c);
    match CloseNext(s, c)
    case Some(c') => GrownSame(s, SetWorker(s', w, Closing(c')), id);
    case None => DropGrows(s, s', w, c.fd, id);
  }

  /** A worker that reads or writes does so for an accepted socket. */
  lemma OpenSocket(s: State, w: WorkerId, a: Answer)
    requires Sound(s) && WorkerEnabled(s, w, a) && (s.workers[w].ReadRecv? || s.workers[w].WriteSend?)
    ensures a.Got? ==> s.Behind(s.workers[w].fd) in s.sock
  {
    hide TableOk, ClosersOk, PendingOk, HoldersOk, OnceOk, Covered, StopOk;
  }

  lemma HeldSocket(s: State, w: WorkerId, id: ConnId)
    requires Sound(s) && w in s.workers && s.workers[w].Holds() == Some(id)
    ensures id in s.sock
  {
    hide Sound;
    WorkerHolds(s, w);
  }

  lemma WorkerGrows(s: State, w: WorkerId, a: Answer, id: ConnId)
    requires Sound(s) && WorkerEnabled(s, w, a)
    ensures Grown(s, WorkerStep(s, w, a), id)
  {
    hide Sound, Grown, Lookup, StepTake, StepRecv, StepAppend, StepExtract, StepReply, StepFinish, StepGather, StepSend,
         StepConsume, StepClear, StepClosing, ArmAndLeave, Extract, SetWorker, Refresh;
    match s.workers[w]
    case Idle => TakeGrows(s, w, s.queue[0], id);
    case ReadGet(fd) => LookupGrows(s, w, fd, ReadRecv(fd, s.Entry(fd)), id);
    case ReadRecv(fd, k) =>
      OpenSocket(s, w, a);
      RecvGrows(s, w, fd, k, a, id);
    case ReadAppend(fd, k, data) =>
      HeldSocket(s, w, k);
      AppendGrows(s, w, fd, k, data, id);
    case ReadRefresh(fd) => RefreshGrows(s, w, fd, ProcessGet(fd), id);
    case ProcessGet(fd) => LookupGrows(s, w, fd, ProcessExtract(fd, s.Entry(fd)), id);
    case ProcessExtract(fd, k) => ExtractGrows(s, w, fd, k, Extract(s.ConnAt(k).readBuf), id);
    case ProcessReply(fd, k, raw) =>
      HeldSocket(s, w, k);
      ReplyGrows(s, w, fd, k, Exchange(raw, a.world, s.cfg.respond(raw, a.world)), id);
    case WriteGet(fd) => LookupGrows(s, w, fd, WriteGather(fd, s.Entry(fd)), id);
    case WriteGather(fd, k) => WriteGrows(s, w, fd, k, 0, id);
    case WriteSend(fd, k, iov) =>
      OpenSocket(s, w, a);
      SendGrows(s, w, fd, k, iov, a, id);
    case WriteConsume(fd, k, n) => WriteGrows(s, w, fd, k, n, id);
    case WriteClear(fd, k) => WriteGrows(s, w, fd, k, 0, id);
    case WriteRefresh(fd, k, pending) =>
      RefreshGrows(s, w, fd, if pending then ProcessGet(fd) else Finish(fd, k, In), id);
    case Finish(fd, k, dir) => FinishGrows(s, w, fd, k, dir, id);
    case Arm(fd, dir) => LeaveGrows(s, s, w, fd, dir, id);
    case Closing(c) => ClosingGrows(s, w, c, id);
  }

  lemma RefreshGrows(s: State, w: WorkerId, fd: Fd, pc: Worker, id: ConnId)
    ensures Grown(s, SetWorker(Refresh(s, fd), w, pc), id)
  {
  }

  lemma TakeGrows(s: State, w: WorkerId, t: Task, id: ConnId)
    requires s.queue != []
    ensures Grown(s, StepTake(s, w, t), id)
  {
  }

  /** The loop only adds the history of a socket it accepts. */
  lemma LoopGrows(s: State, a: LoopAnswer, id: ConnId)
    requires LoopEnabled(s, a) && s.hist.Keys <= s.sock.Keys
    ensures Grown(s, LoopStep(s, a), id)
  {
    hide Grown, StepCollect, StepHandle, StepAccept, StepInsert, StepAdd, StepBegin, StepEnqueue, StepLoopClosing,
         StepPop, StepSweep, ExpiredList;
    if s.loop.Waiting? && a.Collect? {
      CollectGrows(s, a.event, id);
    } else if s.loop.Handling? && s.loop.batch != [] {
      HandleGrows(s, id);
    } else if s.loop.Accepting? && a.AcceptFd? {
      AcceptGrows(s, a.fd, a.id, id);
    } else if s.loop.Popping? {
      PopGrows(s, a.fds, id);
    } else if s.loop.Inserting? || s.loop.Adding? || s.loop.Beginning? || s.loop.Enqueueing? || s.loop.LoopClosing? {
      BlockGrows(s, id);
    } else if s.loop.Sweeping? {
      SweepGrows(s, id);
    } else {
      MoveGrows(s, a, id);
    }
  }

  /** The loop moves on and does nothing else. */
  lemma MoveGrows(s: State, a: LoopAnswer, id: ConnId)
    requires LoopEnabled(s, a)
    requires s.loop.LoopTop? || (s.loop.Waiting? && !a.Collect?) || (s.loop.Handling? && s.loop.batch == []) ||
             (s.loop.Accepting? && !a.AcceptFd?) || s.loop.Expiring? || s.loop.Draining?
    ensures Grown(s, LoopStep(s, a), id)
  {
    hide Grown;
    match s.loop
    case LoopTop => GrownMove(s, if s.running then Waiting([]) else Draining, s.running, id);
    case Waiting(batch) =>
      GrownMove(s, Handling(batch), s.running, id);
      GrownMove(s, Draining, false, id);
      GrownMove(s, LoopTop, s.running, id);
    case Handling(_) => GrownMove(s, Popping, s.running, id);
    case Accepting(batch) => GrownMove(s, Handling(batch), s.running, id);
    case Expiring(rest) =>
      GrownMove(s, if rest == [] then LoopTop else LoopClosing(Erase(rest[0].fd), ToIdle(rest[0], rest[1..])),
                s.running, id);
    case Draining => GrownMove(s, Sweeping, s.running, id);
  }

  lemma GrownMove(s: State, l: Loop, running: bool, id: ConnId)
    ensures Grown(s, s.(loop := l), id) && Grown(s, s.(loop := l, running := running), id)
  {
    hide Grown;
    GrownSame(s, s.(loop := l), id);
    GrownSame(s, s.(loop := l, running := running), id);
  }

  lemma CollectGrows(s: State, e: Event, id: ConnId)
    requires s.loop.Waiting?
    ensures Grown(s, StepCollect(s, e), id)
  {
  }

  lemma HandleGrows(s: State, id: ConnId)
    requires s.loop.Handling? && s.loop.batch != []
    ensures Grown(s, StepHandle(s), id)
  {
    hide Grown, TakeUp, TakenPlace;
    var e := s.loop.batch[0];
    var s' := s.(loop := TakeUp(s.table, e, s.loop.batch[1..]));
    if e.Listen? {
      GrownSame(s, s', id);
    } else {
      GrownSame(s, SetPlace(s', e.fd, TakenPlace(s.table, e)), id);
    }
  }

  lemma AcceptGrows(s: State, f: Fd, k: ConnId, id: ConnId)
    requires s.loop.Accepting? && k !in s.hist
    ensures Grown(s, StepAccept(s, f, k), id)
  {
  }

  lemma PopGrows(s: State, fds: seq<Fd>, id: ConnId)
    ensures Grown(s, StepPop(s, fds), id)
  {
  }

  lemma SweepGrows(s: State, id: ConnId)
    ensures Grown(s, StepSweep(s), id)
  {
    hide SweptConns, SweptCloses;
  }

  lemma AddGrows(s: State, id: ConnId)
    requires s.loop.Adding?
    ensures Grown(s, StepAdd(s), id)
  {
    hide SetPlace, Grown;
    var s' := s.(loop := Accepting(s.loop.batch));
    ArmGrows(s, s', id);
  }

  lemma ArmGrows(s: State, s': State, id: ConnId)
    requires s.loop.Adding? && s' == s.(loop := Accepting(s.loop.batch))
    ensures Grown(s, s', id)
    ensures Grown(s, SetPlace(s'.(interest := s.interest[s.loop.fd := On(In)]), s.loop.fd, Armed(In)), id)
  {
  }

  lemma BlockGrows(s: State, id: ConnId)
    requires s.loop.Inserting? || s.loop.Adding? || s.loop.Beginning? || s.loop.Enqueueing? || s.loop.LoopClosing?
    ensures Grown(s, LoopStep(s, Onward), id)
  {
    hide Grown, CloseEffect, CloseNext, StepAdd;
    match s.loop
    case Inserting(_, _, _) => GrownSame(s, StepInsert(s), id);
    case Adding(_, _) => AddGrows(s, id);
    case Beginning(_, _, _, _) => GrownSame(s, StepBegin(s), id);
    case Enqueueing(_, _, _) => GrownSame(s, StepEnqueue(s), id);
    case LoopClosing(_, _) =>
      CloseKeeps(s, LoopThread, s.loop.close);
      GrownSame(s, StepLoopClosing(s), id);
  }

  lemma StepGrows(s: State, a: Action, id: ConnId)
    requires Sound(s) && Enabled(s, a) && s.hist.Keys <= s.sock.Keys
    ensures Grown(s, Step(s, a), id)
  {
    hide Sound, Grown, WorkerStep, LoopStep, WorkerEnabled, LoopEnabled;
    match a
    case PeerSends(k, data) => GrownPut(s, Step(s, a), k, s.hist[k].(input := s.hist[k].input + data), id);
    case Tick(_) => GrownSame(s, Step(s, a), id);
    case RequestStop => GrownSame(s, Step(s, a), id);
    case LoopActs(la) => LoopGrows(s, la, id);
    case WorkerActs(w, wa) => WorkerGrows(s, w, wa, id);
  }

  lemma GrownOn(s: State, m: State, s': State, id: ConnId)
    requires Grown(s, m, id) && Grown(m, s', id)
    ensures Grown(s, s', id)
  {
  }

  /** Along any run, what a socket was served and sent at an earlier state is the beginning of what it
      was served and sent later. */
  lemma {:induction false} RunGrows(cfg: Config, now: int, acts: seq<Action>, s: State, k: nat, m: State, id: ConnId)
    requires Run(Init(cfg, now), acts, s, false)
    requires k <= |acts| && Run(Init(cfg, now), acts[..k], m, false)
    ensures Grown(m, s, id)
    decreases |acts|
  {
    hide Enabled, Step, FdReuseOk, Sound, Grown;
    if k == |acts| {
      assert acts[..k] == acts;
      RunSame(Init(cfg, now), acts, s, m);
      GrownSame(m, s, id);
    } else {
      var n := |acts| - 1;
      var last := acts[n];
      var p :| Run(Init(cfg, now), acts[..n], p, false) && Enabled(p, last) && s == Step(p, last);
      assert acts[..n][..k] == acts[..k];
      RunGrows(cfg, now, acts[..n], p, k, m, id);
      RunSound(cfg, now, acts[..n], p, false);
      assert acts[..n][..0] == [];
      RunGrows(cfg, now, acts[..n], p, 0, Init(cfg, now), id);
      FromNothing(cfg, now, p, id);
      StepGrows(p, last, id);
      GrownOn(m, p, s, id);
    }
  }

  lemma FromNothing(cfg: Config, now: int, s: State, id: ConnId)
    requires Grown(Init(cfg, now), s, id)
    ensures s.cfg == cfg && s.hist.Keys <= s.sock.Keys
  {
    hide AllIdle;
  }

  lemma ConfigStays(cfg: Config, now: int, acts: seq<Action>, s: State)
    requires Run(Init(cfg, now), acts, s, false)
    ensures s.cfg == cfg && s.hist.Keys <= s.sock.Keys
  {
    hide Grown;
    assert acts[..0] == [];
    RunGrows(cfg, now, acts, s, 0, Init(cfg, now), 0);
    FromNothing(cfg, now, s, 0);
  }
}
