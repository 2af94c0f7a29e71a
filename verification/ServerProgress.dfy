/** What every step keeps for a connection that nobody has decided to close, if the system answers kindly:
    it stays registered, and on its way to being read, to its next answer, or to having nothing left. */
module ServerProgress {
  import opened Bytes
  import opened Framing
  import opened Connections
  import opened Service
  import opened Timers
  import opened Server
  import opened ServerTable
  import opened ServerData
  import opened ServerToken
  import opened ServerRuns
  import opened ServerTheorems
  import opened ServerFootprint

  // ---------- one connection on its way ----------

  /** Nobody has decided to close the connection registered for the descriptor, and its idle timer has
      not run out. */
  ghost predicate Unthreatened(s: State, f: Fd) {
    && f in s.timers && s.timers[f] > s.now && !Listed(Due(s.loop), f)
    && Hangup(f) !in BatchOf(s.loop)
    && !(s.loop.LoopClosing? && s.loop.close == Erase(f))
    && (forall w :: w in s.workers ==> s.workers[w] != Closing(Erase(f)))
  }

  ghost predicate Safe(s: State, f: Fd, id: ConnId) {
    f in s.table && s.table[f] == id && Unthreatened(s, f)
  }

  /** On the way to reading all that has arrived. */
  predicate Inward(p: Place, pc: Worker) {
    match p
    case Delivered(dir) => dir == In
    case Dispatching(dir) => dir == In
    case Claimed(dir) => dir == In
    case Queued(dir) => dir == In
    case Running(_) => pc.ReadGet? || pc.ReadRecv? || pc.ReadAppend?
    case _ => false
  }

  /** On the way to the next answer, or to having nothing left to answer. */
  predicate Onwards(p: Place, pc: Worker) {
    match p
    case Armed(dir) => dir == In
    case Running(_) =>
      !pc.Idle? && !pc.Closing? && !(pc.Finish? && pc.dir == Out) && !(pc.Arm? && pc.dir == Out)
    case Accepted => false
    case Leaving => false
    case _ => true
  }

  function PcAt(s: State, f: Fd): Worker {
    if f in s.token && s.token[f].Running? && s.token[f].worker in s.workers then s.workers[s.token[f].worker]
    else Idle
  }

  /** What a stretch of the run is to bring a connection, with this input and this many requests served
      at its start: that everything is read, if `all`, and one more request served, or nothing left. */
  datatype Aim = Aim(input: Text, served: int, all: bool)

  ghost predicate Towards(p: Place, pc: Worker, h: History, aim: Aim) {
    && h.input == aim.input && |h.served| >= aim.served
    && (aim.all ==> Inward(p, pc) || h.taken == |h.input|)
    && (|h.served| > aim.served || Onwards(p, pc))
  }

  ghost predicate Tracked(s: State, f: Fd, id: ConnId, aim: Aim) {
    f in s.token && Towards(s.token[f], PcAt(s, f), s.HistAt(id), aim)
  }

  /** The last answer was a closing one, and everything is out. */
  ghost predicate Ends(h: History, input: Text) {
    h.input == input && LastCloses(h.served) && h.tx == Stream(h.served)
  }

  ghost predicate Kept(s: State, f: Fd, id: ConnId, aim: Aim) {
    (Safe(s, f, id) && Tracked(s, f, id, aim)) || Ends(s.HistAt(id), aim.input)
  }

  /** A worker's step about something else changes nothing for the connection. */
  lemma OthersKeep(s: State, s': State, w: WorkerId, fd: Fd, k: ConnId, f: Fd, id: ConnId, aim: Aim)
    requires Local(s, s', w, fd, k) && fd != f && k != id && s.workers[w].Names() != Some(f)
    requires WorkersOk(s.open, s.token, s.workers)
    requires Safe(s, f, id) && Tracked(s, f, id, aim)
    ensures Safe(s', f, id) && Tracked(s', f, id, aim)
  {
    hide Towards, Frozen, Rightful, Handled, ConnIn;
    assert StaysAt(s, s', f);
    assert HistIn(s'.hist, id) == HistIn(s.hist, id);
    assert PcAt(s', f) == PcAt(s, f);
  }

  /** Its own worker goes on with it. */
  lemma OwnOn(s: State, s': State, w: WorkerId, f: Fd, id: ConnId, aim: Aim, pc: Worker)
    requires Safe(s, f, id) && Tracked(s, f, id, aim) && f in s.token && s.token[f] == Running(w)
    requires Local(s, s', w, f, id) && s'.workers[w] == pc && s'.token == s.token && s'.table == s.table
    requires !pc.Idle? && !pc.Closing? && f in s'.timers && s'.timers[f] > s.now
    requires var h, h' := s.HistAt(id), s'.HistAt(id);
             && (Inward(Running(w), s.workers[w]) && !Inward(Running(w), pc) ==> h'.taken == |h'.input|)
             && (h.taken == |h.input| ==> h'.taken == |h'.input|) && |h'.served| >= |h.served|
             && (Onwards(Running(w), s.workers[w]) && !Onwards(Running(w), pc) ==> |h'.served| > |h.served|)
    ensures Safe(s', f, id) && Tracked(s', f, id, aim)
  {
    assert PcAt(s', f) == pc && PcAt(s, f) == s.workers[w];
  }

  /** Its worker hands it back to epoll. */
  lemma OwnBack(s: State, s': State, w: WorkerId, f: Fd, id: ConnId, aim: Aim, dir: Dir)
    requires Safe(s, f, id) && Tracked(s, f, id, aim) && f in s.token && s.token[f] == Running(w)
    requires Local(s, s', w, f, id) && s'.workers[w] == Idle && f in s'.token && s'.token[f] == Armed(dir)
    requires s'.table == s.table && s'.timers == s.timers && s'.hist == s.hist
    requires !Inward(Running(w), s.workers[w]) && (Onwards(Running(w), s.workers[w]) ==> dir == In)
    ensures Safe(s', f, id) && Tracked(s', f, id, aim)
  {
    assert PcAt(s, f) == s.workers[w];
  }

  /** A worker takes its task. */
  lemma OwnTaken(s: State, s': State, w: WorkerId, f: Fd, id: ConnId, aim: Aim, dir: Dir)
    requires Safe(s, f, id) && Tracked(s, f, id, aim) && f in s.token && s.token[f] == Queued(dir)
    requires Local(s, s', w, f, id) && s'.workers[w] == (if dir == In then ReadGet(f) else WriteGet(f))
    requires f in s'.token && s'.token[f] == Running(w)
    requires s'.table == s.table && s'.timers == s.timers && s'.hist == s.hist
    ensures Safe(s', f, id) && Tracked(s', f, id, aim)
  {
  }

  // ---------- a worker that is answered kindly ----------

  /** The kindest answer to a worker's next step: bytes as long as there are any, and no failure. */
  function Kindly(s: State, w: WorkerId): (a: Answer)
    requires CanWork(s, w) && s.cfg.readSize > 0
    ensures WorkerEnabled(s, w, a)
  {
    match s.workers[w]
    case ReadRecv(fd, _) =>
      if fd !in s.open then Fails
      else if s.HistAt(s.open[fd]).taken < |s.HistAt(s.open[fd]).input| then Got(1)
      else WouldBlock
    case WriteSend(fd, _, iov) => if fd !in s.open || Flat(iov) == [] then Fails else Got(|Flat(iov)|)
    case ProcessReply(_, _, _) => Serve(World(false, None, []))
    case _ => Proceed
  }

  function KindStep(s: State, w: WorkerId): State
    requires CanWork(s, w) && s.cfg.readSize > 0
  {
    WorkerStep(s, w, Kindly(s, w))
  }

  /** What a worker knows of a registered connection that nobody has decided to close. */
  ghost predicate Knows(respond: Responder, s: State, w: WorkerId, f: Fd, id: ConnId) {
    && w in s.workers && s.workers[w].Names() == Some(f) && !s.workers[w].Closing?
    && f in s.open && s.open[f] == id && f in s.table && s.table[f] == id && f in s.interest
    && f in s.token && s.token[f] == Running(w) && !s.ConnAt(id).closed
    && (s.workers[w].Holds().Some? ==> s.workers[w].Holds().value == id)
    && Fine(BlockPhase(s.workers[w]), s.ConnAt(id), s.HistAt(id), respond)
  }

  lemma OwnKnows(respond: Responder, s: State, w: WorkerId, f: Fd, id: ConnId)
    requires Sound(s) && Steady(respond, s) && Safe(s, f, id)
    requires w in s.workers && s.workers[w].Names() == Some(f)
    ensures Knows(respond, s, w, f, id)
  {
    hide Fine, HistoryOk, OpenOk, DataOk, PastOk, HoldersOk, PendingOk, OnceOk, Covered, StopOk, BatchOk, QueueOk,
         HandOk, PlacesOk, WorkersOk;
    AtWork(respond, s, w, f);
  }

  lemma CleanTaken(respond: Responder, c: Conn, h: History)
    requires Fine(Phase(Clean, Yes), c, h, respond) && !c.closed
    ensures h.taken <= |h.input|
  {
    hide Leads, After, Stream, Raws, HistoryOk;
  }

  lemma TimerThere(s: State, f: Fd, id: ConnId)
    requires Safe(s, f, id)
    ensures f in s.timers && s.timers[f] > s.now
  {
  }

  /** Its own worker can go on to a block without touching what it has read or been served. */
  ghost predicate Movable(s: State, w: WorkerId, f: Fd, id: ConnId, aim: Aim, pc: Worker) {
    && !s.ConnAt(id).closed && w in s.workers && s.workers[w].Names() == Some(f) && f in s.token
    && s.token[f] == Running(w) && Safe(s, f, id) && Tracked(s, f, id, aim) && s.cfg.timeout > 0
    && pc.Names() == Some(f) && !pc.Idle? && !pc.Closing?
    && (Inward(Running(w), s.workers[w]) ==> Inward(Running(w), pc))
    && (Onwards(Running(w), s.workers[w]) ==> Onwards(Running(w), pc))
  }

  lemma PcMoves(s: State, w: WorkerId, f: Fd, id: ConnId, aim: Aim, pc: Worker)
    requires Movable(s, w, f, id, aim, pc)
    ensures var s' := SetWorker(s, w, pc); Safe(s', f, id) && Tracked(s', f, id, aim)
  {
    hide Safe, Tracked, Local, Inward, Onwards;
    TimerThere(s, f, id);
    LocalPc(s, w, f, id, pc);
    OwnOn(s, SetWorker(s, w, pc), w, f, id, aim, pc);
  }

  lemma RefreshMoves(s: State, w: WorkerId, f: Fd, id: ConnId, aim: Aim, pc: Worker)
    requires Movable(s, w, f, id, aim, pc) && Refreshes(s.workers[w], f)
    ensures var s' := SetWorker(Refresh(s, f), w, pc); Safe(s', f, id) && Tracked(s', f, id, aim)
  {
    hide Safe, Tracked, Local, Inward, Onwards;
    LocalRefresh(s, w, f, id, pc);
    OwnOn(s, SetWorker(Refresh(s, f), w, pc), w, f, id, aim, pc);
  }

  lemma ConnMoves(s: State, w: WorkerId, f: Fd, id: ConnId, aim: Aim, c: Conn, pc: Worker)
    requires Movable(s, w, f, id, aim, pc) && StaysClaimed(s.ConnAt(id), c, s.workers[w], id)
    ensures var s' := SetWorker(SetConn(s, id, c), w, pc); Safe(s', f, id) && Tracked(s', f, id, aim)
  {
    hide Safe, Tracked, Local, Inward, Onwards;
    TimerThere(s, f, id);
    LocalConn(s, w, f, id, c, pc);
    OwnOn(s, SetWorker(SetConn(s, id, c), w, pc), w, f, id, aim, pc);
  }

  /** A block that changes nothing but the worker's place, or also the timer or the connection. */
  lemma OwnMoves(s: State, w: WorkerId, f: Fd, id: ConnId, aim: Aim, c: Conn, pc: Worker)
    requires Movable(s, w, f, id, aim, pc)
    ensures var s' := SetWorker(s, w, pc); Safe(s', f, id) && Tracked(s', f, id, aim)
    ensures Refreshes(s.workers[w], f) ==>
              var s' := SetWorker(Refresh(s, f), w, pc); Safe(s', f, id) && Tracked(s', f, id, aim)
    ensures StaysClaimed(s.ConnAt(id), c, s.workers[w], id) ==>
              var s' := SetWorker(SetConn(s, id, c), w, pc); Safe(s', f, id) && Tracked(s', f, id, aim)
  {
    hide Safe, Tracked, SetWorker, SetConn, Refresh, StaysClaimed;
    PcMoves(s, w, f, id, aim, pc);
    if StaysClaimed(s.ConnAt(id), c, s.workers[w], id) {
      ConnMoves(s, w, f, id, aim, c, pc);
    }
    if Refreshes(s.workers[w], f) {
      RefreshMoves(s, w, f, id, aim, pc);
    }
  }

  /** Its own worker goes on with the history moved on. */
  ghost predicate Advances(s: State, w: WorkerId, f: Fd, id: ConnId, aim: Aim, h: History, pc: Worker) {
    && !s.ConnAt(id).closed && w in s.workers && s.workers[w].Names() == Some(f) && f in s.token
    && s.token[f] == Running(w) && Safe(s, f, id) && Tracked(s, f, id, aim)
    && pc.Names() == Some(f) && !pc.Idle? && !pc.Closing? && !pc.WriteSend?
    && h.input == s.HistAt(id).input && |h.served| >= |s.HistAt(id).served|
    && (s.HistAt(id).taken == |h.input| ==> h.taken == |h.input|)
    && (Inward(Running(w), s.workers[w]) ==> Inward(Running(w), pc))
    && (Onwards(Running(w), s.workers[w]) ==> Onwards(Running(w), pc) || |h.served| > |s.HistAt(id).served|)
  }

  lemma HistFields(s: State, w: WorkerId, id: ConnId, h: History, pc: Worker)
    ensures var s' := SetWorker(SetHist(s, id, h), w, pc);
            s'.workers[w] == pc && s'.token == s.token && s'.table == s.table && s'.timers == s.timers
            && s'.HistAt(id) == h
  {
  }

  lemma BothFields(s: State, w: WorkerId, id: ConnId, c: Conn, h: History, pc: Worker)
    ensures var s' := SetWorker(SetHist(SetConn(s, id, c), id, h), w, pc);
            s'.workers[w] == pc && s'.token == s.token && s'.table == s.table && s'.timers == s.timers
            && s'.HistAt(id) == h
  {
  }

  /** A block that changes the history. */
  lemma OwnHist(s: State, w: WorkerId, f: Fd, id: ConnId, aim: Aim, h: History, pc: Worker)
    requires Advances(s, w, f, id, aim, h, pc)
    ensures var s' := SetWorker(SetHist(s, id, h), w, pc); Safe(s', f, id) && Tracked(s', f, id, aim)
  {
    hide Safe, Tracked, Local, Inward, Onwards, SetWorker, SetHist, HistIn;
    HistFields(s, w, id, h, pc);
    TimerThere(s, f, id);
    LocalHist(s, w, f, id, h, pc);
    OwnOn(s, SetWorker(SetHist(s, id, h), w, pc), w, f, id, aim, pc);
  }

  /** A block that changes connection and history. */
  lemma OwnBoth(s: State, w: WorkerId, f: Fd, id: ConnId, aim: Aim, c: Conn, h: History, pc: Worker)
    requires Advances(s, w, f, id, aim, h, pc) && StaysClaimed(s.ConnAt(id), c, s.workers[w], id)
    ensures var s' := SetWorker(SetHist(SetConn(s, id, c), id, h), w, pc); Safe(s', f, id) && Tracked(s', f, id, aim)
  {
    hide Safe, Tracked, Local, Inward, Onwards, SetWorker, SetHist, SetConn, HistIn;
    BothFields(s, w, id, c, h, pc);
    TimerThere(s, f, id);
    LocalBoth(s, w, f, id, c, h, pc);
    OwnOn(s, SetWorker(SetHist(SetConn(s, id, c), id, h), w, pc), w, f, id, aim, pc);
  }

  /** The connection stays safe and on its way. */
  ghost predicate Well(s: State, f: Fd, id: ConnId, aim: Aim) {
    Safe(s, f, id) && Tracked(s, f, id, aim)
  }

  lemma OwnRecv(respond: Responder, s: State, w: WorkerId, f: Fd, id: ConnId, aim: Aim)
    requires Knows(respond, s, w, f, id) && Well(s, f, id, aim)
    requires s.cfg.timeout > 0 && s.cfg.readSize > 0 && s.workers[w] == ReadRecv(f, id)
    ensures Well(StepRecv(s, w, f, id, Kindly(s, w)), f, id, aim)
  {
    hide Safe, Tracked, Fine, Slice, SetWorker, SetHist;
    CleanTaken(respond, s.ConnAt(id), s.HistAt(id));
    var h := s.HistAt(id);
    if h.taken < |h.input| {
      OwnHist(s, w, f, id, aim, h.(taken := h.taken + 1), ReadAppend(f, id, Slice(h.input, h.taken, 1)));
    } else {
      OwnDone(s, w, f, id, aim);
    }
  }

  lemma OwnDone(s: State, w: WorkerId, f: Fd, id: ConnId, aim: Aim)
    requires Well(s, f, id, aim) && f in s.token && s.token[f] == Running(w)
    requires w in s.workers && s.workers[w] == ReadRecv(f, id) && s.HistAt(id).taken == |s.HistAt(id).input|
    ensures Well(SetWorker(s, w, ReadRefresh(f)), f, id, aim)
  {
    hide Safe, Tracked, Local;
    TimerThere(s, f, id);
    LocalPc(s, w, f, id, ReadRefresh(f));
    OwnOn(s, SetWorker(s, w, ReadRefresh(f)), w, f, id, aim, ReadRefresh(f));
  }

  lemma OwnAppend(respond: Responder, s: State, w: WorkerId, f: Fd, id: ConnId, aim: Aim, data: Text)
    requires Knows(respond, s, w, f, id) && Well(s, f, id, aim) && s.workers[w] == ReadAppend(f, id, data)
    ensures Well(StepAppend(s, w, f, id, data), f, id, aim)
  {
    hide Safe, Tracked, Fine, AppendRead, SetWorker, SetHist, SetConn;
    var h := s.HistAt(id);
    BufferSteps(s.ConnAt(id), h, 0, data, Reply([], None, false));
    OwnBoth(s, w, f, id, aim, AppendRead(s.ConnAt(id), data), h.(rx := h.rx + data), ReadRecv(f, id));
  }

  lemma OwnLookup(respond: Responder, s: State, w: WorkerId, f: Fd, id: ConnId, aim: Aim, found: Worker)
    requires Knows(respond, s, w, f, id) && Well(s, f, id, aim) && s.cfg.timeout > 0
    requires found.Names() == Some(f) && !found.Idle? && !found.Closing?
    requires Inward(Running(w), s.workers[w]) ==> Inward(Running(w), found)
    requires Onwards(Running(w), s.workers[w]) ==> Onwards(Running(w), found)
    ensures Well(Lookup(s, w, f, found), f, id, aim)
  {
    hide Safe, Tracked, Fine, SetWorker, Inward, Onwards;
    OwnMoves(s, w, f, id, aim, FRESH, found);
  }

  lemma OwnExtract(respond: Responder, s: State, w: WorkerId, f: Fd, id: ConnId, aim: Aim, x: Extraction)
    requires Knows(respond, s, w, f, id) && Well(s, f, id, aim) && s.cfg.timeout > 0
    requires s.workers[w] == ProcessExtract(f, id)
    ensures Well(StepExtract(s, w, f, id, x), f, id, aim)
  {
    hide Safe, Tracked, Fine, SetWorker, ArmAndLeave;
    var c := s.ConnAt(id);
    if x.Incomplete? {
      OwnLeaves(s, w, f, id, aim, s.conns[id := c.(processing := false)], In);
    } else {
      OwnMoves(s, w, f, id, aim, c.(readBuf := x.rest), ProcessReply(f, id, x.raw));
    }
  }

  lemma OwnLeaves(s: State, w: WorkerId, f: Fd, id: ConnId, aim: Aim, conns: Conns, dir: Dir)
    requires !s.ConnAt(id).closed
    requires Well(s, f, id, aim) && w in s.workers && s.workers[w].Names() == Some(f)
    requires f in s.token && s.token[f] == Running(w) && f in s.interest && f in s.open
    requires !Inward(Running(w), s.workers[w]) && (Onwards(Running(w), s.workers[w]) ==> dir == In)
    requires forall j :: j != id ==> SameConn(s.conns, conns, j)
    requires StaysClaimed(s.ConnAt(id), ConnIn(conns, id), s.workers[w], id)
    ensures Well(ArmAndLeave(s.(conns := conns), w, f, dir), f, id, aim)
  {
    hide Safe, Tracked, Local, Inward, Onwards;
    LocalLeave(s, w, f, id, conns, dir);
    OwnBack(s, ArmAndLeave(s.(conns := conns), w, f, dir), w, f, id, aim, dir);
  }

  lemma OwnReply(respond: Responder, s: State, w: WorkerId, f: Fd, id: ConnId, aim: Aim, raw: Text, x: Exchange)
    requires Knows(respond, s, w, f, id) && Well(s, f, id, aim) && s.workers[w] == ProcessReply(f, id, raw)
    ensures Well(StepReply(s, w, f, id, x), f, id, aim)
  {
    hide Safe, Tracked, Fine, Load, SetWorker, SetHist, SetConn;
    var h := s.HistAt(id);
    BufferSteps(s.ConnAt(id), h, 0, [], x.reply);
    OwnBoth(s, w, f, id, aim, Load(s.ConnAt(id), x.reply), h.(served := h.served + [x]), Finish(f, id, Out));
  }

  lemma OwnGather(respond: Responder, s: State, w: WorkerId, f: Fd, id: ConnId, aim: Aim)
    requires Knows(respond, s, w, f, id) && Well(s, f, id, aim) && s.cfg.timeout > 0
    requires s.workers[w] == WriteGather(f, id)
    ensures Well(StepGather(s, w, f, id), f, id, aim)
  {
    hide Safe, Tracked, Fine, SetWorker, Gather, HasWriteData, Cursor;
    var c := s.ConnAt(id);
    OwnMoves(s, w, f, id, aim, FRESH,
             if c.closed || !HasWriteData(c) || !Cursor(c) then WriteClear(f, id) else WriteSend(f, id, Gather(c)));
  }

  lemma HasToSend(respond: Responder, iov: seq<Text>, c: Conn, h: History)
    requires Fine(Phase(InWrite(iov), Yes), c, h, respond) && !c.closed
    ensures Flat(iov) != []
  {
    hide Leads, After, Stream, Raws, HistoryOk, Flat, Extract;
  }

  lemma OwnSend(respond: Responder, s: State, w: WorkerId, f: Fd, id: ConnId, aim: Aim, iov: seq<Text>)
    requires Knows(respond, s, w, f, id) && Well(s, f, id, aim) && s.workers[w] == WriteSend(f, id, iov)
    requires s.cfg.readSize > 0
    ensures Well(StepSend(s, w, f, id, iov, Kindly(s, w)), f, id, aim)
  {
    hide Safe, Tracked, Fine, Slice, Flat, SetWorker, SetHist;
    HasToSend(respond, iov, s.ConnAt(id), s.HistAt(id));
    var h, n := s.HistAt(id), |Flat(iov)|;
    OwnHist(s, w, f, id, aim, h.(tx := h.tx + Slice(Flat(iov), 0, n)), WriteConsume(f, id, n));
  }

  lemma OwnConsume(respond: Responder, s: State, w: WorkerId, f: Fd, id: ConnId, aim: Aim, n: nat)
    requires Knows(respond, s, w, f, id) && Well(s, f, id, aim) && s.cfg.timeout > 0
    requires s.workers[w] == WriteConsume(f, id, n)
    ensures Well(StepConsume(s, w, f, id, n), f, id, aim)
  {
    hide Safe, Tracked, Fine, SetWorker, SetConn, Cursor, Consume;
    var c := s.ConnAt(id);
    BufferSteps(c, s.HistAt(id), n, [], Reply([], None, false));
    OwnMoves(s, w, f, id, aim, if Cursor(c) then Consume(c, n) else c, WriteGather(f, id));
  }

  lemma FlushedEnds(respond: Responder, c: Conn, h: History)
    requires Fine(Phase(Flushed, Yes), c, h, respond) && !c.closed && c.closeAfterWrite
    ensures Ends(h, h.input)
  {
    hide Leads, After, Stream, Raws, HistoryOk, Extract;
  }

  /** A complete write either was of the closing answer, or the worker goes on. */
  lemma OwnClear(respond: Responder, s: State, w: WorkerId, f: Fd, id: ConnId, aim: Aim)
    requires Knows(respond, s, w, f, id) && Well(s, f, id, aim) && s.cfg.timeout > 0
    requires s.workers[w] == WriteClear(f, id)
    ensures Kept(StepClear(s, w, f, id), f, id, aim)
  {
    hide Safe, Fine, SetWorker, SetConn, ClearWrite, Ends;
    var c := s.ConnAt(id);
    if c.closeAfterWrite {
      FlushedEnds(respond, c, s.HistAt(id));
      SameHistory(s, w, f, id);
    } else {
      hide Tracked;
      BufferSteps(c, s.HistAt(id), 0, [], Reply([], None, false));
      OwnMoves(s, w, f, id, aim, ClearWrite(c).(writeReady := false), WriteRefresh(f, id, c.readBuf != []));
    }
  }

  lemma SameHistory(s: State, w: WorkerId, f: Fd, id: ConnId)
    ensures StepClear(s, w, f, id).hist == s.hist
  {
    hide ClearWrite, ConnIn;
  }

  lemma OwnFinish(respond: Responder, s: State, w: WorkerId, f: Fd, id: ConnId, aim: Aim, dir: Dir)
    requires Knows(respond, s, w, f, id) && Well(s, f, id, aim) && s.cfg.timeout > 0
    requires s.workers[w] == Finish(f, id, dir)
    ensures Well(StepFinish(s, w, f, id, dir), f, id, aim)
  {
    hide Safe, Tracked, Fine, SetWorker, SetConn;
    OwnMoves(s, w, f, id, aim, s.ConnAt(id).(processing := false), Arm(f, dir));
  }

  lemma WellKept(s: State, f: Fd, id: ConnId, aim: Aim)
    requires Well(s, f, id, aim)
    ensures Kept(s, f, id, aim)
  {
  }

  lemma OwnStep(respond: Responder, s: State, w: WorkerId, f: Fd, id: ConnId, aim: Aim)
    requires Knows(respond, s, w, f, id) && Well(s, f, id, aim) && s.cfg.timeout > 0
    requires CanWork(s, w) && s.cfg.readSize > 0
    ensures Kept(KindStep(s, w), f, id, aim)
  {
    hide Kept, Well, Fine, Lookup, StepRecv, StepAppend, StepExtract, StepReply, StepFinish, StepGather, StepSend,
         StepConsume, StepClear, ArmAndLeave, Extract, SetWorker, Refresh, WorkerEnabled;
    var a := Kindly(s, w);
    match s.workers[w] {
      case ReadGet(_) => OwnLookup(respond, s, w, f, id, aim, ReadRecv(f, id));
      case ReadRecv(_, _) => OwnRecv(respond, s, w, f, id, aim);
      case ReadAppend(_, _, data) => OwnAppend(respond, s, w, f, id, aim, data);
      case ReadRefresh(_) => OwnGoesOn(s, w, f, id, aim, ProcessGet(f));
      case ProcessGet(_) => OwnLookup(respond, s, w, f, id, aim, ProcessExtract(f, id));
      case ProcessExtract(_, _) => OwnExtract(respond, s, w, f, id, aim, Extract(s.ConnAt(id).readBuf));
      case ProcessReply(_, _, raw) =>
        OwnReply(respond, s, w, f, id, aim, raw, Exchange(raw, a.world, s.cfg.respond(raw, a.world)));
      case WriteGet(_) => OwnLookup(respond, s, w, f, id, aim, WriteGather(f, id));
      case WriteGather(_, _) => OwnGather(respond, s, w, f, id, aim);
      case WriteSend(_, _, iov) => OwnSend(respond, s, w, f, id, aim, iov);
      case WriteConsume(_, _, n) => OwnConsume(respond, s, w, f, id, aim, n);
      case WriteClear(_, _) => OwnClear(respond, s, w, f, id, aim);
      case WriteRefresh(_, _, pending) =>
        OwnGoesOn(s, w, f, id, aim, if pending then ProcessGet(f) else Finish(f, id, In));
      case Finish(_, _, dir) => OwnFinish(respond, s, w, f, id, aim, dir);
      case Arm(_, dir) => OwnArm(s, w, f, id, aim, dir);
    }
    if !s.workers[w].WriteClear? {
      WellKept(KindStep(s, w), f, id, aim);
    }
  }

  lemma OwnGoesOn(s: State, w: WorkerId, f: Fd, id: ConnId, aim: Aim, pc: Worker)
    requires !s.ConnAt(id).closed
    requires Well(s, f, id, aim) && s.cfg.timeout > 0 && w in s.workers && f in s.token && s.token[f] == Running(w)
    requires s.workers[w].Names() == Some(f) && (s.workers[w].ReadRefresh? || s.workers[w].WriteRefresh?)
    requires pc == ProcessGet(f) || (s.workers[w].WriteRefresh? && pc == Finish(f, id, In))
    ensures Well(SetWorker(Refresh(s, f), w, pc), f, id, aim)
  {
    hide Safe, Tracked, SetWorker, Refresh;
    OwnMoves(s, w, f, id, aim, FRESH, pc);
  }

  lemma OwnArm(s: State, w: WorkerId, f: Fd, id: ConnId, aim: Aim, dir: Dir)
    requires !s.ConnAt(id).closed
    requires Well(s, f, id, aim) && w in s.workers && s.workers[w] == Arm(f, dir)
    requires f in s.token && s.token[f] == Running(w) && f in s.interest && f in s.open
    ensures Well(ArmAndLeave(s, w, f, dir), f, id, aim)
  {
    hide Well, ArmAndLeave;
    SameConns(s);
    OwnLeaves(s, w, f, id, aim, s.conns, dir);
  }

  lemma OwnTake(s: State, w: WorkerId, f: Fd, id: ConnId, aim: Aim)
    requires QueueOk(s.open, s.token, s.queue) && f in s.open && Well(s, f, id, aim)
    requires w in s.workers && s.queue != [] && s.queue[0].fd == f
    ensures Well(StepTake(s, w, s.queue[0]), f, id, aim)
  {
    hide Safe, Tracked, Local;
    LocalTake(s, w, id);
    OwnTaken(s, StepTake(s, w, s.queue[0]), w, f, id, aim, s.queue[0].dir);
  }

  /** Whatever a worker's step concerns, if it is not the connection. */
  lemma OtherStep(respond: Responder, s: State, w: WorkerId, f: Fd, id: ConnId, aim: Aim)
    requires Sound(s) && Steady(respond, s) && Well(s, f, id, aim)
    requires CanWork(s, w) && s.cfg.readSize > 0 && Subject(s, w) != f
    ensures Well(KindStep(s, w), f, id, aim)
  {
    hide Sound, Steady, Safe, Tracked, WorkerStep, WorkerEnabled, Local;
    var k := ObjectOf(respond, s, w, f, id);
    WorkerLocal(s, w, Kindly(s, w), k);
    SteadyTokens(respond, s);
    TokensWorkers(s);
    OthersKeep(s, KindStep(s, w), w, Subject(s, w), k, f, id, aim);
  }

  lemma TokensWorkers(s: State)
    requires Tokens(s)
    ensures WorkersOk(s.open, s.token, s.workers) && QueueOk(s.open, s.token, s.queue)
  {
    hide WorkersOk, QueueOk, BatchOk, HandOk, ArmedOk, PlacesOk, MarksOk;
  }

  /** The connection a worker's step may concern, if it is not about the descriptor. */
  lemma ObjectOf(respond: Responder, s: State, w: WorkerId, f: Fd, id: ConnId) returns (k: ConnId)
    requires Sound(s) && Steady(respond, s) && Safe(s, f, id)
    requires CanWork(s, w) && s.cfg.readSize > 0 && Subject(s, w) != f
    ensures w in s.workers && (s.workers[w] == Idle ==> s.queue != []) && s.workers[w].Names() != Some(f) && k != id
    ensures s.workers[w].Holds().Some? ==> k == s.workers[w].Holds().value
    ensures (s.workers[w].ReadRecv? || s.workers[w].WriteSend?) && Kindly(s, w).Got? ==> s.Behind(s.workers[w].fd) == k
  {
    hide Fine, HistoryOk, DataOk, PastOk, ClosersOk, PendingOk, OnceOk, Covered, StopOk, BatchOk, QueueOk,
         HandOk, PlacesOk, ArmedOk, MarksOk, Unthreatened, Flat;
    if s.workers[w].Holds().Some? {
      k := s.workers[w].Holds().value;
      assert HolderOk(s.workers[w].Names(), s.workers[w].Holds(), s.conns.Keys, s.sock);
      assert Assigned(s.open, s.token, w, s.workers[w]);
    } else {
      k := id + 1;
    }
  }

  /** Every step of every worker, answered kindly, keeps the connection well, or ends it. */
  lemma WorkerKeeps(respond: Responder, s: State, w: WorkerId, f: Fd, id: ConnId, aim: Aim)
    requires Sound(s) && Steady(respond, s) && Well(s, f, id, aim) && s.cfg.timeout > 0
    requires CanWork(s, w) && s.cfg.readSize > 0
    ensures Kept(KindStep(s, w), f, id, aim)
  {
    hide Sound, Steady, Well, Kept, StepTake;
    if Subject(s, w) != f {
      hide WorkerStep, WorkerEnabled;
      OtherStep(respond, s, w, f, id, aim);
      WellKept(KindStep(s, w), f, id, aim);
    } else if s.workers[w] == Idle {
      SteadyTokens(respond, s);
      TokensWorkers(s);
      WellOpen(s, f, id, aim);
      OwnTake(s, w, f, id, aim);
      WellKept(KindStep(s, w), f, id, aim);
    } else {
      hide WorkerStep;
      WellIsSafe(s, f, id, aim);
      OwnKnows(respond, s, w, f, id);
      OwnStep(respond, s, w, f, id, aim);
    }
  }

  lemma WellIsSafe(s: State, f: Fd, id: ConnId, aim: Aim)
    requires Well(s, f, id, aim)
    ensures Safe(s, f, id)
  {
  }

  lemma WellOpen(s: State, f: Fd, id: ConnId, aim: Aim)
    requires Sound(s) && Well(s, f, id, aim)
    ensures f in s.open && s.open[f] == id
  {
    hide ClosersOk, PendingOk, OnceOk, Covered, StopOk, Tracked, Unthreatened;
  }

  // ---------- the loop, while nobody connects ----------

  /** The loop is on its way back to its top. */
  predicate Turning(l: Loop) {
    !l.LoopTop? && !l.Draining? && !l.Sweeping? && !l.Stopped?
  }

  /** It takes no further event, and accepts nobody. */
  ghost predicate Turns(s: State, a: LoopAnswer) {
    && Turning(s.loop) && LoopEnabled(s, a)
    && (s.loop.Waiting? ==> a == WaitDone) && (s.loop.Accepting? ==> a == AcceptFails)
  }

  /** The loop moves on and leaves the connection where it was. */
  lemma WellApart(s: State, s': State, f: Fd, id: ConnId, aim: Aim)
    requires Well(s, f, id, aim) && s'.workers == s.workers && s'.hist == s.hist && s'.now == s.now
    requires SameAt(s.table, s'.table, f) && SameAt(s.token, s'.token, f) && SameAt(s.timers, s'.timers, f)
    requires !Listed(Due(s'.loop), f) && Hangup(f) !in BatchOf(s'.loop)
    requires !(s'.loop.LoopClosing? && s'.loop.close == Erase(f))
    ensures Well(s', f, id, aim)
  {
    assert PcAt(s', f) == PcAt(s, f);
  }

  /** The loop takes the connection itself one place on. */
  lemma WellNext(s: State, s': State, f: Fd, id: ConnId, aim: Aim, p: Place, p': Place)
    requires Well(s, f, id, aim) && s'.workers == s.workers && s'.hist == s.hist && s'.now == s.now
    requires s'.table == s.table && s'.timers == s.timers
    requires f in s.token && s.token[f] == p && f in s'.token && s'.token[f] == p' && !p.Running? && !p'.Running?
    requires (Inward(p, Idle) ==> Inward(p', Idle)) && (Onwards(p, Idle) ==> Onwards(p', Idle))
    requires !Listed(Due(s'.loop), f) && Hangup(f) !in BatchOf(s'.loop)
    requires !(s'.loop.LoopClosing? && s'.loop.close == Erase(f))
    ensures Well(s', f, id, aim)
  {
  }

  lemma WellFacts(s: State, f: Fd, id: ConnId, aim: Aim)
    requires Well(s, f, id, aim)
    ensures f in s.table && s.table[f] == id && f in s.token && f in s.timers && s.timers[f] > s.now
    ensures !Listed(Due(s.loop), f) && Hangup(f) !in BatchOf(s.loop)
    ensures !(s.loop.LoopClosing? && s.loop.close == Erase(f))
  {
  }

  /** Nothing but the loop's place changes. */
  lemma WellLoop(s: State, l: Loop, f: Fd, id: ConnId, aim: Aim)
    requires Well(s, f, id, aim) && !Listed(Due(l), f) && Hangup(f) !in BatchOf(l)
    requires !(l.LoopClosing? && l.close == Erase(f))
    ensures Well(s.(loop := l), f, id, aim)
  {
    hide Well, Listed;
    WellApart(s, s.(loop := l), f, id, aim);
  }

  lemma TurnPlain(s: State, f: Fd, id: ConnId, aim: Aim, a: LoopAnswer)
    requires Well(s, f, id, aim) && Turns(s, a)
    requires s.loop.Waiting? || s.loop.Accepting? || (s.loop.Handling? && s.loop.batch == [])
    ensures Well(LoopStep(s, a), f, id, aim)
  {
    hide Well;
    WellFacts(s, f, id, aim);
    match s.loop
    case Waiting(batch) => WellLoop(s, Handling(batch), f, id, aim);
    case Accepting(batch) => WellLoop(s, Handling(batch), f, id, aim);
    case Handling(_) => WellLoop(s, Popping, f, id, aim);
  }

  lemma TurnExpire(s: State, f: Fd, id: ConnId, aim: Aim)
    requires Well(s, f, id, aim) && s.loop.Expiring?
    ensures Well(LoopStep(s, Onward), f, id, aim)
  {
    hide Well, Listed;
    WellFacts(s, f, id, aim);
    var rest := s.loop.rest;
    if rest == [] {
      WellLoop(s, LoopTop, f, id, aim);
    } else {
      NotTheFirst(rest, f);
      WellLoop(s, LoopClosing(Erase(rest[0].fd), ToIdle(rest[0], rest[1..])), f, id, aim);
    }
  }

  lemma NotTheFirst(rest: seq<Expiry>, f: Fd)
    requires rest != [] && !Listed(rest, f)
    ensures rest[0].fd != f && !Listed([rest[0]] + rest[1..], f) && !Listed(rest[1..], f)
  {
    assert [rest[0]] + rest[1..] == rest;
    assert forall i :: 0 <= i < |rest[1..]| ==> rest[1..][i] == rest[i + 1];
  }

  /** Taking up an event that is not the connection's, or its own. */
  lemma TurnHandle(s: State, f: Fd, id: ConnId, aim: Aim)
    requires BatchOk(s.token, BatchOf(s.loop)) && Well(s, f, id, aim) && s.loop.Handling? && s.loop.batch != []
    requires f in s.open
    ensures Well(StepHandle(s), f, id, aim)
  {
    hide Well, Listed, SetPlace, BatchOk;
    var e := s.loop.batch[0];
    TakenUp(s, f, id, aim, e);
    if e.Listen? {
      WellLoop(s, Accepting(s.loop.batch[1..]), f, id, aim);
    } else if e.fd != f {
      HandlesOther(s, f, id, aim, e);
    } else {
      HandlesOwn(s, f, id, aim, e);
    }
  }

  lemma TakenUp(s: State, f: Fd, id: ConnId, aim: Aim, e: Event)
    requires Well(s, f, id, aim) && s.loop.Handling? && s.loop.batch != [] && e == s.loop.batch[0]
    ensures var l := TakeUp(s.table, e, s.loop.batch[1..]);
            !Listed(Due(l), f) && Hangup(f) !in BatchOf(l) && !(l.LoopClosing? && l.close == Erase(f))
  {
    hide Well, Listed;
    WellFacts(s, f, id, aim);
    NothingDue(f);
    assert e in s.loop.batch && forall x :: x in s.loop.batch[1..] ==> x in s.loop.batch;
  }

  lemma HandlesOther(s: State, f: Fd, id: ConnId, aim: Aim, e: Event)
    requires Well(s, f, id, aim) && s.loop.Handling? && s.loop.batch != [] && e == s.loop.batch[0]
    requires !e.Listen? && e.fd != f
    ensures Well(SetPlace(s.(loop := TakeUp(s.table, e, s.loop.batch[1..])), e.fd, TakenPlace(s.table, e)), f, id, aim)
  {
    hide Well, Listed, TakeUp, TakenPlace, Due, BatchOf;
    TakenUp(s, f, id, aim, e);
    WellApart(s, SetPlace(s.(loop := TakeUp(s.table, e, s.loop.batch[1..])), e.fd, TakenPlace(s.table, e)), f, id, aim);
  }

  lemma HandlesOwn(s: State, f: Fd, id: ConnId, aim: Aim, e: Event)
    requires BatchOk(s.token, BatchOf(s.loop)) && Well(s, f, id, aim) && f in s.open
    requires s.loop.Handling? && s.loop.batch != [] && e == s.loop.batch[0] && !e.Listen? && e.fd == f
    ensures Well(SetPlace(s.(loop := TakeUp(s.table, e, s.loop.batch[1..])), f, TakenPlace(s.table, e)), f, id, aim)
  {
    hide Well, Listed, Due;
    WellFacts(s, f, id, aim);
    assert e in s.loop.batch;
    TakenUp(s, f, id, aim, e);
    var s' := SetPlace(s.(loop := Beginning(f, s.table[f], e.dir, s.loop.batch[1..])), f, Dispatching(e.dir));
    WellNext(s, s', f, id, aim, Delivered(e.dir), Dispatching(e.dir));
  }

  lemma NothingDue(f: Fd)
    ensures !Listed([], f)
  {
  }

  lemma TurnInsert(s: State, f: Fd, id: ConnId, aim: Aim)
    requires Well(s, f, id, aim) && s.loop.Inserting? && s.loop.fd != f
    ensures Well(StepInsert(s), f, id, aim)
  {
    hide Well, Listed;
    WellFacts(s, f, id, aim);
    NothingDue(f);
    WellApart(s, StepInsert(s), f, id, aim);
  }

  lemma TurnAdd(s: State, f: Fd, id: ConnId, aim: Aim)
    requires Well(s, f, id, aim) && s.loop.Adding? && s.loop.fd in s.token && s.token[s.loop.fd] == Accepted
    requires s.loop.fd in s.open
    ensures Well(StepAdd(s), f, id, aim)
  {
    hide Well, Listed;
    WellFacts(s, f, id, aim);
    NothingDue(f);
    var g := s.loop.fd;
    var s' := s.(loop := Accepting(s.loop.batch), interest := s.interest[g := On(In)],
                 token := s.token[g := Armed(In)]);
    assert StepAdd(s) == s';
    if g != f {
      WellApart(s, s', f, id, aim);
    } else {
      WellNext(s, s', f, id, aim, Accepted, Armed(In));
    }
  }

  lemma TurnBegin(s: State, f: Fd, id: ConnId, aim: Aim)
    requires Well(s, f, id, aim) && s.loop.Beginning? && f in s.open
    requires s.loop.fd == f ==>
               s.loop.id == id && !s.ConnAt(id).closed && !s.ConnAt(id).processing &&
               s.token[f] == Dispatching(s.loop.dir)
    ensures Well(StepBegin(s), f, id, aim)
  {
    hide Well, Listed;
    WellFacts(s, f, id, aim);
    NothingDue(f);
    if s.loop.fd != f {
      WellApart(s, StepBegin(s), f, id, aim);
    } else {
      WellNext(s, StepBegin(s), f, id, aim, Dispatching(s.loop.dir), Claimed(s.loop.dir));
    }
  }

  lemma TurnEnqueue(s: State, f: Fd, id: ConnId, aim: Aim)
    requires Well(s, f, id, aim) && s.loop.Enqueueing? && f in s.open
    requires s.loop.fd == f ==> f in s.token && s.token[f] == Claimed(s.loop.dir)
    ensures Well(StepEnqueue(s), f, id, aim)
  {
    hide Well, Listed;
    WellFacts(s, f, id, aim);
    NothingDue(f);
    if s.loop.fd != f {
      WellApart(s, StepEnqueue(s), f, id, aim);
    } else {
      WellNext(s, StepEnqueue(s), f, id, aim, Claimed(s.loop.dir), Queued(s.loop.dir));
    }
  }

  lemma TurnPop(s: State, f: Fd, id: ConnId, aim: Aim, fds: seq<Fd>)
    requires Well(s, f, id, aim) && s.loop.Popping? && ExpiredList(s.timers, s.now, fds)
    ensures Well(StepPop(s, fds), f, id, aim)
  {
    hide Well;
    WellFacts(s, f, id, aim);
    assert f !in fds;
    WellApart(s, StepPop(s, fds), f, id, aim);
  }

  lemma ResumedApart(r: Resume, c: Close, f: Fd)
    requires !Listed(Due(LoopClosing(c, r)), f) && Hangup(f) !in BatchOf(LoopClosing(c, r)) && c.fd != f
    ensures !Listed(Due(Resumed(r)), f) && Hangup(f) !in BatchOf(Resumed(r))
    ensures forall c': Close :: !c'.Erase? ==> !Listed(Due(LoopClosing(c', r)), f)
    ensures forall c': Close :: Hangup(f) !in BatchOf(LoopClosing(c', r))
  {
    if r.ToIdle? && c.Erase? {
      assert forall i :: 0 <= i < |r.rest| ==> ([r.current] + r.rest)[i + 1] == r.rest[i];
    }
  }

  lemma TurnClose(s: State, f: Fd, id: ConnId, aim: Aim)
    requires Well(s, f, id, aim) && s.loop.LoopClosing? && s.loop.close.fd != f
    ensures Well(StepLoopClosing(s), f, id, aim)
  {
    hide Well, Listed, Due, BatchOf, CloseEffect;
    WellFacts(s, f, id, aim);
    ResumedApart(s.loop.resume, s.loop.close, f);
    var s' := CloseEffect(s, LoopThread, s.loop.close);
    CloseApart(s, s.loop.close, f);
    var next := CloseNext(s, s.loop.close);
    WellApart(s, s'.(loop := if next.Some? then LoopClosing(next.value, s.loop.resume) else Resumed(s.loop.resume)),
              f, id, aim);
  }

  lemma CloseApart(s: State, c: Close, f: Fd)
    requires c.fd != f
    ensures var s' := CloseEffect(s, LoopThread, c);
            && s'.workers == s.workers && s'.hist == s.hist && s'.now == s.now
            && SameAt(s.table, s'.table, f) && SameAt(s.token, s'.token, f) && SameAt(s.timers, s'.timers, f)
  {
    hide ConnIn;
  }

  /** What the loop's place owes the connection. */
  lemma LoopGround(respond: Responder, s: State, f: Fd, id: ConnId, aim: Aim)
    requires Sound(s) && Steady(respond, s) && Well(s, f, id, aim)
    ensures f in s.open && BatchOk(s.token, BatchOf(s.loop))
    ensures s.loop.Inserting? ==> s.loop.fd != f
    ensures s.loop.Adding? ==> s.loop.fd in s.token && s.token[s.loop.fd] == Accepted && s.loop.fd in s.open
    ensures s.loop.LoopClosing? ==> s.loop.close.fd != f
    ensures (s.loop.Beginning? || s.loop.Enqueueing?) && s.loop.fd == f ==>
              s.token[f] == if s.loop.Beginning? then Dispatching(s.loop.dir) else Claimed(s.loop.dir)
  {
    hide Fine, HistoryOk, DataOk, PastOk, HoldersOk, OnceOk, Covered, StopOk, WorkersOk, QueueOk, ArmedOk, PlacesOk,
         MarksOk, Tracked;
    if s.loop.LoopClosing? && !s.loop.close.Erase? {
      assert PastErase(CloseOf(s.loop, s.workers, LoopThread));
    }
  }

  lemma BeginFree(respond: Responder, s: State, f: Fd, id: ConnId, aim: Aim)
    requires Sound(s) && Steady(respond, s) && Well(s, f, id, aim) && s.loop.Beginning? && s.loop.fd == f
    ensures s.loop.id == id && !s.ConnAt(id).closed && !s.ConnAt(id).processing
  {
    hide Sound, Steady, Tokens, Fine, Tracked, Unthreatened;
    SteadyTokens(respond, s);
    BeginGround(s);
    LoopGround(respond, s, f, id, aim);
    TabledFine(respond, s, f);
    ClaimFine(respond, DirStage(s.loop.dir), s.ConnAt(id), s.HistAt(id));
  }

  /** Every step of the loop on its way to its top keeps the connection well. */
  lemma LoopKeeps(respond: Responder, s: State, f: Fd, id: ConnId, aim: Aim, a: LoopAnswer)
    requires Sound(s) && Steady(respond, s) && Well(s, f, id, aim) && Turns(s, a)
    ensures Well(LoopStep(s, a), f, id, aim)
  {
    hide Sound, Steady, Well, BatchOk, StepHandle, StepInsert, StepAdd, StepBegin, StepEnqueue, StepLoopClosing,
         StepPop, ExpiredList;
    LoopGround(respond, s, f, id, aim);
    if s.loop.Handling? && s.loop.batch != [] {
      TurnHandle(s, f, id, aim);
    } else if s.loop.Inserting? {
      TurnInsert(s, f, id, aim);
    } else if s.loop.Adding? {
      TurnAdd(s, f, id, aim);
    } else if s.loop.Beginning? {
      if s.loop.fd == f {
        BeginFree(respond, s, f, id, aim);
      }
      TurnBegin(s, f, id, aim);
    } else if s.loop.Enqueueing? {
      WellFacts(s, f, id, aim);
      TurnEnqueue(s, f, id, aim);
    } else if s.loop.LoopClosing? {
      TurnClose(s, f, id, aim);
    } else if s.loop.Popping? {
      TurnPop(s, f, id, aim, a.fds);
    } else if s.loop.Expiring? {
      TurnExpire(s, f, id, aim);
    } else {
      TurnPlain(s, f, id, aim, a);
    }
  }

  // ---------- the way to the top is finite ----------

  function Before(l: Loop): nat {
    if l.LoopTop? || l.Expiring? || (l.LoopClosing? && l.resume.ToIdle?) then 0 else 1
  }

  function CloseRank(c: Close): nat {
    match c
    case Erase(_) => 3
    case Mark(_, _) => 2
    case Unregister(_, _) => 1
    case Shut(_, _) => 0
  }

  function Rank(l: Loop): nat {
    match l
    case Waiting(batch) => 3 + 8 * |batch|
    case Handling(batch) => 1 + 8 * |batch|
    case Accepting(batch) => 2 + 8 * |batch|
    case Inserting(_, _, batch) => 4 + 8 * |batch|
    case Adding(_, batch) => 3 + 8 * |batch|
    case Beginning(_, _, _, batch) => 3 + 8 * |batch|
    case Enqueueing(_, _, batch) => 2 + 8 * |batch|
    case LoopClosing(c, ToBatch(batch)) => 2 + CloseRank(c) + 8 * |batch|
    case LoopClosing(c, ToIdle(_, rest)) => 2 + CloseRank(c) + 8 * |rest|
    case Expiring(rest) => 1 + 8 * |rest|
    case _ => 0
  }

  /** On the round, past its wait, with nobody newly accepted. */
  predicate Round(l: Loop) {
    (Turning(l) && !l.Waiting? && !l.Inserting?) || l == LoopTop
  }

  /** Nearer to the top, still running, and nothing read, served or sent. */
  ghost predicate Turned(s: State, s': State) {
    && s'.running == s.running && s'.hist == s.hist && Round(s'.loop)
    && (Before(s'.loop) < Before(s.loop) || (Before(s'.loop) == Before(s.loop) && Rank(s'.loop) < Rank(s.loop)))
  }

  lemma TurnedBy(s: State, s': State, l: Loop)
    requires s'.loop == l && s'.running == s.running && s'.hist == s.hist && Round(l)
    requires Before(l) < Before(s.loop) || (Before(l) == Before(s.loop) && Rank(l) < Rank(s.loop))
    ensures Turned(s, s')
  {
  }

  lemma MoveTurned(s: State, l: Loop)
    requires Round(l)
    requires Before(l) < Before(s.loop) || (Before(l) == Before(s.loop) && Rank(l) < Rank(s.loop))
    ensures Turned(s, s.(loop := l))
  {
  }

  lemma LoopTurned(s: State, a: LoopAnswer)
    requires Turns(s, a)
    ensures Turned(s, LoopStep(s, a))
  {
    hide Turned, StepHandle, StepInsert, StepAdd, StepBegin, StepEnqueue, StepLoopClosing, StepPop, ExpiredList;
    match s.loop
    case Waiting(batch) => MoveTurned(s, Handling(batch));
    case Handling(batch) =>
      if batch == [] {
        MoveTurned(s, Popping);
      } else {
        HandleTurned(s);
      }
    case Accepting(batch) => MoveTurned(s, Handling(batch));
    case Inserting(_, _, _) => InsertTurned(s);
    case Adding(_, _) => AddTurned(s);
    case Beginning(_, _, _, _) => BeginTurned(s);
    case Enqueueing(_, _, _) => EnqueueTurned(s);
    case LoopClosing(_, _) => CloseTurned(s);
    case Popping => PopTurned(s, a.fds);
    case Expiring(rest) =>
      if rest == [] {
        MoveTurned(s, LoopTop);
      } else {
        MoveTurned(s, LoopClosing(Erase(rest[0].fd), ToIdle(rest[0], rest[1..])));
      }
  }

  lemma PlaceTurned(s: State, l: Loop, fd: Fd, p: Place, interest: Interests)
    requires Round(l)
    requires Before(l) < Before(s.loop) || (Before(l) == Before(s.loop) && Rank(l) < Rank(s.loop))
    ensures Turned(s, SetPlace(s.(loop := l), fd, p))
    ensures Turned(s, SetPlace(s.(loop := l, interest := interest), fd, p))
  {
    hide Turned;
    TurnedBy(s, SetPlace(s.(loop := l), fd, p), l);
    TurnedBy(s, SetPlace(s.(loop := l, interest := interest), fd, p), l);
  }

  lemma HandleTurned(s: State)
    requires s.loop.Handling? && s.loop.batch != []
    ensures Turned(s, StepHandle(s))
  {
    hide Turned, SetPlace, TakenPlace;
    var e := s.loop.batch[0];
    if e.Listen? {
      MoveTurned(s, Accepting(s.loop.batch[1..]));
    } else {
      PlaceTurned(s, TakeUp(s.table, e, s.loop.batch[1..]), e.fd, TakenPlace(s.table, e), s.interest);
    }
  }

  lemma InsertTurned(s: State)
    requires s.loop.Inserting?
    ensures Turned(s, StepInsert(s))
  {
    hide Turned;
    TurnedBy(s, StepInsert(s), Adding(s.loop.fd, s.loop.batch));
  }

  lemma PopTurned(s: State, fds: seq<Fd>)
    requires s.loop.Popping?
    ensures Turned(s, StepPop(s, fds))
  {
    hide Turned, Registered, Without;
    TurnedBy(s, StepPop(s, fds), Expiring(Registered(s, fds)));
  }

  lemma AddTurned(s: State)
    requires s.loop.Adding?
    ensures Turned(s, StepAdd(s))
  {
    hide Turned, SetPlace;
    var fd := s.loop.fd;
    MoveTurned(s, Accepting(s.loop.batch));
    PlaceTurned(s, Accepting(s.loop.batch), fd, Armed(In), s.interest[fd := On(In)]);
  }

  lemma BeginTurned(s: State)
    requires s.loop.Beginning?
    ensures Turned(s, StepBegin(s))
  {
    hide Turned, ConnIn;
    TurnedBy(s, StepBegin(s), StepBegin(s).loop);
  }

  lemma EnqueueTurned(s: State)
    requires s.loop.Enqueueing?
    ensures Turned(s, StepEnqueue(s))
  {
    hide Turned;
    TurnedBy(s, StepEnqueue(s), Handling(s.loop.batch));
  }

  lemma CloseTurned(s: State)
    requires s.loop.LoopClosing?
    ensures Turned(s, StepLoopClosing(s))
  {
    hide Turned, CloseEffect;
    var s' := CloseEffect(s, LoopThread, s.loop.close);
    CloseRuns(s, s.loop.close);
    var next := CloseNext(s, s.loop.close);
    var l := if next.Some? then LoopClosing(next.value, s.loop.resume) else Resumed(s.loop.resume);
    TurnedBy(s, s'.(loop := l), l);
  }

  lemma CloseRuns(s: State, c: Close)
    ensures var s' := CloseEffect(s, LoopThread, c); s'.running == s.running && s'.hist == s.hist
  {
    hide ConnIn, Without;
  }
}
