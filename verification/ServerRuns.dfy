/** Careful runs of the server, and what they guarantee. */
module ServerRuns {
  import opened Bytes
  import opened Connections
  import opened Service
  import opened Timers
  import opened Server
  import opened ServerTable
  import opened ServerData
  import opened ServerToken

  // ---------- every step of the loop ----------

  lemma TableGround(s: State)
    requires Sound(s)
    ensures forall f :: f in s.table ==> f in s.open && s.table[f] == s.open[f] && s.table[f] in s.conns
    ensures s.conns.Keys <= s.sock.Keys
  {
    hide Covered, StopOk;
  }

  lemma BeginGround(s: State)
    requires Sound(s) && Tokens(s) && s.loop.Beginning?
    ensures s.loop.id in s.conns && s.loop.id in s.sock && s.sock[s.loop.id] == s.loop.fd
    ensures s.loop.fd in s.table && s.table[s.loop.fd] == s.loop.id
  {
    hide WorkersOk, QueueOk, BatchOk, ArmedOk, PlacesOk, MarksOk, ClosersOk, PendingOk, OnceOk, Covered, StopOk;
  }

  lemma InsertGround(s: State)
    requires Sound(s) && s.loop.Inserting?
    ensures s.loop.fd in s.open && s.open[s.loop.fd] == s.loop.id
    ensures OpenOk(s.open, s.owner[s.loop.fd := Tabled], s.sock)
    ensures forall w :: w in s.workers && PastErase(CloseOf(s.loop, s.workers, WorkerThread(w))) ==>
              CloseOf(s.loop, s.workers, WorkerThread(w)).value.id in s.conns
  {
    hide Covered, StopOk;
    forall w | w in s.workers && PastErase(CloseOf(s.loop, s.workers, WorkerThread(w)))
      ensures CloseOf(s.loop, s.workers, WorkerThread(w)).value.id in s.conns
    {
      assert HolderOk(s.workers[w].Names(), s.workers[w].Holds(), s.conns.Keys, s.sock);
    }
  }

  lemma AcceptGround(s: State, f: Fd, id: ConnId)
    requires Sound(s) && f !in s.open && id !in s.sock
    ensures f !in s.table && s.conns.Keys <= s.sock.Keys
    ensures OpenOk(s.open[f := id], s.owner[f := Pending], s.sock[id := f])
  {
    hide Covered, StopOk;
  }

  lemma SweepGround(s: State)
    requires Sound(s) && s.loop == Sweeping
    ensures s.queue == [] && forall w :: w in s.workers ==> s.workers[w] == Idle
    ensures s.open.Keys == s.table.Keys && forall f :: f in s.table ==> s.table[f] == s.open[f]
  {
    AllTabled(s);
  }

  lemma WaitGround(s: State)
    requires Sound(s) && Tokens(s) && !s.loop.LoopClosing?
    ensures forall f :: f in s.interest && s.interest[f] != Off ==> f in s.table
  {
    hide Sound, Steady;
    forall f | f in s.interest && s.interest[f] != Off ensures f in s.table {
      ArmedIsTabled(s, f);
    }
  }

  /** Nothing registered is left behind: the loop finds no registration to erase. */
  lemma LeaveClosing(respond: Responder, s: State, f: Fd)
    requires Steady(respond, s) && s.loop.LoopClosing? && s.loop.close == Erase(f) && f !in s.table
    ensures Steady(respond, s.(loop := Resumed(s.loop.resume)))
  {
    hide Sound, Steady;
    LoopCloseMove(respond, s, Resumed(s.loop.resume));
  }

  lemma SteadyTokens(respond: Responder, s: State)
    requires Steady(respond, s)
    ensures Tokens(s)
  {
    hide Tokens;
  }

  lemma EraseStep(respond: Responder, s: State, f: Fd)
    requires Sound(s) && Steady(respond, s) && s.loop.LoopClosing? && s.loop.close == Erase(f)
    ensures Steady(respond, StepLoopClosing(s))
  {
    hide Sound, Steady;
    TableGround(s);
    if f in s.table {
      LoopEraseKeeps(respond, s, f, LoopClosing(Mark(f, s.table[f]), s.loop.resume), Without(s.timers, [f]));
    } else {
      LeaveClosing(respond, s, f);
    }
  }

  lemma ShutStep(respond: Responder, s: State, f: Fd, id: ConnId)
    requires Sound(s) && Steady(respond, s) && s.loop.LoopClosing? && s.loop.close == Shut(f, id)
    ensures Steady(respond, StepLoopClosing(s))
  {
    hide Sound, Steady;
    PastGround(s, LoopThread);
    LoopShutKeeps(respond, s, f, id, Resumed(s.loop.resume), s.closes[id := s.ClosesAt(id) + 1]);
  }

  lemma LoopClosingKeeps(respond: Responder, s: State)
    requires Sound(s) && Steady(respond, s) && s.loop.LoopClosing?
    ensures Steady(respond, StepLoopClosing(s))
  {
    hide Sound, Steady;
    match s.loop.close
    case Erase(f) => EraseStep(respond, s, f);
    case Mark(f, id) =>
      PastGround(s, LoopThread);
      LoopMarkKeeps(respond, s, f, id);
    case Unregister(f, id) =>
      PastGround(s, LoopThread);
      LoopUnregisterKeeps(respond, s, f, id);
    case Shut(f, id) => ShutStep(respond, s, f, id);
  }

  lemma MovesKeep(respond: Responder, s: State, a: LoopAnswer)
    requires Steady(respond, s) && LoopEnabled(s, a)
    requires s.loop.LoopTop? || (s.loop.Handling? && s.loop.batch == []) || s.loop.Popping? || s.loop.Expiring? ||
             s.loop.Draining?
             || (s.loop.Accepting? && !a.AcceptFd?)
    ensures Steady(respond, LoopStep(s, a))
  {
    hide Sound, Steady;
    match s.loop
    case LoopTop => LoopMoveSteady(respond, s, if s.running then Waiting([]) else Draining);
    case Handling(_) => LoopMoveSteady(respond, s, Popping);
    case Accepting(batch) => LoopMoveSteady(respond, s, Handling(batch));
    case Popping =>
      LoopMoveSteady(respond, s, Expiring(Registered(s, a.fds)));
      TimersSteady(respond, s.(loop := Expiring(Registered(s, a.fds))), Without(s.timers, a.fds));
    case Expiring(rest) =>
      LoopMoveSteady(respond, s, if rest == [] then LoopTop
                                 else LoopClosing(Erase(rest[0].fd), ToIdle(rest[0], rest[1..])));
    case Draining => LoopMoveSteady(respond, s, Sweeping);
  }

  lemma BlocksKeep(respond: Responder, s: State, a: LoopAnswer)
    requires Sound(s) && Steady(respond, s) && LoopEnabled(s, a)
    requires s.loop.Inserting? || s.loop.Adding? || s.loop.Beginning? || s.loop.Enqueueing? || s.loop.LoopClosing? ||
             s.loop.Sweeping?
    ensures Steady(respond, LoopStep(s, a))
  {
    hide Sound, Steady, StepLoopClosing, StepSweep, Tokens;
    match s.loop
    case Inserting(_, _, _) =>
      TableGround(s);
      InsertGround(s);
      InsertKeeps(respond, s, Refresh(s, s.loop.fd).timers);
    case Adding(_, _) => AddKeeps(respond, s);
    case Beginning(_, _, _, _) =>
      SteadyTokens(respond, s);
      BeginGround(s);
      BeginKeeps(respond, s);
    case Enqueueing(_, _, _) => EnqueueKeeps(respond, s);
    case LoopClosing(_, _) => LoopClosingKeeps(respond, s);
    case Sweeping =>
      SweepGround(s);
      SweepKeeps(respond, s);
  }

  lemma AcceptSteady(respond: Responder, s: State, f: Fd, id: ConnId)
    requires Sound(s) && Steady(respond, s) && s.loop.Accepting? && f !in s.open && id !in s.sock
    requires Unnamed(s, f)
    ensures Steady(respond, StepAccept(s, f, id))
  {
    hide Sound, Steady;
    AcceptGround(s, f, id);
    AcceptKeeps(respond, s, f, id);
  }

  lemma LoopStepSteady(respond: Responder, s: State, a: LoopAnswer)
    requires Sound(s) && Steady(respond, s) && LoopEnabled(s, a) && FdReuseOk(s, LoopActs(a))
    ensures Steady(respond, LoopStep(s, a))
  {
    hide Sound, Steady;
    if s.loop.Waiting? {
      SteadyTokens(respond, s);
      WaitGround(s);
      WaitSteady(respond, s, a);
    } else if s.loop.Handling? && s.loop.batch != [] {
      TableGround(s);
      HandleSteady(respond, s);
    } else if s.loop.Accepting? && a.AcceptFd? {
      AcceptSteady(respond, s, a.fd, a.id);
    } else if s.loop.Inserting? || s.loop.Adding? || s.loop.Beginning? || s.loop.Enqueueing? ||
              s.loop.LoopClosing? || s.loop.Sweeping? {
      BlocksKeep(respond, s, a);
    } else {
      MovesKeep(respond, s, a);
    }
  }

  // ---------- every step ----------

  lemma PeerSteady(respond: Responder, s: State, id: ConnId, data: Text)
    requires Steady(respond, s) && id in s.hist
    ensures Steady(respond, SetHist(s, id, s.hist[id].(input := s.hist[id].input + data)))
  {
    hide Fine, HistoryOk;
    var h := s.hist[id].(input := s.hist[id].input + data);
    var hist := s.hist[id := h];
    PastPeer(respond, s.hist, id, data);
    forall f | f in s.open && f in s.token
      ensures Fine(PhaseOf(s.token[f], s.workers), ConnIn(s.conns, s.open[f]), HistIn(hist, s.open[f]), respond)
    {
      if s.open[f] == id {
        PeerFine(respond, PhaseOf(s.token[f], s.workers), ConnIn(s.conns, id), s.hist[id], data);
      }
    }
  }

  lemma PastPeer(respond: Responder, hist: Histories, id: ConnId, data: Text)
    requires PastOk(respond, hist) && id in hist
    ensures PastOk(respond, hist[id := hist[id].(input := hist[id].input + data)])
    ensures hist[id := hist[id].(input := hist[id].input + data)].Keys == hist.Keys
  {
    hide Fine, HistoryOk;
    PeerFine(respond, Phase(Gone, Either), FRESH, hist[id], data);
  }

  lemma TickSteady(respond: Responder, s: State, now: int)
    requires Steady(respond, s)
    ensures Steady(respond, s.(now := now))
  {
    hide WorkersOk, QueueOk, BatchOk, HandOk, ArmedOk, PlacesOk, MarksOk, DataOk, PastOk, OpenOk, Fine, HistoryOk;
  }

  lemma StepSteady(respond: Responder, s: State, a: Action)
    requires Sound(s) && Steady(respond, s) && Enabled(s, a) && FdReuseOk(s, a)
    requires Speaks(respond)
    ensures Steady(respond, Step(s, a))
  {
    hide Sound, Steady, LoopStep, WorkerStep, LoopEnabled, WorkerEnabled;
    match a
    case PeerSends(id, data) => PeerSteady(respond, s, id, data);
    case Tick(ticks) => TickSteady(respond, s, s.now + ticks);
    case RequestStop => RunningSteady(respond, s, false);
    case LoopActs(la) =>
      LoopStepSteady(respond, s, la);
    case WorkerActs(w, wa) =>
      SteadyTokens(respond, s);
      WorkerIsThere(s, w, wa);
      Ground(s, w);
      WorkerStepSteady(respond, s, w, wa);
  }

  lemma WorkerIsThere(s: State, w: WorkerId, a: Answer)
    requires WorkerEnabled(s, w, a)
    ensures w in s.workers
  {
  }

  lemma InitSteady(respond: Responder, cfg: Config, now: int)
    requires cfg.respond == respond
    ensures Steady(respond, Init(cfg, now))
  {
    hide Fine, HistoryOk;
    var s := Init(cfg, now);
    forall w | w in s.workers
      ensures Assigned(s.open, s.token, w, s.workers[w]) && Marked(CloseOf(s.loop, s.workers, WorkerThread(w)), s.conns)
    {
    }
  }

  /** Every state of every careful run is sound and steady. */
  lemma {:induction false} CarefulRun(cfg: Config, now: int, acts: seq<Action>, s: State)
    requires Speaks(cfg.respond) && Run(Init(cfg, now), acts, s, true)
    ensures Sound(s) && Steady(cfg.respond, s)
  {
    hide Sound, Steady;
    RunSound(cfg, now, acts, s, true);
    if acts == [] {
      InitSteady(cfg.respond, cfg, now);
    } else {
      var last := acts[|acts| - 1];
      var m :| Run(Init(cfg, now), acts[..|acts| - 1], m, true) && Enabled(m, last) && s == Step(m, last) &&
               FdReuseOk(m, last);
      CarefulRun(cfg, now, acts[..|acts| - 1], m);
      StepSteady(cfg.respond, m, last);
    }
  }

  // ---------- runs as such ----------

  /** A careful run is a run. */
  lemma {:induction false} RunForgets(start: State, acts: seq<Action>, s: State)
    requires Run(start, acts, s, true)
    ensures Run(start, acts, s, false)
  {
    hide Enabled, Step, FdReuseOk;
    if acts != [] {
      var last := acts[|acts| - 1];
      var m :| Run(start, acts[..|acts| - 1], m, true) && Enabled(m, last) && s == Step(m, last);
      RunForgets(start, acts[..|acts| - 1], m);
    }
  }

  /** The actions determine where a run ends. */
  lemma {:induction false} RunSame(start: State, acts: seq<Action>, s: State, s': State)
    requires Run(start, acts, s, false) && Run(start, acts, s', false)
    ensures s == s'
  {
    hide Enabled, Step, FdReuseOk;
    if acts != [] {
      var last := acts[|acts| - 1];
      var m :| Run(start, acts[..|acts| - 1], m, false) && Enabled(m, last) && s == Step(m, last);
      var m' :| Run(start, acts[..|acts| - 1], m', false) && Enabled(m', last) && s' == Step(m', last);
      RunSame(start, acts[..|acts| - 1], m, m');
    }
  }

  /** Every run passes through the states its beginnings lead to. */
  lemma {:induction false} RunPasses(start: State, acts: seq<Action>, s: State, k: nat, careful: bool)
    returns (m: State)
    requires Run(start, acts, s, careful) && k <= |acts|
    ensures Run(start, acts[..k], m, careful)
    decreases |acts|
  {
    hide Enabled, Step, FdReuseOk;
    if k == |acts| {
      assert acts[..k] == acts;
      m := s;
    } else {
      var last := acts[|acts| - 1];
      var before :| Run(start, acts[..|acts| - 1], before, careful) && Enabled(before, last);
      m := RunPasses(start, acts[..|acts| - 1], before, k, careful);
      assert acts[..|acts| - 1][..k] == acts[..k];
    }
  }

  lemma RunSnoc(start: State, acts: seq<Action>, m: State, last: Action, s: State, careful: bool)
    requires Run(start, acts, m, careful) && Enabled(m, last) && s == Step(m, last)
    requires careful ==> FdReuseOk(m, last)
    ensures Run(start, acts + [last], s, careful)
  {
    hide Enabled, Step, FdReuseOk;
    var all := acts + [last];
    assert all != [] && all[|all| - 1] == last && all[..|all| - 1] == acts;
    assert Run(start, all[..|all| - 1], m, careful) && Enabled(m, all[|all| - 1]) && s == Step(m, all[|all| - 1]);
    assert careful ==> FdReuseOk(m, all[|all| - 1]);
  }

  /** A run from where another ends goes on from where that one began. */
  lemma {:induction false} RunJoin(start: State, acts: seq<Action>, s: State, more: seq<Action>, s': State,
                                   careful: bool)
    requires Run(start, acts, s, careful) && Run(s, more, s', careful)
    ensures Run(start, acts + more, s', careful)
    decreases |more|
  {
    hide Enabled, Step, FdReuseOk;
    if more == [] {
      assert acts + more == acts;
    } else {
      var n := |more| - 1;
      var last := more[n];
      var m :| Run(s, more[..n], m, careful) && Enabled(m, last) && s' == Step(m, last) &&
               (careful ==> FdReuseOk(m, last));
      RunJoin(start, acts, s, more[..n], m, careful);
      RunSnoc(start, acts + more[..n], m, last, s', careful);
      assert acts + more == acts + more[..n] + [last];
    }
  }
}
