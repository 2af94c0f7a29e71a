/** What closing a connection means: a failed one is only closed, a closed one is served nothing more, and
    no descriptor is closed while epoll knows it. */
module ServerCloses {
  import opened Bytes
  import opened Connections
  import opened Service
  import opened Timers
  import opened Server
  import opened ServerTable
  import opened ServerToken
  import opened ServerRuns
  import opened ServerGrowth
  import opened ServerFootprint
  import opened ServerProgress
  import opened ServerTimers
  import opened ServerStop

  // ---------- a failed connection is only closed ----------

  /** The peer has ended its stream, or the system failed to read or to write. */
  predicate Breaks(pc: Worker, a: Answer) {
    (pc.ReadRecv? && (a == EndOfFile || a == Fails)) || (pc.WriteSend? && a == Fails)
  }

  /** As long as it is registered, the connection is in the hands of the worker about to close it, with what
      it was served and sent as it was; and it will not be registered again. */
  ghost predicate Doomed(s: State, w: WorkerId, f: Fd, id: ConnId, served: seq<Exchange>, tx: Text) {
    && id in s.sock && !(s.loop.Inserting? && s.loop.id == id)
    && (f in s.table && s.table[f] == id ==>
          && w in s.workers && s.workers[w] == Closing(Erase(f))
          && s.HistAt(id).served == served && s.HistAt(id).tx == tx)
  }

  lemma HeldIsMade(s: State, w: WorkerId, id: ConnId)
    requires Sound(s) && w in s.workers && s.workers[w].Holds() == Some(id)
    ensures id in s.sock && !(s.loop.Inserting? && s.loop.id == id)
  {
    hide OpenOk, TableOk, ClosersOk, OnceOk, Covered, StopOk;
  }

  lemma PcDooms(s: State, w: WorkerId, f: Fd, id: ConnId)
    requires id in s.sock && !(s.loop.Inserting? && s.loop.id == id)
    ensures Doomed(SetWorker(s, w, Closing(Erase(f))), w, f, id, s.HistAt(id).served, s.HistAt(id).tx)
  {
  }

  lemma BreakDooms(s: State, w: WorkerId, a: Answer, f: Fd, id: ConnId)
    requires Sound(s) && WorkerEnabled(s, w, a) && Breaks(s.workers[w], a)
    requires s.workers[w].fd == f && s.workers[w].id == id
    ensures Doomed(WorkerStep(s, w, a), w, f, id, s.HistAt(id).served, s.HistAt(id).tx)
  {
    hide Sound, Doomed, SetWorker, SetHist;
    HeldIsMade(s, w, id);
    PcDooms(s, w, f, id);
  }

  /** Where a doomed connection stands. */
  lemma DoomedPlace(s: State, w: WorkerId, f: Fd, id: ConnId)
    requires Sound(s) && Tokens(s) && f in s.table && s.table[f] == id
    requires w in s.workers && s.workers[w] == Closing(Erase(f))
    ensures f in s.open && s.open[f] == id && f in s.token && s.token[f] == Running(w)
    ensures id in s.sock && s.sock[id] == f
    ensures forall u :: u in s.workers && u != w ==> s.workers[u].Names() != Some(f)
    ensures forall i :: 0 <= i < |s.queue| ==> s.queue[i].fd != f
  {
    hide BatchOk, HandOk, ArmedOk, PlacesOk, MarksOk, ClosersOk, PendingOk, HoldersOk, OnceOk, Covered, StopOk;
    assert Assigned(s.open, s.token, w, s.workers[w]);
    forall u | u in s.workers && u != w ensures s.workers[u].Names() != Some(f) {
      assert Assigned(s.open, s.token, u, s.workers[u]);
    }
  }

  /** Another worker's step concerns another connection. */
  lemma OtherConcerned(s: State, u: WorkerId, a: Answer, f: Fd, id: ConnId) returns (k: ConnId)
    requires Sound(s) && WorkerEnabled(s, u, a) && f in s.open && s.open[f] == id && id in s.sock && s.sock[id] == f
    requires s.workers[u].Names() != Some(f) && forall i :: 0 <= i < |s.queue| ==> s.queue[i].fd != f
    ensures CanWork(s, u) && Subject(s, u) != f && k != id
    ensures Local(s, WorkerStep(s, u, a), u, Subject(s, u), k)
  {
    hide TableOk, ClosersOk, PendingOk, OnceOk, Covered, StopOk, WorkerStep, Local, Flat;
    var pc := s.workers[u];
    assert HolderOk(pc.Names(), pc.Holds(), s.conns.Keys, s.sock);
    k := id + 1;
    if pc.ReadRecv? || pc.WriteSend? {
      if a.Got? {
        k := s.Behind(pc.fd);
      }
    } else if pc.Holds().Some? {
      k := pc.Holds().value;
    }
    WorkerLocal(s, u, a, k);
  }

  lemma LocalKeepsDoom(s: State, s': State, u: WorkerId, fd: Fd, k: ConnId, w: WorkerId, f: Fd, id: ConnId,
                       served: seq<Exchange>, tx: Text)
    requires Local(s, s', u, fd, k) && fd != f && k != id && u != w && s.sock.Keys <= s'.sock.Keys
    requires Doomed(s, w, f, id, served, tx)
    ensures Doomed(s', w, f, id, served, tx)
  {
    assert StaysAt(s, s', f);
    assert HistIn(s'.hist, id) == HistIn(s.hist, id);
  }

  /** Once its registration is gone, no worker brings it back. */
  lemma LocalKeepsGone(s: State, s': State, u: WorkerId, fd: Fd, k: ConnId, w: WorkerId, f: Fd, id: ConnId,
                       served: seq<Exchange>, tx: Text)
    requires Local(s, s', u, fd, k) && s.sock.Keys <= s'.sock.Keys && !(f in s.table && s.table[f] == id)
    requires Doomed(s, w, f, id, served, tx)
    ensures Doomed(s', w, f, id, served, tx)
  {
    assert fd != f ==> StaysAt(s, s', f);
  }

  lemma SockGrows(s: State, s': State, id: ConnId)
    requires Grown(s, s', id)
    ensures s.sock.Keys <= s'.sock.Keys
  {
  }

  lemma OwnEndsDoom(s: State, s': State, w: WorkerId, k: ConnId, f: Fd, id: ConnId, served: seq<Exchange>, tx: Text)
    requires Local(s, s', w, f, k) && s.sock.Keys <= s'.sock.Keys && f !in s'.table
    requires Doomed(s, w, f, id, served, tx)
    ensures Doomed(s', w, f, id, served, tx)
  {
  }

  lemma EraseTakes(s: State, w: WorkerId, a: Answer, f: Fd)
    requires WorkerEnabled(s, w, a) && s.workers[w] == Closing(Erase(f))
    ensures f !in WorkerStep(s, w, a).table
  {
    hide Local;
    if f in s.table {
      hide SetWorker, SetPlace;
      EraseTakesIt(s, w, f);
    } else {
      hide WorkerStep;
      WorkerReach(s, w, a);
      StaysUntabled(s, WorkerStep(s, w, a), w, f, Concerned(s, w));
    }
  }

  lemma EraseTakesIt(s: State, w: WorkerId, f: Fd)
    requires f in s.table
    ensures f !in SetWorker(CloseEffect(s, WorkerThread(w), Erase(f)), w, Closing(Mark(f, s.table[f]))).table
  {
  }

  lemma StaysUntabled(s: State, s': State, w: WorkerId, f: Fd, k: ConnId)
    requires Local(s, s', w, f, k) && f !in s.table
    ensures f !in s'.table
  {
  }

  lemma WorkerDoom(s: State, u: WorkerId, a: Answer, w: WorkerId, f: Fd, id: ConnId, served: seq<Exchange>, tx: Text)
    requires Sound(s) && Tokens(s) && WorkerEnabled(s, u, a) && Doomed(s, w, f, id, served, tx)
    ensures Doomed(WorkerStep(s, u, a), w, f, id, served, tx)
  {
    hide Sound, Tokens, Local, WorkerStep, WorkerEnabled, Grown;
    var s' := WorkerStep(s, u, a);
    WorkerGrows(s, u, a, id);
    SockGrows(s, s', id);
    WorkerReach(s, u, a);
    if !(f in s.table && s.table[f] == id) {
      LocalKeepsGone(s, s', u, Subject(s, u), Concerned(s, u), w, f, id, served, tx);
    } else if u == w {
      EraseTakes(s, w, a, f);
      OwnEndsDoom(s, s', w, Concerned(s, w), f, id, served, tx);
    } else {
      DoomedPlace(s, w, f, id);
      var k := OtherConcerned(s, u, a, f, id);
      LocalKeepsDoom(s, s', u, Subject(s, u), k, w, f, id, served, tx);
    }
  }

  lemma ConfinedDoom(s: State, s': State, w: WorkerId, f: Fd, id: ConnId, served: seq<Exchange>, tx: Text)
    requires Confined(s, s') && s.sock.Keys <= s'.sock.Keys && (s'.loop.Inserting? ==> s'.loop.id !in s.sock)
    requires Doomed(s, w, f, id, served, tx)
    ensures Doomed(s', w, f, id, served, tx)
  {
  }

  lemma InsertDoom(s: State, w: WorkerId, f: Fd, id: ConnId, served: seq<Exchange>, tx: Text)
    requires s.loop.Inserting? && Doomed(s, w, f, id, served, tx)
    ensures Doomed(StepInsert(s), w, f, id, served, tx)
  {
  }

  lemma RoundInserts(s: State, s': State)
    requires Turned(s, s')
    ensures !s'.loop.Inserting?
  {
  }

  /** Only `accept` leads to an insertion, and with a new socket. */
  lemma InsertsNew(s: State, a: LoopAnswer)
    requires LoopEnabled(s, a)
    ensures LoopStep(s, a).loop.Inserting? ==> LoopStep(s, a).loop.id !in s.sock
  {
    if Turns(s, a) {
      hide LoopStep, Turned, LoopEnabled;
      LoopTurned(s, a);
      RoundInserts(s, LoopStep(s, a));
    } else if s.loop.Accepting? {
      hide StepAccept;
      AcceptsNew(s, a.fd, a.id);
    } else {
      NoInsertion(s, a);
    }
  }

  lemma AcceptsNew(s: State, fd: Fd, id: ConnId)
    requires s.loop.Accepting? && id !in s.sock
    ensures StepAccept(s, fd, id).loop.id !in s.sock
  {
  }

  lemma NoInsertion(s: State, a: LoopAnswer)
    requires s.loop.LoopTop? || s.loop.Waiting? || s.loop.Draining? || s.loop.Sweeping? || s.loop.Stopped?
    ensures !LoopStep(s, a).loop.Inserting?
  {
    hide StepCollect, StepSweep;
    if s.loop.Waiting? && a.Collect? {
      CollectCourse(s, a.event);
    }
    SweepCourse(s);
  }

  lemma LoopDoom(s: State, a: LoopAnswer, w: WorkerId, f: Fd, id: ConnId, served: seq<Exchange>, tx: Text)
    requires LoopEnabled(s, a) && Doomed(s, w, f, id, served, tx) && s.hist.Keys <= s.sock.Keys
    ensures Doomed(LoopStep(s, a), w, f, id, served, tx)
  {
    hide Confined, Doomed, StepInsert, Grown, LoopEnabled;
    if s.loop.Inserting? {
      InsertDoom(s, w, f, id, served, tx);
    } else {
      hide LoopStep;
      LoopConfined(s, a);
      LoopGrows(s, a, id);
      SockGrows(s, LoopStep(s, a), id);
      InsertsNew(s, a);
      ConfinedDoom(s, LoopStep(s, a), w, f, id, served, tx);
    }
  }

  lemma StepDoom(s: State, a: Action, w: WorkerId, f: Fd, id: ConnId, served: seq<Exchange>, tx: Text)
    requires Sound(s) && Tokens(s) && Enabled(s, a) && s.hist.Keys <= s.sock.Keys
    requires Doomed(s, w, f, id, served, tx)
    ensures Doomed(Step(s, a), w, f, id, served, tx)
  {
    hide Sound, Tokens, LoopStep, WorkerStep, LoopEnabled, WorkerEnabled;
    match a
    case LoopActs(la) =>
      hide Doomed;
      LoopDoom(s, la, w, f, id, served, tx);
    case WorkerActs(u, wa) =>
      hide Doomed;
      WorkerDoom(s, u, wa, w, f, id, served, tx);
    case _ =>
  }

  /** A connection whose peer has ended the stream, or whose read or write has failed, is only closed from
      then on: as long as it is registered it is in the hands of that worker, about to close it, and nothing
      is served or written. */
  lemma {:induction false} FailureCloses(cfg: Config, now: int, acts: seq<Action>, s: State, k: nat, m: State,
                                         w: WorkerId, f: Fd, id: ConnId)
    requires Speaks(cfg.respond) && Run(Init(cfg, now), acts, s, true) && k < |acts|
    requires Run(Init(cfg, now), acts[..k], m, false) && acts[k].WorkerActs? && acts[k].worker == w
    requires w in m.workers && Breaks(m.workers[w], acts[k].answer) && m.workers[w].fd == f && m.workers[w].id == id
    ensures Doomed(s, w, f, id, m.HistAt(id).served, m.HistAt(id).tx)
    decreases |acts|
  {
    hide Enabled, Step, Breaks, Doomed, Sound, Tokens, Speaks;
    var n := |acts| - 1;
    var before :| Run(Init(cfg, now), acts[..n], before, true) && Enabled(before, acts[n]) &&
                  s == Step(before, acts[n]);
    CarefulTokens(cfg, now, acts[..n], before);
    RunForgets(Init(cfg, now), acts[..n], before);
    ConfigStays(cfg, now, acts[..n], before);
    if k == n {
      RunSame(Init(cfg, now), acts[..n], before, m);
      StepBreaks(m, acts[n], f, id);
    } else {
      assert acts[..n][..k] == acts[..k];
      FailureCloses(cfg, now, acts[..n], before, k, m, w, f, id);
      StepDoom(before, acts[n], w, f, id, m.HistAt(id).served, m.HistAt(id).tx);
    }
  }

  lemma StepBreaks(s: State, a: Action, f: Fd, id: ConnId)
    requires Sound(s) && Enabled(s, a) && a.WorkerActs? && a.worker in s.workers
    requires Breaks(s.workers[a.worker], a.answer)
    requires s.workers[a.worker].fd == f && s.workers[a.worker].id == id
    ensures Doomed(Step(s, a), a.worker, f, id, s.HistAt(id).served, s.HistAt(id).tx)
  {
    hide Sound, Doomed, WorkerStep, WorkerEnabled;
    BreakDooms(s, a.worker, a.answer, f, id);
  }

  // ---------- a closed connection is served nothing more ----------

  lemma LocalFreezes(s: State, s': State, w: WorkerId, fd: Fd, k: ConnId, id: ConnId)
    requires Local(s, s', w, fd, k)
    ensures Frozen(s.ConnAt(id), s.HistAt(id), s'.ConnAt(id), s'.HistAt(id))
  {
    if id != k {
      assert SameConn(s.conns, s'.conns, id) && HistIn(s'.hist, id) == HistIn(s.hist, id);
    }
  }

  lemma ConfinedFreezes(s: State, s': State, id: ConnId)
    requires Confined(s, s') && s.conns.Keys <= s.sock.Keys
    ensures Frozen(s.ConnAt(id), s.HistAt(id), s'.ConnAt(id), s'.HistAt(id))
  {
  }

  lemma InsertFreezes(s: State, id: ConnId)
    requires s.loop.Inserting? && s.loop.id !in s.conns
    ensures Frozen(s.ConnAt(id), s.HistAt(id), StepInsert(s).ConnAt(id), StepInsert(s).HistAt(id))
  {
  }

  lemma ConnsGround(s: State)
    requires Sound(s)
    ensures s.conns.Keys <= s.sock.Keys && (s.loop.Inserting? ==> s.loop.id !in s.conns)
  {
    hide OpenOk, TableOk, ClosersOk, OnceOk, Covered, StopOk;
  }

  lemma StepFreezes(s: State, a: Action, id: ConnId)
    requires Sound(s) && Enabled(s, a)
    ensures Frozen(s.ConnAt(id), s.HistAt(id), Step(s, a).ConnAt(id), Step(s, a).HistAt(id))
  {
    hide Sound, WorkerStep, LoopEnabled, WorkerEnabled, Local, Confined, StepInsert;
    ConnsGround(s);
    match a
    case LoopActs(la) =>
      hide Frozen;
      if s.loop.Inserting? {
        InsertFreezes(s, id);
      } else {
        hide LoopStep;
        LoopConfined(s, la);
        ConfinedFreezes(s, LoopStep(s, la), id);
      }
    case WorkerActs(w, wa) =>
      hide Frozen;
      WorkerReach(s, w, wa);
      LocalFreezes(s, WorkerStep(s, w, wa), w, Subject(s, w), Concerned(s, w), id);
    case _ =>
  }

  lemma FrozenOn(c: Conn, h: History, c': Conn, h': History, c'': Conn, h'': History)
    requires Frozen(c, h, c', h') && Frozen(c', h', c'', h'')
    ensures Frozen(c, h, c'', h'')
  {
  }

  /** In every run, whatever descriptors `accept` hands out: from when a connection is marked closed it stays
      so, nothing more is appended to its read buffer or taken from it, and no further request of it is
      served. */
  lemma {:induction false} ClosedIsFinal(cfg: Config, now: int, acts: seq<Action>, s: State, k: nat, m: State,
                                         id: ConnId)
    requires Run(Init(cfg, now), acts, s, false) && k <= |acts| && Run(Init(cfg, now), acts[..k], m, false)
    ensures Frozen(m.ConnAt(id), m.HistAt(id), s.ConnAt(id), s.HistAt(id))
    decreases |acts|
  {
    hide Enabled, Step, FdReuseOk, Sound, Frozen;
    if k == |acts| {
      assert acts[..k] == acts;
      RunSame(Init(cfg, now), acts, s, m);
      FrozenSelf(s, id);
    } else {
      var n := |acts| - 1;
      var before :| Run(Init(cfg, now), acts[..n], before, false) && Enabled(before, acts[n]) &&
                    s == Step(before, acts[n]);
      assert acts[..n][..k] == acts[..k];
      ClosedIsFinal(cfg, now, acts[..n], before, k, m, id);
      RunSound(cfg, now, acts[..n], before, false);
      StepFreezes(before, acts[n], id);
      FrozenOn(m.ConnAt(id), m.HistAt(id), before.ConnAt(id), before.HistAt(id), s.ConnAt(id), s.HistAt(id));
    }
  }

  lemma FrozenSelf(s: State, id: ConnId)
    ensures Frozen(s.ConnAt(id), s.HistAt(id), s.ConnAt(id), s.HistAt(id))
  {
  }

  // ---------- epoll forgets before the descriptor is closed ----------

  /** Whoever is about to close a descriptor, epoll knows it no more. */
  ghost predicate Forgotten(s: State) {
    forall t :: CloseOf(s.loop, s.workers, t).Some? && CloseOf(s.loop, s.workers, t).value.Shut? ==>
      CloseOf(s.loop, s.workers, t).value.fd !in s.interest
  }

  lemma LocalForgets(s: State, s': State, w: WorkerId, fd: Fd, k: ConnId)
    requires Local(s, s', w, fd, k) && Forgotten(s)
    ensures Forgotten(s')
  {
    hide Frozen, Handled;
    forall t | CloseOf(s'.loop, s'.workers, t).Some? && CloseOf(s'.loop, s'.workers, t).value.Shut?
      ensures CloseOf(s'.loop, s'.workers, t).value.fd !in s'.interest
    {
      if t != WorkerThread(w) {
        assert CloseOf(s'.loop, s'.workers, t) == CloseOf(s.loop, s.workers, t);
      }
    }
  }

  lemma ConfinedForgets(s: State, s': State)
    requires Confined(s, s') && Forgotten(s)
    requires s.loop.Adding? ==> forall w :: w in s.workers ==> s.workers[w].Names() != Some(s.loop.fd)
    ensures Forgotten(s')
  {
    forall t | CloseOf(s'.loop, s'.workers, t).Some? && CloseOf(s'.loop, s'.workers, t).value.Shut?
      ensures CloseOf(s'.loop, s'.workers, t).value.fd !in s'.interest
    {
      if t != LoopThread {
        assert CloseOf(s'.loop, s'.workers, t) == CloseOf(s.loop, s.workers, t);
      }
    }
  }

  lemma InsertForgets(s: State)
    requires s.loop.Inserting? && Forgotten(s)
    ensures Forgotten(StepInsert(s))
  {
    forall t ensures t != LoopThread ==>
                       CloseOf(StepInsert(s).loop, StepInsert(s).workers, t) == CloseOf(s.loop, s.workers, t) {
    }
  }

  lemma AddingIsAlone(s: State)
    requires Tokens(s) && s.loop.Adding?
    ensures forall w :: w in s.workers ==> s.workers[w].Names() != Some(s.loop.fd)
  {
    hide QueueOk, BatchOk, ArmedOk, PlacesOk, MarksOk;
    forall w | w in s.workers ensures s.workers[w].Names() != Some(s.loop.fd) {
      assert Assigned(s.open, s.token, w, s.workers[w]);
    }
  }

  lemma StepForgets(s: State, a: Action)
    requires Tokens(s) && Enabled(s, a) && Forgotten(s)
    ensures Forgotten(Step(s, a))
  {
    hide Tokens, WorkerStep, LoopEnabled, WorkerEnabled, Local, Confined, StepInsert;
    match a
    case LoopActs(la) =>
      hide Forgotten;
      if s.loop.Inserting? {
        InsertForgets(s);
      } else {
        hide LoopStep;
        if s.loop.Adding? {
          AddingIsAlone(s);
        }
        LoopConfined(s, la);
        ConfinedForgets(s, LoopStep(s, la));
      }
    case WorkerActs(w, wa) =>
      hide Forgotten;
      WorkerReach(s, w, wa);
      LocalForgets(s, WorkerStep(s, w, wa), w, Subject(s, w), Concerned(s, w));
    case _ =>
  }

  /** Every `close` about to be called in a careful run finds the descriptor unregistered from epoll. */
  lemma {:induction false} UnregisteredFirst(cfg: Config, now: int, acts: seq<Action>, s: State)
    requires Speaks(cfg.respond) && Run(Init(cfg, now), acts, s, true)
    ensures Forgotten(s)
  {
    hide Enabled, Step, Forgotten, Sound, Tokens, Speaks;
    if acts == [] {
      NothingToForget(cfg, now);
    } else {
      var n := |acts| - 1;
      var before :| Run(Init(cfg, now), acts[..n], before, true) && Enabled(before, acts[n]) &&
                    s == Step(before, acts[n]);
      UnregisteredFirst(cfg, now, acts[..n], before);
      CarefulTokens(cfg, now, acts[..n], before);
      StepForgets(before, acts[n]);
    }
  }

  lemma NothingToForget(cfg: Config, now: int)
    ensures Forgotten(Init(cfg, now))
  {
  }
}
