/** The deadline of a connection and its activity: an active connection is not expired, and an idle one is. */
module ServerTimers {
  import opened Bytes
  import opened Timers
  import opened Server
  import opened ServerTable
  import opened ServerToken
  import opened ServerRuns
  import opened ServerTheorems
  import opened ServerFootprint

  // ---------- what a step does to the deadlines ----------

  /** Some worker is about to move the descriptor's deadline. */
  ghost predicate Owed(s: State, f: Fd) {
    exists w :: w in s.workers && Refreshes(s.workers[w], f)
  }

  predicate Inserts(s: State, f: Fd) {
    s.loop.Inserting? && s.loop.fd == f
  }

  /** A deadline moves only to the whole timeout from now, by a worker that owes it or at insertion, and
      a worker that owes it goes on only by moving it; a registration comes with a new deadline, and goes with
      its deadline. */
  ghost predicate Timely(s: State, s': State) {
    && s'.cfg == s.cfg && s'.now >= s.now
    && (forall f :: f in s'.timers ==>
          || (f in s.timers && s'.timers[f] == s.timers[f])
          || (Renewed(s, s', f) && (Owed(s, f) || Inserts(s, f))))
    && (forall f :: f in s'.table ==>
          || (f in s.table && s'.table[f] == s.table[f])
          || (Renewed(s, s', f) && Inserts(s, f) && s'.table[f] == s.loop.id))
    && (forall f :: f in s.table && f !in s'.table && s'.loop != Stopped ==> f !in s'.timers)
    && (forall w, f :: w in s.workers && Refreshes(s.workers[w], f) ==>
          (w in s'.workers && s'.workers[w] == s.workers[w]) || Renewed(s, s', f))
  }

  lemma RefreshTimely(s: State, w: WorkerId, fd: Fd, pc: Worker)
    requires w in s.workers && Refreshes(s.workers[w], fd)
    ensures Timely(s, SetWorker(Refresh(s, fd), w, pc))
  {
    assert Owed(s, fd);
  }

  lemma LocalTimely(s: State, s': State, w: WorkerId, fd: Fd, k: ConnId)
    requires Local(s, s', w, fd, k) && !s.workers[w].ReadRefresh? && !s.workers[w].WriteRefresh?
    ensures Timely(s, s')
  {
    forall g | g in s'.table ensures g in s.table && s'.table[g] == s.table[g] {
      assert g != fd ==> StaysAt(s, s', g);
    }
    forall g | g in s'.timers ensures g in s.timers && s'.timers[g] == s.timers[g] {
      assert g != fd ==> StaysAt(s, s', g);
    }
    forall g | g in s.table && g !in s'.table ensures g !in s'.timers {
      assert g != fd ==> StaysAt(s, s', g);
    }
  }

  lemma WorkerTimely(s: State, w: WorkerId, a: Answer)
    requires WorkerEnabled(s, w, a)
    ensures Timely(s, WorkerStep(s, w, a))
  {
    hide Timely, Local, Refresh, SetWorker;
    if s.workers[w].ReadRefresh? {
      RefreshTimely(s, w, s.workers[w].fd, ProcessGet(s.workers[w].fd));
    } else if s.workers[w].WriteRefresh? {
      var fd := s.workers[w].fd;
      RefreshTimely(s, w, fd, if s.workers[w].pending then ProcessGet(fd) else Finish(fd, s.workers[w].id, In));
    } else {
      hide WorkerStep;
      WorkerReach(s, w, a);
      LocalTimely(s, WorkerStep(s, w, a), w, Subject(s, w), Concerned(s, w));
    }
  }

  lemma ConfinedTimely(s: State, s': State)
    requires Confined(s, s')
    ensures Timely(s, s')
  {
  }

  lemma InsertTimely(s: State)
    requires s.loop.Inserting?
    ensures Timely(s, StepInsert(s))
  {
  }

  lemma LoopTimely(s: State, a: LoopAnswer)
    requires LoopEnabled(s, a)
    ensures Timely(s, LoopStep(s, a))
  {
    hide Timely, Confined, StepInsert;
    if s.loop.Inserting? {
      InsertTimely(s);
    } else {
      hide LoopStep, LoopEnabled;
      LoopConfined(s, a);
      ConfinedTimely(s, LoopStep(s, a));
    }
  }

  lemma StepTimely(s: State, a: Action)
    requires Enabled(s, a)
    ensures Timely(s, Step(s, a))
  {
    hide WorkerStep, LoopStep, WorkerEnabled, LoopEnabled;
    match a
    case WorkerActs(w, wa) =>
      hide Timely;
      WorkerTimely(s, w, wa);
    case LoopActs(la) =>
      hide Timely;
      LoopTimely(s, la);
    case _ =>
  }

  // ---------- an active connection ----------

  /** A read has taken all that had arrived, or an answer is out and keeps the connection. */
  predicate Completes(s: State, pc: Worker, a: Answer, id: ConnId) {
    || (pc.ReadRecv? && pc.id == id && a == WouldBlock)
    || (pc.WriteClear? && pc.id == id && !s.ConnAt(id).closeAfterWrite)
  }

  /** The step is activity of the connection: it is accepted, a read has taken all that had arrived, or an
      answer is out and keeps the connection. */
  ghost predicate Activity(s: State, a: Action, id: ConnId) {
    match a
    case LoopActs(la) => s.loop.Accepting? && la.AcceptFd? && la.id == id
    case WorkerActs(w, wa) => w in s.workers && Completes(s, s.workers[w], wa, id)
    case _ => false
  }

  /** While the connection is registered, its timer runs out no earlier, or is about to be moved. */
  ghost predicate Lasts(s: State, f: Fd, id: ConnId, until: int) {
    f in s.table && s.table[f] == id && f in s.timers ==> s.timers[f] >= until || Owed(s, f)
  }

  lemma LastsOn(s: State, s': State, f: Fd, id: ConnId, until: int)
    requires Timely(s, s') && Lasts(s, f, id, until) && until <= s.now + s.cfg.timeout
    ensures Lasts(s', f, id, until)
  {
    if w :| w in s.workers && Refreshes(s.workers[w], f) {
      assert Renewed(s, s', f) || Refreshes(s'.workers[w], f);
    }
  }

  lemma TableAndHolders(s: State, f: Fd, w: WorkerId)
    requires Sound(s) && f in s.table && w in s.workers
    ensures s.table[f] in s.sock && s.sock[s.table[f]] == f
    ensures s.workers[w].Holds() == Some(s.table[f]) ==> s.workers[w].Names() == Some(f)
  {
    hide OnceOk, StopOk, ClosersOk, PendingOk, Covered, CurrentOk;
  }

  lemma ReadOwes(s: State, w: WorkerId, fd: Fd, id: ConnId)
    requires w in s.workers
    ensures Owed(StepRecv(s, w, fd, id, WouldBlock), fd)
  {
    assert Refreshes(StepRecv(s, w, fd, id, WouldBlock).workers[w], fd);
  }

  lemma ClearOwes(s: State, w: WorkerId, fd: Fd, id: ConnId)
    requires w in s.workers && !s.ConnAt(id).closeAfterWrite
    ensures Owed(StepClear(s, w, fd, id), fd)
  {
    assert Refreshes(StepClear(s, w, fd, id).workers[w], fd);
  }

  lemma WorkerLasts(s: State, w: WorkerId, a: Answer, f: Fd, id: ConnId)
    requires Sound(s) && WorkerEnabled(s, w, a) && Activity(s, WorkerActs(w, a), id)
    ensures Lasts(WorkerStep(s, w, a), f, id, s.now + s.cfg.timeout)
  {
    hide Sound, StepRecv, StepClear, Owed;
    var s' := WorkerStep(s, w, a);
    if f in s'.table && s'.table[f] == id {
      WorkerTimely(s, w, a);
      if !Renewed(s, s', f) {
        TableAndHolders(s, f, w);
        match s.workers[w]
        case ReadRecv(_, _) => ReadOwes(s, w, f, id);
        case WriteClear(_, _) => ClearOwes(s, w, f, id);
      }
    }
  }

  lemma AcceptLasts(s: State, fd: Fd, f: Fd, id: ConnId)
    requires Sound(s) && s.loop.Accepting? && id !in s.sock
    ensures Lasts(StepAccept(s, fd, id), f, id, s.now + s.cfg.timeout)
  {
    hide OnceOk, StopOk, ClosersOk, PendingOk, Covered, CurrentOk, HoldersOk;
  }

  lemma ActivityLasts(s: State, a: Action, f: Fd, id: ConnId)
    requires Sound(s) && Enabled(s, a) && Activity(s, a, id)
    ensures Lasts(Step(s, a), f, id, s.now + s.cfg.timeout)
  {
    hide Sound, Lasts, WorkerStep, WorkerEnabled, StepAccept;
    match a
    case WorkerActs(w, wa) => WorkerLasts(s, w, wa, f, id);
    case LoopActs(la) => AcceptLasts(s, la.fd, f, id);
    case _ =>
  }

  /** In every run: from an activity of a connection on, its timer runs out no earlier than the whole
      timeout later, or a worker is about to move it. */
  lemma {:induction false} ActivityCounts(cfg: Config, now: int, acts: seq<Action>, s: State, k: nat, m: State,
                                          f: Fd, id: ConnId)
    requires Run(Init(cfg, now), acts, s, false) && k < |acts|
    requires Run(Init(cfg, now), acts[..k], m, false) && Activity(m, acts[k], id)
    ensures Lasts(s, f, id, m.now + cfg.timeout) && m.now <= s.now && s.cfg == cfg && m.cfg == cfg
    decreases |acts|
  {
    hide Enabled, Step, Activity, Lasts, Timely, Sound;
    var n := |acts| - 1;
    var before :| Run(Init(cfg, now), acts[..n], before, false) && Enabled(before, acts[n]) &&
                  s == Step(before, acts[n]);
    StepTimely(before, acts[n]);
    if k == n {
      RunSame(Init(cfg, now), acts[..n], before, m);
      RunSound(cfg, now, acts[..n], m, false);
      ActivityLasts(m, acts[n], f, id);
      RunClock(cfg, now, acts[..n], m);
    } else {
      assert acts[..n][..k] == acts[..k];
      ActivityCounts(cfg, now, acts[..n], before, k, m, f, id);
      LastsOn(before, s, f, id, m.now + cfg.timeout);
    }
    ClockOn(before, s);
  }

  lemma ClockOn(s: State, s': State)
    requires Timely(s, s')
    ensures s'.cfg == s.cfg && s'.now >= s.now
  {
  }

  /** No deadline is ever further away than the whole timeout. */
  ghost predicate Near(s: State) {
    forall f :: f in s.timers ==> s.timers[f] <= s.now + s.cfg.timeout
  }

  lemma NearOn(s: State, s': State)
    requires Timely(s, s') && Near(s)
    ensures Near(s')
  {
  }

  lemma {:induction false} RunClock(cfg: Config, now: int, acts: seq<Action>, s: State)
    requires Run(Init(cfg, now), acts, s, false)
    ensures s.cfg == cfg && Near(s)
  {
    hide Enabled, Step, Timely, Near;
    if acts == [] {
      NearAtFirst(cfg, now);
    } else {
      var n := |acts| - 1;
      var before :| Run(Init(cfg, now), acts[..n], before, false) && Enabled(before, acts[n]) &&
                    s == Step(before, acts[n]);
      RunClock(cfg, now, acts[..n], before);
      StepTimely(before, acts[n]);
      ClockOn(before, s);
      NearOn(before, s);
    }
  }

  lemma NearAtFirst(cfg: Config, now: int)
    ensures Near(Init(cfg, now))
  {
  }

  predicate InEpoll(s: State, f: Fd) {
    f in s.interest && s.interest[f] != Off
  }

  lemma UntouchedWhileArmed(s: State, f: Fd)
    requires Tokens(s) && InEpoll(s, f)
    ensures !Owed(s, f) && !Inserts(s, f)
  {
    hide QueueOk, BatchOk, PlacesOk, MarksOk;
    ArmedPlace(s, f);
    forall w | w in s.workers ensures !Refreshes(s.workers[w], f) {
      assert Assigned(s.open, s.token, w, s.workers[w]);
    }
  }

  lemma CarefulTokens(cfg: Config, now: int, acts: seq<Action>, s: State)
    requires Speaks(cfg.respond) && Run(Init(cfg, now), acts, s, true)
    ensures Tokens(s) && Sound(s)
  {
    hide Run, Sound, Steady, Tokens, Speaks;
    CarefulRun(cfg, now, acts, s);
    SteadyTokens(cfg.respond, s);
  }

  lemma ArmedLasts(s: State, f: Fd, id: ConnId, until: int)
    requires Lasts(s, f, id, until) && !Owed(s, f) && Near(s) && f in s.table && s.table[f] == id
    ensures f in s.timers ==> until <= s.timers[f] <= s.now + s.cfg.timeout
    ensures forall fds :: s.loop == Popping && LoopEnabled(s, Expire(fds)) && f in fds ==> until <= s.now
  {
    hide Owed;
  }

  /** An active connection is not expired: once a connection that waits in epoll has been accepted, read
      from or answered, its deadline is at least the whole timeout later, so an expiry that holds it comes
      no earlier. */
  lemma ActiveIsKept(cfg: Config, now: int, acts: seq<Action>, s: State, k: nat, m: State, f: Fd, id: ConnId)
    requires Speaks(cfg.respond) && Run(Init(cfg, now), acts, s, true) && k < |acts|
    requires Run(Init(cfg, now), acts[..k], m, false) && Activity(m, acts[k], id)
    requires f in s.table && s.table[f] == id && InEpoll(s, f)
    ensures f in s.timers ==> m.now + cfg.timeout <= s.timers[f] <= s.now + cfg.timeout
    ensures forall fds :: s.loop == Popping && LoopEnabled(s, Expire(fds)) && f in fds ==> m.now + cfg.timeout <= s.now
  {
    hide Run, Sound, Speaks, Activity, Owed, Near, Lasts, InEpoll, LoopEnabled;
    RunForgets(Init(cfg, now), acts, s);
    ActivityCounts(cfg, now, acts, s, k, m, f, id);
    RunClock(cfg, now, acts, s);
    CarefulTokens(cfg, now, acts, s);
    hide Tokens;
    UntouchedWhileArmed(s, f);
    ArmedLasts(s, f, id, m.now + cfg.timeout);
  }

  // ---------- an idle connection ----------

  /** The descriptor waits in epoll in every state along the run. */
  ghost predicate WaitsAlong(start: State, acts: seq<Action>, f: Fd) {
    forall k, q :: 0 <= k <= |acts| && Run(start, acts[..k], q, false) ==> InEpoll(q, f)
  }

  lemma DeadlineStays(s: State, s': State, f: Fd)
    requires Timely(s, s') && !Owed(s, f) && !Inserts(s, f) && f in s'.timers
    ensures f in s.timers && s'.timers[f] == s.timers[f]
  {
  }

  lemma {:induction false} IdleDeadline(cfg: Config, now: int, acts: seq<Action>, m: State, more: seq<Action>, s: State,
                                        f: Fd)
    requires Speaks(cfg.respond) && Run(Init(cfg, now), acts, m, true) && Run(m, more, s, true)
    requires WaitsAlong(m, more, f)
    ensures f in s.timers ==> f in m.timers && s.timers[f] == m.timers[f]
    decreases |more|
  {
    hide Enabled, Step, FdReuseOk, Timely, Owed, Inserts, Tokens, Sound, Speaks, InEpoll;
    if more != [] && f in s.timers {
      var n := |more| - 1;
      var q :| Run(m, more[..n], q, true) && Enabled(q, more[n]) && s == Step(q, more[n]);
      forall k, r | 0 <= k <= n && Run(m, more[..n][..k], r, false) ensures InEpoll(r, f) {
        assert more[..n][..k] == more[..k];
      }
      RunForgets(m, more[..n], q);
      RunJoin(Init(cfg, now), acts, m, more[..n], q, true);
      CarefulTokens(cfg, now, acts + more[..n], q);
      UntouchedWhileArmed(q, f);
      StepTimely(q, more[n]);
      DeadlineStays(q, s, f);
      IdleDeadline(cfg, now, acts, m, more[..n], q, f);
    }
  }

  lemma WaitingHasTimer(s: State, f: Fd)
    requires Sound(s) && Tokens(s) && s.loop == Popping && InEpoll(s, f)
    ensures f in s.timers
  {
    hide Sound, Tokens;
    WaitGround(s);
    hide *;
    PoppingCovers(s);
  }

  lemma PoppingCovers(s: State)
    requires Sound(s) && s.loop == Popping
    ensures forall f :: f in s.table ==> f in s.timers
  {
    hide OpenOk, TableOk, ClosersOk, PendingOk, HoldersOk, OnceOk, StopOk, CrewOk;
  }

  /** An idle connection is expired: if it waits in epoll from some state on for the whole timeout, the next
      expiry holds it. */
  lemma IdleIsExpired(cfg: Config, now: int, acts: seq<Action>, m: State, more: seq<Action>, s: State, f: Fd,
                      fds: seq<Fd>)
    requires Speaks(cfg.respond) && Run(Init(cfg, now), acts, m, true) && Run(m, more, s, true)
    requires WaitsAlong(m, more, f) && m.now + cfg.timeout <= s.now
    requires s.loop == Popping && LoopEnabled(s, Expire(fds))
    ensures f in fds
  {
    hide Sound, Tokens, Run, Speaks, InEpoll;
    IdleDeadline(cfg, now, acts, m, more, s, f);
    RunForgets(Init(cfg, now), acts, m);
    RunClock(cfg, now, acts, m);
    RunJoin(Init(cfg, now), acts, m, more, s, true);
    CarefulTokens(cfg, now, acts + more, s);
    RunForgets(m, more, s);
    assert more[..|more|] == more;
    assert InEpoll(s, f);
    WaitingHasTimer(s, f);
  }
}
