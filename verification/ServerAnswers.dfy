/** No request is stranded: from every state of a careful run, a connection that nobody has decided to
    close can still have everything answered that has arrived, without any further input. */
module ServerAnswers {
  import opened Bytes
  import opened Framing
  import opened Connections
  import opened Service
  import opened Timers
  import opened Server
  import opened ServerTable
  import opened ServerData
  import opened ServerToken
  import opened ServerRuns
  import opened ServerGrowth
  import opened ServerTheorems
  import opened ServerShutdown
  import opened ServerFootprint
  import opened ServerProgress

  // ---------- going on ----------

  /** A configuration under which the server can work at all. */
  ghost predicate Equipped(cfg: Config) {
    cfg.respond == Respond && cfg.workers > 0 && cfg.maxEvents > 0 && cfg.readSize > 0 && cfg.timeout > 0
  }

  /** A step that needs nothing from outside: no bytes, no new peer, no time and no request to stop. */
  predicate Unprompted(a: Action) {
    a.WorkerActs? || (a.LoopActs? && !a.loopAnswer.AcceptFd?)
  }

  ghost predicate Continues(acts: seq<Action>, acts': seq<Action>) {
    acts <= acts' && forall i :: |acts| <= i < |acts'| ==> Unprompted(acts'[i])
  }

  lemma ContinuesOn(acts: seq<Action>, acts': seq<Action>, acts'': seq<Action>)
    requires Continues(acts, acts') && Continues(acts', acts'')
    ensures Continues(acts, acts'')
  {
  }

  /** A state of a careful run of a server that is not being stopped. */
  ghost predicate Serving(cfg: Config, now: int, acts: seq<Action>, s: State) {
    Equipped(cfg) && Run(Init(cfg, now), acts, s, true) && s.running
  }

  lemma Proceeds(cfg: Config, now: int, acts: seq<Action>, s: State, a: Action) returns (acts': seq<Action>)
    requires Serving(cfg, now, acts, s) && Enabled(s, a) && Unprompted(a) && Step(s, a).running
    ensures Serving(cfg, now, acts', Step(s, a)) && Continues(acts, acts')
  {
    hide Run, Enabled, Step, Equipped;
    acts' := acts + [a];
    RunSnoc(Init(cfg, now), acts, s, a, Step(s, a), true);
  }

  lemma ServingFacts(cfg: Config, now: int, acts: seq<Action>, s: State)
    requires Serving(cfg, now, acts, s)
    ensures Sound(s) && Steady(Respond, s) && s.cfg == cfg && s.hist.Keys <= s.sock.Keys
  {
    hide Run, Sound, Steady, Speaks, Grown, Respond;
    ServiceSpeaks();
    CarefulRun(cfg, now, acts, s);
    RunForgets(Init(cfg, now), acts, s);
    ConfigStays(cfg, now, acts, s);
  }

  lemma EndsOn(h: History, h': History, input: Text)
    requires Ends(h, input) && h.served <= h'.served && h.tx <= h'.tx && h'.input == input
    requires ClosesLast(h'.served) && h'.tx <= Stream(h'.served)
    ensures Ends(h', input)
  {
    hide Stream;
    assert h'.served[|h.served| - 1] == h.served[|h.served| - 1];
    assert h'.served == h.served;
  }

  /** A closing answer stays the last. */
  lemma EndsStay(cfg: Config, now: int, acts': seq<Action>, s: State, s': State, id: ConnId, input: Text)
    requires Serving(cfg, now, acts', s') && Grown(s, s', id) && Ends(s.HistAt(id), input) &&
             s'.HistAt(id).input == input
    ensures Ends(s'.HistAt(id), input)
  {
    hide Run, Leads, Sequential, GivenBy, LegalWorlds, Speaks, Respond, Stream;
    assert id in s.hist;
    ServiceSpeaks();
    EndToEnd(cfg, now, acts', s', id);
    EndsOn(s.HistAt(id), s'.HistAt(id), input);
  }

  // ---------- the workers ----------

  /** The connection a worker's step may concern. */
  lemma WorkerObject(respond: Responder, s: State, w: WorkerId, a: Answer) returns (k: ConnId)
    requires Steady(respond, s) && WorkerEnabled(s, w, a)
    ensures CanWork(s, w) && (s.workers[w].Holds().Some? ==> k == s.workers[w].Holds().value)
    ensures (s.workers[w].ReadRecv? || s.workers[w].WriteSend?) && a.Got? ==> s.Behind(s.workers[w].fd) == k
  {
    hide Fine, HistoryOk, DataOk, PastOk, BatchOk, QueueOk, HandOk, PlacesOk, ArmedOk, MarksOk, Flat;
    if s.workers[w].Holds().Some? {
      k := s.workers[w].Holds().value;
      assert Assigned(s.open, s.token, w, s.workers[w]);
    } else {
      k := 0;
    }
  }

  lemma LocalRest(s: State, s': State, w: WorkerId, fd: Fd, k: ConnId, id: ConnId)
    requires Local(s, s', w, fd, k)
    ensures s'.running == s.running && s'.loop == s.loop && s'.HistAt(id).input == s.HistAt(id).input
  {
  }

  lemma WorkerRest(respond: Responder, s: State, w: WorkerId, a: Answer, id: ConnId)
    requires Steady(respond, s) && WorkerEnabled(s, w, a)
    ensures var s' := WorkerStep(s, w, a);
            s'.running == s.running && s'.loop == s.loop && s'.HistAt(id).input == s.HistAt(id).input
  {
    hide Steady, Local, WorkerStep, WorkerEnabled;
    var k := WorkerObject(respond, s, w, a);
    WorkerLocal(s, w, a, k);
    LocalRest(s, WorkerStep(s, w, a), w, Subject(s, w), k, id);
  }

  /** One worker goes on. */
  lemma WorkerGoes(cfg: Config, now: int, acts: seq<Action>, s: State, f: Fd, id: ConnId, aim: Aim, w: WorkerId)
    returns (acts': seq<Action>, s': State)
    requires Serving(cfg, now, acts, s) && Kept(s, f, id, aim) && CanWork(s, w)
    ensures Serving(cfg, now, acts', s') && Continues(acts, acts') && Kept(s', f, id, aim)
    ensures s'.loop == s.loop && Closer(s, s')
  {
    hide Run, Sound, Steady, Respond, Well, Ends, WorkerStep, Closer, Grown, Continues, WorkerEnabled;
    ServingFacts(cfg, now, acts, s);
    s' := KindStep(s, w);
    WorkerRest(Respond, s, w, Kindly(s, w), id);
    WorkerInCrew(s, w, Kindly(s, w));
    WorkerCloser(s, w, Kindly(s, w));
    acts' := Proceeds(cfg, now, acts, s, WorkerActs(w, Kindly(s, w)));
    if Well(s, f, id, aim) {
      WorkerKeeps(Respond, s, w, f, id, aim);
    } else {
      WorkerGrows(s, w, Kindly(s, w), id);
      KeptEnds(s, f, id, aim);
      EndsStay(cfg, now, acts', s, s', id, aim.input);
    }
  }

  lemma KeptEnds(s: State, f: Fd, id: ConnId, aim: Aim)
    requires Kept(s, f, id, aim) && !Well(s, f, id, aim)
    ensures Ends(s.HistAt(id), aim.input)
  {
  }

  ghost predicate Idling(s: State) {
    s.queue == [] && forall w :: w in s.workers ==> s.workers[w] == Idle
  }

  /** All the workers go on until they have nothing left to do. */
  lemma {:induction false} Quiesce(cfg: Config, now: int, acts: seq<Action>, s: State, f: Fd, id: ConnId, aim: Aim)
    returns (acts': seq<Action>, s': State)
    requires Serving(cfg, now, acts, s) && Kept(s, f, id, aim)
    ensures Serving(cfg, now, acts', s') && Continues(acts, acts') && Kept(s', f, id, aim)
    ensures s'.loop == s.loop && Idling(s')
    decreases Loads(s), Work(s)
  {
    hide Run, Kept, Loads, Work, Respond;
    if Idling(s) {
      acts', s' := acts, s;
    } else {
      var w := SomeWorker(cfg, now, acts, s);
      var acts1, s1 := WorkerGoes(cfg, now, acts, s, f, id, aim, w);
      acts', s' := Quiesce(cfg, now, acts1, s1, f, id, aim);
      ContinuesOn(acts, acts1, acts');
    }
  }

  lemma SomeWorker(cfg: Config, now: int, acts: seq<Action>, s: State) returns (w: WorkerId)
    requires Serving(cfg, now, acts, s) && !Idling(s)
    ensures CanWork(s, w)
  {
    hide Run, OpenOk, TableOk, ClosersOk, PendingOk, HoldersOk, OnceOk, Covered, StopOk, Steady, Respond;
    ServingFacts(cfg, now, acts, s);
    if busy :| busy in s.workers && s.workers[busy] != Idle {
      w := busy;
    } else {
      w := 0;
    }
  }

  // ---------- the loop ----------

  /** The loop goes on towards its top. */
  lemma LoopGoes(cfg: Config, now: int, acts: seq<Action>, s: State, f: Fd, id: ConnId, aim: Aim)
    returns (acts': seq<Action>, s': State)
    requires Serving(cfg, now, acts, s) && Kept(s, f, id, aim) && Turning(s.loop)
    ensures Serving(cfg, now, acts', s') && Continues(acts, acts') && Kept(s', f, id, aim) && Turned(s, s')
  {
    hide Run, Sound, Steady, Respond, Well, Ends, LoopStep, Turned, Grown, Continues;
    ServingFacts(cfg, now, acts, s);
    var a := LoopKindly(s);
    s' := LoopStep(s, a);
    LoopTurned(s, a);
    TurnedRest(s, s');
    hide LoopEnabled;
    acts' := Proceeds(cfg, now, acts, s, LoopActs(a));
    if Well(s, f, id, aim) {
      LoopKeeps(Respond, s, f, id, aim, a);
      WellKept(s', f, id, aim);
    } else {
      LoopGrows(s, a, id);
      KeptEnds(s, f, id, aim);
      EndsStay(cfg, now, acts', s, s', id, aim.input);
    }
  }

  lemma TurnedRest(s: State, s': State)
    requires Turned(s, s')
    ensures s'.running == s.running && s'.hist == s.hist && (Turning(s'.loop) || s'.loop == LoopTop)
  {
  }

  /** What the system answers the loop on its way to its top. */
  lemma LoopKindly(s: State) returns (a: LoopAnswer)
    requires Turning(s.loop)
    ensures Turns(s, a) && !a.AcceptFd?
  {
    hide ExpiredList;
    match s.loop
    case Waiting(_) => a := WaitDone;
    case Accepting(_) => a := AcceptFails;
    case Popping =>
      var fds := SomeExpired(s.timers, s.now);
      a := Expire(fds);
    case _ => a := Onward;
  }

  /** Some list of the expired descriptors in deadline order exists. */
  lemma {:induction false} SomeExpired(deadlines: Deadlines, now: int) returns (fds: seq<Fd>)
    ensures ExpiredList(deadlines, now, fds)
    decreases |deadlines|
  {
    var due := set f | f in deadlines && deadlines[f] <= now;
    if due == {} {
      fds := [];
      assert forall f :: f in deadlines && deadlines[f] <= now ==> f in due;
    } else {
      var last := Latest(deadlines, due);
      var others := deadlines - {last};
      assert |others| < |deadlines| by {
        assert deadlines.Keys == others.Keys + {last};
      }
      var rest := SomeExpired(others, now);
      fds := rest + [last];
      assert forall f :: f in rest ==> f in due;
    }
  }

  lemma {:induction false} Latest(deadlines: Deadlines, due: set<Fd>) returns (last: Fd)
    requires due != {} && due <= deadlines.Keys
    ensures last in due && forall f :: f in due ==> deadlines[f] <= deadlines[last]
    decreases |due|
  {
    last :| last in due;
    var others := due - {last};
    if others != {} {
      var other := Latest(deadlines, others);
      if deadlines[other] > deadlines[last] {
        last := other;
      }
    }
  }

  lemma {:induction false} ToTop(cfg: Config, now: int, acts: seq<Action>, s: State, f: Fd, id: ConnId, aim: Aim)
    returns (acts': seq<Action>, s': State)
    requires Serving(cfg, now, acts, s) && Kept(s, f, id, aim) && (Turning(s.loop) || s.loop == LoopTop)
    ensures Serving(cfg, now, acts', s') && Continues(acts, acts') && Kept(s', f, id, aim) && s'.loop == LoopTop
    decreases Before(s.loop), Rank(s.loop)
  {
    hide Run, Kept, Respond, Before, Rank;
    if s.loop == LoopTop {
      acts', s' := acts, s;
    } else {
      var acts1, s1 := LoopGoes(cfg, now, acts, s, f, id, aim);
      acts', s' := ToTop(cfg, now, acts1, s1, f, id, aim);
      ContinuesOn(acts, acts1, acts');
    }
  }

  /** The loop is at its top and the workers have nothing to do. */
  ghost predicate Calm(s: State) {
    s.loop == LoopTop && Idling(s)
  }

  lemma Settle(cfg: Config, now: int, acts: seq<Action>, s: State, f: Fd, id: ConnId, aim: Aim)
    returns (acts': seq<Action>, s': State)
    requires Serving(cfg, now, acts, s) && Kept(s, f, id, aim) && (Turning(s.loop) || s.loop == LoopTop)
    ensures Serving(cfg, now, acts', s') && Continues(acts, acts') && Kept(s', f, id, aim) && Calm(s')
  {
    hide Run, Kept, Respond, Equipped;
    var acts1, s1 := ToTop(cfg, now, acts, s, f, id, aim);
    acts', s' := Quiesce(cfg, now, acts1, s1, f, id, aim);
    ContinuesOn(acts, acts1, acts');
  }

  // ---------- a running server is not being stopped ----------

  ghost predicate GoesRound(s: State) {
    s.running ==> Turning(s.loop) || s.loop == LoopTop
  }

  lemma RoundAt(s: State, l: Loop, running: bool)
    requires s.loop == l && s.running == running && (running ==> Turning(l) || l == LoopTop)
    ensures GoesRound(s)
  {
  }

  lemma CollectGoesRound(s: State, e: Event)
    requires s.loop.Waiting?
    ensures GoesRound(StepCollect(s, e))
  {
    hide GoesRound, SetPlace;
    var s' := s.(loop := Waiting(s.loop.batch + [e]));
    if e.Listen? || e.fd !in s.interest || s.interest[e.fd] == Off {
      RoundAt(s', s'.loop, s.running);
    } else {
      PlaceGoesRound(s'.(interest := s.interest[e.fd := Off]), e.fd, Delivered(s.interest[e.fd].dir));
    }
  }

  lemma PlaceGoesRound(s: State, fd: Fd, p: Place)
    requires Turning(s.loop)
    ensures GoesRound(SetPlace(s, fd, p))
  {
  }

  lemma AcceptGoesRound(s: State, fd: Fd, id: ConnId)
    requires s.loop.Accepting?
    ensures GoesRound(StepAccept(s, fd, id))
  {
    hide GoesRound;
    RoundAt(StepAccept(s, fd, id), Inserting(fd, id, s.loop.batch), s.running);
  }

  lemma SweepGoesRound(s: State)
    requires !s.running
    ensures GoesRound(StepSweep(s))
  {
    hide GoesRound, SweptConns, SweptCloses;
    RoundAt(StepSweep(s), Stopped, false);
  }

  lemma StoppingGoesRound(s: State, l: Loop)
    ensures GoesRound(s.(loop := l, running := false)) && (!s.running ==> GoesRound(s.(loop := l)))
    ensures Turning(l) || l == LoopTop ==> GoesRound(s.(loop := l))
  {
  }

  lemma LoopGoesRound(s: State, a: LoopAnswer)
    requires LoopEnabled(s, a) && GoesRound(s)
    ensures GoesRound(LoopStep(s, a))
  {
    if Turns(s, a) {
      hide LoopStep, LoopEnabled, Turns, Turned;
      LoopTurned(s, a);
      TurnedRest(s, LoopStep(s, a));
    } else {
      OddGoesRound(s, a);
    }
  }

  lemma WaitGoesRound(s: State, a: LoopAnswer)
    requires LoopEnabled(s, a) && s.loop.Waiting?
    ensures GoesRound(LoopStep(s, a))
  {
    hide GoesRound, StepCollect;
    match a
    case Collect(e) => CollectGoesRound(s, e);
    case WaitDone => StoppingGoesRound(s, Handling(s.loop.batch));
    case WaitFails => StoppingGoesRound(s, Draining);
    case WaitInterrupted => StoppingGoesRound(s, LoopTop);
  }

  /** The steps that take the loop farther from its top. */
  lemma OddGoesRound(s: State, a: LoopAnswer)
    requires LoopEnabled(s, a) && GoesRound(s) && !Turns(s, a)
    ensures GoesRound(LoopStep(s, a))
  {
    assert s.loop.Draining? || s.loop.Sweeping? ==> !s.running;
    hide GoesRound, StepCollect, StepAccept, StepSweep;
    match s.loop
    case LoopTop =>
      StoppingGoesRound(s, Waiting([]));
      StoppingGoesRound(s, Draining);
    case Waiting(_) =>
      hide LoopStep;
      WaitGoesRound(s, a);
    case Accepting(_) => AcceptGoesRound(s, a.fd, a.id);
    case Draining => StoppingGoesRound(s, Sweeping);
    case Sweeping => SweepGoesRound(s);
  }

  lemma WorkerGoesRound(respond: Responder, s: State, w: WorkerId, a: Answer)
    requires Steady(respond, s) && WorkerEnabled(s, w, a) && GoesRound(s)
    ensures GoesRound(WorkerStep(s, w, a))
  {
    hide Steady, WorkerStep, WorkerEnabled;
    WorkerRest(respond, s, w, a, 0);
  }

  lemma {:induction false} RunningGoesRound(cfg: Config, now: int, acts: seq<Action>, s: State)
    requires Speaks(cfg.respond) && Run(Init(cfg, now), acts, s, true)
    ensures GoesRound(s)
  {
    hide Speaks, Sound, Steady, FdReuseOk;
    if acts != [] {
      var n := |acts| - 1;
      var last := acts[n];
      var m :| Run(Init(cfg, now), acts[..n], m, true) && Enabled(m, last) && s == Step(m, last);
      RunningGoesRound(cfg, now, acts[..n], m);
      CarefulRun(cfg, now, acts[..n], m);
      StepGoesRound(cfg.respond, m, last);
    }
  }

  lemma StepGoesRound(respond: Responder, s: State, a: Action)
    requires Steady(respond, s) && Enabled(s, a) && GoesRound(s)
    ensures GoesRound(Step(s, a))
  {
    hide Steady, LoopStep, WorkerStep, LoopEnabled, WorkerEnabled;
    match a
    case PeerSends(_, _) =>
    case Tick(_) =>
    case RequestStop =>
    case LoopActs(la) => LoopGoesRound(s, la);
    case WorkerActs(w, wa) => WorkerGoesRound(respond, s, w, wa);
  }

  // ---------- a connection in a calm state ----------

  lemma CalmArmed(s: State, f: Fd)
    requires Tokens(s) && Calm(s) && f in s.table && f in s.open
    ensures f in s.token && s.token[f].Armed? && f in s.interest && s.interest[f] == On(s.token[f].dir)
  {
    hide MarksOk;
  }

  lemma CalmTabled(s: State, f: Fd)
    requires Sound(s) && Calm(s) && f in s.open
    ensures f in s.table && s.table[f] == s.open[f]
  {
    hide HoldersOk, OnceOk, Covered, StopOk;
  }

  lemma QuietOrLoaded(respond: Responder, dir: Dir, c: Conn, h: History)
    requires Fine(Phase(DirStage(dir), No), c, h, respond) && !c.closed
    ensures !Ends(h, h.input) && h.taken <= |h.input|
  {
    hide Leads, After, Raws, HistoryOk, Extract;
  }

  /** A closed connection has no descriptor left, and one that has ended is closed. */
  lemma CalmEnds(s: State, id: ConnId)
    requires Sound(s) && Steady(Respond, s) && Calm(s) && Ends(s.HistAt(id), s.HistAt(id).input)
    ensures !IsOpen(s.open, s.sock, id)
  {
    hide Sound, Steady, Tokens, Fine, Ends, Respond, Calm;
    if IsOpen(s.open, s.sock, id) {
      var f := s.sock[id];
      CalmTabled(s, f);
      SteadyTokens(Respond, s);
      TabledFine(Respond, s, f);
      CalmArmed(s, f);
      QuietOrLoaded(Respond, s.token[f].dir, s.ConnAt(id), s.HistAt(id));
      assert false;
    }
  }

  // ---------- round after round ----------

  /** No more is served than was framed, and perhaps one empty request. */
  lemma ServedBound(h: History)
    requires Leads(h.input, Raws(h.served)) && ClosesLast(h.served) && GivenBy(Respond, h.served)
    ensures |h.served| <= |Frames(h.input)| + 1
  {
    hide Respond, Leads, Frames;
    var n := |Frames(h.input)|;
    if |h.served| > n + 1 {
      LeadsFramesAt(h.input, Raws(h.served), n);
      EmptyCloses(h.served[n].world);
      assert false;
    }
  }

  lemma ServingBound(cfg: Config, now: int, acts: seq<Action>, s: State, id: ConnId)
    requires Serving(cfg, now, acts, s)
    ensures |s.HistAt(id).served| <= |Frames(s.HistAt(id).input)| + 1
  {
    hide Run, Leads, GivenBy, ClosesLast, Speaks, Respond, Frames;
    if id in s.hist {
      ServiceSpeaks();
      EndToEnd(cfg, now, acts, s, id);
      ServedBound(s.hist[id]);
    }
  }

  /** How much is still to come for an armed connection. */
  function Togo(h: History, dir: Dir): nat {
    3 * Minus(|Frames(h.input)| + 1, |h.served|) + if dir == Out then 2 else if h.taken < |h.input| then 1 else 0
  }

  lemma ToWait(s: State)
    requires s.loop == LoopTop && s.running
    ensures LoopEnabled(s, Onward) && LoopStep(s, Onward) == s.(loop := Waiting([]))
  {
  }

  lemma Collects(s: State, f: Fd, dir: Dir)
    requires s.loop == Waiting([]) && s.cfg.maxEvents > 0 && f in s.open && f in s.interest && s.interest[f] == On(dir)
    ensures LoopEnabled(s, Collect(Ready(f, dir)))
    ensures LoopStep(s, Collect(Ready(f, dir))) ==
            s.(loop := Waiting([Ready(f, dir)]), interest := s.interest[f := Off],
               token := s.token[f := Delivered(dir)])
  {
    assert [] + [Ready(f, dir)] == [Ready(f, dir)];
  }

  /** The loop collects the connection's event. */
  lemma Deliver(cfg: Config, now: int, acts: seq<Action>, s: State, f: Fd, id: ConnId, dir: Dir)
    returns (acts': seq<Action>, s': State)
    requires Serving(cfg, now, acts, s) && Safe(s, f, id) && Calm(s) && f in s.open
    requires f in s.token && s.token[f] == Armed(dir) && f in s.interest && s.interest[f] == On(dir)
    ensures Serving(cfg, now, acts', s') && Continues(acts, acts') && Turning(s'.loop)
    ensures Well(s', f, id, Aim(s.HistAt(id).input, |s.HistAt(id).served|, dir == In))
  {
    hide Run, Respond, Safe, Tracked, Continues, LoopEnabled, LoopStep;
    var s1 := s.(loop := Waiting([]));
    ToWait(s);
    var acts1 := Proceeds(cfg, now, acts, s, LoopActs(Onward));
    s' := s1.(loop := Waiting([Ready(f, dir)]), interest := s.interest[f := Off],
              token := s.token[f := Delivered(dir)]);
    ConfigIs(cfg, now, acts, s);
    Collects(s1, f, dir);
    acts' := Proceeds(cfg, now, acts1, s1, LoopActs(Collect(Ready(f, dir))));
    ContinuesOn(acts, acts1, acts');
    Delivers(s, s', f, id, dir);
  }

  lemma ConfigIs(cfg: Config, now: int, acts: seq<Action>, s: State)
    requires Serving(cfg, now, acts, s)
    ensures s.cfg == cfg
  {
    hide Run, Sound, Steady, Equipped;
    ServingFacts(cfg, now, acts, s);
  }

  lemma Delivers(s: State, s': State, f: Fd, id: ConnId, dir: Dir)
    requires Safe(s, f, id) && f in s.token && Calm(s)
    requires s' == s.(loop := Waiting([Ready(f, dir)]), interest := s.interest[f := Off],
                      token := s.token[f := Delivered(dir)])
    ensures Well(s', f, id, Aim(s.HistAt(id).input, |s.HistAt(id).served|, dir == In))
  {
  }

  // ---------- the result ----------

  /** All that has arrived is answered, and the connection waits for more; or a closing answer was the last,
      everything is out, and the connection's descriptor is closed. */
  ghost predicate Answered(s: State, f: Fd, id: ConnId, input: Text) {
    var h := s.HistAt(id);
    && h.input == input && h.tx == Stream(h.served)
    && (|| (&& f in s.table && s.table[f] == id && f in s.interest && s.interest[f] == On(In)
            && h.taken == |h.input| && Raws(h.served) == Frames(h.input))
        || (LastCloses(h.served) && !IsOpen(s.open, s.sock, id)))
  }

  lemma EndAnswered(cfg: Config, now: int, acts: seq<Action>, s: State, f: Fd, id: ConnId, input: Text)
    requires Serving(cfg, now, acts, s) && Calm(s) && Ends(s.HistAt(id), input)
    ensures Answered(s, f, id, input)
  {
    hide Run, Sound, Steady, Respond, Calm, Stream, Equipped, Frames, Raws;
    ServingFacts(cfg, now, acts, s);
    CalmEnds(s, id);
  }

  lemma QuietIsAnswered(cfg: Config, now: int, acts: seq<Action>, s: State, f: Fd, id: ConnId)
    requires Serving(cfg, now, acts, s) && f in s.table && s.table[f] == id
    requires f in s.interest && s.interest[f] == On(In) && s.HistAt(id).taken >= |s.HistAt(id).input|
    ensures Answered(s, f, id, s.HistAt(id).input)
  {
    hide Run, Respond, Stream, Frames, Raws;
    EverythingAnswered(cfg, now, acts, s, f);
  }

  /** What is known of the connection whenever the server is calm. */
  lemma CalmFacts(cfg: Config, now: int, acts: seq<Action>, s: State, f: Fd, id: ConnId)
    requires Serving(cfg, now, acts, s) && Calm(s) && Safe(s, f, id)
    ensures f in s.open && f in s.token && s.token[f].Armed? && f in s.interest && s.interest[f] == On(s.token[f].dir)
    ensures s.HistAt(id).taken <= |s.HistAt(id).input|
  {
    hide Run, Sound, Steady, Tokens, Respond, Calm, Fine, Ends, Unthreatened, Equipped;
    ServingFacts(cfg, now, acts, s);
    SteadyTokens(Respond, s);
    TabledFine(Respond, s, f);
    CalmArmed(s, f);
    QuietOrLoaded(Respond, s.token[f].dir, s.ConnAt(id), s.HistAt(id));
  }

  /** After a round for an armed connection there is less to come. */
  lemma LessToGo(s: State, s': State, f: Fd, id: ConnId, dir: Dir)
    requires var h := s.HistAt(id); Well(s', f, id, Aim(h.input, |h.served|, dir == In))
    requires s'.token[f].Armed? && |s.HistAt(id).served| <= |Frames(s.HistAt(id).input)| + 1
    requires |s'.HistAt(id).served| <= |Frames(s'.HistAt(id).input)| + 1
    requires dir == Out || s.HistAt(id).taken < |s.HistAt(id).input|
    ensures Togo(s'.HistAt(id), s'.token[f].dir) < Togo(s.HistAt(id), dir)
  {
    hide Frames, Safe;
  }

  /** Round after round, until everything is answered. */
  lemma {:induction false} Rounds(cfg: Config, now: int, acts: seq<Action>, s: State, f: Fd, id: ConnId)
    returns (acts': seq<Action>, s': State)
    requires Serving(cfg, now, acts, s) && Calm(s) && Safe(s, f, id) && f in s.token && s.token[f].Armed?
    ensures Serving(cfg, now, acts', s') && Continues(acts, acts') && Answered(s', f, id, s.HistAt(id).input)
    decreases Togo(s.HistAt(id), s.token[f].dir)
  {
    hide Run, Respond, Equipped, Unthreatened, Calm, Tracked, Togo, Answered, Frames, Ends;
    CalmFacts(cfg, now, acts, s, f, id);
    var dir, h := s.token[f].dir, s.HistAt(id);
    if dir == In && h.taken >= |h.input| {
      QuietIsAnswered(cfg, now, acts, s, f, id);
      acts', s' := acts, s;
    } else {
      var aim := Aim(h.input, |h.served|, dir == In);
      var acts1, s1 := Deliver(cfg, now, acts, s, f, id, dir);
      WellKept(s1, f, id, aim);
      var acts2, s2 := Settle(cfg, now, acts1, s1, f, id, aim);
      ContinuesOn(acts, acts1, acts2);
      if Well(s2, f, id, aim) {
        CalmFacts(cfg, now, acts2, s2, f, id);
        ServingBound(cfg, now, acts, s, id);
        ServingBound(cfg, now, acts2, s2, id);
        LessToGo(s, s2, f, id, dir);
        WellInput(s2, f, id, aim);
        acts', s' := Rounds(cfg, now, acts2, s2, f, id);
        ContinuesOn(acts, acts2, acts');
      } else {
        KeptEnds(s2, f, id, aim);
        EndAnswered(cfg, now, acts2, s2, f, id, h.input);
        acts', s' := acts2, s2;
      }
    }
  }

  lemma WellInput(s: State, f: Fd, id: ConnId, aim: Aim)
    requires Well(s, f, id, aim)
    ensures s.HistAt(id).input == aim.input
  {
  }

  /** No framed request is stranded. From every state of a careful run of a server that is not being stopped,
      a connection that nobody has decided to close, and whose idle timer has not run out, can go on without
      any further input, new peer or passing of time, until either all that has arrived is read, every request
      in it is answered, every answer is out and the connection waits for more, or a closing answer was the
      last, everything is out and its descriptor is closed. */
  lemma NothingStranded(cfg: Config, now: int, acts: seq<Action>, s: State, f: Fd)
    returns (acts': seq<Action>, s': State)
    requires Equipped(cfg) && Run(Init(cfg, now), acts, s, true) && s.running
    requires f in s.table && Unthreatened(s, f)
    ensures Run(Init(cfg, now), acts', s', true) && Continues(acts, acts')
    ensures Answered(s', f, s.table[f], s.HistAt(s.table[f]).input)
  {
    hide Run, Respond, Equipped, Unthreatened, Calm, Answered, Frames, Ends, Sound, Steady, Speaks, Tokens;
    var id := s.table[f];
    var aim := Aim(s.HistAt(id).input, -1, false);
    EquippedSpeaks(cfg);
    ServingFacts(cfg, now, acts, s);
    SteadyTokens(Respond, s);
    TabledIsOpen(s, f);
    RunningGoesRound(cfg, now, acts, s);
    var acts1, s1 := Settle(cfg, now, acts, s, f, id, aim);
    if Well(s1, f, id, aim) {
      CalmFacts(cfg, now, acts1, s1, f, id);
      WellInput(s1, f, id, aim);
      acts', s' := Rounds(cfg, now, acts1, s1, f, id);
      ContinuesOn(acts, acts1, acts');
    } else {
      KeptEnds(s1, f, id, aim);
      EndAnswered(cfg, now, acts1, s1, f, id, aim.input);
      acts', s' := acts1, s1;
    }
  }

  lemma EquippedSpeaks(cfg: Config)
    requires Equipped(cfg)
    ensures Speaks(cfg.respond)
  {
    hide Respond, Speaks;
    ServiceSpeaks();
  }
}
