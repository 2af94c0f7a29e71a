/** When the loop stops, and that it can: the course of the event loop over whole runs. */
module ServerStop {
  import opened Timers
  import opened Server
  import opened ServerTable
  import opened ServerRuns
  import opened ServerGrowth
  import opened ServerShutdown
  import opened ServerFootprint
  import opened ServerProgress
  import opened ServerAnswers

  // ---------- what one step does to the course ----------

  /** The loop has left its rounds for good. */
  predicate Ending(l: Loop) {
    l.Draining? || l.Sweeping? || l.Stopped?
  }

  /** The loop is taking in new connections. */
  predicate TakingIn(l: Loop) {
    l.Accepting? || l.Inserting? || l.Adding?
  }

  /** The action ends the server. */
  predicate CallsEnd(a: Action) {
    a == RequestStop || a == LoopActs(WaitFails)
  }

  /** The server runs on unless the action ends it; it leaves its rounds only when it is not to run on, and
      at once when a wait fails; it waits again only if it is to run on; and it takes in new connections
      until it is refused one. */
  predicate OnCourse(l: Loop, running: bool, l': Loop, running': bool, a: Action) {
    && (running' <==> running && !CallsEnd(a))
    && (Ending(l) ==> Ending(l'))
    && (Ending(l') ==> Ending(l) || !running')
    && (a == LoopActs(WaitFails) ==> Ending(l'))
    && (l'.Waiting? ==> l.Waiting? || running)
    && (TakingIn(l) && a != LoopActs(AcceptFails) ==> TakingIn(l'))
  }

  lemma PlaceCourse(s: State, fd: Fd, p: Place)
    ensures SetPlace(s, fd, p).loop == s.loop && SetPlace(s, fd, p).running == s.running
  {
  }

  lemma CollectCourse(s: State, e: Event)
    requires s.loop.Waiting?
    ensures StepCollect(s, e).loop.Waiting? && StepCollect(s, e).running == s.running
  {
    hide SetPlace;
    var s' := s.(loop := Waiting(s.loop.batch + [e]));
    if !(e.Listen? || e.fd !in s.interest || s.interest[e.fd] == Off) {
      PlaceCourse(s'.(interest := s.interest[e.fd := Off]), e.fd, Delivered(s.interest[e.fd].dir));
    }
  }

  lemma AddCourse(s: State)
    requires s.loop.Adding?
    ensures StepAdd(s).loop.Accepting? && StepAdd(s).running == s.running
  {
    hide SetPlace;
    var s' := s.(loop := Accepting(s.loop.batch));
    PlaceCourse(s'.(interest := s.interest[s.loop.fd := On(In)]), s.loop.fd, Armed(In));
  }

  /** The rest of a round: the loop neither leaves nor waits. */
  lemma RoundCourse(s: State, a: LoopAnswer)
    requires LoopEnabled(s, a)
    requires s.loop.Handling? || s.loop.Beginning? || s.loop.Enqueueing? || s.loop.LoopClosing? || s.loop.Popping? ||
             s.loop.Expiring?
    ensures LoopStep(s, a).running == s.running && !Ending(LoopStep(s, a).loop) && !LoopStep(s, a).loop.Waiting?
  {
    hide LoopStep, Turned, LoopEnabled;
    assert Turns(s, a);
    LoopTurned(s, a);
    RoundEnds(s, LoopStep(s, a));
  }

  lemma RoundEnds(s: State, s': State)
    requires Turned(s, s')
    ensures s'.running == s.running && !Ending(s'.loop) && !s'.loop.Waiting?
  {
  }

  /** The other steps of the loop. */
  lemma TurnCourse(s: State, a: LoopAnswer)
    requires LoopEnabled(s, a)
    requires s.loop.LoopTop? || s.loop.Waiting? || Ending(s.loop) || TakingIn(s.loop)
    ensures OnCourse(s.loop, s.running, LoopStep(s, a).loop, LoopStep(s, a).running, LoopActs(a))
  {
    hide StepCollect, StepAdd, StepInsert, StepAccept, StepSweep;
    match s.loop
    case Waiting(_) => if a.Collect? { CollectCourse(s, a.event); }
    case Adding(_, _) => AddCourse(s);
    case Inserting(_, _, _) => InsertCourse(s);
    case Accepting(_) => if a.AcceptFd? { AcceptCourse(s, a.fd, a.id); }
    case Sweeping => SweepCourse(s);
    case _ =>
  }

  lemma InsertCourse(s: State)
    requires s.loop.Inserting?
    ensures StepInsert(s).loop.Adding? && StepInsert(s).running == s.running
  {
  }

  lemma AcceptCourse(s: State, fd: Fd, id: ConnId)
    requires s.loop.Accepting?
    ensures StepAccept(s, fd, id).loop.Inserting? && StepAccept(s, fd, id).running == s.running
  {
  }

  lemma SweepCourse(s: State)
    ensures StepSweep(s).loop == Stopped && StepSweep(s).running == s.running
  {
    hide SweptConns, SweptCloses;
  }

  lemma RestCourse(s: State, s': State, w: WorkerId, fd: Fd, k: ConnId)
    requires Local(s, s', w, fd, k)
    ensures s'.loop == s.loop && s'.running == s.running
  {
  }

  lemma StepCourse(s: State, a: Action)
    requires Enabled(s, a)
    ensures OnCourse(s.loop, s.running, Step(s, a).loop, Step(s, a).running, a)
  {
    hide WorkerStep, LoopStep, WorkerEnabled;
    match a
    case WorkerActs(w, wa) =>
      hide Local;
      WorkerReach(s, w, wa);
      RestCourse(s, WorkerStep(s, w, wa), w, Subject(s, w), Concerned(s, w));
    case LoopActs(la) =>
      if s.loop.LoopTop? || s.loop.Waiting? || Ending(s.loop) || TakingIn(s.loop) {
        hide LoopEnabled;
        TurnCourse(s, la);
      } else {
        RoundCourse(s, la);
      }
    case _ =>
  }

  // ---------- the course of a run ----------

  ghost predicate SomeEnds(acts: seq<Action>) {
    exists i :: 0 <= i < |acts| && CallsEnd(acts[i])
  }

  lemma EndsSnoc(acts: seq<Action>)
    requires acts != []
    ensures SomeEnds(acts) <==> SomeEnds(acts[..|acts| - 1]) || CallsEnd(acts[|acts| - 1])
  {
    var n := |acts| - 1;
    if i :| 0 <= i < |acts| && CallsEnd(acts[i]) {
      assert i < n ==> acts[..n][i] == acts[i];
    }
  }

  /** In every run, the server is told to end exactly if it was requested or a wait has failed; and the loop
      leaves its rounds only then, in particular not for an interrupted wait. */
  lemma {:induction false} StopsOnlyWhenTold(cfg: Config, now: int, acts: seq<Action>, s: State)
    requires Run(Init(cfg, now), acts, s, false)
    ensures s.running <==> !SomeEnds(acts)
    ensures Ending(s.loop) ==> SomeEnds(acts)
    ensures LoopActs(WaitFails) in acts ==> Ending(s.loop)
  {
    hide Enabled, Step, FdReuseOk, SomeEnds;
    if acts == [] {
      assert !SomeEnds(acts) by {
        hide *;
        NoneEnds();
      }
    } else {
      var n := |acts| - 1;
      var m :| Run(Init(cfg, now), acts[..n], m, false) && Enabled(m, acts[n]) && s == Step(m, acts[n]);
      StopsOnlyWhenTold(cfg, now, acts[..n], m);
      StepCourse(m, acts[n]);
      EndsSnoc(acts);
      assert acts == acts[..n] + [acts[n]];
    }
  }

  lemma NoneEnds()
    ensures !SomeEnds([])
  {
  }

  /** A server told to end takes at most the events of the wait it stands in: it never waits again, and a loop
      that has left its rounds stays out of them, whatever else happens. */
  lemma {:induction false} StopIsFinal(m: State, more: seq<Action>, s: State)
    requires Run(m, more, s, false) && !m.running
    ensures !s.running && (Ending(m.loop) ==> Ending(s.loop)) && (s.loop.Waiting? ==> m.loop.Waiting?)
  {
    hide Enabled, Step, FdReuseOk;
    if more != [] {
      var n := |more| - 1;
      var q :| Run(m, more[..n], q, false) && Enabled(q, more[n]) && s == Step(q, more[n]);
      StopIsFinal(m, more[..n], q);
      StepCourse(q, more[n]);
    }
  }

  /** The loop takes in connections until `accept` has no more: nothing else ends it. */
  lemma {:induction false} TakesInAll(m: State, more: seq<Action>, s: State)
    requires Run(m, more, s, false) && TakingIn(m.loop) && LoopActs(AcceptFails) !in more
    ensures TakingIn(s.loop)
  {
    hide Enabled, Step, FdReuseOk;
    if more != [] {
      var n := |more| - 1;
      var q :| Run(m, more[..n], q, false) && Enabled(q, more[n]) && s == Step(q, more[n]);
      TakesInAll(m, more[..n], q);
      StepCourse(q, more[n]);
      assert more[n] in more;
    }
  }

  // ---------- the server can always be stopped ----------

  /** Nothing comes from outside but the request to stop. */
  predicate WindsUp(a: Action) {
    a == RequestStop || Unprompted(a)
  }

  /** A state of a run that has at least one worker. */
  ghost predicate Reached(cfg: Config, now: int, acts: seq<Action>, s: State) {
    Run(Init(cfg, now), acts, s, false) && cfg.workers > 0 && !s.running
  }

  ghost predicate GoesTo(acts: seq<Action>, acts': seq<Action>) {
    acts <= acts' && forall i :: |acts| <= i < |acts'| ==> WindsUp(acts'[i])
  }

  lemma GoesToOn(acts: seq<Action>, acts': seq<Action>, acts'': seq<Action>)
    requires GoesTo(acts, acts') && GoesTo(acts', acts'')
    ensures GoesTo(acts, acts'')
  {
  }

  lemma Reaches(cfg: Config, now: int, acts: seq<Action>, s: State, a: Action) returns (acts': seq<Action>)
    requires Reached(cfg, now, acts, s) && Enabled(s, a) && WindsUp(a)
    ensures Reached(cfg, now, acts', Step(s, a)) && GoesTo(acts, acts')
    ensures OnCourse(s.loop, false, Step(s, a).loop, false, a)
  {
    hide Run, Enabled, Step;
    acts' := acts + [a];
    StepCourse(s, a);
    RunSnoc(Init(cfg, now), acts, s, a, Step(s, a), false);
  }

  /** The loop finishes its round. */
  lemma {:induction false} RoundGoes(cfg: Config, now: int, acts: seq<Action>, s: State)
    returns (acts': seq<Action>, s': State)
    requires Reached(cfg, now, acts, s) && (Turning(s.loop) || s.loop == LoopTop)
    ensures Reached(cfg, now, acts', s') && GoesTo(acts, acts') && s'.loop == LoopTop
    decreases Before(s.loop), Rank(s.loop)
  {
    hide Reached, Before, Rank, LoopStep, LoopEnabled, OnCourse;
    if s.loop == LoopTop {
      acts', s' := acts, s;
    } else {
      var a := LoopKindly(s);
      LoopTurned(s, a);
      var acts1 := Reaches(cfg, now, acts, s, LoopActs(a));
      acts', s' := RoundGoes(cfg, now, acts1, LoopStep(s, a));
      GoesToOn(acts, acts1, acts');
    }
  }

  /** The workers finish what there is. */
  lemma {:induction false} DrainGoes(cfg: Config, now: int, acts: seq<Action>, s: State)
    returns (acts': seq<Action>, s': State)
    requires Reached(cfg, now, acts, s) && s.loop == Draining
    ensures Reached(cfg, now, acts', s') && GoesTo(acts, acts') && s'.loop == Draining && LoopEnabled(s', Onward)
    decreases Loads(s), Work(s)
  {
    hide Run, Sound, WorkerStep, WorkerEnabled, LoopEnabled, Loads, Work, OnCourse;
    RunSound(cfg, now, acts, s, false);
    ConfigStays(cfg, now, acts, s);
    if LoopEnabled(s, Onward) {
      acts', s' := acts, s;
    } else {
      DrainGoesOn(s);
      var w, a :| WorkerEnabled(s, w, a);
      WorkersProgress(cfg, now, acts, s, w, a);
      var acts1 := Reaches(cfg, now, acts, s, WorkerActs(w, a));
      acts', s' := DrainGoes(cfg, now, acts1, WorkerStep(s, w, a));
      GoesToOn(acts, acts1, acts');
    }
  }

  function Phase(l: Loop): nat {
    if l == Stopped then 0 else if l == Sweeping then 1 else if l == Draining then 2 else 3
  }

  /** What is left of stopping, phase by phase. */
  lemma {:induction false} PhasesGo(cfg: Config, now: int, acts: seq<Action>, s: State)
    returns (acts': seq<Action>, s': State)
    requires Reached(cfg, now, acts, s)
    ensures Reached(cfg, now, acts', s') && GoesTo(acts, acts') && s'.loop == Stopped
    decreases Phase(s.loop)
  {
    hide Reached, OnCourse, StepSweep;
    acts', s' := acts, s;
    if s.loop != Stopped {
      if s.loop == Draining {
        acts', s' := DrainGoes(cfg, now, acts, s);
      } else if s.loop != Sweeping {
        acts', s' := RoundGoes(cfg, now, acts, s);
      }
      var acts1 := Reaches(cfg, now, acts', s', LoopActs(Onward));
      GoesToOn(acts, acts', acts1);
      NextPhase(cfg, now, acts', s');
      var acts2, s2 := PhasesGo(cfg, now, acts1, LoopStep(s', Onward));
      GoesToOn(acts, acts1, acts2);
      acts', s' := acts2, s2;
    }
  }

  lemma NextPhase(cfg: Config, now: int, acts: seq<Action>, s: State)
    requires Reached(cfg, now, acts, s) && (s.loop == LoopTop || s.loop == Draining || s.loop == Sweeping)
    ensures Phase(LoopStep(s, Onward).loop) < Phase(s.loop)
  {
    hide StepSweep;
    SweepCourse(s);
  }

  lemma StopAsked(s: State)
    ensures Step(s, RequestStop) == s.(running := false)
  {
  }

  /** From every state of every run with at least one worker, a request to stop can be followed through, with
      nothing else from outside, until the server has stopped. */
  lemma StopReached(cfg: Config, now: int, acts: seq<Action>, s: State) returns (acts': seq<Action>, s': State)
    requires Run(Init(cfg, now), acts, s, false) && cfg.workers > 0
    ensures Run(Init(cfg, now), acts', s', false) && GoesTo(acts, acts') && s'.loop == Stopped
  {
    hide Run, OnCourse, Step;
    StopAsked(s);
    var stopping := s.(running := false);
    RunSnoc(Init(cfg, now), acts, s, RequestStop, stopping, false);
    acts', s' := PhasesGo(cfg, now, acts + [RequestStop], stopping);
    GoesToOn(acts, acts + [RequestStop], acts');
  }
}
