/** One task at a time for one connection object: the claim of `beginProcessing`, in every run, whatever
    descriptors `accept` hands out. */
module ServerClaims {
  import opened Timers
  import opened Server
  import opened ServerTable
  import opened ServerRuns
  import opened ServerFootprint
  import opened ServerCloses

  /** The step dispatches an event for the connection. */
  ghost predicate Claims(s: State, a: Action, id: ConnId) {
    Enabled(s, a) && s.loop.Beginning? && s.loop.id == id && Step(s, a).loop.Enqueueing?
  }

  /** The step is its worker's block that hands the connection back. */
  predicate Frees(s: State, a: Action, id: ConnId) {
    a.WorkerActs? && a.worker in s.workers && Releases(s.workers[a.worker], id)
  }

  ghost predicate FreedAlong(start: State, acts: seq<Action>, id: ConnId) {
    exists k, q :: 0 <= k < |acts| && Run(start, acts[..k], q, false) && Frees(q, acts[k], id)
  }

  /** A dispatch goes on to the queue exactly if its connection is neither closed nor being processed, and
      then it is. */
  lemma DispatchDecides(s: State)
    requires s.loop.Beginning?
    ensures var c, s' := s.ConnAt(s.loop.id), LoopStep(s, Onward);
            && (s'.loop.Enqueueing? <==> !c.closed && !c.processing)
            && (s'.loop.Enqueueing? ==> s'.ConnAt(s.loop.id).processing)
  {
  }

  lemma ClaimTakes(s: State, a: Action, id: ConnId)
    requires Claims(s, a, id)
    ensures !s.ConnAt(id).processing && Step(s, a).ConnAt(id).processing
  {
    hide LoopStep, WorkerStep;
    match a
    case LoopActs(la) => DispatchDecides(s);
    case WorkerActs(w, wa) =>
      WorkerReach(s, w, wa);
      assert false;
    case _ =>
  }

  lemma LocalHolds(s: State, s': State, w: WorkerId, fd: Fd, k: ConnId, id: ConnId)
    requires Local(s, s', w, fd, k) && s.ConnAt(id).processing
    ensures s'.ConnAt(id).processing || Releases(s.workers[w], id)
  {
    if id != k {
      assert SameConn(s.conns, s'.conns, id);
    }
  }

  lemma ConfinedHolds(s: State, s': State, id: ConnId)
    requires Confined(s, s') && s.ConnAt(id).processing
    ensures s'.ConnAt(id).processing
  {
  }

  lemma InsertHolds(s: State, id: ConnId)
    requires s.loop.Inserting? && s.loop.id !in s.conns && s.ConnAt(id).processing
    ensures StepInsert(s).ConnAt(id).processing
  {
  }

  lemma StepHolds(s: State, a: Action, id: ConnId)
    requires Sound(s) && Enabled(s, a) && s.ConnAt(id).processing
    ensures Step(s, a).ConnAt(id).processing || Frees(s, a, id)
  {
    hide Sound, WorkerStep, LoopEnabled, WorkerEnabled, Local, Confined, StepInsert;
    ConnsGround(s);
    match a
    case LoopActs(la) =>
      if s.loop.Inserting? {
        InsertHolds(s, id);
      } else {
        hide LoopStep;
        LoopConfined(s, la);
        ConfinedHolds(s, LoopStep(s, la), id);
      }
    case WorkerActs(w, wa) =>
      WorkerReach(s, w, wa);
      LocalHolds(s, WorkerStep(s, w, wa), w, Subject(s, w), Concerned(s, w), id);
    case _ =>
  }

  /** A claim lasts until a worker's block that hands the connection back. */
  lemma {:induction false} ClaimLasts(cfg: Config, now: int, acts: seq<Action>, m: State, more: seq<Action>, s: State,
                                      id: ConnId)
    requires Run(Init(cfg, now), acts, m, false) && Run(m, more, s, false) && m.ConnAt(id).processing
    ensures s.ConnAt(id).processing || FreedAlong(m, more, id)
    decreases |more|
  {
    hide Enabled, Step, FdReuseOk, Sound, Frees;
    if more != [] {
      var n := |more| - 1;
      var q :| Run(m, more[..n], q, false) && Enabled(q, more[n]) && s == Step(q, more[n]);
      ClaimLasts(cfg, now, acts, m, more[..n], q, id);
      if q.ConnAt(id).processing {
        RunJoin(Init(cfg, now), acts, m, more[..n], q, false);
        RunSound(cfg, now, acts + more[..n], q, false);
        StepHolds(q, more[n], id);
      } else {
        var k, p :| 0 <= k < n && Run(m, more[..n][..k], p, false) && Frees(p, more[..n][k], id);
        assert more[..n][..k] == more[..k] && more[..n][k] == more[k];
      }
    }
  }

  /** Between two dispatches of one connection, some worker has handed it back. */
  lemma ClaimsAlternate(cfg: Config, now: int, acts: seq<Action>, m: State, a: Action, more: seq<Action>, s: State,
                        b: Action, id: ConnId)
    requires Run(Init(cfg, now), acts, m, false) && Claims(m, a, id)
    requires Run(Step(m, a), more, s, false) && Claims(s, b, id)
    ensures FreedAlong(Step(m, a), more, id)
  {
    hide Run, Step, Enabled, FreedAlong;
    ClaimTakes(m, a, id);
    ClaimTakes(s, b, id);
    RunSnoc(Init(cfg, now), acts, m, a, Step(m, a), false);
    ClaimLasts(cfg, now, acts + [a], Step(m, a), more, s, id);
  }
}
