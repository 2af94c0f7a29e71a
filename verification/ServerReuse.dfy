/** Why the hypothesis on descriptor reuse is needed: a run in which `accept` returns a descriptor
    that a queued task still names, so that two workers end up with the same live connection, append
    what they read to its buffer in the wrong order, serve what the peer never sent, and overwrite an
    answer of which nothing has been written. */
module ServerReuse {
  import opened Bytes
  import opened Framing
  import opened Connections
  import opened Service
  import opened Timers
  import opened Server
  import opened ServerToken

  lemma Extend(start: State, acts: seq<Action>, s: State, a: Action) returns (acts': seq<Action>)
    requires Run(start, acts, s, false) && Enabled(s, a)
    ensures Run(start, acts', Step(s, a), false)
  {
    hide Enabled, Step;
    acts' := acts + [a];
    assert acts'[|acts'| - 1] == a && acts'[..|acts'| - 1] == acts;
  }

  /** The loop can go from `s` to `s'` in one step. */
  ghost predicate Turns(s: State, s': State) {
    exists a :: LoopEnabled(s, a) && LoopStep(s, a) == s'
  }

  lemma Go(start: State, acts: seq<Action>, s: State, s': State) returns (acts': seq<Action>)
    requires Run(start, acts, s, false) && Turns(s, s')
    ensures Run(start, acts', s', false)
  {
    hide LoopEnabled, LoopStep, Run;
    var a :| LoopEnabled(s, a) && LoopStep(s, a) == s';
    acts' := Extend(start, acts, s, LoopActs(a));
  }

  // ---------- single turns of the loop ----------

  lemma ToWaiting(s: State)
    requires s.loop == LoopTop && s.running
    ensures Turns(s, s.(loop := Waiting([])))
  {
    assert LoopEnabled(s, Onward);
  }

  lemma CollectsListen(s: State)
    requires s.loop == Waiting([]) && s.cfg.maxEvents > 0
    ensures Turns(s, s.(loop := Waiting([Listen])))
  {
    assert [] + [Listen] == [Listen];
    assert LoopEnabled(s, Collect(Listen));
  }

  lemma CollectsReady(s: State, f: Fd)
    requires s.loop == Waiting([]) && s.cfg.maxEvents > 0 && f in s.interest && s.interest[f] == On(In) && f in s.open
    ensures Turns(s, s.(loop := Waiting([Ready(f, In)]), interest := s.interest[f := Off],
                        token := s.token[f := Delivered(In)]))
  {
    assert [] + [Ready(f, In)] == [Ready(f, In)];
    assert LoopEnabled(s, Collect(Ready(f, In)));
  }

  lemma EndsWaiting(s: State)
    requires s.loop.Waiting?
    ensures Turns(s, s.(loop := Handling(s.loop.batch)))
  {
    assert LoopEnabled(s, WaitDone);
  }

  lemma TakesListen(s: State)
    requires s.loop == Handling([Listen])
    ensures Turns(s, s.(loop := Accepting([])))
  {
    assert [Listen][1..] == [];
    assert LoopEnabled(s, Onward);
  }

  lemma TakesReady(s: State, f: Fd, dir: Dir)
    requires s.loop == Handling([Ready(f, dir)]) && f in s.table && f in s.open
    ensures Turns(s, s.(loop := Beginning(f, s.table[f], dir, []), token := s.token[f := Dispatching(dir)]))
  {
    assert [Ready(f, dir)][1..] == [];
    assert LoopEnabled(s, Onward);
  }

  lemma Accepts(s: State, f: Fd, id: ConnId)
    requires s.loop == Accepting([]) && f !in s.open && id !in s.sock
    ensures Turns(s, StepAccept(s, f, id))
  {
    assert LoopEnabled(s, AcceptFd(f, id));
  }

  lemma EndsAccepting(s: State)
    requires s.loop.Accepting?
    ensures Turns(s, s.(loop := Handling(s.loop.batch)))
  {
    assert LoopEnabled(s, AcceptFails);
  }

  lemma Pops(s: State, fds: seq<Fd>)
    requires s.loop == Popping && ExpiredList(s.timers, s.now, fds)
    ensures Turns(s, StepPop(s, fds))
  {
    assert LoopEnabled(s, Expire(fds));
  }

  /** The other blocks have one outcome each. */
  lemma Blocks(s: State)
    requires s.loop.Inserting? || s.loop.Adding? || s.loop.Beginning? || s.loop.Enqueueing? || s.loop.LoopClosing? ||
             s.loop.Expiring?
             || s.loop == Handling([])
    ensures Turns(s, LoopStep(s, Onward))
  {
    assert LoopEnabled(s, Onward);
  }

  // ---------- whole rounds ----------

  /** What a round of the loop leaves alone. */
  ghost predicate SameRest(s: State, s': State) {
    s'.cfg == s.cfg && s'.now == s.now && s'.running == s.running && s'.workers == s.workers
  }

  lemma InsertedAndAdded(s: State)
    requires s.loop.Inserting? && s.loop.fd in s.open
    ensures var s' := StepAdd(StepInsert(s));
            && StepInsert(s).loop == Adding(s.loop.fd, s.loop.batch) && StepInsert(s).open == s.open
            && SameRest(s, s') && s'.loop == Accepting(s.loop.batch) && s'.open == s.open && s'.sock == s.sock
            && s'.table == s.table[s.loop.fd := s.loop.id] && s'.interest == s.interest[s.loop.fd := On(In)]
            && s'.queue == s.queue && s'.hist == s.hist
            && s'.timers == s.timers[s.loop.fd := s.now + s.cfg.timeout] && s'.conns == s.conns[s.loop.id := FRESH]
  {
  }

  lemma Accepted(s: State, f: Fd, id: ConnId)
    requires s.loop == Accepting([])
    ensures var s' := StepAccept(s, f, id);
            && SameRest(s, s') && s'.loop == Inserting(f, id, []) && s'.open == s.open[f := id]
            && s'.sock == s.sock[id := f]
            && s'.table == s.table && s'.interest == s.interest && s'.queue == s.queue && s'.timers == s.timers
            && s'.conns == s.conns && s'.hist == s.hist[id := QUIET]
  {
  }

  /** The listening socket is readable. */
  lemma ListenRound(start: State, acts: seq<Action>, s: State) returns (acts': seq<Action>)
    requires Run(start, acts, s, false) && s.loop == LoopTop && s.running && s.cfg.maxEvents > 0
    ensures Run(start, acts', s.(loop := Accepting([])), false)
  {
    hide Run, Turns;
    var s1 := s.(loop := Waiting([]));
    ToWaiting(s);
    acts' := Go(start, acts, s, s1);
    var s2 := s1.(loop := Waiting([Listen]));
    CollectsListen(s1);
    acts' := Go(start, acts', s1, s2);
    var s3 := s2.(loop := Handling([Listen]));
    EndsWaiting(s2);
    acts' := Go(start, acts', s2, s3);
    TakesListen(s3);
    acts' := Go(start, acts', s3, s3.(loop := Accepting([])));
  }

  /** A round in which one socket is accepted. */
  lemma AcceptRound(start: State, acts: seq<Action>, s: State, f: Fd, id: ConnId)
    returns (acts': seq<Action>, s': State)
    requires Run(start, acts, s, false) && s.loop == LoopTop && s.running && s.cfg.maxEvents > 0
    requires f !in s.open && id !in s.sock
    ensures Run(start, acts', s', false) && SameRest(s, s') && s'.loop == Popping
    ensures s'.open == s.open[f := id] && s'.table == s.table[f := id] && s'.interest == s.interest[f := On(In)]
    ensures s'.timers == s.timers[f := s.now + s.cfg.timeout]
    ensures s'.conns == s.conns[id := FRESH] && s'.sock == s.sock[id := f] && s'.queue == s.queue
    ensures s'.hist == s.hist[id := QUIET]
  {
    hide Run, Turns, StepAccept;
    acts' := ListenRound(start, acts, s);
    var s1 := s.(loop := Accepting([]));
    var s2 := StepAccept(s1, f, id);
    Accepted(s1, f, id);
    Accepts(s1, f, id);
    acts' := Go(start, acts', s1, s2);
    acts', s' := RegisterRound(start, acts', s2);
  }

  /** Registering and arming the accepted socket, and the end of the batch. */
  lemma RegisterRound(start: State, acts: seq<Action>, s: State) returns (acts': seq<Action>, s': State)
    requires Run(start, acts, s, false) && s.loop.Inserting? && s.loop.batch == [] && s.loop.fd in s.open
    ensures Run(start, acts', s', false) && SameRest(s, s') && s'.loop == Popping
    ensures s'.open == s.open && s'.table == s.table[s.loop.fd := s.loop.id]
    ensures s'.interest == s.interest[s.loop.fd := On(In)]
    ensures s'.timers == s.timers[s.loop.fd := s.now + s.cfg.timeout]
    ensures s'.conns == s.conns[s.loop.id := FRESH] && s'.sock == s.sock && s'.queue == s.queue
    ensures s'.hist == s.hist
  {
    hide Run, Turns, StepInsert, StepAdd;
    InsertedAndAdded(s);
    var s1 := StepInsert(s);
    Blocks(s);
    acts' := Go(start, acts, s, s1);
    var s2 := StepAdd(s1);
    Blocks(s1);
    acts' := Go(start, acts', s1, s2);
    var s3 := s2.(loop := Handling([]));
    EndsAccepting(s2);
    acts' := Go(start, acts', s2, s3);
    s' := s3.(loop := Popping);
    Blocks(s3);
    acts' := Go(start, acts', s3, s');
  }

  /** No timer is due: back to the top. */
  lemma IdleRound(start: State, acts: seq<Action>, s: State) returns (acts': seq<Action>, s': State)
    requires Run(start, acts, s, false) && s.loop == Popping && forall f :: f in s.timers ==> s.timers[f] > s.now
    ensures Run(start, acts', s', false) && s' == s.(loop := LoopTop)
  {
    hide Run, Turns;
    var s1 := StepPop(s, []);
    Pops(s, []);
    assert Without(s.timers, []) == s.timers && Registered(s, []) == [];
    acts' := Go(start, acts, s, s1);
    s' := s1.(loop := LoopTop);
    Blocks(s1);
    acts' := Go(start, acts', s1, s');
  }

  /** A round in which a readable connection is dispatched. */
  lemma ReadRound(start: State, acts: seq<Action>, s: State, f: Fd) returns (acts': seq<Action>, s': State)
    requires Run(start, acts, s, false) && s.loop == LoopTop && s.running && s.cfg.maxEvents > 0
    requires f in s.table && f in s.open && f in s.interest && s.interest[f] == On(In)
    requires !s.ConnAt(s.table[f]).closed && !s.ConnAt(s.table[f]).processing
    ensures Run(start, acts', s', false) && SameRest(s, s') && s'.loop == Popping
    ensures s'.open == s.open && s'.table == s.table && s'.interest == s.interest[f := Off] && s'.timers == s.timers
    ensures s'.sock == s.sock && s'.hist == s.hist
    ensures s'.conns == s.conns[s.table[f] := s.ConnAt(s.table[f]).(processing := true)]
    ensures s'.queue == s.queue + [Task(f, In)]
  {
    hide Run, Turns;
    var s1 := s.(loop := Waiting([]));
    ToWaiting(s);
    acts' := Go(start, acts, s, s1);
    var s2 := s1.(loop := Waiting([Ready(f, In)]), interest := s.interest[f := Off],
                  token := s.token[f := Delivered(In)]);
    CollectsReady(s1, f);
    acts' := Go(start, acts', s1, s2);
    var s3 := s2.(loop := Handling([Ready(f, In)]));
    EndsWaiting(s2);
    acts' := Go(start, acts', s2, s3);
    var s4 := s3.(loop := Beginning(f, s.table[f], In, []), token := s3.token[f := Dispatching(In)]);
    TakesReady(s3, f, In);
    acts' := Go(start, acts', s3, s4);
    acts', s' := DispatchRound(start, acts', s4);
  }

  lemma BegunAndQueued(s: State)
    requires s.loop.Beginning? && !s.ConnAt(s.loop.id).closed && !s.ConnAt(s.loop.id).processing
    ensures var s1 := StepBegin(s);
            && SameRest(s, s1) && s1.loop == Enqueueing(s.loop.fd, s.loop.dir, s.loop.batch) && s1.queue == s.queue
            && s1.open == s.open && s1.table == s.table && s1.interest == s.interest && s1.timers == s.timers
            && s1.sock == s.sock && s1.hist == s.hist
            && s1.conns == s.conns[s.loop.id := s.ConnAt(s.loop.id).(processing := true)]
  {
  }

  lemma Queued(s: State)
    requires s.loop.Enqueueing?
    ensures var s1 := StepEnqueue(s);
            && SameRest(s, s1) && s1.loop == Handling(s.loop.batch)
            && s1.queue == s.queue + [Task(s.loop.fd, s.loop.dir)]
            && s1.open == s.open && s1.table == s.table && s1.interest == s.interest && s1.timers == s.timers
            && s1.sock == s.sock && s1.hist == s.hist && s1.conns == s.conns
  {
  }

  lemma DispatchRound(start: State, acts: seq<Action>, s: State) returns (acts': seq<Action>, s': State)
    requires Run(start, acts, s, false) && s.loop.Beginning? && s.loop.batch == []
    requires !s.ConnAt(s.loop.id).closed && !s.ConnAt(s.loop.id).processing
    ensures Run(start, acts', s', false) && SameRest(s, s') && s'.loop == Popping
    ensures s'.open == s.open && s'.table == s.table && s'.interest == s.interest && s'.timers == s.timers
    ensures s'.sock == s.sock && s'.hist == s.hist
    ensures s'.conns == s.conns[s.loop.id := s.ConnAt(s.loop.id).(processing := true)]
    ensures s'.queue == s.queue + [Task(s.loop.fd, s.loop.dir)]
  {
    hide Run, Turns, StepBegin, StepEnqueue, ConnIn;
    var s1 := StepBegin(s);
    BegunAndQueued(s);
    Blocks(s);
    acts' := Go(start, acts, s, s1);
    var s2 := StepEnqueue(s1);
    Queued(s1);
    Blocks(s1);
    acts' := Go(start, acts', s1, s2);
    s' := s2.(loop := Popping);
    Blocks(s2);
    acts' := Go(start, acts', s2, s');
  }

  /** A round in which the one timer fires and its connection is closed. */
  lemma ExpireRound(start: State, acts: seq<Action>, s: State, f: Fd, id: ConnId)
    returns (acts': seq<Action>, s': State)
    requires Run(start, acts, s, false) && s.loop == Popping && s.timers.Keys == {f} && s.timers[f] <= s.now
    requires s.open == map[f := id] && s.table == map[f := id]
    ensures Run(start, acts', s', false) && SameRest(s, s') && s'.loop == LoopTop
    ensures s'.open == map[] && s'.table == map[] && s'.timers == map[] && s'.sock == s.sock && s'.queue == s.queue
  {
    hide Run, Turns;
    var s1 := StepPop(s, [f]);
    Pops(s, [f]);
    acts' := Go(start, acts, s, s1);
    var due := s1.loop.rest;
    assert |due| == 1 && due[0].fd == f && due[1..] == [];
    var s2 := s1.(loop := LoopClosing(Erase(f), ToIdle(due[0], [])));
    Blocks(s1);
    acts' := Go(start, acts', s1, s2);
    assert s1.timers == map[];
    acts', s' := CloseRound(start, acts', s2, f, id);
  }

  /** The loop's close of one registered descriptor, step by step. */
  lemma Erased(s: State, f: Fd, id: ConnId)
    requires s.loop.LoopClosing? && s.loop.close == Erase(f) && s.table == map[f := id] && s.timers == map[]
    ensures var s1 := StepLoopClosing(s);
            && SameRest(s, s1) && s1.loop == LoopClosing(Mark(f, id), s.loop.resume) && s1.open == s.open
            && s1.table == map[]
            && s1.timers == map[] && s1.sock == s.sock && s1.queue == s.queue
  {
    var s1 := StepLoopClosing(s);
    assert s1.table == map[] && s1.timers == map[];
  }

  lemma MarkedAndUnregistered(s: State)
    requires s.loop.LoopClosing? && (s.loop.close.Mark? || s.loop.close.Unregister?)
    ensures var s1 := StepLoopClosing(s);
            && SameRest(s, s1) && s1.open == s.open && s1.table == s.table && s1.timers == s.timers && s1.sock == s.sock
            && s1.queue == s.queue
            && s1.loop == LoopClosing(if s.loop.close.Mark? then Unregister(s.loop.close.fd, s.loop.close.id)
                                      else Shut(s.loop.close.fd, s.loop.close.id), s.loop.resume)
  {
  }

  lemma ShutDown(s: State, f: Fd, id: ConnId)
    requires s.loop.LoopClosing? && s.loop.close == Shut(f, id) && s.open == map[f := id] && s.loop.resume.ToIdle?
    ensures var s1 := StepLoopClosing(s);
            && SameRest(s, s1) && s1.loop == Expiring(s.loop.resume.rest) && s1.open == map[]
            && s1.table == s.table && s1.timers == s.timers && s1.sock == s.sock && s1.queue == s.queue
  {
    assert StepLoopClosing(s).open == map[];
  }

  lemma CloseRound(start: State, acts: seq<Action>, s: State, f: Fd, id: ConnId) returns (acts': seq<Action>, s': State)
    requires Run(start, acts, s, false) && s.loop.LoopClosing? && s.loop.close == Erase(f)
    requires s.loop.resume.ToIdle? && s.loop.resume.rest == []
    requires s.open == map[f := id] && s.table == map[f := id] && s.timers == map[]
    ensures Run(start, acts', s', false) && SameRest(s, s') && s'.loop == LoopTop
    ensures s'.open == map[] && s'.table == map[] && s'.timers == map[] && s'.sock == s.sock && s'.queue == s.queue
  {
    hide Run, Turns, StepLoopClosing;
    var s1 := StepLoopClosing(s);
    Erased(s, f, id);
    Blocks(s);
    acts' := Go(start, acts, s, s1);
    var s2 := StepLoopClosing(s1);
    MarkedAndUnregistered(s1);
    Blocks(s1);
    acts' := Go(start, acts', s1, s2);
    var s3 := StepLoopClosing(s2);
    MarkedAndUnregistered(s2);
    Blocks(s2);
    acts' := Go(start, acts', s2, s3);
    var s4 := StepLoopClosing(s3);
    ShutDown(s3, f, id);
    Blocks(s3);
    acts' := Go(start, acts', s3, s4);
    s' := s4.(loop := LoopTop);
    Blocks(s4);
    acts' := Go(start, acts', s4, s');
  }

  /** Two idle workers take the first two tasks. */
  lemma BothTake(start: State, acts: seq<Action>, s: State, f: Fd) returns (acts': seq<Action>, s': State)
    requires Run(start, acts, s, false) && s.queue == [Task(f, In), Task(f, In)]
    requires 0 in s.workers && 1 in s.workers && s.workers[0] == Idle && s.workers[1] == Idle
    ensures Run(start, acts', s', false) && s'.open == s.open && s'.table == s.table && s'.cfg == s.cfg
    ensures s'.conns == s.conns && s'.hist == s.hist
    ensures 0 in s'.workers && 1 in s'.workers && s'.workers[0] == ReadGet(f) && s'.workers[1] == ReadGet(f)
  {
    hide Run;
    var s1 := StepTake(s, 0, s.queue[0]);
    acts' := Extend(start, acts, s, WorkerActs(0, Proceed));
    assert s1.queue == [Task(f, In)];
    s' := StepTake(s1, 1, s1.queue[0]);
    acts' := Extend(start, acts', s1, WorkerActs(1, Proceed));
  }

  // ---------- the run ----------

  const CLAIMED := FRESH.(processing := true)

  /** Two workers, and a `read` can take four bytes. */
  function TwoWorkers(respond: Responder): Config {
    Config(2, 1, 4, 1, respond)
  }

  /** Where the two workers stand, and what there is of connection 2. */
  datatype Scene = Scene(first: Worker, second: Worker, conn: Conn, hist: History)
  {
    function Of(w: WorkerId): Worker {
      if w == 0 then first else second
    }

    function Moved(w: WorkerId, pc: Worker): Scene {
      if w == 0 then this.(first := pc) else this.(second := pc)
    }
  }

  ghost predicate Shows(s: State, sc: Scene) {
    && 5 in s.open && s.open[5] == 2 && 5 in s.table && s.table[5] == 2
    && 2 in s.conns && s.conns[2] == sc.conn && 2 in s.hist && s.hist[2] == sc.hist
    && 0 in s.workers && 1 in s.workers && s.workers[0] == sc.first && s.workers[1] == sc.second
  }

  /** The second connection accepted is registered for descriptor 5, and nothing has happened to it. */
  ghost predicate Renewed(s: State) {
    && 5 in s.open && s.open[5] == 2 && 5 in s.table && s.table[5] == 2
    && 2 in s.conns && s.conns[2] == CLAIMED && 2 in s.hist && s.hist[2] == QUIET
  }

  lemma QueueFirst(start: State) returns (acts: seq<Action>, s: State)
    requires start.cfg.maxEvents == 1 && start.cfg.timeout == 1 && start == Init(start.cfg, 0)
    ensures Run(start, acts, s, false) && SameRest(start, s) && s.loop == Popping && s.queue == [Task(5, In)]
    ensures s.open == map[5 := 1] && s.table == map[5 := 1] && s.timers == map[5 := 1] && s.sock == map[1 := 5]
  {
    hide AllIdle;
    acts, s := [], start;
    acts, s := AcceptRound(start, acts, s, 5, 1);
    hide Run;
    acts, s := IdleRound(start, acts, s);
    acts, s := ReadRound(start, acts, s, 5);
  }

  lemma ReuseIt(start: State, acts: seq<Action>, s: State) returns (acts': seq<Action>, s': State)
    requires Run(start, acts, s, false) && s.loop == Popping && s.now == 0 && s.running
    requires s.cfg.maxEvents == 1 && s.cfg.timeout == 1
    requires s.queue == [Task(5, In)] && s.open == map[5 := 1] && s.table == map[5 := 1] && s.timers == map[5 := 1]
    requires s.sock == map[1 := 5]
    ensures Run(start, acts', s', false) && s'.workers == s.workers && s'.cfg == s.cfg
    ensures s'.queue == [Task(5, In), Task(5, In)] && Renewed(s')
  {
    hide Run, Renewed;
    var later := s.(now := 1);
    acts' := Extend(start, acts, s, Tick(1));
    acts', s' := ExpireRound(start, acts', later, 5, 1);
    acts', s' := QueueSecond(start, acts', s');
  }

  lemma QueueSecond(start: State, acts: seq<Action>, s: State) returns (acts': seq<Action>, s': State)
    requires Run(start, acts, s, false) && s.loop == LoopTop && s.running && s.cfg.maxEvents == 1 && s.cfg.timeout == 1
    requires s.queue == [Task(5, In)] && s.open == map[] && s.table == map[] && s.timers == map[]
    requires s.sock == map[1 := 5]
    ensures Run(start, acts', s', false) && s'.workers == s.workers && s'.cfg == s.cfg
    ensures s'.queue == [Task(5, In), Task(5, In)] && Renewed(s')
  {
    hide Run;
    acts', s' := AcceptRound(start, acts, s, 5, 2);
    acts', s' := IdleRound(start, acts', s');
    acts', s' := ReadRound(start, acts', s', 5);
  }

  lemma Collision(respond: Responder) returns (acts: seq<Action>, s: State)
    ensures Run(Init(TwoWorkers(respond), 0), acts, s, false)
    ensures Shows(s, Scene(ReadGet(5), ReadGet(5), CLAIMED, QUIET)) && s.cfg == TwoWorkers(respond)
  {
    hide Run;
    var start := Init(TwoWorkers(respond), 0);
    acts, s := QueueFirst(start);
    assert 0 in start.workers && 1 in start.workers;
    acts, s := ReuseIt(start, acts, s);
    acts, s := BothTake(start, acts, s, 5);
  }

  /** Without the hypothesis mutual exclusion fails: in some run, two workers have been given the same
      open, registered descriptor. The first task was queued before the idle timer closed the
      connection and the descriptor was accepted anew; the second is for the new connection. */
  lemma ReuseBreaksExclusion(respond: Responder) returns (acts: seq<Action>, s: State)
    ensures Run(Init(TwoWorkers(respond), 0), acts, s, false)
    ensures 5 in s.table && 5 in s.open
    ensures 0 in s.workers && 1 in s.workers && s.workers[0] == ReadGet(5) && s.workers[1] == ReadGet(5)
  {
    hide Run;
    acts, s := Collision(respond);
  }

  // ---------- what two workers do to one connection ----------

  /** The worker moves on, and the connection and its history are left as said. */
  lemma ShowsOn(s: State, s': State, sc: Scene, w: WorkerId, pc: Worker, c: Conn, h: History)
    requires Shows(s, sc) && w < 2 && s'.workers == s.workers[w := pc] && s'.open == s.open && s'.table == s.table
    requires 2 in s'.conns && s'.conns[2] == c && 2 in s'.hist && s'.hist[2] == h
    ensures Shows(s', sc.Moved(w, pc).(conn := c, hist := h))
  {
  }

  /** One step of a worker, from any state that shows the scene. */
  ghost predicate WorkerPlays(s: State, sc: Scene, w: WorkerId, a: Answer, sc': Scene) {
    WorkerEnabled(s, w, a) && Shows(WorkerStep(s, w, a), sc') && WorkerStep(s, w, a).cfg == s.cfg
  }

  lemma Standing(s: State, sc: Scene, w: WorkerId)
    requires Shows(s, sc) && w < 2
    ensures w in s.workers && s.workers[w] == sc.Of(w) && s.open[5] == 2 && 5 in s.open
    ensures 5 in s.table && s.Entry(5) == 2 && s.ConnAt(2) == sc.conn && s.HistAt(2) == sc.hist && s.Behind(5) == 2
    ensures 2 in s.conns && s.conns[2] == sc.conn && 2 in s.hist && s.hist[2] == sc.hist
  {
  }

  lemma LookupStep(s: State, sc: Scene, w: WorkerId, found: Worker)
    requires Shows(s, sc) && w < 2
    requires (sc.Of(w) == ReadGet(5) && found == ReadRecv(5, 2)) ||
             (sc.Of(w) == ProcessGet(5) && found == ProcessExtract(5, 2))
    ensures WorkerPlays(s, sc, w, Proceed, sc.Moved(w, found))
  {
    hide Shows;
    Standing(s, sc, w);
    var s' := SetWorker(s, w, found);
    assert WorkerEnabled(s, w, Proceed) && WorkerStep(s, w, Proceed) == s';
    ShowsOn(s, s', sc, w, found, sc.conn, sc.hist);
  }

  lemma RecvStep(s: State, sc: Scene, w: WorkerId, n: nat)
    requires Shows(s, sc) && w < 2 && s.cfg.readSize == 4
    requires sc.Of(w) == ReadRecv(5, 2) && 0 < n <= 4 && sc.hist.taken + n <= |sc.hist.input|
    ensures WorkerPlays(s, sc, w, Got(n),
                        sc.Moved(w, ReadAppend(5, 2, Slice(sc.hist.input, sc.hist.taken, n)))
                        .(hist := sc.hist.(taken := sc.hist.taken + n)))
  {
    hide Shows, Slice;
    Standing(s, sc, w);
    var pc, h := ReadAppend(5, 2, Slice(sc.hist.input, sc.hist.taken, n)), sc.hist.(taken := sc.hist.taken + n);
    var s' := SetWorker(SetHist(s, 2, h), w, pc);
    assert WorkerEnabled(s, w, Got(n)) && WorkerStep(s, w, Got(n)) == s';
    ShowsOn(s, s', sc, w, pc, sc.conn, h);
  }

  lemma BlockStep(s: State, sc: Scene, w: WorkerId)
    requires Shows(s, sc) && w < 2 && sc.Of(w) == ReadRecv(5, 2)
    ensures WorkerPlays(s, sc, w, WouldBlock, sc.Moved(w, ReadRefresh(5)))
  {
    hide Shows;
    Standing(s, sc, w);
    var s' := SetWorker(s, w, ReadRefresh(5));
    assert WorkerEnabled(s, w, WouldBlock) && WorkerStep(s, w, WouldBlock) == s';
    ShowsOn(s, s', sc, w, ReadRefresh(5), sc.conn, sc.hist);
  }

  lemma RefreshStep(s: State, sc: Scene, w: WorkerId)
    requires Shows(s, sc) && w < 2 && sc.Of(w) == ReadRefresh(5)
    ensures WorkerPlays(s, sc, w, Proceed, sc.Moved(w, ProcessGet(5)))
  {
    hide Shows;
    Standing(s, sc, w);
    var s' := SetWorker(Refresh(s, 5), w, ProcessGet(5));
    assert WorkerEnabled(s, w, Proceed) && WorkerStep(s, w, Proceed) == s';
    ShowsOn(s, s', sc, w, ProcessGet(5), sc.conn, sc.hist);
  }

  lemma AppendStep(s: State, sc: Scene, w: WorkerId, data: Text)
    requires Shows(s, sc) && w < 2 && sc.Of(w) == ReadAppend(5, 2, data) && !sc.conn.closed
    ensures WorkerPlays(s, sc, w, Proceed,
                        sc.Moved(w, ReadRecv(5, 2))
                        .(conn := AppendRead(sc.conn, data), hist := sc.hist.(rx := sc.hist.rx + data)))
  {
    hide Shows, AppendRead;
    Standing(s, sc, w);
    var c, h := AppendRead(sc.conn, data), sc.hist.(rx := sc.hist.rx + data);
    var s' := SetWorker(SetHist(SetConn(s, 2, c), 2, h), w, ReadRecv(5, 2));
    assert WorkerEnabled(s, w, Proceed) && WorkerStep(s, w, Proceed) == s';
    ShowsOn(s, s', sc, w, ReadRecv(5, 2), c, h);
  }

  lemma ExtractStep(s: State, sc: Scene, w: WorkerId, raw: Text, rest: Text)
    requires Shows(s, sc) && w < 2 && sc.Of(w) == ProcessExtract(5, 2) && !sc.conn.closed
    requires Extract(sc.conn.readBuf) == Request(raw, rest)
    ensures WorkerPlays(s, sc, w, Proceed,
                        sc.Moved(w, ProcessReply(5, 2, raw)).(conn := sc.conn.(readBuf := rest)))
  {
    hide Shows, Extract;
    Standing(s, sc, w);
    var c := sc.conn.(readBuf := rest);
    var s' := SetWorker(SetConn(s, 2, c), w, ProcessReply(5, 2, raw));
    assert WorkerEnabled(s, w, Proceed) && WorkerStep(s, w, Proceed) == s';
    ShowsOn(s, s', sc, w, ProcessReply(5, 2, raw), c, sc.hist);
  }

  lemma ReplyStep(s: State, sc: Scene, w: WorkerId, raw: Text, world: World)
    requires Shows(s, sc) && w < 2
    requires sc.Of(w) == ProcessReply(5, 2, raw) && !sc.conn.closed && '\r' !in world.mime
    ensures var x := Exchange(raw, world, s.cfg.respond(raw, world));
            WorkerPlays(s, sc, w, Serve(world),
                        sc.Moved(w, Finish(5, 2, Out))
                        .(conn := Load(sc.conn, x.reply), hist := sc.hist.(served := sc.hist.served + [x])))
  {
    hide Shows, Load;
    Standing(s, sc, w);
    var x := Exchange(raw, world, s.cfg.respond(raw, world));
    var c, h := Load(sc.conn, x.reply), sc.hist.(served := sc.hist.served + [x]);
    var s' := SetWorker(SetHist(SetConn(s, 2, c), 2, h), w, Finish(5, 2, Out));
    assert WorkerEnabled(s, w, Serve(world)) && WorkerStep(s, w, Serve(world)) == s';
    ShowsOn(s, s', sc, w, Finish(5, 2, Out), c, h);
  }

  // ---------- the run goes on ----------

  /** The states of the run, as far as they matter. */
  ghost predicate Reached(respond: Responder, acts: seq<Action>, s: State, sc: Scene) {
    Run(Init(TwoWorkers(respond), 0), acts, s, false) && Shows(s, sc) && s.cfg == TwoWorkers(respond)
  }

  lemma Act(respond: Responder, acts: seq<Action>, s: State, sc: Scene, w: WorkerId, a: Answer, sc': Scene)
    returns (acts': seq<Action>, s': State)
    requires Reached(respond, acts, s, sc) && WorkerPlays(s, sc, w, a, sc')
    ensures Reached(respond, acts', s', sc')
  {
    hide Run, Shows, WorkerEnabled, WorkerStep;
    s' := WorkerStep(s, w, a);
    acts' := Extend(Init(TwoWorkers(respond), 0), acts, s, WorkerActs(w, a));
  }

  /** The peer's bytes arrive. */
  lemma Arrives(respond: Responder, acts: seq<Action>, s: State, sc: Scene, data: Text)
    returns (acts': seq<Action>, s': State)
    requires Reached(respond, acts, s, sc)
    ensures Reached(respond, acts', s', sc.(hist := sc.hist.(input := sc.hist.input + data)))
  {
    hide Run;
    s' := SetHist(s, 2, s.hist[2].(input := s.hist[2].input + data));
    acts' := Extend(Init(TwoWorkers(respond), 0), acts, s, PeerSends(2, data));
  }

  /** A worker has appended what it read, finds no more to read, and takes the next request. */
  lemma Takes(respond: Responder, acts: seq<Action>, s: State, sc: Scene, w: WorkerId, data: Text, raw: Text,
              rest: Text)
    returns (acts': seq<Action>, s': State)
    requires Reached(respond, acts, s, sc) && w < 2 && sc.Of(w) == ReadAppend(5, 2, data) && !sc.conn.closed
    requires Extract(sc.conn.readBuf + data) == Request(raw, rest)
    ensures Reached(respond, acts', s', sc.Moved(w, ProcessReply(5, 2, raw))
                                        .(conn := sc.conn.(readBuf := rest), hist := sc.hist.(rx := sc.hist.rx + data)))
  {
    hide Reached, WorkerPlays, Extract;
    var sc1 := sc.Moved(w, ReadRecv(5, 2))
               .(conn := AppendRead(sc.conn, data), hist := sc.hist.(rx := sc.hist.rx + data));
    InScene(respond, acts, s, sc);
    AppendStep(s, sc, w, data);
    acts', s' := Act(respond, acts, s, sc, w, Proceed, sc1);
    var sc2 := sc1.Moved(w, ReadRefresh(5));
    InScene(respond, acts', s', sc1);
    BlockStep(s', sc1, w);
    acts', s' := Act(respond, acts', s', sc1, w, WouldBlock, sc2);
    var sc3 := sc2.Moved(w, ProcessGet(5));
    InScene(respond, acts', s', sc2);
    RefreshStep(s', sc2, w);
    acts', s' := Act(respond, acts', s', sc2, w, Proceed, sc3);
    var sc4 := sc3.Moved(w, ProcessExtract(5, 2));
    InScene(respond, acts', s', sc3);
    LookupStep(s', sc3, w, ProcessExtract(5, 2));
    acts', s' := Act(respond, acts', s', sc3, w, Proceed, sc4);
    var sc5 := sc4.Moved(w, ProcessReply(5, 2, raw)).(conn := sc4.conn.(readBuf := rest));
    InScene(respond, acts', s', sc4);
    ExtractStep(s', sc4, w, raw, rest);
    acts', s' := Act(respond, acts', s', sc4, w, Proceed, sc5);
  }

  lemma InScene(respond: Responder, acts: seq<Action>, s: State, sc: Scene)
    requires Reached(respond, acts, s, sc)
    ensures Run(Init(TwoWorkers(respond), 0), acts, s, false) && Shows(s, sc)
    ensures s.cfg.respond == respond && s.cfg.readSize == 4
  {
    hide Run, Shows;
  }

  // ---------- what the peer sends ----------

  const ODD: Text := "X\r\n\r\n"

  const SENT: Text := ODD + BLANK

  lemma ShortIsSilent(t: Text)
    requires |t| < |LENGTH_KEY|
    ensures AnnouncedLength(t) == 0
  {
  }

  lemma BlankFrames(more: Text)
    ensures Extract(BLANK + more) == Request(BLANK, more)
  {
    var buf := BLANK + more;
    AtSlice(buf, BLANK, 0);
    FindIs(buf, BLANK, 0, 0);
    assert buf[..4] == BLANK;
    ShortIsSilent(BLANK);
    assert buf[4..] == more;
  }

  lemma OddFrames(more: Text)
    ensures Extract(ODD + more) == Request(ODD, more)
  {
    var buf := ODD + more;
    AtBlank(buf, 0);
    AtCrlf(buf, 0);
    AtSlice(buf, BLANK, 1);
    assert buf[1..5] == BLANK;
    FindIs(buf, BLANK, 0, 1);
    assert buf[..5] == ODD;
    ShortIsSilent(ODD);
    assert buf[5..] == more;
  }

  // ---------- what goes wrong ----------

  /** The first worker has read one byte and the second the four that follow, and the second appends
      first and answers. */
  function Served(respond: Responder, world: World): Scene {
    var x := Exchange(BLANK, world, respond(BLANK, world));
    Scene(ReadAppend(5, 2, "X"), Finish(5, 2, Out), Load(CLAIMED, x.reply), History(SENT, 5, BLANK, [x], []))
  }

  lemma BothRead(respond: Responder) returns (acts: seq<Action>, s: State)
    ensures Reached(respond, acts, s,
                    Scene(ReadAppend(5, 2, "X"), ReadAppend(5, 2, BLANK), CLAIMED, History(SENT, 5, [], [], [])))
  {
    hide Run, Shows, WorkerPlays;
    acts, s := Collision(respond);
    var sc0 := Scene(ReadGet(5), ReadGet(5), CLAIMED, QUIET);
    acts, s := Arrives(respond, acts, s, sc0, SENT);
    assert [] + SENT == SENT;
    var sc1 := sc0.(hist := History(SENT, 0, [], [], []));
    LookupStep(s, sc1, 0, ReadRecv(5, 2));
    var sc2 := sc1.Moved(0, ReadRecv(5, 2));
    acts, s := Act(respond, acts, s, sc1, 0, Proceed, sc2);
    LookupStep(s, sc2, 1, ReadRecv(5, 2));
    var sc3 := sc2.Moved(1, ReadRecv(5, 2));
    acts, s := Act(respond, acts, s, sc2, 1, Proceed, sc3);
    RecvStep(s, sc3, 0, 1);
    assert Slice(SENT, 0, 1) == "X" && Slice(SENT, 1, 4) == BLANK;
    var sc4 := sc3.Moved(0, ReadAppend(5, 2, "X")).(hist := sc3.hist.(taken := 1));
    acts, s := Act(respond, acts, s, sc3, 0, Got(1), sc4);
    RecvStep(s, sc4, 1, 4);
    var sc5 := sc4.Moved(1, ReadAppend(5, 2, BLANK)).(hist := sc4.hist.(taken := 5));
    acts, s := Act(respond, acts, s, sc4, 1, Got(4), sc5);
  }

  lemma OutOfOrder(respond: Responder, world: World) returns (acts: seq<Action>, s: State)
    requires '\r' !in world.mime
    ensures Reached(respond, acts, s, Served(respond, world))
  {
    hide Reached, WorkerPlays, Load, Extract;
    acts, s := BothRead(respond);
    var sc := Scene(ReadAppend(5, 2, "X"), ReadAppend(5, 2, BLANK), CLAIMED, History(SENT, 5, [], [], []));
    BlankFrames([]);
    assert BLANK + [] == BLANK && [] + BLANK == BLANK;
    acts, s := Takes(respond, acts, s, sc, 1, BLANK, BLANK, []);
    var sc1 := sc.Moved(1, ProcessReply(5, 2, BLANK)).(hist := History(SENT, 5, BLANK, [], []));
    InScene(respond, acts, s, sc1);
    ReplyStep(s, sc1, 1, BLANK, world);
    var x := Exchange(BLANK, world, respond(BLANK, world));
    assert [] + [x] == [x];
    acts, s := Act(respond, acts, s, sc1, 1, Serve(world), Served(respond, world));
  }

  /** Without the hypothesis order fails: in some run the server has served a request that is not the
      first of what the peer sent. */
  lemma ReuseBreaksOrder(respond: Responder, world: World) returns (acts: seq<Action>, s: State)
    requires '\r' !in world.mime
    ensures Run(Init(TwoWorkers(respond), 0), acts, s, false) && 2 in s.hist
    ensures Raws(s.hist[2].served) == [BLANK] && Extract(s.hist[2].input) == Request(ODD, BLANK)
    ensures !Leads(s.hist[2].input, Raws(s.hist[2].served))
  {
    hide Run, Extract, Load;
    acts, s := OutOfOrder(respond, world);
    OddFrames(BLANK);
  }

  /** Without the hypothesis the buffers fail: in some run a worker is about to load an answer into a live
      connection of which an earlier answer is unsent; loading it, it overwrites that answer, which then
      neither was written nor is left to be sent. */
  lemma ReuseLosesAnswer(respond: Responder, world: World) returns (acts: seq<Action>, before: State)
    requires Speaks(respond) && '\r' !in world.mime
    ensures Run(Init(TwoWorkers(respond), 0), acts, before, false) && 5 in before.table && before.table[5] == 2
    ensures 0 in before.workers && before.workers[0] == ProcessReply(5, 2, ODD) && !before.ConnAt(2).closed
    ensures Cursor(before.ConnAt(2)) && Unsent(before.ConnAt(2)) != []
    ensures WorkerEnabled(before, 0, Serve(world))
    ensures var s := WorkerStep(before, 0, Serve(world));
            var served := s.HistAt(2).served;
            && |served| == 2 && served[0].reply.Wire() != [] && s.HistAt(2).tx == []
            && Cursor(s.ConnAt(2)) && Unsent(s.ConnAt(2)) == served[1].reply.Wire()
  {
    hide Run, Shows, Load, Extract, WorkerStep, WorkerEnabled;
    var sc := Served(respond, world);
    acts, before := OutOfOrder(respond, world);
    var first := sc.hist.served[0].reply;
    LoadUnsent(CLAIMED, first);
    acts, before := SecondRead(respond, world, acts, before);
    var sc', x := Overtaken(respond, world), Exchange(ODD, world, respond(ODD, world));
    LoadedFresh(first);
    assert Unsent(sc'.conn) == Unsent(Load(CLAIMED, first));
    InScene(respond, acts, before, sc');
    Standing(before, sc', 0);
    ReplyStep(before, sc', 0, ODD, world);
    LoadUnsent(sc'.conn, x.reply);
    Standing(WorkerStep(before, 0, Serve(world)),
             sc'.Moved(0, Finish(5, 2, Out))
             .(conn := Load(sc'.conn, x.reply), hist := sc'.hist.(served := sc'.hist.served + [x])), 0);
  }

  /** The first worker has appended its byte and the four that followed, and is about to answer. */
  function Overtaken(respond: Responder, world: World): Scene {
    var sc := Served(respond, world);
    sc.Moved(0, ProcessReply(5, 2, ODD)).(conn := sc.conn.(readBuf := []),
                                          hist := History(SENT, 9, BLANK + "X" + BLANK, sc.hist.served, []))
  }

  lemma SecondRead(respond: Responder, world: World, acts: seq<Action>, s: State)
    returns (acts': seq<Action>, s': State)
    requires Reached(respond, acts, s, Served(respond, world))
    ensures Reached(respond, acts', s', Overtaken(respond, world))
  {
    hide Reached, Load, Extract;
    LoadedFresh(Exchange(BLANK, world, respond(BLANK, world)).reply);
    acts', s' := ReadsOn(respond, acts, s, Served(respond, world));
    var sc := Served(respond, world);
    var sc1 := sc.Moved(0, ReadAppend(5, 2, BLANK))
               .(conn := sc.conn.(readBuf := "X"), hist := History(SENT, 9, BLANK + "X", sc.hist.served, []));
    OddFrames([]);
    assert "X" + BLANK == ODD == ODD + [];
    acts', s' := Takes(respond, acts', s', sc1, 0, BLANK, ODD, []);
  }

  /** The first worker appends its byte and reads the rest. */
  lemma ReadsOn(respond: Responder, acts: seq<Action>, s: State, sc: Scene) returns (acts': seq<Action>, s': State)
    requires Reached(respond, acts, s, sc) && sc.first == ReadAppend(5, 2, "X") && !sc.conn.closed
    requires sc.conn.readBuf == [] && sc.hist.input == SENT && sc.hist.taken == 5
    ensures Reached(respond, acts', s',
                    sc.Moved(0, ReadAppend(5, 2, BLANK))
                    .(conn := sc.conn.(readBuf := "X"), hist := sc.hist.(taken := 9, rx := sc.hist.rx + "X")))
  {
    hide Reached, WorkerPlays;
    InScene(respond, acts, s, sc);
    AppendStep(s, sc, 0, "X");
    assert [] + "X" == "X";
    var sc1 := sc.Moved(0, ReadRecv(5, 2))
               .(conn := sc.conn.(readBuf := "X"), hist := sc.hist.(rx := sc.hist.rx + "X"));
    acts', s' := Act(respond, acts, s, sc, 0, Proceed, sc1);
    InScene(respond, acts', s', sc1);
    RecvStep(s', sc1, 0, 4);
    assert Slice(SENT, 5, 4) == BLANK;
    acts', s' := Act(respond, acts', s', sc1, 0, Got(4),
                     sc1.Moved(0, ReadAppend(5, 2, BLANK)).(hist := sc1.hist.(taken := 9)));
  }

  lemma LoadedFresh(reply: Reply)
    ensures !Load(CLAIMED, reply).closed && Load(CLAIMED, reply).readBuf == []
  {
  }
}
