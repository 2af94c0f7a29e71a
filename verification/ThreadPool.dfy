/** The worker pool: a task queue behind one mutex and one condition variable, and a `stop` that
    drains it. Every critical section, every notification and every join is one atomic step. */
module ThreadPools {

  type Task = nat

  /** A worker about to take the lock, asleep on the condition variable, running the task that was
      started as number `ticket`, or returned from its loop. */
  datatype Worker = Ready | Waiting | Running(ticket: nat) | Exited

  /** Where the owner of the pool stands in `start` and `stop`. */
  datatype Control = Created | Starting | Up | Flagged | Joining(joined: nat) | Returned

  /** `accepted`, `started` and `finished` are history: the tasks pushed, the tasks popped, and which
      of the popped ones have returned. `pending` counts callers of `enqueue` that have pushed and
      are about to notify. `launched` says that `start` has returned. */
  datatype Pool = Pool(
    threadCount: nat,
    stopping: bool,
    queue: seq<Task>,
    workers: seq<Worker>,
    control: Control,
    pending: nat,
    launched: bool,
    accepted: seq<Task>,
    started: seq<Task>,
    finished: set<nat>)

  function New(threadCount: nat): Pool {
    Pool(threadCount, false, [], [], Created, 0, false, [], [], {})
  }

  datatype Action =
    | BeginStart
    | Spawn
    | EndStart
    | Push(task: Task)
    | NotifyOne(woken: nat)
    | WakeUp(worker: nat)
    | Lock(worker: nat)
    | Finish(worker: nat)
    | SetFlag
    | NotifyAll
    | JoinNext
    | EndStop

  predicate Asleep(p: Pool, w: nat) {
    w < |p.workers| && p.workers[w] == Waiting
  }

  ghost predicate Enabled(p: Pool, a: Action) {
    match a
    case BeginStart => p.control == Created
    case Spawn => p.control == Starting && |p.workers| < p.threadCount
    case EndStart => p.control == Starting && |p.workers| == p.threadCount
    case Push(_) => true
    case NotifyOne(w) => p.pending > 0 && (Asleep(p, w) || forall u :: !Asleep(p, u))
    case WakeUp(w) => Asleep(p, w)
    case Lock(w) => w < |p.workers| && p.workers[w] == Ready
    case Finish(w) => w < |p.workers| && p.workers[w].Running?
    case SetFlag => p.control == Created || p.control == Up || p.control == Returned
    case NotifyAll => p.control == Flagged
    case JoinNext => p.control.Joining? && p.control.joined < |p.workers| && p.workers[p.control.joined] == Exited
    case EndStop => p.control.Joining? && p.control.joined >= |p.workers|
  }

  function Wake(p: Pool, w: nat): Pool {
    if Asleep(p, w) then p.(workers := p.workers[w := Ready]) else p
  }

  function WakeAll(workers: seq<Worker>): (r: seq<Worker>)
    ensures |r| == |workers|
    ensures forall i :: 0 <= i < |workers| ==> r[i] == if workers[i] == Waiting then Ready else workers[i]
  {
    seq(|workers|, i requires 0 <= i < |workers| => if workers[i] == Waiting then Ready else workers[i])
  }

  /** `enqueue` up to the notification: a stopping pool drops the task. */
  function StepPush(p: Pool, t: Task): Pool {
    if p.stopping then p
    else p.(queue := p.queue + [t], accepted := p.accepted + [t], pending := p.pending + 1)
  }

  /** The critical section of a worker's loop: sleep, leave, or pop the front task. */
  function StepLock(p: Pool, w: nat): Pool
    requires w < |p.workers|
  {
    if !p.stopping && p.queue == [] then p.(workers := p.workers[w := Waiting])
    else if p.queue == [] then p.(workers := p.workers[w := Exited])
    else p.(workers := p.workers[w := Running(|p.started|)], queue := p.queue[1..], started := p.started + [p.queue[0]])
  }

  function StepFinish(p: Pool, w: nat): Pool
    requires w < |p.workers| && p.workers[w].Running?
  {
    p.(workers := p.workers[w := Ready], finished := p.finished + {p.workers[w].ticket})
  }

  ghost function Step(p: Pool, a: Action): Pool
    requires Enabled(p, a)
  {
    match a
    case BeginStart => p.(control := Starting)
    case Spawn => p.(workers := p.workers + [Ready])
    case EndStart => p.(control := Up, launched := true)
    case Push(t) => StepPush(p, t)
    case NotifyOne(w) => Wake(p, w).(pending := p.pending - 1)
    case WakeUp(w) => Wake(p, w)
    case Lock(w) => StepLock(p, w)
    case Finish(w) => StepFinish(p, w)
    case SetFlag => p.(control := Flagged, stopping := true)
    case NotifyAll => p.(control := Joining(0), workers := WakeAll(p.workers))
    case JoinNext => p.(control := Joining(p.control.joined + 1))
    case EndStop => p.(control := Returned, workers := [])
  }

  ghost predicate Run(p: Pool, acts: seq<Action>, p': Pool) {
    if acts == [] then p' == p
    else
      var last := acts[|acts| - 1];
      exists m: Pool :: Run(p, acts[..|acts| - 1], m) && Enabled(m, last) && p' == Step(m, last)
  }

  // ---------- conservation ----------

  ghost predicate Runs(workers: seq<Worker>, k: nat) {
    exists w :: 0 <= w < |workers| && workers[w] == Running(k)
  }

  /** Every started task is running on exactly one worker or finished, and not both. */
  ghost predicate Accounted(workers: seq<Worker>, started: seq<Task>, finished: set<nat>) {
    && (forall k :: k in finished ==> k < |started| && !Runs(workers, k))
    && (forall k: nat :: k < |started| && k !in finished ==> Runs(workers, k))
    && (forall w :: 0 <= w < |workers| && workers[w].Running? ==> workers[w].ticket < |started|)
    && (forall w, u :: 0 <= w < u < |workers| && workers[w].Running? ==> workers[u] != workers[w])
  }

  lemma AccountedSwap(workers: seq<Worker>, started: seq<Task>, finished: set<nat>, w: nat, to: Worker)
    requires Accounted(workers, started, finished) && w < |workers|
    requires !workers[w].Running? && !to.Running?
    ensures Accounted(workers[w := to], started, finished)
  {
    var moved := workers[w := to];
    forall k ensures Runs(moved, k) <==> Runs(workers, k) {
      if Runs(workers, k) {
        var u :| 0 <= u < |workers| && workers[u] == Running(k);
        assert moved[u] == Running(k);
      }
    }
  }

  lemma AccountedStart(workers: seq<Worker>, started: seq<Task>, finished: set<nat>, w: nat, t: Task)
    requires Accounted(workers, started, finished) && w < |workers| && !workers[w].Running?
    ensures Accounted(workers[w := Running(|started|)], started + [t], finished)
  {
    var moved := workers[w := Running(|started|)];
    forall k ensures Runs(moved, k) <==> Runs(workers, k) || k == |started| {
      if Runs(workers, k) {
        var u :| 0 <= u < |workers| && workers[u] == Running(k);
        assert moved[u] == Running(k);
      } else if k == |started| {
        assert moved[w] == Running(k);
      }
    }
  }

  lemma AccountedFinish(workers: seq<Worker>, started: seq<Task>, finished: set<nat>, w: nat)
    requires Accounted(workers, started, finished) && w < |workers| && workers[w].Running?
    ensures Accounted(workers[w := Ready], started, finished + {workers[w].ticket})
  {
    var moved, done := workers[w := Ready], workers[w].ticket;
    forall k ensures Runs(moved, k) <==> Runs(workers, k) && k != done {
      if Runs(workers, k) && k != done {
        var u :| 0 <= u < |workers| && workers[u] == Running(k);
        assert moved[u] == Running(k);
      }
    }
  }

  lemma AccountedOthers(workers: seq<Worker>, workers': seq<Worker>, started: seq<Task>, finished: set<nat>)
    requires Accounted(workers, started, finished)
    requires forall k :: Runs(workers', k) <==> Runs(workers, k)
    requires forall w :: 0 <= w < |workers'| && workers'[w].Running? ==> w < |workers| && workers'[w] == workers[w]
    ensures Accounted(workers', started, finished)
  {
    forall w | 0 <= w < |workers'| && workers'[w].Running? ensures workers'[w].ticket < |started| {
      assert workers'[w] == workers[w];
    }
  }

  // ---------- wake-ups ----------

  function ReadyCount(workers: seq<Worker>): nat {
    if workers == [] then 0
    else ReadyCount(workers[..|workers| - 1]) + if workers[|workers| - 1] == Ready then 1 else 0
  }

  lemma {:induction false} ReadyUpdate(workers: seq<Worker>, w: nat, to: Worker)
    requires w < |workers|
    ensures ReadyCount(workers[w := to]) ==
            ReadyCount(workers) - (if workers[w] == Ready then 1 else 0) + (if to == Ready then 1 else 0)
  {
    var n := |workers| - 1;
    if w < n {
      assert workers[w := to][..n] == workers[..n][w := to];
      ReadyUpdate(workers[..n], w, to);
    } else {
      assert workers[w := to][..n] == workers[..n];
    }
  }

  lemma {:induction false} SomeReady(workers: seq<Worker>)
    ensures ReadyCount(workers) > 0 <==> Ready in workers
  {
    if workers != [] {
      var n := |workers| - 1;
      SomeReady(workers[..n]);
      assert workers == workers[..n] + [workers[n]];
    }
  }

  /** While anyone sleeps, every queued task has a wake-up under way: a notification still to come or
      a worker on its way to the lock. */
  ghost predicate Awaited(p: Pool) {
    Waiting in p.workers ==> |p.queue| <= p.pending + ReadyCount(p.workers)
  }

  // ---------- stopping ----------

  ghost predicate Stopping(p: Pool) {
    && (p.stopping <==> p.control.Flagged? || p.control.Joining? || p.control.Returned?)
    && (Exited in p.workers ==> p.stopping && p.queue == [])
    && (p.control.Joining? ==> Waiting !in p.workers)
    && (p.control.Joining? ==> forall i :: 0 <= i < p.control.joined && i < |p.workers| ==> p.workers[i] == Exited)
    && (p.launched && p.threadCount > 0 && p.workers == [] ==> p.stopping && p.queue == [])
  }

  /** Who has been started: nobody, some of the crew, or all of it until `stop` has joined them. */
  ghost predicate Crewed(p: Pool) {
    && |p.workers| <= p.threadCount
    && (p.control.Created? || p.control.Starting? ==> !p.launched)
    && (p.control.Created? || p.control.Returned? ==> p.workers == [])
    && (p.control.Up? ==> p.launched && |p.workers| == p.threadCount)
    && (p.workers == [] || p.control.Starting? || (p.launched && |p.workers| == p.threadCount))
    && (p.started != [] ==> p.threadCount > 0 && (p.launched || p.control.Starting?))
  }

  ghost predicate Sound(p: Pool) {
    && p.accepted == p.started + p.queue
    && Accounted(p.workers, p.started, p.finished)
    && Awaited(p) && Stopping(p) && Crewed(p)
  }

  lemma SpawnSound(p: Pool)
    requires Sound(p) && Enabled(p, Spawn)
    ensures Sound(Step(p, Spawn))
  {
    var workers := p.workers + [Ready];
    assert workers[..|p.workers|] == p.workers;
    forall k ensures Runs(workers, k) <==> Runs(p.workers, k) {
      if Runs(p.workers, k) {
        var u :| 0 <= u < |p.workers| && p.workers[u] == Running(k);
        assert workers[u] == Running(k);
      }
    }
    AccountedOthers(p.workers, workers, p.started, p.finished);
  }

  lemma WakeSound(p: Pool, w: nat)
    requires Sound(p) && Asleep(p, w)
    ensures Sound(Wake(p, w))
  {
    AccountedSwap(p.workers, p.started, p.finished, w, Ready);
    ReadyUpdate(p.workers, w, Ready);
  }

  /** A notification is used up: it has woken a sleeper, or there was none. */
  lemma NotifySound(p: Pool, w: nat)
    requires Sound(p) && Enabled(p, NotifyOne(w))
    ensures Sound(Step(p, NotifyOne(w)))
  {
    if Asleep(p, w) {
      AccountedSwap(p.workers, p.started, p.finished, w, Ready);
      ReadyUpdate(p.workers, w, Ready);
    } else if Waiting in p.workers {
      var u: nat :| u < |p.workers| && p.workers[u] == Waiting;
      assert Asleep(p, u);
    }
  }

  lemma LockSound(p: Pool, w: nat)
    requires Sound(p) && w < |p.workers| && p.workers[w] == Ready
    ensures Sound(StepLock(p, w))
  {
    SomeReady(p.workers);
    if p.queue == [] {
      var to := if p.stopping then Exited else Waiting;
      AccountedSwap(p.workers, p.started, p.finished, w, to);
      ReadyUpdate(p.workers, w, to);
    } else {
      var to := Running(|p.started|);
      AccountedStart(p.workers, p.started, p.finished, w, p.queue[0]);
      ReadyUpdate(p.workers, w, to);
      assert p.started + p.queue == p.started + [p.queue[0]] + p.queue[1..];
    }
  }

  lemma FinishSound(p: Pool, w: nat)
    requires Sound(p) && w < |p.workers| && p.workers[w].Running?
    ensures Sound(StepFinish(p, w))
  {
    AccountedFinish(p.workers, p.started, p.finished, w);
    ReadyUpdate(p.workers, w, Ready);
  }

  lemma NotifyAllSound(p: Pool)
    requires Sound(p) && p.control == Flagged
    ensures Sound(Step(p, NotifyAll))
  {
    var workers := WakeAll(p.workers);
    forall k ensures Runs(workers, k) <==> Runs(p.workers, k) {
      if Runs(p.workers, k) {
        var u :| 0 <= u < |p.workers| && p.workers[u] == Running(k);
        assert workers[u] == Running(k);
      }
    }
    AccountedOthers(p.workers, workers, p.started, p.finished);
    assert Waiting !in workers;
  }

  lemma EndStopSound(p: Pool)
    requires Sound(p) && Enabled(p, EndStop)
    ensures Sound(Step(p, EndStop))
  {
    forall k ensures !Runs(p.workers, k) {
    }
    AccountedOthers(p.workers, [], p.started, p.finished);
    if p.workers != [] {
      assert p.workers[0] == Exited;
    }
  }

  lemma StepSound(p: Pool, a: Action)
    requires Sound(p) && Enabled(p, a)
    ensures Sound(Step(p, a)) && Step(p, a).threadCount == p.threadCount
  {
    match a
    case Spawn => SpawnSound(p);
    case NotifyOne(w) => NotifySound(p, w);
    case WakeUp(w) => WakeSound(p, w);
    case Lock(w) => LockSound(p, w);
    case Finish(w) => FinishSound(p, w);
    case NotifyAll => NotifyAllSound(p);
    case EndStop => EndStopSound(p);
    case _ =>
  }

  lemma {:induction false} RunSound(n: nat, acts: seq<Action>, p: Pool)
    requires Run(New(n), acts, p)
    ensures Sound(p) && p.threadCount == n
  {
    if acts != [] {
      var last := acts[|acts| - 1];
      var m :| Run(New(n), acts[..|acts| - 1], m) && Enabled(m, last) && p == Step(m, last);
      RunSound(n, acts[..|acts| - 1], m);
      StepSound(m, last);
    }
  }

  // ---------- what was asked of the pool ----------

  /** The tasks pushed before `stop` was first called. */
  function Pushed(acts: seq<Action>): seq<Task> {
    if acts == [] then []
    else
      var front, last := acts[..|acts| - 1], acts[|acts| - 1];
      Pushed(front) + if last.Push? && SetFlag !in front then [last.task] else []
  }

  /** How many tasks have returned. */
  function Returns(acts: seq<Action>): nat {
    if acts == [] then 0 else Returns(acts[..|acts| - 1]) + if acts[|acts| - 1].Finish? then 1 else 0
  }

  /** The pool has accepted exactly what was pushed in time, and counts a task finished exactly when it
      has returned. */
  lemma {:induction false} AskedFor(n: nat, acts: seq<Action>, p: Pool)
    requires Run(New(n), acts, p)
    ensures p.accepted == Pushed(acts) && |p.finished| == Returns(acts)
    ensures (p.stopping <==> SetFlag in acts) && (p.launched <==> EndStart in acts)
  {
    if acts != [] {
      var front, last := acts[..|acts| - 1], acts[|acts| - 1];
      var m :| Run(New(n), front, m) && Enabled(m, last) && p == Step(m, last);
      AskedFor(n, front, m);
      RunSound(n, front, m);
      StepAsked(m, last);
      assert acts == front + [last];
    }
  }

  lemma StepAsked(p: Pool, a: Action)
    requires Sound(p) && Enabled(p, a)
    ensures var p' := Step(p, a);
            && p'.accepted == p.accepted + (if a.Push? && !p.stopping then [a.task] else [])
            && |p'.finished| == |p.finished| + (if a.Finish? then 1 else 0)
            && (p'.stopping <==> p.stopping || a == SetFlag) && (p'.launched <==> p.launched || a == EndStart)
  {
    hide Awaited, Stopping, Crewed;
    if a.Finish? {
      assert p.workers[a.worker] == Running(p.workers[a.worker].ticket);
      assert Runs(p.workers, p.workers[a.worker].ticket);
    }
  }

  // ---------- what it says ----------

  /** In every run, the tasks pushed before `stop` are started in the order they were pushed, and they
      are the disjoint union of the queued, the running and the finished ones; a task is finished only
      by returning. */
  lemma TasksConserved(n: nat, acts: seq<Action>, p: Pool)
    requires Run(New(n), acts, p)
    ensures Pushed(acts) == p.started + p.queue
    ensures |p.finished| == Returns(acts)
    ensures forall k: nat :: k < |p.started| ==> (k in p.finished <==> !Runs(p.workers, k))
    ensures forall k: nat :: k in p.finished || Runs(p.workers, k) ==> k < |p.started|
    ensures forall w, u, k :: 0 <= w < |p.workers| && 0 <= u < |p.workers| ==>
              p.workers[w] == Running(k) && p.workers[u] == Running(k) ==> w == u
  {
    RunSound(n, acts, p);
    AskedFor(n, acts, p);
  }

  /** In every run, no wake-up is lost: while a worker sleeps there are at least as many wake-ups
      under way as queued tasks. So a task never waits with all workers asleep and nobody about to
      notify. */
  lemma NoLostWakeUp(n: nat, acts: seq<Action>, p: Pool)
    requires Run(New(n), acts, p)
    ensures Waiting in p.workers ==> |p.queue| <= p.pending + ReadyCount(p.workers)
    ensures p.queue != [] && p.workers != [] && p.pending == 0 ==>
              exists w :: 0 <= w < |p.workers| && (p.workers[w] == Ready || p.workers[w].Running?)
  {
    RunSound(n, acts, p);
    SomeReady(p.workers);
    if p.queue != [] && p.workers != [] && p.pending == 0 {
      assert p.workers[0] in p.workers;
    }
  }

  /** Of these tasks every one has been started and has finished. */
  ghost predicate Drained(p: Pool, tasks: seq<Task>) {
    p.started == tasks && p.queue == [] && forall k: nat :: k < |tasks| ==> k in p.finished
  }

  /** When `stop` has returned, every task pushed before it was called has finished if and only if the
      pool had been started with at least one worker, or nothing was ever pushed. */
  lemma StopDrains(n: nat, acts: seq<Action>, p: Pool)
    requires Run(New(n), acts, p) && p.control == Returned
    ensures Drained(p, Pushed(acts)) <==> (EndStart in acts && n > 0) || Pushed(acts) == []
  {
    RunSound(n, acts, p);
    AskedFor(n, acts, p);
    forall k ensures !Runs(p.workers, k) {
    }
    if !(p.launched && n > 0) && p.accepted != [] {
      assert p.queue != [];
    }
  }

  /** A pool without workers loses what it has accepted. */
  lemma NoWorkersNoDrain(t: Task) returns (acts: seq<Action>, p: Pool)
    ensures Run(New(0), acts, p) && p.control == Returned && Pushed(acts) == [t] && !Drained(p, [t])
  {
    acts, p := [], New(0);
    acts, p := Extend(New(0), acts, p, BeginStart);
    acts, p := Extend(New(0), acts, p, EndStart);
    acts, p := Extend(New(0), acts, p, Push(t));
    acts, p := Extend(New(0), acts, p, SetFlag);
    acts, p := Extend(New(0), acts, p, NotifyAll);
    acts, p := Extend(New(0), acts, p, EndStop);
    assert p.queue == [t];
    AskedFor(0, acts, p);
  }

  lemma Extend(p: Pool, acts: seq<Action>, m: Pool, a: Action) returns (more: seq<Action>, p': Pool)
    requires Run(p, acts, m) && Enabled(m, a)
    ensures more == acts + [a] && p' == Step(m, a) && Run(p, more, p')
  {
    more, p' := acts + [a], Step(m, a);
    assert more[|more| - 1] == a && more[..|more| - 1] == acts;
  }

  // ---------- `stop` comes to an end ----------

  /** The work a joining `stop` still waits for. */
  function Remaining(workers: seq<Worker>): nat {
    if workers == [] then 0
    else
      Remaining(workers[..|workers| - 1]) +
      match workers[|workers| - 1]
      case Ready => 1
      case Running(_) => 2
      case _ => 0
  }

  lemma {:induction false} RemainingUpdate(workers: seq<Worker>, w: nat, to: Worker)
    requires w < |workers|
    ensures Remaining(workers[w := to]) - Remaining([to]) == Remaining(workers) - Remaining([workers[w]])
  {
    var n := |workers| - 1;
    assert [to][..0] == [] && [workers[w]][..0] == [];
    if w < n {
      assert workers[w := to][..n] == workers[..n][w := to];
      RemainingUpdate(workers[..n], w, to);
    } else {
      assert workers[w := to][..n] == workers[..n];
    }
  }

  ghost predicate WorkerMoves(p: Pool, a: Action) {
    (a.Lock? || a.Finish?) && Enabled(p, a)
  }

  /** A worker's step in a stopping pool leaves less to do. */
  lemma WorkerShrinks(p: Pool, a: Action)
    requires WorkerMoves(p, a) && p.stopping
    ensures 3 * |Step(p, a).queue| + Remaining(Step(p, a).workers) < 3 * |p.queue| + Remaining(p.workers)
  {
    hide Accounted, Awaited;
    RemainingUpdate(p.workers, a.worker, Step(p, a).workers[a.worker]);
  }

  /** While `stop` joins, some step of a worker or of `stop` is always possible, and every step of a
      worker leaves less to do; so unless a task runs for ever, `stop` returns. */
  lemma StopProgresses(n: nat, acts: seq<Action>, p: Pool)
    requires Run(New(n), acts, p) && p.control.Joining?
    ensures Enabled(p, JoinNext) || Enabled(p, EndStop) ||
            exists w: nat :: WorkerMoves(p, Lock(w)) || WorkerMoves(p, Finish(w))
    ensures forall a :: WorkerMoves(p, a) ==>
              3 * |Step(p, a).queue| + Remaining(Step(p, a).workers) < 3 * |p.queue| + Remaining(p.workers)
  {
    hide Run, Accounted, Awaited, Remaining, Step;
    RunSound(n, acts, p);
    var i := p.control.joined;
    if i < |p.workers| && p.workers[i] != Exited {
      assert p.workers[i] in p.workers;
      assert WorkerMoves(p, Lock(i)) || WorkerMoves(p, Finish(i));
    }
    forall a | WorkerMoves(p, a)
      ensures 3 * |Step(p, a).queue| + Remaining(Step(p, a).workers) < 3 * |p.queue| + Remaining(p.workers)
    {
      WorkerShrinks(p, a);
    }
  }
}
