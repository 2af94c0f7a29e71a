/** The asynchronous logger: callers push lines, one worker swaps the whole queue out and appends it
    to a file. Every critical section, notification, file write and join is one atomic step; `init`
    and `shutdown` are called by one controlling thread. */
module Loggers {

  type Line = string

  type Path = string

  /** The worker thread: not started, about to take the lock, asleep, holding a batch but no file yet,
      appending a batch to a file, or returned from its loop. */
  datatype Worker =
    | NoThread
    | Ready
    | Waiting
    | Swapped(batch: seq<Line>)
    | Writing(path: Path, batch: seq<Line>)
    | Exited

  /** Where the controlling thread stands in `shutdown`. */
  datatype Control = Calm | Flagged | Joining

  /** A line in a file. */
  datatype Written = Written(path: Path, line: Line)

  /** `enqueued` is history: every line ever pushed. `pending` counts callers that have pushed and are
      about to notify. */
  datatype Logger = Logger(
    running: bool,
    path: Path,
    queue: seq<Line>,
    worker: Worker,
    control: Control,
    pending: nat,
    written: seq<Written>,
    enqueued: seq<Line>)

  const NEW_LOGGER := Logger(false, [], [], NoThread, Calm, 0, [], [])

  datatype Action =
    | InitAt(path: Path)
    | Enqueue(line: Line)
    | NotifyOne
    | WakeUp
    | Lock
    | Open
    | Append
    | ShutFlag
    | NotifyAll
    | Join

  predicate Enabled(l: Logger, a: Action) {
    match a
    case InitAt(_) => l.control == Calm
    case Enqueue(_) => true
    case NotifyOne => l.pending > 0
    case WakeUp => l.worker == Waiting
    case Lock => l.worker == Ready
    case Open => l.worker.Swapped?
    case Append => l.worker.Writing?
    case ShutFlag => l.control == Calm
    case NotifyAll => l.control == Flagged
    case Join => l.control == Joining && l.worker == Exited
  }

  function Wake(w: Worker): Worker {
    if w == Waiting then Ready else w
  }

  /** `init` starts a worker unless one is running; either way it sets the path. */
  function StepInit(l: Logger, path: Path): Logger {
    if l.running then l.(path := path) else l.(path := path, running := true, worker := Ready)
  }

  /** The critical section of the worker's loop: sleep, leave, or swap the queue out. */
  function StepLock(l: Logger): Logger {
    if l.running && l.queue == [] then l.(worker := Waiting)
    else if l.queue == [] then l.(worker := Exited)
    else l.(worker := Swapped(l.queue), queue := [])
  }

  /** One turn of the inner loop: the front line goes to the file, or the batch is done. */
  function StepAppend(l: Logger): Logger
    requires l.worker.Writing?
  {
    var Writing(path, batch) := l.worker;
    if batch == [] then l.(worker := Ready)
    else l.(worker := Writing(path, batch[1..]), written := l.written + [Written(path, batch[0])])
  }

  function Step(l: Logger, a: Action): Logger
    requires Enabled(l, a)
  {
    match a
    case InitAt(path) => StepInit(l, path)
    case Enqueue(line) => l.(queue := l.queue + [line], enqueued := l.enqueued + [line], pending := l.pending + 1)
    case NotifyOne => l.(pending := l.pending - 1, worker := Wake(l.worker))
    case WakeUp => l.(worker := Wake(l.worker))
    case Lock => StepLock(l)
    case Open => l.(worker := Writing(l.path, l.worker.batch))
    case Append => StepAppend(l)
    case ShutFlag => if l.running then l.(running := false, control := Flagged) else l
    case NotifyAll => l.(control := Joining, worker := Wake(l.worker))
    case Join => l.(control := Calm, worker := NoThread)
  }

  ghost predicate Run(l: Logger, acts: seq<Action>, l': Logger) {
    if acts == [] then l' == l
    else
      var last := acts[|acts| - 1];
      exists m: Logger :: Run(l, acts[..|acts| - 1], m) && Enabled(m, last) && l' == Step(m, last)
  }

  // ---------- what every step keeps ----------

  function Batch(w: Worker): seq<Line> {
    if w.Swapped? || w.Writing? then w.batch else []
  }

  function LinesOf(written: seq<Written>): (r: seq<Line>)
    ensures |r| == |written| && forall i :: 0 <= i < |written| ==> r[i] == written[i].line
  {
    seq(|written|, i requires 0 <= i < |written| => written[i].line)
  }

  lemma LinesSnoc(written: seq<Written>, w: Written)
    ensures LinesOf(written + [w]) == LinesOf(written) + [w.line]
  {
  }

  /** Lines written, then the worker's batch, then the queue, are all lines ever pushed, in order. */
  predicate InOrder(l: Logger) {
    LinesOf(l.written) + Batch(l.worker) + l.queue == l.enqueued
  }

  predicate Stages(l: Logger) {
    && (l.running ==> l.control == Calm && l.worker != NoThread && l.worker != Exited)
    && (l.control != Calm ==> l.worker != NoThread)
    && (l.control == Calm && !l.running ==> l.worker == NoThread)
    && (l.control == Joining ==> l.worker != Waiting)
  }

  predicate Awaited(l: Logger) {
    l.worker == Waiting ==> |l.queue| <= l.pending
  }

  predicate Sound(l: Logger) {
    InOrder(l) && Stages(l) && Awaited(l)
  }

  lemma LockSound(l: Logger)
    requires Sound(l) && l.worker == Ready
    ensures Sound(StepLock(l))
  {
    assert LinesOf(l.written) + [] + l.queue == LinesOf(l.written) + l.queue + [];
  }

  lemma AppendSound(l: Logger)
    requires Sound(l) && l.worker.Writing?
    ensures Sound(StepAppend(l))
  {
    var Writing(path, batch) := l.worker;
    if batch != [] {
      LinesSnoc(l.written, Written(path, batch[0]));
      assert LinesOf(l.written) + [batch[0]] + batch[1..] + l.queue == LinesOf(l.written) + batch + l.queue;
    }
  }

  lemma StepSound(l: Logger, a: Action)
    requires Sound(l) && Enabled(l, a)
    ensures Sound(Step(l, a))
  {
    match a
    case Enqueue(line) =>
      assert LinesOf(l.written) + Batch(l.worker) + (l.queue + [line]) ==
             LinesOf(l.written) + Batch(l.worker) + l.queue + [line];
    case Lock => LockSound(l);
    case Append => AppendSound(l);
    case _ =>
  }

  lemma {:induction false} RunSound(acts: seq<Action>, l: Logger)
    requires Run(NEW_LOGGER, acts, l)
    ensures Sound(l)
  {
    if acts != [] {
      var last := acts[|acts| - 1];
      var m :| Run(NEW_LOGGER, acts[..|acts| - 1], m) && Enabled(m, last) && l == Step(m, last);
      RunSound(acts[..|acts| - 1], m);
      StepSound(m, last);
    }
  }

  // ---------- what was asked of the logger ----------

  /** Every line pushed. */
  function Pushed(acts: seq<Action>): seq<Line> {
    if acts == [] then []
    else
      var last := acts[|acts| - 1];
      Pushed(acts[..|acts| - 1]) + if last.Enqueue? then [last.line] else []
  }

  /** The path `init` was last given. */
  function PathTold(acts: seq<Action>): Path {
    if acts == [] then []
    else if acts[|acts| - 1].InitAt? then acts[|acts| - 1].path
    else PathTold(acts[..|acts| - 1])
  }

  lemma {:induction false} AskedFor(acts: seq<Action>, l: Logger)
    requires Run(NEW_LOGGER, acts, l)
    ensures l.enqueued == Pushed(acts) && l.path == PathTold(acts)
  {
    if acts != [] {
      var last := acts[|acts| - 1];
      var m :| Run(NEW_LOGGER, acts[..|acts| - 1], m) && Enabled(m, last) && l == Step(m, last);
      AskedFor(acts[..|acts| - 1], m);
    }
  }

  // ---------- what it says ----------

  /** In every run, through any number of starts and shutdowns: no line is lost, doubled or put out
      of order; what is not yet written is in the worker's batch or in the queue. */
  lemma LinesConserved(acts: seq<Action>, l: Logger)
    requires Run(NEW_LOGGER, acts, l)
    ensures LinesOf(l.written) + Batch(l.worker) + l.queue == Pushed(acts)
  {
    RunSound(acts, l);
    AskedFor(acts, l);
  }

  /** `shutdown` has cleared the flag and not joined yet; a worker that has left its loop has written
      the first `n` lines. */
  predicate Draining(l: Logger, n: nat) {
    l.control != Calm && !l.running && n <= |l.enqueued| && (l.worker == Exited ==> n <= |l.written|)
  }

  lemma DrainsOn(l: Logger, a: Action, n: nat)
    requires Sound(l) && Draining(l, n) && Enabled(l, a) && a != Join
    ensures Draining(Step(l, a), n) && l.enqueued <= Step(l, a).enqueued
  {
  }

  lemma {:induction false} DrainsAlong(start: Logger, acts: seq<Action>, l: Logger, n: nat)
    requires Sound(start) && Draining(start, n) && Run(start, acts, l) && Join !in acts
    ensures Sound(l) && Draining(l, n) && start.enqueued <= l.enqueued
  {
    hide Step, Enabled, Sound, Draining;
    if acts != [] {
      var last := acts[|acts| - 1];
      var m :| Run(start, acts[..|acts| - 1], m) && Enabled(m, last) && l == Step(m, last);
      assert last in acts && forall a :: a in acts[..|acts| - 1] ==> a in acts;
      DrainsAlong(start, acts[..|acts| - 1], m, n);
      StepSound(m, last);
      DrainsOn(m, last, n);
    }
  }

  /** Take any run in which `shutdown` clears the flag, and go on until it can join the worker: by
      then every line pushed before the flag was cleared has been written, in order, whatever was
      pushed, notified or woken in between. */
  lemma ShutdownDrains(before: seq<Action>, l0: Logger, after: seq<Action>, l: Logger)
    requires Run(NEW_LOGGER, before, l0) && Enabled(l0, ShutFlag) && l0.running
    requires Run(Step(l0, ShutFlag), after, l) && Join !in after && Enabled(l, Join)
    ensures Pushed(before) <= LinesOf(l.written)
  {
    hide Run;
    RunSound(before, l0);
    AskedFor(before, l0);
    StepSound(l0, ShutFlag);
    DrainsAlong(Step(l0, ShutFlag), after, l, |l0.enqueued|);
  }

  /** No wake-up is lost: a sleeping worker has a notification coming for every queued line, and a
      worker that `shutdown` is joining never sleeps again, so some step of it is possible until it
      can be joined. */
  lemma NoLostWakeUp(acts: seq<Action>, l: Logger)
    requires Run(NEW_LOGGER, acts, l)
    ensures l.worker == Waiting ==> |l.queue| <= l.pending && (l.running || l.control == Flagged)
    ensures l.control == Joining ==> Enabled(l, Lock) || Enabled(l, Open) || Enabled(l, Append) || Enabled(l, Join)
  {
    RunSound(acts, l);
  }

  /** What has been written since `done` lines were went to `path`, and so will a batch in hand that has
      its file. */
  predicate GoesTo(l: Logger, done: nat, path: Path) {
    && done <= |l.written|
    && (forall i :: done <= i < |l.written| ==> l.written[i].path == path)
    && (l.worker.Writing? ==> l.worker.path == path)
  }

  /** Take any run up to the opening of a batch's file, and go on until the next one is opened: every line
      written in between went to the path `init` was last given before that opening, whatever path was
      given later. */
  lemma LinesGoWhereTold(before: seq<Action>, l0: Logger, after: seq<Action>, l: Logger)
    requires Run(NEW_LOGGER, before, l0) && Enabled(l0, Open)
    requires Run(Step(l0, Open), after, l) && Open !in after
    ensures l0.written <= l.written
    ensures forall i :: |l0.written| <= i < |l.written| ==> l.written[i].path == PathTold(before)
  {
    AskedFor(before, l0);
    GoesAlong(Step(l0, Open), after, l, |l0.written|, l0.path);
  }

  lemma GoesOn(l: Logger, a: Action, done: nat, path: Path)
    requires GoesTo(l, done, path) && Enabled(l, a) && a != Open
    ensures GoesTo(Step(l, a), done, path) && l.written <= Step(l, a).written
  {
    hide LinesOf;
  }

  lemma {:induction false} GoesAlong(start: Logger, acts: seq<Action>, l: Logger, done: nat, path: Path)
    requires GoesTo(start, done, path) && Run(start, acts, l) && Open !in acts
    ensures GoesTo(l, done, path) && start.written <= l.written
  {
    hide Step, Enabled, GoesTo;
    if acts != [] {
      var last := acts[|acts| - 1];
      var m :| Run(start, acts[..|acts| - 1], m) && Enabled(m, last) && l == Step(m, last);
      assert last in acts && forall a :: a in acts[..|acts| - 1] ==> a in acts;
      GoesAlong(start, acts[..|acts| - 1], m, done, path);
      GoesOn(m, last, done, path);
    }
  }
}
