/**
 The bounded thread pool as a monitor. Each region that holds the mutex is one step; waiting on a
 condition variable is a sleep at the end of one region and a wake-up that starts the next.
 */
module ThreadPool {
  import opened Results

  type Thread = nat
  type Task = nat

  /**
   A condition variable: the threads asleep in a wait, and those a notification has released but
   that have not taken the mutex again.
   */
  datatype Condition = Condition(sleeping: set<Thread>, signalled: set<Thread>) {
    function Sleep(t: Thread): Condition {
      Condition(sleeping + {t}, signalled - {t})
    }

    function Wake(t: Thread): Condition {
      Condition(sleeping - {t}, signalled - {t})
    }

    /** notify_one releases some sleeper, whichever the implementation picks, if there is one. */
    predicate MayNotify(chosen: Option<Thread>) {
      if sleeping == {} then chosen.None? else chosen.Some? && chosen.value in sleeping
    }

    function NotifyOne(chosen: Option<Thread>): Condition {
      match chosen
      case None => this
      case Some(t) => Condition(sleeping - {t}, signalled + {t})
    }

    function NotifyAll(): Condition {
      Condition({}, signalled + sleeping)
    }
  }

  /** How far the one call of shutdown that set the flag has come. */
  datatype Phase = NotifyWorkers | NotifySubmitters | Joining | NotifyIdle | Returned

  datatype Pool = Pool(
    maxQueue: nat,
    workers: set<Thread>,
    tasks: seq<Task>,
    active: nat,
    shuttingDown: bool,
    uncaught: nat,
    taskAvailable: Condition,
    queueSpace: Condition,
    idle: Condition,
    running: map<Thread, nat>,       // worker -> position of its task in the accepted order
    exited: set<Thread>,
    submitting: map<Thread, Task>,   // threads inside submit
    waiting: set<Thread>,            // threads inside wait_idle
    shutdown: Option<Phase>,
    accepted: seq<Task>,             // tasks for which submit returned true, in that order
    taken: seq<Task>,                // tasks removed from the queue, in that order
    finished: set<nat>,              // positions of the tasks that have ended
    threw: set<nat>)                 // those that ended with an exception

  const NO_ONE := Condition({}, {})

  function Init(workers: set<Thread>, maxQueue: nat): Pool {
    Pool(if maxQueue == 0 then 1 else maxQueue, workers, [], 0, false, 0, NO_ONE, NO_ONE, NO_ONE,
         map[], {}, map[], {}, None, [], [], {}, {})
  }

  /* ---------------------------------------------------------------- steps */

  datatype Step =
    | SubmitCall(t: Thread, task: Task)
    | SubmitLocked(t: Thread, notified: Option<Thread>)
    | WaitIdleCall(t: Thread)
    | WaitIdleLocked(t: Thread)
    | ShutdownCall
    | ShutdownProceed
    | WorkerLocked(t: Thread, notified: Option<Thread>)
    | WorkerFinish(t: Thread, throws: bool)
    | SpuriousWorker(t: Thread)
    | SpuriousSubmitter(t: Thread)
    | SpuriousWaiter(t: Thread)

  predicate SubmitMayProceed(p: Pool) {
    p.shuttingDown || |p.tasks| < p.maxQueue
  }

  predicate WorkerMayProceed(p: Pool) {
    p.shuttingDown || p.tasks != []
  }

  predicate IsIdle(p: Pool) {
    p.tasks == [] && p.active == 0
  }

  predicate Enabled(p: Pool, s: Step) {
    match s
    case SubmitCall(t, _) => t !in p.submitting && t !in p.waiting
    case SubmitLocked(t, n) => t in p.submitting && t !in p.queueSpace.sleeping && p.taskAvailable.MayNotify(n)
    case WaitIdleCall(t) => t !in p.submitting && t !in p.waiting
    case WaitIdleLocked(t) => t in p.waiting && t !in p.idle.sleeping
    case ShutdownCall => true
    case ShutdownProceed =>
      p.shutdown.Some? && p.shutdown != Some(Returned) && (p.shutdown == Some(Joining) ==> p.exited == p.workers)
    case WorkerLocked(t, n) =>
      && t in p.workers && t !in p.running && t !in p.exited && t !in p.taskAvailable.sleeping
      && p.queueSpace.MayNotify(n)
    case WorkerFinish(t, _) => t in p.running && p.active > 0
    case SpuriousWorker(t) => t in p.taskAvailable.sleeping
    case SpuriousSubmitter(t) => t in p.queueSpace.sleeping
    case SpuriousWaiter(t) => t in p.idle.sleeping
  }

  function Submit(p: Pool, t: Thread, notified: Option<Thread>): Pool
    requires t in p.submitting
  {
    if !SubmitMayProceed(p) then p.(queueSpace := p.queueSpace.Sleep(t))
    else
      var q := p.(queueSpace := p.queueSpace.Wake(t), submitting := p.submitting - {t});
      if p.shuttingDown then q
      else
        q.(tasks := p.tasks + [p.submitting[t]],
           accepted := p.accepted + [p.submitting[t]],
           taskAvailable := p.taskAvailable.NotifyOne(notified))
  }

  function WaitIdle(p: Pool, t: Thread): Pool {
    if IsIdle(p) then p.(idle := p.idle.Wake(t), waiting := p.waiting - {t})
    else p.(idle := p.idle.Sleep(t))
  }

  /** The locked part of shutdown: a second caller returns without waiting for anything. */
  function BeginShutdown(p: Pool): Pool {
    if p.shuttingDown then p else p.(shuttingDown := true, shutdown := Some(NotifyWorkers))
  }

  function ContinueShutdown(p: Pool): Pool {
    match p.shutdown
    case Some(NotifyWorkers) =>
      p.(taskAvailable := p.taskAvailable.NotifyAll(), shutdown := Some(NotifySubmitters))
    case Some(NotifySubmitters) =>
      p.(queueSpace := p.queueSpace.NotifyAll(), shutdown := Some(Joining))
    case Some(Joining) => p.(shutdown := Some(NotifyIdle))
    case Some(NotifyIdle) => p.(idle := p.idle.NotifyAll(), shutdown := Some(Returned))
    case _ => p
  }

  function Worker(p: Pool, t: Thread, notified: Option<Thread>): Pool {
    if !WorkerMayProceed(p) then p.(taskAvailable := p.taskAvailable.Sleep(t))
    else if p.tasks == [] then
      p.(taskAvailable := p.taskAvailable.Wake(t), exited := p.exited + {t})
    else
      p.(taskAvailable := p.taskAvailable.Wake(t),
         tasks := p.tasks[1..],
         taken := p.taken + [p.tasks[0]],
         running := p.running[t := |p.taken|],
         active := p.active + 1,
         queueSpace := p.queueSpace.NotifyOne(notified))
  }

  function Finish(p: Pool, t: Thread, throws: bool): Pool
    requires t in p.running && p.active > 0
  {
    var q := p.(active := p.active - 1,
                running := p.running - {t},
                finished := p.finished + {p.running[t]},
                uncaught := if throws then p.uncaught + 1 else p.uncaught,
                threw := if throws then p.threw + {p.running[t]} else p.threw);
    if IsIdle(q) then q.(idle := q.idle.NotifyAll()) else q
  }

  function Apply(p: Pool, s: Step): Pool
    requires Enabled(p, s)
  {
    match s
    case SubmitCall(t, task) => p.(submitting := p.submitting[t := task])
    case SubmitLocked(t, n) => Submit(p, t, n)
    case WaitIdleCall(t) => p.(waiting := p.waiting + {t})
    case WaitIdleLocked(t) => WaitIdle(p, t)
    case ShutdownCall => BeginShutdown(p)
    case ShutdownProceed => ContinueShutdown(p)
    case WorkerLocked(t, n) => Worker(p, t, n)
    case WorkerFinish(t, throws) => Finish(p, t, throws)
    case SpuriousWorker(t) => p.(taskAvailable := p.taskAvailable.Wake(t))
    case SpuriousSubmitter(t) => p.(queueSpace := p.queueSpace.Wake(t))
    case SpuriousWaiter(t) => p.(idle := p.idle.Wake(t))
  }

  predicate Legal(p: Pool, steps: seq<Step>)
    decreases |steps|
  {
    steps == [] || (Enabled(p, steps[0]) && Legal(Apply(p, steps[0]), steps[1..]))
  }

  function After(p: Pool, steps: seq<Step>): Pool
    requires Legal(p, steps)
    decreases |steps|
  {
    if steps == [] then p else After(Apply(p, steps[0]), steps[1..])
  }

  /* ---------------------------------------------------------------- invariant */

  /** Every thread is in one place. */
  ghost predicate Placed(p: Pool) {
    && p.workers != {}
    && p.taskAvailable.sleeping !! p.taskAvailable.signalled
    && p.queueSpace.sleeping !! p.queueSpace.signalled
    && p.idle.sleeping !! p.idle.signalled
    && p.running.Keys <= p.workers && p.exited <= p.workers && p.running.Keys !! p.exited
    && p.taskAvailable.sleeping + p.taskAvailable.signalled <= p.workers - p.running.Keys - p.exited
    && p.queueSpace.sleeping + p.queueSpace.signalled <= p.submitting.Keys
    && p.idle.sleeping + p.idle.signalled <= p.waiting
    && p.submitting.Keys !! p.waiting
  }

  /** Tasks leave the queue in submission order, none lost or invented, and the bound holds. */
  ghost predicate Ordered(p: Pool) {
    && p.taken + p.tasks == p.accepted
    && |p.tasks| <= p.maxQueue && p.maxQueue >= 1
  }

  /** Positions 0..n-1 of the accepted order are split between the running workers and the finished set. */
  ghost predicate Split(running: map<Thread, nat>, finished: set<nat>, n: nat) {
    && |finished| + |running| == n
    && (forall i :: i in finished ==> 0 <= i < n)
    && (forall t :: t in running ==> running[t] < n && running[t] !in finished)
    && (forall t, u :: t in running && u in running && t != u ==> running[t] != running[u])
  }

  /** Every task taken is being run by exactly one worker or has finished, never both. */
  ghost predicate Accounted(p: Pool) {
    && p.active == |p.running|
    && Split(p.running, p.finished, |p.taken|)
    && p.threw <= p.finished && p.uncaught == |p.threw|
  }

  /** While somebody sleeps unnotified, there is no more work for sleepers than notifications under way. */
  ghost predicate Enough(c: Condition, work: int) {
    c.sleeping != {} ==> work <= |c.signalled|
  }

  /** No notification that somebody still needs has been lost. */
  ghost predicate NoLostWakeup(p: Pool) {
    && Enough(p.taskAvailable, |p.tasks|)
    && (p.shuttingDown || Enough(p.queueSpace, p.maxQueue - |p.tasks|))
    && (IsIdle(p) ==> p.idle.sleeping == {})
  }

  /** Shutdown reaches every sleeper: it has been notified, or its broadcast is still to come. */
  ghost predicate ShutdownCovered(p: Pool) {
    && (p.shuttingDown <==> p.shutdown.Some?)
    && (p.shuttingDown && p.taskAvailable.sleeping != {} ==> p.shutdown == Some(NotifyWorkers))
    && (p.shuttingDown && p.queueSpace.sleeping != {} ==>
          p.shutdown == Some(NotifyWorkers) || p.shutdown == Some(NotifySubmitters))
    && (p.exited != {} ==> p.shuttingDown && p.tasks == [])
    && (p.shutdown == Some(NotifyIdle) || p.shutdown == Some(Returned) ==> p.exited == p.workers)
  }

  ghost predicate Inv(p: Pool) {
    Placed(p) && Ordered(p) && Accounted(p) && NoLostWakeup(p) && ShutdownCovered(p)
  }

  lemma InitInv(workers: set<Thread>, maxQueue: nat)
    requires workers != {}
    ensures Inv(Init(workers, maxQueue))
  {}

  lemma PlacedStep(p: Pool, s: Step)
    requires Placed(p) && Enabled(p, s)
    ensures Placed(Apply(p, s))
  {
    if s.SubmitLocked? {
      SubmitPlaced(p, s.t, s.notified);
    } else if s.WorkerLocked? {
      WorkerPlaced(p, s.t, s.notified);
    }
  }

  lemma SubmitPlaced(p: Pool, t: Thread, n: Option<Thread>)
    requires Placed(p) && Enabled(p, SubmitLocked(t, n))
    ensures Placed(Submit(p, t, n))
  {}

  lemma WorkerPlaced(p: Pool, t: Thread, n: Option<Thread>)
    requires Placed(p) && Enabled(p, WorkerLocked(t, n))
    ensures Placed(Worker(p, t, n))
  {}

  lemma OrderedStep(p: Pool, s: Step)
    requires Ordered(p) && Enabled(p, s)
    ensures Ordered(Apply(p, s))
  {
    match s
    case SubmitLocked(t, n) =>
      assert p.taken + (p.tasks + [p.submitting[t]]) == p.accepted + [p.submitting[t]];
    case WorkerLocked(t, n) =>
      if p.tasks != [] {
        assert (p.taken + [p.tasks[0]]) + p.tasks[1..] == p.accepted;
      }
    case _ =>
  }

  lemma TakeNext(running: map<Thread, nat>, finished: set<nat>, n: nat, t: Thread)
    requires Split(running, finished, n) && t !in running
    ensures Split(running[t := n], finished, n + 1)
    ensures |running[t := n]| == |running| + 1
  {
    assert running[t := n].Keys == running.Keys + {t};
    assert |running[t := n]| == |running[t := n].Keys| == |running.Keys| + 1;
  }

  lemma FinishOne(running: map<Thread, nat>, finished: set<nat>, n: nat, t: Thread)
    requires Split(running, finished, n) && t in running
    ensures Split(running - {t}, finished + {running[t]}, n)
    ensures |running - {t}| == |running| - 1
  {
    assert (running - {t}).Keys == running.Keys - {t};
    assert |running - {t}| == |(running - {t}).Keys| == |running.Keys| - 1;
  }

  lemma WorkerAccounted(p: Pool, t: Thread, n: Option<Thread>)
    requires Accounted(p) && t !in p.running
    ensures Accounted(Worker(p, t, n))
  {
    hide Split;
    TakeNext(p.running, p.finished, |p.taken|, t);
  }

  lemma FinishAccounted(p: Pool, t: Thread, throws: bool)
    requires Accounted(p) && t in p.running && p.active > 0
    ensures Accounted(Finish(p, t, throws))
  {
    FinishedIsNew(p, t);
    hide Split;
    FinishOne(p.running, p.finished, |p.taken|, t);
  }

  lemma AccountedStep(p: Pool, s: Step)
    requires Accounted(p) && Enabled(p, s)
    ensures Accounted(Apply(p, s))
  {
    hide Split, Worker, Finish;
    match s
    case WorkerLocked(t, n) => WorkerAccounted(p, t, n);
    case WorkerFinish(t, throws) => FinishAccounted(p, t, throws);
    case _ =>
  }

  lemma FinishedIsNew(p: Pool, t: Thread)
    requires Accounted(p) && t in p.running
    ensures p.running[t] !in p.threw
  {}

  lemma EnoughAfterNotify(c: Condition, n: Option<Thread>, work: int)
    requires Enough(c, work) && c.MayNotify(n) && c.sleeping !! c.signalled
    ensures Enough(c.NotifyOne(n), work + 1)
  {}

  lemma EnoughAfterWake(c: Condition, t: Thread, work: int)
    requires Enough(c, work) && t !in c.sleeping
    ensures Enough(c.Wake(t), work - 1)
  {
    if t in c.signalled {
      assert |c.signalled - {t}| == |c.signalled| - 1;
    } else {
      assert c.signalled - {t} == c.signalled;
    }
  }

  lemma NoLostWakeupStep(p: Pool, s: Step)
    requires Placed(p) && NoLostWakeup(p) && Enabled(p, s)
    ensures NoLostWakeup(Apply(p, s))
  {
    hide Placed, NoLostWakeup, Submit, Worker, Finish;
    match s
    case SubmitLocked(t, n) => SubmitWakes(p, t, n);
    case WorkerLocked(t, n) => WorkerWakes(p, t, n);
    case WorkerFinish(_, _) => FinishWakes(p, s);
    case _ => OthersWake(p, s);
  }

  lemma SubmitWakes(p: Pool, t: Thread, n: Option<Thread>)
    requires Placed(p) && NoLostWakeup(p) && Enabled(p, SubmitLocked(t, n))
    ensures NoLostWakeup(Submit(p, t, n))
  {
    EnoughAfterNotify(p.taskAvailable, n, |p.tasks|);
    if !p.shuttingDown {
      EnoughAfterWake(p.queueSpace, t, p.maxQueue - |p.tasks|);
    }
    SleepingIsEnough(p, t);
    hide Enough, Placed;
  }

  /** A submitter goes to sleep only over a full queue. */
  lemma SleepingIsEnough(p: Pool, t: Thread)
    ensures !SubmitMayProceed(p) ==> Enough(p.queueSpace.Sleep(t), p.maxQueue - |p.tasks|)
  {}

  lemma WorkerWakes(p: Pool, t: Thread, n: Option<Thread>)
    requires Placed(p) && NoLostWakeup(p) && Enabled(p, WorkerLocked(t, n))
    ensures NoLostWakeup(Worker(p, t, n))
  {
    hide Enough;
    if p.tasks == [] {
      NothingIsEnough(p.taskAvailable.Sleep(t));
      NothingIsEnough(p.taskAvailable.Wake(t));
    } else {
      WorkerTakes(p, t, n);
    }
  }

  lemma WorkerTakes(p: Pool, t: Thread, n: Option<Thread>)
    requires t !in p.taskAvailable.sleeping && p.queueSpace.MayNotify(n)
    requires p.queueSpace.sleeping !! p.queueSpace.signalled
    requires NoLostWakeup(p) && p.tasks != []
    ensures NoLostWakeup(Worker(p, t, n))
  {
    hide Enough;
    EnoughAfterWake(p.taskAvailable, t, |p.tasks|);
    if !p.shuttingDown {
      EnoughAfterNotify(p.queueSpace, n, p.maxQueue - |p.tasks|);
    }
    var q := Worker(p, t, n);
    assert |q.tasks| == |p.tasks| - 1 && q.maxQueue - |q.tasks| == p.maxQueue - |p.tasks| + 1;
  }

  lemma NothingIsEnough(c: Condition)
    ensures Enough(c, 0)
  {}

  lemma FinishWakes(p: Pool, s: Step)
    requires NoLostWakeup(p) && s.WorkerFinish? && Enabled(p, s)
    ensures NoLostWakeup(Apply(p, s))
  {}

  lemma EnoughAfterSpurious(c: Condition, t: Thread, work: int)
    requires Enough(c, work) && t in c.sleeping && c.sleeping !! c.signalled
    ensures Enough(c.Wake(t), work)
  {
    assert c.signalled - {t} == c.signalled;
  }

  lemma OthersWake(p: Pool, s: Step)
    requires NoLostWakeup(p) && Placed(p) && Enabled(p, s)
    requires !s.SubmitLocked? && !s.WorkerLocked? && !s.WorkerFinish?
    ensures NoLostWakeup(Apply(p, s))
  {
    match s
    case ShutdownProceed => ShutdownWakes(p);
    case SpuriousWorker(t) => EnoughAfterSpurious(p.taskAvailable, t, |p.tasks|);
    case SpuriousSubmitter(t) =>
      if !p.shuttingDown {
        EnoughAfterSpurious(p.queueSpace, t, p.maxQueue - |p.tasks|);
      }
    case WaitIdleLocked(_) =>
    case _ =>
  }

  lemma ShutdownWakes(p: Pool)
    requires NoLostWakeup(p) && Placed(p)
    ensures NoLostWakeup(ContinueShutdown(p))
  {
    EnoughAfterAll(p.taskAvailable, |p.tasks|);
    EnoughAfterAll(p.queueSpace, p.maxQueue - |p.tasks|);
    hide Enough, Placed;
    assert p.idle.NotifyAll().sleeping == {};
  }

  lemma EnoughAfterAll(c: Condition, work: int)
    ensures Enough(c.NotifyAll(), work)
  {}

  lemma ShutdownCoveredStep(p: Pool, s: Step)
    requires Placed(p) && ShutdownCovered(p) && Enabled(p, s)
    ensures ShutdownCovered(Apply(p, s))
  {
    if s.WorkerLocked? {
      WorkerCovered(p, s.t, s.notified);
    }
  }

  lemma WorkerCovered(p: Pool, t: Thread, n: Option<Thread>)
    requires Placed(p) && ShutdownCovered(p) && Enabled(p, WorkerLocked(t, n))
    ensures ShutdownCovered(Worker(p, t, n))
  {}

  lemma InvStep(p: Pool, s: Step)
    requires Inv(p) && Enabled(p, s)
    ensures Inv(Apply(p, s))
  {
    hide Placed, Ordered, Accounted, NoLostWakeup, ShutdownCovered, Apply, Enabled;
    PlacedStep(p, s);
    OrderedStep(p, s);
    AccountedStep(p, s);
    NoLostWakeupStep(p, s);
    ShutdownCoveredStep(p, s);
  }

  /** No reachable state has lost a wake-up, lost a task or stranded a sleeper at shutdown. */
  lemma {:induction false} InvRun(p: Pool, steps: seq<Step>)
    requires Inv(p) && Legal(p, steps)
    ensures Inv(After(p, steps))
    decreases |steps|
  {
    hide Inv, Apply, Enabled;
    if steps != [] {
      InvStep(p, steps[0]);
      InvRun(Apply(p, steps[0]), steps[1..]);
    }
  }

  /** The same for every run of a new pool, whatever its callers and the scheduler do. */
  lemma ReachableStatesAreSafe(workers: set<Thread>, maxQueue: nat, steps: seq<Step>)
    requires workers != {} && Legal(Init(workers, maxQueue), steps)
    ensures Inv(After(Init(workers, maxQueue), steps))
  {
    hide Inv, Apply, Enabled;
    InitInv(workers, maxQueue);
    InvRun(Init(workers, maxQueue), steps);
  }

  /* ---------------------------------------------------------------- what a caller may rely on */

  /** The first n positions of the accepted order. */
  function Below(n: nat): (r: set<nat>)
    ensures |r| == n
    ensures forall i :: i in r <==> 0 <= i < n
  {
    if n == 0 then {} else Below(n - 1) + {n - 1}
  }

  ghost predicate AllFinished(p: Pool) {
    p.tasks == [] && p.running == map[] && p.finished == Below(|p.accepted|)
  }

  lemma SubsetOfSameSize<T>(a: set<T>, b: set<T>)
    requires a <= b && |a| == |b|
    ensures a == b
  {
    assert a + (b - a) == b;
    assert |b| == |a| + |b - a|;
  }

  lemma IdleMeansFinished(p: Pool)
    requires Inv(p) && IsIdle(p)
    ensures AllFinished(p)
  {
    assert p.running == map[];
    assert p.taken == p.accepted;
    SubsetOfSameSize(p.finished, Below(|p.accepted|));
  }

  /** wait_idle returns only when every task accepted so far has finished. */
  lemma WaitIdleReturnsWhenFinished(p: Pool, t: Thread)
    requires Inv(p) && Enabled(p, WaitIdleLocked(t))
    requires t !in Apply(p, WaitIdleLocked(t)).waiting
    ensures AllFinished(p)
  {
    IdleMeansFinished(p);
  }

  lemma DrainedAfterJoin(p: Pool)
    requires Inv(p) && p.exited == p.workers
    ensures AllFinished(p) && p.shuttingDown
  {
    assert p.running.Keys == {};
    assert p.running == map[];
    assert |p.running| == 0;
    IdleMeansFinished(p);
  }

  lemma JoinedWhenPastJoining(p: Pool)
    requires Inv(p) && (p.shutdown == Some(NotifyIdle) || p.shutdown == Some(Returned))
    ensures p.exited == p.workers
  {}

  /**
   The call of shutdown that set the flag returns only when every accepted task has finished, and
   after that no run accepts another one.
   */
  lemma {:induction false} ShutdownReturnsDrained(p: Pool, steps: seq<Step>)
    requires Inv(p) && p.shutdown == Some(Returned) && Legal(p, steps)
    ensures AllFinished(After(p, steps))
    ensures After(p, steps).accepted == p.accepted
    decreases |steps|
  {
    DrainedAfterJoin(p);
    if steps != [] {
      InvStep(p, steps[0]);
      var q := Apply(p, steps[0]);
      assert q.shutdown == Some(Returned) && q.accepted == p.accepted;
      ShutdownReturnsDrained(q, steps[1..]);
    }
  }

  /** In every run tasks are taken in the order they were accepted, each once, whatever they throw. */
  lemma {:induction false} TakenInOrder(p: Pool, steps: seq<Step>)
    requires Inv(p) && Legal(p, steps)
    ensures var q := After(p, steps);
      && p.accepted <= q.accepted && p.taken <= q.taken <= q.accepted
      && |q.accepted| == |q.tasks| + q.active + |q.finished|
      && |q.tasks| <= q.maxQueue
    decreases |steps|
  {
    if steps == [] {
    } else {
      InvStep(p, steps[0]);
      HistoryGrows(p, steps[0]);
      hide Inv, Apply, Enabled;
      TakenInOrder(Apply(p, steps[0]), steps[1..]);
    }
  }

  lemma HistoryGrows(p: Pool, s: Step)
    requires Enabled(p, s)
    ensures p.accepted <= Apply(p, s).accepted && p.taken <= Apply(p, s).taken
  {}

  ghost predicate IsRun(workers: set<Thread>, maxQueue: nat, steps: seq<Step>, p: Pool) {
    workers != {} && Legal(Init(workers, maxQueue), steps) && After(Init(workers, maxQueue), steps) == p
  }

  /** Some run of a new pool ends in this state. */
  ghost predicate Reachable(p: Pool) {
    exists workers, maxQueue, steps :: IsRun(workers, maxQueue, steps, p)
  }

  lemma ReachableIsSafe(p: Pool)
    requires Reachable(p)
    ensures Inv(p)
  {
    hide Inv, Apply, Enabled, Legal;
    var workers, maxQueue, steps :| IsRun(workers, maxQueue, steps, p);
    ReachableStatesAreSafe(workers, maxQueue, steps);
  }

  lemma {:induction false} OneStepOn(p: Pool, steps: seq<Step>, s: Step)
    requires Legal(p, steps) && Enabled(After(p, steps), s)
    ensures Legal(p, steps + [s]) && After(p, steps + [s]) == Apply(After(p, steps), s)
    decreases |steps|
  {
    hide Apply, Enabled;
    if steps == [] {
      assert [] + [s] == [s] && [s][1..] == [];
      assert Legal(Apply(p, s), []);
    } else {
      assert (steps + [s])[1..] == steps[1..] + [s];
      OneStepOn(Apply(p, steps[0]), steps[1..], s);
    }
  }

  lemma ReachesNext(p: Pool, s: Step)
    requires Reachable(p) && Enabled(p, s)
    ensures Reachable(Apply(p, s))
  {
    hide Apply, Enabled, Legal, Inv;
    var workers, maxQueue, steps :| IsRun(workers, maxQueue, steps, p);
    OneStepOn(Init(workers, maxQueue), steps, s);
    assert IsRun(workers, maxQueue, steps + [s], Apply(p, s));
  }

  /** A pool with one worker is given a task and shut down before the worker has moved. */
  lemma ShutdownOverTask() returns (p: Pool)
    ensures Reachable(p) && p.shutdown == Some(NotifyWorkers) && p.tasks != []
  {
    var p0 := Init({0}, 1);
    assert IsRun({0}, 1, [], p0);
    ReachesNext(p0, SubmitCall(5, 7));
    var p1 := Apply(p0, SubmitCall(5, 7));
    ReachesNext(p1, SubmitLocked(5, None));
    var p2 := Apply(p1, SubmitLocked(5, None));
    ReachesNext(p2, ShutdownCall);
    p := Apply(p2, ShutdownCall);
  }

  /** Before the join there may be tasks left in any phase of shutdown. */
  lemma UndrainedAt(phase: Phase) returns (p: Pool)
    requires phase == NotifyWorkers || phase == NotifySubmitters || phase == Joining
    ensures Reachable(p) && p.shutdown == Some(phase) && p.tasks != []
  {
    hide Reachable;
    p := ShutdownOverTask();
    if phase != NotifyWorkers {
      ReachesNext(p, ShutdownProceed);
      p := ContinueShutdown(p);
      if phase == Joining {
        ReachesNext(p, ShutdownProceed);
        p := ContinueShutdown(p);
      }
    }
  }

  lemma JoinedIsDrained(p: Pool)
    requires Inv(p) && (p.shutdown == Some(NotifyIdle) || p.shutdown == Some(Returned))
    ensures AllFinished(p)
  {
    hide Inv;
    JoinedWhenPastJoining(p);
    DrainedAfterJoin(p);
  }

  lemma SecondCallChangesNothing(p: Pool)
    requires Inv(p) && p.shutdown.Some?
    ensures BeginShutdown(p) == p
  {
    hide Placed, Ordered, Accounted, NoLostWakeup;
  }

  /**
   A second call of shutdown returns at once. That all accepted tasks have finished by then is certain,
   over all runs of all pools, exactly if the first call has joined the workers.
   */
  lemma SecondShutdownIsDrainedIffJoined(phase: Phase)
    ensures (forall p :: Reachable(p) && p.shutdown == Some(phase) ==> BeginShutdown(p) == p && AllFinished(p))
       <==> phase == NotifyIdle || phase == Returned
  {
    hide Inv, BeginShutdown, Reachable;
    if phase == NotifyIdle || phase == Returned {
      forall p | Reachable(p) && p.shutdown == Some(phase) ensures BeginShutdown(p) == p && AllFinished(p) {
        ReachableIsSafe(p);
        SecondCallChangesNothing(p);
        JoinedIsDrained(p);
      }
    } else {
      var p := UndrainedAt(phase);
    }
  }

  /** What a second caller can do: once a wait_idle of its own has returned, everything accepted is finished for good. */
  lemma WaitIdleAfterShutdownIsFinal(p: Pool, t: Thread, steps: seq<Step>)
    requires Inv(p) && p.shuttingDown && Enabled(p, WaitIdleLocked(t))
    requires var q := Apply(p, WaitIdleLocked(t)); t !in q.waiting && Legal(q, steps)
    ensures var q := After(Apply(p, WaitIdleLocked(t)), steps);
      AllFinished(q) && q.accepted == p.accepted
  {
    hide Inv, AllFinished;
    WaitIdleReturnsWhenFinished(p, t);
    InvStep(p, WaitIdleLocked(t));
    FinishedStaysStep(p, WaitIdleLocked(t));
    FinishedStays(Apply(p, WaitIdleLocked(t)), steps);
  }

  lemma {:induction false} FinishedStays(p: Pool, steps: seq<Step>)
    requires Inv(p) && p.shuttingDown && AllFinished(p) && Legal(p, steps)
    ensures AllFinished(After(p, steps)) && After(p, steps).accepted == p.accepted
    decreases |steps|
  {
    if steps != [] {
      InvStep(p, steps[0]);
      FinishedStaysStep(p, steps[0]);
      hide Inv, Apply, Enabled, AllFinished;
      FinishedStays(Apply(p, steps[0]), steps[1..]);
    }
  }

  lemma FinishedStaysStep(p: Pool, s: Step)
    requires Inv(p) && p.shuttingDown && AllFinished(p) && Enabled(p, s)
    ensures var q := Apply(p, s); AllFinished(q) && q.shuttingDown && q.accepted == p.accepted
  {
    assert p.running == map[] && p.tasks == [];
    hide Inv, AllFinished;
    NothingMoves(p, s);
    FinishedIsPlain(p, Apply(p, s));
  }

  /** A pool that is shutting down and has nothing to do takes no task on. */
  lemma NothingMoves(p: Pool, s: Step)
    requires p.shuttingDown && p.tasks == [] && p.running == map[] && Enabled(p, s)
    ensures var q := Apply(p, s);
      && q.shuttingDown && q.tasks == p.tasks && q.running == p.running && q.finished == p.finished
      && q.accepted == p.accepted
  {}

  lemma FinishedIsPlain(p: Pool, q: Pool)
    requires AllFinished(p) && q.tasks == p.tasks && q.running == p.running && q.finished == p.finished
    requires q.accepted == p.accepted
    ensures AllFinished(q)
  {}

  /* ---------------------------------------------------------------- exceptions */

  predicate Ends(s: Step, throws: bool) {
    s.WorkerFinish? && s.throws == throws
  }

  /** How many of the steps end a task with an exception. */
  function ThrowsIn(steps: seq<Step>): nat {
    if steps == [] then 0 else (if Ends(steps[0], true) then 1 else 0) + ThrowsIn(steps[1..])
  }

  /** The positions of the tasks that the steps end, returning or throwing. */
  function EndedBy(p: Pool, steps: seq<Step>, throws: bool): set<nat>
    requires Legal(p, steps)
    decreases |steps|
  {
    if steps == [] then {}
    else
      (if Ends(steps[0], throws) then {p.running[steps[0].t]} else {}) + EndedBy(Apply(p, steps[0]), steps[1..], throws)
  }

  lemma StepEnds(p: Pool, s: Step)
    requires Enabled(p, s)
    ensures var q := Apply(p, s);
      && q.uncaught == p.uncaught + (if Ends(s, true) then 1 else 0)
      && q.threw == p.threw + (if Ends(s, true) then {p.running[s.t]} else {})
      && q.finished == p.finished + (if s.WorkerFinish? then {p.running[s.t]} else {})
  {}

  /**
   Over any run the exception count grows by the number of tasks that threw, which are exactly those whose
   workers reported so; every other task that ended returned.
   */
  lemma {:induction false} ExceptionsAreCounted(p: Pool, steps: seq<Step>)
    requires Legal(p, steps)
    ensures var q := After(p, steps);
      && q.uncaught == p.uncaught + ThrowsIn(steps)
      && q.threw == p.threw + EndedBy(p, steps, true)
      && q.finished == p.finished + EndedBy(p, steps, true) + EndedBy(p, steps, false)
    decreases |steps|
  {
    if steps != [] {
      StepEnds(p, steps[0]);
      hide Apply, Enabled;
      ExceptionsAreCounted(Apply(p, steps[0]), steps[1..]);
    }
  }

  /* ---------------------------------------------------------------- progress */

  /** Steps the threads inside the pool take by themselves, without new calls or spurious wake-ups. */
  predicate Internal(s: Step) {
    s.SubmitLocked? || s.WaitIdleLocked? || s.ShutdownProceed? || s.WorkerLocked? || s.WorkerFinish?
  }

  ghost predicate Stuck(p: Pool) {
    forall s :: Internal(s) ==> !Enabled(p, s)
  }

  /** Nothing is left to do and nobody is blocked in a call. */
  ghost predicate AtRest(p: Pool) {
    && AllFinished(p)
    && p.submitting == map[] && p.waiting == {}
    && (p.shutdown.None? || p.shutdown == Some(Returned))
    && (if p.shuttingDown then p.exited == p.workers else p.taskAvailable.sleeping == p.workers)
  }

  ghost function AnySleeper(c: Condition): (chosen: Option<Thread>)
    ensures c.MayNotify(chosen)
  {
    if c.sleeping == {} then None else var t :| t in c.sleeping; Some(t)
  }

  lemma StuckNobodyFinishes(p: Pool)
    requires Stuck(p)
    ensures p.active > 0 ==> p.running.Keys == {}
  {
    forall t | t in p.running ensures p.active == 0 {
      assert !Enabled(p, WorkerFinish(t, false));
    }
  }

  lemma StuckWorkers(p: Pool)
    requires Placed(p) && Accounted(p) && Stuck(p)
    ensures p.running == map[]
    ensures p.taskAvailable.sleeping + p.exited == p.workers && p.taskAvailable.signalled == {}
  {
    hide Split;
    StuckNobodyFinishes(p);
    assert |p.running| == |p.running.Keys|;
    assert p.running.Keys == {};
    var n := AnySleeper(p.queueSpace);
    forall t | t in p.workers ensures t in p.taskAvailable.sleeping + p.exited {
      assert !Enabled(p, WorkerLocked(t, n));
    }
  }

  lemma StuckClients(p: Pool)
    requires Placed(p) && Stuck(p)
    ensures p.queueSpace.sleeping == p.submitting.Keys && p.queueSpace.signalled == {}
    ensures p.idle.sleeping == p.waiting
  {
    forall t | t in p.submitting ensures t in p.queueSpace.sleeping {
      if t !in p.queueSpace.sleeping {
        assert Enabled(p, SubmitLocked(t, AnySleeper(p.taskAvailable)));
      }
    }
    forall t | t in p.waiting ensures t in p.idle.sleeping {
      if t !in p.idle.sleeping {
        assert Enabled(p, WaitIdleLocked(t));
      }
    }
  }

  /**
   No deadlock: a pool whose threads can do nothing by themselves has finished every accepted task,
   released every submitter and waiter, and completed its shutdown if one was begun.
   */
  lemma StuckIsAtRest(p: Pool)
    requires Inv(p) && Stuck(p)
    ensures AtRest(p)
  {
    StuckWorkers(p);
    StuckClients(p);
    hide Split;
    if p.exited == {} {
      assert p.taskAvailable.sleeping == p.workers;
      assert |p.tasks| == 0;
    }
    assert p.tasks == [];
    IdleMeansFinished(p);
    assert p.waiting == {};
    if p.shutdown.Some? {
      assert !Enabled(p, ShutdownProceed);
    }
    assert p.queueSpace.sleeping == {};
    assert p.submitting.Keys == {};
  }

  function PhaseWork(s: Option<Phase>): nat {
    match s
    case Some(NotifyWorkers) => 4
    case Some(NotifySubmitters) => 3
    case Some(Joining) => 2
    case Some(NotifyIdle) => 1
    case _ => 0
  }

  /** Work still to be done: calls to answer, tasks to take, tasks to finish, shutdown phases. */
  function Work(p: Pool): nat {
    3 * |p.submitting| + 2 * |p.tasks| + |p.running| + PhaseWork(p.shutdown)
  }

  function AwakeWorkers(p: Pool): set<Thread> {
    p.workers - p.taskAvailable.sleeping - p.exited
  }

  function AwakeSubmitters(p: Pool): set<Thread> {
    p.submitting.Keys - p.queueSpace.sleeping
  }

  function AwakeWaiters(p: Pool): set<Thread> {
    p.waiting - p.idle.sleeping
  }

  /** Threads inside the pool that are not asleep. */
  function Awake(p: Pool): nat {
    |AwakeWorkers(p)| + |AwakeSubmitters(p)| + |AwakeWaiters(p)|
  }

  function ThreadsInside(p: Pool): nat {
    |p.workers| + |p.submitting| + |p.waiting|
  }

  lemma CardinalityOfSubset<T>(a: set<T>, b: set<T>)
    requires a <= b
    ensures |a| <= |b|
  {
    assert |b| == |a| + |b - a| by {
      assert a + (b - a) == b;
    }
  }

  lemma RemoveOne<T>(a: set<T>, b: set<T>, t: T)
    requires t in a && b == a - {t}
    ensures |b| == |a| - 1
  {}

  lemma SubmitRanks(p: Pool, t: Thread, n: Option<Thread>)
    requires Enabled(p, SubmitLocked(t, n))
    ensures Progress(p, Submit(p, t, n))
  {
    if SubmitMayProceed(p) {
      hide Awake;
      RemoveOne(p.submitting.Keys, Submit(p, t, n).submitting.Keys, t);
    } else {
      assert Work(Submit(p, t, n)) == Work(p) && ThreadsInside(Submit(p, t, n)) == ThreadsInside(p) by {
        hide Awake;
      }
      FullSubmitterRests(p, t, n);
      hide Work, Awake, ThreadsInside, Submit;
    }
  }

  lemma FullSubmitterRests(p: Pool, t: Thread, n: Option<Thread>)
    requires Enabled(p, SubmitLocked(t, n)) && !SubmitMayProceed(p)
    ensures Awake(Submit(p, t, n)) < Awake(p)
  {
    var q := Submit(p, t, n);
    assert AwakeWorkers(q) == AwakeWorkers(p) && AwakeWaiters(q) == AwakeWaiters(p);
    RemoveOne(AwakeSubmitters(p), AwakeSubmitters(q), t);
    hide AwakeWorkers, AwakeSubmitters, AwakeWaiters, Submit;
  }

  lemma WorkerRanks(p: Pool, t: Thread, n: Option<Thread>)
    requires Enabled(p, WorkerLocked(t, n))
    ensures Progress(p, Worker(p, t, n))
  {
    if WorkerMayProceed(p) && p.tasks != [] {
      hide Awake;
      RemoveOne(Worker(p, t, n).running.Keys, p.running.Keys, t);
    } else {
      assert Work(Worker(p, t, n)) == Work(p) && ThreadsInside(Worker(p, t, n)) == ThreadsInside(p) by {
        hide Awake;
      }
      IdleWorkerRests(p, t, n);
      hide Work, Awake, ThreadsInside, Worker;
    }
  }

  lemma IdleWorkerRests(p: Pool, t: Thread, n: Option<Thread>)
    requires Enabled(p, WorkerLocked(t, n)) && !(WorkerMayProceed(p) && p.tasks != [])
    ensures Awake(Worker(p, t, n)) < Awake(p)
  {
    var q := Worker(p, t, n);
    assert AwakeSubmitters(q) == AwakeSubmitters(p) && AwakeWaiters(q) == AwakeWaiters(p);
    RemoveOne(AwakeWorkers(p), AwakeWorkers(q), t);
    hide AwakeWorkers, AwakeSubmitters, AwakeWaiters, Worker;
  }

  lemma WaiterRanks(p: Pool, t: Thread)
    requires Enabled(p, WaitIdleLocked(t))
    ensures Progress(p, WaitIdle(p, t))
  {
    CardinalityOfSubset(WaitIdle(p, t).waiting, p.waiting);
    assert Work(WaitIdle(p, t)) == Work(p) && ThreadsInside(WaitIdle(p, t)) <= ThreadsInside(p) by {
      hide Awake;
    }
    WaiterRests(p, t);
    hide Work, Awake, ThreadsInside, WaitIdle;
  }

  lemma WaiterRests(p: Pool, t: Thread)
    requires Enabled(p, WaitIdleLocked(t))
    ensures Awake(WaitIdle(p, t)) < Awake(p)
  {
    var q := WaitIdle(p, t);
    assert AwakeWorkers(q) == AwakeWorkers(p) && AwakeSubmitters(q) == AwakeSubmitters(p);
    RemoveOne(AwakeWaiters(p), AwakeWaiters(q), t);
    hide AwakeWorkers, AwakeSubmitters, AwakeWaiters, WaitIdle;
  }

  lemma FinishRanks(p: Pool, t: Thread, throws: bool)
    requires Enabled(p, WorkerFinish(t, throws))
    ensures Progress(p, Finish(p, t, throws))
  {
    hide Awake;
    RemoveOne(p.running.Keys, Finish(p, t, throws).running.Keys, t);
  }

  /** Some work is done or a thread goes to sleep or leaves; a step that wakes others does some work. */
  ghost predicate Progress(p: Pool, q: Pool) {
    && ThreadsInside(q) <= ThreadsInside(p)
    && (Work(q) < Work(p) || (Work(q) == Work(p) && Awake(q) < Awake(p)))
  }

  lemma InternalStepProgresses(p: Pool, s: Step)
    requires Internal(s) && Enabled(p, s)
    ensures Progress(p, Apply(p, s))
  {
    hide Progress, Submit, Worker, WaitIdle, Finish, ContinueShutdown;
    match s
    case SubmitLocked(t, n) => SubmitRanks(p, t, n);
    case WorkerLocked(t, n) => WorkerRanks(p, t, n);
    case WaitIdleLocked(t) => WaiterRanks(p, t);
    case WorkerFinish(t, throws) => FinishRanks(p, t, throws);
    case ShutdownProceed => ShutdownRanks(p);
  }

  lemma ShutdownRanks(p: Pool)
    requires Enabled(p, ShutdownProceed)
    ensures Progress(p, ContinueShutdown(p))
  {
    hide Awake;
  }

  lemma AwakeAreInside(p: Pool)
    ensures Awake(p) <= ThreadsInside(p)
  {
    CardinalityOfSubset(AwakeWorkers(p), p.workers);
    CardinalityOfSubset(AwakeSubmitters(p), p.submitting.Keys);
    CardinalityOfSubset(AwakeWaiters(p), p.waiting);
  }

  function Rank(work: nat, awake: nat, threads: nat): nat {
    work * (threads + 1) + awake
  }

  lemma RankDecreases(work: nat, awake: nat, work': nat, awake': nat, threads: nat)
    requires awake' <= threads
    requires work' < work || (work' == work && awake' < awake)
    ensures Rank(work', awake', threads) < Rank(work, awake, threads)
  {
    if work' < work {
      assert (work - work' - 1) * (threads + 1) >= 0;
    }
  }

  /**
   Left to themselves the threads of the pool come to rest: from any state no sequence of internal
   steps is longer than a bound known in advance, whichever threads are scheduled or notified. With
   StuckIsAtRest: every such sequence, continued as long as possible, ends with all accepted tasks
   finished and every call answered.
   */
  lemma {:induction false} InternalRunsEnd(p: Pool, steps: seq<Step>, threads: nat)
    requires Legal(p, steps) && (forall s :: s in steps ==> Internal(s))
    requires ThreadsInside(p) <= threads
    ensures |steps| <= Rank(Work(p), Awake(p), threads)
    decreases |steps|
  {
    if steps != [] {
      var q := Apply(p, steps[0]);
      assert Internal(steps[0]);
      hide Apply, Enabled, Rank, Work, Awake, ThreadsInside, Internal;
      InternalStepProgresses(p, steps[0]);
      AwakeAreInside(q);
      RankDecreases(Work(p), Awake(p), Work(q), Awake(q), threads);
      InternalRunsEnd(q, steps[1..], threads);
    }
  }

  lemma {:induction false} InternalRunsEndAtRest(p: Pool, steps: seq<Step>)
    requires Inv(p) && Legal(p, steps) && Stuck(After(p, steps))
    ensures AtRest(After(p, steps))
  {
    InvRun(p, steps);
    StuckIsAtRest(After(p, steps));
  }
}
