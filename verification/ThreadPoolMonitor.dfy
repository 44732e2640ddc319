/**
 The pool as the object it is: fields that change inside the mutex, one method per locked region.
 The ghost field keeps the state of the step model; Valid ties it to the real fields.
 */
module ThreadPoolMonitor {
  import opened Results
  import opened ThreadPool

  class Monitor {
    const maxQueueSize: nat
    var tasks: seq<Task>
    var activeCount: nat
    var uncaughtExceptionCount: nat
    var shuttingDown: bool
    var taskAvailable: Condition
    var queueSpaceAvailable: Condition
    var idle: Condition
    ghost var State: Pool

    ghost predicate Valid()
      reads this
    {
      && State.maxQueue == maxQueueSize && State.tasks == tasks && State.active == activeCount
      && State.uncaught == uncaughtExceptionCount && State.shuttingDown == shuttingDown
      && State.taskAvailable == taskAvailable && State.queueSpace == queueSpaceAvailable && State.idle == idle
      && Inv(State)
    }

    /** The constructor proper; a thread count of zero is refused before it (see Create). */
    constructor (threads: set<Thread>, maxQueue: nat)
      requires threads != {}
      ensures Valid() && State == Init(threads, maxQueue)
      ensures maxQueueSize == (if maxQueue == 0 then 1 else maxQueue) && tasks == [] && !shuttingDown
    {
      maxQueueSize := if maxQueue == 0 then 1 else maxQueue;
      tasks, activeCount, uncaughtExceptionCount, shuttingDown := [], 0, 0, false;
      taskAvailable, queueSpaceAvailable, idle := NO_ONE, NO_ONE, NO_ONE;
      State := Init(threads, maxQueue);
      new;
      InitInv(threads, maxQueue);
    }

    /** The locked region of submit; None when the caller goes to sleep in it. */
    method SubmitRegion(t: Thread, task: Task, notified: Option<Thread>) returns (r: Option<bool>)
      requires Valid() && Enabled(State, SubmitLocked(t, notified)) && State.submitting[t] == task
      modifies this
      ensures Valid() && State == Submit(old(State), t, notified)
      ensures r == Some(true) ==> tasks == old(tasks) + [task] && State.accepted == old(State.accepted) + [task]
      ensures r != Some(true) ==> tasks == old(tasks) && State.accepted == old(State.accepted)
      ensures r == None <==> !old(shuttingDown) && |old(tasks)| == maxQueueSize
      ensures r == Some(false) <==> old(shuttingDown)
    {
      hide Inv, Enabled;
      SubmitKeepsInv(State, t, notified);
      State := Submit(State, t, notified);
      if !(shuttingDown || |tasks| < maxQueueSize) {
        queueSpaceAvailable := queueSpaceAvailable.Sleep(t);
        return None;
      }
      queueSpaceAvailable := queueSpaceAvailable.Wake(t);
      if shuttingDown {
        return Some(false);
      }
      tasks := tasks + [task];
      taskAvailable := taskAvailable.NotifyOne(notified);
      return Some(true);
    }

    static lemma SubmitKeepsInv(p: Pool, t: Thread, notified: Option<Thread>)
      requires Inv(p) && Enabled(p, SubmitLocked(t, notified))
      ensures t in p.submitting && Inv(Submit(p, t, notified))
      ensures |p.tasks| <= p.maxQueue
    {
      InvStep(p, SubmitLocked(t, notified));
    }

    /** The locked region of wait_idle; true when the caller leaves it. */
    method WaitIdleRegion(t: Thread) returns (returned: bool)
      requires Valid() && Enabled(State, WaitIdleLocked(t))
      modifies this
      ensures Valid() && State == WaitIdle(old(State), t)
      ensures returned <==> t !in State.waiting
      ensures returned ==> AllFinished(State)
    {
      hide Inv, Enabled;
      WaitIdleKeepsInv(State, t);
      State := WaitIdle(State, t);
      if !(tasks == [] && activeCount == 0) {
        idle := idle.Sleep(t);
        return false;
      }
      idle := idle.Wake(t);
      return true;
    }

    static lemma WaitIdleKeepsInv(p: Pool, t: Thread)
      requires Inv(p) && Enabled(p, WaitIdleLocked(t))
      ensures t in p.waiting && Inv(WaitIdle(p, t))
      ensures IsIdle(p) ==> AllFinished(WaitIdle(p, t))
    {
      InvStep(p, WaitIdleLocked(t));
      if IsIdle(p) {
        IdleMeansFinished(p);
      }
    }

    /** The locked region of shutdown; false when another call has been here before. */
    method ShutdownRegion() returns (first: bool)
      requires Valid()
      modifies this
      ensures Valid() && State == BeginShutdown(old(State))
      ensures first <==> !old(shuttingDown)
      ensures shuttingDown
    {
      hide Inv;
      InvStep(State, ShutdownCall);
      State := BeginShutdown(State);
      if shuttingDown {
        return false;
      }
      shuttingDown := true;
      return true;
    }

    static lemma ShutdownKeepsInv(p: Pool)
      requires Inv(p) && (p.shutdown == Some(Joining) ==> p.exited == p.workers)
      requires p.shutdown.Some? && p.shutdown != Some(Returned)
      ensures Inv(ContinueShutdown(p))
      ensures p.shutdown == Some(NotifyIdle) ==> AllFinished(ContinueShutdown(p))
    {
      hide Placed, Ordered, Accounted, NoLostWakeup, ShutdownCovered;
      InvStep(p, ShutdownProceed);
      if p.shutdown == Some(NotifyIdle) {
        JoinedWhenPastJoining(p);
        hide Inv;
        DrainedAfterJoin(p);
      }
    }

    /** The two broadcasts that follow it, outside the mutex. */
    method BroadcastToWorkers()
      requires Valid() && State.shutdown == Some(NotifyWorkers)
      modifies this
      ensures Valid() && State == ContinueShutdown(old(State))
      ensures taskAvailable.sleeping == {}
    {
      hide Inv;
      ShutdownKeepsInv(State);
      State := ContinueShutdown(State);
      taskAvailable := taskAvailable.NotifyAll();
    }

    method BroadcastToSubmitters()
      requires Valid() && State.shutdown == Some(NotifySubmitters)
      modifies this
      ensures Valid() && State == ContinueShutdown(old(State))
      ensures queueSpaceAvailable.sleeping == {}
    {
      hide Inv;
      ShutdownKeepsInv(State);
      State := ContinueShutdown(State);
      queueSpaceAvailable := queueSpaceAvailable.NotifyAll();
    }

    /** The joins have returned: every worker has left its loop, so every accepted task has finished. */
    method BroadcastIdle()
      requires Valid() && State.shutdown == Some(NotifyIdle)
      modifies this
      ensures Valid() && State == ContinueShutdown(old(State))
      ensures State.shutdown == Some(Returned) && AllFinished(State)
    {
      hide Inv;
      ShutdownKeepsInv(State);
      State := ContinueShutdown(State);
      idle := idle.NotifyAll();
    }

    /** The first locked region of the worker loop: a task to run, or None to sleep or leave the loop. */
    method WorkerRegion(t: Thread, notified: Option<Thread>) returns (task: Option<Task>)
      requires Valid() && Enabled(State, WorkerLocked(t, notified))
      modifies this
      ensures Valid() && State == Worker(old(State), t, notified)
      ensures task.Some? <==> old(tasks) != []
      ensures task.Some? ==>
        && task.value == old(State.accepted)[|old(State.taken)|] && tasks == old(tasks)[1..]
        && activeCount == old(activeCount) + 1 && t in State.running && State.running[t] == |old(State.taken)|
      ensures task.None? ==>
        && tasks == old(tasks) && activeCount == old(activeCount)
        && if old(shuttingDown) then t in State.exited else t in taskAvailable.sleeping
    {
      hide Inv, Enabled;
      WorkerKeepsInv(State, t, notified);
      State := Worker(State, t, notified);
      if !(shuttingDown || tasks != []) {
        taskAvailable := taskAvailable.Sleep(t);
        return None;
      }
      taskAvailable := taskAvailable.Wake(t);
      if shuttingDown && tasks == [] {
        return None;
      }
      task := Some(tasks[0]);
      tasks := tasks[1..];
      activeCount := activeCount + 1;
      queueSpaceAvailable := queueSpaceAvailable.NotifyOne(notified);
    }

    static lemma WorkerKeepsInv(p: Pool, t: Thread, notified: Option<Thread>)
      requires Inv(p) && Enabled(p, WorkerLocked(t, notified))
      ensures Inv(Worker(p, t, notified))
      ensures p.tasks != [] ==> |p.taken| < |p.accepted| && p.tasks[0] == p.accepted[|p.taken|]
    {
      InvStep(p, WorkerLocked(t, notified));
    }

    static lemma FinishKeepsInv(p: Pool, t: Thread, throws: bool)
      requires Inv(p) && Enabled(p, WorkerFinish(t, throws))
      ensures t in p.running && p.active > 0 && Inv(Finish(p, t, throws))
      ensures IsIdle(Finish(p, t, throws)) ==> AllFinished(Finish(p, t, throws))
    {
      InvStep(p, WorkerFinish(t, throws));
      hide Inv, Finish;
      if IsIdle(Finish(p, t, throws)) {
        IdleMeansFinished(Finish(p, t, throws));
      }
    }

    /** The last locked region of the worker loop, after the task returned or threw; an exception is counted. */
    method FinishRegion(t: Thread, throws: bool)
      requires Valid() && Enabled(State, WorkerFinish(t, throws))
      modifies this
      ensures Valid() && State == Finish(old(State), t, throws)
      ensures uncaughtExceptionCount == old(uncaughtExceptionCount) + (if throws then 1 else 0)
      ensures activeCount == old(activeCount) - 1 && tasks == old(tasks) && t !in State.running
      ensures tasks == [] && activeCount == 0 ==> idle.sleeping == {} && AllFinished(State)
    {
      hide Inv, Enabled;
      FinishKeepsInv(State, t, throws);
      State := Finish(State, t, throws);
      if throws {
        uncaughtExceptionCount := uncaughtExceptionCount + 1;
      }
      activeCount := activeCount - 1;
      if tasks == [] && activeCount == 0 {
        idle := idle.NotifyAll();
      }
    }
  }

  /** The constructor throws for zero threads, whatever the queue bound, and only then. */
  method Create(threads: set<Thread>, maxQueue: nat) returns (pool: Option<Monitor>)
    ensures pool.None? <==> threads == {}
    ensures pool.Some? ==> fresh(pool.value) && pool.value.Valid() && pool.value.State == Init(threads, maxQueue)
    ensures pool.Some? ==> pool.value.maxQueueSize == if maxQueue == 0 then 1 else maxQueue
  {
    if threads == {} {
      return None;
    }
    var p := new Monitor(threads, maxQueue);
    return Some(p);
  }
}
