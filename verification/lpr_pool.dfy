/**
 The scheduler object.  One flag, `pumping`, tells operations called from inside the pump to leave the
 starting of tasks to it; every method is proved to do what the flag-free description says.

 A task counts as finished when it is neither queued nor running.  `deferred` and `dead` stand for the event
 loop's posted callbacks and the destroyed contexts; `accepted` for the identity of task objects.
 */
module LprPool {
  import opened LprScheduler

  class Scheduler {
    const maxConcurrency: nat
    const queueLimit: nat
    var pending: seq<Task>
    var running: seq<Task>
    var pumping: bool
    var shuttingDown: bool
    var deferred: seq<Task>
    var dead: set<nat>
    var accepted: nat
    ghost var submitted: seq<Task>
    ghost var started: seq<Task>
    ghost var called: seq<Task>
    ghost var dropped: seq<Task>

    ghost function Model(): State
      reads this
    {
      State(maxConcurrency, queueLimit, pending, running, shuttingDown, deferred, dead, submitted, started, called, dropped)
    }

    ghost predicate Valid()
      reads this
    {
      accepted == |submitted|
    }

    constructor (maxConcurrency: nat, queueLimit: nat)
      ensures Valid() && !pumping && Model() == Fresh(maxConcurrency, queueLimit)
    {
      this.maxConcurrency, this.queueLimit := maxConcurrency, queueLimit;
      pending, running, pumping, shuttingDown, deferred, dead, accepted := [], [], false, false, [], {}, 0;
      submitted, started, called, dropped := [], [], [], [];
    }

    method FailAsync(task: Task)
      modifies this`deferred
      ensures deferred == old(deferred) + [task]
    {
      deferred := deferred + [task];
    }

    method Submit(request: Request)
      requires Valid()
      modifies this
      ensures Valid() && pumping == old(pumping)
      ensures Model() == if pumping then QueueSubmit(old(Model()), request) else LprScheduler.Submit(old(Model()), request)
      decreases if pumping then 0 else 2, 4
    {
      if request.context == 0 || request.context in dead || request.done.Nothing? {
        return;
      }
      var task := Task(accepted, request);
      accepted := accepted + 1;
      submitted := submitted + [task];
      if |pending| >= queueLimit {
        FailAsync(task);
        return;
      }
      pending := pending + [task];
      StartNext();
    }

    method StartNext()
      requires Valid()
      modifies this
      ensures Valid() && pumping == old(pumping)
      ensures Model() == if pumping then old(Model()) else LprScheduler.StartNext(old(Model()))
      decreases if pumping then 0 else 2, 2
    {
      if pumping || shuttingDown {
        return;
      }
      pumping := true;
      while pending != [] && |running| < maxConcurrency
        invariant Valid() && pumping && Pump(Model()) == Pump(old(Model()))
        decreases Work(pending)
      {
        var task := pending[0];
        ghost var before := Model();
        pending := pending[1..];
        PumpTurns(before);
        StartTask(task);
      }
      pumping := false;
    }

    method StartTask(task: Task)
      requires Valid() && pumping
      modifies this
      ensures Valid() && pumping
      ensures Model() == LprScheduler.StartTask(old(Model()), task)
      decreases 1
    {
      if task.request.context in dead {
        dropped := dropped + [task];
        return;
      }
      if task.request.launch == NoTempFile {
        FailAsync(task);
        return;
      }
      running := running + [task];
      started := started + [task];
      if task.request.launch == FailsToStart {
        FinishTask(task);
      }
    }

    method FinishTask(task: Task)
      requires Valid()
      modifies this
      ensures Valid() && pumping == old(pumping)
      ensures Model() == if pumping then QueueExecute(Conclude(old(Model()), task), Reaction(old(Model()), task))
                         else Finish(old(Model()), task)
      decreases if pumping then 0 else 2, 6
    {
      pending := Remove(pending, task);
      running := Remove(running, task);
      if task.request.context !in dead && task.request.done.Do? {
        called := called + [task];
        Execute(task.request.done.script);
      } else {
        dropped := dropped + [task];
      }
      StartNext();
    }

    method CancelTask(task: Task)
      requires Valid()
      modifies this
      ensures Valid() && pumping == old(pumping)
      ensures Model() == if pumping then QueueCancel(old(Model()), task) else Cancel(old(Model()), task)
      decreases if pumping then 0 else 2, 3, 0
    {
      if task !in pending && task !in running {
        return;
      }
      var wasRunning := task in running;
      running := Remove(running, task);
      pending := Remove(pending, task);
      dropped := dropped + [task];
      if wasRunning {
        StartNext();
      }
    }

    /** The context object dies: its posted callbacks vanish and its tasks are told one by one. */
    method DestroyContext(context: nat)
      requires Valid()
      modifies this
      ensures Valid() && pumping == old(pumping)
      ensures Model() == if pumping then QueueDestroy(old(Model()), context) else LprScheduler.DestroyContext(old(Model()), context)
      decreases if pumping then 0 else 2, 4
    {
      if context == 0 || context in dead {
        return;
      }
      dead := dead + {context};
      dropped := dropped + OfContext(deferred, context);
      deferred := NotOfContext(deferred, context);
      assert Model() == Bury(old(Model()), context);
      hide Bury, OfContext, QueueCancelAll, CancelAll;
      CancelEach(OfContext(running + pending, context));
    }

    method CancelEach(tasks: seq<Task>)
      requires Valid()
      modifies this
      ensures Valid() && pumping == old(pumping)
      ensures Model() == if pumping then QueueCancelAll(old(Model()), tasks) else CancelAll(old(Model()), tasks)
      decreases if pumping then 0 else 2, 3, 1
    {
      hide Cancel, QueueCancel;
      var i := 0;
      while i < |tasks|
        invariant i <= |tasks| && Valid() && pumping == old(pumping)
        invariant if pumping then QueueCancelAll(Model(), tasks[i..]) == QueueCancelAll(old(Model()), tasks)
                  else CancelAll(Model(), tasks[i..]) == CancelAll(old(Model()), tasks)
      {
        assert tasks[i..][1..] == tasks[i + 1..];
        CancelTask(tasks[i]);
        i := i + 1;
      }
    }

    method Execute(script: Script)
      requires Valid()
      modifies this
      ensures Valid() && pumping == old(pumping)
      ensures Model() == if pumping then QueueExecute(old(Model()), script) else LprScheduler.Execute(old(Model()), script)
      decreases if pumping then 0 else 2, 5
    {
      var rest := script;
      while rest.Then?
        invariant Valid() && pumping == old(pumping)
        invariant if pumping then QueueExecute(Model(), rest) == QueueExecute(old(Model()), script)
                  else LprScheduler.Execute(Model(), rest) == LprScheduler.Execute(old(Model()), script)
        decreases rest
      {
        match rest.action {
          case Resubmit(request) => Submit(request);
          case Destroy(context) => DestroyContext(context);
        }
        rest := rest.rest;
      }
    }

    /** The event loop delivers a posted failure. */
    method DeliverPosted(index: nat)
      requires Valid() && !pumping && index < |deferred|
      modifies this
      ensures Valid() && !pumping && Model() == Deliver(old(Model()), old(deferred)[index])
    {
      var task := deferred[index];
      deferred := Remove(deferred, task);
      if task.request.context !in dead && task.request.done.Do? {
        called := called + [task];
        Execute(task.request.done.script);
      } else {
        dropped := dropped + [task];
      }
    }

    method Shutdown()
      requires Valid()
      modifies this
      ensures Valid() && pumping == old(pumping) && Model() == LprScheduler.Shutdown(old(Model()))
    {
      if shuttingDown {
        return;
      }
      shuttingDown := true;
      dropped := dropped + pending + running;
      pending, running := [], [];
    }
  }
}
