/**
 What becomes of requests, contexts and callbacks: whom the scheduler accepts and where it puts them, that the
 tasks of a dead context leave it, that only the living are called back, and that whatever a callback does takes
 effect.  All of it also inside the pump, where callbacks run while tasks are being started.
 */
module LprContexts {
  import opened LprScheduler

  // --- Tasks of dead contexts leave ---------------------------------------------------------

  /** Tasks of dead contexts wait or run only if they are in `doomed`, and none of them is posted. */
  ghost predicate Haunted(s: State, doomed: set<Task>) {
    && (forall t :: (t in s.pending || t in s.running) && t.request.context in s.dead ==> t in doomed)
    && (forall t :: t in s.deferred ==> t.request.context !in s.dead)
  }

  lemma RemovedIsGone(s: State, task: Task)
    requires Core(s, [])
    ensures task !in QueueCancel(s, task).pending && task !in QueueCancel(s, task).running
    ensures forall t :: t in QueueCancel(s, task).pending ==> t in s.pending
    ensures forall t :: t in QueueCancel(s, task).running ==> t in s.running
  {
    AtOnePlace(s, [], task);
    assert multiset(s.pending)[task] + multiset(s.running)[task] <= Everything(s)[task];
    RemoveTakes(s.pending, task);
    RemoveTakes(s.running, task);
    hide Core, Everything, Remove;
  }

  lemma RemoveTakes(tasks: seq<Task>, task: Task)
    ensures forall t :: t in Remove(tasks, task) ==> t in tasks
    ensures multiset(tasks)[task] <= 1 ==> task !in Remove(tasks, task)
  {
    var r := Remove(tasks, task);
    if task in tasks {
      assert multiset(tasks) == multiset(r) + multiset{task};
      forall t | t in r ensures t in tasks {
        assert multiset(r)[t] >= 1;
        assert multiset(tasks)[t] >= 1;
      }
      assert multiset(tasks)[task] == multiset(r)[task] + 1;
    }
  }

  lemma CancelHaunts(s: State, task: Task, doomed: set<Task>)
    requires Core(s, []) && Haunted(s, doomed)
    ensures Haunted(QueueCancel(s, task), doomed - {task})
  {
    RemovedIsGone(s, task);
    hide Core, Remove;
  }

  function Tasks(tasks: seq<Task>): set<Task> {
    set t | t in tasks
  }

  lemma Peeled(doomed: set<Task>, tasks: seq<Task>)
    requires tasks != []
    ensures doomed - {tasks[0]} - Tasks(tasks[1..]) == doomed - Tasks(tasks)
  {
    assert tasks == [tasks[0]] + tasks[1..];
  }

  lemma {:induction false} CancelAllHaunts(s: State, tasks: seq<Task>, doomed: set<Task>)
    requires Core(s, []) && Haunted(s, doomed) && forall t :: t in tasks ==> t.request.context in s.dead
    ensures Haunted(QueueCancelAll(s, tasks), doomed - Tasks(tasks))
    decreases |tasks|
  {
    if tasks == [] {
      assert doomed - Tasks(tasks) == doomed;
    } else {
      CancelHaunts(s, tasks[0], doomed);
      QueueCancelKeepsCore(s, tasks[0]);
      hide Core, Haunted, Tasks, QueueCancel;
      CancelAllHaunts(QueueCancel(s, tasks[0]), tasks[1..], doomed - {tasks[0]});
      Peeled(doomed, tasks);
    }
  }

  lemma {:induction false} OfContextIs(tasks: seq<Task>, context: nat)
    ensures forall t :: t in OfContext(tasks, context) <==> t in tasks && t.request.context == context
    ensures forall t :: t in NotOfContext(tasks, context) <==> t in tasks && t.request.context != context
  {
    if tasks != [] {
      OfContextIs(tasks[1..], context);
      assert tasks == [tasks[0]] + tasks[1..];
    }
  }

  /** As soon as a context is buried, exactly its own waiting and running tasks are doomed. */
  lemma BuryHaunts(s: State, context: nat, doomed: set<Task>)
    requires Haunted(s, doomed)
    ensures Haunted(Bury(s, context), doomed + Tasks(Doomed(s, context)))
    ensures forall t :: t in Doomed(s, context) ==> t.request.context in Bury(s, context).dead
  {
    OfContextIs(s.running + s.pending, context);
    OfContextIs(s.deferred, context);
    hide OfContext, NotOfContext;
  }

  lemma Regained(a: set<Task>, b: set<Task>)
    ensures a + b - b <= a
  {
  }

  lemma HauntedBy(s: State, some: set<Task>, more: set<Task>)
    requires Haunted(s, some) && some <= more
    ensures Haunted(s, more)
  {
  }

  lemma QueueActHaunts(s: State, action: Action, doomed: set<Task>)
    requires Core(s, []) && Haunted(s, doomed)
    ensures Haunted(QueueAct(s, action), doomed)
  {
    match action {
      case Resubmit(request) => QueueSubmitHaunts(s, request, doomed);
      case Destroy(context) =>
        if context != 0 && context !in s.dead {
          var tasks := Doomed(s, context);
          BuryHaunts(s, context, doomed);
          BuryKeepsCore(s, context);
          hide Core, Haunted, Doomed, Bury;
          CancelAllHaunts(Bury(s, context), tasks, doomed + Tasks(tasks));
          Regained(doomed, Tasks(tasks));
          HauntedBy(QueueCancelAll(Bury(s, context), tasks), doomed + Tasks(tasks) - Tasks(tasks), doomed);
        }
    }
  }

  lemma QueueSubmitHaunts(s: State, request: Request, doomed: set<Task>)
    requires Haunted(s, doomed)
    ensures Haunted(QueueSubmit(s, request), doomed)
  {
  }

  lemma {:induction false} QueueExecuteHaunts(s: State, script: Script, doomed: set<Task>)
    requires Core(s, []) && Haunted(s, doomed)
    ensures Haunted(QueueExecute(s, script), doomed)
    decreases script
  {
    hide Core, Haunted;
    if script.Then? {
      QueueActHaunts(s, script.action, doomed);
      QueueActKeepsCore(s, script.action);
      QueueExecuteHaunts(QueueAct(s, script.action), script.rest, doomed);
    }
  }

  lemma ConcludeHaunts(s: State, task: Task, doomed: set<Task>)
    requires Haunted(s, doomed)
    ensures Haunted(Conclude(s, task), doomed)
  {
    RemoveTakes(s.pending, task);
    RemoveTakes(s.running, task);
    hide Remove;
  }

  lemma StartTaskHaunts(s: State, task: Task, doomed: set<Task>)
    requires Core(s, [task]) && |s.running| < s.maxConcurrency && !s.shuttingDown && Haunted(s, doomed)
    ensures Haunted(StartTask(s, task), doomed)
  {
    var launched := s.(running := s.running + [task], started := s.started + [task]);
    if task.request.context !in s.dead && task.request.launch == FailsToStart {
      LaunchKeepsCore(s, task);
      assert Haunted(launched, doomed);
      hide Core, Haunted, Conclude;
      ConcludeKeepsCore(launched, task);
      ConcludeHaunts(launched, task, doomed);
      QueueExecuteHaunts(Conclude(launched, task), Reaction(launched, task), doomed);
    }
  }

  lemma TurnHaunts(s: State, doomed: set<Task>)
    requires Core(s, []) && Idle(s) && !s.shuttingDown && Haunted(s, doomed)
    ensures Haunted(Turn(s), doomed)
  {
    TakeInHand(s);
    var rest := s.(pending := s.pending[1..]);
    assert Haunted(rest, doomed);
    hide Core, Haunted;
    StartTaskHaunts(rest, s.pending[0], doomed);
  }

  lemma {:induction false} PumpHaunts(s: State, doomed: set<Task>)
    requires Core(s, []) && !s.shuttingDown && Haunted(s, doomed)
    ensures Haunted(Pump(s), doomed)
    decreases Work(s.pending)
  {
    PumpTurns(s);
    if Idle(s) {
      TurnHaunts(s, doomed);
      TurnKeepsCore(s);
      var _ := TurnLaunches(s);
      assert !Turn(s).shuttingDown;
      hide *;
      PumpHaunts(Turn(s), doomed);
    }
  }

  lemma StartNextHaunts(s: State, doomed: set<Task>)
    requires Core(s, []) && Haunted(s, doomed)
    ensures Haunted(StartNext(s), doomed)
  {
    if !s.shuttingDown {
      PumpHaunts(s, doomed);
    }
  }

  lemma SubmitHaunts(s: State, request: Request, doomed: set<Task>)
    requires Core(s, []) && Haunted(s, doomed)
    ensures Haunted(Submit(s, request), doomed)
  {
    QueueSubmitHaunts(s, request, doomed);
    QueueSubmitKeepsCore(s, request);
    hide Core, Haunted;
    StartNextHaunts(QueueSubmit(s, request), doomed);
  }

  lemma CancelOneHaunts(s: State, task: Task, doomed: set<Task>)
    requires Core(s, []) && Haunted(s, doomed) && task.request.context in s.dead
    ensures Haunted(Cancel(s, task), doomed - {task})
  {
    CancelHaunts(s, task, doomed);
    QueueCancelKeepsCore(s, task);
    hide Core, Haunted, StartNext, QueueCancel;
    StartNextHaunts(QueueCancel(s, task), doomed - {task});
  }

  lemma {:induction false} CancelsHaunt(s: State, tasks: seq<Task>, doomed: set<Task>)
    requires Core(s, []) && Haunted(s, doomed) && forall t :: t in tasks ==> t.request.context in s.dead
    ensures Haunted(CancelAll(s, tasks), doomed - Tasks(tasks))
    decreases |tasks|
  {
    if tasks == [] {
      assert doomed - Tasks(tasks) == doomed;
    } else {
      CancelOneHaunts(s, tasks[0], doomed);
      CancelKeeps(s, tasks[0]);
      hide Core, Haunted, Cancel, Tasks, Busy;
      CancelsHaunt(Cancel(s, tasks[0]), tasks[1..], doomed - {tasks[0]});
      Peeled(doomed, tasks);
    }
  }

  lemma ActHaunts(s: State, action: Action)
    requires Core(s, []) && Haunted(s, {})
    ensures Haunted(Act(s, action), {})
  {
    match action {
      case Resubmit(request) => SubmitHaunts(s, request, {});
      case Destroy(context) =>
        if context != 0 && context !in s.dead {
          var tasks := Doomed(s, context);
          BuryHaunts(s, context, {});
          BuryKeepsCore(s, context);
          hide Core, Haunted, Doomed, Bury;
          CancelsHaunt(Bury(s, context), tasks, {} + Tasks(tasks));
          assert {} + Tasks(tasks) - Tasks(tasks) == {};
        }
    }
  }

  lemma {:induction false} ExecuteHaunts(s: State, script: Script)
    requires Core(s, []) && Haunted(s, {})
    ensures Haunted(Execute(s, script), {})
    decreases script
  {
    hide Core, Haunted;
    if script.Then? {
      ActHaunts(s, script.action);
      ActKeeps(s, script.action);
      ExecuteHaunts(Act(s, script.action), script.rest);
    }
  }

  lemma NextHaunts(s: State, event: Event)
    requires Sound(s) && Haunted(s, {})
    ensures Haunted(Next(s, event), {})
  {
    match event {
      case Call(action) => ActHaunts(s, action);
      case Ends(index) => if index < |s.running| { FinishHaunts(s, s.running[index]); }
      case Posted(index) => if index < |s.deferred| { DeliverHaunts(s, s.deferred[index]); }
      case Quit =>
    }
    hide Act, Finish, Deliver;
  }

  lemma FinishHaunts(s: State, task: Task)
    requires Core(s, []) && Haunted(s, {}) && task in s.running
    ensures Haunted(Finish(s, task), {})
  {
    assert !s.shuttingDown;
    ConcludeKeepsCore(s, task);
    ConcludeHaunts(s, task, {});
    hide Core, Haunted, Conclude;
    ExecuteHaunts(Conclude(s, task), Reaction(s, task));
    ExecuteKeeps(Conclude(s, task), Reaction(s, task));
    StartNextHaunts(Execute(Conclude(s, task), Reaction(s, task)), {});
  }

  lemma SettledIsCore(s: State, task: Task)
    requires Sound(s) && task in s.deferred
    ensures Core(Settle(s.(deferred := Remove(s.deferred, task)), task), [])
  {
    HasCallback(s, task);
    DeliverBalance(s, task);
    hide Core, Busy, Remove, Balance, Settle;
    SettleKeeps(s, s.(deferred := Remove(s.deferred, task)), task);
  }

  lemma SettledHaunts(s: State, task: Task)
    requires Haunted(s, {})
    ensures Haunted(Settle(s.(deferred := Remove(s.deferred, task)), task), {})
  {
    RemoveTakes(s.deferred, task);
    hide Remove;
  }

  lemma DeliverHaunts(s: State, task: Task)
    requires Sound(s) && Haunted(s, {}) && task in s.deferred
    ensures Haunted(Deliver(s, task), {})
  {
    SettledIsCore(s, task);
    SettledHaunts(s, task);
    hide Core, Haunted, Settle, Remove, Execute;
    ExecuteHaunts(Settle(s.(deferred := Remove(s.deferred, task)), task), Reaction(s, task));
  }

  /** In every run no task of a dead context waits, runs or is posted, whoever destroyed the context: the program or a
      callback, from the event loop or in the middle of starting tasks. */
  lemma {:induction false} DeadContextsLeave(maxConcurrency: nat, queueLimit: nat, events: seq<Event>)
    ensures var s := Run(Fresh(maxConcurrency, queueLimit), events);
            forall t :: t in s.pending || t in s.running || t in s.deferred ==> t.request.context !in s.dead
    decreases |events|
  {
    HauntedByNone(maxConcurrency, queueLimit, events);
  }

  lemma {:induction false} HauntedByNone(maxConcurrency: nat, queueLimit: nat, events: seq<Event>)
    ensures Haunted(Run(Fresh(maxConcurrency, queueLimit), events), {})
    decreases |events|
  {
    if events != [] {
      var before := events[..|events| - 1];
      HauntedByNone(maxConcurrency, queueLimit, before);
      EveryRunIsSound(maxConcurrency, queueLimit, before);
      hide Haunted, Next, Core, Busy;
      NextHaunts(Run(Fresh(maxConcurrency, queueLimit), before), events[|events| - 1]);
    }
  }

  // --- Callbacks ----------------------------------------------------------------------------

  /** What a callback does has been done: the contexts it destroys are dead, and its requests have been accepted unless
      they asked for nothing or their context is dead. */
  ghost predicate Effected(s: State, script: Script)
    decreases script
  {
    script.End? || (
      && Effected(s, script.rest)
      && match script.action
         case Destroy(context) => context == 0 || context in s.dead
         case Resubmit(request) =>
           request.context == 0 || request.context in s.dead || request.done.Nothing? || Accepted(s, request))
  }

  ghost predicate Accepted(s: State, request: Request) {
    exists i :: 0 <= i < |s.submitted| && s.submitted[i].request == request
  }

  /** From s to t only contexts still alive at s are called back, and all that these callbacks do is done by t. */
  ghost predicate Follows(s: State, t: State) {
    && s.called <= t.called && s.dead <= t.dead && s.submitted <= t.submitted
    && (forall i :: |s.called| <= i < |t.called| ==>
          t.called[i].request.context !in s.dead && t.called[i].request.done.Do? && Effected(t, t.called[i].request.done.script))
  }

  lemma {:induction false} EffectStays(s: State, t: State, script: Script)
    requires Effected(s, script) && s.dead <= t.dead && s.submitted <= t.submitted
    ensures Effected(t, script)
    decreases script
  {
    if script.Then? {
      EffectStays(s, t, script.rest);
      if script.action.Resubmit? && Accepted(s, script.action.request) {
        var i :| 0 <= i < |s.submitted| && s.submitted[i].request == script.action.request;
        assert t.submitted[i] == s.submitted[i];
      }
    }
  }

  lemma FollowsTwice(s: State, t: State, u: State)
    requires Follows(s, t) && Follows(t, u)
    ensures Follows(s, u)
  {
    forall i | |s.called| <= i < |u.called|
      ensures u.called[i].request.context !in s.dead && u.called[i].request.done.Do? && Effected(u, u.called[i].request.done.script)
    {
      if i < |t.called| {
        assert u.called[i] == t.called[i];
        EffectStays(t, u, t.called[i].request.done.script);
      }
    }
  }

  lemma {:induction false} QueueCancelAllFollows(s: State, tasks: seq<Task>)
    ensures Follows(s, QueueCancelAll(s, tasks)) && QueueCancelAll(s, tasks).called == s.called
    ensures QueueCancelAll(s, tasks).dead == s.dead
    decreases |tasks|
  {
    if tasks != [] {
      QueueCancelAllFollows(QueueCancel(s, tasks[0]), tasks[1..]);
      hide Remove;
      FollowsTwice(s, QueueCancel(s, tasks[0]), QueueCancelAll(s, tasks));
    }
  }

  lemma QueueActFollows(s: State, action: Action)
    ensures Follows(s, QueueAct(s, action)) && QueueAct(s, action).called == s.called
    ensures Effected(QueueAct(s, action), Then(action, End))
  {
    match action {
      case Resubmit(request) =>
        var t := QueueSubmit(s, request);
        assert Effected(t, End);
        if !Ignored(s, request) {
          assert t.submitted[|s.submitted|].request == request;
          assert Accepted(t, request);
        }
      case Destroy(context) => QueueCancelAllFollows(Bury(s, context), Doomed(s, context));
    }
  }

  lemma {:induction false} QueueExecuteFollows(s: State, script: Script)
    ensures Follows(s, QueueExecute(s, script)) && QueueExecute(s, script).called == s.called
    ensures Effected(QueueExecute(s, script), script)
    decreases script
  {
    if script.Then? {
      var t, u := QueueAct(s, script.action), QueueExecute(s, script);
      QueueActFollows(s, script.action);
      QueueExecuteFollows(t, script.rest);
      EffectStays(t, u, Then(script.action, End));
      FollowsTwice(s, t, u);
      hide Follows, QueueAct;
    }
  }

  /** A task is settled and its callback, if it is made, has done its work. */
  lemma SettledFollows(s: State, task: Task, t: State)
    requires var c := Settle(s, task);
             && Follows(c, t) && Effected(t, Reaction(s, task))
    ensures Follows(s, t)
  {
    var c := Settle(s, task);
    forall i | |s.called| <= i < |t.called|
      ensures t.called[i].request.context !in s.dead && t.called[i].request.done.Do? && Effected(t, t.called[i].request.done.script)
    {
      if i < |c.called| {
        assert t.called[i] == task;
      }
    }
  }

  lemma StartTaskFollows(s: State, task: Task)
    ensures Follows(s, StartTask(s, task))
  {
    if task.request.context !in s.dead && task.request.launch == FailsToStart {
      var launched := s.(running := s.running + [task], started := s.started + [task]);
      var bare := launched.(pending := Remove(launched.pending, task), running := Remove(launched.running, task));
      QueueExecuteFollows(Settle(bare, task), Reaction(launched, task));
      hide Remove, QueueExecute;
      SettledFollows(bare, task, StartTask(s, task));
      hide Effected;
    }
  }

  lemma {:induction false} PumpFollows(s: State)
    ensures Follows(s, Pump(s))
    decreases Work(s.pending)
  {
    PumpTurns(s);
    if Idle(s) {
      var rest := s.(pending := s.pending[1..]);
      StartTaskFollows(rest, s.pending[0]);
      assert Follows(s, rest);
      FollowsTwice(s, rest, Turn(s));
      hide *;
      PumpFollows(Turn(s));
      FollowsTwice(s, Turn(s), Pump(s));
    }
  }

  lemma StartNextFollows(s: State)
    ensures Follows(s, StartNext(s))
  {
    PumpFollows(s);
  }

  lemma SubmitFollows(s: State, request: Request)
    ensures Follows(s, Submit(s, request)) && Effected(Submit(s, request), Then(Resubmit(request), End))
  {
    var q, t := QueueSubmit(s, request), Submit(s, request);
    QueueActFollows(s, Resubmit(request));
    StartNextFollows(q);
    assert Follows(q, q);
    FollowsTwice(s, q, t);
    assert q.dead <= t.dead && q.submitted <= t.submitted;
    EffectStays(q, t, Then(Resubmit(request), End));
    hide Follows, StartNext, QueueSubmit;
  }

  lemma {:induction false} CancelAllFollows(s: State, tasks: seq<Task>)
    ensures Follows(s, CancelAll(s, tasks))
    decreases |tasks|
  {
    if tasks != [] {
      var q := QueueCancel(s, tasks[0]);
      assert Follows(s, q);
      StartNextFollows(q);
      hide QueueCancel, StartNext;
      FollowsTwice(s, q, StartNext(q));
      CancelAllFollows(Cancel(s, tasks[0]), tasks[1..]);
      FollowsTwice(s, Cancel(s, tasks[0]), CancelAll(s, tasks));
      hide Follows;
    }
  }

  lemma ActFollows(s: State, action: Action)
    ensures Follows(s, Act(s, action)) && Effected(Act(s, action), Then(action, End))
  {
    match action {
      case Resubmit(request) => SubmitFollows(s, request);
      case Destroy(context) =>
        var b := Bury(s, context);
        assert Follows(s, b);
        CancelAllFollows(b, Doomed(s, context));
        FollowsTwice(s, b, CancelAll(b, Doomed(s, context)));
        hide CancelAll;
    }
  }

  lemma {:induction false} ExecuteFollows(s: State, script: Script)
    ensures Follows(s, Execute(s, script)) && Effected(Execute(s, script), script)
    decreases script
  {
    if script.Then? {
      var t, u := Act(s, script.action), Execute(s, script);
      ActFollows(s, script.action);
      ExecuteFollows(t, script.rest);
      EffectStays(t, u, Then(script.action, End));
      FollowsTwice(s, t, u);
      hide Follows, Act;
    }
  }

  lemma FinishFollows(s: State, task: Task)
    ensures Follows(s, Finish(s, task))
  {
    var bare := s.(pending := Remove(s.pending, task), running := Remove(s.running, task));
    var e := Execute(Settle(bare, task), Reaction(bare, task));
    assert Follows(s, bare) && Finish(s, task) == StartNext(e);
    hide Follows, Execute, StartNext, Remove, Settle, Reaction, Finish;
    SettledExecutes(bare, task);
    StartNextFollows(e);
    FollowsTwice(s, bare, e);
    FollowsTwice(s, e, StartNext(e));
  }

  lemma DeliverFollows(s: State, task: Task)
    ensures Follows(s, Deliver(s, task))
  {
    var bare := s.(deferred := Remove(s.deferred, task));
    var e := Execute(Settle(bare, task), Reaction(bare, task));
    assert Follows(s, bare) && Deliver(s, task) == e;
    hide Follows, Execute, Remove, Settle, Reaction, Deliver;
    SettledExecutes(bare, task);
    FollowsTwice(s, bare, e);
  }

  lemma NextFollows(s: State, event: Event)
    ensures Follows(s, Next(s, event))
  {
    hide Act, Finish, Deliver;
    match event {
      case Call(action) => ActFollows(s, action);
      case Ends(index) => if index < |s.running| { FinishFollows(s, s.running[index]); }
      case Posted(index) => if index < |s.deferred| { DeliverFollows(s, s.deferred[index]); }
      case Quit =>
    }
  }

  lemma SettledExecutes(s: State, task: Task)
    ensures Follows(s, Execute(Settle(s, task), Reaction(s, task)))
  {
    ExecuteFollows(Settle(s, task), Reaction(s, task));
    hide Execute;
    SettledFollows(s, task, Execute(Settle(s, task), Reaction(s, task)));
  }

  /** In every run whatever the callbacks made so far do has been done; and an event never calls back a context that was
      dead before it. */
  lemma {:induction false} CallbacksTakeEffect(maxConcurrency: nat, queueLimit: nat, events: seq<Event>)
    ensures var s := Run(Fresh(maxConcurrency, queueLimit), events);
            forall t :: t in s.called ==> t.request.done.Do? && Effected(s, t.request.done.script)
    decreases |events|
  {
    RunFollows(Fresh(maxConcurrency, queueLimit), events);
    hide Run;
  }

  lemma {:induction false} RunFollows(s: State, events: seq<Event>)
    ensures Follows(s, Run(s, events))
    decreases |events|
  {
    if events != [] {
      var before := Run(s, events[..|events| - 1]);
      RunFollows(s, events[..|events| - 1]);
      hide Follows, Next;
      NextFollows(before, events[|events| - 1]);
      FollowsTwice(s, before, Run(s, events));
    }
  }

  /** A context destroyed is dead, and it gets no callback from then on. */
  lemma NoCallbackToTheDead(s: State, context: nat, events: seq<Event>)
    requires context != 0
    ensures var t := Next(s, Call(Destroy(context)));
            && context in t.dead
            && forall i :: |t.called| <= i < |Run(t, events).called| ==> Run(t, events).called[i].request.context != context
  {
    ActFollows(s, Destroy(context));
    RunFollows(Next(s, Call(Destroy(context))), events);
    hide Run, Act;
  }

  // --- Where a request goes -------------------------------------------------------------------

  /** A request is taken exactly if it names a living context and a callback. */
  lemma TakenIff(s: State, request: Request)
    requires Sound(s)
    ensures Task(|s.submitted|, request) in Submit(s, request).submitted <==>
            request.context != 0 && request.context !in s.dead && request.done.Do?
  {
    var q := QueueSubmit(s, request);
    StartNextFollows(q);
    if Ignored(s, request) {
      assert Numbered(s.submitted);
      hide Sound;
    } else {
      assert q.submitted[|s.submitted|] == Task(|s.submitted|, request);
      hide StartNext, Sound;
      assert Submit(s, request).submitted[|s.submitted|] == q.submitted[|s.submitted|];
    }
  }

  /** Where a request that is taken goes: with the queue full its failure is posted; with all slots busy it waits behind
      the others; otherwise its process is started, or its failure posted if there is no temporary file. */
  lemma SubmitPlaces(s: State, request: Request)
    requires Sound(s) && !s.shuttingDown
    requires request.context != 0 && request.context !in s.dead && request.done.Do?
    ensures var task, t := Task(|s.submitted|, request), Submit(s, request);
            var with := s.(submitted := s.submitted + [task]);
            if |s.pending| >= s.queueLimit then t == with.(deferred := s.deferred + [task])
            else if |s.running| >= s.maxConcurrency then t == with.(pending := s.pending + [task])
            else match request.launch
                 case Starts => t == with.(running := s.running + [task], started := s.started + [task])
                 case NoTempFile => t == with.(deferred := s.deferred + [task])
                 case FailsToStart => |t.called| > |s.called| && t.called[|s.called|] == task
  {
    var task, q := Task(|s.submitted|, request), QueueSubmit(s, request);
    if |s.pending| < s.queueLimit {
      PumpTurns(q);
      if |s.running| < s.maxConcurrency {
        assert s.pending == [];
        LoneTaskTurn(s, request);
        PumpTurns(Turn(q));
        PumpFollows(Turn(q));
        assert q.pending[1..] == [];
        hide Sound, Pump, QueueExecute, Effected, Conclude;
      }
    }
  }

  // --- Ends ---------------------------------------------------------------------------------------

  lemma SettledFirst(s: State, task: Task, t: State)
    requires Follows(Settle(s, task), t) && task.request.context !in s.dead && task.request.done.Do?
    ensures |t.called| > |s.called| && t.called[|s.called|] == task
  {
    hide Effected;
  }

  /** The end of a process is reported at once, before anything its callback or the pump brings about; and the process
      has left its slot. */
  lemma EndIsReported(s: State, index: nat)
    requires Sound(s) && Haunted(s, {}) && index < |s.running|
    ensures var t := Next(s, Ends(index));
            |t.called| > |s.called| && t.called[|s.called|] == s.running[index] && s.running[index] !in t.running
  {
    var task := s.running[index];
    HasCallback(s, task);
    assert task.request.context !in s.dead;
    var bare := s.(pending := Remove(s.pending, task), running := Remove(s.running, task));
    ExecuteFollows(Settle(bare, task), Reaction(bare, task));
    var e := Execute(Settle(bare, task), Reaction(bare, task));
    StartNextFollows(e);
    NextKeeps(s, Ends(index));
    var t := Next(s, Ends(index));
    assert t == StartNext(e);
    hide Sound, Haunted, Execute, StartNext, Remove, Effected, Settle, Next, Reaction;
    FollowsTwice(Settle(bare, task), e, t);
    SettledFirst(bare, task, t);
    CalledOnce(t, task);
  }

  /** A posted failure is reported when the event loop comes to it. */
  lemma FailureIsReported(s: State, index: nat)
    requires Sound(s) && Haunted(s, {}) && index < |s.deferred|
    ensures var t := Next(s, Posted(index));
            |t.called| > |s.called| && t.called[|s.called|] == s.deferred[index] && s.deferred[index] !in t.deferred
  {
    var task := s.deferred[index];
    HasCallback(s, task);
    assert task.request.context !in s.dead;
    var bare := s.(deferred := Remove(s.deferred, task));
    ExecuteFollows(Settle(bare, task), Reaction(bare, task));
    NextKeeps(s, Posted(index));
    var t := Next(s, Posted(index));
    assert t == Execute(Settle(bare, task), Reaction(bare, task));
    hide Sound, Haunted, Execute, Remove, Effected, Settle, Next, Reaction;
    SettledFirst(bare, task, t);
    CalledOnce(t, task);
  }

  // --- Shutting down ------------------------------------------------------------------------------

  /** Shutting down drops everything that waits or runs, and calls nobody back. */
  lemma QuitDrops(s: State)
    requires Sound(s) && !s.shuttingDown
    ensures Next(s, Quit) == s.(shuttingDown := true, pending := [], running := [], dropped := s.dropped + s.pending + s.running)
  {
  }

  ghost predicate Stopped(s: State, t: State) {
    s.shuttingDown ==> t.shuttingDown && t.started == s.started
  }

  lemma {:induction false} CancelAllStops(s: State, tasks: seq<Task>)
    ensures Stopped(s, CancelAll(s, tasks))
    decreases |tasks|
  {
    if tasks != [] {
      CancelAllStops(Cancel(s, tasks[0]), tasks[1..]);
      hide Remove, Pump;
    }
  }

  lemma {:induction false} ExecuteStops(s: State, script: Script)
    ensures Stopped(s, Execute(s, script))
    decreases script
  {
    if script.Then? {
      ExecuteStops(Act(s, script.action), script.rest);
      if script.action.Destroy? {
        CancelAllStops(Bury(s, script.action.context), Doomed(s, script.action.context));
      }
      hide Pump, CancelAll;
    }
  }

  lemma NextStops(s: State, event: Event)
    ensures Stopped(s, Next(s, event))
  {
    match event {
      case Call(action) => ExecuteStops(s, Then(action, End));
      case Ends(index) =>
        if index < |s.running| {
          ExecuteStops(Conclude(s, s.running[index]), Reaction(s, s.running[index]));
        }
      case Posted(index) =>
        if index < |s.deferred| {
          var task := s.deferred[index];
          ExecuteStops(Settle(s.(deferred := Remove(s.deferred, task)), task), Reaction(s, task));
        }
      case Quit =>
    }
    hide Pump, Remove, Reaction;
  }

  /** After that no process is started any more. */
  lemma {:induction false} NothingStartsAfterQuit(s: State, events: seq<Event>)
    requires s.shuttingDown
    ensures Run(s, events).shuttingDown && Run(s, events).started == s.started
    decreases |events|
  {
    if events != [] {
      NothingStartsAfterQuit(s, events[..|events| - 1]);
      NextStops(Run(s, events[..|events| - 1]), events[|events| - 1]);
      hide Next;
    }
  }
}
