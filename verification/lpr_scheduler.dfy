/**
 The plate-recognition scheduler: at most `maxConcurrency` recognition processes at a time, a bounded
 queue in front of them, and callbacks that may submit again or destroy contexts while they run.

 Contexts are numbered, 0 being the null pointer.  A callback is a finite script of what it does to the
 scheduler.  While the pump is starting tasks, operations only edit the queue (the Queue... functions);
 otherwise they also start whatever fits (the functions without that prefix).
 */
module LprScheduler {

  /** How starting the task's process turns out. */
  datatype Launch = Starts | FailsToStart | NoTempFile

  datatype Callback = Nothing | Do(script: Script)

  datatype Script = End | Then(action: Action, rest: Script)

  datatype Action = Resubmit(request: Request) | Destroy(context: nat)

  datatype Request = Request(context: nat, launch: Launch, done: Callback)

  datatype Task = Task(id: nat, request: Request)

  /** `deferred` are posted callbacks that report an immediate failure from the event loop.  History variables:
      `submitted`, `started`, `called` (callbacks made, in order) and `dropped` (finished without a callback). */
  datatype State = State(maxConcurrency: nat, queueLimit: nat,
                         pending: seq<Task>, running: seq<Task>, shuttingDown: bool,
                         deferred: seq<Task>, dead: set<nat>,
                         submitted: seq<Task>, started: seq<Task>, called: seq<Task>, dropped: seq<Task>)

  // --- Sizes ------------------------------------------------------------------------

  function Resubmissions(script: Script): nat {
    match script
    case End => 0
    case Then(Resubmit(request), rest) => Weight(request) + Resubmissions(rest)
    case Then(Destroy(_), rest) => Resubmissions(rest)
  }

  function Weight(request: Request): nat {
    match request.done
    case Nothing => 1
    case Do(script) => 1 + Resubmissions(script)
  }

  function Work(tasks: seq<Task>): nat {
    if tasks == [] then 0 else Weight(tasks[0].request) + Work(tasks[1..])
  }

  lemma {:induction false} WorkConcat(a: seq<Task>, b: seq<Task>)
    ensures Work(a + b) == Work(a) + Work(b)
  {
    if a == [] {
      assert a + b == b;
    } else {
      assert (a + b)[1..] == a[1..] + b;
      WorkConcat(a[1..], b);
    }
  }

  function Remove(tasks: seq<Task>, task: Task): (r: seq<Task>)
    ensures task !in tasks ==> r == tasks
    ensures task in tasks ==> multiset(tasks) == multiset(r) + multiset{task} && |r| == |tasks| - 1
    ensures Work(r) <= Work(tasks)
  {
    if tasks == [] then []
    else
      assert tasks == [tasks[0]] + tasks[1..];
      if tasks[0] == task then tasks[1..] else [tasks[0]] + Remove(tasks[1..], task)
  }

  function OfContext(tasks: seq<Task>, context: nat): seq<Task> {
    if tasks == [] then []
    else (if tasks[0].request.context == context then [tasks[0]] else []) + OfContext(tasks[1..], context)
  }

  function NotOfContext(tasks: seq<Task>, context: nat): seq<Task> {
    if tasks == [] then []
    else (if tasks[0].request.context != context then [tasks[0]] else []) + NotOfContext(tasks[1..], context)
  }

  lemma {:induction false} ContextSplits(tasks: seq<Task>, context: nat)
    ensures multiset(tasks) == multiset(NotOfContext(tasks, context)) + multiset(OfContext(tasks, context))
    ensures forall t :: t in OfContext(tasks, context) ==> t.request.context == context
  {
    if tasks != [] {
      assert tasks == [tasks[0]] + tasks[1..];
      ContextSplits(tasks[1..], context);
    }
  }

  // --- Editing the queue ----------------------------------------------------------------

  /** A null or destroyed context, or no callback: nothing to do. */
  predicate Ignored(s: State, request: Request) {
    request.context == 0 || request.context in s.dead || request.done.Nothing?
  }

  function QueueSubmit(s: State, request: Request): State {
    var task := Task(|s.submitted|, request);
    if Ignored(s, request) then s
    else if |s.pending| >= s.queueLimit then s.(submitted := s.submitted + [task], deferred := s.deferred + [task])
    else s.(submitted := s.submitted + [task], pending := s.pending + [task])
  }

  function QueueCancel(s: State, task: Task): State {
    if task !in s.pending && task !in s.running then s
    else s.(pending := Remove(s.pending, task), running := Remove(s.running, task), dropped := s.dropped + [task])
  }

  function QueueCancelAll(s: State, tasks: seq<Task>): State
    decreases |tasks|
  {
    if tasks == [] then s else QueueCancelAll(QueueCancel(s, tasks[0]), tasks[1..])
  }

  /** The context is gone and so are its posted callbacks; its tasks are about to be cancelled, oldest first. */
  function Bury(s: State, context: nat): State {
    s.(dead := s.dead + {context}, deferred := NotOfContext(s.deferred, context),
       dropped := s.dropped + OfContext(s.deferred, context))
  }

  function Doomed(s: State, context: nat): seq<Task> {
    OfContext(s.running + s.pending, context)
  }

  function QueueDestroy(s: State, context: nat): State {
    if context == 0 || context in s.dead then s else QueueCancelAll(Bury(s, context), Doomed(s, context))
  }

  function QueueAct(s: State, action: Action): State {
    match action
    case Resubmit(request) => QueueSubmit(s, request)
    case Destroy(context) => QueueDestroy(s, context)
  }

  function QueueExecute(s: State, script: Script): State
    decreases script
  {
    if script.End? then s else QueueExecute(QueueAct(s, script.action), script.rest)
  }

  lemma {:induction false} QueueCancelAllWork(s: State, tasks: seq<Task>)
    ensures Work(QueueCancelAll(s, tasks).pending) <= Work(s.pending)
    decreases |tasks|
  {
    if tasks != [] {
      QueueCancelAllWork(QueueCancel(s, tasks[0]), tasks[1..]);
    }
  }

  lemma {:induction false} QueueExecuteWork(s: State, script: Script)
    ensures Work(QueueExecute(s, script).pending) <= Work(s.pending) + Resubmissions(script)
    decreases script
  {
    if script.Then? {
      match script.action {
        case Resubmit(request) => WorkConcat(s.pending, [Task(|s.submitted|, request)]);
        case Destroy(context) => QueueCancelAllWork(Bury(s, context), Doomed(s, context));
      }
      QueueExecuteWork(QueueAct(s, script.action), script.rest);
    }
  }

  // --- The pump -----------------------------------------------------------------------

  /** The task has its result: call back unless the context is gone. */
  function Settle(s: State, task: Task): State {
    if task.request.context in s.dead || task.request.done.Nothing? then s.(dropped := s.dropped + [task])
    else s.(called := s.called + [task])
  }

  function Conclude(s: State, task: Task): State {
    Settle(s.(pending := Remove(s.pending, task), running := Remove(s.running, task)), task)
  }

  function Reaction(s: State, task: Task): Script {
    if task.request.context in s.dead || task.request.done.Nothing? then End else task.request.done.script
  }

  /** Start a task just taken from the queue. */
  function StartTask(s: State, task: Task): State {
    if task.request.context in s.dead then s.(dropped := s.dropped + [task])
    else
      match task.request.launch
      case NoTempFile => s.(deferred := s.deferred + [task])
      case Starts => s.(running := s.running + [task], started := s.started + [task])
      case FailsToStart =>
        var launched := s.(running := s.running + [task], started := s.started + [task]);
        QueueExecute(Conclude(launched, task), Reaction(launched, task))
  }

  lemma StartTaskWork(s: State, task: Task)
    ensures Work(StartTask(s, task).pending) < Work(s.pending) + Weight(task.request)
  {
    if task.request.context !in s.dead && task.request.launch == FailsToStart {
      var launched := s.(running := s.running + [task], started := s.started + [task]);
      QueueExecuteWork(Conclude(launched, task), Reaction(launched, task));
    }
  }

  function Pump(s: State): State
    decreases Work(s.pending)
  {
    if s.pending == [] || |s.running| >= s.maxConcurrency then s
    else
      var rest := s.(pending := s.pending[1..]);
      StartTaskWork(rest, s.pending[0]);
      Pump(StartTask(rest, s.pending[0]))
  }

  function StartNext(s: State): State {
    if s.shuttingDown then s else Pump(s)
  }

  // --- Operations ---------------------------------------------------------------------

  function Submit(s: State, request: Request): State {
    if Ignored(s, request) || |s.pending| >= s.queueLimit then QueueSubmit(s, request)
    else StartNext(QueueSubmit(s, request))
  }

  function Cancel(s: State, task: Task): State {
    if task in s.running then StartNext(QueueCancel(s, task)) else QueueCancel(s, task)
  }

  function CancelAll(s: State, tasks: seq<Task>): State
    decreases |tasks|
  {
    if tasks == [] then s else CancelAll(Cancel(s, tasks[0]), tasks[1..])
  }

  function DestroyContext(s: State, context: nat): State {
    if context == 0 || context in s.dead then s else CancelAll(Bury(s, context), Doomed(s, context))
  }

  function Act(s: State, action: Action): State {
    match action
    case Resubmit(request) => Submit(s, request)
    case Destroy(context) => DestroyContext(s, context)
  }

  function Execute(s: State, script: Script): State
    decreases script
  {
    if script.End? then s else Execute(Act(s, script.action), script.rest)
  }

  /** A running process finished, failed to start after all, or timed out. */
  function Finish(s: State, task: Task): State {
    StartNext(Execute(Conclude(s, task), Reaction(s, task)))
  }

  /** The event loop delivers a posted callback. */
  function Deliver(s: State, task: Task): State {
    Execute(Settle(s.(deferred := Remove(s.deferred, task)), task), Reaction(s, task))
  }

  function Shutdown(s: State): State {
    if s.shuttingDown then s
    else s.(shuttingDown := true, pending := [], running := [], dropped := s.dropped + s.pending + s.running)
  }

  datatype Event = Call(action: Action) | Ends(index: nat) | Posted(index: nat) | Quit

  function Next(s: State, event: Event): State {
    match event
    case Call(action) => Act(s, action)
    case Ends(index) => if index < |s.running| then Finish(s, s.running[index]) else s
    case Posted(index) => if index < |s.deferred| then Deliver(s, s.deferred[index]) else s
    case Quit => Shutdown(s)
  }

  function Run(s: State, events: seq<Event>): State
    decreases |events|
  {
    if events == [] then s else Next(Run(s, events[..|events| - 1]), events[|events| - 1])
  }

  function Fresh(maxConcurrency: nat, queueLimit: nat): State {
    State(maxConcurrency, queueLimit, [], [], false, [], {}, [], [], [], [])
  }

  // --- Invariants ---------------------------------------------------------------------

  ghost function Everything(s: State): multiset<Task> {
    multiset(s.pending) + multiset(s.running) + multiset(s.deferred) + multiset(s.called) + multiset(s.dropped)
  }

  /** Every accepted task is in exactly one place; `hand` is the task the pump is about to start, if any. */
  ghost predicate Balance(s: State, hand: seq<Task>) {
    Everything(s) + multiset(hand) == multiset(s.submitted)
  }

  ghost predicate Ascending(tasks: seq<Task>, bound: nat) {
    && (forall i, j :: 0 <= i < j < |tasks| ==> tasks[i].id < tasks[j].id)
    && (forall i :: 0 <= i < |tasks| ==> tasks[i].id < bound)
  }

  /** Tasks start in the order they were accepted. */
  ghost predicate Fifo(s: State, hand: seq<Task>) {
    Ascending(s.started + hand + s.pending, |s.submitted|)
  }

  ghost predicate Numbered(tasks: seq<Task>) {
    forall i :: 0 <= i < |tasks| ==>
      tasks[i].id == i && tasks[i].request.context != 0 && tasks[i].request.done.Do?
  }

  ghost predicate DropsExcused(s: State) {
    forall t :: t in s.dropped ==> t.request.context in s.dead || s.shuttingDown
  }

  ghost predicate WithinLimits(s: State) {
    && |s.pending| <= s.queueLimit && |s.running| <= s.maxConcurrency
    && (s.shuttingDown ==> s.running == [])
  }

  ghost predicate Core(s: State, hand: seq<Task>) {
    WithinLimits(s) && Numbered(s.submitted) && Balance(s, hand) && Fifo(s, hand) && DropsExcused(s)
  }

  /** Waiting tasks mean that every slot is taken. */
  ghost predicate Busy(s: State) {
    !s.shuttingDown && s.pending != [] ==> |s.running| >= s.maxConcurrency
  }

  lemma {:induction false} NumberedOnce(tasks: seq<Task>, task: Task)
    requires Numbered(tasks)
    ensures multiset(tasks)[task] <= 1
    decreases |tasks|
  {
    if tasks != [] {
      var last := |tasks| - 1;
      NumberedOnce(tasks[..last], task);
      assert tasks == tasks[..last] + [tasks[last]];
      if task == tasks[last] {
        assert task !in tasks[..last];
      }
    }
  }

  lemma AtOnePlace(s: State, hand: seq<Task>, task: Task)
    requires Numbered(s.submitted) && Balance(s, hand)
    ensures (Everything(s) + multiset(hand))[task] <= 1
  {
    NumberedOnce(s.submitted, task);
  }

  lemma NotBoth(s: State, task: Task)
    requires Numbered(s.submitted) && Balance(s, [])
    ensures task in s.running ==> task !in s.pending
  {
    AtOnePlace(s, [], task);
    assert multiset(s.pending)[task] + multiset(s.running)[task] <= Everything(s)[task];
  }

  lemma Removal(tasks: seq<Task>, task: Task)
    requires task in tasks
    ensures multiset(tasks) == multiset(Remove(tasks, task)) + multiset{task}
  {
  }

  lemma MoveFirst(a: multiset<Task>, b: multiset<Task>, c: multiset<Task>, d: multiset<Task>, e: multiset<Task>, x: multiset<Task>)
    ensures (a + x) + b + c + d + e == a + b + c + d + (e + x)
  {
  }

  lemma MoveSecond(a: multiset<Task>, b: multiset<Task>, c: multiset<Task>, d: multiset<Task>, e: multiset<Task>, x: multiset<Task>)
    ensures a + (b + x) + c + d + e == a + b + c + d + (e + x)
  {
  }

  lemma CancelBalance(s: State, task: Task)
    requires Numbered(s.submitted) && Balance(s, [])
    ensures Balance(QueueCancel(s, task), [])
  {
    NotBoth(s, task);
    OneMore(s.dropped, task);
    var p, r := Remove(s.pending, task), Remove(s.running, task);
    var d, c, x := multiset(s.deferred), multiset(s.called), multiset(s.dropped);
    if task in s.pending {
      Removal(s.pending, task);
      assert r == s.running;
    } else if task in s.running {
      Removal(s.running, task);
      assert p == s.pending;
    }
    MoveFirst(multiset(p), multiset(r), d, c, x, multiset{task});
    MoveSecond(multiset(p), multiset(r), d, c, x, multiset{task});
    hide Numbered, Remove;
    if task in s.pending || task in s.running {
      assert Everything(QueueCancel(s, task)) == multiset(p) + multiset(r) + d + c + multiset(s.dropped + [task]);
    }
  }

  lemma OneMore(tasks: seq<Task>, task: Task)
    ensures multiset(tasks + [task]) == multiset(tasks) + multiset{task}
  {
  }

  lemma JoinFirst(a: multiset<Task>, b: multiset<Task>, c: multiset<Task>, d: multiset<Task>, e: multiset<Task>, x: multiset<Task>)
    ensures a + x + b + c + d + e == a + b + c + d + e + x
  {
  }

  lemma JoinThird(a: multiset<Task>, b: multiset<Task>, c: multiset<Task>, d: multiset<Task>, e: multiset<Task>, x: multiset<Task>)
    ensures a + b + (c + x) + d + e == a + b + c + d + e + x
  {
  }

  lemma SubmitBalance(s: State, request: Request)
    requires Balance(s, [])
    ensures Balance(QueueSubmit(s, request), [])
  {
    var task := Task(|s.submitted|, request);
    OneMore(s.submitted, task);
    OneMore(s.pending, task);
    OneMore(s.deferred, task);
    var p, r, d, c, x := multiset(s.pending), multiset(s.running), multiset(s.deferred), multiset(s.called), multiset(s.dropped);
    JoinFirst(p, r, d, c, x, multiset{task});
    JoinThird(p, r, d, c, x, multiset{task});
    hide Ignored;
    assert p + r + d + c + x == multiset(s.submitted);
  }

  lemma ConcludeShape(s: State, task: Task)
    requires task in s.running && task !in s.pending
    ensures Conclude(s, task) == Settle(s.(running := Remove(s.running, task)), task)
    ensures multiset(s.running) == multiset(Remove(s.running, task)) + multiset{task}
  {
    assert Remove(s.pending, task) == s.pending;
  }

  lemma ConcludeBalance(s: State, task: Task)
    requires Balance(s, []) && task in s.running && task !in s.pending
    ensures Balance(Conclude(s, task), [])
  {
    ConcludeShape(s, task);
    OneMore(s.dropped, task);
    OneMore(s.called, task);
    hide Remove, Conclude;
  }

  lemma AscendingAppend(tasks: seq<Task>, bound: nat, task: Task)
    requires Ascending(tasks, bound) && task.id == bound
    ensures Ascending(tasks + [task], bound + 1)
  {
  }

  lemma AscendingWider(tasks: seq<Task>, bound: nat, wider: nat)
    requires Ascending(tasks, bound) && bound <= wider
    ensures Ascending(tasks, wider)
  {
  }

  lemma {:induction false} AscendingRemove(front: seq<Task>, tasks: seq<Task>, task: Task, bound: nat)
    requires Ascending(front + tasks, bound)
    ensures Ascending(front + Remove(tasks, task), bound)
    decreases |tasks|
  {
    if tasks != [] {
      assert front + tasks == front + [tasks[0]] + tasks[1..];
      if tasks[0] == task {
        AscendingSkip(front, tasks[0], tasks[1..], bound);
      } else {
        AscendingRemove(front + [tasks[0]], tasks[1..], task, bound);
        assert front + Remove(tasks, task) == front + [tasks[0]] + Remove(tasks[1..], task);
      }
    }
  }

  lemma AscendingSkip(front: seq<Task>, task: Task, rest: seq<Task>, bound: nat)
    requires Ascending(front + [task] + rest, bound)
    ensures Ascending(front + rest, bound)
  {
    var all, some := front + [task] + rest, front + rest;
    forall i | 0 <= i < |some| ensures some[i] == all[if i < |front| then i else i + 1] {}
  }

  // --- Editing the queue keeps them -----------------------------------------------------

  lemma QueueSubmitKeepsCore(s: State, request: Request)
    requires Core(s, [])
    ensures Core(QueueSubmit(s, request), [])
  {
    var t, task := QueueSubmit(s, request), Task(|s.submitted|, request);
    if !Ignored(s, request) {
      assert Fifo(t, []) by {
        assert s.started + [] + s.pending == s.started + s.pending;
        if |s.pending| >= s.queueLimit {
          AscendingWider(s.started + [] + s.pending, |s.submitted|, |t.submitted|);
        } else {
          AscendingAppend(s.started + s.pending, |s.submitted|, task);
          assert t.started + [] + t.pending == s.started + s.pending + [task];
        }
      }
      SubmitBalance(s, request);
      hide Balance, Fifo, DropsExcused;
    }
  }

  lemma CancelFifo(s: State, task: Task)
    requires Fifo(s, [])
    ensures Fifo(QueueCancel(s, task), [])
  {
    var pending := Remove(s.pending, task);
    assert s.started + [] == s.started;
    hide Ascending;
    assert Ascending(s.started + s.pending, |s.submitted|);
    AscendingRemove(s.started, s.pending, task, |s.submitted|);
    hide Remove;
    assert Ascending(s.started + [] + pending, |s.submitted|);
  }

  lemma QueueCancelKeepsCore(s: State, task: Task)
    requires Core(s, []) && task.request.context in s.dead
    ensures Core(QueueCancel(s, task), [])
  {
    CancelFifo(s, task);
    CancelBalance(s, task);
    hide Balance, Fifo, Numbered;
  }

  lemma {:induction false} QueueCancelAllKeepsCore(s: State, tasks: seq<Task>)
    requires Core(s, []) && forall t :: t in tasks ==> t.request.context in s.dead
    ensures Core(QueueCancelAll(s, tasks), [])
    decreases |tasks|
  {
    if tasks != [] {
      QueueCancelKeepsCore(s, tasks[0]);
      hide Core;
      QueueCancelAllKeepsCore(QueueCancel(s, tasks[0]), tasks[1..]);
    }
  }

  lemma BuryKeepsCore(s: State, context: nat)
    requires Core(s, [])
    ensures Core(Bury(s, context), [])
  {
    var t := Bury(s, context);
    ContextSplits(s.deferred, context);
    assert Balance(t, []) && Fifo(t, []) && DropsExcused(t);
    hide Balance, Fifo, Numbered, DropsExcused;
  }

  lemma QueueActKeepsCore(s: State, action: Action)
    requires Core(s, [])
    ensures Core(QueueAct(s, action), [])
  {
    match action {
      case Resubmit(request) => QueueSubmitKeepsCore(s, request);
      case Destroy(context) =>
        BuryKeepsCore(s, context);
        hide Core;
        if context != 0 && context !in s.dead {
          ContextSplits(s.running + s.pending, context);
          QueueCancelAllKeepsCore(Bury(s, context), Doomed(s, context));
        }
    }
  }

  lemma {:induction false} QueueExecuteKeepsCore(s: State, script: Script)
    requires Core(s, [])
    ensures Core(QueueExecute(s, script), [])
    decreases script
  {
    hide Core;
    if script.Then? {
      QueueActKeepsCore(s, script.action);
      QueueExecuteKeepsCore(QueueAct(s, script.action), script.rest);
    }
  }

  // --- So does the pump -----------------------------------------------------------------

  lemma HasCallback(s: State, task: Task)
    requires Numbered(s.submitted) && Balance(s, []) && task in Everything(s)
    ensures task in s.submitted && task.request.done.Do?
  {
    assert task in multiset(s.submitted);
  }

  lemma ConcludeKeepsCore(s: State, task: Task)
    requires Core(s, []) && task in s.running && !s.shuttingDown
    ensures Core(Conclude(s, task), [])
  {
    assert Numbered(s.submitted) && Balance(s, []) && Fifo(s, []) && DropsExcused(s) && WithinLimits(s);
    HasCallback(s, task);
    NotBoth(s, task);
    ConcludeBalance(s, task);
    ConcludeShape(s, task);
    hide Balance, Numbered, Conclude, Remove, Ascending;
    ConcludeRest(s, task);
  }

  lemma ConcludeRest(s: State, task: Task)
    requires Fifo(s, []) && DropsExcused(s) && WithinLimits(s) && task.request.done.Do? && !s.shuttingDown
    requires task in s.running
    ensures var t := Settle(s.(running := Remove(s.running, task)), task); Fifo(t, []) && DropsExcused(t) && WithinLimits(t)
  {
    hide Ascending;
  }

  lemma LaunchKeepsCore(s: State, task: Task)
    requires Core(s, [task]) && |s.running| < s.maxConcurrency && !s.shuttingDown
    ensures Core(s.(running := s.running + [task], started := s.started + [task]), [])
  {
    var t := s.(running := s.running + [task], started := s.started + [task]);
    assert t.started + [] + t.pending == s.started + [task] + s.pending;
    assert Balance(t, []) && Fifo(t, []) && DropsExcused(t) && WithinLimits(t);
    hide Balance, Fifo, Numbered, DropsExcused, WithinLimits;
  }

  lemma SetAsideKeepsCore(s: State, task: Task)
    requires Core(s, [task])
    ensures Core(s.(deferred := s.deferred + [task]), [])
    ensures task.request.context in s.dead ==> Core(s.(dropped := s.dropped + [task]), [])
  {
    AscendingSkip(s.started, task, s.pending, |s.submitted|);
    assert s.started + [] + s.pending == s.started + s.pending;
    var t := s.(deferred := s.deferred + [task]);
    assert Balance(t, []) && Fifo(t, []) && DropsExcused(t);
    var u := s.(dropped := s.dropped + [task]);
    assert Balance(u, []) && Fifo(u, []);
    hide Balance, Fifo, Numbered;
  }

  lemma StartTaskKeepsCore(s: State, task: Task)
    requires Core(s, [task]) && |s.running| < s.maxConcurrency && !s.shuttingDown
    ensures Core(StartTask(s, task), [])
  {
    LaunchKeepsCore(s, task);
    SetAsideKeepsCore(s, task);
    hide Core;
    if task.request.context !in s.dead && task.request.launch == FailsToStart {
      var launched := s.(running := s.running + [task], started := s.started + [task]);
      ConcludeKeepsCore(launched, task);
      QueueExecuteKeepsCore(Conclude(launched, task), Reaction(launched, task));
    }
  }

  lemma TakeInHand(s: State)
    requires Core(s, []) && s.pending != []
    ensures Core(s.(pending := s.pending[1..]), [s.pending[0]])
  {
    var t := s.(pending := s.pending[1..]);
    assert s.pending == [s.pending[0]] + t.pending;
    assert Balance(t, [s.pending[0]]);
    assert Fifo(t, [s.pending[0]]) by {
      assert s.started + [] + s.pending == t.started + [s.pending[0]] + t.pending;
    }
    hide Balance, Fifo, Numbered;
  }

  /** What one turn of the pump does. */
  function Turn(s: State): State
    requires s.pending != []
  {
    StartTask(s.(pending := s.pending[1..]), s.pending[0])
  }

  predicate Idle(s: State) {
    s.pending != [] && |s.running| < s.maxConcurrency
  }

  lemma TurnKeepsCore(s: State)
    requires Core(s, []) && Idle(s) && !s.shuttingDown
    ensures Core(Turn(s), [])
  {
    TakeInHand(s);
    hide Core;
    StartTaskKeepsCore(s.(pending := s.pending[1..]), s.pending[0]);
  }

  /** Editing the queue does not stop the scheduler, start tasks, call back or change its limits. */
  ghost predicate SameWorkers(s: State, t: State) {
    && t.shuttingDown == s.shuttingDown && t.maxConcurrency == s.maxConcurrency && t.queueLimit == s.queueLimit
    && t.started == s.started && t.called == s.called && s.dead <= t.dead
  }

  lemma {:induction false} QueueCancelAllSame(s: State, tasks: seq<Task>)
    ensures SameWorkers(s, QueueCancelAll(s, tasks))
    decreases |tasks|
  {
    if tasks != [] {
      QueueCancelAllSame(QueueCancel(s, tasks[0]), tasks[1..]);
    }
  }

  lemma {:induction false} QueueExecuteSame(s: State, script: Script)
    ensures SameWorkers(s, QueueExecute(s, script))
    decreases script
  {
    if script.Then? {
      if script.action.Destroy? {
        QueueCancelAllSame(Bury(s, script.action.context), Doomed(s, script.action.context));
      }
      QueueExecuteSame(QueueAct(s, script.action), script.rest);
    }
  }

  function FailedToStart(tasks: seq<Task>): seq<Task> {
    if tasks == [] then []
    else (if tasks[0].request.launch == FailsToStart then [tasks[0]] else []) + FailedToStart(tasks[1..])
  }

  lemma {:induction false} FailedConcat(a: seq<Task>, b: seq<Task>)
    ensures FailedToStart(a + b) == FailedToStart(a) + FailedToStart(b)
  {
    if a == [] {
      assert a + b == b;
    } else {
      var first := if a[0].request.launch == FailsToStart then [a[0]] else [];
      assert (a + b)[1..] == a[1..] + b;
      assert FailedToStart(a + b) == first + FailedToStart(a[1..] + b) && FailedToStart(a) == first + FailedToStart(a[1..]);
      FailedConcat(a[1..], b);
      hide FailedToStart;
      assert first + (FailedToStart(a[1..]) + FailedToStart(b)) == (first + FailedToStart(a[1..])) + FailedToStart(b);
    }
  }

  /** t comes from s by starting `more` tasks and calling back exactly those of them that failed to start. */
  ghost predicate Launched(s: State, t: State, more: seq<Task>) {
    && t.shuttingDown == s.shuttingDown && t.maxConcurrency == s.maxConcurrency && t.queueLimit == s.queueLimit
    && t.started == s.started + more && t.called == s.called + FailedToStart(more) && s.dead <= t.dead
  }

  lemma StartTaskLaunches(s: State, task: Task) returns (more: seq<Task>)
    requires task.request.done.Do?
    ensures Launched(s, StartTask(s, task), more)
  {
    more := [];
    if task.request.context !in s.dead && task.request.launch != NoTempFile {
      more := [task];
      assert FailedToStart([task]) == if task.request.launch == FailsToStart then [task] else [];
      var launched := s.(running := s.running + [task], started := s.started + [task]);
      QueueExecuteSame(Conclude(launched, task), Reaction(launched, task));
      hide QueueExecute, FailedToStart, Remove;
    }
  }

  lemma TurnLaunches(s: State) returns (more: seq<Task>)
    requires Core(s, []) && Idle(s)
    ensures Launched(s, Turn(s), more)
  {
    HasCallback(s, s.pending[0]);
    hide Core, StartTask, FailedToStart;
    more := StartTaskLaunches(s.(pending := s.pending[1..]), s.pending[0]);
  }

  lemma LaunchedTwice(s: State, t: State, u: State, first: seq<Task>, later: seq<Task>)
    requires Launched(s, t, first) && Launched(t, u, later)
    ensures Launched(s, u, first + later)
  {
    FailedConcat(first, later);
  }

  lemma PumpTurns(s: State)
    ensures if Idle(s) then Pump(s) == Pump(Turn(s)) && Work(Turn(s).pending) < Work(s.pending) else Pump(s) == s
  {
    if Idle(s) {
      StartTaskWork(s.(pending := s.pending[1..]), s.pending[0]);
    }
  }

  lemma {:induction false} PumpKeepsCore(s: State) returns (more: seq<Task>)
    requires Core(s, []) && !s.shuttingDown
    ensures Core(Pump(s), []) && !Idle(Pump(s)) && Launched(s, Pump(s), more)
    decreases Work(s.pending)
  {
    PumpTurns(s);
    if Idle(s) {
      var first := TurnLaunches(s);
      TurnKeepsCore(s);
      assert !Turn(s).shuttingDown;
      hide *;
      var later := PumpKeepsCore(Turn(s));
      LaunchedTwice(s, Turn(s), Pump(s), first, later);
      more := first + later;
    } else {
      more := [];
      assert Launched(s, s, []);
    }
  }

  lemma StartNextKeepsCore(s: State) returns (more: seq<Task>)
    requires Core(s, [])
    ensures Core(StartNext(s), []) && Busy(StartNext(s)) && Launched(s, StartNext(s), more)
  {
    more := [];
    if !s.shuttingDown {
      more := PumpKeepsCore(s);
    }
  }

  // --- And every operation ----------------------------------------------------------------

  /** Limits hold, nothing is lost or doubled, starts are in order, no slot is idle while tasks wait. */
  ghost predicate Sound(s: State) {
    Core(s, []) && Busy(s)
  }

  lemma QueueSubmitSame(s: State, request: Request)
    ensures SameWorkers(s, QueueSubmit(s, request)) && QueueSubmit(s, request).running == s.running
    ensures Ignored(s, request) || |s.pending| >= s.queueLimit ==> QueueSubmit(s, request).pending == s.pending
  {
  }

  lemma LaunchedAfter(s: State, q: State, t: State, more: seq<Task>)
    requires SameWorkers(s, q) && Launched(q, t, more)
    ensures Launched(s, t, more)
  {
  }

  lemma SubmitKeeps(s: State, request: Request) returns (more: seq<Task>)
    requires Core(s, [])
    ensures Core(Submit(s, request), []) && (Busy(s) ==> Busy(Submit(s, request)))
    ensures Launched(s, Submit(s, request), more)
  {
    var q := QueueSubmit(s, request);
    QueueSubmitKeepsCore(s, request);
    QueueSubmitSame(s, request);
    assert Launched(q, q, []);
    assert Busy(s) && q.pending == s.pending ==> Busy(q);
    hide Core, StartNext, QueueSubmit, Launched, SameWorkers, Busy, Ignored;
    if Ignored(s, request) || |s.pending| >= s.queueLimit {
      more := [];
      LaunchedAfter(s, q, q, []);
    } else {
      more := StartNextKeepsCore(q);
      LaunchedAfter(s, q, StartNext(q), more);
    }
  }

  lemma CancelKeeps(s: State, task: Task)
    requires Core(s, []) && task.request.context in s.dead
    ensures Core(Cancel(s, task), []) && (Busy(s) ==> Busy(Cancel(s, task)))
    ensures s.dead <= Cancel(s, task).dead
  {
    QueueCancelKeepsCore(s, task);
    hide Core;
    if task in s.running {
      var _ := StartNextKeepsCore(QueueCancel(s, task));
    }
  }

  lemma {:induction false} CancelAllKeeps(s: State, tasks: seq<Task>)
    requires Core(s, []) && forall t :: t in tasks ==> t.request.context in s.dead
    ensures Core(CancelAll(s, tasks), []) && (Busy(s) ==> Busy(CancelAll(s, tasks)))
    decreases |tasks|
  {
    if tasks != [] {
      CancelKeeps(s, tasks[0]);
      hide Core, Busy, Cancel;
      CancelAllKeeps(Cancel(s, tasks[0]), tasks[1..]);
    }
  }

  lemma ActKeeps(s: State, action: Action)
    requires Core(s, [])
    ensures Core(Act(s, action), []) && (Busy(s) ==> Busy(Act(s, action)))
  {
    match action {
      case Resubmit(request) => var _ := SubmitKeeps(s, request);
      case Destroy(context) =>
        BuryKeepsCore(s, context);
        hide Core;
        if context != 0 && context !in s.dead {
          ContextSplits(s.running + s.pending, context);
          CancelAllKeeps(Bury(s, context), Doomed(s, context));
        }
    }
  }

  lemma {:induction false} ExecuteKeeps(s: State, script: Script)
    requires Core(s, [])
    ensures Core(Execute(s, script), []) && (Busy(s) ==> Busy(Execute(s, script)))
    decreases script
  {
    hide Core, Busy, Act;
    if script.Then? {
      ActKeeps(s, script.action);
      ExecuteKeeps(Act(s, script.action), script.rest);
    }
  }

  lemma FinishKeeps(s: State, task: Task)
    requires Core(s, []) && task in s.running
    ensures Sound(Finish(s, task))
  {
    assert !s.shuttingDown;
    ConcludeKeepsCore(s, task);
    ExecuteKeeps(Conclude(s, task), Reaction(s, task));
    var _ := StartNextKeepsCore(Execute(Conclude(s, task), Reaction(s, task)));
  }

  lemma DeliverBalance(s: State, task: Task)
    requires Balance(s, []) && task in s.deferred
    ensures Balance(Settle(s.(deferred := Remove(s.deferred, task)), task), [])
  {
    var deferred := Remove(s.deferred, task);
    assert multiset(s.deferred) == multiset(deferred) + multiset{task};
    OneMore(s.called, task);
    OneMore(s.dropped, task);
    hide Remove;
  }

  lemma SettleKeeps(s: State, t: State, task: Task)
    requires Sound(s) && task.request.done.Do? && t == s.(deferred := t.deferred)
    requires Balance(Settle(t, task), [])
    ensures Sound(Settle(t, task))
  {
    var u := Settle(t, task);
    hide Balance, Numbered, Ascending;
    assert Fifo(u, []) && DropsExcused(u) && WithinLimits(u) && Busy(u);
  }

  lemma DeliverKeeps(s: State, task: Task)
    requires Sound(s) && task in s.deferred
    ensures Sound(Deliver(s, task))
  {
    HasCallback(s, task);
    DeliverBalance(s, task);
    var t := s.(deferred := Remove(s.deferred, task));
    SettleKeeps(s, t, task);
    hide Core, Busy, Settle, Execute, Remove, Reaction;
    ExecuteKeeps(Settle(t, task), Reaction(s, task));
  }

  lemma ShutdownKeeps(s: State)
    requires Sound(s)
    ensures Sound(Shutdown(s))
  {
    var t := Shutdown(s);
    if !s.shuttingDown {
      assert Balance(t, []);
      assert Fifo(t, []) by {
        var all := s.started + [] + s.pending;
        assert t.started + [] + t.pending == all[..|s.started|];
      }
      hide Balance, Fifo, Numbered;
    }
  }

  lemma NextKeeps(s: State, event: Event)
    requires Sound(s)
    ensures Sound(Next(s, event))
  {
    hide Core, Busy, Act, Finish, Deliver, Shutdown;
    match event {
      case Call(action) => ActKeeps(s, action);
      case Ends(index) => if index < |s.running| { FinishKeeps(s, s.running[index]); }
      case Posted(index) => if index < |s.deferred| { DeliverKeeps(s, s.deferred[index]); }
      case Quit => ShutdownKeeps(s);
    }
  }

  ghost predicate SameLimits(s: State, t: State) {
    t.maxConcurrency == s.maxConcurrency && t.queueLimit == s.queueLimit
  }

  lemma TurnKeepsLimits(s: State)
    requires Idle(s)
    ensures SameLimits(s, Turn(s))
  {
    var task, rest := s.pending[0], s.(pending := s.pending[1..]);
    var launched := rest.(running := s.running + [task], started := s.started + [task]);
    QueueExecuteSame(Conclude(launched, task), Reaction(launched, task));
    hide QueueExecute, Remove;
  }

  lemma {:induction false} PumpKeepsLimits(s: State)
    ensures SameLimits(s, Pump(s))
    decreases Work(s.pending)
  {
    PumpTurns(s);
    if Idle(s) {
      TurnKeepsLimits(s);
      hide Pump, Turn, Work;
      PumpKeepsLimits(Turn(s));
    }
  }

  lemma {:induction false} CancelAllKeepsLimits(s: State, tasks: seq<Task>)
    ensures SameLimits(s, CancelAll(s, tasks))
    decreases |tasks|
  {
    if tasks != [] {
      PumpKeepsLimits(QueueCancel(s, tasks[0]));
      hide Pump;
      CancelAllKeepsLimits(Cancel(s, tasks[0]), tasks[1..]);
    }
  }

  lemma {:induction false} ExecuteKeepsLimits(s: State, script: Script)
    ensures SameLimits(s, Execute(s, script))
    decreases script
  {
    hide Pump, CancelAll;
    if script.Then? {
      match script.action {
        case Resubmit(request) => PumpKeepsLimits(QueueSubmit(s, request));
        case Destroy(context) => CancelAllKeepsLimits(Bury(s, context), Doomed(s, context));
      }
      ExecuteKeepsLimits(Act(s, script.action), script.rest);
    }
  }

  lemma NextKeepsLimits(s: State, event: Event)
    ensures SameLimits(s, Next(s, event))
  {
    hide Pump, Remove;
    match event {
      case Call(action) => ExecuteKeepsLimits(s, Then(action, End));
      case Ends(index) =>
        if index < |s.running| {
          var task := s.running[index];
          ExecuteKeepsLimits(Conclude(s, task), Reaction(s, task));
          PumpKeepsLimits(Execute(Conclude(s, task), Reaction(s, task)));
        }
      case Posted(index) =>
        if index < |s.deferred| {
          var task := s.deferred[index];
          ExecuteKeepsLimits(Settle(s.(deferred := Remove(s.deferred, task)), task), Reaction(s, task));
        }
      case Quit =>
    }
  }

  /** In every run, for every script of re-entrant callbacks and every outcome of starting a process, the
      invariants hold between events, with the limits given at the beginning. */
  lemma {:induction false} EveryRunIsSound(maxConcurrency: nat, queueLimit: nat, events: seq<Event>)
    ensures var s := Run(Fresh(maxConcurrency, queueLimit), events);
            Sound(s) && |s.running| <= maxConcurrency == s.maxConcurrency && |s.pending| <= queueLimit
    decreases |events|
  {
    SoundWithLimits(maxConcurrency, queueLimit, events);
    assert WithinLimits(Run(Fresh(maxConcurrency, queueLimit), events));
  }

  lemma {:induction false} SoundWithLimits(maxConcurrency: nat, queueLimit: nat, events: seq<Event>)
    ensures var s := Run(Fresh(maxConcurrency, queueLimit), events);
            Sound(s) && SameLimits(Fresh(maxConcurrency, queueLimit), s)
    decreases |events|
  {
    if events == [] {
      var s := Fresh(maxConcurrency, queueLimit);
      assert Balance(s, []) && Fifo(s, []);
    } else {
      SoundWithLimits(maxConcurrency, queueLimit, events[..|events| - 1]);
      NextKeepsLimits(Run(Fresh(maxConcurrency, queueLimit), events[..|events| - 1]), events[|events| - 1]);
      NextKeeps(Run(Fresh(maxConcurrency, queueLimit), events[..|events| - 1]), events[|events| - 1]);
    }
  }

  // --- What the callers get ---------------------------------------------------------------

  lemma CalledOnce(s: State, task: Task)
    requires Sound(s) && task in s.called
    ensures multiset(s.called)[task] == 1
    ensures task !in s.pending && task !in s.running && task !in s.deferred && task !in s.dropped
  {
    AtOnePlace(s, [], task);
    assert multiset(s.pending)[task] + multiset(s.running)[task] + multiset(s.deferred)[task]
         + multiset(s.called)[task] + multiset(s.dropped)[task] == Everything(s)[task];
    assert multiset(s.called)[task] >= 1;
  }

  lemma NotStuck(s: State, task: Task)
    requires Sound(s) && s.maxConcurrency >= 1 && !s.shuttingDown && task in s.submitted
    ensures s.pending != [] ==> s.running != []
    ensures s.running == [] && s.deferred == [] && task.request.context !in s.dead ==> multiset(s.called)[task] == 1
  {
    assert task in multiset(s.submitted);
    if s.running == [] && s.deferred == [] && task.request.context !in s.dead {
      assert s.pending == [];
      assert task !in s.dropped;
      assert task in Everything(s);
      CalledOnce(s, task);
    }
  }

  lemma StartsInOrder(s: State)
    requires Sound(s)
    ensures forall i, j :: 0 <= i < j < |s.started| ==> s.started[i].id < s.started[j].id
    ensures forall x, y :: x in s.started && y in s.pending ==> x.id < y.id
  {
    var all := s.started + [] + s.pending;
    forall x, y | x in s.started && y in s.pending ensures x.id < y.id {
      var i :| 0 <= i < |s.started| && s.started[i] == x;
      var j :| 0 <= j < |s.pending| && s.pending[j] == y;
      assert all[i] == x && all[|s.started| + j] == y;
    }
    forall i, j | 0 <= i < j < |s.started| ensures s.started[i].id < s.started[j].id {
      assert all[i] == s.started[i] && all[j] == s.started[j];
    }
  }

  /** In every run: no callback is made twice, nor for a task that is still waiting, running or dropped. */
  lemma CalledAtMostOnce(maxConcurrency: nat, queueLimit: nat, events: seq<Event>, task: Task)
    requires task in Run(Fresh(maxConcurrency, queueLimit), events).called
    ensures var s := Run(Fresh(maxConcurrency, queueLimit), events);
            && multiset(s.called)[task] == 1
            && task !in s.pending && task !in s.running && task !in s.deferred && task !in s.dropped
  {
    EveryRunIsSound(maxConcurrency, queueLimit, events);
    CalledOnce(Run(Fresh(maxConcurrency, queueLimit), events), task);
  }

  /** In every run: while a task waits there is a process running whose end will be noticed; and when nothing is
      running or posted, every task was called back exactly once, unless its context died or the scheduler shut down. */
  lemma NeverStuck(maxConcurrency: nat, queueLimit: nat, events: seq<Event>, task: Task)
    requires maxConcurrency >= 1 && !Run(Fresh(maxConcurrency, queueLimit), events).shuttingDown
    requires task in Run(Fresh(maxConcurrency, queueLimit), events).submitted
    ensures var s := Run(Fresh(maxConcurrency, queueLimit), events);
            && (s.pending != [] ==> s.running != [])
            && (s.running == [] && s.deferred == [] && task.request.context !in s.dead ==> multiset(s.called)[task] == 1)
  {
    EveryRunIsSound(maxConcurrency, queueLimit, events);
    NotStuck(Run(Fresh(maxConcurrency, queueLimit), events), task);
  }

  /** In every run processes start in the order in which their tasks were accepted. */
  lemma StartsAreFifo(maxConcurrency: nat, queueLimit: nat, events: seq<Event>)
    ensures var s := Run(Fresh(maxConcurrency, queueLimit), events);
            && (forall i, j :: 0 <= i < j < |s.started| ==> s.started[i].id < s.started[j].id)
            && (forall x, y :: x in s.started && y in s.pending ==> x.id < y.id)
  {
    EveryRunIsSound(maxConcurrency, queueLimit, events);
    StartsInOrder(Run(Fresh(maxConcurrency, queueLimit), events));
  }

  // --- Work left --------------------------------------------------------------------

  /** Every task not yet settled counts for itself and for all that its callback may submit in turn. */
  function Load(s: State): nat {
    Work(s.pending) + Work(s.running) + Work(s.deferred)
  }

  lemma {:induction false} RemoveWork(tasks: seq<Task>, task: Task)
    ensures Work(Remove(tasks, task)) + (if task in tasks then Weight(task.request) else 0) == Work(tasks)
  {
    if tasks != [] {
      if tasks[0] == task {
        assert Remove(tasks, task) == tasks[1..];
      } else {
        RemoveWork(tasks[1..], task);
        assert Remove(tasks, task)[1..] == Remove(tasks[1..], task);
      }
    }
  }

  lemma {:induction false} NotOfContextWork(tasks: seq<Task>, context: nat)
    ensures Work(NotOfContext(tasks, context)) <= Work(tasks)
  {
    if tasks != [] {
      NotOfContextWork(tasks[1..], context);
      var rest := NotOfContext(tasks[1..], context);
      if tasks[0].request.context != context {
        assert ([tasks[0]] + rest)[1..] == rest;
      } else {
        assert [] + rest == rest;
      }
    }
  }

  lemma OneMoreWork(tasks: seq<Task>, task: Task)
    ensures Work(tasks + [task]) == Work(tasks) + Weight(task.request)
  {
    WorkConcat(tasks, [task]);
    assert Work([task]) == Weight(task.request) + Work([]);
  }

  lemma QueueSubmitLoad(s: State, request: Request)
    ensures Load(QueueSubmit(s, request)) <= Load(s) + Weight(request)
  {
    OneMoreWork(s.pending, Task(|s.submitted|, request));
    OneMoreWork(s.deferred, Task(|s.submitted|, request));
    hide Work, Weight, Ignored;
  }

  lemma QueueCancelLoad(s: State, task: Task)
    ensures Load(QueueCancel(s, task)) <= Load(s)
  {
    hide Work;
  }

  lemma {:induction false} QueueCancelAllLoad(s: State, tasks: seq<Task>)
    ensures Load(QueueCancelAll(s, tasks)) <= Load(s)
    decreases |tasks|
  {
    if tasks != [] {
      QueueCancelLoad(s, tasks[0]);
      hide Load, QueueCancel;
      QueueCancelAllLoad(QueueCancel(s, tasks[0]), tasks[1..]);
    }
  }

  lemma BuryLoad(s: State, context: nat)
    ensures Load(Bury(s, context)) <= Load(s)
  {
    NotOfContextWork(s.deferred, context);
    hide Work, NotOfContext;
  }

  lemma {:induction false} QueueExecuteLoad(s: State, script: Script)
    ensures Load(QueueExecute(s, script)) <= Load(s) + Resubmissions(script)
    decreases script
  {
    if script.Then? {
      match script.action {
        case Resubmit(request) => QueueSubmitLoad(s, request);
        case Destroy(context) =>
          BuryLoad(s, context);
          QueueCancelAllLoad(Bury(s, context), Doomed(s, context));
      }
      hide Load, QueueSubmit, QueueCancelAll, Bury;
      QueueExecuteLoad(QueueAct(s, script.action), script.rest);
    }
  }

  lemma SettleLoad(s: State, task: Task)
    ensures Load(Settle(s, task)) == Load(s) && Resubmissions(Reaction(s, task)) < Weight(task.request)
  {
  }

  lemma PlacedLoad(s: State, task: Task)
    ensures Load(s.(running := s.running + [task], started := s.started + [task])) == Load(s) + Weight(task.request)
    ensures Load(s.(deferred := s.deferred + [task])) == Load(s) + Weight(task.request)
    ensures Load(s.(dropped := s.dropped + [task])) == Load(s)
  {
    OneMoreWork(s.running, task);
    OneMoreWork(s.deferred, task);
    hide Work, Weight;
  }

  lemma FailedStartLoad(s: State, task: Task)
    requires task in s.running
    ensures Load(QueueExecute(Conclude(s, task), Reaction(s, task))) <= Load(s)
  {
    hide *;
    ConcludeLoad(s, task);
    SettleLoad(s, task);
    QueueExecuteLoad(Conclude(s, task), Reaction(s, task));
  }

  lemma StartTaskLoad(s: State, task: Task)
    ensures Load(StartTask(s, task)) <= Load(s) + Weight(task.request)
  {
    hide Load, Weight, QueueExecute, Conclude, Reaction;
    PlacedLoad(s, task);
    FailedStartLoad(s.(running := s.running + [task], started := s.started + [task]), task);
  }

  /** Concluding a running task takes its own weight away. */
  lemma ConcludeLoad(s: State, task: Task)
    requires task in s.running
    ensures Load(Conclude(s, task)) + Weight(task.request) <= Load(s)
  {
    RemoveWork(s.pending, task);
    RemoveWork(s.running, task);
    hide Work, Remove;
  }

  lemma TurnLoad(s: State)
    requires Idle(s)
    ensures Load(Turn(s)) <= Load(s)
  {
    var task, rest := s.pending[0], s.(pending := s.pending[1..]);
    assert Work(s.pending) == Weight(task.request) + Work(rest.pending);
    StartTaskLoad(rest, task);
    hide Work, StartTask;
  }

  lemma {:induction false} PumpLoad(s: State)
    ensures Load(Pump(s)) <= Load(s)
    decreases Work(s.pending)
  {
    PumpTurns(s);
    if Idle(s) {
      TurnLoad(s);
      hide Load, Turn, Pump, Work;
      PumpLoad(Turn(s));
    }
  }

  lemma SubmitLoad(s: State, request: Request)
    ensures Load(Submit(s, request)) <= Load(s) + Weight(request)
  {
    QueueSubmitLoad(s, request);
    PumpLoad(QueueSubmit(s, request));
    hide Load, QueueSubmit, Pump, Ignored;
  }

  lemma CancelLoad(s: State, task: Task)
    ensures Load(Cancel(s, task)) <= Load(s)
  {
    QueueCancelLoad(s, task);
    PumpLoad(QueueCancel(s, task));
    hide Load, QueueCancel, Pump;
  }

  lemma {:induction false} CancelAllLoad(s: State, tasks: seq<Task>)
    ensures Load(CancelAll(s, tasks)) <= Load(s)
    decreases |tasks|
  {
    if tasks != [] {
      CancelLoad(s, tasks[0]);
      hide Load, Cancel;
      CancelAllLoad(Cancel(s, tasks[0]), tasks[1..]);
    }
  }

  lemma ActLoad(s: State, action: Action)
    ensures Load(Act(s, action)) <= Load(s) + match action case Resubmit(request) => Weight(request) case Destroy(_) => 0
  {
    match action {
      case Resubmit(request) => SubmitLoad(s, request);
      case Destroy(context) =>
        BuryLoad(s, context);
        CancelAllLoad(Bury(s, context), Doomed(s, context));
    }
    hide Load, Submit, CancelAll, Bury;
  }

  lemma {:induction false} ExecuteLoad(s: State, script: Script)
    ensures Load(Execute(s, script)) <= Load(s) + Resubmissions(script)
    decreases script
  {
    if script.Then? {
      ActLoad(s, script.action);
      hide Load, Act;
      ExecuteLoad(Act(s, script.action), script.rest);
    }
  }

  lemma FinishLoad(s: State, task: Task)
    requires task in s.running
    ensures Load(Finish(s, task)) < Load(s)
  {
    ConcludeLoad(s, task);
    SettleLoad(s, task);
    ExecuteLoad(Conclude(s, task), Reaction(s, task));
    PumpLoad(Execute(Conclude(s, task), Reaction(s, task)));
    hide Load, Conclude, Execute, Pump, Weight, Resubmissions;
  }

  lemma DeliverLoad(s: State, task: Task)
    requires task in s.deferred
    ensures Load(Deliver(s, task)) < Load(s)
  {
    RemoveWork(s.deferred, task);
    var t := s.(deferred := Remove(s.deferred, task));
    SettleLoad(t, task);
    ExecuteLoad(Settle(t, task), Reaction(s, task));
    hide Work, Settle, Execute, Weight, Resubmissions, Remove;
  }

  /** Every end of a process and every delivered failure brings the scheduler closer to having nothing left,
      re-entrant submissions included; nothing but a new request from outside takes it further away. */
  lemma Progress(s: State, event: Event)
    ensures (event.Ends? && event.index < |s.running|) || (event.Posted? && event.index < |s.deferred|) ==>
              Load(Next(s, event)) < Load(s)
    ensures Load(Next(s, event)) <= Load(s) +
              if event.Call? && event.action.Resubmit? then Weight(event.action.request) else 0
  {
    match event {
      case Call(action) => ActLoad(s, action);
      case Ends(index) => if index < |s.running| { FinishLoad(s, s.running[index]); }
      case Posted(index) => if index < |s.deferred| { DeliverLoad(s, s.deferred[index]); }
      case Quit =>
    }
    hide Act, Finish, Deliver, Weight, Work;
  }

  /** The number of ends and deliveries a run can contain. */
  function Requested(events: seq<Event>): nat
    decreases |events|
  {
    if events == [] then 0
    else
      var last := events[|events| - 1];
      Requested(events[..|events| - 1]) + if last.Call? && last.action.Resubmit? then Weight(last.action.request) else 0
  }

  function Completions(s: State, events: seq<Event>): nat
    decreases |events|
  {
    if events == [] then 0
    else
      var before, last := Run(s, events[..|events| - 1]), events[|events| - 1];
      Completions(s, events[..|events| - 1]) +
        if (last.Ends? && last.index < |before.running|) || (last.Posted? && last.index < |before.deferred|) then 1 else 0
  }

  /** In any run the ends of processes and delivered failures never outnumber what the requests from outside ask
      for, so with no further requests the scheduler comes to rest. */
  lemma {:induction false} ComesToRest(maxConcurrency: nat, queueLimit: nat, events: seq<Event>)
    ensures var s := Fresh(maxConcurrency, queueLimit);
            Completions(s, events) + Load(Run(s, events)) <= Requested(events)
    decreases |events|
  {
    if events != [] {
      var s, before := Fresh(maxConcurrency, queueLimit), events[..|events| - 1];
      ComesToRest(maxConcurrency, queueLimit, before);
      Progress(Run(s, before), events[|events| - 1]);
      hide Load, Next, Weight;
    }
  }

  lemma {:induction false} WorkCounts(tasks: seq<Task>)
    ensures Work(tasks) >= |tasks|
  {
    if tasks != [] {
      WorkCounts(tasks[1..]);
    }
  }

  /** No load left means that nothing runs, waits or is posted. */
  lemma AtRest(s: State)
    ensures Load(s) == 0 <==> s.pending == [] && s.running == [] && s.deferred == []
  {
    WorkCounts(s.pending);
    WorkCounts(s.running);
    WorkCounts(s.deferred);
  }

  // --- Calling back inline ------------------------------------------------------------

  /** What a submission starts on the way, and whom it calls back: those that failed to start at once. */
  lemma SubmitLaunches(s: State, request: Request) returns (more: seq<Task>)
    requires Sound(s)
    ensures Submit(s, request).started == s.started + more
    ensures Submit(s, request).called == s.called + FailedToStart(more)
  {
    more := SubmitKeeps(s, request);
  }

  /** There is a free slot, so nothing waits, and the new task's process is started and fails at once. */
  predicate FailsOnTheSpot(s: State, request: Request) {
    && !Ignored(s, request) && !s.shuttingDown
    && |s.pending| < s.queueLimit && |s.running| < s.maxConcurrency
    && request.launch == FailsToStart
  }

  lemma LoneTaskTurn(s: State, request: Request)
    requires Sound(s) && !Ignored(s, request) && !s.shuttingDown
    requires |s.pending| < s.queueLimit && |s.running| < s.maxConcurrency
    ensures var q, task := QueueSubmit(s, request), Task(|s.submitted|, request);
            && q.pending == [task] && Idle(q)
            && (request.launch == FailsToStart ==> Turn(q).called == s.called + [task])
            && (request.launch != FailsToStart ==> Turn(q).called == s.called && Turn(q).pending == [])
  {
    assert s.pending == [];
    var q, task := QueueSubmit(s, request), Task(|s.submitted|, request);
    var launched := q.(pending := [], running := s.running + [task], started := s.started + [task]);
    QueueExecuteSame(Conclude(launched, task), Reaction(launched, task));
    hide Sound, QueueExecute, Remove;
  }

  lemma QuietWhenBusy(s: State, request: Request)
    requires Sound(s) && (Ignored(s, request) || s.shuttingDown || |s.pending| >= s.queueLimit || |s.running| >= s.maxConcurrency)
    ensures Submit(s, request).called == s.called
  {
    var q := QueueSubmit(s, request);
    QueueSubmitSame(s, request);
    assert |s.running| >= s.maxConcurrency ==> Pump(q) == q;
    hide QueueSubmit, Ignored, Pump;
  }

  lemma LoneTaskPump(s: State, request: Request)
    requires Sound(s) && !Ignored(s, request) && !s.shuttingDown
    requires |s.pending| < s.queueLimit && |s.running| < s.maxConcurrency
    ensures Submit(s, request).called != s.called <==> request.launch == FailsToStart
  {
    var q := QueueSubmit(s, request);
    QueueSubmitKeepsCore(s, request);
    QueueSubmitSame(s, request);
    LoneTaskTurn(s, request);
    TurnKeepsCore(q);
    PumpTurns(q);
    assert !Turn(q).shuttingDown by {
      var _ := TurnLaunches(q);
    }
    var later := PumpKeepsCore(Turn(q));
    PumpTurns(Turn(q));
    assert Submit(s, request) == Pump(Turn(q));
    hide Core, QueueSubmit, Turn, Pump, Submit;
    if request.launch == FailsToStart {
      assert |Pump(Turn(q)).called| > |s.called|;
    }
  }

  /** `submit` is meant never to call back inline.  It does so if and only if a slot is free, the queue has room
      and the request's own process fails to start at once. */
  lemma InlineCallbacks(s: State, request: Request)
    requires Sound(s)
    ensures Submit(s, request).called != s.called <==> FailsOnTheSpot(s, request)
  {
    if Ignored(s, request) || s.shuttingDown || |s.pending| >= s.queueLimit || |s.running| >= s.maxConcurrency {
      QuietWhenBusy(s, request);
    } else {
      LoneTaskPump(s, request);
    }
  }

  /** The very first request of a run does it, with limits of one. */
  lemma FirstRequestCallsBackInline(context: nat, script: Script)
    requires context != 0
    ensures var request := Request(context, FailsToStart, Do(script));
            Run(Fresh(1, 1), [Call(Resubmit(request))]).called != []
  {
    var s, request := Fresh(1, 1), Request(context, FailsToStart, Do(script));
    assert FailsOnTheSpot(s, request) && s.called == [];
    hide *;
    EveryRunIsSound(1, 1, []);
    RunOfOne(s, Call(Resubmit(request)));
    CallOfRequest(s, request);
    InlineCallbacks(s, request);
  }

  lemma RunOfOne(s: State, event: Event)
    ensures Run(s, []) == s && Run(s, [event]) == Next(s, event)
  {
    hide Next;
    assert [event][..0] == [];
  }

  lemma CallOfRequest(s: State, request: Request)
    ensures Next(s, Call(Resubmit(request))) == Submit(s, request)
  {
    hide Submit;
  }

  // --- After a shutdown -----------------------------------------------------------------

  ghost predicate Stranded(s: State, task: Task) {
    s.shuttingDown && (task in s.pending || task in s.dropped)
  }

  lemma {:induction false} RemoveOther(tasks: seq<Task>, task: Task, other: Task)
    requires task in tasks && task != other
    ensures task in Remove(tasks, other)
  {
    if tasks[0] != other && tasks[0] != task {
      RemoveOther(tasks[1..], task, other);
    }
  }

  lemma CancelStrands(s: State, task: Task, other: Task)
    requires Stranded(s, task)
    ensures Cancel(s, other) == QueueCancel(s, other) && Stranded(QueueCancel(s, other), task)
  {
    if task in s.pending && task != other {
      RemoveOther(s.pending, task, other);
    }
  }

  lemma {:induction false} CancelAllStrands(s: State, task: Task, tasks: seq<Task>)
    requires Stranded(s, task)
    ensures CancelAll(s, tasks) == QueueCancelAll(s, tasks) && Stranded(CancelAll(s, tasks), task)
    decreases |tasks|
  {
    if tasks != [] {
      CancelStrands(s, task, tasks[0]);
      CancelAllStrands(QueueCancel(s, tasks[0]), task, tasks[1..]);
    }
  }

  lemma ActStrands(s: State, task: Task, action: Action)
    requires Stranded(s, task)
    ensures Stranded(Act(s, action), task)
  {
    if action.Destroy? {
      CancelAllStrands(Bury(s, action.context), task, Doomed(s, action.context));
    }
  }

  lemma {:induction false} ExecuteStrands(s: State, task: Task, script: Script)
    requires Stranded(s, task)
    ensures Stranded(Execute(s, script), task)
    decreases script
  {
    if script.Then? {
      ActStrands(s, task, script.action);
      ExecuteStrands(Act(s, script.action), task, script.rest);
    }
  }

  lemma NextStrands(s: State, task: Task, event: Event)
    requires Stranded(s, task) && Sound(s)
    ensures Stranded(Next(s, event), task)
  {
    match event {
      case Call(action) => ActStrands(s, task, action);
      case Ends(_) =>
      case Posted(index) =>
        if index < |s.deferred| {
          var other := s.deferred[index];
          ExecuteStrands(Settle(s.(deferred := Remove(s.deferred, other)), other), task, Reaction(s, other));
        }
      case Quit =>
    }
  }

  lemma {:induction false} RunStrands(s: State, task: Task, events: seq<Event>)
    requires Stranded(s, task) && Sound(s)
    ensures Stranded(Run(s, events), task) && Sound(Run(s, events))
    decreases |events|
  {
    if events != [] {
      RunStrands(s, task, events[..|events| - 1]);
      NextStrands(Run(s, events[..|events| - 1]), task, events[|events| - 1]);
      NextKeeps(Run(s, events[..|events| - 1]), events[|events| - 1]);
    }
  }

  /** A request after shutdown is answered if and only if the queue is full: then a failure is posted; otherwise
      the task joins a queue that nothing serves any more and is never called back, whatever happens next. */
  lemma SubmitAfterShutdown(s: State, request: Request, events: seq<Event>)
    requires Sound(s) && s.shuttingDown && !Ignored(s, request)
    ensures var task, t := Task(|s.submitted|, request), Submit(s, request);
            && (task in t.deferred <==> |s.pending| >= s.queueLimit)
            && (|s.pending| < s.queueLimit ==> task !in Run(t, events).called)
  {
    var task, t := Task(|s.submitted|, request), Submit(s, request);
    var _ := SubmitKeeps(s, request);
    assert task !in s.deferred by {
      if task in s.deferred {
        HasCallback(s, task);
      }
    }
    if |s.pending| < s.queueLimit {
      assert t.pending[|s.pending|] == task;
      RunStrands(t, task, events);
      if task in Run(t, events).called {
        CalledOnce(Run(t, events), task);
      }
    }
  }
}
