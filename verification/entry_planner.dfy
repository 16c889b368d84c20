/**
 The background entry planner: requests queue up; for the one at the head a worker thread computes a
 proposal from a snapshot, and the event loop commits it only if nothing the proposal depends on has changed.

 A callback is the last thing `finish` does, so whatever it does in turn (submit again, change the
 parking, destroy a context) appears here as later steps of the run.
 */
module EntryPlanner {
  import opened Outcomes
  import opened ParkingSpots

  const QUEUE_LIMIT := 8
  const MAX_RETRIES := 2

  /** `geometry` stands for the fields that never change after construction. */
  datatype Bay = Bay(spot: Spot, geometry: int)

  /** The parking service: spots, allocation settings and their version, and everything else. */
  datatype Service = Service(spots: seq<Bay>, config: int, version: nat, rest: int)

  datatype Search = Broken | Result(proposal: Option<int>)

  /** The service's own operations. */
  datatype Environment = Environment(sweep: (Service, int) -> Service,
                                     active: (Service, string) -> bool,
                                     target: (Service, Vehicle, int) -> (Vehicle, string),
                                     propose: (Vehicle, seq<Bay>, int, string) -> Search,
                                     enter: (Service, Vehicle, int, Option<int>) -> (Service, Option<int>))

  // --- Comparing snapshots --------------------------------------------------------------

  function Visible(bays: seq<Bay>): (r: seq<Spot>)
    ensures |r| == |bays| && forall i :: 0 <= i < |r| ==> r[i] == bays[i].spot
  {
    seq(|bays|, i requires 0 <= i < |bays| => bays[i].spot)
  }

  /** Equal in every field that can change. */
  method SameSpots(lhs: seq<Bay>, rhs: seq<Bay>) returns (same: bool)
    ensures same <==> Visible(lhs) == Visible(rhs)
  {
    if |lhs| != |rhs| {
      return false;
    }
    for i := 0 to |lhs|
      invariant forall k :: 0 <= k < i ==> Visible(lhs)[k] == Visible(rhs)[k]
    {
      var a, b := lhs[i].spot, rhs[i].spot;
      if a.id != b.id || a.status != b.status || a.expiry != b.expiry || a.vehicle.Some? != b.vehicle.Some? {
        assert Visible(lhs)[i] != Visible(rhs)[i];
        return false;
      }
      if a.vehicle.Some? && (a.vehicle.value.plate != b.vehicle.value.plate || a.vehicle.value.vehicleType != b.vehicle.value.vehicleType) {
        assert Visible(lhs)[i] != Visible(rhs)[i];
        return false;
      }
      assert Visible(lhs)[i] == Visible(rhs)[i];
    }
    same := true;
  }

  // --- State ------------------------------------------------------------------------

  /** Contexts are numbered; 0 is the null pointer. */
  datatype Request = Request(id: nat, vehicle: Vehicle, context: nat)

  datatype Waiting = Waiting(request: Request, retries: nat)

  /** A computation under way.  History variables: `request`, and `taken` and `at`, the service and time of the snapshot. */
  datatype Flight = Flight(spots: seq<Bay>, version: nat, config: int, vehicle: Vehicle, requiredSpot: string,
                           request: Request, taken: Service, at: int)

  datatype Reply = NoAnswer | AlreadyInside | SearchFailed | KeptChanging | Refused | Entered(allocation: int)

  datatype Completion = Completion(request: Request, calledBack: bool, reply: Reply)

  /** What was known when a proposal was handed to the service. */
  datatype Commit = Commit(request: Request, flight: Flight, proposal: Option<int>, before: Service)

  /** `wakeUps` and `flights` are the queued wake-ups and unfinished workers, `busy` the posted refusals.
      History variables: `accepted`, `completed`, `refused`, `answeredBusy`, `computed` (request ids, once
      per computation) and `commits`. */
  datatype State = State(requests: seq<Waiting>, running: bool, wakeUps: nat, flights: seq<Flight>,
                         busy: seq<Request>, dead: set<nat>, service: Service, nextId: nat,
                         accepted: seq<Request>, completed: seq<Completion>, refused: seq<Request>,
                         answeredBusy: seq<Completion>, computed: multiset<nat>, commits: seq<Commit>)

  // --- Transitions --------------------------------------------------------------------

  function AfterSubmit(s: State, vehicle: Vehicle, context: nat): State {
    if context == 0 || context in s.dead then s
    else
      var request := Request(s.nextId, vehicle, context);
      var t := s.(nextId := s.nextId + 1);
      if |s.requests| >= QUEUE_LIMIT then t.(busy := s.busy + [request], refused := s.refused + [request])
      else
        var queued := t.(requests := s.requests + [Waiting(request, 0)], accepted := s.accepted + [request]);
        if s.running then queued else queued.(running := true, wakeUps := s.wakeUps + 1)
  }

  /** Take the head off, arrange for the next one, then call back if there still is someone to call. */
  function AfterFinish(s: State, reply: Reply): State
    requires s.requests != []
  {
    var request := s.requests[0].request;
    s.(requests := s.requests[1..], running := true, wakeUps := s.wakeUps + 1,
       completed := s.completed + [Completion(request, request.context !in s.dead, reply)])
  }

  function AfterStart(env: Environment, s: State, now: int): State {
    if s.running || s.requests == [] then s
    else
      var request := s.requests[0].request;
      var t := s.(running := true);
      if request.context in s.dead then AfterFinish(t, NoAnswer)
      else
        var swept := env.sweep(s.service, now);
        var u := t.(service := swept);
        if env.active(swept, request.vehicle.plate) then AfterFinish(u, AlreadyInside)
        else
          var (vehicle, spot) := env.target(swept, request.vehicle, now);
          u.(flights := s.flights + [Flight(swept.spots, swept.version, swept.config, vehicle, spot, request, swept, now)],
             computed := s.computed + multiset{request.id})
  }

  function AfterWakeUp(env: Environment, s: State, now: int): State
    requires s.wakeUps > 0
  {
    AfterStart(env, s.(wakeUps := s.wakeUps - 1, running := false), now)
  }

  function Outcome(env: Environment, flight: Flight): Search {
    env.propose(flight.vehicle, flight.spots, flight.config, flight.requiredSpot)
  }

  predicate Stale(flight: Flight, service: Service) {
    flight.version != service.version || Visible(flight.spots) != Visible(service.spots)
  }

  function Again(s: State): State
    requires s.requests != []
  {
    s.(requests := [s.requests[0].(retries := s.requests[0].retries + 1)] + s.requests[1..])
  }

  /** Compute again for the request at the head, or give it up. */
  function AfterStale(env: Environment, s: State, now: int): State
    requires s.requests != []
  {
    if s.requests[0].retries + 1 <= MAX_RETRIES then AfterStart(env, Again(s.(running := false)), now)
    else AfterFinish(Again(s), KeptChanging)
  }

  function AfterCommit(env: Environment, s: State, flight: Flight, proposal: Option<int>, now: int): State
    requires s.requests != []
  {
    var request := s.requests[0].request;
    var (after, allocation) := env.enter(s.service, request.vehicle, now, proposal);
    AfterFinish(s.(service := after, commits := s.commits + [Commit(request, flight, proposal, s.service)]),
                if allocation.Some? then Entered(allocation.value) else Refused)
  }

  /** A worker's result arrives: commit it, compute again, or give up. */
  function AfterSearch(env: Environment, s: State, now: int): State
    requires s.flights != [] && s.requests != []
  {
    var flight := s.flights[0];
    var t := s.(flights := s.flights[1..]);
    var result := Outcome(env, flight);
    if s.requests[0].request.context in s.dead then AfterFinish(t, NoAnswer)
    else if result.Broken? then AfterFinish(t, SearchFailed)
    else
      var u := t.(service := env.sweep(s.service, now));
      if Stale(flight, u.service) then AfterStale(env, u, now)
      else AfterCommit(env, u, flight, result.proposal, now)
  }

  /** The event loop delivers a posted refusal; the context may have died since. */
  function AfterBusy(s: State, index: nat): State
    requires index < |s.busy|
  {
    s.(busy := s.busy[..index] + s.busy[index + 1..],
       answeredBusy := s.answeredBusy + [Completion(s.busy[index], s.busy[index].context !in s.dead, Refused)])
  }

  datatype Step =
    | Submits(vehicle: Vehicle, context: nat)
    | WakesUp(now: int)
    | SearchEnds(now: int)
    | BusyPosted(index: nat)
    | Changes(service: Service)
    | Dies(context: nat)

  /** Changing the allocation settings changes their version. */
  predicate Follows(before: Service, after: Service) {
    after.version >= before.version && (after.version == before.version ==> after.config == before.config)
  }

  function Next(env: Environment, s: State, step: Step): State {
    match step
    case Submits(vehicle, context) => AfterSubmit(s, vehicle, context)
    case WakesUp(now) => if s.wakeUps > 0 then AfterWakeUp(env, s, now) else s
    case SearchEnds(now) => if s.flights != [] && s.requests != [] then AfterSearch(env, s, now) else s
    case BusyPosted(index) => if index < |s.busy| then AfterBusy(s, index) else s
    case Changes(service) => if Follows(s.service, service) then s.(service := service) else s
    case Dies(context) => s.(dead := s.dead + {context})
  }

  function Run(env: Environment, s: State, steps: seq<Step>): State
    decreases |steps|
  {
    if steps == [] then s else Next(env, Run(env, s, steps[..|steps| - 1]), steps[|steps| - 1])
  }

  function Fresh(service: Service): State {
    State([], false, 0, [], [], {}, service, 0, [], [], [], [], multiset{}, [])
  }

  // --- Invariants ---------------------------------------------------------------------

  ghost predicate Honest(env: Environment) {
    && (forall s, now {:trigger env.sweep(s, now)} :: Follows(s, env.sweep(s, now)))
    && (forall s, v, now, p {:trigger env.enter(s, v, now, p)} :: Follows(s, env.enter(s, v, now, p).0))
  }

  /** Never stuck: waiting requests mean the flag is set, and the flag means exactly one thing to come. */
  ghost predicate Awake(s: State) {
    && s.wakeUps + |s.flights| == (if s.running then 1 else 0)
    && (s.requests != [] ==> s.running) && (s.flights != [] ==> s.requests != [])
    && |s.requests| <= QUEUE_LIMIT
  }

  function Requests(waiting: seq<Waiting>): (r: seq<Request>)
    ensures |r| == |waiting| && forall i :: 0 <= i < |r| ==> r[i] == waiting[i].request
  {
    seq(|waiting|, i requires 0 <= i < |waiting| => waiting[i].request)
  }

  function Done(completed: seq<Completion>): (r: seq<Request>)
    ensures |r| == |completed| && forall i :: 0 <= i < |r| ==> r[i] == completed[i].request
  {
    seq(|completed|, i requires 0 <= i < |completed| => completed[i].request)
  }

  /** First in, first out, nothing lost: the accepted requests are the completed ones followed by the waiting ones. */
  ghost predicate InOrder(s: State) {
    && s.accepted == Done(s.completed) + Requests(s.requests)
    && multiset(s.refused) == multiset(s.busy) + multiset(Done(s.answeredBusy))
    && Numbered(s.accepted, s.nextId)
  }

  ghost predicate Numbered(requests: seq<Request>, bound: nat) {
    && (forall i, j :: 0 <= i < j < |requests| ==> requests[i].id < requests[j].id)
    && (forall i :: 0 <= i < |requests| ==> requests[i].id < bound)
  }

  /** At most three computations for each request; only the head has had any, one more than it was retried
      while a worker is busy with it. */
  ghost predicate Bounded(s: State) {
    && (forall id :: s.computed[id] <= MAX_RETRIES + 1 && (id >= s.nextId ==> s.computed[id] == 0))
    && (forall i :: 1 <= i < |s.requests| ==> s.requests[i].retries == s.computed[s.requests[i].request.id] == 0)
  }

  ghost predicate HeadBounded(s: State) {
    s.requests != [] ==>
      && s.requests[0].retries <= MAX_RETRIES
      && s.computed[s.requests[0].request.id] == s.requests[0].retries + |s.flights|
  }

  /** Computed for the vehicle and spot the request stands for in the snapshot, where the vehicle is not inside. */
  ghost predicate Aimed(env: Environment, f: Flight) {
    && !env.active(f.taken, f.request.vehicle.plate)
    && f.spots == f.taken.spots && f.config == f.taken.config && f.version == f.taken.version
    && (f.vehicle, f.requiredSpot) == env.target(f.taken, f.request.vehicle, f.at)
  }

  /** The computation under way is for the head; its settings are the current ones unless the version has moved. */
  ghost predicate Tracked(env: Environment, s: State) {
    forall i :: 0 <= i < |s.flights| ==>
      && Aimed(env, s.flights[i]) && s.requests != [] && s.flights[i].request == s.requests[0].request
      && s.flights[i].version <= s.service.version
      && (s.flights[i].version == s.service.version ==> s.flights[i].config == s.service.config)
  }

  /** Every proposal handed to the service was computed from what was current at that moment. */
  ghost predicate Linearizable(env: Environment, commits: seq<Commit>) {
    forall i :: 0 <= i < |commits| ==>
      var c := commits[i];
      && c.flight.request == c.request && Aimed(env, c.flight) && Outcome(env, c.flight) == Result(c.proposal)
      && Visible(c.flight.spots) == Visible(c.before.spots) && c.flight.config == c.before.config
  }

  ghost predicate Safe(env: Environment, s: State) {
    && Awake(s) && InOrder(s) && Bounded(s) && HeadBounded(s) && Tracked(env, s) && Linearizable(env, s.commits)
  }

  /** Nothing queued and no worker: the planner is about to take the next step itself. */
  ghost predicate Between(env: Environment, s: State) {
    && s.wakeUps == 0 && s.flights == [] && |s.requests| <= QUEUE_LIMIT
    && InOrder(s) && Bounded(s) && Linearizable(env, s.commits)
  }

  lemma Handover(completed: seq<Completion>, waiting: seq<Waiting>, completion: Completion)
    requires waiting != [] && completion.request == waiting[0].request
    ensures Done(completed + [completion]) + Requests(waiting[1..]) == Done(completed) + Requests(waiting)
  {
    assert Done(completed + [completion]) == Done(completed) + [completion.request];
    assert Requests(waiting) == [completion.request] + Requests(waiting[1..]);
    Regroup(Done(completed), completion.request, Requests(waiting[1..]));
  }

  lemma Regroup(a: seq<Request>, x: Request, b: seq<Request>)
    ensures (a + [x]) + b == a + ([x] + b)
  {
  }

  lemma FinishInOrder(s: State, reply: Reply)
    requires InOrder(s) && s.requests != []
    ensures InOrder(AfterFinish(s, reply))
  {
    Handover(s.completed, s.requests, Completion(s.requests[0].request, s.requests[0].request.context !in s.dead, reply));
    hide Done, Requests;
  }

  lemma FinishKeeps(env: Environment, s: State, reply: Reply)
    requires Between(env, s) && s.requests != []
    ensures Safe(env, AfterFinish(s, reply))
  {
    FinishInOrder(s, reply);
    hide InOrder;
  }

  lemma {:induction false} DistinctIds(s: State, i: nat, j: nat)
    requires InOrder(s) && i < j < |s.requests|
    ensures s.requests[i].request.id < s.requests[j].request.id < s.nextId
  {
    var n := |s.completed|;
    assert s.accepted[n + i] == s.requests[i].request && s.accepted[n + j] == s.requests[j].request;
  }

  lemma HeadId(s: State)
    requires InOrder(s) && s.requests != []
    ensures s.requests[0].request.id < s.nextId
    ensures forall j :: 1 <= j < |s.requests| ==> s.requests[j].request.id != s.requests[0].request.id
  {
    assert s.accepted[|s.completed|] == s.requests[0].request;
    forall j | 1 <= j < |s.requests| ensures s.requests[j].request.id != s.requests[0].request.id {
      DistinctIds(s, 0, j);
    }
  }

  lemma LaunchKeeps(env: Environment, s: State, flight: Flight)
    requires Between(env, s) && HeadBounded(s) && s.requests != []
    requires flight.version == s.service.version && flight.config == s.service.config
    requires Aimed(env, flight) && flight.request == s.requests[0].request
    ensures Safe(env, s.(running := true, flights := s.flights + [flight],
                         computed := s.computed + multiset{s.requests[0].request.id}))
  {
    HeadId(s);
    var t := s.(running := true, flights := s.flights + [flight], computed := s.computed + multiset{s.requests[0].request.id});
    assert InOrder(t);
    hide InOrder, Linearizable;
  }

  lemma StartKeeps(env: Environment, s: State, now: int)
    requires Honest(env) && Between(env, s) && HeadBounded(s) && !s.running
    ensures Safe(env, AfterStart(env, s, now))
  {
    if s.requests != [] {
      var swept := env.sweep(s.service, now);
      var u := s.(running := true, service := swept);
      var (vehicle, spot) := env.target(swept, s.requests[0].request.vehicle, now);
      assert InOrder(u) && InOrder(s.(running := true));
      FinishKeeps(env, s.(running := true), NoAnswer);
      FinishKeeps(env, u, AlreadyInside);
      if !env.active(swept, s.requests[0].request.vehicle.plate) {
        LaunchKeeps(env, u, Flight(swept.spots, swept.version, swept.config, vehicle, spot, s.requests[0].request, swept, now));
      }
      hide Safe, InOrder, Bounded, Linearizable;
    }
  }

  lemma Queued(done: seq<Request>, waiting: seq<Waiting>, request: Request)
    ensures done + Requests(waiting + [Waiting(request, 0)]) == (done + Requests(waiting)) + [request]
  {
    assert Requests(waiting + [Waiting(request, 0)]) == Requests(waiting) + [request];
  }

  lemma NumberedGrows(requests: seq<Request>, request: Request)
    requires Numbered(requests, request.id)
    ensures Numbered(requests + [request], request.id + 1) && Numbered(requests, request.id + 1)
  {
  }

  lemma SubmitInOrder(s: State, vehicle: Vehicle, context: nat)
    requires InOrder(s)
    ensures InOrder(AfterSubmit(s, vehicle, context))
  {
    var request := Request(s.nextId, vehicle, context);
    Queued(Done(s.completed), s.requests, request);
    NumberedGrows(s.accepted, request);
    assert multiset(s.refused + [request]) == multiset(s.busy + [request]) + multiset(Done(s.answeredBusy));
    hide Done, Requests, Numbered;
  }

  lemma SubmitKeeps(env: Environment, s: State, vehicle: Vehicle, context: nat)
    requires Safe(env, s)
    ensures Safe(env, AfterSubmit(s, vehicle, context))
  {
    SubmitInOrder(s, vehicle, context);
    SubmitBounded(s, vehicle, context);
    hide InOrder, Linearizable, Bounded, HeadBounded;
  }

  lemma SubmitBounded(s: State, vehicle: Vehicle, context: nat)
    requires Bounded(s) && HeadBounded(s) && InOrder(s) && (s.flights != [] ==> s.requests != [])
    ensures Bounded(AfterSubmit(s, vehicle, context)) && HeadBounded(AfterSubmit(s, vehicle, context))
  {
    var t := AfterSubmit(s, vehicle, context);
    if s.requests != [] {
      HeadId(s);
    }
    hide InOrder;
    assert s.computed[s.nextId] == 0;
    forall i | 1 <= i < |t.requests| ensures t.requests[i].retries == t.computed[t.requests[i].request.id] == 0 {
      assert i < |s.requests| ==> t.requests[i] == s.requests[i];
    }
  }

  lemma WakeKeeps(env: Environment, s: State, now: int)
    requires Honest(env) && Safe(env, s) && s.wakeUps > 0
    ensures Safe(env, AfterWakeUp(env, s, now))
  {
    var t := s.(wakeUps := s.wakeUps - 1, running := false);
    assert InOrder(t);
    hide InOrder, Linearizable;
    StartKeeps(env, t, now);
  }

  lemma LandedKeeps(env: Environment, s: State)
    requires Safe(env, s) && s.flights != []
    ensures Between(env, s.(flights := s.flights[1..])) && s.flights[1..] == []
  {
    assert InOrder(s.(flights := s.flights[1..]));
    hide InOrder, Linearizable;
  }

  lemma AgainInOrder(s: State, t: State)
    requires InOrder(s) && s.requests != [] && t == s.(flights := t.flights, service := t.service, running := t.running)
    ensures InOrder(Again(t))
  {
    assert Requests(Again(t).requests) == Requests(s.requests);
    hide Done, Requests, Numbered;
  }

  lemma AgainBounded(s: State, t: State)
    requires Bounded(s) && HeadBounded(s) && s.requests != [] && |s.flights| == 1
    requires t == s.(flights := [], service := t.service, running := t.running)
    ensures Bounded(Again(t)) && (s.requests[0].retries + 1 <= MAX_RETRIES ==> HeadBounded(Again(t)))
  {
    forall i | 1 <= i < |s.requests| ensures Again(t).requests[i] == s.requests[i] {}
  }

  lemma AgainKeeps(env: Environment, s: State, t: State)
    requires Safe(env, s) && s.flights != [] && s.requests != []
    requires t == s.(flights := [], service := t.service, running := t.running)
    ensures Between(env, Again(t)) && (s.requests[0].retries + 1 <= MAX_RETRIES ==> HeadBounded(Again(t)))
  {
    AgainInOrder(s, t);
    AgainBounded(s, t);
    hide InOrder, Bounded, HeadBounded, Linearizable;
  }

  /** A proposal is committed only when spots and settings are what it was computed from. */
  lemma CommitIsCurrent(env: Environment, s: State, now: int)
    requires Honest(env) && Safe(env, s) && s.flights != [] && s.requests != []
    requires Outcome(env, s.flights[0]).Result? && !Stale(s.flights[0], env.sweep(s.service, now))
    ensures Linearizable(env, s.commits + [Commit(s.requests[0].request, s.flights[0],
              Outcome(env, s.flights[0]).proposal, env.sweep(s.service, now))])
  {
    assert Follows(s.service, env.sweep(s.service, now));
  }

  lemma StaleKeeps(env: Environment, s: State, now: int)
    requires Honest(env) && Safe(env, s) && s.flights != [] && s.requests != []
    requires s.requests[0].request.context !in s.dead && Outcome(env, s.flights[0]).Result?
    requires Stale(s.flights[0], env.sweep(s.service, now))
    ensures Safe(env, AfterSearch(env, s, now))
  {
    LandedKeeps(env, s);
    var u := s.(flights := [], service := env.sweep(s.service, now));
    AgainKeeps(env, s, u);
    AgainKeeps(env, s, u.(running := false));
    assert AfterSearch(env, s, now) == AfterStale(env, u, now);
    hide Safe, Between, HeadBounded, AfterStart, AfterFinish, AfterSearch, Stale;
    if s.requests[0].retries + 1 <= MAX_RETRIES {
      StartKeeps(env, Again(u.(running := false)), now);
    } else {
      FinishKeeps(env, Again(u), KeptChanging);
    }
  }

  lemma CurrentKeeps(env: Environment, s: State, now: int)
    requires Honest(env) && Safe(env, s) && s.flights != [] && s.requests != []
    requires s.requests[0].request.context !in s.dead && Outcome(env, s.flights[0]).Result?
    requires !Stale(s.flights[0], env.sweep(s.service, now))
    ensures Safe(env, AfterSearch(env, s, now))
  {
    var swept, head, proposal := env.sweep(s.service, now), s.requests[0], Outcome(env, s.flights[0]).proposal;
    LandedKeeps(env, s);
    CommitIsCurrent(env, s, now);
    var (after, allocation) := env.enter(swept, head.request.vehicle, now, proposal);
    var u := s.(flights := s.flights[1..], service := after,
                commits := s.commits + [Commit(head.request, s.flights[0], proposal, swept)]);
    assert InOrder(u);
    hide InOrder, Linearizable, Stale;
    FinishKeeps(env, u, if allocation.Some? then Entered(allocation.value) else Refused);
  }

  lemma SearchKeeps(env: Environment, s: State, now: int)
    requires Honest(env) && Safe(env, s) && s.flights != [] && s.requests != []
    ensures Safe(env, AfterSearch(env, s, now))
  {
    var t := s.(flights := s.flights[1..]);
    LandedKeeps(env, s);
    if s.requests[0].request.context in s.dead {
      FinishKeeps(env, t, NoAnswer);
    } else if Outcome(env, s.flights[0]).Broken? {
      FinishKeeps(env, t, SearchFailed);
    } else if Stale(s.flights[0], env.sweep(s.service, now)) {
      StaleKeeps(env, s, now);
    } else {
      CurrentKeeps(env, s, now);
    }
  }

  lemma Delivered(busy: seq<Request>, answered: seq<Completion>, index: nat, completion: Completion)
    requires index < |busy| && completion.request == busy[index]
    ensures multiset(busy[..index] + busy[index + 1..]) + multiset(Done(answered + [completion]))
         == multiset(busy) + multiset(Done(answered))
  {
    assert Done(answered + [completion]) == Done(answered) + [busy[index]];
    assert busy == busy[..index] + [busy[index]] + busy[index + 1..];
  }

  lemma BusyKeeps(env: Environment, s: State, index: nat)
    requires Safe(env, s) && index < |s.busy|
    ensures Safe(env, AfterBusy(s, index))
  {
    Delivered(s.busy, s.answeredBusy, index, Completion(s.busy[index], s.busy[index].context !in s.dead, Refused));
    var t := AfterBusy(s, index);
    assert InOrder(t) by {
      hide Done, Requests;
    }
    hide InOrder, Linearizable;
  }

  lemma NextKeeps(env: Environment, s: State, step: Step)
    requires Honest(env) && Safe(env, s)
    ensures Safe(env, Next(env, s, step))
  {
    match step {
      case Submits(vehicle, context) => SubmitKeeps(env, s, vehicle, context);
      case WakesUp(now) => if s.wakeUps > 0 { WakeKeeps(env, s, now); }
      case SearchEnds(now) => if s.flights != [] && s.requests != [] { SearchKeeps(env, s, now); }
      case BusyPosted(index) => if index < |s.busy| { BusyKeeps(env, s, index); }
      case Changes(service) =>
        assert InOrder(s.(service := service));
        hide InOrder, Linearizable;
      case Dies(context) =>
        assert InOrder(s.(dead := s.dead + {context}));
        hide InOrder, Linearizable;
    }
  }

  /** Every interleaving of submissions, wake-ups, finishing workers, changes of the parking and dying contexts. */
  lemma {:induction false} EveryRunIsSafe(env: Environment, service: Service, steps: seq<Step>)
    requires Honest(env)
    ensures Safe(env, Run(env, Fresh(service), steps))
    decreases |steps|
  {
    if steps != [] {
      EveryRunIsSafe(env, service, steps[..|steps| - 1]);
      NextKeeps(env, Run(env, Fresh(service), steps[..|steps| - 1]), steps[|steps| - 1]);
    }
  }

  // --- What the callers get ---------------------------------------------------------------

  /** A missing callback is always due to a dead context. */
  ghost predicate Excused(s: State) {
    && (forall i :: 0 <= i < |s.completed| && !s.completed[i].calledBack ==> s.completed[i].request.context in s.dead)
    && (forall i :: 0 <= i < |s.answeredBusy| && !s.answeredBusy[i].calledBack ==> s.answeredBusy[i].request.context in s.dead)
  }

  lemma FinishExcused(s: State, reply: Reply)
    requires Excused(s) && s.requests != []
    ensures Excused(AfterFinish(s, reply))
  {
  }

  lemma StartExcused(env: Environment, s: State, now: int)
    requires Excused(s)
    ensures Excused(AfterStart(env, s, now))
  {
    if !s.running && s.requests != [] {
      FinishExcused(s.(running := true), NoAnswer);
      FinishExcused(s.(running := true, service := env.sweep(s.service, now)), AlreadyInside);
      hide AfterFinish;
    }
  }

  lemma SearchExcused(env: Environment, s: State, now: int)
    requires Excused(s) && s.flights != [] && s.requests != []
    ensures Excused(AfterSearch(env, s, now))
  {
    var t := s.(flights := s.flights[1..]);
    FinishExcused(t, NoAnswer);
    FinishExcused(t, SearchFailed);
    var u := t.(service := env.sweep(s.service, now));
    assert Excused(AfterStale(env, u, now)) by {
      StartExcused(env, Again(u.(running := false)), now);
      FinishExcused(Again(u), KeptChanging);
      hide AfterStart, AfterFinish;
    }
    hide AfterStale, AfterFinish, Stale, Outcome;
  }

  lemma NextExcused(env: Environment, s: State, step: Step)
    requires Excused(s)
    ensures Excused(Next(env, s, step))
  {
    match step {
      case WakesUp(now) =>
        if s.wakeUps > 0 { StartExcused(env, s.(wakeUps := s.wakeUps - 1, running := false), now); }
      case SearchEnds(now) => if s.flights != [] && s.requests != [] { SearchExcused(env, s, now); }
      case _ =>
    }
    hide AfterStart, AfterSearch;
  }

  lemma {:induction false} EveryRunIsExcused(env: Environment, service: Service, steps: seq<Step>)
    ensures Excused(Run(env, Fresh(service), steps))
    decreases |steps|
  {
    if steps != [] {
      EveryRunIsExcused(env, service, steps[..|steps| - 1]);
      NextExcused(env, Run(env, Fresh(service), steps[..|steps| - 1]), steps[|steps| - 1]);
    }
  }

  /** When nothing is queued or under way, every accepted request has been completed, in order and once, and
      those with a living context were called back. */
  lemma AllAnswered(env: Environment, service: Service, steps: seq<Step>)
    requires Honest(env)
    ensures var s := Run(env, Fresh(service), steps);
            && s.accepted == Done(s.completed) + Requests(s.requests)
            && (s.wakeUps == 0 && s.flights == [] ==> s.accepted == Done(s.completed))
            && (forall i, j :: 0 <= i < j < |s.completed| ==> s.completed[i].request.id < s.completed[j].request.id)
            && (forall i :: 0 <= i < |s.completed| && s.completed[i].request.context !in s.dead ==> s.completed[i].calledBack)
  {
    EveryRunIsSafe(env, service, steps);
    EveryRunIsExcused(env, service, steps);
    var s := Run(env, Fresh(service), steps);
    forall i, j | 0 <= i < j < |s.completed| ensures s.completed[i].request.id < s.completed[j].request.id {
      assert s.accepted[i] == s.completed[i].request && s.accepted[j] == s.completed[j].request;
    }
    if s.requests == [] {
      assert s.accepted == Done(s.completed);
    }
  }

  /** Wake-ups and results still to come, at most, until the queue is empty: three searches and a wake-up for each
      request, less the searches already repeated. */
  function ToDo(s: State): int {
    4 * |s.requests| + s.wakeUps - if s.requests == [] then 0 else s.requests[0].retries
  }

  lemma ToDoIsCount(env: Environment, s: State)
    requires Safe(env, s)
    ensures ToDo(s) >= 0 && (ToDo(s) == 0 <==> s.requests == [] && s.wakeUps == 0)
  {
    hide InOrder, Linearizable, Tracked;
  }

  /** A wake-up or a result that is really due. */
  predicate IsTurn(s: State, step: Step) {
    (step.WakesUp? && s.wakeUps > 0) || (step.SearchEnds? && s.flights != [])
  }

  /** Every wake-up and every result brings the planner closer to an empty queue; nothing but a new
      submission takes it further away, by five at most. */
  lemma Progress(env: Environment, s: State, step: Step)
    requires Safe(env, s)
    ensures IsTurn(s, step) ==> ToDo(Next(env, s, step)) < ToDo(s) && Next(env, s, step).accepted == s.accepted
    ensures ToDo(Next(env, s, step)) <= ToDo(s) + 5 * (|Next(env, s, step).accepted| - |s.accepted|)
  {
    hide InOrder, Linearizable, Tracked, Visible, Outcome, Stale;
  }

  /** How many wake-ups and results there are in a run. */
  function Turns(env: Environment, s: State, steps: seq<Step>): (n: nat)
    ensures n <= |steps|
    decreases |steps|
  {
    if steps == [] then 0
    else
      var last := |steps| - 1;
      Turns(env, s, steps[..last]) + if IsTurn(Run(env, s, steps[..last]), steps[last]) then 1 else 0
  }

  /** In any run there are at most five wake-ups and results for each accepted request, those still to come included. */
  lemma {:induction false} ComesToRest(env: Environment, service: Service, steps: seq<Step>)
    requires Honest(env)
    ensures var s := Run(env, Fresh(service), steps);
            && Turns(env, Fresh(service), steps) + ToDo(s) <= 5 * |s.accepted|
            && Turns(env, Fresh(service), steps) <= 5 * |s.accepted|
    decreases |steps|
  {
    if steps != [] {
      var before := steps[..|steps| - 1];
      ComesToRest(env, service, before);
      EveryRunIsSafe(env, service, before);
      hide Safe, ToDo, Next, IsTurn;
      Progress(env, Run(env, Fresh(service), before), steps[|steps| - 1]);
    }
    EveryRunIsSafe(env, service, steps);
    ToDoIsCount(env, Run(env, Fresh(service), steps));
  }

  // --- The planner object ----------------------------------------------------------------

  /** `service`, `wakeUps`, `flights`, `busy`, `dead` stand for the parking service, the event loop's timers,
      the worker thread and the destroyed contexts. */
  class BackgroundEntryPlanner {
    const env: Environment
    var requests: seq<Waiting>
    var running: bool
    var wakeUps: nat
    var flights: seq<Flight>
    var busy: seq<Request>
    var dead: set<nat>
    var service: Service
    var nextId: nat
    ghost var accepted: seq<Request>
    ghost var completed: seq<Completion>
    ghost var refused: seq<Request>
    ghost var answeredBusy: seq<Completion>
    ghost var computed: multiset<nat>
    ghost var commits: seq<Commit>

    ghost function Model(): State
      reads this
    {
      State(requests, running, wakeUps, flights, busy, dead, service, nextId,
            accepted, completed, refused, answeredBusy, computed, commits)
    }

    constructor (env: Environment, service: Service)
      ensures this.env == env && Model() == Fresh(service)
    {
      this.env, this.service := env, service;
      requests, running, wakeUps, flights, busy, dead, nextId := [], false, 0, [], [], {}, 0;
      accepted, completed, refused, answeredBusy, computed, commits := [], [], [], [], multiset{}, [];
    }

    method Submit(vehicle: Vehicle, context: nat)
      modifies this
      ensures Model() == AfterSubmit(old(Model()), vehicle, context)
    {
      if context == 0 || context in dead {
        return;
      }
      var request := Request(nextId, vehicle, context);
      if |requests| >= QUEUE_LIMIT {
        nextId, busy, refused := nextId + 1, busy + [request], refused + [request];
        return;
      }
      nextId := nextId + 1;
      Enqueue(request);
    }

    /** Accept a request, and wake the planner up if it is idle. */
    method Enqueue(request: Request)
      modifies `requests, `accepted, `running, `wakeUps
      ensures requests == old(requests) + [Waiting(request, 0)] && accepted == old(accepted) + [request]
      ensures running && wakeUps == old(wakeUps) + if old(running) then 0 else 1
    {
      requests, accepted := requests + [Waiting(request, 0)], accepted + [request];
      if !running {
        running, wakeUps := true, wakeUps + 1;
      }
    }

    method Finish(reply: Reply)
      requires requests != []
      modifies this
      ensures Model() == AfterFinish(old(Model()), reply)
    {
      var request := requests[0].request;
      requests := requests[1..];
      running := true;
      wakeUps := wakeUps + 1;
      completed := completed + [Completion(request, request.context !in dead, reply)];
    }

    method StartNext(now: int)
      modifies this
      ensures Model() == AfterStart(env, old(Model()), now)
    {
      if running || requests == [] {
        return;
      }
      running := true;
      var request := requests[0].request;
      if request.context in dead {
        Finish(NoAnswer);
        return;
      }
      service := env.sweep(service, now);
      if env.active(service, request.vehicle.plate) {
        Finish(AlreadyInside);
        return;
      }
      var (vehicle, requiredSpot) := env.target(service, request.vehicle, now);
      flights := flights + [Flight(service.spots, service.version, service.config, vehicle, requiredSpot, request, service, now)];
      computed := computed + multiset{request.id};
    }

    method OnWakeUp(now: int)
      requires wakeUps > 0
      modifies this
      ensures Model() == AfterWakeUp(env, old(Model()), now)
    {
      hide AfterStart;
      wakeUps := wakeUps - 1;
      running := false;
      StartNext(now);
    }

    method OnSearchFinished(now: int)
      requires flights != [] && requests != []
      modifies this
      ensures Model() == AfterSearch(env, old(Model()), now)
    {
      hide AfterStale, AfterCommit, AfterFinish, Visible;
      var flight := flights[0];
      flights := flights[1..];
      var result := env.propose(flight.vehicle, flight.spots, flight.config, flight.requiredSpot);
      if requests[0].request.context in dead {
        Finish(NoAnswer);
        return;
      }
      if result.Broken? {
        Finish(SearchFailed);
        return;
      }
      service := env.sweep(service, now);
      var same := SameSpots(flight.spots, service.spots);
      if flight.version != service.version || !same {
        Recompute(now);
      } else {
        CommitResult(flight, result.proposal, now);
      }
    }

    method Recompute(now: int)
      requires requests != []
      modifies this
      ensures Model() == AfterStale(env, old(Model()), now)
    {
      hide AfterStart, AfterFinish;
      var retries := requests[0].retries + 1;
      requests := [requests[0].(retries := retries)] + requests[1..];
      if retries <= MAX_RETRIES {
        running := false;
        StartNext(now);
      } else {
        Finish(KeptChanging);
      }
    }

    method CommitResult(flight: Flight, proposal: Option<int>, now: int)
      requires requests != []
      modifies this
      ensures Model() == AfterCommit(env, old(Model()), flight, proposal, now)
    {
      hide AfterFinish;
      commits := commits + [Commit(requests[0].request, flight, proposal, service)];
      var (after, allocation) := env.enter(service, requests[0].request.vehicle, now, proposal);
      service := after;
      Finish(if allocation.Some? then Entered(allocation.value) else Refused);
    }
  }
}
