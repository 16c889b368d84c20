/**
 What the planner makes of each event, in any run: what a submission, a wake-up, a finished computation and a
 posted refusal lead to, and what every answer says about the parking.
 */
module EntryAnswers {
  import opened Outcomes
  import opened ParkingSpots
  import opened EntryPlanner

  ghost function Reached(env: Environment, service: Service, steps: seq<Step>): State {
    Run(env, Fresh(service), steps)
  }

  lemma NextReached(env: Environment, service: Service, steps: seq<Step>, step: Step)
    requires Honest(env)
    ensures Reached(env, service, steps + [step]) == Next(env, Reached(env, service, steps), step)
    ensures Safe(env, Reached(env, service, steps))
  {
    assert (steps + [step])[..|steps|] == steps;
    EveryRunIsSafe(env, service, steps);
  }

  /** The head is off the queue, the next wake-up is due, and its context, if it lives, has got the reply. */
  ghost predicate Answered(s: State, t: State, reply: Reply) {
    && s.requests != [] && t.requests == s.requests[1..] && t.flights == [] && t.wakeUps == 1 && t.running
    && t.completed == s.completed + [Completion(s.requests[0].request, s.requests[0].request.context !in s.dead, reply)]
  }

  /** A computation for the head has begun on `service`, and nothing has been answered. */
  ghost predicate Computing(env: Environment, s: State, t: State, service: Service, now: int) {
    && s.requests != [] && |t.flights| == 1 && t.completed == s.completed && t.wakeUps == 0 && t.running
    && Requests(t.requests) == Requests(s.requests)
    && var f, head := t.flights[0], s.requests[0].request;
       && f.request == head && f.spots == service.spots && f.version == service.version && f.config == service.config
       && (f.vehicle, f.requiredSpot) == env.target(service, head.vehicle, now)
       && t.computed == s.computed + multiset{head.id}
  }

  /** What starting on the head comes to: nothing for a dead context, a refusal for a vehicle that is inside once
      everything overdue has been swept out, and a computation for any other. */
  ghost predicate Started(env: Environment, s: State, t: State, now: int) {
    s.requests != [] &&
    var head, swept := s.requests[0].request, env.sweep(s.service, now);
    if head.context in s.dead then Answered(s, t, NoAnswer) && t.service == s.service
    else if env.active(swept, head.vehicle.plate) then Answered(s, t, AlreadyInside) && t.service == swept
    else Computing(env, s, t, swept, now) && t.service == swept
  }

  // --- Submissions --------------------------------------------------------------------------

  /** A request with a living context is refused, by a posted answer, exactly when eight are waiting; otherwise it joins
      the queue, and an idle planner is woken up. */
  lemma SubmitDecides(env: Environment, service: Service, steps: seq<Step>, vehicle: Vehicle, context: nat)
    requires Honest(env)
    ensures var s, t := Reached(env, service, steps), Reached(env, service, steps + [Submits(vehicle, context)]);
            var request := Request(s.nextId, vehicle, context);
            if context == 0 || context in s.dead then t == s
            else if |s.requests| == 8
            then t == s.(nextId := s.nextId + 1, busy := s.busy + [request], refused := s.refused + [request])
            else && t.requests == s.requests + [Waiting(request, 0)] && t.accepted == s.accepted + [request]
                 && t.nextId == s.nextId + 1 && t.running
                 && t.wakeUps == (if s.wakeUps == 0 && s.flights == [] then 1 else s.wakeUps)
                 && t.flights == s.flights && t.completed == s.completed && t.busy == s.busy && t.refused == s.refused
                 && t.service == s.service
  {
    NextReached(env, service, steps, Submits(vehicle, context));
    hide Reached, InOrder, Bounded, Linearizable, Tracked;
  }

  /** A posted refusal reaches the context that asked, if it still lives. */
  lemma RefusalArrives(env: Environment, service: Service, steps: seq<Step>, index: nat)
    requires Honest(env) && index < |Reached(env, service, steps).busy|
    ensures var s, t := Reached(env, service, steps), Reached(env, service, steps + [BusyPosted(index)]);
            && t.answeredBusy == s.answeredBusy + [Completion(s.busy[index], s.busy[index].context !in s.dead, Refused)]
            && t.busy == s.busy[..index] + s.busy[index + 1..]
  {
    NextReached(env, service, steps, BusyPosted(index));
  }

  /** A context that dies is dead from then on; the parking changes as it is changed, unless settings change without
      their version. */
  lemma OtherEvents(env: Environment, service: Service, steps: seq<Step>, context: nat, changed: Service)
    requires Honest(env)
    ensures var s := Reached(env, service, steps);
            && Reached(env, service, steps + [Dies(context)]) == s.(dead := s.dead + {context})
            && (changed.version > s.service.version || (changed.version == s.service.version && changed.config == s.service.config) ==>
                  Reached(env, service, steps + [Changes(changed)]) == s.(service := changed))
  {
    NextReached(env, service, steps, Dies(context));
    NextReached(env, service, steps, Changes(changed));
  }

  // --- Starting -------------------------------------------------------------------------------

  lemma StartDecides(env: Environment, s: State, now: int)
    requires s.requests != [] && !s.running && s.flights == [] && s.wakeUps == 0
    ensures Started(env, s, AfterStart(env, s, now), now)
  {
  }

  /** A wake-up starts on the head, if a request waits. */
  lemma WakeUpDecides(env: Environment, service: Service, steps: seq<Step>, now: int)
    requires Honest(env) && Reached(env, service, steps).wakeUps > 0
    ensures var s, t := Reached(env, service, steps), Reached(env, service, steps + [WakesUp(now)]);
            if s.requests == [] then t == s.(wakeUps := 0, running := false)
            else Started(env, s.(wakeUps := 0, running := false), t, now)
  {
    NextReached(env, service, steps, WakesUp(now));
    var s := Reached(env, service, steps);
    assert s.wakeUps == 1 && s.flights == [];
    hide Reached, Safe;
    if s.requests != [] {
      StartDecides(env, s.(wakeUps := 0, running := false), now);
    }
    hide Started;
  }

  // --- Finished computations --------------------------------------------------------------------

  /** Spots and settings are as in the snapshot. */
  ghost predicate Unchanged(f: Flight, service: Service) {
    && f.version == service.version && |f.spots| == |service.spots|
    && forall i :: 0 <= i < |f.spots| ==> f.spots[i].spot == service.spots[i].spot
  }

  lemma UnchangedIs(f: Flight, service: Service)
    ensures Unchanged(f, service) <==> !Stale(f, service)
  {
    if Visible(f.spots) == Visible(service.spots) {
      assert |f.spots| == |service.spots|;
      forall i | 0 <= i < |f.spots| ensures f.spots[i].spot == service.spots[i].spot {
        assert Visible(f.spots)[i] == Visible(service.spots)[i];
      }
    }
  }

  /** The proposal went to the service as it was swept at that moment, and the reply and the service afterwards are what
      entering made of it. */
  ghost predicate Committed(env: Environment, s: State, t: State, swept: Service, proposal: Option<int>, now: int) {
    s.requests != [] && s.flights != [] &&
    var (after, allocation) := env.enter(swept, s.requests[0].request.vehicle, now, proposal);
    && Answered(s, t, if allocation.Some? then Entered(allocation.value) else Refused)
    && t.service == after && t.commits == s.commits + [Commit(s.requests[0].request, s.flights[0], proposal, swept)]
  }

  /** What a finished computation leads to: nothing for a dead context, a failure if it broke; with spots and settings
      unchanged its proposal is committed; otherwise it is computed again, twice at most, and then given up. */
  lemma SearchDecides(env: Environment, service: Service, steps: seq<Step>, now: int)
    requires Honest(env) && Reached(env, service, steps).flights != []
    ensures var s, t := Reached(env, service, steps), Reached(env, service, steps + [SearchEnds(now)]);
            && s.requests != []
            && var f, swept := s.flights[0], env.sweep(s.service, now);
               var result := env.propose(f.vehicle, f.spots, f.config, f.requiredSpot);
               if s.requests[0].request.context in s.dead then Answered(s, t, NoAnswer) && t.service == s.service
               else if result.Broken? then Answered(s, t, SearchFailed) && t.service == s.service
               else if Unchanged(f, swept) then Committed(env, s, t, swept, result.proposal, now)
               else if s.requests[0].retries < 2
               then Started(env, Again(s).(running := false, flights := [], service := swept), t, now)
                    && (t.flights != [] ==> t.requests[0].retries == s.requests[0].retries + 1)
               else Answered(s, t, KeptChanging) && t.service == swept
  {
    NextReached(env, service, steps, SearchEnds(now));
    var s := Reached(env, service, steps);
    assert s.wakeUps == 0 && |s.flights| == 1 && s.requests != [] && s.running;
    hide Reached, Safe;
    SearchOutcome(env, s, now);
  }

  lemma SearchOutcome(env: Environment, s: State, now: int)
    requires s.wakeUps == 0 && |s.flights| == 1 && s.requests != [] && s.running
    ensures var t, f, swept := Next(env, s, SearchEnds(now)), s.flights[0], env.sweep(s.service, now);
            var result := env.propose(f.vehicle, f.spots, f.config, f.requiredSpot);
            if s.requests[0].request.context in s.dead then Answered(s, t, NoAnswer) && t.service == s.service
            else if result.Broken? then Answered(s, t, SearchFailed) && t.service == s.service
            else if Unchanged(f, swept) then Committed(env, s, t, swept, result.proposal, now)
            else if s.requests[0].retries < 2
            then Started(env, Again(s).(running := false, flights := [], service := swept), t, now)
                 && (t.flights != [] ==> t.requests[0].retries == s.requests[0].retries + 1)
            else Answered(s, t, KeptChanging) && t.service == swept
  {
    var f, swept := s.flights[0], env.sweep(s.service, now);
    UnchangedIs(f, swept);
    var u := Again(s).(running := false, flights := [], service := swept);
    StartDecides(env, u, now);
    assert s.flights[1..] == [];
    hide Unchanged, Stale, Started;
    assert s.requests[0].retries < 2 && Stale(f, swept) && s.requests[0].request.context !in s.dead && !Outcome(env, f).Broken? ==>
        Next(env, s, SearchEnds(now)) == AfterStart(env, u, now);
  }

  // --- What the answers say -------------------------------------------------------------------

  /** At most the head has been answered; it was called back exactly if its context lives, and the answer is true: a
      vehicle told to be inside is inside, and an allocation or a refusal is what entering has just made of the proposal. */
  ghost predicate TrueAnswer(env: Environment, s: State, t: State) {
    t.completed == s.completed || (
      && s.requests != [] && |t.completed| == |s.completed| + 1
      && var c := t.completed[|s.completed|];
         && c.request == s.requests[0].request && (c.calledBack <==> c.request.context !in s.dead)
         && (c.reply == AlreadyInside ==> env.active(t.service, c.request.vehicle.plate))
         && if c.reply.Entered? || c.reply.Refused?
            then |t.commits| == |s.commits| + 1 && FromEntering(env, t.commits[|s.commits|], c, t.service)
            else t.commits == s.commits)
  }

  ghost predicate FromEntering(env: Environment, k: Commit, c: Completion, after: Service) {
    exists now :: env.enter(k.before, c.request.vehicle, now, k.proposal)
               == (after, if c.reply.Entered? then Some(c.reply.allocation) else None)
  }

  /** Whatever an event answers, in any run, is true. */
  lemma AnswersAreTrue(env: Environment, service: Service, steps: seq<Step>, step: Step)
    requires Honest(env)
    ensures TrueAnswer(env, Reached(env, service, steps), Reached(env, service, steps + [step]))
  {
    var s := Reached(env, service, steps);
    NextReached(env, service, steps, step);
    hide Reached, Safe;
    match step {
      case WakesUp(now) => if s.wakeUps > 0 { WakeUpAnswers(env, s, now); }
      case SearchEnds(now) => if s.flights != [] && s.requests != [] { SearchAnswers(env, s, now); }
      case _ =>
    }
  }

  lemma WakeUpAnswers(env: Environment, s: State, now: int)
    requires s.wakeUps > 0
    ensures TrueAnswer(env, s, Next(env, s, WakesUp(now)))
  {
  }

  lemma StartAnswers(env: Environment, s: State, u: State, now: int)
    requires s.requests != [] && u.requests != [] && u.requests[0].request == s.requests[0].request && u.dead == s.dead
    requires u.completed == s.completed && u.commits == s.commits
    ensures TrueAnswer(env, s, AfterStart(env, u, now))
  {
  }

  lemma SearchAnswers(env: Environment, s: State, now: int)
    requires s.flights != [] && s.requests != []
    ensures TrueAnswer(env, s, Next(env, s, SearchEnds(now)))
  {
    var swept, flight := env.sweep(s.service, now), s.flights[0];
    var u := s.(flights := s.flights[1..], service := swept);
    StartAnswers(env, s, Again(u.(running := false)), now);
    if Outcome(env, flight).Result? && !Stale(flight, swept) && s.requests[0].request.context !in s.dead {
      var proposal := Outcome(env, flight).proposal;
      var t := AfterCommit(env, u, flight, proposal, now);
      var (after, allocation) := env.enter(swept, s.requests[0].request.vehicle, now, proposal);
      assert FromEntering(env, t.commits[|s.commits|], t.completed[|s.completed|], t.service);
    }
    hide AfterStart, Stale, Outcome, FromEntering;
  }
}
