/**
 Offline replay end to end: a gate that keeps events on disk while the link is down and sends
 them in batches, a link that loses, delays and truncates, and the server's replay action.
 Requests carry an id, and a reply is read only by the flush waiting for that id.  A flush waits in an event loop of
 its own, so a second one can only run inside the first and ends before it.
 */
module ReplayProtocol {
  import opened Outcomes
  import opened ParkingRecords
  import opened ReplayServer
  import opened OfflineEvents

  // --- The gate ---------------------------------------------------------------------

  /** The client's half of a flush, on the queue object. */
  class GateTerminal {
    const queue: OfflineQueue<Event>

    constructor (queue: OfflineQueue<Event>)
      ensures this.queue == queue
    {
      this.queue := queue;
    }

    /** The vehicle is let through only when the event is safely stored. */
    method RecordOffline(event: Event, written: bool) returns (raised: bool)
      modifies queue
      ensures raised == written
      ensures Stored(queue.file) == old(Stored(queue.file)) + if raised then [Entry(event)] else []
      ensures queue.cachedCount == old(queue.cachedCount) + if raised then 1 else 0
    {
      raised := queue.Append(event, written);
    }

    /** The batch to send; empty when there is nothing to do or nothing that can be read. */
    method FlushBegins(online: bool, readable: bool) returns (batch: seq<Event>)
      ensures batch == if online && queue.cachedCount != 0 && readable then NextBatch(queue.file, BATCH_LIMIT) else []
    {
      if !online || queue.cachedCount == 0 {
        return [];
      }
      batch := queue.Pending(BATCH_LIMIT, readable);
    }

    method FlushEnds(submitted: nat, reply: Option<Reply>, readable: bool, saved: bool) returns (settled: nat)
      modifies queue
      ensures var done := Settled(old(Stored(queue.file)), old(queue.cachedCount), submitted, reply, readable && saved);
              && settled == done
              && Stored(queue.file) == old(Stored(queue.file))[done..]
              && queue.cachedCount == old(queue.cachedCount) - done
    {
      settled := 0;
      if reply.Some? {
        var handled := ReplayHandledPrefix(reply.value, submitted);
        if handled > 0 {
          var ok := queue.Acknowledge(handled, readable, saved);
          if ok {
            settled := handled;
          }
        }
      }
    }
  }

  /** How many events a flush removes from the queue. */
  function Settled(stored: seq<Line<Event>>, cachedCount: int, submitted: nat, reply: Option<Reply>, saved: bool): (n: nat)
    ensures n <= |stored| && n <= submitted && (n > 0 ==> n <= cachedCount)
  {
    if reply.None? then 0
    else
      var handled := HandledPrefix(reply.value, submitted);
      if 1 <= handled <= cachedCount && handled <= |stored| && saved then handled else 0
  }

  // --- The whole system -----------------------------------------------------------------

  /** `first` is a history variable: the position of the batch in the sequence of all appended events. */
  datatype Flight = Flight(id: nat, batch: seq<Event>, first: nat)

  datatype Answer = Answer(request: Flight, response: Response)

  /** What the link does to a reply: keep the first results, end in an item without a verdict, lose the counters. */
  datatype Damage = Damage(kept: nat, brokenItem: bool, counters: bool)

  /** History variables: `appended`, `dropped` (how many events were acknowledged), `verdicts` (by position)
      and `counted` (the queue file could be read at every start).  `flights` are the flushes whose reply may
      still come, the innermost last. */
  datatype State = State(stored: seq<Line<Event>>, cachedCount: int, online: bool, flights: seq<Flight>, nextId: nat,
                         requests: seq<Flight>, answers: seq<Answer>, service: Service,
                         appended: seq<Event>, dropped: nat, verdicts: map<nat, Verdict>, counted: bool)

  datatype Step =
    | Append(event: Event, written: bool)
    | Flush(readable: bool)
    | Serve(request: nat, now: int)
    | Receive(answer: nat, damage: Damage, saved: bool)
    | GiveUp
    | Connect
    | Disconnect
    | Restart(readable: bool)
    | Elsewhere(records: seq<Record>, operations: nat)

  function Lines(events: seq<Event>): (r: seq<Line<Event>>)
    ensures |r| == |events| && forall i :: 0 <= i < |r| ==> r[i] == Entry(events[i])
  {
    seq(|events|, i requires 0 <= i < |events| => Entry(events[i]))
  }

  ghost function Start(records: seq<Record>): State {
    State([], 0, false, [], 1, [], [], Service(records, 0, []), [], 0, map[], true)
  }

  function Wire(response: Response, damage: Damage): Option<Reply> {
    if response.Rejected? then None
    else
      var kept := if damage.kept < |response.results| then damage.kept else |response.results|;
      var items := seq(kept, i => true) + if damage.brokenItem then [false] else [];
      Some(if damage.counters then Reply(items, response.applied, response.duplicate, response.skipped)
           else Reply(items, 0, 0, 0))
  }

  ghost function Sent(s: State, flight: Flight): State {
    s.(flights := s.flights + [flight], requests := s.requests + [flight], nextId := s.nextId + 1)
  }

  ghost function AfterFlush(s: State, readable: bool): State {
    var batch := if s.online && s.cachedCount != 0 && readable then NextBatch(s.stored, BATCH_LIMIT) else [];
    if batch == [] then s
    else Sent(s, Flight(s.nextId, batch, s.dropped))
  }

  function Filed(known: map<nat, Verdict>, first: nat, verdicts: seq<Verdict>): (r: map<nat, Verdict>)
    ensures forall k :: k in r <==> k in known || first <= k < first + |verdicts|
    ensures forall k :: first <= k < first + |verdicts| ==> r[k] == verdicts[k - first]
    decreases |verdicts|
  {
    if verdicts == [] then known
    else
      var last := |verdicts| - 1;
      Filed(known, first, verdicts[..last])[first + last := verdicts[last]]
  }

  /** The server may get a request at any time, even long after the gate has given up on it. */
  ghost function AfterServe(env: Environment, s: State, request: Flight, now: int): State {
    var verdicts := Verdicts(env, s.service, request.batch, now);
    if 1 <= |request.batch| <= MAX_EVENTS then
      s.(service := Act(env, s.service, Batch(request.batch, now)),
         answers := s.answers + [Answer(request, Summary(request.batch, verdicts))],
         verdicts := Filed(s.verdicts, request.first, verdicts))
    else s.(answers := s.answers + [Answer(request, Rejected)])
  }

  /** How many events a reply to the innermost flush takes off the queue. */
  ghost function Dropping(s: State, answer: Answer, damage: Damage, saved: bool): (n: nat)
    requires s.flights != []
    ensures n <= |s.stored| && n <= |s.flights[|s.flights| - 1].batch| && (n > 0 ==> n <= s.cachedCount)
  {
    Settled(s.stored, s.cachedCount, |s.flights[|s.flights| - 1].batch|, Wire(answer.response, damage), saved)
  }

  ghost function AfterReceive(s: State, answer: Answer, damage: Damage, saved: bool): State
    requires s.flights != []
  {
    var done := Dropping(s, answer, damage, saved);
    s.(stored := s.stored[done..], cachedCount := s.cachedCount - done, dropped := s.dropped + done,
       flights := s.flights[..|s.flights| - 1])
  }

  ghost predicate IsForInnermost(s: State, answer: nat) {
    answer < |s.answers| && s.flights != [] && s.flights[|s.flights| - 1].id == s.answers[answer].request.id
  }

  /** A lost connection leaves no reply to wait for. */
  ghost function Next(env: Environment, s: State, step: Step): State {
    match step
    case Append(event, written) =>
      if !written then s
      else s.(stored := s.stored + [Entry(event)], cachedCount := s.cachedCount + 1, appended := s.appended + [event])
    case Flush(readable) => AfterFlush(s, readable)
    case Serve(request, now) => if request < |s.requests| then AfterServe(env, s, s.requests[request], now) else s
    case Receive(answer, damage, saved) =>
      if IsForInnermost(s, answer) then AfterReceive(s, s.answers[answer], damage, saved) else s
    case GiveUp => if s.flights != [] then s.(flights := s.flights[..|s.flights| - 1]) else s
    case Connect => s.(online := true)
    case Disconnect => s.(online := false, flights := [])
    case Restart(readable) =>
      s.(online := false, flights := [], cachedCount := if readable then |s.stored| else 0, counted := s.counted && readable)
    case Elsewhere(records, operations) =>
      if Extends(s.service.records, records) then s.(service := s.service.(records := records, operations := operations)) else s
  }

  ghost function Run(env: Environment, s: State, steps: seq<Step>): State
    decreases |steps|
  {
    if steps == [] then s else Next(env, Run(env, s, steps[..|steps| - 1]), steps[|steps| - 1])
  }

  /** No flush starts while another one is waiting for its reply. */
  ghost predicate OneFlushAtATime(env: Environment, s: State, steps: seq<Step>) {
    forall i :: 0 <= i < |steps| && steps[i].Flush? ==> Run(env, s, steps[..i]).flights == []
  }

  /** Events are recorded only while there is no connection, as the gate does but for a socket being closed. */
  ghost predicate AppendsOffline(env: Environment, s: State, steps: seq<Step>) {
    forall i :: 0 <= i < |steps| && steps[i].Append? ==> !Run(env, s, steps[..i]).online
  }

  // --- The invariant -----------------------------------------------------------------

  ghost predicate QueueIsSuffix(s: State) {
    && s.dropped <= |s.appended| && s.stored == Lines(s.appended[s.dropped..])
    && 0 <= s.cachedCount <= |s.stored| && (s.counted ==> s.cachedCount == |s.stored|)
  }

  ghost predicate Decided(s: State, first: nat, size: nat) {
    forall k :: first <= k < first + size ==> k in s.verdicts
  }

  ghost predicate Genuine(s: State, flight: Flight) {
    && flight.id < s.nextId && 1 <= |flight.batch| <= MAX_EVENTS
    && flight.first + |flight.batch| <= |s.appended|
    && flight.batch == s.appended[flight.first..flight.first + |flight.batch|]
  }

  ghost predicate Traffic(s: State) {
    && (forall i :: 0 <= i < |s.flights| ==> Genuine(s, s.flights[i]))
    && (forall i :: 0 <= i < |s.requests| ==> Genuine(s, s.requests[i]))
    && (forall i :: 0 <= i < |s.answers| ==> Genuine(s, s.answers[i].request))
  }

  ghost predicate SameIdSameBatch(s: State) {
    && (forall i, j :: 0 <= i < |s.flights| && 0 <= j < |s.requests| && s.flights[i].id == s.requests[j].id ==>
          s.flights[i] == s.requests[j])
    && (forall i, j :: 0 <= i < |s.flights| && 0 <= j < |s.answers| && s.flights[i].id == s.answers[j].request.id ==>
          s.flights[i] == s.answers[j].request)
  }

  ghost predicate AnswersDecide(s: State) {
    forall i :: 0 <= i < |s.answers| ==>
      && Decided(s, s.answers[i].request.first, |s.answers[i].request.batch|)
      && s.answers[i].response.Replayed?
      && var r := s.answers[i].response;
         |r.results| == |s.answers[i].request.batch| == r.applied + r.duplicate + r.skipped
  }

  /** What holds whatever flushes overlap, as long as nothing undecided has been dropped. */
  ghost predicate Steady(s: State) {
    && QueueIsSuffix(s) && Traffic(s) && SameIdSameBatch(s) && AnswersDecide(s)
    && Decided(s, 0, s.dropped) && Sound(s.service) && (s.flights != [] ==> s.online)
  }

  ghost predicate Safe(s: State) {
    Steady(s) && |s.flights| <= 1 && forall i :: 0 <= i < |s.flights| ==> s.flights[i].first == s.dropped
  }

  lemma AppendKeepsSteady(env: Environment, s: State, event: Event, written: bool)
    requires Steady(s)
    ensures Steady(Next(env, s, Append(event, written)))
  {
    if written {
      var t := Next(env, s, Append(event, written));
      assert t.appended[t.dropped..] == s.appended[s.dropped..] + [event];
      assert t.stored == Lines(t.appended[t.dropped..]);
      hide Sound;
    }
  }

  lemma BatchOfLines(events: seq<Event>)
    ensures NextBatch(Lines(events), BATCH_LIMIT) == Head(events, BATCH_LIMIT)
  {
    StoredIsIdempotent(Lines(events));
    var first := Head(Lines(events), BATCH_LIMIT);
    assert forall i :: 0 <= i < |first| ==> first[i].Entry?;
    assert Events(first) == Head(events, BATCH_LIMIT);
  }

  lemma FlushedBatch(s: State)
    requires QueueIsSuffix(s)
    ensures var batch := NextBatch(s.stored, BATCH_LIMIT);
            && |batch| == (if |s.stored| < BATCH_LIMIT then |s.stored| else BATCH_LIMIT)
            && batch == s.appended[s.dropped..s.dropped + |batch|]
  {
    BatchOfLines(s.appended[s.dropped..]);
    assert Head(s.appended[s.dropped..], BATCH_LIMIT) == s.appended[s.dropped..s.dropped + |Head(s.appended[s.dropped..], BATCH_LIMIT)|];
  }

  /** A batch is made of the first events not yet dropped, 500 of them if there are as many. */
  lemma BatchIsFront(s: State)
    requires Steady(s)
    ensures var n := if |s.stored| < 500 then |s.stored| else 500;
            s.dropped + n <= |s.appended| && NextBatch(s.stored, BATCH_LIMIT) == s.appended[s.dropped..s.dropped + n]
  {
    FlushedBatch(s);
    hide NextBatch, Traffic, SameIdSameBatch, AnswersDecide, Sound;
  }

  lemma SendingKeepsTraffic(s: State, flight: Flight)
    requires Traffic(s) && SameIdSameBatch(s) && flight.id == s.nextId
    requires Genuine(s.(nextId := s.nextId + 1), flight)
    ensures Traffic(Sent(s, flight)) && SameIdSameBatch(Sent(s, flight))
  {
    var t := Sent(s, flight);
    assert forall f :: Genuine(s, f) ==> Genuine(t, f);
    assert forall f :: Genuine(s, f) ==> f.id < s.nextId;
    hide Genuine;
  }

  lemma FlushKeepsSteady(env: Environment, s: State, readable: bool)
    requires Steady(s)
    ensures Steady(Next(env, s, Flush(readable)))
  {
    FlushedBatch(s);
    if Next(env, s, Flush(readable)) != s {
      SendingKeepsTraffic(s, Flight(s.nextId, NextBatch(s.stored, BATCH_LIMIT), s.dropped));
      hide Traffic, SameIdSameBatch, NextBatch, Sound;
    }
  }

  lemma {:induction false} CountsOfSummary(events: seq<Event>, verdicts: seq<Verdict>)
    requires |events| == |verdicts|
    ensures var r := Summary(events, verdicts); |r.results| == |events| == r.applied + r.duplicate + r.skipped
  {
    CountsAddUp(verdicts);
  }

  lemma AnswerKeepsTraffic(s: State, answer: Answer)
    requires Traffic(s) && SameIdSameBatch(s) && answer.request in s.requests
    ensures Traffic(s.(answers := s.answers + [answer])) && SameIdSameBatch(s.(answers := s.answers + [answer]))
  {
    var t := s.(answers := s.answers + [answer]);
    assert forall f :: Genuine(s, f) ==> Genuine(t, f);
    hide Genuine;
  }

  /** A complete answer whose batch is decided by then. */
  lemma AnswerDecides(s: State, t: State, answer: Answer)
    requires AnswersDecide(s) && t.answers == s.answers + [answer] && (forall k :: k in s.verdicts ==> k in t.verdicts)
    requires Decided(t, answer.request.first, |answer.request.batch|) && AnswersFully(answer, answer.request)
    ensures AnswersDecide(t)
  {
    assert forall first, size :: Decided(s, first, size) ==> Decided(t, first, size);
    hide Decided;
  }

  lemma ServeKeepsSteady(env: Environment, s: State, request: nat, now: int)
    requires Steady(s) && request < |s.requests|
    ensures Steady(Next(env, s, Serve(request, now)))
  {
    var r := s.requests[request];
    var t := Next(env, s, Serve(request, now));
    assert Genuine(s, r);
    ServeAnswers(env, s, request, now);
    ActKeepsSound(env, s.service, Batch(r.batch, now));
    assert t.service == Act(env, s.service, Batch(r.batch, now));
    var answer := t.answers[|s.answers|];
    assert t.answers == s.answers + [answer];
    hide Next, Act, Sound, NextBatch;
    AnswerKeepsTraffic(s, answer);
    AnswerDecides(s, t, answer);
    hide Traffic, SameIdSameBatch, AnswersDecide, AnswersFully, Genuine;
    var u := s.(answers := t.answers);
    assert t == u.(service := t.service, verdicts := t.verdicts);
    SameTraffic(u, t);
  }

  lemma SameTraffic(s: State, t: State)
    requires Traffic(s) && SameIdSameBatch(s)
    requires t == s.(service := t.service, verdicts := t.verdicts)
    ensures Traffic(t) && SameIdSameBatch(t)
  {
    assert forall f :: Genuine(s, f) ==> Genuine(t, f);
    hide Genuine;
  }

  lemma {:induction false} LeadingOfWire(kept: nat, brokenItem: bool)
    ensures LeadingVerdicts(seq(kept, i => true) + if brokenItem then [false] else []) == kept
  {
    if kept > 0 {
      LeadingOfWire(kept - 1, brokenItem);
      var rest := seq(kept - 1, i => true) + if brokenItem then [false] else [];
      assert seq(kept, i => true) + (if brokenItem then [false] else []) == [true] + rest;
    }
  }

  /** Every truncation of the server's reply settles exactly the results that arrived; if none arrived,
      all or nothing according to the counters. */
  lemma TruncatedReply(response: Response, damage: Damage, submitted: nat)
    requires response.Replayed? && submitted >= 1
    requires |response.results| == submitted == response.applied + response.duplicate + response.skipped
    ensures HandledPrefix(Wire(response, damage).value, submitted)
         == if damage.kept > 0 then (if damage.kept < submitted then damage.kept else submitted)
            else if damage.counters then submitted else 0
  {
    LeadingOfWire(if damage.kept < submitted then damage.kept else submitted, damage.brokenItem);
  }

  /** An answered batch is decided, and so is all that its reply can take off the queue. */
  lemma AnsweredIsDecided(s: State, answer: nat)
    requires Steady(s) && IsForInnermost(s, answer)
    ensures var f := s.flights[|s.flights| - 1]; Decided(s, f.first, |f.batch|)
  {
    assert s.flights[|s.flights| - 1] == s.answers[answer].request;
    hide Sound;
  }

  lemma SettlingKeepsSteady(s: State, answer: nat, damage: Damage, saved: bool)
    requires Steady(s) && IsForInnermost(s, answer)
    requires Decided(s, 0, s.dropped + Dropping(s, s.answers[answer], damage, saved))
    ensures Steady(AfterReceive(s, s.answers[answer], damage, saved))
  {
    var done := Dropping(s, s.answers[answer], damage, saved);
    var t := AfterReceive(s, s.answers[answer], damage, saved);
    hide Sound, Dropping;
    assert t.appended[t.dropped..] == s.appended[s.dropped..][done..];
    assert t.stored == Lines(t.appended[t.dropped..]);
  }

  lemma QuietKeepsSteady(env: Environment, s: State, step: Step)
    requires Steady(s) && (step.GiveUp? || step.Connect? || step.Disconnect? || step.Restart?)
    ensures Steady(Next(env, s, step))
  {
    hide NextBatch, Sound, Act, Extends, AnswersDecide;
    assert AnswersDecide(Next(env, s, step)) by {
      DecidedKept(s, Next(env, s, step));
    }
  }

  lemma DecidedKept(s: State, t: State)
    requires AnswersDecide(s) && t.answers == s.answers && t.verdicts == s.verdicts
    ensures AnswersDecide(t)
  {
    assert forall first, size :: Decided(s, first, size) ==> Decided(t, first, size);
    hide Decided;
  }

  lemma ElsewhereKeepsSteady(env: Environment, s: State, records: seq<Record>, operations: nat)
    requires Steady(s)
    ensures Steady(Next(env, s, Elsewhere(records, operations)))
  {
    if Extends(s.service.records, records) {
      ActKeepsSound(env, s.service, Live(records, operations));
    }
    var t := Next(env, s, Elsewhere(records, operations));
    hide NextBatch, Sound, Act, Extends, AnswersDecide, Next;
    assert t == s.(service := t.service);
    DecidedKept(s, t);
  }

  /** The queue can only suffer from a reply. */
  lemma NextKeepsSteady(env: Environment, s: State, step: Step)
    requires Steady(s)
    requires step.Receive? && IsForInnermost(s, step.answer) ==>
               Decided(s, 0, s.dropped + Dropping(s, s.answers[step.answer], step.damage, step.saved))
    ensures Steady(Next(env, s, step))
  {
    hide Steady, Act, Dropping, Decided;
    match step {
      case Append(event, written) => AppendKeepsSteady(env, s, event, written);
      case Flush(readable) => FlushKeepsSteady(env, s, readable);
      case Serve(request, now) => if request < |s.requests| { ServeKeepsSteady(env, s, request, now); }
      case Receive(answer, damage, saved) =>
        if IsForInnermost(s, answer) { SettlingKeepsSteady(s, answer, damage, saved); }
      case Elsewhere(records, operations) => ElsewhereKeepsSteady(env, s, records, operations);
      case _ => QuietKeepsSteady(env, s, step);
    }
  }

  lemma NextKeepsSafe(env: Environment, s: State, step: Step)
    requires Safe(s) && (step.Flush? ==> s.flights == [])
    ensures Safe(Next(env, s, step))
  {
    if step.Receive? && IsForInnermost(s, step.answer) {
      AnsweredIsDecided(s, step.answer);
    }
    assert s.flights != [] ==> s.online;
    NextKeepsSteady(env, s, step);
    hide Steady, NextBatch, Act, Dropping;
  }

  /** With one flush at a time, through lost and truncated replies, late requests, restarts and failing
      writes: the queue is what was appended minus a prefix, every event of that prefix has a verdict from
      the server, and no event has changed the records twice. */
  lemma {:induction false} NothingLostUndecided(env: Environment, records: seq<Record>, steps: seq<Step>)
    requires OneFlushAtATime(env, Start(records), steps)
    ensures Safe(Run(env, Start(records), steps))
    decreases |steps|
  {
    if steps != [] {
      var last := |steps| - 1;
      var before := steps[..last];
      assert forall i :: 0 <= i < last ==> before[..i] == steps[..i];
      NothingLostUndecided(env, records, before);
      NextKeepsSafe(env, Run(env, Start(records), before), steps[last]);
    }
  }

  lemma {:induction false} RunInStages(env: Environment, s: State, first: seq<Step>, rest: seq<Step>)
    ensures Run(env, s, first + rest) == Run(env, Run(env, s, first), rest)
    decreases |rest|
  {
    if rest == [] {
      assert first + rest == first;
    } else {
      var last := |rest| - 1;
      assert (first + rest)[..|first + rest| - 1] == first + rest[..last];
      RunInStages(env, s, first, rest[..last]);
    }
  }

  lemma RunOfThree(env: Environment, s: State, a: Step, b: Step, c: Step)
    ensures Run(env, s, [a, b, c]) == Next(env, Next(env, Next(env, s, a), b), c)
  {
    hide Next;
    assert [a, b, c][..2] == [a, b] && [a, b][..1] == [a] && [a][..0] == [];
    assert Run(env, s, [a]) == Next(env, Run(env, s, []), a);
    assert Run(env, s, [a, b]) == Next(env, Run(env, s, [a]), b);
  }

  lemma RunOfTwo(env: Environment, s: State, a: Step, b: Step)
    ensures Run(env, s, [a, b]) == Next(env, Next(env, s, a), b)
  {
    hide Next;
    assert [a, b][..1] == [a] && [a][..0] == [];
    assert Run(env, s, [a]) == Next(env, Run(env, s, []), a);
  }

  // --- Draining the queue ----------------------------------------------------------------

  const UNDAMAGED := Damage(MAX_EVENTS, false, true)

  function AtMost(n: nat, limit: nat): nat { if n < limit then n else limit }

  lemma FlushSends(env: Environment, s: State)
    requires Steady(s) && s.online && s.cachedCount != 0
    ensures var batch := NextBatch(s.stored, BATCH_LIMIT);
            && 1 <= |batch| == AtMost(|s.stored|, BATCH_LIMIT)
            && Next(env, s, Flush(true)) == Sent(s, Flight(s.nextId, batch, s.dropped))
  {
    FlushedBatch(s);
  }

  /** The innermost flush ends, and the first n events leave the queue. */
  ghost function Unloaded(s: State, n: nat): State
    requires s.flights != [] && n <= |s.stored|
  {
    s.(stored := s.stored[n..], cachedCount := s.cachedCount - n, dropped := s.dropped + n,
       flights := s.flights[..|s.flights| - 1])
  }

  /** The whole answer to a flush, before the link has damaged it. */
  ghost predicate AnswersFully(answer: Answer, flight: Flight) {
    && answer.request == flight && answer.response.Replayed?
    && var r := answer.response;
       1 <= |flight.batch| == |r.results| == r.applied + r.duplicate + r.skipped
  }

  /** A reply to the innermost flush, cut after `kept` results, settles as many events, if that many are counted. */
  lemma ReceiveSettles(env: Environment, s: State, answer: nat, kept: nat)
    requires answer < |s.answers| && s.flights != [] && AnswersFully(s.answers[answer], s.flights[|s.flights| - 1])
    requires kept >= 1 && AtMost(kept, |s.flights[|s.flights| - 1].batch|) <= |s.stored|
    ensures var n := AtMost(kept, |s.flights[|s.flights| - 1].batch|);
            Next(env, s, Receive(answer, Damage(kept, false, true), true)) == Unloaded(s, if n <= s.cachedCount then n else 0)
  {
    DropsWhatArrived(s, s.answers[answer], kept);
    hide Dropping, AnswersFully;
  }

  lemma DropsWhatArrived(s: State, answer: Answer, kept: nat)
    requires s.flights != [] && AnswersFully(answer, s.flights[|s.flights| - 1])
    requires kept >= 1 && AtMost(kept, |s.flights[|s.flights| - 1].batch|) <= |s.stored|
    ensures var n := AtMost(kept, |s.flights[|s.flights| - 1].batch|);
            Dropping(s, answer, Damage(kept, false, true), true) == if n <= s.cachedCount then n else 0
  {
    TruncatedReply(answer.response, Damage(kept, false, true), |s.flights[|s.flights| - 1].batch|);
    hide HandledPrefix, Wire;
  }

  lemma ServeAnswers(env: Environment, s: State, request: nat, now: int)
    requires request < |s.requests| && 1 <= |s.requests[request].batch| <= MAX_EVENTS
    ensures var t, r := Next(env, s, Serve(request, now)), s.requests[request];
            && |t.answers| == |s.answers| + 1 && t.answers[..|s.answers|] == s.answers
            && t == s.(answers := t.answers, service := t.service, verdicts := t.verdicts)
            && AnswersFully(t.answers[|s.answers|], r)
            && forall k :: k in t.verdicts <==> k in s.verdicts || r.first <= k < r.first + |r.batch|
  {
    var r := s.requests[request];
    CountsOfSummary(r.batch, Verdicts(env, s.service, r.batch, now));
    hide Summary, Verdicts, Act;
  }

  /** One round: the link comes up if it is down; send, serve, receive. */
  ghost function Round(env: Environment, s: State, now: int): State {
    var sent := Next(env, Next(env, s, Connect), Flush(true));
    Next(env, Next(env, sent, Serve(|s.requests|, now)), Receive(|s.answers|, UNDAMAGED, true))
  }

  lemma RoundKeepsSafe(env: Environment, s: State, now: int)
    requires Safe(s) && s.flights == []
    ensures Safe(Round(env, s, now))
  {
    var up := Next(env, s, Connect);
    NextKeepsSafe(env, s, Connect);
    NextKeepsSafe(env, up, Flush(true));
    hide Safe, Next;
    var sent := Next(env, up, Flush(true));
    NextKeepsSafe(env, sent, Serve(|s.requests|, now));
    NextKeepsSafe(env, Next(env, sent, Serve(|s.requests|, now)), Receive(|s.answers|, UNDAMAGED, true));
  }

  /** What a round takes off the queue: the whole batch if that many events are counted, and nothing otherwise. */
  function Drained(s: State): nat {
    var n := AtMost(|s.stored|, BATCH_LIMIT);
    if n <= s.cachedCount then n else 0
  }

  /** The only flush under way is served and its reply arrives whole. */
  lemma FlightSettles(env: Environment, s: State, now: int)
    requires |s.flights| == 1 && s.requests != [] && s.requests[|s.requests| - 1] == s.flights[0]
    requires 1 <= |s.flights[0].batch| == AtMost(|s.stored|, BATCH_LIMIT)
    ensures var done := Next(env, Next(env, s, Serve(|s.requests| - 1, now)), Receive(|s.answers|, UNDAMAGED, true));
            var n := Drained(s);
            && done.dropped == s.dropped + n && done.stored == s.stored[n..]
            && done.cachedCount == s.cachedCount - n && done.flights == []
  {
    ServeAnswers(env, s, |s.requests| - 1, now);
    var served := Next(env, s, Serve(|s.requests| - 1, now));
    ReceiveSettles(env, served, |s.answers|, MAX_EVENTS);
    hide Next, AnswersFully;
  }

  /** In any safe state with no flush under way, whether or not the count is right. */
  lemma RoundDrains(env: Environment, s: State, now: int)
    requires Safe(s) && s.flights == []
    ensures var done, n := Round(env, s, now), Drained(s);
            && done.dropped == s.dropped + n && done.stored == s.stored[n..]
            && done.cachedCount == s.cachedCount - n && done.flights == []
  {
    var up := Next(env, s, Connect);
    NextKeepsSafe(env, s, Connect);
    hide Safe;
    if s.cachedCount != 0 {
      LinkUpDrains(env, up, now);
    }
  }

  lemma LinkUpDrains(env: Environment, s: State, now: int)
    requires Safe(s) && s.online && s.flights == [] && s.cachedCount != 0
    ensures var sent := Next(env, s, Flush(true));
            var done, n := Next(env, Next(env, sent, Serve(|s.requests|, now)), Receive(|s.answers|, UNDAMAGED, true)), Drained(s);
            && done.dropped == s.dropped + n && done.stored == s.stored[n..]
            && done.cachedCount == s.cachedCount - n && done.flights == []
  {
    FlushSends(env, s);
    var sent := Next(env, s, Flush(true));
    hide Safe, NextBatch, Next;
    assert sent.requests[|s.requests|] == sent.flights[0];
    FlightSettles(env, sent, now);
  }

  ghost function Rounds(env: Environment, s: State, k: nat, now: int): State {
    if k == 0 then s else Round(env, Rounds(env, s, k - 1, now), now)
  }

  ghost predicate Quiet(s: State) {
    Safe(s) && s.flights == []
  }

  lemma RoundStep(env: Environment, s: State, now: int)
    requires Quiet(s)
    ensures var t, n := Round(env, s, now), Drained(s);
            && Quiet(t) && n <= |s.stored| && t.stored == s.stored[n..] && t.cachedCount == s.cachedCount - n
            && (s.cachedCount == |s.stored| && s.stored != [] ==> n >= 1)
  {
    RoundKeepsSafe(env, s, now);
    RoundDrains(env, s, now);
    hide Safe, Round;
  }

  lemma RoundsUnfold(env: Environment, s: State, k: nat, now: int)
    ensures Rounds(env, s, k, now) == if k == 0 then s else Round(env, Rounds(env, s, k - 1, now), now)
  {
  }

  /** Rounds never close the gap between what is stored and what is counted. */
  lemma {:induction false} RoundsKeepGap(env: Environment, s: State, k: nat, now: int)
    requires Quiet(s)
    ensures var t := Rounds(env, s, k, now); Quiet(t) && |t.stored| - t.cachedCount == |s.stored| - s.cachedCount
  {
    RoundsUnfold(env, s, k, now);
    hide *;
    if k > 0 {
      var t := Rounds(env, s, k - 1, now);
      RoundsKeepGap(env, s, k - 1, now);
      RoundStep(env, t, now);
    }
  }

  lemma {:induction false} RoundsDrain(env: Environment, s: State, k: nat, now: int)
    requires Quiet(s) && s.cachedCount == |s.stored|
    ensures |Rounds(env, s, k, now).stored| <= if k < |s.stored| then |s.stored| - k else 0
  {
    RoundsUnfold(env, s, k, now);
    hide *;
    if k > 0 {
      var t := Rounds(env, s, k - 1, now);
      RoundsKeepGap(env, s, k - 1, now);
      RoundsDrain(env, s, k - 1, now);
      RoundStep(env, t, now);
    }
  }

  /** With the link up the queue can be emptied by any number of rounds if and only if every stored event is counted. */
  lemma QueueEmptiesIff(env: Environment, s: State, now: int)
    requires Safe(s) && s.flights == []
    ensures (exists k :: Rounds(env, s, k, now).stored == []) <==> s.cachedCount == |s.stored|
  {
    if k :| Rounds(env, s, k, now).stored == [] {
      RoundsKeepGap(env, s, k, now);
    }
    if s.cachedCount == |s.stored| {
      RoundsDrain(env, s, |s.stored|, now);
      assert Rounds(env, s, |s.stored|, now).stored == [];
    }
  }

  lemma {:induction false} NothingDrains(env: Environment, s: State, k: nat, now: int)
    requires Quiet(s) && Drained(s) == 0
    ensures Rounds(env, s, k, now).stored == s.stored && Rounds(env, s, k, now).cachedCount == s.cachedCount
  {
    RoundsUnfold(env, s, k, now);
    hide *;
    if k > 0 {
      var t := Rounds(env, s, k - 1, now);
      RoundsKeepGap(env, s, k - 1, now);
      NothingDrains(env, s, k - 1, now);
      SameDrained(s, t);
      RoundStep(env, t, now);
    }
  }

  lemma SameDrained(s: State, t: State)
    requires t.stored == s.stored && t.cachedCount == s.cachedCount
    ensures Drained(t) == Drained(s)
  {
  }

  /** The count goes wrong for good when the queue file cannot be read at a start: with two events stored and one
      appended later, no number of rounds takes anything off the queue. */
  lemma UnreadableStartSticks(env: Environment, records: seq<Record>, a: Event, b: Event, c: Event, k: nat, now: int)
    ensures var steps := [Append(a, true), Append(b, true), Restart(false), Append(c, true)];
            var s := Run(env, Start(records), steps);
            && s.cachedCount == 1 && s.stored == [Entry(a), Entry(b), Entry(c)]
            && Rounds(env, s, k, now).stored == s.stored
  {
    var steps := [Append(a, true), Append(b, true), Restart(false), Append(c, true)];
    var s := Run(env, Start(records), steps);
    assert steps == [Append(a, true), Append(b, true), Restart(false)] + [Append(c, true)];
    RunInStages(env, Start(records), [Append(a, true), Append(b, true), Restart(false)], [Append(c, true)]);
    RunOfThree(env, Start(records), Append(a, true), Append(b, true), Restart(false));
    var third := Run(env, Start(records), [Append(a, true), Append(b, true), Restart(false)]);
    assert third.cachedCount == 0 && third.stored == [Entry(a), Entry(b)] && third.flights == [];
    assert [Append(c, true)][..0] == [];
    assert s == Next(env, third, Append(c, true));
    NothingLostUndecided(env, records, steps);
    NothingDrains(env, s, k, now);
  }

  // --- A second flush inside the first --------------------------------------------------------

  /** What the requests sent so far can have reached: at most one batch beyond the events dropped; and a flush under
      way has sent the whole front of the queue, which cannot grow meanwhile. */
  ghost predicate Confined(s: State) {
    && (forall k :: k in s.verdicts ==> k < s.dropped + BATCH_LIMIT)
    && (forall i :: 0 <= i < |s.requests| ==> s.requests[i].first <= s.dropped && |s.requests[i].batch| <= BATCH_LIMIT)
    && (forall i :: 0 <= i < |s.flights| ==>
          s.flights[i] in s.requests && |s.flights[i].batch| == AtMost(|s.stored|, BATCH_LIMIT))
  }

  lemma FlushKeepsConfined(env: Environment, s: State, readable: bool)
    requires Safe(s) && Confined(s)
    ensures Confined(Next(env, s, Flush(readable)))
  {
    FlushedBatch(s);
    hide Safe, NextBatch, QueueIsSuffix;
  }

  lemma ServeKeepsConfined(env: Environment, s: State, request: nat, now: int)
    requires Safe(s) && Confined(s) && request < |s.requests|
    ensures Confined(Next(env, s, Serve(request, now)))
  {
    assert Genuine(s, s.requests[request]);
    ServeAnswers(env, s, request, now);
    hide Safe, Next;
  }

  lemma NextKeepsConfined(env: Environment, s: State, step: Step)
    requires Safe(s) && Confined(s) && (step.Append? ==> !s.online)
    ensures Confined(Next(env, s, step))
  {
    match step {
      case Flush(readable) => FlushKeepsConfined(env, s, readable);
      case Serve(request, now) => if request < |s.requests| { ServeKeepsConfined(env, s, request, now); }
      case _ => hide Safe, Dropping;
    }
  }

  lemma {:induction false} OneFlushIsConfined(env: Environment, records: seq<Record>, steps: seq<Step>)
    requires OneFlushAtATime(env, Start(records), steps) && AppendsOffline(env, Start(records), steps)
    ensures Confined(Run(env, Start(records), steps))
    decreases |steps|
  {
    if steps != [] {
      var last := |steps| - 1;
      var before := steps[..last];
      assert forall i :: 0 <= i < last ==> before[..i] == steps[..i];
      OneFlushIsConfined(env, records, before);
      NothingLostUndecided(env, records, before);
      hide Safe, Confined, Next;
      NextKeepsConfined(env, Run(env, Start(records), before), steps[last]);
    }
  }

  /** An event has left the queue without the server ever having judged it. */
  ghost predicate Lost(s: State) {
    exists k :: 0 <= k < s.dropped && k !in s.verdicts
  }

  /** A run without another flush, recording events off line only. */
  ghost predicate Unflushed(env: Environment, s: State, steps: seq<Step>) {
    (forall i :: 0 <= i < |steps| ==> !steps[i].Flush?) && AppendsOffline(env, s, steps)
  }

  lemma UnflushedBefore(env: Environment, s: State, steps: seq<Step>)
    requires Unflushed(env, s, steps) && steps != []
    ensures Unflushed(env, s, steps[..|steps| - 1])
    ensures var step := steps[|steps| - 1]; !step.Flush? && (step.Append? ==> !Run(env, s, steps[..|steps| - 1]).online)
  {
    var before := steps[..|steps| - 1];
    assert forall i :: 0 <= i < |before| ==> before[..i] == steps[..i];
  }

  ghost predicate WholeReplies(steps: seq<Step>) {
    forall i :: 0 <= i < |steps| && steps[i].Receive? ==> steps[i].damage == UNDAMAGED
  }

  /** Two flushes of the same front of the queue, the inner one of all that is counted, or what is left of them. */
  ghost predicate Harmless(s: State) {
    && Steady(s) && |s.flights| <= 2
    && (|s.flights| == 1 ==> s.flights[0].first == s.dropped || Decided(s, 0, s.dropped + s.cachedCount))
    && (|s.flights| == 2 ==>
          s.flights[0].first == s.flights[1].first == s.dropped && s.cachedCount <= |s.flights[1].batch|)
  }

  /** When the inner flush got its reply, all that is counted is decided. */
  lemma ReplyIsHarmless(env: Environment, s: State, answer: nat, damage: Damage, saved: bool)
    requires Harmless(s) && IsForInnermost(s, answer)
    ensures Harmless(Next(env, s, Receive(answer, damage, saved)))
  {
    AnsweredIsDecided(s, answer);
    NextKeepsSteady(env, s, Receive(answer, damage, saved));
    hide Steady, Dropping;
  }

  lemma NextKeepsHarmless(env: Environment, s: State, step: Step)
    requires Harmless(s) && !step.Flush? && (step.Append? ==> !s.online)
    ensures Harmless(Next(env, s, step))
  {
    assert s.flights != [] ==> s.online;
    if step.Receive? && IsForInnermost(s, step.answer) {
      ReplyIsHarmless(env, s, step.answer, step.damage, step.saved);
    } else {
      NextKeepsSteady(env, s, step);
      hide Steady, NextBatch, Act, Dropping;
    }
  }

  lemma {:induction false} HarmlessWithoutFlush(env: Environment, s: State, steps: seq<Step>)
    requires Harmless(s) && Unflushed(env, s, steps)
    ensures Harmless(Run(env, s, steps))
    decreases |steps|
  {
    if steps != [] {
      var last := |steps| - 1;
      UnflushedBefore(env, s, steps);
      HarmlessWithoutFlush(env, s, steps[..last]);
      hide Harmless, Next;
      NextKeepsHarmless(env, Run(env, s, steps[..last]), steps[last]);
    }
  }

  /** The second flush sends at least as many events as are counted, unless those are more than one batch. */
  lemma SmallFlushIsHarmless(env: Environment, s: State)
    requires Safe(s) && (s.flights == [] || s.cachedCount <= BATCH_LIMIT)
    ensures Harmless(Next(env, s, Flush(true)))
  {
    FlushKeepsSteady(env, s, true);
    if s.online && s.cachedCount != 0 {
      FlushSends(env, s);
    }
    hide Steady, Next, NextBatch;
  }

  /** Both requests are served in turn; the inner flush gets its reply whole, the outer one its first `kept` results. */
  function BothReplies(outer: nat, inner: nat, answers: nat, kept: nat, now: int): (steps: seq<Step>)
    ensures forall i :: 0 <= i < |steps| ==> !steps[i].Flush? && !steps[i].Append?
    ensures kept == MAX_EVENTS ==> WholeReplies(steps)
  {
    [Serve(outer, now), Serve(inner, now)]
    + [Receive(answers + 1, UNDAMAGED, true), Receive(answers, Damage(kept, false, true), true)]
  }

  /** Two flushes of the same whole batch under way, and more than that counted. */
  ghost predicate Doubled(s: State) {
    && |s.flights| == 2 && s.flights[0].first == s.flights[1].first == s.dropped
    && |s.flights[0].batch| == |s.flights[1].batch| == BATCH_LIMIT < s.cachedCount <= |s.stored|
    && forall k :: k in s.verdicts ==> k < s.dropped + BATCH_LIMIT
  }

  lemma ServeBoth(env: Environment, s: State, i: nat, j: nat, now: int)
    requires Doubled(s) && i < |s.requests| && s.requests[i] == s.flights[0]
    requires j < |s.requests| && s.requests[j] == s.flights[1]
    ensures var t := Next(env, Next(env, s, Serve(i, now)), Serve(j, now));
            && Doubled(t) && t.dropped == s.dropped && t.flights == s.flights && t.stored == s.stored
            && t.cachedCount == s.cachedCount && t.appended == s.appended && |s.answers| + 1 < |t.answers|
            && AnswersFully(t.answers[|s.answers|], t.flights[0]) && AnswersFully(t.answers[|s.answers| + 1], t.flights[1])
  {
    var one := Next(env, s, Serve(i, now));
    ServeAnswers(env, s, i, now);
    assert one.requests == s.requests;
    ServeAnswers(env, one, j, now);
    var two := Next(env, one, Serve(j, now));
    hide Next;
    assert two.answers[|s.answers|] == two.answers[..|one.answers|][|s.answers|];
  }

  /** The inner reply takes off the batch that both flushes sent, the outer one events behind it. */
  lemma ReceiveBoth(env: Environment, s: State, at: nat, kept: nat)
    requires Doubled(s) && at + 1 < |s.answers|
    requires AnswersFully(s.answers[at], s.flights[0]) && AnswersFully(s.answers[at + 1], s.flights[1])
    requires kept >= 1 && BATCH_LIMIT + AtMost(kept, BATCH_LIMIT) <= s.cachedCount
    ensures var t := Next(env, Next(env, s, Receive(at + 1, UNDAMAGED, true)), Receive(at, Damage(kept, false, true), true));
            var n := BATCH_LIMIT + AtMost(kept, BATCH_LIMIT);
            && t.dropped == s.dropped + n && s.dropped + BATCH_LIMIT !in t.verdicts
            && t.stored == s.stored[n..] && t.appended == s.appended
  {
    ReceiveSettles(env, s, at + 1, MAX_EVENTS);
    var inner := Next(env, s, Receive(at + 1, UNDAMAGED, true));
    assert inner == Unloaded(s, BATCH_LIMIT) && inner.flights == [s.flights[0]];
    ReceiveSettles(env, inner, at, kept);
    assert Next(env, inner, Receive(at, Damage(kept, false, true), true)) == Unloaded(inner, AtMost(kept, BATCH_LIMIT));
    hide Next;
  }

  /** Whatever one-flush run came before: if more than one batch is counted, a second flush inside the first, both
      answered, takes events off the queue that the server has never seen. */
  lemma SecondFlushLoses(env: Environment, s: State, request: nat, kept: nat, now: int)
    requires Safe(s) && Confined(s) && s.flights != []
    requires request < |s.requests| && s.requests[request] == s.flights[0]
    requires kept >= 1 && BATCH_LIMIT + AtMost(kept, BATCH_LIMIT) <= s.cachedCount
    ensures var t := Run(env, Next(env, s, Flush(true)), BothReplies(request, |s.requests|, |s.answers|, kept, now));
            var n := BATCH_LIMIT + AtMost(kept, BATCH_LIMIT);
            && t.dropped == s.dropped + n && s.dropped + BATCH_LIMIT !in t.verdicts
            && t.stored == s.stored[n..] && t.appended == s.appended
  {
    FlushSends(env, s);
    var t := Next(env, s, Flush(true));
    assert Doubled(t) && t.requests[request] == t.flights[0] && t.requests[|s.requests|] == t.flights[1];
    hide Safe, Confined, Next, NextBatch;
    ServeBoth(env, t, request, |s.requests|, now);
    hide Doubled;
    var serve := [Serve(request, now), Serve(|s.requests|, now)];
    var receive := [Receive(|s.answers| + 1, UNDAMAGED, true), Receive(|s.answers|, Damage(kept, false, true), true)];
    var served := Next(env, Next(env, t, serve[0]), serve[1]);
    ReceiveBoth(env, served, |s.answers|, kept);
    RunInStages(env, t, serve, receive);
    RunOfTwo(env, t, serve[0], serve[1]);
    RunOfTwo(env, served, receive[0], receive[1]);
  }

  lemma LargeFlushLoses(env: Environment, s: State, kept: nat, now: int) returns (more: seq<Step>)
    requires Safe(s) && Confined(s) && s.flights != []
    requires kept >= 1 && BATCH_LIMIT + AtMost(kept, BATCH_LIMIT) <= s.cachedCount
    ensures Unflushed(env, Next(env, s, Flush(true)), more) && (kept == MAX_EVENTS ==> WholeReplies(more))
    ensures Lost(Run(env, Next(env, s, Flush(true)), more))
  {
    var i :| 0 <= i < |s.requests| && s.requests[i] == s.flights[0];
    more := BothReplies(i, |s.requests|, |s.answers|, kept, now);
    hide Safe, Confined, Next, Run, BothReplies;
    SecondFlushLoses(env, s, i, kept, now);
  }

  lemma SmallFlushLosesNothing(env: Environment, s: State, more: seq<Step>)
    requires Safe(s) && (s.flights == [] || s.cachedCount <= BATCH_LIMIT)
    requires Unflushed(env, Next(env, s, Flush(true)), more)
    ensures !Lost(Run(env, Next(env, s, Flush(true)), more))
  {
    hide Safe, Next, Run, Unflushed;
    SmallFlushIsHarmless(env, s);
    HarmlessWithoutFlush(env, Next(env, s, Flush(true)), more);
  }

  /** One flush at a time is what safety needs, as long as more than one batch may be counted.  After any such run that
      records events off line only, one more flush leaves the possibility of losing an event, without a further flush, if
      and only if another flush is under way and more than one batch is counted. */
  lemma FlushLosesIff(env: Environment, records: seq<Record>, steps: seq<Step>, now: int)
    requires OneFlushAtATime(env, Start(records), steps) && AppendsOffline(env, Start(records), steps)
    ensures var s := Run(env, Start(records), steps);
            var t := Next(env, s, Flush(true));
            (exists more :: Unflushed(env, t, more) && Lost(Run(env, t, more)))
            <==> s.flights != [] && s.cachedCount > BATCH_LIMIT
  {
    var s := Run(env, Start(records), steps);
    NothingLostUndecided(env, records, steps);
    OneFlushIsConfined(env, records, steps);
    hide Safe, Confined, Run, Next, Lost, Unflushed;
    if s.flights != [] && s.cachedCount > BATCH_LIMIT {
      var more := LargeFlushLoses(env, s, 1, now);
    } else {
      forall more | Unflushed(env, Next(env, s, Flush(true)), more)
        ensures !Lost(Run(env, Next(env, s, Flush(true)), more))
      {
        SmallFlushLosesNothing(env, s, more);
      }
    }
  }

  /** Two flushes of the same front of the queue of which not enough is counted for both, or what is left of them. */
  ghost predicate Scarce(s: State) {
    && Steady(s) && |s.flights| <= 2
    && (|s.flights| == 1 ==> s.flights[0].first == s.dropped || s.cachedCount < |s.flights[0].batch|)
    && (|s.flights| == 2 ==>
          && s.flights[0].first == s.flights[1].first == s.dropped
          && s.cachedCount < |s.flights[0].batch| + |s.flights[1].batch|)
  }

  lemma WholeReplyDrops(s: State, answer: nat, saved: bool)
    requires Steady(s) && IsForInnermost(s, answer)
    ensures var n := Dropping(s, s.answers[answer], UNDAMAGED, saved); n == 0 || n == |s.flights[|s.flights| - 1].batch|
  {
    var f := s.flights[|s.flights| - 1];
    assert f == s.answers[answer].request && Genuine(s, f);
    TruncatedReply(s.answers[answer].response, UNDAMAGED, |f.batch|);
    hide HandledPrefix, Wire, Sound;
  }

  lemma WholeReplyKeepsScarce(env: Environment, s: State, answer: nat, saved: bool)
    requires Scarce(s) && IsForInnermost(s, answer)
    ensures Scarce(Next(env, s, Receive(answer, UNDAMAGED, saved)))
  {
    AnsweredIsDecided(s, answer);
    WholeReplyDrops(s, answer, saved);
    NextKeepsSteady(env, s, Receive(answer, UNDAMAGED, saved));
    hide Steady, Dropping;
  }

  lemma NextKeepsScarce(env: Environment, s: State, step: Step)
    requires Scarce(s) && !step.Flush? && (step.Append? ==> !s.online) && (step.Receive? ==> step.damage == UNDAMAGED)
    ensures Scarce(Next(env, s, step))
  {
    assert s.flights != [] ==> s.online;
    if step.Receive? && IsForInnermost(s, step.answer) {
      WholeReplyKeepsScarce(env, s, step.answer, step.saved);
    } else {
      NextKeepsSteady(env, s, step);
      hide Steady, NextBatch, Act, Dropping;
    }
  }

  lemma {:induction false} ScarceWithoutFlush(env: Environment, s: State, steps: seq<Step>)
    requires Scarce(s) && Unflushed(env, s, steps) && WholeReplies(steps)
    ensures Scarce(Run(env, s, steps))
    decreases |steps|
  {
    if steps != [] {
      var last := |steps| - 1;
      UnflushedBefore(env, s, steps);
      ScarceWithoutFlush(env, s, steps[..last]);
      hide Scarce, Next;
      NextKeepsScarce(env, Run(env, s, steps[..last]), steps[last]);
    }
  }

  lemma FlushIsScarce(env: Environment, s: State)
    requires Safe(s) && Confined(s) && (s.flights == [] || s.cachedCount < 2 * BATCH_LIMIT)
    ensures Scarce(Next(env, s, Flush(true)))
  {
    FlushKeepsSteady(env, s, true);
    if s.online && s.cachedCount != 0 {
      FlushSends(env, s);
    }
    assert s.cachedCount <= |s.stored| && (s.flights != [] ==> |s.flights[0].batch| >= 1) by {
      assert s.flights != [] ==> Genuine(s, s.flights[0]);
    }
    hide Steady, Next, NextBatch;
  }

  lemma ScarceFlushLosesNothing(env: Environment, s: State, more: seq<Step>)
    requires Safe(s) && Confined(s) && (s.flights == [] || s.cachedCount < 2 * BATCH_LIMIT)
    requires Unflushed(env, Next(env, s, Flush(true)), more) && WholeReplies(more)
    ensures !Lost(Run(env, Next(env, s, Flush(true)), more))
  {
    hide Safe, Confined, Next, Run, Unflushed, WholeReplies;
    FlushIsScarce(env, s);
    ScarceWithoutFlush(env, Next(env, s, Flush(true)), more);
  }

  /** If no reply is ever cut, the loss needs two whole batches counted. */
  lemma WholeRepliesLoseIff(env: Environment, records: seq<Record>, steps: seq<Step>, now: int)
    requires OneFlushAtATime(env, Start(records), steps) && AppendsOffline(env, Start(records), steps)
    ensures var s := Run(env, Start(records), steps);
            var t := Next(env, s, Flush(true));
            (exists more :: Unflushed(env, t, more) && WholeReplies(more) && Lost(Run(env, t, more)))
            <==> s.flights != [] && s.cachedCount >= 2 * BATCH_LIMIT
  {
    var s := Run(env, Start(records), steps);
    NothingLostUndecided(env, records, steps);
    OneFlushIsConfined(env, records, steps);
    hide Safe, Confined, Run, Next, Lost, Unflushed, WholeReplies;
    if s.flights != [] && s.cachedCount >= 2 * BATCH_LIMIT {
      var more := LargeFlushLoses(env, s, MAX_EVENTS, now);
    } else {
      forall more | Unflushed(env, Next(env, s, Flush(true)), more) && WholeReplies(more)
        ensures !Lost(Run(env, Next(env, s, Flush(true)), more))
      {
        ScarceFlushLosesNothing(env, s, more);
      }
    }
  }

  function Appends(events: seq<Event>): (steps: seq<Step>)
    ensures |steps| == |events|
  {
    seq(|events|, i requires 0 <= i < |events| => Append(events[i], true))
  }

  lemma {:induction false} AppendsStore(env: Environment, records: seq<Record>, events: seq<Event>)
    ensures Run(env, Start(records), Appends(events))
         == Start(records).(stored := Lines(events), cachedCount := |events|, appended := events)
    decreases |events|
  {
    if events == [] {
      assert Lines(events) == [];
    } else {
      var last := |events| - 1;
      AppendsStore(env, records, events[..last]);
      assert Appends(events)[..last] == Appends(events[..last]);
      assert Lines(events) == Lines(events[..last]) + [Entry(events[last])];
      assert events == events[..last] + [events[last]];
    }
  }

  lemma AppendsAreOffline(env: Environment, records: seq<Record>, events: seq<Event>)
    ensures OneFlushAtATime(env, Start(records), Appends(events)) && AppendsOffline(env, Start(records), Appends(events))
  {
    hide Run, Start;
    forall i | 0 <= i < |events| ensures !Run(env, Start(records), Appends(events)[..i]).online {
      assert Appends(events)[..i] == Appends(events[..i]);
      AppendsStore(env, records, events[..i]);
      StartsOffline(records);
    }
  }

  lemma StartsOffline(records: seq<Record>)
    ensures !Start(records).online
  {
  }

  lemma NoMoreAppends(env: Environment, s: State, steps: seq<Step>, more: seq<Step>)
    requires AppendsOffline(env, s, steps) && forall i :: 0 <= i < |more| ==> !more[i].Append?
    ensures AppendsOffline(env, s, steps + more)
  {
    hide Run;
    forall i | 0 <= i < |steps + more| && (steps + more)[i].Append? ensures !Run(env, s, (steps + more)[..i]).online {
      assert i < |steps| && (steps + more)[..i] == steps[..i];
    }
  }

  /** A gate started with events in its file has connected. */
  ghost function StartedWith(env: Environment, records: seq<Record>, events: seq<Event>): State {
    Next(env, Next(env, Run(env, Start(records), Appends(events)), Restart(true)), Connect)
  }

  lemma StartedIsSafe(env: Environment, records: seq<Record>, events: seq<Event>)
    ensures var s := StartedWith(env, records, events);
            && Safe(s) && Confined(s) && s.flights == s.requests == [] && s.answers == [] && s.dropped == 0
            && s.online && s.cachedCount == |events| && s.stored == Lines(events) && s.appended == events
  {
    var filled := Run(env, Start(records), Appends(events));
    var again := Next(env, filled, Restart(true));
    AppendsStore(env, records, events);
    AppendsAreOffline(env, records, events);
    NothingLostUndecided(env, records, Appends(events));
    OneFlushIsConfined(env, records, Appends(events));
    NextKeepsSafe(env, filled, Restart(true));
    NextKeepsConfined(env, filled, Restart(true));
    NextKeepsSafe(env, again, Connect);
    NextKeepsConfined(env, again, Connect);
    hide Safe, Confined;
  }

  lemma FirstFlush(env: Environment, records: seq<Record>, events: seq<Event>)
    requires events != []
    ensures var s := Next(env, StartedWith(env, records, events), Flush(true));
            && Safe(s) && Confined(s) && s.flights == s.requests && |s.requests| == 1 && s.answers == [] && s.dropped == 0
            && s.cachedCount == |events| && s.stored == Lines(events) && s.appended == events
  {
    var up := StartedWith(env, records, events);
    StartedIsSafe(env, records, events);
    hide StartedWith;
    NextKeepsSafe(env, up, Flush(true));
    NextKeepsConfined(env, up, Flush(true));
    FlushSends(env, up);
    hide Safe, Confined, NextBatch;
  }

  /** Record events, start again and connect, flush twice, and receive both replies. */
  function Overlap(events: seq<Event>, kept: nat, now: int): seq<Step> {
    Appends(events) + [Restart(true), Connect] + [Flush(true), Flush(true)] + BothReplies(0, 1, 0, kept, now)
  }

  lemma OverlapIsOffline(env: Environment, records: seq<Record>, events: seq<Event>, kept: nat, now: int)
    ensures AppendsOffline(env, Start(records), Overlap(events, kept, now))
  {
    var s, start, flushes := Start(records), [Restart(true), Connect], [Flush(true), Flush(true)];
    AppendsAreOffline(env, records, events);
    hide Run, Start, BothReplies, AppendsOffline, Appends;
    NoMoreAppends(env, s, Appends(events), start);
    NoMoreAppends(env, s, Appends(events) + start, flushes);
    NoMoreAppends(env, s, Appends(events) + start + flushes, BothReplies(0, 1, 0, kept, now));
  }

  /** Runs that lose events: a gate is started with more than 500 of them in its file, the flush on connecting sends
      500, the timer's flush inside it sends the same 500, and events behind them go with the reply to the outer one.
      With 501 events this takes a reply cut after its first result, with 1000 it happens with every reply whole. */
  lemma OverlapLosesAnEvent(env: Environment, records: seq<Record>, events: seq<Event>, kept: nat, now: int)
    requires kept >= 1 && BATCH_LIMIT + AtMost(kept, BATCH_LIMIT) <= |events|
    ensures AppendsOffline(env, Start(records), Overlap(events, kept, now))
    ensures var t, n := Run(env, Start(records), Overlap(events, kept, now)), BATCH_LIMIT + AtMost(kept, BATCH_LIMIT);
            && t.appended == events && t.dropped == n && t.stored == Lines(events)[n..] && BATCH_LIMIT !in t.verdicts
  {
    FirstFlush(env, records, events);
    OverlapIsOffline(env, records, events, kept, now);
    OverlapEnds(env, records, events, kept, now);
    var s := Next(env, StartedWith(env, records, events), Flush(true));
    assert s.requests[0] == s.flights[0];
    hide *;
    SecondFlushLoses(env, s, 0, kept, now);
  }

  lemma OverlapEnds(env: Environment, records: seq<Record>, events: seq<Event>, kept: nat, now: int)
    ensures Run(env, Start(records), Overlap(events, kept, now))
         == Run(env, Next(env, Next(env, StartedWith(env, records, events), Flush(true)), Flush(true)), BothReplies(0, 1, 0, kept, now))
  {
    var s0, start, flushes := Start(records), [Restart(true), Connect], [Flush(true), Flush(true)];
    var filled, up, replies := Run(env, s0, Appends(events)), StartedWith(env, records, events), BothReplies(0, 1, 0, kept, now);
    assert Overlap(events, kept, now) == Appends(events) + start + flushes + replies;
    assert up == Next(env, Next(env, filled, Restart(true)), Connect);
    hide *;
    RunOfTwo(env, filled, Restart(true), Connect);
    RunOfTwo(env, up, Flush(true), Flush(true));
    RunInStages(env, s0, Appends(events), start);
    RunInStages(env, s0, Appends(events) + start, flushes);
    RunInStages(env, s0, Appends(events) + start + flushes, replies);
  }
}
