/**
 The gate's durable queue of offline events: one line of text per event, a cached count,
 and the reading of a replay reply that decides how many events may be dropped.
 */
module OfflineEvents {

  const BATCH_LIMIT := 500

  /** A line of the queue file: empty, an event, or text that is no event. */
  datatype Line<E> = Blank | Damaged | Entry(event: E)

  function Stored<E>(file: seq<Line<E>>): (r: seq<Line<E>>)
    ensures |r| <= |file| && forall i :: 0 <= i < |r| ==> !r[i].Blank?
    decreases |file|
  {
    if file == [] then []
    else
      var last := |file| - 1;
      Stored(file[..last]) + if file[last].Blank? then [] else [file[last]]
  }

  lemma {:induction false} StoredGrows<E>(file: seq<Line<E>>, k: nat)
    requires k < |file|
    ensures Stored(file[..k + 1]) == Stored(file[..k]) + if file[k].Blank? then [] else [file[k]]
  {
    assert file[..k + 1][..k] == file[..k];
  }

  lemma {:induction false} StoredPrefix<E>(file: seq<Line<E>>, k: nat)
    requires k <= |file|
    ensures Stored(file[..k]) <= Stored(file)
    decreases |file|
  {
    if k < |file| {
      var last := |file| - 1;
      StoredPrefix(file[..last], k);
      assert file[..last][..k] == file[..k];
    } else {
      assert file[..k] == file;
    }
  }

  lemma {:induction false} StoredIsIdempotent<E>(lines: seq<Line<E>>)
    requires forall i :: 0 <= i < |lines| ==> !lines[i].Blank?
    ensures Stored(lines) == lines
    decreases |lines|
  {
    if lines != [] {
      StoredIsIdempotent(lines[..|lines| - 1]);
    }
  }

  function Events<E>(lines: seq<Line<E>>): (r: seq<E>)
    requires forall i :: 0 <= i < |lines| ==> lines[i].Entry?
    ensures |r| == |lines| && forall i :: 0 <= i < |lines| ==> r[i] == lines[i].event
  {
    seq(|lines|, i requires 0 <= i < |lines| => lines[i].event)
  }

  function Head<T>(s: seq<T>, limit: int): seq<T> {
    if 1 <= limit < |s| then s[..limit] else s
  }

  /** The first `limit` stored events (all of them for a limit below one), or none at all if one of
      those lines is damaged. */
  function NextBatch<E>(file: seq<Line<E>>, limit: int): seq<E> {
    var first := Head(Stored(file), limit);
    if forall i :: 0 <= i < |first| ==> first[i].Entry? then Events(first) else []
  }

  lemma DamagedBatch<E>(file: seq<Line<E>>, limit: int, k: nat)
    requires k < |Stored(file)| && Stored(file)[k].Damaged? && (limit < 1 || k < limit)
    ensures NextBatch(file, limit) == []
  {
    var first := Head(Stored(file), limit);
    assert k < |first| && !first[k].Entry?;
  }

  lemma SoundBatch<E>(file: seq<Line<E>>, limit: int, events: seq<E>)
    requires |events| <= |Stored(file)| && forall k :: 0 <= k < |events| ==> Stored(file)[k] == Entry(events[k])
    requires |events| == |Stored(file)| || 1 <= |events| == limit
    requires limit >= 1 ==> |events| <= limit
    ensures NextBatch(file, limit) == events
  {
  }

  class OfflineQueue<E(0)> {
    var file: seq<Line<E>>
    var cachedCount: int

    ghost predicate Valid()
      reads this
    {
      cachedCount == |Stored(file)|
    }

    /** Open an existing queue file. */
    constructor (file: seq<Line<E>>, readable: bool)
      ensures this.file == file
      ensures Valid() <==> readable || Stored(file) == []
    {
      this.file := file;
      cachedCount := 0;
      new;
      if readable {
        for i := 0 to |file|
          invariant this.file == file && cachedCount == |Stored(file[..i])|
        {
          StoredGrows(file, i);
          if !file[i].Blank? {
            cachedCount := cachedCount + 1;
          }
        }
        assert file[..|file|] == file;
      }
    }

    method Append(event: E, written: bool) returns (ok: bool)
      modifies this
      ensures ok == written
      ensures Stored(file) == old(Stored(file)) + if ok then [Entry(event)] else []
      ensures cachedCount == old(cachedCount) + if ok then 1 else 0
    {
      if !written {
        return false;
      }
      StoredGrows(file + [Entry(event)], |file|);
      assert (file + [Entry(event)])[..|file|] == file;
      assert (file + [Entry(event)])[..|file| + 1] == file + [Entry(event)];
      file := file + [Entry(event)];
      cachedCount := cachedCount + 1;
      ok := true;
    }

    method Pending(limit: int, readable: bool) returns (events: seq<E>)
      ensures events == if readable then NextBatch(file, limit) else []
    {
      events := [];
      if !readable {
        return;
      }
      for i := 0 to |file|
        invariant limit >= 1 ==> |events| < limit
        invariant |events| == |Stored(file[..i])|
        invariant forall k :: 0 <= k < |events| ==> Stored(file[..i])[k] == Entry(events[k])
      {
        StoredGrows(file, i);
        StoredPrefix(file, i + 1);
        if file[i].Blank? {
          continue;
        }
        if file[i].Damaged? {
          DamagedBatch(file, limit, |events|);
          return [];
        }
        events := events + [file[i].event];
        if |events| == limit {
          SoundBatch(file, limit, events);
          return;
        }
      }
      assert file[..|file|] == file;
      SoundBatch(file, limit, events);
    }

    /** Drop the first `count` events; the file is replaced as a whole or not at all. */
    method Acknowledge(count: int, readable: bool, saved: bool) returns (ok: bool)
      modifies this
      ensures ok <==> 1 <= count <= old(cachedCount) && count <= |old(Stored(file))| && readable && saved
      ensures ok ==> Stored(file) == old(Stored(file))[count..] && cachedCount == old(cachedCount) - count
      ensures !ok ==> file == old(file) && cachedCount == old(cachedCount)
    {
      if count < 1 || count > cachedCount || !readable {
        return false;
      }
      var target, consumed := Consume(file, count);
      if consumed != count || !saved {
        return false;
      }
      StoredIsIdempotent(target);
      file := target;
      cachedCount := cachedCount - count;
      ok := true;
    }
  }

  /** The lines left after skipping the first `count` stored ones, and how many there were to skip. */
  method Consume<E>(lines: seq<Line<E>>, count: nat) returns (target: seq<Line<E>>, consumed: nat)
    ensures consumed == (if |Stored(lines)| < count then |Stored(lines)| else count)
    ensures target == Stored(lines)[consumed..]
  {
    target, consumed := [], 0;
    for i := 0 to |lines|
      invariant consumed == (if |Stored(lines[..i])| < count then |Stored(lines[..i])| else count)
      invariant target == Stored(lines[..i])[consumed..]
    {
      StoredGrows(lines, i);
      if lines[i].Blank? {
        continue;
      }
      if consumed < count {
        consumed := consumed + 1;
        continue;
      }
      target := target + [lines[i]];
    }
    assert lines[..|lines|] == lines;
  }

  // --- Reading a reply ------------------------------------------------------------------

  /** A reply as received: for each result item whether it carries a verdict, and the three counters. */
  datatype Reply = Reply(hasVerdict: seq<bool>, applied: int, duplicate: int, skipped: int)

  function LeadingVerdicts(items: seq<bool>): (n: nat)
    ensures n <= |items| && (n < |items| ==> !items[n])
    ensures forall i :: 0 <= i < n ==> items[i]
  {
    if items == [] || !items[0] then 0 else 1 + LeadingVerdicts(items[1..])
  }

  /** How many of the submitted events the reply settles. */
  method ReplayHandledPrefix(reply: Reply, submitted: int) returns (handled: int)
    ensures handled == HandledPrefix(reply, submitted)
  {
    if submitted <= 0 {
      return 0;
    }
    handled := 0;
    for i := 0 to |reply.hasVerdict|
      invariant handled == i && handled <= submitted
      invariant forall k :: 0 <= k < handled ==> reply.hasVerdict[k]
    {
      if handled >= submitted || !reply.hasVerdict[i] {
        break;
      }
      handled := handled + 1;
    }
    if handled > 0 {
      return;
    }
    handled := if reply.applied + reply.duplicate + reply.skipped == submitted then submitted else 0;
  }

  function HandledPrefix(reply: Reply, submitted: int): (handled: int)
    ensures 0 <= handled && (submitted >= 0 ==> handled <= submitted)
  {
    var leading := LeadingVerdicts(reply.hasVerdict);
    if submitted <= 0 then 0
    else if leading > 0 then (if leading < submitted then leading else submitted)
    else if reply.applied + reply.duplicate + reply.skipped == submitted then submitted else 0
  }

  /** A reply of a server that got through the first `decided` of `submitted` events: no more verdicts than
      that, and counters that add up to the whole batch only if it was the whole batch. */
  ghost predicate Honest(reply: Reply, submitted: nat, decided: nat) {
    && decided <= submitted
    && LeadingVerdicts(reply.hasVerdict) <= decided
    && (reply.applied + reply.duplicate + reply.skipped == submitted ==> decided == submitted)
  }

  /** No reading of an honest reply drops an undecided event; and it settles everything whenever
      either the results or the counters say so. */
  lemma HandledIsDecided(reply: Reply, submitted: nat, decided: nat)
    requires Honest(reply, submitted, decided)
    ensures HandledPrefix(reply, submitted) <= decided
    ensures HandledPrefix(reply, submitted) == submitted <==>
            (|| LeadingVerdicts(reply.hasVerdict) == submitted
             || (LeadingVerdicts(reply.hasVerdict) == 0 && reply.applied + reply.duplicate + reply.skipped == submitted))
  {
  }
}
