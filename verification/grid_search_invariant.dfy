/**
 The invariant of the search: preserved by every step, and with it optimal settlement,
 single expansion of every state, and termination.
 */
module GridSearchInvariant {
  import opened GridModel
  import opened GridHeuristic
  import opened GridSearch

  // --- One relaxation ------------------------------------------------------------

  /** What one expansion loop iteration starts from: `cur` was just closed at the current level. */
  ghost predicate Expanding(p: Problem, s: Search, cur: int, k: int)
    requires p.grid.columns > 0
  {
    && cur in s.closed && cur in s.best
    && Core(p, s, s.best[cur] + p.H(cur))
    && EdgesOk(p, s, cur, k)
  }

  lemma EdgeFacts(p: Problem, s: int, d: int)
    requires p.Valid() && 0 <= s <= p.grid.StartState() && p.grid.IsFree(p.Cell(s)) && p.CanMove(s, d)
    ensures p.Cost(s, d) > 0.0
    ensures p.H(s) <= p.Cost(s, d) + p.H(p.Target(s, d))
    ensures 0 <= p.Target(s, d) < p.grid.StartState() && p.grid.IsFree(p.Cell(p.Target(s, d)))
    ensures p.Target(s, d) % 8 == d
  {
    SuccessorParts(p.grid, p.start, s, d);
    StepCostAtLeastDistance(p.grid, p.field, DirectionOf(p.grid, s), d, Next(p.grid, p.Cell(s), d));
    HeuristicConsistent(p.grid, p.goals, p.Cell(s), d);
    hide *;
  }

  /** Consistency at work: an expanded state is never improved, so it is never expanded again. */
  lemma ClosedNotImproved(p: Problem, s: Search, cur: int, d: int)
    requires p.Valid() && BestOk(p, s) && cur in s.best && LevelOk(p, s, s.best[cur] + p.H(cur))
    requires p.CanMove(cur, d) && p.Target(cur, d) in s.best
    requires s.best[cur] + p.Cost(cur, d) < s.best[p.Target(cur, d)]
    ensures p.Target(cur, d) !in s.closed
  {
    EdgeFacts(p, cur, d);
  }

  lemma ImproveKeepsHeap(p: Problem, s: Search, from: int, to: int, cost: real)
    requires p.Valid() && HeapOk(p, s) && to !in s.closed && (to in s.best ==> cost < s.best[to])
    ensures HeapOk(p, Improve(p, s, from, to, cost))
  {
    var t := Improve(p, s, from, to, cost);
    var n := Node(cost + p.H(to), cost, to);
    PushFacts(p.heap, s.open, n);
    hide Legal, CellOf, Heuristic, EdgeCost, Successor;
    assert n !in multiset(s.open) by {
      assert n in multiset(s.open) ==> NodeOk(p, s, n);
    }
    forall m | m in multiset(t.open) ensures NodeOk(p, t, m) {
      if m != n { assert m in multiset(s.open) && NodeOk(p, s, m); }
    }
    forall x | x in t.best ensures EntryOk(p, t, x) {
      if x != to { assert EntryOk(p, s, x); }
    }
  }

  lemma ImproveKeepsParents(p: Problem, s: Search, from: int, d: int, cost: real)
    requires p.Valid() && BestOk(p, s) && ParentsOk(p, s) && from in s.closed && from in s.best && p.CanMove(from, d)
    requires p.Target(from, d) !in s.closed && cost == s.best[from] + p.Cost(from, d)
    ensures ParentsOk(p, Improve(p, s, from, p.Target(from, d), cost))
  {
    var to := p.Target(from, d);
    var t := Improve(p, s, from, to, cost);
    EdgeFacts(p, from, d);
    forall x | x in t.best && x != p.grid.StartState() ensures ParentEdge(p, t, x) {
      if x != to { assert ParentEdge(p, s, x); }
    }
  }

  lemma ImproveKeepsEdges(p: Problem, s: Search, cur: int, d: int, cost: real)
    requires p.Valid() && EdgesOk(p, s, cur, d) && cur in s.best && p.CanMove(cur, d)
    requires p.Target(cur, d) !in s.closed && cost == s.best[cur] + p.Cost(cur, d)
    requires p.Target(cur, d) in s.best ==> cost < s.best[p.Target(cur, d)]
    requires cur in s.closed
    ensures EdgesOk(p, Improve(p, s, cur, p.Target(cur, d), cost), cur, d + 1)
  {
    var t := Improve(p, s, cur, p.Target(cur, d), cost);
    forall c, e | c in t.closed && c in t.best && (c != cur || e < d + 1) ensures EdgeRelaxed(p, t, c, e) {
      if !(c == cur && e == d) {
        assert EdgeRelaxed(p, s, c, e);
      }
    }
  }

  lemma ImproveKeepsLevel(p: Problem, s: Search, cur: int, d: int, cost: real)
    requires p.Valid() && cur in s.best && p.CanMove(cur, d)
    requires BestOk(p, s) && HeapOk(p, s) && LevelOk(p, s, s.best[cur] + p.H(cur))
    requires p.Target(cur, d) !in s.closed && cost == s.best[cur] + p.Cost(cur, d)
    ensures LevelOk(p, Improve(p, s, cur, p.Target(cur, d), cost), s.best[cur] + p.H(cur))
  {
    hide Legal, CellOf, Heuristic, EdgeCost, Successor;
    EdgeFacts(p, cur, d);
    var to := p.Target(cur, d);
    var t, n := Improve(p, s, cur, to, cost), Node(cost + p.H(to), cost, to);
    PushFacts(p.heap, s.open, n);
    forall m | m in multiset(t.open) ensures s.best[cur] + p.H(cur) <= m.priority {
      assert m == n || m in multiset(s.open);
    }
    assert forall c :: c in t.closed && c in t.best ==> c != to && c in s.best;
  }

  lemma ImproveKeepsBest(p: Problem, s: Search, cur: int, d: int, cost: real)
    requires p.Valid() && BestOk(p, s) && SettledOk(p, s)
    requires cur in s.best && p.CanMove(cur, d) && p.Target(cur, d) !in s.closed
    ensures BestOk(p, Improve(p, s, cur, p.Target(cur, d), cost))
    ensures SettledOk(p, Improve(p, s, cur, p.Target(cur, d), cost))
  {
    EdgeFacts(p, cur, d);
  }

  lemma ImproveKeeps(p: Problem, s: Search, cur: int, d: int, cost: real)
    requires p.Valid() && Expanding(p, s, cur, d) && p.CanMove(cur, d) && cost == s.best[cur] + p.Cost(cur, d)
    requires p.Target(cur, d) in s.best ==> cost < s.best[p.Target(cur, d)]
    ensures Expanding(p, Improve(p, s, cur, p.Target(cur, d), cost), cur, d + 1)
    ensures p.Target(cur, d) != cur
  {
    var to := p.Target(cur, d);
    if to in s.best { ClosedNotImproved(p, s, cur, d); }
    ImproveKeepsHeap(p, s, cur, to, cost);
    ImproveKeepsParents(p, s, cur, d, cost);
    ImproveKeepsEdges(p, s, cur, d, cost);
    ImproveKeepsLevel(p, s, cur, d, cost);
    ImproveKeepsBest(p, s, cur, d, cost);
    hide BestOk, ParentsOk, HeapOk, LevelOk, SettledOk, EdgesOk, Legal, CellOf, Heuristic, EdgeCost, Successor;
  }

  /** A relaxation either leaves the search alone because the edge is already relaxed, or improves its target. */
  lemma RelaxKeeps(p: Problem, s: Search, n: Node, d: nat)
    requires p.Valid() && Expanding(p, s, n.state, d) && n.cost == s.best[n.state]
    ensures Expanding(p, Relax(p, s, n, d), n.state, d + 1)
    ensures SameButOpen(s, Relax(p, s, n, d), n)
    ensures |s.open| <= |Relax(p, s, n, d).open| <= |s.open| + 1
  {
    var to, cost := p.Target(n.state, d), n.cost + p.Cost(n.state, d);
    if p.CanMove(n.state, d) && (to !in s.best || cost < s.best[to]) {
      ImproveKeeps(p, s, n.state, d, cost);
      ImproveShape(p, s, n, to, cost);
      hide *;
      assert Relax(p, s, n, d) == Improve(p, s, n.state, to, cost) by { RelaxImproves(p, s, n, d); }
    } else {
      RelaxSkips(p, s, n, d);
      hide *;
    }
  }

  lemma RelaxSkips(p: Problem, s: Search, n: Node, d: int)
    requires p.Valid() && Expanding(p, s, n.state, d) && n.cost == s.best[n.state]
    requires p.CanMove(n.state, d) ==>
               p.Target(n.state, d) in s.best && s.best[p.Target(n.state, d)] <= n.cost + p.Cost(n.state, d)
    ensures Relax(p, s, n, d) == s && Expanding(p, s, n.state, d + 1) && SameButOpen(s, s, n)
  {
    assert EdgeRelaxed(p, s, n.state, d);
    EdgesNext(p, s, n.state, d);
  }

  lemma RelaxImproves(p: Problem, s: Search, n: Node, d: int)
    requires p.Valid() && p.CanMove(n.state, d)
    requires p.Target(n.state, d) in s.best ==> n.cost + p.Cost(n.state, d) < s.best[p.Target(n.state, d)]
    ensures Relax(p, s, n, d) == Improve(p, s, n.state, p.Target(n.state, d), n.cost + p.Cost(n.state, d))
  {
  }

  ghost predicate SameButOpen(s: Search, t: Search, n: Node) {
    && t.closed == s.closed && t.settled == s.settled && t.stopped == s.stopped
    && n.state in t.best && t.best[n.state] == n.cost
  }

  lemma ImproveShape(p: Problem, s: Search, n: Node, to: int, cost: real)
    requires p.Valid() && p.heap.isHeap(s.open) && to != n.state && n.state in s.best && s.best[n.state] == n.cost
    ensures SameButOpen(s, Improve(p, s, n.state, to, cost), n)
    ensures |Improve(p, s, n.state, to, cost).open| == |s.open| + 1
  {
    PushFacts(p.heap, s.open, Node(cost + p.H(to), cost, to));
  }

  lemma EdgesNext(p: Problem, s: Search, cur: int, d: int)
    requires p.Valid() && EdgesOk(p, s, cur, d) && cur in s.best && EdgeRelaxed(p, s, cur, d)
    ensures EdgesOk(p, s, cur, d + 1)
  {
    forall c, e | c in s.closed && c in s.best && (c != cur || e < d + 1) ensures EdgeRelaxed(p, s, c, e) {
      if !(c == cur && e == d) {}
    }
  }

  lemma {:induction false} ExpandKeeps(p: Problem, s: Search, n: Node, k: nat)
    requires p.Valid() && Expanding(p, s, n.state, 0) && n.cost == s.best[n.state]
    ensures Expanding(p, Expand(p, s, n, k), n.state, k)
    ensures SameButOpen(s, Expand(p, s, n, k), n)
    ensures |Expand(p, s, n, k).open| <= |s.open| + k
  {
    assert SameButOpen(s, s, n);
    hide Expanding, Relax, SameButOpen;
    if k > 0 {
      ExpandKeeps(p, s, n, k - 1);
      ExpandNext(p, s, Expand(p, s, n, k - 1), n, k - 1);
      assert Expand(p, s, n, k) == Relax(p, Expand(p, s, n, k - 1), n, k - 1);
      hide *;
    }
  }

  lemma ExpandNext(p: Problem, s: Search, t: Search, n: Node, d: nat)
    requires p.Valid() && Expanding(p, t, n.state, d) && SameButOpen(s, t, n)
    ensures Expanding(p, Relax(p, t, n, d), n.state, d + 1)
    ensures SameButOpen(s, Relax(p, t, n, d), n)
    ensures |Relax(p, t, n, d).open| <= |t.open| + 1
  {
    RelaxKeeps(p, t, n, d);
    hide Expanding, Relax;
  }

  /** Directions beyond the loop bound are never legal, so after the loop every edge is relaxed. */
  lemma AllDirections(p: Problem, s: Search, cur: int)
    requires p.Valid() && EdgesOk(p, s, cur, p.grid.DirectionLimit())
    ensures EdgesOk(p, s, -1, 0)
  {
    forall c, d | c in s.closed && c in s.best && (c != -1 || d < 0) ensures EdgeRelaxed(p, s, c, d) {
      if c == cur && d >= p.grid.DirectionLimit() {
        assert !p.CanMove(c, d);
      } else {
        assert EdgeRelaxed(p, s, c, d);
      }
    }
  }

  // --- The frontier ---------------------------------------------------------------

  /** Along any walk, either its end is expanded at no more than the walk's cost, or some
      prefix ends in an open state at no more than the prefix's cost. */
  lemma {:induction false} Frontier(p: Problem, s: Search, walk: seq<int>) returns (k: nat)
    requires p.Valid() && BestOk(p, s) && EdgesOk(p, s, -1, 0) && IsWalk(p.grid, p.start, walk)
    ensures k <= |walk| && IsWalk(p.grid, p.start, walk[..k])
    ensures var y := StateAfter(p.grid, p.start, walk[..k]);
            && y in s.best && s.best[y] <= WalkCost(p.grid, p.field, p.start, walk[..k])
            && (y in s.closed ==> k == |walk|)
    decreases |walk|
  {
    if walk == [] {
      k := 0;
    } else {
      var init := Init(walk);
      k := Frontier(p, s, init);
      assert init[..k] == walk[..k];
      var y := StateAfter(p.grid, p.start, walk[..k]);
      if y in s.closed {
        assert walk[..k] == init;
        k := |walk|;
        assert walk[..k] == walk;
        StateAfterParts(p.grid, p.start, init);
        assert EdgeRelaxed(p, s, y, Last(walk));
      }
    }
  }

  /** A fresh heap front on an unsettled goal cell is at most as expensive as any walk to that cell. */
  lemma FrontIsOptimal(p: Problem, s: Search, n: Node, level: real, walk: seq<int>)
    requires p.Valid() && Core(p, s, level) && EdgesOk(p, s, -1, 0) && s.open != [] && n == s.open[0]
    requires n.state in s.best && n.cost == s.best[n.state]
    requires p.Cell(n.state) in p.goals && p.Cell(n.state) !in s.settled
    requires WalkTo(p.grid, p.start, walk, p.Cell(n.state))
    ensures n.cost <= WalkCost(p.grid, p.field, p.start, walk)
  {
    var k := Frontier(p, s, walk);
    var y := StateAfter(p.grid, p.start, walk[..k]);
    StateAfterParts(p.grid, p.start, walk[..k]);
    StateAfterParts(p.grid, p.start, walk);
    assert k == |walk| ==> walk[..k] == walk;
    assert y !in s.closed;
    HeuristicAlongWalk(p.grid, p.field, p.goals, p.start, walk, k);
    FrontAtMost(p, s, n, level, y);
  }

  lemma FrontAtMost(p: Problem, s: Search, n: Node, level: real, y: int)
    requires p.Valid() && Core(p, s, level) && s.open != [] && n == s.open[0] && y in s.best && y !in s.closed
    ensures n.cost + p.H(n.state) <= s.best[y] + p.H(y)
  {
    PopFacts(p.heap, s.open);
    assert EntryOk(p, s, y);
    assert NodeOk(p, s, n);
  }
}
