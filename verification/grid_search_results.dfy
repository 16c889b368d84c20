/**
 Every reachable search keeps the invariant; hence the search terminates, expands each
 state at most once, and ends with exactly the reachable goals settled at least cost.
 */
module GridSearchResults {
  import opened GridModel
  import opened GridHeuristic
  import opened GridSearch
  import opened GridSearchInvariant

  lemma InitialKeeps(p: Problem)
    requires p.Valid()
    ensures Core(p, Initial(p), 0.0) && EdgesOk(p, Initial(p), -1, 0) && !Initial(p).stopped
  {
    var s := p.grid.StartState();
    var n := Node(p.H(s), 0.0, s);
    PushFacts(p.heap, [], n);
    HeuristicNonNegative(p.grid, p.goals, p.Cell(s));
    var t := Initial(p);
    assert forall m :: m in multiset(t.open) ==> m == n;
    assert EntryOk(p, t, s);
  }

  // --- One step ------------------------------------------------------------------

  /** The front entry is stale: dropping it changes nothing that matters. */
  lemma DropKeeps(p: Problem, s: Search, level: real)
    requires p.Valid() && Core(p, s, level) && EdgesOk(p, s, -1, 0) && s.open != []
    requires s.open[0].state in s.best && s.open[0].cost > s.best[s.open[0].state]
    ensures Core(p, s.(open := p.heap.Pop(s.open)), level)
    ensures EdgesOk(p, s.(open := p.heap.Pop(s.open)), -1, 0)
  {
    var t := s.(open := p.heap.Pop(s.open));
    DropKeepsHeap(p, s, t, level);
    SameStatesKeep(p, s, t, -1, 0);
    hide HeapOk, ParentsOk, EdgesOk, LevelOk;
  }

  lemma DropKeepsHeap(p: Problem, s: Search, t: Search, level: real)
    requires p.Valid() && HeapOk(p, s) && LevelOk(p, s, level) && s.open != []
    requires s.open[0].state in s.best && s.open[0].cost > s.best[s.open[0].state]
    requires t == s.(open := p.heap.Pop(s.open))
    ensures HeapOk(p, t) && LevelOk(p, t, level)
  {
    PopFacts(p.heap, s.open);
    forall m | m in multiset(t.open) ensures NodeOk(p, t, m) && level <= m.priority {
      assert m in multiset(s.open) && NodeOk(p, s, m);
    }
    forall x | x in t.best ensures EntryOk(p, t, x) {
      assert EntryOk(p, s, x);
    }
  }

  /** Parents and relaxed edges depend only on costs, parents and a growing closed set. */
  lemma SameStatesKeep(p: Problem, s: Search, t: Search, cur: int, k: int)
    requires p.Valid() && BestOk(p, s) && ParentsOk(p, s) && EdgesOk(p, s, -1, 0) && k <= 0
    requires t.best == s.best && t.parent == s.parent && s.closed <= t.closed && t.closed <= s.closed + {cur}
    ensures ParentsOk(p, t) && EdgesOk(p, t, cur, k)
  {
    forall x {:trigger ParentEdge(p, t, x)} | x in t.best && x != p.grid.StartState() ensures ParentEdge(p, t, x) {
      assert ParentEdge(p, s, x);
    }
    forall c, d | c in t.closed && c in t.best && (c != cur || d < k) ensures EdgeRelaxed(p, t, c, d) {
      if c in s.closed {
        assert EdgeRelaxed(p, s, c, d);
      } else {
        assert !p.CanMove(c, d);
      }
    }
  }

  /** The popped front, when fresh. */
  ghost predicate FreshFront(p: Problem, s: Search, n: Node, level: real)
    requires p.grid.columns > 0
  {
    && Core(p, s, level) && EdgesOk(p, s, -1, 0) && !s.stopped
    && s.open != [] && n == s.open[0]
    && n.state in s.best && n.cost == s.best[n.state]
  }

  function Visit(p: Problem, s: Search, n: Node): Search
    requires s.open != []
  {
    Settle(p, s.(open := p.heap.Pop(s.open)), n)
  }

  lemma FrontIsOpen(p: Problem, s: Search, n: Node, level: real)
    requires p.Valid() && FreshFront(p, s, n, level)
    ensures n.state !in s.closed && n == BestNode(p, s, n.state) && level <= n.priority
  {
    PopFacts(p.heap, s.open);
    assert NodeOk(p, s, n);
    assert EntryOk(p, s, n.state);
  }

  lemma VisitKeepsLevel(p: Problem, s: Search, n: Node, level: real)
    requires p.Valid() && FreshFront(p, s, n, level)
    ensures LevelOk(p, Visit(p, s, n), n.priority) && p.heap.isHeap(Visit(p, s, n).open)
    ensures |Visit(p, s, n).open| == |s.open| - 1
  {
    FrontIsOpen(p, s, n, level);
    PopFacts(p.heap, s.open);
    var t := Visit(p, s, n);
    forall m | m in multiset(t.open) ensures n.priority <= m.priority {
      assert m in multiset(s.open);
    }
  }

  lemma VisitKeepsHeap(p: Problem, s: Search, n: Node, level: real)
    requires p.Valid() && FreshFront(p, s, n, level)
    ensures HeapOk(p, Visit(p, s, n))
  {
    FrontIsOpen(p, s, n, level);
    assert EntryOk(p, s, n.state);
    PoppedHeap(p, s, Visit(p, s, n), n);
  }

  lemma PoppedHeap(p: Problem, s: Search, t: Search, n: Node)
    requires p.Valid() && HeapOk(p, s) && s.open != [] && n == s.open[0]
    requires n.state in s.best && n == BestNode(p, s, n.state) && multiset(s.open)[n] == 1
    requires t.best == s.best && t.open == p.heap.Pop(s.open) && t.closed == s.closed + {n.state}
    ensures HeapOk(p, t)
  {
    PopFacts(p.heap, s.open);
    forall m | m in multiset(t.open) ensures NodeOk(p, t, m) {
      assert m in multiset(s.open) && NodeOk(p, s, m);
    }
    forall x | x in t.best ensures EntryOk(p, t, x) {
      EntryAfterVisit(p, s, t, n, x);
    }
  }

  lemma EntryAfterVisit(p: Problem, s: Search, t: Search, n: Node, x: int)
    requires p.Valid() && x in s.best && EntryOk(p, s, x) && n.state in s.best && n == BestNode(p, s, n.state)
    requires t.best == s.best && t.closed == s.closed + {n.state} && multiset(s.open)[n] == 1
    requires multiset(t.open) == multiset(s.open)[n := 0]
    ensures EntryOk(p, t, x)
  {
  }

  lemma VisitKeepsParents(p: Problem, s: Search, n: Node, level: real)
    requires p.Valid() && FreshFront(p, s, n, level)
    ensures ParentsOk(p, Visit(p, s, n)) && BestOk(p, Visit(p, s, n))
    ensures EdgesOk(p, Visit(p, s, n), n.state, 0)
  {
    var t := Visit(p, s, n);
    SameStatesKeep(p, s, t, n.state, 0);
    hide ParentsOk, EdgesOk, HeapOk;
  }

  lemma FrontLowerBound(p: Problem, s: Search, n: Node, level: real)
    requires p.Valid() && FreshFront(p, s, n, level)
    requires p.Cell(n.state) in p.goals && p.Cell(n.state) !in s.settled
    ensures LowerBound(p, p.Cell(n.state), n.cost)
  {
    forall walk | WalkTo(p.grid, p.start, walk, p.Cell(n.state))
      ensures n.cost <= WalkCost(p.grid, p.field, p.start, walk)
    {
      FrontIsOptimal(p, s, n, level, walk);
    }
  }

  lemma VisitKeepsSettled(p: Problem, s: Search, n: Node, level: real)
    requires p.Valid() && FreshFront(p, s, n, level)
    ensures SettledOk(p, Visit(p, s, n))
  {
    if p.Cell(n.state) in p.goals && p.Cell(n.state) !in s.settled {
      FrontLowerBound(p, s, n, level);
    }
    hide LowerBound, HeapOk, ParentsOk, EdgesOk, LevelOk;
  }

  /** Closing the fresh front: the invariant survives and expansion may begin. */
  lemma VisitKeeps(p: Problem, s: Search, n: Node, level: real)
    requires p.Valid() && FreshFront(p, s, n, level)
    ensures var t := Visit(p, s, n);
            && Expanding(p, t, n.state, 0) && n.cost == t.best[n.state]
            && n.state !in s.closed && t.closed == s.closed + {n.state} && |t.open| == |s.open| - 1
            && s.settled.Keys <= t.settled.Keys
  {
    FrontIsOpen(p, s, n, level);
    VisitKeepsLevel(p, s, n, level);
    VisitKeepsHeap(p, s, n, level);
    VisitKeepsParents(p, s, n, level);
    VisitKeepsSettled(p, s, n, level);
    hide HeapOk, ParentsOk, SettledOk, EdgesOk, LevelOk;
  }

  /** Work left: nine per state not yet expanded (its own pop and eight pushes), one per heap entry. */
  ghost function Work(p: Problem, s: Search): int {
    9 * (p.grid.StartState() + 1 - |s.closed|) + |s.open|
  }

  lemma ClosedBounded(p: Problem, s: Search)
    requires p.Valid() && BestOk(p, s)
    ensures |s.closed| <= p.grid.StartState() + 1
  {
    BoundedSet(s.closed, p.grid.StartState() + 1);
  }

  lemma {:induction false} BoundedSet(s: set<int>, n: nat)
    requires forall x :: x in s ==> 0 <= x < n
    ensures |s| <= n
  {
    if n == 0 {
      assert forall x :: x !in s;
      assert s == {};
    } else {
      BoundedSet(s - {n - 1}, n - 1);
    }
  }

  /** One step of a running search: the invariant is kept, work shrinks, and the closed set grows by
      at most one state that was not in it, so no state is ever expanded twice. */
  lemma StepKeeps(p: Problem, s: Search)
    requires p.Valid() && Inv(p, s)
    ensures Inv(p, Step(p, s))
    ensures s.closed <= Step(p, s).closed
    ensures !Done(s) ==> 0 <= Work(p, Step(p, s)) < Work(p, s)
  {
    var level :| Core(p, s, level);
    if !Done(s) {
      var n := s.open[0];
      FrontIsKnown(p, s, level);
      PopFacts(p.heap, s.open);
      if n.cost > s.best[n.state] {
        DropKeeps(p, s, level);
        ClosedBounded(p, s);
      } else {
        FreshStep(p, s, n, level);
      }
    }
  }

  lemma FrontIsKnown(p: Problem, s: Search, level: real)
    requires p.Valid() && Core(p, s, level) && s.open != []
    ensures s.open[0].state in s.best && s.best[s.open[0].state] <= s.open[0].cost
  {
    assert NodeOk(p, s, s.open[0]);
  }

  lemma FreshStep(p: Problem, s: Search, n: Node, level: real)
    requires p.Valid() && FreshFront(p, s, n, level)
    ensures Inv(p, Step(p, s)) && s.closed <= Step(p, s).closed && 0 <= Work(p, Step(p, s)) < Work(p, s)
  {
    VisitKeeps(p, s, n, level);
    var t, limit := Visit(p, s, n), p.grid.DirectionLimit();
    assert Step(p, s) == if t.stopped then t else Expand(p, t, n, limit);
    ClosedBounded(p, t);
    if t.stopped {
      VisitedInv(p, t, n);
    } else {
      ExpandedInv(p, t, n);
    }
    hide Core, EdgesOk, Inv, Step, Expand, Visit;
  }

  lemma VisitedInv(p: Problem, t: Search, n: Node)
    requires p.Valid() && Expanding(p, t, n.state, 0) && t.stopped
    ensures Inv(p, t)
  {
    assert Core(p, t, t.best[n.state] + p.H(n.state));
  }

  lemma ExpandedInv(p: Problem, t: Search, n: Node)
    requires p.Valid() && Expanding(p, t, n.state, 0) && n.cost == t.best[n.state]
    ensures var u := Expand(p, t, n, p.grid.DirectionLimit());
            Inv(p, u) && u.closed == t.closed && |u.open| <= |t.open| + 8
  {
    var u := Expand(p, t, n, p.grid.DirectionLimit());
    ExpandKeeps(p, t, n, p.grid.DirectionLimit());
    AllDirections(p, u, n.state);
    hide Expand, BestOk, ParentsOk, HeapOk, LevelOk, SettledOk;
    assert Core(p, u, u.best[n.state] + p.H(n.state));
  }

  // --- Whole runs ----------------------------------------------------------------

  lemma {:induction false} EveryRunKeeps(p: Problem, k: nat)
    requires p.Valid()
    ensures Inv(p, Iterate(p, Initial(p), k))
  {
    if k == 0 {
      InitialKeeps(p);
    } else {
      EveryRunKeeps(p, k - 1);
      StepKeeps(p, Iterate(p, Initial(p), k - 1));
    }
  }

  /** State `x` is expanded (or settles the last goal) by step number `k`. */
  ghost predicate ClosesAt(p: Problem, k: nat, x: int)
    requires p.grid.columns > 0
  {
    var s, t := Iterate(p, Initial(p), k), Iterate(p, Initial(p), k + 1);
    !Done(s) && s.open[0].state == x && x in s.best && s.open[0].cost <= s.best[x]
  }

  /** No state is closed twice in a run, whatever order the heap breaks ties in. */
  lemma ClosedAtMostOnce(p: Problem, i: nat, j: nat, x: int)
    requires p.Valid() && i < j && ClosesAt(p, i, x)
    ensures !ClosesAt(p, j, x)
  {
    hide Iterate;
    ClosingAdds(p, i, x);
    ClosedGrows(p, i + 1, j);
    if ClosesAt(p, j, x) {
      ClosingAdds(p, j, x);
    }
  }

  lemma ClosingAdds(p: Problem, k: nat, x: int)
    requires p.Valid() && ClosesAt(p, k, x)
    ensures x !in Iterate(p, Initial(p), k).closed && x in Iterate(p, Initial(p), k + 1).closed
  {
    var s := Iterate(p, Initial(p), k);
    EveryRunKeeps(p, k);
    var level :| Core(p, s, level);
    var n := s.open[0];
    FrontIsKnown(p, s, level);
    FrontIsOpen(p, s, n, level);
    VisitKeeps(p, s, n, level);
    if !Visit(p, s, n).stopped {
      ExpandKeeps(p, Visit(p, s, n), n, p.grid.DirectionLimit());
    }
  }

  lemma {:induction false} ClosedGrows(p: Problem, i: nat, j: nat)
    requires p.Valid() && i <= j
    ensures Iterate(p, Initial(p), i).closed <= Iterate(p, Initial(p), j).closed
  {
    hide Step;
    if i < j {
      ClosedGrows(p, i, j - 1);
      EveryRunKeeps(p, j - 1);
      StepKeeps(p, Iterate(p, Initial(p), j - 1));
    }
  }

  /** The loop ends, within nine iterations per state. */
  lemma Terminates(p: Problem) returns (k: nat)
    requires p.Valid()
    ensures Done(Iterate(p, Initial(p), k)) && k <= 9 * (p.grid.StartState() + 1) + 1
  {
    InitialWork(p);
    k := RunsOut(p, 0);
  }

  lemma {:induction false} RunsOut(p: Problem, k: nat) returns (m: nat)
    requires p.Valid()
    ensures m >= k && Done(Iterate(p, Initial(p), m))
    ensures m - k <= if Done(Iterate(p, Initial(p), k)) then 0 else Work(p, Iterate(p, Initial(p), k))
    decreases Work(p, Iterate(p, Initial(p), k))
  {
    hide Step, Inv, Initial, Work;
    m := k;
    if !Done(Iterate(p, Initial(p), k)) {
      EveryRunKeeps(p, k);
      StepKeeps(p, Iterate(p, Initial(p), k));
      m := RunsOut(p, k + 1);
    }
  }

  lemma InitialWork(p: Problem)
    requires p.Valid()
    ensures Work(p, Initial(p)) == 9 * (p.grid.StartState() + 1) + 1
  {
    PushFacts(p.heap, [], Node(p.H(p.grid.StartState()), 0.0, p.grid.StartState()));
  }

  lemma {:induction false} DoneStays(p: Problem, s: Search, k: nat, j: nat)
    requires p.grid.columns > 0 && k <= j && Done(Iterate(p, s, k))
    ensures Iterate(p, s, j) == Iterate(p, s, k)
  {
    if k < j {
      hide Expand, Settle;
      DoneStays(p, s, k, j - 1);
    }
  }

  /** The final search of a run; it is a function of the problem alone. */
  ghost predicate Finishes(p: Problem, s: Search)
    requires p.grid.columns > 0
  {
    exists k: nat :: s == Iterate(p, Initial(p), k) && Done(s)
  }

  lemma FinishUnique(p: Problem, s: Search, t: Search)
    requires p.grid.columns > 0 && Finishes(p, s) && Finishes(p, t)
    ensures s == t
  {
    var i: nat :| s == Iterate(p, Initial(p), i) && Done(s);
    var j: nat :| t == Iterate(p, Initial(p), j) && Done(t);
    if i <= j { DoneStays(p, Initial(p), i, j); } else { DoneStays(p, Initial(p), j, i); }
  }

  // --- Parent chains -------------------------------------------------------------

  ghost predicate Chained(p: Problem, s: Search) {
    p.Valid() && BestOk(p, s) && ParentsOk(p, s)
  }

  /** Costs strictly fall along parents, so chains cannot cycle. */
  lemma ParentCheaper(p: Problem, s: Search, x: int)
    requires Chained(p, s) && x in s.best && x != p.grid.StartState()
    ensures x in s.parent && s.parent[x] in s.best && s.parent[x] in s.closed
    ensures s.best[s.parent[x]] < s.best[x]
    ensures 0 <= s.parent[x] <= p.grid.StartState() && ParentEdge(p, s, x)
  {
    assert ParentEdge(p, s, x);
    EdgeFacts(p, s.parent[x], x % 8);
  }

  ghost function Cheaper(s: Search, x: int): set<int>
    requires x in s.best
  {
    set y | y in s.best && s.best[y] < s.best[x]
  }

  lemma ParentDescends(p: Problem, s: Search, x: int)
    requires Chained(p, s) && x in s.best && x != p.grid.StartState()
    ensures x in s.parent && s.parent[x] in s.best && |Cheaper(s, s.parent[x])| < |Cheaper(s, x)|
  {
    ParentCheaper(p, s, x);
    var y := s.parent[x];
    assert Cheaper(s, y) <= Cheaper(s, x) - {y};
    SubsetSize(Cheaper(s, y), Cheaper(s, x) - {y});
  }

  lemma SubsetSize<T>(a: set<T>, b: set<T>)
    requires a <= b
    ensures |a| <= |b|
  {
    assert b == a + (b - a);
  }

  /** The directions along the parent chain from the start to `x`. */
  ghost function PathTo(p: Problem, s: Search, x: int): seq<int>
    requires Chained(p, s) && x in s.best
    decreases |Cheaper(s, x)|
  {
    if x == p.grid.StartState() then []
    else
      ParentDescends(p, s, x);
      PathTo(p, s, s.parent[x]) + [x % 8]
  }

  /** The parent chain is a legal walk that ends in `x` and costs exactly what the search stored. */
  lemma {:induction false} PathIsWalk(p: Problem, s: Search, x: int)
    requires Chained(p, s) && x in s.best
    ensures var w := PathTo(p, s, x);
            && IsWalk(p.grid, p.start, w) && StateAfter(p.grid, p.start, w) == x
            && CellAfter(p.grid, p.start, w) == p.Cell(x)
            && WalkCost(p.grid, p.field, p.start, w) == s.best[x]
    decreases |Cheaper(s, x)|
  {
    var w := PathTo(p, s, x);
    if x != p.grid.StartState() {
      ParentDescends(p, s, x);
      ParentCheaper(p, s, x);
      var y := s.parent[x];
      PathIsWalk(p, s, y);
      assert w == PathTo(p, s, y) + [x % 8];
      hide *;
      PathStep(p, s, x, PathTo(p, s, y));
    }
  }

  lemma PathStep(p: Problem, s: Search, x: int, init: seq<int>)
    requires Chained(p, s) && ParentEdge(p, s, x)
    requires IsWalk(p.grid, p.start, init) && StateAfter(p.grid, p.start, init) == s.parent[x]
    requires WalkCost(p.grid, p.field, p.start, init) == s.best[s.parent[x]]
    ensures var w := init + [x % 8];
            && IsWalk(p.grid, p.start, w) && StateAfter(p.grid, p.start, w) == x
            && CellAfter(p.grid, p.start, w) == p.Cell(x)
            && WalkCost(p.grid, p.field, p.start, w) == s.best[x]
  {
    hide IsWalk, StateAfter, WalkCost, Legal, EdgeCost;
    WalkExtends(p.grid, p.field, p.start, init, x % 8);
    StateAfterParts(p.grid, p.start, init + [x % 8]);
  }

  // --- The result ----------------------------------------------------------------

  /** A settled goal carries the least cost of any walk to it. */
  lemma SettledIsLeast(p: Problem, s: Search, t: int)
    requires p.Valid() && Inv(p, s) && t in s.settled
    ensures s.settled[t] in s.best && p.Cell(s.settled[t]) == t
    ensures IsLeastCost(p.grid, p.field, p.start, t, s.best[s.settled[t]])
  {
    var x := s.settled[t];
    PathIsWalk(p, s, x);
    var w := PathTo(p, s, x);
    assert WalkTo(p.grid, p.start, w, t) && WalkCost(p.grid, p.field, p.start, w) == s.best[x];
    assert LowerBound(p, t, s.best[x]);
  }

  ghost function Elements(xs: seq<int>): set<int> { set x | x in xs }

  lemma {:induction false} DistinctSize(xs: seq<int>)
    requires forall i, j :: 0 <= i < j < |xs| ==> xs[i] != xs[j]
    ensures |Elements(xs)| == |xs|
  {
    if xs != [] {
      DistinctSize(Init(xs));
      assert xs == Init(xs) + [Last(xs)];
      assert Elements(xs) == Elements(Init(xs)) + {Last(xs)};
    }
  }

  lemma SameSizeSubset<T>(a: set<T>, b: set<T>, x: T)
    requires a <= b && |a| == |b| && x in b
    ensures x in a
  {
    if x !in a { SubsetSize(a + {x}, b); }
  }

  /** A goal the finished search did not settle cannot be reached by any walk. */
  lemma UnsettledIsUnreachable(p: Problem, s: Search, t: int)
    requires p.Valid() && Inv(p, s) && Done(s) && t in p.goals && t !in s.settled
    ensures !Reachable(p.grid, p.start, t)
  {
    if s.stopped {
      AllSettled(p, s, t);
    } else {
      forall walk ensures !WalkTo(p.grid, p.start, walk, t) {
        if IsWalk(p.grid, p.start, walk) {
          WalkIsClosed(p, s, walk);
        }
      }
    }
  }

  lemma AllSettled(p: Problem, s: Search, t: int)
    requires p.Valid() && SettledOk(p, s) && s.stopped && t in p.goals
    ensures t in s.settled
  {
    DistinctSize(p.goals);
    forall x | x in s.settled.Keys ensures x in Elements(p.goals) {}
    SameSizeSubset(s.settled.Keys, Elements(p.goals), t);
  }

  lemma WalkIsClosed(p: Problem, s: Search, walk: seq<int>)
    requires p.Valid() && Inv(p, s) && s.open == [] && !s.stopped && IsWalk(p.grid, p.start, walk)
    ensures CellAfter(p.grid, p.start, walk) in p.goals ==> CellAfter(p.grid, p.start, walk) in s.settled
  {
    var k := Frontier(p, s, walk);
    var y := StateAfter(p.grid, p.start, walk[..k]);
    assert EntryOk(p, s, y);
    assert walk[..k] == walk;
    StateAfterParts(p.grid, p.start, walk);
  }

  /** Main theorem: the finished search settles exactly the reachable goals, each at the least
      cost over all legal walks, whatever the other goals are and however ties are broken. */
  lemma SearchIsOptimal(p: Problem, s: Search, t: int)
    requires p.Valid() && Finishes(p, s) && t in p.goals
    ensures t in s.settled <==> Reachable(p.grid, p.start, t)
    ensures t in s.settled ==>
              s.settled[t] in s.best && IsLeastCost(p.grid, p.field, p.start, t, s.best[s.settled[t]])
  {
    var k: nat :| s == Iterate(p, Initial(p), k) && Done(s);
    EveryRunKeeps(p, k);
    if t in s.settled {
      SettledIsLeast(p, s, t);
    } else {
      UnsettledIsUnreachable(p, s, t);
    }
  }
}
