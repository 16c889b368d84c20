/**
 The multi-goal best-first search as a transition system over plain maps: one step pops
 the heap front, drops it when stale, settles a goal cell, or expands a state.  `closed`
 is a history variable: the program does not store it.  Everything the program promises
 about routes is proved about this system; the buffered program is shown to follow it.
 */
module GridSearch {
  import opened GridModel
  import opened GridHeuristic

  datatype Node = Node(priority: real, cost: real, state: int)

  /** The library's heap algorithms, known only by their contract: any heap order and any
      tie-breaking among equal priorities is allowed. */
  datatype HeapAlgorithms = HeapAlgorithms(isHeap: seq<Node> -> bool,
                                           pushHeap: seq<Node> -> seq<Node>,
                                           popHeap: seq<Node> -> seq<Node>)
  {
    ghost predicate Valid() {
      && isHeap([])
      && (forall v, n {:trigger PushOk(v, n)} :: isHeap(v) ==> PushOk(v, n))
      && (forall v {:trigger PopOk(v)} :: v != [] && isHeap(v) ==> PopOk(v))
    }

    ghost predicate PushOk(v: seq<Node>, n: Node) {
      multiset(pushHeap(v + [n])) == multiset(v + [n]) && isHeap(pushHeap(v + [n]))
    }

    ghost predicate PopOk(v: seq<Node>)
      requires v != []
    {
      && (forall i :: 0 <= i < |v| ==> v[0].priority <= v[i].priority)
      && var w := popHeap(v);
         |w| == |v| && w[|w| - 1] == v[0] && multiset(w) == multiset(v) && isHeap(w[..|w| - 1])
    }

    /** push_back followed by push_heap. */
    function Push(v: seq<Node>, n: Node): seq<Node> {
      pushHeap(v + [n])
    }

    /** pop_heap followed by pop_back. */
    function Pop(v: seq<Node>): seq<Node>
      requires v != []
    {
      var w := popHeap(v);
      if w == [] then [] else w[..|w| - 1]
    }
  }

  lemma PushFacts(heap: HeapAlgorithms, v: seq<Node>, n: Node)
    requires heap.Valid() && heap.isHeap(v)
    ensures heap.isHeap(heap.Push(v, n))
    ensures multiset(heap.Push(v, n)) == multiset(v)[n := multiset(v)[n] + 1]
    ensures |heap.Push(v, n)| == |v| + 1
  {
    assert heap.PushOk(v, n);
    assert multiset(v + [n]) == multiset(v)[n := multiset(v)[n] + 1];
    assert |multiset(heap.Push(v, n))| == |multiset(v + [n])|;
  }

  lemma PopFacts(heap: HeapAlgorithms, v: seq<Node>)
    requires heap.Valid() && heap.isHeap(v) && v != []
    ensures heap.isHeap(heap.Pop(v))
    ensures multiset(v)[v[0]] >= 1
    ensures multiset(heap.Pop(v)) == multiset(v)[v[0] := multiset(v)[v[0]] - 1]
    ensures |heap.Pop(v)| == |v| - 1
    ensures forall n :: n in multiset(v) ==> v[0].priority <= n.priority
  {
    assert heap.PopOk(v);
    var w := heap.popHeap(v);
    assert w == w[..|w| - 1] + [w[|w| - 1]];
    assert multiset(w) == multiset(heap.Pop(v))[v[0] := multiset(heap.Pop(v))[v[0]] + 1];
    forall n | n in multiset(v) ensures v[0].priority <= n.priority {
      assert n in v;
    }
  }

  datatype Problem = Problem(grid: Grid, field: OccupancyField, heap: HeapAlgorithms, start: int, goals: seq<int>)
  {
    ghost predicate Valid() {
      && grid.Valid() && FieldOk(field) && heap.Valid() && grid.IsFree(start)
      && (forall i, j :: 0 <= i < j < |goals| ==> goals[i] != goals[j])
      && (forall i :: 0 <= i < |goals| ==> grid.IsFree(goals[i]))
    }

    function Cell(state: int): int { CellOf(grid, start, state) }

    function H(state: int): real
      requires grid.columns > 0
    {
      Heuristic(grid, goals, Cell(state))
    }

    predicate CanMove(state: int, direction: int)
      requires grid.columns > 0
    {
      Legal(grid, Cell(state), direction)
    }

    function Target(state: int, direction: int): int
      requires grid.columns > 0
    {
      Successor(grid, start, state, direction)
    }

    function Cost(state: int, direction: int): real
      requires grid.columns > 0
    {
      EdgeCost(grid, field, start, state, direction)
    }
  }

  datatype Search = Search(best: map<int, real>, parent: map<int, int>, settled: map<int, int>,
                           closed: set<int>, open: seq<Node>, stopped: bool)

  // --- The transition system -----------------------------------------------------

  function Initial(p: Problem): Search
    requires p.grid.columns > 0
  {
    var s := p.grid.StartState();
    Search(map[s := 0.0], map[], map[], {}, p.heap.Push([], Node(p.H(s), 0.0, s)), false)
  }

  function Improve(p: Problem, s: Search, from: int, to: int, cost: real): Search
    requires p.grid.columns > 0
  {
    s.(best := s.best[to := cost], parent := s.parent[to := from],
       open := p.heap.Push(s.open, Node(cost + p.H(to), cost, to)))
  }

  function Relax(p: Problem, s: Search, n: Node, direction: int): Search
    requires p.grid.columns > 0
  {
    if !p.CanMove(n.state, direction) then s
    else
      var to, cost := p.Target(n.state, direction), n.cost + p.Cost(n.state, direction);
      if to !in s.best || cost < s.best[to] then Improve(p, s, n.state, to, cost) else s
  }

  /** The first `k` directions of the expansion loop. */
  function Expand(p: Problem, s: Search, n: Node, k: nat): Search
    requires p.grid.columns > 0
  {
    if k == 0 then s else Relax(p, Expand(p, s, n, k - 1), n, k - 1)
  }

  /** Close the popped state; the first state closed on a goal cell settles that goal. */
  function Settle(p: Problem, s: Search, n: Node): Search {
    var cell := p.Cell(n.state);
    var closed := s.closed + {n.state};
    if cell in p.goals && cell !in s.settled then
      s.(closed := closed, settled := s.settled[cell := n.state], stopped := |s.settled| + 1 == |p.goals|)
    else
      s.(closed := closed)
  }

  predicate Done(s: Search) { s.stopped || s.open == [] }

  function Step(p: Problem, s: Search): Search
    requires p.grid.columns > 0
  {
    if Done(s) then s
    else
      var n, popped := s.open[0], s.(open := p.heap.Pop(s.open));
      if n.state !in s.best || n.cost > s.best[n.state] then popped
      else
        var visited := Settle(p, popped, n);
        if visited.stopped then visited else Expand(p, visited, n, p.grid.DirectionLimit())
  }

  function Iterate(p: Problem, s: Search, k: nat): Search
    requires p.grid.columns > 0
  {
    if k == 0 then s else Step(p, Iterate(p, s, k - 1))
  }

  // --- What every reachable search keeps ---------------------------------------------

  ghost predicate BestOk(p: Problem, s: Search)
  {
    && p.grid.StartState() in s.best && s.best[p.grid.StartState()] == 0.0
    && (forall x :: x in s.best ==> 0 <= x <= p.grid.StartState() && p.grid.IsFree(p.Cell(x)))
    && s.closed <= s.best.Keys
  }

  /** The parent edge is a legal move out of an expanded state and accounts exactly for the cost. */
  ghost predicate ParentEdge(p: Problem, s: Search, x: int)
    requires p.grid.columns > 0
  {
    && 0 <= x < p.grid.StartState() && x in s.best
    && x in s.parent && s.parent[x] in s.closed && s.parent[x] in s.best
    && p.CanMove(s.parent[x], x % 8) && x == p.Target(s.parent[x], x % 8)
    && s.best[x] == s.best[s.parent[x]] + p.Cost(s.parent[x], x % 8)
  }

  ghost predicate ParentsOk(p: Problem, s: Search)
    requires p.grid.columns > 0
  {
    forall x {:trigger ParentEdge(p, s, x)} :: x in s.best && x != p.grid.StartState() ==> ParentEdge(p, s, x)
  }

  function BestNode(p: Problem, s: Search, x: int): Node
    requires p.grid.columns > 0 && x in s.best
  {
    Node(s.best[x] + p.H(x), s.best[x], x)
  }

  ghost predicate NodeOk(p: Problem, s: Search, n: Node)
    requires p.grid.columns > 0
  {
    n.state in s.best && s.best[n.state] <= n.cost && n.priority == n.cost + p.H(n.state)
  }

  /** A state's current best entry is in the heap once while open and never again after expansion. */
  ghost predicate EntryOk(p: Problem, s: Search, x: int)
    requires p.grid.columns > 0 && x in s.best
  {
    multiset(s.open)[BestNode(p, s, x)] == if x in s.closed then 0 else 1
  }

  ghost predicate HeapOk(p: Problem, s: Search)
    requires p.grid.columns > 0
  {
    && p.heap.isHeap(s.open)
    && (forall n :: n in multiset(s.open) ==> NodeOk(p, s, n))
    && (forall x :: x in s.best ==> EntryOk(p, s, x))
  }

  /** Every expanded state has at most `level` as estimate, every heap entry at least. */
  ghost predicate LevelOk(p: Problem, s: Search, level: real)
    requires p.grid.columns > 0
  {
    && (forall c :: c in s.closed && c in s.best ==> s.best[c] + p.H(c) <= level)
    && (forall n :: n in multiset(s.open) ==> level <= n.priority)
  }

  ghost predicate EdgeRelaxed(p: Problem, s: Search, c: int, d: int)
    requires p.grid.columns > 0 && c in s.best
  {
    p.CanMove(c, d) ==> p.Target(c, d) in s.best && s.best[p.Target(c, d)] <= s.best[c] + p.Cost(c, d)
  }

  /** All edges out of expanded states are relaxed; of `current` only the first `k` directions. */
  ghost predicate EdgesOk(p: Problem, s: Search, current: int, k: int)
    requires p.grid.columns > 0
  {
    forall c, d :: c in s.closed && c in s.best && (c != current || d < k) ==> EdgeRelaxed(p, s, c, d)
  }

  ghost predicate LowerBound(p: Problem, cell: int, cost: real)
    requires p.grid.columns > 0
  {
    forall walk :: WalkTo(p.grid, p.start, walk, cell) ==> cost <= WalkCost(p.grid, p.field, p.start, walk)
  }

  ghost predicate SettledOk(p: Problem, s: Search)
    requires p.grid.columns > 0
  {
    && (forall t :: t in s.settled ==>
          t in p.goals && s.settled[t] in s.closed && s.settled[t] in s.best
          && p.Cell(s.settled[t]) == t && LowerBound(p, t, s.best[s.settled[t]]))
    && (forall c :: c in s.closed && p.Cell(c) in p.goals ==> p.Cell(c) in s.settled)
    && (s.stopped ==> |s.settled| == |p.goals|)
  }

  ghost predicate Core(p: Problem, s: Search, level: real)
    requires p.grid.columns > 0
  {
    BestOk(p, s) && ParentsOk(p, s) && HeapOk(p, s) && LevelOk(p, s, level) && SettledOk(p, s)
  }

  ghost predicate Inv(p: Problem, s: Search)
    requires p.grid.columns > 0
  {
    (exists level :: Core(p, s, level)) && (!s.stopped ==> EdgesOk(p, s, -1, 0))
  }
}
