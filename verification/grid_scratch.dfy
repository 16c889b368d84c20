/**
 The per-thread search buffers and the search that runs on them.  The arrays are never
 cleared between searches: a slot counts only when its stamp equals the current
 generation.  The search is proved to follow the transition system step by step from
 any valid buffer contents, so leftovers of earlier searches cannot influence a result.
 */
module GridScratch {
  import opened GridModel
  import opened GridHeuristic
  import opened GridSearch
  import opened GridSearchInvariant
  import opened GridSearchResults

  /** Stamps are 32-bit unsigned and wrap around. */
  const GENERATIONS := 0x1_0000_0000

  /** The view a search hands to route reconstruction. */
  datatype SearchResult = NoSearch | View(buffers: Buffers, startIndex: int, startState: int, cellCount: nat)

  /** Goals in submission order without repeats and without cells that are not free. */
  function Filtered(g: Grid, goals: seq<int>): seq<int>
    decreases |goals|
  {
    if goals == [] then []
    else
      var rest := Filtered(g, Init(goals));
      if g.IsFree(Last(goals)) && Last(goals) !in rest then rest + [Last(goals)] else rest
  }

  lemma {:induction false} FilteredFacts(g: Grid, goals: seq<int>)
    ensures var f := Filtered(g, goals);
            && (forall c :: c in f <==> c in goals && g.IsFree(c))
            && (forall i, j :: 0 <= i < j < |f| ==> f[i] != f[j])
    decreases |goals|
  {
    if goals != [] {
      FilteredFacts(g, Init(goals));
      assert goals == Init(goals) + [Last(goals)];
    }
  }

  method Resize<T>(a: array<T>, size: nat, fill: T) returns (b: array<T>)
    requires a.Length <= size
    ensures fresh(b) && b.Length == size
    ensures b[..a.Length] == a[..]
    ensures forall i :: a.Length <= i < size ==> b[i] == fill
  {
    b := new T[size](i => fill);
    for i := 0 to a.Length
      invariant forall j :: 0 <= j < i ==> b[j] == a[j]
      invariant forall j :: a.Length <= j < size ==> b[j] == fill
    {
      b[i] := a[i];
    }
  }

  method Fill<T>(a: array<T>, value: T)
    modifies a
    ensures forall i :: 0 <= i < a.Length ==> a[i] == value
  {
    for i := 0 to a.Length
      invariant forall j :: 0 <= j < i ==> a[j] == value
    {
      a[i] := value;
    }
  }

  /** The move test and step cost of the expansion loop. */
  method TryMove(p: Problem, state: int, direction: int) returns (legal: bool, next: int, stepCost: real)
    requires p.Valid() && 0 <= direction < p.grid.DirectionLimit()
    requires 0 <= state <= p.grid.StartState() && p.grid.IsFree(p.Cell(state))
    ensures legal <==> p.CanMove(state, direction)
    ensures legal ==> next * 8 + direction == p.Target(state, direction) && stepCost == p.Cost(state, direction)
  {
    var g := p.grid;
    hide Multiplier;
    legal, next, stepCost := false, -1, 0.0;
    var currentCell, arrival := p.Cell(state), DirectionOf(g, state);
    var currentColumn, currentRow := g.Column(currentCell), g.Row(currentCell);
    var nextColumn, nextRow := currentColumn + DX(direction), currentRow + DY(direction);
    if nextColumn < 0 || nextColumn >= g.columns || nextRow < 0 || nextRow >= g.rows {
      return;
    }
    next := g.Index(nextColumn, nextRow);
    if !g.IsFree(next) {
      return;
    }
    if direction >= 4 {
      var firstOrthogonal := g.Index(currentColumn + DX(direction), currentRow);
      var secondOrthogonal := g.Index(currentColumn, currentRow + DY(direction));
      if !g.IsFree(firstOrthogonal) || !g.IsFree(secondOrthogonal) {
        return;
      }
    }
    legal := true;
    var turnCost := if arrival >= 0 && arrival != direction then g.TurnPenalty() else 0.0;
    stepCost := (g.StepDistance(direction) + turnCost) * Multiplier(g, p.field, next);
  }

  lemma TargetInRange(p: Problem, state: int, direction: int)
    requires p.Valid() && p.CanMove(state, direction)
    ensures 0 <= p.Target(state, direction) < p.grid.StartState() && p.grid.IsFree(p.Cell(p.Target(state, direction)))
  {
    SuccessorParts(p.grid, p.start, state, direction);
  }

  /** Pointers into the buffers, taken once at the start of a search. */
  datatype Buffers = Buffers(bestCost: array<real>, bestCostStamp: array<int>, parent: array<int>,
                             firstSettledState: array<int>, firstSettledStamp: array<int>,
                             goalStamp: array<int>, heuristic: array<real>, generation: int)
  {
    ghost predicate Separate() {
      && bestCost.Length == bestCostStamp.Length == parent.Length
      && firstSettledState.Length == firstSettledStamp.Length == goalStamp.Length == heuristic.Length
      && bestCost != heuristic
      && bestCostStamp !in {parent, firstSettledState, firstSettledStamp, goalStamp}
      && parent !in {firstSettledState, firstSettledStamp, goalStamp}
      && firstSettledState !in {firstSettledStamp, goalStamp}
      && firstSettledStamp != goalStamp
    }

    ghost predicate Stamped(a: array<int>)
      reads a
    {
      forall i :: 0 <= i < a.Length ==> 0 <= a[i] <= generation
    }

    /** No stamp is ahead of the generation. */
    ghost predicate Sane()
      reads bestCostStamp, firstSettledStamp, goalStamp
    {
      Separate() && 0 <= generation && Stamped(bestCostStamp) && Stamped(firstSettledStamp) && Stamped(goalStamp)
    }

    /** No slot carries the current generation. */
    ghost predicate Unused()
      reads bestCostStamp, firstSettledStamp, goalStamp
    {
      && (forall i :: 0 <= i < bestCostStamp.Length ==> bestCostStamp[i] != generation)
      && (forall i :: 0 <= i < firstSettledStamp.Length ==> firstSettledStamp[i] != generation)
      && (forall i :: 0 <= i < goalStamp.Length ==> goalStamp[i] != generation)
    }

    /** No cell is settled in the current generation. */
    ghost predicate NothingSettled(limit: nat)
      reads firstSettledStamp
    {
      limit <= firstSettledStamp.Length && forall c :: 0 <= c < limit ==> firstSettledStamp[c] != generation
    }

    /** The state-indexed buffers hold exactly the search's costs and parents. */
    ghost predicate HoldsStates(p: Problem, s: Search)
      requires p.grid.columns > 0
      reads bestCost, bestCostStamp, parent
    {
      && p.grid.StartState() < bestCost.Length == bestCostStamp.Length == parent.Length
      && (forall x :: 0 <= x <= p.grid.StartState() ==> (bestCostStamp[x] == generation <==> x in s.best))
      && (forall x :: 0 <= x <= p.grid.StartState() && x in s.best ==> bestCost[x] == s.best[x])
      && (forall x :: 0 <= x <= p.grid.StartState() && x in s.parent ==> parent[x] == s.parent[x])
    }

    /** The cell-indexed buffers hold exactly the goals and the estimates. */
    ghost predicate HoldsGoals(p: Problem)
      requires p.grid.columns > 0
      reads goalStamp, heuristic
    {
      && p.grid.Cells() <= goalStamp.Length == heuristic.Length
      && (forall c :: 0 <= c < p.grid.Cells() ==> (goalStamp[c] == generation <==> c in p.goals))
      && (forall c :: 0 <= c < p.grid.Cells() && p.grid.IsFree(c) ==> heuristic[c] == Heuristic(p.grid, p.goals, c))
    }

    /** ... and exactly the settled goals. */
    ghost predicate HoldsSettled(p: Problem, s: Search)
      reads firstSettledState, firstSettledStamp
    {
      && p.grid.Cells() <= firstSettledState.Length == firstSettledStamp.Length
      && (forall c :: 0 <= c < p.grid.Cells() ==> (firstSettledStamp[c] == generation <==> c in s.settled))
      && (forall c :: 0 <= c < p.grid.Cells() && c in s.settled ==> firstSettledState[c] == s.settled[c])
    }

    ghost predicate Holds(p: Problem, s: Search, openSet: seq<Node>)
      requires p.grid.columns > 0
      reads bestCost, bestCostStamp, parent, firstSettledState, firstSettledStamp, goalStamp, heuristic
    {
      Sane() && HoldsStates(p, s) && HoldsGoals(p) && HoldsSettled(p, s) && openSet == s.open
    }
  }

  // --- The search loop ----------------------------------------------------------------

  /** Record a cheaper way into a state and queue it. */
  method Improved(b: Buffers, p: Problem, ghost s: Search, openSet: seq<Node>, from: int, nextState: int, nextCost: real)
      returns (pushed: seq<Node>)
    requires p.Valid() && b.Holds(p, s, openSet)
    requires 0 <= nextState < p.grid.StartState() && p.grid.IsFree(p.Cell(nextState))
    modifies b.bestCost, b.bestCostStamp, b.parent
    ensures b.Holds(p, Improve(p, s, from, nextState, nextCost), pushed)
  {
    b.bestCostStamp[nextState] := b.generation;
    b.bestCost[nextState] := nextCost;
    b.parent[nextState] := from;
    pushed := p.heap.Push(openSet, Node(nextCost + b.heuristic[p.Cell(nextState)], nextCost, nextState));
  }

  /** The stamp test and the cost test: the state is new to this search, or reached cheaper. */
  predicate Undercuts(b: Buffers, p: Problem, ghost s: Search, nextState: int, nextCost: real): (r: bool)
    requires p.grid.columns > 0 && b.HoldsStates(p, s) && 0 <= nextState <= p.grid.StartState()
    reads b.bestCost, b.bestCostStamp, b.parent
    ensures r <==> nextState !in s.best || nextCost < s.best[nextState]
  {
    b.bestCostStamp[nextState] != b.generation || nextCost < b.bestCost[nextState]
  }

  /** One direction of the expansion loop follows one relaxation. */
  method RelaxDirection(b: Buffers, p: Problem, ghost s: Search, openSet: seq<Node>, current: Node, direction: int)
      returns (pushed: seq<Node>)
    requires p.Valid() && b.Holds(p, s, openSet) && 0 <= direction < p.grid.DirectionLimit()
    requires 0 <= current.state <= p.grid.StartState() && p.grid.IsFree(p.Cell(current.state))
    modifies b.bestCost, b.bestCostStamp, b.parent
    ensures b.Holds(p, Relax(p, s, current, direction), pushed)
  {
    pushed := openSet;
    assert b.HoldsStates(p, s);
    hide b.Holds, b.HoldsStates;
    var legal, next, stepCost := TryMove(p, current.state, direction);
    if legal {
      var nextState := next * 8 + direction;
      var nextCost := current.cost + stepCost;
      TargetInRange(p, current.state, direction);
      if Undercuts(b, p, s, nextState, nextCost) {
        pushed := Improved(b, p, s, openSet, current.state, nextState, nextCost);
      }
    }
  }

  method ExpandState(b: Buffers, p: Problem, ghost s: Search, openSet: seq<Node>, current: Node)
      returns (pushed: seq<Node>)
    requires p.Valid() && b.Holds(p, s, openSet)
    requires 0 <= current.state <= p.grid.StartState() && p.grid.IsFree(p.Cell(current.state))
    modifies b.bestCost, b.bestCostStamp, b.parent
    ensures b.Holds(p, Expand(p, s, current, p.grid.DirectionLimit()), pushed)
  {
    pushed := openSet;
    for direction := 0 to p.grid.DirectionLimit()
      invariant b.Holds(p, Expand(p, s, current, direction), pushed)
    {
      pushed := RelaxDirection(b, p, Expand(p, s, current, direction), pushed, current, direction);
    }
  }

  /** First arrival on a goal cell: record the state and count the goal down. */
  method SettleState(b: Buffers, p: Problem, ghost s: Search, openSet: seq<Node>, current: Node, remainingGoals: int)
      returns (remaining: int)
    requires p.Valid() && b.Holds(p, s, openSet)
    requires 0 <= current.state <= p.grid.StartState() && p.grid.IsFree(p.Cell(current.state))
    requires remainingGoals == |p.goals| - |s.settled| && !s.stopped
    modifies b.firstSettledState, b.firstSettledStamp
    ensures b.Holds(p, Settle(p, s, current), openSet)
    ensures remaining == |p.goals| - |Settle(p, s, current).settled|
    ensures Settle(p, s, current).stopped <==> remaining == 0 && remaining != remainingGoals
  {
    var currentCell := p.Cell(current.state);
    remaining := remainingGoals;
    if b.goalStamp[currentCell] == b.generation && b.firstSettledStamp[currentCell] != b.generation {
      b.firstSettledStamp[currentCell] := b.generation;
      b.firstSettledState[currentCell] := current.state;
      remaining := remaining - 1;
    }
  }

  /** Lazy deletion: a heap entry dearer than the state's recorded cost is out of date. */
  predicate Stale(b: Buffers, p: Problem, ghost s: Search, current: Node): (r: bool)
    requires p.grid.columns > 0 && b.HoldsStates(p, s) && 0 <= current.state <= p.grid.StartState() && current.state in s.best
    reads b.bestCost, b.bestCostStamp, b.parent
    ensures r <==> current.cost > s.best[current.state]
  {
    current.cost > b.bestCost[current.state]
  }

  /** One iteration of the search loop: pop, drop if stale, settle, stop or expand. */
  method Iteration(b: Buffers, p: Problem, ghost s: Search, openSet: seq<Node>, remainingGoals: int)
      returns (open: seq<Node>, remaining: int, finished: bool)
    requires p.Valid() && b.Holds(p, s, openSet) && Inv(p, s) && !Done(s) && remainingGoals == |p.goals| - |s.settled|
    modifies b.bestCost, b.bestCostStamp, b.parent, b.firstSettledState, b.firstSettledStamp
    ensures b.Holds(p, Step(p, s), open) && remaining == |p.goals| - |Step(p, s).settled|
    ensures finished <==> Step(p, s).stopped
  {
    FrontShape(p, s);
    hide Step, Inv, Initial, Work, Settle, Expand, Visit;
    ghost var popped := s.(open := p.heap.Pop(s.open));
    var current := openSet[0];
    remaining, finished := remainingGoals, false;
    open := p.heap.Pop(openSet);
    assert b.Holds(p, popped, open) && !s.stopped;
    hide b.Holds;
    if !Stale(b, p, popped, current) {
      remaining := SettleState(b, p, popped, open, current, remainingGoals);
      if remaining != remainingGoals && remaining == 0 {
        finished := true;
      } else {
        open := ExpandState(b, p, Settle(p, popped, current), open, current);
      }
    }
  }

  /** The buffers hold the transition system's state after `k` steps. */
  ghost predicate At(b: Buffers, p: Problem, k: nat, openSet: seq<Node>, remainingGoals: int)
    reads b.bestCost, b.bestCostStamp, b.parent, b.firstSettledState, b.firstSettledStamp, b.goalStamp, b.heuristic
  {
    && p.Valid()
    && var s := Iterate(p, Initial(p), k);
       b.Holds(p, s, openSet) && Inv(p, s) && remainingGoals == |p.goals| - |s.settled|
  }

  ghost predicate StoppedAt(p: Problem, k: nat) {
    p.grid.columns > 0 && Iterate(p, Initial(p), k).stopped
  }

  ghost function WorkAt(p: Problem, k: nat): int {
    if p.grid.columns > 0 then Work(p, Iterate(p, Initial(p), k)) else 0
  }

  /** One loop iteration is one step. */
  method Advance(b: Buffers, p: Problem, ghost k: nat, openSet: seq<Node>, remainingGoals: int)
      returns (open: seq<Node>, remaining: int, finished: bool)
    requires At(b, p, k, openSet, remainingGoals) && openSet != [] && !StoppedAt(p, k)
    modifies b.bestCost, b.bestCostStamp, b.parent, b.firstSettledState, b.firstSettledStamp
    ensures At(b, p, k + 1, open, remaining)
    ensures finished <==> StoppedAt(p, k + 1)
    ensures 0 <= WorkAt(p, k + 1) < WorkAt(p, k)
  {
    ghost var s := Iterate(p, Initial(p), k);
    StepKeeps(p, s);
    open, remaining, finished := Iteration(b, p, s, openSet, remainingGoals);
    hide Step, Inv, Initial, Work, b.Holds;
  }

  /** The search loop.  It ends exactly where the transition system ends. */
  method RunLoop(b: Buffers, p: Problem, openSet: seq<Node>) returns (ghost final: Search)
    requires p.Valid() && b.Holds(p, Initial(p), openSet)
    modifies b.bestCost, b.bestCostStamp, b.parent, b.firstSettledState, b.firstSettledStamp
    ensures HoldsResult(b, p, final)
  {
    ghost var k: nat := 0;
    EveryRunKeeps(p, 0);
    var open, remainingGoals, finished := openSet, |p.goals|, false;
    assert At(b, p, k, open, remainingGoals) && !StoppedAt(p, k);
    hide *;
    while open != [] && !finished
      invariant At(b, p, k, open, remainingGoals) && (finished <==> StoppedAt(p, k))
      decreases WorkAt(p, k)
    {
      open, remainingGoals, finished := Advance(b, p, k, open, remainingGoals);
      k := k + 1;
    }
    final := Finished(b, p, k, open, remainingGoals);
  }

  /** What a finished search leaves behind for route reconstruction. */
  ghost predicate HoldsResult(b: Buffers, p: Problem, final: Search)
    reads b.bestCost, b.bestCostStamp, b.parent, b.firstSettledState, b.firstSettledStamp, b.goalStamp, b.heuristic
  {
    p.Valid() && Finishes(p, final) && b.Sane() && b.HoldsStates(p, final) && b.HoldsGoals(p) && b.HoldsSettled(p, final)
  }

  /** Two pairs of buffers, whatever was in them before, look the same after searching the same problem: the same
      slots are marked, and marked slots have the same contents. */
  ghost predicate LookAlike(b: Buffers, c: Buffers, p: Problem)
    requires p.grid.StartState() < b.bestCost.Length == b.bestCostStamp.Length == b.parent.Length
    requires p.grid.StartState() < c.bestCost.Length == c.bestCostStamp.Length == c.parent.Length
    requires p.grid.Cells() <= b.firstSettledState.Length == b.firstSettledStamp.Length
    requires p.grid.Cells() <= c.firstSettledState.Length == c.firstSettledStamp.Length
    reads b.bestCost, b.bestCostStamp, b.parent, b.firstSettledState, b.firstSettledStamp
    reads c.bestCost, c.bestCostStamp, c.parent, c.firstSettledState, c.firstSettledStamp
  {
    && (forall x :: 0 <= x <= p.grid.StartState() ==>
          && (b.bestCostStamp[x] == b.generation <==> c.bestCostStamp[x] == c.generation)
          && (b.bestCostStamp[x] == b.generation ==> b.bestCost[x] == c.bestCost[x])
          && (b.bestCostStamp[x] == b.generation && x != p.grid.StartState() ==> b.parent[x] == c.parent[x]))
    && (forall y :: 0 <= y < p.grid.Cells() ==>
          && (b.firstSettledStamp[y] == b.generation <==> c.firstSettledStamp[y] == c.generation)
          && (b.firstSettledStamp[y] == b.generation ==> b.firstSettledState[y] == c.firstSettledState[y]))
  }

  lemma ReusedBuffersAreFresh(b: Buffers, c: Buffers, p: Problem, s: Search, t: Search)
    requires p.grid.columns > 0 && HoldsResult(b, p, s) && HoldsResult(c, p, t)
    ensures s == t && LookAlike(b, c, p)
  {
    FinishUnique(p, s, t);
    FinishedParents(p, s);
  }

  lemma FinishedParents(p: Problem, s: Search)
    requires p.Valid() && Finishes(p, s)
    ensures forall x :: x in s.best && x != p.grid.StartState() ==> x in s.parent
  {
    var k: nat :| s == Iterate(p, Initial(p), k) && Done(s);
    EveryRunKeeps(p, k);
    var level :| Core(p, s, level);
    hide Inv, BestOk, HeapOk, LevelOk, SettledOk, EdgesOk;
    ParentsKnown(p, s);
  }

  lemma ParentsKnown(p: Problem, s: Search)
    requires p.grid.columns > 0 && ParentsOk(p, s)
    ensures forall x :: x in s.best && x != p.grid.StartState() ==> x in s.parent
  {
    forall x | x in s.best && x != p.grid.StartState() ensures x in s.parent {
      assert ParentEdge(p, s, x);
    }
  }

  lemma Finished(b: Buffers, p: Problem, k: nat, open: seq<Node>, remainingGoals: int) returns (final: Search)
    requires At(b, p, k, open, remainingGoals) && (open == [] || StoppedAt(p, k))
    ensures HoldsResult(b, p, final)
  {
    final := Iterate(p, Initial(p), k);
  }

  /** What one step does with the heap front. */
  lemma FrontShape(p: Problem, s: Search)
    requires p.Valid() && Inv(p, s) && !Done(s)
    ensures var n, popped := s.open[0], s.(open := p.heap.Pop(s.open));
            && n.state in s.best && 0 <= n.state <= p.grid.StartState() && p.grid.IsFree(p.Cell(n.state))
            && (n.cost > s.best[n.state] ==> Step(p, s) == popped)
            && (n.cost <= s.best[n.state] ==>
                  var visited := Settle(p, popped, n);
                  Step(p, s) == if visited.stopped then visited else Expand(p, visited, n, p.grid.DirectionLimit()))
            && (n.cost <= s.best[n.state] ==>
                  Step(p, s).settled == Settle(p, popped, n).settled && Step(p, s).stopped == Settle(p, popped, n).stopped)
  {
    var level :| Core(p, s, level);
    FrontIsKnown(p, s, level);
    var n, popped := s.open[0], s.(open := p.heap.Pop(s.open));
    if n.cost <= s.best[n.state] && !Settle(p, popped, n).stopped {
      VisitKeeps(p, s, n, level);
      ExpandKeeps(p, Visit(p, s, n), n, p.grid.DirectionLimit());
    }
  }

  // --- Preparing a search -------------------------------------------------------------

  /** Stamp the goal cells of this search; the stamp doubles as the repeat test. */
  method StampGoals(grid: Grid, goals: seq<int>, goalStamp: array<int>, generation: int) returns (goalCells: seq<int>)
    requires grid.Valid() && grid.Cells() <= goalStamp.Length
    requires forall i :: 0 <= i < goalStamp.Length ==> goalStamp[i] != generation
    modifies goalStamp
    ensures goalCells == Filtered(grid, goals)
    ensures forall c :: 0 <= c < grid.Cells() ==> (goalStamp[c] == generation <==> c in goalCells)
    ensures forall i :: 0 <= i < goalStamp.Length ==> goalStamp[i] == old(goalStamp[i]) || goalStamp[i] == generation
  {
    goalCells := [];
    for i := 0 to |goals|
      invariant goalCells == Filtered(grid, goals[..i])
      invariant forall c :: 0 <= c < grid.Cells() ==> (goalStamp[c] == generation <==> c in goalCells)
      invariant forall i :: 0 <= i < goalStamp.Length ==> goalStamp[i] == old(goalStamp[i]) || goalStamp[i] == generation
    {
      assert Init(goals[..i + 1]) == goals[..i];
      var goal := goals[i];
      if goal < 0 || goal >= grid.Cells() || !grid.IsFree(goal) || goalStamp[goal] == generation {
        continue;
      }
      goalStamp[goal] := generation;
      goalCells := goalCells + [goal];
    }
    assert goals[..|goals|] == goals;
  }

  ghost predicate Estimated(grid: Grid, goalCells: seq<int>, heuristic: array<real>, limit: int)
    requires grid.columns > 0
    reads heuristic
  {
    && grid.Cells() <= heuristic.Length
    && forall c :: 0 <= c < limit && c < grid.Cells() && grid.IsFree(c) ==> heuristic[c] == Heuristic(grid, goalCells, c)
  }

  method FillHeuristic(grid: Grid, goalCells: seq<int>, heuristic: array<real>)
    requires grid.Valid() && grid.Cells() <= heuristic.Length
    modifies heuristic
    ensures Estimated(grid, goalCells, heuristic, grid.Cells())
  {
    if goalCells == [] {
      for cell := 0 to grid.Cells()
        invariant forall c :: 0 <= c < cell ==> heuristic[c] == 0.0
      {
        heuristic[cell] := 0.0;
      }
      return;
    }
    hide Heuristic, Estimate;
    for row := 0 to grid.rows
      invariant Estimated(grid, goalCells, heuristic, grid.Index(0, row))
    {
      for column := 0 to grid.columns
        invariant Estimated(grid, goalCells, heuristic, grid.Index(column, row))
      {
        IndexInverse(grid, column, row);
        var cell := grid.Index(column, row);
        assert cell + 1 == grid.Index(column + 1, row);
        if grid.IsFree(cell) {
          var best := NearestGoal(grid, goalCells, cell);
          heuristic[cell] := best;
        }
      }
      assert grid.Index(grid.columns, row) == grid.Index(0, row + 1);
    }
  }

  /** The minimum over the goal centres. */
  method NearestGoal(grid: Grid, goalCells: seq<int>, cell: int) returns (best: real)
    requires grid.Valid() && goalCells != []
    ensures best == Heuristic(grid, goalCells, cell)
  {
    best := Estimate(grid, cell, goalCells[0]);
    assert goalCells[..1] == [goalCells[0]];
    for i := 1 to |goalCells|
      invariant best == Heuristic(grid, goalCells[..i], cell)
    {
      assert Init(goalCells[..i + 1]) == goalCells[..i];
      best := MinReal(best, Estimate(grid, cell, goalCells[i]));
    }
    assert goalCells[..|goalCells|] == goalCells;
  }

  /** Seed the heap with the directionless start state. */
  method PushStart(b: Buffers, p: Problem) returns (openSet: seq<Node>)
    requires p.Valid() && b.Sane() && b.HoldsGoals(p) && b.HoldsSettled(p, Initial(p))
    requires p.grid.StartState() < b.bestCost.Length
    requires forall i :: 0 <= i < b.bestCostStamp.Length ==> b.bestCostStamp[i] != b.generation
    modifies b.bestCost, b.bestCostStamp
    ensures b.Holds(p, Initial(p), openSet)
  {
    var startState := p.grid.StartState();
    b.bestCostStamp[startState] := b.generation;
    b.bestCost[startState] := 0.0;
    openSet := p.heap.Push([], Node(b.heuristic[p.start], 0.0, startState));
  }

  /** A search on buffers no slot of which carries the current generation. */
  method RunSearch(b: Buffers, grid: Grid, field: OccupancyField, heap: HeapAlgorithms, startIndex: int, goals: seq<int>)
      returns (ghost final: Search)
    requires grid.Valid() && FieldOk(field) && heap.Valid() && grid.IsFree(startIndex)
    requires b.Sane() && b.Unused() && grid.StartState() < b.bestCost.Length && grid.Cells() <= b.goalStamp.Length
    modifies b.bestCost, b.bestCostStamp, b.parent, b.firstSettledState, b.firstSettledStamp, b.goalStamp, b.heuristic
    ensures b.Sane()
    ensures goals != [] && Filtered(grid, goals) == [] ==> b.NothingSettled(grid.Cells())
    ensures goals == [] || Filtered(grid, goals) != [] ==>
              HoldsResult(b, Problem(grid, field, heap, startIndex, Filtered(grid, goals)), final)
  {
    FilteredFacts(grid, goals);
    var goalCells := StampGoals(grid, goals, b.goalStamp, b.generation);
    if goals != [] && goalCells == [] {
      final := Search(map[], map[], map[], {}, [], false);
      return;
    }
    FillHeuristic(grid, goalCells, b.heuristic);
    var p := Problem(grid, field, heap, startIndex, goalCells);
    var openSet := PushStart(b, p);
    final := RunLoop(b, p, openSet);
  }

  class SearchScratch {
    var bestCost: array<real>
    var bestCostStamp: array<int>
    var parent: array<int>
    var firstSettledState: array<int>
    var firstSettledStamp: array<int>
    var goalStamp: array<int>
    var heuristic: array<real>
    var generation: int

    function Pointers(): Buffers
      reads this
    {
      Buffers(bestCost, bestCostStamp, parent, firstSettledState, firstSettledStamp, goalStamp, heuristic, generation)
    }

    /** Any contents whatever, as long as no stamp is ahead of the generation. */
    ghost predicate Valid()
      reads this, bestCostStamp, firstSettledStamp, goalStamp
    {
      generation < GENERATIONS && Pointers().Sane()
    }

    constructor ()
      ensures Valid() && fresh(bestCost) && fresh(bestCostStamp) && fresh(parent) && fresh(firstSettledState)
      ensures fresh(firstSettledStamp) && fresh(goalStamp) && fresh(heuristic) && generation == 0
    {
      bestCost, bestCostStamp, parent := new real[0], new int[0], new int[0];
      firstSettledState, firstSettledStamp, goalStamp := new int[0], new int[0], new int[0];
      heuristic := new real[0];
      generation := 0;
    }

    method GrowStates(stateCount: nat)
      requires Valid()
      modifies `bestCost, `bestCostStamp, `parent
      ensures Valid() && bestCost.Length >= stateCount && bestCost.Length >= old(bestCost.Length)
      ensures if old(bestCost.Length) >= stateCount
              then bestCost == old(bestCost) && bestCostStamp == old(bestCostStamp) && parent == old(parent)
              else fresh(bestCost) && fresh(bestCostStamp) && fresh(parent)
      ensures bestCost[..old(bestCost.Length)] == old(bestCost[..])
      ensures bestCostStamp[..old(bestCostStamp.Length)] == old(bestCostStamp[..])
      ensures forall i :: old(bestCost.Length) <= i < bestCost.Length ==> bestCostStamp[i] == 0
    {
      if bestCost.Length < stateCount {
        var costs := Resize(bestCost, stateCount, 0.0);
        var stamps := Resize(bestCostStamp, stateCount, 0);
        var parents := Resize(parent, stateCount, 0);
        forall i | 0 <= i < stamps.Length ensures 0 <= stamps[i] <= generation {
          if i < bestCostStamp.Length { assert stamps[..bestCostStamp.Length][i] == bestCostStamp[i]; }
        }
        bestCost, bestCostStamp, parent := costs, stamps, parents;
      }
    }

    /** A larger copy of an array of stamps. */
    method LargerStamps(stamps: array<int>, size: nat) returns (larger: array<int>)
      requires stamps.Length <= size && 0 <= generation && forall i :: 0 <= i < stamps.Length ==> 0 <= stamps[i] <= generation
      ensures fresh(larger) && larger.Length == size && forall i :: 0 <= i < size ==> 0 <= larger[i] <= generation
      ensures larger[..stamps.Length] == stamps[..] && forall i :: stamps.Length <= i < size ==> larger[i] == 0
    {
      larger := Resize(stamps, size, 0);
      forall i | 0 <= i < size ensures 0 <= larger[i] <= generation {
        if i < stamps.Length { assert larger[..stamps.Length][i] == stamps[i]; }
      }
    }

    method GrowCells(cellCount: nat)
      requires Valid()
      modifies `firstSettledState, `firstSettledStamp, `goalStamp, `heuristic
      ensures Valid() && firstSettledState.Length >= cellCount
      ensures if old(firstSettledState.Length) >= cellCount
              then && firstSettledState == old(firstSettledState) && firstSettledStamp == old(firstSettledStamp)
                   && goalStamp == old(goalStamp) && heuristic == old(heuristic)
              else fresh(firstSettledState) && fresh(firstSettledStamp) && fresh(goalStamp) && fresh(heuristic)
    {
      if firstSettledState.Length < cellCount {
        var states := Resize(firstSettledState, cellCount, 0);
        var stamps := LargerStamps(firstSettledStamp, cellCount);
        var goals := LargerStamps(goalStamp, cellCount);
        var estimates := Resize(heuristic, cellCount, 0.0);
        firstSettledState, firstSettledStamp, goalStamp, heuristic := states, stamps, goals, estimates;
      }
    }

    /** Buffers only grow; kept slots keep their contents and new stamps are zero. */
    method EnsureCapacity(stateCount: nat, cellCount: nat)
      requires Valid()
      modifies this
      ensures Valid() && generation == old(generation)
      ensures bestCost.Length >= stateCount && firstSettledState.Length >= cellCount
      ensures bestCost == old(bestCost) || fresh(bestCost)
      ensures bestCostStamp == old(bestCostStamp) || fresh(bestCostStamp)
      ensures parent == old(parent) || fresh(parent)
      ensures firstSettledState == old(firstSettledState) || fresh(firstSettledState)
      ensures firstSettledStamp == old(firstSettledStamp) || fresh(firstSettledStamp)
      ensures goalStamp == old(goalStamp) || fresh(goalStamp)
      ensures heuristic == old(heuristic) || fresh(heuristic)
    {
      GrowStates(stateCount);
      GrowCells(cellCount);
    }

    /** A generation no slot carries: the next one, or one after clearing all stamps on wrap-around. */
    method NextGeneration()
      requires Valid()
      modifies `generation, bestCostStamp, firstSettledStamp, goalStamp
      ensures Valid() && generation == if old(generation) + 1 == GENERATIONS then 1 else old(generation) + 1
      ensures Pointers().Unused()
    {
      generation := (generation + 1) % GENERATIONS;
      if generation == 0 {
        Fill(bestCostStamp, 0);
        Fill(firstSettledStamp, 0);
        Fill(goalStamp, 0);
        generation := 1;
      }
    }

    /** A whole search on whatever the buffers hold.  The outcome is the transition system's outcome for the
        same problem: nothing earlier searches left behind can show. */
    method SearchFromGoals(grid: Grid, field: OccupancyField, heap: HeapAlgorithms, startIndex: int, goals: seq<int>)
        returns (result: SearchResult, ghost final: Search)
      requires Valid() && grid.Valid() && FieldOk(field) && heap.Valid()
      requires startIndex == -1 || grid.IsFree(startIndex)
      modifies this, bestCost, bestCostStamp, parent, firstSettledState, firstSettledStamp, goalStamp, heuristic
      ensures Valid()
      ensures startIndex == -1 ==> result == NoSearch
      ensures startIndex != -1 ==>
                result == View(Pointers(), startIndex, grid.StartState(), grid.Cells())
      ensures startIndex != -1 && goals != [] && Filtered(grid, goals) == [] ==> Pointers().NothingSettled(grid.Cells())
      ensures startIndex != -1 && (goals == [] || Filtered(grid, goals) != []) ==>
                var p := Problem(grid, field, heap, startIndex, Filtered(grid, goals));
                HoldsResult(Pointers(), p, final)
    {
      result, final := NoSearch, Search(map[], map[], map[], {}, [], false);
      if startIndex < 0 {
        return;
      }
      EnsureCapacity(grid.StartState() + 1, grid.Cells());
      NextGeneration();
      var b := Pointers();
      hide HoldsResult, b.NothingSettled, b.Unused, b.Stamped;
      result := View(b, startIndex, grid.StartState(), grid.Cells());
      final := RunSearch(b, grid, field, heap, startIndex, goals);
    }
  }
}
