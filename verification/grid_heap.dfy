/** The contract the search asks of the library's heap algorithms can be met: a sorted list meets it. */
module GridHeap {
  import opened GridModel
  import opened GridSearch

  predicate Sorted(v: seq<Node>) {
    forall i, j :: 0 <= i < j < |v| ==> v[i].priority <= v[j].priority
  }

  function Insert(n: Node, v: seq<Node>): seq<Node> {
    if v == [] || n.priority <= v[0].priority then [n] + v else [v[0]] + Insert(n, v[1..])
  }

  function Sort(v: seq<Node>): seq<Node> {
    if v == [] then [] else Insert(v[|v| - 1], Sort(v[..|v| - 1]))
  }

  function ToBack(v: seq<Node>): seq<Node> {
    if v == [] then [] else v[1..] + [v[0]]
  }

  const SORTED_LIST := HeapAlgorithms(v => Sorted(v), v => Sort(v), v => ToBack(v))

  lemma SortedCons(n: Node, v: seq<Node>)
    requires Sorted(v) && forall i :: 0 <= i < |v| ==> n.priority <= v[i].priority
    ensures Sorted([n] + v)
  {
  }

  lemma {:induction false} InsertKeepsSorted(n: Node, v: seq<Node>)
    requires Sorted(v)
    ensures Sorted(Insert(n, v)) && multiset(Insert(n, v)) == multiset(v) + multiset{n}
    decreases |v|
  {
    if v != [] && n.priority > v[0].priority {
      var rest := Insert(n, v[1..]);
      InsertKeepsSorted(n, v[1..]);
      assert v == [v[0]] + v[1..];
      assert multiset([v[0]] + rest) == multiset{v[0]} + multiset(rest);
      forall i | 0 <= i < |rest| ensures v[0].priority <= rest[i].priority {
        assert rest[i] in multiset(rest);
      }
      hide Insert;
      SortedCons(v[0], rest);
    }
  }

  lemma {:induction false} SortSorts(v: seq<Node>)
    ensures Sorted(Sort(v)) && multiset(Sort(v)) == multiset(v)
    decreases |v|
  {
    if v != [] {
      var last := |v| - 1;
      assert v == v[..last] + [v[last]];
      SortSorts(v[..last]);
      InsertKeepsSorted(v[last], Sort(v[..last]));
    }
  }

  lemma SortedListIsHeap()
    ensures SORTED_LIST.Valid()
  {
    forall v, n: Node ensures SORTED_LIST.PushOk(v, n) {
      SortSorts(v + [n]);
    }
    forall v | v != [] && SORTED_LIST.isHeap(v) ensures SORTED_LIST.PopOk(v) {
      var w := ToBack(v);
      assert v == [v[0]] + v[1..];
      assert w[..|w| - 1] == v[1..];
    }
  }

  /** So every grid, field, free start and distinct free goals make up a valid search problem. */
  lemma ProblemsExist(grid: Grid, field: OccupancyField, start: int, goals: seq<int>)
    requires grid.Valid() && FieldOk(field) && grid.IsFree(start)
    requires forall i, j :: 0 <= i < j < |goals| ==> goals[i] != goals[j]
    requires forall i :: 0 <= i < |goals| ==> grid.IsFree(goals[i])
    ensures Problem(grid, field, SORTED_LIST, start, goals).Valid()
  {
    SortedListIsHeap();
  }
}
