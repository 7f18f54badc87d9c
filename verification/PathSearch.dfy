/** The bounded attack-path search of `governed_attack_paths.py`.

    The search is a FIFO queue of partial paths with three bounds: hops per path, number of
    completed paths, and number of successors inspected.  It is proved against an ordered
    reference list: all simple source-to-target paths within the hop bound, in shortlex order.
 */
module PathSearch {
  import opened Ordering

  const MAX_GRAPH_EXPLORATIONS: nat := 5000

  /** Adjacency of a directed graph: every node is a key. */
  type Digraph = map<Id, set<Id>>

  datatype Query = Query(source: Id, target: Id, maxHops: nat, maxPaths: nat)

  /** Edges lead to nodes of the graph. */
  ghost predicate Closed(g: Digraph) {
    forall v | v in g :: g[v] <= g.Keys
  }

  // ----- What an attack path is -----

  ghost predicate IsWalk(g: Digraph, p: Path) {
    && p != []
    && (forall i | 0 <= i < |p| :: p[i] in g)
    && (forall i | 0 <= i < |p| - 1 :: p[i + 1] in g[p[i]])
  }

  ghost predicate Simple(p: Path) {
    forall i, j | 0 <= i < j < |p| :: p[i] != p[j]
  }

  /** A simple source-to-target path of at most `maxHops` edges. */
  ghost predicate IsAttackPath(g: Digraph, q: Query, p: Path) {
    && IsWalk(g, p)
    && Simple(p)
    && p[0] == q.source
    && p[|p| - 1] == q.target
    && |p| - 1 <= q.maxHops
  }

  /** A simple path from the source that has not yet left the target. */
  ghost predicate IsTrail(g: Digraph, q: Query, p: Path) {
    && IsWalk(g, p)
    && Simple(p)
    && p[0] == q.source
    && q.target !in p[..|p| - 1]
    && |p| - 1 <= q.maxHops
  }

  lemma AttackPathIsTrail(g: Digraph, q: Query, p: Path)
    ensures IsAttackPath(g, q, p) <==> IsTrail(g, q, p) && p[|p| - 1] == q.target
  {}

  // ----- The expansion step -----

  /** `p` extended by each of `successors` that it does not already visit, in the given order. */
  function Extensions(p: Path, successors: seq<Id>): seq<Path> {
    if successors == [] then []
    else
      var n := |successors| - 1;
      Extensions(p, successors[..n]) + if successors[n] in p then [] else [p + [successors[n]]]
  }

  predicate Expands(g: Digraph, q: Query, p: Path) {
    p != [] && p[|p| - 1] in g && p[|p| - 1] != q.target && |p| - 1 < q.maxHops
  }

  function Children(g: Digraph, q: Query, p: Path): seq<Path> {
    if Expands(g, q, p) then Extensions(p, Sorted(g[p[|p| - 1]])) else []
  }

  /** Successors inspected when `p` is taken from the queue. */
  function Cost(g: Digraph, q: Query, p: Path): nat {
    if Expands(g, q, p) then |g[p[|p| - 1]]| else 0
  }

  function ExpandAll(g: Digraph, q: Query, ps: seq<Path>): seq<Path> {
    if ps == [] then []
    else ExpandAll(g, q, ps[..|ps| - 1]) + Children(g, q, ps[|ps| - 1])
  }

  function TotalCost(g: Digraph, q: Query, ps: seq<Path>): nat {
    if ps == [] then 0
    else TotalCost(g, q, ps[..|ps| - 1]) + Cost(g, q, ps[|ps| - 1])
  }

  function ArrivalOf(q: Query, p: Path): seq<Path> {
    if p != [] && p[|p| - 1] == q.target then [p] else []
  }

  /** The paths of `ps` that end at the target. */
  function Arrivals(q: Query, ps: seq<Path>): seq<Path> {
    if ps == [] then [] else Arrivals(q, ps[..|ps| - 1]) + ArrivalOf(q, ps[|ps| - 1])
  }

  // ----- The reference list, level by level -----

  function Level(g: Digraph, q: Query, k: nat): seq<Path> {
    if k == 0 then [[q.source]] else ExpandAll(g, q, Level(g, q, k - 1))
  }

  function Levels(g: Digraph, q: Query, k: nat): seq<Path> {
    if k == 0 then Level(g, q, 0) else Levels(g, q, k - 1) + Level(g, q, k)
  }

  /** Every trail within the hop bound, in shortlex order. */
  function Trails(g: Digraph, q: Query): seq<Path> {
    Levels(g, q, q.maxHops)
  }

  /** Every attack path, in shortlex order: see `ShortlexPathsCorrect`. */
  function ShortlexPaths(g: Digraph, q: Query): seq<Path> {
    Arrivals(q, Trails(g, q))
  }

  function Cut(ps: seq<Path>, n: nat): seq<Path> {
    if |ps| <= n then ps else ps[..n]
  }

  // ----- Lists built one element at a time -----

  lemma {:induction false} ExpandAllAppend(g: Digraph, q: Query, ps: seq<Path>, rs: seq<Path>)
    ensures ExpandAll(g, q, ps + rs) == ExpandAll(g, q, ps) + ExpandAll(g, q, rs)
  {
    if rs == [] {
      assert ps + rs == ps;
    } else {
      var n := |rs| - 1;
      assert (ps + rs)[..|ps + rs| - 1] == ps + rs[..n];
      ExpandAllAppend(g, q, ps, rs[..n]);
    }
  }

  lemma {:induction false} ArrivalsAppend(q: Query, ps: seq<Path>, rs: seq<Path>)
    ensures Arrivals(q, ps + rs) == Arrivals(q, ps) + Arrivals(q, rs)
  {
    if rs == [] {
      assert ps + rs == ps;
    } else {
      var n := |rs| - 1;
      assert (ps + rs)[..|ps + rs| - 1] == ps + rs[..n];
      ArrivalsAppend(q, ps, rs[..n]);
    }
  }

  lemma {:induction false} TotalCostAppend(g: Digraph, q: Query, ps: seq<Path>, rs: seq<Path>)
    ensures TotalCost(g, q, ps + rs) == TotalCost(g, q, ps) + TotalCost(g, q, rs)
  {
    if rs == [] {
      assert ps + rs == ps;
    } else {
      var n := |rs| - 1;
      assert (ps + rs)[..|ps + rs| - 1] == ps + rs[..n];
      TotalCostAppend(g, q, ps, rs[..n]);
    }
  }

  lemma ArrivalsPrefix(q: Query, ps: seq<Path>, m: nat, n: nat)
    requires m <= n <= |ps|
    ensures Arrivals(q, ps[..m]) <= Arrivals(q, ps[..n])
  {
    assert ps[..n] == ps[..m] + ps[m..n];
    ArrivalsAppend(q, ps[..m], ps[m..n]);
  }

  lemma TotalCostPrefix(g: Digraph, q: Query, ps: seq<Path>, m: nat, n: nat)
    requires m <= n <= |ps|
    ensures TotalCost(g, q, ps[..m]) <= TotalCost(g, q, ps[..n])
  {
    assert ps[..n] == ps[..m] + ps[m..n];
    TotalCostAppend(g, q, ps[..m], ps[m..n]);
  }

  lemma {:induction false} ArrivalsMembers(q: Query, ps: seq<Path>, p: Path)
    ensures p in Arrivals(q, ps) <==> p in ps && p != [] && p[|p| - 1] == q.target
  {
    if ps != [] {
      var n := |ps| - 1;
      ArrivalsMembers(q, ps[..n], p);
      assert ps == ps[..n] + [ps[n]];
    }
  }

  lemma {:induction false} ArrivalsSorted(q: Query, ps: seq<Path>)
    requires ShortlexSorted(ps)
    ensures ShortlexSorted(Arrivals(q, ps))
  {
    if ps != [] {
      var n := |ps| - 1;
      ArrivalsSorted(q, ps[..n]);
      forall p | p in Arrivals(q, ps[..n]) ensures Shortlex(p, ps[n]) {
        ArrivalsMembers(q, ps[..n], p);
      }
    }
  }

  lemma {:induction false} ExtensionsMembers(p: Path, successors: seq<Id>, r: Path)
    ensures r in Extensions(p, successors)
      <==> |r| == |p| + 1 && r[..|p|] == p && r[|p|] in successors && r[|p|] !in p
  {
    if successors != [] {
      var n := |successors| - 1;
      ExtensionsMembers(p, successors[..n], r);
      assert successors == successors[..n] + [successors[n]];
      assert |r| == |p| + 1 && r[..|p|] == p ==> r == p + [r[|p|]];
    }
  }

  lemma {:induction false} ExtensionsSorted(p: Path, successors: seq<Id>)
    requires Increasing(successors)
    ensures ShortlexSorted(Extensions(p, successors))
  {
    if successors != [] {
      var n := |successors| - 1;
      ExtensionsSorted(p, successors[..n]);
      forall r | r in Extensions(p, successors[..n]) ensures Shortlex(r, p + [successors[n]]) {
        ExtensionsMembers(p, successors[..n], r);
        assert r == p + [r[|p|]];
        ShortlexSibling(p, r[|p|], successors[n]);
      }
    }
  }

  /** The members of `ExpandAll`: one-node extensions of members of `ps`. */
  lemma {:induction false} ExpandAllMembers(g: Digraph, q: Query, ps: seq<Path>, r: Path)
    ensures r in ExpandAll(g, q, ps)
      <==> r != [] && r[..|r| - 1] in ps && r in Children(g, q, r[..|r| - 1])
  {
    if ps != [] {
      var n := |ps| - 1;
      ExpandAllMembers(g, q, ps[..n], r);
      assert ps == ps[..n] + [ps[n]];
      if r in Children(g, q, ps[n]) {
        ExtensionsMembers(ps[n], Sorted(g[ps[n][|ps[n]| - 1]]), r);
        assert r[..|r| - 1] == ps[n];
      }
    }
  }

  lemma ChildrenMembers(g: Digraph, q: Query, p: Path, r: Path)
    ensures r in Children(g, q, p)
      <==> Expands(g, q, p) && |r| == |p| + 1 && r[..|p|] == p && r[|p|] in g[p[|p| - 1]] && r[|p|] !in p
  {
    if Expands(g, q, p) {
      ExtensionsMembers(p, Sorted(g[p[|p| - 1]]), r);
    }
  }

  /** The parent of a queued path, and the node it was extended by. */
  lemma ParentOf(g: Digraph, q: Query, ps: seq<Path>, r: Path) returns (parent: Path, v: Id)
    requires r in ExpandAll(g, q, ps)
    ensures parent in ps && r == parent + [v] && r in Children(g, q, parent)
    ensures Expands(g, q, parent) && v in g[parent[|parent| - 1]] && v !in parent
  {
    ExpandAllMembers(g, q, ps, r);
    parent, v := r[..|r| - 1], r[|r| - 1];
    ChildrenMembers(g, q, parent, r);
  }

  lemma ChildOf(g: Digraph, q: Query, p: Path, s: Path) returns (v: Id)
    requires s in Children(g, q, p)
    ensures s == p + [v]
  {
    ChildrenMembers(g, q, p, s);
    v := s[|p|];
  }

  // ----- The queue invariant: everything seen so far is the source and the children of what was taken -----

  function Seen(g: Digraph, q: Query, taken: seq<Path>): seq<Path> {
    [[q.source]] + ExpandAll(g, q, taken)
  }

  lemma {:induction false} LevelLength(g: Digraph, q: Query, k: nat, p: Path)
    requires p in Level(g, q, k)
    ensures |p| == k + 1
  {
    if k > 0 {
      var parent, v := ParentOf(g, q, Level(g, q, k - 1), p);
      LevelLength(g, q, k - 1, parent);
    }
  }

  lemma Regroup(a: seq<Path>, b: seq<Path>, c: seq<Path>)
    ensures a + (b + c) == (a + b) + c
  {}

  lemma SeenConcat(g: Digraph, q: Query, taken: seq<Path>, rest: seq<Path>)
    ensures Seen(g, q, taken + rest) == Seen(g, q, taken) + ExpandAll(g, q, rest)
  {
    ExpandAllAppend(g, q, taken, rest);
    Regroup([[q.source]], ExpandAll(g, q, taken), ExpandAll(g, q, rest));
  }

  lemma ExpandOne(g: Digraph, q: Query, p: Path)
    ensures ExpandAll(g, q, [p]) == Children(g, q, p)
  {
    assert [p][..0] == [];
    assert [] + Children(g, q, p) == Children(g, q, p);
  }

  lemma {:induction false} LevelsSeen(g: Digraph, q: Query, k: nat)
    ensures Seen(g, q, Levels(g, q, k)) == Levels(g, q, k + 1)
  {
    if k == 0 {
      SeenConcat(g, q, [], [[q.source]]);
      assert [] + [[q.source]] == [[q.source]];
    } else {
      LevelsSeen(g, q, k - 1);
      SeenConcat(g, q, Levels(g, q, k - 1), Level(g, q, k));
    }
  }

  lemma LevelBeyondBoundIsEmpty(g: Digraph, q: Query)
    ensures Level(g, q, q.maxHops + 1) == []
  {
    var last := Level(g, q, q.maxHops);
    if ExpandAll(g, q, last) != [] {
      var parent, v := ParentOf(g, q, last, ExpandAll(g, q, last)[0]);
      LevelLength(g, q, q.maxHops, parent);
      assert false;
    }
  }

  /** `Trails` is closed under expansion: a queue that runs dry has taken exactly this list. */
  lemma TrailsFixpoint(g: Digraph, q: Query)
    ensures Seen(g, q, Trails(g, q)) == Trails(g, q)
  {
    LevelsSeen(g, q, q.maxHops);
    LevelBeyondBoundIsEmpty(g, q);
  }

  // ----- Order, soundness and completeness of the reference list -----

  lemma SortedConcat(ps: seq<Path>, rs: seq<Path>)
    requires ShortlexSorted(ps) && ShortlexSorted(rs)
    requires forall p, r | p in ps && r in rs :: Shortlex(p, r)
    ensures ShortlexSorted(ps + rs)
  {
    forall i, j | 0 <= i < j < |ps + rs| ensures Shortlex((ps + rs)[i], (ps + rs)[j]) {
      if i < |ps| <= j {
        assert ps[i] in ps && rs[j - |ps|] in rs;
      }
    }
  }

  /** Children of an earlier path come before children of a later one. */
  lemma ChildrenOrdered(g: Digraph, q: Query, ps: seq<Path>, last: Path, r: Path, s: Path)
    requires forall p | p in ps :: Shortlex(p, last)
    requires r in ExpandAll(g, q, ps) && s in Children(g, q, last)
    ensures Shortlex(r, s)
  {
    var parent, a := ParentOf(g, q, ps, r);
    var b := ChildOf(g, q, last, s);
    ShortlexExtend(parent, last, a, b);
  }

  lemma {:induction false} ExpandAllSorted(g: Digraph, q: Query, ps: seq<Path>)
    requires ShortlexSorted(ps)
    ensures ShortlexSorted(ExpandAll(g, q, ps))
  {
    if ps != [] {
      var before, p := ps[..|ps| - 1], ps[|ps| - 1];
      ExpandAllSorted(g, q, before);
      if Expands(g, q, p) {
        ExtensionsSorted(p, Sorted(g[p[|p| - 1]]));
      }
      forall r, s | r in ExpandAll(g, q, before) && s in Children(g, q, p) ensures Shortlex(r, s) {
        ChildrenOrdered(g, q, before, p, r, s);
      }
      SortedConcat(ExpandAll(g, q, before), Children(g, q, p));
    }
  }

  lemma {:induction false} LevelSorted(g: Digraph, q: Query, k: nat)
    ensures ShortlexSorted(Level(g, q, k))
  {
    if k > 0 {
      LevelSorted(g, q, k - 1);
      ExpandAllSorted(g, q, Level(g, q, k - 1));
    }
  }

  lemma {:induction false} LevelsSorted(g: Digraph, q: Query, k: nat)
    ensures ShortlexSorted(Levels(g, q, k))
    ensures forall p | p in Levels(g, q, k) :: |p| <= k + 1
  {
    LevelSorted(g, q, k);
    forall p | p in Level(g, q, k) ensures |p| == k + 1 {
      LevelLength(g, q, k, p);
    }
    if k > 0 {
      LevelsSorted(g, q, k - 1);
      SortedConcat(Levels(g, q, k - 1), Level(g, q, k));
    }
  }

  lemma {:induction false} LevelSound(g: Digraph, q: Query, k: nat, p: Path)
    requires Closed(g) && q.source in g && k <= q.maxHops
    requires p in Level(g, q, k)
    ensures IsTrail(g, q, p)
  {
    if k > 0 {
      var parent, v := ParentOf(g, q, Level(g, q, k - 1), p);
      LevelSound(g, q, k - 1, parent);
      TrailExtends(g, q, parent, v);
    }
  }

  lemma TrailExtends(g: Digraph, q: Query, p: Path, v: Id)
    requires Closed(g) && IsTrail(g, q, p) && Expands(g, q, p)
    requires v in g[p[|p| - 1]] && v !in p
    ensures IsTrail(g, q, p + [v])
  {
    var r := p + [v];
    assert r[..|r| - 1] == p;
    assert p == p[..|p| - 1] + [p[|p| - 1]];
    forall i | 0 <= i < |r| - 1 ensures r[i + 1] in g[r[i]] {
      assert r[i] == p[i];
      if i + 1 < |p| {
        assert r[i + 1] == p[i + 1];
      }
    }
  }

  lemma {:induction false} LevelsSound(g: Digraph, q: Query, k: nat, p: Path)
    requires Closed(g) && q.source in g && k <= q.maxHops
    requires p in Levels(g, q, k)
    ensures IsTrail(g, q, p)
  {
    if p in Level(g, q, k) {
      LevelSound(g, q, k, p);
    } else {
      LevelsSound(g, q, k - 1, p);
    }
  }

  lemma {:induction false} LevelsContain(g: Digraph, q: Query, l: nat, k: nat, p: Path)
    requires l <= k && p in Level(g, q, l)
    ensures p in Levels(g, q, k)
  {
    if l < k {
      LevelsContain(g, q, l, k - 1, p);
    }
  }

  lemma TrailShortens(g: Digraph, q: Query, p: Path)
    requires IsTrail(g, q, p) && |p| > 1
    ensures IsTrail(g, q, p[..|p| - 1]) && p in Children(g, q, p[..|p| - 1])
  {
    var n := |p| - 1;
    var parent := p[..n];
    assert forall i | 0 <= i < n :: parent[i] == p[i];
    assert parent[..n - 1] == p[..n - 1];
    assert parent[n - 1] in p[..n];
    assert p[n] in g[p[n - 1]];
    assert forall x | x in parent[..n - 1] :: x in p[..n];
    assert p[n] !in parent;
    ChildrenMembers(g, q, parent, p);
  }

  lemma {:induction false} LevelComplete(g: Digraph, q: Query, p: Path)
    requires IsTrail(g, q, p)
    ensures p in Level(g, q, |p| - 1)
    decreases |p|
  {
    if |p| == 1 {
      assert p == [q.source];
    } else {
      TrailShortens(g, q, p);
      LevelComplete(g, q, p[..|p| - 1]);
      ExpandAllMembers(g, q, Level(g, q, |p| - 2), p);
    }
  }

  lemma TrailsCorrect(g: Digraph, q: Query)
    requires Closed(g) && q.source in g
    ensures ShortlexSorted(Trails(g, q))
    ensures forall p :: p in Trails(g, q) <==> IsTrail(g, q, p)
  {
    LevelsSorted(g, q, q.maxHops);
    forall p ensures p in Trails(g, q) <==> IsTrail(g, q, p) {
      if p in Trails(g, q) {
        LevelsSound(g, q, q.maxHops, p);
      }
      if IsTrail(g, q, p) {
        LevelComplete(g, q, p);
        LevelsContain(g, q, |p| - 1, q.maxHops, p);
      }
    }
  }

  /** The reference list is exactly the attack paths, each once, in shortlex order. */
  lemma ShortlexPathsCorrect(g: Digraph, q: Query)
    requires Closed(g) && q.source in g
    ensures ShortlexSorted(ShortlexPaths(g, q))
    ensures forall p :: p in ShortlexPaths(g, q) <==> IsAttackPath(g, q, p)
  {
    TrailsCorrect(g, q);
    ArrivalsSorted(q, Trails(g, q));
    forall p ensures p in ShortlexPaths(g, q) <==> IsAttackPath(g, q, p) {
      ArrivalsMembers(q, Trails(g, q), p);
      AttackPathIsTrail(g, q, p);
    }
  }

  /** Any list with those two properties is the reference list. */
  lemma ShortlexPathsUnique(g: Digraph, q: Query, ps: seq<Path>)
    requires Closed(g) && q.source in g
    requires ShortlexSorted(ps) && forall p :: p in ps <==> IsAttackPath(g, q, p)
    ensures ps == ShortlexPaths(g, q)
  {
    ShortlexPathsCorrect(g, q);
    ShortlexSortedUnique(ps, ShortlexPaths(g, q));
  }

  // ----- The search -----

  /** Where the search stops: after `n` paths are taken, because enough paths are complete, or none
      is left, or inspecting the next path's successors would exceed the exploration budget. */
  ghost predicate StopsAfter(g: Digraph, q: Query, n: nat) {
    && n <= |Trails(g, q)|
    && |Arrivals(q, Trails(g, q)[..n])| <= q.maxPaths
    && TotalCost(g, q, Trails(g, q)[..n]) <= MAX_GRAPH_EXPLORATIONS
    && (|| |Arrivals(q, Trails(g, q)[..n])| == q.maxPaths
        || n == |Trails(g, q)|
        || TotalCost(g, q, Trails(g, q)[..n + 1]) > MAX_GRAPH_EXPLORATIONS)
  }

  /** What the search reports: the arrivals among the trails it took. */
  ghost predicate IsSearchResult(g: Digraph, q: Query, completed: seq<Path>) {
    exists n: nat :: StopsAfter(g, q, n) && completed == Arrivals(q, Trails(g, q)[..n])
  }

  /** The budget covers the trails that come before, and include, the last path to be reported. */
  ghost predicate BudgetSuffices(g: Digraph, q: Query) {
    exists n :: 0 <= n <= |Trails(g, q)|
      && Arrivals(q, Trails(g, q)[..n]) == Cut(ShortlexPaths(g, q), q.maxPaths)
      && TotalCost(g, q, Trails(g, q)[..n]) <= MAX_GRAPH_EXPLORATIONS
  }

  /** Inspect the successors of `path`, queueing the unvisited ones, unless the budget runs out. */
  method Enqueue(path: Path, successors: seq<Id>, waiting: seq<Path>, spent: nat)
    returns (pending: seq<Path>, explored: nat, exceeded: bool)
    requires spent <= MAX_GRAPH_EXPLORATIONS
    ensures exceeded <==> spent + |successors| > MAX_GRAPH_EXPLORATIONS
    ensures !exceeded ==> pending == waiting + Extensions(path, successors)
    ensures !exceeded ==> explored == spent + |successors| && (explored == spent ==> pending == waiting)
  {
    pending, explored := waiting, spent;
    for i := 0 to |successors|
      invariant explored == spent + i <= MAX_GRAPH_EXPLORATIONS
      invariant pending == waiting + Extensions(path, successors[..i])
    {
      explored := explored + 1;
      if explored > MAX_GRAPH_EXPLORATIONS {
        return pending, explored, true;
      }
      assert successors[..i + 1][..i] == successors[..i];
      if successors[i] !in path {
        pending := pending + [path + [successors[i]]];
      }
    }
    assert successors[..|successors|] == successors;
    exceeded := false;
  }

  /** `n` trails are taken; the queue, the completed paths and the work done are what they determine. */
  ghost predicate QueueAt(g: Digraph, q: Query, n: nat, pending: seq<Path>, completed: seq<Path>, explored: nat) {
    && n <= |Trails(g, q)|
    && Trails(g, q)[..n] + pending == Seen(g, q, Trails(g, q)[..n])
    && completed == Arrivals(q, Trails(g, q)[..n]) && |completed| <= q.maxPaths
    && explored == TotalCost(g, q, Trails(g, q)[..n]) <= MAX_GRAPH_EXPLORATIONS
  }

  method BoundedSimplePaths(g: Digraph, q: Query) returns (completed: seq<Path>)
    requires Closed(g) && q.source in g
    ensures IsSearchResult(g, q, completed)
    ensures completed <= ShortlexPaths(g, q)
    ensures completed == Cut(ShortlexPaths(g, q), q.maxPaths) <==> BudgetSuffices(g, q)
  {
    hide QueueAt, StopsAfter, BudgetSuffices, ShortlexPaths, Trails, Closed, IsSearchResult, Arrivals, Cut, Extensions,
      IsWalk;
    completed := [];
    var pending: seq<Path> := [[q.source]];
    var explored := 0;
    ghost var n: nat := 0;
    QueueStart(g, q);

    while pending != [] && |completed| < q.maxPaths
      invariant QueueAt(g, q, n, pending, completed, explored)
      invariant |completed| <= q.maxPaths && explored <= MAX_GRAPH_EXPLORATIONS
      decreases MAX_GRAPH_EXPLORATIONS - explored, |pending|
    {
      var path := pending[0];
      QueueStep(g, q, n, pending, completed, explored);
      pending := pending[1..];
      assert pending + [] == pending && completed + [] == completed;
      var current := path[|path| - 1];
      if current == q.target {
        completed := completed + [path];
      } else if |path| - 1 < q.maxHops {
        var exceeded;
        pending, explored, exceeded := Enqueue(path, Sorted(g[current]), pending, explored);
        if exceeded {
          SearchResult(g, q, n);
          return;
        }
      }
      n := n + 1;
    }
    QueueEnd(g, q, n, pending, completed, explored);
    SearchResult(g, q, n);
  }

  lemma QueueStart(g: Digraph, q: Query)
    ensures QueueAt(g, q, 0, [[q.source]], [], 0)
  {
    assert Trails(g, q)[..0] == [];
  }

  /** Taking the head of the queue moves to the next queue state, or runs out of budget. */
  lemma QueueStep(g: Digraph, q: Query, n: nat, pending: seq<Path>, completed: seq<Path>, explored: nat)
    requires Closed(g) && q.source in g
    requires QueueAt(g, q, n, pending, completed, explored) && pending != [] && |completed| < q.maxPaths
    ensures pending[0] != [] && pending[0][|pending[0]| - 1] in g
    ensures var p := pending[0];
      if explored + Cost(g, q, p) <= MAX_GRAPH_EXPLORATIONS then
        QueueAt(g, q, n + 1, pending[1..] + Children(g, q, p), completed + ArrivalOf(q, p), explored + Cost(g, q, p))
      else
        StopsAfter(g, q, n) && completed == Arrivals(q, Trails(g, q)[..n])
  {
    TrailsFixpoint(g, q);
    TakeNext(g, q, Trails(g, q), n, pending);
    TrailEnd(g, q, n);
  }

  lemma QueueEnd(g: Digraph, q: Query, n: nat, pending: seq<Path>, completed: seq<Path>, explored: nat)
    requires QueueAt(g, q, n, pending, completed, explored)
    requires pending == [] || |completed| == q.maxPaths
    ensures StopsAfter(g, q, n) && completed == Arrivals(q, Trails(g, q)[..n])
  {
    if pending == [] {
      DryLevels(g, q, Trails(g, q)[..n], q.maxHops);
    }
  }

  /** The head of the queue is the next trail. */
  lemma HeadIsNext(g: Digraph, q: Query, trails: seq<Path>, n: nat, pending: seq<Path>)
    requires Seen(g, q, trails) == trails
    requires n <= |trails| && pending != []
    requires trails[..n] + pending == Seen(g, q, trails[..n])
    ensures n < |trails| && pending[0] == trails[n]
  {
    var taken, rest := trails[..n], trails[n..];
    SeenConcat(g, q, taken, rest);
    assert taken + rest == trails;
    PrefixHead(taken, pending, Seen(g, q, taken), ExpandAll(g, q, rest), trails);
  }

  lemma PrefixHead(taken: seq<Path>, pending: seq<Path>, seen: seq<Path>, more: seq<Path>, trails: seq<Path>)
    requires taken + pending == seen && seen + more == trails && pending != []
    ensures |taken| < |trails| && trails[|taken|] == pending[0]
  {
    assert seen[|taken|] == pending[0];
  }

  lemma TrailEnd(g: Digraph, q: Query, n: nat)
    requires Closed(g) && q.source in g && n < |Trails(g, q)|
    ensures var p := Trails(g, q)[n]; p != [] && p[|p| - 1] in g
  {
    TrailsCorrect(g, q);
    assert Trails(g, q)[n] in Trails(g, q);
  }

  lemma TakeSeen(g: Digraph, q: Query, taken: seq<Path>, pending: seq<Path>)
    requires pending != [] && taken + pending == Seen(g, q, taken)
    ensures (taken + [pending[0]]) + (pending[1..] + Children(g, q, pending[0])) == Seen(g, q, taken + [pending[0]])
  {
    var p, rest := pending[0], pending[1..];
    SeenConcat(g, q, taken, [p]);
    ExpandOne(g, q, p);
    assert pending == [p] + rest;
    Regroup(taken, [p], rest);
    Regroup(taken + [p], rest, Children(g, q, p));
  }

  /** Taking the head of the queue adds its children, its arrival and its cost. */
  lemma TakeNext(g: Digraph, q: Query, trails: seq<Path>, n: nat, pending: seq<Path>)
    requires Seen(g, q, trails) == trails
    requires n <= |trails| && pending != []
    requires trails[..n] + pending == Seen(g, q, trails[..n])
    ensures n < |trails| && pending[0] == trails[n]
    ensures trails[..n + 1] + (pending[1..] + Children(g, q, pending[0])) == Seen(g, q, trails[..n + 1])
    ensures TotalCost(g, q, trails[..n + 1]) == TotalCost(g, q, trails[..n]) + Cost(g, q, pending[0])
    ensures Arrivals(q, trails[..n + 1]) == Arrivals(q, trails[..n]) + ArrivalOf(q, pending[0])
  {
    hide Seen, Children, Cost;
    HeadIsNext(g, q, trails, n, pending);
    TakeSeen(g, q, trails[..n], pending);
    assert trails[..n + 1] == trails[..n] + [trails[n]];
    assert trails[..n + 1][..n] == trails[..n];
  }

  lemma SeenPrefix(g: Digraph, q: Query, lower: seq<Path>, taken: seq<Path>)
    requires lower <= taken && taken == Seen(g, q, taken)
    ensures Seen(g, q, lower) <= taken
  {
    SeenConcat(g, q, lower, taken[|lower|..]);
    assert lower + taken[|lower|..] == taken;
  }

  /** A list closed under expansion contains every level. */
  lemma {:induction false} DryLevels(g: Digraph, q: Query, taken: seq<Path>, k: nat)
    requires taken == Seen(g, q, taken)
    ensures Levels(g, q, k) <= taken
  {
    hide Seen, Levels, ExpandAll, Level;
    if k == 0 {
      DryStart(g, q, taken);
    } else {
      DryLevels(g, q, taken, k - 1);
      SeenPrefix(g, q, Levels(g, q, k - 1), taken);
      LevelsSeen(g, q, k - 1);
    }
  }

  lemma DryStart(g: Digraph, q: Query, taken: seq<Path>)
    requires taken == Seen(g, q, taken)
    ensures Levels(g, q, 0) <= taken
  {
    assert Levels(g, q, 0) == [[q.source]];
  }

  /** The stopping rule leaves no freedom in what is reported. */
  lemma SearchResultUnique(g: Digraph, q: Query, n: nat, m: nat)
    requires StopsAfter(g, q, n) && StopsAfter(g, q, m)
    ensures Arrivals(q, Trails(g, q)[..n]) == Arrivals(q, Trails(g, q)[..m])
  {
    var t := Trails(g, q);
    var lo, hi := if n < m then n else m, if n < m then m else n;
    ArrivalsPrefix(q, t, lo, hi);
    if lo < hi {
      TotalCostPrefix(g, q, t, lo + 1, hi);
    }
  }

  /** When some prefix of the trails within budget already yields the cut list, so does the search. */
  lemma StopReachesCut(g: Digraph, q: Query, n: nat, m: nat)
    requires StopsAfter(g, q, n)
    requires m <= |Trails(g, q)| && TotalCost(g, q, Trails(g, q)[..m]) <= MAX_GRAPH_EXPLORATIONS
    requires Arrivals(q, Trails(g, q)[..m]) == Cut(ShortlexPaths(g, q), q.maxPaths)
    ensures Arrivals(q, Trails(g, q)[..n]) == Cut(ShortlexPaths(g, q), q.maxPaths)
  {
    hide Trails;
    var t := Trails(g, q);
    assert t[..|t|] == t;
    ArrivalsPrefix(q, t, n, |t|);
    if n < m {
      ArrivalsPrefix(q, t, n, m);
      TotalCostPrefix(g, q, t, n + 1, m);
    } else {
      ArrivalsPrefix(q, t, m, n);
    }
  }

  /** What stopping after `n` paths means for the reported list: a prefix of the reference list, and
      the whole of it, cut at `maxPaths`, exactly when the budget suffices. */
  lemma SearchResult(g: Digraph, q: Query, n: nat)
    requires StopsAfter(g, q, n)
    ensures IsSearchResult(g, q, Arrivals(q, Trails(g, q)[..n]))
    ensures Arrivals(q, Trails(g, q)[..n]) <= ShortlexPaths(g, q)
    ensures Arrivals(q, Trails(g, q)[..n]) == Cut(ShortlexPaths(g, q), q.maxPaths) <==> BudgetSuffices(g, q)
  {
    hide Trails, Arrivals, TotalCost;
    var t := Trails(g, q);
    assert t[..|t|] == t;
    ArrivalsPrefix(q, t, n, |t|);
    if BudgetSuffices(g, q) {
      var m :| 0 <= m <= |t| && Arrivals(q, t[..m]) == Cut(ShortlexPaths(g, q), q.maxPaths)
        && TotalCost(g, q, t[..m]) <= MAX_GRAPH_EXPLORATIONS;
      StopReachesCut(g, q, n, m);
    }
  }
}
