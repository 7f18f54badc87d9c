/** The tenant graph store and the attack-path service: evidence is projected into one snapshot per
    tenant, and read-only queries search that snapshot. */
module AttackPaths {
  import opened Wrappers
  import opened Ordering
  import opened PathSearch
  import opened Projection
  import opened GraphBuilding

  const MAX_GRAPH_HOPS: nat := 6

  /** The search's view of a snapshot. */
  function Adjacency(g: Graph): Digraph {
    map id | id in g.nodes :: set key | key in g.edges && key.0 == id :: key.1
  }

  ghost predicate Consistent(tenant: string, g: Graph) {
    && (forall id | id in g.nodes :: g.nodes[id].tenant == tenant)
    && (forall key | key in g.edges :: key.0 in g.nodes && key.1 in g.nodes)
  }

  datatype Counts = Counts(nodes: nat, edges: nat)
  datatype AttackPath = AttackPath(nodeIds: Path, edges: seq<Edge>, hopCount: nat, risk: nat, evidence: seq<string>)
  datatype LookupFailure = UnknownSource | UnknownTarget
  datatype Analysis = Paths(paths: seq<AttackPath>) | NotFound(failure: LookupFailure)

  function SumNodes(nodes: seq<Node>): nat {
    if nodes == [] then 0 else nodes[0].risk + SumNodes(nodes[1..])
  }

  function SumEdges(edges: seq<Edge>): nat {
    if edges == [] then 0 else edges[0].risk + SumEdges(edges[1..])
  }

  function NodeEvidence(nodes: seq<Node>): seq<string> {
    if nodes == [] then [] else nodes[0].evidence + NodeEvidence(nodes[1..])
  }

  function EdgeEvidence(edges: seq<Edge>): seq<string> {
    if edges == [] then [] else edges[0].evidence + EdgeEvidence(edges[1..])
  }

  function PathNodes(g: Graph, p: Path): seq<Node>
    requires IsWalk(Adjacency(g), p)
  {
    seq(|p|, i requires 0 <= i < |p| => g.nodes[p[i]])
  }

  function PathEdges(g: Graph, p: Path): seq<Edge>
    requires IsWalk(Adjacency(g), p)
  {
    seq(|p| - 1, i requires 0 <= i < |p| - 1 => assert p[i + 1] in Adjacency(g)[p[i]]; g.edges[(p[i], p[i + 1])])
  }

  /** `_path_record`: every node and edge on the path is looked up in the snapshot. */
  function PathRecord(g: Graph, p: Path): AttackPath
    requires IsWalk(Adjacency(g), p)
  {
    var nodes, edges := PathNodes(g, p), PathEdges(g, p);
    AttackPath(p, edges, |edges|, SumNodes(nodes) + SumEdges(edges),
               Deduplicate(NodeEvidence(nodes) + EdgeEvidence(edges)))
  }

  // ----- What a path record says -----

  /** A walk of the search is a sequence of stored nodes joined by stored edges. */
  lemma WalkExactly(g: Graph, p: Path)
    ensures IsWalk(Adjacency(g), p) <==>
      && p != []
      && (forall i | 0 <= i < |p| :: p[i] in g.nodes)
      && (forall i | 0 <= i < |p| - 1 :: (p[i], p[i + 1]) in g.edges)
  {
    forall i | 0 <= i < |p| - 1 && p[i] in g.nodes
      ensures p[i + 1] in Adjacency(g)[p[i]] <==> (p[i], p[i + 1]) in g.edges
    {
      var key := (p[i], p[i + 1]);
      assert key in g.edges ==> key.1 in Adjacency(g)[p[i]];
    }
  }

  lemma {:induction false} SumNodesAppend(nodes: seq<Node>, n: Node)
    ensures SumNodes(nodes + [n]) == SumNodes(nodes) + n.risk
  {
    if nodes != [] {
      SumNodesAppend(nodes[1..], n);
      assert (nodes + [n])[1..] == nodes[1..] + [n];
    }
  }

  lemma {:induction false} SumEdgesAppend(edges: seq<Edge>, e: Edge)
    ensures SumEdges(edges + [e]) == SumEdges(edges) + e.risk
  {
    if edges != [] {
      SumEdgesAppend(edges[1..], e);
      assert (edges + [e])[1..] == edges[1..] + [e];
    }
  }

  /** The risk of a path that stays at one node is that node's. */
  lemma RiskOfOne(g: Graph, v: Id)
    requires IsWalk(Adjacency(g), [v])
    ensures PathRecord(g, [v]).risk == g.nodes[v].risk && PathRecord(g, [v]).edges == []
  {
    WalkExactly(g, [v]);
    assert [v][0] in g.nodes;
    assert PathNodes(g, [v]) == [g.nodes[v]] && PathEdges(g, [v]) == [];
    hide PathNodes, PathEdges;
    SumNodesAppend([], g.nodes[v]);
    assert [] + [g.nodes[v]] == [g.nodes[v]];
  }

  /** Going on to `v` adds the edge taken, its risk and the risk of `v`. */
  lemma RiskOfLonger(g: Graph, p: Path, v: Id)
    requires IsWalk(Adjacency(g), p) && IsWalk(Adjacency(g), p + [v])
    ensures (p[|p| - 1], v) in g.edges && v in g.nodes
    ensures var a, b, e := PathRecord(g, p), PathRecord(g, p + [v]), g.edges[(p[|p| - 1], v)];
      b.edges == a.edges + [e] && b.hopCount == a.hopCount + 1 && b.risk == a.risk + e.risk + g.nodes[v].risk
  {
    var r := p + [v];
    WalkExactly(g, p);
    WalkExactly(g, r);
    assert (r[|p| - 1], r[|p|]) in g.edges;
    hide IsWalk;
    SumEdgesAppend(PathEdges(g, p), g.edges[(p[|p| - 1], v)]);
    SumNodesAppend(PathNodes(g, p), g.nodes[v]);
    assert PathEdges(g, r) == PathEdges(g, p) + [g.edges[(p[|p| - 1], v)]];
    assert PathNodes(g, r) == PathNodes(g, p) + [g.nodes[v]];
  }

  lemma {:induction false} NodeEvidenceMembers(nodes: seq<Node>, x: string)
    ensures x in NodeEvidence(nodes) <==> exists i :: 0 <= i < |nodes| && x in nodes[i].evidence
  {
    if nodes != [] {
      NodeEvidenceMembers(nodes[1..], x);
      if i :| 0 <= i < |nodes[1..]| && x in nodes[1..][i].evidence {
        assert x in nodes[i + 1].evidence;
      }
      if i :| 0 <= i < |nodes| && x in nodes[i].evidence {
        assert i > 0 ==> x in nodes[1..][i - 1].evidence;
      }
    }
  }

  lemma {:induction false} EdgeEvidenceMembers(edges: seq<Edge>, x: string)
    ensures x in EdgeEvidence(edges) <==> exists i :: 0 <= i < |edges| && x in edges[i].evidence
  {
    if edges != [] {
      EdgeEvidenceMembers(edges[1..], x);
      if i :| 0 <= i < |edges[1..]| && x in edges[1..][i].evidence {
        assert x in edges[i + 1].evidence;
      }
      if i :| 0 <= i < |edges| && x in edges[i].evidence {
        assert i > 0 ==> x in edges[1..][i - 1].evidence;
      }
    }
  }

  ghost predicate NodesCite(g: Graph, p: Path, x: string) {
    exists i | 0 <= i < |p| :: p[i] in g.nodes && x in g.nodes[p[i]].evidence
  }

  ghost predicate EdgesCite(g: Graph, p: Path, x: string) {
    exists i | 0 <= i < |p| - 1 :: (p[i], p[i + 1]) in g.edges && x in g.edges[(p[i], p[i + 1])].evidence
  }

  lemma PartsCite(g: Graph, p: Path, x: string)
    requires IsWalk(Adjacency(g), p)
    ensures x in NodeEvidence(PathNodes(g, p)) <==> NodesCite(g, p, x)
    ensures x in EdgeEvidence(PathEdges(g, p)) <==> EdgesCite(g, p, x)
  {
    WalkExactly(g, p);
    var nodes, edges := PathNodes(g, p), PathEdges(g, p);
    NodeEvidenceMembers(nodes, x);
    EdgeEvidenceMembers(edges, x);
    hide IsWalk, Adjacency, NodeEvidence, EdgeEvidence;
    if NodesCite(g, p, x) {
      var i :| 0 <= i < |p| && p[i] in g.nodes && x in g.nodes[p[i]].evidence;
      assert x in nodes[i].evidence;
    }
    if EdgesCite(g, p, x) {
      var i :| 0 <= i < |p| - 1 && (p[i], p[i + 1]) in g.edges && x in g.edges[(p[i], p[i + 1])].evidence;
      assert x in edges[i].evidence;
    }
  }

  lemma FirstPartFirst(first: seq<string>, second: seq<string>, i: nat, j: nat)
    requires i < j < |Deduplicate(first + second)| && Deduplicate(first + second)[j] in first
    ensures Deduplicate(first + second)[i] in first
  {
    var all := first + second;
    DeduplicateInOrder(all);
    var x, y := Deduplicate(all)[i], Deduplicate(all)[j];
    assert Precedes(all, x, y);
    var a :| 0 <= a < |all| && all[a] == x && y !in all[..a];
    forall m | 0 <= m < a ensures all[m] != y {
      assert all[..a][m] == all[m];
    }
    var k :| 0 <= k < |first| && first[k] == y;
    assert all[k] == y;
  }

  /** A record lists what the nodes and edges on its path cite, each once, and what its nodes cite first. */
  lemma EvidenceExactly(g: Graph, p: Path)
    requires IsWalk(Adjacency(g), p)
    ensures var ev := PathRecord(g, p).evidence;
      && (forall x :: x in ev <==> NodesCite(g, p, x) || EdgesCite(g, p, x))
      && (forall i, j | 0 <= i < j < |ev| :: ev[i] != ev[j])
      && (forall i, j | 0 <= i < j < |ev| :: NodesCite(g, p, ev[j]) ==> NodesCite(g, p, ev[i]))
  {
    var first, second := NodeEvidence(PathNodes(g, p)), EdgeEvidence(PathEdges(g, p));
    var ev := PathRecord(g, p).evidence;
    assert ev == Deduplicate(first + second);
    hide IsWalk, PathRecord, Adjacency, PathNodes, PathEdges, NodeEvidence, EdgeEvidence, NodesCite, EdgesCite;
    forall x
      ensures x in first <==> NodesCite(g, p, x)
      ensures x in second <==> EdgesCite(g, p, x)
    {
      PartsCite(g, p, x);
    }
    forall i, j | 0 <= i < j < |ev| && ev[j] in first ensures ev[i] in first {
      FirstPartFirst(first, second, i, j);
    }
  }

  class InMemoryTenantGraphStore {
    var snapshots: map<string, Graph>

    ghost predicate Valid()
      reads this
    {
      forall tenant | tenant in snapshots :: Consistent(tenant, snapshots[tenant])
    }

    constructor ()
      ensures Valid() && snapshots == map[]
    {
      snapshots := map[];
    }

    /** Replaces one tenant's graph, refusing foreign nodes and dangling edges. */
    method ReplaceSnapshot(tenant: string, g: Graph) returns (result: Outcome<Counts>)
      requires Valid()
      modifies this
      ensures Valid()
      ensures result.Ok? <==> Consistent(tenant, g)
      ensures result.Ok? ==> result.value == Counts(|g.nodes|, |g.edges|) && snapshots == old(snapshots)[tenant := g]
      ensures result.Err? ==> snapshots == old(snapshots)
      ensures result.Err? ==>
        result.failure ==
          if forall id | id in g.nodes :: g.nodes[id].tenant == tenant then DanglingEdge else CrossTenant
    {
      if exists id | id in g.nodes :: g.nodes[id].tenant != tenant {
        return Err(CrossTenant);
      }
      if exists key | key in g.edges :: key.0 !in g.nodes || key.1 !in g.nodes {
        return Err(DanglingEdge);
      }
      snapshots := snapshots[tenant := g];
      result := Ok(Counts(|g.nodes|, |g.edges|));
    }

    /** Reports the bounded search of the tenant's own snapshot. */
    method Analyze(tenant: string, q: Query) returns (analysis: Analysis)
      requires Valid()
      ensures var g := if tenant in snapshots then snapshots[tenant] else Graph(map[], map[]);
        && (analysis.NotFound? <==> q.source !in g.nodes || q.target !in g.nodes)
        && (analysis.NotFound? ==> analysis.failure == if q.source !in g.nodes then UnknownSource else UnknownTarget)
        && (analysis.Paths? ==>
              && IsSearchResult(Adjacency(g), q, NodeIdsOf(analysis.paths))
              && forall a | a in analysis.paths :: IsWalk(Adjacency(g), a.nodeIds) && a == PathRecord(g, a.nodeIds))
    {
      var g := if tenant in snapshots then snapshots[tenant] else Graph(map[], map[]);
      if q.source !in g.nodes {
        return NotFound(UnknownSource);
      }
      if q.target !in g.nodes {
        return NotFound(UnknownTarget);
      }
      assert Consistent(tenant, g);
      assert Closed(Adjacency(g));
      hide IsSearchResult, Closed, ShortlexPaths, Cut, BudgetSuffices, Consistent;
      var found := BoundedSimplePaths(Adjacency(g), q);
      ReportedAreWalks(Adjacency(g), q, found);
      var records := PathRecords(g, found);
      analysis := Paths(records);
    }
  }

  method PathRecords(g: Graph, found: seq<Path>) returns (records: seq<AttackPath>)
    requires forall p | p in found :: IsWalk(Adjacency(g), p)
    ensures NodeIdsOf(records) == found
    ensures forall a | a in records :: IsWalk(Adjacency(g), a.nodeIds) && a == PathRecord(g, a.nodeIds)
  {
    hide IsWalk, PathRecord;
    records := [];
    for i := 0 to |found|
      invariant NodeIdsOf(records) == found[..i]
      invariant forall a | a in records :: IsWalk(Adjacency(g), a.nodeIds) && a == PathRecord(g, a.nodeIds)
    {
      assert found[i] in found;
      PathRecordKeepsNodes(g, found[i]);
      records := records + [PathRecord(g, found[i])];
    }
  }

  lemma PathRecordKeepsNodes(g: Graph, p: Path)
    requires IsWalk(Adjacency(g), p)
    ensures PathRecord(g, p).nodeIds == p
  {}

  /** A reported path meets the bounds its record type declares, and names one edge per hop. */
  lemma PathRecordValid(g: Graph, q: Query, p: Path)
    requires IsAttackPath(Adjacency(g), q, p) && q.source != q.target && q.maxHops <= MAX_GRAPH_HOPS
    requires forall key | key in g.edges :: (g.edges[key].source, g.edges[key].target) == key
    ensures var a := PathRecord(g, p);
      && 1 <= a.hopCount == |a.edges| == |a.nodeIds| - 1 <= MAX_GRAPH_HOPS
      && a.nodeIds[0] == q.source && a.nodeIds[a.hopCount] == q.target
      && forall i | 0 <= i < a.hopCount :: a.edges[i].source == p[i] && a.edges[i].target == p[i + 1]
  {
    forall i | 0 <= i < |p| - 1 ensures (p[i], p[i + 1]) in g.edges {
      assert p[i + 1] in Adjacency(g)[p[i]];
    }
  }

  ghost function NodeIdsOf(records: seq<AttackPath>): (paths: seq<Path>)
    ensures |paths| == |records|
    ensures forall i | 0 <= i < |records| :: paths[i] == records[i].nodeIds
  {
    seq(|records|, i requires 0 <= i < |records| => records[i].nodeIds)
  }

  /** Every reported path can be looked up, and is an attack path. */
  lemma ReportedAreWalks(g: Digraph, q: Query, found: seq<Path>)
    requires Closed(g) && q.source in g && found <= ShortlexPaths(g, q)
    ensures forall p | p in found :: IsAttackPath(g, q, p)
  {
    ShortlexPathsCorrect(g, q);
    forall p | p in found ensures IsAttackPath(g, q, p) {
      assert p in ShortlexPaths(g, q);
    }
  }

  class GovernedAttackPathService {
    const store: InMemoryTenantGraphStore

    constructor (store: InMemoryTenantGraphStore)
      ensures this.store == store
    {
      this.store := store;
    }

    /** A projection either replaces the tenant's snapshot or changes nothing. */
    method ProjectEvidence(tenant: string, r: Records) returns (result: Outcome<Counts>)
      requires store.Valid()
      modifies store
      ensures store.Valid()
      ensures match Projected(tenant, r)
        case Ok(g) => result == Ok(Counts(|g.nodes|, |g.edges|)) && store.snapshots == old(store.snapshots)[tenant := g]
        case Err(f) => result == Err(f) && store.snapshots == old(store.snapshots)
    {
      if (exists x | x in r.assets :: x.tenant != tenant)
        || (exists x | x in r.observations :: x.tenant != tenant)
        || (exists x | x in r.detections :: x.tenant != tenant)
        || (exists x | x in r.alerts :: x.tenant != tenant)
        || (exists x | x in r.cases :: x.tenant != tenant)
      {
        return Err(CrossTenant);
      }
      var g := Build(tenant, r);
      if g.Err? {
        return Err(g.failure);
      }
      ProjectedConsistent(tenant, r);
      result := store.ReplaceSnapshot(tenant, g.value);
    }

    method Build(tenant: string, r: Records) returns (g: Outcome<Graph>)
      ensures g == Run(OpsOf(tenant, r))
    {
      hide Run, FlatMap, AssetOps, ObservationOps, DetectionOps, AlertOps, CaseOps, IntegrityIndex;
      var b := new GraphBuilder(tenant);
      ghost var observationIndex := IntegrityIndex(AssetIds(r), r.observations);
      ghost var p1 := FlatMap(a => AssetOps(tenant, a), r.assets);
      ghost var p2 := FlatMap(o => ObservationOps(tenant, AssetIds(r), o), r.observations);
      ghost var p3 := FlatMap(d => DetectionOps(tenant, AssetIds(r), observationIndex, d), r.detections);
      ghost var p4 := FlatMap(a => AlertOps(tenant, DetectionIds(r), a), r.alerts);
      ghost var p5 := FlatMap(c => CaseOps(tenant, AlertIds(r), c), r.cases);
      FiveParts(p1, p2, p3, p4, p5);
      var assetIds, failure := b.AddAssets(r.assets);
      if failure.Some? {
        FailsLater([], p1, OpsOf(tenant, r), failure.value);
        return Err(failure.value);
      }
      assert assetIds == AssetIds(r);
      var index;
      index, failure := b.AddObservations(assetIds, r.observations);
      if failure.Some? {
        FailsLater([], p1 + p2, OpsOf(tenant, r), failure.value);
        return Err(failure.value);
      }
      var detectionIds;
      detectionIds, failure := b.AddDetections(assetIds, index, r.detections);
      if failure.Some? {
        FailsLater([], p1 + p2 + p3, OpsOf(tenant, r), failure.value);
        return Err(failure.value);
      }
      assert detectionIds == DetectionIds(r);
      var alertIds;
      alertIds, failure := b.AddAlerts(detectionIds, r.alerts);
      if failure.Some? {
        FailsLater([], p1 + p2 + p3 + p4, OpsOf(tenant, r), failure.value);
        return Err(failure.value);
      }
      assert alertIds == AlertIds(r);
      failure := b.AddCases(alertIds, r.cases);
      if failure.Some? {
        return Err(failure.value);
      }
      g := Ok(Graph(b.nodes, b.edges));
    }
  }

  lemma FiveParts(p1: seq<Op>, p2: seq<Op>, p3: seq<Op>, p4: seq<Op>, p5: seq<Op>)
    ensures [] + p1 == p1
    ensures [] + (p1 + p2) == p1 + p2
    ensures [] + (p1 + p2 + p3) == p1 + p2 + p3
    ensures [] + (p1 + p2 + p3 + p4) == p1 + p2 + p3 + p4
    ensures [] + (p1 + p2 + p3 + p4 + p5) == p1 + p2 + p3 + p4 + p5
    ensures p1 <= p1 + p2 + p3 + p4 + p5 && p1 + p2 <= p1 + p2 + p3 + p4 + p5
    ensures p1 + p2 + p3 <= p1 + p2 + p3 + p4 + p5 && p1 + p2 + p3 + p4 <= p1 + p2 + p3 + p4 + p5
  {}

  /** Projected graphs never trip the store's own checks. */
  lemma ProjectedConsistent(tenant: string, r: Records)
    requires Projected(tenant, r).Ok?
    ensures Consistent(tenant, Projected(tenant, r).value)
  {
    var g := Projected(tenant, r).value;
    forall n | AddNode(n) in OpsOf(tenant, r) ensures n.tenant == tenant {
      NodeFits(tenant, r, n);
    }
    forall id | id in g.nodes ensures g.nodes[id].tenant == tenant {
      NodesOwned(tenant, OpsOf(tenant, r), id);
    }
    forall key | key in g.edges ensures key.0 in g.nodes && key.1 in g.nodes {
      ProjectedLayers(tenant, r, key);
    }
  }

  // ----- Layers bound every path -----

  function RankOf(id: Id): nat {
    if KindOf(id).Some? then Rank(KindOf(id).value) else 0
  }

  /** Every edge goes down at least one of the five layers. */
  ghost predicate Descending(g: Digraph) {
    forall v, w | v in g && w in g[v] :: RankOf(v) > RankOf(w)
  }

  lemma ProjectedDescending(tenant: string, r: Records)
    requires Projected(tenant, r).Ok?
    ensures Closed(Adjacency(Projected(tenant, r).value)) && Descending(Adjacency(Projected(tenant, r).value))
  {
    var g := Projected(tenant, r).value;
    ProjectedConsistent(tenant, r);
    forall v, w | v in Adjacency(g) && w in Adjacency(g)[v] ensures RankOf(v) > RankOf(w) {
      ProjectedLayers(tenant, r, (v, w));
    }
  }

  lemma {:induction false} WalkDescends(g: Digraph, p: Path, i: nat, j: nat)
    requires Descending(g) && IsWalk(g, p) && i <= j < |p|
    ensures RankOf(p[i]) >= RankOf(p[j]) + (j - i)
  {
    if i < j {
      WalkDescends(g, p, i, j - 1);
      assert p[j - 1 + 1] in g[p[j - 1]];
    }
  }

  lemma WalksAreShort(g: Digraph, p: Path)
    requires Descending(g) && IsWalk(g, p)
    ensures |p| <= 5
  {
    WalkDescends(g, p, 0, |p| - 1);
  }

  lemma EndOfLayers(g: Digraph, p: Path)
    requires Descending(g) && IsWalk(g, p) && |p| >= 5
    ensures g[p[|p| - 1]] == {}
  {
    WalkDescends(g, p, 0, |p| - 1);
    RankBound(p[0]);
    var last := p[|p| - 1];
    if w :| w in g[last] {
      RankBound(w);
    }
  }

  lemma RankBound(id: Id)
    ensures RankOf(id) <= 4
  {}

  /** A walk over a projected graph never revisits a node and has at most four edges. */
  lemma ProjectedWalksAreShort(tenant: string, r: Records, p: Path)
    requires Projected(tenant, r).Ok? && IsWalk(Adjacency(Projected(tenant, r).value), p)
    ensures Simple(p) && |p| <= 5
  {
    var g := Adjacency(Projected(tenant, r).value);
    ProjectedDescending(tenant, r);
    forall i, j | 0 <= i < j < |p| ensures p[i] != p[j] {
      WalkDescends(g, p, i, j);
    }
    WalksAreShort(g, p);
  }

  /** Beyond four hops the bound no longer affects any step of the search. */
  lemma SameChildren(g: Digraph, q: Query, q': Query, p: Path)
    requires Descending(g) && IsWalk(g, p)
    requires q'.target == q.target && q.maxHops >= 4 && q'.maxHops >= 4
    ensures Children(g, q, p) == Children(g, q', p) && Cost(g, q, p) == Cost(g, q', p)
  {
    hide Descending, IsWalk;
    if |p| >= 5 {
      EndOfLayers(g, p);
    }
  }

  lemma {:induction false} SameExpansion(g: Digraph, q: Query, q': Query, ps: seq<Path>)
    requires Descending(g) && forall p | p in ps :: IsWalk(g, p)
    requires q'.source == q.source && q'.target == q.target && q.maxHops >= 4 && q'.maxHops >= 4
    ensures ExpandAll(g, q, ps) == ExpandAll(g, q', ps)
    ensures TotalCost(g, q, ps) == TotalCost(g, q', ps)
    ensures Arrivals(q, ps) == Arrivals(q', ps)
  {
    if ps != [] {
      SameExpansion(g, q, q', ps[..|ps| - 1]);
      SameChildren(g, q, q', ps[|ps| - 1]);
    }
  }

  lemma {:induction false} SameLevel(g: Digraph, q: Query, q': Query, k: nat)
    requires Closed(g) && Descending(g) && q.source in g && k <= q.maxHops
    requires q'.source == q.source && q'.target == q.target && q.maxHops >= 4 && q'.maxHops >= 4
    ensures Level(g, q, k) == Level(g, q', k)
  {
    if k > 0 {
      SameLevel(g, q, q', k - 1);
      forall p | p in Level(g, q, k - 1) ensures IsWalk(g, p) {
        LevelSound(g, q, k - 1, p);
      }
      SameExpansion(g, q, q', Level(g, q, k - 1));
    }
  }

  lemma {:induction false} SameLevels(g: Digraph, q: Query, q': Query, k: nat)
    requires Closed(g) && Descending(g) && q.source in g && k <= q.maxHops
    requires q'.source == q.source && q'.target == q.target && q.maxHops >= 4 && q'.maxHops >= 4
    ensures Levels(g, q, k) == Levels(g, q', k)
  {
    SameLevel(g, q, q', k);
    if k > 0 {
      SameLevels(g, q, q', k - 1);
    }
  }

  /** There is nothing beyond the fourth level. */
  lemma NoDeepLevel(g: Digraph, q: Query, k: nat, p: Path)
    requires Closed(g) && Descending(g) && q.source in g && 4 < k <= q.maxHops
    ensures p !in Level(g, q, k)
  {
    if p in Level(g, q, k) {
      hide Descending, Closed, IsWalk, Level, Simple;
      LevelSound(g, q, k, p);
      LevelLength(g, q, k, p);
      WalksAreShort(g, p);
    }
  }

  lemma {:induction false} LevelsStop(g: Digraph, q: Query, k: nat)
    requires Closed(g) && Descending(g) && q.source in g && 4 <= k <= q.maxHops
    ensures Levels(g, q, k) == Levels(g, q, 4)
  {
    hide Level, Closed, Descending;
    if k > 4 {
      LevelsStop(g, q, k - 1);
      var level := Level(g, q, k);
      if level != [] {
        NoDeepLevel(g, q, k, level[0]);
        assert false;
      }
      assert Levels(g, q, k - 1) + [] == Levels(g, q, k - 1);
    }
  }

  /** On a projected graph, any two hop bounds of at least four give the same search: the same
      exploration, the same stopping point and the same reported paths. */
  lemma HopsBeyondFour(tenant: string, r: Records, q: Query, q': Query, found: seq<Path>)
    requires Projected(tenant, r).Ok? && q.source in Projected(tenant, r).value.nodes
    requires q' == q.(maxHops := q'.maxHops) && q.maxHops >= 4 && q'.maxHops >= 4
    ensures var g := Adjacency(Projected(tenant, r).value);
      && ShortlexPaths(g, q) == ShortlexPaths(g, q')
      && (IsSearchResult(g, q, found) <==> IsSearchResult(g, q', found))
  {
    var g := Adjacency(Projected(tenant, r).value);
    ProjectedDescending(tenant, r);
    SameTrails(g, q, q');
    if IsSearchResult(g, q, found) {
      SameStops(g, q, q', found);
    }
    if IsSearchResult(g, q', found) {
      SameStops(g, q', q, found);
    }
  }

  lemma SameTrails(g: Digraph, q: Query, q': Query)
    requires Closed(g) && Descending(g) && q.source in g
    requires q' == q.(maxHops := q'.maxHops) && q.maxHops >= 4 && q'.maxHops >= 4
    ensures Trails(g, q) == Trails(g, q') && ShortlexPaths(g, q) == ShortlexPaths(g, q')
  {
    LevelsStop(g, q, q.maxHops);
    LevelsStop(g, q', q'.maxHops);
    SameLevels(g, q, q', 4);
    TrailsCorrect(g, q);
    SameExpansion(g, q, q', Trails(g, q));
  }

  lemma SameStops(g: Digraph, q: Query, q': Query, found: seq<Path>)
    requires Closed(g) && Descending(g) && q.source in g
    requires q' == q.(maxHops := q'.maxHops) && q.maxHops >= 4 && q'.maxHops >= 4
    requires Trails(g, q) == Trails(g, q') && IsSearchResult(g, q, found)
    ensures IsSearchResult(g, q', found)
  {
    hide Trails, Arrivals, TotalCost, ShortlexSorted, IsTrail, IsWalk;
    var t := Trails(g, q);
    var n: nat :| StopsAfter(g, q, n) && found == Arrivals(q, t[..n]);
    TrailsAreWalks(g, q);
    SameExpansion(g, q, q', t[..n]);
    if n < |t| {
      SameExpansion(g, q, q', t[..n + 1]);
    }
    assert StopsAfter(g, q', n);
  }

  lemma TrailsAreWalks(g: Digraph, q: Query)
    requires Closed(g) && q.source in g
    ensures forall p | p in Trails(g, q) :: IsWalk(g, p)
  {
    TrailsCorrect(g, q);
  }
}
