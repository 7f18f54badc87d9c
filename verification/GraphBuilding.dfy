/** `project_evidence` step by step: dictionaries of nodes and edges updated by nested loops over the
    canonical records.  Each method is proved to perform exactly the merges `Projection.OpsOf` lists. */
module GraphBuilding {
  import opened Wrappers
  import opened Ordering
  import opened Projection

  const SEVERITY_RISK: map<Severity, nat> :=
    map[Informational := 5, Low := 20, Medium := 45, High := 70, Critical := 95]

  method SeverityRisk(severity: Severity) returns (risk: nat)
    ensures risk == severity.Risk()
  {
    risk := SEVERITY_RISK[severity];
  }

  class GraphBuilder {
    const tenant: string
    var nodes: map<Id, Node>
    var edges: map<(Id, Id), Edge>
    ghost var log: seq<Op>

    ghost predicate Valid()
      reads this
    {
      Run(log) == Ok(Graph(nodes, edges))
    }

    /** What adding `ops` to `before` leads to: all of them merged, or the first failure. */
    ghost predicate Added(before: seq<Op>, ops: seq<Op>, failure: Option<Failure>)
      reads this
    {
      && (failure.None? ==> Valid() && log == before + ops)
      && (failure.Some? ==> Run(before + ops) == Err(failure.value))
    }

    constructor (tenant: string)
      ensures Valid() && log == [] && this.tenant == tenant
    {
      this.tenant, nodes, edges, log := tenant, map[], map[], [];
    }

    method AddNode(node: Node) returns (failure: Option<Failure>)
      requires Valid()
      modifies this
      ensures Added(old(log), [Op.AddNode(node)], failure)
    {
      ghost var extended := log + [Op.AddNode(node)];
      assert extended[..|extended| - 1] == log;
      if |node.nodeId| < 3 || |node.nodeId| > 512 || |node.caption| < 1 || |node.caption| > 512 || node.risk > 100
        || |node.evidence| > 128
      {
        return Some(InvalidContract);
      }
      if node.nodeId !in nodes {
        nodes := nodes[node.nodeId := node];
      } else {
        var existing := nodes[node.nodeId];
        nodes := nodes[node.nodeId := existing.(risk := if existing.risk < node.risk then node.risk else existing.risk,
          evidence := Deduplicate(existing.evidence + node.evidence))];
      }
      log := extended;
      failure := None;
    }

    method AddEdge(edge: Edge) returns (failure: Option<Failure>)
      requires Valid()
      modifies this
      ensures Added(old(log), [Op.AddEdge(edge)], failure)
    {
      ghost var extended := log + [Op.AddEdge(edge)];
      assert extended[..|extended| - 1] == log;
      var key := (edge.source, edge.target);
      if |edge.source| < 3 || |edge.source| > 512 || |edge.target| < 3 || |edge.target| > 512
        || |edge.evidence| < 1 || |edge.evidence| > 128 || edge.risk > 100
      {
        return Some(InvalidContract);
      }
      if key !in edges {
        edges := edges[key := edge];
      } else if edges[key].relationship != edge.relationship {
        return Some(TwoRelationships);
      } else {
        var existing := edges[key];
        edges := edges[key := existing.(risk := if existing.risk < edge.risk then edge.risk else existing.risk,
          evidence := Deduplicate(existing.evidence + edge.evidence))];
      }
      log := extended;
      failure := None;
    }

    method AddAssets(assets: seq<Asset>) returns (ids: set<Id>, failure: Option<Failure>)
      requires Valid()
      modifies this
      ensures Added(old(log), FlatMap(a => AssetOps(tenant, a), assets), failure)
      ensures failure.None? ==> ids == set a | a in assets :: NodeId(AssetNode, a.assetId)
    {
      hide Run, FlatMap;
      ghost var before := log;
      ghost var ops := (a: Asset) => AssetOps(tenant, a);
      FlatMapStart(before, ops, assets);
      ids, failure := {}, None;
      for i := 0 to |assets|
        invariant Valid() && log == before + FlatMap(ops, assets[..i])
        invariant ids == set a | a in assets[..i] :: NodeId(AssetNode, a.assetId)
        invariant failure.None?
      {
        var a := assets[i];
        var id := "asset:" + a.assetId;
        ids := ids + {id};
        failure := AddNode(Node(id, tenant, AssetNode, a.hostname, 15, [a.assetId]));
        FlatMapStep(before, ops, assets, i);
        if failure.Some? {
          FailsLater(before, FlatMap(ops, assets[..i + 1]), FlatMap(ops, assets), failure.value);
          return;
        }
      }
      assert assets[..|assets|] == assets;
    }

    method AddObservations(assetIds: set<Id>, os: seq<Observation>)
      returns (index: map<string, Id>, failure: Option<Failure>)
      requires Valid()
      modifies this
      ensures Added(old(log), FlatMap(o => ObservationOps(tenant, assetIds, o), os), failure)
      ensures failure.None? ==> index == IntegrityIndex(assetIds, os)
    {
      hide Run, FlatMap;
      ghost var before := log;
      ghost var ops := (o: Observation) => ObservationOps(tenant, assetIds, o);
      FlatMapStart(before, ops, os);
      index, failure := map[], None;
      for i := 0 to |os|
        invariant Valid() && log == before + FlatMap(ops, os[..i])
        invariant index == IntegrityIndex(assetIds, os[..i])
        invariant failure.None?
      {
        var o := os[i];
        assert os[..i + 1][..i] == os[..i];
        FlatMapStep(before, ops, os, i);
        if "asset:" + o.assetId !in assetIds {
          assert log + [] == log;
          continue;
        }
        index := index[o.sourceEventId := "integrity:" + o.observationId];
        failure := AddObservation(assetIds, o);
        if failure.Some? {
          FailsLater(before, FlatMap(ops, os[..i + 1]), FlatMap(ops, os), failure.value);
          return;
        }
      }
      assert os[..|os|] == os;
    }

    method AddObservation(ghost assetIds: set<Id>, o: Observation) returns (failure: Option<Failure>)
      requires Valid() && Kept(assetIds, o)
      modifies this
      ensures Added(old(log), ObservationOps(tenant, assetIds, o), failure)
    {
      hide Run;
      ghost var before, all := log, ObservationOps(tenant, assetIds, o);
      var id := "integrity:" + o.observationId;
      var risk := SeverityRisk(o.severity);
      var text := o.checkType.Name() + ":" + o.status.Name();
      failure := AddNode(Node(id, tenant, IntegrityNode, text, risk, [o.observationId, o.sourceEventId]));
      if failure.Some? {
        FailsLater(before, [all[0]], all, failure.value);
        return;
      }
      failure := AddEdge(Edge(id, "asset:" + o.assetId, IntegrityObservedOnAsset, [o.observationId], risk));
      assert before + [all[0]] + [all[1]] == before + all;
    }

    method AddDetections(assetIds: set<Id>, index: map<string, Id>, ds: seq<Detection>)
      returns (ids: set<Id>, failure: Option<Failure>)
      requires Valid()
      modifies this
      ensures Added(old(log), FlatMap(d => DetectionOps(tenant, assetIds, index, d), ds), failure)
      ensures failure.None? ==> ids == set d | d in ds :: NodeId(DetectionNode, d.detectionId)
    {
      hide Run, FlatMap, DetectionOps;
      ghost var before := log;
      ghost var ops := (d: Detection) => DetectionOps(tenant, assetIds, index, d);
      FlatMapStart(before, ops, ds);
      ids, failure := {}, None;
      for i := 0 to |ds|
        invariant Valid() && log == before + FlatMap(ops, ds[..i])
        invariant ids == set d | d in ds[..i] :: NodeId(DetectionNode, d.detectionId)
        invariant failure.None?
      {
        ids := ids + {"detection:" + ds[i].detectionId};
        failure := AddDetection(assetIds, index, ds[i]);
        FlatMapStep(before, ops, ds, i);
        if failure.Some? {
          FailsLater(before, FlatMap(ops, ds[..i + 1]), FlatMap(ops, ds), failure.value);
          return;
        }
      }
      assert ds[..|ds|] == ds;
    }

    method AddDetection(assetIds: set<Id>, index: map<string, Id>, d: Detection) returns (failure: Option<Failure>)
      requires Valid()
      modifies this
      ensures Added(old(log), DetectionOps(tenant, assetIds, index, d), failure)
    {
      hide Run, FlatMap;
      ghost var before := log;
      ghost var p1, p2, p3, p4 := DetectionNodeOps(tenant, d), DetectionAssetOps(assetIds, d),
        DetectionIntegrityOps(index, d), FlatMap(t => TechniqueOps(tenant, d, t), d.techniques);
      ghost var all := p1 + p2 + p3 + p4;
      FourParts(before, p1, p2, p3, p4);
      var id := "detection:" + d.detectionId;
      var risk := SeverityRisk(d.severity);
      failure := AddNode(Node(id, tenant, DetectionNode, d.title, risk, [d.detectionId, d.eventId]));
      if failure.Some? {
        FailsLater(before, p1, all, failure.value);
        return;
      }
      if d.assetId.Some? && "asset:" + d.assetId.value in assetIds {
        failure := AddEdge(Edge(id, "asset:" + d.assetId.value, DetectionObservedOnAsset, [d.detectionId],
          risk));
        if failure.Some? {
          FailsLater(before, p1 + p2, all, failure.value);
          return;
        }
      } else {
        assert log + [] == log;
      }
      assert log == before + p1 + p2;
      if d.eventId in index {
        failure := AddEdge(Edge(id, index[d.eventId], DetectionObservedOnIntegrity, [d.detectionId, d.eventId], risk));
        if failure.Some? {
          FailsLater(before, p1 + p2 + p3, all, failure.value);
          return;
        }
      } else {
        assert log + [] == log;
      }
      assert log == before + p1 + p2 + p3;
      failure := AddTechniques(d);
    }

    method AddTechniques(d: Detection) returns (failure: Option<Failure>)
      requires Valid()
      modifies this
      ensures Added(old(log), FlatMap(t => TechniqueOps(tenant, d, t), d.techniques), failure)
    {
      hide Run, FlatMap;
      ghost var before := log;
      ghost var ops := (t: Technique) => TechniqueOps(tenant, d, t);
      FlatMapStart(before, ops, d.techniques);
      failure := None;
      for i := 0 to |d.techniques|
        invariant Valid() && log == before + FlatMap(ops, d.techniques[..i])
        invariant failure.None?
      {
        failure := AddTechnique(d, d.techniques[i]);
        FlatMapStep(before, ops, d.techniques, i);
        if failure.Some? {
          FailsLater(before, FlatMap(ops, d.techniques[..i + 1]), FlatMap(ops, d.techniques), failure.value);
          return;
        }
      }
      assert d.techniques[..|d.techniques|] == d.techniques;
    }

    method AddTechnique(d: Detection, technique: Technique) returns (failure: Option<Failure>)
      requires Valid()
      modifies this
      ensures Added(old(log), TechniqueOps(tenant, d, technique), failure)
    {
      hide Run;
      ghost var before, all := log, TechniqueOps(tenant, d, technique);
      var id := "mitre:" + technique.techniqueId;
      var text := technique.techniqueId + " (" + technique.tactic + ")";
      failure := AddNode(Node(id, tenant, MitreNode, text, 0, [d.detectionId]));
      if failure.Some? {
        FailsLater(before, [all[0]], all, failure.value);
        return;
      }
      failure := AddEdge(Edge("detection:" + d.detectionId, id, DetectionMatchesMitreTechnique,
        [d.detectionId], 0));
      assert before + [all[0]] + [all[1]] == before + all;
    }

    method AddAlerts(detectionIds: set<Id>, alerts: seq<Alert>) returns (ids: set<Id>, failure: Option<Failure>)
      requires Valid()
      modifies this
      ensures Added(old(log), FlatMap(a => AlertOps(tenant, detectionIds, a), alerts), failure)
      ensures failure.None? ==> ids == set a | a in alerts :: NodeId(AlertNode, a.alertId)
    {
      hide Run, FlatMap, AlertOps;
      ghost var before := log;
      ghost var ops := (a: Alert) => AlertOps(tenant, detectionIds, a);
      FlatMapStart(before, ops, alerts);
      ids, failure := {}, None;
      for i := 0 to |alerts|
        invariant Valid() && log == before + FlatMap(ops, alerts[..i])
        invariant ids == set a | a in alerts[..i] :: NodeId(AlertNode, a.alertId)
        invariant failure.None?
      {
        ids := ids + {"alert:" + alerts[i].alertId};
        failure := AddAlert(detectionIds, alerts[i]);
        FlatMapStep(before, ops, alerts, i);
        if failure.Some? {
          FailsLater(before, FlatMap(ops, alerts[..i + 1]), FlatMap(ops, alerts), failure.value);
          return;
        }
      }
      assert alerts[..|alerts|] == alerts;
    }

    method AddAlert(detectionIds: set<Id>, a: Alert) returns (failure: Option<Failure>)
      requires Valid()
      modifies this
      ensures Added(old(log), AlertOps(tenant, detectionIds, a), failure)
    {
      hide Run, FlatMap;
      ghost var before, p1 := log, AlertNodeOps(tenant, a);
      ghost var ops := (d: string) => AlertEdgeOps(detectionIds, a, d);
      ghost var p2 := FlatMap(ops, a.detectionIds);
      TwoParts(before, p1, p2);
      var id := "alert:" + a.alertId;
      var risk := SeverityRisk(a.severity);
      failure := AddNode(Node(id, tenant, AlertNode, a.title, risk, [a.alertId] + a.detectionIds));
      if failure.Some? {
        FailsLater(before, p1, p1 + p2, failure.value);
        return;
      }
      FlatMapStart(before + p1, ops, a.detectionIds);
      for i := 0 to |a.detectionIds|
        invariant Valid() && log == (before + p1) + FlatMap(ops, a.detectionIds[..i])
        invariant failure.None?
      {
        FlatMapStep(before + p1, ops, a.detectionIds, i);
        var target := "detection:" + a.detectionIds[i];
        if target in detectionIds {
          failure := AddEdge(Edge(id, target, AlertDerivedFromDetection, [a.alertId, a.detectionIds[i]], risk));
          if failure.Some? {
            FailsLater(before + p1, FlatMap(ops, a.detectionIds[..i + 1]), p2, failure.value);
            return;
          }
        } else {
          assert log + [] == log;
        }
      }
      assert a.detectionIds[..|a.detectionIds|] == a.detectionIds;
    }

    method AddCases(alertIds: set<Id>, cases: seq<Case>) returns (failure: Option<Failure>)
      requires Valid()
      modifies this
      ensures Added(old(log), FlatMap(c => CaseOps(tenant, alertIds, c), cases), failure)
    {
      hide Run, FlatMap, CaseOps;
      ghost var before := log;
      ghost var ops := (c: Case) => CaseOps(tenant, alertIds, c);
      FlatMapStart(before, ops, cases);
      failure := None;
      for i := 0 to |cases|
        invariant Valid() && log == before + FlatMap(ops, cases[..i])
        invariant failure.None?
      {
        failure := AddCase(alertIds, cases[i]);
        FlatMapStep(before, ops, cases, i);
        if failure.Some? {
          FailsLater(before, FlatMap(ops, cases[..i + 1]), FlatMap(ops, cases), failure.value);
          return;
        }
      }
      assert cases[..|cases|] == cases;
    }

    method AddCase(alertIds: set<Id>, c: Case) returns (failure: Option<Failure>)
      requires Valid()
      modifies this
      ensures Added(old(log), CaseOps(tenant, alertIds, c), failure)
    {
      hide Run, FlatMap;
      ghost var before, p1 := log, CaseNodeOps(tenant, c);
      ghost var ops := (a: string) => CaseEdgeOps(alertIds, c, a);
      ghost var p2 := FlatMap(ops, c.alertIds);
      TwoParts(before, p1, p2);
      var id := "case:" + c.caseId;
      var risk := SeverityRisk(c.severity);
      failure := AddNode(Node(id, tenant, CaseNode, c.title, risk, [c.caseId] + c.alertIds));
      if failure.Some? {
        FailsLater(before, p1, p1 + p2, failure.value);
        return;
      }
      FlatMapStart(before + p1, ops, c.alertIds);
      for i := 0 to |c.alertIds|
        invariant Valid() && log == (before + p1) + FlatMap(ops, c.alertIds[..i])
        invariant failure.None?
      {
        FlatMapStep(before + p1, ops, c.alertIds, i);
        var target := "alert:" + c.alertIds[i];
        if target in alertIds {
          failure := AddEdge(Edge(id, target, CaseInvestigatesAlert, [c.caseId, c.alertIds[i]], risk));
          if failure.Some? {
            FailsLater(before + p1, FlatMap(ops, c.alertIds[..i + 1]), p2, failure.value);
            return;
          }
        } else {
          assert log + [] == log;
        }
      }
      assert c.alertIds[..|c.alertIds|] == c.alertIds;
    }
  }

  /** A failure part-way is the failure of the whole. */
  lemma FailsLater(before: seq<Op>, part: seq<Op>, whole: seq<Op>, f: Failure)
    requires part <= whole && Run(before + part) == Err(f)
    ensures Run(before + whole) == Err(f)
  {
    hide Run;
    RunFails(before + part, whole[|part|..]);
    assert before + part + whole[|part|..] == before + whole;
  }

  lemma FlatMapStart<T>(before: seq<Op>, f: T -> seq<Op>, xs: seq<T>)
    ensures before == before + FlatMap(f, xs[..0])
  {}

  lemma FlatMapStep<T>(before: seq<Op>, f: T -> seq<Op>, xs: seq<T>, i: nat)
    requires i < |xs|
    ensures before + FlatMap(f, xs[..i]) + f(xs[i]) == before + FlatMap(f, xs[..i + 1])
    ensures FlatMap(f, xs[..i + 1]) <= FlatMap(f, xs)
  {
    assert xs[..i + 1][..i] == xs[..i];
    FlatMapPrefix(f, xs, i + 1);
  }

  lemma {:induction false} FlatMapPrefix<T>(f: T -> seq<Op>, xs: seq<T>, i: nat)
    requires i <= |xs|
    ensures FlatMap(f, xs[..i]) <= FlatMap(f, xs)
  {
    var n := |xs| - 1;
    if i <= n {
      FlatMapPrefix(f, xs[..n], i);
      assert xs[..n][..i] == xs[..i];
    } else {
      assert xs[..i] == xs;
    }
  }

  lemma TwoParts(before: seq<Op>, p1: seq<Op>, p2: seq<Op>)
    ensures before + (p1 + p2) == before + p1 + p2
    ensures p1 <= p1 + p2
  {}

  lemma FourParts(before: seq<Op>, p1: seq<Op>, p2: seq<Op>, p3: seq<Op>, p4: seq<Op>)
    ensures before + (p1 + p2) == before + p1 + p2
    ensures before + (p1 + p2 + p3) == before + p1 + p2 + p3
    ensures before + (p1 + p2 + p3 + p4) == before + p1 + p2 + p3 + p4
    ensures p1 <= p1 + p2 + p3 + p4 && p1 + p2 <= p1 + p2 + p3 + p4 && p1 + p2 + p3 <= p1 + p2 + p3 + p4
  {}
}
