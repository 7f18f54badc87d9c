/** Evidence projection of `governed_attack_paths.py`: canonical records become a graph by merging
    duplicate nodes and edges.  The projected graph is proved to be layered, and to depend on the
    records only as sets. */
module Projection {
  import opened Wrappers
  import opened Ordering

  const TEXT_LIMIT: nat := 512
  const EVIDENCE_LIMIT: nat := 128
  const RISK_LIMIT: nat := 100

  datatype Severity = Informational | Low | Medium | High | Critical {
    function Risk(): (risk: nat)
      ensures risk <= RISK_LIMIT
    {
      match this
      case Informational => 5
      case Low => 20
      case Medium => 45
      case High => 70
      case Critical => 95
    }
  }

  // ----- Canonical records: the fields the projection reads -----

  datatype CheckType = FileCheck | ProcessCheck | RegistryCheck | ConfigurationCheck {
    function Name(): string {
      match this
      case FileCheck => "file"
      case ProcessCheck => "process"
      case RegistryCheck => "registry"
      case ConfigurationCheck => "configuration"
    }
  }

  datatype CheckStatus = BaselineMatch | Modified | Missing | CheckError {
    function Name(): string {
      match this
      case BaselineMatch => "baseline_match"
      case Modified => "modified"
      case Missing => "missing"
      case CheckError => "error"
    }
  }

  datatype Asset = Asset(tenant: string, assetId: string, hostname: string)
  datatype Observation = Observation(tenant: string, observationId: string, assetId: string,
    sourceEventId: string, checkType: CheckType, status: CheckStatus, severity: Severity)
  {
    function Caption(): string {
      checkType.Name() + ":" + status.Name()
    }
  }
  datatype Technique = Technique(techniqueId: string, tactic: string) {
    function Caption(): string {
      techniqueId + " (" + tactic + ")"
    }
  }
  datatype Detection = Detection(tenant: string, detectionId: string, eventId: string, title: string,
    assetId: Option<string>, techniques: seq<Technique>, severity: Severity)
  datatype Alert = Alert(tenant: string, alertId: string, title: string, detectionIds: seq<string>, severity: Severity)
  datatype Case = Case(tenant: string, caseId: string, title: string, alertIds: seq<string>, severity: Severity)

  datatype Records = Records(assets: seq<Asset>, observations: seq<Observation>,
    detections: seq<Detection>, alerts: seq<Alert>, cases: seq<Case>)

  // ----- Graph -----

  datatype Kind = AssetNode | IntegrityNode | DetectionNode | AlertNode | CaseNode | MitreNode

  datatype Relationship =
    | IntegrityObservedOnAsset
    | DetectionObservedOnAsset
    | DetectionObservedOnIntegrity
    | DetectionMatchesMitreTechnique
    | AlertDerivedFromDetection
    | CaseInvestigatesAlert

  datatype Node = Node(nodeId: Id, tenant: string, kind: Kind, caption: string, risk: nat, evidence: seq<string>)
  datatype Edge = Edge(source: Id, target: Id, relationship: Relationship, evidence: seq<string>, risk: nat)
  datatype Graph = Graph(nodes: map<Id, Node>, edges: map<(Id, Id), Edge>)

  datatype Failure = CrossTenant | InvalidContract | TwoRelationships | DanglingEdge
  type Outcome<+T> = Result<T, Failure>

  predicate IdValid(id: Id) {
    3 <= |id| <= TEXT_LIMIT
  }

  /** The bounds a node contract checks when it is created. */
  predicate NodeValid(n: Node) {
    IdValid(n.nodeId) && 1 <= |n.caption| <= TEXT_LIMIT && n.risk <= RISK_LIMIT && |n.evidence| <= EVIDENCE_LIMIT
  }

  predicate EdgeValid(e: Edge) {
    IdValid(e.source) && IdValid(e.target) && 1 <= |e.evidence| <= EVIDENCE_LIMIT && e.risk <= RISK_LIMIT
  }

  function Prefix(kind: Kind): string {
    match kind
    case AssetNode => "asset:"
    case IntegrityNode => "integrity:"
    case DetectionNode => "detection:"
    case AlertNode => "alert:"
    case CaseNode => "case:"
    case MitreNode => "mitre:"
  }

  function NodeId(kind: Kind, name: string): Id {
    Prefix(kind) + name
  }

  /** `list(dict.fromkeys(values))`: first occurrences, in order. */
  function Deduplicate(values: seq<string>): (r: seq<string>)
    ensures forall v :: v in r <==> v in values
    ensures forall i, j | 0 <= i < j < |r| :: r[i] != r[j]
  {
    if values == [] then []
    else
      var n := |values| - 1;
      var before := Deduplicate(values[..n]);
      assert values == values[..n] + [values[n]];
      if values[n] in before then before else before + [values[n]]
  }

  /** Some occurrence of `x` precedes every occurrence of `y`. */
  ghost predicate Precedes(values: seq<string>, x: string, y: string) {
    exists a :: 0 <= a < |values| && values[a] == x && y !in values[..a]
  }

  /** Values keep the order of their first occurrences. */
  lemma {:induction false} DeduplicateInOrder(values: seq<string>)
    ensures forall i, j | 0 <= i < j < |Deduplicate(values)| ::
      Precedes(values, Deduplicate(values)[i], Deduplicate(values)[j])
  {
    if values != [] {
      var n := |values| - 1;
      var before, r := Deduplicate(values[..n]), Deduplicate(values);
      DeduplicateInOrder(values[..n]);
      forall i, j | 0 <= i < j < |r| ensures Precedes(values, r[i], r[j]) {
        assert r[i] == before[i] && r[i] in values[..n];
        var a :| 0 <= a < n && values[..n][a] == r[i] && (j < |before| ==> r[j] !in values[..n][..a]) by {
          assert j < |before| ==> Precedes(values[..n], before[i], before[j]);
        }
        assert values[..n][..a] == values[..a];
        assert forall x | x in values[..a] :: x in values[..n];
      }
    }
  }

  lemma {:induction false} DeduplicateDistinct(values: seq<string>)
    requires forall i, j | 0 <= i < j < |values| :: values[i] != values[j]
    ensures Deduplicate(values) == values
  {
    if values != [] {
      var n := |values| - 1;
      DeduplicateDistinct(values[..n]);
      assert values == values[..n] + [values[n]];
    }
  }

  /** Deduplicating what comes first makes no difference. */
  lemma {:induction false} DeduplicateTwice(a: seq<string>, b: seq<string>)
    ensures Deduplicate(Deduplicate(a) + b) == Deduplicate(a + b)
  {
    if b == [] {
      assert Deduplicate(a) + b == Deduplicate(a) && a + b == a;
      DeduplicateDistinct(Deduplicate(a));
    } else {
      var n := |b| - 1;
      DeduplicateTwice(a, b[..n]);
      assert (Deduplicate(a) + b)[..|Deduplicate(a) + b| - 1] == Deduplicate(a) + b[..n];
      assert (a + b)[..|a + b| - 1] == a + b[..n];
    }
  }

  // ----- The merge operations -----

  datatype Op = AddNode(node: Node) | AddEdge(edge: Edge)

  function Max(a: nat, b: nat): nat {
    if a < b then b else a
  }

  function MergeNode(existing: Node, node: Node): Node {
    existing.(risk := Max(existing.risk, node.risk), evidence := Deduplicate(existing.evidence + node.evidence))
  }

  function MergeEdge(existing: Edge, edge: Edge): Edge {
    existing.(risk := Max(existing.risk, edge.risk), evidence := Deduplicate(existing.evidence + edge.evidence))
  }

  /** A contract is validated when it is created, not again when it is merged. */
  function Apply(g: Graph, op: Op): Outcome<Graph> {
    match op
    case AddNode(n) =>
      if !NodeValid(n) then Err(InvalidContract)
      else if n.nodeId in g.nodes then Ok(g.(nodes := g.nodes[n.nodeId := MergeNode(g.nodes[n.nodeId], n)]))
      else Ok(g.(nodes := g.nodes[n.nodeId := n]))
    case AddEdge(e) =>
      var key := (e.source, e.target);
      if !EdgeValid(e) then Err(InvalidContract)
      else if key !in g.edges then Ok(g.(edges := g.edges[key := e]))
      else if g.edges[key].relationship != e.relationship then Err(TwoRelationships)
      else Ok(g.(edges := g.edges[key := MergeEdge(g.edges[key], e)]))
  }

  function Run(ops: seq<Op>): Outcome<Graph> {
    if ops == [] then Ok(Graph(map[], map[]))
    else
      match Run(ops[..|ops| - 1])
      case Ok(g) => Apply(g, ops[|ops| - 1])
      case Err(f) => Err(f)
  }

  /** A failed merge is final. */
  lemma {:induction false} RunFails(ops: seq<Op>, more: seq<Op>)
    requires Run(ops).Err?
    ensures Run(ops + more) == Run(ops)
  {
    if more == [] {
      assert ops + more == ops;
    } else {
      assert (ops + more)[..|ops + more| - 1] == ops + more[..|more| - 1];
      RunFails(ops, more[..|more| - 1]);
    }
  }

  // ----- The operations each record gives rise to -----

  function FlatMap<T>(f: T -> seq<Op>, xs: seq<T>): seq<Op> {
    if xs == [] then [] else FlatMap(f, xs[..|xs| - 1]) + f(xs[|xs| - 1])
  }

  lemma {:induction false} FlatMapMembers<T>(f: T -> seq<Op>, xs: seq<T>, op: Op)
    ensures op in FlatMap(f, xs) <==> exists x :: x in xs && op in f(x)
  {
    if xs != [] {
      var n := |xs| - 1;
      FlatMapMembers(f, xs[..n], op);
      assert xs == xs[..n] + [xs[n]];
    }
  }

  function AssetOps(tenant: string, a: Asset): seq<Op> {
    [AddNode(Node(NodeId(AssetNode, a.assetId), tenant, AssetNode, a.hostname, 15, [a.assetId]))]
  }

  predicate Kept(assetIds: set<Id>, o: Observation) {
    NodeId(AssetNode, o.assetId) in assetIds
  }

  function ObservationOps(tenant: string, assetIds: set<Id>, o: Observation): seq<Op> {
    if !Kept(assetIds, o) then []
    else
      var id := NodeId(IntegrityNode, o.observationId);
      [AddNode(Node(id, tenant, IntegrityNode, o.Caption(), o.severity.Risk(), [o.observationId, o.sourceEventId])),
       AddEdge(Edge(id, NodeId(AssetNode, o.assetId), IntegrityObservedOnAsset, [o.observationId], o.severity.Risk()))]
  }

  /** The last kept observation wins its source event id. */
  function IntegrityIndex(assetIds: set<Id>, os: seq<Observation>): map<string, Id> {
    if os == [] then map[]
    else
      var o := os[|os| - 1];
      var before := IntegrityIndex(assetIds, os[..|os| - 1]);
      if Kept(assetIds, o) then before[o.sourceEventId := NodeId(IntegrityNode, o.observationId)] else before
  }

  function TechniqueOps(tenant: string, d: Detection, t: Technique): seq<Op> {
    var id := NodeId(MitreNode, t.techniqueId);
    [AddNode(Node(id, tenant, MitreNode, t.Caption(), 0, [d.detectionId])),
     AddEdge(Edge(NodeId(DetectionNode, d.detectionId), id, DetectionMatchesMitreTechnique, [d.detectionId], 0))]
  }

  function DetectionNodeOps(tenant: string, d: Detection): seq<Op> {
    [AddNode(Node(NodeId(DetectionNode, d.detectionId), tenant, DetectionNode, d.title, d.severity.Risk(),
                  [d.detectionId, d.eventId]))]
  }

  function DetectionAssetOps(assetIds: set<Id>, d: Detection): seq<Op> {
    if d.assetId.Some? && NodeId(AssetNode, d.assetId.value) in assetIds then
      [AddEdge(Edge(NodeId(DetectionNode, d.detectionId), NodeId(AssetNode, d.assetId.value),
                    DetectionObservedOnAsset, [d.detectionId], d.severity.Risk()))]
    else []
  }

  function DetectionIntegrityOps(index: map<string, Id>, d: Detection): seq<Op> {
    if d.eventId in index then
      [AddEdge(Edge(NodeId(DetectionNode, d.detectionId), index[d.eventId],
                    DetectionObservedOnIntegrity, [d.detectionId, d.eventId], d.severity.Risk()))]
    else []
  }

  function DetectionOps(tenant: string, assetIds: set<Id>, index: map<string, Id>, d: Detection): seq<Op> {
    DetectionNodeOps(tenant, d) + DetectionAssetOps(assetIds, d) + DetectionIntegrityOps(index, d)
      + FlatMap(t => TechniqueOps(tenant, d, t), d.techniques)
  }

  function AlertNodeOps(tenant: string, a: Alert): seq<Op> {
    [AddNode(Node(NodeId(AlertNode, a.alertId), tenant, AlertNode, a.title, a.severity.Risk(),
                  [a.alertId] + a.detectionIds))]
  }

  function AlertEdgeOps(detectionIds: set<Id>, a: Alert, detectionId: string): seq<Op> {
    if NodeId(DetectionNode, detectionId) in detectionIds then
      [AddEdge(Edge(NodeId(AlertNode, a.alertId), NodeId(DetectionNode, detectionId),
                    AlertDerivedFromDetection, [a.alertId, detectionId], a.severity.Risk()))]
    else []
  }

  function AlertOps(tenant: string, detectionIds: set<Id>, a: Alert): seq<Op> {
    AlertNodeOps(tenant, a) + FlatMap(d => AlertEdgeOps(detectionIds, a, d), a.detectionIds)
  }

  function CaseNodeOps(tenant: string, c: Case): seq<Op> {
    [AddNode(Node(NodeId(CaseNode, c.caseId), tenant, CaseNode, c.title, c.severity.Risk(),
                  [c.caseId] + c.alertIds))]
  }

  function CaseEdgeOps(alertIds: set<Id>, c: Case, alertId: string): seq<Op> {
    if NodeId(AlertNode, alertId) in alertIds then
      [AddEdge(Edge(NodeId(CaseNode, c.caseId), NodeId(AlertNode, alertId),
                    CaseInvestigatesAlert, [c.caseId, alertId], c.severity.Risk()))]
    else []
  }

  function CaseOps(tenant: string, alertIds: set<Id>, c: Case): seq<Op> {
    CaseNodeOps(tenant, c) + FlatMap(a => CaseEdgeOps(alertIds, c, a), c.alertIds)
  }

  function AssetIds(r: Records): set<Id> {
    set a | a in r.assets :: NodeId(AssetNode, a.assetId)
  }

  function DetectionIds(r: Records): set<Id> {
    set d | d in r.detections :: NodeId(DetectionNode, d.detectionId)
  }

  function AlertIds(r: Records): set<Id> {
    set a | a in r.alerts :: NodeId(AlertNode, a.alertId)
  }

  /** Everything the projection adds, in the order it is added. */
  function OpsOf(tenant: string, r: Records): seq<Op> {
    var index := IntegrityIndex(AssetIds(r), r.observations);
    FlatMap(a => AssetOps(tenant, a), r.assets)
      + FlatMap(o => ObservationOps(tenant, AssetIds(r), o), r.observations)
      + FlatMap(d => DetectionOps(tenant, AssetIds(r), index, d), r.detections)
      + FlatMap(a => AlertOps(tenant, DetectionIds(r), a), r.alerts)
      + FlatMap(c => CaseOps(tenant, AlertIds(r), c), r.cases)
  }

  predicate OneTenant(tenant: string, r: Records) {
    && (forall x | x in r.assets :: x.tenant == tenant)
    && (forall x | x in r.observations :: x.tenant == tenant)
    && (forall x | x in r.detections :: x.tenant == tenant)
    && (forall x | x in r.alerts :: x.tenant == tenant)
    && (forall x | x in r.cases :: x.tenant == tenant)
  }

  function Projected(tenant: string, r: Records): Outcome<Graph> {
    if OneTenant(tenant, r) then Run(OpsOf(tenant, r)) else Err(CrossTenant)
  }

  // ----- Who contributed an operation -----

  ghost predicate Contributed(tenant: string, r: Records, index: map<string, Id>, op: Op) {
    || (exists a :: a in r.assets && op in AssetOps(tenant, a))
    || (exists o :: o in r.observations && op in ObservationOps(tenant, AssetIds(r), o))
    || (exists d :: d in r.detections && op in DetectionOps(tenant, AssetIds(r), index, d))
    || (exists a :: a in r.alerts && op in AlertOps(tenant, DetectionIds(r), a))
    || (exists c :: c in r.cases && op in CaseOps(tenant, AlertIds(r), c))
  }

  lemma OpsOfMembers(tenant: string, r: Records, op: Op)
    ensures op in OpsOf(tenant, r) <==> Contributed(tenant, r, IntegrityIndex(AssetIds(r), r.observations), op)
  {
    var index := IntegrityIndex(AssetIds(r), r.observations);
    FlatMapMembers(a => AssetOps(tenant, a), r.assets, op);
    FlatMapMembers(o => ObservationOps(tenant, AssetIds(r), o), r.observations, op);
    FlatMapMembers(d => DetectionOps(tenant, AssetIds(r), index, d), r.detections, op);
    FlatMapMembers(a => AlertOps(tenant, DetectionIds(r), a), r.alerts, op);
    FlatMapMembers(c => CaseOps(tenant, AlertIds(r), c), r.cases, op);
  }

  // ----- Layers -----

  /** The kind an identifier's prefix names. */
  function KindOf(id: Id): Option<Kind> {
    if Prefix(AssetNode) <= id then Some(AssetNode)
    else if Prefix(IntegrityNode) <= id then Some(IntegrityNode)
    else if Prefix(DetectionNode) <= id then Some(DetectionNode)
    else if Prefix(AlertNode) <= id then Some(AlertNode)
    else if Prefix(CaseNode) <= id then Some(CaseNode)
    else if Prefix(MitreNode) <= id then Some(MitreNode)
    else None
  }

  lemma KindOfNodeId(kind: Kind, name: string)
    ensures KindOf(NodeId(kind, name)) == Some(kind)
  {
    var id := NodeId(kind, name);
    assert id[0] == Prefix(kind)[0] && id[1] == Prefix(kind)[1];
    assert Prefix(kind) <= id;
  }

  function Rank(kind: Kind): nat {
    match kind
    case CaseNode => 4
    case AlertNode => 3
    case DetectionNode => 2
    case IntegrityNode => 1
    case AssetNode => 0
    case MitreNode => 0
  }

  /** The one relationship the projection draws between two kinds. */
  function RelationshipBetween(source: Kind, target: Kind): Option<Relationship> {
    match (source, target)
    case (IntegrityNode, AssetNode) => Some(IntegrityObservedOnAsset)
    case (DetectionNode, AssetNode) => Some(DetectionObservedOnAsset)
    case (DetectionNode, IntegrityNode) => Some(DetectionObservedOnIntegrity)
    case (DetectionNode, MitreNode) => Some(DetectionMatchesMitreTechnique)
    case (AlertNode, DetectionNode) => Some(AlertDerivedFromDetection)
    case (CaseNode, AlertNode) => Some(CaseInvestigatesAlert)
    case _ => None
  }

  ghost predicate Layered(e: Edge) {
    && KindOf(e.source).Some? && KindOf(e.target).Some?
    && RelationshipBetween(KindOf(e.source).value, KindOf(e.target).value) == Some(e.relationship)
  }

  lemma LayeredEdge(source: Kind, a: string, target: Kind, b: string, rel: Relationship, ev: seq<string>, risk: nat)
    requires RelationshipBetween(source, target) == Some(rel)
    ensures Layered(Edge(NodeId(source, a), NodeId(target, b), rel, ev, risk))
  {
    KindOfNodeId(source, a);
    KindOfNodeId(target, b);
  }

  lemma {:induction false} IndexTargets(assetIds: set<Id>, os: seq<Observation>, e: string)
    requires e in IntegrityIndex(assetIds, os)
    ensures exists o ::
      && o in os && Kept(assetIds, o) && o.sourceEventId == e
      && IntegrityIndex(assetIds, os)[e] == NodeId(IntegrityNode, o.observationId)
  {
    var n := |os| - 1;
    if !(Kept(assetIds, os[n]) && os[n].sourceEventId == e) {
      IndexTargets(assetIds, os[..n], e);
    }
  }

  ghost predicate AddsNode(ops: seq<Op>, id: Id) {
    exists n :: AddNode(n) in ops && n.nodeId == id
  }

  /** An edge that obeys the layers and whose two endpoints are added. */
  ghost predicate GoodEdge(ops: seq<Op>, e: Edge) {
    Layered(e) && AddsNode(ops, e.source) && AddsNode(ops, e.target)
  }

  lemma AssetAdded(tenant: string, r: Records, id: Id)
    requires id in AssetIds(r)
    ensures AddsNode(OpsOf(tenant, r), id)
  {
    var a :| a in r.assets && NodeId(AssetNode, a.assetId) == id;
    var op := AssetOps(tenant, a)[0];
    OpsOfMembers(tenant, r, op);
    assert AddNode(op.node) in OpsOf(tenant, r);
  }

  lemma ObservationAdded(tenant: string, r: Records, o: Observation)
    requires o in r.observations && Kept(AssetIds(r), o)
    ensures AddsNode(OpsOf(tenant, r), NodeId(IntegrityNode, o.observationId))
  {
    var op := ObservationOps(tenant, AssetIds(r), o)[0];
    OpsOfMembers(tenant, r, op);
    assert AddNode(op.node) in OpsOf(tenant, r);
  }

  lemma DetectionOpAdded(tenant: string, r: Records, d: Detection, op: Op)
    requires d in r.detections
    requires op in DetectionOps(tenant, AssetIds(r), IntegrityIndex(AssetIds(r), r.observations), d)
    ensures op in OpsOf(tenant, r)
  {
    OpsOfMembers(tenant, r, op);
  }

  lemma DetectionAdded(tenant: string, r: Records, d: Detection)
    requires d in r.detections
    ensures AddsNode(OpsOf(tenant, r), NodeId(DetectionNode, d.detectionId))
  {
    var op := DetectionNodeOps(tenant, d)[0];
    DetectionOpAdded(tenant, r, d, op);
    assert AddNode(op.node) in OpsOf(tenant, r);
  }

  lemma AlertAdded(tenant: string, r: Records, a: Alert)
    requires a in r.alerts
    ensures AddsNode(OpsOf(tenant, r), NodeId(AlertNode, a.alertId))
  {
    var op := AlertNodeOps(tenant, a)[0];
    assert op in AlertOps(tenant, DetectionIds(r), a);
    OpsOfMembers(tenant, r, op);
    assert AddNode(op.node) in OpsOf(tenant, r);
  }

  lemma CaseAdded(tenant: string, r: Records, c: Case)
    requires c in r.cases
    ensures AddsNode(OpsOf(tenant, r), NodeId(CaseNode, c.caseId))
  {
    var op := CaseNodeOps(tenant, c)[0];
    assert op in CaseOps(tenant, AlertIds(r), c);
    OpsOfMembers(tenant, r, op);
    assert AddNode(op.node) in OpsOf(tenant, r);
  }

  lemma ObservationEdgeGood(tenant: string, r: Records, o: Observation, e: Edge)
    requires o in r.observations && AddEdge(e) in ObservationOps(tenant, AssetIds(r), o)
    ensures GoodEdge(OpsOf(tenant, r), e)
  {
    LayeredEdge(IntegrityNode, o.observationId, AssetNode, o.assetId, e.relationship, e.evidence, e.risk);
    ObservationAdded(tenant, r, o);
    AssetAdded(tenant, r, e.target);
  }

  lemma TechniqueEdgeGood(tenant: string, r: Records, d: Detection, t: Technique, e: Edge)
    requires d in r.detections && t in d.techniques && AddEdge(e) in TechniqueOps(tenant, d, t)
    ensures GoodEdge(OpsOf(tenant, r), e)
  {
    hide OpsOf, Layered, AssetIds, IntegrityIndex, Technique.Caption;
    LayeredEdge(DetectionNode, d.detectionId, MitreNode, t.techniqueId, e.relationship, e.evidence, e.risk);
    DetectionAdded(tenant, r, d);
    var op := TechniqueOps(tenant, d, t)[0];
    FlatMapMembers(t => TechniqueOps(tenant, d, t), d.techniques, op);
    DetectionOpAdded(tenant, r, d, op);
    assert AddNode(op.node) in OpsOf(tenant, r);
  }

  lemma DetectionEdgeGood(tenant: string, r: Records, d: Detection, e: Edge)
    requires d in r.detections
    requires AddEdge(e) in DetectionOps(tenant, AssetIds(r), IntegrityIndex(AssetIds(r), r.observations), d)
    ensures GoodEdge(OpsOf(tenant, r), e)
  {
    var index := IntegrityIndex(AssetIds(r), r.observations);
    FlatMapMembers(t => TechniqueOps(tenant, d, t), d.techniques, AddEdge(e));
    DetectionAdded(tenant, r, d);
    if AddEdge(e) in DetectionAssetOps(AssetIds(r), d) {
      LayeredEdge(DetectionNode, d.detectionId, AssetNode, d.assetId.value, e.relationship, e.evidence, e.risk);
      AssetAdded(tenant, r, e.target);
    } else if AddEdge(e) in DetectionIntegrityOps(index, d) {
      IndexTargets(AssetIds(r), r.observations, d.eventId);
      var o :| o in r.observations && Kept(AssetIds(r), o) && e.target == NodeId(IntegrityNode, o.observationId);
      LayeredEdge(DetectionNode, d.detectionId, IntegrityNode, o.observationId, e.relationship, e.evidence, e.risk);
      ObservationAdded(tenant, r, o);
    } else {
      var t :| t in d.techniques && AddEdge(e) in TechniqueOps(tenant, d, t);
      TechniqueEdgeGood(tenant, r, d, t, e);
    }
  }

  lemma AlertEdgeGood(tenant: string, r: Records, a: Alert, e: Edge)
    requires a in r.alerts && AddEdge(e) in AlertOps(tenant, DetectionIds(r), a)
    ensures GoodEdge(OpsOf(tenant, r), e)
  {
    FlatMapMembers(d => AlertEdgeOps(DetectionIds(r), a, d), a.detectionIds, AddEdge(e));
    var id :| id in a.detectionIds && AddEdge(e) in AlertEdgeOps(DetectionIds(r), a, id);
    LayeredEdge(AlertNode, a.alertId, DetectionNode, id, e.relationship, e.evidence, e.risk);
    AlertAdded(tenant, r, a);
    var d :| d in r.detections && NodeId(DetectionNode, d.detectionId) == NodeId(DetectionNode, id);
    DetectionAdded(tenant, r, d);
  }

  lemma CaseEdgeGood(tenant: string, r: Records, c: Case, e: Edge)
    requires c in r.cases && AddEdge(e) in CaseOps(tenant, AlertIds(r), c)
    ensures GoodEdge(OpsOf(tenant, r), e)
  {
    FlatMapMembers(a => CaseEdgeOps(AlertIds(r), c, a), c.alertIds, AddEdge(e));
    var id :| id in c.alertIds && AddEdge(e) in CaseEdgeOps(AlertIds(r), c, id);
    LayeredEdge(CaseNode, c.caseId, AlertNode, id, e.relationship, e.evidence, e.risk);
    CaseAdded(tenant, r, c);
    var a :| a in r.alerts && NodeId(AlertNode, a.alertId) == NodeId(AlertNode, id);
    AlertAdded(tenant, r, a);
  }

  /** Every edge drawn obeys the layers and joins two nodes of the projection. */
  lemma EdgesGood(tenant: string, r: Records, e: Edge)
    requires AddEdge(e) in OpsOf(tenant, r)
    ensures GoodEdge(OpsOf(tenant, r), e)
  {
    hide ObservationOps, DetectionOps, AlertOps, CaseOps, GoodEdge, OpsOf;
    var index := IntegrityIndex(AssetIds(r), r.observations);
    OpsOfMembers(tenant, r, AddEdge(e));
    if o :| o in r.observations && AddEdge(e) in ObservationOps(tenant, AssetIds(r), o) {
      ObservationEdgeGood(tenant, r, o, e);
    } else if d :| d in r.detections && AddEdge(e) in DetectionOps(tenant, AssetIds(r), index, d) {
      DetectionEdgeGood(tenant, r, d, e);
    } else if a :| a in r.alerts && AddEdge(e) in AlertOps(tenant, DetectionIds(r), a) {
      AlertEdgeGood(tenant, r, a, e);
    } else {
      var c :| c in r.cases && AddEdge(e) in CaseOps(tenant, AlertIds(r), c);
      CaseEdgeGood(tenant, r, c, e);
    }
  }

  // ----- What a run of merges amounts to -----

  ghost predicate AddsEdge(ops: seq<Op>, key: (Id, Id)) {
    exists e :: AddEdge(e) in ops && (e.source, e.target) == key
  }

  /** `node` has the highest risk added under `id`, and exactly the evidence added under it. */
  ghost predicate NodeFrom(ops: seq<Op>, id: Id, node: Node) {
    && (exists n :: AddNode(n) in ops && n.nodeId == id && n.risk == node.risk)
    && (forall n | AddNode(n) in ops && n.nodeId == id :: n.risk <= node.risk)
    && (forall v :: v in node.evidence <==> exists n :: AddNode(n) in ops && n.nodeId == id && v in n.evidence)
  }

  ghost predicate EdgeFrom(ops: seq<Op>, key: (Id, Id), edge: Edge) {
    && (edge.source, edge.target) == key
    && (forall e | AddEdge(e) in ops && (e.source, e.target) == key :: e.relationship == edge.relationship)
    && (exists e :: AddEdge(e) in ops && (e.source, e.target) == key && e.risk == edge.risk)
    && (forall e | AddEdge(e) in ops && (e.source, e.target) == key :: e.risk <= edge.risk)
    && (forall v :: v in edge.evidence <==>
      exists e :: AddEdge(e) in ops && (e.source, e.target) == key && v in e.evidence)
  }

  ghost predicate NodeAt(ops: seq<Op>, g: Graph, id: Id) {
    && (id in g.nodes <==> AddsNode(ops, id))
    && (id in g.nodes ==> NodeFrom(ops, id, g.nodes[id]))
  }

  ghost predicate EdgeAt(ops: seq<Op>, g: Graph, key: (Id, Id)) {
    && (key in g.edges <==> AddsEdge(ops, key))
    && (key in g.edges ==> EdgeFrom(ops, key, g.edges[key]))
  }

  lemma NodeStep(ops: seq<Op>, g: Graph, op: Op, id: Id)
    requires NodeAt(ops, g, id) && Apply(g, op).Ok?
    ensures NodeAt(ops + [op], Apply(g, op).value, id)
  {
    var g' := Apply(g, op).value;
    assert forall n :: AddNode(n) in ops + [op] <==> AddNode(n) in ops || op == AddNode(n);
    if op.AddNode? && op.node.nodeId == id {
      assert AddNode(op.node) in ops + [op];
      if id in g.nodes {
        var before, after := g.nodes[id], g'.nodes[id];
        assert forall v :: v in after.evidence <==> v in before.evidence || v in op.node.evidence;
        var n :| AddNode(n) in ops && n.nodeId == id && n.risk == before.risk;
        assert AddNode(n) in ops + [op];
      } else {
        assert forall n | AddNode(n) in ops :: n.nodeId != id;
      }
    }
  }

  lemma EdgeStep(ops: seq<Op>, g: Graph, op: Op, key: (Id, Id))
    requires EdgeAt(ops, g, key) && Apply(g, op).Ok?
    ensures EdgeAt(ops + [op], Apply(g, op).value, key)
  {
    var g' := Apply(g, op).value;
    assert forall e :: AddEdge(e) in ops + [op] <==> AddEdge(e) in ops || op == AddEdge(e);
    if op.AddEdge? && (op.edge.source, op.edge.target) == key {
      assert AddEdge(op.edge) in ops + [op];
      if key in g.edges {
        var before, after := g.edges[key], g'.edges[key];
        assert forall v :: v in after.evidence <==> v in before.evidence || v in op.edge.evidence;
        var e :| AddEdge(e) in ops && (e.source, e.target) == key && e.risk == before.risk;
        assert AddEdge(e) in ops + [op];
      } else {
        assert forall e | AddEdge(e) in ops :: (e.source, e.target) != key;
      }
    }
  }

  /** Merging keeps the highest risk and the union of evidence under every key. */
  lemma {:induction false} RunSummarises(ops: seq<Op>, id: Id, key: (Id, Id))
    requires Run(ops).Ok?
    ensures NodeAt(ops, Run(ops).value, id) && EdgeAt(ops, Run(ops).value, key)
  {
    if ops != [] {
      var before := ops[..|ops| - 1];
      RunSummarises(before, id, key);
      NodeStep(before, Run(before).value, ops[|ops| - 1], id);
      EdgeStep(before, Run(before).value, ops[|ops| - 1], key);
      assert ops == before + [ops[|ops| - 1]];
    }
  }

  // ----- The order in which merges combine -----

  /** The nodes added under `id`, in order. */
  ghost function NodesUnder(ops: seq<Op>, id: Id): seq<Node> {
    if ops == [] then []
    else
      var op := ops[|ops| - 1];
      NodesUnder(ops[..|ops| - 1], id) + if op.AddNode? && op.node.nodeId == id then [op.node] else []
  }

  ghost function EdgesUnder(ops: seq<Op>, key: (Id, Id)): seq<Edge> {
    if ops == [] then []
    else
      var op := ops[|ops| - 1];
      EdgesUnder(ops[..|ops| - 1], key)
        + if op.AddEdge? && (op.edge.source, op.edge.target) == key then [op.edge] else []
  }

  ghost function AllNodeEvidence(nodes: seq<Node>): seq<string> {
    if nodes == [] then [] else AllNodeEvidence(nodes[..|nodes| - 1]) + nodes[|nodes| - 1].evidence
  }

  ghost function AllEdgeEvidence(edges: seq<Edge>): seq<string> {
    if edges == [] then [] else AllEdgeEvidence(edges[..|edges| - 1]) + edges[|edges| - 1].evidence
  }

  /** A node is the first one added under its id, with all evidence in order, each once, if there were more. */
  ghost predicate NodeInOrder(g: Graph, id: Id, nodes: seq<Node>) {
    && (id in g.nodes <==> nodes != [])
    && (nodes != [] ==> g.nodes[id] == nodes[0].(risk := g.nodes[id].risk, evidence :=
          if |nodes| == 1 then nodes[0].evidence else Deduplicate(AllNodeEvidence(nodes))))
  }

  ghost predicate EdgeInOrder(g: Graph, key: (Id, Id), edges: seq<Edge>) {
    && (key in g.edges <==> edges != [])
    && (edges != [] ==> g.edges[key] == edges[0].(risk := g.edges[key].risk, evidence :=
          if |edges| == 1 then edges[0].evidence else Deduplicate(AllEdgeEvidence(edges))))
  }

  lemma NodeMergedInOrder(g: Graph, id: Id, nodes: seq<Node>, n: Node)
    requires NodeInOrder(g, id, nodes) && n.nodeId == id && Apply(g, AddNode(n)).Ok?
    ensures NodeInOrder(Apply(g, AddNode(n)).value, id, nodes + [n])
  {
    hide Deduplicate, NodeValid;
    assert (nodes + [n])[..|nodes|] == nodes;
    if |nodes| == 1 {
      assert nodes[..0] == [];
      assert AllNodeEvidence(nodes) == nodes[0].evidence;
    } else if nodes != [] {
      DeduplicateTwice(AllNodeEvidence(nodes), n.evidence);
    }
  }

  lemma EdgeMergedInOrder(g: Graph, key: (Id, Id), edges: seq<Edge>, e: Edge)
    requires EdgeInOrder(g, key, edges) && (e.source, e.target) == key && Apply(g, AddEdge(e)).Ok?
    ensures EdgeInOrder(Apply(g, AddEdge(e)).value, key, edges + [e])
  {
    hide Deduplicate, EdgeValid;
    assert (edges + [e])[..|edges|] == edges;
    if |edges| == 1 {
      assert edges[..0] == [];
      assert AllEdgeEvidence(edges) == edges[0].evidence;
    } else if edges != [] {
      DeduplicateTwice(AllEdgeEvidence(edges), e.evidence);
    }
  }

  lemma OtherKept(g: Graph, op: Op, id: Id, key: (Id, Id))
    requires Apply(g, op).Ok?
    ensures !(op.AddNode? && op.node.nodeId == id) ==>
      forall nodes :: NodeInOrder(g, id, nodes) ==> NodeInOrder(Apply(g, op).value, id, nodes)
    ensures !(op.AddEdge? && (op.edge.source, op.edge.target) == key) ==>
      forall edges :: EdgeInOrder(g, key, edges) ==> EdgeInOrder(Apply(g, op).value, key, edges)
  {
    hide Deduplicate, NodeValid, EdgeValid, MergeNode, MergeEdge;
  }

  /** A merged node or edge is the first of those added under its key, label and kind included, and lists all
      their evidence in order. */
  lemma {:induction false} MergesInOrder(ops: seq<Op>, id: Id, key: (Id, Id))
    requires Run(ops).Ok?
    ensures NodeInOrder(Run(ops).value, id, NodesUnder(ops, id))
    ensures EdgeInOrder(Run(ops).value, key, EdgesUnder(ops, key))
  {
    hide NodeInOrder, EdgeInOrder, Apply;
    if ops != [] {
      var before, op := ops[..|ops| - 1], ops[|ops| - 1];
      var g := Run(before).value;
      MergesInOrder(before, id, key);
      OtherKept(g, op, id, key);
      if op.AddNode? && op.node.nodeId == id {
        NodeMergedInOrder(g, id, NodesUnder(before, id), op.node);
      }
      if op.AddEdge? && (op.edge.source, op.edge.target) == key {
        EdgeMergedInOrder(g, key, EdgesUnder(before, key), op.edge);
      }
      assert NodesUnder(before, id) + [] == NodesUnder(before, id);
      assert EdgesUnder(before, key) + [] == EdgesUnder(before, key);
    } else {
      NothingMerged(id, key);
    }
  }

  lemma NothingMerged(id: Id, key: (Id, Id))
    ensures NodeInOrder(Graph(map[], map[]), id, []) && EdgeInOrder(Graph(map[], map[]), key, [])
  {}

  // ----- The projected graph -----

  predicate Valid(op: Op) {
    match op
    case AddNode(n) => NodeValid(n)
    case AddEdge(e) => EdgeValid(e)
  }

  /** Layered edges never clash, so only an invalid contract can stop a run. */
  lemma {:induction false} RunOutcome(ops: seq<Op>)
    requires forall e | AddEdge(e) in ops :: Layered(e)
    ensures Run(ops).Ok? <==> forall op | op in ops :: Valid(op)
    ensures Run(ops).Err? ==> Run(ops).failure == InvalidContract
  {
    hide Layered, Valid;
    if ops != [] {
      var n := |ops| - 1;
      var op := ops[n];
      assert ops == ops[..n] + [op];
      assert (forall p | p in ops :: Valid(p)) <==> (forall p | p in ops[..n] :: Valid(p)) && Valid(op);
      RunOutcome(ops[..n]);
      if Run(ops[..n]).Ok? {
        LayeredStep(ops[..n], op);
      }
    }
  }

  lemma LayeredStep(ops: seq<Op>, op: Op)
    requires Run(ops).Ok? && forall e | AddEdge(e) in ops + [op] :: Layered(e)
    ensures Apply(Run(ops).value, op).Ok? <==> Valid(op)
    ensures !Valid(op) ==> Apply(Run(ops).value, op) == Err(InvalidContract)
  {
    hide Layered, Run;
    if op.AddEdge? {
      var e := op.edge;
      var key := (e.source, e.target);
      RunSummarises(ops, e.source, key);
      if key in Run(ops).value.edges {
        var f :| AddEdge(f) in ops && (f.source, f.target) == key;
        assert AddEdge(f) in ops + [op] && AddEdge(e) in ops + [op];
        SameEndsSameRelationship(e, f);
      }
    }
  }

  lemma SameEndsSameRelationship(e: Edge, f: Edge)
    requires Layered(e) && Layered(f) && e.source == f.source && e.target == f.target
    ensures e.relationship == f.relationship
  {}

  predicate Fits(kind: Kind, name: string, caption: string) {
    |NodeId(kind, name)| <= TEXT_LIMIT && 1 <= |caption| <= TEXT_LIMIT
  }

  predicate DetectionFits(d: Detection) {
    && Fits(DetectionNode, d.detectionId, d.title)
    && forall t | t in d.techniques :: Fits(MitreNode, t.techniqueId, t.Caption())
  }

  /** Every record that becomes a node has an id and a label of admissible length, and alerts and cases
      list few enough references.  Observations of unknown assets become none. */
  predicate RecordsFit(r: Records) {
    && (forall a | a in r.assets :: Fits(AssetNode, a.assetId, a.hostname))
    && (forall o | o in r.observations && Kept(AssetIds(r), o) :: Fits(IntegrityNode, o.observationId, o.Caption()))
    && (forall d | d in r.detections :: DetectionFits(d))
    && (forall a | a in r.alerts :: Fits(AlertNode, a.alertId, a.title) && |a.detectionIds| < EVIDENCE_LIMIT)
    && (forall c | c in r.cases :: Fits(CaseNode, c.caseId, c.title) && |c.alertIds| < EVIDENCE_LIMIT)
  }

  lemma DetectionNodesValid(tenant: string, assetIds: set<Id>, index: map<string, Id>, d: Detection)
    ensures (forall n | AddNode(n) in DetectionOps(tenant, assetIds, index, d) :: NodeValid(n)) <==> DetectionFits(d)
    ensures forall n | AddNode(n) in DetectionOps(tenant, assetIds, index, d) :: n.tenant == tenant
  {
    hide Fits, NodeValid;
    var ops := (t: Technique) => TechniqueOps(tenant, d, t);
    var head := DetectionNodeOps(tenant, d)[0].node;
    NodeValidIsFits(DetectionNode, d.detectionId, d.title, head);
    assert AddNode(head) in DetectionOps(tenant, assetIds, index, d);
    forall n | AddNode(n) in DetectionOps(tenant, assetIds, index, d)
      ensures n == head || exists t :: t in d.techniques && n == TechniqueOps(tenant, d, t)[0].node
      ensures n.tenant == tenant
    {
      FlatMapMembers(ops, d.techniques, AddNode(n));
    }
    forall t | t in d.techniques
      ensures AddNode(TechniqueOps(tenant, d, t)[0].node) in DetectionOps(tenant, assetIds, index, d)
      ensures NodeValid(TechniqueOps(tenant, d, t)[0].node) <==> Fits(MitreNode, t.techniqueId, t.Caption())
    {
      FlatMapMembers(ops, d.techniques, ops(t)[0]);
      NodeValidIsFits(MitreNode, t.techniqueId, t.Caption(), TechniqueOps(tenant, d, t)[0].node);
    }
  }

  lemma NodeValidIsFits(kind: Kind, name: string, caption: string, n: Node)
    requires n.nodeId == NodeId(kind, name) && n.caption == caption && n.risk <= RISK_LIMIT
    ensures NodeValid(n) <==> Fits(kind, name, caption) && |n.evidence| <= EVIDENCE_LIMIT
  {}

  lemma AlertNodeOnly(tenant: string, detectionIds: set<Id>, a: Alert, n: Node)
    ensures AddNode(n) in AlertOps(tenant, detectionIds, a) <==> n == AlertNodeOps(tenant, a)[0].node
  {
    FlatMapMembers(d => AlertEdgeOps(detectionIds, a, d), a.detectionIds, AddNode(n));
  }

  lemma CaseNodeOnly(tenant: string, alertIds: set<Id>, c: Case, n: Node)
    ensures AddNode(n) in CaseOps(tenant, alertIds, c) <==> n == CaseNodeOps(tenant, c)[0].node
  {
    FlatMapMembers(a => CaseEdgeOps(alertIds, c, a), c.alertIds, AddNode(n));
  }

  lemma NodeFits(tenant: string, r: Records, n: Node)
    requires AddNode(n) in OpsOf(tenant, r)
    ensures n.tenant == tenant
    ensures RecordsFit(r) ==> NodeValid(n)
  {
    hide OpsOf, DetectionOps, DetectionFits, AlertOps, CaseOps, IntegrityIndex;
    var index := IntegrityIndex(AssetIds(r), r.observations);
    OpsOfMembers(tenant, r, AddNode(n));
    if d :| d in r.detections && AddNode(n) in DetectionOps(tenant, AssetIds(r), index, d) {
      DetectionNodesValid(tenant, AssetIds(r), index, d);
    } else if a :| a in r.alerts && AddNode(n) in AlertOps(tenant, DetectionIds(r), a) {
      AlertNodeOnly(tenant, DetectionIds(r), a, n);
    } else if c :| c in r.cases && AddNode(n) in CaseOps(tenant, AlertIds(r), c) {
      CaseNodeOnly(tenant, AlertIds(r), c, n);
    }
  }

  /** Valid nodes need records that fit. */
  lemma ValidNodesFit(tenant: string, r: Records)
    requires forall n | AddNode(n) in OpsOf(tenant, r) :: NodeValid(n)
    ensures RecordsFit(r)
  {
    hide OpsOf, DetectionOps, DetectionFits, AlertOps, CaseOps, IntegrityIndex;
    var index := IntegrityIndex(AssetIds(r), r.observations);
    forall a | a in r.assets ensures Fits(AssetNode, a.assetId, a.hostname) {
      OpsOfMembers(tenant, r, AssetOps(tenant, a)[0]);
    }
    forall o | o in r.observations && Kept(AssetIds(r), o) ensures Fits(IntegrityNode, o.observationId, o.Caption()) {
      OpsOfMembers(tenant, r, ObservationOps(tenant, AssetIds(r), o)[0]);
    }
    forall d | d in r.detections ensures DetectionFits(d) {
      forall n | AddNode(n) in DetectionOps(tenant, AssetIds(r), index, d) ensures NodeValid(n) {
        DetectionOpAdded(tenant, r, d, AddNode(n));
      }
      DetectionNodesValid(tenant, AssetIds(r), index, d);
    }
    forall a | a in r.alerts ensures Fits(AlertNode, a.alertId, a.title) && |a.detectionIds| < EVIDENCE_LIMIT {
      var n := AlertNodeOps(tenant, a)[0].node;
      AlertNodeOnly(tenant, DetectionIds(r), a, n);
      OpsOfMembers(tenant, r, AddNode(n));
    }
    forall c | c in r.cases ensures Fits(CaseNode, c.caseId, c.title) && |c.alertIds| < EVIDENCE_LIMIT {
      var n := CaseNodeOps(tenant, c)[0].node;
      CaseNodeOnly(tenant, AlertIds(r), c, n);
      OpsOfMembers(tenant, r, AddNode(n));
    }
  }

  /** An edge of the projection cites one or two records. */
  lemma EdgeBounds(tenant: string, r: Records, e: Edge)
    requires AddEdge(e) in OpsOf(tenant, r)
    ensures 1 <= |e.evidence| <= 2 && e.risk <= RISK_LIMIT
  {
    hide OpsOf, IntegrityIndex;
    var index := IntegrityIndex(AssetIds(r), r.observations);
    OpsOfMembers(tenant, r, AddEdge(e));
    if d :| d in r.detections && AddEdge(e) in DetectionOps(tenant, AssetIds(r), index, d) {
      FlatMapMembers(t => TechniqueOps(tenant, d, t), d.techniques, AddEdge(e));
    } else if a :| a in r.alerts && AddEdge(e) in AlertOps(tenant, DetectionIds(r), a) {
      FlatMapMembers(d => AlertEdgeOps(DetectionIds(r), a, d), a.detectionIds, AddEdge(e));
    } else if c :| c in r.cases && AddEdge(e) in CaseOps(tenant, AlertIds(r), c) {
      FlatMapMembers(a => CaseEdgeOps(AlertIds(r), c, a), c.alertIds, AddEdge(e));
    }
  }

  /** An edge is as valid as the nodes it joins. */
  lemma EdgesFit(tenant: string, r: Records, e: Edge)
    requires AddEdge(e) in OpsOf(tenant, r) && forall n | AddNode(n) in OpsOf(tenant, r) :: NodeValid(n)
    ensures EdgeValid(e)
  {
    hide OpsOf;
    EdgesGood(tenant, r, e);
    EdgeBounds(tenant, r, e);
  }

  lemma OpsValidExactly(tenant: string, r: Records)
    ensures (forall op | op in OpsOf(tenant, r) :: Valid(op)) <==> RecordsFit(r)
  {
    hide OpsOf, RecordsFit, NodeValid, EdgeValid;
    if forall op | op in OpsOf(tenant, r) :: Valid(op) {
      assert forall n | AddNode(n) in OpsOf(tenant, r) :: Valid(AddNode(n));
      ValidNodesFit(tenant, r);
    }
    if RecordsFit(r) {
      forall n | AddNode(n) in OpsOf(tenant, r) ensures NodeValid(n) {
        NodeFits(tenant, r, n);
      }
      forall op | op in OpsOf(tenant, r) ensures Valid(op) {
        if op.AddEdge? {
          EdgesFit(tenant, r, op.edge);
        }
      }
    }
  }

  lemma OwnedStep(tenant: string, g: Graph, op: Op, id: Id)
    requires Apply(g, op).Ok? && id in Apply(g, op).value.nodes && (op.AddNode? ==> op.node.tenant == tenant)
    requires id in g.nodes ==> g.nodes[id].tenant == tenant
    ensures Apply(g, op).value.nodes[id].tenant == tenant
  {
    hide NodeValid, EdgeValid, Deduplicate, Max;
  }

  lemma {:induction false} NodesOwned(tenant: string, ops: seq<Op>, id: Id)
    requires forall n | AddNode(n) in ops :: n.tenant == tenant
    requires Run(ops).Ok? && id in Run(ops).value.nodes
    ensures Run(ops).value.nodes[id].tenant == tenant
  {
    hide Apply;
    if ops != [] {
      var before := ops[..|ops| - 1];
      assert ops == before + [ops[|ops| - 1]];
      if id in Run(before).value.nodes {
        NodesOwned(tenant, before, id);
      }
      OwnedStep(tenant, Run(before).value, ops[|ops| - 1], id);
    }
  }

  /** A projection fails exactly on foreign records, or on a record that makes an invalid node: one with
      an overlong id, an empty or overlong label, or too many references.  It never fails on an edge. */
  lemma ProjectionOutcome(tenant: string, r: Records)
    ensures Projected(tenant, r).Ok? <==> OneTenant(tenant, r) && RecordsFit(r)
    ensures Projected(tenant, r).Err? ==>
      Projected(tenant, r).failure == if OneTenant(tenant, r) then InvalidContract else CrossTenant
  {
    hide OpsOf, RecordsFit, Layered, Valid;
    forall e | AddEdge(e) in OpsOf(tenant, r) ensures Layered(e) {
      EdgesGood(tenant, r, e);
    }
    RunOutcome(OpsOf(tenant, r));
    OpsValidExactly(tenant, r);
  }

  /** Every projected edge descends the layers, and both its ends are projected nodes. */
  lemma ProjectedLayers(tenant: string, r: Records, key: (Id, Id))
    requires Projected(tenant, r).Ok? && key in Projected(tenant, r).value.edges
    ensures var g := Projected(tenant, r).value;
      && Layered(g.edges[key]) && (g.edges[key].source, g.edges[key].target) == key
      && key.0 in g.nodes && key.1 in g.nodes
      && Rank(KindOf(key.0).value) > Rank(KindOf(key.1).value)
  {
    hide OpsOf, Run, KindOf, Rank, RelationshipBetween;
    var ops, g := OpsOf(tenant, r), Projected(tenant, r).value;
    RunSummarises(ops, key.0, key);
    RunSummarises(ops, key.1, key);
    var e :| AddEdge(e) in ops && (e.source, e.target) == key;
    EdgesGood(tenant, r, e);
    assert e.relationship == g.edges[key].relationship;
    LayeredDescends(e);
  }

  lemma LayeredDescends(e: Edge)
    requires Layered(e)
    ensures KindOf(e.source).Some? && KindOf(e.target).Some?
      && Rank(KindOf(e.source).value) > Rank(KindOf(e.target).value)
  {
    hide KindOf;
  }

  // ----- Which nodes and edges are projected -----

  ghost predicate KnownAsset(r: Records, assetId: string) {
    exists a :: a in r.assets && a.assetId == assetId
  }

  ghost predicate KnownDetection(r: Records, detectionId: string) {
    exists d :: d in r.detections && d.detectionId == detectionId
  }

  ghost predicate KnownAlert(r: Records, alertId: string) {
    exists a :: a in r.alerts && a.alertId == alertId
  }

  /** `os[i]` is the last observation of a known asset that claims the source event `e`. */
  ghost predicate LastClaim(r: Records, e: string, i: nat) {
    && i < |r.observations| && r.observations[i].sourceEventId == e && KnownAsset(r, r.observations[i].assetId)
    && forall j | i < j < |r.observations| && r.observations[j].sourceEventId == e ::
         !KnownAsset(r, r.observations[j].assetId)
  }

  ghost predicate ObservationEdge(r: Records, o: Observation, key: (Id, Id)) {
    && o in r.observations && KnownAsset(r, o.assetId)
    && key == ("integrity:" + o.observationId, "asset:" + o.assetId)
  }

  ghost predicate DetectionAssetEdge(r: Records, d: Detection, key: (Id, Id)) {
    && d in r.detections && d.assetId.Some? && KnownAsset(r, d.assetId.value)
    && key == ("detection:" + d.detectionId, "asset:" + d.assetId.value)
  }

  ghost predicate DetectionIntegrityEdge(r: Records, d: Detection, i: nat, key: (Id, Id)) {
    && d in r.detections && LastClaim(r, d.eventId, i)
    && key == ("detection:" + d.detectionId, "integrity:" + r.observations[i].observationId)
  }

  ghost predicate TechniqueEdge(r: Records, d: Detection, t: Technique, key: (Id, Id)) {
    && d in r.detections && t in d.techniques
    && key == ("detection:" + d.detectionId, "mitre:" + t.techniqueId)
  }

  ghost predicate AlertEdge(r: Records, a: Alert, id: string, key: (Id, Id)) {
    && a in r.alerts && id in a.detectionIds && KnownDetection(r, id)
    && key == ("alert:" + a.alertId, "detection:" + id)
  }

  ghost predicate CaseEdge(r: Records, c: Case, id: string, key: (Id, Id)) {
    && c in r.cases && id in c.alertIds && KnownAlert(r, id)
    && key == ("case:" + c.caseId, "alert:" + id)
  }

  /** The records call for an edge. */
  ghost predicate EdgeDrawn(r: Records, key: (Id, Id)) {
    || (exists o :: ObservationEdge(r, o, key))
    || (exists d :: DetectionAssetEdge(r, d, key))
    || (exists d, i: nat :: DetectionIntegrityEdge(r, d, i, key))
    || (exists d, t :: TechniqueEdge(r, d, t, key))
    || (exists a, id :: AlertEdge(r, a, id, key))
    || (exists c, id :: CaseEdge(r, c, id, key))
  }

  /** The records call for a node `id`. */
  ghost predicate NodeDrawn(r: Records, id: Id) {
    || (exists a :: a in r.assets && id == "asset:" + a.assetId)
    || (exists o :: o in r.observations && KnownAsset(r, o.assetId) && id == "integrity:" + o.observationId)
    || (exists d :: d in r.detections && id == "detection:" + d.detectionId)
    || (exists d, t :: d in r.detections && t in d.techniques && id == "mitre:" + t.techniqueId)
    || (exists a :: a in r.alerts && id == "alert:" + a.alertId)
    || (exists c :: c in r.cases && id == "case:" + c.caseId)
  }

  lemma KnownExactly(r: Records, name: string)
    ensures NodeId(AssetNode, name) in AssetIds(r) <==> KnownAsset(r, name)
    ensures NodeId(DetectionNode, name) in DetectionIds(r) <==> KnownDetection(r, name)
    ensures NodeId(AlertNode, name) in AlertIds(r) <==> KnownAlert(r, name)
  {
    hide NodeId;
    forall kind, other ensures NodeId(kind, other) == NodeId(kind, name) ==> other == name {
      NodeIdInjective(kind, other, name);
    }
  }

  lemma NodeIdInjective(kind: Kind, a: string, b: string)
    ensures NodeId(kind, a) == NodeId(kind, b) ==> a == b
  {
    assert NodeId(kind, a)[|Prefix(kind)|..] == a && NodeId(kind, b)[|Prefix(kind)|..] == b;
  }

  lemma ClaimStep(before: Records, now: Records, o: Observation, e: string)
    requires now == before.(observations := before.observations + [o])
    ensures o.sourceEventId == e && KnownAsset(now, o.assetId) ==> LastClaim(now, e, |before.observations|)
    ensures !(o.sourceEventId == e && KnownAsset(now, o.assetId)) ==>
      forall i: nat :: LastClaim(before, e, i) <==> LastClaim(now, e, i)
  {
    assert forall x :: KnownAsset(before, x) == KnownAsset(now, x);
    hide KnownAsset;
    assert forall i | 0 <= i < |before.observations| :: now.observations[i] == before.observations[i];
  }

  /** The index leads each claimed event to the observation that claims it last. */
  ghost predicate IndexAt(index: map<string, Id>, r: Records, e: string) {
    && (e in index ==> exists i: nat :: LastClaim(r, e, i))
    && (forall i: nat | LastClaim(r, e, i) ::
          e in index && index[e] == "integrity:" + r.observations[i].observationId)
  }

  lemma {:induction false} IndexIsLastClaim(r: Records, n: nat, e: string)
    requires n <= |r.observations|
    ensures IndexAt(IntegrityIndex(AssetIds(r), r.observations[..n]), r.(observations := r.observations[..n]), e)
  {
    if n > 0 {
      var m := n - 1;
      var before, now := r.(observations := r.observations[..m]), r.(observations := r.observations[..n]);
      var o := r.observations[m];
      assert r.observations[..n][..m] == r.observations[..m];
      IndexIsLastClaim(r, m, e);
      KnownExactly(r, o.assetId);
      assert forall x :: KnownAsset(before, x) == KnownAsset(now, x) == KnownAsset(r, x);
      hide KnownAsset;
      ClaimStep(before, now, o, e);
    }
  }

  lemma ClaimIsIndexed(r: Records, e: string)
    ensures IndexAt(IntegrityIndex(AssetIds(r), r.observations), r, e)
  {
    hide IndexAt;
    IndexIsLastClaim(r, |r.observations|, e);
    assert r.observations[..|r.observations|] == r.observations && r.(observations := r.observations) == r;
  }

  /** An operation of the projection is called for by the records. */
  ghost predicate OpDrawn(r: Records, op: Op) {
    match op
    case AddNode(n) => NodeDrawn(r, n.nodeId)
    case AddEdge(e) => EdgeDrawn(r, (e.source, e.target))
  }

  lemma ObservationDrawn(tenant: string, r: Records, o: Observation, op: Op)
    requires o in r.observations && op in ObservationOps(tenant, AssetIds(r), o)
    ensures OpDrawn(r, op)
  {
    KnownExactly(r, o.assetId);
    hide AssetIds, KnownAsset, Observation.Caption;
    if op.AddEdge? {
      assert ObservationEdge(r, o, (op.edge.source, op.edge.target));
    }
  }

  lemma DetectionDrawn(tenant: string, r: Records, d: Detection, op: Op)
    requires d in r.detections
    requires op in DetectionOps(tenant, AssetIds(r), IntegrityIndex(AssetIds(r), r.observations), d)
    ensures OpDrawn(r, op)
  {
    hide AssetIds, KnownAsset, IntegrityIndex, LastClaim, Technique.Caption;
    var index := IntegrityIndex(AssetIds(r), r.observations);
    FlatMapMembers(t => TechniqueOps(tenant, d, t), d.techniques, op);
    if op in DetectionAssetOps(AssetIds(r), d) {
      KnownExactly(r, d.assetId.value);
      assert DetectionAssetEdge(r, d, (op.edge.source, op.edge.target));
    } else if op in DetectionIntegrityOps(index, d) {
      ClaimIsIndexed(r, d.eventId);
      var i: nat :| LastClaim(r, d.eventId, i);
      assert DetectionIntegrityEdge(r, d, i, (op.edge.source, op.edge.target));
    } else if op !in DetectionNodeOps(tenant, d) {
      var t :| t in d.techniques && op in TechniqueOps(tenant, d, t);
      assert op.AddEdge? ==> TechniqueEdge(r, d, t, (op.edge.source, op.edge.target));
    }
  }

  lemma AlertDrawn(tenant: string, r: Records, a: Alert, op: Op)
    requires a in r.alerts && op in AlertOps(tenant, DetectionIds(r), a)
    ensures OpDrawn(r, op)
  {
    hide KnownDetection, DetectionIds;
    FlatMapMembers(d => AlertEdgeOps(DetectionIds(r), a, d), a.detectionIds, op);
    if op.AddEdge? {
      var id :| id in a.detectionIds && op in AlertEdgeOps(DetectionIds(r), a, id);
      KnownExactly(r, id);
      assert AlertEdge(r, a, id, (op.edge.source, op.edge.target));
    }
  }

  lemma CaseDrawn(tenant: string, r: Records, c: Case, op: Op)
    requires c in r.cases && op in CaseOps(tenant, AlertIds(r), c)
    ensures OpDrawn(r, op)
  {
    hide KnownAlert, AlertIds;
    FlatMapMembers(a => CaseEdgeOps(AlertIds(r), c, a), c.alertIds, op);
    if op.AddEdge? {
      var id :| id in c.alertIds && op in CaseEdgeOps(AlertIds(r), c, id);
      KnownExactly(r, id);
      assert CaseEdge(r, c, id, (op.edge.source, op.edge.target));
    }
  }

  lemma OpsAreDrawn(tenant: string, r: Records, op: Op)
    requires op in OpsOf(tenant, r)
    ensures OpDrawn(r, op)
  {
    hide ObservationOps, DetectionOps, AlertOps, CaseOps, EdgeDrawn, OpsOf, IntegrityIndex;
    var index := IntegrityIndex(AssetIds(r), r.observations);
    OpsOfMembers(tenant, r, op);
    if o :| o in r.observations && op in ObservationOps(tenant, AssetIds(r), o) {
      ObservationDrawn(tenant, r, o, op);
    } else if d :| d in r.detections && op in DetectionOps(tenant, AssetIds(r), index, d) {
      DetectionDrawn(tenant, r, d, op);
    } else if a :| a in r.alerts && op in AlertOps(tenant, DetectionIds(r), a) {
      AlertDrawn(tenant, r, a, op);
    } else if c :| c in r.cases && op in CaseOps(tenant, AlertIds(r), c) {
      CaseDrawn(tenant, r, c, op);
    }
  }

  lemma ObservationEdgeAdded(tenant: string, r: Records, o: Observation)
    requires o in r.observations && KnownAsset(r, o.assetId)
    ensures AddsEdge(OpsOf(tenant, r), ("integrity:" + o.observationId, "asset:" + o.assetId))
  {
    KnownExactly(r, o.assetId);
    var op := ObservationOps(tenant, AssetIds(r), o)[1];
    OpsOfMembers(tenant, r, op);
    hide OpsOf;
    assert AddEdge(op.edge) in OpsOf(tenant, r);
  }

  lemma DetectionAssetEdgeAdded(tenant: string, r: Records, d: Detection)
    requires d in r.detections && d.assetId.Some? && KnownAsset(r, d.assetId.value)
    ensures AddsEdge(OpsOf(tenant, r), ("detection:" + d.detectionId, "asset:" + d.assetId.value))
  {
    hide OpsOf, IntegrityIndex;
    KnownExactly(r, d.assetId.value);
    var op := DetectionAssetOps(AssetIds(r), d)[0];
    DetectionOpAdded(tenant, r, d, op);
    assert AddEdge(op.edge) in OpsOf(tenant, r);
  }

  lemma DetectionIntegrityEdgeAdded(tenant: string, r: Records, d: Detection, i: nat, key: (Id, Id))
    requires DetectionIntegrityEdge(r, d, i, key)
    ensures AddsEdge(OpsOf(tenant, r), key)
  {
    hide OpsOf, IntegrityIndex;
    ClaimIsIndexed(r, d.eventId);
    var op := DetectionIntegrityOps(IntegrityIndex(AssetIds(r), r.observations), d)[0];
    DetectionOpAdded(tenant, r, d, op);
    assert AddEdge(op.edge) in OpsOf(tenant, r);
  }

  lemma TechniqueAdded(tenant: string, r: Records, d: Detection, t: Technique)
    requires d in r.detections && t in d.techniques
    ensures AddsEdge(OpsOf(tenant, r), ("detection:" + d.detectionId, "mitre:" + t.techniqueId))
    ensures AddsNode(OpsOf(tenant, r), "mitre:" + t.techniqueId)
  {
    hide OpsOf, IntegrityIndex, Technique.Caption;
    var ops := (t: Technique) => TechniqueOps(tenant, d, t);
    FlatMapMembers(ops, d.techniques, ops(t)[0]);
    FlatMapMembers(ops, d.techniques, ops(t)[1]);
    var node, edge := TechniqueOps(tenant, d, t)[0], TechniqueOps(tenant, d, t)[1];
    DetectionOpAdded(tenant, r, d, node);
    DetectionOpAdded(tenant, r, d, edge);
    assert AddNode(node.node) in OpsOf(tenant, r) && AddEdge(edge.edge) in OpsOf(tenant, r);
  }

  lemma AlertEdgeAdded(tenant: string, r: Records, a: Alert, id: string)
    requires a in r.alerts && id in a.detectionIds && KnownDetection(r, id)
    ensures AddsEdge(OpsOf(tenant, r), ("alert:" + a.alertId, "detection:" + id))
  {
    hide OpsOf;
    KnownExactly(r, id);
    var op := AlertEdgeOps(DetectionIds(r), a, id)[0];
    FlatMapMembers(d => AlertEdgeOps(DetectionIds(r), a, d), a.detectionIds, op);
    OpsOfMembers(tenant, r, op);
    assert AddEdge(op.edge) in OpsOf(tenant, r);
  }

  lemma CaseEdgeAdded(tenant: string, r: Records, c: Case, id: string)
    requires c in r.cases && id in c.alertIds && KnownAlert(r, id)
    ensures AddsEdge(OpsOf(tenant, r), ("case:" + c.caseId, "alert:" + id))
  {
    hide OpsOf;
    KnownExactly(r, id);
    var op := CaseEdgeOps(AlertIds(r), c, id)[0];
    FlatMapMembers(a => CaseEdgeOps(AlertIds(r), c, a), c.alertIds, op);
    OpsOfMembers(tenant, r, op);
    assert AddEdge(op.edge) in OpsOf(tenant, r);
  }

  lemma DrawnEdgeIsAdded(tenant: string, r: Records, key: (Id, Id))
    requires EdgeDrawn(r, key)
    ensures AddsEdge(OpsOf(tenant, r), key)
  {
    hide AddsEdge, OpsOf, KnownAsset, KnownDetection, KnownAlert, LastClaim;
    if o :| ObservationEdge(r, o, key) {
      ObservationEdgeAdded(tenant, r, o);
    } else if d :| DetectionAssetEdge(r, d, key) {
      DetectionAssetEdgeAdded(tenant, r, d);
    } else if d, i: nat :| DetectionIntegrityEdge(r, d, i, key) {
      DetectionIntegrityEdgeAdded(tenant, r, d, i, key);
    } else if d, t :| TechniqueEdge(r, d, t, key) {
      TechniqueAdded(tenant, r, d, t);
    } else if a, id :| AlertEdge(r, a, id, key) {
      AlertEdgeAdded(tenant, r, a, id);
    } else {
      var c, id :| CaseEdge(r, c, id, key);
      CaseEdgeAdded(tenant, r, c, id);
    }
  }

  lemma DrawnNodeIsAdded(tenant: string, r: Records, id: Id)
    requires NodeDrawn(r, id)
    ensures AddsNode(OpsOf(tenant, r), id)
  {
    hide AddsNode, AddsEdge, OpsOf, AssetIds;
    if a :| a in r.assets && id == "asset:" + a.assetId {
      assert KnownAsset(r, a.assetId);
      KnownExactly(r, a.assetId);
      AssetAdded(tenant, r, id);
    } else if o :| o in r.observations && KnownAsset(r, o.assetId) && id == "integrity:" + o.observationId {
      KnownExactly(r, o.assetId);
      ObservationAdded(tenant, r, o);
    } else if d :| d in r.detections && id == "detection:" + d.detectionId {
      DetectionAdded(tenant, r, d);
    } else if d, t :| d in r.detections && t in d.techniques && id == "mitre:" + t.techniqueId {
      TechniqueAdded(tenant, r, d, t);
    } else if a :| a in r.alerts && id == "alert:" + a.alertId {
      AlertAdded(tenant, r, a);
    } else {
      var c :| c in r.cases && id == "case:" + c.caseId;
      CaseAdded(tenant, r, c);
    }
  }

  /** The projected graph has exactly the nodes and edges that the records call for. */
  lemma ProjectedExactly(tenant: string, r: Records, id: Id, key: (Id, Id))
    requires Projected(tenant, r).Ok?
    ensures id in Projected(tenant, r).value.nodes <==> NodeDrawn(r, id)
    ensures key in Projected(tenant, r).value.edges <==> EdgeDrawn(r, key)
  {
    hide OpsOf, Run, NodeDrawn, EdgeDrawn;
    var ops := OpsOf(tenant, r);
    RunSummarises(ops, id, key);
    if AddsNode(ops, id) {
      var n :| AddNode(n) in ops && n.nodeId == id;
      OpsAreDrawn(tenant, r, AddNode(n));
    }
    if AddsEdge(ops, key) {
      var e :| AddEdge(e) in ops && (e.source, e.target) == key;
      OpsAreDrawn(tenant, r, AddEdge(e));
    }
    if NodeDrawn(r, id) {
      DrawnNodeIsAdded(tenant, r, id);
    }
    if EdgeDrawn(r, key) {
      DrawnEdgeIsAdded(tenant, r, key);
    }
  }

  // ----- Order of the records -----

  /** The two inputs hold the same records, in any order and with any repetition. */
  ghost predicate SameRecords(r: Records, s: Records) {
    && (forall x :: x in r.assets <==> x in s.assets)
    && (forall x :: x in r.observations <==> x in s.observations)
    && (forall x :: x in r.detections <==> x in s.detections)
    && (forall x :: x in r.alerts <==> x in s.alerts)
    && (forall x :: x in r.cases <==> x in s.cases)
  }

  /** Two projections agree on every node's risk and evidence set, and on every edge's relationship,
      risk and evidence set; or both fail alike. */
  ghost predicate SameView(x: Outcome<Graph>, y: Outcome<Graph>) {
    match (x, y)
    case (Ok(g), Ok(h)) =>
      && (forall id :: id in g.nodes <==> id in h.nodes)
      && (forall id | id in g.nodes :: SameNode(g.nodes[id], h.nodes[id]))
      && (forall key :: key in g.edges <==> key in h.edges)
      && (forall key | key in g.edges :: SameEdge(g.edges[key], h.edges[key]))
    case (Err(f), Err(k)) => f == k
    case _ => false
  }

  ghost predicate SameNode(a: Node, b: Node) {
    a.risk == b.risk && forall v :: v in a.evidence <==> v in b.evidence
  }

  ghost predicate SameEdge(a: Edge, b: Edge) {
    a.relationship == b.relationship && a.risk == b.risk && forall v :: v in a.evidence <==> v in b.evidence
  }

  /** No detection's event is claimed by two different kept observations. */
  ghost predicate Unambiguous(r: Records) {
    forall d, o, p | d in r.detections && o in r.observations && p in r.observations ::
      && Kept(AssetIds(r), o) && o.sourceEventId == d.eventId
      && Kept(AssetIds(r), p) && p.sourceEventId == d.eventId
      ==> o.observationId == p.observationId
  }

  lemma {:induction false} IndexDomain(assetIds: set<Id>, os: seq<Observation>, e: string)
    ensures e in IntegrityIndex(assetIds, os) <==> exists o :: o in os && Kept(assetIds, o) && o.sourceEventId == e
  {
    if os != [] {
      IndexDomain(assetIds, os[..|os| - 1], e);
      assert os == os[..|os| - 1] + [os[|os| - 1]];
    }
  }

  lemma SameIndex(r: Records, s: Records, d: Detection)
    requires SameRecords(r, s) && Unambiguous(r) && d in r.detections
    ensures AssetIds(r) == AssetIds(s)
    ensures DetectionIntegrityOps(IntegrityIndex(AssetIds(r), r.observations), d)
         == DetectionIntegrityOps(IntegrityIndex(AssetIds(s), s.observations), d)
  {
    assert AssetIds(r) == AssetIds(s);
    IndexDomain(AssetIds(r), r.observations, d.eventId);
    IndexDomain(AssetIds(s), s.observations, d.eventId);
    if d.eventId in IntegrityIndex(AssetIds(r), r.observations) {
      IndexTargets(AssetIds(r), r.observations, d.eventId);
      IndexTargets(AssetIds(s), s.observations, d.eventId);
    }
  }

  lemma SameOps(tenant: string, r: Records, s: Records, op: Op)
    requires SameRecords(r, s) && Unambiguous(r) && op in OpsOf(tenant, r)
    ensures op in OpsOf(tenant, s)
  {
    hide OpsOf, AlertOps, CaseOps, ObservationOps, Unambiguous;
    var index, index' := IntegrityIndex(AssetIds(r), r.observations), IntegrityIndex(AssetIds(s), s.observations);
    OpsOfMembers(tenant, r, op);
    OpsOfMembers(tenant, s, op);
    assert AssetIds(r) == AssetIds(s) && DetectionIds(r) == DetectionIds(s) && AlertIds(r) == AlertIds(s);
    if d :| d in r.detections && op in DetectionOps(tenant, AssetIds(r), index, d) {
      SameIndex(r, s, d);
      assert DetectionOps(tenant, AssetIds(r), index, d) == DetectionOps(tenant, AssetIds(s), index', d);
    }
  }

  lemma SameRecordsKeepAmbiguity(r: Records, s: Records)
    requires SameRecords(r, s) && Unambiguous(r)
    ensures SameRecords(s, r) && Unambiguous(s)
  {
    assert AssetIds(r) == AssetIds(s);
  }

  lemma SameKeys(ops: seq<Op>, ops': seq<Op>, g: Graph, h: Graph, id: Id, key: (Id, Id))
    requires forall op :: op in ops <==> op in ops'
    requires NodeAt(ops, g, id) && NodeAt(ops', h, id) && EdgeAt(ops, g, key) && EdgeAt(ops', h, key)
    ensures id in g.nodes <==> id in h.nodes
    ensures id in g.nodes ==> SameNode(g.nodes[id], h.nodes[id])
    ensures key in g.edges <==> key in h.edges
    ensures key in g.edges ==> SameEdge(g.edges[key], h.edges[key])
  {}

  /** When no cited source event is ambiguous, only which records there are matters. */
  lemma OrderDoesNotMatter(tenant: string, r: Records, s: Records)
    requires SameRecords(r, s) && Unambiguous(r)
    ensures SameView(Projected(tenant, r), Projected(tenant, s))
  {
    hide OpsOf, Run, SameView, Unambiguous;
    ProjectionOutcome(tenant, r);
    ProjectionOutcome(tenant, s);
    SameFailure(Projected(tenant, r), Projected(tenant, s));
    SameAdmission(tenant, r, s);
    if Projected(tenant, r).Ok? {
      SameRecordsKeepAmbiguity(r, s);
      forall op ensures op in OpsOf(tenant, r) <==> op in OpsOf(tenant, s) {
        if op in OpsOf(tenant, r) { SameOps(tenant, r, s, op); }
        if op in OpsOf(tenant, s) { SameOps(tenant, s, r, op); }
      }
      SameGraphs(OpsOf(tenant, r), OpsOf(tenant, s));
    }
  }

  lemma SameFailure(x: Outcome<Graph>, y: Outcome<Graph>)
    ensures x.Err? && x == y ==> SameView(x, y)
  {}

  lemma SameAdmission(tenant: string, r: Records, s: Records)
    requires SameRecords(r, s)
    ensures OneTenant(tenant, r) <==> OneTenant(tenant, s)
    ensures RecordsFit(r) <==> RecordsFit(s)
  {
    assert AssetIds(r) == AssetIds(s);
  }

  lemma SameGraphs(ops: seq<Op>, ops': seq<Op>)
    requires forall op :: op in ops <==> op in ops'
    requires Run(ops).Ok? && Run(ops').Ok?
    ensures SameView(Run(ops), Run(ops'))
  {
    hide NodeAt, EdgeAt, SameNode, SameEdge, Run;
    var g, h := Run(ops).value, Run(ops').value;
    forall id: Id
      ensures id in g.nodes <==> id in h.nodes
      ensures id in g.nodes ==> SameNode(g.nodes[id], h.nodes[id])
    {
      RunSummarises(ops, id, (id, id));
      RunSummarises(ops', id, (id, id));
      SameKeys(ops, ops', g, h, id, (id, id));
    }
    forall key: (Id, Id)
      ensures key in g.edges <==> key in h.edges
      ensures key in g.edges ==> SameEdge(g.edges[key], h.edges[key])
    {
      RunSummarises(ops, key.0, key);
      RunSummarises(ops', key.0, key);
      SameKeys(ops, ops', g, h, key.0, key);
    }
  }

  // ----- The ambiguous case really is order-dependent -----

  /** Identifiers the store keeps unique. */
  ghost predicate UniqueIds(r: Records) {
    && (forall d, e | d in r.detections && e in r.detections && d.detectionId == e.detectionId :: d == e)
    && (forall o, p | o in r.observations && p in r.observations && o.observationId == p.observationId :: o == p)
  }

  ghost predicate ReordersObservations(r: Records, s: Records) {
    && multiset(r.observations) == multiset(s.observations)
    && s == r.(observations := s.observations)
  }

  /** Every order of the observations gives the same view. */
  ghost predicate OrderIndependent(tenant: string, r: Records) {
    forall s, t | ReordersObservations(r, s) && ReordersObservations(r, t) ::
      SameView(Projected(tenant, s), Projected(tenant, t))
  }

  function MovedLast(r: Records, i: nat): Records
    requires i < |r.observations|
  {
    r.(observations := r.observations[..i] + r.observations[i + 1..] + [r.observations[i]])
  }

  lemma MovedLastReorders(r: Records, i: nat)
    requires i < |r.observations|
    ensures ReordersObservations(r, MovedLast(r, i))
  {
    var os := r.observations;
    assert os == os[..i] + [os[i]] + os[i + 1..];
  }

  lemma ReorderingKeepsRecords(r: Records, s: Records)
    requires ReordersObservations(r, s)
    ensures SameRecords(r, s)
  {
    forall x ensures x in r.observations <==> x in s.observations {
      assert x in r.observations <==> x in multiset(r.observations);
      assert x in s.observations <==> x in multiset(s.observations);
    }
  }

  /** Only the integrity step of a detection draws a detection-to-integrity edge. */
  lemma IntegrityEdgeOrigin(tenant: string, r: Records, e: Edge)
    requires AddEdge(e) in OpsOf(tenant, r) && e.relationship == DetectionObservedOnIntegrity
    ensures exists d ::
      && d in r.detections
      && AddEdge(e) in DetectionIntegrityOps(IntegrityIndex(AssetIds(r), r.observations), d)
  {
    hide OpsOf, IntegrityIndex, AssetIds, DetectionIds, AlertIds, Technique.Caption, Observation.Caption;
    var index := IntegrityIndex(AssetIds(r), r.observations);
    OpsOfMembers(tenant, r, AddEdge(e));
    if a :| a in r.alerts && AddEdge(e) in AlertOps(tenant, DetectionIds(r), a) {
      FlatMapMembers(d => AlertEdgeOps(DetectionIds(r), a, d), a.detectionIds, AddEdge(e));
      assert false;
    } else if c :| c in r.cases && AddEdge(e) in CaseOps(tenant, AlertIds(r), c) {
      FlatMapMembers(a => CaseEdgeOps(AlertIds(r), c, a), c.alertIds, AddEdge(e));
      assert false;
    } else {
      var d :| d in r.detections && AddEdge(e) in DetectionOps(tenant, AssetIds(r), index, d);
      FlatMapMembers(t => TechniqueOps(tenant, d, t), d.techniques, AddEdge(e));
    }
  }

  /** The key of the edge from a detection to an observation. */
  function CitationKey(d: Detection, o: Observation): (Id, Id) {
    (NodeId(DetectionNode, d.detectionId), NodeId(IntegrityNode, o.observationId))
  }

  lemma MovedLastIndex(r: Records, i: nat)
    requires i < |r.observations| && Kept(AssetIds(r), r.observations[i])
    ensures var s, o := MovedLast(r, i), r.observations[i];
      && o.sourceEventId in IntegrityIndex(AssetIds(s), s.observations)
      && IntegrityIndex(AssetIds(s), s.observations)[o.sourceEventId] == NodeId(IntegrityNode, o.observationId)
  {
    var s := MovedLast(r, i);
    var os := s.observations;
    assert os[..|os| - 1] == r.observations[..i] + r.observations[i + 1..] && os[|os| - 1] == r.observations[i];
    assert AssetIds(s) == AssetIds(r);
  }

  /** The observation moved last takes the edge of a detection that cites its event. */
  lemma LastObservationWins(tenant: string, r: Records, d: Detection, i: nat)
    requires d in r.detections && i < |r.observations|
    requires Kept(AssetIds(r), r.observations[i]) && r.observations[i].sourceEventId == d.eventId
    requires Projected(tenant, MovedLast(r, i)).Ok?
    ensures CitationKey(d, r.observations[i]) in Projected(tenant, MovedLast(r, i)).value.edges
  {
    hide OpsOf, Run;
    var s := MovedLast(r, i);
    MovedLastIndex(r, i);
    var op := DetectionIntegrityOps(IntegrityIndex(AssetIds(s), s.observations), d)[0];
    DetectionOpAdded(tenant, s, d, op);
    assert AddEdge(op.edge) in OpsOf(tenant, s);
    var key := CitationKey(d, r.observations[i]);
    RunSummarises(OpsOf(tenant, s), key.0, key);
  }

  /** Any other observation of that event loses it. */
  lemma OtherObservationLoses(tenant: string, r: Records, d: Detection, i: nat, p: Observation)
    requires UniqueIds(r) && d in r.detections && i < |r.observations| && p in r.observations
    requires Kept(AssetIds(r), r.observations[i]) && r.observations[i].sourceEventId == d.eventId
    requires p.observationId != r.observations[i].observationId
    requires Projected(tenant, MovedLast(r, i)).Ok?
    ensures CitationKey(d, p) !in Projected(tenant, MovedLast(r, i)).value.edges
  {
    hide OpsOf, Run;
    var s, key := MovedLast(r, i), CitationKey(d, p);
    MovedLastIndex(r, i);
    RunSummarises(OpsOf(tenant, s), key.0, key);
    if key in Projected(tenant, s).value.edges {
      var e :| AddEdge(e) in OpsOf(tenant, s) && (e.source, e.target) == key;
      EdgesGood(tenant, s, e);
      KindOfNodeId(DetectionNode, d.detectionId);
      KindOfNodeId(IntegrityNode, p.observationId);
      IntegrityEdgeOrigin(tenant, s, e);
      var d' :| d' in s.detections
        && AddEdge(e) in DetectionIntegrityOps(IntegrityIndex(AssetIds(s), s.observations), d');
      NodeIdInjective(DetectionNode, d.detectionId, d'.detectionId);
      NodeIdInjective(IntegrityNode, p.observationId, r.observations[i].observationId);
      assert false;
    }
  }

  /** With unique identifiers, the order of observations is irrelevant exactly when the projection fails
      or no detection's event is claimed by two different kept observations. */
  lemma OrderIndependenceExact(tenant: string, r: Records)
    requires UniqueIds(r)
    ensures OrderIndependent(tenant, r) <==> (OneTenant(tenant, r) && RecordsFit(r) ==> Unambiguous(r))
  {
    hide Projected, OneTenant, RecordsFit, UniqueIds, SameView;
    if !(OneTenant(tenant, r) && RecordsFit(r)) {
      forall s, t | ReordersObservations(r, s) && ReordersObservations(r, t)
        ensures SameView(Projected(tenant, s), Projected(tenant, t))
      {
        FailsInAnyOrder(tenant, r, s);
        FailsInAnyOrder(tenant, r, t);
        SameFailure(Projected(tenant, s), Projected(tenant, t));
      }
    } else if Unambiguous(r) {
      forall s, t | ReordersObservations(r, s) && ReordersObservations(r, t)
        ensures SameView(Projected(tenant, s), Projected(tenant, t))
      {
        ReorderingKeepsRecords(r, s);
        ReorderingKeepsRecords(r, t);
        SameRecordsKeepAmbiguity(r, s);
        OrderDoesNotMatter(tenant, s, t);
      }
    } else {
      var d, o, p :| d in r.detections && o in r.observations && p in r.observations
        && Kept(AssetIds(r), o) && o.sourceEventId == d.eventId
        && Kept(AssetIds(r), p) && p.sourceEventId == d.eventId && o.observationId != p.observationId;
      var i :| 0 <= i < |r.observations| && r.observations[i] == o;
      var j :| 0 <= j < |r.observations| && r.observations[j] == p;
      AmbiguityShows(tenant, r, d, i, j);
    }
  }

  lemma FailsInAnyOrder(tenant: string, r: Records, s: Records)
    requires ReordersObservations(r, s) && !(OneTenant(tenant, r) && RecordsFit(r))
    ensures Projected(tenant, s) == Err(if OneTenant(tenant, r) then InvalidContract else CrossTenant)
  {
    hide Projected, OneTenant, RecordsFit;
    ReorderingKeepsRecords(r, s);
    SameAdmission(tenant, r, s);
    ProjectionOutcome(tenant, s);
  }

  lemma AmbiguityShows(tenant: string, r: Records, d: Detection, i: nat, j: nat)
    requires OneTenant(tenant, r) && RecordsFit(r) && UniqueIds(r)
    requires d in r.detections && i < |r.observations| && j < |r.observations|
    requires Kept(AssetIds(r), r.observations[i]) && r.observations[i].sourceEventId == d.eventId
    requires Kept(AssetIds(r), r.observations[j]) && r.observations[j].sourceEventId == d.eventId
    requires r.observations[i].observationId != r.observations[j].observationId
    ensures !OrderIndependent(tenant, r)
  {
    hide Projected, OpsOf;
    var s, t := MovedLast(r, i), MovedLast(r, j);
    MovedLastReorders(r, i);
    MovedLastReorders(r, j);
    ReorderingKeepsRecords(r, s);
    ReorderingKeepsRecords(r, t);
    SameAdmission(tenant, r, s);
    SameAdmission(tenant, r, t);
    ProjectionOutcome(tenant, s);
    ProjectionOutcome(tenant, t);
    OtherObservationLoses(tenant, r, d, i, r.observations[j]);
    LastObservationWins(tenant, r, d, j);
    assert !SameView(Projected(tenant, s), Projected(tenant, t));
  }
}
