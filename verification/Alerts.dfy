/** The analyst alert workflow of `alert_workflow.py`: repeated evidence is folded into an active alert,
    analysts move alerts through their lifecycle, and opening a case triages an alert. */
module Alerts {
  import opened Wrappers

  datatype Status = New | Triaged | InProgress | Resolved | Closed | Suppressed

  predicate Active(s: Status) {
    s == New || s == Triaged || s == InProgress
  }

  function AllowedTransitions(s: Status): set<Status> {
    match s
    case New => {Triaged, Suppressed, Closed}
    case Triaged => {InProgress, Resolved, Closed}
    case InProgress => {Resolved, Closed}
    case Resolved => {Closed}
    case Suppressed => {Closed}
    case Closed => {}
  }

  /** The value found under `alert_suppression_window_seconds` in a detection's evidence. */
  datatype Configured = Absent | Boolean(b: bool) | Integer(n: int) | OtherJson

  /** `key` is the detection's suppression key, a digest of tenant, rule, correlation id and payload. */
  datatype Detection = Detection(id: string, tenant: string, key: string, detectedAt: int, configured: Configured)

  datatype Alert = Alert(
    id: string, tenant: string, key: string, detectionIds: seq<string>, status: Status,
    firstSeen: int, lastSeen: int, occurrences: nat, triagedBy: Option<string>, caseId: Option<string>)

  function SuppressionWindow(c: Configured, default: int): int {
    if c.Integer? && 0 <= c.n <= 86400 then c.n else default
  }

  const DEFAULT_WINDOW := 900

  // ----- Single steps -----

  /** Times are whole microseconds, windows whole seconds. */
  const SECOND: nat := 1_000_000

  function Cutoff(d: Detection, default: int): int {
    d.detectedAt - SuppressionWindow(d.configured, default) * SECOND
  }

  predicate Candidate(a: Alert, d: Detection, cutoff: int) {
    a.tenant == d.tenant && a.key == d.key && Active(a.status) && a.lastSeen >= cutoff
  }

  /** `pick` is what the query may return: a most recently seen candidate, any one of those that tie,
      and nothing only when there is no candidate. */
  predicate IsPick(rows: seq<Alert>, d: Detection, cutoff: int, pick: Option<nat>) {
    match pick
    case None => forall i | 0 <= i < |rows| :: !Candidate(rows[i], d, cutoff)
    case Some(p) =>
      && p < |rows| && Candidate(rows[p], d, cutoff)
      && forall i | 0 <= i < |rows| && Candidate(rows[i], d, cutoff) :: rows[i].lastSeen <= rows[p].lastSeen
  }

  function Opened(d: Detection, freshId: string): Alert {
    Alert(freshId, d.tenant, d.key, [d.id], New, d.detectedAt, d.detectedAt, 1, None, None)
  }

  function Absorbed(a: Alert, d: Detection): Alert {
    a.(detectionIds := a.detectionIds + [d.id], lastSeen := d.detectedAt, occurrences := a.occurrences + 1)
  }

  function Ingested(rows: seq<Alert>, d: Detection, pick: Option<nat>, freshId: string): seq<Alert>
    requires pick.Some? ==> pick.value < |rows|
  {
    match pick
    case None => rows + [Opened(d, freshId)]
    case Some(p) => if d.id in rows[p].detectionIds then rows else rows[p := Absorbed(rows[p], d)]
  }

  predicate Names(a: Alert, tenant: string, id: string) {
    a.tenant == tenant && a.id == id
  }

  function Moved(a: Alert, target: Status, actor: string, caseId: Option<string>, now: int): Alert {
    a.(status := target, lastSeen := now,
       triagedBy := if target == Triaged then Some(actor) else a.triagedBy,
       caseId := if caseId.Some? then caseId else a.caseId)
  }

  function LinkedToCase(a: Alert, caseId: string, actor: string): Alert {
    if a.status == New then a.(caseId := Some(caseId), status := Triaged, triagedBy := Some(actor))
    else a.(caseId := Some(caseId))
  }

  // ----- The service -----

  datatype Failure = NotFound | InvalidTransition
  datatype IngestResult = IngestResult(alert: Alert, created: bool, suppressed: bool)

  ghost predicate UniqueIds(rows: seq<Alert>) {
    forall i, j | 0 <= i < j < |rows| :: rows[i].id != rows[j].id
  }

  class AlertWorkflow {
    const defaultWindow: int
    var rows: seq<Alert>

    ghost predicate Valid()
      reads this
    {
      UniqueIds(rows)
    }

    constructor (defaultWindow: int)
      ensures Valid() && rows == [] && this.defaultWindow == defaultWindow
    {
      this.defaultWindow, rows := defaultWindow, [];
    }

    /** `freshId` is the generated alert id. */
    method IngestDetection(d: Detection, freshId: string) returns (result: IngestResult, ghost pick: Option<nat>)
      requires Valid() && forall i | 0 <= i < |rows| :: rows[i].id != freshId
      modifies this
      ensures Valid()
      ensures IsPick(old(rows), d, Cutoff(d, defaultWindow), pick)
      ensures rows == Ingested(old(rows), d, pick, freshId)
      ensures result.alert == if pick.None? then Opened(d, freshId) else rows[pick.value]
      ensures result.created == pick.None? && result.suppressed == pick.Some?
    {
      var window := if d.configured.Integer? && 0 <= d.configured.n <= 86400 then d.configured.n else defaultWindow;
      var cutoff := d.detectedAt - window * SECOND;
      var newest: Option<nat> := None;
      for i := 0 to |rows|
        invariant newest.Some? ==> newest.value < i
        invariant IsPick(rows[..i], d, cutoff, newest)
      {
        var a := rows[i];
        if a.tenant == d.tenant && a.key == d.key && a.status in {New, Triaged, InProgress} && a.lastSeen >= cutoff
            && (newest.None? || rows[newest.value].lastSeen < a.lastSeen) {
          newest := Some(i);
        }
      }
      assert rows[..|rows|] == rows;
      pick := newest;
      if newest.Some? {
        var row := rows[newest.value];
        if d.id !in row.detectionIds {
          row := row.(detectionIds := row.detectionIds + [d.id]);
          row := row.(occurrences := row.occurrences + 1, lastSeen := d.detectedAt);
          rows := rows[newest.value := row];
        }
        return IngestResult(rows[newest.value], false, true), pick;
      }
      var row := Alert(freshId, d.tenant, d.key, [d.id], New, d.detectedAt, d.detectedAt, 1, None, None);
      rows := rows + [row];
      result := IngestResult(row, true, false);
    }

    method Transition(tenant: string, id: string, target: Status, actor: string, caseId: Option<string>, now: int)
      returns (result: Result<Alert, Failure>)
      requires Valid()
      modifies this
      ensures Valid()
      ensures rows == Step(defaultWindow, old(rows), Action.Transition(tenant, id, target, actor, caseId, now))
      ensures result == Err(NotFound) <==> forall i | 0 <= i < |rows| :: !Names(old(rows)[i], tenant, id)
      ensures result == Err(InvalidTransition) ==> rows == old(rows)
      ensures result.Ok? <==> exists i | 0 <= i < |old(rows)| ::
        Names(old(rows)[i], tenant, id) && target in AllowedTransitions(old(rows)[i].status)
      ensures result.Ok? ==> result.value in rows && Names(result.value, tenant, id) && result.value.status == target
    {
      for i := 0 to |rows|
        invariant rows == old(rows)
        invariant forall j | 0 <= j < i :: !Names(rows[j], tenant, id)
      {
        if rows[i].tenant == tenant && rows[i].id == id {
          if target !in AllowedTransitions(rows[i].status) {
            return Err(InvalidTransition);
          }
          var row := rows[i].(status := target, lastSeen := now);
          if target == Triaged {
            row := row.(triagedBy := Some(actor));
          }
          if caseId.Some? {
            row := row.(caseId := caseId);
          }
          rows := rows[i := row];
          assert rows[i] == row;
          return Ok(row);
        }
      }
      result := Err(NotFound);
    }
  }

  // ----- Runs -----

  datatype Action =
    | Ingest(detection: Detection, pick: Option<nat>, freshId: string)
    | Transition(tenant: string, id: string, target: Status, actor: string, caseIdGiven: Option<string>, now: int)
    | OpenCase(tenant: string, id: string, caseId: string, actor: string)

  predicate Possible(default: int, rows: seq<Alert>, action: Action) {
    action.Ingest? ==>
      && IsPick(rows, action.detection, Cutoff(action.detection, default), action.pick)
      && forall i | 0 <= i < |rows| :: rows[i].id != action.freshId
  }

  function After(a: Alert, action: Action): Alert {
    match action
    case Ingest(_, _, _) => a
    case Transition(tenant, id, target, actor, caseId, now) =>
      if Names(a, tenant, id) && target in AllowedTransitions(a.status) then Moved(a, target, actor, caseId, now) else a
    case OpenCase(tenant, id, caseId, actor) => if Names(a, tenant, id) then LinkedToCase(a, caseId, actor) else a
  }

  function Step(default: int, rows: seq<Alert>, action: Action): seq<Alert> {
    if action.Ingest? then
      if action.pick.Some? && action.pick.value >= |rows| then rows
      else Ingested(rows, action.detection, action.pick, action.freshId)
    else seq(|rows|, i requires 0 <= i < |rows| => After(rows[i], action))
  }

  function Run(default: int, actions: seq<Action>): seq<Alert> {
    if actions == [] then [] else Step(default, Run(default, actions[..|actions| - 1]), actions[|actions| - 1])
  }

  ghost predicate PossibleRun(default: int, actions: seq<Action>) {
    forall n | 0 <= n < |actions| :: Possible(default, Run(default, actions[..n]), actions[n])
  }

  lemma RunLonger(default: int, actions: seq<Action>, action: Action)
    requires PossibleRun(default, actions) && Possible(default, Run(default, actions), action)
    ensures PossibleRun(default, actions + [action])
    ensures Run(default, actions + [action]) == Step(default, Run(default, actions), action)
  {
    var longer := actions + [action];
    assert longer[..|actions|] == actions;
    forall n | 0 <= n < |longer| ensures Possible(default, Run(default, longer[..n]), longer[n]) {
      assert n < |actions| ==> longer[..n] == actions[..n];
    }
  }

  lemma StepKeepsIds(default: int, rows: seq<Alert>, action: Action)
    requires Possible(default, rows, action) && UniqueIds(rows)
    ensures UniqueIds(Step(default, rows, action))
  {
    hide Candidate;
    var after := Step(default, rows, action);
    assert forall i | 0 <= i < |rows| :: after[i].id == rows[i].id;
  }

  // ----- Each occurrence is one detection -----

  ghost predicate Counted(a: Alert) {
    && a.occurrences == |a.detectionIds| > 0
    && forall i, j | 0 <= i < j < |a.detectionIds| :: a.detectionIds[i] != a.detectionIds[j]
  }

  lemma AbsorbedIsCounted(a: Alert, d: Detection)
    requires Counted(a) && d.id !in a.detectionIds
    ensures Counted(Absorbed(a, d))
  {
  }

  /** In every run, an alert's occurrence count is the number of its pairwise distinct detections. */
  lemma {:induction false} OccurrencesAreDistinctDetections(default: int, actions: seq<Action>, i: nat)
    requires i < |Run(default, actions)|
    ensures Counted(Run(default, actions)[i])
  {
    if actions != [] {
      var before, action := actions[..|actions| - 1], actions[|actions| - 1];
      var rows := Run(default, before);
      if i < |rows| {
        OccurrencesAreDistinctDetections(default, before, i);
        if action.Ingest? && action.detection.id !in rows[i].detectionIds {
          AbsorbedIsCounted(rows[i], action.detection);
        }
      }
    }
  }

  // ----- Lifecycle -----

  /** The statuses an alert may be in some time after it was in `a`. */
  predicate Leads(a: Status, b: Status) {
    a == b || b == Closed || a == New || (a == Triaged && b == InProgress)
    || ((a == Triaged || a == InProgress) && b == Resolved)
  }

  /** How far an alert has come; a suppressed one is out of the way of the others. */
  function Stage(s: Status): nat {
    match s
    case New => 0
    case Triaged => 1
    case InProgress => 2
    case Resolved => 3
    case Suppressed => 3
    case Closed => 4
  }

  /** Which moves succeed: only a new alert can be suppressed, a suppressed one can only be closed, and any other
      move goes up by any number of stages, but for a new alert only to triaged or closed. */
  lemma MovesExactly(a: Status, b: Status)
    ensures b in AllowedTransitions(a) <==>
      if b == Suppressed then a == New
      else if a == Suppressed then b == Closed
      else Stage(a) < Stage(b) && (a == New ==> b == Triaged || b == Closed)
  {
  }

  /** Consecutive statuses are allowed moves. */
  ghost predicate IsLifecycle(p: seq<Status>, a: Status, b: Status) {
    && p != [] && p[0] == a && p[|p| - 1] == b
    && forall i | 0 <= i < |p| - 1 :: p[i + 1] in AllowedTransitions(p[i])
  }

  lemma {:induction false} LifecycleLeads(p: seq<Status>, a: Status, b: Status)
    requires IsLifecycle(p, a, b)
    ensures Leads(a, b)
  {
    if |p| > 1 {
      var n := |p| - 1;
      assert p[n - 1 + 1] in AllowedTransitions(p[n - 1]);
      LifecycleLeads(p[..n], a, p[n - 1]);
    }
  }

  /** `Leads` is exactly what allowed moves add up to. */
  lemma LeadsExactly(a: Status, b: Status)
    ensures Leads(a, b) <==> exists p :: IsLifecycle(p, a, b)
  {
    if Leads(a, b) {
      var p := if a == b then [a] else if b in AllowedTransitions(a) then [a, b] else [a, Triaged, b];
      assert IsLifecycle(p, a, b);
    }
    if p :| IsLifecycle(p, a, b) {
      LifecycleLeads(p, a, b);
    }
  }

  /** How one alert may differ after any number of steps: its identity is fixed, evidence is only added
      and only while it is active, and its status has moved forward. */
  ghost predicate Evolves(a: Alert, b: Alert) {
    && (a.id, a.tenant, a.key, a.firstSeen) == (b.id, b.tenant, b.key, b.firstSeen)
    && a.detectionIds <= b.detectionIds
    && Leads(a.status, b.status)
    && (!Active(a.status) ==> a.detectionIds == b.detectionIds)
    && (a.status == Closed ==> a.lastSeen == b.lastSeen && a.triagedBy == b.triagedBy)
  }

  lemma StepEvolves(default: int, rows: seq<Alert>, action: Action, i: nat)
    requires Possible(default, rows, action) && i < |rows|
    ensures i < |Step(default, rows, action)| && Evolves(rows[i], Step(default, rows, action)[i])
  {
  }

  lemma EvolvesOn(a: Alert, b: Alert, c: Alert)
    requires Evolves(a, b) && Evolves(b, c)
    ensures Evolves(a, c)
  {
  }

  lemma Shorter(default: int, actions: seq<Action>, m: nat)
    requires PossibleRun(default, actions) && m <= |actions|
    ensures PossibleRun(default, actions[..m])
    ensures forall k | 0 <= k <= m :: actions[..m][..k] == actions[..k]
    ensures m < |actions| ==> Possible(default, Run(default, actions[..m]), actions[m])
  {
    hide Possible, Run;
    forall k | 0 <= k <= m ensures actions[..m][..k] == actions[..k] {
    }
  }

  /** No alert is ever lost, rewritten or moved backwards. */
  lemma {:induction false} AlertsEvolve(default: int, actions: seq<Action>, n: nat, i: nat)
    requires PossibleRun(default, actions) && n <= |actions| && i < |Run(default, actions[..n])|
    ensures i < |Run(default, actions)| && Evolves(Run(default, actions[..n])[i], Run(default, actions)[i])
  {
    if n < |actions| {
      hide Possible, Step, Evolves, PossibleRun;
      var before := actions[..|actions| - 1];
      Shorter(default, actions, |before|);
      AlertsEvolve(default, before, n, i);
      StepEvolves(default, Run(default, before), actions[|actions| - 1], i);
      EvolvesOn(Run(default, before[..n])[i], Run(default, before)[i], Run(default, actions)[i]);
    } else {
      assert actions[..n] == actions;
    }
  }

  /** The lifecycle is acyclic: an alert never returns to a status it has left. */
  lemma NoReturn(default: int, actions: seq<Action>, n: nat, m: nat, i: nat)
    requires PossibleRun(default, actions) && n <= m <= |actions| && i < |Run(default, actions[..n])|
    ensures i < |Run(default, actions[..m])| && i < |Run(default, actions)|
    ensures Run(default, actions[..n])[i].status == Run(default, actions)[i].status ==>
      Run(default, actions[..m])[i].status == Run(default, actions)[i].status
  {
    hide Run, PossibleRun;
    Shorter(default, actions, m);
    AlertsEvolve(default, actions[..m], n, i);
    AlertsEvolve(default, actions, m, i);
  }

  /** An alert that is being worked on, or was resolved, names the analyst who triaged it. */
  lemma {:induction false} WorkedAlertsWereTriaged(default: int, actions: seq<Action>, i: nat)
    requires i < |Run(default, actions)|
    ensures Run(default, actions)[i].status in {Triaged, InProgress, Resolved} ==>
      Run(default, actions)[i].triagedBy.Some?
  {
    if actions != [] {
      var before := actions[..|actions| - 1];
      if i < |Run(default, before)| {
        WorkedAlertsWereTriaged(default, before, i);
      }
    }
  }

  // ----- Redelivery -----

  predicate Held(rows: seq<Alert>, d: Detection) {
    exists i | 0 <= i < |rows| :: rows[i].tenant == d.tenant && rows[i].key == d.key && d.id in rows[i].detectionIds
  }

  lemma IngestHolds(default: int, rows: seq<Alert>, d: Detection, pick: Option<nat>, freshId: string)
    requires IsPick(rows, d, Cutoff(d, default), pick)
    ensures Held(Ingested(rows, d, pick, freshId), d)
  {
    var after := Ingested(rows, d, pick, freshId);
    var p := if pick.Some? then pick.value else |rows|;
    assert d.id in after[p].detectionIds && after[p].tenant == d.tenant && after[p].key == d.key by {
      if pick.Some? && d.id !in rows[p].detectionIds {
        assert after[p].detectionIds[|rows[p].detectionIds|] == d.id;
      }
    }
  }

  /** The query always has an answer, and a fresh alert id always exists. */
  lemma {:induction false} PickExists(rows: seq<Alert>, d: Detection, cutoff: int) returns (pick: Option<nat>)
    ensures IsPick(rows, d, cutoff, pick)
  {
    pick := None;
    if rows != [] {
      var n := |rows| - 1;
      pick := PickExists(rows[..n], d, cutoff);
      if Candidate(rows[n], d, cutoff) && (pick.None? || rows[pick.value].lastSeen < rows[n].lastSeen) {
        pick := Some(n);
      }
    }
  }

  lemma {:induction false} FreshIdExists(rows: seq<Alert>) returns (id: string)
    ensures id != "" && forall i | 0 <= i < |rows| :: |rows[i].id| < |id|
  {
    id := "x";
    if rows != [] {
      var n := |rows| - 1;
      id := FreshIdExists(rows[..n]);
      id := id + rows[n].id;
    }
  }

  /** `rows[i]` is the most recently seen active alert of its tenant and key. */
  ghost predicate NewestOfKey(rows: seq<Alert>, i: nat) {
    && i < |rows| && Active(rows[i].status)
    && forall j | 0 <= j < |rows| && j != i && Active(rows[j].status) && rows[j].tenant == rows[i].tenant
      && rows[j].key == rows[i].key ::
         rows[j].lastSeen < rows[i].lastSeen
  }

  /** Redelivering a detection held by the key's newest active alert changes nothing exactly when that
      alert was last seen inside the detection's window; otherwise it opens a second alert. */
  lemma RedeliveryExact(default: int, rows: seq<Alert>, d: Detection, i: nat, pick: Option<nat>, freshId: string)
    requires NewestOfKey(rows, i) && rows[i].tenant == d.tenant && rows[i].key == d.key && d.id in rows[i].detectionIds
    requires IsPick(rows, d, Cutoff(d, default), pick)
    ensures Ingested(rows, d, pick, freshId) == rows <==> rows[i].lastSeen >= Cutoff(d, default)
    ensures pick.None? <==> rows[i].lastSeen < Cutoff(d, default)
  {
    if rows[i].lastSeen >= Cutoff(d, default) {
      assert Candidate(rows[i], d, Cutoff(d, default));
    }
  }

  /** `source` gives the stored record of each detection id. */
  type Source = string -> Detection

  /** Evidence arrives in order: a detection is never older than what its key's alerts already hold,
      and an analyst's clock is never behind the evidence on the alert being moved. */
  ghost predicate Timely(source: Source, rows: seq<Alert>, action: Action) {
    match action
    case Ingest(d, pick, _) =>
      source(d.id) == d && (
        (pick.Some? && pick.value < |rows| && d.id in rows[pick.value].detectionIds) ||
        forall i, x | 0 <= i < |rows| && rows[i].tenant == d.tenant && rows[i].key == d.key
          && x in rows[i].detectionIds ::
          source(x).detectedAt <= d.detectedAt)
    case Transition(tenant, id, _, _, _, now) =>
      forall i, x | 0 <= i < |rows| && Names(rows[i], tenant, id) && x in rows[i].detectionIds ::
        source(x).detectedAt <= now
    case OpenCase(_, _, _, _) => true
  }

  ghost predicate TimelyRun(source: Source, default: int, actions: seq<Action>) {
    forall n | 0 <= n < |actions| ::
      Possible(default, Run(default, actions[..n]), actions[n])
        && Timely(source, Run(default, actions[..n]), actions[n])
  }

  ghost predicate SeenSince(source: Source, a: Alert) {
    forall x | x in a.detectionIds :: source(x).detectedAt <= a.lastSeen
  }

  lemma StepIsSeen(source: Source, default: int, rows: seq<Alert>, action: Action, i: nat)
    requires Possible(default, rows, action) && Timely(source, rows, action) && i < |Step(default, rows, action)|
    requires i < |rows| ==> SeenSince(source, rows[i])
    ensures SeenSince(source, Step(default, rows, action)[i])
  {
  }

  lemma {:induction false} TimelyAlertsAreSeen(source: Source, default: int, actions: seq<Action>, i: nat)
    requires TimelyRun(source, default, actions) && i < |Run(default, actions)|
    ensures SeenSince(source, Run(default, actions)[i])
  {
    hide Timely, Possible, SeenSince, Step;
    if actions != [] {
      var before := actions[..|actions| - 1];
      assert forall m | 0 <= m <= |before| :: before[..m] == actions[..m];
      if i < |Run(default, before)| {
        TimelyAlertsAreSeen(source, default, before, i);
      }
      StepIsSeen(source, default, Run(default, before), actions[|actions| - 1], i);
    }
  }

  /** While evidence arrives in order, redelivering any detection held by its key's newest active alert
      changes nothing, whatever analysts did in between and whatever the (non-negative) window is. */
  lemma RedeliveryIsSafe(source: Source, default: nat, actions: seq<Action>, i: nat, x: string,
        pick: Option<nat>, freshId: string)
    requires TimelyRun(source, default, actions)
    requires NewestOfKey(Run(default, actions), i) && x in Run(default, actions)[i].detectionIds
    requires source(x).tenant == Run(default, actions)[i].tenant && source(x).key == Run(default, actions)[i].key
      && source(x).id == x
    requires IsPick(Run(default, actions), source(x), Cutoff(source(x), default), pick)
    ensures Ingested(Run(default, actions), source(x), pick, freshId) == Run(default, actions)
  {
    TimelyAlertsAreSeen(source, default, actions, i);
    RedeliveryExact(default, Run(default, actions), source(x), i, pick, freshId);
  }

  /** Out of order it fails: a late detection pulls `last_seen` back, and redelivering the earlier one
      opens a second alert for evidence the first alert already holds. */
  lemma OutOfOrderOpensSecondAlert()
    ensures var first := Detection("a", "t", "k", 1000 * SECOND, Absent);
      var late := Detection("b", "t", "k", 0, Absent);
      var rows := Run(900, [Ingest(first, None, "x"), Ingest(late, Some(0), "y")]);
      && PossibleRun(900, [Ingest(first, None, "x"), Ingest(late, Some(0), "y"), Ingest(first, None, "z")])
      && |rows| == 1 && NewestOfKey(rows, 0) && first.id in rows[0].detectionIds
      && |Run(900, [Ingest(first, None, "x"), Ingest(late, Some(0), "y"), Ingest(first, None, "z")])| == 2
  {
    var first := Detection("a", "t", "k", 1000 * SECOND, Absent);
    var late := Detection("b", "t", "k", 0, Absent);
    var a0, a1, a2 := Ingest(first, None, "x"), Ingest(late, Some(0), "y"), Ingest(first, None, "z");
    assert [a0][..0] == [] && [a0, a1][..1] == [a0] && [a0, a1, a2][..2] == [a0, a1];
    assert [a0, a1, a2][..1] == [a0] && [a0, a1, a2][..0] == [];
    assert Run(900, []) == [];
    assert Run(900, [a0]) == [Opened(first, "x")];
    assert Run(900, [a0, a1]) == [Absorbed(Opened(first, "x"), late)];
  }
}
