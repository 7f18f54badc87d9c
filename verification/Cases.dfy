/** Investigation cases and their playbook runs (`workflow.py`): every change is written to the case's
    timeline, and nothing here executes a playbook. */
module Cases {
  import opened Wrappers
  import Alerts

  datatype CaseStatus = New | Triaged | InProgress | Resolved | Closed
  datatype RunStatus = Requested | AwaitingApproval | Approved | Running | Completed | Failed | Cancelled

  function CaseTransitions(s: CaseStatus): set<CaseStatus> {
    match s
    case New => {Triaged, InProgress, Closed}
    case Triaged => {InProgress, Resolved, Closed}
    case InProgress => {Resolved, Closed}
    case Resolved => {Closed}
    case Closed => {}
  }

  function RunTransitions(s: RunStatus): set<RunStatus> {
    match s
    case Requested => {AwaitingApproval, Approved, Cancelled}
    case AwaitingApproval => {Approved, Cancelled}
    case Approved => {Running, Cancelled}
    case Running => {Completed, Failed, Cancelled}
    case Completed => {}
    case Failed => {}
    case Cancelled => {}
  }

  datatype Entry =
    | CreatedFromAlert(actor: string, alertId: string)
    | StatusChanged(actor: string, status: CaseStatus)
    | PlaybookRequested(actor: string, runId: string, playbookId: string, runStatus: RunStatus)
    | PlaybookStatusChanged(actor: string, runId: string, runStatus: RunStatus)

  datatype Case = Case(tenant: string, alertId: string, status: CaseStatus, createdBy: string, timeline: seq<Entry>)

  datatype Run = Run(
    tenant: string, caseId: string, playbookId: string, status: RunStatus, requiresApproval: bool, requestedBy: string,
    approvedBy: Option<string>, startedAt: Option<int>, completedAt: Option<int>)

  datatype State = State(alerts: seq<Alerts.Alert>, cases: map<string, Case>, runs: map<string, Run>)

  datatype Failure = AlertNotFound | CaseNotFound | RunNotFound | LinkedCaseMissing | InvalidTransition

  // ----- Operations -----

  datatype Action =
    | Create(tenant: string, alertId: string, actor: string, freshId: string)
    | MoveCase(tenant: string, caseId: string, target: CaseStatus, actor: string)
    | Request(tenant: string, caseId: string, playbookId: string, requiresApproval: bool, actor: string,
      freshId: string)
    | MoveRun(tenant: string, runId: string, goal: RunStatus, actor: string, now: int)
    | OnAlert(action: Alerts.Action)

  predicate HasAlert(alerts: seq<Alerts.Alert>, tenant: string, id: string) {
    exists i | 0 <= i < |alerts| :: Alerts.Names(alerts[i], tenant, id)
  }

  predicate Owns(cases: map<string, Case>, tenant: string, caseId: string) {
    caseId in cases && cases[caseId].tenant == tenant
  }

  /** The alert is already linked to a case that exists. */
  predicate Linked(s: State, a: Alerts.Alert, tenant: string) {
    a.caseId.Some? && Owns(s.cases, tenant, a.caseId.value)
  }

  function OpenedCase(a: Alerts.Alert, tenant: string, actor: string): Case {
    Case(tenant, a.id, if a.status == Alerts.New || a.status == Alerts.Triaged then Triaged else InProgress, actor,
         [CreatedFromAlert(actor, a.id)])
  }

  function Noted(c: Case, e: Entry): Case {
    c.(timeline := c.timeline + [e])
  }

  function MovedRun(r: Run, target: RunStatus, actor: string, now: int): Run {
    r.(status := target,
       approvedBy := if target == Approved && r.requiresApproval then Some(actor) else r.approvedBy,
       startedAt := if target == Running then Some(now) else r.startedAt,
       completedAt := if target == Completed || target == Failed || target == Cancelled then Some(now)
         else r.completedAt)
  }

  /** Generated ids are fresh, and alerts keep distinct ids. */
  ghost predicate Possible(s: State, a: Action) {
    Alerts.UniqueIds(s.alerts) &&
    match a
    case Create(_, _, _, freshId) => freshId !in s.cases
    case Request(_, _, _, _, _, freshId) => freshId !in s.runs
    case OnAlert(action) => Alerts.Possible(Alerts.DEFAULT_WINDOW, s.alerts, action)
    case _ => true
  }

  ghost function Step(s: State, a: Action): State
    requires Possible(s, a)
  {
    match a
    case Create(tenant, alertId, actor, freshId) =>
      if !HasAlert(s.alerts, tenant, alertId) then s
      else
        var i :| 0 <= i < |s.alerts| && Alerts.Names(s.alerts[i], tenant, alertId);
        if Linked(s, s.alerts[i], tenant) then s
        else State(s.alerts[i := Alerts.LinkedToCase(s.alerts[i], freshId, actor)],
                   s.cases[freshId := OpenedCase(s.alerts[i], tenant, actor)], s.runs)
    case MoveCase(tenant, caseId, target, actor) =>
      if !Owns(s.cases, tenant, caseId) || target !in CaseTransitions(s.cases[caseId].status) then s
      else s.(cases := s.cases[caseId := Noted(s.cases[caseId].(status := target), StatusChanged(actor, target))])
    case Request(tenant, caseId, playbookId, requiresApproval, actor, freshId) =>
      if !Owns(s.cases, tenant, caseId) then s
      else
        var status := if requiresApproval then AwaitingApproval else Approved;
        s.(cases := s.cases[caseId := Noted(s.cases[caseId], PlaybookRequested(actor, freshId, playbookId, status))],
           runs := s.runs[freshId :=
             Run(tenant, caseId, playbookId, status, requiresApproval, actor, None, None, None)])
    case MoveRun(tenant, runId, target, actor, now) =>
      if runId !in s.runs || s.runs[runId].tenant != tenant || target !in RunTransitions(s.runs[runId].status)
         || !Owns(s.cases, tenant, s.runs[runId].caseId) then s
      else
        var caseId := s.runs[runId].caseId;
        s.(cases := s.cases[caseId := Noted(s.cases[caseId], PlaybookStatusChanged(actor, runId, target))],
           runs := s.runs[runId := MovedRun(s.runs[runId], target, actor, now)])
    case OnAlert(action) => s.(alerts := Alerts.Step(Alerts.DEFAULT_WINDOW, s.alerts, action))
  }

  // ----- The service -----

  class CaseWorkflow {
    var alerts: seq<Alerts.Alert>
    var cases: map<string, Case>
    var runs: map<string, Run>

    ghost function View(): State
      reads this
    {
      State(alerts, cases, runs)
    }

    constructor (alerts: seq<Alerts.Alert>)
      ensures View() == State(alerts, map[], map[])
    {
      this.alerts, cases, runs := alerts, map[], map[];
    }

    method CreateFromAlert(tenant: string, alertId: string, actor: string, freshId: string)
      returns (result: Result<string, Failure>, created: bool)
      requires Possible(View(), Create(tenant, alertId, actor, freshId))
      modifies this
      ensures View() == Step(old(View()), Create(tenant, alertId, actor, freshId))
      ensures result.Err? <==> !HasAlert(old(alerts), tenant, alertId)
      ensures result.Ok? ==> Owns(cases, tenant, result.value) && (created <==> result.value !in old(cases))
    {
      var i := 0;
      while i < |alerts| && (alerts[i].tenant != tenant || alerts[i].id != alertId)
        invariant i <= |alerts| && forall j | 0 <= j < i :: !Alerts.Names(alerts[j], tenant, alertId)
      {
        i := i + 1;
      }
      if i == |alerts| {
        return Err(AlertNotFound), false;
      }
      var alert := alerts[i];
      if alert.caseId.Some? && alert.caseId.value in cases && cases[alert.caseId.value].tenant == tenant {
        return Ok(alert.caseId.value), false;
      }
      var status := if alert.status == Alerts.New || alert.status == Alerts.Triaged then Triaged else InProgress;
      cases := cases[freshId := Case(tenant, alert.id, status, actor, [CreatedFromAlert(actor, alert.id)])];
      if alert.status == Alerts.New {
        alert := alert.(status := Alerts.Triaged, triagedBy := Some(actor));
      }
      alerts := alerts[i := alert.(caseId := Some(freshId))];
      result, created := Ok(freshId), true;
    }

    method TransitionCase(tenant: string, caseId: string, target: CaseStatus,
          actor: string) returns (result: Result<Case, Failure>)
      requires Possible(View(), MoveCase(tenant, caseId, target, actor))
      modifies this
      ensures View() == Step(old(View()), MoveCase(tenant, caseId, target, actor))
      ensures result == Err(CaseNotFound) <==> !Owns(old(cases), tenant, caseId)
      ensures result.Ok? <==> Owns(old(cases), tenant, caseId) && target in CaseTransitions(old(cases)[caseId].status)
    {
      if caseId !in cases || cases[caseId].tenant != tenant {
        return Err(CaseNotFound);
      }
      if target !in CaseTransitions(cases[caseId].status) {
        return Err(InvalidTransition);
      }
      var row := cases[caseId].(status := target);
      row := row.(timeline := row.timeline + [StatusChanged(actor, target)]);
      cases := cases[caseId := row];
      result := Ok(row);
    }

    method RequestPlaybook(tenant: string, caseId: string, playbookId: string, requiresApproval: bool,
          actor: string, freshId: string)
      returns (result: Result<Run, Failure>)
      requires Possible(View(), Request(tenant, caseId, playbookId, requiresApproval, actor, freshId))
      modifies this
      ensures View() == Step(old(View()), Request(tenant, caseId, playbookId, requiresApproval, actor, freshId))
      ensures result.Ok? <==> Owns(old(cases), tenant, caseId)
    {
      if caseId !in cases || cases[caseId].tenant != tenant {
        return Err(CaseNotFound);
      }
      var status := if requiresApproval then AwaitingApproval else Approved;
      var run := Run(tenant, caseId, playbookId, status, requiresApproval, actor, None, None, None);
      runs := runs[freshId := run];
      cases := cases[caseId :=
        cases[caseId].(timeline := cases[caseId].timeline + [PlaybookRequested(actor, freshId, playbookId, status)])];
      result := Ok(run);
    }

    method TransitionPlaybook(tenant: string, runId: string, target: RunStatus, actor: string, now: int)
      returns (result: Result<Run, Failure>)
      requires Possible(View(), MoveRun(tenant, runId, target, actor, now))
      modifies this
      ensures View() == Step(old(View()), MoveRun(tenant, runId, target, actor, now))
      ensures result == Err(RunNotFound) <==> runId !in old(runs) || old(runs)[runId].tenant != tenant
      ensures result == Err(LinkedCaseMissing) ==> !Owns(old(cases), tenant, old(runs)[runId].caseId)
      ensures result.Ok? ==> runId in runs && result.value == runs[runId] && result.value.status == target
    {
      if runId !in runs || runs[runId].tenant != tenant {
        return Err(RunNotFound);
      }
      var row := runs[runId];
      if target !in RunTransitions(row.status) {
        return Err(InvalidTransition);
      }
      if target == Approved && row.requiresApproval {
        row := row.(approvedBy := Some(actor));
      }
      if target == Running {
        row := row.(startedAt := Some(now));
      }
      if target == Completed || target == Failed || target == Cancelled {
        row := row.(completedAt := Some(now));
      }
      row := row.(status := target);
      if row.caseId !in cases || cases[row.caseId].tenant != tenant {
        return Err(LinkedCaseMissing);
      }
      cases := cases[row.caseId :=
        cases[row.caseId].(timeline := cases[row.caseId].timeline + [PlaybookStatusChanged(actor, runId, target)])];
      runs := runs[runId := row];
      result := Ok(row);
    }
  }

  // ----- The timeline tells the state -----

  /** The status a case has after the entries `log`, if it had `before` first. */
  function StatusAfter(before: CaseStatus, log: seq<Entry>): CaseStatus {
    if log == [] then before
    else if log[|log| - 1].StatusChanged? then log[|log| - 1].status
    else StatusAfter(before, log[..|log| - 1])
  }

  predicate About(e: Entry, runId: string) {
    (e.PlaybookRequested? || e.PlaybookStatusChanged?) && e.runId == runId
  }

  /** The run status in the last entry about `runId`. */
  function LastRunStatus(log: seq<Entry>, runId: string): Option<RunStatus> {
    if log == [] then None
    else if About(log[|log| - 1], runId) then Some(log[|log| - 1].runStatus)
    else LastRunStatus(log[..|log| - 1], runId)
  }

  /** A run was allowed to get where it is. */
  predicate Authorised(r: Run) {
    && (r.status == Requested || r.status == AwaitingApproval ==> r.approvedBy == None)
    && (r.requiresApproval && r.status in {Approved, Running, Completed, Failed} ==> r.approvedBy.Some?)
    && (!r.requiresApproval ==> r.approvedBy == None && r.status != Requested && r.status != AwaitingApproval)
    && (r.status == Running || r.status == Completed || r.status == Failed ==> r.startedAt.Some?)
    && (r.completedAt.Some? <==> r.status == Completed || r.status == Failed || r.status == Cancelled)
  }

  /** The run belongs to an existing case of its tenant, whose timeline's last word on it is its status. */
  ghost predicate Recorded(s: State, runId: string)
    requires runId in s.runs
  {
    var r := s.runs[runId];
    Owns(s.cases, r.tenant, r.caseId) && LastRunStatus(s.cases[r.caseId].timeline, runId) == Some(r.status)
  }

  ghost predicate Sound(s: State) {
    && Alerts.UniqueIds(s.alerts)
    && (forall k | k in s.runs :: Authorised(s.runs[k]) && Recorded(s, k))
  }

  /** Cases are only added, timelines only grow, and the entries added tell the new status. */
  ghost predicate Extends(s: State, t: State) {
    && (forall c | c in s.cases ::
          && c in t.cases && t.cases[c].tenant == s.cases[c].tenant && s.cases[c].timeline <= t.cases[c].timeline
          && t.cases[c].status == StatusAfter(s.cases[c].status, t.cases[c].timeline[|s.cases[c].timeline|..]))
    && (forall k | k in s.runs :: k in t.runs && t.runs[k].caseId == s.runs[k].caseId
          && t.runs[k].requiresApproval == s.runs[k].requiresApproval
          && (s.runs[k].approvedBy.Some? ==> t.runs[k].approvedBy == s.runs[k].approvedBy))
  }

  lemma LastOfLonger(log: seq<Entry>, e: Entry, runId: string)
    ensures LastRunStatus(log + [e], runId) == if About(e, runId) then Some(e.runStatus) else LastRunStatus(log, runId)
  {
    assert (log + [e])[..|log|] == log;
  }

  lemma {:induction false} StatusAfterBoth(before: CaseStatus, a: seq<Entry>, b: seq<Entry>)
    ensures StatusAfter(before, a + b) == StatusAfter(StatusAfter(before, a), b)
  {
    if b == [] {
      assert a + b == a;
    } else {
      assert (a + b)[..|a + b| - 1] == a + b[..|b| - 1];
      StatusAfterBoth(before, a, b[..|b| - 1]);
    }
  }

  lemma AlertsStayUnique(s: State, a: Action)
    requires Possible(s, a)
    ensures Alerts.UniqueIds(Step(s, a).alerts)
  {
    if a.OnAlert? {
      Alerts.StepKeepsIds(Alerts.DEFAULT_WINDOW, s.alerts, a.action);
    }
    hide Alerts.Step, Alerts.Possible;
  }

  predicate MovesRun(s: State, a: Action)
    requires a.MoveRun?
  {
    && a.runId in s.runs && s.runs[a.runId].tenant == a.tenant && a.goal in RunTransitions(s.runs[a.runId].status)
    && Owns(s.cases, a.tenant, s.runs[a.runId].caseId)
  }

  /** The entry that a step adds to the timeline of case `c`, if any. */
  function EntryFor(s: State, a: Action, c: string): Option<Entry> {
    match a
    case MoveCase(tenant, caseId, target, actor) =>
      if caseId == c && Owns(s.cases, tenant, c) && target in CaseTransitions(s.cases[c].status)
      then Some(StatusChanged(actor, target)) else None
    case Request(tenant, caseId, playbookId, requiresApproval, actor, freshId) =>
      if caseId == c && Owns(s.cases, tenant, c)
      then Some(PlaybookRequested(actor, freshId, playbookId, if requiresApproval then AwaitingApproval else Approved))
        else None
    case MoveRun(tenant, runId, target, actor, _) =>
      if MovesRun(s, a) && s.runs[runId].caseId == c then Some(PlaybookStatusChanged(actor, runId, target)) else None
    case _ => None
  }

  lemma StepCase(s: State, a: Action, c: string)
    requires Possible(s, a) && c in s.cases
    ensures var t, e := Step(s, a), EntryFor(s, a, c);
      && c in t.cases && t.cases[c].tenant == s.cases[c].tenant
      && t.cases[c].timeline == s.cases[c].timeline + (if e.Some? then [e.value] else [])
      && t.cases[c].status == (if e.Some? && e.value.StatusChanged? then e.value.status else s.cases[c].status)
  {
    hide Alerts.Possible, Alerts.Step;
  }

  lemma StepRuns(s: State, a: Action, k: string)
    requires Possible(s, a)
    ensures var t := Step(s, a);
      && (k in s.runs ==> k in t.runs)
      && (k in s.runs ==>
            t.runs[k] ==
              if a.MoveRun? && a.runId == k && MovesRun(s, a) then MovedRun(s.runs[k], a.goal, a.actor, a.now)
              else s.runs[k])
      && (k !in s.runs && k in t.runs ==> a.Request? && a.freshId == k && Owns(s.cases, a.tenant, a.caseId))
      && (k !in s.runs && k in t.runs ==>
            var status := if a.requiresApproval then AwaitingApproval else Approved;
            t.runs[k] == Run(a.tenant, a.caseId, a.playbookId, status, a.requiresApproval, a.actor, None, None, None))
  {
    hide Alerts.Possible, Alerts.Step, CaseTransitions;
  }

  lemma StepAuthorised(s: State, a: Action, k: string)
    requires Sound(s) && Possible(s, a) && k in Step(s, a).runs
    ensures Authorised(Step(s, a).runs[k])
  {
    StepRuns(s, a, k);
    hide Step, Possible, Recorded, Alerts.UniqueIds;
  }

  lemma StepRecorded(s: State, a: Action, k: string)
    requires Sound(s) && Possible(s, a) && k in Step(s, a).runs
    ensures Recorded(Step(s, a), k)
  {
    var t := Step(s, a);
    StepRuns(s, a, k);
    hide Authorised;
    assert k in s.runs ==> Recorded(s, k);
    var c := t.runs[k].caseId;
    assert c in s.cases;
    StepCase(s, a, c);
    var e := EntryFor(s, a, c);
    hide Step, Sound, Possible, CaseTransitions;
    if e.Some? {
      LastOfLonger(s.cases[c].timeline, e.value, k);
    }
    hide LastRunStatus;
  }

  lemma StepSound(s: State, a: Action)
    requires Sound(s) && Possible(s, a)
    ensures Sound(Step(s, a)) && Extends(s, Step(s, a))
  {
    AlertsStayUnique(s, a);
    var t := Step(s, a);
    forall k | k in t.runs ensures Authorised(t.runs[k]) && Recorded(t, k) {
      StepAuthorised(s, a, k);
      StepRecorded(s, a, k);
    }
    forall c | c in s.cases
      ensures c in t.cases && t.cases[c].tenant == s.cases[c].tenant && s.cases[c].timeline <= t.cases[c].timeline
      ensures t.cases[c].status == StatusAfter(s.cases[c].status, t.cases[c].timeline[|s.cases[c].timeline|..])
    {
      StepTimeline(s, a, c);
    }
    forall k | k in s.runs
      ensures k in t.runs && t.runs[k].caseId == s.runs[k].caseId
        && t.runs[k].requiresApproval == s.runs[k].requiresApproval
      ensures s.runs[k].approvedBy.Some? ==> t.runs[k].approvedBy == s.runs[k].approvedBy
    {
      StepApproval(s, a, k);
    }
    hide Step, Possible, Authorised, Recorded, StatusAfter, Alerts.UniqueIds;
  }

  lemma StepTimeline(s: State, a: Action, c: string)
    requires Possible(s, a) && c in s.cases
    ensures var t := Step(s, a);
      && c in t.cases && t.cases[c].tenant == s.cases[c].tenant && s.cases[c].timeline <= t.cases[c].timeline
      && t.cases[c].status == StatusAfter(s.cases[c].status, t.cases[c].timeline[|s.cases[c].timeline|..])
  {
    StepCase(s, a, c);
    var e := EntryFor(s, a, c);
    var added := Step(s, a).cases[c].timeline[|s.cases[c].timeline|..];
    hide Step, Possible, EntryFor;
    assert added == if e.Some? then [e.value] else [];
    assert added[..0] == [];
  }

  lemma StepApproval(s: State, a: Action, k: string)
    requires Sound(s) && Possible(s, a) && k in s.runs
    ensures var t := Step(s, a);
      && k in t.runs && t.runs[k].caseId == s.runs[k].caseId && t.runs[k].requiresApproval == s.runs[k].requiresApproval
      && (s.runs[k].approvedBy.Some? ==> t.runs[k].approvedBy == s.runs[k].approvedBy)
  {
    StepRuns(s, a, k);
    assert Authorised(s.runs[k]);
    hide Step, Possible, Sound;
  }

  // ----- Every run -----

  ghost function RunFrom(s: State, actions: seq<Action>): Option<State> {
    if actions == [] then Some(s)
    else
      var before := RunFrom(s, actions[..|actions| - 1]);
      if before.Some? && Possible(before.value, actions[|actions| - 1])
      then Some(Step(before.value, actions[|actions| - 1]))
      else None
  }

  lemma ExtendsOn(s: State, t: State, u: State)
    requires Extends(s, t) && Extends(t, u)
    ensures Extends(s, u)
  {
    forall c | c in s.cases
      ensures s.cases[c].timeline <= u.cases[c].timeline
      ensures u.cases[c].status == StatusAfter(s.cases[c].status, u.cases[c].timeline[|s.cases[c].timeline|..])
    {
      StatusOn(s.cases[c].status, s.cases[c].timeline, t.cases[c].timeline, u.cases[c].timeline);
    }
    hide StatusAfter;
  }

  lemma StatusOn(before: CaseStatus, x: seq<Entry>, y: seq<Entry>, z: seq<Entry>)
    requires x <= y <= z
    ensures x <= z && StatusAfter(before, z[|x|..]) == StatusAfter(StatusAfter(before, y[|x|..]), z[|y|..])
  {
    assert z[|x|..] == y[|x|..] + z[|y|..];
    StatusAfterBoth(before, y[|x|..], z[|y|..]);
  }

  lemma ExtendsSelf(s: State)
    ensures Extends(s, s)
  {
  }

  /** Over any run, timelines are append-only, a case's status is told by the entries added, every run's
      status is the last one its case's timeline gives it, and approval-required runs that went ahead
      have an approver who never changes. */
  lemma {:induction false} RunSound(s: State, actions: seq<Action>, t: State)
    requires Sound(s) && RunFrom(s, actions) == Some(t)
    ensures Sound(t) && Extends(s, t)
  {
    ExtendsSelf(s);
    if actions != [] {
      hide Sound, Extends, Step, Possible;
      var before := RunFrom(s, actions[..|actions| - 1]).value;
      RunSound(s, actions[..|actions| - 1], before);
      StepSound(before, actions[|actions| - 1]);
      ExtendsOn(s, before, t);
    }
  }

  // ----- The order of statuses -----

  function CaseStage(s: CaseStatus): nat {
    match s
    case New => 0
    case Triaged => 1
    case InProgress => 2
    case Resolved => 3
    case Closed => 4
  }

  /** Which case moves succeed: any that goes up, but a new case cannot be resolved at once. */
  lemma CaseMovesExactly(a: CaseStatus, b: CaseStatus)
    ensures b in CaseTransitions(a) <==> CaseStage(a) < CaseStage(b) && !(a == New && b == Resolved)
  {
  }

  predicate Ended(s: RunStatus) {
    s == Completed || s == Failed || s == Cancelled
  }

  function RunStage(s: RunStatus): nat {
    match s
    case Requested => 0
    case AwaitingApproval => 1
    case Approved => 2
    case Running => 3
    case Completed => 4
    case Failed => 4
    case Cancelled => 5
  }

  /** Which playbook moves succeed: from any run that has not ended to cancelled or to the next stage, and from
      requested to approved. */
  lemma RunMovesExactly(a: RunStatus, b: RunStatus)
    ensures b in RunTransitions(a) <==>
      !Ended(a) && (b == Cancelled || RunStage(b) == RunStage(a) + 1 || (a == Requested && b == Approved))
  {
  }

  /** Every case and every playbook run is still there, and in its status or at a higher stage. */
  ghost predicate Rises(s: State, t: State) {
    && (forall c | c in s.cases ::
          && c in t.cases
          && (t.cases[c].status == s.cases[c].status || CaseStage(s.cases[c].status) < CaseStage(t.cases[c].status)))
    && (forall k | k in s.runs ::
          && k in t.runs
          && (t.runs[k].status == s.runs[k].status || RunStage(s.runs[k].status) < RunStage(t.runs[k].status)))
  }

  lemma StepRises(s: State, a: Action)
    requires Possible(s, a)
    ensures Rises(s, Step(s, a))
  {
    forall c | c in s.cases
      ensures var t := Step(s, a);
        && c in t.cases
        && (t.cases[c].status == s.cases[c].status || CaseStage(s.cases[c].status) < CaseStage(t.cases[c].status))
    {
      StepCase(s, a, c);
      hide Step, Possible;
    }
    forall k | k in s.runs
      ensures var t := Step(s, a);
        && k in t.runs
        && (t.runs[k].status == s.runs[k].status || RunStage(s.runs[k].status) < RunStage(t.runs[k].status))
    {
      StepRuns(s, a, k);
      hide Step, Possible;
    }
  }

  /** Over any run, cases and playbook runs only move up the stages, so none returns to a status it has left. */
  lemma {:induction false} StatusesRise(s: State, actions: seq<Action>, t: State)
    requires RunFrom(s, actions) == Some(t)
    ensures Rises(s, t)
  {
    if actions != [] {
      hide Step, Possible, CaseStage, RunStage;
      var before := RunFrom(s, actions[..|actions| - 1]).value;
      StatusesRise(s, actions[..|actions| - 1], before);
      StepRises(before, actions[|actions| - 1]);
    }
  }

  // ----- The alerts of a case -----

  /** The step of the alert workflow, if any, that a step here is for the alerts. */
  ghost function AlertStep(s: State, a: Action): Option<Alerts.Action>
    requires Possible(s, a)
  {
    match a
    case OnAlert(action) => Some(action)
    case Create(tenant, alertId, actor, freshId) =>
      if Step(s, a) == s then None else Some(Alerts.OpenCase(tenant, alertId, freshId, actor))
    case _ => None
  }

  lemma StepOfAlerts(s: State, a: Action)
    requires Possible(s, a)
    ensures AlertStep(s, a).None? ==> Step(s, a).alerts == s.alerts
    ensures AlertStep(s, a).Some? ==>
      && Alerts.Possible(Alerts.DEFAULT_WINDOW, s.alerts, AlertStep(s, a).value)
      && Step(s, a).alerts == Alerts.Step(Alerts.DEFAULT_WINDOW, s.alerts, AlertStep(s, a).value)
  {
    hide Alerts.Ingested, Alerts.IsPick;
  }

  /** The alerts of any run are those of a run of the alert workflow alone, of which its results are true. */
  lemma {:induction false} AlertsOfRun(actions: seq<Action>, s: State)
    requires RunFrom(State([], map[], map[]), actions) == Some(s)
    ensures exists steps ::
      && Alerts.PossibleRun(Alerts.DEFAULT_WINDOW, steps)
      && Alerts.Run(Alerts.DEFAULT_WINDOW, steps) == s.alerts
  {
    if actions == [] {
      assert Alerts.PossibleRun(Alerts.DEFAULT_WINDOW, []) && Alerts.Run(Alerts.DEFAULT_WINDOW, []) == s.alerts;
    } else {
      hide Step, Possible, AlertStep, Alerts.Step, Alerts.Possible;
      var before := RunFrom(State([], map[], map[]), actions[..|actions| - 1]).value;
      AlertsOfRun(actions[..|actions| - 1], before);
      var steps :| Alerts.PossibleRun(Alerts.DEFAULT_WINDOW, steps)
        && Alerts.Run(Alerts.DEFAULT_WINDOW, steps) == before.alerts;
      StepOfAlerts(before, actions[|actions| - 1]);
      var step := AlertStep(before, actions[|actions| - 1]);
      if step.Some? {
        Alerts.RunLonger(Alerts.DEFAULT_WINDOW, steps, step.value);
      }
    }
  }

  lemma EmptySound(alerts: seq<Alerts.Alert>)
    requires Alerts.UniqueIds(alerts)
    ensures Sound(State(alerts, map[], map[]))
  {
  }

  /** In every run, playbook runs that need an approval and went ahead name an approver, those that need none never
      do, and what was started and what has ended have their times. */
  lemma ApprovedBeforeRunning(alerts: seq<Alerts.Alert>, actions: seq<Action>, s: State, runId: string)
    requires Alerts.UniqueIds(alerts) && RunFrom(State(alerts, map[], map[]), actions) == Some(s) && runId in s.runs
    ensures var r := s.runs[runId];
      && (r.requiresApproval && r.status in {Approved, Running, Completed, Failed} ==> r.approvedBy.Some?)
      && (r.status in {Requested, AwaitingApproval} ==> r.requiresApproval && r.approvedBy == None)
      && (!r.requiresApproval ==> r.approvedBy == None)
      && (r.status in {Running, Completed, Failed} ==> r.startedAt.Some?)
      && (r.completedAt.Some? <==> r.status in {Completed, Failed, Cancelled})
  {
    EmptySound(alerts);
    RunSound(State(alerts, map[], map[]), actions, s);
    assert Authorised(s.runs[runId]);
  }

  /** In every reachable state the case linked to a run exists, so a run can always move where its table allows. */
  lemma LinkedCaseExists(alerts: seq<Alerts.Alert>, actions: seq<Action>, s: State, a: Action)
    requires Alerts.UniqueIds(alerts) && RunFrom(State(alerts, map[], map[]), actions) == Some(s) && a.MoveRun?
    ensures MovesRun(s, a) <==>
      a.runId in s.runs && s.runs[a.runId].tenant == a.tenant && a.goal in RunTransitions(s.runs[a.runId].status)
  {
    EmptySound(alerts);
    RunSound(State(alerts, map[], map[]), actions, s);
    assert a.runId in s.runs ==> Recorded(s, a.runId);
  }

  /** Opening a case twice yields the case opened first, and triages a new alert once. */
  lemma CreateIsIdempotent(s: State, tenant: string, alertId: string, actor: string, freshId: string,
        actor2: string, freshId2: string)
    requires Possible(s, Create(tenant, alertId, actor, freshId)) && HasAlert(s.alerts, tenant, alertId)
    requires Possible(Step(s, Create(tenant, alertId, actor, freshId)), Create(tenant, alertId, actor2, freshId2))
    ensures var t := Step(s, Create(tenant, alertId, actor, freshId));
      && Step(t, Create(tenant, alertId, actor2, freshId2)) == t
      && exists i | 0 <= i < |t.alerts| ::
           Alerts.Names(t.alerts[i], tenant, alertId) && Linked(t, t.alerts[i], tenant)
             && (t != s ==> t.alerts[i].status != Alerts.New)
  {
    var t := Step(s, Create(tenant, alertId, actor, freshId));
    var i :| 0 <= i < |s.alerts| && Alerts.Names(s.alerts[i], tenant, alertId);
    assert Alerts.Names(t.alerts[i], tenant, alertId);
  }
}
