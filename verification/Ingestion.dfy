/** The at-least-once ingestion protocol of `ingestion.py` and `detection_store.py`: any number of
    deliveries, each a sequence of atomic steps, interleaved with each other and with analysts, any of
    them crashing between two steps and being redelivered. */
module Ingestion {
  import opened Wrappers
  import Alerts

  const CONTRACT_VERSION := "1.0.0"

  datatype Event = Event(id: string, tenant: string, correlation: Option<string>, version: string)

  /** A detection record; `core` is what the alert workflow reads of it. */
  datatype Record = Record(core: Alerts.Detection, event: string, rule: string, correlation: Option<string>)

  datatype Config = Config(detectionObservers: nat, eventObservers: nat, alerting: bool, defaultWindow: int)

  type Detections = map<string, Record>

  predicate Bound(e: Event, d: Record) {
    d.event == e.id && d.core.tenant == e.tenant && d.correlation == e.correlation
  }

  predicate SameTriple(a: Record, b: Record) {
    a.core.tenant == b.core.tenant && a.event == b.event && a.rule == b.rule
  }

  predicate TripleStored(detections: Detections, d: Record) {
    exists x | x in detections :: SameTriple(detections[x], d)
  }

  // ----- The detection table -----

  /** What `persist` may answer: the row under the same detection id, else a row under the same tenant,
      event and rule, else the new row. */
  predicate PersistAnswers(detections: Detections, d: Record, stored: Record, created: bool) {
    if d.core.id in detections then !created && stored == detections[d.core.id]
    else if TripleStored(detections, d) then
      !created && stored.core.id in detections && detections[stored.core.id] == stored && SameTriple(stored, d)
    else created && stored == d
  }

  class DetectionRepository {
    var rows: Detections

    constructor ()
      ensures rows == map[]
    {
      rows := map[];
    }

    method Persist(d: Record) returns (stored: Record, created: bool)
      requires forall x | x in rows :: rows[x].core.id == x
      modifies this
      ensures PersistAnswers(old(rows), d, stored, created)
      ensures rows == if created then old(rows)[d.core.id := d] else old(rows)
    {
      if d.core.id in rows {
        return rows[d.core.id], false;
      }
      if x :| x in rows && rows[x].core.tenant == d.core.tenant && rows[x].event == d.event && rows[x].rule == d.rule {
        assert SameTriple(rows[x], d);
        return rows[x], false;
      }
      rows := rows[d.core.id := d];
      return d, true;
    }
  }

  // ----- Deliveries as state machines -----

  datatype Phase =
    | Persisting
    | Alerting(stored: Record, created: bool)
    | Observing(stored: Record, observer: nat)
    | Notifying(observer: nat)
    | Done

  datatype Delivery = Delivery(event: Event, candidates: seq<Record>, next: nat, phase: Phase, alive: bool)

  /** `seen` and `notified` log the calls of detection and event observers; `creator` remembers which
      delivery inserted each row. */
  datatype State = State(
    detections: Detections, alerts: seq<Alerts.Alert>, seen: seq<(nat, string)>, notified: seq<(nat, Event)>,
    creator: map<string, nat>, deliveries: map<nat, Delivery>)

  datatype Action =
    | Start(w: nat, event: Event, candidates: seq<Record>)
    | Advance(w: nat, stored: Record, created: bool, pick: Option<nat>, freshId: string)
    | Crash(w: nat)
    | Analyst(action: Alerts.Action)

  const EMPTY := State(map[], [], [], [], map[], map[])

  function Begun(event: Event, candidates: seq<Record>): Delivery {
    Delivery(event, candidates, 0, if candidates == [] then Notifying(0) else Persisting, true)
  }

  function NextCandidate(k: Delivery): Delivery {
    if k.next + 1 < |k.candidates| then k.(next := k.next + 1, phase := Persisting)
    else k.(next := k.next + 1, phase := Notifying(0))
  }

  function Put(s: State, w: nat, k: Delivery): State {
    s.(deliveries := s.deliveries[w := k])
  }

  predicate CanAdvance(s: State, w: nat) {
    w in s.deliveries && s.deliveries[w].alive && s.deliveries[w].phase != Done
    && (s.deliveries[w].phase.Persisting? ==> s.deliveries[w].next < |s.deliveries[w].candidates|)
  }

  predicate Possible(config: Config, s: State, a: Action) {
    match a
    case Start(w, event, _) => w !in s.deliveries && event.version == CONTRACT_VERSION
    case Advance(w, stored, created, pick, freshId) =>
      CanAdvance(s, w) &&
      var k := s.deliveries[w];
      && (k.phase.Persisting? && Bound(k.event, k.candidates[k.next]) ==>
            PersistAnswers(s.detections, k.candidates[k.next], stored, created))
      && (k.phase.Alerting? && config.alerting ==>
            Alerts.Possible(config.defaultWindow, s.alerts, Alerts.Ingest(k.phase.stored.core, pick, freshId)))
    case Crash(w) => w in s.deliveries
    case Analyst(action) => !action.Ingest?
  }

  function Step(config: Config, s: State, a: Action): State
    requires Possible(config, s, a)
  {
    match a
    case Start(w, event, candidates) => Put(s, w, Begun(event, candidates))
    case Crash(w) => Put(s, w, s.deliveries[w].(alive := false))
    case Analyst(action) => s.(alerts := Alerts.Step(config.defaultWindow, s.alerts, action))
    case Advance(w, stored, created, pick, freshId) =>
      var k := s.deliveries[w];
      match k.phase
      case Persisting =>
        if !Bound(k.event, k.candidates[k.next]) then Put(s, w, k.(alive := false))
        else if created then
          Put(s.(detections := s.detections[stored.core.id := stored], creator := s.creator[stored.core.id := w]),
              w, k.(phase := Alerting(stored, true)))
        else Put(s, w, k.(phase := Alerting(stored, false)))
      case Alerting(d, isNew) =>
        var alerts := if config.alerting then Alerts.Ingested(s.alerts, d.core, pick, freshId) else s.alerts;
        Put(s.(alerts := alerts), w, if isNew then k.(phase := Observing(d, 0)) else NextCandidate(k))
      case Observing(d, o) =>
        if o < config.detectionObservers then
          Put(s.(seen := s.seen + [(o, d.core.id)]), w, k.(phase := Observing(d, o + 1)))
        else Put(s, w, NextCandidate(k))
      case Notifying(o) =>
        if o < config.eventObservers then
          Put(s.(notified := s.notified + [(o, k.event)]), w, k.(phase := Notifying(o + 1)))
        else Put(s, w, k.(phase := Done))
      case Done => s
  }

  /** The state after a run of possible actions, or nothing when some action was not possible. */
  ghost function RunFrom(config: Config, s: State, actions: seq<Action>): Option<State> {
    if actions == [] then Some(s)
    else
      var before := RunFrom(config, s, actions[..|actions| - 1]);
      if before.Some? && Possible(config, before.value, actions[|actions| - 1])
      then Some(Step(config, before.value, actions[|actions| - 1]))
      else None
  }

  lemma RunOneMore(config: Config, s: State, actions: seq<Action>, t: State, a: Action)
    requires RunFrom(config, s, actions) == Some(t) && Possible(config, t, a)
    ensures RunFrom(config, s, actions + [a]) == Some(Step(config, t, a))
  {
    assert (actions + [a])[..|actions|] == actions;
  }

  lemma RunNone(config: Config, s: State)
    ensures RunFrom(config, s, []) == Some(s)
  {
  }

  // ----- The processor -----

  datatype Outcome =
    | Completed(persisted: seq<Record>, created: seq<string>, duplicate: seq<string>)
    | UnsupportedVersion
    | BindingMismatch

  /** The ids of the records with this flag, in order. */
  function IdsWhere(records: seq<Record>, flags: seq<bool>, flag: bool): seq<string>
    requires |flags| == |records|
  {
    if records == [] then []
    else
      var n := |records| - 1;
      IdsWhere(records[..n], flags[..n], flag) + if flags[n] == flag then [records[n].core.id] else []
  }

  lemma NothingReported(rows: Detections)
    ensures Reports(rows, rows, [], [], [], [], [])
  {
  }

  lemma IdsWhereOneMore(records: seq<Record>, flags: seq<bool>, r: Record, f: bool, flag: bool)
    requires |flags| == |records|
    ensures IdsWhere(records + [r], flags + [f], flag) ==
      IdsWhere(records, flags, flag) + if f == flag then [r.core.id] else []
  {
    assert (records + [r])[..|records|] == records && (flags + [f])[..|flags|] == flags;
  }

  /** `row` answers for the detection `d`: it has its id, or its tenant, event and rule. */
  predicate AnswersFor(row: Record, d: Record) {
    row.core.id == d.core.id || SameTriple(row, d)
  }

  /** What a call reports on `candidates`: one stored row that answers for each, and, in order, the ids of those that
      are new to the table (`flags`) and of those that are not. */
  ghost predicate Reports(before: Detections, rows: Detections, candidates: seq<Record>, persisted: seq<Record>,
        flags: seq<bool>, created: seq<string>, duplicate: seq<string>)
  {
    && |persisted| == |flags| == |candidates|
    && (forall i | 0 <= i < |candidates| ::
          var row := persisted[i];
          AnswersFor(row, candidates[i]) && row.core.id in rows && rows[row.core.id] == row)
    && created == IdsWhere(persisted, flags, true) && duplicate == IdsWhere(persisted, flags, false)
    && (forall x | x in before :: x in rows)
    && (forall x :: x in created <==> x in rows && x !in before)
    && (forall i, j | 0 <= i < j < |created| :: created[i] != created[j])
  }

  lemma ReportsOneMore(before: Detections, rows: Detections, candidates: seq<Record>, persisted: seq<Record>,
        flags: seq<bool>, created: seq<string>, duplicate: seq<string>, d: Record, stored: Record, isNew: bool)
    requires Reports(before, rows, candidates, persisted, flags, created, duplicate)
    requires forall x | x in rows :: rows[x].core.id == x
    requires PersistAnswers(rows, d, stored, isNew)
    ensures Reports(before, if isNew then rows[d.core.id := d] else rows, candidates + [d], persisted + [stored],
      flags + [isNew], if isNew then created + [stored.core.id] else created,
      if isNew then duplicate else duplicate + [stored.core.id])
  {
    IdsWhereOneMore(persisted, flags, stored, isNew, true);
    IdsWhereOneMore(persisted, flags, stored, isNew, false);
    hide IdsWhere, TripleStored;
  }

  class CanonicalBrokerProcessor {
    const config: Config
    const repository: DetectionRepository
    const workflow: Alerts.AlertWorkflow
    var seen: seq<(nat, string)>
    var notified: seq<(nat, Event)>

    constructor (config: Config)
      ensures this.config == config && fresh(repository) && fresh(workflow)
      ensures repository.rows == map[] && workflow.rows == [] && seen == [] && notified == []
      ensures workflow.defaultWindow == config.defaultWindow
    {
      this.config, seen, notified := config, [], [];
      repository := new DetectionRepository();
      workflow := new Alerts.AlertWorkflow(config.defaultWindow);
    }

    /** The durable state, with the bookkeeping of all deliveries added. */
    ghost function View(creator: map<string, nat>, deliveries: map<nat, Delivery>): State
      reads this, repository, workflow
    {
      State(repository.rows, workflow.rows, seen, notified, creator, deliveries)
    }

    ghost predicate Matches(s: State)
      reads this, repository, workflow
    {
      s == View(s.creator, s.deliveries)
    }

    ghost predicate Valid()
      reads this, repository, workflow
    {
      && workflow.defaultWindow == config.defaultWindow && workflow.Valid()
      && (forall x | x in repository.rows :: repository.rows[x].core.id == x)
    }

    /** One round of the candidate loop, as a stretch of the delivery `w` of the state machine. */
    method HandleCandidate(d: Record, freshId: string, ghost w: nat, ghost start: State, ghost done: seq<Action>,
          ghost s: State)
      returns (stored: Record, created: bool, ghost actions: seq<Action>, ghost after: State)
      requires Valid() && Matches(s) && RunFrom(config, start, done) == Some(s)
      requires CanAdvance(s, w) && s.deliveries[w].phase == Persisting
      requires s.deliveries[w].candidates[s.deliveries[w].next] == d && Bound(s.deliveries[w].event, d)
      requires forall i | 0 <= i < |workflow.rows| :: workflow.rows[i].id != freshId
      modifies this, repository, workflow
      ensures Valid() && Matches(after) && RunFrom(config, start, actions) == Some(after)
      ensures after.deliveries == s.deliveries[w := NextCandidate(s.deliveries[w])]
      ensures PersistAnswers(s.detections, d, stored, created)
      ensures repository.rows == if created then s.detections[d.core.id := d] else s.detections
      ensures forall i | 0 <= i < |workflow.rows| ::
        workflow.rows[i].id == freshId || exists j | 0 <= j < |s.alerts| :: s.alerts[j].id == workflow.rows[i].id
    {
      hide RunFrom, Step, Possible, Alerts.UniqueIds;
      stored, created, actions, after := StoreRow(d, w, start, done, s);
      actions, after := RaiseAlert(stored, created, freshId, w, start, actions, after);
      if created {
        actions, after := CallObservers(stored, w, start, actions, after);
      }
    }

    method StoreRow(d: Record, ghost w: nat, ghost start: State, ghost done: seq<Action>, ghost s: State)
      returns (stored: Record, created: bool, ghost actions: seq<Action>, ghost after: State)
      requires Valid() && Matches(s) && RunFrom(config, start, done) == Some(s)
      requires CanAdvance(s, w) && s.deliveries[w].phase == Persisting
      requires s.deliveries[w].candidates[s.deliveries[w].next] == d && Bound(s.deliveries[w].event, d)
      modifies repository
      ensures Valid() && Matches(after) && RunFrom(config, start, actions) == Some(after)
      ensures after.alerts == s.alerts
      ensures after.deliveries == s.deliveries[w := s.deliveries[w].(phase := Alerting(stored, created))]
      ensures PersistAnswers(s.detections, d, stored, created)
      ensures repository.rows == if created then s.detections[d.core.id := d] else s.detections
    {
      hide RunFrom, Alerts.Possible, Alerts.Ingested, Alerts.Step, Alerts.UniqueIds;
      stored, created := repository.Persist(d);
      ghost var a := Advance(w, stored, created, None, "");
      RunOneMore(config, start, done, s, a);
      actions, after := done + [a], Step(config, s, a);
    }

    /** The alert workflow's turn, which is taken for new and for known rows alike. */
    method RaiseAlert(stored: Record, created: bool, freshId: string, ghost w: nat, ghost start: State,
          ghost done: seq<Action>, ghost s: State)
      returns (ghost actions: seq<Action>, ghost after: State)
      requires Valid() && Matches(s) && RunFrom(config, start, done) == Some(s)
      requires CanAdvance(s, w) && s.deliveries[w].phase == Alerting(stored, created)
      requires forall i | 0 <= i < |workflow.rows| :: workflow.rows[i].id != freshId
      modifies workflow
      ensures Valid() && Matches(after) && RunFrom(config, start, actions) == Some(after)
      ensures after.deliveries == s.deliveries[w := if created then s.deliveries[w].(phase := Observing(stored, 0))
                                                     else NextCandidate(s.deliveries[w])]
      ensures forall i | 0 <= i < |workflow.rows| ::
        workflow.rows[i].id == freshId || exists j | 0 <= j < |s.alerts| :: s.alerts[j].id == workflow.rows[i].id
    {
      hide RunFrom, PersistAnswers;
      ghost var pick: Option<nat> := None;
      if config.alerting {
        var result;
        result, pick := workflow.IngestDetection(stored.core, freshId);
      }
      ghost var a := Advance(w, stored, created, pick, freshId);
      RunOneMore(config, start, done, s, a);
      actions, after := done + [a], Step(config, s, a);
    }

    /** The loop over the detection observers, run only for a row this delivery inserted. */
    method CallObservers(stored: Record, ghost w: nat, ghost start: State, ghost done: seq<Action>, ghost s: State)
      returns (ghost actions: seq<Action>, ghost after: State)
      requires Valid() && Matches(s) && RunFrom(config, start, done) == Some(s)
      requires CanAdvance(s, w) && s.deliveries[w].phase == Observing(stored, 0)
      modifies this
      ensures Valid() && Matches(after) && RunFrom(config, start, actions) == Some(after)
      ensures after.deliveries == s.deliveries[w := NextCandidate(s.deliveries[w])]
    {
      hide RunFrom, Alerts.Possible, Alerts.Ingested, Alerts.Step, Alerts.UniqueIds, PersistAnswers;
      actions, after := done, s;
      ghost var a := Advance(w, stored, false, None, "");
      for o := 0 to config.detectionObservers
        invariant Valid() && Matches(after) && RunFrom(config, start, actions) == Some(after)
        invariant after.deliveries == s.deliveries[w := s.deliveries[w].(phase := Observing(stored, o))]
      {
        seen := seen + [(o, stored.core.id)];
        RunOneMore(config, start, actions, after, a);
        actions, after := actions + [a], Step(config, after, a);
      }
      RunOneMore(config, start, actions, after, a);
      actions, after := actions + [a], Step(config, after, a);
    }

    method CallEventObservers(event: Event, ghost w: nat, ghost start: State, ghost done: seq<Action>, ghost s: State)
      returns (ghost actions: seq<Action>, ghost after: State)
      requires Valid() && Matches(s) && RunFrom(config, start, done) == Some(s)
      requires CanAdvance(s, w) && s.deliveries[w].phase == Notifying(0) && s.deliveries[w].event == event
      modifies this
      ensures Valid() && Matches(after) && RunFrom(config, start, actions) == Some(after)
      ensures after.deliveries == s.deliveries[w := s.deliveries[w].(phase := Done)]
    {
      hide RunFrom, Alerts.Possible, Alerts.Ingested, Alerts.Step, Alerts.UniqueIds, PersistAnswers;
      actions, after := done, s;
      ghost var a := Advance(w, Record(Alerts.Detection("", "", "", 0, Alerts.Absent), "", "", None), false, None, "");
      for o := 0 to config.eventObservers
        invariant Valid() && Matches(after) && RunFrom(config, start, actions) == Some(after)
        invariant after.deliveries == s.deliveries[w := s.deliveries[w].(phase := Notifying(o))]
      {
        notified := notified + [(o, event)];
        RunOneMore(config, start, actions, after, a);
        actions, after := actions + [a], Step(config, after, a);
      }
      RunOneMore(config, start, actions, after, a);
      actions, after := actions + [a], Step(config, after, a);
    }

    /** Handles one broker message. `freshIds` are the generated alert ids and `w` names the delivery;
        `actions` is the run of the state machine that this call performed, and `flags` tells which of the
        persisted rows are new. */
    method Process(event: Event, candidates: seq<Record>, freshIds: seq<string>,
        ghost w: nat, ghost creator: map<string, nat>, ghost deliveries: map<nat, Delivery>)
      returns (outcome: Outcome, ghost actions: seq<Action>, ghost after: State, ghost flags: seq<bool>)
      requires Valid() && w !in deliveries
      requires |freshIds| == |candidates| && forall i, j | 0 <= i < j < |freshIds| :: freshIds[i] != freshIds[j]
      requires forall i | 0 <= i < |workflow.rows| :: workflow.rows[i].id !in freshIds
      modifies this, repository, workflow
      ensures Valid() && Matches(after)
      ensures RunFrom(config, old(View(creator, deliveries)), actions) == Some(after)
      ensures outcome == UnsupportedVersion <==> event.version != CONTRACT_VERSION
      ensures outcome == UnsupportedVersion ==> actions == []
      ensures outcome != UnsupportedVersion ==>
        w in after.deliveries && after.deliveries[w].event == event && after.deliveries[w].candidates == candidates
      ensures outcome == BindingMismatch <==>
        event.version == CONTRACT_VERSION && exists i | 0 <= i < |candidates| ::
          candidates[i].event != event.id || candidates[i].core.tenant != event.tenant
            || candidates[i].correlation != event.correlation
      ensures outcome == BindingMismatch ==> !after.deliveries[w].alive
      ensures outcome.Completed? ==>
        && after.deliveries[w].phase == Done
        && Reports(old(repository.rows), repository.rows, candidates, outcome.persisted, flags, outcome.created,
          outcome.duplicate)
    {
      hide RunFrom, TripleStored, Alerts.Possible, Alerts.Ingested, Alerts.Step, Alerts.UniqueIds, Reports,
        PersistAnswers;
      ghost var start, before := View(creator, deliveries), repository.rows;
      actions, after, flags := [], start, [];
      RunNone(config, start);
      if event.version != CONTRACT_VERSION {
        return UnsupportedVersion, actions, after, flags;
      }
      ghost var a := Start(w, event, candidates);
      RunOneMore(config, start, actions, after, a);
      actions, after := actions + [a], Step(config, after, a);

      var persisted: seq<Record> := [];
      var created, duplicate: seq<string> := [], [];
      assert Reports(repository.rows, repository.rows, [], [], [], [], []) by {
        NothingReported(repository.rows);
      }
      assert candidates[..0] == [];
      for i := 0 to |candidates|
        invariant Valid() && Matches(after) && RunFrom(config, start, actions) == Some(after)
        invariant w in after.deliveries
        invariant after.deliveries[w] ==
          Delivery(event, candidates, i, if i == |candidates| then Notifying(0) else Persisting, true)
        invariant forall j | 0 <= j < i :: Bound(event, candidates[j])
        invariant forall j, n | 0 <= j < |workflow.rows| && i <= n < |freshIds| :: workflow.rows[j].id != freshIds[n]
        invariant Reports(before, repository.rows, candidates[..i], persisted, flags, created, duplicate)
      {
        var d := candidates[i];
        if d.event != event.id || d.core.tenant != event.tenant || d.correlation != event.correlation {
          a := Advance(w, d, false, None, "");
          RunOneMore(config, start, actions, after, a);
          actions, after := actions + [a], Step(config, after, a);
          return BindingMismatch, actions, after, flags;
        }
        ghost var was := repository.rows;
        var stored, isNew;
        stored, isNew, actions, after := HandleCandidate(d, freshIds[i], w, start, actions, after);
        ReportsOneMore(before, was, candidates[..i], persisted, flags, created, duplicate, d, stored, isNew);
        assert candidates[..i + 1] == candidates[..i] + [d];
        persisted, flags := persisted + [stored], flags + [isNew];
        if isNew {
          created := created + [stored.core.id];
        } else {
          duplicate := duplicate + [stored.core.id];
        }
      }

      assert candidates[..|candidates|] == candidates;
      actions, after := CallEventObservers(event, w, start, actions, after);
      outcome := Completed(persisted, created, duplicate);
    }
  }
}
