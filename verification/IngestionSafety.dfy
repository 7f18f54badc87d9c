/** Safety of the ingestion protocol over every run: any interleaving of deliveries, redeliveries, crashes
    and analyst actions, from empty stores. */
module IngestionSafety {
  import opened Wrappers
  import opened Ingestion
  import Alerts

  // ----- Rows are inserted once and never change -----

  ghost predicate Keyed(s: State) {
    && (forall x | x in s.detections :: s.detections[x].core.id == x)
    && (forall x, y | x in s.detections && y in s.detections && SameTriple(s.detections[x], s.detections[y]) :: x == y)
  }

  /** Nothing durable is lost: rows stay as inserted, logs grow, and held evidence stays held. */
  ghost predicate Grows(s: State, t: State) {
    && (forall x | x in s.detections :: x in t.detections && t.detections[x] == s.detections[x])
    && s.seen <= t.seen && s.notified <= t.notified
    && (forall d | Alerts.Held(s.alerts, d) :: Alerts.Held(t.alerts, d))
  }

  lemma StepKeyed(config: Config, s: State, a: Action)
    requires Keyed(s) && Possible(config, s, a)
    ensures Keyed(Step(config, s, a))
  {
    hide Alerts.Possible, Alerts.Ingested, Alerts.Step;
  }

  lemma AlertStepHolds(default: int, rows: seq<Alerts.Alert>, a: Alerts.Action)
    requires Alerts.Possible(default, rows, a)
    ensures forall d | Alerts.Held(rows, d) :: Alerts.Held(Alerts.Step(default, rows, a), d)
  {
    hide Alerts.Step;
    forall d | Alerts.Held(rows, d) ensures Alerts.Held(Alerts.Step(default, rows, a), d) {
      var i :| 0 <= i < |rows| && rows[i].tenant == d.tenant && rows[i].key == d.key && d.id in rows[i].detectionIds;
      Alerts.StepEvolves(default, rows, a, i);
    }
  }

  lemma StepGrows(config: Config, s: State, a: Action)
    requires Keyed(s) && Possible(config, s, a)
    ensures Grows(s, Step(config, s, a))
  {
    hide Alerts.Held;
    match a
    case Analyst(action) => AlertStepHolds(config.defaultWindow, s.alerts, action);
    case Advance(w, _, _, pick, freshId) =>
      var k := s.deliveries[w];
      if k.phase.Alerting? && config.alerting {
        AlertStepHolds(config.defaultWindow, s.alerts, Alerts.Ingest(k.phase.stored.core, pick, freshId));
      }
    case _ =>
  }

  // ----- Each observer sees a detection at most once -----

  /** The delivery has inserted the row it is working on, and its observers are still to be called. */
  predicate Creates(k: Delivery) {
    k.phase.Observing? || (k.phase.Alerting? && k.phase.created)
  }

  /** The delivery still has to tell observer `o` about row `x`. */
  predicate Owes(k: Delivery, x: string, o: nat) {
    Creates(k) && k.phase.stored.core.id == x && (k.phase.Observing? ==> k.phase.observer <= o)
  }

  predicate RowKnown(s: State, x: string) {
    x in s.creator && s.creator[x] in s.deliveries
  }

  predicate CreationKnown(s: State, w: nat)
    requires w in s.deliveries && Creates(s.deliveries[w])
  {
    var x := s.deliveries[w].phase.stored.core.id;
    x in s.detections && x in s.creator && s.creator[x] == w
  }

  ghost predicate CreatorsKnown(s: State) {
    && (forall x | x in s.detections :: RowKnown(s, x))
    && (forall w | w in s.deliveries && Creates(s.deliveries[w]) :: CreationKnown(s, w))
  }

  ghost predicate SeenOnce(config: Config, s: State) {
    && (forall i, j | 0 <= i < j < |s.seen| :: s.seen[i] != s.seen[j])
    && (forall i | 0 <= i < |s.seen| :: s.seen[i].0 < config.detectionObservers && s.seen[i].1 in s.detections)
  }

  /** An observer has seen a row exactly when the delivery that inserted it got past that observer. */
  ghost predicate Ledger(config: Config, s: State)
    requires CreatorsKnown(s)
  {
    forall x, o: nat | x in s.detections && o < config.detectionObservers :: LedgerAt(config, s, x, o)
  }

  predicate Inserts(s: State, a: Action)
    requires a.Advance? && CanAdvance(s, a.w)
  {
    var k := s.deliveries[a.w];
    k.phase.Persisting? && Bound(k.event, k.candidates[k.next]) && a.created
  }

  predicate Calls(config: Config, k: Delivery) {
    k.phase.Observing? && k.phase.observer < config.detectionObservers
  }

  function CreatingMovesTo(config: Config, k: Delivery): Phase
    requires Creates(k)
  {
    if Calls(config, k) then Observing(k.phase.stored, k.phase.observer + 1)
    else if k.phase.Alerting? then Observing(k.phase.stored, 0)
    else NextCandidate(k).phase
  }

  /** How one delivery's step changes the rows, the log and what the delivery owes. */
  lemma AdvanceEffect(config: Config, s: State, a: Action)
    requires a.Advance? && Possible(config, s, a)
    ensures var t, k := Step(config, s, a), s.deliveries[a.w];
      && t.deliveries == s.deliveries[a.w := t.deliveries[a.w]]
      && t.detections == (if Inserts(s, a) then s.detections[a.stored.core.id := a.stored] else s.detections)
      && t.creator == (if Inserts(s, a) then s.creator[a.stored.core.id := a.w] else s.creator)
      && t.seen == (if Calls(config, k) then s.seen + [(k.phase.observer, k.phase.stored.core.id)] else s.seen)
      && (Inserts(s, a) ==> t.deliveries[a.w].phase == Alerting(a.stored, true) && a.stored.core.id !in s.detections)
      && (Creates(k) ==> t.deliveries[a.w].phase == CreatingMovesTo(config, k))
      && (!Inserts(s, a) && !Creates(k) ==> !Creates(t.deliveries[a.w]))
  {
    hide Alerts.Possible, Alerts.Ingested, SameTriple;
  }

  lemma StepRowKnown(config: Config, s: State, a: Action, x: string)
    requires Possible(config, s, a) && x in Step(config, s, a).detections && (x in s.detections ==> RowKnown(s, x))
    ensures RowKnown(Step(config, s, a), x)
  {
    hide Alerts.Possible, Alerts.Ingested, Alerts.Step, PersistAnswers;
    if a.Advance? {
      AdvanceEffect(config, s, a);
      hide Step;
    }
  }

  lemma StepCreationKnown(config: Config, s: State, a: Action, w: nat)
    requires Possible(config, s, a) && w in Step(config, s, a).deliveries && Creates(Step(config, s, a).deliveries[w])
    requires CreatorsKnown(s)
    ensures CreationKnown(Step(config, s, a), w)
  {
    hide Alerts.Possible, Alerts.Ingested, Alerts.Step, PersistAnswers;
    if w in s.deliveries && Creates(s.deliveries[w]) {
      assert CreationKnown(s, w);
    }
    if a.Advance? {
      AdvanceEffect(config, s, a);
      hide Step;
    }
  }

  lemma StepCreatorsKnown(config: Config, s: State, a: Action)
    requires CreatorsKnown(s) && Possible(config, s, a)
    ensures CreatorsKnown(Step(config, s, a))
  {
    hide Step, Possible, RowKnown, CreationKnown;
    var t := Step(config, s, a);
    forall x | x in t.detections ensures RowKnown(t, x) {
      StepRowKnown(config, s, a, x);
    }
    forall w | w in t.deliveries && Creates(t.deliveries[w]) ensures CreationKnown(t, w) {
      StepCreationKnown(config, s, a, w);
    }
  }

  lemma StepSeenOnce(config: Config, s: State, a: Action)
    requires Keyed(s) && CreatorsKnown(s) && SeenOnce(config, s) && Ledger(config, s) && Possible(config, s, a)
    ensures SeenOnce(config, Step(config, s, a))
  {
    hide Alerts.Possible, Alerts.Ingested, Alerts.Step, Keyed, SameTriple;
    if a.Advance? && s.deliveries[a.w].phase.Observing?
        && s.deliveries[a.w].phase.observer < config.detectionObservers {
      var k := s.deliveries[a.w];
      assert CreationKnown(s, a.w) && LedgerAt(config, s, k.phase.stored.core.id, k.phase.observer);
      assert (k.phase.observer, k.phase.stored.core.id) !in s.seen;
    }
  }

  ghost predicate LedgerAt(config: Config, s: State, x: string, o: nat)
    requires RowKnown(s, x)
  {
    (o, x) in s.seen <==> !Owes(s.deliveries[s.creator[x]], x, o)
  }

  /** Only the delivery that takes a step can change what it owes, and only for the row it works on. */
  lemma StepLedgerAt(config: Config, s: State, a: Action, x: string, o: nat)
    requires Possible(config, s, a) && CreatorsKnown(s) && SeenOnce(config, s)
    requires x in Step(config, s, a).detections && o < config.detectionObservers
    requires x in s.detections ==> LedgerAt(config, s, x, o)
    ensures RowKnown(Step(config, s, a), x) && LedgerAt(config, Step(config, s, a), x, o)
  {
    hide Alerts.Possible, Alerts.Ingested, Alerts.Step, PersistAnswers;
    StepRowKnown(config, s, a, x);
    if a.Advance? {
      AdvanceEffect(config, s, a);
      hide Step;
      if Creates(s.deliveries[a.w]) {
        assert CreationKnown(s, a.w);
      }
    }
  }

  lemma StepLedger(config: Config, s: State, a: Action)
    requires CreatorsKnown(s) && SeenOnce(config, s) && Ledger(config, s) && Possible(config, s, a)
    ensures CreatorsKnown(Step(config, s, a)) && Ledger(config, Step(config, s, a))
  {
    StepCreatorsKnown(config, s, a);
    hide Step, Possible, CreationKnown, SeenOnce, Owes;
    var t := Step(config, s, a);
    forall x, o: nat | x in t.detections && o < config.detectionObservers ensures LedgerAt(config, t, x, o) {
      StepLedgerAt(config, s, a, x, o);
    }
  }

  // ----- A completed delivery leaves its detections durable and held -----

  predicate Stored(s: State, row: Record) {
    row.core.id in s.detections && s.detections[row.core.id] == row
  }

  ghost predicate Settled(config: Config, s: State, c: Record) {
    exists row :: Stored(s, row) && AnswersFor(row, c) && (config.alerting ==> Alerts.Held(s.alerts, row.core))
  }

  /** What a delivery has achieved by its current phase. */
  ghost predicate Progress(config: Config, s: State, k: Delivery) {
    && k.next <= |k.candidates|
    && (k.phase.Alerting? || k.phase.Observing? || k.phase.Persisting? ==> k.next < |k.candidates|)
    && (k.phase.Notifying? || k.phase.Done? ==> k.next == |k.candidates|)
    && (forall j | 0 <= j < k.next :: Settled(config, s, k.candidates[j]))
    && (k.phase.Alerting? ==> Stored(s, k.phase.stored) && AnswersFor(k.phase.stored, k.candidates[k.next]))
    && (k.phase.Observing? ==> Settled(config, s, k.candidates[k.next]))
    && (forall o | 0 <= o < (if k.phase.Notifying? then k.phase.observer
      else if k.phase.Done? then config.eventObservers else 0) ::
          (o, k.event) in s.notified)
  }

  lemma RowSettles(config: Config, s: State, c: Record, row: Record)
    requires Stored(s, row) && AnswersFor(row, c) && (config.alerting ==> Alerts.Held(s.alerts, row.core))
    ensures Settled(config, s, c)
  {
  }

  lemma SettledKept(config: Config, s: State, t: State, c: Record)
    requires Settled(config, s, c) && Grows(s, t)
    ensures Settled(config, t, c)
  {
    hide Alerts.Held, SameTriple;
    var row :| Stored(s, row) && AnswersFor(row, c) && (config.alerting ==> Alerts.Held(s.alerts, row.core));
    assert Stored(t, row);
  }

  lemma ProgressKept(config: Config, s: State, t: State, k: Delivery)
    requires Progress(config, s, k) && Grows(s, t)
    ensures Progress(config, t, k)
  {
    hide Settled, Alerts.Held, SameTriple;
    forall c | Settled(config, s, c) ensures Settled(config, t, c) {
      SettledKept(config, s, t, c);
    }
  }

  lemma AlertSettles(config: Config, s: State, a: Action)
    requires a.Advance? && Possible(config, s, a) && Keyed(s) && s.deliveries[a.w].phase.Alerting?
    requires Progress(config, s, s.deliveries[a.w])
    ensures Settled(config, Step(config, s, a), s.deliveries[a.w].candidates[s.deliveries[a.w].next])
  {
    var k, t := s.deliveries[a.w], Step(config, s, a);
    var row := k.phase.stored;
    if config.alerting {
      Alerts.IngestHolds(config.defaultWindow, s.alerts, row.core, a.pick, a.freshId);
    }
    hide Alerts.Held, Alerts.Ingested, Alerts.Possible, SameTriple, Keyed, Settled;
    assert Stored(t, row) && AnswersFor(row, k.candidates[k.next]);
    RowSettles(config, t, k.candidates[k.next], row);
  }

  lemma PersistProgress(config: Config, s: State, a: Action)
    requires a.Advance? && Possible(config, s, a) && Keyed(s) && s.deliveries[a.w].phase.Persisting?
    requires Progress(config, Step(config, s, a), s.deliveries[a.w])
    ensures Progress(config, Step(config, s, a), Step(config, s, a).deliveries[a.w])
  {
    hide Settled, Alerts.Held, SameTriple, TripleStored;
  }

  lemma AdvanceProgress(config: Config, s: State, a: Action)
    requires a.Advance? && Possible(config, s, a) && Keyed(s) && Progress(config, s, s.deliveries[a.w])
    ensures Progress(config, Step(config, s, a), Step(config, s, a).deliveries[a.w])
  {
    hide Settled, Alerts.Held, Alerts.Ingested, Alerts.Possible, PersistAnswers, Grows, Keyed, AnswersFor, Stored;
    var k, t := s.deliveries[a.w], Step(config, s, a);
    StepGrows(config, s, a);
    ProgressKept(config, s, t, k);
    if k.phase.Persisting? {
      PersistProgress(config, s, a);
    } else if k.phase.Alerting? {
      AlertSettles(config, s, a);
    }
  }

  // ----- Every run -----

  ghost predicate Safe(config: Config, s: State) {
    && Keyed(s) && CreatorsKnown(s) && SeenOnce(config, s) && Ledger(config, s)
    && forall w | w in s.deliveries :: Progress(config, s, s.deliveries[w])
  }

  lemma StepSafe(config: Config, s: State, a: Action)
    requires Safe(config, s) && Possible(config, s, a)
    ensures Safe(config, Step(config, s, a)) && Grows(s, Step(config, s, a))
  {
    StepKeyed(config, s, a);
    StepGrows(config, s, a);
    StepSeenOnce(config, s, a);
    StepLedger(config, s, a);
    hide Keyed, CreatorsKnown, SeenOnce, Ledger, Grows, Progress, Possible;
    var t := Step(config, s, a);
    forall w | w in t.deliveries ensures Progress(config, t, t.deliveries[w]) {
      DeliveryProgress(config, s, a, w);
    }
  }

  lemma DeliveryProgress(config: Config, s: State, a: Action, w: nat)
    requires Safe(config, s) && Possible(config, s, a) && w in Step(config, s, a).deliveries
    ensures Progress(config, Step(config, s, a), Step(config, s, a).deliveries[w])
  {
    hide Settled, Grows, Alerts.Possible, Alerts.Ingested, PersistAnswers, Ledger, SeenOnce, CreatorsKnown, Keyed;
    var t := Step(config, s, a);
    StepGrows(config, s, a);
    if w in s.deliveries {
      ProgressKept(config, s, t, s.deliveries[w]);
    }
    if a.Advance? && w == a.w {
      AdvanceProgress(config, s, a);
    }
  }

  /** Every run keeps the protocol safe, and everything durable along the way stays. */
  lemma {:induction false} RunSafe(config: Config, s: State, actions: seq<Action>, t: State)
    requires Safe(config, s) && RunFrom(config, s, actions) == Some(t)
    ensures Safe(config, t) && Grows(s, t)
  {
    hide Safe, Possible, Step;
    if actions != [] {
      var before := RunFrom(config, s, actions[..|actions| - 1]);
      RunSafe(config, s, actions[..|actions| - 1], before.value);
      StepSafe(config, before.value, actions[|actions| - 1]);
    }
  }

  // ----- Main results -----

  lemma EmptySafe(config: Config)
    ensures Safe(config, EMPTY)
  {
  }

  /** At most one row per detection id and per tenant, event and rule, and no observer sees a detection twice. */
  lemma AtMostOnce(config: Config, actions: seq<Action>, s: State)
    requires RunFrom(config, EMPTY, actions) == Some(s)
    ensures forall x, y | x in s.detections && y in s.detections ::
      var r, q := s.detections[x], s.detections[y];
      r.core.id == x && ((r.core.tenant, r.event, r.rule) == (q.core.tenant, q.event, q.rule) ==> x == y)
    ensures forall i, j | 0 <= i < j < |s.seen| :: s.seen[i] != s.seen[j]
  {
    EmptySafe(config);
    RunSafe(config, EMPTY, actions, s);
  }

  /** Once any delivery of a message has completed, each of its detections has a durable row held by an
      alert, and every event observer was called, whatever earlier attempts did. */
  lemma CompletedDeliveryIsSettled(config: Config, actions: seq<Action>, s: State, w: nat)
    requires RunFrom(config, EMPTY, actions) == Some(s) && w in s.deliveries && s.deliveries[w].phase == Done
    ensures forall c | c in s.deliveries[w].candidates :: Settled(config, s, c)
    ensures forall o | 0 <= o < config.eventObservers :: (o, s.deliveries[w].event) in s.notified
  {
    EmptySafe(config);
    RunSafe(config, EMPTY, actions, s);
    assert Progress(config, s, s.deliveries[w]);
    hide Settled;
  }

  // ----- Where rows come from -----

  /** Every row is a candidate of the delivery that inserted it. */
  ghost predicate RowsAreCandidates(s: State) {
    forall x | x in s.detections :: RowKnown(s, x) && s.detections[x] in s.deliveries[s.creator[x]].candidates
  }

  lemma DeliveryKept(config: Config, s: State, a: Action, w: nat)
    requires Possible(config, s, a) && w in s.deliveries
    ensures w in Step(config, s, a).deliveries
      && Step(config, s, a).deliveries[w].candidates == s.deliveries[w].candidates
      && Step(config, s, a).deliveries[w].event == s.deliveries[w].event
  {
    hide Alerts.Possible, Alerts.Ingested, Alerts.Step, PersistAnswers, Bound;
  }

  lemma InsertsCandidate(config: Config, s: State, a: Action)
    requires a.Advance? && Possible(config, s, a) && Inserts(s, a)
    ensures a.stored in s.deliveries[a.w].candidates
  {
    hide Alerts.Possible, SameTriple, TripleStored;
  }

  lemma StepRowsAreCandidates(config: Config, s: State, a: Action)
    requires RowsAreCandidates(s) && Possible(config, s, a)
    ensures RowsAreCandidates(Step(config, s, a))
  {
    hide Alerts.Possible, Alerts.Ingested, Alerts.Step, PersistAnswers;
    var t := Step(config, s, a);
    forall w | w in s.deliveries ensures w in t.deliveries && t.deliveries[w].candidates == s.deliveries[w].candidates {
      DeliveryKept(config, s, a, w);
    }
    if a.Advance? {
      AdvanceEffect(config, s, a);
      if Inserts(s, a) {
        InsertsCandidate(config, s, a);
      }
      hide Step, Inserts, Possible;
    }
  }

  lemma {:induction false} RunRowsAreCandidates(config: Config, actions: seq<Action>, s: State)
    requires RunFrom(config, EMPTY, actions) == Some(s)
    ensures RowsAreCandidates(s)
  {
    if actions != [] {
      hide Step, Possible, RowsAreCandidates;
      var before := RunFrom(config, EMPTY, actions[..|actions| - 1]).value;
      RunRowsAreCandidates(config, actions[..|actions| - 1], before);
      StepRowsAreCandidates(config, before, actions[|actions| - 1]);
    } else {
      assert RowsAreCandidates(EMPTY);
    }
  }

  lemma StartKnown(config: Config, s: State, a: Action, w: nat)
    requires Possible(config, s, a) && w in Step(config, s, a).deliveries
    ensures if w in s.deliveries then Step(config, s, a).deliveries[w].event == s.deliveries[w].event
      else Step(config, s, a).deliveries[w].event.version == CONTRACT_VERSION
  {
    if w in s.deliveries {
      DeliveryKept(config, s, a, w);
    }
    hide Alerts.Possible, Alerts.Ingested, Alerts.Step, PersistAnswers, Bound;
  }

  /** No message of another contract version is ever taken up. */
  lemma {:induction false} OnlyKnownVersions(config: Config, actions: seq<Action>, s: State)
    requires RunFrom(config, EMPTY, actions) == Some(s)
    ensures forall w | w in s.deliveries :: s.deliveries[w].event.version == CONTRACT_VERSION
  {
    if actions != [] {
      hide Step, Possible;
      var a := actions[|actions| - 1];
      var before := RunFrom(config, EMPTY, actions[..|actions| - 1]).value;
      OnlyKnownVersions(config, actions[..|actions| - 1], before);
      forall w | w in s.deliveries ensures s.deliveries[w].event.version == CONTRACT_VERSION {
        StartKnown(config, before, a, w);
      }
    }
  }

  // ----- Rows are bound to the message that brought them -----

  /** The row names the event, tenant and correlation of the delivery that inserted it. */
  predicate RowBound(s: State, x: string)
    requires x in s.detections && RowKnown(s, x)
  {
    var row, event := s.detections[x], s.deliveries[s.creator[x]].event;
    row.event == event.id && row.core.tenant == event.tenant && row.correlation == event.correlation
  }

  ghost predicate RowsBound(s: State) {
    forall x | x in s.detections :: RowKnown(s, x) && RowBound(s, x)
  }

  lemma InsertedIsBound(config: Config, s: State, a: Action)
    requires a.Advance? && Possible(config, s, a) && Inserts(s, a)
    ensures var event := s.deliveries[a.w].event;
      a.stored.event == event.id && a.stored.core.tenant == event.tenant && a.stored.correlation == event.correlation
  {
    hide Alerts.Possible, SameTriple, TripleStored;
  }

  lemma StepRowsBound(config: Config, s: State, a: Action)
    requires RowsBound(s) && Possible(config, s, a)
    ensures RowsBound(Step(config, s, a))
  {
    hide Alerts.Possible, Alerts.Ingested, Alerts.Step, PersistAnswers;
    var t := Step(config, s, a);
    forall w | w in s.deliveries ensures w in t.deliveries && t.deliveries[w].event == s.deliveries[w].event {
      DeliveryKept(config, s, a, w);
    }
    if a.Advance? {
      AdvanceEffect(config, s, a);
      if Inserts(s, a) {
        InsertedIsBound(config, s, a);
      }
      hide Step, Inserts, Possible;
    }
  }

  /** In every run each stored row names the event, tenant and correlation of the message of the delivery that
      inserted it, whatever an evaluator made up. */
  lemma RowsAreBound(config: Config, actions: seq<Action>, s: State)
    requires RunFrom(config, EMPTY, actions) == Some(s)
    ensures forall x | x in s.detections ::
      && x in s.creator && s.creator[x] in s.deliveries
      && var row, event := s.detections[x], s.deliveries[s.creator[x]].event;
        row.event == event.id && row.core.tenant == event.tenant && row.correlation == event.correlation
  {
    RunRowsBound(config, actions, s);
  }

  lemma {:induction false} RunRowsBound(config: Config, actions: seq<Action>, s: State)
    requires RunFrom(config, EMPTY, actions) == Some(s)
    ensures RowsBound(s)
  {
    if actions != [] {
      hide Step, Possible, RowsBound;
      var before := RunFrom(config, EMPTY, actions[..|actions| - 1]).value;
      RunRowsBound(config, actions[..|actions| - 1], before);
      StepRowsBound(config, before, actions[|actions| - 1]);
    } else {
      assert RowsBound(EMPTY);
    }
  }

  // ----- Whose row answers -----

  /** Among everything delivered so far, a detection id determines tenant, event and rule. */
  ghost predicate IdsDetermineTriples(s: State) {
    forall v, w, c, d | v in s.deliveries && w in s.deliveries && c in s.deliveries[v].candidates
      && d in s.deliveries[w].candidates ::
      c.core.id == d.core.id ==> SameTriple(c, d)
  }

  /** Among everything delivered so far, tenant, event and rule determine the detection id. */
  ghost predicate TriplesDetermineIds(s: State) {
    forall v, w, c, d | v in s.deliveries && w in s.deliveries && c in s.deliveries[v].candidates
      && d in s.deliveries[w].candidates ::
      SameTriple(c, d) ==> c.core.id == d.core.id
  }

  /** There is a row of `c`'s own tenant, event and rule, held by an alert. */
  ghost predicate OwnsRow(config: Config, s: State, c: Record) {
    exists row :: Stored(s, row) && SameTriple(row, c) && (config.alerting ==> Alerts.Held(s.alerts, row.core))
  }

  ghost predicate AllOwnRows(config: Config, s: State) {
    forall w, c | w in s.deliveries && c in s.deliveries[w].candidates :: OwnsRow(config, s, c)
  }

  /** While ids determine tenant, event and rule, the row that answers for a detection of a completed delivery is
      one of its own tenant, event and rule. (`persist` looks up by id alone, so otherwise a row of another tenant
      may answer.) */
  lemma CompletedDeliveryOwnsItsRows(config: Config, actions: seq<Action>, s: State, w: nat, c: Record)
    requires RunFrom(config, EMPTY, actions) == Some(s) && IdsDetermineTriples(s)
    requires w in s.deliveries && s.deliveries[w].phase == Done && c in s.deliveries[w].candidates
    ensures OwnsRow(config, s, c)
  {
    CompletedDeliveryIsSettled(config, actions, s, w);
    RunRowsAreCandidates(config, actions, s);
    hide SameTriple, Alerts.Held, RunFrom;
    var row :| Stored(s, row) && AnswersFor(row, c) && (config.alerting ==> Alerts.Held(s.alerts, row.core));
    assert row == s.detections[row.core.id];
    assert SameTriple(row, c);
  }

  /** A row of a candidate's own triple has the candidate's id, when triples determine ids. */
  lemma OwnRowHasItsId(config: Config, s: State, w: nat, c: Record)
    requires RowsAreCandidates(s) && TriplesDetermineIds(s) && w in s.deliveries && c in s.deliveries[w].candidates
    requires OwnsRow(config, s, c)
    ensures c.core.id in s.detections && SameTriple(s.detections[c.core.id], c)
  {
    hide SameTriple, Alerts.Held;
    var row :| Stored(s, row) && SameTriple(row, c) && (config.alerting ==> Alerts.Held(s.alerts, row.core));
    assert row in s.deliveries[s.creator[row.core.id]].candidates;
  }

  /** When all deliveries have completed and triples determine ids, every detection has a row of its own tenant,
      event and rule if and only if ids determine tenant, event and rule. */
  lemma OwnRowsExactly(config: Config, actions: seq<Action>, s: State)
    requires RunFrom(config, EMPTY, actions) == Some(s) && TriplesDetermineIds(s)
    requires forall w | w in s.deliveries :: s.deliveries[w].phase == Done
    ensures AllOwnRows(config, s) <==> IdsDetermineTriples(s)
  {
    hide OwnsRow, RunFrom, RowsAreCandidates;
    RunRowsAreCandidates(config, actions, s);
    if IdsDetermineTriples(s) {
      forall w, c | w in s.deliveries && c in s.deliveries[w].candidates ensures OwnsRow(config, s, c) {
        CompletedDeliveryOwnsItsRows(config, actions, s, w, c);
      }
    }
    if AllOwnRows(config, s) {
      forall v, w, c, d | v in s.deliveries && w in s.deliveries && c in s.deliveries[v].candidates
          && d in s.deliveries[w].candidates && c.core.id == d.core.id
        ensures SameTriple(c, d)
      {
        OwnRowHasItsId(config, s, v, c);
        OwnRowHasItsId(config, s, w, d);
      }
    }
  }

  lemma AlertOne(config: Config, actions: seq<Action>, s: State, w: nat, stored: Record, created: bool)
    returns (longer: seq<Action>, t: State)
    requires RunFrom(config, EMPTY, actions) == Some(s) && w in s.deliveries && s.deliveries[w].alive
    requires s.deliveries[w].phase == Alerting(stored, created)
    ensures RunFrom(config, EMPTY, longer) == Some(t) && t.detections == s.detections
    ensures var k := s.deliveries[w];
      t.deliveries == s.deliveries[w := if created then k.(phase := Observing(stored, 0)) else NextCandidate(k)]
  {
    hide RunFrom, Alerts.Ingested;
    var pick := Alerts.PickExists(s.alerts, stored.core, Alerts.Cutoff(stored.core, config.defaultWindow));
    var freshId := Alerts.FreshIdExists(s.alerts);
    var a := Advance(w, stored, false, pick, freshId);
    RunOneMore(config, EMPTY, actions, s, a);
    longer, t := actions + [a], Step(config, s, a);
  }

  lemma ObserveAll(config: Config, actions: seq<Action>, s: State, w: nat, stored: Record)
    returns (longer: seq<Action>, t: State)
    requires RunFrom(config, EMPTY, actions) == Some(s) && w in s.deliveries && s.deliveries[w].alive
    requires s.deliveries[w].phase == Observing(stored, 0)
    ensures RunFrom(config, EMPTY, longer) == Some(t) && t.detections == s.detections
    ensures t.deliveries == s.deliveries[w := NextCandidate(s.deliveries[w])]
  {
    hide RunFrom;
    longer, t := actions, s;
    var k, a := s.deliveries[w], Advance(w, stored, false, None, "");
    for p := 0 to config.detectionObservers
      invariant RunFrom(config, EMPTY, longer) == Some(t) && t.detections == s.detections
      invariant t.deliveries == s.deliveries[w := k.(phase := Observing(stored, p))]
    {
      RunOneMore(config, EMPTY, longer, t, a);
      longer, t := longer + [a], Step(config, t, a);
    }
    RunOneMore(config, EMPTY, longer, t, a);
    longer, t := longer + [a], Step(config, t, a);
  }

  lemma NotifyAll(config: Config, actions: seq<Action>, s: State, w: nat, stored: Record)
    returns (longer: seq<Action>, t: State)
    requires RunFrom(config, EMPTY, actions) == Some(s) && w in s.deliveries && s.deliveries[w].alive
    requires s.deliveries[w].phase == Notifying(0)
    ensures RunFrom(config, EMPTY, longer) == Some(t) && t.detections == s.detections
    ensures t.deliveries == s.deliveries[w := s.deliveries[w].(phase := Done)]
  {
    hide RunFrom;
    longer, t := actions, s;
    var k, a := s.deliveries[w], Advance(w, stored, false, None, "");
    for p := 0 to config.eventObservers
      invariant RunFrom(config, EMPTY, longer) == Some(t) && t.detections == s.detections
      invariant t.deliveries == s.deliveries[w := k.(phase := Notifying(p))]
    {
      RunOneMore(config, EMPTY, longer, t, a);
      longer, t := longer + [a], Step(config, t, a);
    }
    RunOneMore(config, EMPTY, longer, t, a);
    longer, t := longer + [a], Step(config, t, a);
  }

  /** A fresh delivery of one detection can run to its end. */
  lemma DeliverOne(config: Config, actions: seq<Action>, s: State, w: nat, event: Event, d: Record, stored: Record,
                   created: bool)
    returns (longer: seq<Action>, t: State)
    requires RunFrom(config, EMPTY, actions) == Some(s) && w !in s.deliveries
    requires event.version == CONTRACT_VERSION && Bound(event, d) && PersistAnswers(s.detections, d, stored, created)
    ensures RunFrom(config, EMPTY, longer) == Some(t)
    ensures t.detections == if created then s.detections[d.core.id := d] else s.detections
    ensures t.deliveries == s.deliveries[w := Delivery(event, [d], 1, Done, true)]
  {
    hide RunFrom, TripleStored, SameTriple;
    var begin, persist := Start(w, event, [d]), Advance(w, stored, created, None, "");
    RunOneMore(config, EMPTY, actions, s, begin);
    longer, t := actions + [begin], Step(config, s, begin);
    RunOneMore(config, EMPTY, longer, t, persist);
    longer, t := longer + [persist], Step(config, t, persist);
    hide Possible, Step, PersistAnswers;
    longer, t := AlertOne(config, longer, t, w, stored, created);
    if created {
      longer, t := ObserveAll(config, longer, t, w, stored);
    }
    longer, t := NotifyAll(config, longer, t, w, stored);
  }

  /** Two detections under one id: the one delivered first is stored, and the other completes without a row of its
      own tenant, event and rule. */
  lemma ForeignRowAnswers(config: Config, e: Event, c: Record, f: Event, d: Record)
    returns (actions: seq<Action>, s: State)
    requires e.version == f.version == CONTRACT_VERSION && Bound(e, c) && Bound(f, d)
    requires c.core.id == d.core.id && !SameTriple(c, d)
    ensures RunFrom(config, EMPTY, actions) == Some(s)
    ensures s.deliveries == map[0 := Delivery(e, [c], 1, Done, true), 1 := Delivery(f, [d], 1, Done, true)]
    ensures s.detections == map[c.core.id := c] && !OwnsRow(config, s, d)
  {
    hide RunFrom, SameTriple, Bound, Alerts.Held;
    RunNone(config, EMPTY);
    actions, s := DeliverOne(config, [], EMPTY, 0, e, c, c, true);
    actions, s := DeliverOne(config, actions, s, 1, f, d, c, false);
  }

  /** Settled evidence stays settled for the rest of the run. */
  lemma SettledForever(config: Config, actions: seq<Action>, s: State, later: seq<Action>, t: State, c: Record)
    requires RunFrom(config, EMPTY, actions) == Some(s) && RunFrom(config, s, later) == Some(t) && Settled(config, s, c)
    ensures Settled(config, t, c)
  {
    EmptySafe(config);
    RunSafe(config, EMPTY, actions, s);
    RunSafe(config, s, later, t);
    SettledKept(config, s, t, c);
  }

  /** A stored detection has been shown to observer `o` exactly when the delivery that inserted it got
      past that observer; redeliveries never make up for it. */
  lemma SeenExactly(config: Config, actions: seq<Action>, s: State, x: string, o: nat)
    requires RunFrom(config, EMPTY, actions) == Some(s) && x in s.detections && o < config.detectionObservers
    ensures RowKnown(s, x)
    ensures (o, x) in s.seen <==> !Owes(s.deliveries[s.creator[x]], x, o)
  {
    EmptySafe(config);
    RunSafe(config, EMPTY, actions, s);
    assert LedgerAt(config, s, x, o);
  }

  lemma {:induction false} DeadStay(config: Config, s: State, actions: seq<Action>, t: State, x: string)
    requires Safe(config, s) && RunFrom(config, s, actions) == Some(t)
    requires x in s.detections && RowKnown(s, x) && !s.deliveries[s.creator[x]].alive
    ensures x in t.detections && RowKnown(t, x) && t.deliveries[t.creator[x]] == s.deliveries[s.creator[x]]
  {
    hide Keyed, CreatorsKnown, SeenOnce, Ledger, Progress, Alerts.Ingested, Alerts.Step, Alerts.Possible;
    if actions != [] {
      var before, a := RunFrom(config, s, actions[..|actions| - 1]).value, actions[|actions| - 1];
      DeadStay(config, s, actions[..|actions| - 1], before, x);
      if a.Advance? {
        AdvanceEffect(config, before, a);
        hide Step;
      }
    }
  }

  /** If the inserting delivery crashed before reaching observer `o`, that observer never sees the
      detection, whatever is redelivered afterwards. */
  lemma MissedForever(config: Config, actions: seq<Action>, s: State, later: seq<Action>, t: State, x: string, o: nat)
    requires RunFrom(config, EMPTY, actions) == Some(s) && RunFrom(config, s, later) == Some(t)
    requires x in s.detections && RowKnown(s, x) && o < config.detectionObservers
    requires !s.deliveries[s.creator[x]].alive && Owes(s.deliveries[s.creator[x]], x, o)
    ensures (o, x) !in t.seen
  {
    EmptySafe(config);
    RunSafe(config, EMPTY, actions, s);
    DeadStay(config, s, later, t, x);
    RunSafe(config, s, later, t);
    assert LedgerAt(config, t, x, o);
  }

  /** A delivery that is still alive can reach every observer it owes. */
  lemma StillReachable(config: Config, s: State, w: nat, x: string, o: nat) returns (later: seq<Action>, t: State)
    requires w in s.deliveries && s.deliveries[w].alive && Owes(s.deliveries[w], x, o) && o < config.detectionObservers
    ensures RunFrom(config, s, later) == Some(t) && (o, x) in t.seen
  {
    hide RunFrom;
    RunNone(config, s);
    later, t := [], s;
    var k := s.deliveries[w];
    var row := k.phase.stored;
    var none := Advance(w, row, false, None, "");
    if k.phase.Alerting? {
      var pick := Alerts.PickExists(s.alerts, row.core, Alerts.Cutoff(row.core, config.defaultWindow));
      var freshId := Alerts.FreshIdExists(s.alerts);
      var a := Advance(w, row, false, pick, freshId);
      RunOneMore(config, s, later, t, a);
      later, t := later + [a], Step(config, t, a);
    }
    hide Alerts.Possible, Alerts.Ingested, PersistAnswers;
    var p := if k.phase.Observing? then k.phase.observer else 0;
    while p <= o
      invariant RunFrom(config, s, later) == Some(t)
      invariant w in t.deliveries && t.deliveries[w] == k.(phase := Observing(row, p)) && p <= o + 1
      invariant p == o + 1 ==> (o, x) in t.seen
    {
      RunOneMore(config, s, later, t, none);
      later, t := later + [none], Step(config, t, none);
      p := p + 1;
    }
  }

  /** Exactly: a stored detection that an observer has not seen will never be shown to it if and only if the
      delivery that inserted it is dead. */
  lemma MissedExactly(config: Config, actions: seq<Action>, s: State, x: string, o: nat)
    requires RunFrom(config, EMPTY, actions) == Some(s) && x in s.detections && o < config.detectionObservers
    requires (o, x) !in s.seen
    ensures RowKnown(s, x)
    ensures (forall later, t | RunFrom(config, s, later) == Some(t) :: (o, x) !in t.seen) <==>
      !s.deliveries[s.creator[x]].alive
  {
    SeenExactly(config, actions, s, x, o);
    if s.deliveries[s.creator[x]].alive {
      var later, t := StillReachable(config, s, s.creator[x], x, o);
      assert RunFrom(config, s, later) == Some(t) && (o, x) in t.seen;
    } else {
      forall later, t | RunFrom(config, s, later) == Some(t) ensures (o, x) !in t.seen {
        MissedForever(config, actions, s, later, t, x, o);
      }
    }
  }

  /** So delivery to observers is not at least once: a crash right after `persist` loses them all. */
  lemma CrashAfterPersistLosesObservers(config: Config, event: Event, d: Record, later: seq<Action>, t: State, o: nat)
    requires event.version == CONTRACT_VERSION && Bound(event, d) && o < config.detectionObservers
    requires var crashed := [Start(0, event, [d]), Advance(0, d, true, None, ""), Crash(0)];
      RunFrom(config, EMPTY, crashed).Some? && RunFrom(config, RunFrom(config, EMPTY, crashed).value, later) == Some(t)
    ensures d.core.id in t.detections && (o, d.core.id) !in t.seen
  {
    var a0, a1, a2 := Start(0, event, [d]), Advance(0, d, true, None, ""), Crash(0);
    var s1 := Step(config, EMPTY, a0);
    RunOneMore(config, EMPTY, [], EMPTY, a0);
    RunOneMore(config, EMPTY, [a0], s1, a1);
    var s2 := Step(config, s1, a1);
    RunOneMore(config, EMPTY, [a0, a1], s2, a2);
    var s3 := Step(config, s2, a2);
    assert [] + [a0] == [a0] && [a0] + [a1] == [a0, a1] && [a0, a1] + [a2] == [a0, a1, a2];
    MissedForever(config, [a0, a1, a2], s3, later, t, d.core.id, o);
    EmptySafe(config);
    RunSafe(config, EMPTY, [a0, a1, a2], s3);
    RunSafe(config, s3, later, t);
  }
}
