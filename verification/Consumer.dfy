/** The commit discipline of the broker loop in `consumer.py`: what a commit, which covers the position of
    every assigned partition, says about the messages below it. */
module Consumer {
  import opened Wrappers
  import DeadLetters

  /** A broker message: text that is not JSON, JSON that is no object, or an object in canonical form; with the
      digest of its text. */
  datatype Message = InvalidJson(digest: string) | NotAnObject(digest: string) | Object(payload: string, digest: string)

  /** The broker's log never changes: `log(p, o)` is the message at offset `o` of partition `p`. */
  datatype Env = Env(topic: string, log: (nat, nat) -> Message, receipts: DeadLetters.Env)

  /** What follows once the processor has returned: the enrichment completes, raises, or raises the very error
      that undecodable text does, and recording that does or does not succeed. */
  datatype Aftermath = Enriched | Raises | RaisesDecodeError(recordable: bool)

  /** How the processing of one message went: the processor returned, or it raised and recording the failure did or
      did not succeed. */
  datatype Outcome = Returned(after: Aftermath) | Raised(recordable: bool)

  type Offsets = map<nat, nat>

  datatype State = State(
    positions: Offsets, committed: Offsets, processed: set<(nat, nat)>, receipts: DeadLetters.State, running: bool)

  datatype Action =
    | Deliver(p: nat, outcome: Outcome, error: string, freshId: string, commits: bool)
    | Rewind(p: nat)
    | Restart
    | Analyst(action: DeadLetters.Action)

  const EMPTY := State(map[], map[], {}, DeadLetters.EMPTY, true)

  function At(offsets: Offsets, p: nat): nat {
    if p in offsets then offsets[p] else 0
  }

  function Place(env: Env, p: nat, o: nat): DeadLetters.Coordinates {
    DeadLetters.Coordinates(env.topic, p, o)
  }

  /** What the decode-error branch records for a text with this digest. */
  function DigestEvidence(digest: string): string {
    "{\"broker_payload_sha256\":\"" + digest + "\",\"content_type\":\"invalid_json\"}"
  }

  /** What a receipt for a message that could not be processed holds. */
  function Evidence(m: Message): string {
    match m
    case InvalidJson(digest) => DigestEvidence(digest)
    case NotAnObject(_) => ""
    case Object(payload, _) => payload
  }

  /** The evidence a delivery tries to record, if it gets as far as that. */
  function Recordable(m: Message, outcome: Outcome): Option<string> {
    match outcome
    case Raised(true) => Some(Evidence(m))
    case Returned(RaisesDecodeError(true)) => Some(DigestEvidence(m.digest))
    case _ => None
  }

  /** Only objects can be processed, and only objects and undecodable text can be recorded. */
  predicate Consistent(m: Message, outcome: Outcome) {
    match m
    case Object(_, _) => true
    case InvalidJson(_) => outcome.Raised?
    case NotAnObject(_) => outcome == Raised(false)
  }

  predicate Possible(env: Env, s: State, a: Action) {
    match a
    case Deliver(p, outcome, error, freshId, _) =>
      && s.running && Consistent(env.log(p, At(s.positions, p)), outcome)
      && DeadLetters.Possible(s.receipts, DeadLetters.Fail(Place(env, p, At(s.positions, p)), "", error, freshId))
    case Rewind(_) => true
    case Restart => true
    case Analyst(action) => !action.Fail? && DeadLetters.Possible(s.receipts, action)
  }

  function Recording(env: Env, s: State, p: nat, evidence: string, error: string, freshId: string):
    (Result<DeadLetters.Row, DeadLetters.Failure>, DeadLetters.Rows)
  {
    DeadLetters.Recorded(env.receipts, s.receipts.rows, Place(env, p, At(s.positions, p)), evidence, error, freshId)
  }

  function Step(env: Env, s: State, a: Action): State
    requires Possible(env, s, a)
  {
    match a
    case Rewind(p) => s.(positions := s.positions[p := At(s.committed, p)])
    case Restart => s.(positions := s.committed, running := true)
    case Analyst(action) => s.(receipts := DeadLetters.Step(env.receipts, s.receipts, action))
    case Deliver(p, outcome, error, freshId, commits) =>
      var o := At(s.positions, p);
      var next := s.positions[p := o + 1];
      var m := env.log(p, o);
      var processed := if outcome.Returned? then s.processed + {(p, o)} else s.processed;
      var moved := s.(positions := next, processed := processed);
      if outcome == Returned(Enriched) then moved.(committed := if commits then next else s.committed)
      else if outcome == Returned(Raises) then moved
      else
        var evidence := Recordable(m, outcome);
        var (answer, rows) := Recording(env, s, p, if evidence.Some? then evidence.value else "", error, freshId);
        if evidence.Some? && answer.Ok? then
          var committed := if commits then next else s.committed;
          moved.(receipts := s.receipts.(rows := rows), committed := committed, running := commits)
        else moved.(running := outcome.Raised? && !m.InvalidJson?)
  }

  ghost function RunFrom(env: Env, s: State, actions: seq<Action>): Option<State> {
    if actions == [] then Some(s)
    else
      var before := RunFrom(env, s, actions[..|actions| - 1]);
      if before.Some? && Possible(env, before.value, actions[|actions| - 1])
      then Some(Step(env, before.value, actions[|actions| - 1]))
      else None
  }

  lemma RunOneMore(env: Env, s: State, actions: seq<Action>, t: State, a: Action)
    requires RunFrom(env, s, actions) == Some(t) && Possible(env, t, a)
    ensures RunFrom(env, s, actions + [a]) == Some(Step(env, t, a))
  {
    assert (actions + [a])[..|actions|] == actions;
  }

  // ----- The loop -----

  class CorrelationConsumer {
    const env: Env
    const receipts: DeadLetters.IngestionDeadLetterRepository
    var positions: Offsets
    var committed: Offsets
    var processed: set<(nat, nat)>
    var running: bool

    constructor (env: Env)
      ensures this.env == env && fresh(receipts) && Valid()
      ensures View(map[]) == EMPTY
    {
      this.env, positions, committed, processed, running := env, map[], map[], {}, true;
      receipts := new DeadLetters.IngestionDeadLetterRepository(env.receipts);
    }

    ghost predicate Valid()
      reads this, receipts
    {
      receipts.env == env.receipts
    }

    /** The consumer's state, with the analysts' pending replays added. */
    ghost function View(tasks: map<nat, DeadLetters.Task>): State
      reads this, receipts
    {
      State(positions, committed, processed, DeadLetters.State(receipts.rows, tasks), running)
    }

    /** What is recorded of a failure: the digest of a text that is not JSON, or otherwise the message. */
    method EvidenceFor(message: Message, outcome: Outcome) returns (evidence: Option<string>)
      requires Consistent(message, outcome) && (outcome.Returned? ==> outcome.after.RaisesDecodeError?)
      ensures evidence == Recordable(message, outcome)
    {
      var recordable := if outcome.Returned? then outcome.after.recordable else outcome.recordable;
      if !recordable {
        return None;
      }
      if message.InvalidJson? || outcome.Returned? {
        var digest := "{\"broker_payload_sha256\":\"" + message.digest + "\",\"content_type\":\"invalid_json\"}";
        return Some(digest);
      }
      evidence := Some(message.payload);
    }

    /** One turn of the loop: fetch the next message of partition `p` and handle it. */
    method HandleNext(p: nat, outcome: Outcome, error: string, freshId: string, commits: bool,
          ghost tasks: map<nat, DeadLetters.Task>)
      requires Valid() && Possible(env, View(tasks), Deliver(p, outcome, error, freshId, commits))
      modifies this, receipts
      ensures Valid()
      ensures View(tasks) == Step(env, old(View(tasks)), Deliver(p, outcome, error, freshId, commits))
    {
      hide Evidence, DigestEvidence, Recordable;
      var o := if p in positions then positions[p] else 0;
      var message := env.log(p, o);
      positions := positions[p := o + 1];
      if outcome.Returned? {
        processed := processed + {(p, o)};
        if outcome.after == Enriched && commits {
          committed := positions;
        }
        if !outcome.after.RaisesDecodeError? {
          return;
        }
      }
      var evidence := EvidenceFor(message, outcome);
      hide Consistent;
      if evidence.Some? {
        var place := DeadLetters.Coordinates(env.topic, p, o);
        var receipt, created := receipts.RecordFailure(place, evidence.value, error, freshId);
        if receipt.Ok? {
          if commits {
            committed := positions;
          } else {
            running := false;
          }
          return;
        }
      }
      // An exception raised while handling a decode error leaves the loop; any other is only logged.
      if message.InvalidJson? || outcome.Returned? {
        running := false;
      }
    }

    method Restart(ghost tasks: map<nat, DeadLetters.Task>)
      requires Valid()
      modifies this
      ensures Valid() && View(tasks) == Step(env, old(View(tasks)), Action.Restart)
    {
      positions, running := committed, true;
    }
  }

  // ----- Receipts and the log -----

  /** A receipt holds what its message's failure records, or the digest of a text that is an object after all. */
  predicate FromLog(m: Message, payload: string) {
    payload == Evidence(m) || (m.Object? && payload == DigestEvidence(m.digest))
  }

  ghost predicate Sound(env: Env, s: State) {
    && DeadLetters.Sound(env.receipts, s.receipts)
    && (forall p, o | Place(env, p, o) in s.receipts.rows ::
          FromLog(env.log(p, o), s.receipts.rows[Place(env, p, o)].payload))
  }

  /** What a delivery does to the receipts, seen as a run of the receipt table alone. */
  lemma DeliverRecords(env: Env, s: State, a: Action)
    requires Possible(env, s, a) && a.Deliver?
    ensures var t := Step(env, s, a);
      var o := At(s.positions, a.p);
      var evidence := Recordable(env.log(a.p, o), a.outcome);
      var fail :=
        DeadLetters.Fail(Place(env, a.p, o), if evidence.Some? then evidence.value else "", a.error, a.freshId);
      && DeadLetters.Possible(s.receipts, fail)
      && t.receipts == (if evidence.Some? then DeadLetters.Step(env.receipts, s.receipts, fail) else s.receipts)
      && (evidence.Some? ==> Place(env, a.p, o) in t.receipts.rows && FromLog(env.log(a.p, o), evidence.value))
  {
  }

  lemma StepSound(env: Env, s: State, a: Action)
    requires Sound(env, s) && Possible(env, s, a)
    ensures Sound(env, Step(env, s, a))
    ensures DeadLetters.Extends(s.receipts, Step(env, s, a).receipts)
  {
    match a
    case Deliver(_, _, _, _, _) => DeliverSound(env, s, a);
    case Analyst(action) =>
      hide DeadLetters.Sound;
      DeadLetters.StepSound(env.receipts, s.receipts, action);
      NoNewReceipt(env, s, action);
    case _ =>
  }

  lemma DeliverSound(env: Env, s: State, a: Action)
    requires Sound(env, s) && Possible(env, s, a) && a.Deliver?
    ensures Sound(env, Step(env, s, a)) && DeadLetters.Extends(s.receipts, Step(env, s, a).receipts)
  {
    hide DeadLetters.Sound;
    var o := At(s.positions, a.p);
    var evidence := Recordable(env.log(a.p, o), a.outcome);
    var fail := DeadLetters.Fail(Place(env, a.p, o), if evidence.Some? then evidence.value else "", a.error, a.freshId);
    DeliverRecords(env, s, a);
    hide Step, Possible, Recordable;
    DeadLetters.StepSound(env.receipts, s.receipts, fail);
  }

  lemma NoNewReceipt(env: Env, s: State, action: DeadLetters.Action)
    requires Sound(env, s) && DeadLetters.Possible(s.receipts, action) && !action.Fail?
    ensures forall c | c in DeadLetters.Step(env.receipts, s.receipts, action).rows :: c in s.receipts.rows
  {
    forall c | c in DeadLetters.Step(env.receipts, s.receipts, action).rows ensures c in s.receipts.rows {
      DeadLetters.StepRow(env.receipts, s.receipts, action, c);
    }
  }

  // ----- Committed means handled -----

  ghost predicate Handled(env: Env, s: State, p: nat, o: nat) {
    (p, o) in s.processed || Place(env, p, o) in s.receipts.rows
  }

  /** The delivery leaves neither a processed message nor a receipt behind. */
  predicate Lost(a: Action) {
    a.Deliver? && a.outcome == Raised(false)
  }

  /** Delivery `n` of the run was of offset `o` of partition `p`. */
  ghost predicate DeliveredAt(env: Env, actions: seq<Action>, n: nat, p: nat, o: nat) {
    n < |actions| && actions[n].Deliver? && actions[n].p == p &&
    var s := RunFrom(env, EMPTY, actions[..n]);
    s.Some? && At(s.value.positions, p) == o
  }

  ghost predicate KeptAt(env: Env, actions: seq<Action>, n: nat, p: nat, o: nat) {
    DeliveredAt(env, actions, n, p, o) && !Lost(actions[n])
  }

  ghost predicate Kept(env: Env, actions: seq<Action>, p: nat, o: nat) {
    exists n: nat :: KeptAt(env, actions, n, p, o)
  }

  lemma StillDelivered(env: Env, actions: seq<Action>, n: nat, p: nat, o: nat)
    requires actions != [] && n < |actions| - 1
    ensures DeliveredAt(env, actions, n, p, o) <==> DeliveredAt(env, actions[..|actions| - 1], n, p, o)
  {
    assert actions[..|actions| - 1][..n] == actions[..n];
  }

  /** Every offset below a position or below a commit was delivered. */
  lemma {:induction false} PassedMeansDelivered(env: Env, actions: seq<Action>, s: State, p: nat, o: nat)
    requires RunFrom(env, EMPTY, actions) == Some(s) && (o < At(s.positions, p) || o < At(s.committed, p))
    ensures exists n: nat :: DeliveredAt(env, actions, n, p, o)
  {
    hide DeliveredAt;
    if actions != [] {
      hide DeadLetters.Possible, DeadLetters.Step, Recording, Evidence;
      var m := |actions| - 1;
      var before := RunFrom(env, EMPTY, actions[..m]).value;
      if o < At(before.positions, p) || o < At(before.committed, p) {
        PassedMeansDelivered(env, actions[..m], before, p, o);
        var n: nat :| DeliveredAt(env, actions[..m], n, p, o);
        DeliveryIsEarlier(env, actions[..m], n, p, o);
        StillDelivered(env, actions, n, p, o);
      } else {
        LastDelivered(env, actions, p, o);
      }
    }
  }

  lemma DeliveryIsEarlier(env: Env, actions: seq<Action>, n: nat, p: nat, o: nat)
    requires DeliveredAt(env, actions, n, p, o)
    ensures n < |actions|
  {
  }

  lemma LastDelivered(env: Env, actions: seq<Action>, p: nat, o: nat)
    requires actions != [] && actions[|actions| - 1].Deliver? && actions[|actions| - 1].p == p
    requires RunFrom(env, EMPTY, actions[..|actions| - 1]).Some?
    requires At(RunFrom(env, EMPTY, actions[..|actions| - 1]).value.positions, p) == o
    ensures DeliveredAt(env, actions, |actions| - 1, p, o)
  {
  }

  lemma EmptySound(env: Env)
    ensures Sound(env, EMPTY)
  {
  }

  lemma {:induction false} RunSound(env: Env, actions: seq<Action>, s: State)
    requires RunFrom(env, EMPTY, actions) == Some(s)
    ensures Sound(env, s)
  {
    EmptySound(env);
    if actions != [] {
      hide Sound, Step, Possible;
      var before := RunFrom(env, EMPTY, actions[..|actions| - 1]).value;
      RunSound(env, actions[..|actions| - 1], before);
      StepSound(env, before, actions[|actions| - 1]);
    }
  }

  /** One step handles an offset exactly when it delivers it without losing it. */
  lemma StepHandles(env: Env, s: State, a: Action, p: nat, o: nat)
    requires Sound(env, s) && Possible(env, s, a)
    ensures Handled(env, Step(env, s, a), p, o) <==>
      Handled(env, s, p, o) || (a.Deliver? && a.p == p && At(s.positions, p) == o && !Lost(a))
  {
    hide DeadLetters.Possible, DeadLetters.Step, DeadLetters.RowsSound, DeadLetters.TasksSound,
      DeadLetters.ClosedByTask;
    var c := Place(env, p, o);
    match a
    case Deliver(_, outcome, error, freshId, _) =>
      var q := At(s.positions, a.p);
      var evidence := Recordable(env.log(a.p, q), outcome);
      var fail := DeadLetters.Fail(Place(env, a.p, q), if evidence.Some? then evidence.value else "", error, freshId);
      DeliverRecords(env, s, a);
      DeadLetters.StepRow(env.receipts, s.receipts, fail, c);
    case Analyst(action) =>
      DeadLetters.StepRow(env.receipts, s.receipts, action, c);
    case _ =>
  }

  /** An offset is handled exactly when some delivery of it, in this or an earlier life of the consumer,
      was not lost. */
  lemma {:induction false} HandledExactly(env: Env, actions: seq<Action>, s: State, p: nat, o: nat)
    requires RunFrom(env, EMPTY, actions) == Some(s)
    ensures Handled(env, s, p, o) <==> Kept(env, actions, p, o)
  {
    if actions != [] {
      var m := |actions| - 1;
      var before := RunFrom(env, EMPTY, actions[..m]).value;
      HandledExactly(env, actions[..m], before, p, o);
      RunSound(env, actions[..m], before);
      StepHandles(env, before, actions[m], p, o);
      KeptGrows(env, actions, p, o);
      hide Handled, Sound, Possible, Step, Kept;
    }
  }

  lemma KeptGrows(env: Env, actions: seq<Action>, p: nat, o: nat)
    requires actions != []
    ensures Kept(env, actions, p, o) <==>
      Kept(env, actions[..|actions| - 1], p, o) || KeptAt(env, actions, |actions| - 1, p, o)
  {
    hide RunFrom;
    var m := |actions| - 1;
    if n: nat :| n < m && KeptAt(env, actions, n, p, o) {
      StillDelivered(env, actions, n, p, o);
      assert KeptAt(env, actions[..m], n, p, o);
    }
    if n: nat :| KeptAt(env, actions[..m], n, p, o) {
      StillDelivered(env, actions, n, p, o);
      assert KeptAt(env, actions, n, p, o);
    }
  }

  /** Every committed offset was delivered, and is unhandled exactly when all its deliveries were lost. */
  lemma CommittedExactly(env: Env, actions: seq<Action>, s: State, p: nat, o: nat)
    requires RunFrom(env, EMPTY, actions) == Some(s) && o < At(s.committed, p)
    ensures exists n: nat :: DeliveredAt(env, actions, n, p, o)
    ensures Handled(env, s, p, o) <==> exists n: nat :: KeptAt(env, actions, n, p, o)
  {
    PassedMeansDelivered(env, actions, s, p, o);
    HandledExactly(env, actions, s, p, o);
  }

  /** When recording a failure always succeeds and all JSON messages are objects, everything below a commit
      was processed or has a receipt, across restarts, redeliveries and analyst replays. */
  lemma CommittedIsHandled(env: Env, actions: seq<Action>, s: State, p: nat, o: nat)
    requires RunFrom(env, EMPTY, actions) == Some(s) && o < At(s.committed, p)
    requires forall n | 0 <= n < |actions| :: !Lost(actions[n])
    ensures Handled(env, s, p, o)
  {
    CommittedExactly(env, actions, s, p, o);
    var n: nat :| DeliveredAt(env, actions, n, p, o);
    assert KeptAt(env, actions, n, p, o);
  }

  /** Otherwise the next successful delivery commits past a lost one. */
  lemma CommitCoversLostDelivery(env: Env)
    requires env.log(0, 0).NotAnObject? && env.log(0, 1).Object?
    ensures var actions := [Deliver(0, Raised(false), "AttributeError", "", true),
      Deliver(0, Returned(Enriched), "", "", true)];
      var s := RunFrom(env, EMPTY, actions);
      s.Some? && 0 < At(s.value.committed, 0) && !Handled(env, s.value, 0, 0)
  {
    var a0, a1 := Deliver(0, Raised(false), "AttributeError", "", true), Deliver(0, Returned(Enriched), "", "", true);
    RunOneMore(env, EMPTY, [], EMPTY, a0);
    RunOneMore(env, EMPTY, [] + [a0], Step(env, EMPTY, a0), a1);
    assert [] + [a0] + [a1] == [a0, a1];
  }

  // ----- Receipts with another hash -----

  /** The enrichment of some delivery raised the error that undecodable text raises. */
  predicate DecodeErrors(a: Action) {
    a.Deliver? && a.outcome.Returned? && a.outcome.after.RaisesDecodeError?
  }

  /** A failure of the delivery at `p` is refused exactly when a receipt with another hash is there, and that is the
      receipt of the other kind of evidence for the same object message. */
  lemma ConflictExactly(env: Env, actions: seq<Action>, s: State, p: nat, evidence: string, error: string,
        freshId: string)
    requires RunFrom(env, EMPTY, actions) == Some(s) && FromLog(env.log(p, At(s.positions, p)), evidence)
    ensures var m, c := env.log(p, At(s.positions, p)), Place(env, p, At(s.positions, p));
      && (Recording(env, s, p, evidence, error, freshId).0.Err? <==>
            c in s.receipts.rows && env.receipts.hash(s.receipts.rows[c].payload) != env.receipts.hash(evidence))
      && (Recording(env, s, p, evidence, error, freshId).0.Err? ==>
            m.Object? && {evidence, s.receipts.rows[c].payload} == {Evidence(m), DigestEvidence(m.digest)})
  {
    RunSound(env, actions, s);
    var c := Place(env, p, At(s.positions, p));
    if c in s.receipts.rows {
      assert DeadLetters.RowSound(env.receipts, s.receipts.rows[c]);
      assert FromLog(env.log(p, At(s.positions, p)), s.receipts.rows[c].payload);
    }
  }

  ghost predicate PlainReceipts(env: Env, s: State) {
    forall p, o | Place(env, p, o) in s.receipts.rows ::
      s.receipts.rows[Place(env, p, o)].payload == Evidence(env.log(p, o))
  }

  lemma StepPlain(env: Env, s: State, a: Action)
    requires Sound(env, s) && PlainReceipts(env, s) && Possible(env, s, a) && !DecodeErrors(a)
    ensures PlainReceipts(env, Step(env, s, a))
  {
    hide DeadLetters.Sound;
    StepSound(env, s, a);
    match a
    case Deliver(_, _, _, _, _) => DeliverRecords(env, s, a);
    case Analyst(action) => NoNewReceipt(env, s, action);
    case _ =>
  }

  lemma {:induction false} RunPlain(env: Env, actions: seq<Action>, s: State)
    requires RunFrom(env, EMPTY, actions) == Some(s)
    requires forall n | 0 <= n < |actions| :: !DecodeErrors(actions[n])
    ensures PlainReceipts(env, s)
  {
    if actions != [] {
      hide Sound, Step, Possible, PlainReceipts, DecodeErrors;
      var before := RunFrom(env, EMPTY, actions[..|actions| - 1]).value;
      RunPlain(env, actions[..|actions| - 1], before);
      RunSound(env, actions[..|actions| - 1], before);
      StepPlain(env, before, actions[|actions| - 1]);
    }
  }

  /** While no enrichment raises that error, recording a broker failure never meets another hash. */
  lemma NoConflict(env: Env, actions: seq<Action>, s: State, p: nat, error: string, freshId: string)
    requires RunFrom(env, EMPTY, actions) == Some(s)
    requires forall n | 0 <= n < |actions| :: !DecodeErrors(actions[n])
    ensures Recording(env, s, p, Evidence(env.log(p, At(s.positions, p))), error, freshId).0.Ok?
  {
    RunPlain(env, actions, s);
    ConflictExactly(env, actions, s, p, Evidence(env.log(p, At(s.positions, p))), error, freshId);
  }
}
