/** The broker loop and the ingestion protocol together: what a committed offset says about detections. */
module Pipeline {
  import opened Wrappers
  import Consumer
  import DeadLetters
  import Ingestion
  import IngestionSafety

  /** `decode` reads the canonical event from an object message. */
  datatype Env = Env(consumer: Consumer.Env, config: Ingestion.Config, decode: string -> Ingestion.Event)

  datatype State = State(consumer: Consumer.State, ingestion: Ingestion.State)

  /** A step of some delivery, crash or analyst inside the processor; or a step of the consumer, whose processor
      call, when it returns, is the delivery `w`. */
  datatype Action =
    | Ingest(ingestion: Ingestion.Action)
    | Consume(consumer: Consumer.Action, w: nat)

  const EMPTY := State(Consumer.EMPTY, Ingestion.EMPTY)

  predicate IsDone(s: Ingestion.State, w: nat, event: Ingestion.Event) {
    w in s.deliveries && s.deliveries[w].phase == Ingestion.Done && s.deliveries[w].event == event
  }

  predicate Possible(env: Env, s: State, a: Action) {
    match a
    case Ingest(ingestion) => Ingestion.Possible(env.config, s.ingestion, ingestion)
    case Consume(consumer, w) =>
      && Consumer.Possible(env.consumer, s.consumer, consumer)
      && (consumer.Deliver? && consumer.outcome.Returned? ==>
            var m := env.consumer.log(consumer.p, Consumer.At(s.consumer.positions, consumer.p));
            m.Object? && IsDone(s.ingestion, w, env.decode(m.payload)))
  }

  function Step(env: Env, s: State, a: Action): State
    requires Possible(env, s, a)
  {
    match a
    case Ingest(ingestion) => s.(ingestion := Ingestion.Step(env.config, s.ingestion, ingestion))
    case Consume(consumer, _) => s.(consumer := Consumer.Step(env.consumer, s.consumer, consumer))
  }

  ghost function RunFrom(env: Env, s: State, actions: seq<Action>): Option<State> {
    if actions == [] then Some(s)
    else
      var before := RunFrom(env, s, actions[..|actions| - 1]);
      if before.Some? && Possible(env, before.value, actions[|actions| - 1])
      then Some(Step(env, before.value, actions[|actions| - 1]))
      else None
  }

  // ----- Each side's own run -----

  function ConsumerPart(actions: seq<Action>): seq<Consumer.Action> {
    if actions == [] then []
    else
      var before, a := ConsumerPart(actions[..|actions| - 1]), actions[|actions| - 1];
      if a.Consume? then before + [a.consumer] else before
  }

  function IngestionPart(actions: seq<Action>): seq<Ingestion.Action> {
    if actions == [] then []
    else
      var before, a := IngestionPart(actions[..|actions| - 1]), actions[|actions| - 1];
      if a.Ingest? then before + [a.ingestion] else before
  }

  lemma {:induction false} PartsRun(env: Env, actions: seq<Action>, s: State)
    requires RunFrom(env, EMPTY, actions) == Some(s)
    ensures Consumer.RunFrom(env.consumer, Consumer.EMPTY, ConsumerPart(actions)) == Some(s.consumer)
    ensures Ingestion.RunFrom(env.config, Ingestion.EMPTY, IngestionPart(actions)) == Some(s.ingestion)
  {
    if actions != [] {
      hide Consumer.RunFrom, Ingestion.RunFrom, Consumer.Step, Ingestion.Step, Consumer.Possible, Ingestion.Possible;
      var a := actions[|actions| - 1];
      var before := RunFrom(env, EMPTY, actions[..|actions| - 1]).value;
      PartsRun(env, actions[..|actions| - 1], before);
      match a
      case Ingest(ingestion) =>
        Ingestion.RunOneMore(env.config, Ingestion.EMPTY, IngestionPart(actions[..|actions| - 1]), before.ingestion,
          ingestion);
      case Consume(consumer, _) =>
        Consumer.RunOneMore(env.consumer, Consumer.EMPTY, ConsumerPart(actions[..|actions| - 1]), before.consumer,
          consumer);
    }
  }

  lemma {:induction false} PartKeepsAll(actions: seq<Action>, n: nat)
    requires n < |ConsumerPart(actions)|
    ensures exists k | 0 <= k < |actions| :: actions[k].Consume? && actions[k].consumer == ConsumerPart(actions)[n]
  {
    var m := |actions| - 1;
    if n < |ConsumerPart(actions[..m])| {
      PartKeepsAll(actions[..m], n);
      var k :| 0 <= k < m && actions[..m][k].Consume? && actions[..m][k].consumer == ConsumerPart(actions[..m])[n];
      assert actions[k] == actions[..m][k];
    } else {
      assert actions[m].Consume? && actions[m].consumer == ConsumerPart(actions)[n];
    }
  }

  // ----- Processed offsets have completed deliveries -----

  ghost predicate Completed(env: Env, s: State, p: nat, o: nat) {
    exists w :: env.consumer.log(p, o).Object? && IsDone(s.ingestion, w, env.decode(env.consumer.log(p, o).payload))
  }

  lemma DoneStays(config: Ingestion.Config, s: Ingestion.State, a: Ingestion.Action, w: nat, event: Ingestion.Event)
    requires Ingestion.Possible(config, s, a) && IsDone(s, w, event)
    ensures IsDone(Ingestion.Step(config, s, a), w, event)
  {
    hide Ingestion.PersistAnswers, Ingestion.Bound;
  }

  lemma CompletedStays(env: Env, s: State, a: Action, p: nat, o: nat)
    requires Possible(env, s, a) && Completed(env, s, p, o)
    ensures Completed(env, Step(env, s, a), p, o)
  {
    hide Ingestion.Step, Ingestion.Possible, Consumer.Step, Consumer.Possible, IsDone;
    var event := env.decode(env.consumer.log(p, o).payload);
    var w :| IsDone(s.ingestion, w, event);
    if a.Ingest? {
      DoneStays(env.config, s.ingestion, a.ingestion, w, event);
    }
    assert IsDone(Step(env, s, a).ingestion, w, event);
  }

  lemma ProcessedGrows(env: Consumer.Env, s: Consumer.State, a: Consumer.Action, p: nat, o: nat)
    requires Consumer.Possible(env, s, a) && (p, o) in Consumer.Step(env, s, a).processed
    ensures (p, o) in s.processed || (a.Deliver? && a.outcome.Returned? && a.p == p && Consumer.At(s.positions, p) == o)
  {
    hide Consumer.Recording, Consumer.Recordable;
  }

  lemma {:induction false} ProcessedIsCompleted(env: Env, actions: seq<Action>, s: State, p: nat, o: nat)
    requires RunFrom(env, EMPTY, actions) == Some(s) && (p, o) in s.consumer.processed
    ensures Completed(env, s, p, o)
  {
    hide Ingestion.Step, Ingestion.Possible, Consumer.Step, Consumer.Possible, IsDone;
    var a := actions[|actions| - 1];
    var before := RunFrom(env, EMPTY, actions[..|actions| - 1]).value;
    if a.Consume? {
      ProcessedGrows(env.consumer, before.consumer, a.consumer, p, o);
    }
    if (p, o) in before.consumer.processed {
      ProcessedIsCompleted(env, actions[..|actions| - 1], before, p, o);
      CompletedStays(env, before, a, p, o);
    } else {
      assert IsDone(s.ingestion, a.w, env.decode(env.consumer.log(p, o).payload));
    }
  }

  // ----- Main result -----

  /** Some delivery of the message at this offset is done, and each of its detections is durable and, where the
      alert workflow is configured, held by an alert. */
  ghost predicate SettledAt(env: Env, s: State, p: nat, o: nat) {
    exists w ::
      && env.consumer.log(p, o).Object? && IsDone(s.ingestion, w, env.decode(env.consumer.log(p, o).payload))
      && forall c | c in s.ingestion.deliveries[w].candidates :: IngestionSafety.Settled(env.config, s.ingestion, c)
  }

  /** Every committed offset has all its detections settled or has a receipt, unless all its deliveries were lost:
      across interleaved deliveries, crashes, restarts, redeliveries and analysts. */
  lemma CommittedIsSettledOrReceipted(env: Env, actions: seq<Action>, s: State, p: nat, o: nat)
    requires RunFrom(env, EMPTY, actions) == Some(s) && o < Consumer.At(s.consumer.committed, p)
    requires Consumer.Kept(env.consumer, ConsumerPart(actions), p, o)
    ensures SettledAt(env, s, p, o) || Consumer.Place(env.consumer, p, o) in s.consumer.receipts.rows
  {
    PartsRun(env, actions, s);
    Consumer.HandledExactly(env.consumer, ConsumerPart(actions), s.consumer, p, o);
    if (p, o) in s.consumer.processed {
      ProcessedIsCompleted(env, actions, s, p, o);
      hide Ingestion.RunFrom, Consumer.RunFrom, RunFrom, IngestionSafety.Settled;
      var w :| IsDone(s.ingestion, w, env.decode(env.consumer.log(p, o).payload));
      IngestionSafety.CompletedDeliveryIsSettled(env.config, IngestionPart(actions), s.ingestion, w);
      assert SettledAt(env, s, p, o);
    }
  }

  /** In particular when failures can always be recorded and all JSON messages are objects. */
  lemma ReliableCommitIsSettled(env: Env, actions: seq<Action>, s: State, p: nat, o: nat)
    requires RunFrom(env, EMPTY, actions) == Some(s) && o < Consumer.At(s.consumer.committed, p)
    requires forall n | 0 <= n < |actions| && actions[n].Consume? :: !Consumer.Lost(actions[n].consumer)
    ensures SettledAt(env, s, p, o) || Consumer.Place(env.consumer, p, o) in s.consumer.receipts.rows
  {
    hide RunFrom, Consumer.RunFrom, Ingestion.RunFrom, Consumer.Lost, SettledAt;
    var part := ConsumerPart(actions);
    PartsRun(env, actions, s);
    forall n: nat | n < |part| ensures !Consumer.Lost(part[n]) {
      PartKeepsAll(actions, n);
    }
    Consumer.CommittedIsHandled(env.consumer, part, s.consumer, p, o);
    Consumer.HandledExactly(env.consumer, part, s.consumer, p, o);
    CommittedIsSettledOrReceipted(env, actions, s, p, o);
  }
}
