/** Ordered telemetry batches of registered forwarders (`forwarders.py`). The writes of a batch commit one
    by one before the batch itself does, so a crash can leave any prefix of them behind. */
module Forwarders {
  import opened Wrappers
  import Inventory

  datatype Forwarder = Forwarder(tenant: string, name: string, digest: string, active: bool, lastSequence: nat)
  datatype Receipt = Receipt(forwarder: string, batchId: string, sequence: nat, alertCount: nat)
  datatype State = State(forwarders: map<string, Forwarder>, receipts: seq<Receipt>, inventory: Inventory.Store)

  datatype Batch = Batch(id: string, sequence: int, alerts: seq<Inventory.Alert>)

  /** The credential digest, and the event id given to alerts without one. */
  datatype Env = Env(digest: string -> string, fallback: Inventory.FallbackId)

  datatype Failure = NameTaken | NotFound | Unauthenticated | AlreadyAccepted | OutOfSequence | BatchIdReused | Crashed
  datatype Summary = Summary(assetsCreated: nat, integrityCreated: nat, events: nat)

  const EMPTY := State(map[], [], Inventory.Store(map[], map[]))

  // ----- Steps -----

  predicate NameUsed(forwarders: map<string, Forwarder>, tenant: string, name: string) {
    exists f | f in forwarders :: forwarders[f].tenant == tenant && forwarders[f].name == name
  }

  function Registered(env: Env, s: State, tenant: string, name: string, id: string, token: string): State {
    if NameUsed(s.forwarders, tenant, name) then s
    else s.(forwarders := s.forwarders[id := Forwarder(tenant, name, env.digest(token), true, 0)])
  }

  function Revoked(s: State, tenant: string, id: string): State {
    if id in s.forwarders && s.forwarders[id].tenant == tenant
    then s.(forwarders := s.forwarders[id := s.forwarders[id].(active := false)]) else s
  }

  predicate BatchIdUsed(receipts: seq<Receipt>, id: string, batchId: string) {
    exists i | 0 <= i < |receipts| :: receipts[i].forwarder == id && receipts[i].batchId == batchId
  }

  /** The token is that of the active forwarder `id`. */
  predicate Credentialed(env: Env, forwarders: map<string, Forwarder>, id: string, token: string) {
    id in forwarders && forwarders[id].active && forwarders[id].digest == env.digest(token)
  }

  /** What an answer to a batch means. */
  ghost predicate Diagnosed(env: Env, s: State, id: string, token: string, batch: Batch, failure: Option<Failure>) {
    var known := Credentialed(env, s.forwarders, id, token);
    && (failure == None <==>
          known && batch.sequence == s.forwarders[id].lastSequence + 1
          && forall i | 0 <= i < |s.receipts| :: s.receipts[i].forwarder == id ==> s.receipts[i].batchId != batch.id)
    && (failure == Some(Unauthenticated) <==> !known)
    && (failure == Some(AlreadyAccepted) <==> known && batch.sequence <= s.forwarders[id].lastSequence)
    && (failure == Some(OutOfSequence) <==> known && batch.sequence > s.forwarders[id].lastSequence + 1)
    && (failure == Some(BatchIdReused) <==>
          known && batch.sequence == s.forwarders[id].lastSequence + 1
          && exists i | 0 <= i < |s.receipts| :: s.receipts[i].forwarder == id && s.receipts[i].batchId == batch.id)
  }

  /** Why a batch is refused before anything is written, in the order of the checks. */
  function Refusal(env: Env, s: State, id: string, token: string, batch: Batch): Option<Failure> {
    if !Credentialed(env, s.forwarders, id, token) then Some(Unauthenticated)
    else if batch.sequence < s.forwarders[id].lastSequence + 1 then Some(AlreadyAccepted)
    else if batch.sequence > s.forwarders[id].lastSequence + 1 then Some(OutOfSequence)
    else if BatchIdUsed(s.receipts, id, batch.id) then Some(BatchIdReused)
    else None
  }

  function Ids(names: nat -> string, n: nat): seq<string> {
    seq(n, i requires 0 <= i < n => names(i))
  }

  function WritesOf(env: Env, s: State, id: string, batch: Batch, clock: Inventory.Clock): seq<Inventory.Write>
    requires id in s.forwarders
  {
    Inventory.WritesOfAll(env.fallback, s.forwarders[id].tenant, batch.alerts, clock)
  }

  /** `budget` is the number of commits until the process dies; `names` are the generated row ids. The
      answer is the failure, if there is one. */
  function Streamed(env: Env, s: State, id: string, token: string, batch: Batch, clock: Inventory.Clock,
        names: nat -> string, budget: nat):
    (Option<Failure>, State)
  {
    var refusal := Refusal(env, s, id, token, batch);
    if refusal.Some? then (refusal, s)
    else
      var writes := WritesOf(env, s, id, batch, clock);
      if budget <= |writes| then
        (Some(Crashed), s.(inventory := Inventory.WrittenAll(s.inventory, writes[..budget], Ids(names, budget))))
      else
        (None, State(s.forwarders[id := s.forwarders[id].(lastSequence := batch.sequence)],
                     s.receipts + [Receipt(id, batch.id, batch.sequence, |batch.alerts|)],
                     Inventory.WrittenAll(s.inventory, writes, Ids(names, |writes|))))
  }

  // ----- The service -----

  class WazuhForwarderService {
    const env: Env
    const ingestion: Inventory.EndpointTelemetryIngestion
    var forwarders: map<string, Forwarder>
    var receipts: seq<Receipt>

    constructor (env: Env)
      ensures this.env == env && Valid() && View() == EMPTY
      ensures fresh(ingestion) && fresh(ingestion.repository)
    {
      this.env, forwarders, receipts := env, map[], [];
      ingestion := new Inventory.EndpointTelemetryIngestion(env.fallback);
    }

    ghost function View(): State
      reads this, ingestion.repository
    {
      State(forwarders, receipts, ingestion.repository.State())
    }

    ghost predicate Valid()
      reads this, ingestion.repository
    {
      ingestion.fallback == env.fallback && Inventory.Sound(ingestion.repository.State())
    }

    method Register(tenant: string, name: string, id: string, token: string) returns (failure: Option<Failure>)
      requires Valid() && id !in forwarders
      modifies this
      ensures Valid() && View() == Step(env, old(View()), Action.Register(tenant, name, id, token))
      ensures failure == None <==> forwarders != old(forwarders)
    {
      if exists f | f in forwarders :: forwarders[f].tenant == tenant && forwarders[f].name == name {
        return Some(NameTaken);
      }
      forwarders := forwarders[id := Forwarder(tenant, name, env.digest(token), true, 0)];
      failure := None;
    }

    method Revoke(tenant: string, id: string) returns (failure: Option<Failure>)
      requires Valid()
      modifies this
      ensures Valid() && View() == Step(env, old(View()), Action.Revoke(tenant, id))
      ensures failure == None <==> id in forwarders && forwarders[id].tenant == tenant
    {
      if id !in forwarders || forwarders[id].tenant != tenant {
        return Some(NotFound);
      }
      forwarders := forwarders[id := forwarders[id].(active := false)];
      failure := None;
    }

    /** A batch passes exactly when it comes from the active forwarder it is signed for, is the next in its
        sequence, and has an id that forwarder has not used; a failure names the first of these that is missing. */
    method CheckBatch(id: string, token: string, batch: Batch) returns (failure: Option<Failure>)
      ensures Diagnosed(env, View(), id, token, batch, failure)
    {
      if id !in forwarders || !forwarders[id].active || forwarders[id].digest != env.digest(token) {
        return Some(Unauthenticated);
      }
      var expected := forwarders[id].lastSequence + 1;
      if batch.sequence < expected {
        return Some(AlreadyAccepted);
      }
      if batch.sequence > expected {
        return Some(OutOfSequence);
      }
      if exists i | 0 <= i < |receipts| :: receipts[i].forwarder == id && receipts[i].batchId == batch.id {
        return Some(BatchIdReused);
      }
      failure := None;
    }

    /** One alert of a batch: all its writes, or those that the budget still allows. */
    method StreamAlert(tenant: string, alerts: seq<Inventory.Alert>, i: nat, clock: Inventory.Clock,
          names: nat -> string, events: nat, budget: nat, ghost start: Inventory.Store)
      returns (result: Option<Inventory.IngestResult>)
      requires Valid() && i < |alerts|
      requires events == |Inventory.WritesOfAll(env.fallback, tenant, alerts[..i], clock)| <= budget
      requires ingestion.repository.State() == Progress(env, tenant, alerts, i, clock, start, names)
      modifies ingestion.repository
      ensures Valid()
      ensures result.None? ==>
        var writes := Inventory.WritesOfAll(env.fallback, tenant, alerts, clock);
        budget <= |writes|
          && ingestion.repository.State() == Inventory.WrittenAll(start, writes[..budget], Ids(names, budget))
      ensures result.Some? ==>
        var r, repository := result.value, ingestion.repository;
        && repository.State() == Progress(env, tenant, alerts, i + 1, clock, start, names)
        && |Inventory.WritesOfAll(env.fallback, tenant, alerts[..i + 1], clock)| == events + r.events <= budget
        && |repository.assets| == |old(repository.assets)| + (if r.assetCreated then 1 else 0)
        && |repository.observations| == |old(repository.observations)| + (if r.integrityCreated then 1 else 0)
    {
      hide Inventory.Sound, Inventory.WrittenAll, Inventory.WritesOf, Inventory.WritesOfAll, Progress, Ids;
      ghost var one := Inventory.WritesOf(env.fallback, tenant, alerts[i], clock(i));
      ghost var done;
      result, done := ingestion.IngestWazuhAlert(tenant, alerts[i], clock(i), names(events), names(events + 1),
        budget - events);
      ProgressCrash(env, tenant, alerts, i, clock, start, names, done);
      ProgressDone(env, tenant, alerts, i, clock, start, names);
      assert one[..|one|] == one;
    }

    method StreamBatch(id: string, token: string, batch: Batch, clock: Inventory.Clock, names: nat -> string,
          budget: nat)
      returns (failure: Option<Failure>, summary: Summary)
      requires Valid()
      modifies this, ingestion.repository
      ensures Valid()
      ensures (failure, View()) == Streamed(env, old(View()), id, token, batch, clock, names, budget)
      ensures View() == Step(env, old(View()), Action.Stream(id, token, batch, clock, names, budget))
      ensures failure == None ==>
        && |View().inventory.assets| == |old(View()).inventory.assets| + summary.assetsCreated
        && |View().inventory.observations| == |old(View()).inventory.observations| + summary.integrityCreated
        && summary.events == |WritesOf(env, old(View()), id, batch, clock)|
    {
      hide Inventory.Sound, Inventory.WrittenAll, Inventory.WritesOf, Inventory.WritesOfAll, Refusal, Progress, Ids;
      failure := CheckBatch(id, token, batch);
      RefusalExactly(env, View(), id, token, batch, failure);
      if failure.Some? {
        return failure, Summary(0, 0, 0);
      }
      assert id in forwarders && batch.sequence > 0 by { Accepted(env, View(), id, token, batch); }
      var tenant := forwarders[id].tenant;
      var assets, integrity, events := 0, 0, 0;
      ghost var start := ingestion.repository.State();
      ghost var writes := Inventory.WritesOfAll(env.fallback, tenant, batch.alerts, clock);
      ProgressEnds(env, tenant, batch.alerts, clock, start, names);
      for i := 0 to |batch.alerts|
        invariant Valid() && forwarders == old(forwarders) && receipts == old(receipts)
        invariant events == |Inventory.WritesOfAll(env.fallback, tenant, batch.alerts[..i], clock)| <= budget
        invariant ingestion.repository.State() == Progress(env, tenant, batch.alerts, i, clock, start, names)
        invariant |ingestion.repository.assets| == |start.assets| + assets
        invariant |ingestion.repository.observations| == |start.observations| + integrity
      {
        var result := StreamAlert(tenant, batch.alerts, i, clock, names, events, budget, start);
        if result.None? {
          return Some(Crashed), Summary(0, 0, 0);
        }
        if result.value.assetCreated {
          assets := assets + 1;
        }
        if result.value.integrityCreated {
          integrity := integrity + 1;
        }
        events := events + result.value.events;
      }
      assert batch.alerts[..|batch.alerts|] == batch.alerts;
      if budget <= events {
        assert writes[..budget] == writes;
        return Some(Crashed), Summary(0, 0, 0);
      }
      receipts := receipts + [Receipt(id, batch.id, batch.sequence, |batch.alerts|)];
      forwarders := forwarders[id := forwarders[id].(lastSequence := batch.sequence)];
      summary := Summary(assets, integrity, events);
    }
  }

  /** What `CheckBatch` promises leaves only one answer. */
  lemma RefusalExactly(env: Env, s: State, id: string, token: string, batch: Batch, failure: Option<Failure>)
    requires Diagnosed(env, s, id, token, batch, failure)
    ensures failure == Refusal(env, s, id, token, batch)
  {
  }

  lemma Accepted(env: Env, s: State, id: string, token: string, batch: Batch)
    requires Refusal(env, s, id, token, batch).None?
    ensures id in s.forwarders && s.forwarders[id].active && s.forwarders[id].digest == env.digest(token)
    ensures batch.sequence == s.forwarders[id].lastSequence + 1 && !BatchIdUsed(s.receipts, id, batch.id)
  {
  }

  /** The tables after the first `i` alerts of a batch. */
  function Progress(env: Env, tenant: string, alerts: seq<Inventory.Alert>, i: nat, clock: Inventory.Clock,
        s: Inventory.Store, names: nat -> string): Inventory.Store
    requires i <= |alerts|
  {
    var writes := Inventory.WritesOfAll(env.fallback, tenant, alerts[..i], clock);
    Inventory.WrittenAll(s, writes, Ids(names, |writes|))
  }

  lemma ProgressEnds(env: Env, tenant: string, alerts: seq<Inventory.Alert>, clock: Inventory.Clock, s: Inventory.Store,
        names: nat -> string)
    ensures |Inventory.WritesOfAll(env.fallback, tenant, alerts[..0], clock)| == 0
    ensures Progress(env, tenant, alerts, 0, clock, s, names) == s
    ensures var writes := Inventory.WritesOfAll(env.fallback, tenant, alerts, clock);
      Progress(env, tenant, alerts, |alerts|, clock, s, names) == Inventory.WrittenAll(s, writes, Ids(names, |writes|))
  {
    assert alerts[..|alerts|] == alerts;
  }

  lemma TakePrefix(a: seq<Inventory.Write>, b: seq<Inventory.Write>, all: seq<Inventory.Write>, n: nat)
    requires a + b <= all && n <= |b|
    ensures all[..|a| + n] == a + b[..n]
  {
    assert (a + b)[..|a| + n] == a + b[..n];
  }

  lemma IdsAppended(names: nat -> string, n: nat, done: nat)
    requires done <= 2
    ensures Ids(names, n + done) == Ids(names, n) + [names(n), names(n + 1)][..done]
  {
  }

  /** Dying after `done` writes of the next alert leaves a prefix of the writes of the batch. */
  lemma ProgressCrash(env: Env, tenant: string, alerts: seq<Inventory.Alert>, i: nat, clock: Inventory.Clock,
        s: Inventory.Store, names: nat -> string, done: nat)
    requires i < |alerts| && done <= |Inventory.WritesOf(env.fallback, tenant, alerts[i], clock(i))|
    ensures var all := Inventory.WritesOfAll(env.fallback, tenant, alerts, clock);
      var n := |Inventory.WritesOfAll(env.fallback, tenant, alerts[..i], clock)|;
      var one := Inventory.WritesOf(env.fallback, tenant, alerts[i], clock(i));
      && n + |one| <= |all|
      && Inventory.WrittenAll(Progress(env, tenant, alerts, i, clock, s, names), one[..done],
        [names(n), names(n + 1)][..done])
           == Inventory.WrittenAll(s, all[..n + done], Ids(names, n + done))
  {
    assert done <= 2;
    hide Inventory.WrittenAll, Inventory.WritesOf, Inventory.WritesOfAll;
    var all := Inventory.WritesOfAll(env.fallback, tenant, alerts, clock);
    var before := Inventory.WritesOfAll(env.fallback, tenant, alerts[..i], clock);
    var one := Inventory.WritesOf(env.fallback, tenant, alerts[i], clock(i));
    Inventory.WritesOneMore(env.fallback, tenant, alerts, i, clock);
    TakePrefix(before, one, all, done);
    var n := |before|;
    IdsAppended(names, n, done);
    WrittenParts(s, before, Ids(names, n), one[..done], [names(n), names(n + 1)][..done], all[..n + done],
      Ids(names, n + done));
  }

  lemma ProgressDone(env: Env, tenant: string, alerts: seq<Inventory.Alert>, i: nat, clock: Inventory.Clock,
        s: Inventory.Store, names: nat -> string)
    requires i < |alerts|
    ensures var n := |Inventory.WritesOfAll(env.fallback, tenant, alerts[..i], clock)|;
      var one := Inventory.WritesOf(env.fallback, tenant, alerts[i], clock(i));
      && |Inventory.WritesOfAll(env.fallback, tenant, alerts[..i + 1], clock)| == n + |one|
      && Inventory.WrittenAll(Progress(env, tenant, alerts, i, clock, s, names), one, [names(n), names(n + 1)][..|one|])
           == Progress(env, tenant, alerts, i + 1, clock, s, names)
  {
    var one := Inventory.WritesOf(env.fallback, tenant, alerts[i], clock(i));
    var before := Inventory.WritesOfAll(env.fallback, tenant, alerts[..i], clock);
    var after := Inventory.WritesOfAll(env.fallback, tenant, alerts[..i + 1], clock);
    assert |one| <= 2;
    hide Inventory.WrittenAll, Inventory.WritesOf, Inventory.WritesOfAll;
    Inventory.WritesOneMore(env.fallback, tenant, alerts, i, clock);
    var n := |before|;
    assert |after| == n + |one|;
    assert Ids(names, |after|) == Ids(names, n) + [names(n), names(n + 1)][..|one|] by { IdsAppended(names, n, |one|); }
    WrittenParts(s, before, Ids(names, n), one, [names(n), names(n + 1)][..|one|], after, Ids(names, |after|));
    hide Ids;
  }

  lemma WrittenParts(s: Inventory.Store, a: seq<Inventory.Write>, aIds: seq<string>, b: seq<Inventory.Write>,
        bIds: seq<string>, both: seq<Inventory.Write>, ids: seq<string>)
    requires |aIds| == |a| && |bIds| == |b| && both == a + b && ids == aIds + bIds
    ensures Inventory.WrittenAll(s, both, ids) == Inventory.WrittenAll(Inventory.WrittenAll(s, a, aIds), b, bIds)
  {
    Inventory.WrittenTwice(s, a, aIds, b, bIds);
  }

  // ----- Every run -----

  datatype Action =
    | Register(tenant: string, name: string, id: string, token: string)
    | Revoke(tenant: string, id: string)
    | Stream(id: string, token: string, batch: Batch, clock: Inventory.Clock, names: nat -> string, budget: nat)

  function Step(env: Env, s: State, a: Action): State {
    match a
    case Register(tenant, name, id, token) => if id in s.forwarders then s
      else Registered(env, s, tenant, name, id, token)
    case Revoke(tenant, id) => Revoked(s, tenant, id)
    case Stream(id, token, batch, clock, names, budget) => Streamed(env, s, id, token, batch, clock, names, budget).1
  }

  function RunFrom(env: Env, s: State, actions: seq<Action>): State {
    if actions == [] then s else Step(env, RunFrom(env, s, actions[..|actions| - 1]), actions[|actions| - 1])
  }

  /** The receipts of one forwarder, oldest first. */
  function ReceiptsOf(receipts: seq<Receipt>, id: string): seq<Receipt> {
    if receipts == [] then []
    else
      var before, last := ReceiptsOf(receipts[..|receipts| - 1], id), receipts[|receipts| - 1];
      if last.forwarder == id then before + [last] else before
  }

  /** Accepted sequences are exactly 1, 2, ..., last_sequence, in this order, under distinct batch ids. */
  ghost predicate Ordered(s: State, id: string) {
    var own := ReceiptsOf(s.receipts, id);
    && |own| == (if id in s.forwarders then s.forwarders[id].lastSequence else 0)
    && (forall i | 0 <= i < |own| :: own[i].sequence == i + 1)
    && (forall i, j | 0 <= i < j < |own| :: own[i].batchId != own[j].batchId)
  }

  ghost predicate NamesUnique(s: State) {
    forall f, g | f in s.forwarders && g in s.forwarders && f != g ::
      s.forwarders[f].tenant != s.forwarders[g].tenant || s.forwarders[f].name != s.forwarders[g].name
  }

  lemma {:induction false} ReceiptsAreListed(receipts: seq<Receipt>, id: string, i: nat)
    requires i < |ReceiptsOf(receipts, id)|
    ensures exists k | 0 <= k < |receipts| :: receipts[k] == ReceiptsOf(receipts, id)[i] && receipts[k].forwarder == id
  {
    var before, last := receipts[..|receipts| - 1], receipts[|receipts| - 1];
    if i < |ReceiptsOf(before, id)| {
      ReceiptsAreListed(before, id, i);
      var k :| 0 <= k < |before| && before[k] == ReceiptsOf(before, id)[i] && before[k].forwarder == id;
      assert receipts[k] == before[k];
    } else {
      assert receipts[|receipts| - 1] == ReceiptsOf(receipts, id)[i];
    }
  }

  lemma ReceiptAdded(receipts: seq<Receipt>, r: Receipt, id: string)
    ensures ReceiptsOf(receipts + [r], id) ==
      if r.forwarder == id then ReceiptsOf(receipts, id) + [r] else ReceiptsOf(receipts, id)
  {
    assert (receipts + [r])[..|receipts|] == receipts;
  }

  lemma StreamOrdered(env: Env, s: State, a: Action, id: string)
    requires Ordered(s, id) && a.Stream?
    ensures Ordered(Step(env, s, a), id)
  {
    hide Inventory.WrittenAll, Inventory.WritesOfAll;
    var r := Receipt(a.id, a.batch.id, if a.batch.sequence < 0 then 0 else a.batch.sequence, |a.batch.alerts|);
    ReceiptAdded(s.receipts, r, id);
    forall i | 0 <= i < |ReceiptsOf(s.receipts, id)| && id == a.id && !BatchIdUsed(s.receipts, a.id, a.batch.id)
      ensures ReceiptsOf(s.receipts, id)[i].batchId != a.batch.id
    {
      ReceiptsAreListed(s.receipts, id, i);
    }
    hide ReceiptsOf, BatchIdUsed;
  }

  /** In every run of registrations, revocations and crashing or completed streams, each forwarder's
      accepted sequences are exactly 1..last_sequence, in order and with distinct batch ids. */
  lemma {:induction false} SequencesExact(env: Env, actions: seq<Action>, id: string)
    ensures Ordered(RunFrom(env, EMPTY, actions), id)
  {
    if actions != [] {
      var before, a := RunFrom(env, EMPTY, actions[..|actions| - 1]), actions[|actions| - 1];
      SequencesExact(env, actions[..|actions| - 1], id);
      if a.Stream? {
        StreamOrdered(env, before, a, id);
      }
      hide Streamed, ReceiptsOf;
    }
  }

  lemma {:induction false} NamesStayUnique(env: Env, actions: seq<Action>)
    ensures NamesUnique(RunFrom(env, EMPTY, actions))
  {
    if actions != [] {
      hide Inventory.WrittenAll, WritesOf;
      NamesStayUnique(env, actions[..|actions| - 1]);
    }
  }

  /** Identity is fixed and a revoked forwarder is frozen: no later action reactivates it or gets a batch
      accepted under it. */
  lemma {:induction false} RevocationIsFinal(env: Env, s: State, later: seq<Action>, id: string)
    requires id in s.forwarders
    ensures var t := RunFrom(env, s, later);
      && id in t.forwarders
      && t.forwarders[id].(active := true, lastSequence := 0) == s.forwarders[id].(active := true, lastSequence := 0)
      && s.forwarders[id].lastSequence <= t.forwarders[id].lastSequence
      && (!s.forwarders[id].active ==>
        t.forwarders[id] == s.forwarders[id] && ReceiptsOf(t.receipts, id) == ReceiptsOf(s.receipts, id))
  {
    if later != [] {
      var before, a := RunFrom(env, s, later[..|later| - 1]), later[|later| - 1];
      RevocationIsFinal(env, s, later[..|later| - 1], id);
      if a.Stream? && Refusal(env, before, a.id, a.token, a.batch).None? {
        ReceiptAdded(before.receipts, Receipt(a.id, a.batch.id, a.batch.sequence, |a.batch.alerts|), id);
      }
      hide Inventory.WrittenAll, WritesOf, ReceiptsOf;
    }
  }

  // ----- Crash and retry -----

  /** One attempt at a batch: its clock, its generated ids, and how many commits it lives for. */
  datatype Attempt = Attempt(clock: Inventory.Clock, names: nat -> string, budget: nat)

  function AfterAttempts(env: Env, s: State, id: string, token: string, batch: Batch, attempts: seq<Attempt>): State {
    if attempts == [] then s
    else
      var a := attempts[|attempts| - 1];
      Streamed(env, AfterAttempts(env, s, id, token, batch, attempts[..|attempts| - 1]), id, token, batch, a.clock,
        a.names, a.budget).1
  }

  /** A batch that was accepted is refused from then on, and changes nothing. */
  lemma AcceptedOnlyOnce(env: Env, s: State, id: string, token: string, batch: Batch, a: Attempt, b: Attempt)
    requires Streamed(env, s, id, token, batch, a.clock, a.names, a.budget).0.None?
    ensures var t := Streamed(env, s, id, token, batch, a.clock, a.names, a.budget).1;
      Streamed(env, t, id, token, batch, b.clock, b.names, b.budget) == (Some(AlreadyAccepted), t)
  {
    hide Inventory.WrittenAll, WritesOf;
  }

  predicate Dated(batch: Batch) {
    forall i | 0 <= i < |batch.alerts| :: batch.alerts[i].timestamp.Some?
  }

  /** The writes an attempt committed before it died. */
  function PartialOf(env: Env, s: State, id: string, batch: Batch, a: Attempt): Inventory.Partial
    requires id in s.forwarders
  {
    Inventory.Partial(WritesOf(env, s, id, batch, a.clock), Ids(a.names, a.budget))
  }

  predicate Dies(env: Env, s: State, id: string, batch: Batch, a: Attempt) {
    id in s.forwarders && a.budget <= |WritesOf(env, s, id, batch, a.clock)|
  }

  /** Attempts that die leave nothing but prefixes of their writes. */
  lemma {:induction false} AttemptsOnlyWrite(env: Env, s: State, id: string, token: string, batch: Batch,
        attempts: seq<Attempt>, partials: seq<Inventory.Partial>)
    requires Refusal(env, s, id, token, batch).None? && |partials| == |attempts|
    requires forall i | 0 <= i < |attempts| :: Dies(env, s, id, batch, attempts[i])
    requires forall i | 0 <= i < |attempts| :: partials[i] == PartialOf(env, s, id, batch, attempts[i])
    requires forall i | 0 <= i < |partials| :: |partials[i].ids| <= |partials[i].writes|
    ensures AfterAttempts(env, s, id, token, batch, attempts) ==
      s.(inventory := Inventory.AfterCrashes(s.inventory, partials))
  {
    if attempts != [] {
      var m := |attempts| - 1;
      AttemptsOnlyWrite(env, s, id, token, batch, attempts[..m], partials[..m]);
      assert Dies(env, s, id, batch, attempts[m]);
      hide Inventory.WrittenAll, Inventory.WritesOfAll, Ids;
    }
  }

  /** After the attempts that die, a full attempt is accepted, and forwarders, receipts and tables are those of one
      clean attempt, up to generated ids. */
  ghost predicate RetriedCleanly(env: Env, s: State, id: string, token: string, batch: Batch, attempts: seq<Attempt>,
        last: Attempt, clean: Attempt)
  {
    var once := Streamed(env, s, id, token, batch, clean.clock, clean.names, clean.budget).1;
    var crashed := AfterAttempts(env, s, id, token, batch, attempts);
    var (failure, retried) := Streamed(env, crashed, id, token, batch, last.clock, last.names, last.budget);
    && failure.None? && retried.forwarders == once.forwarders && retried.receipts == once.receipts
    && Inventory.Forget(retried.inventory) == Inventory.Forget(once.inventory)
  }

  /** Whatever number of attempts die, after whatever prefix of their writes and at whatever times: a batch in which
      each alert has a timestamp, no integrity part, or an event that an earlier alert with a timestamp reports, is
      retried cleanly. The clean attempt may be at any times if all alerts have timestamps, and is at the times of
      the retry otherwise. */
  lemma CrashedBatchIsRetriedCleanly(env: Env, s: State, id: string, token: string, batch: Batch,
        attempts: seq<Attempt>, last: Attempt, clean: Attempt)
    requires Inventory.Sound(s.inventory) && Inventory.RepeatableBatch(env.fallback, batch.alerts)
    requires Dated(batch) || last.clock == clean.clock
    requires forall i | 0 <= i < |attempts| :: Dies(env, s, id, batch, attempts[i])
    requires Streamed(env, s, id, token, batch, clean.clock, clean.names, clean.budget).0.None?
    requires !Dies(env, s, id, batch, last)
    ensures RetriedCleanly(env, s, id, token, batch, attempts, last, clean)
  {
    var writes := WritesOf(env, s, id, batch, last.clock);
    if Dated(batch) {
      Inventory.DatedBatchIsClockFree(env.fallback, s.forwarders[id].tenant, batch.alerts, last.clock, clean.clock);
    }
    assert WritesOf(env, s, id, batch, clean.clock) == writes;
    hide Inventory.WrittenAll, Inventory.WritesOfAll, Inventory.Forget, Inventory.Sound, Inventory.RepeatableBatch,
      Dated;
    RetriedContent(env, s, id, token, batch, attempts, last.clock, Ids(last.names, |writes|),
      Ids(clean.names, |writes|));
    hide AfterAttempts, Ids;
  }

  /** Every retry, after any attempts that die, is clean at its own times. */
  ghost predicate AlwaysRetriedCleanly(env: Env, s: State, id: string, token: string, batch: Batch) {
    forall attempts, last, clean |
        && (forall i | 0 <= i < |attempts| :: Dies(env, s, id, batch, attempts[i]))
        && !Dies(env, s, id, batch, last) && !Dies(env, s, id, batch, clean) && last.clock == clean.clock ::
      RetriedCleanly(env, s, id, token, batch, attempts, last, clean)
  }

  lemma DiesAtTheEnd(env: Env, s: State, id: string, token: string, batch: Batch, clock: Inventory.Clock,
        names: nat -> string)
    requires Refusal(env, s, id, token, batch).None?
    ensures var v := WritesOf(env, s, id, batch, clock);
      AfterAttempts(env, s, id, token, batch, [Attempt(clock, names, |v|)]) ==
        s.(inventory := Inventory.WrittenAll(s.inventory, v, Ids(names, |v|)))
  {
    var v := WritesOf(env, s, id, batch, clock);
    var a := Attempt(clock, names, |v|);
    assert v[..|v|] == v && [a][..0] == [];
    hide Inventory.WrittenAll, Inventory.WritesOfAll, Ids, Refusal;
    assert AfterAttempts(env, s, id, token, batch, []) == s;
  }

  lemma LivesThrough(env: Env, s: State, id: string, token: string, batch: Batch, a: Attempt)
    requires Refusal(env, s, id, token, batch).None? && !Dies(env, s, id, batch, a)
    ensures id in s.forwarders
    ensures var w := WritesOf(env, s, id, batch, a.clock);
      Streamed(env, s, id, token, batch, a.clock, a.names, a.budget).1.inventory
        == Inventory.WrittenAll(s.inventory, w, Ids(a.names, |w|))
  {
    hide Inventory.WrittenAll, Inventory.WritesOfAll, Ids;
  }

  /** All writes of a batch commit and the batch itself does not; retried at other times, it keeps what the first
      attempt reported. */
  lemma DifferentReportsAreNotClean(env: Env, s: State, id: string, token: string, batch: Batch,
        first: Inventory.Clock, second: Inventory.Clock, key: Inventory.ObservationKey)
    returns (died: Attempt, last: Attempt)
    requires Refusal(env, s, id, token, batch).None? && s.inventory == EMPTY.inventory
    requires var was := Inventory.FirstReports(WritesOf(env, s, id, batch, first));
      var next := Inventory.FirstReports(WritesOf(env, s, id, batch, second));
      key in was && !(key in next && next[key] == was[key])
    ensures Dies(env, s, id, batch, died) && !Dies(env, s, id, batch, last)
    ensures !RetriedCleanly(env, s, id, token, batch, [died], last, last)
  {
    var tenant, names := s.forwarders[id].tenant, (n: nat) => "";
    var v, w := WritesOf(env, s, id, batch, first), WritesOf(env, s, id, batch, second);
    died, last := Attempt(first, names, |v|), Attempt(second, names, |w| + 1);
    var crashed := s.(inventory := Inventory.WrittenAll(s.inventory, v, Ids(names, |v|)));
    assert Dies(env, s, id, batch, died) && !Dies(env, s, id, batch, last) && !Dies(env, crashed, id, batch, last);
    assert Refusal(env, crashed, id, token, batch).None? && WritesOf(env, crashed, id, batch, second) == w;
    Inventory.AlertsWriteAssetsFirst(env.fallback, tenant, batch.alerts, first);
    Inventory.AlertsWriteAssetsFirst(env.fallback, tenant, batch.alerts, second);
    DiesAtTheEnd(env, s, id, token, batch, first, names);
    LivesThrough(env, s, id, token, batch, last);
    LivesThrough(env, crashed, id, token, batch, last);
    hide Inventory.WritesOfAll, Inventory.WrittenAll, Inventory.FirstReports, Inventory.LastReports, Streamed, Refusal,
      Inventory.Forget, Inventory.AssetsFirst, AfterAttempts, Dies, Ids, WritesOf;
    RewrittenKeepsFirst(v, w, Ids(names, |v|), Ids(names, |w|), key);
  }

  lemma UncoveredIsNotClean(env: Env, s: State, id: string, token: string, batch: Batch, i: nat, t: int)
    requires Refusal(env, s, id, token, batch).None? && s.inventory == EMPTY.inventory
    requires i < |batch.alerts| && Inventory.Uncovered(env.fallback, batch.alerts, i, t)
    ensures !AlwaysRetriedCleanly(env, s, id, token, batch)
  {
    hide RetriedCleanly, Inventory.FirstReports, Inventory.WritesOfAll, Dies;
    Inventory.UncoveredReportsDiffer(env.fallback, s.forwarders[id].tenant, batch.alerts, i, t);
    var key := Inventory.EventKey(env.fallback, s.forwarders[id].tenant, batch.alerts[i], t);
    hide Inventory.EventKey, Inventory.Uncovered, Refusal;
    var died, last := DifferentReportsAreNotClean(env, s, id, token, batch, Inventory.Always(t),
      Inventory.Always(t + 1), key);
  }

  /** On empty tables, writes after others keep what those reported first. */
  lemma RewrittenKeepsFirst(v: seq<Inventory.Write>, w: seq<Inventory.Write>, vIds: seq<string>, wIds: seq<string>,
        key: Inventory.ObservationKey)
    requires |vIds| == |v| && |wIds| == |w| && Inventory.AssetsFirst(v) && Inventory.AssetsFirst(w)
    requires key in Inventory.FirstReports(v)
    requires !(key in Inventory.FirstReports(w) && Inventory.FirstReports(w)[key] == Inventory.FirstReports(v)[key])
    ensures Inventory.Forget(Inventory.WrittenAll(Inventory.WrittenAll(EMPTY.inventory, v, vIds), w, wIds))
      != Inventory.Forget(Inventory.WrittenAll(EMPTY.inventory, w, wIds))
  {
    var empty := EMPTY.inventory;
    assert Inventory.Sound(empty) && Inventory.Forget(empty).observations == map[];
    hide Inventory.Sound, Inventory.Forget, Inventory.WrittenAll, Inventory.FirstReports, Inventory.LastReports,
      Inventory.AssetsFirst;
    Inventory.WritesExactly(empty, v, vIds);
    Inventory.WritesExactly(Inventory.WrittenAll(empty, v, vIds), w, wIds);
    Inventory.WritesExactly(empty, w, wIds);
  }

  /** A batch can be retried cleanly after any crashes if and only if each of its alerts has a timestamp, no
      integrity part, or an event id of its own that an earlier alert with a timestamp reports. */
  lemma BatchRetryExactly(env: Env, s: State, id: string, token: string, batch: Batch)
    requires Inventory.TellsTimes(env.fallback)
    requires Refusal(env, s, id, token, batch).None? && s.inventory == EMPTY.inventory
    ensures AlwaysRetriedCleanly(env, s, id, token, batch) <==> Inventory.RepeatableBatch(env.fallback, batch.alerts)
  {
    hide RetriedCleanly, Inventory.Repeatable, Inventory.Covered;
    assert Inventory.Sound(s.inventory);
    if Inventory.RepeatableBatch(env.fallback, batch.alerts) {
      forall attempts, last: Attempt, clean: Attempt |
          && (forall i | 0 <= i < |attempts| :: Dies(env, s, id, batch, attempts[i]))
          && !Dies(env, s, id, batch, last) && !Dies(env, s, id, batch, clean) && last.clock == clean.clock
        ensures RetriedCleanly(env, s, id, token, batch, attempts, last, clean)
      {
        CrashedBatchIsRetriedCleanly(env, s, id, token, batch, attempts, last, clean);
      }
    } else {
      var i: nat :| i < |batch.alerts| && !Inventory.Repeatable(batch.alerts[i])
        && !Inventory.Covered(env.fallback, batch.alerts, i);
      var t := Inventory.UncoveredTime(env.fallback, batch.alerts, i);
      UncoveredIsNotClean(env, s, id, token, batch, i, t);
    }
  }

  lemma RetriedContent(env: Env, s: State, id: string, token: string, batch: Batch, attempts: seq<Attempt>,
        clock: Inventory.Clock, ids: seq<string>, cleanIds: seq<string>)
    requires Refusal(env, s, id, token, batch).None? && Inventory.Sound(s.inventory)
    requires Inventory.RepeatableBatch(env.fallback, batch.alerts)
    requires forall i | 0 <= i < |attempts| :: Dies(env, s, id, batch, attempts[i])
    requires |ids| == |cleanIds| == |WritesOf(env, s, id, batch, clock)|
    ensures var crashed := AfterAttempts(env, s, id, token, batch, attempts);
      var writes := WritesOf(env, s, id, batch, clock);
      && crashed == s.(inventory := crashed.inventory)
      && Inventory.Forget(Inventory.WrittenAll(crashed.inventory, writes, ids)) ==
         Inventory.Forget(Inventory.WrittenAll(s.inventory, writes, cleanIds))
  {
    var writes := WritesOf(env, s, id, batch, clock);
    var partials := seq(|attempts|, i requires 0 <= i < |attempts| =>
      assert Dies(env, s, id, batch, attempts[i]); PartialOf(env, s, id, batch, attempts[i]));
    forall i | 0 <= i < |attempts|
      ensures |partials[i].ids| <= |partials[i].writes| && Inventory.Alike(partials[i].writes, writes)
    {
      assert Dies(env, s, id, batch, attempts[i]);
      Inventory.RepeatableBatchIsAlike(env.fallback, s.forwarders[id].tenant, batch.alerts, attempts[i].clock, clock);
    }
    AttemptsOnlyWrite(env, s, id, token, batch, attempts, partials);
    Inventory.AlertsWriteAssetsFirst(env.fallback, s.forwarders[id].tenant, batch.alerts, clock);
    hide Inventory.WrittenAll, Inventory.WritesOfAll, Inventory.AfterCrashes, Inventory.Sound, Inventory.Forget,
      AfterAttempts, Inventory.Alike, Inventory.AssetsFirst, Inventory.RepeatableBatch;
    Inventory.CrashesThenRetry(s.inventory, writes, partials, ids, cleanIds);
  }
}
