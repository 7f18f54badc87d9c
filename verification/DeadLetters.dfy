/** Durable failure receipts of `ingestion_reliability.py`: one row per broker delivery, updated by
    repeated failures and closed by an analyst's replay, whose read, processing and finish are separate
    steps that may interleave with everything else. */
module DeadLetters {
  import opened Wrappers

  datatype Coordinates = Coordinates(topic: string, partition: nat, offset: nat)
  datatype Status = Open | Replayed | Discarded

  /** `payload` is the canonical JSON text of the message as written; reading it goes through `Env.readBack`. */
  datatype Row = Row(
    id: string, tenant: Option<string>, hash: string, payload: string, error: string,
    status: Status, attempts: nat, replayedBy: Option<string>)

  type Rows = map<Coordinates, Row>

  /** The payload digest, the tenant a payload names if it names a valid one, and the text that the JSON column
      gives back for a text written to it. */
  datatype Env = Env(hash: string -> string, tenantOf: string -> Option<string>, readBack: string -> string)

  datatype Failure = HashConflict | NotFound | NotOpen | HashMismatch | StateChanged | ProcessorFailed

  function PayloadOf(env: Env, row: Row): string {
    env.readBack(row.payload)
  }

  /** The payload that a replay reads still has the recorded digest. */
  predicate HashFits(env: Env, row: Row) {
    env.hash(PayloadOf(env, row)) == row.hash
  }

  // ----- Atomic steps on the table -----

  function Recorded(env: Env, rows: Rows, c: Coordinates, payload: string, error: string, freshId: string):
    (Result<Row, Failure>, Rows)
  {
    if c !in rows then
      var row := Row(freshId, env.tenantOf(payload), env.hash(payload), payload, error, Open, 1, None);
      (Ok(row), rows[c := row])
    else if rows[c].hash != env.hash(payload) then (Err(HashConflict), rows)
    else if rows[c].status != Open then (Ok(rows[c]), rows)
    else
      var row := rows[c].(attempts := rows[c].attempts + 1, error := error);
      (Ok(row), rows[c := row])
  }

  predicate Matches(row: Row, tenant: string, id: string) {
    row.tenant == Some(tenant) && row.id == id
  }

  /** `found` is the answer of the lookup by tenant and dead-letter id. */
  predicate IsFound(rows: Rows, tenant: string, id: string, found: Option<Coordinates>) {
    match found
    case Some(c) => c in rows && Matches(rows[c], tenant, id)
    case None => forall c | c in rows :: !Matches(rows[c], tenant, id)
  }

  /** An open receipt of this tenant and id, whose hash fits: what a replay hands to the processor. */
  predicate IsReplayable(env: Env, rows: Rows, tenant: string, id: string, c: Coordinates) {
    c in rows && Matches(rows[c], tenant, id) && rows[c].status == Open && HashFits(env, rows[c])
  }

  function Closed(row: Row, actor: string): Row {
    row.(status := Replayed, replayedBy := Some(actor))
  }

  // ----- Runs -----

  /** One call of `replay`, between its steps. */
  datatype Task =
    | Running(c: Coordinates, tenant: string, id: string, actor: string, payload: string)
    | Succeeded(c: Coordinates, tenant: string, id: string, actor: string, payload: string)
    | Completed(c: Coordinates, payload: string)
    | Ended

  datatype State = State(rows: Rows, tasks: map<nat, Task>)

  datatype Action =
    | Fail(c: Coordinates, payload: string, error: string, freshId: string)
    | Begin(task: nat, tenant: string, id: string, actor: string, found: Option<Coordinates>)
    | Succeed(task: nat)
    | Raise(task: nat, error: string)
    | Finish(task: nat, found: Option<Coordinates>)
    | Crash(task: nat)

  const EMPTY := State(map[], map[])

  predicate Possible(s: State, a: Action) {
    match a
    case Fail(_, _, _, freshId) => forall c | c in s.rows :: s.rows[c].id != freshId
    case Begin(task, tenant, id, _, found) => task !in s.tasks && IsFound(s.rows, tenant, id, found)
    case Succeed(task) => task in s.tasks && s.tasks[task].Running?
    case Raise(task, _) => task in s.tasks && s.tasks[task].Running?
    case Finish(task, found) =>
      task in s.tasks && s.tasks[task].Succeeded? && IsFound(s.rows, s.tasks[task].tenant, s.tasks[task].id, found)
    case Crash(task) => task in s.tasks
  }

  function Step(env: Env, s: State, a: Action): State
    requires Possible(s, a)
  {
    match a
    case Fail(c, payload, error, freshId) => s.(rows := Recorded(env, s.rows, c, payload, error, freshId).1)
    case Begin(task, tenant, id, actor, found) =>
      s.(tasks := s.tasks[task :=
        if found.Some? && s.rows[found.value].status == Open && HashFits(env, s.rows[found.value])
        then Running(found.value, tenant, id, actor, PayloadOf(env, s.rows[found.value])) else Ended])
    case Succeed(task) =>
      var k := s.tasks[task];
      s.(tasks := s.tasks[task := Succeeded(k.c, k.tenant, k.id, k.actor, k.payload)])
    case Raise(task, error) =>
      var k := s.tasks[task];
      State(Recorded(env, s.rows, k.c, k.payload, error, k.id).1, s.tasks[task := Ended])
    case Finish(task, found) =>
      if found.Some? && s.rows[found.value].status == Open then
        State(s.rows[found.value := Closed(s.rows[found.value], s.tasks[task].actor)],
              s.tasks[task := Completed(s.tasks[task].c, s.tasks[task].payload)])
      else s.(tasks := s.tasks[task := Ended])
    case Crash(task) => if s.tasks[task].Completed? then s else s.(tasks := s.tasks[task := Ended])
  }

  ghost function RunFrom(env: Env, s: State, actions: seq<Action>): Option<State> {
    if actions == [] then Some(s)
    else
      var before := RunFrom(env, s, actions[..|actions| - 1]);
      if before.Some? && Possible(before.value, actions[|actions| - 1])
      then Some(Step(env, before.value, actions[|actions| - 1]))
      else None
  }

  // ----- The repository -----

  class IngestionDeadLetterRepository {
    const env: Env
    var rows: Rows

    constructor (env: Env)
      ensures this.env == env && rows == map[]
    {
      this.env, rows := env, map[];
    }

    method RecordFailure(c: Coordinates, payload: string, error: string, freshId: string)
      returns (result: Result<Row, Failure>, created: bool)
      modifies this
      ensures (result, rows) == Recorded(env, old(rows), c, payload, error, freshId)
      ensures created <==> c !in old(rows)
    {
      var messageHash := env.hash(payload);
      if c in rows {
        var existing := rows[c];
        if existing.hash != messageHash {
          return Err(HashConflict), false;
        }
        if existing.status != Open {
          return Ok(existing), false;
        }
        existing := existing.(attempts := existing.attempts + 1, error := error);
        rows := rows[c := existing];
        return Ok(existing), false;
      }
      var row := Row(freshId, env.tenantOf(payload), messageHash, payload, error, Open, 1, None);
      rows := rows[c := row];
      result, created := Ok(row), true;
    }

    method Find(tenant: string, id: string) returns (found: Option<Coordinates>)
      ensures IsFound(rows, tenant, id, found)
    {
      if c :| c in rows && rows[c].tenant == Some(tenant) && rows[c].id == id {
        assert Matches(rows[c], tenant, id);
        return Some(c);
      }
      found := None;
    }

    /** One undisturbed replay. `raised` is what the processor raises, if anything; `steps` is the run of
        the state machine that the call performed as task `task`. */
    method Replay(tenant: string, id: string, actor: string, raised: Option<string>, ghost task: nat,
          ghost tasks: map<nat, Task>)
      returns (result: Result<Row, Failure>, ghost steps: seq<Action>, ghost after: State)
      requires task !in tasks
      requires forall c, d | c in rows && d in rows && rows[c].id == rows[d].id :: c == d
      modifies this
      ensures after.rows == rows && RunFrom(env, State(old(rows), tasks), steps) == Some(after)
      ensures result == Err(NotFound) <==> IsFound(old(rows), tenant, id, None)
      ensures result.Ok? ==> Matches(result.value, tenant, id) && result.value.status == Replayed
      ensures result.Err? && result.failure != ProcessorFailed ==> rows == old(rows)
      ensures forall c | IsReplayable(env, old(rows), tenant, id, c) ::
        && (result.Ok? <==> raised.None?)
        && (raised.None? ==> rows == old(rows)[c := Closed(old(rows)[c], actor)])
        && (raised.Some? ==> result == Err(ProcessorFailed))
        && (raised.Some? ==> rows == Recorded(env, old(rows), c, PayloadOf(env, old(rows)[c]), raised.value, id).1)
      ensures result == Err(ProcessorFailed) ==> raised.Some? && exists c :: IsReplayable(env, old(rows), tenant, id, c)
    {
      var found := Find(tenant, id);
      assert forall c | IsReplayable(env, rows, tenant, id, c) :: found == Some(c);
      ghost var s0 := State(rows, tasks);
      ghost var a0 := Begin(task, tenant, id, actor, found);
      ghost var s1 := Step(env, s0, a0);
      RunOneMore(env, s0, [], s0, a0);
      steps, after := [] + [a0], s1;
      if found.None? {
        return Err(NotFound), steps, after;
      }
      var row := rows[found.value];
      if row.status == Replayed {
        return Ok(row), steps, after;
      }
      if row.status != Open {
        return Err(NotOpen), steps, after;
      }
      var payload := env.readBack(row.payload);
      if env.hash(payload) != row.hash {
        return Err(HashMismatch), steps, after;
      }
      assert IsReplayable(env, rows, tenant, id, found.value);
      hide IsReplayable, RunFrom, IsFound;
      if raised.Some? {
        RunOneMore(env, s0, steps, s1, Raise(task, raised.value));
        steps, after := steps + [Raise(task, raised.value)], Step(env, s1, Raise(task, raised.value));
        var recorded, created := RecordFailure(found.value, payload, raised.value, id);
        return Err(ProcessorFailed), steps, after;
      }
      RunOneMore(env, s0, steps, s1, Succeed(task));
      ghost var s2 := Step(env, s1, Succeed(task));
      RunOneMore(env, s0, steps + [Succeed(task)], s2, Finish(task, found));
      steps, after := steps + [Succeed(task)] + [Finish(task, found)], Step(env, s2, Finish(task, found));
      row := row.(status := Replayed, replayedBy := Some(actor));
      rows := rows[found.value := row];
      result := Ok(row);
    }
  }

  lemma RunOneMore(env: Env, s: State, actions: seq<Action>, t: State, a: Action)
    requires RunFrom(env, s, actions) == Some(t) && Possible(t, a)
    ensures RunFrom(env, s, actions + [a]) == Some(Step(env, t, a))
  {
    assert (actions + [a])[..|actions|] == actions;
  }

  lemma RunNone(env: Env, s: State)
    ensures RunFrom(env, s, []) == Some(s)
  {
  }

  // ----- What every run keeps -----

  /** Identity, hash and payload never change, failures are only added, and a row that is not open is frozen. */
  predicate Evolves(r: Row, t: Row) {
    && (r.id, r.tenant, r.hash, r.payload) == (t.id, t.tenant, t.hash, t.payload)
    && r.attempts <= t.attempts
    && (r.status != Open ==> r == t)
  }

  ghost predicate Extends(s: State, t: State) {
    forall c | c in s.rows :: c in t.rows && Evolves(s.rows[c], t.rows[c])
  }

  predicate RowSound(env: Env, row: Row) {
    && row.hash == env.hash(row.payload) && row.tenant == env.tenantOf(row.payload)
    && row.status != Discarded && row.attempts > 0 && (row.status == Replayed <==> row.replayedBy.Some?)
  }

  ghost predicate RowsSound(env: Env, s: State) {
    && (forall c | c in s.rows :: RowSound(env, s.rows[c]))
    && (forall c, d | c in s.rows && d in s.rows && s.rows[c].id == s.rows[d].id :: c == d)
  }

  predicate TaskSound(env: Env, s: State, k: Task) {
    && (!k.Ended? ==> k.c in s.rows && k.payload == PayloadOf(env, s.rows[k.c]) && HashFits(env, s.rows[k.c]))
    && (k.Running? || k.Succeeded? ==> Matches(s.rows[k.c], k.tenant, k.id))
    && (k.Completed? ==> s.rows[k.c].status == Replayed)
  }

  ghost predicate TasksSound(env: Env, s: State) {
    && (forall k | k in s.tasks :: TaskSound(env, s, s.tasks[k]))
    && (forall k, l | k in s.tasks && l in s.tasks && s.tasks[k].Completed? && s.tasks[l].Completed?
          && s.tasks[k].c == s.tasks[l].c :: k == l)
  }

  ghost predicate ClosedByTask(s: State) {
    forall c | c in s.rows && s.rows[c].status == Replayed ::
      exists k | k in s.tasks :: s.tasks[k].Completed? && s.tasks[k].c == c
  }

  ghost predicate Sound(env: Env, s: State) {
    RowsSound(env, s) && TasksSound(env, s) && ClosedByTask(s)
  }

  lemma StepRow(env: Env, s: State, a: Action, c: Coordinates)
    requires RowsSound(env, s) && TasksSound(env, s) && Possible(s, a)
    ensures c in s.rows ==> c in Step(env, s, a).rows && Evolves(s.rows[c], Step(env, s, a).rows[c])
    ensures c in Step(env, s, a).rows ==> RowSound(env, Step(env, s, a).rows[c])
    ensures c in Step(env, s, a).rows && c !in s.rows ==> a.Fail? && a.c == c && Step(env, s, a).rows[c].id == a.freshId
  {
    assert c in s.rows ==> RowSound(env, s.rows[c]);
    if a.Raise? {
      assert TaskSound(env, s, s.tasks[a.task]);
    }
    hide RowsSound, TasksSound, IsFound;
  }

  lemma StepRowsSound(env: Env, s: State, a: Action)
    requires RowsSound(env, s) && TasksSound(env, s) && Possible(s, a)
    ensures RowsSound(env, Step(env, s, a)) && Extends(s, Step(env, s, a))
  {
    hide Step, RowSound, TasksSound;
    var t := Step(env, s, a);
    forall c ensures c in s.rows ==> c in t.rows && Evolves(s.rows[c], t.rows[c])
      ensures c in t.rows ==> RowSound(env, t.rows[c])
      ensures c in t.rows && c !in s.rows ==> a.Fail? && a.c == c && t.rows[c].id == a.freshId
    {
      StepRow(env, s, a, c);
    }
  }

  lemma StepTask(env: Env, s: State, a: Action, k: nat)
    requires RowsSound(env, s) && TasksSound(env, s) && Possible(s, a) && k in Step(env, s, a).tasks
    requires Extends(s, Step(env, s, a))
    ensures TaskSound(env, Step(env, s, a), Step(env, s, a).tasks[k])
    ensures k in s.tasks && s.tasks[k].Completed? ==> Step(env, s, a).tasks[k] == s.tasks[k]
  {
    if k in s.tasks {
      assert TaskSound(env, s, s.tasks[k]);
    }
    hide RowSound, Recorded;
    match a
    case Finish(task, found) => if found.Some? { assert s.rows[found.value].id == s.rows[s.tasks[task].c].id; }
    case _ =>
  }

  lemma NoSecondFinish(env: Env, s: State, a: Action, k: nat)
    requires RowsSound(env, s) && TasksSound(env, s) && Possible(s, a)
    requires k in s.tasks && s.tasks[k].Completed? && a.Finish? && s.tasks[a.task].c == s.tasks[k].c
    ensures Step(env, s, a).tasks[a.task] == Ended
  {
    hide RowSound;
    assert TaskSound(env, s, s.tasks[k]) && TaskSound(env, s, s.tasks[a.task]);
  }

  lemma StepCompletedOnce(env: Env, s: State, a: Action, k: nat, l: nat)
    requires RowsSound(env, s) && TasksSound(env, s) && Possible(s, a)
    requires var t := Step(env, s, a);
      k in t.tasks && l in t.tasks && t.tasks[k].Completed? && t.tasks[l].Completed? && t.tasks[k].c == t.tasks[l].c
    ensures k == l
  {
    forall m | m in s.tasks && s.tasks[m].Completed? && a.Finish? && s.tasks[a.task].c == s.tasks[m].c
      ensures Step(env, s, a).tasks[a.task] == Ended
    {
      NoSecondFinish(env, s, a, m);
    }
    hide RowsSound, TaskSound, Recorded, IsFound;
  }

  lemma StepTasksSound(env: Env, s: State, a: Action)
    requires RowsSound(env, s) && TasksSound(env, s) && Possible(s, a)
    ensures TasksSound(env, Step(env, s, a))
  {
    var t := Step(env, s, a);
    StepRowsSound(env, s, a);
    hide TaskSound, RowsSound, RowSound, Extends, Step, Possible;
    forall k | k in t.tasks ensures TaskSound(env, t, t.tasks[k]) {
      StepTask(env, s, a, k);
    }
    forall k, l | k in t.tasks && l in t.tasks && t.tasks[k].Completed? && t.tasks[l].Completed?
      && t.tasks[k].c == t.tasks[l].c
      ensures k == l
    {
      StepCompletedOnce(env, s, a, k, l);
    }
  }

  lemma StepClosedByTask(env: Env, s: State, a: Action)
    requires RowsSound(env, s) && TasksSound(env, s) && ClosedByTask(s) && Possible(s, a)
    ensures ClosedByTask(Step(env, s, a))
  {
    hide RowSound;
    var t := Step(env, s, a);
    forall c | c in t.rows && t.rows[c].status == Replayed
      ensures exists k | k in t.tasks :: t.tasks[k].Completed? && t.tasks[k].c == c
    {
      if c in s.rows && s.rows[c].status == Replayed {
        var k :| k in s.tasks && s.tasks[k].Completed? && s.tasks[k].c == c;
        assert t.tasks[k] == s.tasks[k];
      } else {
        assert t.tasks[a.task].Completed? && t.tasks[a.task].c == c;
      }
    }
  }

  lemma StepSound(env: Env, s: State, a: Action)
    requires Sound(env, s) && Possible(s, a)
    ensures Sound(env, Step(env, s, a)) && Extends(s, Step(env, s, a))
  {
    hide RowsSound, TasksSound, ClosedByTask, Extends, Step, Possible;
    StepRowsSound(env, s, a);
    StepTasksSound(env, s, a);
    StepClosedByTask(env, s, a);
  }

  lemma {:induction false} RunSound(env: Env, s: State, actions: seq<Action>, t: State)
    requires Sound(env, s) && RunFrom(env, s, actions) == Some(t)
    ensures Sound(env, t) && Extends(s, t)
  {
    if actions != [] {
      hide Sound, Step, Possible;
      var before := RunFrom(env, s, actions[..|actions| - 1]).value;
      RunSound(env, s, actions[..|actions| - 1], before);
      StepSound(env, before, actions[|actions| - 1]);
    }
  }

  // ----- Main results -----

  /** From any point of a run on, every receipt keeps its identity, hash and payload, its status only goes
      from open to replayed, and a replayed receipt never changes again. */
  lemma ReceiptsAreImmutable(env: Env, actions: seq<Action>, s: State, later: seq<Action>, t: State, c: Coordinates)
    requires RunFrom(env, EMPTY, actions) == Some(s) && RunFrom(env, s, later) == Some(t) && c in s.rows
    ensures c in t.rows && t.rows[c].hash == env.hash(t.rows[c].payload) && t.rows[c].status != Discarded
    ensures var r, q := s.rows[c], t.rows[c];
      && (r.id, r.tenant, r.hash, r.payload) == (q.id, q.tenant, q.hash, q.payload)
      && 0 < r.attempts <= q.attempts && (r.status != Open ==> r == q)
  {
    RunSound(env, EMPTY, actions, s);
    RunSound(env, s, later, t);
  }

  /** A receipt is replayed exactly when one replay call finished on it; that call had its payload
      processed successfully, and no second call ever finishes on the same receipt. */
  lemma ReplayedExactlyOnce(env: Env, actions: seq<Action>, s: State, c: Coordinates)
    requires RunFrom(env, EMPTY, actions) == Some(s) && c in s.rows
    ensures s.rows[c].status == Replayed <==>
      exists k :: k in s.tasks && s.tasks[k] == Completed(c, PayloadOf(env, s.rows[c]))
    ensures forall k, l | k in s.tasks && l in s.tasks && s.tasks[k].Completed? && s.tasks[l].Completed?
      && s.tasks[k].c == c == s.tasks[l].c :: k == l
  {
    RunSound(env, EMPTY, actions, s);
    if s.rows[c].status == Replayed {
      var k :| k in s.tasks && s.tasks[k].Completed? && s.tasks[k].c == c;
      assert s.tasks[k] == Completed(c, PayloadOf(env, s.rows[c]));
    }
  }

  /** The processor was called successfully with this payload by some task of the run. */
  ghost predicate Processed(actions: seq<Action>, env: Env, k: nat, payload: string) {
    exists n | 0 <= n < |actions| ::
      && actions[n] == Succeed(k)
      && var s := RunFrom(env, EMPTY, actions[..n]);
      s.Some? && k in s.value.tasks && s.value.tasks[k].Running? && s.value.tasks[k].payload == payload
  }

  lemma {:induction false} FinishedMeansProcessed(env: Env, actions: seq<Action>, s: State, k: nat)
    requires RunFrom(env, EMPTY, actions) == Some(s) && k in s.tasks && (s.tasks[k].Succeeded? || s.tasks[k].Completed?)
    ensures Processed(actions, env, k, s.tasks[k].payload)
  {
    var m := |actions| - 1;
    var before := RunFrom(env, EMPTY, actions[..m]).value;
    if actions[m] == Succeed(k) {
      assert before.tasks[k].payload == s.tasks[k].payload;
    } else {
      FinishedMeansProcessed(env, actions[..m], before, k);
      var payload := s.tasks[k].payload;
      var n :| 0 <= n < m && actions[..m][n] == Succeed(k) &&
        var r := RunFrom(env, EMPTY, actions[..m][..n]);
        r.Some? && k in r.value.tasks && r.value.tasks[k].Running? && r.value.tasks[k].payload == payload;
      assert actions[..m][..n] == actions[..n] && actions[n] == Succeed(k);
    }
  }

  // ----- How often the processor succeeds -----

  /** Action `a` is a successful processor call on the receipt of `c`. */
  predicate SucceedsOn(s: State, a: Action, c: Coordinates)
    requires Possible(s, a)
  {
    a.Succeed? && s.tasks[a.task].c == c
  }

  /** The number of successful processor calls on the receipt of `c` in a run. */
  ghost function Successes(env: Env, actions: seq<Action>, c: Coordinates): nat {
    if actions == [] then 0
    else
      var m := |actions| - 1;
      var before := RunFrom(env, EMPTY, actions[..m]);
      Successes(env, actions[..m], c) +
      if before.Some? && Possible(before.value, actions[m]) && SucceedsOn(before.value, actions[m], c) then 1 else 0
  }

  /** The tasks whose processor call on the receipt of `c` succeeded. */
  ghost function SucceededTasks(env: Env, actions: seq<Action>, c: Coordinates): set<nat> {
    if actions == [] then {}
    else
      var m := |actions| - 1;
      var before := RunFrom(env, EMPTY, actions[..m]);
      SucceededTasks(env, actions[..m], c) +
      if before.Some? && Possible(before.value, actions[m]) && SucceedsOn(before.value, actions[m], c)
      then {actions[m].task} else {}
  }

  predicate FinishedOn(s: State, k: nat, c: Coordinates) {
    k in s.tasks && s.tasks[k].Completed? && s.tasks[k].c == c
  }

  predicate HasSucceeded(s: State, k: nat) {
    k in s.tasks && (s.tasks[k].Succeeded? || s.tasks[k].Completed?)
  }

  lemma StepTasks(env: Env, s: State, a: Action)
    requires Possible(s, a)
    ensures var t := Step(env, s, a);
      && (forall k | k in s.tasks :: k in t.tasks && (t.tasks[k].Running? ==> s.tasks[k].Running?))
      && (forall k | HasSucceeded(t, k) :: k in s.tasks && !s.tasks[k].Ended? && t.tasks[k].c == s.tasks[k].c
            && (HasSucceeded(s, k) || a == Succeed(k)))
      && (a.Succeed? ==> s.tasks[a.task].Running? && !t.tasks[a.task].Running?)
  {
    hide Recorded, IsFound;
  }

  /** Each task succeeds at most once, and only tasks that succeeded go on to finish. */
  lemma {:induction false} SuccessesAreTasks(env: Env, actions: seq<Action>, s: State, c: Coordinates)
    requires RunFrom(env, EMPTY, actions) == Some(s)
    ensures |SucceededTasks(env, actions, c)| == Successes(env, actions, c)
    ensures forall k | k in SucceededTasks(env, actions, c) :: k in s.tasks && !s.tasks[k].Running?
    ensures forall k | HasSucceeded(s, k) && s.tasks[k].c == c :: k in SucceededTasks(env, actions, c)
  {
    if actions != [] {
      var m := |actions| - 1;
      var before := RunFrom(env, EMPTY, actions[..m]).value;
      SuccessesAreTasks(env, actions[..m], before, c);
      StepTasks(env, before, actions[m]);
      hide Recorded, IsFound, Step;
    }
  }

  /** Tasks that had the receipt of `c` processed and have not finished on it: overtaken, crashed or pending. */
  ghost function Unfinished(env: Env, actions: seq<Action>, s: State, c: Coordinates): set<nat> {
    set k | k in SucceededTasks(env, actions, c) && !FinishedOn(s, k, c)
  }

  /** Over any run, the successful processor calls on a receipt are the one that closed it, if it is closed, and
      one for every task that succeeded and has not finished. */
  lemma SuccessesExact(env: Env, actions: seq<Action>, s: State, c: Coordinates)
    requires RunFrom(env, EMPTY, actions) == Some(s)
    ensures Successes(env, actions, c) ==
      (if c in s.rows && s.rows[c].status == Replayed then 1 else 0) + |Unfinished(env, actions, s, c)|
  {
    RunSound(env, EMPTY, actions, s);
    SuccessesAreTasks(env, actions, s, c);
    var all, unfinished := SucceededTasks(env, actions, c), Unfinished(env, actions, s, c);
    if c in s.rows && s.rows[c].status == Replayed {
      var k :| k in s.tasks && s.tasks[k].Completed? && s.tasks[k].c == c;
      assert FinishedOn(s, k, c);
      assert all == unfinished + {k};
    } else {
      assert forall k | FinishedOn(s, k, c) :: TaskSound(env, s, s.tasks[k]);
      assert all == unfinished;
    }
  }

  /** A replayed receipt was processed once exactly when every task that succeeded on it has finished. */
  lemma ProcessedOnceExactly(env: Env, actions: seq<Action>, s: State, c: Coordinates)
    requires RunFrom(env, EMPTY, actions) == Some(s) && c in s.rows && s.rows[c].status == Replayed
    ensures Successes(env, actions, c) == 1 <==>
      forall k | k in SucceededTasks(env, actions, c) :: FinishedOn(s, k, c)
  {
    SuccessesExact(env, actions, s, c);
    var unfinished := Unfinished(env, actions, s, c);
    if |unfinished| == 0 {
      assert unfinished == {};
    }
    if forall k | k in SucceededTasks(env, actions, c) :: FinishedOn(s, k, c) {
      assert unfinished == {};
    }
    forall k | k in SucceededTasks(env, actions, c) ensures FinishedOn(s, k, c) || k in unfinished {
    }
  }

  /** Some task may have its processor call on the receipt of `c` succeed next. */
  ghost predicate MaySucceed(s: State, c: Coordinates) {
    exists k | k in s.tasks :: s.tasks[k].Running? && s.tasks[k].c == c
  }

  lemma StepKeepsQuiet(env: Env, s: State, a: Action, c: Coordinates)
    requires Sound(env, s) && Possible(s, a) && c in s.rows && s.rows[c].status == Replayed && !MaySucceed(s, c)
    ensures !MaySucceed(Step(env, s, a), c)
  {
    hide Recorded, RowsSound, TasksSound, ClosedByTask;
    var t := Step(env, s, a);
    forall k | k in t.tasks && t.tasks[k].Running? ensures t.tasks[k].c != c {
      assert k in s.tasks && s.tasks[k].Running? ==> s.tasks[k].c != c;
    }
  }

  lemma {:induction false} RunKeepsQuiet(env: Env, s: State, later: seq<Action>, t: State, c: Coordinates)
    requires Sound(env, s) && RunFrom(env, s, later) == Some(t)
    requires c in s.rows && s.rows[c].status == Replayed && !MaySucceed(s, c)
    ensures !MaySucceed(t, c)
  {
    if later != [] {
      hide Sound, Step, Possible, MaySucceed;
      var before := RunFrom(env, s, later[..|later| - 1]).value;
      RunKeepsQuiet(env, s, later[..|later| - 1], before, c);
      RunSound(env, s, later[..|later| - 1], before);
      StepKeepsQuiet(env, before, later[|later| - 1], c);
    }
  }

  /** Once a receipt is replayed, the processor can never succeed on it again if and only if no replay is under
      way on it. */
  lemma NeverProcessedAgainExactly(env: Env, actions: seq<Action>, s: State, c: Coordinates)
    requires RunFrom(env, EMPTY, actions) == Some(s) && c in s.rows && s.rows[c].status == Replayed
    ensures (forall later, t | RunFrom(env, s, later) == Some(t) :: !MaySucceed(t, c)) <==> !MaySucceed(s, c)
  {
    RunSound(env, EMPTY, actions, s);
    RunNone(env, s);
    hide MaySucceed, Sound;
    if !MaySucceed(s, c) {
      forall later, t | RunFrom(env, s, later) == Some(t) ensures !MaySucceed(t, c) {
        RunKeepsQuiet(env, s, later, t, c);
      }
    } else {
      assert RunFrom(env, s, []) == Some(s) && MaySucceed(s, c);
    }
  }

  /** A replay that dies before it has finished changes no receipt, and however the run goes on it neither succeeds
      nor finishes any more. */
  lemma {:induction false} CrashedNeverFinishes(env: Env, s: State, task: nat, later: seq<Action>, t: State)
    requires Possible(s, Crash(task)) && !s.tasks[task].Completed?
    requires RunFrom(env, Step(env, s, Crash(task)), later) == Some(t)
    ensures Step(env, s, Crash(task)).rows == s.rows && task in t.tasks && t.tasks[task] == Ended
  {
    if later != [] {
      hide Recorded;
      CrashedNeverFinishes(env, s, task, later[..|later| - 1],
        RunFrom(env, Step(env, s, Crash(task)), later[..|later| - 1]).value);
    }
  }

  /** A replay that reads an open receipt reaches its processor if and only if what the column gives back for the
      payload has the digest of the payload. */
  lemma HashMismatchExactly(env: Env, actions: seq<Action>, s: State, a: Action)
    requires RunFrom(env, EMPTY, actions) == Some(s) && Possible(s, a) && a.Begin?
    requires a.found.Some? && s.rows[a.found.value].status == Open
    ensures var payload := s.rows[a.found.value].payload;
      Step(env, s, a).tasks[a.task].Running? <==> env.hash(env.readBack(payload)) == env.hash(payload)
  {
    RunSound(env, EMPTY, actions, s);
    assert RowSound(env, s.rows[a.found.value]);
  }

  lemma {:induction false} UnfitHasNoSuccess(env: Env, actions: seq<Action>, s: State, c: Coordinates)
    requires RunFrom(env, EMPTY, actions) == Some(s) && (c in s.rows ==> !HashFits(env, s.rows[c]))
    ensures SucceededTasks(env, actions, c) == {}
  {
    if actions != [] {
      var m := |actions| - 1;
      var before, a := RunFrom(env, EMPTY, actions[..m]).value, actions[m];
      RunSound(env, EMPTY, actions[..m], before);
      StepSound(env, before, a);
      hide Step, RowsSound, ClosedByTask;
      assert c in before.rows ==> Evolves(before.rows[c], s.rows[c]);
      UnfitHasNoSuccess(env, actions[..m], before, c);
    }
  }

  /** A receipt whose payload comes back with another digest is never replayed, nor processed by a replay. */
  lemma UnfitIsNeverReplayed(env: Env, actions: seq<Action>, s: State, c: Coordinates)
    requires RunFrom(env, EMPTY, actions) == Some(s) && c in s.rows
    requires env.hash(env.readBack(s.rows[c].payload)) != env.hash(s.rows[c].payload)
    ensures s.rows[c].status == Open && Successes(env, actions, c) == 0
  {
    RunSound(env, EMPTY, actions, s);
    assert RowSound(env, s.rows[c]);
    UnfitHasNoSuccess(env, actions, s, c);
    SuccessesAreTasks(env, actions, s, c);
    SuccessesExact(env, actions, s, c);
  }

  // ----- The attempt counter -----

  /** Action `a` reports a failure of delivery `c` that is new or still open. */
  predicate Reports(env: Env, s: State, a: Action, c: Coordinates)
    requires Possible(s, a)
  {
    match a
    case Fail(d, payload, _, _) =>
      d == c && (c in s.rows ==> s.rows[c].hash == env.hash(payload) && s.rows[c].status == Open)
    case Raise(task, _) => s.tasks[task].c == c && (c in s.rows ==> s.rows[c].status == Open)
    case _ => false
  }

  ghost function Reported(env: Env, actions: seq<Action>, c: Coordinates): nat {
    if actions == [] then 0
    else
      var m := |actions| - 1;
      var before := RunFrom(env, EMPTY, actions[..m]);
      Reported(env, actions[..m], c) +
      if before.Some? && Possible(before.value, actions[m]) && Reports(env, before.value, actions[m], c) then 1 else 0
  }

  /** In every run a receipt's attempt count is the number of failures reported while it was absent or open. */
  lemma {:induction false} AttemptsExact(env: Env, actions: seq<Action>, s: State, c: Coordinates)
    requires RunFrom(env, EMPTY, actions) == Some(s)
    ensures Reported(env, actions, c) == if c in s.rows then s.rows[c].attempts else 0
  {
    if actions != [] {
      var m := |actions| - 1;
      var before := RunFrom(env, EMPTY, actions[..m]).value;
      AttemptsExact(env, actions[..m], before, c);
      RunSound(env, EMPTY, actions[..m], before);
      StepAttempts(env, before, actions[m], c);
      hide Sound, Step, Possible, Reports;
    }
  }

  lemma StepAttempts(env: Env, s: State, a: Action, c: Coordinates)
    requires Sound(env, s) && Possible(s, a)
    ensures var t := Step(env, s, a);
      (if c in t.rows then t.rows[c].attempts else 0) ==
      (if c in s.rows then s.rows[c].attempts else 0) + if Reports(env, s, a, c) then 1 else 0
  {
  }

  // ----- Concurrent replays -----

  lemma BothBegin(env: Env, c: Coordinates, payload: string, tenant: string)
    requires env.tenantOf(payload) == Some(tenant) && env.readBack(payload) == payload
    ensures RunFrom(env, EMPTY,
      [Fail(c, payload, "e", "id"), Begin(0, tenant, "id", "a", Some(c)), Begin(1, tenant, "id", "b", Some(c))]) ==
      Some(State(map[c := Row("id", Some(tenant), env.hash(payload), payload, "e", Open, 1, None)],
                 map[0 := Running(c, tenant, "id", "a", payload), 1 := Running(c, tenant, "id", "b", payload)]))
  {
    hide RunFrom;
    RunNone(env, EMPTY);
    var rows := map[c := Row("id", Some(tenant), env.hash(payload), payload, "e", Open, 1, None)];
    var a0, a1, a2 := Fail(c, payload, "e", "id"), Begin(0, tenant, "id", "a", Some(c)),
      Begin(1, tenant, "id", "b", Some(c));
    RunOneMore(env, EMPTY, [], EMPTY, a0);
    RunOneMore(env, EMPTY, [] + [a0], State(rows, map[]), a1);
    RunOneMore(env, EMPTY, [] + [a0] + [a1], State(rows, map[0 := Running(c, tenant, "id", "a", payload)]), a2);
    assert [] + [a0] + [a1] + [a2] == [a0, a1, a2];
  }

  /** Two overlapping replays of one receipt both call the processor; only the first to finish succeeds. */
  lemma OverlappingReplaysProcessTwice(env: Env, c: Coordinates, payload: string, tenant: string)
    requires env.tenantOf(payload) == Some(tenant) && env.readBack(payload) == payload
    ensures var actions := [Fail(c, payload, "e", "id"), Begin(0, tenant, "id", "a", Some(c)),
      Begin(1, tenant, "id", "b", Some(c))]
        + [Succeed(0)] + [Succeed(1)] + [Finish(0, Some(c))] + [Finish(1, Some(c))];
      var s := RunFrom(env, EMPTY, actions);
      s.Some? && s.value.tasks == map[0 := Completed(c, payload), 1 := Ended]
  {
    hide RunFrom, Recorded;
    BothBegin(env, c, payload, tenant);
    var actions := [Fail(c, payload, "e", "id"), Begin(0, tenant, "id", "a", Some(c)),
      Begin(1, tenant, "id", "b", Some(c))];
    var k0, k1 := Succeeded(c, tenant, "id", "a", payload), Succeeded(c, tenant, "id", "b", payload);
    var row := Row("id", Some(tenant), env.hash(payload), payload, "e", Open, 1, None);
    var s3 := State(map[c := row],
      map[0 := Running(c, tenant, "id", "a", payload), 1 := Running(c, tenant, "id", "b", payload)]);
    RunOneMore(env, EMPTY, actions, s3, Succeed(0));
    var s4 := Step(env, s3, Succeed(0));
    RunOneMore(env, EMPTY, actions + [Succeed(0)], s4, Succeed(1));
    var s5 := State(map[c := row], map[0 := k0, 1 := k1]);
    assert s5 == Step(env, s4, Succeed(1));
    RunOneMore(env, EMPTY, actions + [Succeed(0)] + [Succeed(1)], s5, Finish(0, Some(c)));
    var s6 := State(map[c := Closed(row, "a")], map[0 := Completed(c, payload), 1 := k1]);
    assert s6 == Step(env, s5, Finish(0, Some(c)));
    RunOneMore(env, EMPTY, actions + [Succeed(0)] + [Succeed(1)] + [Finish(0, Some(c))], s6, Finish(1, Some(c)));
  }
}
