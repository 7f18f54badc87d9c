/** Delivery receipts of `telemetry_replication.py`: each call of `replicate_event` reserves, sends and marks
    one target after the other; calls may crash anywhere and be repeated. */
module Replication {
  import opened Wrappers

  datatype Event = Event(tenant: string, id: string, payload: string)
  datatype Target = Target(id: string, region: string, enabled: bool)
  type Key = (string, string, string)

  datatype Status = Pending | Delivered | Failed
  datatype Receipt = Receipt(key: Key, hash: string, status: Status, attempts: nat, deliveredAt: Option<int>,
                             error: Option<string>)

  /** The event digest and the region this service runs in. */
  datatype Env = Env(hash: Event -> string, region: string)

  datatype Failure = HashConflict

  const ERROR_LENGTH: nat := 120

  function KeyOf(e: Event, t: Target): Key {
    (e.tenant, t.id, e.id)
  }

  /** The targets that a call serves, in order. */
  function Outgoing(env: Env, targets: seq<Target>): seq<Target> {
    if targets == [] then []
    else
      var before, t := Outgoing(env, targets[..|targets| - 1]), targets[|targets| - 1];
      if t.enabled && t.region != env.region then before + [t] else before
  }

  // ----- Repository -----

  /** `reserve_receipt`: the receipt, and whether the event is to be sent. */
  function Reserved(env: Env, receipts: map<Key, Receipt>, e: Event, t: Target): Result<(Receipt, bool), Failure> {
    var k := KeyOf(e, t);
    if k !in receipts then Ok((Receipt(k, env.hash(e), Pending, 1, None, None), true))
    else if receipts[k].hash != env.hash(e) then Err(HashConflict)
    else if receipts[k].status == Delivered then Ok((receipts[k], false))
    else Ok((receipts[k].(attempts := receipts[k].attempts + 1, status := Pending, error := None), true))
  }

  function Shortened(error: string): string {
    if |error| > ERROR_LENGTH then error[..ERROR_LENGTH] else error
  }

  /** `mark_delivered` and `mark_failed`: neither looks at the status it overwrites, and a failure leaves
      the time of an earlier delivery. */
  function Marked(r: Receipt, failure: Option<string>, now: int): Receipt {
    if failure.None? then r.(status := Delivered, deliveredAt := Some(now), error := None)
    else r.(status := Failed, error := Some(Shortened(failure.value)))
  }

  // ----- Calls as state machines -----

  datatype Phase = Reserving | Sending | Marking(failure: Option<string>)

  datatype Call = Call(event: Event, targets: seq<Target>, next: nat, phase: Phase, results: seq<Receipt>, alive: bool)

  /** `sent` logs the transport calls. */
  datatype State = State(receipts: map<Key, Receipt>, sent: seq<Key>, calls: map<nat, Call>)

  datatype Action =
    | Start(c: nat, event: Event, targets: seq<Target>)
    | Reserve(c: nat)
    | Send(c: nat, failure: Option<string>)
    | Mark(c: nat, now: int)
    | Crash(c: nat)

  const EMPTY := State(map[], [], map[])

  predicate Active(k: Call) {
    k.alive && k.next < |k.targets|
  }

  predicate Distinct(targets: seq<Target>) {
    forall i, j | 0 <= i < j < |targets| :: targets[i].id != targets[j].id
  }

  /** With `sequential`, a call starts only when no other is under way. */
  predicate Possible(sequential: bool, s: State, a: Action) {
    match a
    case Start(c, _, targets) => c !in s.calls && Distinct(targets)
      && (sequential ==> forall d | d in s.calls :: !Active(s.calls[d]))
    case Reserve(c) => c in s.calls && Active(s.calls[c]) && s.calls[c].phase == Reserving
    case Send(c, _) => c in s.calls && Active(s.calls[c]) && s.calls[c].phase == Sending
    case Mark(c, _) =>
      c in s.calls && Active(s.calls[c]) && s.calls[c].phase.Marking?
        && KeyOf(s.calls[c].event, s.calls[c].targets[s.calls[c].next]) in s.receipts
    case Crash(c) => c in s.calls
  }

  function Put(s: State, c: nat, k: Call): State {
    s.(calls := s.calls[c := k])
  }

  function Answered(k: Call, r: Receipt): Call {
    k.(next := k.next + 1, phase := Reserving, results := k.results + [r])
  }

  function Step(env: Env, sequential: bool, s: State, a: Action): State
    requires Possible(sequential, s, a)
  {
    match a
    case Start(c, event, targets) => Put(s, c, Call(event, Outgoing(env, targets), 0, Reserving, [], true))
    case Crash(c) => Put(s, c, s.calls[c].(alive := false))
    case Reserve(c) =>
      var k := s.calls[c];
      var key, answer := KeyOf(k.event, k.targets[k.next]), Reserved(env, s.receipts, k.event, k.targets[k.next]);
      if answer.Err? then Put(s, c, k.(alive := false))
      else if answer.value.1 then Put(s.(receipts := s.receipts[key := answer.value.0]), c, k.(phase := Sending))
      else Put(s, c, Answered(k, answer.value.0))
    case Send(c, failure) =>
      var k := s.calls[c];
      Put(s.(sent := s.sent + [KeyOf(k.event, k.targets[k.next])]), c, k.(phase := Marking(failure)))
    case Mark(c, now) =>
      var k := s.calls[c];
      var key := KeyOf(k.event, k.targets[k.next]);
      var row := Marked(s.receipts[key], k.phase.failure, now);
      Put(s.(receipts := s.receipts[key := row]), c, Answered(k, row))
  }

  ghost function RunFrom(env: Env, sequential: bool, s: State, actions: seq<Action>): Option<State> {
    if actions == [] then Some(s)
    else
      var before := RunFrom(env, sequential, s, actions[..|actions| - 1]);
      if before.Some? && Possible(sequential, before.value, actions[|actions| - 1])
      then Some(Step(env, sequential, before.value, actions[|actions| - 1]))
      else None
  }

  lemma RunOneMore(env: Env, sequential: bool, s: State, actions: seq<Action>, t: State, a: Action)
    requires RunFrom(env, sequential, s, actions) == Some(t) && Possible(sequential, t, a)
    ensures RunFrom(env, sequential, s, actions + [a]) == Some(Step(env, sequential, t, a))
  {
    assert (actions + [a])[..|actions|] == actions;
  }

  lemma RunNone(env: Env, sequential: bool, s: State)
    ensures RunFrom(env, sequential, s, []) == Some(s)
  {
  }

  // ----- Every interleaving -----

  /** The call holds a reservation for `key` it has not used yet. */
  predicate Holds(k: Call, key: Key) {
    k.phase == Sending && k.next < |k.targets| && KeyOf(k.event, k.targets[k.next]) == key
  }

  function Unsent(s: State, key: Key): set<nat> {
    set c | c in s.calls && Holds(s.calls[c], key)
  }

  function Attempts(s: State, key: Key): nat {
    if key in s.receipts then s.receipts[key].attempts else 0
  }

  /** The attempt count is the number of transport calls plus the reservations not used, yet or ever. */
  ghost predicate Accounted(s: State, key: Key) {
    Attempts(s, key) == multiset(s.sent)[key] + |Unsent(s, key)|
  }

  ghost predicate CallSound(env: Env, s: State, k: Call) {
    && k.next <= |k.targets| && |k.results| == k.next && Distinct(k.targets)
    && (k.next < |k.targets| && k.phase != Reserving ==>
          KeyOf(k.event, k.targets[k.next]) in s.receipts
            && s.receipts[KeyOf(k.event, k.targets[k.next])].hash == env.hash(k.event))
    && (k.next == |k.targets| ==> k.phase == Reserving)
    && (forall i | 0 <= i < k.next :: k.results[i].key == KeyOf(k.event, k.targets[i])
          && k.results[i].hash == env.hash(k.event) && k.results[i].status != Pending)
    && (forall i | 0 <= i < k.next :: KeyOf(k.event, k.targets[i]) in s.receipts)
  }

  ghost predicate Keyed(s: State) {
    forall key | key in s.receipts :: s.receipts[key].key == key
  }

  ghost predicate Sound(env: Env, s: State) {
    && Keyed(s)
    && (forall key :: Accounted(s, key))
    && (forall c | c in s.calls :: CallSound(env, s, s.calls[c]))
  }

  /** Receipts are never removed, their hash never changes, attempts and transport calls only grow. */
  ghost predicate Extends(s: State, t: State) {
    && s.sent <= t.sent
    && (forall key | key in s.receipts ::
          key in t.receipts && t.receipts[key].hash == s.receipts[key].hash
            && s.receipts[key].attempts <= t.receipts[key].attempts)
  }

  lemma StepExtends(env: Env, sequential: bool, s: State, a: Action)
    requires Possible(sequential, s, a)
    ensures Extends(s, Step(env, sequential, s, a))
  {
  }

  lemma {:induction false} OutgoingDistinct(env: Env, targets: seq<Target>)
    requires Distinct(targets)
    ensures Distinct(Outgoing(env, targets))
    ensures forall t | t in Outgoing(env, targets) :: t in targets && t.enabled && t.region != env.region
    ensures forall t | t in targets && t.enabled && t.region != env.region :: t in Outgoing(env, targets)
  {
    if targets != [] {
      var before, t := targets[..|targets| - 1], targets[|targets| - 1];
      OutgoingDistinct(env, before);
      assert targets == before + [t];
      assert forall u | u in before :: u.id != t.id;
    }
  }

  lemma CallKept(env: Env, s: State, t: State, k: Call)
    requires CallSound(env, s, k) && Extends(s, t)
    ensures CallSound(env, t, k)
  {
  }

  lemma ActingCall(env: Env, sequential: bool, s: State, a: Action)
    requires Possible(sequential, s, a) && Keyed(s) && (a.c in s.calls ==> CallSound(env, s, s.calls[a.c]))
    ensures CallSound(env, Step(env, sequential, s, a), Step(env, sequential, s, a).calls[a.c])
  {
    StepExtends(env, sequential, s, a);
    if a.Start? {
      OutgoingDistinct(env, a.targets);
    }
    hide Extends;
  }

  lemma StepCall(env: Env, sequential: bool, s: State, a: Action, c: nat)
    requires Sound(env, s) && Possible(sequential, s, a) && c in Step(env, sequential, s, a).calls
    ensures CallSound(env, Step(env, sequential, s, a), Step(env, sequential, s, a).calls[c])
  {
    hide CallSound, Extends, Accounted;
    StepExtends(env, sequential, s, a);
    if c == a.c {
      ActingCall(env, sequential, s, a);
    } else {
      CallKept(env, s, Step(env, sequential, s, a), s.calls[c]);
    }
  }

  /** Only the acting call can gain or use a reservation. */
  lemma UnsentAfter(env: Env, sequential: bool, s: State, a: Action, key: Key)
    requires Possible(sequential, s, a)
    ensures var t := Step(env, sequential, s, a);
      Unsent(t, key) == if Holds(t.calls[a.c], key) then Unsent(s, key) + {a.c} else Unsent(s, key) - {a.c}
  {
    hide Holds, Reserved, Outgoing;
  }

  lemma SentAfter(env: Env, sequential: bool, s: State, a: Action, key: Key)
    requires Possible(sequential, s, a)
    ensures multiset(Step(env, sequential, s, a).sent)[key] ==
      multiset(s.sent)[key] + if a.Send? && Holds(s.calls[a.c], key) then 1 else 0
  {
    hide Outgoing, Reserved;
    var t := Step(env, sequential, s, a);
    if a.Send? {
      assert multiset(t.sent) == multiset(s.sent) + multiset{t.sent[|s.sent|]};
    }
  }

  lemma AttemptsAfter(env: Env, sequential: bool, s: State, a: Action, key: Key)
    requires Possible(sequential, s, a)
    ensures var t := Step(env, sequential, s, a);
      Attempts(t, key) == Attempts(s, key) + if a.Reserve? && Holds(t.calls[a.c], key) then 1 else 0
  {
    hide Outgoing;
  }

  /** A call gains its reservation by reserving, keeps it over a crash, and gives it up by sending. */
  lemma HoldsAfter(env: Env, sequential: bool, s: State, a: Action, key: Key)
    requires Possible(sequential, s, a)
    ensures a.c in Step(env, sequential, s, a).calls
    ensures Holds(Step(env, sequential, s, a).calls[a.c], key) ==> a.Reserve? || (a.Crash? && Holds(s.calls[a.c], key))
    ensures a.c in s.calls && Holds(s.calls[a.c], key) ==> a.Send? || a.Crash?
    ensures a.Crash? && Holds(s.calls[a.c], key) ==> Holds(Step(env, sequential, s, a).calls[a.c], key)
    ensures a.Crash? ==> a.c in s.calls
    ensures a.Send? ==> a.c in s.calls && !Holds(Step(env, sequential, s, a).calls[a.c], key)
  {
    hide Outgoing, Reserved;
  }

  lemma StepAccounted(env: Env, sequential: bool, s: State, a: Action, key: Key)
    requires Possible(sequential, s, a) && Accounted(s, key)
    ensures Accounted(Step(env, sequential, s, a), key)
  {
    hide Step, Possible, Holds, Attempts;
    HoldsAfter(env, sequential, s, a, key);
    UnsentAfter(env, sequential, s, a, key);
    SentAfter(env, sequential, s, a, key);
    AttemptsAfter(env, sequential, s, a, key);
    assert a.c in Unsent(s, key) <==> a.c in s.calls && Holds(s.calls[a.c], key);
    hide Unsent;
    SizeAfter(Unsent(s, key), a.c);
  }

  lemma SizeAfter(s: set<nat>, c: nat)
    ensures |s + {c}| == if c in s then |s| else |s| + 1
    ensures |s - {c}| == if c in s then |s| - 1 else |s|
  {
    assert c in s ==> s + {c} == s;
    assert c !in s ==> s - {c} == s;
  }

  lemma StepKeyed(env: Env, sequential: bool, s: State, a: Action)
    requires Keyed(s) && Possible(sequential, s, a)
    ensures Keyed(Step(env, sequential, s, a))
  {
    hide Outgoing;
  }

  lemma StepSound(env: Env, sequential: bool, s: State, a: Action)
    requires Sound(env, s) && Possible(sequential, s, a)
    ensures Sound(env, Step(env, sequential, s, a)) && Extends(s, Step(env, sequential, s, a))
  {
    StepExtends(env, sequential, s, a);
    StepKeyed(env, sequential, s, a);
    var t := Step(env, sequential, s, a);
    forall key ensures Accounted(t, key) {
      StepAccounted(env, sequential, s, a, key);
    }
    forall c | c in t.calls ensures CallSound(env, t, t.calls[c]) {
      StepCall(env, sequential, s, a, c);
    }
    hide Step, Accounted, CallSound, Extends;
  }

  lemma {:induction false} RunSound(env: Env, sequential: bool, s: State, actions: seq<Action>, t: State)
    requires Sound(env, s) && RunFrom(env, sequential, s, actions) == Some(t)
    ensures Sound(env, t) && Extends(s, t)
  {
    if actions != [] {
      var before := RunFrom(env, sequential, s, actions[..|actions| - 1]).value;
      RunSound(env, sequential, s, actions[..|actions| - 1], before);
      StepSound(env, sequential, before, actions[|actions| - 1]);
      hide Sound, Step, Possible;
    }
  }

  lemma EmptySound(env: Env)
    ensures Sound(env, EMPTY)
  {
    assert forall key :: Unsent(EMPTY, key) == {};
  }

  /** Over any interleaving of calls and crashes: a receipt's attempt count is the number of times the event
      was sent to its target plus the reservations left unused; without a call between its reservation and
      its transport call, it is exactly the number of transport calls. */
  lemma AttemptsAccountForSends(env: Env, sequential: bool, actions: seq<Action>, s: State, key: Key)
    requires RunFrom(env, sequential, EMPTY, actions) == Some(s)
    ensures multiset(s.sent)[key] <= Attempts(s, key)
    ensures multiset(s.sent)[key] == Attempts(s, key) <==> forall c | c in s.calls :: !Holds(s.calls[c], key)
  {
    EmptySound(env);
    RunSound(env, sequential, EMPTY, actions, s);
    assert Accounted(s, key);
    if c :| c in s.calls && Holds(s.calls[c], key) {
      assert c in Unsent(s, key);
    } else {
      assert Unsent(s, key) == {};
    }
  }

  /** A call that completes has answered every enabled target outside the source region: the result at each
      position is a settled receipt of that position's target for this very event, whether or not other
      targets failed. */
  lemma CompletedCallAnswersAll(env: Env, sequential: bool, actions: seq<Action>, s: State, c: nat)
    requires RunFrom(env, sequential, EMPTY, actions) == Some(s) && c in s.calls
      && s.calls[c].next == |s.calls[c].targets|
    ensures var k := s.calls[c];
      && |k.results| == |k.targets|
      && forall i | 0 <= i < |k.targets| ::
           k.results[i].key == KeyOf(k.event, k.targets[i])
             && k.results[i].hash == env.hash(k.event) && k.results[i].status != Pending
             && KeyOf(k.event, k.targets[i]) in s.receipts
  {
    EmptySound(env);
    RunSound(env, sequential, EMPTY, actions, s);
    assert CallSound(env, s, s.calls[c]);
  }

  // ----- Sequential calls: delivered is final -----

  /** At most one call is under way, and it does not work on a delivered receipt. */
  ghost predicate Settled(s: State) {
    && (forall c, d | c in s.calls && d in s.calls && Active(s.calls[c]) && Active(s.calls[d]) :: c == d)
    && (forall c | c in s.calls && Active(s.calls[c]) && s.calls[c].phase != Reserving ::
          var key := KeyOf(s.calls[c].event, s.calls[c].targets[s.calls[c].next]);
          key in s.receipts ==> s.receipts[key].status != Delivered)
  }

  lemma StepSettled(env: Env, s: State, a: Action)
    requires Settled(s) && Possible(true, s, a)
    ensures Settled(Step(env, true, s, a))
  {
    hide Outgoing;
  }

  lemma StepKeepsDelivered(env: Env, s: State, a: Action, key: Key)
    requires Settled(s) && Possible(true, s, a) && key in s.receipts && s.receipts[key].status == Delivered
    ensures var t := Step(env, true, s, a);
      key in t.receipts && t.receipts[key] == s.receipts[key] && multiset(t.sent)[key] == multiset(s.sent)[key]
  {
    hide Outgoing;
  }

  lemma {:induction false} RunSettled(env: Env, s: State, actions: seq<Action>, t: State, key: Key)
    requires Settled(s) && RunFrom(env, true, s, actions) == Some(t)
    ensures Settled(t)
    ensures key in s.receipts && s.receipts[key].status == Delivered ==>
      key in t.receipts && t.receipts[key] == s.receipts[key] && multiset(t.sent)[key] == multiset(s.sent)[key]
  {
    if actions != [] {
      var before, a := RunFrom(env, true, s, actions[..|actions| - 1]).value, actions[|actions| - 1];
      RunSettled(env, s, actions[..|actions| - 1], before, key);
      StepSettled(env, before, a);
      if key in before.receipts && before.receipts[key].status == Delivered {
        StepKeepsDelivered(env, before, a, key);
      }
      hide Settled, Step, Possible;
    }
  }

  /** In sequential runs, with crashes and repeated calls, nothing is sent for a delivered receipt again and
      the receipt never changes. */
  lemma DeliveredIsFinal(env: Env, actions: seq<Action>, s: State, later: seq<Action>, t: State, key: Key)
    requires RunFrom(env, true, EMPTY, actions) == Some(s) && RunFrom(env, true, s, later) == Some(t)
    requires key in s.receipts && s.receipts[key].status == Delivered
    ensures key in t.receipts && t.receipts[key] == s.receipts[key] && multiset(t.sent)[key] == multiset(s.sent)[key]
  {
    RunSettled(env, EMPTY, actions, s, key);
    RunSettled(env, s, later, t, key);
  }

  // ----- Overlapping calls: when delivered is final -----

  predicate StandsAt(k: Call, key: Key) {
    Active(k) && KeyOf(k.event, k.targets[k.next]) == key
  }

  /** No call under way at `key` holds a reservation or a failure for it. */
  predicate Harmless(k: Call, key: Key) {
    StandsAt(k, key) ==> k.phase == Reserving || k.phase == Marking(None)
  }

  ghost predicate AllHarmless(s: State, key: Key) {
    forall c | c in s.calls :: Harmless(s.calls[c], key)
  }

  predicate IsDelivered(s: State, key: Key) {
    key in s.receipts && s.receipts[key].status == Delivered
  }

  /** The receipt and the number of transport calls for `key` are the same in both states. */
  predicate SameFor(s: State, t: State, key: Key) {
    key in s.receipts && key in t.receipts && t.receipts[key] == s.receipts[key]
    && multiset(t.sent)[key] == multiset(s.sent)[key]
  }

  /** The same up to the time of delivery. */
  predicate SameOutcome(s: State, t: State, key: Key) {
    key in s.receipts && key in t.receipts
    && t.receipts[key] == s.receipts[key].(deliveredAt := t.receipts[key].deliveredAt)
    && multiset(t.sent)[key] == multiset(s.sent)[key]
  }

  /** Every call under way at `key` is about to reserve. */
  predicate Idle(k: Call, key: Key) {
    StandsAt(k, key) ==> k.phase == Reserving
  }

  ghost predicate AllIdle(s: State, key: Key) {
    forall c | c in s.calls :: Idle(s.calls[c], key)
  }

  lemma StepIdle(env: Env, s: State, a: Action, key: Key)
    requires Possible(false, s, a) && IsDelivered(s, key) && a.c in Step(env, false, s, a).calls
    requires a.c in s.calls ==> Idle(s.calls[a.c], key)
    ensures SameFor(s, Step(env, false, s, a), key) && Idle(Step(env, false, s, a).calls[a.c], key)
    ensures forall c | c in Step(env, false, s, a).calls && c != a.c ::
      c in s.calls && Step(env, false, s, a).calls[c] == s.calls[c]
  {
    hide Outgoing, Distinct, Marked;
    SentAfter(env, false, s, a, key);
  }

  lemma {:induction false} RunIdle(env: Env, s: State, later: seq<Action>, t: State, key: Key)
    requires RunFrom(env, false, s, later) == Some(t) && IsDelivered(s, key) && AllIdle(s, key)
    ensures SameFor(s, t, key) && AllIdle(t, key)
  {
    if later != [] {
      var before, a := RunFrom(env, false, s, later[..|later| - 1]).value, later[|later| - 1];
      RunIdle(env, s, later[..|later| - 1], before, key);
      HoldsAfter(env, false, before, a, key);
      StepIdle(env, before, a, key);
      hide Step, Possible, Idle;
    }
  }

  /** A call past its reservation at a delivered receipt can change it in one step: it sends once more,
      marks it failed, or marks it delivered at another time. */
  lemma BusyCallChanges(env: Env, s: State, c: nat, key: Key) returns (later: seq<Action>, t: State)
    requires IsDelivered(s, key) && c in s.calls && !Idle(s.calls[c], key)
    ensures RunFrom(env, false, s, later) == Some(t) && !SameFor(s, t, key)
    ensures !Harmless(s.calls[c], key) ==> !SameOutcome(s, t, key)
  {
    hide Outgoing, Distinct;
    RunNone(env, false, s);
    var at := s.receipts[key].deliveredAt;
    var a := if s.calls[c].phase == Sending then Send(c, None)
             else Mark(c, if at.Some? then at.value + 1 else 0);
    RunOneMore(env, false, s, [], s, a);
    SentAfter(env, false, s, a, key);
    later, t := [] + [a], Step(env, false, s, a);
  }

  /** Over unrestricted runs, a delivered receipt and its number of transport calls are final if and only if
      every call under way at it is about to reserve. */
  lemma DeliveredIsFinalExactly(env: Env, s: State, key: Key)
    requires IsDelivered(s, key)
    ensures (forall later, t | RunFrom(env, false, s, later) == Some(t) :: SameFor(s, t, key)) <==> AllIdle(s, key)
  {
    hide SameFor, SameOutcome, RunFrom, Idle;
    if AllIdle(s, key) {
      forall later, t | RunFrom(env, false, s, later) == Some(t) ensures SameFor(s, t, key) {
        RunIdle(env, s, later, t, key);
      }
    } else {
      var c :| c in s.calls && !Idle(s.calls[c], key);
      var later, t := BusyCallChanges(env, s, c, key);
      assert RunFrom(env, false, s, later) == Some(t) && !SameFor(s, t, key);
    }
  }

  /** Delivered receipts carry no error. */
  ghost predicate CleanDeliveries(s: State) {
    forall key | IsDelivered(s, key) :: s.receipts[key].error == None
  }

  lemma StepClean(env: Env, s: State, a: Action)
    requires CleanDeliveries(s) && Possible(false, s, a)
    ensures CleanDeliveries(Step(env, false, s, a))
  {
    hide Outgoing;
    var t := Step(env, false, s, a);
    forall key | IsDelivered(t, key) ensures t.receipts[key].error == None {
      assert IsDelivered(s, key) ==> s.receipts[key].error == None;
    }
  }

  lemma {:induction false} RunClean(env: Env, actions: seq<Action>, s: State)
    requires RunFrom(env, false, EMPTY, actions) == Some(s)
    ensures CleanDeliveries(s)
  {
    if actions != [] {
      var before := RunFrom(env, false, EMPTY, actions[..|actions| - 1]).value;
      RunClean(env, actions[..|actions| - 1], before);
      StepClean(env, before, actions[|actions| - 1]);
      hide Step, Possible, CleanDeliveries;
    }
  }

  lemma StepHarmless(env: Env, s: State, a: Action, key: Key)
    requires Possible(false, s, a) && IsDelivered(s, key) && s.receipts[key].error == None
    requires a.c in Step(env, false, s, a).calls && (a.c in s.calls ==> Harmless(s.calls[a.c], key))
    ensures SameOutcome(s, Step(env, false, s, a), key) && Harmless(Step(env, false, s, a).calls[a.c], key)
    ensures forall c | c in Step(env, false, s, a).calls && c != a.c ::
      c in s.calls && Step(env, false, s, a).calls[c] == s.calls[c]
  {
    hide Outgoing, Distinct;
    SentAfter(env, false, s, a, key);
  }

  lemma {:induction false} RunHarmless(env: Env, s: State, later: seq<Action>, t: State, key: Key)
    requires RunFrom(env, false, s, later) == Some(t)
    requires IsDelivered(s, key) && s.receipts[key].error == None && AllHarmless(s, key)
    ensures SameOutcome(s, t, key) && AllHarmless(t, key)
  {
    if later != [] {
      var before, a := RunFrom(env, false, s, later[..|later| - 1]).value, later[|later| - 1];
      RunHarmless(env, s, later[..|later| - 1], before, key);
      HoldsAfter(env, false, before, a, key);
      StepHarmless(env, before, a, key);
      hide Step, Possible, Harmless;
    }
  }

  /** Over unrestricted runs, a delivered receipt stays delivered, without error or another attempt, if and
      only if every call under way at it is about to reserve, or about to mark it delivered once more. */
  lemma DeliveryStandsExactly(env: Env, actions: seq<Action>, s: State, key: Key)
    requires RunFrom(env, false, EMPTY, actions) == Some(s) && IsDelivered(s, key)
    ensures (forall later, t | RunFrom(env, false, s, later) == Some(t) :: SameOutcome(s, t, key))
      <==> AllHarmless(s, key)
  {
    RunClean(env, actions, s);
    hide SameFor, SameOutcome, RunFrom, Harmless;
    if AllHarmless(s, key) {
      forall later, t | RunFrom(env, false, s, later) == Some(t) ensures SameOutcome(s, t, key) {
        RunHarmless(env, s, later, t, key);
      }
    } else {
      var c :| c in s.calls && !Harmless(s.calls[c], key);
      HarmfulIsBusy(s.calls[c], key);
      var later, t := BusyCallChanges(env, s, c, key);
      assert RunFrom(env, false, s, later) == Some(t) && !SameOutcome(s, t, key);
    }
  }

  lemma HarmfulIsBusy(k: Call, key: Key)
    ensures Idle(k, key) ==> Harmless(k, key)
  {}

  function BothReserved(env: Env, e: Event, t: Target): State {
    State(map[KeyOf(e, t) := Receipt(KeyOf(e, t), env.hash(e), Pending, 2, None, None)], [],
          map[0 := Call(e, [t], 0, Sending, [], true), 1 := Call(e, [t], 0, Sending, [], true)])
  }

  lemma BothReserve(env: Env, e: Event, t: Target)
    requires t.enabled && t.region != env.region
    ensures RunFrom(env, false, EMPTY, [Start(0, e, [t]), Start(1, e, [t]), Reserve(0), Reserve(1)]) ==
      Some(BothReserved(env, e, t))
  {
    assert [t][..0] == [] && Outgoing(env, [t]) == [t];
    hide RunFrom, Outgoing;
    RunNone(env, false, EMPTY);
    var key := KeyOf(e, t);
    var first := Receipt(key, env.hash(e), Pending, 1, None, None);
    var reserving, sending := Call(e, [t], 0, Reserving, [], true), Call(e, [t], 0, Sending, [], true);
    var a, s := Extend(env, [], EMPTY, Start(0, e, [t]), State(map[], [], map[0 := reserving]));
    a, s := Extend(env, a, s, Start(1, e, [t]), State(map[], [], map[0 := reserving, 1 := reserving]));
    a, s := Extend(env, a, s, Reserve(0), State(map[key := first], [], map[0 := sending, 1 := reserving]));
    a, s := Extend(env, a, s, Reserve(1), BothReserved(env, e, t));
    assert a == [Start(0, e, [t]), Start(1, e, [t]), Reserve(0), Reserve(1)];
  }

  /** Overlapping calls break it: one marks a receipt delivered while the other still holds a reservation,
      sends again, fails, and marks the delivered receipt failed, which keeps its time of delivery. */
  lemma OverlappingCallsUndeliver(env: Env, e: Event, t: Target, now: int, later: int)
    requires t.enabled && t.region != env.region
    ensures var before :=
        [Start(0, e, [t]), Start(1, e, [t]), Reserve(0), Reserve(1)] + [Send(0, None)] + [Mark(0, now)];
      var s := RunFrom(env, false, EMPTY, before);
      var u := RunFrom(env, false, EMPTY, before + [Send(1, Some("TimeoutError"))] + [Mark(1, later)]);
      var key := KeyOf(e, t);
      && s.Some? && s.value.receipts == map[key := Receipt(key, env.hash(e), Delivered, 2, Some(now), None)]
      && u.Some? && u.value.receipts ==
        map[key := Receipt(key, env.hash(e), Failed, 2, Some(now), Some("TimeoutError"))]
      && u.value.sent == [key, key]
  {
    hide RunFrom, Outgoing, Reserved;
    BothReserve(env, e, t);
    var key := KeyOf(e, t);
    var sending := Call(e, [t], 0, Sending, [], true);
    var pending := Receipt(key, env.hash(e), Pending, 2, None, None);
    var delivered := Receipt(key, env.hash(e), Delivered, 2, Some(now), None);
    var failed := Receipt(key, env.hash(e), Failed, 2, Some(now), Some("TimeoutError"));
    var marking, failing := sending.(phase := Marking(None)), sending.(phase := Marking(Some("TimeoutError")));
    var answered := Answered(marking, delivered);
    var a, s := Extend(env, [Start(0, e, [t]), Start(1, e, [t]), Reserve(0), Reserve(1)], BothReserved(env, e, t),
                       Send(0, None), State(map[key := pending], [key], map[0 := marking, 1 := sending]));
    a, s := Extend(env, a, s, Mark(0, now), State(map[key := delivered], [key], map[0 := answered, 1 := sending]));
    a, s := Extend(env, a, s, Send(1, Some("TimeoutError")),
      State(map[key := delivered], [key, key], map[0 := answered, 1 := failing]));
    a, s := Extend(env, a, s, Mark(1, later),
      State(map[key := failed], [key, key], map[0 := answered, 1 := Answered(failing, failed)]));
  }

  lemma Extend(env: Env, actions: seq<Action>, s: State, a: Action, t: State) returns (longer: seq<Action>, next: State)
    requires RunFrom(env, false, EMPTY, actions) == Some(s) && Possible(false, s, a) && Step(env, false, s, a) == t
    ensures longer == actions + [a] && next == t && RunFrom(env, false, EMPTY, longer) == Some(next)
  {
    RunOneMore(env, false, EMPTY, actions, s, a);
    longer, next := actions + [a], t;
  }

  // ----- The service -----

  class TelemetryReplicationRepository {
    const env: Env
    var receipts: map<Key, Receipt>

    constructor (env: Env)
      ensures this.env == env && receipts == map[]
    {
      this.env, receipts := env, map[];
    }

    method ReserveReceipt(e: Event, t: Target) returns (result: Result<(Receipt, bool), Failure>)
      modifies this
      ensures result == Reserved(env, old(receipts), e, t)
      ensures receipts ==
        if result.Ok? && result.value.1 then old(receipts)[KeyOf(e, t) := result.value.0] else old(receipts)
    {
      var k := (e.tenant, t.id, e.id);
      if k in receipts {
        var row := receipts[k];
        if row.hash != env.hash(e) {
          return Err(HashConflict);
        }
        if row.status == Delivered {
          return Ok((row, false));
        }
        row := row.(attempts := row.attempts + 1, status := Pending, error := None);
        receipts := receipts[k := row];
        return Ok((row, true));
      }
      var row := Receipt(k, env.hash(e), Pending, 1, None, None);
      receipts := receipts[k := row];
      result := Ok((row, true));
    }

    method MarkDelivered(k: Key, now: int) returns (row: Receipt)
      requires k in receipts
      modifies this
      ensures row == Marked(old(receipts)[k], None, now) && receipts == old(receipts)[k := row]
    {
      row := receipts[k].(status := Delivered, deliveredAt := Some(now), error := None);
      receipts := receipts[k := row];
    }

    method MarkFailed(k: Key, errorCode: string) returns (row: Receipt)
      requires k in receipts
      modifies this
      ensures forall now :: row == Marked(old(receipts)[k], Some(errorCode), now)
      ensures receipts == old(receipts)[k := row]
    {
      row := receipts[k].(status := Failed, error := Some(if |errorCode| <= 120 then errorCode else errorCode[..120]));
      receipts := receipts[k := row];
    }
  }

  class TelemetryReplicationService {
    const env: Env
    const repository: TelemetryReplicationRepository
    var sent: seq<Key>

    constructor (env: Env)
      ensures this.env == env && fresh(repository) && repository.env == env
      ensures repository.receipts == map[] && sent == []
    {
      this.env, sent := env, [];
      repository := new TelemetryReplicationRepository(env);
    }

    ghost function View(calls: map<nat, Call>): State
      reads this, repository
    {
      State(repository.receipts, sent, calls)
    }

    /** Replicates one event to `targets`; `outcome` tells what the transport raises for each of them, and
        `clock` when it is marked.  `actions` is the run of the state machine that the call performed as call `c`. */
    method ReplicateEvent(e: Event, targets: seq<Target>, outcome: Target -> Option<string>, clock: Target -> int,
          ghost c: nat, ghost calls: map<nat, Call>)
      returns (result: Result<seq<Receipt>, Failure>, ghost actions: seq<Action>, ghost after: State)
      requires repository.env == env && Distinct(targets) && c !in calls
      modifies this, repository
      ensures RunFrom(env, false, old(View(calls)), actions) == Some(after) && after == View(after.calls)
      ensures c in after.calls && after.calls[c].event == e && after.calls[c].targets == Outgoing(env, targets)
      ensures result.Ok? ==> after.calls[c].next == |after.calls[c].targets| && result.value == after.calls[c].results
      ensures result.Err? ==> !after.calls[c].alive
    {
      hide RunFrom;
      ghost var s0 := View(calls);
      RunNone(env, false, s0);
      RunOneMore(env, false, s0, [], s0, Start(c, e, targets));
      actions, after := [] + [Start(c, e, targets)], Step(env, false, s0, Start(c, e, targets));
      var receipts: seq<Receipt> := [];
      for i := 0 to |targets|
        invariant repository.env == env && after == View(after.calls)
        invariant RunFrom(env, false, s0, actions) == Some(after)
        invariant |Outgoing(env, targets[..i])| <= |Outgoing(env, targets)|
        invariant c in after.calls
        invariant after.calls[c] ==
          Call(e, Outgoing(env, targets), |Outgoing(env, targets[..i])|, Reserving, receipts, true)
      {
        var t := targets[i];
        OutgoingPrefix(env, targets, i);
        if !t.enabled || t.region == env.region {
          continue;
        }
        hide Outgoing;
        RunOneMore(env, false, s0, actions, after, Reserve(c));
        actions, after := actions + [Reserve(c)], Step(env, false, after, Reserve(c));
        var reservation := repository.ReserveReceipt(e, t);
        if reservation.Err? {
          return Err(reservation.failure), actions, after;
        }
        if !reservation.value.1 {
          receipts := receipts + [reservation.value.0];
          continue;
        }
        var raised := outcome(t);
        RunOneMore(env, false, s0, actions, after, Send(c, raised));
        actions, after := actions + [Send(c, raised)], Step(env, false, after, Send(c, raised));
        sent := sent + [(e.tenant, t.id, e.id)];
        RunOneMore(env, false, s0, actions, after, Mark(c, clock(t)));
        actions, after := actions + [Mark(c, clock(t))], Step(env, false, after, Mark(c, clock(t)));
        var row;
        if raised.Some? {
          row := repository.MarkFailed(KeyOf(e, t), raised.value);
        } else {
          row := repository.MarkDelivered(KeyOf(e, t), clock(t));
        }
        receipts := receipts + [row];
      }
      assert targets[..|targets|] == targets;
      result := Ok(receipts);
    }
  }

  lemma OutgoingPrefix(env: Env, targets: seq<Target>, i: nat)
    requires i < |targets|
    ensures var t := targets[i];
      && Outgoing(env, targets[..i + 1]) == Outgoing(env, targets[..i])
        + (if t.enabled && t.region != env.region then [t] else [])
      && Outgoing(env, targets[..i + 1]) <= Outgoing(env, targets)
      && (t.enabled && t.region != env.region ==> Outgoing(env, targets)[|Outgoing(env, targets[..i])|] == t)
  {
    assert targets[..i + 1][..i] == targets[..i];
    PrefixOutgoing(env, targets, i + 1);
  }

  lemma {:induction false} PrefixOutgoing(env: Env, targets: seq<Target>, n: nat)
    requires n <= |targets|
    ensures Outgoing(env, targets[..n]) <= Outgoing(env, targets)
  {
    if n < |targets| {
      PrefixOutgoing(env, targets[..|targets| - 1], n);
      assert targets[..|targets| - 1][..n] == targets[..n];
    } else {
      assert targets[..n] == targets;
    }
  }
}
