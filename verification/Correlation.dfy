/** Threshold correlation of `governed_correlation.py`: the offline fixture evaluator with its pruned
    sliding windows, and the durable engine that counts match rows.

    A rule's predicates and its correlation key are functions of the event, so the results hold for
    every predicate operator and every key digest.
 */
module Correlation {
  import opened Wrappers
  import opened Ordering

  /** Times are whole microseconds, as Python's `datetime` and `timedelta` keep them. */
  const SECOND: nat := 1_000_000

  type Attributes = map<string, string>

  datatype Event = Event(eventId: string, tenant: string, eventType: string, timestamp: int, attributes: Attributes)

  datatype Rule = Rule(ruleId: string, tenant: string, eventTypes: set<string>, predicates: seq<Event -> bool>,
    keyOf: Event -> string, threshold: nat, windowSeconds: nat, enabled: bool)
  {
    predicate Matches(e: Event) {
      e.eventType in eventTypes && forall i | 0 <= i < |predicates| :: predicates[i](e)
    }

    function Cutoff(e: Event): int {
      e.timestamp - windowSeconds * SECOND
    }
  }

  // ----- The plain count both evaluators must agree with -----

  /** How many of `es` match the rule with this correlation key at a time in [lo, hi]. */
  function Count(rule: Rule, es: seq<Event>, key: string, lo: int, hi: int): nat {
    if es == [] then 0
    else
      var e := es[|es| - 1];
      Count(rule, es[..|es| - 1], key, lo, hi)
        + if rule.Matches(e) && rule.keyOf(e) == key && lo <= e.timestamp <= hi then 1 else 0
  }

  /** The last of `es` reaches the threshold, counting the matches so far inside its window. */
  predicate FlagsLast(rule: Rule, es: seq<Event>)
    requires es != []
  {
    var e := es[|es| - 1];
    rule.Matches(e) && Count(rule, es, rule.keyOf(e), rule.Cutoff(e), e.timestamp) >= rule.threshold
  }

  /** The events of `es`, fed in this order, that reach the threshold. */
  function Flagged(rule: Rule, es: seq<Event>): seq<string> {
    if es == [] then []
    else Flagged(rule, es[..|es| - 1]) + if FlagsLast(rule, es) then [es[|es| - 1].eventId] else []
  }

  function MatchedIds(rule: Rule, es: seq<Event>): seq<string> {
    if es == [] then []
    else MatchedIds(rule, es[..|es| - 1]) + if rule.Matches(es[|es| - 1]) then [es[|es| - 1].eventId] else []
  }

  // ----- Fixture order -----

  /** By timestamp, then by event id. */
  predicate NotAfter(a: Event, b: Event) {
    a.timestamp < b.timestamp || (a.timestamp == b.timestamp && !Less(b.eventId, a.eventId))
  }

  function Insert(e: Event, es: seq<Event>): seq<Event> {
    if es == [] then [e]
    else if NotAfter(e, es[0]) then [e] + es
    else [es[0]] + Insert(e, es[1..])
  }

  /** The events sorted by the key (timestamp, event_id). */
  function InTimeOrder(es: seq<Event>): seq<Event> {
    if es == [] then [] else Insert(es[0], InTimeOrder(es[1..]))
  }

  /** Lower timestamps come first, and among equal ones no later event has the lower id. */
  ghost predicate TimeOrdered(es: seq<Event>) {
    forall i, j | 0 <= i < j < |es| ::
      || es[i].timestamp < es[j].timestamp
      || (es[i].timestamp == es[j].timestamp && !Less(es[j].eventId, es[i].eventId))
  }

  lemma NotAfterTotal(a: Event, b: Event)
    ensures NotAfter(a, b) || NotAfter(b, a)
  {
    LessAsymmetric();
  }

  lemma NotAfterTransitive(a: Event, b: Event, c: Event)
    requires NotAfter(a, b) && NotAfter(b, c)
    ensures NotAfter(a, c)
  {
    if Less(c.eventId, a.eventId) {
      LessTotal(a.eventId, b.eventId);
      if a.eventId != b.eventId && Less(a.eventId, b.eventId) {
        LessTransitive(c.eventId, a.eventId, b.eventId);
      }
    }
  }

  lemma OrderedPair(es: seq<Event>, i: nat, j: nat)
    requires TimeOrdered(es) && i < j < |es|
    ensures NotAfter(es[i], es[j])
  {}

  lemma BeforeAll(e: Event, es: seq<Event>)
    requires TimeOrdered(es) && es != [] && NotAfter(e, es[0])
    ensures forall x | x in es :: NotAfter(e, x)
  {
    hide NotAfter, TimeOrdered;
    forall x | x in es ensures NotAfter(e, x) {
      var j :| 0 <= j < |es| && es[j] == x;
      if j > 0 {
        OrderedPair(es, 0, j);
        NotAfterTransitive(e, es[0], x);
      }
    }
  }

  lemma StaysFirst(e: Event, es: seq<Event>, inserted: seq<Event>)
    requires TimeOrdered(es) && es != [] && NotAfter(es[0], e) && multiset(inserted) == multiset(es[1..]) + multiset{e}
    ensures forall x | x in inserted :: NotAfter(es[0], x)
  {
    hide NotAfter, TimeOrdered;
    forall x | x in inserted ensures NotAfter(es[0], x) {
      assert x in multiset(es[1..]) + multiset{e};
      if x != e {
        assert x in es[1..];
        var j :| 0 <= j < |es[1..]| && es[1..][j] == x;
        OrderedPair(es, 0, j + 1);
      }
    }
  }

  lemma {:induction false} InsertKeeps(e: Event, es: seq<Event>)
    requires TimeOrdered(es)
    ensures TimeOrdered(Insert(e, es)) && multiset(Insert(e, es)) == multiset(es) + multiset{e}
  {
    hide NotAfter, TimeOrdered;
    if es == [] {
      OrderedSingle(e);
    } else {
      assert es == [es[0]] + es[1..];
      TailOrdered(es);
      if NotAfter(e, es[0]) {
        BeforeAll(e, es);
        ConsOrdered(e, es);
      } else {
        NotAfterTotal(e, es[0]);
        InsertKeeps(e, es[1..]);
        StaysFirst(e, es, Insert(e, es[1..]));
        ConsOrdered(es[0], Insert(e, es[1..]));
      }
    }
  }

  lemma OrderedSingle(e: Event)
    ensures TimeOrdered([e])
  {}

  lemma TailOrdered(es: seq<Event>)
    requires TimeOrdered(es) && es != []
    ensures TimeOrdered(es[1..])
  {}

  lemma ConsOrdered(first: Event, rest: seq<Event>)
    requires TimeOrdered(rest) && forall x | x in rest :: NotAfter(first, x)
    ensures TimeOrdered([first] + rest)
  {
    assert forall j | 0 < j < |[first] + rest| :: ([first] + rest)[j] in rest;
  }

  lemma {:induction false} InTimeOrderCorrect(es: seq<Event>)
    ensures TimeOrdered(InTimeOrder(es)) && multiset(InTimeOrder(es)) == multiset(es)
  {
    hide TimeOrdered;
    if es != [] {
      InTimeOrderCorrect(es[1..]);
      InsertKeeps(es[0], InTimeOrder(es[1..]));
      assert es == [es[0]] + es[1..];
    } else {
      NothingOrdered();
    }
  }

  lemma NothingOrdered()
    ensures TimeOrdered([])
  {}

  ghost predicate DistinctIds(es: seq<Event>) {
    forall i, j | 0 <= i < j < |es| :: es[i].eventId != es[j].eventId
  }

  /** With distinct ids, as fixtures have them, there is only one such order. */
  lemma {:induction false} TimeOrderUnique(es: seq<Event>, fs: seq<Event>)
    requires TimeOrdered(es) && TimeOrdered(fs) && DistinctIds(es) && multiset(es) == multiset(fs)
    ensures es == fs
    decreases |es|
  {
    SameLength(es, fs);
    if es != [] {
      FirstsAgree(es, fs);
      TailOrdered(es);
      TailOrdered(fs);
      SameTails(es, fs);
      hide TimeOrdered;
      TimeOrderUnique(es[1..], fs[1..]);
      assert es == [es[0]] + es[1..] && fs == [fs[0]] + fs[1..];
    }
  }

  lemma SameLength(es: seq<Event>, fs: seq<Event>)
    requires multiset(es) == multiset(fs)
    ensures |es| == |fs|
  {
    assert |multiset(es)| == |multiset(fs)|;
  }

  lemma SameTails(es: seq<Event>, fs: seq<Event>)
    requires es != [] && fs != [] && es[0] == fs[0] && multiset(es) == multiset(fs)
    ensures multiset(es[1..]) == multiset(fs[1..])
  {
    assert es == [es[0]] + es[1..] && fs == [fs[0]] + fs[1..];
    assert multiset(es[1..]) == multiset(es) - multiset{es[0]};
    assert multiset(fs[1..]) == multiset(fs) - multiset{fs[0]};
  }

  lemma FirstsAgree(es: seq<Event>, fs: seq<Event>)
    requires TimeOrdered(es) && TimeOrdered(fs) && DistinctIds(es) && multiset(es) == multiset(fs)
    requires es != [] && fs != []
    ensures es[0] == fs[0]
  {
    assert es[0] in multiset(fs) && fs[0] in multiset(es);
    var i :| 0 <= i < |es| && es[i] == fs[0];
    var j :| 0 <= j < |fs| && fs[j] == es[0];
    LessTotal(es[0].eventId, fs[0].eventId);
  }

  // ----- The fixture evaluator -----

  datatype Fixture = Fixture(tenant: string, ruleId: string, events: seq<Event>, expected: seq<string>)
  datatype Evaluation = Evaluation(evaluated: seq<string>, matched: seq<string>, detections: seq<string>, met: bool)
  datatype FixtureFailure = ForeignFixture

  function Within(ts: seq<int>, lo: int, hi: int): seq<int> {
    if ts == [] then []
    else
      var n := |ts| - 1;
      var before := Within(ts[..n], lo, hi);
      if lo <= ts[n] <= hi then before + [ts[n]] else before
  }

  function WindowOf(windows: map<string, seq<int>>, key: string): seq<int> {
    if key in windows then windows[key] else []
  }

  function InRange(ts: seq<int>, lo: int, hi: int): nat {
    if ts == [] then 0
    else
      var n := |ts| - 1;
      InRange(ts[..n], lo, hi) + if lo <= ts[n] <= hi then 1 else 0
  }

  /** From `floor` on, each key's pruned window still counts like the whole history. */
  ghost predicate WindowsCount(rule: Rule, seen: seq<Event>, windows: map<string, seq<int>>, floor: int) {
    forall key, lo, hi | lo >= floor ::
      InRange(WindowOf(windows, key), lo, hi) == Count(rule, seen, key, lo, hi)
  }

  ghost predicate NoLaterThan(windows: map<string, seq<int>>, now: int) {
    forall key, i | key in windows && 0 <= i < |windows[key]| :: windows[key][i] <= now
  }

  lemma InRangeAppend(ts: seq<int>, t: int, lo: int, hi: int)
    ensures InRange(ts + [t], lo, hi) == InRange(ts, lo, hi) + if lo <= t <= hi then 1 else 0
  {
    assert (ts + [t])[..|ts|] == ts;
  }

  lemma CountAppend(rule: Rule, es: seq<Event>, e: Event, key: string, lo: int, hi: int)
    ensures Count(rule, es + [e], key, lo, hi) == Count(rule, es, key, lo, hi)
      + if rule.Matches(e) && rule.keyOf(e) == key && lo <= e.timestamp <= hi then 1 else 0
  {
    assert (es + [e])[..|es|] == es;
  }

  lemma {:induction false} WithinNested(ts: seq<int>, cutoff: int, now: int, lo: int, hi: int)
    requires cutoff <= lo && forall i | 0 <= i < |ts| :: ts[i] <= now
    ensures InRange(Within(ts, cutoff, now), lo, hi) == InRange(ts, lo, hi)
  {
    if ts != [] {
      var n := |ts| - 1;
      WithinNested(ts[..n], cutoff, now, lo, hi);
      InRangeAppend(Within(ts[..n], cutoff, now), ts[n], lo, hi);
    }
  }

  lemma {:induction false} WithinBounds(ts: seq<int>, lo: int, hi: int)
    ensures |Within(ts, lo, hi)| == InRange(ts, lo, hi)
    ensures forall i | 0 <= i < |Within(ts, lo, hi)| :: Within(ts, lo, hi)[i] <= hi
  {
    if ts != [] {
      WithinBounds(ts[..|ts| - 1], lo, hi);
    }
  }

  /** Pruning to the event's window and appending it keeps the windows exact from its cutoff on. */
  lemma WindowStep(rule: Rule, seen: seq<Event>, e: Event, windows: map<string, seq<int>>, floor: int)
    requires WindowsCount(rule, seen, windows, floor) && NoLaterThan(windows, e.timestamp)
    requires rule.Matches(e) && floor <= rule.Cutoff(e)
    ensures var pruned := Within(WindowOf(windows, rule.keyOf(e)), rule.Cutoff(e), e.timestamp) + [e.timestamp];
      && WindowsCount(rule, seen + [e], windows[rule.keyOf(e) := pruned], rule.Cutoff(e))
      && NoLaterThan(windows[rule.keyOf(e) := pruned], e.timestamp)
      && |pruned| == Count(rule, seen + [e], rule.keyOf(e), rule.Cutoff(e), e.timestamp)
  {
    hide Count, Within, InRange;
    var k, cutoff := rule.keyOf(e), rule.Cutoff(e);
    var ts := WindowOf(windows, k);
    var kept := Within(ts, cutoff, e.timestamp);
    var windows' := windows[k := kept + [e.timestamp]];
    WithinBounds(ts, cutoff, e.timestamp);
    CountAppend(rule, seen, e, k, cutoff, e.timestamp);
    assert |kept| == Count(rule, seen, k, cutoff, e.timestamp);
    forall key, lo, hi | lo >= cutoff
      ensures InRange(WindowOf(windows', key), lo, hi) == Count(rule, seen + [e], key, lo, hi)
    {
      CountAppend(rule, seen, e, key, lo, hi);
      assert InRange(WindowOf(windows, key), lo, hi) == Count(rule, seen, key, lo, hi);
      if key == k {
        WithinNested(ts, cutoff, e.timestamp, lo, hi);
        InRangeAppend(kept, e.timestamp, lo, hi);
      }
    }
  }

  lemma SkipStep(rule: Rule, seen: seq<Event>, e: Event, windows: map<string, seq<int>>, floor: int)
    requires WindowsCount(rule, seen, windows, floor) && !rule.Matches(e)
    ensures WindowsCount(rule, seen + [e], windows, floor)
  {
    hide Count, InRange;
    forall key, lo, hi | lo >= floor
      ensures InRange(WindowOf(windows, key), lo, hi) == Count(rule, seen + [e], key, lo, hi)
    {
      CountAppend(rule, seen, e, key, lo, hi);
      assert InRange(WindowOf(windows, key), lo, hi) == Count(rule, seen, key, lo, hi);
    }
  }

  lemma FlaggedAppend(rule: Rule, es: seq<Event>, e: Event)
    ensures Flagged(rule, es + [e]) == Flagged(rule, es) + if FlagsLast(rule, es + [e]) then [e.eventId] else []
    ensures MatchedIds(rule, es + [e]) == MatchedIds(rule, es) + if rule.Matches(e) then [e.eventId] else []
  {
    assert (es + [e])[..|es|] == es;
  }

  method Prune(ts: seq<int>, lo: int, hi: int) returns (kept: seq<int>)
    ensures kept == Within(ts, lo, hi)
  {
    kept := [];
    for i := 0 to |ts|
      invariant kept == Within(ts[..i], lo, hi)
    {
      assert ts[..i + 1][..i] == ts[..i];
      if lo <= ts[i] <= hi {
        kept := kept + [ts[i]];
      }
    }
    assert ts[..|ts|] == ts;
  }

  /** Whether an event has one of the rule's types and meets all its predicates. */
  method Meets(rule: Rule, e: Event) returns (all: bool)
    ensures all <==>
      e.eventType in rule.eventTypes && forall i | 0 <= i < |rule.predicates| :: rule.predicates[i](e)
  {
    if e.eventType !in rule.eventTypes {
      return false;
    }
    for i := 0 to |rule.predicates|
      invariant forall j | 0 <= j < i :: rule.predicates[j](e)
    {
      if !rule.predicates[i](e) {
        return false;
      }
    }
    all := true;
  }

  /** The events are evaluated in the order of their timestamps and ids, and the pruned windows flag exactly the
      events that the plain count flags. */
  method EvaluateFixture(rule: Rule, fixture: Fixture)
    returns (r: Result<Evaluation, FixtureFailure>, ghost es: seq<Event>)
    ensures r.Err? <==> rule.tenant != fixture.tenant || rule.ruleId != fixture.ruleId
    ensures multiset(es) == multiset(fixture.events)
    ensures forall i, j | 0 <= i < j < |es| ::
      || es[i].timestamp < es[j].timestamp
      || (es[i].timestamp == es[j].timestamp && !Less(es[j].eventId, es[i].eventId))
    ensures r.Ok? ==>
      && |r.value.evaluated| == |es| && (forall i | 0 <= i < |es| :: r.value.evaluated[i] == es[i].eventId)
      && r.value.matched == MatchedIds(rule, es)
      && r.value.detections == Flagged(rule, es)
      && (r.value.met <==> r.value.detections == fixture.expected)
  {
    hide Count, Flagged, MatchedIds, WindowsCount, Within, InTimeOrder;
    if rule.tenant != fixture.tenant || rule.ruleId != fixture.ruleId {
      InTimeOrderCorrect(fixture.events);
      return Err(ForeignFixture), InTimeOrder(fixture.events);
    }
    var ordered := InTimeOrder(fixture.events);
    es := ordered;
    InTimeOrderCorrect(fixture.events);
    var windows: map<string, seq<int>> := map[];
    var matched: seq<string> := [];
    var detections: seq<string> := [];
    ghost var floor := if ordered == [] then 0 else rule.Cutoff(ordered[0]);
    EvaluationStart(rule, ordered, floor);
    for i := 0 to |ordered|
      invariant matched == MatchedIds(rule, ordered[..i]) && detections == Flagged(rule, ordered[..i])
      invariant WindowsCount(rule, ordered[..i], windows, floor)
      invariant i < |ordered| ==> floor <= rule.Cutoff(ordered[i]) && NoLaterThan(windows, ordered[i].timestamp)
    {
      var e := ordered[i];
      assert ordered[..i + 1] == ordered[..i] + [e];
      FlaggedAppend(rule, ordered[..i], e);
      var meets := Meets(rule, e);
      if !meets {
        SkipStep(rule, ordered[..i], e, windows, floor);
        continue;
      }
      WindowStep(rule, ordered[..i], e, windows, floor);
      matched := matched + [e.eventId];
      var key := rule.keyOf(e);
      var cutoff := e.timestamp - rule.windowSeconds * SECOND;
      var timestamps := Prune(if key in windows then windows[key] else [], cutoff, e.timestamp);
      timestamps := timestamps + [e.timestamp];
      windows := windows[key := timestamps];
      floor := rule.Cutoff(e);
      if |timestamps| >= rule.threshold {
        detections := detections + [e.eventId];
      }
    }
    assert ordered[..|ordered|] == ordered;
    var evaluated := seq(|ordered|, i requires 0 <= i < |ordered| => ordered[i].eventId);
    r := Ok(Evaluation(evaluated, matched, detections, detections == fixture.expected));
  }

  lemma EvaluationStart(rule: Rule, es: seq<Event>, floor: int)
    ensures MatchedIds(rule, es[..0]) == [] && Flagged(rule, es[..0]) == []
    ensures WindowsCount(rule, es[..0], map[], floor)
  {}

  // ----- The durable engine -----

  datatype RowKey = RowKey(tenant: string, ruleId: string, eventId: string)
  datatype MatchRow = MatchRow(correlationKey: string, evaluatedAt: int, detectionId: Option<string>)
  type MatchTable = map<RowKey, MatchRow>

  function RowKeyOf(rule: Rule, e: Event): RowKey {
    RowKey(e.tenant, rule.ruleId, e.eventId)
  }

  function DetectionId(rule: Rule, e: Event): string {
    "correlation-" + e.eventId + "-" + rule.ruleId
  }

  /** Among rules whose ids have one length, as generated ids do, a detection id names its rule and event. */
  lemma DetectionIdNamesItsPair(a: Rule, e: Event, b: Rule, f: Event)
    requires |a.ruleId| == |b.ruleId|
    ensures DetectionId(a, e) == DetectionId(b, f) <==> a.ruleId == b.ruleId && e.eventId == f.eventId
  {
    var x, y := DetectionId(a, e), DetectionId(b, f);
    var n := |"correlation-"|;
    assert x[n..n + |e.eventId|] == e.eventId && x[n + |e.eventId| + 1..] == a.ruleId;
    assert y[n..n + |f.eventId|] == f.eventId && y[n + |f.eventId| + 1..] == b.ruleId;
  }

  /** What follows a shared start when two joined strings are equal. */
  lemma SplitAtSeparator(e: string, a: string, f: string, b: string) returns (x: string)
    requires e + "-" + a == f + "-" + b && |e| < |f|
    ensures f == e + "-" + x && a == x + "-" + b
  {
    var p, m := e + "-" + a, |e|;
    x := f[m + 1..];
    assert f[..m] == p[..m] == e;
    assert f[m] == p[m] == '-';
    assert f == f[..m] + [f[m]] + x;
    assert p[m + 1..] == a;
    assert (f + "-" + b)[m + 1..] == x + "-" + b;
  }

  lemma JoinsAtSeparator(e: string, f: string, b: string, x: string)
    requires f == e + "-" + x
    ensures e + "-" + (x + "-" + b) == f + "-" + b
  {}

  lemma DetectionIdTail(a: Rule, e: Event, b: Rule, f: Event)
    ensures DetectionId(a, e) == DetectionId(b, f) <==> e.eventId + "-" + a.ruleId == f.eventId + "-" + b.ruleId
  {
    var prefix, p, q := "correlation-", e.eventId + "-" + a.ruleId, f.eventId + "-" + b.ruleId;
    assert DetectionId(a, e) == prefix + p && DetectionId(b, f) == prefix + q;
    assert (prefix + p)[|prefix|..] == p && (prefix + q)[|prefix|..] == q;
  }

  /** Two different pairs share a detection id exactly when one event id continues the other over a separator,
      and the rule ids make up for it. */
  lemma DetectionIdsClashExactly(a: Rule, e: Event, b: Rule, f: Event)
    requires |e.eventId| < |f.eventId|
    ensures DetectionId(a, e) == DetectionId(b, f) <==>
      exists x :: f.eventId == e.eventId + "-" + x && a.ruleId == x + "-" + b.ruleId
  {
    hide DetectionId;
    DetectionIdTail(a, e, b, f);
    if DetectionId(a, e) == DetectionId(b, f) {
      var x := SplitAtSeparator(e.eventId, a.ruleId, f.eventId, b.ruleId);
    }
    if x :| f.eventId == e.eventId + "-" + x && a.ruleId == x + "-" + b.ruleId {
      JoinsAtSeparator(e.eventId, f.eventId, b.ruleId, x);
    }
  }

  /** A clash of this kind. */
  lemma DetectionIdsCanClash(a: Rule, e: Event)
    requires a.ruleId == "b-c" && e.eventId == "a"
    ensures var b, f := a.(ruleId := "c"), e.(eventId := "a-b");
      DetectionId(a, e) == DetectionId(b, f) && a.ruleId != b.ruleId && e.eventId != f.eventId
  {
    assert "correlation-" + "a" + "-" + "b-c" == "correlation-" + "a-b" + "-" + "c";
  }

  /** The general case: a shared id means the same pair, or a clash in one direction or the other. */
  lemma SharedDetectionIdExactly(a: Rule, e: Event, b: Rule, f: Event)
    ensures DetectionId(a, e) == DetectionId(b, f) <==>
      || (a.ruleId == b.ruleId && e.eventId == f.eventId)
      || (exists x :: f.eventId == e.eventId + "-" + x && a.ruleId == x + "-" + b.ruleId)
      || (exists x :: e.eventId == f.eventId + "-" + x && b.ruleId == x + "-" + a.ruleId)
  {
    if |e.eventId| < |f.eventId| {
      DetectionIdsClashExactly(a, e, b, f);
    } else if |f.eventId| < |e.eventId| {
      DetectionIdsClashExactly(b, f, a, e);
    } else {
      var n := |"correlation-"|;
      var x, y := DetectionId(a, e), DetectionId(b, f);
      var m := |e.eventId|;
      assert x[n..n + m] == e.eventId && x[n + m + 1..] == a.ruleId;
      assert y[n..n + m] == f.eventId && y[n + m + 1..] == b.ruleId;
    }
  }

  predicate InWindow(rows: MatchTable, k: RowKey, tenant: string, ruleId: string, key: string, lo: int, hi: int) {
    k in rows && k.tenant == tenant && k.ruleId == ruleId && rows[k].correlationKey == key
      && lo <= rows[k].evaluatedAt <= hi
  }

  function RowsInWindow(rows: MatchTable, tenant: string, ruleId: string, key: string, lo: int, hi: int): set<RowKey> {
    set k | k in rows && InWindow(rows, k, tenant, ruleId, key, lo, hi)
  }

  /** The table after one match is recorded: the first recording of an event wins. */
  function Recorded(rows: MatchTable, rule: Rule, e: Event): MatchTable {
    if RowKeyOf(rule, e) in rows then rows
    else rows[RowKeyOf(rule, e) := MatchRow(rule.keyOf(e), e.timestamp, None)]
  }

  function MatchCount(rows: MatchTable, rule: Rule, e: Event): nat {
    |RowsInWindow(rows, e.tenant, rule.ruleId, rule.keyOf(e), rule.Cutoff(e), e.timestamp)|
  }

  predicate Applies(rule: Rule, e: Event) {
    rule.tenant == e.tenant && rule.enabled && rule.Matches(e)
  }

  /** How far the evaluation of one event has come. A raised exception keeps the rows and loses the rest. */
  datatype Pass = Pass(rows: MatchTable, detections: seq<string>, raised: bool)

  /** One stored rule: the match is recorded and counted; match evidence with a count of zero is refused. */
  function Evaluated(p: Pass, rule: Rule, e: Event): Pass {
    if p.raised || !Applies(rule, e) then p
    else
      var k, next := RowKeyOf(rule, e), Recorded(p.rows, rule, e);
      var count := MatchCount(next, rule, e);
      if count == 0 then p.(rows := next, raised := true)
      else if count < rule.threshold then p.(rows := next)
      else p.(rows := next[k := next[k].(detectionId := Some(DetectionId(rule, e)))],
              detections := p.detections + [DetectionId(rule, e)])
  }

  /** One event against the stored rules, in order. */
  function EvaluatedAll(rows: MatchTable, rules: seq<Rule>, e: Event): Pass {
    if rules == [] then Pass(rows, [], false)
    else Evaluated(EvaluatedAll(rows, rules[..|rules| - 1], e), rules[|rules| - 1], e)
  }

  /** Evaluating a match raises exactly when the event id was recorded before and no row of the key it now has is
      in its window: the id must have been used with another key, or at a time outside the window. */
  lemma RaisesExactly(rows: MatchTable, rule: Rule, e: Event)
    ensures MatchCount(Recorded(rows, rule, e), rule, e) == 0 <==>
      && RowKeyOf(rule, e) in rows
      && forall k | k in rows && k.tenant == e.tenant && k.ruleId == rule.ruleId ::
           rows[k].correlationKey != rule.keyOf(e) || !(rule.Cutoff(e) <= rows[k].evaluatedAt <= e.timestamp)
  {
    var next := Recorded(rows, rule, e);
    var found := RowsInWindow(next, e.tenant, rule.ruleId, rule.keyOf(e), rule.Cutoff(e), e.timestamp);
    if RowKeyOf(rule, e) in rows {
      assert next == rows;
      if k :| k in rows && InWindow(rows, k, e.tenant, rule.ruleId, rule.keyOf(e), rule.Cutoff(e), e.timestamp) {
        assert k in found;
      }
    } else {
      assert RowKeyOf(rule, e) in found;
    }
    assert found != {} ==> exists k :: k in found;
  }

  datatype MatchFailure = InvalidEvidence

  class GovernedCorrelationRepository {
    var rows: MatchTable

    constructor ()
      ensures rows == map[]
    {
      rows := map[];
    }

    /** The row is committed before the evidence is built, which needs a positive count. */
    method RecordAndCountMatch(rule: Rule, e: Event) returns (count: Result<nat, MatchFailure>)
      modifies this
      ensures rows == Recorded(old(rows), rule, e)
      ensures count == if MatchCount(rows, rule, e) == 0 then Err(InvalidEvidence) else Ok(MatchCount(rows, rule, e))
    {
      var key := rule.keyOf(e);
      var k := RowKey(e.tenant, rule.ruleId, e.eventId);
      if k !in rows {
        rows := rows[k := MatchRow(key, e.timestamp, None)];
      }
      var cutoff := e.timestamp - rule.windowSeconds * SECOND;
      var found := set k | k in rows && k.tenant == e.tenant && k.ruleId == rule.ruleId
        && rows[k].correlationKey == key && rows[k].evaluatedAt >= cutoff && rows[k].evaluatedAt <= e.timestamp;
      assert found == RowsInWindow(rows, e.tenant, rule.ruleId, key, rule.Cutoff(e), e.timestamp);
      count := if |found| == 0 then Err(InvalidEvidence) else Ok(|found|);
    }

    /** Fails when the match was never recorded. */
    method MarkDetection(k: RowKey, detectionId: string) returns (found: bool)
      modifies this
      ensures found <==> k in old(rows)
      ensures rows == if found then old(rows)[k := old(rows)[k].(detectionId := Some(detectionId))] else old(rows)
    {
      found := k in rows;
      if found {
        rows := rows[k := rows[k].(detectionId := Some(detectionId))];
      }
    }
  }

  class GovernedCorrelationEngine {
    const repository: GovernedCorrelationRepository

    constructor (repository: GovernedCorrelationRepository)
      ensures this.repository == repository
    {
      this.repository := repository;
    }

    /** Evaluates every stored rule of the event's tenant until one raises; a mark on a missing match cannot
        happen. */
    method EvaluateEvent(rules: seq<Rule>, e: Event) returns (result: Result<seq<string>, MatchFailure>)
      modifies repository
      ensures var p := EvaluatedAll(old(repository.rows), rules, e);
        repository.rows == p.rows && result == if p.raised then Err(InvalidEvidence) else Ok(p.detections)
    {
      hide MatchCount, Recorded;
      var detections: seq<string> := [];
      for i := 0 to |rules|
        invariant EvaluatedAll(old(repository.rows), rules[..i], e) == Pass(repository.rows, detections, false)
      {
        var rule := rules[i];
        assert rules[..i + 1][..i] == rules[..i];
        if rule.tenant != e.tenant || !rule.enabled {
          continue;
        }
        var meets := Meets(rule, e);
        if !meets {
          continue;
        }
        var count := repository.RecordAndCountMatch(rule, e);
        if count.Err? {
          RaisedStays(old(repository.rows), rules, e, i + 1);
          return Err(InvalidEvidence);
        }
        if count.value < rule.threshold {
          continue;
        }
        assert RowKeyOf(rule, e) in repository.rows by {
          RecordedHasRow(old(EvaluatedAll(repository.rows, rules[..i], e).rows), rule, e);
        }
        var detectionId := "correlation-" + e.eventId + "-" + rule.ruleId;
        var found := repository.MarkDetection(RowKeyOf(rule, e), detectionId);
        detections := detections + [detectionId];
      }
      assert rules[..|rules|] == rules;
      result := Ok(detections);
    }
  }

  lemma RecordedHasRow(rows: MatchTable, rule: Rule, e: Event)
    ensures RowKeyOf(rule, e) in Recorded(rows, rule, e)
  {}

  /** Nothing happens after a rule has raised. */
  lemma {:induction false} RaisedStays(rows: MatchTable, rules: seq<Rule>, e: Event, m: nat)
    requires m <= |rules| && EvaluatedAll(rows, rules[..m], e).raised
    ensures EvaluatedAll(rows, rules, e) == EvaluatedAll(rows, rules[..m], e)
  {
    if m < |rules| {
      var n := |rules| - 1;
      assert rules[..n][..m] == rules[..m];
      RaisedStays(rows, rules[..n], e, m);
    } else {
      assert rules[..m] == rules;
    }
  }

  // ----- Whole runs of the engine -----

  function Deliver(rows: MatchTable, rules: seq<Rule>, es: seq<Event>): MatchTable {
    if es == [] then rows
    else EvaluatedAll(Deliver(rows, rules, es[..|es| - 1]), rules, es[|es| - 1]).rows
  }

  /** What the engine emits for `es` against one rule, as event ids. */
  function Emitted(rule: Rule, es: seq<Event>): seq<string> {
    if es == [] then []
    else
      var n := |es| - 1;
      var before, p := Emitted(rule, es[..n]), EvaluatedAll(Deliver(map[], [rule], es[..n]), [rule], es[n]);
      if !p.raised && p.detections != [] then before + [es[n].eventId] else before
  }

  ghost predicate SameTenant(tenant: string, es: seq<Event>) {
    forall i | 0 <= i < |es| :: es[i].tenant == tenant
  }

  // ----- The fixture evaluator and the durable engine agree -----

  /** With one enabled rule and distinct ids, the table holds one row per match seen. */
  ghost predicate TableCounts(rule: Rule, es: seq<Event>, rows: MatchTable) {
    && (forall k | k in rows :: exists i :: 0 <= i < |es| && k.eventId == es[i].eventId)
    && (forall key, lo, hi ::
          |RowsInWindow(rows, rule.tenant, rule.ruleId, key, lo, hi)| == Count(rule, es, key, lo, hi))
  }

  lemma MarkKeepsWindow(rows: MatchTable, k: RowKey, mark: Option<string>, tenant: string, ruleId: string,
                        key: string, lo: int, hi: int)
    requires k in rows
    ensures RowsInWindow(rows[k := rows[k].(detectionId := mark)], tenant, ruleId, key, lo, hi)
         == RowsInWindow(rows, tenant, ruleId, key, lo, hi)
  {}

  lemma RecordGrowsWindow(rows: MatchTable, rule: Rule, e: Event, key: string, lo: int, hi: int)
    requires RowKeyOf(rule, e) !in rows && e.tenant == rule.tenant
    ensures |RowsInWindow(Recorded(rows, rule, e), rule.tenant, rule.ruleId, key, lo, hi)|
         == |RowsInWindow(rows, rule.tenant, rule.ruleId, key, lo, hi)|
            + if rule.keyOf(e) == key && lo <= e.timestamp <= hi then 1 else 0
  {
    var k, next := RowKeyOf(rule, e), Recorded(rows, rule, e);
    var before := RowsInWindow(rows, rule.tenant, rule.ruleId, key, lo, hi);
    var after := RowsInWindow(next, rule.tenant, rule.ruleId, key, lo, hi);
    if rule.keyOf(e) == key && lo <= e.timestamp <= hi {
      assert after == before + {k};
    } else {
      assert after == before;
    }
  }

  lemma TableStep(rule: Rule, es: seq<Event>, e: Event, rows: MatchTable)
    requires rule.enabled && e.tenant == rule.tenant && DistinctIds(es + [e]) && TableCounts(rule, es, rows)
    ensures var p := Evaluated(Pass(rows, [], false), rule, e);
      TableCounts(rule, es + [e], p.rows) && !p.raised && (p.detections != [] <==> FlagsLast(rule, es + [e]))
  {
    hide Count;
    var k, next := RowKeyOf(rule, e), Evaluated(Pass(rows, [], false), rule, e).rows;
    forall i | 0 <= i < |es| ensures es[i].eventId != e.eventId {
      assert (es + [e])[i].eventId != (es + [e])[|es|].eventId;
    }
    forall key, lo, hi
      ensures |RowsInWindow(next, rule.tenant, rule.ruleId, key, lo, hi)| == Count(rule, es + [e], key, lo, hi)
    {
      CountAppend(rule, es, e, key, lo, hi);
      RecordGrowsWindow(rows, rule, e, key, lo, hi);
      if rule.Matches(e) {
        MarkKeepsWindow(Recorded(rows, rule, e), k, Some(DetectionId(rule, e)), rule.tenant, rule.ruleId, key, lo, hi);
      }
    }
    forall k' | k' in next ensures exists i :: 0 <= i < |es + [e]| && k'.eventId == (es + [e])[i].eventId {
      if k' in rows {
        var i :| 0 <= i < |es| && k'.eventId == es[i].eventId;
        assert (es + [e])[i] == es[i];
      } else {
        assert (es + [e])[|es|] == e;
      }
    }
    if rule.Matches(e) {
      NewIdIsCounted(rule, es, e, rows);
      RecordGrowsWindow(rows, rule, e, rule.keyOf(e), rule.Cutoff(e), e.timestamp);
      CountAppend(rule, es, e, rule.keyOf(e), rule.Cutoff(e), e.timestamp);
    }
  }

  lemma NewIdIsCounted(rule: Rule, es: seq<Event>, e: Event, rows: MatchTable)
    requires TableCounts(rule, es, rows) && forall i | 0 <= i < |es| :: es[i].eventId != e.eventId
    ensures RowKeyOf(rule, e) !in rows && MatchCount(Recorded(rows, rule, e), rule, e) > 0
  {
    hide Count;
    RaisesExactly(rows, rule, e);
  }

  lemma OneRule(rows: MatchTable, rule: Rule, e: Event)
    ensures EvaluatedAll(rows, [rule], e) == Evaluated(Pass(rows, [], false), rule, e)
  {
    assert [rule][..0] == [];
  }

  lemma {:induction false} EngineMatchesCount(rule: Rule, es: seq<Event>)
    requires rule.enabled && SameTenant(rule.tenant, es) && DistinctIds(es)
    ensures TableCounts(rule, es, Deliver(map[], [rule], es))
    ensures Emitted(rule, es) == Flagged(rule, es)
  {
    if es == [] {
      assert forall key, lo, hi :: RowsInWindow(map[], rule.tenant, rule.ruleId, key, lo, hi) == {};
    } else {
      var n := |es| - 1;
      var rows := Deliver(map[], [rule], es[..n]);
      EngineMatchesCount(rule, es[..n]);
      assert es == es[..n] + [es[n]];
      TableStep(rule, es[..n], es[n], rows);
      OneRule(rows, rule, es[n]);
    }
  }

  /** Fed from an empty table with one enabled rule, the durable engine emits detections for exactly
      the events the fixture evaluator reports, in the same order. */
  lemma FixtureAgreesWithEngine(rule: Rule, fixture: Fixture)
    requires rule.enabled && rule.tenant == fixture.tenant
    requires SameTenant(fixture.tenant, fixture.events) && DistinctIds(fixture.events)
    ensures var es := InTimeOrder(fixture.events); Emitted(rule, es) == Flagged(rule, es)
  {
    var es := InTimeOrder(fixture.events);
    InTimeOrderCorrect(fixture.events);
    PermutationKeeps(fixture.tenant, fixture.events, es);
    EngineMatchesCount(rule, es);
  }

  lemma PermutationKeeps(tenant: string, es: seq<Event>, fs: seq<Event>)
    requires SameTenant(tenant, es) && DistinctIds(es) && multiset(es) == multiset(fs)
    ensures SameTenant(tenant, fs) && DistinctIds(fs)
  {
    forall i | 0 <= i < |fs| ensures fs[i].tenant == tenant {
      assert fs[i] in multiset(es);
    }
    forall i, j | 0 <= i < j < |fs| ensures fs[i].eventId != fs[j].eventId {
      assert fs[i] in multiset(es) && fs[j] in multiset(es);
      var a :| 0 <= a < |es| && es[a] == fs[i];
      var b :| 0 <= b < |es| && es[b] == fs[j];
      AtMostOnce(es, a);
      TwiceCounted(fs, i, j);
    }
  }

  lemma TwiceCounted(fs: seq<Event>, i: nat, j: nat)
    requires i < j < |fs|
    ensures fs[i] == fs[j] ==> multiset(fs)[fs[i]] >= 2
  {
    assert fs == fs[..i] + [fs[i]] + fs[i + 1..j] + [fs[j]] + fs[j + 1..];
  }

  lemma AtMostOnce(es: seq<Event>, a: nat)
    requires DistinctIds(es) && a < |es|
    ensures multiset(es)[es[a]] == 1
  {
    assert es == es[..a] + [es[a]] + es[a + 1..];
    assert es[a] !in es[..a] && es[a] !in es[a + 1..];
  }

  // ----- Order, repetition and redelivery -----

  /** Two tables hold the same matches, whatever their detection marks. */
  ghost predicate SameMatches(rows: MatchTable, rows': MatchTable) {
    SubMatches(rows, rows') && SubMatches(rows', rows)
  }

  ghost predicate SubMatches(rows: MatchTable, rows': MatchTable) {
    forall k | k in rows :: k in rows' && rows'[k].correlationKey == rows[k].correlationKey
      && rows'[k].evaluatedAt == rows[k].evaluatedAt
  }

  lemma EvaluatedKeeps(p: Pass, rule: Rule, e: Event)
    ensures SubMatches(p.rows, Evaluated(p, rule, e).rows)
    ensures Applies(rule, e) && !p.raised ==> SubMatches(Recorded(p.rows, rule, e), Evaluated(p, rule, e).rows)
  {}

  lemma {:induction false} EvaluatedAllKeeps(rows: MatchTable, rules: seq<Rule>, e: Event, m: nat)
    requires m <= |rules|
    ensures SubMatches(EvaluatedAll(rows, rules[..m], e).rows, EvaluatedAll(rows, rules, e).rows)
    ensures m < |rules| && Applies(rules[m], e) && !EvaluatedAll(rows, rules[..m], e).raised ==>
      SubMatches(Recorded(EvaluatedAll(rows, rules[..m], e).rows, rules[m], e), EvaluatedAll(rows, rules, e).rows)
  {
    hide Recorded, Evaluated;
    if m < |rules| {
      var n := |rules| - 1;
      assert rules[..n][..m] == rules[..m];
      EvaluatedAllKeeps(rows, rules[..n], e, m);
      EvaluatedKeeps(EvaluatedAll(rows, rules[..n], e), rules[n], e);
    } else {
      assert rules[..m] == rules;
    }
  }

  lemma {:induction false} DeliverKeeps(rows: MatchTable, rules: seq<Rule>, es: seq<Event>)
    ensures SubMatches(rows, Deliver(rows, rules, es))
  {
    if es != [] {
      var n := |es| - 1;
      DeliverKeeps(rows, rules, es[..n]);
      EvaluatedAllKeeps(Deliver(rows, rules, es[..n]), rules, es[n], 0);
    }
  }

  lemma CountGrows(rows: MatchTable, rows': MatchTable, rule: Rule, e: Event)
    requires SubMatches(rows, rows')
    ensures MatchCount(rows, rule, e) <= MatchCount(rows', rule, e)
  {
    var a := RowsInWindow(rows, e.tenant, rule.ruleId, rule.keyOf(e), rule.Cutoff(e), e.timestamp);
    var b := RowsInWindow(rows', e.tenant, rule.ruleId, rule.keyOf(e), rule.Cutoff(e), e.timestamp);
    assert a <= b;
    assert b == a + (b - a);
  }

  /** An applying rule that is reached. */
  ghost predicate Reached(rows: MatchTable, rules: seq<Rule>, e: Event, m: nat)
    requires m < |rules|
  {
    Applies(rules[m], e) && !EvaluatedAll(rows, rules[..m], e).raised
  }

  /** The match count that rule `m` gets to see. */
  ghost function CountAt(rows: MatchTable, rules: seq<Rule>, e: Event, m: nat): nat
    requires m < |rules|
  {
    MatchCount(Recorded(EvaluatedAll(rows, rules[..m], e).rows, rules[m], e), rules[m], e)
  }

  /** On any table that still holds what the first pass left, every rule sees at least the count of the first
      pass, and an event that did not raise does not raise. */
  lemma CountAgain(rows: MatchTable, rules: seq<Rule>, e: Event, m: nat, between: MatchTable)
    requires m < |rules| && Reached(rows, rules, e, m) && SubMatches(EvaluatedAll(rows, rules, e).rows, between)
    ensures CountAt(rows, rules, e, m) <= CountAt(between, rules, e, m)
  {
    hide Evaluated, Recorded, MatchCount;
    var first, again := EvaluatedAll(rows, rules[..m], e).rows, EvaluatedAll(between, rules[..m], e).rows;
    EvaluatedAllKeeps(rows, rules, e, m);
    assert rules[..m][..0] == [];
    EvaluatedNone(between, e);
    EvaluatedAllKeeps(between, rules[..m], e, 0);
    RecordedHasRow(first, rules[m], e);
    RecordedAlready(again, rules[m], e);
    CountGrows(Recorded(first, rules[m], e), again, rules[m], e);
  }

  lemma RecordedAlready(rows: MatchTable, rule: Rule, e: Event)
    ensures RowKeyOf(rule, e) in rows ==> Recorded(rows, rule, e) == rows
  {}

  lemma {:induction false} DoesNotRaiseAgain(rows: MatchTable, rules: seq<Rule>, e: Event, m: nat, between: MatchTable)
    requires m <= |rules| && !EvaluatedAll(rows, rules[..m], e).raised
    requires SubMatches(EvaluatedAll(rows, rules, e).rows, between)
    ensures !EvaluatedAll(between, rules[..m], e).raised
  {
    hide Recorded, MatchCount, SubMatches;
    if m > 0 {
      assert rules[..m][..m - 1] == rules[..m - 1];
      DoesNotRaiseAgain(rows, rules, e, m - 1, between);
      if Applies(rules[m - 1], e) {
        CountAgain(rows, rules, e, m - 1, between);
      }
    }
  }

  /** With the rules fixed, a rule that an event reached is reached on every redelivery, with a match count at
      least as high, whatever was delivered in between; so a threshold that was reached is reached again. */
  lemma RedeliveryTriggersAgain(rows: MatchTable, rules: seq<Rule>, e: Event, m: nat, later: seq<Event>)
    requires m < |rules| && Reached(rows, rules, e, m)
    ensures var between := Deliver(EvaluatedAll(rows, rules, e).rows, rules, later);
      && Reached(between, rules, e, m)
      && CountAt(rows, rules, e, m) <= CountAt(between, rules, e, m)
  {
    hide EvaluatedAll, Deliver;
    var done := EvaluatedAll(rows, rules, e).rows;
    var between := Deliver(done, rules, later);
    DeliverKeeps(done, rules, later);
    DoesNotRaiseAgain(rows, rules, e, m, between);
    CountAgain(rows, rules, e, m, between);
  }

  lemma EvaluatedNone(rows: MatchTable, e: Event)
    ensures EvaluatedAll(rows, [], e) == Pass(rows, [], false)
  {}

  ghost predicate DistinctRules(rules: seq<Rule>) {
    forall i, j | 0 <= i < j < |rules| :: rules[i].ruleId != rules[j].ruleId
  }

  /** An event id names one event. */
  ghost predicate OneEventPerId(es: seq<Event>) {
    forall e, f | e in es && f in es && e.eventId == f.eventId :: e == f
  }

  /** `row` is what rule `i` records for the event `e` under `k`. */
  ghost predicate RowFor(rules: seq<Rule>, es: seq<Event>, k: RowKey, row: MatchRow, i: nat, e: Event) {
    && i < |rules| && e in es && Applies(rules[i], e) && k == RowKeyOf(rules[i], e)
    && row.correlationKey == rules[i].keyOf(e) && row.evaluatedAt == e.timestamp
  }

  ghost predicate OnlyMatches(rules: seq<Rule>, es: seq<Event>, rows: MatchTable) {
    forall k | k in rows :: exists i: nat, e :: RowFor(rules, es, k, rows[k], i, e)
  }

  ghost predicate AllMatches(rules: seq<Rule>, es: seq<Event>, rows: MatchTable) {
    forall i: nat, e | i < |rules| && e in es && Applies(rules[i], e) :: RowKeyOf(rules[i], e) in rows
  }

  lemma EvaluatedOnly(rules: seq<Rule>, es: seq<Event>, e: Event, p: Pass, n: nat)
    requires OnlyMatches(rules, es, p.rows) && e in es && n < |rules|
    ensures OnlyMatches(rules, es, Evaluated(p, rules[n], e).rows)
  {
    hide MatchCount;
    var after := Evaluated(p, rules[n], e).rows;
    forall k | k in after ensures exists i: nat, f :: RowFor(rules, es, k, after[k], i, f) {
      if k in p.rows {
        var i: nat, f :| RowFor(rules, es, k, p.rows[k], i, f);
        assert RowFor(rules, es, k, after[k], i, f);
      } else {
        assert RowFor(rules, es, k, after[k], n, e);
      }
    }
  }

  lemma {:induction false} EvaluatedAllOnly(rules: seq<Rule>, es: seq<Event>, e: Event, rows: MatchTable, m: nat)
    requires OnlyMatches(rules, es, rows) && e in es && m <= |rules|
    ensures OnlyMatches(rules, es, EvaluatedAll(rows, rules[..m], e).rows)
  {
    hide Evaluated, OnlyMatches;
    if m == 0 {
      assert rules[..0] == [];
    } else {
      EvaluatedAllOnly(rules, es, e, rows, m - 1);
      assert rules[..m][..m - 1] == rules[..m - 1];
      EvaluatedOnly(rules, es, e, EvaluatedAll(rows, rules[..m - 1], e), m - 1);
    }
  }

  lemma {:induction false} PassNeverRaises(rules: seq<Rule>, es: seq<Event>, e: Event, rows: MatchTable, m: nat)
    requires DistinctRules(rules) && OneEventPerId(es) && OnlyMatches(rules, es, rows) && e in es && m <= |rules|
    ensures !EvaluatedAll(rows, rules[..m], e).raised
  {
    hide MatchCount, Recorded;
    if m == 0 {
      assert rules[..0] == [];
    } else {
      var n := m - 1;
      PassNeverRaises(rules, es, e, rows, n);
      EvaluatedAllOnly(rules, es, e, rows, n);
      assert rules[..m][..n] == rules[..n];
      if Applies(rules[n], e) {
        OwnRowCounts(rules, es, e, EvaluatedAll(rows, rules[..n], e).rows, n);
      }
    }
  }

  lemma OwnRowCounts(rules: seq<Rule>, es: seq<Event>, e: Event, rows: MatchTable, n: nat)
    requires DistinctRules(rules) && OneEventPerId(es) && OnlyMatches(rules, es, rows) && e in es && n < |rules|
    ensures MatchCount(Recorded(rows, rules[n], e), rules[n], e) > 0
  {
    RaisesExactly(rows, rules[n], e);
    var k := RowKeyOf(rules[n], e);
    if k in rows {
      var i: nat, f :| RowFor(rules, es, k, rows[k], i, f);
      assert i == n && f == e;
    }
  }

  lemma {:induction false} DeliverOnly(rules: seq<Rule>, es: seq<Event>, all: seq<Event>)
    requires forall e | e in es :: e in all
    ensures OnlyMatches(rules, all, Deliver(map[], rules, es))
  {
    if es != [] {
      var n := |es| - 1;
      assert forall e | e in es[..n] :: e in es;
      DeliverOnly(rules, es[..n], all);
      EvaluatedAllOnly(rules, all, es[n], Deliver(map[], rules, es[..n]), |rules|);
      assert rules[..|rules|] == rules;
    }
  }

  /** While an event id names one event, no evaluation raises. */
  lemma NeverRaises(rules: seq<Rule>, es: seq<Event>, n: nat)
    requires DistinctRules(rules) && OneEventPerId(es) && n < |es|
    ensures !EvaluatedAll(Deliver(map[], rules, es[..n]), rules, es[n]).raised
  {
    DeliverOnly(rules, es[..n], es);
    PassNeverRaises(rules, es, es[n], Deliver(map[], rules, es[..n]), |rules|);
    assert rules[..|rules|] == rules;
  }

  lemma {:induction false} DeliverAll(rules: seq<Rule>, es: seq<Event>)
    requires DistinctRules(rules) && OneEventPerId(es)
    ensures AllMatches(rules, es, Deliver(map[], rules, es))
  {
    hide Recorded, Evaluated, EvaluatedAll, OnlyMatches, OneEventPerId, DistinctRules;
    if es != [] {
      var n := |es| - 1;
      var before := Deliver(map[], rules, es[..n]);
      assert OneEventPerId(es[..n]) by {
        FewerEvents(es, n);
      }
      DeliverAll(rules, es[..n]);
      DeliverOnly(rules, es[..n], es);
      forall i: nat, e | i < |rules| && e in es && Applies(rules[i], e)
        ensures RowKeyOf(rules[i], e) in Deliver(map[], rules, es)
      {
        EvaluatedAllKeeps(before, rules, es[n], 0);
        assert rules[..0] == [];
        EvaluatedNone(before, es[n]);
        if e == es[n] {
          PassNeverRaises(rules, es, e, before, i);
          EvaluatedAllKeeps(before, rules, e, i);
          RecordedHasRow(EvaluatedAll(before, rules[..i], e).rows, rules[i], e);
        } else {
          assert e in es[..n];
        }
      }
    }
  }

  lemma FewerEvents(es: seq<Event>, n: nat)
    requires n <= |es| && OneEventPerId(es)
    ensures OneEventPerId(es[..n])
  {
    assert forall e | e in es[..n] :: e in es;
  }

  lemma MatchesAgree(rules: seq<Rule>, es: seq<Event>, rows: MatchTable, rows': MatchTable)
    requires DistinctRules(rules) && OneEventPerId(es)
    requires OnlyMatches(rules, es, rows) && AllMatches(rules, es, rows') && OnlyMatches(rules, es, rows')
    ensures SubMatches(rows, rows')
  {
    forall k | k in rows ensures k in rows' && rows'[k].correlationKey == rows[k].correlationKey
      && rows'[k].evaluatedAt == rows[k].evaluatedAt
    {
      var i: nat, e :| RowFor(rules, es, k, rows[k], i, e);
      assert RowKeyOf(rules[i], e) in rows';
      var j: nat, f :| RowFor(rules, es, k, rows'[k], j, f);
      assert i == j;
    }
  }

  /** Delivering the same events in another order, with any repetitions, ends in the same matches. */
  lemma OrderAndRepetitionDoNotMatter(rules: seq<Rule>, es: seq<Event>, fs: seq<Event>)
    requires DistinctRules(rules) && OneEventPerId(es) && forall e :: e in es <==> e in fs
    ensures SameMatches(Deliver(map[], rules, es), Deliver(map[], rules, fs))
  {
    assert OneEventPerId(fs);
    DeliverOnly(rules, es, es);
    DeliverOnly(rules, fs, es);
    DeliverAll(rules, es);
    DeliverAll(rules, fs);
    MatchesAgree(rules, es, Deliver(map[], rules, es), Deliver(map[], rules, fs));
    MatchesAgree(rules, es, Deliver(map[], rules, fs), Deliver(map[], rules, es));
  }
}
