/** Rule storage of `governed_correlation.py`: one active rule per tenant and name, and an append-only
    table of immutable revisions with increasing versions. */
module RuleVersions {
  import opened Wrappers

  // ----- Versions -----

  type VersionKey = (nat, nat, nat)

  function Digits(s: string): nat {
    if s == [] then 0
    else
      var c := s[|s| - 1];
      10 * Digits(s[..|s| - 1]) + if '0' <= c <= '9' then c as nat - '0' as nat else 0
  }

  function SplitDots(s: string): (parts: seq<string>)
    ensures parts != []
  {
    if s == [] then [[]]
    else
      var rest := SplitDots(s[1..]);
      if s[0] == '.' then [[]] + rest else [[s[0]] + rest[0]] + rest[1..]
  }

  /** The numeric key of a dotted version; a missing third part counts as zero. */
  function KeyOf(version: string): VersionKey {
    var parts := SplitDots(version);
    (Digits(parts[0]), if |parts| > 1 then Digits(parts[1]) else 0, if |parts| == 3 then Digits(parts[2]) else 0)
  }

  predicate Lower(a: VersionKey, b: VersionKey) {
    a.0 < b.0 || (a.0 == b.0 && (a.1 < b.1 || (a.1 == b.1 && a.2 < b.2)))
  }

  /** The decimal numeral of `n`. */
  function Numeral(n: nat): string {
    (if n < 10 then "" else Numeral(n / 10)) + [(n % 10 + '0' as nat) as char]
  }

  /** Reading a numeral gives the number back, and leading zeros do not matter. */
  lemma {:induction false} NumeralIsRead(n: nat)
    ensures Digits(Numeral(n)) == n
  {
    var last := [(n % 10 + '0' as nat) as char];
    if n < 10 {
      assert Numeral(n) == last && last[..0] == "" && Digits("") == 0;
    } else {
      NumeralIsRead(n / 10);
      assert (Numeral(n / 10) + last)[..|Numeral(n / 10)|] == Numeral(n / 10);
    }
  }

  lemma {:induction false} LeadingZeros(zeros: string, s: string)
    requires forall i | 0 <= i < |zeros| :: zeros[i] == '0'
    ensures Digits(zeros + s) == Digits(s)
  {
    if s != [] {
      var n := |s| - 1;
      LeadingZeros(zeros, s[..n]);
      assert (zeros + s)[..|zeros + s| - 1] == zeros + s[..n];
    } else if zeros != [] {
      LeadingZeros(zeros[..|zeros| - 1], "");
      assert zeros + s == zeros && zeros[..|zeros| - 1] + "" == zeros[..|zeros| - 1];
    }
  }

  lemma {:induction false} OnePart(a: string)
    requires '.' !in a
    ensures SplitDots(a) == [a]
  {
    if a != [] {
      OnePart(a[1..]);
      assert a == [a[0]] + a[1..];
    }
  }

  lemma {:induction false} FirstPart(a: string, rest: string)
    requires '.' !in a
    ensures SplitDots(a + "." + rest) == [a] + SplitDots(rest)
  {
    var s := a + "." + rest;
    if a == [] {
      assert s[1..] == rest;
    } else {
      FirstPart(a[1..], rest);
      assert s[1..] == a[1..] + "." + rest;
      assert [s[0]] + a[1..] == a;
    }
  }

  /** A version is read as the numbers between its dots, of which the third may be missing. */
  lemma KeyOfParts(a: string, b: string, c: string)
    requires '.' !in a && '.' !in b && '.' !in c
    ensures KeyOf(a + "." + b + "." + c) == (Digits(a), Digits(b), Digits(c))
    ensures KeyOf(a + "." + b) == (Digits(a), Digits(b), 0)
  {
    hide Digits;
    assert a + "." + b + "." + c == a + "." + (b + "." + c);
    FirstPart(a, b + "." + c);
    FirstPart(b, c);
    FirstPart(a, b);
    OnePart(b);
    OnePart(c);
  }

  lemma {:induction false} NumeralHasNoDot(n: nat)
    ensures '.' !in Numeral(n)
  {
    if n >= 10 {
      NumeralHasNoDot(n / 10);
    }
  }

  /** So versions written in decimal are ordered by their numbers, not as strings. */
  lemma VersionsCompareAsNumbers(a: VersionKey, b: VersionKey, base: nat)
    requires a.0 < base && a.1 < base && a.2 < base && b.0 < base && b.1 < base && b.2 < base
    ensures Lower(KeyOf(Written(a)), KeyOf(Written(b))) <==>
      (a.0 * base + a.1) * base + a.2 < (b.0 * base + b.1) * base + b.2
  {
    hide KeyOf, Digits, Numeral;
    WrittenIsRead(a);
    WrittenIsRead(b);
    PlaceValue(a.0, a.1, b.0, b.1, base);
    PlaceValue(a.0 * base + a.1, a.2, b.0 * base + b.1, b.2, base);
  }

  function Written(key: VersionKey): string {
    Numeral(key.0) + "." + Numeral(key.1) + "." + Numeral(key.2)
  }

  lemma WrittenIsRead(key: VersionKey)
    ensures KeyOf(Written(key)) == key
  {
    hide KeyOf, Digits, Numeral;
    NumeralHasNoDot(key.0);
    NumeralHasNoDot(key.1);
    NumeralHasNoDot(key.2);
    KeyOfParts(Numeral(key.0), Numeral(key.1), Numeral(key.2));
    NumeralIsRead(key.0);
    NumeralIsRead(key.1);
    NumeralIsRead(key.2);
  }

  /** The higher digit decides. */
  lemma PlaceValue(x: nat, i: nat, y: nat, j: nat, base: nat)
    requires i < base && j < base
    ensures x * base + i < y * base + j <==> x < y || (x == y && i < j)
    ensures x * base + i == y * base + j <==> x == y && i == j
  {
    if x < y {
      assert (x + 1) * base <= y * base;
    } else if y < x {
      assert (y + 1) * base <= x * base;
    }
  }

  // ----- Rules and revisions -----

  const CONTRACT_VERSION := "1.0.0"

  /** A rule contract. The active row has columns for the definition but not for the last two fields. */
  datatype Rule = Rule(tenant: string, name: string, ruleId: string, version: string, definition: string,
                       schemaVersion: string, automaticEnforcement: bool)
  datatype Revision = Revision(rule: Rule, fingerprint: string)
  datatype Store = Store(active: map<(string, string), Rule>, revisions: seq<Revision>)
  datatype UpsertFailure = VersionDecreased | ChangeNeedsHigherVersion | VersionIsImmutable | UniquenessViolation

  /** The digest of a whole contract, and what the columns give back for a definition written to them. */
  datatype Encoding = Encoding(fingerprint: Rule -> string, readBack: string -> string)

  /** The contract an upsert answers with: the fields without a column have their defaults. */
  function Answer(rule: Rule): Rule {
    rule.(schemaVersion := CONTRACT_VERSION, automaticEnforcement := false)
  }

  /** The contract that reading the active row of `rule` gives. */
  function AsStored(enc: Encoding, rule: Rule): Rule {
    Answer(rule).(definition := enc.readBack(rule.definition))
  }

  /** The active row can express `rule`. */
  ghost predicate Storable(enc: Encoding, rule: Rule) {
    rule.schemaVersion == CONTRACT_VERSION && !rule.automaticEnforcement
    && enc.readBack(rule.definition) == rule.definition
  }

  /** The revision row of a contract covers all of it. */
  function RevisionOf(enc: Encoding, rule: Rule): Revision {
    Revision(rule, enc.fingerprint(rule))
  }

  predicate SameRevision(a: Rule, b: Rule) {
    a.tenant == b.tenant && a.ruleId == b.ruleId && a.version == b.version
  }

  predicate Recorded(revisions: seq<Revision>, rule: Rule) {
    exists i | 0 <= i < |revisions| :: SameRevision(revisions[i].rule, rule)
  }

  predicate RuleIdTaken(active: map<(string, string), Rule>, ruleId: string) {
    exists k | k in active :: active[k].ruleId == ruleId
  }

  /** The repository's `upsert` as one atomic step. */
  function Upserted(enc: Encoding, s: Store, rule: Rule): (Result<Rule, UpsertFailure>, Store) {
    var key := (rule.tenant, rule.name);
    if key !in s.active then
      if RuleIdTaken(s.active, rule.ruleId) || Recorded(s.revisions, rule) then (Err(UniquenessViolation), s)
      else (Ok(Answer(rule)), Store(s.active[key := AsStored(enc, rule)], s.revisions + [RevisionOf(enc, rule)]))
    else
      var current := s.active[key];
      var stored := rule.(ruleId := current.ruleId);
      if Lower(KeyOf(stored.version), KeyOf(current.version)) then (Err(VersionDecreased), s)
      else if KeyOf(stored.version) == KeyOf(current.version) then
        if enc.fingerprint(stored) != enc.fingerprint(current) then (Err(ChangeNeedsHigherVersion), s)
        else if Recorded(s.revisions, stored) then (Ok(current), s)
        else if Recorded(s.revisions, current) then (Err(UniquenessViolation), s)
        else (Ok(current), s.(revisions := s.revisions + [RevisionOf(enc, current)]))
      else if Recorded(s.revisions, stored) then
        if exists i | 0 <= i < |s.revisions| ::
          SameRevision(s.revisions[i].rule, stored) && s.revisions[i].fingerprint != enc.fingerprint(stored)
        then (Err(VersionIsImmutable), s)
        else (Ok(current), s)
      else (Ok(Answer(stored)), Store(s.active[key := AsStored(enc, stored)], s.revisions + [RevisionOf(enc, stored)]))
  }

  class GovernedRuleRepository {
    const enc: Encoding
    var active: map<(string, string), Rule>
    var revisions: seq<Revision>

    function State(): Store
      reads this
    {
      Store(active, revisions)
    }

    /** The table's own constraint: one revision per rule and version. */
    ghost predicate Valid()
      reads this
    {
      forall i, j | 0 <= i < j < |revisions| :: !SameRevision(revisions[i].rule, revisions[j].rule)
    }

    constructor (enc: Encoding)
      ensures Valid() && this.enc == enc && State() == Store(map[], [])
    {
      this.enc, active, revisions := enc, map[], [];
    }

    method FindRevision(rule: Rule) returns (found: Option<Revision>)
      ensures found.Some? <==> Recorded(revisions, rule)
      ensures found.Some? ==> found.value in revisions && SameRevision(found.value.rule, rule)
    {
      for i := 0 to |revisions|
        invariant !Recorded(revisions[..i], rule)
      {
        var r := revisions[i].rule;
        if r.tenant == rule.tenant && r.ruleId == rule.ruleId && r.version == rule.version {
          return Some(revisions[i]);
        }
      }
      assert revisions[..|revisions|] == revisions;
      found := None;
    }

    method Upsert(rule: Rule) returns (result: Result<Rule, UpsertFailure>)
      requires Valid()
      modifies this
      ensures Valid()
      ensures (result, State()) == Upserted(enc, old(State()), rule)
    {
      var key := (rule.tenant, rule.name);
      if key !in active {
        var taken := FindRevision(rule);
        if taken.Some? || exists k | k in active :: active[k].ruleId == rule.ruleId {
          return Err(UniquenessViolation);
        }
        active := active[key := AsStored(enc, rule)];
        revisions := revisions + [RevisionOf(enc, rule)];
        return Ok(Answer(rule));
      }
      var current := active[key];
      var stored := rule.(ruleId := current.ruleId);
      var candidate := enc.fingerprint(stored);
      var existing := FindRevision(stored);
      if Lower(KeyOf(stored.version), KeyOf(current.version)) {
        return Err(VersionDecreased);
      }
      if KeyOf(stored.version) == KeyOf(current.version) {
        if candidate != enc.fingerprint(current) {
          return Err(ChangeNeedsHigherVersion);
        }
        if existing.None? {
          var duplicate := FindRevision(current);
          if duplicate.Some? {
            return Err(UniquenessViolation);
          }
          revisions := revisions + [RevisionOf(enc, current)];
        }
        return Ok(current);
      }
      if existing.Some? {
        if existing.value.fingerprint != candidate {
          return Err(VersionIsImmutable);
        }
        return Ok(current);
      }
      active := active[key := AsStored(enc, stored)];
      revisions := revisions + [Revision(stored, candidate)];
      result := Ok(Answer(stored));
    }
  }

  // ----- What every run of upserts keeps -----

  ghost predicate SameRule(a: Rule, b: Rule) {
    a.tenant == b.tenant && a.ruleId == b.ruleId
  }

  /** Versions of one rule strictly increase in the order they were recorded. */
  ghost predicate Increasing(revisions: seq<Revision>) {
    forall i, j | 0 <= i < j < |revisions| && SameRule(revisions[i].rule, revisions[j].rule) ::
      Lower(KeyOf(revisions[i].rule.version), KeyOf(revisions[j].rule.version))
  }

  /** `rule` is what the active row makes of the newest revision of its rule. */
  ghost predicate NewestIs(enc: Encoding, revisions: seq<Revision>, rule: Rule) {
    exists i :: 0 <= i < |revisions| && AsStored(enc, revisions[i].rule) == rule
      && forall j | i < j < |revisions| :: !SameRule(revisions[j].rule, rule)
  }

  ghost predicate Consistent(enc: Encoding, s: Store) {
    && (forall k | k in s.active :: (s.active[k].tenant, s.active[k].name) == k)
    && (forall k, l | k in s.active && l in s.active && s.active[k].ruleId == s.active[l].ruleId :: k == l)
    && (forall i | 0 <= i < |s.revisions| :: s.revisions[i].fingerprint == enc.fingerprint(s.revisions[i].rule))
    && (forall i | 0 <= i < |s.revisions| :: RuleIdTaken(s.active, s.revisions[i].rule.ruleId))
    && Increasing(s.revisions)
    && (forall k | k in s.active :: NewestIs(enc, s.revisions, s.active[k]))
  }

  /** Fingerprints tell definitions apart. */
  ghost predicate CollisionFree(enc: Encoding) {
    forall a: Rule, b: Rule {:trigger enc.fingerprint(a), enc.fingerprint(b)} ::
      enc.fingerprint(a) == enc.fingerprint(b) ==> a == b
  }

  lemma NewestAt(enc: Encoding, s: Store, k: (string, string)) returns (i: nat)
    requires Consistent(enc, s) && k in s.active
    ensures i < |s.revisions| && SameRevision(s.revisions[i].rule, s.active[k])
    ensures AsStored(enc, s.revisions[i].rule) == s.active[k]
    ensures forall j | i < j < |s.revisions| :: !SameRule(s.revisions[j].rule, s.active[k])
  {
    hide KeyOf, SplitDots, Digits, Lower, Increasing, RuleIdTaken;
    i :| 0 <= i < |s.revisions| && AsStored(enc, s.revisions[i].rule) == s.active[k]
      && forall j | i < j < |s.revisions| :: !SameRule(s.revisions[j].rule, s.active[k]);
  }

  /** No revision of the active rule has a higher key than the active version. */
  lemma NewestIsHighest(enc: Encoding, s: Store, k: (string, string), j: nat)
    requires Consistent(enc, s) && k in s.active && j < |s.revisions| && SameRule(s.revisions[j].rule, s.active[k])
    ensures var key := KeyOf(s.revisions[j].rule.version);
      key == KeyOf(s.active[k].version) || Lower(key, KeyOf(s.active[k].version))
  {
    hide KeyOf, SplitDots, Digits, Lower, RuleIdTaken, AsStored, NewestIs;
    var i := NewestAt(enc, s, k);
    if j < i {
      assert SameRule(s.revisions[j].rule, s.revisions[i].rule);
    }
  }

  lemma NoLaterRevision(enc: Encoding, s: Store, k: (string, string), rule: Rule)
    requires Consistent(enc, s) && k in s.active && rule.tenant == k.0 && rule.ruleId == s.active[k].ruleId
    requires Lower(KeyOf(s.active[k].version), KeyOf(rule.version))
    ensures !Recorded(s.revisions, rule)
  {
    hide KeyOf, SplitDots, Digits, Increasing, NewestIs, RuleIdTaken;
    forall j | 0 <= j < |s.revisions| ensures !SameRevision(s.revisions[j].rule, rule) {
      if SameRevision(s.revisions[j].rule, rule) {
        NewestIsHighest(enc, s, k, j);
      }
    }
  }

  lemma AppendKeepsNewest(enc: Encoding, revisions: seq<Revision>, r: Revision, rule: Rule)
    requires NewestIs(enc, revisions, rule) && !SameRule(r.rule, rule)
    ensures NewestIs(enc, revisions + [r], rule)
  {
    hide AsStored;
    var i :| 0 <= i < |revisions| && AsStored(enc, revisions[i].rule) == rule
      && forall j | i < j < |revisions| :: !SameRule(revisions[j].rule, rule);
    assert AsStored(enc, (revisions + [r])[i].rule) == rule;
  }

  lemma AppendIsNewest(enc: Encoding, revisions: seq<Revision>, r: Revision)
    ensures NewestIs(enc, revisions + [r], AsStored(enc, r.rule))
  {
    hide AsStored;
    assert AsStored(enc, (revisions + [r])[|revisions|].rule) == AsStored(enc, r.rule);
  }

  lemma CreatedIsLone(enc: Encoding, s: Store, rule: Rule)
    requires Consistent(enc, s) && !RuleIdTaken(s.active, rule.ruleId)
    ensures Increasing(s.revisions + [RevisionOf(enc, rule)])
    ensures forall k | k in s.active :: NewestIs(enc, s.revisions + [RevisionOf(enc, rule)], s.active[k])
  {
    hide KeyOf, SplitDots, Digits, Lower;
    forall j | 0 <= j < |s.revisions| ensures !SameRule(s.revisions[j].rule, rule) {
      assert RuleIdTaken(s.active, s.revisions[j].rule.ruleId);
    }
    forall k | k in s.active ensures NewestIs(enc, s.revisions + [RevisionOf(enc, rule)], s.active[k]) {
      AppendKeepsNewest(enc, s.revisions, RevisionOf(enc, rule), s.active[k]);
    }
  }

  lemma CreateKeeps(enc: Encoding, s: Store, rule: Rule)
    requires Consistent(enc, s) && (rule.tenant, rule.name) !in s.active && !RuleIdTaken(s.active, rule.ruleId)
    ensures Consistent(enc, Store(s.active[(rule.tenant, rule.name) := AsStored(enc, rule)],
                                  s.revisions + [RevisionOf(enc, rule)]))
  {
    hide KeyOf, SplitDots, Digits, Lower, Increasing, NewestIs;
    var r := RevisionOf(enc, rule);
    var next := Store(s.active[(rule.tenant, rule.name) := AsStored(enc, rule)], s.revisions + [r]);
    CreatedIsLone(enc, s, rule);
    AppendIsNewest(enc, s.revisions, r);
    TakenKept(s, next);
    assert next.active[(rule.tenant, rule.name)].ruleId == rule.ruleId;
  }

  lemma TakenKept(s: Store, next: Store)
    requires forall k | k in s.active :: k in next.active && next.active[k].ruleId == s.active[k].ruleId
    ensures forall id: string | RuleIdTaken(s.active, id) :: RuleIdTaken(next.active, id)
  {
    forall id: string | RuleIdTaken(s.active, id) ensures RuleIdTaken(next.active, id) {
      var k :| k in s.active && s.active[k].ruleId == id;
      assert next.active[k].ruleId == id;
    }
  }

  lemma RaisedIsHighest(enc: Encoding, s: Store, k: (string, string), stored: Rule)
    requires Consistent(enc, s) && k in s.active && (stored.tenant, stored.name) == k
    requires stored.ruleId == s.active[k].ruleId && Lower(KeyOf(s.active[k].version), KeyOf(stored.version))
    ensures Increasing(s.revisions + [RevisionOf(enc, stored)])
  {
    hide KeyOf, SplitDots, Digits, NewestIs, RuleIdTaken;
    forall j | 0 <= j < |s.revisions| && SameRule(s.revisions[j].rule, stored)
      ensures Lower(KeyOf(s.revisions[j].rule.version), KeyOf(stored.version))
    {
      NewestIsHighest(enc, s, k, j);
    }
  }

  lemma OthersStayNewest(enc: Encoding, s: Store, k: (string, string), stored: Rule, l: (string, string))
    requires Consistent(enc, s) && k in s.active && l in s.active && l != k
    requires stored.ruleId == s.active[k].ruleId
    ensures NewestIs(enc, s.revisions + [RevisionOf(enc, stored)], s.active[l])
  {
    hide KeyOf, SplitDots, Digits, Lower, Increasing;
    AppendKeepsNewest(enc, s.revisions, RevisionOf(enc, stored), s.active[l]);
  }

  lemma RaiseKeeps(enc: Encoding, s: Store, k: (string, string), stored: Rule)
    requires Consistent(enc, s) && k in s.active && (stored.tenant, stored.name) == k
    requires stored.ruleId == s.active[k].ruleId && Lower(KeyOf(s.active[k].version), KeyOf(stored.version))
    ensures Consistent(enc, Store(s.active[k := AsStored(enc, stored)], s.revisions + [RevisionOf(enc, stored)]))
  {
    hide KeyOf, SplitDots, Digits, Lower, Increasing, NewestIs;
    var r := RevisionOf(enc, stored);
    var next := Store(s.active[k := AsStored(enc, stored)], s.revisions + [r]);
    RaisedIsHighest(enc, s, k, stored);
    AppendIsNewest(enc, s.revisions, r);
    forall l | l in s.active && l != k ensures NewestIs(enc, next.revisions, s.active[l]) {
      OthersStayNewest(enc, s, k, stored, l);
    }
    TakenKept(s, next);
    assert next.active[k].ruleId == stored.ruleId;
  }

  /** One upsert: invariants kept, revisions only appended, and each outcome has exactly its cause.
      In particular a rejected or repeated rule changes nothing, an accepted new version is strictly
      higher, and a higher version is never already recorded. */
  lemma UpsertStep(enc: Encoding, s: Store, rule: Rule)
    requires Consistent(enc, s)
    ensures var (result, next) := Upserted(enc, s, rule);
      var key := (rule.tenant, rule.name);
      && Consistent(enc, next)
      && s.revisions <= next.revisions
      && (result.Err? ==> next == s && result.failure != VersionIsImmutable)
      && (next != s ==> (
            && result.Ok? && key in next.active && AsStored(enc, result.value) == next.active[key]
            && |next.revisions| == |s.revisions| + 1))
      && (next != s && key in s.active && result.Ok? ==>
            Lower(KeyOf(s.active[key].version), KeyOf(result.value.version)))
      && (key in s.active && Lower(KeyOf(s.active[key].version), KeyOf(rule.version)) ==> next != s)
  {
    hide KeyOf, SplitDots, Digits, Increasing, NewestIs;
    var key := (rule.tenant, rule.name);
    if key !in s.active {
      if !(RuleIdTaken(s.active, rule.ruleId) || Recorded(s.revisions, rule)) {
        CreateKeeps(enc, s, rule);
      }
    } else {
      var current := s.active[key];
      var stored := rule.(ruleId := current.ruleId);
      assert Recorded(s.revisions, current) by {
        var i := NewestAt(enc, s, key);
      }
      if Lower(KeyOf(current.version), KeyOf(stored.version)) {
        NoLaterRevision(enc, s, key, stored);
        RaiseKeeps(enc, s, key, stored);
      }
    }
  }

  /** Without collisions, resubmitting at an equal version key succeeds exactly for the contract that the
      active row reads back as: "1.0" and "1.0.0" tie, so exchanging them is refused. */
  lemma EqualVersionExact(enc: Encoding, s: Store, rule: Rule)
    requires Consistent(enc, s) && CollisionFree(enc) && (rule.tenant, rule.name) in s.active
    requires KeyOf(rule.version) == KeyOf(s.active[(rule.tenant, rule.name)].version)
    ensures var current := s.active[(rule.tenant, rule.name)];
      Upserted(enc, s, rule) == if rule.(ruleId := current.ruleId) == current then (Ok(current), s)
                               else (Err(ChangeNeedsHigherVersion), s)
  {
    hide KeyOf, SplitDots, Digits, Increasing, NewestIs, RuleIdTaken;
    var i := NewestAt(enc, s, (rule.tenant, rule.name));
  }

  /** The newest revision shows the active rule exactly when the active row can express it. */
  lemma NewestRevisionExact(enc: Encoding, s: Store, key: (string, string), i: nat)
    requires Consistent(enc, s) && key in s.active && i < |s.revisions|
    requires SameRule(s.revisions[i].rule, s.active[key])
    requires forall j | i < j < |s.revisions| :: !SameRule(s.revisions[j].rule, s.active[key])
    ensures s.revisions[i].rule == s.active[key] <==> Storable(enc, s.revisions[i].rule)
  {
    hide KeyOf, SplitDots, Digits, Lower, Increasing, RuleIdTaken;
    var n := NewestAt(enc, s, key);
    assert n == i;
  }

  /** Repeating a submission that was just taken up is a no-op exactly when the active row can express
      it; otherwise the same contract is refused as changed, and its stored form is accepted instead. */
  lemma RepeatExact(enc: Encoding, s: Store, rule: Rule)
    requires Consistent(enc, s) && CollisionFree(enc) && Upserted(enc, s, rule).1 != s
    ensures var next := Upserted(enc, s, rule).1;
      var key := (rule.tenant, rule.name);
      && key in next.active
      && Upserted(enc, next, rule) == (if Storable(enc, rule) then Ok(next.active[key])
                                       else Err(ChangeNeedsHigherVersion), next)
      && Upserted(enc, next, next.active[key]) == (Ok(next.active[key]), next)
  {
    var key := (rule.tenant, rule.name);
    var next := Upserted(enc, s, rule).1;
    UpsertStep(enc, s, rule);
    TakenUpAsStored(enc, s, rule);
    EqualVersionExact(enc, next, rule);
    EqualVersionExact(enc, next, next.active[key]);
  }

  lemma TakenUpAsStored(enc: Encoding, s: Store, rule: Rule)
    requires Consistent(enc, s) && Upserted(enc, s, rule).1 != s
    ensures var key := (rule.tenant, rule.name);
      var next := Upserted(enc, s, rule).1;
      key in next.active && AsStored(enc, rule.(ruleId := next.active[key].ruleId)) == next.active[key]
  {
    hide KeyOf, SplitDots, Digits, Lower, Increasing, NewestIs;
    var key := (rule.tenant, rule.name);
    if key in s.active {
      var current := s.active[key];
      var i := NewestAt(enc, s, key);
    }
  }

  /** A rule posted twice with automatic enforcement demanded: first accepted, then refused as changed,
      while the different contract that does not demand it is accepted at that version. The revision goes
      on showing the demand. */
  lemma RepeatIsRefused(enc: Encoding)
    requires CollisionFree(enc)
    ensures var rule := Rule("t", "n", "r", "1.0", "d", CONTRACT_VERSION, true);
      var first := Upserted(enc, Store(map[], []), rule);
      && first.0 == Ok(rule.(automaticEnforcement := false))
      && Upserted(enc, first.1, rule) == (Err(ChangeNeedsHigherVersion), first.1)
      && (enc.readBack("d") == "d" ==>
            Upserted(enc, first.1, rule.(automaticEnforcement := false)) == (first.0, first.1))
      && |first.1.revisions| == 1 && first.1.revisions[0].rule == rule
  {
    hide KeyOf, SplitDots, Digits;
    var rule := Rule("t", "n", "r", "1.0", "d", CONTRACT_VERSION, true);
    RunConsistent(enc, []);
    RepeatExact(enc, Store(map[], []), rule);
  }

  /** A two-part version ties with its three-part form, whatever the numbers. */
  lemma ShortAndLongVersionsTie(a: nat, b: nat)
    ensures KeyOf(Numeral(a) + "." + Numeral(b)) == KeyOf(Written((a, b, 0))) == (a, b, 0)
  {
    hide KeyOf, Digits, Numeral;
    WrittenIsRead((a, b, 0));
    NumeralHasNoDot(a);
    NumeralHasNoDot(b);
    KeyOfParts(Numeral(a), Numeral(b), "0");
    NumeralIsRead(a);
    NumeralIsRead(b);
  }

  // ----- Runs -----

  function Run(enc: Encoding, rules: seq<Rule>): Store {
    if rules == [] then Store(map[], [])
    else Upserted(enc, Run(enc, rules[..|rules| - 1]), rules[|rules| - 1]).1
  }

  /** From an empty store, any sequence of upserts keeps the store consistent. */
  lemma {:induction false} RunConsistent(enc: Encoding, rules: seq<Rule>)
    ensures Consistent(enc, Run(enc, rules))
  {
    if rules != [] {
      RunConsistent(enc, rules[..|rules| - 1]);
      UpsertStep(enc, Run(enc, rules[..|rules| - 1]), rules[|rules| - 1]);
    }
  }

  /** History is append-only: whatever was recorded after `n` upserts is still there, unchanged. */
  lemma {:induction false} HistoryIsImmutable(enc: Encoding, rules: seq<Rule>, n: nat)
    requires n <= |rules|
    ensures Run(enc, rules[..n]).revisions <= Run(enc, rules).revisions
  {
    if n < |rules| {
      var before := rules[..|rules| - 1];
      HistoryIsImmutable(enc, before, n);
      assert before[..n] == rules[..n];
      RunConsistent(enc, before);
      UpsertStep(enc, Run(enc, before), rules[|rules| - 1]);
    } else {
      assert rules[..n] == rules;
    }
  }

  /** A rule version is recorded at most once in a run, so it keeps one definition forever. */
  lemma OneDefinitionPerVersion(enc: Encoding, rules: seq<Rule>, i: nat, j: nat)
    requires i < |Run(enc, rules).revisions| && j < |Run(enc, rules).revisions|
    requires SameRevision(Run(enc, rules).revisions[i].rule, Run(enc, rules).revisions[j].rule)
    ensures i == j
  {
    RunConsistent(enc, rules);
  }
}
