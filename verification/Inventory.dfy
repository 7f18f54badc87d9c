/** The endpoint inventory: assets are overwritten by every report, integrity evidence keeps its first
    report, and a Wazuh alert writes one of each (`repository.py`, `ingestion.py`, `wazuh_adapter.py`). */
module Inventory {
  import opened Wrappers

  type AssetKey = (string, string)
  type ObservationKey = (string, string, string)

  /** `fields` stands for the descriptive columns, which are copied unchanged. */
  datatype Asset = Asset(tenant: string, agent: string, fields: string, lastSeen: int)
  datatype Observation = Observation(tenant: string, agent: string, source: string, eventId: string, fields: string,
    observedAt: int)

  datatype AssetRow = AssetRow(id: string, asset: Asset)
  datatype ObservationRow = ObservationRow(id: string, assetId: string, observation: Observation)

  datatype Store = Store(assets: map<AssetKey, AssetRow>, observations: map<ObservationKey, ObservationRow>)

  datatype Failure = UnknownAsset

  function KeyOf(a: Asset): AssetKey {
    (a.tenant, a.agent)
  }

  function ObservationKeyOf(o: Observation): ObservationKey {
    (o.tenant, o.source, o.eventId)
  }

  // ----- Repository -----

  function Upserted(s: Store, a: Asset, freshId: string): (AssetRow, Store) {
    var row := AssetRow(if KeyOf(a) in s.assets then s.assets[KeyOf(a)].id else freshId, a);
    (row, s.(assets := s.assets[KeyOf(a) := row]))
  }

  predicate Owned(s: Store, tenant: string, assetId: string) {
    exists k | k in s.assets :: k.0 == tenant && s.assets[k].id == assetId
  }

  function Persisted(s: Store, o: Observation, assetId: string,
        freshId: string): (Result<ObservationRow, Failure>, Store) {
    var k := ObservationKeyOf(o);
    if !Owned(s, o.tenant, assetId) then (Err(UnknownAsset), s)
    else if k in s.observations then (Ok(s.observations[k]), s)
    else
      var row := ObservationRow(freshId, assetId, o);
      (Ok(row), s.(observations := s.observations[k := row]))
  }

  class EndpointInventoryRepository {
    var assets: map<AssetKey, AssetRow>
    var observations: map<ObservationKey, ObservationRow>

    constructor ()
      ensures State() == Store(map[], map[])
    {
      assets, observations := map[], map[];
    }

    function State(): Store
      reads this
    {
      Store(assets, observations)
    }

    method UpsertAsset(a: Asset, freshId: string) returns (row: AssetRow, created: bool)
      modifies this
      ensures (row, State()) == Upserted(old(State()), a, freshId)
      ensures |assets| == |old(assets)| + if created then 1 else 0
    {
      var k := (a.tenant, a.agent);
      if k !in assets {
        row, created := AssetRow(freshId, a), true;
      } else {
        row, created := assets[k].(asset := a), false;
      }
      CountInsert(assets, k, row);
      assets := assets[k := row];
    }

    method PersistIntegrity(o: Observation, assetId: string,
          freshId: string) returns (result: Result<ObservationRow, Failure>, created: bool)
      modifies this
      ensures (result, State()) == Persisted(old(State()), o, assetId, freshId)
      ensures |observations| == |old(observations)| + if created then 1 else 0
    {
      if forall k | k in assets :: k.0 != o.tenant || assets[k].id != assetId {
        return Err(UnknownAsset), false;
      }
      var k := (o.tenant, o.source, o.eventId);
      if k in observations {
        return Ok(observations[k]), false;
      }
      var row := ObservationRow(freshId, assetId, o);
      CountInsert(observations, k, row);
      observations := observations[k := row];
      result, created := Ok(row), true;
    }
  }

  lemma CountInsert<K, V>(m: map<K, V>, k: K, v: V)
    ensures |m[k := v]| == |m| + if k in m then 0 else 1
  {
    assert m[k := v].Keys == m.Keys + {k};
  }

  // ----- Normalising a Wazuh alert -----

  /** `timestamp` is the parsed timestamp of the alert, if it has a readable one; `syscheck` its integrity part. */
  datatype Alert = Alert(agent: string, timestamp: Option<int>, id: Option<string>, assetFields: string,
    syscheck: Option<string>)

  /** The event id an alert without one is given: agent and timestamp. */
  type FallbackId = (string, int) -> string

  function Timestamp(alert: Alert, clock: int): int {
    if alert.timestamp.Some? then alert.timestamp.value else clock
  }

  function AssetOf(tenant: string, alert: Alert, clock: int): Asset {
    Asset(tenant, alert.agent, alert.assetFields, Timestamp(alert, clock))
  }

  function EventId(fallback: FallbackId, alert: Alert, clock: int): string {
    if alert.id.Some? then alert.id.value else fallback(alert.agent, Timestamp(alert, clock))
  }

  function ObservationOf(fallback: FallbackId, tenant: string, alert: Alert, clock: int): Observation
    requires alert.syscheck.Some?
  {
    Observation(tenant, alert.agent, "wazuh", EventId(fallback, alert, clock), alert.syscheck.value,
                Timestamp(alert, clock))
  }

  /** The committed writes of one alert, in order. */
  datatype Write = AssetWrite(asset: Asset) | ObservationWrite(observation: Observation)

  function WritesOf(fallback: FallbackId, tenant: string, alert: Alert, clock: int): (r: seq<Write>) {
    [AssetWrite(AssetOf(tenant, alert, clock))]
    + if alert.syscheck.Some? then [ObservationWrite(ObservationOf(fallback, tenant, alert, clock))] else []
  }

  /** Normalising does not depend on the clock exactly when the alert has a readable timestamp; an event
      id of its own is not needed. */
  lemma ClockFreeExactly(fallback: FallbackId, tenant: string, alert: Alert)
    ensures (forall c, d :: WritesOf(fallback, tenant, alert, c) == WritesOf(fallback, tenant, alert, d))
      <==> alert.timestamp.Some?
  {
    if alert.timestamp.None? {
      assert WritesOf(fallback, tenant, alert, 0)[0].asset.lastSeen == 0;
      assert WritesOf(fallback, tenant, alert, 1)[0].asset.lastSeen == 1;
    }
  }

  // ----- Effect of a sequence of writes -----

  function Written(s: Store, w: Write, freshId: string): Store {
    match w
    case AssetWrite(a) => Upserted(s, a, freshId).1
    case ObservationWrite(o) =>
      if (o.tenant, o.agent) in s.assets then Persisted(s, o, s.assets[(o.tenant, o.agent)].id, freshId).1 else s
  }

  /** `ids` are the generated row ids, one per write. */
  function WrittenAll(s: Store, writes: seq<Write>, ids: seq<string>): Store
    requires |ids| == |writes|
  {
    if writes == [] then s
    else Written(WrittenAll(s, writes[..|writes| - 1], ids[..|ids| - 1]), writes[|writes| - 1], ids[|ids| - 1])
  }

  lemma {:induction false} WrittenTwice(s: Store, a: seq<Write>, aIds: seq<string>, b: seq<Write>, bIds: seq<string>)
    requires |aIds| == |a| && |bIds| == |b|
    ensures WrittenAll(s, a + b, aIds + bIds) == WrittenAll(WrittenAll(s, a, aIds), b, bIds)
  {
    if b == [] {
      assert a + b == a && aIds + bIds == aIds;
    } else {
      WrittenTwice(s, a, aIds, b[..|b| - 1], bIds[..|b| - 1]);
      assert (a + b)[..|a + b| - 1] == a + b[..|b| - 1] && (aIds + bIds)[..|a + b| - 1] == aIds + bIds[..|b| - 1];
    }
  }

  /** An alert's observation always follows its asset, so its asset is known when it is stored. */
  predicate AssetsFirst(writes: seq<Write>) {
    forall i | 0 <= i < |writes| && writes[i].ObservationWrite? ::
      i > 0 && writes[i - 1].AssetWrite? && writes[i - 1].asset.tenant == writes[i].observation.tenant
      && writes[i - 1].asset.agent == writes[i].observation.agent
  }

  /** Rows sit under their own keys, and every observation refers to the asset of its tenant and agent. */
  ghost predicate Sound(s: Store) {
    && (forall k | k in s.assets :: KeyOf(s.assets[k].asset) == k)
    && (forall k | k in s.observations :: ObservationKeyOf(s.observations[k].observation) == k)
    && (forall k | k in s.observations ::
          var o := s.observations[k].observation;
          (o.tenant, o.agent) in s.assets && s.observations[k].assetId == s.assets[(o.tenant, o.agent)].id)
  }

  /** What the tables say once generated ids are forgotten; by `Sound` nothing else is lost. */
  datatype Content = Content(assets: map<AssetKey, Asset>, observations: map<ObservationKey, Observation>)

  function Forget(s: Store): Content {
    Content(map k | k in s.assets :: s.assets[k].asset, map k | k in s.observations :: s.observations[k].observation)
  }

  function LastReports(writes: seq<Write>): map<AssetKey, Asset> {
    if writes == [] then map[]
    else
      var before, w := LastReports(writes[..|writes| - 1]), writes[|writes| - 1];
      if w.AssetWrite? then before[KeyOf(w.asset) := w.asset] else before
  }

  function FirstReports(writes: seq<Write>): map<ObservationKey, Observation> {
    if writes == [] then map[]
    else
      var before, w := FirstReports(writes[..|writes| - 1]), writes[|writes| - 1];
      if w.ObservationWrite? && ObservationKeyOf(w.observation) !in before
      then before[ObservationKeyOf(w.observation) := w.observation] else before
  }

  function ContentAfter(c: Content, w: Write): Content {
    match w
    case AssetWrite(a) => c.(assets := c.assets[KeyOf(a) := a])
    case ObservationWrite(o) =>
      if ObservationKeyOf(o) in c.observations then c else c.(observations := c.observations[ObservationKeyOf(o) := o])
  }

  lemma AssetWriteSound(s: Store, a: Asset, id: string)
    requires Sound(s)
    ensures Sound(Upserted(s, a, id).1) && Forget(Upserted(s, a, id).1) == ContentAfter(Forget(s), AssetWrite(a))
  {
    var t := Upserted(s, a, id).1;
    assert Forget(t).assets == ContentAfter(Forget(s), AssetWrite(a)).assets;
  }

  lemma ObservationWriteSound(s: Store, o: Observation, id: string)
    requires Sound(s) && (o.tenant, o.agent) in s.assets
    ensures var t := Persisted(s, o, s.assets[(o.tenant, o.agent)].id, id);
      t.0.Ok? && Sound(t.1) && Forget(t.1) == ContentAfter(Forget(s), ObservationWrite(o))
  {
    assert Owned(s, o.tenant, s.assets[(o.tenant, o.agent)].id);
    var t := Persisted(s, o, s.assets[(o.tenant, o.agent)].id, id).1;
    assert Forget(t).observations == ContentAfter(Forget(s), ObservationWrite(o)).observations;
  }

  lemma WriteSound(s: Store, w: Write, id: string)
    requires Sound(s) && (w.ObservationWrite? ==> (w.observation.tenant, w.observation.agent) in s.assets)
    ensures Sound(Written(s, w, id)) && Forget(Written(s, w, id)) == ContentAfter(Forget(s), w)
  {
    hide Sound, Forget, Upserted, Persisted, ContentAfter;
    match w
    case AssetWrite(a) => AssetWriteSound(s, a, id);
    case ObservationWrite(o) => ObservationWriteSound(s, o, id);
  }

  function Summary(c: Content, writes: seq<Write>): Content {
    Content(c.assets + LastReports(writes), FirstReports(writes) + c.observations)
  }

  lemma SummaryOneMore(c: Content, writes: seq<Write>)
    requires writes != []
    ensures Summary(c, writes) == ContentAfter(Summary(c, writes[..|writes| - 1]), writes[|writes| - 1])
  {
    var before, w := writes[..|writes| - 1], writes[|writes| - 1];
    var first := FirstReports(before);
    if w.AssetWrite? {
      assert LastReports(writes) == LastReports(before)[KeyOf(w.asset) := w.asset];
      assert (c.assets + LastReports(before))[KeyOf(w.asset) := w.asset] == c.assets + LastReports(writes);
    } else {
      assert ContentAfter(Summary(c, before), w).observations == FirstReports(writes) + c.observations;
    }
  }

  /** A sequence of writes leaves each asset's last and each observation's first report, and never fails
      for want of an asset. */
  lemma {:induction false} WritesExactly(s: Store, writes: seq<Write>, ids: seq<string>)
    requires Sound(s) && |ids| == |writes| && AssetsFirst(writes)
    ensures Sound(WrittenAll(s, writes, ids))
    ensures Forget(WrittenAll(s, writes, ids)) == Summary(Forget(s), writes)
    ensures writes != [] && writes[|writes| - 1].AssetWrite? ==>
      KeyOf(writes[|writes| - 1].asset) in WrittenAll(s, writes, ids).assets
  {
    if writes != [] {
      var n := |writes| - 1;
      WritesExactly(s, writes[..n], ids[..n]);
      WriteSound(WrittenAll(s, writes[..n], ids[..n]), writes[n], ids[n]);
      SummaryOneMore(Forget(s), writes);
      hide Sound, Forget, Summary, Persisted;
    } else {
      assert Summary(Forget(s), writes) == Forget(s);
    }
  }

  // ----- Crash and retry -----

  lemma {:induction false} LongerReports(writes: seq<Write>, n: nat)
    requires n <= |writes|
    ensures LastReports(writes[..n]).Keys <= LastReports(writes).Keys
    ensures forall k | k in FirstReports(writes[..n]) ::
      k in FirstReports(writes) && FirstReports(writes)[k] == FirstReports(writes[..n])[k]
  {
    if n < |writes| {
      var m := |writes| - 1;
      LongerReports(writes[..m], n);
      assert writes[..m][..n] == writes[..n];
    } else {
      assert writes[..n] == writes;
    }
  }

  /** In the same places, reports on the same assets. */
  predicate SameShape(v: seq<Write>, w: seq<Write>) {
    |v| == |w| && forall i | 0 <= i < |v| :: SameSubject(v[i], w[i])
  }

  predicate SameSubject(v: Write, w: Write) {
    match (v, w)
    case (AssetWrite(a), AssetWrite(b)) => KeyOf(a) == KeyOf(b)
    case (ObservationWrite(o), ObservationWrite(q)) => o.tenant == q.tenant && o.agent == q.agent
    case _ => false
  }

  predicate SameFirstReports(v: seq<Write>, w: seq<Write>) {
    forall n | 0 <= n <= |v| && n <= |w| :: FirstReports(v[..n]) == FirstReports(w[..n])
  }

  /** What one batch means at two times, when wherever it stops only its assets carry the clock. */
  predicate Alike(v: seq<Write>, w: seq<Write>) {
    SameShape(v, w) && SameFirstReports(v, w)
  }

  lemma AlikePrefix(v: seq<Write>, w: seq<Write>, n: nat)
    requires Alike(v, w) && n <= |v|
    ensures Alike(v[..n], w[..n])
  {
    hide FirstReports;
    forall m | 0 <= m <= n ensures FirstReports(v[..n][..m]) == FirstReports(w[..n][..m]) {
      assert v[..n][..m] == v[..m] && w[..n][..m] == w[..m];
    }
  }

  lemma {:induction false} SameAssets(v: seq<Write>, w: seq<Write>)
    requires SameShape(v, w)
    ensures LastReports(v).Keys == LastReports(w).Keys
  {
    if v != [] {
      var n := |v| - 1;
      SameAssets(v[..n], w[..n]);
      assert SameSubject(v[n], w[n]);
    }
  }

  lemma AlikeReports(v: seq<Write>, w: seq<Write>)
    requires Alike(v, w)
    ensures LastReports(v).Keys == LastReports(w).Keys && FirstReports(v) == FirstReports(w)
  {
    hide FirstReports, LastReports;
    SameAssets(v, w);
    assert v[..|v|] == v && w[..|v|] == w;
  }

  lemma AlikeAssetsFirst(v: seq<Write>, w: seq<Write>)
    requires Alike(v, w) && AssetsFirst(w)
    ensures AssetsFirst(v)
  {
    hide SameFirstReports;
    forall i | 0 <= i < |v| && v[i].ObservationWrite?
      ensures i > 0 && v[i - 1].AssetWrite? && v[i - 1].asset.tenant == v[i].observation.tenant
      ensures v[i - 1].asset.agent == v[i].observation.agent
    {
      assert SameSubject(v[i], w[i]) && w[i - 1].AssetWrite?;
      assert SameSubject(v[i - 1], w[i - 1]);
    }
  }

  lemma RetrySummary(c: Content, v: seq<Write>, w: seq<Write>, n: nat)
    requires Alike(v, w) && n <= |v|
    ensures Summary(Summary(c, v[..n]), w) == Summary(c, w)
  {
    AlikePrefix(v, w, n);
    AlikeReports(v[..n], w[..n]);
    LongerReports(w, n);
    hide FirstReports, LastReports, Alike, SameShape, SameFirstReports;
    var l, l0 := LastReports(w), LastReports(v[..n]);
    var f, f0 := FirstReports(w), FirstReports(v[..n]);
    assert (c.assets + l0) + l == c.assets + l;
    assert f + (f0 + c.observations) == f + c.observations;
  }

  /** An attempt at some writes that died after `|ids|` of them. */
  datatype Partial = Partial(writes: seq<Write>, ids: seq<string>)

  predicate PartialsOf(attempts: seq<Partial>, writes: seq<Write>) {
    forall i | 0 <= i < |attempts| :: |attempts[i].ids| <= |attempts[i].writes| && Alike(attempts[i].writes, writes)
  }

  function AfterCrashes(s: Store, attempts: seq<Partial>): Store
    requires forall i | 0 <= i < |attempts| :: |attempts[i].ids| <= |attempts[i].writes|
  {
    if attempts == [] then s
    else
      var last := attempts[|attempts| - 1];
      WrittenAll(AfterCrashes(s, attempts[..|attempts| - 1]), last.writes[..|last.ids|], last.ids)
  }

  lemma OneCrash(s: Store, last: Partial, writes: seq<Write>, ids: seq<string>, cleanIds: seq<string>)
    requires Sound(s) && AssetsFirst(writes) && |ids| == |cleanIds| == |writes|
    requires |last.ids| <= |last.writes| && Alike(last.writes, writes)
    ensures Sound(WrittenAll(s, last.writes[..|last.ids|], last.ids))
    ensures Forget(WrittenAll(WrittenAll(s, last.writes[..|last.ids|], last.ids), writes, ids)) ==
      Forget(WrittenAll(s, writes, cleanIds))
  {
    AlikeAssetsFirst(last.writes, writes);
    WritesExactly(s, last.writes[..|last.ids|], last.ids);
    WritesExactly(WrittenAll(s, last.writes[..|last.ids|], last.ids), writes, ids);
    WritesExactly(s, writes, cleanIds);
    RetrySummary(Forget(s), last.writes, writes, |last.ids|);
    hide Sound, Forget, Summary, WrittenAll;
  }

  /** However many attempts crash, each after any prefix of its writes, a full retry leaves the tables of
      one clean run, up to generated ids. */
  lemma {:induction false} CrashesThenRetry(s: Store, writes: seq<Write>, attempts: seq<Partial>,
        ids: seq<string>, cleanIds: seq<string>)
    requires Sound(s) && AssetsFirst(writes) && |ids| == |cleanIds| == |writes| && PartialsOf(attempts, writes)
    ensures Sound(AfterCrashes(s, attempts))
    ensures Forget(WrittenAll(AfterCrashes(s, attempts), writes, ids)) == Forget(WrittenAll(s, writes, cleanIds))
  {
    hide Sound, Forget, WrittenAll, AssetsFirst, Alike;
    if attempts != [] {
      var before := attempts[..|attempts| - 1];
      CrashesThenRetry(s, writes, before, ids, cleanIds);
      OneCrash(AfterCrashes(s, before), attempts[|attempts| - 1], writes, ids, ids);
    } else {
      WritesExactly(s, writes, ids);
      WritesExactly(s, writes, cleanIds);
    }
  }

  // ----- Which alerts can be retried cleanly -----

  predicate Repeatable(alert: Alert) {
    alert.timestamp.Some? || alert.syscheck.None?
  }

  /** From `s`, dying at time `c` after `|ids0|` writes and retrying at time `d` leaves what a clean run at
      time `d` leaves. */
  predicate CleanRetry(s: Store, fallback: FallbackId, tenant: string, alert: Alert, c: int, d: int,
      ids0: seq<string>, ids1: seq<string>, ids2: seq<string>)
  {
    var first, second := WritesOf(fallback, tenant, alert, c), WritesOf(fallback, tenant, alert, d);
    |ids0| <= |first| && |ids1| == |ids2| == |second| ==>
      Forget(WrittenAll(WrittenAll(s, first[..|ids0|], ids0), second, ids1)) == Forget(WrittenAll(s, second, ids2))
  }

  lemma RepeatableIsAlike(fallback: FallbackId, tenant: string, alert: Alert, c: int, d: int)
    requires Repeatable(alert)
    ensures Alike(WritesOf(fallback, tenant, alert, c), WritesOf(fallback, tenant, alert, d))
  {
    var v, w := WritesOf(fallback, tenant, alert, c), WritesOf(fallback, tenant, alert, d);
    if alert.timestamp.Some? {
      assert v == w;
    } else {
      assert v[..0] == w[..0] == [];
      assert v[..1] == v && w[..1] == w && v[..1][..0] == [] && w[..1][..0] == [];
      assert FirstReports(v) == FirstReports(w) == map[];
    }
  }

  lemma RepeatableIsClean(s: Store, fallback: FallbackId, tenant: string, alert: Alert, c: int, d: int,
        ids0: seq<string>, ids1: seq<string>, ids2: seq<string>)
    requires Repeatable(alert) && Sound(s)
    ensures CleanRetry(s, fallback, tenant, alert, c, d, ids0, ids1, ids2)
  {
    var first, second := WritesOf(fallback, tenant, alert, c), WritesOf(fallback, tenant, alert, d);
    RepeatableIsAlike(fallback, tenant, alert, c, d);
    assert AssetsFirst(second);
    hide WritesOf, Sound, Forget, WrittenAll, Alike, AssetsFirst;
    if |ids0| <= |first| && |ids1| == |ids2| == |second| {
      OneCrash(s, Partial(first, ids0), second, ids1, ids2);
    }
  }

  function EventKey(fallback: FallbackId, tenant: string, alert: Alert, clock: int): ObservationKey
    requires alert.syscheck.Some?
  {
    ObservationKeyOf(ObservationOf(fallback, tenant, alert, clock))
  }

  lemma AlertFirstReports(fallback: FallbackId, tenant: string, alert: Alert, clock: int)
    requires alert.syscheck.Some?
    ensures var writes := WritesOf(fallback, tenant, alert, clock);
      && |writes| == 2 && AssetsFirst(writes)
      && FirstReports(writes) ==
        map[EventKey(fallback, tenant, alert, clock) := ObservationOf(fallback, tenant, alert, clock)]
  {
    var writes := WritesOf(fallback, tenant, alert, clock);
    assert writes[..1][..0] == [];
    assert FirstReports(writes[..1]) == map[];
  }

  /** Retrying an alert with an integrity part but no timestamp leaves the time of the attempt that died. */
  lemma UndatedRetryKeepsFirstTime(fallback: FallbackId, tenant: string, alert: Alert, c: int, d: int, ids: seq<string>)
    requires alert.timestamp.None? && alert.syscheck.Some? && |ids| == 2
    ensures var first, second := WritesOf(fallback, tenant, alert, c), WritesOf(fallback, tenant, alert, d);
      var retried := WrittenAll(WrittenAll(Store(map[], map[]), first, ids), second, ids);
      var key := EventKey(fallback, tenant, alert, c);
      key in Forget(retried).observations && Forget(retried).observations[key].observedAt == c
  {
    var empty := Store(map[], map[]);
    var first, second := WritesOf(fallback, tenant, alert, c), WritesOf(fallback, tenant, alert, d);
    assert Sound(empty);
    AlertFirstReports(fallback, tenant, alert, c);
    AlertFirstReports(fallback, tenant, alert, d);
    WritesExactly(empty, first, ids);
    WritesExactly(WrittenAll(empty, first, ids), second, ids);
    hide Sound, Forget, WrittenAll, FirstReports, LastReports, AssetsFirst, WritesOf;
  }

  lemma UndatedIsNotClean(fallback: FallbackId, tenant: string, alert: Alert)
    requires !Repeatable(alert)
    ensures !CleanRetry(Store(map[], map[]), fallback, tenant, alert, 0, 1, ["", ""], ["", ""], ["", ""])
  {
    var empty := Store(map[], map[]);
    var first, second := WritesOf(fallback, tenant, alert, 0), WritesOf(fallback, tenant, alert, 1);
    assert Sound(empty) && |first| == |second| == 2 && first[..2] == first;
    UndatedRetryKeepsFirstTime(fallback, tenant, alert, 0, 1, ["", ""]);
    AlertFirstReports(fallback, tenant, alert, 1);
    WritesExactly(empty, second, ["", ""]);
    hide Sound, WrittenAll, FirstReports, LastReports, AssetsFirst, WritesOf;
  }

  /** An alert can die anywhere at any time and be retried at any other time, with the outcome of a clean run at
      that time, if and only if it has a readable timestamp or no integrity part. When it can, it can from every
      sound state of the tables. */
  lemma CleanRetryExactly(fallback: FallbackId, tenant: string, alert: Alert)
    ensures (forall c, d, ids0, ids1, ids2 ::
        CleanRetry(Store(map[], map[]), fallback, tenant, alert, c, d, ids0, ids1, ids2)) <==> Repeatable(alert)
    ensures Repeatable(alert) ==> forall s, c, d, ids0, ids1, ids2 | Sound(s) ::
        CleanRetry(s, fallback, tenant, alert, c, d, ids0, ids1, ids2)
  {
    assert Sound(Store(map[], map[]));
    hide CleanRetry, Sound;
    if Repeatable(alert) {
      forall s, c, d, ids0, ids1, ids2 | Sound(s)
        ensures CleanRetry(s, fallback, tenant, alert, c, d, ids0, ids1, ids2)
      {
        RepeatableIsClean(s, fallback, tenant, alert, c, d, ids0, ids1, ids2);
      }
    } else {
      UndatedIsNotClean(fallback, tenant, alert);
    }
  }

  function Ingested(s: Store, fallback: FallbackId, tenant: string, alert: Alert, clock: int, ids: seq<string>): Store
    requires |ids| == 2
  {
    var writes := WritesOf(fallback, tenant, alert, clock);
    WrittenAll(s, writes, ids[..|writes|])
  }

  lemma AlertReports(s: Store, fallback: FallbackId, tenant: string, alert: Alert, clock: int, ids: seq<string>)
    requires Sound(s) && alert.syscheck.Some? && |ids| == 2
    ensures Sound(Ingested(s, fallback, tenant, alert, clock, ids))
    ensures Ingested(s, fallback, tenant, alert, clock, ids).observations.Keys ==
      s.observations.Keys + {EventKey(fallback, tenant, alert, clock)}
  {
    hide Sound, Forget, WrittenAll, FirstReports, LastReports, AssetsFirst, WritesOf, EventKey;
    var writes := WritesOf(fallback, tenant, alert, clock);
    AlertFirstReports(fallback, tenant, alert, clock);
    var after := WrittenAll(s, writes, ids[..|writes|]);
    WritesExactly(s, writes, ids[..|writes|]);
    assert Forget(after).observations == FirstReports(writes) + Forget(s).observations;
    ForgetKeys(after);
    ForgetKeys(s);
  }

  lemma ForgetKeys(s: Store)
    ensures Forget(s).observations.Keys == s.observations.Keys
  {}

  /** Without a timestamp it fails: an alert that names neither its id nor its time is stored twice when
      the retry happens at another time. */
  lemma UndatedAlertIsDoubled(fallback: FallbackId, tenant: string, alert: Alert, c: int, d: int, ids: seq<string>)
    requires alert.timestamp.None? && alert.id.None? && alert.syscheck.Some?
    requires fallback(alert.agent, c) != fallback(alert.agent, d) && |ids| == 2
    ensures var empty := Store(map[], map[]);
      var once := Ingested(empty, fallback, tenant, alert, d, ids);
      var twice := Ingested(Ingested(empty, fallback, tenant, alert, c, ids), fallback, tenant, alert, d, ids);
      |once.observations.Keys| == 1 && |twice.observations.Keys| == 2
  {
    hide Ingested;
    var empty := Store(map[], map[]);
    AlertReports(empty, fallback, tenant, alert, c, ids);
    AlertReports(empty, fallback, tenant, alert, d, ids);
    AlertReports(Ingested(empty, fallback, tenant, alert, c, ids), fallback, tenant, alert, d, ids);
    var o, q := EventKey(fallback, tenant, alert, c), EventKey(fallback, tenant, alert, d);
    assert o != q by { assert o.2 != q.2; }
    TwoKeys(o, q);
  }

  lemma TwoKeys(o: ObservationKey, q: ObservationKey)
    requires o != q
    ensures |{} + {q}| == 1 && |{} + {o} + {q}| == 2
  {
    assert {} + {q} == {q} && {} + {o} + {q} == {o, q};
  }

  // ----- The ingestion service -----

  /** When each alert of a batch is normalised. */
  type Clock = nat -> int

  function WritesOfAll(fallback: FallbackId, tenant: string, alerts: seq<Alert>, clock: Clock): seq<Write> {
    if alerts == [] then []
    else
      var n := |alerts| - 1;
      WritesOfAll(fallback, tenant, alerts[..n], clock) + WritesOf(fallback, tenant, alerts[n], clock(n))
  }

  lemma AssetsFirstAppended(a: seq<Write>, b: seq<Write>)
    requires AssetsFirst(a) && AssetsFirst(b)
    ensures AssetsFirst(a + b)
  {
    forall i | 0 <= i < |a + b| && (a + b)[i].ObservationWrite?
      ensures i > 0 && (a + b)[i - 1].AssetWrite? && (a + b)[i - 1].asset.tenant == (a + b)[i].observation.tenant
      ensures (a + b)[i - 1].asset.agent == (a + b)[i].observation.agent
    {
      if i >= |a| {
        assert b[i - |a|].ObservationWrite?;
      }
    }
  }

  lemma {:induction false} AlertsWriteAssetsFirst(fallback: FallbackId, tenant: string, alerts: seq<Alert>,
        clock: Clock)
    ensures AssetsFirst(WritesOfAll(fallback, tenant, alerts, clock))
  {
    if alerts != [] {
      var n := |alerts| - 1;
      AlertsWriteAssetsFirst(fallback, tenant, alerts[..n], clock);
      AssetsFirstAppended(WritesOfAll(fallback, tenant, alerts[..n], clock),
        WritesOf(fallback, tenant, alerts[n], clock(n)));
    }
  }

  lemma {:induction false} FirstReportsAppended(a: seq<Write>, b: seq<Write>)
    ensures FirstReports(a + b) == FirstReports(b) + FirstReports(a)
  {
    if b == [] {
      assert a + b == a;
    } else {
      var n := |b| - 1;
      FirstReportsAppended(a, b[..n]);
      assert (a + b)[..|a + b| - 1] == a + b[..n] && (a + b)[|a + b| - 1] == b[n];
    }
  }

  /** New writes that report the same first observations, or none but known ones. */
  lemma AlikeAppended(v: seq<Write>, w: seq<Write>, v': seq<Write>, w': seq<Write>)
    requires Alike(v, w) && SameShape(v', w')
    requires SameFirstReports(v', w') || forall n | 0 <= n <= |v'| ::
      FirstReports(v'[..n]).Keys <= FirstReports(v).Keys && FirstReports(w'[..n]).Keys <= FirstReports(w).Keys
    ensures Alike(v + v', w + w')
  {
    hide FirstReports, SameSubject;
    AlikeReports(v, w);
    forall n | 0 <= n <= |v + v'| ensures FirstReports((v + v')[..n]) == FirstReports((w + w')[..n]) {
      if n <= |v| {
        assert (v + v')[..n] == v[..n] && (w + w')[..n] == w[..n];
      } else {
        var m := n - |v|;
        assert (v + v')[..n] == v + v'[..m] && (w + w')[..n] == w + w'[..m];
        FirstReportsAppended(v, v'[..m]);
        FirstReportsAppended(w, w'[..m]);
      }
    }
  }

  /** An alert without a timestamp whose event an earlier alert with one reports. */
  predicate Covered(fallback: FallbackId, alerts: seq<Alert>, i: nat)
    requires i < |alerts|
  {
    alerts[i].id.Some? && exists j | 0 <= j < i :: DatedReport(fallback, alerts[j], alerts[i].id.value)
  }

  /** The alert reports the event `id` whatever the clock. */
  predicate DatedReport(fallback: FallbackId, alert: Alert, id: string) {
    alert.timestamp.Some? && alert.syscheck.Some? && EventId(fallback, alert, 0) == id
  }

  predicate RepeatableBatch(fallback: FallbackId, alerts: seq<Alert>) {
    forall i | 0 <= i < |alerts| :: Repeatable(alerts[i]) || Covered(fallback, alerts, i)
  }

  /** Alert `i` reports the observation under `key`. */
  predicate ReportsAt(fallback: FallbackId, tenant: string, alerts: seq<Alert>, clock: Clock, key: ObservationKey,
        i: nat)
  {
    i < |alerts| && alerts[i].syscheck.Some? && EventKey(fallback, tenant, alerts[i], clock(i)) == key
  }

  /** `first` is what the first alert to report `key` says. */
  ghost predicate FirstReportIs(fallback: FallbackId, tenant: string, alerts: seq<Alert>, clock: Clock,
        key: ObservationKey, first: Observation, i: nat)
  {
    && ReportsAt(fallback, tenant, alerts, clock, key, i)
    && first == ObservationOf(fallback, tenant, alerts[i], clock(i))
    && forall j: nat | j < i :: !ReportsAt(fallback, tenant, alerts, clock, key, j)
  }

  lemma OneReport(fallback: FallbackId, tenant: string, alert: Alert, clock: int)
    ensures FirstReports(WritesOf(fallback, tenant, alert, clock)) ==
      if alert.syscheck.None? then map[]
      else map[EventKey(fallback, tenant, alert, clock) := ObservationOf(fallback, tenant, alert, clock)]
  {
    var writes := WritesOf(fallback, tenant, alert, clock);
    assert writes[..1][..0] == [];
    assert FirstReports(writes[..1]) == map[];
    assert alert.syscheck.None? ==> writes[..1] == writes;
  }

  /** A batch leaves under each event the observation of the first alert that reports it. */
  lemma {:induction false} BatchFirstReports(fallback: FallbackId, tenant: string, alerts: seq<Alert>, clock: Clock,
        key: ObservationKey)
    ensures var reports := FirstReports(WritesOfAll(fallback, tenant, alerts, clock));
      && (key !in reports ==> forall i: nat :: !ReportsAt(fallback, tenant, alerts, clock, key, i))
      && (key in reports ==> exists i :: FirstReportIs(fallback, tenant, alerts, clock, key, reports[key], i))
  {
    if alerts != [] {
      var n := |alerts| - 1;
      var before := WritesOfAll(fallback, tenant, alerts[..n], clock);
      var one := WritesOf(fallback, tenant, alerts[n], clock(n));
      BatchFirstReports(fallback, tenant, alerts[..n], clock, key);
      FirstReportsAppended(before, one);
      OneReport(fallback, tenant, alerts[n], clock(n));
      hide FirstReports, WritesOfAll, WritesOf, ObservationOf, EventKey;
      forall i: nat | i < n
        ensures ReportsAt(fallback, tenant, alerts[..n], clock, key, i)
          == ReportsAt(fallback, tenant, alerts, clock, key, i)
      {}
      if key in FirstReports(before) {
        var first := FirstReports(before)[key];
        var i :| FirstReportIs(fallback, tenant, alerts[..n], clock, key, first, i);
        assert FirstReportIs(fallback, tenant, alerts, clock, key, first, i);
      } else if key in FirstReports(one) {
        assert FirstReportIs(fallback, tenant, alerts, clock, key, FirstReports(one)[key], n);
      }
    }
  }

  lemma CoveredIsKnown(fallback: FallbackId, tenant: string, alerts: seq<Alert>, i: nat, clock: Clock)
    requires i < |alerts| && Covered(fallback, alerts, i) && alerts[i].syscheck.Some?
    ensures EventKey(fallback, tenant, alerts[i], clock(i))
      in FirstReports(WritesOfAll(fallback, tenant, alerts[..i], clock))
  {
    var key := EventKey(fallback, tenant, alerts[i], clock(i));
    BatchFirstReports(fallback, tenant, alerts[..i], clock, key);
    hide FirstReports, WritesOfAll;
    var j :| 0 <= j < i && DatedReport(fallback, alerts[j], alerts[i].id.value);
    assert ReportsAt(fallback, tenant, alerts[..i], clock, key, j);
  }

  /** The first reports of an alert's writes, wherever they stop. */
  lemma PartReports(fallback: FallbackId, tenant: string, alert: Alert, clock: int, n: nat)
    requires n <= |WritesOf(fallback, tenant, alert, clock)|
    ensures alert.syscheck.None? ==> FirstReports(WritesOf(fallback, tenant, alert, clock)[..n]).Keys == {}
    ensures alert.syscheck.Some? ==>
      FirstReports(WritesOf(fallback, tenant, alert, clock)[..n]).Keys <= {EventKey(fallback, tenant, alert, clock)}
  {
    OneReport(fallback, tenant, alert, clock);
    LongerReports(WritesOf(fallback, tenant, alert, clock), n);
  }

  /** What the next alert reports at two times is the same, or known. */
  lemma NextReports(fallback: FallbackId, tenant: string, alerts: seq<Alert>, m: nat, c: Clock, d: Clock)
    requires m < |alerts| && (Repeatable(alerts[m]) || Covered(fallback, alerts, m))
    ensures var v, w := WritesOf(fallback, tenant, alerts[m], c(m)), WritesOf(fallback, tenant, alerts[m], d(m));
      && SameShape(v, w)
      && (SameFirstReports(v, w) || forall n | 0 <= n <= |v| ::
        && FirstReports(v[..n]).Keys <= FirstReports(WritesOfAll(fallback, tenant, alerts[..m], c)).Keys
        && FirstReports(w[..n]).Keys <= FirstReports(WritesOfAll(fallback, tenant, alerts[..m], d)).Keys)
  {
    var v, w := WritesOf(fallback, tenant, alerts[m], c(m)), WritesOf(fallback, tenant, alerts[m], d(m));
    assert SameShape(v, w) && |v| == |w|;
    hide FirstReports, WritesOfAll, WritesOf, Covered, SameFirstReports, SameShape;
    if Repeatable(alerts[m]) {
      RepeatableIsAlike(fallback, tenant, alerts[m], c(m), d(m));
    } else {
      CoveredIsKnown(fallback, tenant, alerts, m, c);
      CoveredIsKnown(fallback, tenant, alerts, m, d);
      forall n | 0 <= n <= |v|
        ensures FirstReports(v[..n]).Keys <= FirstReports(WritesOfAll(fallback, tenant, alerts[..m], c)).Keys
        ensures FirstReports(w[..n]).Keys <= FirstReports(WritesOfAll(fallback, tenant, alerts[..m], d)).Keys
      {
        PartReports(fallback, tenant, alerts[m], c(m), n);
        PartReports(fallback, tenant, alerts[m], d(m), n);
      }
    }
  }

  /** A repeatable batch means the same at any times, up to when its assets were last seen. */
  lemma {:induction false} RepeatableBatchIsAlike(fallback: FallbackId, tenant: string, alerts: seq<Alert>,
        c: Clock, d: Clock)
    requires RepeatableBatch(fallback, alerts)
    ensures Alike(WritesOfAll(fallback, tenant, alerts, c), WritesOfAll(fallback, tenant, alerts, d))
  {
    if alerts != [] {
      var m := |alerts| - 1;
      ShorterBatch(fallback, alerts, m);
      RepeatableBatchIsAlike(fallback, tenant, alerts[..m], c, d);
      NextReports(fallback, tenant, alerts, m, c, d);
      hide FirstReports, Covered, Alike, WritesOf, SameShape, SameFirstReports;
      AlikeAppended(WritesOfAll(fallback, tenant, alerts[..m], c), WritesOfAll(fallback, tenant, alerts[..m], d),
        WritesOf(fallback, tenant, alerts[m], c(m)), WritesOf(fallback, tenant, alerts[m], d(m)));
    }
  }

  lemma ShorterBatch(fallback: FallbackId, alerts: seq<Alert>, m: nat)
    requires m <= |alerts| && RepeatableBatch(fallback, alerts)
    ensures RepeatableBatch(fallback, alerts[..m])
  {
    forall i | 0 <= i < m ensures Repeatable(alerts[..m][i]) || Covered(fallback, alerts[..m], i) {
      assert alerts[..m][i] == alerts[i];
      if !Repeatable(alerts[i]) {
        var j :| 0 <= j < i && DatedReport(fallback, alerts[j], alerts[i].id.value);
        assert alerts[..m][j] == alerts[j];
      }
    }
  }

  // ----- Which batches can be retried cleanly -----

  /** The fallback id of an agent tells times apart. */
  ghost predicate TellsTimes(fallback: FallbackId) {
    forall agent, t, u {:trigger fallback(agent, t), fallback(agent, u)} ::
      fallback(agent, t) == fallback(agent, u) ==> t == u
  }

  /** Some time gives an id outside any finite set. */
  lemma {:induction false} FreshTime(fallback: FallbackId, agent: string, used: set<string>, from: int) returns (t: int)
    requires TellsTimes(fallback)
    ensures t >= from && fallback(agent, t) !in used
    decreases used
  {
    var id := fallback(agent, from);
    if id in used {
      t := FreshTime(fallback, agent, used - {id}, from + 1);
      assert fallback(agent, t) != fallback(agent, from);
    } else {
      t := from;
    }
  }

  function Always(t: int): Clock {
    (i: nat) => t
  }

  /** No alert with a timestamp comes first with the event that alert `i` reports at time `t`. */
  ghost predicate Uncovered(fallback: FallbackId, alerts: seq<Alert>, i: nat, t: int)
    requires i < |alerts|
  {
    !Repeatable(alerts[i])
    && forall j | 0 <= j < |alerts| && DatedReport(fallback, alerts[j], EventId(fallback, alerts[i], t)) ::
         alerts[i].id.Some? && j > i
  }

  /** An alert that is neither repeatable nor covered has such a time. */
  lemma UncoveredTime(fallback: FallbackId, alerts: seq<Alert>, i: nat) returns (t: int)
    requires TellsTimes(fallback) && i < |alerts| && !Repeatable(alerts[i]) && !Covered(fallback, alerts, i)
    ensures Uncovered(fallback, alerts, i, t)
  {
    if alerts[i].id.Some? {
      t := 0;
      assert !DatedReport(fallback, alerts[i], alerts[i].id.value);
    } else {
      var used := set j | 0 <= j < |alerts| :: EventId(fallback, alerts[j], 0);
      t := FreshTime(fallback, alerts[i].agent, used, 0);
    }
  }

  /** So whoever reports it first tells the time. */
  lemma FirstTellsTime(fallback: FallbackId, tenant: string, alerts: seq<Alert>, i: nat, t: int, now: int,
        first: Observation, j: nat)
    requires i < |alerts| && Uncovered(fallback, alerts, i, t)
    requires FirstReportIs(fallback, tenant, alerts, Always(now), EventKey(fallback, tenant, alerts[i], t), first, j)
    ensures first.observedAt == now
  {
    var key := EventKey(fallback, tenant, alerts[i], t);
    assert alerts[i].id.Some? ==> ReportsAt(fallback, tenant, alerts, Always(now), key, i);
    assert alerts[j].timestamp.Some? ==> DatedReport(fallback, alerts[j], key.2);
  }

  /** At such a time and the next, the batch reports that event differently. */
  lemma UncoveredReportsDiffer(fallback: FallbackId, tenant: string, alerts: seq<Alert>, i: nat, t: int)
    requires i < |alerts| && Uncovered(fallback, alerts, i, t)
    ensures var key := EventKey(fallback, tenant, alerts[i], t);
      var was := FirstReports(WritesOfAll(fallback, tenant, alerts, Always(t)));
      var next := FirstReports(WritesOfAll(fallback, tenant, alerts, Always(t + 1)));
      key in was && !(key in next && next[key] == was[key])
  {
    var key := EventKey(fallback, tenant, alerts[i], t);
    var was := FirstReports(WritesOfAll(fallback, tenant, alerts, Always(t)));
    var next := FirstReports(WritesOfAll(fallback, tenant, alerts, Always(t + 1)));
    BatchFirstReports(fallback, tenant, alerts, Always(t), key);
    BatchFirstReports(fallback, tenant, alerts, Always(t + 1), key);
    assert ReportsAt(fallback, tenant, alerts, Always(t), key, i);
    hide FirstReports, WritesOfAll, FirstReportIs, Uncovered, ReportsAt, EventKey;
    var j: nat :| FirstReportIs(fallback, tenant, alerts, Always(t), key, was[key], j);
    FirstTellsTime(fallback, tenant, alerts, i, t, t, was[key], j);
    if key in next {
      var k: nat :| FirstReportIs(fallback, tenant, alerts, Always(t + 1), key, next[key], k);
      FirstTellsTime(fallback, tenant, alerts, i, t, t + 1, next[key], k);
    }
  }

  /** With readable timestamps a batch means the same at any times. */
  lemma {:induction false} DatedBatchIsClockFree(fallback: FallbackId, tenant: string, alerts: seq<Alert>,
        c: Clock, d: Clock)
    requires forall i | 0 <= i < |alerts| :: alerts[i].timestamp.Some?
    ensures WritesOfAll(fallback, tenant, alerts, c) == WritesOfAll(fallback, tenant, alerts, d)
  {
    if alerts != [] {
      var n := |alerts| - 1;
      DatedBatchIsClockFree(fallback, tenant, alerts[..n], c, d);
      ClockFreeExactly(fallback, tenant, alerts[n]);
    }
  }

  lemma {:induction false} WritesPrefix(fallback: FallbackId, tenant: string, alerts: seq<Alert>, n: nat, clock: Clock)
    requires n <= |alerts|
    ensures WritesOfAll(fallback, tenant, alerts[..n], clock) <= WritesOfAll(fallback, tenant, alerts, clock)
  {
    if n < |alerts| {
      WritesPrefix(fallback, tenant, alerts[..|alerts| - 1], n, clock);
      assert alerts[..|alerts| - 1][..n] == alerts[..n];
    } else {
      assert alerts[..n] == alerts;
    }
  }

  lemma WritesOneMore(fallback: FallbackId, tenant: string, alerts: seq<Alert>, i: nat, clock: Clock)
    requires i < |alerts|
    ensures var before := WritesOfAll(fallback, tenant, alerts[..i], clock);
      WritesOfAll(fallback, tenant, alerts[..i + 1], clock) == before + WritesOf(fallback, tenant, alerts[i], clock(i))
        <= WritesOfAll(fallback, tenant, alerts, clock)
  {
    assert alerts[..i + 1][..i] == alerts[..i];
    WritesPrefix(fallback, tenant, alerts, i + 1, clock);
  }

  datatype IngestResult = IngestResult(assetCreated: bool, integrityCreated: bool, events: nat)

  class EndpointTelemetryIngestion {
    const repository: EndpointInventoryRepository
    const fallback: FallbackId

    constructor (fallback: FallbackId)
      ensures this.fallback == fallback && fresh(repository) && repository.State() == Store(map[], map[])
    {
      this.fallback := fallback;
      repository := new EndpointInventoryRepository();
    }

    /** What one alert says about its asset and, with an integrity part, about the observed file. */
    method Normalize(tenant: string, alert: Alert, clock: int) returns (asset: Asset, observation: Option<Observation>)
      ensures asset == Asset(tenant, alert.agent, alert.assetFields, asset.lastSeen)
      ensures asset.lastSeen == if alert.timestamp.Some? then alert.timestamp.value else clock
      ensures observation.Some? <==> alert.syscheck.Some?
      ensures observation.Some? ==>
        && observation.value == Observation(tenant, alert.agent, "wazuh", observation.value.eventId,
             alert.syscheck.value, asset.lastSeen)
        && observation.value.eventId ==
           if alert.id.Some? then alert.id.value else fallback(alert.agent, asset.lastSeen)
    {
      var timestamp := if alert.timestamp.Some? then alert.timestamp.value else clock;
      asset := Asset(tenant, alert.agent, alert.assetFields, timestamp);
      if alert.syscheck.None? {
        return asset, None;
      }
      var eventId := if alert.id.Some? then alert.id.value else fallback(alert.agent, timestamp);
      observation := Some(Observation(tenant, alert.agent, "wazuh", eventId, alert.syscheck.value, timestamp));
    }

    /** Ingests one alert until it is done or `budget` writes have been committed. */
    method IngestWazuhAlert(tenant: string, alert: Alert, clock: int, assetId: string, observationId: string,
          budget: nat)
      returns (result: Option<IngestResult>, ghost done: nat)
      requires Sound(repository.State())
      modifies repository
      ensures Sound(repository.State())
      ensures var writes := WritesOf(fallback, tenant, alert, clock);
        && done == (if budget < |writes| then budget else |writes|) && (result.Some? <==> done == |writes|)
        && repository.State() == WrittenAll(old(repository.State()), writes[..done], [assetId, observationId][..done])
      ensures result.Some? ==>
        && |repository.assets| == |old(repository.assets)| + (if result.value.assetCreated then 1 else 0)
        && |repository.observations| == |old(repository.observations)|
          + (if result.value.integrityCreated then 1 else 0)
        && result.value.events == |WritesOf(fallback, tenant, alert, clock)|
    {
      hide Sound;
      ghost var s := repository.State();
      ghost var writes := WritesOf(fallback, tenant, alert, clock);
      AlertWrites(s, fallback, tenant, alert, clock, [assetId, observationId]);
      if budget == 0 {
        return None, 0;
      }
      var asset, normalized := Normalize(tenant, alert, clock);
      var row, assetCreated := repository.UpsertAsset(asset, assetId);
      if normalized.None? {
        return Some(IngestResult(assetCreated, false, 1)), 1;
      }
      if budget == 1 {
        return None, 1;
      }
      var observation := normalized.value;
      var stored, integrityCreated := repository.PersistIntegrity(observation, row.id, observationId);
      result, done := Some(IngestResult(assetCreated, integrityCreated, 2)), 2;
    }
  }

  lemma AlertWrites(s: Store, fallback: FallbackId, tenant: string, alert: Alert, clock: int, ids: seq<string>)
    requires Sound(s) && |ids| == 2
    ensures var writes := WritesOf(fallback, tenant, alert, clock);
      && WrittenAll(s, writes[..0], ids[..0]) == s
      && WrittenAll(s, writes[..1], ids[..1]) == Written(s, writes[0], ids[0])
      && (|writes| == 2 ==>
            WrittenAll(s, writes[..2], ids[..2]) == Written(Written(s, writes[0], ids[0]), writes[1], ids[1]))
      && forall n | 0 <= n <= |writes| :: Sound(WrittenAll(s, writes[..n], ids[..n]))
  {
    var writes := WritesOf(fallback, tenant, alert, clock);
    assert AssetsFirst(writes);
    forall n | 0 <= n <= |writes| ensures Sound(WrittenAll(s, writes[..n], ids[..n])) {
      WritesExactly(s, writes[..n], ids[..n]);
    }
    assert writes[..1][..0] == writes[..0] && ids[..1][..0] == ids[..0];
    if |writes| == 2 {
      assert writes[..2][..1] == writes[..1] && ids[..2][..1] == ids[..1];
    }
  }
}
