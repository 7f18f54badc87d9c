/** Hash-chained and optionally signed audit records (`integrity.py`). */
module AuditChain {
  import opened Wrappers

  const GENESIS: string := "0000000000000000000000000000000000000000000000000000000000000000"

  /** What a record's hash covers; `payload` is canonical JSON text. */
  datatype Body = Body(recordId: string, timestamp: string, actorId: Option<string>, action: string, payload: string,
    previousHash: string)

  /** A record as it is stored or imported: a body that is complete or not, its hash and its signature. */
  datatype Record = Record(body: Option<Body>, recordHash: Option<string>, signature: Option<string>,
    keyId: Option<string>)

  /** SHA-256 of the canonical body, and HMAC-SHA-256 of body and hash under a key. */
  datatype Crypto = Crypto(hash: Body -> string, mac: (string, Body, string) -> string)

  datatype Failure = KeyIdRequired

  /** How records are checked: the signing key if known, whether signatures are mandatory, and the key id expected. */
  datatype Policy = Policy(key: Option<string>, requireSignature: bool, expectedKeyId: Option<string>)

  predicate Present(s: Option<string>) {
    s.Some? && s.value != ""
  }

  // ----- Appending -----

  function Appended(c: Crypto, recordId: string, timestamp: string, actorId: Option<string>, action: string,
        payload: string,
                    previousHash: string, key: Option<string>, keyId: Option<string>): Result<Record, Failure>
  {
    var body := Body(recordId, timestamp, actorId, action, payload, previousHash);
    var recordHash := c.hash(body);
    if key.None? then Ok(Record(Some(body), Some(recordHash), None, None))
    else if !Present(keyId) then Err(KeyIdRequired)
    else Ok(Record(Some(body), Some(recordHash), Some(c.mac(key.value, body, recordHash)), keyId))
  }

  /** What a caller records: everything but the link. */
  datatype Entry = Entry(recordId: string, timestamp: string, actorId: Option<string>, action: string, payload: string)

  function LastHash(records: seq<Record>): string {
    if records != [] && records[|records| - 1].recordHash.Some? then records[|records| - 1].recordHash.value
      else GENESIS
  }

  /** The list built by chaining `append_record` from the genesis hash. */
  function Built(c: Crypto, entries: seq<Entry>, key: Option<string>, keyId: Option<string>): seq<Record>
    requires key.Some? ==> Present(keyId)
  {
    if entries == [] then []
    else
      var before, e := Built(c, entries[..|entries| - 1], key, keyId), entries[|entries| - 1];
      before + [Appended(c, e.recordId, e.timestamp, e.actorId, e.action, e.payload, LastHash(before), key,
        keyId).value]
  }

  // ----- Verifying -----

  predicate RecordOk(c: Crypto, r: Record, previousHash: string, p: Policy) {
    && r.body.Some? && r.recordHash.Some?
    && r.body.value.previousHash == previousHash && r.recordHash.value == c.hash(r.body.value)
    && (p.requireSignature ==> Present(r.signature))
    && (p.expectedKeyId.Some? ==> r.keyId == p.expectedKeyId)
    && (p.key.Some? ==>
          Present(r.signature) && Present(r.keyId)
            && r.signature.value == c.mac(p.key.value, r.body.value, r.recordHash.value))
  }

  /** Every record is intact and linked to the record before it. */
  ghost predicate Verified(c: Crypto, records: seq<Record>, p: Policy) {
    forall i | 0 <= i < |records| :: RecordOk(c, records[i], LastHash(records[..i]), p)
  }

  method VerifyChain(c: Crypto, records: seq<Record>, p: Policy) returns (ok: bool)
    ensures ok <==> Verified(c, records, p)
  {
    var previousHash := GENESIS;
    for i := 0 to |records|
      invariant previousHash == LastHash(records[..i])
      invariant Verified(c, records[..i], p)
    {
      var r := records[i];
      VerifiedStepwise(c, records, p, i);
      hide Verified;
      if r.body.None? || r.recordHash.None? {
        return false;
      }
      var body, recordHash := r.body.value, r.recordHash.value;
      if body.previousHash != previousHash || recordHash != c.hash(body) {
        return false;
      }
      if p.requireSignature && (r.signature.None? || r.signature.value == "") {
        return false;
      }
      if p.expectedKeyId.Some? && r.keyId != p.expectedKeyId {
        return false;
      }
      if p.key.Some? {
        if r.signature.None? || r.signature.value == "" || r.keyId.None? || r.keyId.value == "" {
          return false;
        }
        if r.signature.value != c.mac(p.key.value, body, recordHash) {
          return false;
        }
      }
      previousHash := recordHash;
    }
    assert records[..|records|] == records;
    ok := true;
  }

  lemma VerifiedStepwise(c: Crypto, records: seq<Record>, p: Policy, i: nat)
    requires i < |records|
    ensures Verified(c, records[..i + 1], p) <==>
      Verified(c, records[..i], p) && RecordOk(c, records[i], LastHash(records[..i]), p)
    ensures records[..i + 1] != [] && records[..i + 1][|records[..i + 1]| - 1] == records[i]
    ensures !RecordOk(c, records[i], LastHash(records[..i]), p) ==> !Verified(c, records, p)
  {
    hide LastHash, RecordOk;
    assert records[..i + 1][i] == records[i];
    assert forall j | 0 <= j <= i :: records[..i + 1][..j] == records[..j];
    assert forall j | 0 <= j <= i :: records[..i][..j] == records[..j];
  }

  // ----- What verification means -----

  /** Every chained list verifies; signed under a key, it also verifies under that key with signatures
      and key id demanded (a MAC is never the empty string). */
  lemma {:induction false} BuiltVerifies(c: Crypto, entries: seq<Entry>, key: Option<string>,
        keyId: Option<string>, p: Policy)
    requires key.Some? ==> Present(keyId)
    requires p == Policy(None, false, None) || (key.Some? && p == Policy(key, true, keyId))
    requires forall k, b, h :: c.mac(k, b, h) != ""
    ensures Verified(c, Built(c, entries, key, keyId), p)
  {
    if entries != [] {
      var before := Built(c, entries[..|entries| - 1], key, keyId);
      BuiltVerifies(c, entries[..|entries| - 1], key, keyId, p);
      var records := Built(c, entries, key, keyId);
      assert records[..|before|] == before;
      forall i | 0 <= i < |records| ensures RecordOk(c, records[i], LastHash(records[..i]), p) {
        if i < |before| {
          assert records[..i] == before[..i];
        }
      }
    }
  }

  /** `r` carries the entry `e`, is linked to `previousHash`, and signed if there is a key. */
  ghost predicate Carries(c: Crypto, r: Record, e: Entry, previousHash: string, key: Option<string>,
        keyId: Option<string>)
  {
    && r.body == Some(Body(e.recordId, e.timestamp, e.actorId, e.action, e.payload, previousHash))
    && r.recordHash == Some(c.hash(r.body.value))
    && r.signature == (if key.None? then None else Some(c.mac(key.value, r.body.value, c.hash(r.body.value))))
    && r.keyId == (if key.None? then None else keyId)
  }

  lemma AppendedCarries(c: Crypto, e: Entry, previousHash: string, key: Option<string>, keyId: Option<string>)
    requires key.Some? ==> Present(keyId)
    ensures var r := Appended(c, e.recordId, e.timestamp, e.actorId, e.action, e.payload, previousHash, key, keyId);
      r.Ok? && Carries(c, r.value, e, previousHash, key, keyId)
  {
  }

  /** In a chained list record `i` carries entry `i`, and is linked to the hash of the record before it. */
  lemma {:induction false} BuiltCarries(c: Crypto, entries: seq<Entry>, key: Option<string>, keyId: Option<string>,
        i: nat)
    requires (key.Some? ==> Present(keyId)) && i < |entries|
    ensures var records := Built(c, entries, key, keyId);
      && |records| == |entries|
      && (i > 0 ==> records[i - 1].recordHash.Some?)
      && Carries(c, records[i], entries[i], if i == 0 then GENESIS else records[i - 1].recordHash.value, key, keyId)
  {
    hide Appended, Present;
    var n := |entries| - 1;
    var before, e := Built(c, entries[..n], key, keyId), entries[n];
    AppendedCarries(c, e, LastHash(before), key, keyId);
    BuiltLength(c, entries[..n], key, keyId);
    if i < n {
      BuiltCarries(c, entries[..n], key, keyId, i);
    } else if n > 0 {
      BuiltCarries(c, entries[..n], key, keyId, n - 1);
      hide Built;
    }
  }

  lemma {:induction false} BuiltLength(c: Crypto, entries: seq<Entry>, key: Option<string>, keyId: Option<string>)
    requires key.Some? ==> Present(keyId)
    ensures |Built(c, entries, key, keyId)| == |entries|
  {
    hide Appended, Present, LastHash;
    if entries != [] {
      BuiltLength(c, entries[..|entries| - 1], key, keyId);
    }
  }

  /** Verification is prefix-closed: cutting off a tail goes unnoticed. */
  lemma TruncationVerifies(c: Crypto, records: seq<Record>, p: Policy, n: nat)
    requires Verified(c, records, p) && n <= |records|
    ensures Verified(c, records[..n], p)
  {
    forall i | 0 <= i < n ensures RecordOk(c, records[..n][i], LastHash(records[..n][..i]), p) {
      assert records[..n][..i] == records[..i];
    }
  }

  /** Two different bodies, one from each list, with the same hash. */
  ghost predicate Collision(c: Crypto, a: seq<Record>, b: seq<Record>) {
    exists i, j :: 0 <= i < |a| && 0 <= j < |b| && a[i].body.Some? && b[j].body.Some?
      && a[i].body != b[j].body && c.hash(a[i].body.value) == c.hash(b[j].body.value)
  }

  /** Some body hashes to the genesis hash. */
  ghost predicate HitsGenesis(c: Crypto, a: seq<Record>) {
    exists i :: 0 <= i < |a| && a[i].body.Some? && c.hash(a[i].body.value) == GENESIS
  }

  ghost predicate SameBodies(a: seq<Record>, b: seq<Record>) {
    |a| == |b| && forall i | 0 <= i < |a| :: a[i].body == b[i].body
  }

  /** The last hash pins the whole history: two verified lists that end in the same hash record the same
      bodies, or they exhibit a hash collision or a preimage of the genesis hash. */
  lemma {:induction false} LastHashPinsHistory(c: Crypto, a: seq<Record>, b: seq<Record>, p: Policy, q: Policy)
    requires Verified(c, a, p) && Verified(c, b, q) && LastHash(a) == LastHash(b)
    ensures SameBodies(a, b) || Collision(c, a, b) || HitsGenesis(c, a) || HitsGenesis(c, b)
    decreases |a|
  {
    hide Verified, Collision, HitsGenesis, SameBodies;
    if a != [] {
      LastRecord(c, a, p);
    }
    if b != [] {
      LastRecord(c, b, q);
    }
    if a != [] && b != [] {
      var x, y := a[|a| - 1], b[|b| - 1];
      if x.body == y.body {
        LastHashPinsHistory(c, a[..|a| - 1], b[..|b| - 1], p, q);
        Longer(c, a, b);
      } else {
        LastCollide(c, a, b);
      }
    } else if a != [] {
      LastIsGenesis(c, a);
    } else if b != [] {
      LastIsGenesis(c, b);
    } else {
      NothingToCompare(a, b);
    }
  }

  lemma LastRecord(c: Crypto, a: seq<Record>, p: Policy)
    requires Verified(c, a, p) && a != []
    ensures var x := a[|a| - 1];
      && x.body.Some? && x.recordHash == Some(c.hash(x.body.value)) && LastHash(a) == c.hash(x.body.value)
      && x.body.value.previousHash == LastHash(a[..|a| - 1]) && Verified(c, a[..|a| - 1], p)
  {
    assert RecordOk(c, a[|a| - 1], LastHash(a[..|a| - 1]), p);
    TruncationVerifies(c, a, p, |a| - 1);
  }

  lemma LastCollide(c: Crypto, a: seq<Record>, b: seq<Record>)
    requires a != [] && b != [] && a[|a| - 1].body.Some? && b[|b| - 1].body.Some? && a[|a| - 1].body != b[|b| - 1].body
    requires c.hash(a[|a| - 1].body.value) == c.hash(b[|b| - 1].body.value)
    ensures Collision(c, a, b)
  {
  }

  lemma LastIsGenesis(c: Crypto, a: seq<Record>)
    requires a != [] && a[|a| - 1].body.Some? && c.hash(a[|a| - 1].body.value) == GENESIS
    ensures HitsGenesis(c, a)
  {
  }

  lemma NothingToCompare(a: seq<Record>, b: seq<Record>)
    requires a == [] && b == []
    ensures SameBodies(a, b)
  {
  }

  lemma Longer(c: Crypto, a: seq<Record>, b: seq<Record>)
    requires a != [] && b != [] && a[|a| - 1].body == b[|b| - 1].body
    ensures SameBodies(a[..|a| - 1], b[..|b| - 1]) ==> SameBodies(a, b)
    ensures Collision(c, a[..|a| - 1], b[..|b| - 1]) ==> Collision(c, a, b)
    ensures HitsGenesis(c, a[..|a| - 1]) ==> HitsGenesis(c, a)
    ensures HitsGenesis(c, b[..|b| - 1]) ==> HitsGenesis(c, b)
  {
    var a', b' := a[..|a| - 1], b[..|b| - 1];
    if SameBodies(a', b') {
      forall i | 0 <= i < |a| ensures a[i].body == b[i].body {
        if i < |a'| {
          assert a'[i].body == b'[i].body;
        }
      }
    }
    if Collision(c, a', b') {
      var i, j :|
        && 0 <= i < |a'| && 0 <= j < |b'| && a'[i].body.Some? && b'[j].body.Some?
        && a'[i].body != b'[j].body && c.hash(a'[i].body.value) == c.hash(b'[j].body.value);
      assert a[i] == a'[i] && b[j] == b'[j];
    }
    if i :| 0 <= i < |a'| && a'[i].body.Some? && c.hash(a'[i].body.value) == GENESIS {
      assert a[i] == a'[i];
    }
    if i :| 0 <= i < |b'| && b'[i].body.Some? && c.hash(b'[i].body.value) == GENESIS {
      assert b[i] == b'[i];
    }
  }

  /** Hence changing, dropping, inserting or reordering records without changing the last hash is noticed,
      unless the hash function is broken. */
  lemma TamperingIsNoticed(c: Crypto, a: seq<Record>, b: seq<Record>, p: Policy)
    requires Verified(c, a, p) && LastHash(a) == LastHash(b) && !SameBodies(a, b)
    requires forall x, y :: c.hash(x) == c.hash(y) ==> x == y
    requires forall x :: c.hash(x) != GENESIS
    ensures !Verified(c, b, p)
  {
    if Verified(c, b, p) {
      LastHashPinsHistory(c, a, b, p, p);
    }
  }
}
