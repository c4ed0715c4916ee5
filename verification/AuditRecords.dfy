/** One audit row, the check that every walk over the chain shares, and what an
    accepted chain means (services/gateway/audit_verification.py). */
module AuditRecords {
  import opened Values

  /** The first link of every chain: sixty-four zeros. */
  const GENESIS_HASH := "0000000000000000000000000000000000000000000000000000000000000000"

  type PrivateKey = nat
  type PublicKey = nat
  type Signature = nat

  /** SHA-256 over (previous hash, canonical payload) and ECDSA, left uninterpreted. */
  datatype Crypto = Crypto(
    digest: (string, Object) -> string,
    publicOf: PrivateKey -> PublicKey,
    keyId: PublicKey -> string,
    sign: (PrivateKey, string) -> Signature,
    checks: (PublicKey, Signature, string) -> bool)

  ghost predicate CollisionFree(c: Crypto) {
    && (forall p, m, q, n :: c.digest(p, m) == c.digest(q, n) ==> p == q && m == n)
    && (forall p, m :: c.digest(p, m) != GENESIS_HASH)
  }

  ghost predicate SignaturesCheck(c: Crypto) {
    forall k, h :: c.checks(c.publicOf(k), c.sign(k, h), h)
  }

  /** A row of audit_log. */
  datatype AuditRecord = AuditRecord(
    seqNo: int,
    prevHash: string,
    currHash: string,
    signature: Signature,
    keyId: Option<string>,
    timestamp: int,
    identityId: string,
    serverId: Option<string>,
    toolName: Option<string>,
    policyVersion: int,
    eventType: string,
    riskScore: Option<int>,
    payload: Object)

  /** Public keys reachable by key id: the key directory or an export's bundle. */
  type Keyring = map<string, PublicKey>

  datatype Failure =
    | MissingKeyId
    | BrokenLink
    | TamperedRow
    | UnknownKey
    | FingerprintMismatch
    | BadSignature
    | TamperedProjection(field: string)

  function OptionalText(t: Option<string>): Json {
    if t.Some? then Str(t.value) else Null
  }

  /** The five columns that are projections of the hashed payload. */
  function Projections(r: AuditRecord): seq<(string, Json)> {
    [ ("event_type", Str(r.eventType)),
      ("identity_id", Str(r.identityId)),
      ("server_id", OptionalText(r.serverId)),
      ("tool_name", OptionalText(r.toolName)),
      ("policy_version", Int(r.policyVersion)) ]
  }

  /** The key id a row is checked under: its own, or the caller's for rows older
      than key rotation. An empty id counts as absent. */
  function CheckedKeyId(r: AuditRecord, legacy: Option<string>): Option<string> {
    if r.keyId.Some? && r.keyId.value != "" then r.keyId else legacy
  }

  /** What a genuine row is: it continues the chain, its hash covers its payload, it
      is signed by the ring's key of that fingerprint, and every projected column
      equals its hashed copy. */
  ghost predicate Genuine(c: Crypto, r: AuditRecord, prev: string, ring: Keyring, legacy: Option<string>) {
    var id := CheckedKeyId(r, legacy);
    && id.Some?
    && r.prevHash == prev
    && r.currHash == c.digest(prev, r.payload)
    && id.value in ring
    && c.keyId(ring[id.value]) == id.value
    && c.checks(ring[id.value], r.signature, r.currHash)
    && ColumnsAgree(r)
    && (Get(r.payload, "key_id") == Null || Get(r.payload, "key_id") == Str(id.value))
  }

  ghost predicate ColumnsAgree(r: AuditRecord) {
    && Get(r.payload, "event_type") == Str(r.eventType)
    && Get(r.payload, "identity_id") == Str(r.identityId)
    && Get(r.payload, "server_id") == OptionalText(r.serverId)
    && Get(r.payload, "tool_name") == OptionalText(r.toolName)
    && Get(r.payload, "policy_version") == Int(r.policyVersion)
  }

  /** What each reported failure tells the operator about the row. */
  ghost predicate Explains(f: Failure, c: Crypto, r: AuditRecord, prev: string, ring: Keyring, legacy: Option<string>) {
    var id := CheckedKeyId(r, legacy);
    match f
    case MissingKeyId => id.None?
    case BrokenLink => r.prevHash != prev
    case TamperedRow => r.prevHash == prev && r.currHash != c.digest(prev, r.payload)
    case UnknownKey => id.Some? && id.value !in ring
    case FingerprintMismatch => id.Some? && id.value in ring && c.keyId(ring[id.value]) != id.value
    case BadSignature => id.Some? && id.value in ring && !c.checks(ring[id.value], r.signature, r.currHash)
    case TamperedProjection(field) =>
      if field == "key_id" then id.Some? && Get(r.payload, field) !in {Null, Str(id.value)}
      else exists column :: (field, column) in Projections(r) && Get(r.payload, field) != column
  }

  /** verify_record: the checks in the order in which the first failure is reported. */
  method VerifyRecord(c: Crypto, r: AuditRecord, prev: string, ring: Keyring, legacy: Option<string>)
    returns (res: Result<string, Failure>)
    ensures res.Ok? <==> Genuine(c, r, prev, ring, legacy)
    ensures res.Ok? ==> res.value == r.currHash
    ensures res.Err? ==> Explains(res.error, c, r, prev, ring, legacy)
  {
    var id := CheckedKeyId(r, legacy);
    if id.None? { return Err(MissingKeyId); }
    if r.prevHash != prev { return Err(BrokenLink); }
    if c.digest(prev, r.payload) != r.currHash { return Err(TamperedRow); }
    if id.value !in ring { return Err(UnknownKey); }
    var key := ring[id.value];
    if c.keyId(key) != id.value { return Err(FingerprintMismatch); }
    if !c.checks(key, r.signature, r.currHash) { return Err(BadSignature); }
    var fields := Projections(r);
    for i := 0 to |fields|
      invariant forall j :: 0 <= j < i ==> Get(r.payload, fields[j].0) == fields[j].1
    {
      if Get(r.payload, fields[i].0) != fields[i].1 {
        assert (fields[i].0, fields[i].1) in fields;
        return Err(TamperedProjection(fields[i].0));
      }
    }
    assert ColumnsAgree(r) by {
      assert fields[0].0 == "event_type" && fields[1].0 == "identity_id" && fields[2].0 == "server_id";
      assert fields[3].0 == "tool_name" && fields[4].0 == "policy_version";
    }
    var named := Get(r.payload, "key_id");
    if named != Null && named != Str(id.value) { return Err(TamperedProjection("key_id")); }
    return Ok(r.currHash);
  }

  /** The hash that row i must continue when the walk starts from `anchor`. */
  function PrevOf(rows: seq<AuditRecord>, i: nat, anchor: string): string
    requires i <= |rows|
  {
    if i == 0 then anchor else rows[i - 1].currHash
  }

  ghost predicate GoodAt(c: Crypto, rows: seq<AuditRecord>, i: nat, anchor: string, ring: Keyring, legacy: Option<string>)
    requires i < |rows|
  {
    Genuine(c, rows[i], PrevOf(rows, i, anchor), ring, legacy)
  }

  /** The first n rows all check out. */
  ghost predicate AcceptedPrefix(c: Crypto, rows: seq<AuditRecord>, n: nat, anchor: string, ring: Keyring, legacy: Option<string>) {
    n <= |rows| && forall i :: 0 <= i < n ==> GoodAt(c, rows, i, anchor, ring, legacy)
  }

  ghost predicate Accepted(c: Crypto, rows: seq<AuditRecord>, anchor: string, ring: Keyring, legacy: Option<string>) {
    AcceptedPrefix(c, rows, |rows|, anchor, ring, legacy)
  }

  /** Rows as the database yields them: positive, strictly increasing sequence numbers. */
  ghost predicate Ordered(rows: seq<AuditRecord>) {
    && (forall i :: 0 <= i < |rows| ==> rows[i].seqNo > 0)
    && (forall i, j :: 0 <= i < j < |rows| ==> rows[i].seqNo < rows[j].seqNo)
  }

  function HeadHash(rows: seq<AuditRecord>): string {
    PrevOf(rows, |rows|, GENESIS_HASH)
  }

  /** Everything a row's hash protects: its payload, its link and the projected columns. */
  ghost predicate SameProtected(a: AuditRecord, b: AuditRecord) {
    && a.payload == b.payload && a.prevHash == b.prevHash && a.currHash == b.currHash
    && a.eventType == b.eventType && a.identityId == b.identityId && a.serverId == b.serverId
    && a.toolName == b.toolName && a.policyVersion == b.policyVersion
  }

  lemma SamePayloadSameColumns(a: AuditRecord, b: AuditRecord)
    requires ColumnsAgree(a) && ColumnsAgree(b) && a.payload == b.payload
    ensures a.eventType == b.eventType && a.identityId == b.identityId && a.serverId == b.serverId
    ensures a.toolName == b.toolName && a.policyVersion == b.policyVersion
  {
    assert Str(a.eventType) == Str(b.eventType) && Str(a.identityId) == Str(b.identityId);
    assert Int(a.policyVersion) == Int(b.policyVersion);
  }

  lemma NeverGenesis(c: Crypto, rows: seq<AuditRecord>, n: nat, ring: Keyring, legacy: Option<string>)
    requires CollisionFree(c) && AcceptedPrefix(c, rows, n, GENESIS_HASH, ring, legacy)
    ensures forall k :: 0 <= k < n ==> rows[k].currHash != GENESIS_HASH
  {
    forall k | 0 <= k < n ensures rows[k].currHash != GENESIS_HASH {
      assert GoodAt(c, rows, k, GENESIS_HASH, ring, legacy);
    }
  }

  /** The row was signed: with a key of the ring whose fingerprint is the id the row is checked
      under, over the hash of its own link and payload. `signed` is what was ever signed, by
      fingerprint and hash. */
  ghost predicate WasSigned(c: Crypto, r: AuditRecord, ring: Keyring, legacy: Option<string>, signed: set<(string, string)>) {
    exists id :: id in ring && (r.keyId == Some(id) || ((r.keyId.None? || r.keyId == Some("")) && legacy == Some(id)))
      && (id, c.digest(r.prevHash, r.payload)) in signed
      && ("key_id" in r.payload ==> r.payload["key_id"] in {Null, Str(id)})
  }

  /** Nothing passes that was not signed: in a chain accepted by any verifier every row was
      signed with the key it names over the hash of its link and payload, continues its
      predecessor, and shows in its columns what the signed payload says. */
  lemma AcceptedRowsWereSigned(c: Crypto, rows: seq<AuditRecord>, anchor: string, ring: Keyring, legacy: Option<string>,
                               signed: set<(string, string)>, i: nat)
    requires forall key, sig, h :: c.checks(key, sig, h) ==> (c.keyId(key), h) in signed
    requires Accepted(c, rows, anchor, ring, legacy) && i < |rows|
    ensures WasSigned(c, rows[i], ring, legacy, signed)
    ensures rows[i].currHash == c.digest(rows[i].prevHash, rows[i].payload)
    ensures rows[i].prevHash == if i == 0 then anchor else rows[i - 1].currHash
    ensures
      var p := rows[i].payload;
      && "event_type" in p && p["event_type"] == Str(rows[i].eventType)
      && "identity_id" in p && p["identity_id"] == Str(rows[i].identityId)
      && (if rows[i].serverId.Some? then "server_id" in p && p["server_id"] == Str(rows[i].serverId.value)
          else "server_id" in p ==> p["server_id"] == Null)
      && (if rows[i].toolName.Some? then "tool_name" in p && p["tool_name"] == Str(rows[i].toolName.value)
          else "tool_name" in p ==> p["tool_name"] == Null)
      && "policy_version" in p && p["policy_version"] == Int(rows[i].policyVersion)
  {
    assert GoodAt(c, rows, i, anchor, ring, legacy);
    var id := CheckedKeyId(rows[i], legacy).value;
    assert c.checks(ring[id], rows[i].signature, rows[i].currHash) && c.keyId(ring[id]) == id;
    assert (id, rows[i].currHash) in signed;
  }

  /** A hash met in two accepted chains stands at the same place in both, after the
      same history, whatever key rings the two were checked with. */
  lemma {:induction false} OneHashOneHistory(c: Crypto,
      a: seq<AuditRecord>, ringA: Keyring, legacyA: Option<string>, i: nat,
      b: seq<AuditRecord>, ringB: Keyring, legacyB: Option<string>, j: nat)
    requires CollisionFree(c)
    requires i < |a| && AcceptedPrefix(c, a, i + 1, GENESIS_HASH, ringA, legacyA)
    requires j < |b| && AcceptedPrefix(c, b, j + 1, GENESIS_HASH, ringB, legacyB)
    requires a[i].currHash == b[j].currHash
    ensures i == j
    ensures forall k :: 0 <= k <= i ==> SameProtected(a[k], b[k])
    decreases i
  {
    assert GoodAt(c, a, i, GENESIS_HASH, ringA, legacyA) && GoodAt(c, b, j, GENESIS_HASH, ringB, legacyB);
    SamePayloadSameColumns(a[i], b[j]);
    NeverGenesis(c, a, i + 1, ringA, legacyA);
    NeverGenesis(c, b, j + 1, ringB, legacyB);
    if i > 0 && j > 0 {
      OneHashOneHistory(c, a, ringA, legacyA, i - 1, b, ringB, legacyB, j - 1);
    }
  }

  /** Two chains accepted from genesis with the same head are the same history. */
  lemma HeadFixesHistory(c: Crypto,
      a: seq<AuditRecord>, ringA: Keyring, legacyA: Option<string>,
      b: seq<AuditRecord>, ringB: Keyring, legacyB: Option<string>)
    requires CollisionFree(c)
    requires Accepted(c, a, GENESIS_HASH, ringA, legacyA) && Accepted(c, b, GENESIS_HASH, ringB, legacyB)
    requires HeadHash(a) == HeadHash(b)
    ensures |a| == |b| && forall k :: 0 <= k < |a| ==> SameProtected(a[k], b[k])
  {
    NeverGenesis(c, a, |a|, ringA, legacyA);
    NeverGenesis(c, b, |b|, ringB, legacyB);
    if |a| > 0 && |b| > 0 {
      OneHashOneHistory(c, a, ringA, legacyA, |a| - 1, b, ringB, legacyB, |b| - 1);
    }
  }

  /** No hash repeats along an accepted chain, so a row cannot be replayed further on. */
  lemma HashesNeverRepeat(c: Crypto, rows: seq<AuditRecord>, ring: Keyring, legacy: Option<string>, i: nat, j: nat)
    requires CollisionFree(c) && Accepted(c, rows, GENESIS_HASH, ring, legacy)
    requires i < |rows| && j < |rows| && rows[i].currHash == rows[j].currHash
    ensures i == j
  {
    OneHashOneHistory(c, rows, ring, legacy, i, rows, ring, legacy, j);
  }
}
