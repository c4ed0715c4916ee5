/** The hash-chain writer, its Redis pointer cache and the key handoff
    (services/gateway/audit_log.py). */
module AuditWriter {
  import opened Values
  import opened AuditRecords
  import opened AuditKeys

  // ----- rows -----

  /** What a caller asks to have recorded. `extra` is payload_extra, already free of NUL. */
  datatype Request = Request(
    eventType: string,
    identityId: string,
    serverId: Option<string>,
    toolName: Option<string>,
    extra: Object,
    riskScore: Option<int>)

  /** _jsonb_safe on text: Postgres JSONB cannot hold NUL. */
  function CleanText(s: string): string {
    if s == "" then "" else (if s[0] == '\0' then "\\u0000" else [s[0]]) + CleanText(s[1..])
  }

  predicate HasNul(req: Request) {
    || '\0' in req.eventType || '\0' in req.identityId
    || (req.serverId.Some? && '\0' in req.serverId.value)
    || (req.toolName.Some? && '\0' in req.toolName.value)
  }

  /** A request is refused for a NUL in any of its columns. */
  lemma NulInAnyColumn(req: Request)
    ensures HasNul(req) <==>
      '\0' in req.eventType + req.identityId + (if req.serverId.Some? then req.serverId.value else "")
                                             + (if req.toolName.Some? then req.toolName.value else "")
  {
  }

  function CleanOptional(t: Option<string>): Json {
    if t.Some? then Str(CleanText(t.value)) else Null
  }

  /** The hashed payload: the projected fields and the key id, overridden by the extras. */
  function PayloadOf(req: Request, policyVersion: int, keyId: string): Object {
    map[
      "event_type" := Str(CleanText(req.eventType)),
      "identity_id" := Str(CleanText(req.identityId)),
      "server_id" := CleanOptional(req.serverId),
      "tool_name" := CleanOptional(req.toolName),
      "policy_version" := Int(policyVersion),
      "key_id" := Str(keyId)
    ] + req.extra
  }

  function RowOf(c: Crypto, req: Request, prev: string, key: PrivateKey, policyVersion: int, seqNo: int, timestamp: int): AuditRecord {
    var payload := PayloadOf(req, policyVersion, KeyIdOf(c, key));
    var curr := c.digest(prev, payload);
    AuditRecord(seqNo, prev, curr, c.sign(key, curr), Some(KeyIdOf(c, key)), timestamp,
                req.identityId, req.serverId, req.toolName, policyVersion, req.eventType, req.riskScore, payload)
  }

  ghost predicate InRing(c: Crypto, ring: Keyring, key: PrivateKey) {
    KeyIdOf(c, key) in ring && ring[KeyIdOf(c, key)] == c.publicOf(key)
  }

  /** The row continues `prev`, its hash covers its payload, and it is signed with the
      ring's key of the id it names. */
  ghost predicate WellMade(c: Crypto, ring: Keyring, row: AuditRecord, prev: string) {
    && row.prevHash == prev && row.currHash == c.digest(prev, row.payload)
    && row.keyId.Some? && row.keyId.value != "" && row.keyId.value in ring
    && c.keyId(ring[row.keyId.value]) == row.keyId.value
    && c.checks(ring[row.keyId.value], row.signature, row.currHash)
  }

  lemma RowsAreWellMade(c: Crypto, ring: Keyring, req: Request, prev: string, key: PrivateKey, policyVersion: int,
                        seqNo: int, timestamp: int)
    requires SignaturesCheck(c) && DistinctKeys(c) && InRing(c, ring, key)
    ensures WellMade(c, ring, RowOf(c, req, prev, key, policyVersion, seqNo, timestamp), prev)
  {
  }

  ghost predicate ChainMade(c: Crypto, ring: Keyring, log: seq<AuditRecord>) {
    Ordered(log) && forall i :: 0 <= i < |log| ==> WellMade(c, ring, log[i], PrevOf(log, i, GENESIS_HASH))
  }

  /** The extras leave the projected fields and the key id as the columns have them. */
  ghost predicate ExtrasAgree(req: Request, policyVersion: int, keyId: string) {
    && ("event_type" in req.extra ==> req.extra["event_type"] == Str(req.eventType))
    && ("identity_id" in req.extra ==> req.extra["identity_id"] == Str(req.identityId))
    && ("server_id" in req.extra ==> req.extra["server_id"] == OptionalText(req.serverId))
    && ("tool_name" in req.extra ==> req.extra["tool_name"] == OptionalText(req.toolName))
    && ("policy_version" in req.extra ==> req.extra["policy_version"] == Int(policyVersion))
    && ("key_id" in req.extra ==> req.extra["key_id"] in {Null, Str(keyId)})
  }

  /** The stored row's columns and key id are the hashed ones. */
  ghost predicate Faithful(row: AuditRecord) {
    && ColumnsAgree(row)
    && row.keyId.Some?
    && (Get(row.payload, "key_id") == Null || Get(row.payload, "key_id") == Str(row.keyId.value))
  }

  lemma {:induction false} CleanTextKeepsNulFree(s: string)
    requires '\0' !in s
    ensures CleanText(s) == s
  {
    if s != "" {
      CleanTextKeepsNulFree(s[1..]);
    }
  }

  /** A written row is faithful exactly when its extras do not contradict its columns. */
  lemma FaithfulExactlyWhenExtrasAgree(c: Crypto, req: Request, prev: string, key: PrivateKey, policyVersion: int,
                                       seqNo: int, timestamp: int)
    requires !HasNul(req)
    ensures Faithful(RowOf(c, req, prev, key, policyVersion, seqNo, timestamp))
        <==> ExtrasAgree(req, policyVersion, KeyIdOf(c, key))
  {
    CleanTextKeepsNulFree(req.eventType);
    CleanTextKeepsNulFree(req.identityId);
    if req.serverId.Some? { CleanTextKeepsNulFree(req.serverId.value); }
    if req.toolName.Some? { CleanTextKeepsNulFree(req.toolName.value); }
  }

  /** In a chain the writer made, every verifier accepts a row exactly when it is
      faithful: linkage, hash, key and signature never fail. */
  lemma WriterChainVerifies(c: Crypto, ring: Keyring, log: seq<AuditRecord>, i: nat)
    requires ChainMade(c, ring, log) && i < |log|
    ensures GoodAt(c, log, i, GENESIS_HASH, ring, None) <==> Faithful(log[i])
  {
    assert WellMade(c, ring, log[i], PrevOf(log, i, GENESIS_HASH));
  }

  // ----- the protocol, one Redis or Postgres step at a time -----

  /** Where the lock holder is: `seen` is the pointer as WATCH found it. */
  datatype At =
    | Idle
    | Watching(seen: Option<string>)
    | Linked(seen: Option<string>, prev: string)
    | Stored(seen: Option<string>, curr: string)

  datatype State = State(log: seq<AuditRecord>, pointer: Option<string>, dirty: bool, at: At)

  /** Vanish may strike at any moment; Restart is a crash followed by a new process.
      Conflict is EXEC refused because the pointer changed since WATCH; Break is any
      other EXEC error, whose SET may have been applied and whose clean-up may work. */
  datatype Step =
    | Vanish
    | Restart
    | Watch
    | ReadLink
    | Insert(row: AuditRecord)
    | Confirm
    | Conflict
    | Break(applied: bool, deleted: bool)
    | GiveUp

  function LastSeq(log: seq<AuditRecord>): int {
    if |log| == 0 then 0 else log[|log| - 1].seqNo
  }

  ghost predicate Enabled(c: Crypto, ring: Keyring, s: State, a: Step) {
    match a
    case Vanish => true
    case Restart => true
    case Watch => s.at.Idle?
    case ReadLink => s.at.Watching?
    case Insert(row) => s.at.Linked? && WellMade(c, ring, row, s.at.prev) && row.seqNo > LastSeq(s.log)
    case Confirm => s.at.Stored?
    case Conflict => s.at.Stored? && s.pointer != s.at.seen
    case Break(_, _) => s.at.Stored?
    case GiveUp => s.at.Watching? || s.at.Linked?
  }

  /** The link a write takes: the cached pointer when it is trusted and there, else the tail. */
  function LinkOf(s: State): string {
    if !s.dirty && s.pointer.Some? then s.pointer.value else HeadHash(s.log)
  }

  function Next(s: State, a: Step): State {
    match a
    case Vanish => s.(pointer := None)
    case Restart => s.(dirty := true, at := Idle)
    case Watch => s.(at := Watching(s.pointer))
    case ReadLink => if s.at.Watching? then s.(at := Linked(s.at.seen, LinkOf(s))) else s
    case Insert(row) => if s.at.Linked? then s.(log := s.log + [row], at := Stored(s.at.seen, row.currHash)) else s
    case Confirm => if s.at.Stored? then State(s.log, Some(s.at.curr), false, Idle) else s
    case Conflict => s.(at := Idle)
    case Break(applied, deleted) =>
      if !s.at.Stored? then s
      else State(s.log, if deleted then None else if applied then Some(s.at.curr) else s.pointer, true, Idle)
    case GiveUp => s.(at := Idle)
  }

  /** The clean pointer is the tail's hash, or the hash WATCH saw while a new tail waits
      to be published; the link in hand is the tail; and the chain is whole. */
  ghost predicate Sound(c: Crypto, ring: Keyring, s: State) {
    && ChainMade(c, ring, s.log)
    && (!s.dirty && s.pointer.Some? ==>
          match s.at
          case Idle => s.pointer.value == HeadHash(s.log)
          case Watching(seen) => s.pointer == seen && s.pointer.value == HeadHash(s.log)
          case Linked(seen, _) => s.pointer == seen && s.pointer.value == HeadHash(s.log)
          case Stored(seen, _) => s.pointer == seen && s.log != [] && s.pointer.value == s.log[|s.log| - 1].prevHash)
    && (s.at.Linked? ==> s.at.prev == HeadHash(s.log))
    && (s.at.Stored? ==> s.at.curr == HeadHash(s.log))
  }

  /** A cached pointer that is trusted is the hash of the Postgres tail. */
  ghost predicate CacheCoherent(s: State) {
    !s.dirty && s.pointer.Some? ==> s.pointer.value == HeadHash(s.log)
  }

  function Run(s: State, steps: seq<Step>): State {
    if |steps| == 0 then s else Next(Run(s, steps[..|steps| - 1]), steps[|steps| - 1])
  }

  ghost predicate Legal(c: Crypto, ring: Keyring, s: State, steps: seq<Step>) {
    forall i :: 0 <= i < |steps| ==> Enabled(c, ring, Run(s, steps[..i]), steps[i])
  }

  lemma AppendToChain(c: Crypto, ring: Keyring, log: seq<AuditRecord>, row: AuditRecord)
    requires ChainMade(c, ring, log) && WellMade(c, ring, row, HeadHash(log)) && row.seqNo > LastSeq(log)
    ensures ChainMade(c, ring, log + [row])
  {
    var grown := log + [row];
    OrderedAppend(log, row);
    forall i | 0 <= i < |grown| ensures WellMade(c, ring, grown[i], PrevOf(grown, i, GENESIS_HASH)) {
      SameLink(log, row, i);
      if i < |log| {
        assert WellMade(c, ring, log[i], PrevOf(log, i, GENESIS_HASH));
      } else {
        assert WellMade(c, ring, row, HeadHash(log));
      }
    }
  }

  lemma SameLink(log: seq<AuditRecord>, row: AuditRecord, i: nat)
    requires i <= |log|
    ensures PrevOf(log + [row], i, GENESIS_HASH) == PrevOf(log, i, GENESIS_HASH)
    ensures (log + [row])[i] == if i < |log| then log[i] else row
  {
  }

  lemma OrderedAppend(log: seq<AuditRecord>, row: AuditRecord)
    requires Ordered(log) && row.seqNo > LastSeq(log)
    ensures Ordered(log + [row])
  {
  }

  lemma StepKeepsSound(c: Crypto, ring: Keyring, s: State, a: Step)
    requires Sound(c, ring, s) && Enabled(c, ring, s, a)
    ensures Sound(c, ring, Next(s, a))
  {
    if a.Insert? {
      AppendToChain(c, ring, s.log, a.row);
    }
  }

  /** Under every run of writes, retries, Redis failures, vanishing pointers and
      restarts the chain stays linked back to genesis, and whenever the lock is free
      the trusted pointer is the hash of the tail. */
  lemma {:induction false} EveryRunIsSound(c: Crypto, ring: Keyring, s: State, steps: seq<Step>)
    requires Sound(c, ring, s) && Legal(c, ring, s, steps)
    ensures Sound(c, ring, Run(s, steps))
    ensures Run(s, steps).at.Idle? ==> CacheCoherent(Run(s, steps))
  {
    if |steps| > 0 {
      var n := |steps| - 1;
      assert forall i :: 0 <= i < n ==> steps[..n][..i] == steps[..i];
      EveryRunIsSound(c, ring, s, steps[..n]);
      StepKeepsSound(c, ring, Run(s, steps[..n]), steps[n]);
    }
  }

  ghost predicate Hashed(c: Crypto, log: seq<AuditRecord>, i: nat)
    requires i < |log|
  {
    log[i].prevHash == PrevOf(log, i, GENESIS_HASH) && log[i].currHash == c.digest(log[i].prevHash, log[i].payload)
  }

  lemma WriterRowsAreHashed(c: Crypto, ring: Keyring, log: seq<AuditRecord>)
    requires ChainMade(c, ring, log)
    ensures forall i :: 0 <= i < |log| ==> Hashed(c, log, i)
  {
    forall i | 0 <= i < |log| ensures Hashed(c, log, i) {
      assert WellMade(c, ring, log[i], PrevOf(log, i, GENESIS_HASH));
    }
  }

  lemma {:induction false} LinksNeverRepeat(c: Crypto, log: seq<AuditRecord>, i: nat)
    requires CollisionFree(c) && i < |log| && forall k :: 0 <= k < |log| ==> Hashed(c, log, k)
    ensures PrevOf(log, i, GENESIS_HASH) != PrevOf(log, i + 1, GENESIS_HASH)
  {
    assert Hashed(c, log, i);
    if i > 0 {
      LinksNeverRepeat(c, log, i - 1);
      assert Hashed(c, log, i - 1);
    }
  }

  lemma NextLink(s: State)
    requires s.at.Idle?
    ensures Run(s, [Watch, ReadLink]) == s.(at := Linked(s.pointer, LinkOf(s)))
  {
    assert [Watch, ReadLink][..1] == [Watch] && [Watch][..0] == [];
    assert Run(s, [Watch]) == s.(at := Watching(s.pointer));
  }

  /** A task cancelled between its commit and the pointer update leaves the stale pointer
      trusted. The next write then links past the new tail exactly when the pointer was
      trusted and still there. */
  lemma CancelledAfterCommitForksTheChain(c: Crypto, ring: Keyring, s: State)
    requires CollisionFree(c) && Sound(c, ring, s) && s.at.Stored? && s.log != []
    ensures
      var next := Run(s.(at := Idle), [Watch, ReadLink]);
      next.at.Linked? && (next.at.prev == HeadHash(s.log) <==> s.dirty || s.pointer.None?)
  {
    var n := |s.log| - 1;
    WriterRowsAreHashed(c, ring, s.log);
    LinksNeverRepeat(c, s.log, n);
    assert Hashed(c, s.log, n);
    NextLink(s.(at := Idle));
  }

  lemma RunAppend(c: Crypto, ring: Keyring, s: State, steps: seq<Step>, a: Step)
    requires Legal(c, ring, s, steps) && Enabled(c, ring, Run(s, steps), a)
    ensures Legal(c, ring, s, steps + [a]) && Run(s, steps + [a]) == Next(Run(s, steps), a)
  {
    var more := steps + [a];
    assert more[..|steps|] == steps;
    assert forall i :: 0 <= i < |steps| ==> more[..i] == steps[..i];
  }

  // ----- the writer -----

  /** What outlives the process: the Postgres table and the Redis pointer. */
  class Stores {
    var log: seq<AuditRecord>
    var pointer: Option<string>

    constructor ()
      ensures log == [] && pointer == None
    {
      log, pointer := [], None;
    }
  }

  datatype Written = Wrote(seqNo: int) | Failed | Died
  datatype Reached = Through | Unreachable | Dead
  datatype Answer = Executed | Conflicting | Refused

  ghost predicate CanSign(c: Crypto, ring: Keyring, key: PrivateKey) {
    SignaturesCheck(c) && DistinctKeys(c) && InRing(c, ring, key)
  }

  /** `steps` is a legal run from the sound state s to e; EveryRunIsSound makes e sound. */
  ghost predicate Moves(c: Crypto, ring: Keyring, s: State, steps: seq<Step>, e: State) {
    Sound(c, ring, s) && Legal(c, ring, s, steps) && Run(s, steps) == e
  }

  /** The row records the request under the given key. */
  ghost predicate Records(c: Crypto, row: AuditRecord, req: Request, key: PrivateKey) {
    row == RowOf(c, req, row.prevHash, key, row.policyVersion, row.seqNo, row.timestamp)
  }

  /** What a stored row says: its columns are the request's, the score among them, it is
      signed with the writer's key over a hash of its payload, and the payload holds the
      extras as given and beside them the projected fields. */
  lemma RowTellsItsRequest(c: Crypto, row: AuditRecord, req: Request, key: PrivateKey)
    requires Records(c, row, req, key) && !HasNul(req)
    ensures row.eventType == req.eventType && row.identityId == req.identityId
    ensures row.serverId == req.serverId && row.toolName == req.toolName && row.riskScore == req.riskScore
    ensures row.currHash == c.digest(row.prevHash, row.payload)
    ensures row.signature == c.sign(key, row.currHash) && row.keyId == Some(KeyIdOf(c, key))
    ensures row.payload.Keys ==
      req.extra.Keys + {"event_type", "identity_id", "server_id", "tool_name", "policy_version", "key_id"}
    ensures forall k :: k in req.extra ==> row.payload[k] == req.extra[k]
    ensures "event_type" in req.extra || row.payload["event_type"] == Str(req.eventType)
    ensures "identity_id" in req.extra || row.payload["identity_id"] == Str(req.identityId)
    ensures "server_id" in req.extra || row.payload["server_id"] == OptionalText(req.serverId)
    ensures "tool_name" in req.extra || row.payload["tool_name"] == OptionalText(req.toolName)
    ensures "policy_version" in req.extra || row.payload["policy_version"] == Int(row.policyVersion)
    ensures "key_id" in req.extra || row.payload["key_id"] == Str(KeyIdOf(c, key))
  {
    CleanTextKeepsNulFree(req.eventType);
    CleanTextKeepsNulFree(req.identityId);
    if req.serverId.Some? { CleanTextKeepsNulFree(req.serverId.value); }
    if req.toolName.Some? { CleanTextKeepsNulFree(req.toolName.value); }
  }

  class AuditWriter {
    const stores: Stores
    var dirty: bool
    var available: bool
    var key: PrivateKey

    /** A process starts by distrusting the pointer. */
    constructor (stores: Stores, key: PrivateKey)
      ensures this.stores == stores && dirty && available && this.key == key
    {
      this.stores := stores;
      this.key := key;
      dirty, available := true, true;
    }

    /** The protocol state between calls, when the lock is free. */
    function Snapshot(): State
      reads this, stores
    {
      State(stores.log, stores.pointer, dirty, Idle)
    }

    /** _write_locked: one row, retried while EXEC reports a conflict (at most `patience`
        times here). All it does is a legal run of protocol steps, whatever fails. Every
        row it commits records the request; a conflict after a commit makes it commit
        the row again. After Died the object stands for the next process's writer. */
    method WriteLocked(c: Crypto, ghost ring: Keyring, req: Request, patience: nat, calm: bool)
      returns (res: Written, ghost steps: seq<Step>, ghost added: seq<AuditRecord>, ghost retried: nat)
      requires Sound(c, ring, Snapshot()) && CanSign(c, ring, key)
      modifies this`dirty, stores
      ensures Moves(c, ring, old(Snapshot()), steps, Snapshot())
      ensures stores.log == old(stores.log) + added
      ensures forall i :: 0 <= i < |added| ==> Records(c, added[i], req, key)
      ensures retried <= |added| <= retried + 1 && retried <= patience
      ensures res.Wrote? ==> |added| == retried + 1 && res.seqNo == added[retried].seqNo && !dirty
      ensures HasNul(req) ==> added == [] && !res.Wrote?
      ensures calm ==> res == if HasNul(req) then Failed else Wrote(LastSeq(stores.log))
      ensures calm && !HasNul(req) ==> |added| == 1
    {
      NoSteps(c, ring, Snapshot());
      hide Moves, Sound, CanSign, HasNul, Records, LastSeq, Snapshot;
      ghost var start := Snapshot();
      steps, added, retried := [], [], 0;
      var left := patience;
      while true
        invariant Moves(c, ring, start, steps, Snapshot())
        invariant stores.log == old(stores.log) + added
        invariant forall i :: 0 <= i < |added| ==> Records(c, added[i], req, key)
        invariant |added| == retried == patience - left
        invariant HasNul(req) || calm ==> retried == 0
        decreases left
      {
        ghost var more: seq<AuditRecord>;
        var again;
        var engine: int := *;
        res, again, steps, more := Attempt(c, ring, req, engine, left > 0, calm, start, steps);
        assert stores.log == old(stores.log) + (added + more);
        added := added + more;
        if !again {
          return;
        }
        left := left - 1;
        retried := retried + 1;
      }
    }

    /** The protocol state while the lock holder is at the given point. */
    function SnapshotAt(at: At): State
      reads this, stores
    {
      State(stores.log, stores.pointer, dirty, at)
    }

    /** What may happen between two calls: the pointer vanishes, the process dies. */
    method Pause(c: Crypto, ghost ring: Keyring, calm: bool, ghost at: At, ghost start: State, ghost steps: seq<Step>)
      returns (died: bool, ghost more: seq<Step>)
      requires Moves(c, ring, start, steps, SnapshotAt(at))
      modifies this`dirty, stores`pointer
      ensures Moves(c, ring, start, more, SnapshotAt(if died then Idle else at))
      ensures calm ==> !died && stores.pointer == old(stores.pointer)
    {
      more, died := steps, false;
      var vanishes, restarts: bool := *, *;
      if !calm && vanishes {
        more := Take(c, ring, start, more, SnapshotAt(at), Vanish);
        stores.pointer := None;
      }
      if !calm && restarts {
        more := Take(c, ring, start, more, SnapshotAt(at), Restart);
        dirty, died := true, true;
      }
    }

    /** WATCH, then the link: the trusted pointer, or the tail from Postgres. */
    method TakeLink(c: Crypto, ghost ring: Keyring, calm: bool, ghost start: State, ghost steps: seq<Step>)
      returns (reached: Reached, seen: Option<string>, prev: string, ghost more: seq<Step>)
      requires Moves(c, ring, start, steps, Snapshot())
      modifies this`dirty, stores`pointer
      ensures Moves(c, ring, start, more, SnapshotAt(if reached == Through then Linked(seen, prev) else Idle))
      ensures calm ==> reached == Through && stores.pointer == seen
    {
      seen, prev, more := stores.pointer, "", steps;
      var unwatched, unread: bool := *, *;
      if !calm && unwatched { return Unreachable, seen, prev, more; }
      more := Take(c, ring, start, more, Snapshot(), Watch);
      var died;
      died, more := Pause(c, ring, calm, Watching(seen), start, more);
      if died { return Dead, seen, prev, more; }
      if !calm && unread {
        more := Take(c, ring, start, more, SnapshotAt(Watching(seen)), GiveUp);
        return Unreachable, seen, prev, more;
      }
      prev := if !dirty && stores.pointer.Some? then stores.pointer.value else HeadHash(stores.log);
      more := Take(c, ring, start, more, SnapshotAt(Watching(seen)), ReadLink);
      reached := Through;
    }

    /** INSERT and COMMIT: the row is stored, or an error is raised with nothing stored. */
    method Commit(c: Crypto, ghost ring: Keyring, req: Request, engine: int, calm: bool,
                  ghost seen: Option<string>, prev: string, ghost start: State, ghost steps: seq<Step>)
      returns (stored: bool, row: AuditRecord, ghost more: seq<Step>)
      requires Moves(c, ring, start, steps, SnapshotAt(Linked(seen, prev))) && CanSign(c, ring, key)
      modifies stores`log
      ensures Moves(c, ring, start, more, SnapshotAt(if stored then Stored(seen, row.currHash) else Idle))
      ensures stores.log == if stored then old(stores.log) + [row] else old(stores.log)
      ensures Records(c, row, req, key) && row.prevHash == prev && row.policyVersion == engine
      ensures HasNul(req) ==> !stored
      ensures calm && !HasNul(req) ==> stored
    {
      var skipped: nat, timestamp := *, *;
      row := RowOf(c, req, prev, key, engine, LastSeq(stores.log) + 1 + skipped, timestamp);
      var refused: bool := *;
      if HasNul(req) || (!calm && refused) {
        more := Take(c, ring, start, steps, SnapshotAt(Linked(seen, prev)), GiveUp);
        return false, row, more;
      }
      RowsAreWellMade(c, ring, req, prev, key, engine, row.seqNo, timestamp);
      more := Take(c, ring, start, steps, SnapshotAt(Linked(seen, prev)), Insert(row));
      stores.log := stores.log + [row];
      stored := true;
    }

    /** EXEC and what the writer makes of its answer. */
    method Publish(c: Crypto, ghost ring: Keyring, seen: Option<string>, curr: string, mayConflict: bool, calm: bool,
                   ghost start: State, ghost steps: seq<Step>)
      returns (answer: Answer, ghost more: seq<Step>)
      requires Moves(c, ring, start, steps, SnapshotAt(Stored(seen, curr)))
      modifies this`dirty, stores`pointer
      ensures Moves(c, ring, start, more, Snapshot())
      ensures answer == Executed ==> !dirty && stores.pointer == Some(curr)
      ensures answer == Conflicting ==> mayConflict
      ensures calm && old(stores.pointer) == seen ==> answer == Executed
    {
      var conflict, broken: bool := *, *;
      if mayConflict && stores.pointer != seen && conflict {
        more := Take(c, ring, start, steps, SnapshotAt(Stored(seen, curr)), Conflict);
        return Conflicting, more;
      }
      if !calm && broken {
        var applied, deleted: bool := *, *;
        more := Take(c, ring, start, steps, SnapshotAt(Stored(seen, curr)), Break(applied, deleted));
        dirty := true;
        if applied { stores.pointer := Some(curr); }
        if deleted { stores.pointer := None; }
        return Refused, more;
      }
      more := Take(c, ring, start, steps, SnapshotAt(Stored(seen, curr)), Confirm);
      stores.pointer := Some(curr);
      dirty := false;
      answer := Executed;
    }

    /** One turn of the retry loop, up to the answer to EXEC. */
    method Attempt(c: Crypto, ghost ring: Keyring, req: Request, engine: int, mayConflict: bool, calm: bool,
                   ghost start: State, ghost steps: seq<Step>)
      returns (res: Written, again: bool, ghost more: seq<Step>, ghost rows: seq<AuditRecord>)
      requires Moves(c, ring, start, steps, Snapshot()) && CanSign(c, ring, key)
      modifies this`dirty, stores
      ensures Moves(c, ring, start, more, Snapshot())
      ensures stores.log == old(stores.log) + rows && |rows| <= 1
      ensures forall i :: 0 <= i < |rows| ==> Records(c, rows[i], req, key) && rows[i].policyVersion == engine
      ensures again ==> mayConflict && |rows| == 1
      ensures !again && res.Wrote? ==> |rows| == 1 && res.seqNo == rows[0].seqNo && !dirty
      ensures HasNul(req) ==> rows == [] && !again && !res.Wrote?
      ensures calm ==> !again && res == if HasNul(req) then Failed else Wrote(LastSeq(stores.log))
    {
      rows, again, res := [], false, Died;
      var died, reached, seen, prev, stored, row, answer;
      died, more := Pause(c, ring, calm, Idle, start, steps);
      if died { return; }
      reached, seen, prev, more := TakeLink(c, ring, calm, start, more);
      if reached != Through {
        res := if reached == Dead then Died else Failed;
        return;
      }
      died, more := Pause(c, ring, calm, Linked(seen, prev), start, more);
      if died { return; }
      stored, row, more := Commit(c, ring, req, engine, calm, seen, prev, start, more);
      if !stored {
        res := Failed;
        return;
      }
      rows := [row];
      died, more := Pause(c, ring, calm, Stored(seen, row.currHash), start, more);
      if died { return; }
      answer, more := Publish(c, ring, seen, row.currHash, mayConflict, calm, start, more);
      res := if answer == Executed then Wrote(row.seqNo) else Failed;
      again := answer == Conflicting;
    }

    /** write: refused while key recovery is pending. The flag is read before the lock is
        taken, so a queued write may still reach WriteLocked after it was cleared. */
    method Write(c: Crypto, ghost ring: Keyring, req: Request, patience: nat, calm: bool)
      returns (res: Written, ghost steps: seq<Step>, ghost added: seq<AuditRecord>)
      requires Sound(c, ring, Snapshot()) && CanSign(c, ring, key)
      modifies this`dirty, stores
      ensures Moves(c, ring, old(Snapshot()), steps, Snapshot())
      ensures stores.log == old(stores.log) + added
      ensures forall i :: 0 <= i < |added| ==> Records(c, added[i], req, key)
      ensures res.Wrote? ==> added != [] && res.seqNo == added[|added| - 1].seqNo
      ensures !available ==> res == Failed && added == []
      ensures calm ==> res == if available && !HasNul(req) then Wrote(LastSeq(stores.log)) else Failed
      ensures calm && res.Wrote? ==> |added| == 1
    {
      if !available {
        return Failed, [], [];
      }
      ghost var retried;
      res, steps, added, retried := WriteLocked(c, ring, req, patience, calm);
    }

    /** rotate: stages the new key, hands over in the chain under the old key, promotes.
        Whatever fails or dies, the disk is where some story of the rotation leaves it. */
    method Rotate(c: Crypto, ghost ring: Keyring, keys: AuditKeyStore, approvedBy: string, operationId: string,
                  next: PrivateKey, patience: nat, calm: bool)
      returns (res: Written, ghost story: Story, ghost steps: seq<Step>, ghost added: seq<AuditRecord>)
      requires Sound(c, ring, Snapshot()) && CanSign(c, ring, key)
      requires KeyIdOf(c, next) !in keys.public
      modifies this, stores, keys
      ensures Moves(c, ring, old(Snapshot()), steps, Snapshot())
      ensures stores.log == old(stores.log) + added
      ensures forall i :: 0 <= i < |added| ==>
          Records(c, added[i], RotationRequest(Staged(c, operationId, old(keys.active), next, approvedBy)), old(key))
      ensures old(available) && old(keys.journal).None? ==>
          && Possible(story) && RowsOf(story) == SeqNos(added)
          && keys.State() == After(c, old(keys.State()), next, Staged(c, operationId, old(keys.active), next, approvedBy), story)
          && (res.Wrote? ==> story == StoppedAfter(SeqNos(added), 5) && key == next && available)
          && (res == Failed ==> (story.RolledBack? && available) || (story.StoppedAfter? && !available))
          && (key == next || key == old(key))
          && (key != old(key) ==> story.StoppedAfter?)
      ensures !old(available) || old(keys.journal).Some? ==> key == old(key) && added == [] && !res.Wrote?
      ensures !old(available) ==> keys.State() == old(keys.State())
      ensures old(available) && old(keys.journal).Some? ==>
          exists n :: 0 <= n <= 2 && keys.State() == Upto(old(keys.State()), DropPlan, n)
      ensures calm ==> (res.Wrote? <==> old(available) && old(keys.journal).None? && '\0' !in approvedBy)
      ensures calm && !res.Wrote? ==> res == Failed && added == [] && available == old(available)
      ensures res.Wrote? ==> keys.active == next && keys.journal.None? && keys.pending.None? && Archived(c, keys.State(), next)
    {
      NoSteps(c, ring, Snapshot());
      HandoffFields(Staged(c, operationId, keys.active, next, approvedBy));
      hide Records, Moves, CanSign, Sound, HasNul, RotationRequest, HandoffPlan, PreparePlan, Apply, Upto, SeqNos, After, SinceStaged;
      ghost var disk := keys.State();
      steps, added, story := [], [], StoppedBefore(0);
      if !available {
        return Failed, story, steps, added;
      }
      var io, rotation;
      ghost var n, dropped;
      io, rotation, n := keys.Prepare(c, approvedBy, operationId, next, calm);
      match io {
        case Crashed =>
          res, story := Died, StoppedBefore(n);
          NothingStaged(c, disk, next, rotation, n, 0);
        case Raised =>
          io, dropped := keys.Finish(calm);
          NothingStaged(c, disk, next, rotation, n, dropped);
          res, story := if io == Crashed then Died else Failed, RolledBack(n, [], dropped);
        case Fine =>
          PrepareStates(c, disk, next, rotation, 4);
          res, story, steps, added := HandoffAndPromote(c, ring, keys, rotation, next, RotationRequest(rotation), patience, calm);
          StagedIsOnTheWay(c, disk, next, rotation, story);
      }
    }

    /** rotate once the key is staged: the chained handoff, then promotion or rollback. */
    method HandoffAndPromote(c: Crypto, ghost ring: Keyring, keys: AuditKeyStore, rotation: Rotation, next: PrivateKey,
                             handoff: Request, patience: nat, calm: bool)
      returns (res: Written, ghost story: Story, ghost steps: seq<Step>, ghost added: seq<AuditRecord>)
      requires Sound(c, ring, Snapshot()) && CanSign(c, ring, key) && available
      requires keys.pending == Some(next) && rotation.newKeyId == KeyIdOf(c, next)
      modifies this, stores, keys
      ensures Moves(c, ring, old(Snapshot()), steps, Snapshot())
      ensures stores.log == old(stores.log) + added
      ensures forall i :: 0 <= i < |added| ==> Records(c, added[i], handoff, old(key))
      ensures Possible(story) && RowsOf(story) == SeqNos(added) && (story.StoppedBefore? || story.RolledBack? ==> story.n == 4)
      ensures keys.State() == SinceStaged(old(keys.State()), rotation, story)
      ensures res.Wrote? ==> story == StoppedAfter(SeqNos(added), 5) && key == next && available
      ensures res == Failed ==> (story.RolledBack? && available) || (story.StoppedAfter? && !available)
      ensures key == next || key == old(key)
      ensures key != old(key) ==> story.StoppedAfter?
      ensures res.Wrote? ==> keys.State() == Disk(next, None, None, old(keys.public))
      ensures calm ==> if HasNul(handoff) then res == Failed && added == [] && available else res.Wrote?
    {
      hide Records, Moves, Sound, HasNul, CanSign, Apply, Upto, HandoffPlan, SinceStaged;
      ghost var retried;
      res, steps, added, retried := WriteLocked(c, ring, handoff, patience, calm);
      res, story := AfterHandoffWrite(c, keys, rotation, next, res, SeqNos(added), calm);
    }

    /** What rotate does with the outcome of its handoff write. */
    method AfterHandoffWrite(c: Crypto, keys: AuditKeyStore, rotation: Rotation, next: PrivateKey,
                             write: Written, ghost rows: seq<int>, calm: bool)
      returns (res: Written, ghost story: Story)
      requires available && keys.pending == Some(next) && rotation.newKeyId == KeyIdOf(c, next)
      requires write.Wrote? ==> rows != [] && rows[|rows| - 1] == write.seqNo
      modifies this`key, this`available, keys
      ensures Possible(story) && RowsOf(story) == rows && (story.StoppedBefore? || story.RolledBack? ==> story.n == 4)
      ensures keys.State() == SinceStaged(old(keys.State()), rotation, story)
      ensures res.Wrote? ==> story == StoppedAfter(rows, 5) && key == next && available
      ensures res == Failed ==> (story.RolledBack? && available) || (story.StoppedAfter? && !available)
      ensures key == next || key == old(key)
      ensures key != old(key) ==> story.StoppedAfter?
      ensures res.Wrote? ==> keys.State() == Disk(next, None, None, old(keys.public))
      ensures calm ==> res == write
    {
      var io;
      ghost var n, staged := 0, keys.State();
      match write {
        case Died =>
          res, story := Died, if rows == [] then StoppedBefore(4) else StoppedAfter(rows, 0);
        case Failed =>
          io, n := keys.Finish(calm);
          res, story := if io == Crashed then Died else Failed, RolledBack(4, rows, n);
        case Wrote(seqNo) =>
          io, n := HandOver(c, keys, rotation, seqNo, next, calm);
          HandoffStates(staged, rotation, seqNo, n);
          res := if io == Fine then write else if io == Raised then Failed else Died;
          story := StoppedAfter(rows, n);
      }
    }

    /** After the committed handoff row; an exception here takes the writer out of service. */
    method HandOver(c: Crypto, keys: AuditKeyStore, rotation: Rotation, seqNo: int, next: PrivateKey, calm: bool)
      returns (io: Io, ghost n: nat)
      requires keys.pending == Some(next) && rotation.newKeyId == KeyIdOf(c, next)
      modifies this`key, this`available, keys
      ensures available == (old(available) && io != Raised)
      ensures n <= 5 && keys.State() == Upto(old(keys.State()), HandoffPlan(rotation, seqNo), n)
      ensures io == Fine ==> n == 5 && key == next
      ensures key == next || key == old(key)
      ensures calm ==> io == Fine
    {
      io, n := PromoteHandedOver(c, keys, rotation, seqNo, next, calm);
      if io == Raised {
        available := false;
      }
    }

    /** From the committed handoff row to a cleared journal. */
    method PromoteHandedOver(c: Crypto, keys: AuditKeyStore, rotation: Rotation, seqNo: int, next: PrivateKey, calm: bool)
      returns (io: Io, ghost n: nat)
      requires keys.pending == Some(next) && rotation.newKeyId == KeyIdOf(c, next)
      modifies this`key, keys
      ensures n <= 5 && keys.State() == Upto(old(keys.State()), HandoffPlan(rotation, seqNo), n)
      ensures io == Fine ==> n == 5 && key == next
      ensures key == next || key == old(key)
      ensures calm ==> io == Fine
    {
      ghost var disk := keys.State();
      var handed;
      io, handed, n := keys.MarkHandoff(rotation, seqNo, calm);
      ghost var mark := [PutJournal(handed)];
      assert Upto(disk, mark, 1) == Apply(disk, mark[0]);
      UptoConcat(disk, mark + PromotePlan(handed), DropPlan, n);
      UptoConcat(disk, mark, PromotePlan(handed), n);
      if io != Fine { return; }
      ghost var k;
      io, k := keys.PromoteStaged(c, handed, calm);
      n := 1 + k;
      UptoConcat(disk, mark + PromotePlan(handed), DropPlan, n);
      UptoConcat(disk, mark, PromotePlan(handed), n);
      if io != Fine { return; }
      key := next;
      io, k := keys.Finish(calm);
      n := 3 + k;
      UptoConcat(disk, mark + PromotePlan(handed), DropPlan, n);
    }
  }

  /** The handoff row: which key hands over to which, for which operation. */
  function RotationRequest(r: Rotation): Request {
    Request("AUDIT_KEY_ROTATED", r.approvedBy, None, None,
      map["operation_id" := Str(r.operationId), "old_key_id" := Str(r.oldKeyId), "new_key_id" := Str(r.newKeyId)],
      None)
  }

  /** The row a rotation leaves in the chain: signed with the old key, it says who replaced
      which key by which, and for which operation. */
  lemma HandoffRowNamesBothKeys(c: Crypto, row: AuditRecord, operationId: string, was: PrivateKey, next: PrivateKey, approvedBy: string)
    requires '\0' !in approvedBy
    requires Records(c, row, RotationRequest(Staged(c, operationId, was, next, approvedBy)), was)
    ensures row.eventType == "AUDIT_KEY_ROTATED" && row.identityId == approvedBy
    ensures row.serverId.None? && row.toolName.None? && row.riskScore.None?
    ensures row.keyId == Some(KeyIdOf(c, was)) && row.signature == c.sign(was, row.currHash)
    ensures row.payload["old_key_id"] == Str(KeyIdOf(c, was)) && row.payload["new_key_id"] == Str(KeyIdOf(c, next))
    ensures row.payload["operation_id"] == Str(operationId) && row.payload["identity_id"] == Str(approvedBy)
  {
    hide Records, HasNul, RotationRequest;
    var r := Staged(c, operationId, was, next, approvedBy);
    HandoffFields(r);
    RowTellsItsRequest(c, row, RotationRequest(r), was);
  }

  lemma HandoffFields(r: Rotation)
    ensures
      var req := RotationRequest(r);
      && (HasNul(req) <==> '\0' in r.approvedBy)
      && req.eventType == "AUDIT_KEY_ROTATED" && req.identityId == r.approvedBy
      && req.serverId.None? && req.toolName.None? && req.riskScore.None?
      && "identity_id" !in req.extra
      && "operation_id" in req.extra && req.extra["operation_id"] == Str(r.operationId)
      && "old_key_id" in req.extra && req.extra["old_key_id"] == Str(r.oldKeyId)
      && "new_key_id" in req.extra && req.extra["new_key_id"] == Str(r.newKeyId)
  {
    assert |"identity_id"| == 11 && |"old_key_id"| == 10 && |"new_key_id"| == 10 && |"operation_id"| == 12;
  }

  /** Where a story leads from the disk with the key staged. */
  function SinceStaged(staged: Disk, r: Rotation, s: Story): Disk
    requires Possible(s)
  {
    match s
    case StoppedBefore(_) => staged
    case StoppedAfter(rows, n) => Upto(staged, HandoffPlan(r, rows[|rows| - 1]), n)
    case RolledBack(_, _, dropped) => Upto(staged, DropPlan, dropped)
  }

  lemma StagedIsOnTheWay(c: Crypto, disk: Disk, next: PrivateKey, r: Rotation, s: Story)
    requires Possible(s) && (s.StoppedBefore? || s.RolledBack? ==> s.n == 4)
    ensures After(c, disk, next, r, s) == SinceStaged(Upto(disk, PreparePlan(c, next, r), 4), r, s)
  {
  }

  lemma NothingStaged(c: Crypto, disk: Disk, next: PrivateKey, r: Rotation, n: nat, dropped: nat)
    requires n <= 4 && dropped <= 2
    ensures After(c, disk, next, r, StoppedBefore(n)) == Upto(disk, PreparePlan(c, next, r), n)
    ensures After(c, disk, next, r, RolledBack(n, [], dropped)) == Upto(Upto(disk, PreparePlan(c, next, r), n), DropPlan, dropped)
  {
  }

  function Staged(c: Crypto, operationId: string, was: PrivateKey, next: PrivateKey, approvedBy: string): Rotation {
    Rotation(operationId, KeyIdOf(c, was), KeyIdOf(c, next), approvedBy, Prepared, None)
  }

  function SeqNos(rows: seq<AuditRecord>): (seqNos: seq<int>)
    ensures |seqNos| == |rows|
  {
    seq(|rows|, i requires 0 <= i < |rows| => rows[i].seqNo)
  }

  lemma NoSteps(c: Crypto, ring: Keyring, s: State)
    requires Sound(c, ring, s)
    ensures Moves(c, ring, s, [], s)
  {
  }

  /** Extends a legal run by one enabled step. */
  lemma Take(c: Crypto, ring: Keyring, start: State, steps: seq<Step>, st: State, a: Step) returns (more: seq<Step>)
    requires Moves(c, ring, start, steps, st) && Enabled(c, ring, st, a)
    ensures more == steps + [a] && Moves(c, ring, start, more, Next(st, a))
  {
    RunAppend(c, ring, start, steps, a);
    more := steps + [a];
  }
}
