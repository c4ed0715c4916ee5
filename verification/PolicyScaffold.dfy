/** Verified observe-mode audit rows turned into a least-privilege policy
    (services/gateway/policy_scaffold.py). */
module PolicyScaffold {
  import opened Values
  import opened AuditRecords
  import opened AuditExport
  import opened PolicyEngine

  const TERMINALS := {
    "ALLOW", "CHALLENGE", "HUMAN_APPROVAL_REQUIRED",
    "DENY_RBAC", "DENY_ABAC", "DENY_REPLAY", "DENY_DRIFT", "DENY_RISK",
    "DENY_VALIDATION", "DENY_APPROVAL_MISMATCH", "DENY_STEP_UP" }

  datatype Triple = Triple(identity: string, server: string, tool: string)

  datatype Refusal =
    | EmptyLedger
    | EmptyWindow
    | Integrity
    | IncompleteTriple(seqNo: int)
    | WildcardTool(seqNo: int)
    | NothingObserved
    | UnknownIdentity
    | UnknownServer
    | InvalidCandidate
    | PolicyChanged

  /** A tool call decided in observe mode. */
  predicate Qualifies(r: AuditRecord) {
    r.eventType in TERMINALS && Get(r.payload, "mode") == Str("observe")
  }

  /** The row says that a tool call was decided, whichever way, and only observed. */
  predicate ObservedDecision(r: AuditRecord) {
    && "mode" in r.payload && r.payload["mode"] == Str("observe")
    && r.eventType in {
         "ALLOW", "CHALLENGE", "HUMAN_APPROVAL_REQUIRED", "DENY_RBAC", "DENY_ABAC", "DENY_REPLAY", "DENY_DRIFT",
         "DENY_RISK", "DENY_VALIDATION", "DENY_APPROVAL_MISMATCH", "DENY_STEP_UP" }
  }

  lemma QualifyingRowsAreObserved(r: AuditRecord)
    ensures Qualifies(r) <==> ObservedDecision(r)
  {
  }

  predicate Named(t: Option<string>) {
    t.Some? && t.value != ""
  }

  ghost predicate Names(r: AuditRecord, t: Triple) {
    r.identityId == t.identity && r.serverId == Some(t.server) && r.toolName == Some(t.tool)
  }

  /** Some qualifying row names the triple. */
  ghost predicate ObservedIn(rows: seq<AuditRecord>, t: Triple) {
    exists i :: 0 <= i < |rows| && ObservedDecision(rows[i]) && Names(rows[i], t)
  }

  /** _grant: the triple of a qualifying row, or why the row cannot be used. */
  function GrantOf(r: AuditRecord): Result<Option<Triple>, Refusal> {
    if !Qualifies(r) then Ok(None)
    else if r.identityId == "" || !Named(r.serverId) || !Named(r.toolName) then Err(IncompleteTriple(r.seqNo))
    else if r.toolName.value == "*" then Err(WildcardTool(r.seqNo))
    else Ok(Some(Triple(r.identityId, r.serverId.value, r.toolName.value)))
  }

  // ----- the walk -----

  ghost predicate Collected(rows: seq<AuditRecord>, observed: set<Triple>) {
    && (forall t :: t in observed <==> ObservedIn(rows, t))
    && (forall t :: t in observed ==> t.tool != "*")
  }

  lemma CollectOne(rows: seq<AuditRecord>, n: nat, observed: set<Triple>, grown: set<Triple>)
    requires n < |rows| && Collected(rows[..n], observed)
    requires GrantOf(rows[n]).Ok?
    requires grown == if GrantOf(rows[n]).value.Some? then observed + {GrantOf(rows[n]).value.value} else observed
    ensures Collected(rows[..n + 1], grown)
  {
    hide Qualifies, ObservedDecision;
    var a, b := rows[..n], rows[..n + 1];
    QualifyingRowsAreObserved(rows[n]);
    forall t ensures t in grown <==> ObservedIn(b, t) {
      if t in grown {
        if t in observed {
          var i :| 0 <= i < |a| && ObservedDecision(a[i]) && Names(a[i], t);
          assert b[i] == a[i];
        } else {
          assert ObservedDecision(b[n]) && Names(b[n], t);
        }
      }
      if i :| 0 <= i < |b| && ObservedDecision(b[i]) && Names(b[i], t) {
        if i < n { assert a[i] == b[i]; }
      }
    }
  }

  /** The row names who called what where, and not the wildcard tool. */
  predicate Complete(r: AuditRecord) {
    && r.identityId != ""
    && r.serverId.Some? && r.serverId.value != ""
    && r.toolName.Some? && r.toolName.value != "" && r.toolName.value != "*"
  }

  /** Every observed decision is complete. */
  ghost predicate AllReadable(rows: seq<AuditRecord>) {
    forall i :: 0 <= i < |rows| && ObservedDecision(rows[i]) ==> Complete(rows[i])
  }

  /** A row is refused exactly when it is an observed decision that is not complete. */
  lemma GrantIsReadableExactlyWhen(r: AuditRecord)
    ensures GrantOf(r).Ok? <==> (ObservedDecision(r) ==> Complete(r))
    ensures GrantOf(r).Err? ==> GrantOf(r).error in {IncompleteTriple(r.seqNo), WildcardTool(r.seqNo)}
  {
    QualifyingRowsAreObserved(r);
  }

  lemma CollectedNothing(rows: seq<AuditRecord>)
    ensures Collected(rows[..0], {})
  {
  }

  /** The scaffold's loop: order, integrity and the observed triple of each row. */
  method Observe(c: Crypto, rows: seq<AuditRecord>, start: int, ring: Keyring)
    returns (res: Result<set<Triple>, Refusal>)
    ensures res.Ok? <==> SoundRange(c, rows, start, ring) && AllReadable(rows)
    ensures res.Ok? ==> Collected(rows, res.value)
    ensures res.Err? ==> res.error.Integrity? || res.error.IncompleteTriple? || res.error.WildcardTool?
  {
    hide Genuine, Collected, Qualifies, ObservedDecision, GrantOf, Complete;
    CollectedNothing(rows);
    var observed: set<Triple> := {};
    var prev: Option<string> := if start == 1 then Some(GENESIS_HASH) else None;
    for i := 0 to |rows|
      invariant SoundRange(c, rows[..i], start, ring) && Collected(rows[..i], observed) && AllReadable(rows[..i])
      invariant prev == if i == 0 then (if start == 1 then Some(GENESIS_HASH) else None) else Some(rows[i - 1].currHash)
    {
      var record := rows[i];
      var grown := rows[..i + 1];
      assert grown[..i] == rows[..i] && grown[i] == record;
      if record.seqNo != start + i {
        assert rows[i].seqNo != start + i;
        return Err(Integrity);
      }
      if prev.None? {
        prev := Some(record.prevHash);
      }
      assert prev.value == PrevOf(grown, i, AnchorOf(grown, start));
      var checked := VerifyRecord(c, record, prev.value, ring, None);
      if checked.Err? {
        assert !GoodAt(c, grown, i, AnchorOf(grown, start), ring, None);
        if SoundRange(c, rows, start, ring) { ShorterRange(c, rows, i + 1, start, ring); }
        return Err(Integrity);
      }
      ExtendRange(c, rows, i, start, ring);
      prev := Some(checked.value);
      var grant := GrantOf(record);
      GrantIsReadableExactlyWhen(record);
      if grant.Err? {
        assert !AllReadable(rows);
        return Err(grant.error);
      }
      assert AllReadable(grown);
      ghost var before := observed;
      if grant.value.Some? {
        observed := observed + {grant.value.value};
      }
      CollectOne(rows, i, before, observed);
    }
    assert rows[..|rows|] == rows;
    return Ok(observed);
  }

  // ----- the candidate -----

  function ToolsOf(observed: set<Triple>, identity: string, server: string): set<string> {
    set t | t in observed && t.identity == identity && t.server == server :: t.tool
  }

  /** One grant for each registered server the identity was seen on. */
  function GrantsFor(observed: set<Triple>, identity: string, servers: seq<string>): seq<ServerGrant> {
    if |servers| == 0 then []
    else
      var tools := ToolsOf(observed, identity, servers[0]);
      (if tools != {} then [ServerGrant(servers[0], tools, {}, [])] else []) + GrantsFor(observed, identity, servers[1..])
  }

  predicate Kept(observed: set<Triple>, one: Identity) {
    one.admin || exists t :: t in observed && t.identity == one.id
  }

  /** The base identity with its grants replaced by what was observed. */
  function Regranted(observed: set<Triple>, one: Identity, servers: seq<string>): Identity {
    one.(allowedServers := GrantsFor(observed, one.id, servers))
  }

  /** The kept identities in file order. */
  function Survivors(observed: set<Triple>, identities: seq<Identity>, servers: seq<string>): seq<Identity> {
    if |identities| == 0 then []
    else
      var n := |identities| - 1;
      Survivors(observed, identities[..n], servers)
      + (if Kept(observed, identities[n]) then [Regranted(observed, identities[n], servers)] else [])
  }

  method Candidate(base: PolicyFile, highest: int, observed: set<Triple>) returns (res: Result<PolicyFile, Refusal>)
    ensures res.Ok? <==>
        && (forall t :: t in observed ==> IdentityOf(base.identities, t.identity).Some?)
        && (forall t :: t in observed ==> t.server in base.servers)
    ensures res.Ok? ==>
        res.value == PolicyFile(highest + 1, base.servers, Survivors(observed, base.identities, base.servers))
    ensures res.Err? ==> res.error.UnknownIdentity? || res.error.UnknownServer?
    ensures res == Err(UnknownIdentity) <==> exists t :: t in observed && IdentityOf(base.identities, t.identity).None?
  {
    var unknown := set t | t in observed && IdentityOf(base.identities, t.identity).None?;
    if unknown != {} {
      var t :| t in unknown;
      assert t in observed;
      return Err(UnknownIdentity);
    }
    var unregistered := set t | t in observed && t.server !in base.servers;
    if unregistered != {} {
      assert exists t :: t in unregistered;
      assert forall t :: t in observed ==> t !in unknown;
      return Err(UnknownServer);
    }
    assert forall t :: t in observed ==> t !in unknown && t !in unregistered;
    var identities: seq<Identity> := [];
    for i := 0 to |base.identities|
      invariant identities == Survivors(observed, base.identities[..i], base.servers)
    {
      assert base.identities[..i + 1][..i] == base.identities[..i];
      if !base.identities[i].admin && !exists t :: t in observed && t.identity == base.identities[i].id {
        continue;
      }
      identities := identities + [Regranted(observed, base.identities[i], base.servers)];
    }
    assert base.identities[..|base.identities|] == base.identities;
    return Ok(PolicyFile(highest + 1, base.servers, identities));
  }

  /** From the rows of the span to the generated policy. */
  method FromSpan(c: Crypto, span: seq<AuditRecord>, lo: int, hi: int, ring: Keyring, base: PolicyFile, highest: int)
    returns (res: Result<PolicyFile, Refusal>)
    requires ValidPolicy(base)
    ensures res.Ok? <==> Usable(c, span, lo, hi, ring, base)
    ensures res.Ok? ==> res.value.version == highest + 1 && Exact(c, span, lo, ring, base, res.value)
    ensures res.Err? ==> res.error !in {EmptyLedger, EmptyWindow, InvalidCandidate, PolicyChanged}
    ensures res == Err(NothingObserved) <==> Whole(c, span, lo, hi, ring) && !exists t :: ObservedIn(span, t)
    ensures res == Err(UnknownIdentity) <==> Whole(c, span, lo, hi, ring) && ObservesStranger(span, base)
    ensures res == Err(UnknownServer) <==>
      && Whole(c, span, lo, hi, ring) && !ObservesStranger(span, base)
      && exists t :: ObservedIn(span, t) && t.server !in base.servers
  {
    hide SoundRange, AllReadable, Usable, Exact, IdentityOf, ValidPolicy, ObservedIn;
    UsableIsSound(c, span, lo, hi, ring, base);
    var observed := Observe(c, span, lo, ring);
    if observed.Err? { return Err(observed.error); }
    UsableExactlyWhen(c, span, lo, hi, ring, base, observed.value);
    if |span| != hi - lo + 1 { return Err(Integrity); }
    if observed.value == {} { return Err(NothingObserved); }
    res := Candidate(base, highest, observed.value);
    if res.Err? { return; }
    MadeIsExact(c, span, lo, ring, base, observed.value, highest);
    var ok := StructurallyValid(res.value);
    assert ok;  // the refusal of an invalid candidate is never given
  }

  /** The validators that loading the generated policy runs. */
  method StructurallyValid(made: PolicyFile) returns (ok: bool)
    ensures ValidPolicy(made) ==> ok
  {
    var indexes := CheckIdentityIndexes(made);
    var registered := CheckServers(made);
    ok := indexes && registered;
  }

  /** The audit window has rows, and the span they cut out of the log can be made a policy of. */
  ghost predicate WindowUsable(c: Crypto, rows: seq<AuditRecord>, ring: Keyring, windowStart: int, windowEnd: int, base: PolicyFile) {
    exists lo, hi :: SpanOf(rows, windowStart, windowEnd, lo, hi) && Usable(c, Select(rows, lo, hi), lo, hi, ring, base)
  }

  /** scaffold: from the log and the active policy to the generated one. `current` is the
      highest recorded version, and `sameEngine` whether the active policy still is the
      base, when the result is about to be returned. */
  method Scaffold(c: Crypto, rows: seq<AuditRecord>, ring: Keyring, windowStart: int, windowEnd: int,
                  base: PolicyFile, highest: Option<int>, current: Option<int>, sameEngine: bool)
    returns (res: Result<PolicyFile, Refusal>)
    requires Ordered(rows) && ValidPolicy(base)
    ensures res.Ok? <==>
      highest.Some? && WindowUsable(c, rows, ring, windowStart, windowEnd, base) && current == highest && sameEngine
    ensures res.Ok? ==> res.value.version == highest.value + 1 && exists lo, hi ::
        && SpanOf(rows, windowStart, windowEnd, lo, hi)
        && Exact(c, Select(rows, lo, hi), lo, ring, base, res.value)
    ensures res == Err(EmptyLedger) <==> highest.None?
    ensures res == Err(EmptyWindow) <==> highest.Some? && forall lo, hi :: !SpanOf(rows, windowStart, windowEnd, lo, hi)
    ensures res == Err(PolicyChanged) <==>
      highest.Some? && WindowUsable(c, rows, ring, windowStart, windowEnd, base) && !(current == highest && sameEngine)
    ensures res.Err? ==> !res.error.InvalidCandidate?
  {
    if highest.None? { return Err(EmptyLedger); }
    var lo, hi, any := Span(rows, windowStart, windowEnd);
    if !any { return Err(EmptyWindow); }
    SpanIsUnique(rows, windowStart, windowEnd, lo, hi);
    hide SpanOf, Usable, Exact, Select, ValidPolicy, Ordered;
    res := FromSpan(c, Select(rows, lo, hi), lo, hi, ring, base, highest.value);
    if res.Err? { return; }
    if !sameEngine || current != highest { return Err(PolicyChanged); }
  }

  /** The span is sound and ends where it should, and every qualifying row is complete. */
  ghost predicate Whole(c: Crypto, span: seq<AuditRecord>, lo: int, hi: int, ring: Keyring) {
    SoundRange(c, span, lo, ring) && |span| == hi - lo + 1 && AllReadable(span)
  }

  /** Some call was observed of an identity that the base does not know. */
  ghost predicate ObservesStranger(span: seq<AuditRecord>, base: PolicyFile) {
    exists t :: ObservedIn(span, t) && IdentityOf(base.identities, t.identity).None?
  }

  /** The span that a policy can be made of: whole and sound, every qualifying row complete,
      something observed, and every observed identity and server known to the base. */
  ghost predicate Usable(c: Crypto, span: seq<AuditRecord>, lo: int, hi: int, ring: Keyring, base: PolicyFile) {
    && Whole(c, span, lo, hi, ring)
    && (exists t :: ObservedIn(span, t))
    && (forall t :: ObservedIn(span, t) ==> IdentityOf(base.identities, t.identity).Some? && t.server in base.servers)
  }

  lemma SpanIsUnique(rows: seq<AuditRecord>, windowStart: int, windowEnd: int, lo: int, hi: int)
    requires SpanOf(rows, windowStart, windowEnd, lo, hi)
    ensures forall l, h :: SpanOf(rows, windowStart, windowEnd, l, h) ==> l == lo && h == hi
  {
  }

  lemma UsableIsSound(c: Crypto, span: seq<AuditRecord>, lo: int, hi: int, ring: Keyring, base: PolicyFile)
    ensures Usable(c, span, lo, hi, ring, base) ==> SoundRange(c, span, lo, ring) && AllReadable(span)
  {
  }

  lemma UsableExactlyWhen(c: Crypto, span: seq<AuditRecord>, lo: int, hi: int, ring: Keyring, base: PolicyFile, observed: set<Triple>)
    requires SoundRange(c, span, lo, ring) && AllReadable(span) && Collected(span, observed)
    ensures Usable(c, span, lo, hi, ring, base) <==>
      && |span| == hi - lo + 1 && observed != {}
      && (forall t :: t in observed ==> IdentityOf(base.identities, t.identity).Some?)
      && (forall t :: t in observed ==> t.server in base.servers)
  {
    hide SoundRange, AllReadable, IdentityOf, ObservedIn;
    if observed != {} {
      var t :| t in observed;
      assert ObservedIn(span, t);
    }
  }

  lemma MadeIsExact(c: Crypto, span: seq<AuditRecord>, lo: int, ring: Keyring, base: PolicyFile, observed: set<Triple>, highest: int)
    requires SoundRange(c, span, lo, ring) && Collected(span, observed) && ValidPolicy(base)
    requires forall t :: t in observed ==> t.server in base.servers
    requires forall t :: t in observed ==> IdentityOf(base.identities, t.identity).Some?
    ensures
      var made := PolicyFile(highest + 1, base.servers, Survivors(observed, base.identities, base.servers));
      Exact(c, span, lo, ring, base, made) && ValidPolicy(made)
  {
    hide SoundRange, ValidPolicy, Grant, ObservedIn, GrantsFor;
    ScaffoldIsExact(base, observed, highest);
  }

  /** The smallest and largest row number inside the time window. */
  ghost predicate SpanOf(rows: seq<AuditRecord>, windowStart: int, windowEnd: int, lo: int, hi: int) {
    && (exists i :: 0 <= i < |rows| && rows[i].seqNo == lo && windowStart <= rows[i].timestamp < windowEnd)
    && (exists i :: 0 <= i < |rows| && rows[i].seqNo == hi && windowStart <= rows[i].timestamp < windowEnd)
    && (forall i :: 0 <= i < |rows| && windowStart <= rows[i].timestamp < windowEnd ==> lo <= rows[i].seqNo <= hi)
  }

  method Span(rows: seq<AuditRecord>, windowStart: int, windowEnd: int) returns (lo: int, hi: int, any: bool)
    requires Ordered(rows)
    ensures any ==> SpanOf(rows, windowStart, windowEnd, lo, hi)
    ensures !any ==> forall i :: 0 <= i < |rows| ==> !(windowStart <= rows[i].timestamp < windowEnd)
  {
    lo, hi, any := 0, 0, false;
    for i := 0 to |rows|
      invariant any ==> SpanOf(rows[..i], windowStart, windowEnd, lo, hi)
      invariant !any ==> forall j :: 0 <= j < i ==> !(windowStart <= rows[j].timestamp < windowEnd)
    {
      ghost var before, grown := rows[..i], rows[..i + 1];
      assert grown == before + [rows[i]];
      if windowStart <= rows[i].timestamp < windowEnd {
        if !any { lo := rows[i].seqNo; }
        hi := rows[i].seqNo;
        any := true;
        assert grown[i].seqNo == hi;
      }
      if any && |before| > 0 {
        assert forall j :: 0 <= j < i ==> grown[j] == before[j];
      }
    }
    assert rows[..|rows|] == rows;
  }

  /** What the generated policy promises about the audited span. */
  ghost predicate Exact(c: Crypto, span: seq<AuditRecord>, lo: int, ring: Keyring, base: PolicyFile, made: PolicyFile) {
    && SoundRange(c, span, lo, ring)
    && ValidPolicy(made)
    && made.servers == base.servers
    && (forall id, server, tool ::
          Grant(made, Some(id), server, tool).Some? <==> ObservedIn(span, Triple(id, server, tool)))
    && (forall id :: IdentityOf(made.identities, id).Some? <==>
          var one := IdentityOf(base.identities, id);
          one.Some? && (one.value.admin || exists server, tool :: ObservedIn(span, Triple(id, server, tool))))
    && (forall id :: IdentityOf(made.identities, id).Some? ==>
          IdentityOf(base.identities, id) ==
            Some(IdentityOf(made.identities, id).value.(allowedServers := IdentityOf(base.identities, id).value.allowedServers)))
  }

  // ----- why it is exact -----

  lemma {:induction false} GrantsForMeaning(observed: set<Triple>, identity: string, servers: seq<string>, server: string, tool: string)
    requires "*" !in servers
    requires forall t :: t in observed ==> t.tool != "*"
    ensures MatchingGrant(GrantsFor(observed, identity, servers), server, tool).Some?
        <==> server in servers && Triple(identity, server, tool) in observed
  {
    if |servers| > 0 {
      GrantsForMeaning(observed, identity, servers[1..], server, tool);
      var tools := ToolsOf(observed, identity, servers[0]);
      var rest := GrantsFor(observed, identity, servers[1..]);
      assert "*" !in tools;
      assert servers[0] != "*";
      assert forall x :: x in tools <==> Triple(identity, servers[0], x) in observed;
      if tools != {} {
        var all := [ServerGrant(servers[0], tools, {}, [])] + rest;
        assert all == GrantsFor(observed, identity, servers) && all[1..] == rest;
      } else {
        assert GrantsFor(observed, identity, servers) == rest;
      }
    }
  }

  lemma {:induction false} SurvivorsAre(observed: set<Triple>, identities: seq<Identity>, servers: seq<string>, id: string)
    requires IdentitiesDistinct(identities)
    ensures
      var was := IdentityOf(identities, id);
      IdentityOf(Survivors(observed, identities, servers), id) ==
        if was.Some? && Kept(observed, was.value) then Some(Regranted(observed, was.value, servers)) else None
  {
    hide GrantsFor, Kept;
    if |identities| > 0 {
      var n := |identities| - 1;
      var less, last := identities[..n], identities[n];
      assert IdentitiesDistinct(less);
      SurvivorsAre(observed, less, servers, id);
      var kept := Survivors(observed, less, servers);
      if last.id == id {
        NotEarlier(identities, id);
      }
      LookupAppended(less, last, id);
      assert identities == less + [last];
      if Kept(observed, last) {
        LookupAppended(kept, Regranted(observed, last, servers), id);
      } else {
        assert Survivors(observed, identities, servers) == kept;
      }
    }
  }

  lemma LookupAppended(identities: seq<Identity>, last: Identity, id: string)
    ensures IdentityOf(identities + [last], id) == if last.id == id then Some(last) else IdentityOf(identities, id)
  {
    assert (identities + [last])[..|identities|] == identities;
  }

  lemma NotEarlier(identities: seq<Identity>, id: string)
    requires |identities| > 0 && IdentitiesDistinct(identities) && identities[|identities| - 1].id == id
    ensures IdentityOf(identities[..|identities| - 1], id).None?
  {
    var less := identities[..|identities| - 1];
    assert forall k :: 0 <= k < |less| ==> less[k] == identities[k] && less[k].id != id;
  }

  lemma {:induction false} GrantsForRegistered(observed: set<Triple>, identity: string, servers: seq<string>)
    ensures forall g :: g in GrantsFor(observed, identity, servers) ==> g.serverId in servers
  {
    if |servers| > 0 {
      GrantsForRegistered(observed, identity, servers[1..]);
      assert forall x :: x in servers[1..] ==> x in servers;
    }
  }

  ghost predicate SameKeys(a: Identity, b: Identity) {
    a.id == b.id && a.apiKeyHash == b.apiKeyHash && a.keyId == b.keyId
  }

  ghost predicate ComesFrom(s: Identity, identities: seq<Identity>) {
    exists k :: 0 <= k < |identities| && SameKeys(s, identities[k])
  }

  lemma {:induction false} SurvivorsComeFrom(observed: set<Triple>, identities: seq<Identity>, servers: seq<string>, s: Identity)
    requires s in Survivors(observed, identities, servers)
    ensures ComesFrom(s, identities) && s.allowedServers == GrantsFor(observed, s.id, servers)
  {
    hide GrantsFor, Kept;
    var n := |identities| - 1;
    var less := identities[..n];
    if s in Survivors(observed, less, servers) {
      SurvivorsComeFrom(observed, less, servers, s);
      var k :| 0 <= k < |less| && SameKeys(s, less[k]);
      assert SameKeys(s, identities[k]);
    } else {
      assert SameKeys(s, identities[n]);
    }
  }

  lemma DistinctAppended(identities: seq<Identity>, last: Identity)
    requires IdentitiesDistinct(identities) && forall i :: 0 <= i < |identities| ==> Apart(identities[i], last)
    ensures IdentitiesDistinct(identities + [last])
  {
  }

  /** Dropping identities and replacing grants keeps the identity indexes valid. */
  lemma {:induction false} SurvivorsDistinct(observed: set<Triple>, identities: seq<Identity>, servers: seq<string>)
    requires IdentitiesDistinct(identities)
    ensures IdentitiesDistinct(Survivors(observed, identities, servers))
  {
    hide GrantsFor, Kept;
    if |identities| > 0 {
      var n := |identities| - 1;
      var less, last := identities[..n], identities[n];
      assert IdentitiesDistinct(less);
      SurvivorsDistinct(observed, less, servers);
      var kept := Survivors(observed, less, servers);
      forall i | 0 <= i < |kept| ensures Apart(kept[i], Regranted(observed, last, servers)) {
        SurvivorsComeFrom(observed, less, servers, kept[i]);
        var k :| 0 <= k < |less| && SameKeys(kept[i], less[k]);
        assert Apart(identities[k], identities[n]);
      }
      if Kept(observed, last) {
        DistinctAppended(kept, Regranted(observed, last, servers));
      }
    }
  }

  /** The generated policy is always structurally valid, grants exactly the observed
      triples, and keeps exactly the admins and the observed identities. */
  lemma ScaffoldIsExact(base: PolicyFile, observed: set<Triple>, highest: int)
    requires ValidPolicy(base)
    requires forall t :: t in observed ==> t.tool != "*" && t.server in base.servers
    requires forall t :: t in observed ==> IdentityOf(base.identities, t.identity).Some?
    ensures
      var made := PolicyFile(highest + 1, base.servers, Survivors(observed, base.identities, base.servers));
      && ValidPolicy(made)
      && (forall id, server, tool :: Grant(made, Some(id), server, tool).Some? <==> Triple(id, server, tool) in observed)
      && (forall id :: IdentityOf(made.identities, id) ==
            var one := IdentityOf(base.identities, id);
            if one.Some? && Kept(observed, one.value) then Some(Regranted(observed, one.value, base.servers)) else None)
  {
    var made := PolicyFile(highest + 1, base.servers, Survivors(observed, base.identities, base.servers));
    SurvivorsDistinct(observed, base.identities, base.servers);
    forall i, g | 0 <= i < |made.identities| && g in made.identities[i].allowedServers
      ensures g.serverId == "*" || g.serverId in made.servers
    {
      SurvivorsComeFrom(observed, base.identities, base.servers, made.identities[i]);
      GrantsForRegistered(observed, made.identities[i].id, base.servers);
    }
    forall id ensures IdentityOf(made.identities, id) ==
        var one := IdentityOf(base.identities, id);
        if one.Some? && Kept(observed, one.value) then Some(Regranted(observed, one.value, base.servers)) else None
    {
      SurvivorsAre(observed, base.identities, base.servers, id);
    }
    forall id, server, tool
      ensures Grant(made, Some(id), server, tool).Some? <==> Triple(id, server, tool) in observed
    {
      SurvivorsAre(observed, base.identities, base.servers, id);
      GrantsForMeaning(observed, id, base.servers, server, tool);
    }
  }
}
