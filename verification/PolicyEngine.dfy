/** The policy file, its structural validators and RBAC resolution
    (services/gateway/policy_engine.py). */
module PolicyEngine {
  import opened Values
  import Abac

  /** Tool lists are only ever asked for membership, so they are sets here. */
  datatype ServerGrant = ServerGrant(
    serverId: string,
    allowedTools: set<string>,
    deniedTools: set<string>,
    conditions: seq<Abac.Condition>)

  datatype Identity = Identity(
    id: string,
    signedMode: bool,
    apiKeyHash: Option<string>,
    keyId: Option<string>,
    hasTotp: bool,
    admin: bool,
    allowedServers: seq<ServerGrant>,
    attributes: Abac.Attributes)

  /** `servers` are the registered ids in file order. */
  datatype PolicyFile = PolicyFile(version: int, servers: seq<string>, identities: seq<Identity>)

  // ----- validators -----

  ghost predicate Distinct<T>(s: seq<T>) {
    forall i, j :: 0 <= i < j < |s| ==> s[i] != s[j]
  }

  /** A secret that is absent or empty indexes nothing. */
  ghost predicate Clash(a: Option<string>, b: Option<string>) {
    a.Some? && a.value != "" && a == b
  }

  ghost predicate Apart(a: Identity, b: Identity) {
    a.id != b.id && !Clash(a.apiKeyHash, b.apiKeyHash) && !Clash(a.keyId, b.keyId)
  }

  ghost predicate IdentitiesDistinct(identities: seq<Identity>) {
    forall i, j :: 0 <= i < j < |identities| ==> Apart(identities[i], identities[j])
  }

  ghost predicate GrantsRegistered(p: PolicyFile) {
    && "*" !in p.servers
    && forall i, g :: 0 <= i < |p.identities| && g in p.identities[i].allowedServers ==>
         g.serverId == "*" || g.serverId in p.servers
  }

  ghost predicate ValidPolicy(p: PolicyFile) {
    Distinct(p.servers) && IdentitiesDistinct(p.identities) && GrantsRegistered(p)
  }

  method CheckIdentityIndexes(p: PolicyFile) returns (ok: bool)
    ensures ok <==> IdentitiesDistinct(p.identities)
  {
    var seenIds, seenHashes, seenKeyIds: set<string> := {}, {}, {};
    var ids := p.identities;
    for i := 0 to |ids|
      invariant IdentitiesDistinct(ids[..i])
      invariant forall s :: s in seenIds <==> exists j :: 0 <= j < i && ids[j].id == s
      invariant forall s :: s in seenHashes <==> s != "" && exists j :: 0 <= j < i && ids[j].apiKeyHash == Some(s)
      invariant forall s :: s in seenKeyIds <==> s != "" && exists j :: 0 <= j < i && ids[j].keyId == Some(s)
    {
      var one := ids[i];
      if one.id in seenIds { return false; }
      seenIds := seenIds + {one.id};
      if one.apiKeyHash.Some? && one.apiKeyHash.value != "" {
        if one.apiKeyHash.value in seenHashes { return false; }
        seenHashes := seenHashes + {one.apiKeyHash.value};
      }
      if one.keyId.Some? && one.keyId.value != "" {
        if one.keyId.value in seenKeyIds { return false; }
        seenKeyIds := seenKeyIds + {one.keyId.value};
      }
      assert ids[..i + 1] == ids[..i] + [one];
    }
    assert ids[..|ids|] == ids;
    return true;
  }

  method CheckServers(p: PolicyFile) returns (ok: bool)
    ensures ok <==> GrantsRegistered(p)
  {
    if "*" in p.servers { return false; }
    for i := 0 to |p.identities|
      invariant forall j, g :: 0 <= j < i && g in p.identities[j].allowedServers ==>
          g.serverId == "*" || g.serverId in p.servers
    {
      var grants := p.identities[i].allowedServers;
      for k := 0 to |grants|
        invariant forall g :: g in grants[..k] ==> g.serverId == "*" || g.serverId in p.servers
      {
        if grants[k].serverId != "*" && grants[k].serverId !in p.servers {
          assert grants[k] in p.identities[i].allowedServers;
          return false;
        }
        assert grants[..k + 1] == grants[..k] + [grants[k]];
      }
      assert grants[..|grants|] == grants;
    }
    return true;
  }

  // ----- RBAC -----

  /** The engine's identity index: of equal ids the last would win. */
  function IdentityOf(identities: seq<Identity>, id: string): (res: Option<Identity>)
    ensures res.Some? ==> res.value in identities && res.value.id == id
    ensures res.None? ==> forall one :: one in identities ==> one.id != id
  {
    if |identities| == 0 then None
    else
      var last := identities[|identities| - 1];
      if last.id == id then Some(last) else IdentityOf(identities[..|identities| - 1], id)
  }

  predicate CoversServer(g: ServerGrant, serverId: string) {
    g.serverId == serverId || g.serverId == "*"
  }

  predicate Allows(g: ServerGrant, tool: string) {
    "*" in g.allowedTools || tool in g.allowedTools
  }

  /** The grant settles the question: it covers the server and names the tool. */
  predicate Decides(g: ServerGrant, serverId: string, tool: string) {
    CoversServer(g, serverId) && (tool in g.deniedTools || Allows(g, tool))
  }

  /** The first grant that settles the question, unless it settles it by denying. */
  function MatchingGrant(grants: seq<ServerGrant>, serverId: string, tool: string): Option<ServerGrant> {
    if |grants| == 0 then None
    else if Decides(grants[0], serverId, tool) then
      if tool in grants[0].deniedTools then None else Some(grants[0])
    else MatchingGrant(grants[1..], serverId, tool)
  }

  function Grant(p: PolicyFile, identityId: Option<string>, serverId: string, tool: string): Option<ServerGrant> {
    if identityId.None? then None
    else
      var one := IdentityOf(p.identities, identityId.value);
      if one.None? then None else MatchingGrant(one.value.allowedServers, serverId, tool)
  }

  /** matching_grant as the engine walks it. */
  method ResolveGrant(p: PolicyFile, identityId: Option<string>, serverId: string, tool: string)
    returns (res: Option<ServerGrant>)
    ensures res == Grant(p, identityId, serverId, tool)
  {
    if identityId.None? { return None; }
    var one := IdentityOf(p.identities, identityId.value);
    if one.None? { return None; }
    var grants := one.value.allowedServers;
    for i := 0 to |grants|
      invariant MatchingGrant(grants[i..], serverId, tool) == MatchingGrant(grants, serverId, tool)
    {
      assert grants[i..][0] == grants[i] && grants[i..][1..] == grants[i + 1..];
      if grants[i].serverId != serverId && grants[i].serverId != "*" { continue; }
      if tool in grants[i].deniedTools { return None; }
      if "*" in grants[i].allowedTools || tool in grants[i].allowedTools { return Some(grants[i]); }
    }
    return None;
  }

  ghost predicate DecidedAt(grants: seq<ServerGrant>, serverId: string, tool: string, g: ServerGrant, i: nat)
    requires i < |grants|
  {
    && grants[i] == g && g.serverId in {serverId, "*"} && tool !in g.deniedTools
    && (tool in g.allowedTools || "*" in g.allowedTools)
    && forall j :: 0 <= j < i ==> grants[j].serverId in {serverId, "*"} ==>
         tool !in grants[j].deniedTools && tool !in grants[j].allowedTools && "*" !in grants[j].allowedTools
  }

  /** Order matters: a grant is returned exactly when it settles the question by
      allowing and no earlier grant settles it at all. */
  lemma {:induction false} GrantIsFirstToDecide(grants: seq<ServerGrant>, serverId: string, tool: string, g: ServerGrant)
    ensures MatchingGrant(grants, serverId, tool) == Some(g) <==>
        exists i :: 0 <= i < |grants| && DecidedAt(grants, serverId, tool, g, i)
  {
    if |grants| == 0 {
    } else if Decides(grants[0], serverId, tool) {
      if MatchingGrant(grants, serverId, tool) == Some(g) {
        assert DecidedAt(grants, serverId, tool, g, 0);
      }
    } else {
      var rest := grants[1..];
      GrantIsFirstToDecide(rest, serverId, tool, g);
      if i :| 0 <= i < |rest| && DecidedAt(rest, serverId, tool, g, i) {
        forall j | 0 <= j < i + 1 ensures !Decides(grants[j], serverId, tool) {
          if j > 0 { assert grants[j] == rest[j - 1]; }
        }
        assert DecidedAt(grants, serverId, tool, g, i + 1);
      }
      if i :| 0 <= i < |grants| && DecidedAt(grants, serverId, tool, g, i) {
        forall j | 0 <= j < i - 1 ensures !Decides(rest[j], serverId, tool) {
          assert rest[j] == grants[j + 1];
        }
        assert DecidedAt(rest, serverId, tool, g, i - 1);
      }
    }
  }
}
