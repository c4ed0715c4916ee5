/** The life of a human approval (services/gateway/approvals.py). */
module Approvals {
  import opened Values
  import opened AuditRecords
  import Keys = AuditKeys
  import Writing = AuditWriter

  datatype Status = Pending | Approved | Expired

  /** What an approval was asked for. */
  datatype Subject = Subject(identity: string, server: string, tool: string, argumentsHash: string)

  datatype Approval = Approval(
    subject: Subject,
    auditId: int,
    expiresAt: real,
    status: Status,
    consumed: bool,
    approvedBy: Option<string>)

  type Rows = map<string, Approval>

  datatype Denial = Unknown | Reused | TooLate | NotGranted | OtherCaller | OtherArguments

  predicate PastDue(row: Approval, now: real) {
    row.expiresAt < now
  }

  // ----- the operations -----

  /** `durable` tells whether the audit rows and the transaction went through; when they do
      not, an error is raised and nothing is stored. */
  datatype Op =
    | Create(now: real, id: string, subject: Subject, auditId: int, ttl: real)
    | Approve(now: real, id: string, approver: string, durable: bool)
    | Redeem(now: real, id: string, subject: Subject, durable: bool)
    | ExpireStale(now: real, durable: bool)

  predicate Grants(rows: Rows, o: Op) {
    o.Approve? && o.durable && o.id in rows && rows[o.id].status == Pending && !PastDue(rows[o.id], o.now)
  }

  /** redeem's classification; None is success. */
  function Classified(rows: Rows, id: string, subject: Subject, now: real): Option<Denial> {
    if id !in rows then Some(Unknown)
    else
      var row := rows[id];
      if row.consumed then Some(Reused)
      else if PastDue(row, now) then Some(TooLate)
      else if row.status != Approved then Some(NotGranted)
      else if (row.subject.identity, row.subject.server, row.subject.tool) != (subject.identity, subject.server, subject.tool)
        then Some(OtherCaller)
      else if row.subject.argumentsHash != subject.argumentsHash then Some(OtherArguments)
      else None
  }

  predicate Redeems(rows: Rows, o: Op) {
    o.Redeem? && o.durable && Classified(rows, o.id, o.subject, o.now).None?
  }

  function Aged(row: Approval, now: real): Approval {
    if row.status == Pending && PastDue(row, now) then row.(status := Expired) else row
  }

  function Next(rows: Rows, o: Op): Rows {
    match o
    case Create(now, id, subject, auditId, ttl) => rows[id := Approval(subject, auditId, now + ttl, Pending, false, None)]
    case Approve(now, id, approver, durable) =>
      if !durable || id !in rows || rows[id].status != Pending then rows
      else if PastDue(rows[id], now) then rows[id := rows[id].(status := Expired)]
      else rows[id := rows[id].(status := Approved, approvedBy := Some(approver))]
    case Redeem(now, id, subject, durable) =>
      if !durable || id !in rows || rows[id].consumed then rows
      else if Classified(rows, id, subject, now).None? then rows[id := rows[id].(consumed := true)]
      else rows[id := Aged(rows[id], now)]
    case ExpireStale(now, durable) =>
      if durable then map id | id in rows :: Aged(rows[id], now) else rows
  }

  class ApprovalStore {
    var rows: Rows

    constructor ()
      ensures rows == map[]
    {
      rows := map[];
    }

    method CreateApproval(now: real, id: string, subject: Subject, auditId: int, ttl: real)
      modifies this
      ensures rows == Next(old(rows), Create(now, id, subject, auditId, ttl))
    {
      rows := rows[id := Approval(subject, auditId, now + ttl, Pending, false, None)];
    }

    /** approve; `granted` is false where it raises. */
    method ApproveRequest(now: real, id: string, approver: string, durable: bool) returns (granted: bool)
      modifies this
      ensures rows == Next(old(rows), Approve(now, id, approver, durable))
      ensures granted <==> Grants(old(rows), Approve(now, id, approver, durable))
    {
      if id !in rows {
        return false;
      }
      var row := rows[id];
      if row.status == Pending && PastDue(row, now) {
        if durable { rows := rows[id := row.(status := Expired)]; }
        return false;
      }
      if row.status != Pending {
        return false;
      }
      if !durable {
        return false;
      }
      rows := rows[id := row.(status := Approved, approvedBy := Some(approver))];
      granted := true;
    }

    /** redeem; None is success, and `durable` false an error raised by the commit. */
    method RedeemApproval(now: real, id: string, subject: Subject, durable: bool) returns (denial: Option<Denial>)
      modifies this
      ensures rows == Next(old(rows), Redeem(now, id, subject, durable))
      ensures denial == Classified(old(rows), id, subject, now)
    {
      if id !in rows {
        return Some(Unknown);
      }
      var row := rows[id];
      if row.consumed {
        return Some(Reused);
      }
      if PastDue(row, now) {
        if row.status == Pending && durable {
          rows := rows[id := row.(status := Expired)];
        }
        return Some(TooLate);
      }
      if row.status != Approved {
        return Some(NotGranted);
      }
      if row.subject.identity != subject.identity || row.subject.server != subject.server || row.subject.tool != subject.tool {
        return Some(OtherCaller);
      }
      if row.subject.argumentsHash != subject.argumentsHash {
        return Some(OtherArguments);
      }
      if durable { rows := rows[id := row.(consumed := true)]; }
      denial := None;
    }

    method ExpireStaleRows(now: real, durable: bool)
      modifies this
      ensures rows == Next(old(rows), ExpireStale(now, durable))
    {
      var aged := rows;
      var todo := set id | id in rows && rows[id].status == Pending && PastDue(rows[id], now);
      while todo != {}
        invariant rows == old(rows) && aged.Keys == rows.Keys && todo <= rows.Keys
        invariant forall id :: id in todo ==> rows[id].status == Pending && PastDue(rows[id], now)
        invariant forall id :: id in rows ==> aged[id] == if id in todo then rows[id] else Aged(rows[id], now)
        decreases |todo|
      {
        var id :| id in todo;
        todo := todo - {id};
        aged := aged[id := aged[id].(status := Expired)];
      }
      if durable { rows := aged; }
    }
  }

  // ----- runs -----

  function RowsAt(ops: seq<Op>, n: nat): Rows
    requires n <= |ops|
  {
    if n == 0 then map[] else Next(RowsAt(ops, n - 1), ops[n - 1])
  }

  /** Approval ids are random: none is issued twice. */
  ghost predicate FreshIds(ops: seq<Op>) {
    forall a, b :: 0 <= a < b < |ops| && ops[a].Create? && ops[b].Create? ==> ops[a].id != ops[b].id
  }

  /** How a row may change: the request itself never does, the status leaves Pending once,
      a consumed row stays consumed, and only an approved one is consumed. */
  ghost predicate Evolves(before: Approval, after: Approval) {
    && after.subject == before.subject && after.expiresAt == before.expiresAt && after.auditId == before.auditId
    && (before.status != Pending ==> after.status == before.status && after.approvedBy == before.approvedBy)
    && (before.consumed ==> after.consumed)
    && (after.consumed && !before.consumed ==> after.status == Approved)
  }

  lemma StepEvolves(rows: Rows, o: Op, id: string)
    requires id in rows && !(o.Create? && o.id == id)
    ensures id in Next(rows, o) && Evolves(rows[id], Next(rows, o)[id])
  {
  }

  lemma {:induction false} RunEvolves(ops: seq<Op>, m: nat, n: nat, id: string)
    requires m <= n <= |ops| && id in RowsAt(ops, m)
    requires forall i :: m <= i < n ==> !(ops[i].Create? && ops[i].id == id)
    ensures id in RowsAt(ops, n) && Evolves(RowsAt(ops, m)[id], RowsAt(ops, n)[id])
  {
    if m < n {
      RunEvolves(ops, m, n - 1, id);
      StepEvolves(RowsAt(ops, n - 1), ops[n - 1], id);
    }
  }

  lemma {:induction false} WhereCreated(ops: seq<Op>, n: nat, id: string) returns (k: nat)
    requires n <= |ops| && id in RowsAt(ops, n)
    ensures k < n && ops[k].Create? && ops[k].id == id
    ensures forall i :: k < i < n ==> !(ops[i].Create? && ops[i].id == id)
  {
    if ops[n - 1].Create? && ops[n - 1].id == id {
      k := n - 1;
    } else {
      k := WhereCreated(ops, n - 1, id);
    }
  }

  /** The step that granted an approved row. */
  lemma {:induction false} WhereGranted(ops: seq<Op>, k: nat, n: nat, id: string) returns (g: nat)
    requires k < n <= |ops| && ops[k].Create? && ops[k].id == id
    requires forall i :: k < i < n ==> !(ops[i].Create? && ops[i].id == id)
    requires id in RowsAt(ops, n) && RowsAt(ops, n)[id].status == Approved
    ensures k < g < n && ops[g].Approve? && ops[g].id == id && Grants(RowsAt(ops, g), ops[g])
    ensures RowsAt(ops, n)[id].approvedBy == Some(ops[g].approver)
  {
    RunEvolves(ops, k + 1, n - 1, id);
    if RowsAt(ops, n - 1)[id].status == Approved {
      g := WhereGranted(ops, k, n - 1, id);
    } else {
      g := n - 1;
    }
  }

  /** In every run a redemption follows the creation of its approval, for the same identity,
      server, tool and arguments, and a grant of it, and comes no later than its expiry. */
  lemma RedemptionFollowsItsGrant(ops: seq<Op>, i: nat) returns (k: nat, g: nat)
    requires i < |ops| && Redeems(RowsAt(ops, i), ops[i])
    ensures k < g < i && ops[k].Create? && ops[k].id == ops[i].id && ops[k].subject == ops[i].subject
    ensures ops[i].now <= ops[k].now + ops[k].ttl
    ensures ops[g].Approve? && ops[g].id == ops[i].id && Grants(RowsAt(ops, g), ops[g])
  {
    k := WhereCreated(ops, i, ops[i].id);
    RunEvolves(ops, k + 1, i, ops[i].id);
    g := WhereGranted(ops, k, i, ops[i].id);
  }

  /** No approval is redeemed twice. */
  lemma RedeemedOnce(ops: seq<Op>, i: nat, j: nat)
    requires FreshIds(ops) && i < j < |ops|
    requires Redeems(RowsAt(ops, i), ops[i]) && ops[j].Redeem? && ops[j].id == ops[i].id
    ensures Classified(RowsAt(ops, j), ops[j].id, ops[j].subject, ops[j].now) == Some(Reused)
  {
    hide Next, Grants;
    var k := WhereCreated(ops, i, ops[i].id);
    RedemptionConsumes(RowsAt(ops, i), ops[i]);
    RunEvolves(ops, i + 1, j, ops[i].id);
  }

  lemma RedemptionConsumes(rows: Rows, o: Op)
    requires Redeems(rows, o)
    ensures o.id in Next(rows, o) && Next(rows, o)[o.id].consumed
  {
  }

  /** In every run a consumed approval is an approved one. */
  lemma {:induction false} ConsumedIsApproved(ops: seq<Op>, n: nat, id: string)
    requires n <= |ops| && id in RowsAt(ops, n) && RowsAt(ops, n)[id].consumed
    ensures RowsAt(ops, n)[id].status == Approved
  {
    if !(ops[n - 1].Create? && ops[n - 1].id == id) {
      StepEvolves(RowsAt(ops, n - 1), ops[n - 1], id);
      if RowsAt(ops, n - 1)[id].consumed {
        ConsumedIsApproved(ops, n - 1, id);
      }
    }
  }

  /** From one moment to a later one a status moves only from Pending, and never back. */
  lemma StatusOnlyLeavesPending(ops: seq<Op>, m: nat, n: nat, id: string)
    requires FreshIds(ops) && m <= n <= |ops| && id in RowsAt(ops, m)
    ensures id in RowsAt(ops, n)
    ensures RowsAt(ops, m)[id].status != Pending ==> RowsAt(ops, n)[id].status == RowsAt(ops, m)[id].status
  {
    var k := WhereCreated(ops, m, id);
    RunEvolves(ops, m, n, id);
  }

  // ----- exactly what gets granted and redeemed -----

  ghost predicate Ordered(ops: seq<Op>) {
    forall i, j :: 0 <= i <= j < |ops| ==> ops[i].now <= ops[j].now
  }

  /** The request that the i-th operation speaks of was made by the k-th one. */
  predicate MadeBy(ops: seq<Op>, id: string, k: nat)
    requires k < |ops|
  {
    ops[k].Create? && ops[k].id == id
  }

  /** The g-th operation approves it, in time and durably. */
  predicate ApprovesInTime(ops: seq<Op>, k: nat, g: nat)
    requires k < |ops| && g < |ops| && ops[k].Create?
  {
    ops[g].Approve? && ops[g].id == ops[k].id && ops[g].durable && ops[g].now <= ops[k].now + ops[k].ttl
  }

  predicate RedeemsAt(ops: seq<Op>, id: string, j: nat)
    requires j < |ops|
  {
    ops[j].Redeem? && ops[j].id == id && Redeems(RowsAt(ops, j), ops[j])
  }

  ghost predicate WasApproved(ops: seq<Op>, k: nat, n: nat)
    requires k < n <= |ops| && ops[k].Create?
  {
    exists g :: k < g < n && ApprovesInTime(ops, k, g)
  }

  ghost predicate WasRedeemed(ops: seq<Op>, id: string, k: nat, n: nat)
    requires k < n <= |ops|
  {
    exists j :: k < j < n && RedeemsAt(ops, id, j)
  }

  /** One operation on a request that is not past due. */
  lemma InTimeStep(rows: Rows, o: Op, id: string)
    requires id in rows && !(o.Create? && o.id == id) && o.now <= rows[id].expiresAt && rows[id].status != Expired
    ensures
      var after := Next(rows, o);
      && id in after && after[id].subject == rows[id].subject && after[id].expiresAt == rows[id].expiresAt
      && after[id].auditId == rows[id].auditId
      && after[id].status == (if o.Approve? && o.id == id && o.durable then Approved else rows[id].status)
      && (after[id].consumed <==> rows[id].consumed || (o.Redeem? && o.id == id && Redeems(rows, o)))
  {
  }

  /** As long as it is not past due, a request is what was made: pending until approved in
      time, approved from then on, and consumed once redeemed. */
  lemma {:induction false} InTimeExactly(ops: seq<Op>, k: nat, n: nat, id: string)
    requires FreshIds(ops) && Ordered(ops) && k < n <= |ops| && MadeBy(ops, id, k)
    requires n > k + 1 ==> ops[n - 1].now <= ops[k].now + ops[k].ttl
    ensures
      var rows := RowsAt(ops, n);
      && id in rows && rows[id].subject == ops[k].subject && rows[id].expiresAt == ops[k].now + ops[k].ttl
      && rows[id].auditId == ops[k].auditId
      && rows[id].status == (if WasApproved(ops, k, n) then Approved else Pending)
      && (rows[id].consumed <==> WasRedeemed(ops, id, k, n))
  {
    if k + 1 < n {
      InTimeExactly(ops, k, n - 1, id);
      assert !(ops[n - 1].Create? && ops[n - 1].id == id);
      hide Next, Redeems;
      InTimeStep(RowsAt(ops, n - 1), ops[n - 1], id);
      assert WasApproved(ops, k, n) <==> WasApproved(ops, k, n - 1) || ApprovesInTime(ops, k, n - 1);
      assert WasRedeemed(ops, id, k, n) <==> WasRedeemed(ops, id, k, n - 1) || RedeemsAt(ops, id, n - 1);
    }
  }

  /** Over every run an approval is redeemed exactly when it was made for the same identity,
      server, tool and arguments, approved in time, is not past due, and was not redeemed. */
  lemma RedeemedExactlyWhen(ops: seq<Op>, k: nat, i: nat)
    requires FreshIds(ops) && Ordered(ops) && k < i < |ops| && ops[i].Redeem? && ops[i].durable && MadeBy(ops, ops[i].id, k)
    ensures Redeems(RowsAt(ops, i), ops[i]) <==>
      && ops[k].subject == ops[i].subject && ops[i].now <= ops[k].now + ops[k].ttl
      && WasApproved(ops, k, i) && !WasRedeemed(ops, ops[i].id, k, i)
  {
    hide Next, WasApproved, WasRedeemed;
    if ops[i].now <= ops[k].now + ops[k].ttl {
      InTimeExactly(ops, k, i, ops[i].id);
    } else {
      MadeStands(ops, k, i, ops[i].id);
    }
  }

  lemma MadeStands(ops: seq<Op>, k: nat, n: nat, id: string)
    requires FreshIds(ops) && k < n <= |ops| && MadeBy(ops, id, k)
    ensures id in RowsAt(ops, n) && RowsAt(ops, n)[id].expiresAt == ops[k].now + ops[k].ttl
  {
    RunEvolves(ops, k + 1, n, id);
  }

  /** Over every run an approval is granted exactly when it is approved in time for the
      first time; a request never made is never granted. */
  lemma GrantedExactlyWhen(ops: seq<Op>, i: nat)
    requires FreshIds(ops) && Ordered(ops) && i < |ops| && ops[i].Approve?
    ensures Grants(RowsAt(ops, i), ops[i]) <==>
      exists k: nat :: k < i && MadeBy(ops, ops[i].id, k) && ApprovesInTime(ops, k, i) && !WasApproved(ops, k, i)
  {
    hide Next, WasApproved, WasRedeemed;
    var id := ops[i].id;
    if id in RowsAt(ops, i) {
      var k := WhereCreated(ops, i, id);
      assert MadeBy(ops, id, k);
      MadeStands(ops, k, i, id);
      if ops[i].now <= ops[k].now + ops[k].ttl {
        InTimeExactly(ops, k, i, id);
      }
    }
    if k: nat :| k < i && MadeBy(ops, id, k) && ApprovesInTime(ops, k, i) && !WasApproved(ops, k, i) {
      InTimeExactly(ops, k, i, id);
    }
  }

  /** A refused redemption says what is so. */
  lemma RefusalsAreTrue(rows: Rows, id: string, subject: Subject, now: real)
    ensures match Classified(rows, id, subject, now)
            case None => id in rows && rows[id].subject == subject && now <= rows[id].expiresAt
            case Some(Unknown) => id !in rows
            case Some(Reused) => id in rows && rows[id].consumed
            case Some(TooLate) => id in rows && !rows[id].consumed && rows[id].expiresAt < now
            case Some(NotGranted) => id in rows && rows[id].status != Approved && now <= rows[id].expiresAt
            case Some(OtherCaller) => id in rows && rows[id].status == Approved && rows[id].subject != subject
            case Some(OtherArguments) =>
              id in rows && rows[id].subject == subject.(argumentsHash := rows[id].subject.argumentsHash) && rows[id].subject != subject
  {
  }

  /** A durable sweep expires exactly the pending requests past due; so do an approval and,
      unless the request was consumed, a redemption that comes upon one. */
  lemma PastDueExpires(rows: Rows, o: Op, id: string)
    requires id in rows && !o.Create? && (o.ExpireStale? || o.id == id)
    ensures id in Next(rows, o)
    ensures Next(rows, o)[id].status == Expired <==>
      || rows[id].status == Expired
      || (o.durable && rows[id].status == Pending && rows[id].expiresAt < o.now && !(o.Redeem? && rows[id].consumed))
  {
  }

  // ----- the audit row of a grant -----

  /** What approve records: the approver in the column, the requester in the extras. */
  function GrantRequest(id: string, row: Approval, approver: string): Writing.Request {
    Writing.Request("APPROVED", approver, Some(row.subject.server), Some(row.subject.tool),
      map["approval_id" := Str(id), "identity_id" := Str(row.subject.identity)], None)
  }

  /** The extras overwrite the hashed identity, so in a chain the writer made every verifier
      accepts the row of a grant exactly when the approver is the requester, and stops there
      otherwise. */
  lemma GrantRowVerifiesExactlyWhenSelfApproved(c: Crypto, ring: Keyring, log: seq<AuditRecord>, i: nat,
      id: string, row: Approval, approver: string, prev: string, key: PrivateKey, policyVersion: int, timestamp: int)
    requires Writing.ChainMade(c, ring, log) && i < |log|
    requires !Writing.HasNul(GrantRequest(id, row, approver))
    requires log[i] == Writing.RowOf(c, GrantRequest(id, row, approver), prev, key, policyVersion, log[i].seqNo, timestamp)
    ensures GoodAt(c, log, i, GENESIS_HASH, ring, None) <==> approver == row.subject.identity
  {
    var req := GrantRequest(id, row, approver);
    Writing.WriterChainVerifies(c, ring, log, i);
    Writing.FaithfulExactlyWhenExtrasAgree(c, req, prev, key, policyVersion, log[i].seqNo, timestamp);
    GrantExtras(id, row, approver, policyVersion, Keys.KeyIdOf(c, key));
  }

  lemma GrantExtras(id: string, row: Approval, approver: string, policyVersion: int, keyId: string)
    ensures Writing.ExtrasAgree(GrantRequest(id, row, approver), policyVersion, keyId) <==> approver == row.subject.identity
  {
    var extra := GrantRequest(id, row, approver).extra;
    assert extra.Keys == {"approval_id", "identity_id"};
    assert extra["identity_id"] == Str(row.subject.identity);
  }
}
