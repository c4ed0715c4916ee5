/** The audit signing key on disk: staged rotation behind a journal, and recovery from a
    crash at any durable write (services/gateway/audit_keys.py). */
module AuditKeys {
  import opened Values
  import opened AuditRecords

  datatype Phase = Prepared | Handoff | Promoted

  /** The rotation journal. */
  datatype Rotation = Rotation(
    operationId: string,
    oldKeyId: string,
    newKeyId: string,
    approvedBy: string,
    phase: Phase,
    auditSeq: Option<int>)

  /** A public key file: written in full, or torn by a crash while it was created. */
  datatype PublicFile = Torn | Whole(key: PublicKey)

  datatype Disk = Disk(
    active: PrivateKey,
    pending: Option<PrivateKey>,
    journal: Option<Rotation>,
    public: map<string, PublicFile>)

  /** The durable writes; each is atomic on its own. */
  datatype DiskOp =
    | CreatePublic(id: string)
    | FillPublic(id: string, key: PublicKey)
    | PutPending(key: PrivateKey)
    | PutJournal(rotation: Rotation)
    | Promote
    | DropPending
    | DropJournal

  function KeyIdOf(c: Crypto, k: PrivateKey): string {
    c.keyId(c.publicOf(k))
  }

  function Apply(d: Disk, op: DiskOp): Disk {
    match op
    case CreatePublic(id) => d.(public := d.public[id := Torn])
    case FillPublic(id, key) => d.(public := d.public[id := Whole(key)])
    case PutPending(key) => d.(pending := Some(key))
    case PutJournal(r) => d.(journal := Some(r))
    case Promote => if d.pending.Some? then d.(active := d.pending.value, pending := None) else d
    case DropPending => d.(pending := None)
    case DropJournal => d.(journal := None)
  }

  /** The disk after the first n writes of a plan. */
  function Upto(d: Disk, plan: seq<DiskOp>, n: nat): Disk
    requires n <= |plan|
  {
    if n == 0 then d else Apply(Upto(d, plan, n - 1), plan[n - 1])
  }

  function Done(d: Disk, plan: seq<DiskOp>): Disk {
    Upto(d, plan, |plan|)
  }

  lemma {:induction false} UptoConcat(d: Disk, a: seq<DiskOp>, b: seq<DiskOp>, n: nat)
    requires n <= |a + b|
    ensures Upto(d, a + b, n) == if n <= |a| then Upto(d, a, n) else Upto(Done(d, a), b, n - |a|)
  {
    if n > 0 {
      UptoConcat(d, a, b, n - 1);
    }
  }

  // ----- the writes of a rotation -----

  function PreparePlan(c: Crypto, next: PrivateKey, r: Rotation): seq<DiskOp> {
    var id := KeyIdOf(c, next);
    [CreatePublic(id), FillPublic(id, c.publicOf(next)), PutPending(next), PutJournal(r)]
  }

  function PromotePlan(r: Rotation): seq<DiskOp> {
    [Promote, PutJournal(r.(phase := Promoted))]
  }

  const DropPlan: seq<DiskOp> := [DropPending, DropJournal]

  function HandoffPlan(r: Rotation, auditSeq: int): seq<DiskOp> {
    var handed := r.(phase := Handoff, auditSeq := Some(auditSeq));
    [PutJournal(handed)] + PromotePlan(handed) + DropPlan
  }

  /** How far one attempt to rotate got. `rows` are the AUDIT_KEY_ROTATED rows that
      were committed for it: a pointer conflict after a commit writes the row again.
      An attempt that an exception stops before the handoff is recorded is rolled back
      by dropping the staged files, and that may be cut short too. */
  datatype Story =
    | StoppedBefore(n: nat)
    | StoppedAfter(rows: seq<int>, n: nat)
    | RolledBack(n: nat, rows: seq<int>, dropped: nat)

  predicate Possible(s: Story) {
    match s
    case StoppedBefore(n) => n <= 4
    case StoppedAfter(rows, n) => rows != [] && n <= 5
    case RolledBack(n, rows, dropped) => n <= 4 && dropped <= 2 && (rows != [] ==> n == 4)
  }

  /** The sequence numbers of the rows committed for the operation. */
  function RowsOf(s: Story): seq<int> {
    match s case StoppedBefore(_) => [] case StoppedAfter(rows, _) => rows case RolledBack(_, rows, _) => rows
  }

  function After(c: Crypto, d: Disk, next: PrivateKey, r: Rotation, s: Story): Disk
    requires Possible(s)
  {
    match s
    case StoppedBefore(n) => Upto(d, PreparePlan(c, next, r), n)
    case StoppedAfter(rows, n) => Upto(Done(d, PreparePlan(c, next, r)), HandoffPlan(r, rows[|rows| - 1]), n)
    case RolledBack(n, _, dropped) => Upto(Upto(d, PreparePlan(c, next, r), n), DropPlan, dropped)
  }

  // ----- recovery -----

  /** ensure_public: nothing to do, the two writes that create the file, or an error. */
  function EnsurePlan(c: Crypto, d: Disk, key: PrivateKey): Option<seq<DiskOp>> {
    var id := KeyIdOf(c, key);
    if id !in d.public then Some([CreatePublic(id), FillPublic(id, c.publicOf(key))])
    else if d.public[id] == Whole(c.publicOf(key)) then Some([])
    else None
  }

  /** The writes that settle a journal, given the rows that name its operation; None
      where recovery raises. `scalar_one_or_none` raises on two rows or more. */
  function SettlePlan(c: Crypto, d: Disk, rows: seq<int>): Option<seq<DiskOp>> {
    if d.journal.None? then Some([])
    else if |rows| == 0 then Some(DropPlan)
    else if |rows| >= 2 then None
    else if KeyIdOf(c, d.active) == d.journal.value.newKeyId then Some(DropPlan)
    else if d.pending.None? || KeyIdOf(c, d.pending.value) != d.journal.value.newKeyId then None
    else Some(PromotePlan(d.journal.value.(phase := Handoff, auditSeq := Some(rows[0]))) + DropPlan)
  }

  /** Everything recovery writes, in order. */
  function RecoverPlan(c: Crypto, d: Disk, rows: seq<int>): Option<seq<DiskOp>> {
    var settle := SettlePlan(c, d, rows);
    if settle.None? then None
    else
      var settled := Done(d, settle.value);
      var ensure := EnsurePlan(c, settled, settled.active);
      if ensure.None? then None else Some(settle.value + ensure.value)
  }

  /** Recoveries that crash: each is cut off after some of its writes. */
  function Crashes(c: Crypto, d: Disk, rows: seq<int>, cuts: seq<nat>): Disk
    decreases |cuts|
  {
    if |cuts| == 0 then d
    else
      var plan := RecoverPlan(c, d, rows);
      if plan.None? then d
      else Crashes(c, Upto(d, plan.value, if cuts[0] <= |plan.value| then cuts[0] else |plan.value|), rows, cuts[1..])
  }

  // ----- what the journal decides -----

  /** Private keys have distinct, non-empty fingerprints. */
  ghost predicate DistinctKeys(c: Crypto) {
    && (forall j, k :: KeyIdOf(c, j) == KeyIdOf(c, k) ==> j == k)
    && (forall k :: KeyIdOf(c, k) != "")
  }

  ghost predicate Archived(c: Crypto, d: Disk, k: PrivateKey) {
    KeyIdOf(c, k) in d.public && d.public[KeyIdOf(c, k)] == Whole(c.publicOf(k))
  }

  /** No rotation under way and the active key's public half filed. */
  ghost predicate Settled(c: Crypto, d: Disk) {
    d.journal.None? && Archived(c, d, d.active)
  }

  /** Every disk a rotation from `was` to `next` passes through, live or in recovery. */
  ghost predicate Midway(c: Crypto, d: Disk, was: PrivateKey, next: PrivateKey, operationId: string, rows: seq<int>) {
    && Archived(c, d, was)
    && (d.journal.None? ==> d.active in {was, next} && Archived(c, d, d.active))
    && (d.journal.Some? ==>
          && Archived(c, d, next)
          && d.journal.value.operationId == operationId
          && d.journal.value.newKeyId == KeyIdOf(c, next)
          && (d.active == was || (d.active == next && rows != []))
          && (d.pending == Some(next) || d.pending == None))
  }

  /** The key that is bound to come out, or None when recovery is bound to raise. */
  function Verdict(c: Crypto, d: Disk, was: PrivateKey, next: PrivateKey, rows: seq<int>): Option<PrivateKey> {
    if d.journal.None? then Some(d.active)
    else if |rows| == 0 then Some(was)
    else if |rows| >= 2 then None
    else if d.active == next || d.pending == Some(next) then Some(next)
    else None
  }

  /** Old public keys are never taken away or altered. */
  ghost predicate KeepsArchive(before: Disk, after: Disk) {
    forall id :: id in before.public && before.public[id].Whole? ==>
      id in after.public && after.public[id] == before.public[id]
  }

  /** The attempt left a state that recovery cannot get past: the operation's rows are
      several, or the rollback was cut between its two deletions with the row committed. */
  predicate Stuck(s: Story) {
    match s
    case StoppedBefore(_) => false
    case StoppedAfter(rows, n) => |rows| >= 2 && n < 5
    case RolledBack(_, rows, dropped) => dropped < 2 && (|rows| >= 2 || (|rows| == 1 && dropped == 1))
  }

  /** The attempt ends with the new key in force. */
  predicate Promotes(s: Story) {
    match s
    case StoppedBefore(_) => false
    case StoppedAfter(_, _) => true
    case RolledBack(_, rows, dropped) => |rows| == 1 && dropped == 0
  }

  // ----- lemmas -----

  lemma PrepareStates(c: Crypto, d: Disk, next: PrivateKey, r: Rotation, n: nat)
    requires n <= 4
    ensures
      var e := Upto(d, PreparePlan(c, next, r), n);
      && e.active == d.active
      && e.pending == (if n >= 3 then Some(next) else d.pending)
      && e.journal == (if n >= 4 then Some(r) else d.journal)
      && (forall id :: id != KeyIdOf(c, next) ==> (id in e.public <==> id in d.public))
      && (forall id :: id != KeyIdOf(c, next) && id in d.public ==> e.public[id] == d.public[id])
      && (n >= 2 ==> Archived(c, e, next))
  {
    var plan := PreparePlan(c, next, r);
    if n >= 1 { assert Upto(d, plan, 1) == Apply(d, plan[0]); }
    if n >= 2 { assert Upto(d, plan, 2) == Apply(Upto(d, plan, 1), plan[1]); }
    if n >= 3 { assert Upto(d, plan, 3) == Apply(Upto(d, plan, 2), plan[2]); }
  }

  lemma HandoffStates(d: Disk, r: Rotation, auditSeq: int, n: nat)
    requires n <= 5 && d.pending.Some?
    ensures
      var e := Upto(d, HandoffPlan(r, auditSeq), n);
      && e.public == d.public
      && e.active == (if n >= 2 then d.pending.value else d.active)
      && e.pending == (if n >= 2 then None else d.pending)
      && e.journal == (if n == 0 then d.journal else if n >= 5 then None
                       else Some(r.(phase := if n >= 3 then Promoted else Handoff, auditSeq := Some(auditSeq))))
  {
    var plan := HandoffPlan(r, auditSeq);
    assert |plan| == 5;
    if n >= 1 { assert Upto(d, plan, 1) == Apply(d, plan[0]); }
    if n >= 2 { assert Upto(d, plan, 2) == Apply(Upto(d, plan, 1), plan[1]); }
    if n >= 3 { assert Upto(d, plan, 3) == Apply(Upto(d, plan, 2), plan[2]); }
    if n >= 4 { assert Upto(d, plan, 4) == Apply(Upto(d, plan, 3), plan[3]); }
  }

  lemma DropStates(d: Disk, n: nat)
    requires n <= 2
    ensures Upto(d, DropPlan, n) == d.(
        pending := if n >= 1 then None else d.pending,
        journal := if n >= 2 then None else d.journal)
  {
    if n >= 1 { assert Upto(d, DropPlan, 1) == Apply(d, DropPlan[0]); }
  }

  /** Whatever point an attempt reached, the disk is one that recovery understands, and
      what recovery will make of it is fixed by the story. */
  lemma StoryIsMidway(c: Crypto, d: Disk, next: PrivateKey, r: Rotation, s: Story)
    requires DistinctKeys(c) && Settled(c, d) && Possible(s)
    requires KeyIdOf(c, next) !in d.public && r.newKeyId == KeyIdOf(c, next)
    ensures
      var e := After(c, d, next, r, s);
      && Midway(c, e, d.active, next, r.operationId, RowsOf(s))
      && KeepsArchive(d, e)
      && Verdict(c, e, d.active, next, RowsOf(s)) ==
           if Stuck(s) then None else Some(if Promotes(s) then next else d.active)
  {
    match s {
      case StoppedBefore(n) =>
        PrepareStates(c, d, next, r, n);
      case StoppedAfter(rows, n) =>
        PrepareStates(c, d, next, r, 4);
        HandoffStates(Done(d, PreparePlan(c, next, r)), r, rows[|rows| - 1], n);
      case RolledBack(n, rows, dropped) =>
        PrepareStates(c, d, next, r, n);
        DropStates(Upto(d, PreparePlan(c, next, r), n), dropped);
    }
  }

  lemma PromoteStates(d: Disk, r: Rotation, n: nat)
    requires n <= 4 && d.pending.Some?
    ensures
      var e := Upto(d, PromotePlan(r) + DropPlan, n);
      && e.public == d.public
      && e.active == (if n >= 1 then d.pending.value else d.active)
      && e.pending == (if n >= 1 then None else d.pending)
      && (n >= 4 ==> e.journal == None)
      && (n <= 1 ==> e.journal == d.journal)
      && (2 <= n <= 3 ==> e.journal == Some(r.(phase := Promoted)))
  {
    var plan := PromotePlan(r) + DropPlan;
    if n >= 1 { assert Upto(d, plan, 1) == Apply(d, plan[0]); }
    if n >= 2 { assert Upto(d, plan, 2) == Apply(Upto(d, plan, 1), plan[1]); }
    if n >= 3 { assert Upto(d, plan, 3) == Apply(Upto(d, plan, 2), plan[2]); }
  }

  /** Recovery raises exactly where it is bound to, never files a public key anew, and
      neither a completed nor an interrupted recovery changes what is bound to come out. */
  lemma RecoverKeepsVerdict(c: Crypto, d: Disk, was: PrivateKey, next: PrivateKey, operationId: string, rows: seq<int>, n: nat)
    requires DistinctKeys(c) && was != next && Midway(c, d, was, next, operationId, rows)
    ensures
      var plan := RecoverPlan(c, d, rows);
      && (plan.None? <==> Verdict(c, d, was, next, rows).None?)
      && (plan.Some? && n <= |plan.value| ==>
            var e := Upto(d, plan.value, n);
            && Midway(c, e, was, next, operationId, rows)
            && Verdict(c, e, was, next, rows) == Verdict(c, d, was, next, rows)
            && e.public == d.public
            && (n == |plan.value| ==> Settled(c, e) && Verdict(c, d, was, next, rows) == Some(e.active)))
  {
    var settle := SettlePlan(c, d, rows);
    if settle.Some? {
      var k := |settle.value|;
      if settle.value == DropPlan {
        DropStates(d, 2);
        if n <= 2 { DropStates(d, n); }
      } else if d.journal.Some? {
        var r := d.journal.value.(phase := Handoff, auditSeq := Some(rows[0]));
        PromoteStates(d, r, 4);
        if n <= 4 { PromoteStates(d, r, n); }
      }
      var settled := Done(d, settle.value);
      assert Settled(c, settled);
      assert EnsurePlan(c, settled, settled.active) == Some([]);
      assert settle.value + [] == settle.value;
    }
  }

  lemma {:induction false} CrashesKeepVerdict(c: Crypto, d: Disk, was: PrivateKey, next: PrivateKey,
                                              operationId: string, rows: seq<int>, cuts: seq<nat>)
    requires DistinctKeys(c) && was != next && Midway(c, d, was, next, operationId, rows)
    ensures
      var e := Crashes(c, d, rows, cuts);
      && Midway(c, e, was, next, operationId, rows)
      && Verdict(c, e, was, next, rows) == Verdict(c, d, was, next, rows)
      && e.public == d.public
    decreases |cuts|
  {
    var plan := RecoverPlan(c, d, rows);
    if |cuts| > 0 && plan.Some? {
      var n := if cuts[0] <= |plan.value| then cuts[0] else |plan.value|;
      RecoverKeepsVerdict(c, d, was, next, operationId, rows, n);
      CrashesKeepVerdict(c, Upto(d, plan.value, n), was, next, operationId, rows, cuts[1..]);
    }
  }

  /** Key rotation is crash-atomic. After any attempt, and any number of recoveries that
      crash at any of their writes, recovery raises exactly when the attempt left it
      stuck; otherwise it completes with no journal, with the new key in force exactly
      when the attempt promotes, and with every archived public key still in place. */
  lemma RotationIsCrashAtomic(c: Crypto, d: Disk, next: PrivateKey, r: Rotation, s: Story, cuts: seq<nat>)
    requires DistinctKeys(c) && Settled(c, d) && Possible(s)
    requires KeyIdOf(c, next) !in d.public && r.newKeyId == KeyIdOf(c, next)
    ensures
      var e := Crashes(c, After(c, d, next, r, s), RowsOf(s), cuts);
      var plan := RecoverPlan(c, e, RowsOf(s));
      && (plan.None? <==> Stuck(s))
      && (plan.Some? ==>
            var f := Done(e, plan.value);
            && Settled(c, f)
            && f.active == (if Promotes(s) then next else d.active)
            && KeepsArchive(d, f))
  {
    StoryIsMidway(c, d, next, r, s);
    var a := After(c, d, next, r, s);
    assert d.active != next;
    CrashesKeepVerdict(c, a, d.active, next, r.operationId, RowsOf(s), cuts);
    var e := Crashes(c, a, RowsOf(s), cuts);
    RecoverKeepsVerdict(c, e, d.active, next, r.operationId, RowsOf(s), 0);
    var plan := RecoverPlan(c, e, RowsOf(s));
    if plan.Some? {
      RecoverKeepsVerdict(c, e, d.active, next, r.operationId, RowsOf(s), |plan.value|);
    }
  }

  /** The log and the key agree - new key in force exactly when a rotation row is in the
      log - unless the attempt was rolled back after its row had been committed. */
  lemma LogAndKeyAgreeUnlessRolledBackAfterCommit(s: Story)
    requires Possible(s) && !Stuck(s)
    ensures (Promotes(s) <==> RowsOf(s) != []) <==> !(s.RolledBack? && s.rows != [] && s.dropped == 2)
  {
  }

  /** Public keys stay filed through any part of any attempt, and the new key is filed
      before the attempt can reach its handoff. */
  lemma AttemptKeepsArchive(c: Crypto, d: Disk, next: PrivateKey, r: Rotation, s: Story)
    requires Possible(s) && KeyIdOf(c, next) !in d.public
    ensures KeepsArchive(d, After(c, d, next, r, s))
    ensures s.StoppedAfter? ==> Archived(c, After(c, d, next, r, s), next)
  {
    match s {
      case StoppedBefore(n) =>
        PrepareStates(c, d, next, r, n);
      case StoppedAfter(rows, n) =>
        PrepareStates(c, d, next, r, 4);
        HandoffStates(Done(d, PreparePlan(c, next, r)), r, rows[|rows| - 1], n);
      case RolledBack(n, rows, dropped) =>
        PrepareStates(c, d, next, r, n);
        DropStates(Upto(d, PreparePlan(c, next, r), n), dropped);
    }
  }

  lemma SettleKeepsPublic(c: Crypto, d: Disk, rows: seq<int>, n: nat)
    requires SettlePlan(c, d, rows).Some? && n <= |SettlePlan(c, d, rows).value|
    ensures Upto(d, SettlePlan(c, d, rows).value, n).public == d.public
  {
    var plan := SettlePlan(c, d, rows).value;
    if plan == DropPlan {
      DropStates(d, n);
    } else if d.journal.Some? {
      PromoteStates(d, d.journal.value.(phase := Handoff, auditSeq := Some(rows[0])), n);
    }
  }

  // ----- many rotations -----

  /** One attempt in the life of a deployment, with the recoveries after it. */
  datatype Attempt = Attempt(next: PrivateKey, rotation: Rotation, story: Story, cuts: seq<nat>)

  /** The disk once the attempt has been recovered from. */
  function Recovered(c: Crypto, d: Disk, a: Attempt): Disk
    requires Possible(a.story)
  {
    var e := Crashes(c, After(c, d, a.next, a.rotation, a.story), RowsOf(a.story), a.cuts);
    var plan := RecoverPlan(c, e, RowsOf(a.story));
    if plan.Some? then Done(e, plan.value) else e
  }

  /** Every attempt brings a new key, and none leaves recovery stuck. */
  ghost predicate Plausible(c: Crypto, d: Disk, life: seq<Attempt>)
    decreases |life|
  {
    |life| > 0 ==>
      && Possible(life[0].story) && !Stuck(life[0].story)
      && KeyIdOf(c, life[0].next) !in d.public
      && life[0].rotation.newKeyId == KeyIdOf(c, life[0].next)
      && Plausible(c, Recovered(c, d, life[0]), life[1..])
  }

  function Live(c: Crypto, d: Disk, life: seq<Attempt>): Disk
    decreases |life|
  {
    if |life| == 0 || !Possible(life[0].story) then d else Live(c, Recovered(c, d, life[0]), life[1..])
  }

  /** After any series of rotations, crashes and recoveries the active key's public half
      is on file, and so is that of every key that was ever in force: no row signed
      along the way loses the key it names. */
  lemma {:induction false} ArchiveOutlivesRotations(c: Crypto, d: Disk, life: seq<Attempt>)
    requires DistinctKeys(c) && Settled(c, d) && Plausible(c, d, life)
    ensures
      var e := Live(c, d, life);
      && Settled(c, e) && KeepsArchive(d, e)
      && forall i :: 0 <= i < |life| && Promotes(life[i].story) ==> Archived(c, e, life[i].next)
    decreases |life|
  {
    if |life| > 0 {
      var a := life[0];
      RotationIsCrashAtomic(c, d, a.next, a.rotation, a.story, a.cuts);
      var mid := Recovered(c, d, a);
      ArchiveOutlivesRotations(c, mid, life[1..]);
      forall i | 0 <= i < |life| && Promotes(life[i].story) ensures Archived(c, Live(c, d, life), life[i].next) {
        if i > 0 { assert life[i] == life[1..][i - 1]; }
      }
    }
  }

  // ----- the store -----

  /** How a durable write ends for the code that asked for it. After a crash nothing
      more runs; an OSError may come before or after the effect. */
  datatype Io = Fine | Raised | Crashed

  /** What the environment does to one durable write; a calm one lets it be. */
  method Strike(calm: bool) returns (io: Io)
    ensures calm ==> io == Fine
  {
    io := *;
    if calm { io := Fine; }
  }

  class AuditKeyStore {
    var active: PrivateKey
    var pending: Option<PrivateKey>
    var journal: Option<Rotation>
    var public: map<string, PublicFile>

    constructor (d: Disk)
      ensures State() == d
    {
      active, pending, journal, public := d.active, d.pending, d.journal, d.public;
    }

    function State(): Disk
      reads this
    {
      Disk(active, pending, journal, public)
    }

    /** One durable write, with every way it can end: struck before its effect or after. */
    method Write(op: DiskOp, calm: bool) returns (io: Io, ghost written: nat)
      modifies this
      ensures written <= 1
      ensures State() == if written == 1 then Apply(old(State()), op) else old(State())
      ensures io == Fine ==> written == 1
      ensures calm ==> io == Fine
    {
      written := 0;
      io := Strike(calm);
      if io != Fine { return; }
      match op {
        case CreatePublic(id) => public := public[id := Torn];
        case FillPublic(id, key) => public := public[id := Whole(key)];
        case PutPending(key) => pending := Some(key);
        case PutJournal(r) => journal := Some(r);
        case Promote =>
          if pending.Some? {
            active := pending.value;
            pending := None;
          }
        case DropPending => pending := None;
        case DropJournal => journal := None;
      }
      written := 1;
      io := Strike(calm);
    }

    /** A run of writes that stops at the first one that does not end well. */
    method WriteAll(plan: seq<DiskOp>, calm: bool) returns (io: Io, ghost written: nat)
      modifies this
      ensures written <= |plan| && State() == Upto(old(State()), plan, written)
      ensures io == Fine ==> written == |plan|
      ensures calm ==> io == Fine
    {
      written := 0;
      io := Fine;
      for i := 0 to |plan|
        invariant written == i && State() == Upto(old(State()), plan, i) && io == Fine
      {
        ghost var one;
        io, one := Write(plan[i], calm);
        written := written + one;
        if io != Fine { return; }
      }
    }

    /** prepare: stages a new key behind the journal; refused while a journal exists. */
    method Prepare(c: Crypto, approvedBy: string, operationId: string, next: PrivateKey, calm: bool)
      returns (io: Io, rotation: Rotation, ghost written: nat)
      requires KeyIdOf(c, next) !in public
      modifies this
      ensures rotation == Rotation(operationId, KeyIdOf(c, old(active)), KeyIdOf(c, next), approvedBy, Prepared, None)
      ensures old(journal).Some? ==> io == Raised && State() == old(State()) && written == 0
      ensures written <= 4 && State() == Upto(old(State()), PreparePlan(c, next, rotation), written)
      ensures io == Fine ==> written == 4
      ensures calm && old(journal).None? ==> io == Fine
    {
      rotation := Rotation(operationId, KeyIdOf(c, active), KeyIdOf(c, next), approvedBy, Prepared, None);
      if journal.Some? {
        return Raised, rotation, 0;
      }
      io, written := WriteAll(PreparePlan(c, next, rotation), calm);
    }

    method MarkHandoff(rotation: Rotation, auditSeq: int, calm: bool) returns (io: Io, handed: Rotation, ghost written: nat)
      modifies this
      ensures handed == rotation.(phase := Handoff, auditSeq := Some(auditSeq))
      ensures written <= 1 && State() == if written == 1 then Apply(old(State()), PutJournal(handed)) else old(State())
      ensures io == Fine ==> written == 1
      ensures calm ==> io == Fine
    {
      handed := rotation.(phase := Handoff, auditSeq := Some(auditSeq));
      io, written := Write(PutJournal(handed), calm);
    }

    /** promote: refuses a staged key that is not the journal's. */
    method PromoteStaged(c: Crypto, rotation: Rotation, calm: bool) returns (io: Io, ghost written: nat)
      modifies this
      ensures written <= 2 && State() == Upto(old(State()), PromotePlan(rotation), written)
      ensures io == Fine ==> written == 2
      ensures old(pending).None? || KeyIdOf(c, old(pending).value) != rotation.newKeyId ==> io == Raised && written == 0
      ensures calm && old(pending).Some? && KeyIdOf(c, old(pending).value) == rotation.newKeyId ==> io == Fine
    {
      if pending.None? || KeyIdOf(c, pending.value) != rotation.newKeyId {
        return Raised, 0;
      }
      io, written := WriteAll(PromotePlan(rotation), calm);
    }

    method Finish(calm: bool) returns (io: Io, ghost written: nat)
      modifies this
      ensures written <= 2 && State() == Upto(old(State()), DropPlan, written)
      ensures io == Fine ==> written == 2
      ensures calm ==> io == Fine
    {
      io, written := WriteAll(DropPlan, calm);
    }

    /** recover, given the rows the query for the journal's operation id returns. */
    method Recover(c: Crypto, rows: seq<int>, calm: bool) returns (io: Io, key: PrivateKey, ghost written: nat)
      modifies this
      ensures RecoverPlan(c, old(State()), rows).None? ==> io != Fine
      ensures RecoverPlan(c, old(State()), rows).Some? ==>
          && written <= |RecoverPlan(c, old(State()), rows).value|
          && State() == Upto(old(State()), RecoverPlan(c, old(State()), rows).value, written)
          && (io == Fine ==> written == |RecoverPlan(c, old(State()), rows).value|)
      ensures calm ==> (io == Fine <==> RecoverPlan(c, old(State()), rows).Some?)
      ensures io == Fine ==> key == active && Archived(c, State(), active)
      ensures KeepsArchive(old(State()), State())
    {
      ghost var before := State();
      io, written := Settle(c, rows, calm);
      key := active;
      if SettlePlan(c, before, rows).Some? {
        SettleKeepsPublic(c, before, rows, written);
      }
      if io != Fine {
        if SettlePlan(c, before, rows).Some? && RecoverPlan(c, before, rows).Some? {
          UptoConcat(before, SettlePlan(c, before, rows).value,
                     EnsurePlan(c, Done(before, SettlePlan(c, before, rows).value), Done(before, SettlePlan(c, before, rows).value).active).value, written);
        }
        return;
      }
      ghost var settled, filed := State(), 0;
      io, filed := EnsurePublic(c, key, calm);
      written := written + filed;
      if EnsurePlan(c, settled, key).Some? {
        UptoConcat(before, SettlePlan(c, before, rows).value, EnsurePlan(c, settled, key).value, written);
      }
    }

    /** The part of recovery that the journal asks for. */
    method Settle(c: Crypto, rows: seq<int>, calm: bool) returns (io: Io, ghost written: nat)
      modifies this
      ensures SettlePlan(c, old(State()), rows).None? ==> io == Raised && written == 0 && State() == old(State())
      ensures SettlePlan(c, old(State()), rows).Some? ==>
          && written <= |SettlePlan(c, old(State()), rows).value|
          && State() == Upto(old(State()), SettlePlan(c, old(State()), rows).value, written)
          && (io == Fine ==> written == |SettlePlan(c, old(State()), rows).value|)
          && (calm ==> io == Fine)
    {
      ghost var before := State();
      if journal.None? {
        return Fine, 0;
      }
      var r := journal.value;
      if |rows| >= 2 {
        return Raised, 0;
      }
      written := 0;
      if |rows| == 1 && KeyIdOf(c, active) != r.newKeyId {
        var handed := r.(phase := Handoff, auditSeq := Some(rows[0]));
        io, written := PromoteStaged(c, handed, calm);
        if SettlePlan(c, before, rows).Some? {
          UptoConcat(before, PromotePlan(handed), DropPlan, written);
        }
        if io != Fine { return; }
        ghost var dropped;
        io, dropped := Finish(calm);
        written := written + dropped;
        UptoConcat(before, PromotePlan(handed), DropPlan, written);
        return;
      }
      io, written := Finish(calm);
    }

    /** initialize's ensure_public for the active key. */
    method EnsurePublic(c: Crypto, key: PrivateKey, calm: bool) returns (io: Io, ghost written: nat)
      modifies this
      ensures EnsurePlan(c, old(State()), key).None? ==> io == Raised && written == 0 && State() == old(State())
      ensures EnsurePlan(c, old(State()), key).Some? ==>
          && written <= |EnsurePlan(c, old(State()), key).value|
          && State() == Upto(old(State()), EnsurePlan(c, old(State()), key).value, written)
          && (io == Fine ==> written == |EnsurePlan(c, old(State()), key).value|)
      ensures active == old(active) && KeepsArchive(old(State()), State())
      ensures io == Fine ==> Archived(c, State(), key)
      ensures calm ==> (io == Fine <==> KeyIdOf(c, key) !in old(public) || Archived(c, old(State()), key))
    {
      var id := KeyIdOf(c, key);
      if id in public {
        return if public[id] == Whole(c.publicOf(key)) then Fine else Raised, 0;
      }
      var plan := [CreatePublic(id), FillPublic(id, c.publicOf(key))];
      io, written := WriteAll(plan, calm);
      if written >= 1 {
        assert Upto(old(State()), plan, 1) == Apply(old(State()), plan[0]);
      }
    }
  }
}
