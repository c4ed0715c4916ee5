/** Promotion of a policy file behind a journal, its append-only revisions, and recovery
    from a crash at any durable write (services/gateway/policy_operations.py,
    services/gateway/policy_versions.py and _activate_policy in services/gateway/main.py). */
module PolicyActivation {
  import opened Values
  import opened AuditRecords
  import Writing = AuditWriter
  import Keys = AuditKeys
  import Lifecycle = AuditLifecycle

  /** What the gateway reads off policy bytes: SHA-256 and the `version` field. */
  datatype Reading = Reading(hash: string -> string, version: string -> int) {
    function Version(raw: string): int {
      version(raw)
    }
  }

  ghost predicate HashInjective(p: Reading) {
    forall a, b :: p.hash(a) == p.hash(b) ==> a == b
  }

  datatype Phase = Prepared | Handoff | Promoted

  /** The policy operation journal. */
  datatype Operation = Operation(
    operationId: string,
    kind: string,
    activatedBy: string,
    oldVersion: int,
    newVersion: int,
    contentHash: string,
    phase: Phase,
    auditSeq: Option<int>)

  /** The policy files, the revision snapshots and the policy_versions table. */
  datatype World = World(
    active: string,
    pending: Option<string>,
    journal: Option<Operation>,
    snapshots: map<int, string>,
    versions: map<int, string>)

  /** The durable writes. A snapshot is not written at once: it holds some part of the
      bytes before it holds them all, and a crash in between leaves it torn. */
  datatype Op =
    | PutPending(raw: string)
    | PutJournal(operation: Operation)
    | CreateSnapshot(version: int, part: string)
    | FillSnapshot(version: int, raw: string)
    | RecordVersion(version: int, contentHash: string)
    | Promote
    | DropPending
    | DropJournal

  function Apply(w: World, op: Op): World {
    match op
    case PutPending(raw) => w.(pending := Some(raw))
    case PutJournal(operation) => w.(journal := Some(operation))
    case CreateSnapshot(v, part) => w.(snapshots := w.snapshots[v := part])
    case FillSnapshot(v, raw) => w.(snapshots := w.snapshots[v := raw])
    case RecordVersion(v, h) => w.(versions := w.versions[v := h])
    case Promote => if w.pending.Some? then w.(active := w.pending.value, pending := None) else w
    case DropPending => w.(pending := None)
    case DropJournal => w.(journal := None)
  }

  function Upto(w: World, plan: seq<Op>, n: nat): World
    requires n <= |plan|
  {
    if n == 0 then w else Apply(Upto(w, plan, n - 1), plan[n - 1])
  }

  function Done(w: World, plan: seq<Op>): World {
    Upto(w, plan, |plan|)
  }

  lemma {:induction false} UptoConcat(w: World, a: seq<Op>, b: seq<Op>, n: nat)
    requires n <= |a + b|
    ensures Upto(w, a + b, n) == if n <= |a| then Upto(w, a, n) else Upto(Done(w, a), b, n - |a|)
  {
    if n > 0 {
      UptoConcat(w, a, b, n - 1);
    }
  }

  // ----- what is recorded, and what may be activated -----

  /** Every recorded version keeps a snapshot with exactly the recorded content. */
  ghost predicate Registered(p: Reading, w: World) {
    forall v :: v in w.versions ==>
      v in w.snapshots && p.hash(w.snapshots[v]) == w.versions[v] && p.Version(w.snapshots[v]) == v
  }

  /** The bytes are a recorded revision. */
  ghost predicate Recorded(p: Reading, w: World, raw: string) {
    p.Version(raw) in w.versions && w.versions[p.Version(raw)] == p.hash(raw)
  }

  /** activation_status: a version above every recorded one, with no other snapshot in its way. */
  ghost predicate Eligible(p: Reading, w: World, raw: string) {
    var v := p.Version(raw);
    && (forall u :: u in w.versions ==> u < v)
    && (v in w.snapshots ==> w.snapshots[v] == raw)
  }

  /** The writes of record_activation, or None where it raises. A version that is
      already recorded with the same content is left alone. `part` is what a crash inside
      the snapshot write would leave of the bytes. */
  function RecordPlan(p: Reading, w: World, raw: string, part: string): Option<seq<Op>> {
    var v, h := p.Version(raw), p.hash(raw);
    if v in w.versions then (if w.versions[v] == h then Some([]) else None)
    else if exists u :: u in w.versions && v <= u then None
    else if v in w.snapshots then (if w.snapshots[v] == raw then Some([RecordVersion(v, h)]) else None)
    else Some([CreateSnapshot(v, part), FillSnapshot(v, raw), RecordVersion(v, h)])
  }

  /** The same for record_rollback, which only refreshes a matching row. */
  function RefreshPlan(p: Reading, w: World, raw: string): Option<seq<Op>> {
    var v := p.Version(raw);
    if v in w.versions && w.versions[v] == p.hash(raw) then Some([]) else None
  }

  /** The two record-keeping calls accept exactly the eligible and the recorded bytes. */
  lemma RecordingAccepts(p: Reading, w: World, raw: string, part: string)
    ensures RecordPlan(p, w, raw, part).Some? <==> Eligible(p, w, raw) || Recorded(p, w, raw)
    ensures RecordPlan(p, w, raw, part) == Some([]) <==> Recorded(p, w, raw)
    ensures RefreshPlan(p, w, raw).Some? <==> Recorded(p, w, raw)
  {
  }

  // ----- the writes of an activation -----

  /** Which record-keeping call an activation makes; for a forward one, what a crash inside
      its snapshot write would leave, which may be any text. */
  datatype Recording = Forward(part: string) | Rollback

  function Extra(p: Reading, w: World, raw: string, how: Recording): Option<seq<Op>> {
    match how case Rollback => RefreshPlan(p, w, raw) case Forward(part) => RecordPlan(p, w, raw, part)
  }

  /** prepare, then the record; the record raises without writing when it is refused. */
  function StagePlan(p: Reading, w: World, raw: string, op: Operation, how: Recording): seq<Op> {
    var extra := Extra(p, w, raw, how);
    [PutPending(raw), PutJournal(op)] + if extra.Some? then extra.value else []
  }

  const DropPlan: seq<Op> := [DropPending, DropJournal]

  function Handed(op: Operation, auditSeq: int): Operation {
    op.(phase := Handoff, auditSeq := Some(auditSeq))
  }

  function PromotePlan(op: Operation): seq<Op> {
    [Promote, PutJournal(op.(phase := Promoted))]
  }

  /** How far one attempt got. `rows` are the POLICY_ACTIVATED rows committed for it. A
      failure up to and including the journal's handoff mark (whose write may still have
      been applied) is rolled back; one after it leaves the journal to recovery. */
  datatype Story =
    | StoppedBefore(n: nat)
    | StoppedAfter(rows: seq<int>, n: nat)
    | RolledBack(n: nat, rows: seq<int>, marked: bool, dropped: nat)

  predicate Possible(p: Reading, w: World, raw: string, op: Operation, how: Recording, s: Story) {
    var stage := |StagePlan(p, w, raw, op, how)|;
    && (RowsOf(s) != [] ==> Extra(p, w, raw, how).Some?)
    && match s
       case StoppedBefore(n) => n <= stage
       case StoppedAfter(rows, n) => rows != [] && n <= 5
       case RolledBack(n, rows, marked, dropped) =>
         2 <= n <= stage && dropped <= 2 && (rows != [] ==> n == stage) && (marked ==> rows != [])
  }

  function RowsOf(s: Story): seq<int> {
    match s case StoppedBefore(_) => [] case StoppedAfter(rows, _) => rows case RolledBack(_, rows, _, _) => rows
  }

  /** The file writes of a story from the staged world on. */
  function Ending(op: Operation, s: Story): seq<Op>
    requires s.StoppedAfter? ==> s.rows != []
    requires s.RolledBack? && s.marked ==> s.rows != []
  {
    match s
    case StoppedBefore(_) => []
    case StoppedAfter(rows, _) =>
      var handed := Handed(op, rows[|rows| - 1]);
      [PutJournal(handed)] + PromotePlan(handed) + DropPlan
    case RolledBack(_, rows, marked, _) =>
      (if marked then [PutJournal(Handed(op, rows[|rows| - 1]))] else []) + DropPlan
  }

  function Reached(s: Story): nat {
    match s
    case StoppedBefore(_) => 0
    case StoppedAfter(_, n) => n
    case RolledBack(_, _, marked, dropped) => dropped + if marked then 1 else 0
  }

  function Staged(p: Reading, w: World, raw: string, op: Operation, how: Recording, s: Story): World
    requires Possible(p, w, raw, op, how, s)
  {
    var plan := StagePlan(p, w, raw, op, how);
    Upto(w, plan, if s.StoppedAfter? then |plan| else s.n)
  }

  function After(p: Reading, w: World, raw: string, op: Operation, how: Recording, s: Story): World
    requires Possible(p, w, raw, op, how, s)
  {
    Upto(Staged(p, w, raw, op, how, s), Ending(op, s), Reached(s))
  }

  // ----- recovery -----

  /** Everything recovery writes, given the rows that name the journal's operation; None
      where it raises. */
  function RecoverPlan(p: Reading, w: World, rows: seq<int>): Option<seq<Op>> {
    if w.journal.None? then Some([])
    else if |rows| == 0 then Some(DropPlan)
    else if |rows| >= 2 then None
    else if p.hash(w.active) == w.journal.value.contentHash then Some(DropPlan)
    else if w.pending.None? || p.hash(w.pending.value) != w.journal.value.contentHash then None
    else Some(PromotePlan(Handed(w.journal.value, rows[0])) + DropPlan)
  }

  /** Recoveries that crash: each is cut off after some of its writes. */
  function Crashes(p: Reading, w: World, rows: seq<int>, cuts: seq<nat>): World
    decreases |cuts|
  {
    if |cuts| == 0 then w
    else
      var plan := RecoverPlan(p, w, rows);
      if plan.None? then w
      else Crashes(p, Upto(w, plan.value, if cuts[0] <= |plan.value| then cuts[0] else |plan.value|), rows, cuts[1..])
  }

  // ----- what the journal decides -----

  /** No operation under way, and the bytes in force are a recorded revision. */
  ghost predicate Settled(p: Reading, w: World) {
    w.journal.None? && Registered(p, w) && Recorded(p, w, w.active)
  }

  /** Versions stay bound to the content they were recorded with, and keep their snapshot. */
  ghost predicate KeepsBindings(before: World, after: World) {
    forall v :: v in before.versions ==>
      && v in after.versions && after.versions[v] == before.versions[v]
      && (v in before.snapshots ==> v in after.snapshots && after.snapshots[v] == before.snapshots[v])
  }

  ghost predicate SameRegistry(a: World, b: World) {
    a.versions == b.versions && a.snapshots == b.snapshots
  }

  /** Every world an activation of `raw` over `was` passes through, live or in recovery. */
  ghost predicate Midway(p: Reading, w: World, was: string, raw: string, operationId: string, rows: seq<int>) {
    && Registered(p, w) && Recorded(p, w, was)
    && (rows != [] ==> Recorded(p, w, raw))
    && (w.active == was || (w.active == raw && rows != []))
    && (w.journal.Some? ==>
          && w.journal.value.operationId == operationId
          && w.journal.value.contentHash == p.hash(raw)
          && (w.pending == Some(raw) || w.pending == None))
  }

  /** The bytes that are bound to come out, or None when recovery is bound to raise. */
  function Verdict(w: World, was: string, raw: string, rows: seq<int>): Option<string> {
    if w.journal.None? then Some(w.active)
    else if |rows| == 0 then Some(was)
    else if |rows| >= 2 then None
    else if w.active == raw || w.pending == Some(raw) then Some(raw)
    else None
  }

  /** The attempt left a state that recovery cannot get past: several rows name the
      operation, or a rollback was cut between its two deletions with the row committed
      and other bytes in force. */
  predicate Stuck(s: Story, sameBytes: bool) {
    match s
    case StoppedBefore(_) => false
    case StoppedAfter(rows, n) => |rows| >= 2 && n < 5
    case RolledBack(_, rows, _, dropped) => dropped < 2 && (|rows| >= 2 || (|rows| == 1 && dropped == 1 && !sameBytes))
  }

  /** The attempt ends with the candidate in force. */
  predicate Promotes(s: Story) {
    match s
    case StoppedBefore(_) => false
    case StoppedAfter(_, _) => true
    case RolledBack(_, rows, _, dropped) => |rows| == 1 && dropped == 0
  }

  // ----- lemmas -----

  lemma RecordStates(p: Reading, w: World, raw: string, how: Recording, n: nat)
    requires Registered(p, w)
    requires Extra(p, w, raw, how).Some? && n <= |Extra(p, w, raw, how).value|
    ensures
      var plan := Extra(p, w, raw, how).value;
      var e := Upto(w, plan, n);
      && e.active == w.active && e.pending == w.pending && e.journal == w.journal
      && Registered(p, e) && KeepsBindings(w, e)
      && (n == |plan| ==> Recorded(p, e, raw))
  {
    var plan := Extra(p, w, raw, how).value;
    if n >= 1 { assert Upto(w, plan, 1) == Apply(w, plan[0]); }
    if n >= 2 { assert Upto(w, plan, 2) == Apply(Upto(w, plan, 1), plan[1]); }
  }

  lemma StageStates(p: Reading, w: World, raw: string, op: Operation, how: Recording, n: nat)
    requires Registered(p, w) && n <= |StagePlan(p, w, raw, op, how)|
    ensures
      var plan := StagePlan(p, w, raw, op, how);
      var e := Upto(w, plan, n);
      && e.active == w.active
      && e.pending == (if n >= 1 then Some(raw) else w.pending)
      && e.journal == (if n >= 2 then Some(op) else w.journal)
      && Registered(p, e) && KeepsBindings(w, e)
      && (n == |plan| && Extra(p, w, raw, how).Some? ==> Recorded(p, e, raw))
  {
    var extra := Extra(p, w, raw, how);
    var head := [PutPending(raw), PutJournal(op)];
    var rest := if extra.Some? then extra.value else [];
    UptoConcat(w, head, rest, n);
    assert Upto(w, head, 1) == Apply(w, head[0]);
    var prepared := Done(w, head);
    assert prepared == w.(pending := Some(raw), journal := Some(op));
    if n >= 2 && extra.Some? {
      assert Extra(p, prepared, raw, how) == extra;
      RecordStates(p, prepared, raw, how, n - 2);
      assert KeepsBindings(prepared, Upto(prepared, rest, n - 2));
    }
  }

  lemma EndingStates(w: World, op: Operation, s: Story)
    requires s.StoppedAfter? ==> s.rows != [] && s.n <= 5
    requires s.RolledBack? ==> s.dropped <= 2 && (s.marked ==> s.rows != [])
    requires w.pending.Some? && w.journal == Some(op)
    ensures
      var e := Upto(w, Ending(op, s), Reached(s));
      && SameRegistry(w, e)
      && match s
         case StoppedBefore(_) => e == w
         case StoppedAfter(_, n) =>
           && e.active == (if n >= 2 then w.pending.value else w.active)
           && e.pending == (if n >= 2 then None else w.pending)
           && e.journal == (if n == 0 then Some(op) else if n == 5 then None
                            else Some(op.(phase := if n >= 3 then Promoted else Handoff, auditSeq := Some(s.rows[|s.rows| - 1]))))
         case RolledBack(_, _, _, dropped) =>
           && e.active == w.active
           && e.pending == (if dropped >= 1 then None else w.pending)
           && (dropped == 2 ==> e.journal.None?)
           && (dropped < 2 ==> e.journal.Some? && e.journal.value.operationId == op.operationId
                                              && e.journal.value.contentHash == op.contentHash)
  {
    var plan := Ending(op, s);
    if Reached(s) >= 1 { assert Upto(w, plan, 1) == Apply(w, plan[0]); }
    if Reached(s) >= 2 { assert Upto(w, plan, 2) == Apply(Upto(w, plan, 1), plan[1]); }
    if Reached(s) >= 3 { assert Upto(w, plan, 3) == Apply(Upto(w, plan, 2), plan[2]); }
    if Reached(s) >= 4 { assert Upto(w, plan, 4) == Apply(Upto(w, plan, 3), plan[3]); }
  }

  /** An attempt that ran to its end leaves the candidate in force and recorded, and no
      journal. */
  lemma EndedStates(p: Reading, w: World, raw: string, op: Operation, how: Recording, s: Story)
    requires Registered(p, w) && Possible(p, w, raw, op, how, s) && s.StoppedAfter? && s.n == 5
    ensures
      var e := After(p, w, raw, op, how, s);
      e.active == raw && e.pending.None? && e.journal.None? && Recorded(p, e, raw)
  {
    hide Upto, Extra, Ending;
    StageStates(p, w, raw, op, how, |StagePlan(p, w, raw, op, how)|);
    EndingStates(Staged(p, w, raw, op, how, s), op, s);
  }

  /** Whatever point an attempt reached, what recovery will make of it is fixed. */
  lemma StoryIsMidway(p: Reading, w: World, raw: string, op: Operation, how: Recording, s: Story)
    requires HashInjective(p) && Settled(p, w) && Possible(p, w, raw, op, how, s)
    requires op.contentHash == p.hash(raw)
    ensures
      var e := After(p, w, raw, op, how, s);
      && Midway(p, e, w.active, raw, op.operationId, RowsOf(s))
      && KeepsBindings(w, e)
      && Verdict(e, w.active, raw, RowsOf(s)) ==
           if Stuck(s, raw == w.active) then None else Some(if Promotes(s) then raw else w.active)
  {
    var plan := StagePlan(p, w, raw, op, how);
    var n := if s.StoppedAfter? then |plan| else s.n;
    StageStates(p, w, raw, op, how, n);
    var staged := Staged(p, w, raw, op, how, s);
    if !s.StoppedBefore? {
      EndingStates(staged, op, s);
    }
  }

  lemma RecoverStates(p: Reading, w: World, rows: seq<int>, n: nat)
    requires RecoverPlan(p, w, rows).Some? && n <= |RecoverPlan(p, w, rows).value|
    ensures
      var plan := RecoverPlan(p, w, rows).value;
      var e := Upto(w, plan, n);
      && SameRegistry(w, e)
      && (|plan| == 0 ==> e == w)
      && (|plan| == 2 ==> e == w.(pending := if n >= 1 then None else w.pending, journal := if n == 2 then None else w.journal))
      && (|plan| == 4 ==>
            && w.pending.Some? && w.journal.Some?
            && e.active == (if n >= 1 then w.pending.value else w.active)
            && e.pending == (if n >= 1 then None else w.pending)
            && (n < 4 ==> e.journal.Some? && e.journal.value.operationId == w.journal.value.operationId
                                         && e.journal.value.contentHash == w.journal.value.contentHash)
            && (n == 4 ==> e.journal.None?))
      && |plan| in {0, 2, 4}
  {
    var plan := RecoverPlan(p, w, rows).value;
    if n >= 1 { assert Upto(w, plan, 1) == Apply(w, plan[0]); }
    if n >= 2 { assert Upto(w, plan, 2) == Apply(Upto(w, plan, 1), plan[1]); }
    if n >= 3 { assert Upto(w, plan, 3) == Apply(Upto(w, plan, 2), plan[2]); }
  }

  /** Recovery raises exactly where it is bound to, leaves the revisions alone, and neither
      a completed nor an interrupted recovery changes what is bound to come out. */
  lemma RecoverKeepsVerdict(p: Reading, w: World, was: string, raw: string, operationId: string, rows: seq<int>, n: nat)
    requires HashInjective(p) && Midway(p, w, was, raw, operationId, rows)
    ensures
      var plan := RecoverPlan(p, w, rows);
      && (plan.None? <==> Verdict(w, was, raw, rows).None?)
      && (plan.Some? && n <= |plan.value| ==>
            var e := Upto(w, plan.value, n);
            && Midway(p, e, was, raw, operationId, rows)
            && Verdict(e, was, raw, rows) == Verdict(w, was, raw, rows)
            && SameRegistry(w, e)
            && (n == |plan.value| ==> Settled(p, e) && Verdict(w, was, raw, rows) == Some(e.active)))
  {
    var plan := RecoverPlan(p, w, rows);
    if plan.Some? && n <= |plan.value| {
      RecoverStates(p, w, rows, n);
    }
  }

  lemma {:induction false} CrashesKeepVerdict(p: Reading, w: World, was: string, raw: string, operationId: string,
                                              rows: seq<int>, cuts: seq<nat>)
    requires HashInjective(p) && Midway(p, w, was, raw, operationId, rows)
    ensures
      var e := Crashes(p, w, rows, cuts);
      && Midway(p, e, was, raw, operationId, rows)
      && Verdict(e, was, raw, rows) == Verdict(w, was, raw, rows)
      && SameRegistry(w, e)
    decreases |cuts|
  {
    var plan := RecoverPlan(p, w, rows);
    if |cuts| > 0 && plan.Some? {
      var n := if cuts[0] <= |plan.value| then cuts[0] else |plan.value|;
      RecoverKeepsVerdict(p, w, was, raw, operationId, rows, n);
      CrashesKeepVerdict(p, Upto(w, plan.value, n), was, raw, operationId, rows, cuts[1..]);
    }
  }

  /** Policy promotion is crash-atomic. After any attempt, and any number of recoveries that
      crash at any of their writes, recovery raises exactly when the attempt left it stuck;
      otherwise it completes with no journal, with the candidate's bytes in force exactly
      when the attempt promotes and the old bytes otherwise, with the bytes in force a
      recorded revision, and with every version still bound to its content. */
  lemma PromotionIsCrashAtomic(p: Reading, w: World, raw: string, op: Operation, how: Recording, s: Story, cuts: seq<nat>)
    requires HashInjective(p) && Settled(p, w) && Possible(p, w, raw, op, how, s)
    requires op.contentHash == p.hash(raw)
    ensures
      var e := Crashes(p, After(p, w, raw, op, how, s), RowsOf(s), cuts);
      var plan := RecoverPlan(p, e, RowsOf(s));
      && (plan.None? <==> Stuck(s, raw == w.active))
      && (plan.Some? ==>
            var f := Done(e, plan.value);
            && Settled(p, f)
            && f.active == (if Promotes(s) then raw else w.active)
            && KeepsBindings(w, f))
  {
    StoryIsMidway(p, w, raw, op, how, s);
    var a := After(p, w, raw, op, how, s);
    CrashesKeepVerdict(p, a, w.active, raw, op.operationId, RowsOf(s), cuts);
    var e := Crashes(p, a, RowsOf(s), cuts);
    var plan := RecoverPlan(p, e, RowsOf(s));
    RecoverKeepsVerdict(p, e, w.active, raw, op.operationId, RowsOf(s), if plan.Some? then |plan.value| else 0);
  }

  /** The log and the file agree - candidate in force exactly when its row is in the log -
      unless the attempt was rolled back after its row had been committed. */
  lemma LogAndFileAgreeUnlessRolledBackAfterCommit(s: Story, sameBytes: bool)
    requires s.StoppedAfter? ==> s.rows != []
    requires s.RolledBack? ==> s.dropped <= 2
    requires !Stuck(s, sameBytes) && !sameBytes
    ensures (Promotes(s) <==> RowsOf(s) != []) <==> !(s.RolledBack? && s.rows != [] && s.dropped == 2)
  {
  }

  // ----- many activations -----

  /** One attempt in the life of a deployment, with the recoveries after it. */
  datatype Attempt = Attempt(raw: string, operation: Operation, how: Recording, story: Story, cuts: seq<nat>)

  predicate Fits(p: Reading, w: World, a: Attempt) {
    && Possible(p, w, a.raw, a.operation, a.how, a.story)
    && a.operation.contentHash == p.hash(a.raw)
    && !Stuck(a.story, a.raw == w.active)
  }

  function Recovered(p: Reading, w: World, a: Attempt): World
    requires Fits(p, w, a)
  {
    var e := Crashes(p, After(p, w, a.raw, a.operation, a.how, a.story), RowsOf(a.story), a.cuts);
    var plan := RecoverPlan(p, e, RowsOf(a.story));
    if plan.Some? then Done(e, plan.value) else e
  }

  predicate Plausible(p: Reading, w: World, life: seq<Attempt>)
    decreases |life|
  {
    |life| > 0 ==> Fits(p, w, life[0]) && Plausible(p, Recovered(p, w, life[0]), life[1..])
  }

  function Live(p: Reading, w: World, life: seq<Attempt>): World
    requires Plausible(p, w, life)
    decreases |life|
  {
    if |life| == 0 then w else Live(p, Recovered(p, w, life[0]), life[1..])
  }

  /** The candidate that the last promoting attempt brought, or the bytes from the start. */
  function LastPromoted(start: string, life: seq<Attempt>): string {
    if |life| == 0 then start
    else
      var last := life[|life| - 1];
      if Promotes(last.story) then last.raw else LastPromoted(start, life[..|life| - 1])
  }

  lemma {:induction false} LastPromotedFront(start: string, life: seq<Attempt>)
    requires |life| > 0
    ensures LastPromoted(start, life) ==
      LastPromoted(if Promotes(life[0].story) then life[0].raw else start, life[1..])
  {
    if |life| > 1 {
      LastPromotedFront(start, life[..|life| - 1]);
      assert life[..|life| - 1][1..] == life[1..][..|life| - 2];
    }
  }

  /** Over any series of activations, rollbacks, crashes and recoveries: the bytes in force
      are those of the last promoting attempt, they are a recorded revision, every version
      ever recorded keeps its one content hash, and the next boot's record-keeping accepts
      what it finds without writing. */
  lemma {:induction false} VersionsAreBoundForever(p: Reading, w: World, life: seq<Attempt>)
    requires HashInjective(p) && Settled(p, w) && Plausible(p, w, life)
    ensures
      var e := Live(p, w, life);
      && Settled(p, e) && KeepsBindings(w, e)
      && e.active == LastPromoted(w.active, life)
      && forall part :: RecordPlan(p, e, e.active, part) == Some([])
    decreases |life|
  {
    if |life| > 0 {
      var a := life[0];
      PromotionIsCrashAtomic(p, w, a.raw, a.operation, a.how, a.story, a.cuts);
      var mid := Recovered(p, w, a);
      VersionsAreBoundForever(p, mid, life[1..]);
      LastPromotedFront(w.active, life);
    }
  }

  // ----- torn snapshots -----

  /** The version was never recorded, and other bytes than its policy's stand in its snapshot. */
  ghost predicate Torn(w: World, v: int, part: string) {
    v !in w.versions && v in w.snapshots && w.snapshots[v] == part
  }

  lemma {:induction false} CrashesKeepRegistry(p: Reading, w: World, rows: seq<int>, cuts: seq<nat>)
    ensures SameRegistry(w, Crashes(p, w, rows, cuts))
    decreases |cuts|
  {
    var plan := RecoverPlan(p, w, rows);
    if |cuts| > 0 && plan.Some? {
      var n := if cuts[0] <= |plan.value| then cuts[0] else |plan.value|;
      RecoverStates(p, w, rows, n);
      CrashesKeepRegistry(p, Upto(w, plan.value, n), rows, cuts[1..]);
    }
  }

  /** Whatever becomes of an attempt that brings other bytes, it leaves the torn version alone. */
  lemma RecordKeepsTorn(p: Reading, w: World, raw: string, how: Recording, n: nat, v: int, part: string)
    requires Torn(w, v, part) && (p.Version(raw) == v ==> raw != part)
    requires Extra(p, w, raw, how).Some? && n <= |Extra(p, w, raw, how).value|
    ensures Torn(Upto(w, Extra(p, w, raw, how).value, n), v, part)
  {
    var plan := Extra(p, w, raw, how).value;
    if n >= 1 { assert Upto(w, plan, 1) == Apply(w, plan[0]); }
    if n >= 2 { assert Upto(w, plan, 2) == Apply(Upto(w, plan, 1), plan[1]); }
  }

  lemma StageKeepsTorn(p: Reading, w: World, raw: string, op: Operation, how: Recording, n: nat, v: int, part: string)
    requires Torn(w, v, part) && (p.Version(raw) == v ==> raw != part)
    requires n <= |StagePlan(p, w, raw, op, how)|
    ensures Torn(Upto(w, StagePlan(p, w, raw, op, how), n), v, part)
  {
    var extra := Extra(p, w, raw, how);
    var head := [PutPending(raw), PutJournal(op)];
    UptoConcat(w, head, if extra.Some? then extra.value else [], n);
    PreparedStates(w, raw, op);
    assert Upto(w, head, 1) == Apply(w, head[0]);
    if n >= 2 && extra.Some? {
      var prepared := Done(w, head);
      assert Extra(p, prepared, raw, how) == extra;
      RecordKeepsTorn(p, prepared, raw, how, n - 2, v, part);
    }
  }

  /** The registry once the attempt is over and recovered from is the staged one. */
  lemma RecoveredRegistry(p: Reading, w: World, a: Attempt)
    requires Registered(p, w) && Fits(p, w, a)
    ensures SameRegistry(Staged(p, w, a.raw, a.operation, a.how, a.story), Recovered(p, w, a))
  {
    var staged := Staged(p, w, a.raw, a.operation, a.how, a.story);
    var s, plan := a.story, StagePlan(p, w, a.raw, a.operation, a.how);
    StageStates(p, w, a.raw, a.operation, a.how, if s.StoppedAfter? then |plan| else s.n);
    if !s.StoppedBefore? {
      EndingStates(staged, a.operation, s);
    }
    var after := After(p, w, a.raw, a.operation, a.how, s);
    CrashesKeepRegistry(p, after, RowsOf(s), a.cuts);
    var e := Crashes(p, after, RowsOf(s), a.cuts);
    var recovery := RecoverPlan(p, e, RowsOf(s));
    if recovery.Some? {
      RecoverStates(p, e, RowsOf(s), |recovery.value|);
    }
  }

  lemma {:induction false} TornForever(p: Reading, w: World, life: seq<Attempt>, v: int, part: string)
    requires HashInjective(p) && Settled(p, w) && Plausible(p, w, life) && Torn(w, v, part)
    requires forall i :: 0 <= i < |life| && p.Version(life[i].raw) == v ==> life[i].raw != part
    ensures Torn(Live(p, w, life), v, part)
    decreases |life|
  {
    if |life| > 0 {
      var a := life[0];
      var plan := StagePlan(p, w, a.raw, a.operation, a.how);
      StageKeepsTorn(p, w, a.raw, a.operation, a.how, if a.story.StoppedAfter? then |plan| else a.story.n, v, part);
      RecoveredRegistry(p, w, a);
      PromotionIsCrashAtomic(p, w, a.raw, a.operation, a.how, a.story, a.cuts);
      assert forall i :: 0 <= i < |life[1..]| ==> life[1..][i] == life[i + 1];
      TornForever(p, Recovered(p, w, a), life[1..], v, part);
    }
  }

  /** The first writes of a forward activation of a new version: three of them tear it. */
  lemma ThreeWritesTear(p: Reading, w: World, raw: string, op: Operation, part: string)
    requires Eligible(p, w, raw) && p.Version(raw) !in w.snapshots
    ensures |StagePlan(p, w, raw, op, Forward(part))| == 5
    ensures Torn(Upto(w, StagePlan(p, w, raw, op, Forward(part)), 3), p.Version(raw), part)
  {
    RecordingAccepts(p, w, raw, part);
    var plan := StagePlan(p, w, raw, op, Forward(part));
    var v := p.Version(raw);
    assert plan == [PutPending(raw), PutJournal(op), CreateSnapshot(v, part), FillSnapshot(v, raw), RecordVersion(v, p.hash(raw))];
    assert Upto(w, plan, 1) == Apply(w, plan[0]);
    assert Upto(w, plan, 2) == Apply(Upto(w, plan, 1), plan[1]);
    assert Upto(w, plan, 3) == Apply(Upto(w, plan, 2), plan[2]);
  }

  /** A snapshot torn by an attempt that stopped inside its write burns the version. However
      the attempt was ended and recovered from, and over any series of later activations,
      rollbacks, crashes and recoveries, the version can be taken only by a policy whose
      bytes are exactly what was left; until one is brought it is never recorded. */
  lemma TornSnapshotBurnsItsVersion(p: Reading, w: World, first: Attempt, life: seq<Attempt>, part: string)
    requires HashInjective(p) && Settled(p, w) && Plausible(p, w, [first] + life)
    requires first.how == Forward(part) && !first.story.StoppedAfter? && first.story.n == 3
    requires Eligible(p, w, first.raw) && p.Version(first.raw) !in w.snapshots
    requires forall i :: 0 <= i < |life| && p.Version(life[i].raw) == p.Version(first.raw) ==> life[i].raw != part
    ensures
      var e, v := Live(p, w, [first] + life), p.Version(first.raw);
      && Torn(e, v, part)
      && (forall raw :: p.Version(raw) == v ==> !Recorded(p, e, raw))
      && (forall raw :: p.Version(raw) == v ==> (Eligible(p, e, raw) <==> raw == part && forall u :: u in e.versions ==> u < v))
  {
    var v := p.Version(first.raw);
    ThreeWritesTear(p, w, first.raw, first.operation, part);
    RecoveredRegistry(p, w, first);
    PromotionIsCrashAtomic(p, w, first.raw, first.operation, first.how, first.story, first.cuts);
    assert ([first] + life)[1..] == life;
    TornForever(p, Recovered(p, w, first), life, v, part);
  }

  /** In a settled deployment the snapshot of any recorded version can be rolled back to. */
  lemma EveryRecordedVersionCanComeBack(p: Reading, w: World, v: int)
    requires Registered(p, w) && v in w.versions
    ensures v in w.snapshots && RefreshPlan(p, w, w.snapshots[v]) == Some([])
    ensures p.Version(w.snapshots[v]) == v
  {
  }

  // ----- the store -----

  type Io = Keys.Io

  datatype Outcome = Activated(seqNo: int) | Refused | Died

  /** The policy files with the revision directory and the policy_versions table. */
  class PolicyOperationStore {
    var active: string
    var pending: Option<string>
    var journal: Option<Operation>
    var snapshots: map<int, string>
    var versions: map<int, string>
    var blocked: bool

    constructor (w: World)
      ensures State() == w && !blocked
    {
      active, pending, journal := w.active, w.pending, w.journal;
      snapshots, versions, blocked := w.snapshots, w.versions, false;
    }

    function State(): World
      reads this
    {
      World(active, pending, journal, snapshots, versions)
    }

    /** One durable write, with every way it can end: struck before its effect or after. */
    method Write(op: Op, calm: bool) returns (io: Io, ghost written: nat)
      modifies this
      ensures written <= 1 && blocked == old(blocked)
      ensures State() == if written == 1 then Apply(old(State()), op) else old(State())
      ensures io == Keys.Fine ==> written == 1
      ensures calm ==> io == Keys.Fine
    {
      written := 0;
      io := Keys.Strike(calm);
      if io != Keys.Fine { return; }
      match op {
        case PutPending(raw) => pending := Some(raw);
        case PutJournal(operation) => journal := Some(operation);
        case CreateSnapshot(v, part) => snapshots := snapshots[v := part];
        case FillSnapshot(v, raw) => snapshots := snapshots[v := raw];
        case RecordVersion(v, h) => versions := versions[v := h];
        case Promote =>
          if pending.Some? {
            active := pending.value;
            pending := None;
          }
        case DropPending => pending := None;
        case DropJournal => journal := None;
      }
      written := 1;
      io := Keys.Strike(calm);
    }

    /** A run of writes that stops at the first one that does not end well. */
    method WriteAll(plan: seq<Op>, calm: bool) returns (io: Io, ghost written: nat)
      modifies this
      ensures written <= |plan| && State() == Upto(old(State()), plan, written)
      ensures io == Keys.Fine ==> written == |plan|
      ensures calm ==> io == Keys.Fine
      ensures blocked == old(blocked)
    {
      written := 0;
      io := Keys.Fine;
      for i := 0 to |plan|
        invariant written == i && State() == Upto(old(State()), plan, i) && blocked == old(blocked)
        invariant io == Keys.Fine
      {
        ghost var one;
        io, one := Write(plan[i], calm);
        written := written + one;
        if io != Keys.Fine { return; }
      }
    }

    /** activation_status: accepts exactly the eligible candidates, and changes nothing. */
    method ActivationStatus(p: Reading, raw: string) returns (ok: bool)
      ensures ok <==> Eligible(p, State(), raw)
    {
      var v := p.Version(raw);
      if v in versions {
        return false;
      }
      if exists u :: u in versions && v <= u {
        return false;
      }
      return v in snapshots ==> snapshots[v] == raw;
    }

    /** record_activation with _write_snapshot. */
    method RecordActivation(p: Reading, raw: string, part: string, calm: bool) returns (io: Io, ghost written: nat)
      modifies this
      ensures RecordPlan(p, old(State()), raw, part).None? ==> io == Keys.Raised && written == 0 && State() == old(State())
      ensures RecordPlan(p, old(State()), raw, part).Some? ==>
          && written <= |RecordPlan(p, old(State()), raw, part).value|
          && State() == Upto(old(State()), RecordPlan(p, old(State()), raw, part).value, written)
          && (io == Keys.Fine ==> written == |RecordPlan(p, old(State()), raw, part).value|)
          && (calm ==> io == Keys.Fine)
      ensures blocked == old(blocked)
    {
      var v, h := p.Version(raw), p.hash(raw);
      if v in versions {
        return if versions[v] == h then Keys.Fine else Keys.Raised, 0;
      }
      if exists u :: u in versions && v <= u {
        return Keys.Raised, 0;
      }
      if v in snapshots {
        if snapshots[v] != raw {
          return Keys.Raised, 0;
        }
        io, written := WriteAll([RecordVersion(v, h)], calm);
      } else {
        io, written := WriteAll([CreateSnapshot(v, part), FillSnapshot(v, raw), RecordVersion(v, h)], calm);
      }
    }

    /** record_rollback: the row must exist and carry the snapshot's hash. */
    method RecordRollback(p: Reading, raw: string, calm: bool) returns (io: Io)
      ensures RefreshPlan(p, State(), raw).None? ==> io == Keys.Raised
      ensures calm && RefreshPlan(p, State(), raw).Some? ==> io == Keys.Fine
    {
      var v := p.Version(raw);
      if v !in versions || versions[v] != p.hash(raw) {
        return Keys.Raised;
      }
      io := Keys.Strike(calm);
    }

    /** prepare: stages the bytes behind the journal; refused while a journal exists. */
    method Prepare(raw: string, op: Operation, calm: bool) returns (io: Io, ghost written: nat)
      modifies this
      ensures old(journal).Some? ==> io == Keys.Raised && written == 0
      ensures written <= 2 && State() == Upto(old(State()), [PutPending(raw), PutJournal(op)], written)
      ensures io == Keys.Fine ==> written == 2
      ensures calm && old(journal).None? ==> io == Keys.Fine
      ensures blocked == old(blocked)
    {
      if journal.Some? {
        return Keys.Raised, 0;
      }
      io, written := WriteAll([PutPending(raw), PutJournal(op)], calm);
    }

    method MarkHandoff(op: Operation, auditSeq: int, calm: bool) returns (io: Io, ghost written: nat)
      modifies this
      ensures written <= 1
      ensures State() == if written == 1 then Apply(old(State()), PutJournal(Handed(op, auditSeq))) else old(State())
      ensures io == Keys.Fine ==> written == 1
      ensures calm ==> io == Keys.Fine
      ensures blocked == old(blocked)
    {
      io, written := Write(PutJournal(Handed(op, auditSeq)), calm);
    }

    /** promote: refuses pending bytes that are not the journal's. */
    method PromotePending(p: Reading, op: Operation, calm: bool) returns (io: Io, ghost written: nat)
      modifies this
      ensures written <= 2 && State() == Upto(old(State()), PromotePlan(op), written)
      ensures io == Keys.Fine ==> written == 2
      ensures old(pending).None? || p.hash(old(pending).value) != op.contentHash ==> io == Keys.Raised && written == 0
      ensures calm && old(pending).Some? && p.hash(old(pending).value) == op.contentHash ==> io == Keys.Fine
      ensures blocked == old(blocked)
    {
      if pending.None? || p.hash(pending.value) != op.contentHash {
        return Keys.Raised, 0;
      }
      io, written := WriteAll(PromotePlan(op), calm);
    }

    method AbortBeforeHandoff(calm: bool) returns (io: Io, ghost written: nat)
      modifies this
      ensures calm ==> io == Keys.Fine
      ensures written <= 2 && State() == Upto(old(State()), DropPlan, written)
      ensures io == Keys.Fine ==> written == 2
      ensures blocked == old(blocked)
    {
      io, written := WriteAll(DropPlan, calm);
    }

    method Finish(calm: bool) returns (io: Io, ghost written: nat)
      modifies this
      ensures calm ==> io == Keys.Fine
      ensures written <= 2 && State() == Upto(old(State()), DropPlan, written)
      ensures io == Keys.Fine ==> written == 2
      ensures blocked == (old(blocked) && io != Keys.Fine)
    {
      io, written := WriteAll(DropPlan, calm);
      if io == Keys.Fine { blocked := false; }
    }

    /** recover, given the rows the query for the journal's operation id returns. */
    method Recover(p: Reading, rows: seq<int>, calm: bool) returns (io: Io, ghost written: nat)
      modifies this
      ensures RecoverPlan(p, old(State()), rows).None? ==> io == Keys.Raised && written == 0 && State() == old(State())
      ensures RecoverPlan(p, old(State()), rows).Some? ==>
          && written <= |RecoverPlan(p, old(State()), rows).value|
          && State() == Upto(old(State()), RecoverPlan(p, old(State()), rows).value, written)
          && (io == Keys.Fine ==> written == |RecoverPlan(p, old(State()), rows).value|)
          && (calm ==> io == Keys.Fine)
    {
      ghost var before := State();
      if journal.None? {
        return Keys.Fine, 0;
      }
      var op := journal.value;
      if |rows| >= 2 {
        return Keys.Raised, 0;
      }
      if |rows| == 0 {
        io, written := AbortBeforeHandoff(calm);
        return;
      }
      if p.hash(active) == op.contentHash {
        io, written := Finish(calm);
        return;
      }
      if pending.None? {
        return Keys.Raised, 0;
      }
      var handed := Handed(op, rows[0]);
      io, written := PromotePending(p, handed, calm);
      UptoConcat(before, PromotePlan(handed), DropPlan, written);
      if io != Keys.Fine { return; }
      ghost var dropped;
      io, dropped := Finish(calm);
      written := written + dropped;
      UptoConcat(before, PromotePlan(handed), DropPlan, written);
    }

    /** The part of an activation before its audit row: prepare, then the record. `began`
        tells whether there is an operation to roll back. */
    method Stage(p: Reading, raw: string, op: Operation, how: Recording, calm: bool) returns (io: Io, began: bool, ghost n: nat)
      modifies this
      ensures old(journal).Some? ==> io == Keys.Raised && !began && n == 0
      ensures n <= |StagePlan(p, old(State()), raw, op, how)|
      ensures State() == Upto(old(State()), StagePlan(p, old(State()), raw, op, how), n)
      ensures io == Keys.Fine ==> began && n == |StagePlan(p, old(State()), raw, op, how)|
      ensures io == Keys.Fine ==> Extra(p, old(State()), raw, how).Some?
      ensures calm && old(journal).None? ==> io == if Extra(p, old(State()), raw, how).Some? then Keys.Fine else Keys.Raised
      ensures calm && old(journal).None? ==> began
      ensures began ==> n >= 2
      ensures blocked == old(blocked)
    {
      ghost var before, extra := State(), Extra(p, State(), raw, how);
      ghost var head := [PutPending(raw), PutJournal(op)];
      ghost var rest := if extra.Some? then extra.value else [];
      io, n := Prepare(raw, op, calm);
      began := io == Keys.Fine;
      UptoConcat(before, head, rest, n);
      if !began { return; }
      ghost var prepared := State();
      PreparedStates(before, raw, op);
      assert Extra(p, prepared, raw, how) == extra;
      match how {
        case Rollback =>
          io := RecordRollback(p, raw, calm);
        case Forward(part) =>
          ghost var k;
          io, k := RecordActivation(p, raw, part, calm);
          n := 2 + k;
          UptoConcat(before, head, rest, n);
      }
    }

    /** What follows the committed row up to the cleared journal; `swapped` tells whether
        the gateway has taken up the new policy. */
    method PromoteHandedOver(p: Reading, op: Operation, seqNo: int, calm: bool) returns (io: Io, swapped: bool, ghost n: nat)
      requires pending.Some? && p.hash(pending.value) == op.contentHash
      modifies this
      ensures n <= 4 && State() == Upto(old(State()), PromotePlan(Handed(op, seqNo)) + DropPlan, n)
      ensures io == Keys.Fine ==> n == 4 && swapped
      ensures swapped ==> n >= 2
      ensures calm ==> io == Keys.Fine
      ensures blocked == (old(blocked) && io != Keys.Fine)
    {
      ghost var before := State();
      var handed := Handed(op, seqNo);
      io, n := PromotePending(p, handed, calm);
      swapped := io == Keys.Fine;
      UptoConcat(before, PromotePlan(handed), DropPlan, n);
      if !swapped { return; }
      var evicted := Keys.Strike(calm);
      if evicted != Keys.Fine {
        io := evicted;
        return;
      }
      ghost var k;
      io, k := Finish(calm);
      n := 2 + k;
      UptoConcat(before, PromotePlan(handed), DropPlan, n);
    }

    /** From the committed row on. A failure up to the journal's handoff mark is rolled back;
        a later one blocks traffic and leaves the journal to recovery. */
    method HandOver(p: Reading, raw: string, op: Operation, seqNo: int, calm: bool, ghost rows: seq<int>, ghost staged: nat)
      returns (res: Outcome, swapped: bool, ghost story: Story)
      requires pending == Some(raw) && p.hash(raw) == op.contentHash && !blocked
      requires rows != [] && rows[|rows| - 1] == seqNo
      modifies this
      ensures story.StoppedAfter? ==> story.rows == rows && story.n <= 5
      ensures story.RolledBack? ==> story.rows == rows && story.n == staged && story.dropped <= 2
      ensures !story.StoppedBefore? && State() == Upto(old(State()), Ending(op, story), Reached(story))
      ensures res.Activated? ==> res.seqNo == seqNo && story == StoppedAfter(rows, 5) && swapped && !blocked
      ensures res == Refused ==> (story.RolledBack? && !swapped && !blocked) || (story.StoppedAfter? && blocked)
      ensures calm ==> res == Activated(seqNo)
    {
      hide Upto, Ending;
      ghost var before, n, m := State(), 0, 0;
      var io;
      res, swapped := Died, false;
      io, n := MarkHandoff(op, seqNo, calm);
      if io == Keys.Raised {
        io, m := AbortBeforeHandoff(calm);
        story := RolledBack(staged, rows, n == 1, m);
        RollBackStates(before, op, story);
        res := if io == Keys.Crashed then Died else Refused;
        return;
      }
      MarkStates(before, op, rows, n, m);
      story := StoppedAfter(rows, n);
      if io == Keys.Crashed { return; }
      io, swapped, m := PromoteHandedOver(p, op, seqNo, calm);
      MarkStates(before, op, rows, 1, m);
      story := StoppedAfter(rows, 1 + m);
      if io == Keys.Fine {
        res := Activated(seqNo);
      } else if io == Keys.Raised {
        blocked, res := true, Refused;
      }
    }

    /** What the activation does with the outcome of its audit write. */
    method AfterAuditWrite(p: Reading, raw: string, op: Operation, write: Writing.Written, calm: bool, ghost rows: seq<int>, ghost staged: nat)
      returns (res: Outcome, swapped: bool, ghost story: Story)
      requires pending == Some(raw) && p.hash(raw) == op.contentHash && !blocked
      requires write.Wrote? ==> rows != [] && rows[|rows| - 1] == write.seqNo
      modifies this
      ensures RowsOf(story) == rows && (story.StoppedBefore? || story.RolledBack? ==> story.n == staged)
      ensures story.StoppedAfter? ==> rows != [] && story.n <= 5
      ensures story.RolledBack? ==> story.dropped <= 2 && (story.marked ==> rows != [])
      ensures State() == Upto(old(State()), Ending(op, story), Reached(story))
      ensures res.Activated? ==> story == StoppedAfter(rows, 5) && swapped && !blocked
      ensures res == Refused ==> (story.RolledBack? && !swapped && !blocked) || (story.StoppedAfter? && blocked)
      ensures calm && write.Wrote? ==> res == Activated(write.seqNo)
      ensures calm && write.Failed? ==> res == Refused && !blocked
    {
      res, swapped := Died, false;
      match write {
        case Died =>
          story := if rows == [] then StoppedBefore(staged) else StoppedAfter(rows, 0);
        case Failed =>
          var io;
          ghost var n;
          io, n := AbortBeforeHandoff(calm);
          story := RolledBack(staged, rows, false, n);
          assert [] + DropPlan == DropPlan;
          res := if io == Keys.Crashed then Died else Refused;
        case Wrote(seqNo) =>
          res, swapped, story := HandOver(p, raw, op, seqNo, calm, rows, staged);
      }
    }

    /** The part before the audit row, rolled back where an operation had begun. */
    method StageOrAbort(p: Reading, raw: string, op: Operation, how: Recording, calm: bool)
      returns (ready: bool, io: Io, ghost story: Story)
      requires journal.None?
      modifies this
      ensures blocked == old(blocked)
      ensures !ready ==> !story.StoppedAfter? && RowsOf(story) == [] && Possible(p, old(State()), raw, op, how, story)
      ensures !ready ==> State() == After(p, old(State()), raw, op, how, story)
      ensures ready ==> State() == Done(old(State()), StagePlan(p, old(State()), raw, op, how))
      ensures ready ==> Extra(p, old(State()), raw, how).Some?
      ensures calm ==> io != Keys.Crashed && (ready <==> Extra(p, old(State()), raw, how).Some?)
    {
      hide Apply, Extra, StagePlan;
      var began;
      ghost var n;
      ready := false;
      io, began, n := Stage(p, raw, op, how, calm);
      story := StoppedBefore(n);
      if io == Keys.Crashed || !began {
        return;
      }
      if io == Keys.Raised {
        ghost var dropped;
        io, dropped := AbortBeforeHandoff(calm);
        story := RolledBack(n, [], false, dropped);
        assert Ending(op, story) == DropPlan;
        return;
      }
      ready := true;
    }
  }

  /** The writes of a rollback, after a handoff mark that was or was not applied. */
  lemma RollBackStates(w: World, op: Operation, s: Story)
    requires s.RolledBack? && s.dropped <= 2 && s.rows != []
    ensures
      var from := if s.marked then Apply(w, PutJournal(Handed(op, s.rows[|s.rows| - 1]))) else w;
      Upto(w, Ending(op, s), Reached(s)) == Upto(from, DropPlan, s.dropped)
  {
    var mark := [PutJournal(Handed(op, s.rows[|s.rows| - 1]))];
    if s.marked {
      assert Ending(op, s) == mark + DropPlan;
      UptoConcat(w, mark, DropPlan, Reached(s));
      assert Upto(w, mark, 1) == Apply(Upto(w, mark, 0), mark[0]);
    } else {
      assert Ending(op, s) == DropPlan;
    }
  }

  /** The writes of a promotion, up to the handoff mark and after it. */
  lemma MarkStates(w: World, op: Operation, rows: seq<int>, n: nat, m: nat)
    requires rows != [] && n <= 1 && m <= 4
    ensures
      var handed := Handed(op, rows[|rows| - 1]);
      var marked := Apply(w, PutJournal(handed));
      && Upto(w, Ending(op, StoppedAfter(rows, n)), n) == (if n == 1 then marked else w)
      && Upto(w, Ending(op, StoppedAfter(rows, 1 + m)), 1 + m) == Upto(marked, PromotePlan(handed) + DropPlan, m)
  {
    var handed := Handed(op, rows[|rows| - 1]);
    var mark, tail := [PutJournal(handed)], PromotePlan(handed) + DropPlan;
    assert Ending(op, StoppedAfter(rows, n)) == mark + tail == Ending(op, StoppedAfter(rows, 1 + m));
    UptoConcat(w, mark, tail, n);
    UptoConcat(w, mark, tail, 1 + m);
    assert Upto(w, mark, 1) == Apply(w, mark[0]);
  }

  lemma PreparedStates(w: World, raw: string, op: Operation)
    ensures Done(w, [PutPending(raw), PutJournal(op)]) == w.(pending := Some(raw), journal := Some(op))
  {
    var head := [PutPending(raw), PutJournal(op)];
    assert Upto(w, head, 1) == Apply(w, head[0]);
  }

  // ----- the activation, with its audit row -----

  const ACTIVATED := "POLICY_ACTIVATED"

  function ActivationRequest(op: Operation, how: Recording): Writing.Request {
    Writing.Request(ACTIVATED, op.activatedBy, None, None,
      map["old_version" := Int(op.oldVersion), "new_version" := Int(op.newVersion),
          "content_hash" := Str(op.contentHash), "rollback" := Bool(how.Rollback?),
          "operation_id" := Str(op.operationId), "source" := Str(op.kind), "durable" := Bool(true)],
      None)
  }

  lemma ActivationNamesItsOperation(op: Operation, how: Recording)
    ensures ActivationRequest(op, how).eventType == ACTIVATED
    ensures "operation_id" in ActivationRequest(op, how).extra
    ensures ActivationRequest(op, how).extra["operation_id"] == Str(op.operationId)
  {
  }

  /** The audit row and what follows it, for staged files. */
  method AuditAndPromote(c: Crypto, ghost ring: Keyring, p: Reading, ops: PolicyOperationStore, writer: Writing.AuditWriter,
                         engine: string, raw: string, op: Operation, row: Writing.Request, patience: nat, calm: bool, ghost staged: nat)
    returns (res: Outcome, serving: string, ghost story: Story, ghost steps: seq<Writing.Step>, ghost added: seq<AuditRecord>)
    requires Writing.Sound(c, ring, writer.Snapshot()) && Writing.CanSign(c, ring, writer.key)
    requires !ops.blocked && ops.pending == Some(raw) && op.contentHash == p.hash(raw)
    modifies ops, writer`dirty, writer.stores
    ensures Writing.Moves(c, ring, old(writer.Snapshot()), steps, writer.Snapshot())
    ensures writer.stores.log == old(writer.stores.log) + added
    ensures forall i :: 0 <= i < |added| ==> Writing.Records(c, added[i], row, writer.key)
    ensures RowsOf(story) == Writing.SeqNos(added) && (story.StoppedBefore? || story.RolledBack? ==> story.n == staged)
    ensures story.StoppedAfter? ==> RowsOf(story) != [] && story.n <= 5
    ensures story.RolledBack? ==> story.dropped <= 2 && (story.marked ==> RowsOf(story) != [])
    ensures ops.State() == Upto(old(ops.State()), Ending(op, story), Reached(story))
    ensures res.Activated? ==> story == StoppedAfter(Writing.SeqNos(added), 5) && serving == raw && !ops.blocked
    ensures res == Refused ==> (ops.blocked <==> story.StoppedAfter?)
    ensures res == Refused && !ops.blocked ==> serving == engine
    ensures calm ==> !res.Died? && (res.Activated? <==> writer.available && !Writing.HasNul(row)) && !ops.blocked
  {
    hide Writing.HasNul, Apply, Upto, Ending, Writing.Records, Writing.Moves;
    var write, swapped;
    write, steps, added := writer.Write(c, ring, row, patience, calm);
    res, swapped, story := ops.AfterAuditWrite(p, raw, op, write, calm, Writing.SeqNos(added), staged);
    serving := if swapped then raw else engine;
  }

  /** Stage, audit, promote. Whatever fails or dies, the files are where some story of the
      activation leaves them, and `serving` - the policy the gateway decides by - moves
      only with the files unless traffic is blocked. */
  method StageAuditPromote(c: Crypto, ghost ring: Keyring, p: Reading, ops: PolicyOperationStore, writer: Writing.AuditWriter,
                           engine: string, raw: string, op: Operation, how: Recording, row: Writing.Request, patience: nat, calm: bool)
    returns (res: Outcome, serving: string, ghost story: Story, ghost steps: seq<Writing.Step>, ghost added: seq<AuditRecord>)
    requires Writing.Sound(c, ring, writer.Snapshot()) && Writing.CanSign(c, ring, writer.key)
    requires !ops.blocked && ops.journal.None? && op.contentHash == p.hash(raw) && Registered(p, ops.State())
    modifies ops, writer`dirty, writer.stores
    ensures Writing.Moves(c, ring, old(writer.Snapshot()), steps, writer.Snapshot())
    ensures writer.stores.log == old(writer.stores.log) + added
    ensures forall i :: 0 <= i < |added| ==> Writing.Records(c, added[i], row, writer.key)
    ensures Possible(p, old(ops.State()), raw, op, how, story) && RowsOf(story) == Writing.SeqNos(added)
    ensures ops.State() == After(p, old(ops.State()), raw, op, how, story)
    ensures res.Activated? ==> story == StoppedAfter(Writing.SeqNos(added), 5) && serving == raw && !ops.blocked
    ensures res == Refused ==> (ops.blocked <==> story.StoppedAfter?)
    ensures res == Refused && !ops.blocked ==> serving == engine
    ensures calm ==> !res.Died? && !ops.blocked
    ensures calm ==> (res.Activated? <==>
      writer.available && !Writing.HasNul(row) && Extra(p, old(ops.State()), raw, how).Some?)
  {
    Writing.NoSteps(c, ring, writer.Snapshot());
    hide Apply, RecordPlan, RefreshPlan, Extra, Writing.HasNul, Writing.Records, Writing.Moves;
    ghost var w := ops.State();
    ghost var n := |StagePlan(p, w, raw, op, how)|;
    var ready, io;
    res, serving, steps, added := Died, engine, [], [];
    ready, io, story := ops.StageOrAbort(p, raw, op, how, calm);
    if !ready {
      if io != Keys.Crashed { res := Refused; }
      return;
    }
    StageStates(p, w, raw, op, how, n);
    res, serving, story, steps, added := AuditAndPromote(c, ring, p, ops, writer, engine, raw, op, row, patience, calm, n);
  }

  /** _activate_policy: refused while blocked or while a journal is left, when preflight
      fails, and when the candidate is not eligible; otherwise staged, audited, promoted. */
  method Activate(c: Crypto, ghost ring: Keyring, p: Reading, ops: PolicyOperationStore, writer: Writing.AuditWriter,
                  engine: string, raw: string, operationId: string, kind: string, activatedBy: string, how: Recording,
                  preflight: bool, patience: nat, calm: bool)
    returns (op: Operation, res: Outcome, serving: string, ghost story: Story, ghost steps: seq<Writing.Step>, ghost added: seq<AuditRecord>)
    requires Writing.Sound(c, ring, writer.Snapshot()) && Writing.CanSign(c, ring, writer.key)
    requires Registered(p, ops.State())
    modifies ops, writer`dirty, writer.stores
    ensures op == Operation(operationId, kind, activatedBy, p.Version(engine), p.Version(raw), p.hash(raw), Prepared, None)
    ensures Writing.Moves(c, ring, old(writer.Snapshot()), steps, writer.Snapshot())
    ensures writer.stores.log == old(writer.stores.log) + added
    ensures forall i :: 0 <= i < |added| ==> Writing.Records(c, added[i], ActivationRequest(op, how), writer.key)
    ensures Possible(p, old(ops.State()), raw, op, how, story) && RowsOf(story) == Writing.SeqNos(added)
    ensures ops.State() == After(p, old(ops.State()), raw, op, how, story)
    ensures res.Activated? ==> story == StoppedAfter(Writing.SeqNos(added), 5) && serving == raw && !ops.blocked
    ensures res == Refused && !ops.blocked ==> serving == engine && !story.StoppedAfter?
    ensures old(ops.blocked) || old(ops.journal).Some? || (how.Forward? && !Eligible(p, old(ops.State()), raw)) ==>
      res == Refused && added == [] && ops.State() == old(ops.State())
    ensures !preflight ==> res == Refused && added == [] && ops.State() == old(ops.State())
    ensures calm ==> !res.Died? && (ops.blocked <==> old(ops.blocked))
    ensures calm ==> (res.Activated? <==>
      && preflight && !old(ops.blocked) && old(ops.journal).None? && writer.available && '\0' !in activatedBy
      && if how.Forward? then Eligible(p, old(ops.State()), raw) else Recorded(p, old(ops.State()), raw))
    ensures res.Activated? ==> ops.active == raw && ops.pending.None? && ops.journal.None? && Recorded(p, ops.State(), raw)
  {
    op := Operation(operationId, kind, activatedBy, p.Version(engine), p.Version(raw), p.hash(raw), Prepared, None);
    ghost var w := ops.State();
    Writing.NoSteps(c, ring, writer.Snapshot());
    ActivationNul(op, how);
    assert Possible(p, w, raw, op, how, StoppedBefore(0)) && After(p, w, raw, op, how, StoppedBefore(0)) == w;
    RecordingAccepts(p, w, raw, if how.Forward? then how.part else "");
    hide Possible, After, Apply, Upto, Ending, StagePlan, RecordPlan, RefreshPlan, Eligible, Recorded, ActivationRequest, Registered,
         Writing.HasNul, Writing.Records, Writing.Moves, Writing.Sound, Writing.CanSign;
    res, serving, story, steps, added := Refused, engine, StoppedBefore(0), [], [];
    if ops.blocked || ops.journal.Some? {
      return;
    }
    if !preflight {
      return;
    }
    if how.Forward? {
      var ok := ops.ActivationStatus(p, raw);
      if !ok {
        return;
      }
    }
    res, serving, story, steps, added :=
      StageAuditPromote(c, ring, p, ops, writer, engine, raw, op, how, ActivationRequest(op, how), patience, calm);
    if res.Activated? {
      EndedStates(p, w, raw, op, how, story);
    }
  }

  lemma ActivationNul(op: Operation, how: Recording)
    ensures Writing.HasNul(ActivationRequest(op, how)) <==> '\0' in op.activatedBy
  {
  }

  lemma ActivationFields(op: Operation, how: Recording)
    ensures
      var req := ActivationRequest(op, how);
      && req.identityId == op.activatedBy
      && req.serverId.None? && req.toolName.None? && req.riskScore.None?
      && "identity_id" !in req.extra
      && "old_version" in req.extra && req.extra["old_version"] == Int(op.oldVersion)
      && "new_version" in req.extra && req.extra["new_version"] == Int(op.newVersion)
      && "content_hash" in req.extra && req.extra["content_hash"] == Str(op.contentHash)
      && "rollback" in req.extra && req.extra["rollback"] == Bool(how.Rollback?)
      && "source" in req.extra && req.extra["source"] == Str(op.kind)
      && "durable" in req.extra && req.extra["durable"] == Bool(true)
  {
    assert |"identity_id"| == 11 && |"old_version"| == 11 && |"new_version"| == 11;
    assert "identity_id"[0] == 'i' && "old_version"[0] == 'o' && "new_version"[0] == 'n';
  }

  /** The row an activation leaves in the chain says who put which content in force, from
      which version to which, and whether as a rollback. */
  lemma ActivationRowTells(c: Crypto, row: AuditRecord, op: Operation, how: Recording, key: PrivateKey)
    requires '\0' !in op.activatedBy && Writing.Records(c, row, ActivationRequest(op, how), key)
    ensures row.eventType == "POLICY_ACTIVATED" && row.identityId == op.activatedBy
    ensures row.payload["identity_id"] == Str(op.activatedBy) && row.payload["operation_id"] == Str(op.operationId)
    ensures row.payload["old_version"] == Int(op.oldVersion) && row.payload["new_version"] == Int(op.newVersion)
    ensures row.payload["content_hash"] == Str(op.contentHash) && row.payload["rollback"] == Bool(how.Rollback?)
    ensures row.payload["source"] == Str(op.kind) && row.payload["durable"] == Bool(true)
  {
    hide Writing.Records, Writing.HasNul, ActivationRequest;
    ActivationNul(op, how);
    ActivationNamesItsOperation(op, how);
    ActivationFields(op, how);
    Writing.RowTellsItsRequest(c, row, ActivationRequest(op, how), key);
  }

  /** The bytes on disk after an attempt, before any recovery. */
  lemma ActiveAfter(p: Reading, w: World, raw: string, op: Operation, how: Recording, s: Story)
    requires Registered(p, w) && Possible(p, w, raw, op, how, s)
    ensures After(p, w, raw, op, how, s).active == if s.StoppedAfter? && s.n >= 2 then raw else w.active
  {
    StageStates(p, w, raw, op, how, if s.StoppedAfter? then |StagePlan(p, w, raw, op, how)| else s.n);
    if !s.StoppedBefore? {
      EndingStates(Staged(p, w, raw, op, how, s), op, s);
    }
  }

  /** Activate from end to end: with a fresh operation id, recovery by the actual log raises
      exactly when the attempt left it stuck, and otherwise the candidate is in force
      exactly when the story promotes it. */
  lemma ActivationSettledByTheLog(c: Crypto, p: Reading, w: World, raw: string, op: Operation, how: Recording, s: Story,
                                  log: seq<AuditRecord>, added: seq<AuditRecord>, key: PrivateKey, cuts: seq<nat>)
    requires HashInjective(p) && Settled(p, w) && Possible(p, w, raw, op, how, s) && op.contentHash == p.hash(raw)
    requires Lifecycle.RowsNaming(log, ACTIVATED, op.operationId) == [] && RowsOf(s) == Writing.SeqNos(added)
    requires forall i :: 0 <= i < |added| ==> Writing.Records(c, added[i], ActivationRequest(op, how), key)
    ensures
      var found := Lifecycle.RowsNaming(log + added, ACTIVATED, op.operationId);
      var e := Crashes(p, After(p, w, raw, op, how, s), found, cuts);
      var plan := RecoverPlan(p, e, found);
      && (plan.None? <==> Stuck(s, raw == w.active))
      && (plan.Some? ==>
            var f := Done(e, plan.value);
            && Settled(p, f) && KeepsBindings(w, f)
            && f.active == (if Promotes(s) then raw else w.active)
            && (raw != w.active && !(s.RolledBack? && s.rows != [] && s.dropped == 2) ==> (f.active == raw <==> found != [])))
  {
    ActivationNamesItsOperation(op, how);
    Lifecycle.QueryFindsTheAttempt(c, log, added, ActivationRequest(op, how), op.operationId, key);
    PromotionIsCrashAtomic(p, w, raw, op, how, s, cuts);
    if !Stuck(s, raw == w.active) && raw != w.active {
      LogAndFileAgreeUnlessRolledBackAfterCommit(s, false);
    }
  }
}
