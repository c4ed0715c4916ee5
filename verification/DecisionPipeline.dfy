/** The decision pipeline three ways: live enforcement and live observation
    (services/gateway/jsonrpc_interceptor.py, _authorize_call and _emit_decision) and the
    dry run (services/gateway/decision_explainer.py, explain_call). */
module DecisionPipeline {
  import opened Values
  import opened Abac
  import Policy = PolicyEngine
  import Clocked = ReplayAndStepUp

  datatype Mode = Enforce | Observe

  datatype Outcome = Allow | Deny | Challenge | HumanApproval

  datatype Event =
    | Allowed | DenyReplay | DenyRbac | DenyAbac | DenyDrift | DenyStepUp | DenyRisk
    | Challenged | ApprovalRequired | DenyValidation | DenyApprovalMismatch | ApprovalExpired

  /** The rules a decision names. */
  datatype Rule =
    | ReplayRule | RbacRule(version: int) | AbacRule(version: int, source: string)
    | DriftRule | StepUpRule | ApprovalRule | RiskRule | ValidatorRule

  datatype Factor = Factor(name: string, contribution: int)

  datatype Risk = Risk(score: int, factors: seq<Factor>)

  /** Reasons are texts for people and are not modelled. */
  datatype Decision = Decision(outcome: Outcome, event: Event, rules: seq<Rule>, risk: Option<Risk>)

  // ----- what the stages find out about one call -----

  /** What the call's `_meta` is: an object, some other container, in which keys can be
      looked for but not read, or a scalar, in which they cannot even be looked for. */
  datatype Meta = Mapping | Container | Scalar

  /** `replayDenies` covers every way stage 1 can refuse; lookups that fail are None.
      `challenge` and `approval` are the redemptions of the ids the call carries, if any:
      whether the proof was good, and the event of a refused approval. `cached` is the
      schema cache (None when cold or unreadable), `refetched` what the upstream lists, and
      `fits` whether the arguments fit a schema (None where the validator itself raises). */
  datatype Facts = Facts(
    meta: Meta,
    replayDenies: bool,
    policy: Policy.PolicyFile,
    identity: string,
    server: string,
    tool: string,
    timestamp: Clocked.Field,
    hourNow: int,
    driftBlocked: Option<bool>,
    challenge: Option<bool>,
    approval: Option<Option<Event>>,
    scored: Option<Risk>,
    cached: Option<map<string, Json>>,
    refetched: Option<map<string, Json>>,
    fits: Json -> Option<bool>)

  /** Seconds since the epoch of the years 1 and 10000, between which datetimes exist. */
  const YEAR_1 := -62135596800.0
  const YEAR_10000 := 253402300800.0

  /** `datetime.fromtimestamp(t, UTC).hour`; None where it raises. */
  function HourAt(t: real): Option<int> {
    if YEAR_1 <= t < YEAR_10000 then Some((t.Floor % 86400) / 3600) else None
  }

  /** The hour a numeric timestamp names, or the present one; None where reading it raises. */
  function HourFound(f: Facts): Option<int> {
    match f.timestamp
    case Number(n) => HourAt(n)
    case NotANumber => None
    case Infinite => None
    case _ => Some(f.hourNow)
  }

  function Signed(f: Facts): bool {
    var one := Policy.IdentityOf(f.policy.identities, f.identity);
    one.Some? && one.value.signedMode
  }

  const UNAVAILABLE := Risk(100, [Factor("risk_engine_unavailable", 100)])

  /** A crashed calculation is maximum risk. */
  function RiskFound(f: Facts): Risk {
    if f.scored.Some? then f.scored.value else UNAVAILABLE
  }

  const CHALLENGE_MIN := 40
  const APPROVAL_MIN := 70
  const DENY_ABOVE := 90

  /** threshold_outcome */
  function Band(score: int): (o: Outcome)
    ensures o == Allow <==> score < 40
    ensures o == Challenge <==> 40 <= score < 70
    ensures o == HumanApproval <==> 70 <= score <= 90
    ensures o == Deny <==> score > 90
  {
    if score > DENY_ABOVE then Deny
    else if score >= APPROVAL_MIN then HumanApproval
    else if score >= CHALLENGE_MIN then Challenge
    else Allow
  }

  function GrantOf(f: Facts): Option<Policy.ServerGrant> {
    Policy.Grant(f.policy, Some(f.identity), f.server, f.tool)
  }

  function ConditionsOf(f: Facts): seq<Condition> {
    if GrantOf(f).Some? then GrantOf(f).value.conditions else []
  }

  /** Policies are loaded with every condition compiled. */
  ghost predicate Loaded(f: Facts) {
    forall c :: c in ConditionsOf(f) ==> Compiled(c)
  }

  /** What conditions may refer to before a score exists. */
  function AttributesOf(f: Facts): Attributes {
    var hour := HourFound(f);
    (CallAttributes(f) + Prefixed(OwnAttributes(f)))
    + if hour.Some? then map["context.hour" := AttrValue.Number(hour.value as real)] else map[]
  }

  function CallAttributes(f: Facts): Attributes {
    map[
      "identity.id" := AttrValue.Text(f.identity),
      "tool.name" := AttrValue.Text(f.tool),
      "tool.server_id" := AttrValue.Text(f.server)]
  }

  /** The attributes the policy gives the caller. */
  function OwnAttributes(f: Facts): Attributes {
    var one := Policy.IdentityOf(f.policy.identities, f.identity);
    if one.Some? then one.value.attributes else map[]
  }

  const IDENTITY := "identity."

  function Prefixed(attributes: Attributes): Attributes {
    var paths := set k | k in attributes :: IDENTITY + k;
    assert forall k :: k in attributes ==> (IDENTITY + k)[|IDENTITY|..] == k;
    map p | p in paths :: attributes[p[|IDENTITY|..]]
  }

  function Scored(attrs: Attributes, risk: Risk): Attributes {
    attrs["risk.score" := AttrValue.Number(risk.score as real)]
  }

  function Select(conditions: seq<Condition>, risky: bool): seq<Condition> {
    if conditions == [] then []
    else (if ReferencesRisk(conditions[0]) == risky then [conditions[0]] else []) + Select(conditions[1..], risky)
  }

  lemma {:induction false} SelectKeeps(conditions: seq<Condition>, risky: bool)
    ensures forall c :: c in Select(conditions, risky) <==> c in conditions && ReferencesRisk(c) == risky
  {
    if conditions != [] {
      SelectKeeps(conditions[1..], risky);
    }
  }

  // ----- one stage each: what it comes to -----

  /** A stage lets the call go on, stops it with a decision, or raises. */
  datatype Stage = Pass | Stop(decision: Decision) | Raise

  function Denial(event: Event, rule: Rule, risk: Option<Risk>): Decision {
    Decision(Deny, event, [rule], risk)
  }

  function When(refuses: bool, d: Decision): Stage {
    if refuses then Stop(d) else Pass
  }

  /** Enforcement ends at the first stage that does not pass. Observation retains the first
      stop and goes on, so a raise anywhere ends it without a decision. */
  function Join(mode: Mode, a: Stage, b: Stage): Stage {
    if mode.Enforce? then (if a.Pass? then b else a)
    else if a.Raise? || b.Raise? then Raise
    else if a.Stop? then a else b
  }

  /** `meta` is asked for the replay keys, then they are checked. */
  function ReplayStage(f: Facts): Stage {
    if f.meta.Scalar? && !Signed(f) then Raise else When(f.replayDenies, Denial(DenyReplay, ReplayRule, None))
  }

  /** With conditions to check, the attributes are read from `meta` and the clock. */
  predicate AttributesRaise(f: Facts) {
    ConditionsOf(f) != [] && (!f.meta.Mapping? || HourFound(f).None?)
  }

  ghost function FirstFailing(conditions: seq<Condition>, attrs: Attributes): (failing: Option<Condition>)
    requires forall c :: c in conditions ==> Compiled(c)
    ensures failing.Some? ==> failing.value in conditions && !Satisfied(failing.value, attrs)
  {
    if conditions == [] then None
    else if !Satisfied(conditions[0], attrs) then Some(conditions[0])
    else FirstFailing(conditions[1..], attrs)
  }

  ghost function AbacStage(f: Facts, risky: bool, attrs: Attributes, risk: Option<Risk>): (v: Stage)
    requires Loaded(f)
    ensures !v.Raise? && (v.Stop? ==> v.decision.event == DenyAbac && v.decision.risk == risk)
    ensures v.Stop? ==> v.decision.outcome == Deny
  {
    SelectKeeps(ConditionsOf(f), risky);
    var failing := FirstFailing(Select(ConditionsOf(f), risky), attrs);
    if failing.None? then Pass else Stop(Denial(DenyAbac, AbacRule(f.policy.version, failing.value.source), risk))
  }

  ghost function LiveAbacStage(f: Facts): Stage
    requires Loaded(f)
  {
    if AttributesRaise(f) then Raise else AbacStage(f, false, AttributesOf(f), None)
  }

  function RbacStage(f: Facts): Stage {
    When(GrantOf(f).None?, Denial(DenyRbac, RbacRule(f.policy.version), None))
  }

  function DriftStage(f: Facts): Stage {
    When(f.driftBlocked != Some(false), Denial(DenyDrift, DriftRule, None))
  }

  /** The ids are read from `meta` in both modes; only enforcement redeems them. */
  function StepUpStage(f: Facts, mode: Mode): Stage {
    if !f.meta.Mapping? then Raise
    else When(mode.Enforce? && f.challenge == Some(false), Denial(DenyStepUp, StepUpRule, None))
  }

  /** What the risk band calls for; a verified proof satisfies the challenge band only. */
  function RiskStage(risk: Risk, verified: bool): Stage {
    match Band(risk.score)
    case Allow => Pass
    case Challenge => When(!verified, Decision(Challenge, Challenged, [RiskRule], Some(risk)))
    case HumanApproval => Stop(Decision(HumanApproval, ApprovalRequired, [RiskRule], Some(risk)))
    case Deny => Stop(Denial(DenyRisk, RiskRule, Some(risk)))
  }

  function SchemaIn(tools: Option<map<string, Json>>, tool: string): Option<Json> {
    if tools.Some? && tool in tools.value then Some(tools.value[tool]) else None
  }

  /** The live path fetches the list again when the cache is cold. */
  function LiveSchema(f: Facts): Option<Json> {
    SchemaIn(if f.cached.Some? then f.cached else f.refetched, f.tool)
  }

  predicate ValidatorRaises(f: Facts, schema: Option<Json>) {
    schema.Some? && f.fits(schema.value).None?
  }

  function ValidationStage(f: Facts, schema: Option<Json>, risk: Option<Risk>): (v: Stage)
    ensures v.Raise? <==> ValidatorRaises(f, schema)
    ensures v.Stop? ==> v.decision.risk == risk
  {
    var denial := Denial(DenyValidation, ValidatorRule, risk);
    if schema.None? then Stop(denial)
    else if f.fits(schema.value).None? then Raise
    else When(!f.fits(schema.value).value, denial)
  }

  // ----- the reference: the first stage that does not let the call go on -----

  /** The arguments fit the tool's schema, from the cache or, if that is cold, as listed again. */
  predicate FitsSomeSchema(f: Facts) {
    || (f.cached.Some? && f.tool in f.cached.value && f.fits(f.cached.value[f.tool]) == Some(true))
    || (f.cached.None? && f.refetched.Some? && f.tool in f.refetched.value && f.fits(f.refetched.value[f.tool]) == Some(true))
  }

  predicate Redeeming(f: Facts, mode: Mode) {
    mode.Enforce? && f.approval.Some?
  }

  predicate Verified(f: Facts, mode: Mode) {
    mode.Enforce? && f.challenge == Some(true)
  }

  ghost function ScoredStages(f: Facts, verified: bool): (v: Stage)
    requires Loaded(f)
    ensures !v.Raise? && (v.Stop? ==> v.decision.risk == Some(RiskFound(f)))
    ensures v.Stop? ==> OutcomeOf(v.decision.event) == v.decision.outcome && v.decision.outcome != Allow
  {
    var risk := RiskFound(f);
    Join(Enforce, AbacStage(f, true, Scored(AttributesOf(f), risk), Some(risk)), RiskStage(risk, verified))
  }

  /** The live stages up to the schema drift. */
  ghost function EarlyLive(f: Facts, mode: Mode): Stage
    requires Loaded(f)
  {
    Join(mode, ReplayStage(f), Join(mode, RbacStage(f), Join(mode, LiveAbacStage(f), DriftStage(f))))
  }

  /** The stage of a redemption, or of the score. */
  ghost function ScoreOrApproval(f: Facts, mode: Mode): Stage
    requires Loaded(f)
  {
    if Redeeming(f, mode) then (if f.approval.value.Some? then Stop(Denial(f.approval.value.value, ApprovalRule, None)) else Pass)
    else ScoredStages(f, Verified(f, mode))
  }

  ghost function LiveVerdict(f: Facts, mode: Mode): Stage
    requires Loaded(f)
  {
    Join(mode, EarlyLive(f, mode),
    Join(mode, StepUpStage(f, mode),
    Join(mode, ScoreOrApproval(f, mode), ValidationStage(f, LiveSchema(f), LiveRisk(f, mode)))))
  }

  function LiveRisk(f: Facts, mode: Mode): Option<Risk> {
    if Redeeming(f, mode) then None else Some(RiskFound(f))
  }

  function AllowedBy(f: Facts, risk: Option<Risk>): Decision {
    Decision(Allow, Allowed, [RbacRule(f.policy.version)], risk)
  }

  /** What a verdict decides; observation puts the score on what it retained. */
  function Decide(f: Facts, mode: Mode, v: Stage, risk: Option<Risk>): Option<Decision> {
    match v
    case Raise => None
    case Pass => Some(AllowedBy(f, risk))
    case Stop(d) => Some(if mode.Observe? then d.(risk := risk) else d)
  }

  /** The decision of the live path; None where it raises before it has one. */
  ghost function LiveDecision(f: Facts, mode: Mode): Option<Decision>
    requires Loaded(f)
  {
    Decide(f, mode, LiveVerdict(f, mode), LiveRisk(f, mode))
  }

  /** The dry run reads the hour whether or not there are conditions. */
  function HourStage(f: Facts): Stage {
    if HourFound(f).None? then Raise else Pass
  }

  ghost function EarlyDry(f: Facts, mode: Mode): Stage
    requires Loaded(f)
  {
    Join(mode, RbacStage(f), Join(mode, HourStage(f),
      Join(mode, AbacStage(f, false, AttributesOf(f), None), DriftStage(f))))
  }

  ghost function DryDecision(f: Facts, mode: Mode): Option<Decision>
    requires Loaded(f)
  {
    var risk := Some(RiskFound(f));
    var v := Join(mode, EarlyDry(f, mode),
             Join(mode, ScoredStages(f, false), ValidationStage(f, SchemaIn(f.cached, f.tool), risk)));
    Decide(f, mode, v, risk)
  }

  // ----- the code -----

  datatype Row = Decided(mode: Mode, tool: string, decision: Decision) | PolicyError(source: string)

  predicate OnlyPolicyErrors(rows: seq<Row>) {
    forall r :: r in rows ==> r.PolicyError?
  }

  lemma {:induction false} FirstFailingIs(conditions: seq<Condition>, attrs: Attributes, i: nat)
    requires i <= |conditions| && forall c :: c in conditions ==> Compiled(c)
    requires forall j :: 0 <= j < i ==> Satisfied(conditions[j], attrs)
    ensures i < |conditions| && !Satisfied(conditions[i], attrs) ==> FirstFailing(conditions, attrs) == Some(conditions[i])
    ensures i == |conditions| ==> FirstFailing(conditions, attrs) == None
  {
    if i > 0 {
      FirstFailingIs(conditions[1..], attrs, i - 1);
    }
  }

  /** The condition cannot be evaluated: a path is missing, or values cannot be compared. */
  ghost predicate Unevaluable(c: Condition, attrs: Attributes)
    requires Compiled(c)
  {
    !(c.paths <= attrs.Keys) || Meaning(c.tree, attrs) == Raises
  }

  /** The row that makes an unevaluable condition visible. */
  ghost function ErrorRows(conditions: seq<Condition>, attrs: Attributes): (rows: seq<Row>)
    requires forall c :: c in conditions ==> Compiled(c)
    ensures OnlyPolicyErrors(rows)
  {
    var failing := FirstFailing(conditions, attrs);
    if failing.Some? && Unevaluable(failing.value, attrs) then [PolicyError(failing.value.source)] else []
  }

  /** `terminal = terminal or candidate` */
  function Retain(terminal: Stage, d: Decision): Stage {
    if terminal.Stop? then terminal else Stop(d)
  }

  /** The conditions checked before a score exists, and after. */
  ghost function Early(f: Facts): (conditions: seq<Condition>)
    requires Loaded(f)
    ensures forall c :: c in conditions <==> c in ConditionsOf(f) && !ReferencesRisk(c)
  {
    SelectKeeps(ConditionsOf(f), false);
    Select(ConditionsOf(f), false)
  }

  ghost function Deferred(f: Facts): (conditions: seq<Condition>)
    requires Loaded(f)
    ensures forall c :: c in conditions <==> c in ConditionsOf(f) && ReferencesRisk(c)
  {
    SelectKeeps(ConditionsOf(f), true);
    Select(ConditionsOf(f), true)
  }

  /** The call gets as far as its conditions. */
  predicate ReadsConditions(f: Facts, mode: Mode) {
    !(f.meta.Scalar? && !Signed(f)) && !(mode.Enforce? && f.replayDenies) && !AttributesRaise(f)
  }

  class Interceptor {
    const mode: Mode
    var log: seq<Row>
    var pending: map<string, string>

    constructor (mode: Mode)
      ensures this.mode == mode && log == [] && pending == map[]
    {
      this.mode := mode;
      log, pending := [], map[];
    }

    /** _failed_condition: the first condition that is not satisfied; one that could not be
        evaluated also leaves a POLICY_ERROR row, if that can be written. */
    method FailedCondition(conditions: seq<Condition>, attrs: Attributes, recordable: bool) returns (failing: Option<Condition>)
      requires forall c :: c in conditions ==> Compiled(c)
      modifies this`log
      ensures failing == FirstFailing(conditions, attrs)
      ensures log == old(log) + if recordable then ErrorRows(conditions, attrs) else []
      ensures log == old(log) +
        if recordable && failing.Some? && (!(failing.value.paths <= attrs.Keys) || Meaning(failing.value.tree, attrs) == Raises)
          then [PolicyError(failing.value.source)] else []
    {
      for i := 0 to |conditions|
        invariant forall j :: 0 <= j < i ==> Satisfied(conditions[j], attrs)
        invariant log == old(log)
      {
        var verdict, missing := Evaluate(conditions[i], attrs);
        assert forall p :: p in conditions[i].paths && p !in attrs ==> p in missing;
        if (verdict == Raises || missing != {}) && recordable {
          log := log + [PolicyError(conditions[i].source)];
        }
        FirstFailingIs(conditions, attrs, i);
        if verdict != Holds {
          return Some(conditions[i]);
        }
      }
      FirstFailingIs(conditions, attrs, |conditions|);
      failing := None;
    }

    /** Replay, grant, conditions without risk, drift: enforcement stops at the first denial,
        observation goes on and retains it. */
    method EarlyDenials(f: Facts, recordable: bool) returns (v: Stage)
      requires Loaded(f)
      modifies this`log
      ensures v == EarlyLive(f, mode)
      ensures log == old(log) + if recordable && ReadsConditions(f, mode) then ErrorRows(Early(f), AttributesOf(f)) else []
    {
      var terminal := Pass;
      var one := Policy.IdentityOf(f.policy.identities, f.identity);
      if f.meta.Scalar? && !(one.Some? && one.value.signedMode) {
        return Raise;
      }
      if f.replayDenies {
        terminal := Retain(terminal, Denial(DenyReplay, ReplayRule, None));
        if mode.Enforce? { return terminal; }
      }
      var grant := Policy.ResolveGrant(f.policy, Some(f.identity), f.server, f.tool);
      var conditions := if grant.Some? then grant.value.conditions else [];
      if grant.None? {
        terminal := Retain(terminal, Denial(DenyRbac, RbacRule(f.policy.version), None));
        if mode.Enforce? { return terminal; }
      }
      if conditions != [] && (!f.meta.Mapping? || HourFound(f).None?) {
        return Raise;
      }
      SelectKeeps(conditions, false);
      var failing := FailedCondition(Select(conditions, false), AttributesOf(f), recordable);
      if failing.Some? {
        terminal := Retain(terminal, Denial(DenyAbac, AbacRule(f.policy.version, failing.value.source), None));
        if mode.Enforce? { return terminal; }
      }
      var driftBlocked := f.driftBlocked.None? || f.driftBlocked.value;
      if driftBlocked {
        terminal := Retain(terminal, Denial(DenyDrift, DriftRule, None));
      }
      v := terminal;
    }

    /** Scoring, the conditions on risk and the band; the score goes onto what was retained. */
    method ScoredDenials(f: Facts, retained: Stage, verified: bool, recordable: bool) returns (terminal: Stage, risk: Risk)
      requires Loaded(f) && !retained.Raise? && (mode.Enforce? ==> retained.Pass?)
      modifies this`log
      ensures risk == RiskFound(f) && !terminal.Raise?
      ensures terminal == if retained.Stop? then Stop(retained.decision.(risk := Some(risk))) else ScoredStages(f, verified)
      ensures terminal.Stop? ==> terminal.decision.risk == Some(risk)
      ensures log == old(log) + if recordable then ErrorRows(Deferred(f), Scored(AttributesOf(f), RiskFound(f))) else []
    {
      terminal := retained;
      risk := if f.scored.Some? then f.scored.value else UNAVAILABLE;
      if terminal.Stop? { terminal := Stop(terminal.decision.(risk := Some(risk))); }
      var conditions := ConditionsOf(f);
      SelectKeeps(conditions, true);
      var failing := FailedCondition(Select(conditions, true), Scored(AttributesOf(f), risk), recordable);
      if failing.Some? {
        terminal := Retain(terminal, Denial(DenyAbac, AbacRule(f.policy.version, failing.value.source), Some(risk)));
        if mode.Enforce? { return; }
      }
      if Band(risk.score) == Challenge && verified {
      } else if Band(risk.score) != Allow {
        terminal := Retain(terminal, RiskStage(risk, false).decision);
      }
    }

    /** _authorize_call up to the emission of its decision; None where it raises. */
    method Authorize(f: Facts) returns (d: Option<Decision>)
      requires Loaded(f)
      modifies this`log
      ensures d == LiveDecision(f, mode)
      ensures old(log) <= log && OnlyPolicyErrors(log[|old(log)|..])
    {
      hide EarlyLive, ScoredStages, LiveSchema, RiskFound, Loaded, ErrorRows, Early, Deferred, ReadsConditions, AttributesOf, Scored;
      var early, late: bool := *, *;
      var terminal := EarlyDenials(f, early);
      if terminal.Raise? {
        return None;
      }
      if mode.Enforce? && terminal.Stop? {
        return Some(terminal.decision);
      }
      if !f.meta.Mapping? {
        return None;
      }
      var verified := false;
      if mode.Enforce? && f.challenge.Some? {
        if !f.challenge.value {
          return Some(Denial(DenyStepUp, StepUpRule, None));
        }
        verified := true;
      }
      if mode.Enforce? && f.approval.Some? {
        if f.approval.value.Some? {
          return Some(Denial(f.approval.value.value, ApprovalRule, None));
        }
        d := Conclude(f, terminal, None);
        return;
      }
      var risk;
      terminal, risk := ScoredDenials(f, terminal, verified, late);
      if mode.Enforce? && terminal.Stop? {
        return Some(terminal.decision);
      }
      d := Conclude(f, terminal, Some(risk));
    }

    /** Validation and the default: allow. */
    method Conclude(f: Facts, retained: Stage, risk: Option<Risk>) returns (d: Option<Decision>)
      requires !retained.Raise? && (mode.Enforce? ==> retained.Pass?)
      ensures d == match Join(mode, retained, ValidationStage(f, LiveSchema(f), risk))
                   case Raise => None
                   case Pass => Some(AllowedBy(f, risk))
                   case Stop(stopped) => Some(stopped)
    {
      var terminal := retained;
      var tools := if f.cached.Some? then f.cached else f.refetched;
      var schema := if tools.Some? && f.tool in tools.value then Some(tools.value[f.tool]) else None;
      if schema.None? {
        terminal := Retain(terminal, Denial(DenyValidation, ValidatorRule, risk));
        if mode.Enforce? { return Some(terminal.decision); }
      }
      if schema.Some? {
        var fits := f.fits(schema.value);
        if fits.None? {
          return None;
        }
        if !fits.value {
          terminal := Retain(terminal, Denial(DenyValidation, ValidatorRule, risk));
          if mode.Enforce? { return Some(terminal.decision); }
        }
      }
      d := Some(if terminal.Stop? then terminal.decision else AllowedBy(f, risk));
    }

    /** _emit_decision: a call is forwarded only when it may be and its row is stored; every
        other call is answered, and its pending entry dropped. `stored` is the fate of the
        audit row, `followed` that of the approval or challenge a refusal creates. */
    method Emit(id: string, tool: string, d: Decision, stored: bool, followed: bool) returns (forwarded: bool)
      modifies this
      ensures log == if stored then old(log) + [Decided(mode, tool, d)] else old(log)
      ensures forwarded ==> stored && (mode.Enforce? ==> d.outcome == Allow)
      ensures stored && (mode.Observe? || d.outcome == Allow) ==> forwarded
      ensures pending == if forwarded then old(pending) else old(pending) - {id}
    {
      var failed := !stored;
      if stored {
        log := log + [Decided(mode, tool, d)];
        if mode.Enforce? && d.outcome in {HumanApproval, Challenge} && !followed {
          failed := true;
        }
      }
      if failed {
        if !(mode.Enforce? && d.outcome == Deny) {
          pending := pending - {id};
          return false;
        }
      }
      if mode.Enforce? && d.outcome != Allow {
        pending := pending - {id};
        return false;
      }
      forwarded := true;
    }

    /** A tools/call from the client to its forwarding or its answer. A raise leaves the call
        pending and unanswered; nothing is forwarded and nothing but policy errors recorded. */
    method OnToolsCall(id: string, f: Facts, stored: bool, followed: bool) returns (forwarded: bool, d: Option<Decision>)
      requires Loaded(f)
      modifies this
      ensures d == LiveDecision(f, mode)
      ensures forwarded ==> d.Some? && log != [] && log[|log| - 1] == Decided(mode, f.tool, d.value)
      ensures forwarded || d.None? <==> id in pending
      ensures mode.Enforce? && d.Some? && d.value.outcome != Allow ==> !forwarded
      ensures stored && d.Some? && (mode.Observe? || d.value.outcome == Allow) ==> forwarded
      ensures d.None? ==> old(log) <= log && OnlyPolicyErrors(log[|old(log)|..])
    {
      pending := pending[id := "tools/call"];
      d := Authorize(f);
      forwarded := false;
      if d.Some? {
        forwarded := Emit(id, f.tool, d.value, stored, followed);
      }
    }
  }

  method FirstUnsatisfied(conditions: seq<Condition>, attrs: Attributes) returns (failing: Option<Condition>)
    requires forall c :: c in conditions ==> Compiled(c)
    ensures failing == FirstFailing(conditions, attrs)
  {
    for i := 0 to |conditions|
      invariant forall j :: 0 <= j < i ==> Satisfied(conditions[j], attrs)
    {
      var verdict, missing := Evaluate(conditions[i], attrs);
      FirstFailingIs(conditions, attrs, i);
      if verdict != Holds {
        return Some(conditions[i]);
      }
    }
    FirstFailingIs(conditions, attrs, |conditions|);
    failing := None;
  }

  /** explain_call up to the schema drift. */
  method ExplainEarly(f: Facts, mode: Mode) returns (v: Stage)
    requires Loaded(f)
    ensures v == EarlyDry(f, mode)
  {
    var terminal := Pass;
    var grant := Policy.ResolveGrant(f.policy, Some(f.identity), f.server, f.tool);
    var conditions := if grant.Some? then grant.value.conditions else [];
    if grant.None? {
      terminal := Retain(terminal, Denial(DenyRbac, RbacRule(f.policy.version), None));
      if mode.Enforce? { return terminal; }
    }
    if HourFound(f).None? {
      return Raise;
    }
    SelectKeeps(conditions, false);
    var failing := FirstUnsatisfied(Select(conditions, false), AttributesOf(f));
    if failing.Some? {
      terminal := Retain(terminal, Denial(DenyAbac, AbacRule(f.policy.version, failing.value.source), None));
      if mode.Enforce? { return terminal; }
    }
    if f.driftBlocked.None? || f.driftBlocked.value {
      terminal := Retain(terminal, Denial(DenyDrift, DriftRule, None));
    }
    v := terminal;
  }

  /** explain_call's scoring. */
  method ExplainScored(f: Facts, mode: Mode, retained: Stage) returns (terminal: Stage, risk: Risk)
    requires Loaded(f) && !retained.Raise? && (mode.Enforce? ==> retained.Pass?)
    ensures risk == RiskFound(f) && !terminal.Raise?
    ensures terminal == if retained.Stop? then Stop(retained.decision.(risk := Some(risk))) else ScoredStages(f, false)
    ensures terminal.Stop? ==> terminal.decision.risk == Some(risk)
  {
    terminal := retained;
    risk := if f.scored.Some? then f.scored.value else UNAVAILABLE;
    if terminal.Stop? { terminal := Stop(terminal.decision.(risk := Some(risk))); }
    var conditions := ConditionsOf(f);
    SelectKeeps(conditions, true);
    var failing := FirstUnsatisfied(Select(conditions, true), Scored(AttributesOf(f), risk));
    if failing.Some? {
      terminal := Retain(terminal, Denial(DenyAbac, AbacRule(f.policy.version, failing.value.source), Some(risk)));
      if mode.Enforce? { return; }
    }
    var threshold := Band(risk.score);
    if threshold == Deny {
      terminal := Retain(terminal, Denial(DenyRisk, RiskRule, Some(risk)));
    }
    if threshold == HumanApproval {
      terminal := Retain(terminal, Decision(HumanApproval, ApprovalRequired, [RiskRule], Some(risk)));
    }
    if threshold == Challenge {
      terminal := Retain(terminal, Decision(Challenge, Challenged, [RiskRule], Some(risk)));
    }
  }

  /** explain_call; None where it raises. */
  method Explain(f: Facts, mode: Mode) returns (d: Option<Decision>)
    requires Loaded(f)
    ensures d == DryDecision(f, mode)
  {
    hide EarlyDry, ScoredStages, RiskFound, Loaded;
    var terminal := ExplainEarly(f, mode);
    if terminal.Raise? {
      return None;
    }
    if mode.Enforce? && terminal.Stop? {
      return Some(terminal.decision);
    }
    var risk;
    terminal, risk := ExplainScored(f, mode, terminal);
    if mode.Enforce? && terminal.Stop? {
      return Some(terminal.decision);
    }
    var invalid := Denial(DenyValidation, ValidatorRule, Some(risk));
    if f.cached.None? {
      terminal := Retain(terminal, invalid);
      if mode.Enforce? { return Some(terminal.decision); }
    }
    var schema := if f.cached.Some? && f.tool in f.cached.value then Some(f.cached.value[f.tool]) else None;
    if schema.None? {
      terminal := Retain(terminal, invalid);
      if mode.Enforce? { return Some(terminal.decision); }
    }
    if schema.Some? {
      var fits := f.fits(schema.value);
      if fits.None? {
        return None;
      }
      if !fits.value {
        terminal := Retain(terminal, invalid);
        if mode.Enforce? { return Some(terminal.decision); }
      }
    }
    d := Some(if terminal.Stop? then terminal.decision else AllowedBy(f, Some(risk)));
  }

  // ----- agreement -----

  /** No approval or challenge id, so nothing to redeem. */
  predicate Plain(f: Facts) {
    f.challenge.None? && f.approval.None?
  }

  /** The dry run cannot know what a re-fetch would bring: the cache is cold, and what the
      upstream lists lets the call through. */
  predicate OnlyRefetchSaves(f: Facts) {
    f.cached.None? && LiveSchema(f).Some? && f.fits(LiveSchema(f).value) == Some(true)
  }

  /** The policy itself lets the call go on to scoring: granted, its conditions without risk
      satisfied, its schema not drifted. */
  ghost predicate PolicyPasses(f: Facts)
    requires Loaded(f)
  {
    GrantOf(f).Some? && AbacStage(f, false, AttributesOf(f), None).Pass? && f.driftBlocked == Some(false)
  }

  ghost predicate ScorePasses(f: Facts)
    requires Loaded(f)
  {
    ScoredStages(f, false).Pass?
  }

  predicate ScalarMeta(f: Facts) {
    f.meta.Scalar? && !Signed(f)
  }

  /** When the live path ends without a decision: in enforcement only if it gets that far. */
  ghost predicate LiveRaises(f: Facts, mode: Mode)
    requires Loaded(f)
  {
    if mode.Observe? then !f.meta.Mapping? || AttributesRaise(f) || ValidatorRaises(f, LiveSchema(f))
    else
      || ScalarMeta(f)
      || (!f.replayDenies
          && (AttributesRaise(f)
              || (PolicyPasses(f) && (!f.meta.Mapping? || (ScorePasses(f) && ValidatorRaises(f, LiveSchema(f)))))))
  }

  ghost predicate DryRaises(f: Facts, mode: Mode)
    requires Loaded(f)
  {
    var schema := SchemaIn(f.cached, f.tool);
    if mode.Observe? then HourFound(f).None? || ValidatorRaises(f, schema)
    else GrantOf(f).Some? && (HourFound(f).None? || (PolicyPasses(f) && ScorePasses(f) && ValidatorRaises(f, schema)))
  }

  lemma NothingGranted(f: Facts)
    requires Loaded(f) && GrantOf(f).None?
    ensures !AttributesRaise(f) && AbacStage(f, false, AttributesOf(f), None).Pass?
  {
  }

  /** The live path has no decision exactly where it raises. */
  lemma LiveUndecidedExactlyWhen(f: Facts, mode: Mode)
    requires Loaded(f) && Plain(f)
    ensures LiveDecision(f, mode).None? <==> LiveRaises(f, mode)
  {
    if GrantOf(f).None? { NothingGranted(f); }
    hide Loaded, GrantOf, ConditionsOf, AttributesRaise, HourFound, AbacStage, ScoredStages, LiveSchema, RiskFound, Signed, Denial, AllowedBy;
    match mode
    case Enforce =>
    case Observe =>
  }

  /** Neither has the dry run. */
  lemma DryUndecidedExactlyWhen(f: Facts, mode: Mode)
    requires Loaded(f)
    ensures DryDecision(f, mode).None? <==> DryRaises(f, mode)
  {
    if GrantOf(f).None? { NothingGranted(f); }
    hide Loaded, GrantOf, ConditionsOf, HourFound, AbacStage, ScoredStages, SchemaIn, RiskFound, Denial, AllowedBy;
    match mode
    case Enforce =>
    case Observe =>
  }

  /** Live and dry run come to the same outcome, event, rules, score and factors, in both
      modes, exactly when neither raises, the call is not refused as a replay, and it is not
      the re-fetch alone that would let it through. */
  lemma DryRunAgreesExactlyWhen(f: Facts, mode: Mode)
    requires Loaded(f) && Plain(f)
    ensures LiveDecision(f, mode).Some? && LiveDecision(f, mode) == DryDecision(f, mode) <==>
      && !LiveRaises(f, mode) && !DryRaises(f, mode) && !f.replayDenies
      && !(PolicyPasses(f) && ScorePasses(f) && OnlyRefetchSaves(f))
  {
    LiveUndecidedExactlyWhen(f, mode);
    DryUndecidedExactlyWhen(f, mode);
    if GrantOf(f).None? { NothingGranted(f); }
    hide Loaded, GrantOf, ConditionsOf, HourFound, AttributesRaise, AbacStage, ScoredStages, RiskFound, LiveRaises, DryRaises;
    match mode
    case Enforce =>
    case Observe =>
  }

  /** Observation has a decision exactly when enforcement has one, and records the outcome,
      event and rules that enforcement comes to; only the score is added where enforcement
      never got to it. */
  ghost predicate Foretells(f: Facts)
    requires Loaded(f)
  {
    var seen, done := LiveDecision(f, Observe), LiveDecision(f, Enforce);
    && (seen.Some? <==> done.Some?)
    && (seen.Some? && done.Some? ==>
          && (seen.value.outcome, seen.value.event, seen.value.rules) == (done.value.outcome, done.value.event, done.value.rules)
          && seen.value.risk == Some(RiskFound(f))
          && (done.value.risk.Some? ==> done.value.risk == seen.value.risk))
  }

  /** A stage raises that comes only after one that denies: after a replay denial, unreadable
      `meta`, the attributes of a grant with conditions, or the validator; after a denial by
      the policy, unreadable `meta` or the validator; after one by the score, the validator. */
  ghost predicate RaisesAfterDenial(f: Facts)
    requires Loaded(f)
  {
    && !ScalarMeta(f)
    && if f.replayDenies then !f.meta.Mapping? || AttributesRaise(f) || ValidatorRaises(f, LiveSchema(f))
       else
         && !AttributesRaise(f)
         && if !PolicyPasses(f) then !f.meta.Mapping? || ValidatorRaises(f, LiveSchema(f))
            else f.meta.Mapping? && !ScorePasses(f) && ValidatorRaises(f, LiveSchema(f))
  }

  /** Where both have a decision, it is the same one but for the score. */
  lemma DecidedAlike(f: Facts)
    requires Loaded(f) && Plain(f) && LiveDecision(f, Observe).Some? && LiveDecision(f, Enforce).Some?
    ensures Foretells(f)
  {
    hide Loaded, GrantOf, ConditionsOf, AttributesRaise, AbacStage, ScoredStages, RiskFound, LiveSchema, Signed, ValidationStage;
  }

  /** Observation foretells enforcement exactly when no stage raises that comes only after
      one that denies. */
  lemma ObservationForetellsExactlyWhen(f: Facts)
    requires Loaded(f) && Plain(f)
    ensures Foretells(f) <==> !RaisesAfterDenial(f)
  {
    LiveUndecidedExactlyWhen(f, Observe);
    LiveUndecidedExactlyWhen(f, Enforce);
    if LiveDecision(f, Observe).Some? && LiveDecision(f, Enforce).Some? {
      DecidedAlike(f);
    }
    if GrantOf(f).None? { NothingGranted(f); }
    hide Loaded, LiveDecision, GrantOf, ConditionsOf, AttributesRaise, AbacStage, ScoredStages, LiveSchema, Signed, ValidatorRaises;
  }

  /** With an object for `meta` and a validator that does not raise, that is: exactly when it
      is not a replay denial whose timestamp names no hour, under a grant with conditions. */
  lemma ObservationForetellsButForTheHour(f: Facts)
    requires Loaded(f) && Plain(f) && f.meta.Mapping? && !ValidatorRaises(f, LiveSchema(f))
    ensures Foretells(f) <==> !(f.replayDenies && ConditionsOf(f) != [] && HourFound(f).None?)
  {
    ObservationForetellsExactlyWhen(f);
  }

  const OWN_ID := Condition("identity.id == 'agent'",
    Compare(Attribute(Name("identity"), "id"), [Link(Eq, Constant(Some(AttrValue.Text("agent"))))]), {"identity.id"})

  const ONE_CONDITION := Policy.PolicyFile(1, ["files"], [
    Policy.Identity("agent", false, None, None, false, false,
      [Policy.ServerGrant("files", {"read"}, {}, [OWN_ID])], map[])])

  /** A bearer call stamped in milliseconds, under a grant with one condition. */
  function MillisecondCall(window: real, now: real, hourNow: int, nonce: string): Facts {
    var stamp := Clocked.Field.Number(1700000000000.0);
    var denied := Clocked.Judge(window, (s: string) => true, map[], Clocked.Call(now, Clocked.Field.Text(nonce), stamp)).Some?;
    Facts(Mapping, denied, ONE_CONDITION, "agent", "files", "read", stamp, hourNow, Some(false), None, None,
          Some(Risk(0, [])), Some(map["read" := Obj(map[])]), None, (schema: Json) => Some(true))
  }

  lemma MillisecondGrant(f: Facts)
    requires f.policy == ONE_CONDITION && f.identity == "agent" && f.server == "files" && f.tool == "read"
    ensures ConditionsOf(f) == [OWN_ID] && Loaded(f)
  {
    var one := ONE_CONDITION.identities[0];
    assert ONE_CONDITION.identities == [one];
    assert [one][..0] == [];
    assert Policy.IdentityOf(ONE_CONDITION.identities, "agent") == Some(one);
    assert one.allowedServers[0].serverId == "files" && "read" in one.allowedServers[0].allowedTools;
    assert Policy.MatchingGrant(one.allowedServers, "files", "read") == Some(one.allowedServers[0]);
    var tree := OWN_ID.tree;
    assert Path("identity", "id") == "identity.id";
    assert forall p :: Occurs(p, tree) <==> p == "identity.id";
  }

  /** At this input enforcement answers with a replay denial, while observation raises and
      records nothing. */
  lemma MillisecondCallIsLost(window: real, now: real, hourNow: int, nonce: string)
    requires 0.0 <= window && now + window < 1700000000000.0
    ensures
      var f := MillisecondCall(window, now, hourNow, nonce);
      && Loaded(f) && Plain(f)
      && LiveDecision(f, Enforce) == Some(Denial(DenyReplay, ReplayRule, None))
      && LiveDecision(f, Observe).None?
      && !Foretells(f)
  {
    var f := MillisecondCall(window, now, hourNow, nonce);
    MillisecondGrant(f);
    assert HourFound(f).None?;
  }

  lemma {:induction false} NoneFailing(conditions: seq<Condition>, attrs: Attributes)
    requires forall c :: c in conditions ==> Compiled(c)
    ensures FirstFailing(conditions, attrs).None? <==> forall c :: c in conditions ==> Satisfied(c, attrs)
  {
    if conditions != [] {
      NoneFailing(conditions[1..], attrs);
      assert conditions[0] in conditions;
      assert forall c :: c in conditions ==> c == conditions[0] || c in conditions[1..];
    }
  }

  /** Only a call that every stage passes is allowed. */
  lemma AllowedPassesEveryStage(f: Facts)
    requires Loaded(f)
    ensures LiveDecision(f, Enforce).Some? && LiveDecision(f, Enforce).value.outcome == Allow <==> LiveVerdict(f, Enforce).Pass?
  {
    hide Loaded, GrantOf, ConditionsOf, HourFound, AttributesRaise, AbacStage, ScoredStages, RiskFound, LiveSchema, Signed;
  }

  /** Without ids, a call is let through live exactly when: it is no replay, `meta` is an
      object, the policy grants it, every condition of the grant holds in one pass with the
      score bound and the hour known, its schema has not drifted, its score is below the
      challenge band, and its arguments fit a schema that is cached or can be fetched. */
  lemma AllowedExactlyWhen(f: Facts)
    requires Loaded(f) && Plain(f)
    ensures LiveDecision(f, Enforce).Some? && LiveDecision(f, Enforce).value.outcome == Allow <==>
      && !f.replayDenies && f.meta.Mapping?
      && GrantOf(f).Some?
      && (ConditionsOf(f) != [] ==> HourFound(f).Some?)
      && (forall c :: c in ConditionsOf(f) ==> Satisfied(c, Scored(AttributesOf(f), RiskFound(f))))
      && f.driftBlocked == Some(false)
      && RiskFound(f).score < 40
      && FitsSomeSchema(f)
  {
    AllowedPassesEveryStage(f);
    var conditions, attrs, risk := ConditionsOf(f), AttributesOf(f), RiskFound(f);
    SelectKeeps(conditions, false);
    SelectKeeps(conditions, true);
    NoneFailing(Select(conditions, false), attrs);
    NoneFailing(Select(conditions, true), Scored(attrs, risk));
    TwoPhasesEqualOnePass(conditions, attrs, AttrValue.Number(risk.score as real));
  }

  /** What cannot be found out is held against the call: a crashed score, an unreadable drift
      status or an unavailable schema never lets it through, in either mode, except that a
      redeemed approval needs no score. */
  lemma FailsClosed(f: Facts, mode: Mode)
    requires Loaded(f) && LiveDecision(f, mode).Some?
    ensures
      var d := LiveDecision(f, mode).value;
      && (f.replayDenies || f.driftBlocked.None? ==> d.outcome == Deny)
      && (f.scored.None? && !Redeeming(f, mode) ==> d.outcome == Deny)
      && (f.scored.None? && d.risk.Some? ==> d.risk.value == Risk(100, [Factor("risk_engine_unavailable", 100)]))
      && (LiveSchema(f).None? ==> d.outcome != Allow)
  {
    hide Loaded, GrantOf, ConditionsOf, HourFound, AttributesRaise, AbacStage, LiveSchema, Signed, Scored;
    match mode
    case Enforce =>
    case Observe =>
  }

  /** A score on a decision is the score found; observation always has it, and enforcement
      has it on every decision from scoring on, unless an approval stood in for it. */
  lemma ScoreIsKept(f: Facts, mode: Mode)
    requires Loaded(f) && LiveDecision(f, mode).Some?
    ensures
      var d := LiveDecision(f, mode).value;
      && (d.risk.Some? ==> d.risk == Some(RiskFound(f)) && (f.scored.Some? ==> d.risk == f.scored) && !Redeeming(f, mode))
      && (mode.Observe? ==> d.risk.Some?)
      && (!Redeeming(f, mode) && d.event in {Allowed, Challenged, ApprovalRequired, DenyRisk, DenyValidation} ==> d.risk.Some?)
  {
    hide Loaded, GrantOf, ConditionsOf, HourFound, AttributesRaise, AbacStage, LiveSchema, Signed, Scored;
    match mode
    case Enforce =>
    case Observe =>
  }

  /** Nor does the dry run let it through. */
  lemma DryRunFailsClosed(f: Facts, mode: Mode)
    requires Loaded(f) && DryDecision(f, mode).Some?
    ensures
      var d := DryDecision(f, mode).value;
      && (f.driftBlocked.None? || f.scored.None? ==> d.outcome == Deny)
      && (f.scored.None? && d.risk.Some? ==> d.risk.value.score == 100)
      && (f.cached.None? ==> d.outcome != Allow)
  {
    hide Loaded, GrantOf, ConditionsOf, HourFound, AbacStage, Scored;
    match mode
    case Enforce =>
    case Observe =>
  }

  /** What the event and the rule of a decision say is so. `named` is the condition that a
      denial by condition names. */
  ghost predicate TrueOf(f: Facts, d: Decision, schema: Option<Json>, named: string)
    requires Loaded(f)
  {
    match d.event
    case Allowed => d.rules == [RbacRule(f.policy.version)] && GrantOf(f).Some?
    case DenyReplay => d.rules == [ReplayRule] && f.replayDenies
    case DenyRbac => d.rules == [RbacRule(f.policy.version)] && GrantOf(f).None?
    case DenyAbac => d.rules == [AbacRule(f.policy.version, named)] && UnsatisfiedNamed(f, named)
    case DenyDrift => d.rules == [DriftRule] && f.driftBlocked != Some(false)
    case DenyStepUp => d.rules == [StepUpRule] && f.challenge == Some(false)
    case Challenged => d.rules == [RiskRule] && 40 <= RiskFound(f).score < 70
    case ApprovalRequired => d.rules == [RiskRule] && 70 <= RiskFound(f).score <= 90
    case DenyRisk => d.rules == [RiskRule] && RiskFound(f).score > 90
    case DenyValidation =>
      d.rules == [ValidatorRule] && (schema.None? || f.fits(schema.value) == Some(false))
    case _ => false
  }

  /** A condition of the grant with that source is not satisfied. */
  ghost predicate UnsatisfiedNamed(f: Facts, source: string)
    requires Loaded(f)
  {
    exists c :: c in ConditionsOf(f) && c.source == source
      && !Satisfied(c, if ReferencesRisk(c) then Scored(AttributesOf(f), RiskFound(f)) else AttributesOf(f))
  }

  lemma AbacStageNames(f: Facts, risky: bool, attrs: Attributes, risk: Option<Risk>)
    requires Loaded(f) && AbacStage(f, risky, attrs, risk).Stop?
    requires attrs == if risky then Scored(AttributesOf(f), RiskFound(f)) else AttributesOf(f)
    ensures exists named ::
      AbacStage(f, risky, attrs, risk).decision == Denial(DenyAbac, AbacRule(f.policy.version, named), risk) && UnsatisfiedNamed(f, named)
  {
    SelectKeeps(ConditionsOf(f), risky);
    var failing := FirstFailing(Select(ConditionsOf(f), risky), attrs).value;
    assert failing in ConditionsOf(f) && ReferencesRisk(failing) == risky;
    assert UnsatisfiedNamed(f, failing.source);
  }

  /** What the decision says is so, or it is the refusal of an approval. */
  ghost predicate Reasoned(f: Facts, d: Decision, schema: Option<Json>)
    requires Loaded(f)
  {
    (d.rules == [ApprovalRule] && f.approval == Some(Some(d.event))) || exists named :: TrueOf(f, d, schema, named)
  }

  lemma ScoredIsReasoned(f: Facts, verified: bool, schema: Option<Json>)
    requires Loaded(f) && ScoredStages(f, verified).Stop?
    ensures Reasoned(f, ScoredStages(f, verified).decision, schema)
  {
    hide Loaded, UnsatisfiedNamed, AttributesOf, GrantOf, ConditionsOf;
    var risk, attrs := RiskFound(f), Scored(AttributesOf(f), RiskFound(f));
    if AbacStage(f, true, attrs, Some(risk)).Stop? {
      AbacStageNames(f, true, attrs, Some(risk));
      var named :| AbacStage(f, true, attrs, Some(risk)).decision == Denial(DenyAbac, AbacRule(f.policy.version, named), Some(risk))
        && UnsatisfiedNamed(f, named);
      assert TrueOf(f, ScoredStages(f, verified).decision, schema, named);
    } else {
      assert TrueOf(f, ScoredStages(f, verified).decision, schema, "");
    }
  }

  /** A stage that stops the call gives a reason. */
  ghost predicate Gives(f: Facts, v: Stage, schema: Option<Json>)
    requires Loaded(f)
  {
    v.Stop? ==> Reasoned(f, v.decision, schema)
  }

  lemma JoinGives(f: Facts, mode: Mode, a: Stage, b: Stage, schema: Option<Json>)
    requires Loaded(f) && Gives(f, a, schema) && Gives(f, b, schema)
    ensures Gives(f, Join(mode, a, b), schema)
  {
    hide Loaded, Reasoned;
  }

  lemma SimpleStageGives(f: Facts, v: Stage, schema: Option<Json>)
    requires Loaded(f) && (v.Stop? ==> TrueOf(f, v.decision, schema, ""))
    ensures Gives(f, v, schema)
  {
    hide Loaded, TrueOf;
  }

  lemma EarlyIsReasoned(f: Facts, mode: Mode, schema: Option<Json>)
    requires Loaded(f)
    ensures Gives(f, EarlyLive(f, mode), schema)
  {
    SimpleStageGives(f, ReplayStage(f), schema);
    SimpleStageGives(f, RbacStage(f), schema);
    SimpleStageGives(f, DriftStage(f), schema);
    LiveAbacGives(f, schema);
    hide Loaded, Gives, Join, ReplayStage, RbacStage, DriftStage, LiveAbacStage;
    var third := Join(mode, LiveAbacStage(f), DriftStage(f));
    JoinGives(f, mode, LiveAbacStage(f), DriftStage(f), schema);
    JoinGives(f, mode, RbacStage(f), third, schema);
    JoinGives(f, mode, ReplayStage(f), Join(mode, RbacStage(f), third), schema);
  }

  lemma LiveAbacGives(f: Facts, schema: Option<Json>)
    requires Loaded(f)
    ensures Gives(f, LiveAbacStage(f), schema)
  {
    hide AttributesRaise, AbacStage, UnsatisfiedNamed, AttributesOf, ConditionsOf, Loaded;
    if LiveAbacStage(f).Stop? {
      AbacStageNames(f, false, AttributesOf(f), None);
      var named :| AbacStage(f, false, AttributesOf(f), None).decision == Denial(DenyAbac, AbacRule(f.policy.version, named), None)
        && UnsatisfiedNamed(f, named);
      assert TrueOf(f, LiveAbacStage(f).decision, schema, named);
    }
  }

  lemma ScoreOrApprovalGives(f: Facts, mode: Mode, schema: Option<Json>)
    requires Loaded(f)
    ensures Gives(f, ScoreOrApproval(f, mode), schema)
  {
    if !Redeeming(f, mode) && ScoredStages(f, Verified(f, mode)).Stop? {
      ScoredIsReasoned(f, Verified(f, mode), schema);
    }
    hide ScoredStages, Loaded, TrueOf;
  }

  /** Every decision gives a reason that is so: what its event says of the call holds, and it
      names the rule of that event; the refusal of an approval names its own rule. */
  lemma DecisionsAreTrue(f: Facts, mode: Mode)
    requires Loaded(f) && LiveDecision(f, mode).Some?
    ensures Reasoned(f, LiveDecision(f, mode).value, LiveSchema(f))
  {
    var schema, risk, v := LiveSchema(f), LiveRisk(f, mode), LiveVerdict(f, mode);
    if v.Pass? {
      PassedIsGranted(f, mode);
      assert TrueOf(f, AllowedBy(f, risk), schema, "");
    } else {
      VerdictGives(f, mode);
      hide Loaded, LiveVerdict, Reasoned;
      ScoreLeavesReason(f, v.decision, risk, schema);
    }
  }

  lemma VerdictGives(f: Facts, mode: Mode)
    requires Loaded(f)
    ensures Gives(f, LiveVerdict(f, mode), LiveSchema(f))
  {
    var schema, risk := LiveSchema(f), LiveRisk(f, mode);
    SimpleStageGives(f, StepUpStage(f, mode), schema);
    SimpleStageGives(f, ValidationStage(f, schema, risk), schema);
    EarlyIsReasoned(f, mode, schema);
    ScoreOrApprovalGives(f, mode, schema);
    hide Loaded, Gives, Join, StepUpStage, ValidationStage, EarlyLive, ScoredStages;
    var fourth := Join(mode, ScoreOrApproval(f, mode), ValidationStage(f, schema, risk));
    JoinGives(f, mode, ScoreOrApproval(f, mode), ValidationStage(f, schema, risk), schema);
    JoinGives(f, mode, StepUpStage(f, mode), fourth, schema);
    JoinGives(f, mode, EarlyLive(f, mode), Join(mode, StepUpStage(f, mode), fourth), schema);
  }

  lemma ScoreLeavesReason(f: Facts, d: Decision, risk: Option<Risk>, schema: Option<Json>)
    requires Loaded(f) && Reasoned(f, d, schema)
    ensures Reasoned(f, d.(risk := risk), schema)
  {
    hide Loaded, GrantOf, UnsatisfiedNamed, RiskFound;
    if named :| TrueOf(f, d, schema, named) {
      assert TrueOf(f, d.(risk := risk), schema, named);
    }
  }

  lemma PassedIsGranted(f: Facts, mode: Mode)
    requires Loaded(f) && LiveVerdict(f, mode).Pass?
    ensures GrantOf(f).Some?
  {
    hide Loaded, LiveAbacStage, ScoredStages, ValidationStage, ReplayStage, LiveSchema;
  }

  // ----- what a condition's paths stand for -----

  /** What the paths of the call are bound to, whatever attributes the identity has. */
  lemma CallBindings(f: Facts)
    ensures
      var attrs := AttributesOf(f);
      && "tool.name" in attrs && attrs["tool.name"] == AttrValue.Text(f.tool)
      && "tool.server_id" in attrs && attrs["tool.server_id"] == AttrValue.Text(f.server)
      && ("context.hour" in attrs <==> HourFound(f).Some?)
      && (HourFound(f).Some? ==> attrs["context.hour"] == AttrValue.Number(HourFound(f).value as real))
  {
    hide HourFound;
    PrefixedIs(OwnAttributes(f));
    assert "tool.name"[0] == 't' && "tool.server_id"[0] == 't' && "context.hour"[0] == 'c' && "identity.id"[0] == 'i';
    assert |"tool.name"| == 9 && |"tool.server_id"| == 14;
  }

  /** An attribute of the identity stands for `identity.` and its key, even if that is id. */
  lemma OwnBindings(f: Facts, k: string)
    ensures
      var attrs, own, path := AttributesOf(f), OwnAttributes(f), "identity." + k;
      && (path in attrs <==> k in own || k == "id")
      && (k in own ==> attrs[path] == own[k])
      && (k == "id" && k !in own ==> attrs[path] == AttrValue.Text(f.identity))
  {
    hide HourFound, CallAttributes, OwnAttributes, Prefixed;
    var own, path := OwnAttributes(f), IDENTITY + k;
    PrefixedIs(own);
    assert path[|IDENTITY|..] == k && path[0] == 'i' && "context.hour"[0] == 'c';
    assert path in Prefixed(own) <==> k in own;
    OnlyTheIdIsTheCallers(f, k);
  }

  lemma OnlyTheIdIsTheCallers(f: Facts, k: string)
    ensures IDENTITY + k in CallAttributes(f) <==> k == "id"
    ensures k == "id" ==> CallAttributes(f)[IDENTITY + k] == AttrValue.Text(f.identity)
  {
    var path := IDENTITY + k;
    assert path[0] == 'i' && "tool.name"[0] == 't' && "tool.server_id"[0] == 't';
    assert path[|IDENTITY|..] == k && "identity.id"[|IDENTITY|..] == "id" && "identity.id" == IDENTITY + "id";
  }

  lemma PrefixedIs(own: Attributes)
    ensures forall k :: k in own ==> IDENTITY + k in Prefixed(own) && Prefixed(own)[IDENTITY + k] == own[k]
    ensures forall p :: p in Prefixed(own) ==> IDENTITY <= p && p[|IDENTITY|..] in own
  {
    assert forall k :: k in own ==> (IDENTITY + k)[|IDENTITY|..] == k;
  }

  /** A condition `tool.name == x` asks for the tool called, one on `tool.server_id` for its
      server, and one on `context.hour` for the hour of the call. */
  lemma CallPathsMean(f: Facts, source: string, x: string, y: AttrValue)
    ensures
      var attrs := AttributesOf(f);
      && (Satisfied(PathIs(source, "tool", "name", AttrValue.Text(x)), attrs) <==> f.tool == x)
      && (Satisfied(PathIs(source, "tool", "server_id", AttrValue.Text(x)), attrs) <==> f.server == x)
      && (!f.timestamp.Number? && !f.timestamp.NotANumber? && !f.timestamp.Infinite? ==> HourFound(f) == Some(f.hourNow))
      && (Satisfied(PathIs(source, "context", "hour", y), attrs) <==>
            HourFound(f).Some? && CompareValues(Eq, AttrValue.Number(HourFound(f).value as real), y) == Holds)
  {
    hide Satisfied, CompareValues, AttributesOf, HourAt, PathIs;
    var attrs := AttributesOf(f);
    CallBindings(f);
    assert Path("tool", "name") == "tool.name" && Path("tool", "server_id") == "tool.server_id";
    assert Path("context", "hour") == "context.hour";
    PathIsMeans(source, "tool", "name", AttrValue.Text(x), attrs);
    PathIsMeans(source, "tool", "server_id", AttrValue.Text(x), attrs);
    PathIsMeans(source, "context", "hour", y, attrs);
    ComparisonMeans(AttrValue.Text(f.tool), AttrValue.Text(x));
    ComparisonMeans(AttrValue.Text(f.server), AttrValue.Text(x));
  }

  /** A condition on `identity.k` asks for the policy's attribute k of the caller; one on
      `identity.id` for the caller itself, unless the policy gives it an attribute id. */
  lemma CallerPathsMean(f: Facts, source: string, k: string, y: AttrValue)
    ensures
      var own := OwnAttributes(f);
      Satisfied(PathIs(source, "identity", k, y), AttributesOf(f)) <==>
        if k in own then CompareValues(Eq, own[k], y) == Holds else k == "id" && y == AttrValue.Text(f.identity)
  {
    hide Satisfied, CompareValues, AttributesOf, OwnAttributes, PathIs;
    OwnBindings(f, k);
    assert Path("identity", k) == "identity." + k;
    PathIsMeans(source, "identity", k, y, AttributesOf(f));
    ComparisonMeans(AttrValue.Text(f.identity), y);
    if y.Flag? {
      ComparisonMeans(AttrValue.Text(f.identity), AttrValue.Number(0.0));
    }
  }

  /** A condition on `risk.score` is never satisfied before the score exists, and then asks
      for the score. */
  lemma ScorePathMeans(f: Facts, source: string, risk: Risk, y: AttrValue)
    ensures
      var c := PathIs(source, "risk", "score", y);
      && ReferencesRisk(c) && !Satisfied(c, AttributesOf(f))
      && (Satisfied(c, Scored(AttributesOf(f), risk)) <==>
            CompareValues(Eq, AttrValue.Number(risk.score as real), y) == Holds)
  {
    hide HourFound, CompareValues, AttributesOf, Satisfied;
    assert Path("risk", "score") == "risk.score" && "risk." <= "risk.score";
    assert "risk.score" in PathIs(source, "risk", "score", y).paths;
    NoScoreYet(f);
    PathIsMeans(source, "risk", "score", y, AttributesOf(f));
    PathIsMeans(source, "risk", "score", y, Scored(AttributesOf(f), risk));
  }

  lemma NoScoreYet(f: Facts)
    ensures "risk.score" !in AttributesOf(f)
  {
    hide HourFound, OwnAttributes, Prefixed;
    PrefixedIs(OwnAttributes(f));
    assert "risk.score"[0] == 'r' && "tool.name"[0] == 't' && "tool.server_id"[0] == 't' && "context.hour"[0] == 'c'
        && "identity.id"[0] == 'i';
  }

  /** The hour of day of a timestamp, in UTC. */
  lemma HourAtMeans(t: real, h: int)
    ensures HourAt(t) == Some(h) <==>
      && -62135596800.0 <= t < 253402300800.0 && 0 <= h < 24
      && exists day: int :: (86400 * day + 3600 * h) as real <= t < (86400 * day + 3600 * (h + 1)) as real
  {
    var n := t.Floor;
    var day := n / 86400;
    assert n == 86400 * day + n % 86400;
    if HourAt(t) == Some(h) {
      assert (86400 * day + 3600 * h) as real <= t < (86400 * day + 3600 * (h + 1)) as real;
    }
    if d: int :| (86400 * d + 3600 * h) as real <= t < (86400 * d + 3600 * (h + 1)) as real && 0 <= h < 24 {
      assert 86400 * d + 3600 * h <= n < 86400 * d + 3600 * (h + 1);
      assert d == day;
    }
  }

  /** A grant restricted to one tool by its only condition lets exactly that tool through,
      of the calls that nothing else stops. */
  lemma RestrictedGrantAllowsExactly(f: Facts, source: string, x: string)
    requires Loaded(f) && Plain(f) && ConditionsOf(f) == [PathIs(source, "tool", "name", AttrValue.Text(x))]
    ensures LiveDecision(f, Enforce).Some? && LiveDecision(f, Enforce).value.outcome == Allow <==>
      && f.tool == x
      && !f.replayDenies && f.meta.Mapping? && HourFound(f).Some? && f.driftBlocked == Some(false) && RiskFound(f).score < 40
      && FitsSomeSchema(f)
  {
    hide Satisfied, AttributesOf, LiveDecision, HourFound, LiveSchema, PathIs, ReferencesRisk;
    var c, score := PathIs(source, "tool", "name", AttrValue.Text(x)), AttrValue.Number(RiskFound(f).score as real);
    AllowedExactlyWhen(f);
    CallPathsMean(f, source, x, AttrValue.Flag(true));
    NameNeedsNoScore(source, x);
    TwoPhasesEqualOnePass([c], AttributesOf(f), score);
    assert forall d :: d in [c] <==> d == c;
  }

  lemma NameNeedsNoScore(source: string, x: string)
    ensures !ReferencesRisk(PathIs(source, "tool", "name", AttrValue.Text(x)))
  {
    var c := PathIs(source, "tool", "name", AttrValue.Text(x));
    assert Path("tool", "name") == "tool.name" && c.paths == {"tool.name"};
    assert "tool.name"[0] == 't' && "risk."[0] == 'r';
  }

  /** A good proof clears the challenge band and nothing else; a redeemed approval stands in
      for the score, and for nothing else. */
  lemma RedemptionsClearOnlyTheirStage(f: Facts)
    requires Loaded(f) && LiveDecision(f, Enforce).Some? && LiveDecision(f, Enforce).value.outcome == Allow
    ensures !f.replayDenies && f.meta.Mapping? && GrantOf(f).Some? && f.driftBlocked == Some(false)
    ensures ConditionsOf(f) != [] ==> HourFound(f).Some?
    ensures forall c :: c in ConditionsOf(f) && !ReferencesRisk(c) ==> Satisfied(c, AttributesOf(f))
    ensures FitsSomeSchema(f)
    ensures f.challenge != Some(false)
    ensures f.approval.Some? ==> f.approval.value.None?
    ensures f.approval.None? ==>
      && (forall c :: c in ConditionsOf(f) && ReferencesRisk(c) ==> Satisfied(c, Scored(AttributesOf(f), RiskFound(f))))
      && RiskFound(f).score < (if f.challenge == Some(true) then APPROVAL_MIN else CHALLENGE_MIN)
  {
    AllowedPassesEveryStage(f);
    var conditions, attrs, risk := ConditionsOf(f), AttributesOf(f), RiskFound(f);
    SelectKeeps(conditions, false);
    SelectKeeps(conditions, true);
    NoneFailing(Select(conditions, false), attrs);
    NoneFailing(Select(conditions, true), Scored(attrs, risk));
  }

  /** The outcome that a stored row's event type stands for. */
  function OutcomeOf(e: Event): Outcome {
    match e
    case Allowed => Allow
    case Challenged => Challenge
    case ApprovalRequired => HumanApproval
    case _ => Deny
  }

  /** Every live decision can be read back off its row: the event decides the outcome. */
  lemma EventTellsOutcome(f: Facts, mode: Mode)
    requires Loaded(f) && LiveDecision(f, mode).Some?
    requires f.approval.Some? && f.approval.value.Some? ==> f.approval.value.value in {DenyApprovalMismatch, DenyReplay, ApprovalExpired}
    ensures OutcomeOf(LiveDecision(f, mode).value.event) == LiveDecision(f, mode).value.outcome
  {
    hide Loaded, GrantOf, ConditionsOf, HourFound, AttributesRaise, AbacStage, ScoredStages, RiskFound, LiveSchema, Signed;
  }
}
