/**
 * The pre-tool-use hook: before an agent's tool call runs, fetch the relevant rules,
 * run the boundary, cross-reference and context-pressure validators, and either allow
 * the call or block it with the reason and rule of the first validator that blocked.
 *
 * The rule database, the boundary and conflict predicates, the pressure calculation and
 * the input sanitiser are collaborators without bodies in the source; they are the
 * function fields of `Collaborators`, about which nothing is assumed. The audit write on
 * the block path is an append to an audit log that is passed in and handed back.
 */
module PreToolUseValidator {
  import opened Wrappers
  import opened JsValues
  import Seqs

  type ToolInput = map<string, Value>
  type HookContext = map<string, Value>

  /** A governance rule as the rule database returns it. */
  datatype Rule = Rule(id: string, text: string, quadrant: string, verificationRequired: string)

  /** The criteria object handed to `queryRules`. */
  datatype RuleQuery = RuleQuery(tool: string, persistence: string, active: bool, context: HookContext)

  /** What `calculatePressure` returns. */
  datatype Pressure = Pressure(level: string, score: real)

  /** The collaborators the hook calls and does not define. */
  datatype Collaborators = Collaborators(
    queryRules: RuleQuery -> seq<Rule>,
    crossesBoundary: (ToolInput, Rule) -> bool,
    conflictsWithRule: (ToolInput, Rule) -> bool,
    calculatePressure: HookContext -> Pressure,
    sanitize: ToolInput -> ToolInput)

  /** A validator's verdict: `{blocked: false}` or `{blocked: true, reason, rule_id}`. */
  datatype Validation = Pass | Block(reason: string, ruleId: string)

  /** The hook's answer: `{allowed: true}` or `{allowed: false, reason, rule_violated}`. */
  datatype Decision = Allowed | Denied(reason: string, ruleViolated: string)

  /** The object the hook hands to the audit log when it blocks a call. */
  datatype BlockRecord = BlockRecord(
    timestamp: int, decision: string, tool: string, input: ToolInput, reason: string, ruleId: string)

  /** The hook's decision together with the audit log as it stands after the call. */
  datatype HookOutcome = HookOutcome(decision: Decision, auditLog: seq<BlockRecord>)

  const BoundaryQuadrant := "VALUES"
  const MandatoryVerification := "MANDATORY"
  const CriticalLevel := "CRITICAL"
  const PressureRuleId := "PRESSURE_CRITICAL"
  const PressureReason := "Context pressure CRITICAL - action deferred"
  const BlockedDecision := "BLOCKED"

  /** The criteria the hook asks the rule database for. */
  function RuleCriteria(toolName: string, context: HookContext): RuleQuery
  {
    RuleQuery(toolName, "HIGH", true, context)
  }

  predicate IsBoundaryRule(r: Rule)
  {
    r.quadrant == BoundaryQuadrant
  }

  predicate IsMandatoryRule(r: Rule)
  {
    r.verificationRequired == MandatoryVerification
  }

  /** Rule `rules[i]` is the first rule of the list that is a boundary rule and is crossed. */
  ghost predicate FirstCrossedBoundary(
    toolInput: ToolInput, rules: seq<Rule>, crossesBoundary: (ToolInput, Rule) -> bool, i: int)
  {
    && 0 <= i < |rules|
    && IsBoundaryRule(rules[i]) && crossesBoundary(toolInput, rules[i])
    && forall j :: 0 <= j < i ==> !(IsBoundaryRule(rules[j]) && crossesBoundary(toolInput, rules[j]))
  }

  /** Rule `rules[i]` is the first rule of the list that is mandatory and conflicts with the input. */
  ghost predicate FirstConflictingMandatory(
    toolInput: ToolInput, rules: seq<Rule>, conflictsWithRule: (ToolInput, Rule) -> bool, i: int)
  {
    && 0 <= i < |rules|
    && IsMandatoryRule(rules[i]) && conflictsWithRule(toolInput, rules[i])
    && forall j :: 0 <= j < i ==> !(IsMandatoryRule(rules[j]) && conflictsWithRule(toolInput, rules[j]))
  }

  /**
   * Boundary check: among the rules of quadrant VALUES, block on the first one the
   * input crosses.
   */
  function ValidateBoundaries(
    toolInput: ToolInput, rules: seq<Rule>, crossesBoundary: (ToolInput, Rule) -> bool): (v: Validation)
    ensures v.Block? <==>
      exists i :: 0 <= i < |rules| && IsBoundaryRule(rules[i]) && crossesBoundary(toolInput, rules[i])
    ensures v.Block? ==> exists i ::
      && FirstCrossedBoundary(toolInput, rules, crossesBoundary, i)
      && v == Block("Action violates boundary: " + rules[i].text, rules[i].id)
  {
    var boundaryRules := Seqs.Filter(rules, IsBoundaryRule);
    var crosses := (r: Rule) => crossesBoundary(toolInput, r);
    Seqs.FindAfterFilter(rules, IsBoundaryRule, crosses);
    match Seqs.Find(boundaryRules, crosses)
    case None => Pass
    case Some(rule) => Block("Action violates boundary: " + rule.text, rule.id)
  }

  /**
   * Cross-reference check: among the rules whose verification is MANDATORY, block on
   * the first one the input conflicts with.
   */
  function ValidateCrossReferences(
    toolInput: ToolInput, rules: seq<Rule>, conflictsWithRule: (ToolInput, Rule) -> bool): (v: Validation)
    ensures v.Block? <==>
      exists i :: 0 <= i < |rules| && IsMandatoryRule(rules[i]) && conflictsWithRule(toolInput, rules[i])
    ensures v.Block? ==> exists i ::
      && FirstConflictingMandatory(toolInput, rules, conflictsWithRule, i)
      && v == Block("Action conflicts with mandatory rule: " + rules[i].id, rules[i].id)
  {
    var mandatoryRules := Seqs.Filter(rules, IsMandatoryRule);
    var conflicts := (r: Rule) => conflictsWithRule(toolInput, r);
    Seqs.FindAfterFilter(rules, IsMandatoryRule, conflicts);
    match Seqs.Find(mandatoryRules, conflicts)
    case None => Pass
    case Some(rule) => Block("Action conflicts with mandatory rule: " + rule.id, rule.id)
  }

  /** Pressure gate: block when the pressure level is CRITICAL and `user_override` is falsy. */
  function ValidateContextPressure(context: HookContext, calculatePressure: HookContext -> Pressure): (v: Validation)
    ensures v.Block? <==>
      calculatePressure(context).level == CriticalLevel && !Truthy(Get(context, "user_override"))
    ensures v.Block? ==> v == Block(PressureReason, PressureRuleId)
  {
    var pressure := calculatePressure(context);
    if pressure.level == CriticalLevel && !Truthy(Get(context, "user_override")) then
      Block(PressureReason, PressureRuleId)
    else
      Pass
  }

  /** The three verdicts, in the order the hook lists them. */
  function Validations(toolInput: ToolInput, context: HookContext, rules: seq<Rule>, env: Collaborators): seq<Validation>
  {
    [ ValidateBoundaries(toolInput, rules, env.crossesBoundary),
      ValidateCrossReferences(toolInput, rules, env.conflictsWithRule),
      ValidateContextPressure(context, env.calculatePressure) ]
  }

  predicate Blocks(v: Validation)
  {
    v.Block?
  }

  /**
   * The hook: query the rules, collect the three verdicts, and report the first that
   * blocked; on that path only, append a "BLOCKED" record carrying the same reason and
   * rule to the audit log. `now` is the clock reading for the record's timestamp.
   */
  function PreToolUseHook(
    toolName: string, toolInput: ToolInput, context: HookContext, env: Collaborators,
    now: int, auditLog: seq<BlockRecord>): (out: HookOutcome)
    ensures out.decision.Allowed? ==> out.auditLog == auditLog
    ensures out.decision.Denied? ==> out.auditLog == auditLog + [BlockRecord(
      now, BlockedDecision, toolName, env.sanitize(toolInput),
      out.decision.reason, out.decision.ruleViolated)]
  {
    var relevantRules := env.queryRules(RuleCriteria(toolName, context));
    var validations := Validations(toolInput, context, relevantRules, env);
    match Seqs.Find(validations, Blocks)
    case None => HookOutcome(Allowed, auditLog)
    case Some(blocked) =>
      var record := BlockRecord(
        now, BlockedDecision, toolName, env.sanitize(toolInput), blocked.reason, blocked.ruleId);
      HookOutcome(Denied(blocked.reason, blocked.ruleId), auditLog + [record])
  }

  /** The decision named by the first blocked verdict of boundary, cross-reference, pressure. */
  function FirstBlock(boundary: Validation, crossReference: Validation, pressure: Validation): Decision
  {
    if boundary.Block? then Denied(boundary.reason, boundary.ruleId)
    else if crossReference.Block? then Denied(crossReference.reason, crossReference.ruleId)
    else if pressure.Block? then Denied(pressure.reason, pressure.ruleId)
    else Allowed
  }

  /**
   * The hook allows the call iff no validator blocked; otherwise it reports the reason
   * and rule of the first blocked verdict in the order boundary, cross-reference, pressure.
   */
  lemma HookReportsFirstBlock(
    toolName: string, toolInput: ToolInput, context: HookContext, env: Collaborators,
    now: int, auditLog: seq<BlockRecord>)
    ensures var rules := env.queryRules(RuleCriteria(toolName, context));
      PreToolUseHook(toolName, toolInput, context, env, now, auditLog).decision == FirstBlock(
        ValidateBoundaries(toolInput, rules, env.crossesBoundary),
        ValidateCrossReferences(toolInput, rules, env.conflictsWithRule),
        ValidateContextPressure(context, env.calculatePressure))
  {
    var rules := env.queryRules(RuleCriteria(toolName, context));
    var vs := Validations(toolInput, context, rules, env);
    assert vs[1..] == [vs[1], vs[2]] && vs[1..][1..] == [vs[2]] && vs[1..][1..][1..] == [];
  }

  /** Blocked exactly when some validator blocks. */
  lemma HookDeniesIffSomeValidatorBlocks(
    toolName: string, toolInput: ToolInput, context: HookContext, env: Collaborators,
    now: int, auditLog: seq<BlockRecord>)
    ensures var rules := env.queryRules(RuleCriteria(toolName, context));
      PreToolUseHook(toolName, toolInput, context, env, now, auditLog).decision.Denied? <==>
        || (exists i :: 0 <= i < |rules| && IsBoundaryRule(rules[i]) && env.crossesBoundary(toolInput, rules[i]))
        || (exists i :: 0 <= i < |rules| && IsMandatoryRule(rules[i]) && env.conflictsWithRule(toolInput, rules[i]))
        || (env.calculatePressure(context).level == CriticalLevel && !Truthy(Get(context, "user_override")))
  {
    HookReportsFirstBlock(toolName, toolInput, context, env, now, auditLog);
  }

  /** With no rules and a pressure level below CRITICAL, the call is allowed and nothing is logged. */
  lemma EmptyRulesBelowCriticalAllowed(
    toolName: string, toolInput: ToolInput, context: HookContext, env: Collaborators,
    now: int, auditLog: seq<BlockRecord>)
    requires env.queryRules(RuleCriteria(toolName, context)) == []
    requires env.calculatePressure(context).level != CriticalLevel
    ensures PreToolUseHook(toolName, toolInput, context, env, now, auditLog) == HookOutcome(Allowed, auditLog)
  {
    HookReportsFirstBlock(toolName, toolInput, context, env, now, auditLog);
  }

  /**
   * When the rule validators pass, the call is blocked by the pressure gate exactly when
   * the level is CRITICAL and no override is set, with the gate's own reason and rule.
   */
  lemma PressureGateDecides(
    toolName: string, toolInput: ToolInput, context: HookContext, env: Collaborators,
    now: int, auditLog: seq<BlockRecord>)
    requires var rules := env.queryRules(RuleCriteria(toolName, context));
      && ValidateBoundaries(toolInput, rules, env.crossesBoundary) == Pass
      && ValidateCrossReferences(toolInput, rules, env.conflictsWithRule) == Pass
    ensures var d := PreToolUseHook(toolName, toolInput, context, env, now, auditLog).decision;
      && (d.Denied? <==>
          env.calculatePressure(context).level == CriticalLevel && !Truthy(Get(context, "user_override")))
      && (d.Denied? ==> d == Denied(PressureReason, PressureRuleId))
  {
    HookReportsFirstBlock(toolName, toolInput, context, env, now, auditLog);
  }

  /**
   * `user_override` is read by the pressure gate only: for a fixed rule list, a boundary
   * or cross-reference block stands whatever value the override is given.
   */
  lemma OverrideNeverLiftsRuleBlock(
    toolInput: ToolInput, context: HookContext, rules: seq<Rule>, env: Collaborators, override: Value)
    requires || ValidateBoundaries(toolInput, rules, env.crossesBoundary).Block?
             || ValidateCrossReferences(toolInput, rules, env.conflictsWithRule).Block?
    ensures var overridden := context["user_override" := override];
      && Seqs.Find(Validations(toolInput, overridden, rules, env), Blocks).Some?
      && Seqs.Find(Validations(toolInput, overridden, rules, env), Blocks)
         == Seqs.Find(Validations(toolInput, context, rules, env), Blocks)
  {
    var overridden := context["user_override" := override];
    var a := Validations(toolInput, overridden, rules, env);
    var b := Validations(toolInput, context, rules, env);
    assert a[0] == b[0] && a[1] == b[1];
    assert a[1..] == [a[1], a[2]] && b[1..] == [b[1], b[2]];
  }

  /**
   * The same at the level of the hook: when the rule database answers the query with and
   * without the override alike, a call blocked by a rule stays denied, with the same
   * decision and the same audit record.
   */
  lemma OverrideNeverLiftsRuleBlockInHook(
    toolName: string, toolInput: ToolInput, context: HookContext, env: Collaborators,
    now: int, auditLog: seq<BlockRecord>, override: Value)
    requires env.queryRules(RuleCriteria(toolName, context["user_override" := override]))
          == env.queryRules(RuleCriteria(toolName, context))
    requires var rules := env.queryRules(RuleCriteria(toolName, context));
      || ValidateBoundaries(toolInput, rules, env.crossesBoundary).Block?
      || ValidateCrossReferences(toolInput, rules, env.conflictsWithRule).Block?
    ensures var overridden := context["user_override" := override];
      && PreToolUseHook(toolName, toolInput, overridden, env, now, auditLog).decision.Denied?
      && PreToolUseHook(toolName, toolInput, overridden, env, now, auditLog)
         == PreToolUseHook(toolName, toolInput, context, env, now, auditLog)
  {
    OverrideNeverLiftsRuleBlock(
      toolInput, context, env.queryRules(RuleCriteria(toolName, context)), env, override);
  }

  /**
   * Only the rules returned for tool = toolName, persistence = HIGH, active = true and
   * the caller's context matter: answering every other query differently changes nothing.
   */
  lemma HookUsesOnlyHighActiveRules(
    toolName: string, toolInput: ToolInput, context: HookContext, env: Collaborators,
    now: int, auditLog: seq<BlockRecord>, otherRules: RuleQuery -> seq<Rule>)
    ensures var only := (q: RuleQuery) =>
        if q == RuleQuery(toolName, "HIGH", true, context) then env.queryRules(q) else otherRules(q);
      PreToolUseHook(toolName, toolInput, context, env.(queryRules := only), now, auditLog)
        == PreToolUseHook(toolName, toolInput, context, env, now, auditLog)
  {
  }

  /** Boundary verdicts depend only on how the input relates to the rules of quadrant VALUES. */
  lemma BoundaryIgnoresOtherQuadrants(
    toolInput: ToolInput, rules: seq<Rule>, crosses1: (ToolInput, Rule) -> bool, crosses2: (ToolInput, Rule) -> bool)
    requires forall i :: 0 <= i < |rules| && IsBoundaryRule(rules[i]) ==>
      crosses1(toolInput, rules[i]) == crosses2(toolInput, rules[i])
    ensures ValidateBoundaries(toolInput, rules, crosses1) == ValidateBoundaries(toolInput, rules, crosses2)
  {
    var boundaryRules := Seqs.Filter(rules, IsBoundaryRule);
    Seqs.FindRespectsAgreement(boundaryRules, (r: Rule) => crosses1(toolInput, r), (r: Rule) => crosses2(toolInput, r));
  }

  /** Cross-reference verdicts depend only on how the input relates to the MANDATORY rules. */
  lemma CrossReferenceIgnoresOptionalRules(
    toolInput: ToolInput, rules: seq<Rule>, conflicts1: (ToolInput, Rule) -> bool, conflicts2: (ToolInput, Rule) -> bool)
    requires forall i :: 0 <= i < |rules| && IsMandatoryRule(rules[i]) ==>
      conflicts1(toolInput, rules[i]) == conflicts2(toolInput, rules[i])
    ensures ValidateCrossReferences(toolInput, rules, conflicts1) == ValidateCrossReferences(toolInput, rules, conflicts2)
  {
    var mandatoryRules := Seqs.Filter(rules, IsMandatoryRule);
    Seqs.FindRespectsAgreement(mandatoryRules, (r: Rule) => conflicts1(toolInput, r), (r: Rule) => conflicts2(toolInput, r));
  }
}
