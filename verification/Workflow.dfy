/**
 The incident-response workflow: eleven nodes, their edges, and three places where it waits for an
 external resume. Everything outside the process arrives as the input of a step.
 */
module Workflow {
  import opened Common
  import opened Registries
  import Evidence
  import Policy
  import Executor
  import Verify

  // ---- State ------------------------------------------------------------------------------------

  datatype Node =
    | Monitor | Analyze | Plan | PolicyGate | HumanApproval | ExecutionAuthorization | Execute
    | VerificationWait | VerifyResponse | Rollback | Knowledge | End

  datatype Stage =
    | InMonitor | InAnalyze | InPlan | InPolicyGate | InExecute | InVerify | InUpdateKnowledge | InRollback

  datatype Status =
    | Created | Queued | Running | WaitingApproval | WaitingVerification | Approved | Completed | Rejected
    | Escalated | Failed | Cancelled

  datatype Finding = Finding(assessed: Evidence.Diagnosis, evidenceIds: set<string>, sourceIp: string)

  /** The digest over incident, plan and evidence, taken to be collision-free. */
  datatype ApprovalId = ApprovalId(incidentId: string, planId: string, hash: PlanHash, version: Option<string>) | OtherId(text: string)

  datatype ApprovalRequest = ApprovalRequest(
    approvalId: ApprovalId, investigationId: string, incidentId: string, planId: string, planVersion: int,
    planHash: PlanHash, evidenceVersion: string, policyVersion: string, catalogueVersion: string,
    actionIds: seq<string>, requiredRole: Role, expiresAt: int)

  /** What an approver sends. */
  datatype Submission = Submission(approvalId: ApprovalId, approve: bool, actor: string, actorRoles: seq<Role>)

  datatype Grant = Grant(approvalId: ApprovalId, executionId: string, actionIds: seq<string>, actor: string, actorRoles: seq<Role>)

  datatype RollbackRecord = RollbackRecord(successful: bool, entries: seq<Executor.RollbackEntry>)

  datatype Incident = Incident(incidentId: string, investigationId: string, agentId: string)

  /** What Monitor collected. */
  datatype Facts = Facts(
    evidence: set<string>, evidenceVersion: Option<string>, collections: seq<Evidence.Collection>, truncated: bool)

  datatype Approval = Approval(request: Option<ApprovalRequest>, decision: Option<Submission>, grant: Option<Grant>)

  datatype Response = Response(
    results: seq<Executor.ExecutionResult>,
    notBefore: Option<int>,
    verification: Option<Verify.VerificationResult>,
    rollback: Option<RollbackRecord>)

  datatype State = State(
    node: Node,
    status: Status,
    stage: Stage,
    incident: Incident,
    facts: Facts,
    finding: Option<Finding>,
    plan: Option<RemediationPlan>,
    approval: Approval,
    response: Response,
    analysisAttempts: nat,
    planningAttempts: nat)

  datatype Settings = Settings(
    maxAnalysisAttempts: int,
    maxPlanningRetries: int,
    completenessThreshold: real,
    remediationThreshold: real,
    requireEvidence: bool,
    approvalTtlSeconds: int,
    observationSeconds: int,
    requireProbe: bool,
    policy: Policy.PolicySettings,
    execution: Executor.ExecutionSettings)

  function VerifySettingsOf(s: Settings): Verify.VerifySettings
  {
    Verify.VerifySettings(s.execution.dryRun, s.execution.realExecutionEnabled, s.observationSeconds, s.requireProbe)
  }

  /** What a step meets outside the process. */
  datatype Input =
    | Proceed
    | MonitorFailed
    | Monitored(evidence: set<string>, version: string, collections: seq<Evidence.Collection>, truncated: bool)
    | AnalyzerFailed
    | Analyzed(finding: Finding, threatBearing: bool)
    | PlannerFailed
    | NothingPlanned
    | Advised
    | Planned(plan: RemediationPlan, byModel: bool, canonicalType: string)
    | ApprovalPayload(submission: Option<Submission>)
    | GrantPayload(grant: Option<Grant>)
    | ExecutorRuns(durable: bool, snapshots: bool, numericAgent: bool, host: Executor.Host, turns: seq<Executor.Turn>)
    | WaitPayload(investigationId: Option<string>)
    | VerifierRuns(seen: Verify.Observed, page: Option<Verify.AlertPage>)
    | RollbackRuns(durable: bool, snapshots: bool, numericAgent: bool, host: Executor.Host, rollbackTurns: seq<Executor.RollbackTurn>)
    | RollbackRaises
    /** Somebody changes the stored state while the workflow waits. */
    | Replaced(newPlan: Option<RemediationPlan>, newVersion: Option<string>, newFinding: Option<Finding>)
    /** An analyst asks for more evidence after an escalation. */
    | MoreEvidence

  /** Settings and clock are read anew in every step. */
  datatype Event = Event(now: int, settings: Settings, input: Input)

  // ---- Routes -----------------------------------------------------------------------------------

  function AfterMonitor(s: State): Node { if s.status.Failed? then Knowledge else Analyze }

  function AfterAnalyze(s: State): Node
  {
    if s.stage.InPlan? then Plan else if s.stage.InMonitor? then Monitor else Knowledge
  }

  function AfterPlan(s: State): Node { if s.stage.InPolicyGate? then PolicyGate else Knowledge }

  function AfterPolicyGate(s: State): Node
  {
    if s.status.WaitingApproval? then HumanApproval
    else if s.status.Approved? then ExecutionAuthorization
    else Knowledge
  }

  function AfterHumanApproval(s: State): Node { if s.status.Approved? then ExecutionAuthorization else Knowledge }

  function AfterExecutionAuthorization(s: State): Node
  {
    if s.stage.InExecute? && s.approval.grant.Some? then Execute else Knowledge
  }

  function AfterExecute(s: State): Node
  {
    if s.status.Failed? then Rollback
    else if s.status.WaitingVerification? then VerificationWait
    else if s.stage.InVerify? then VerifyResponse
    else Knowledge
  }

  function AfterVerificationWait(s: State): Node
  {
    if s.status.WaitingVerification? then VerificationWait
    else if s.stage.InVerify? && s.status.Running? then VerifyResponse
    else if s.stage.InRollback? then Rollback
    else Knowledge
  }

  function AfterVerify(s: State): Node { if s.stage.InRollback? || s.status.Failed? then Rollback else Knowledge }

  // ---- Nodes ------------------------------------------------------------------------------------

  function Fail(s: State, stage: Stage): State { s.(stage := stage, status := Failed) }

  function MonitorNode(s: State, e: Event): Option<State>
  {
    match e.input
    case MonitorFailed => Some(Fail(s, InMonitor))
    case Monitored(evidence, version, collections, truncated) =>
      Some(s.(facts := Facts(evidence, Some(version), collections, truncated), stage := InAnalyze, status := Running))
    case _ => None
  }

  function AnalyzeNode(s: State, e: Event): Option<State>
  {
    if s.analysisAttempts >= e.settings.maxAnalysisAttempts then
      if e.input.Proceed? then Some(s.(stage := InAnalyze, status := Escalated)) else None
    else match e.input
      case AnalyzerFailed => Some(Fail(s, InAnalyze))
      case Analyzed(finding, threatBearing) =>
        var assessed := Evidence.AssessEvidence(finding.assessed, s.facts.collections, e.settings.completenessThreshold, s.facts.truncated, threatBearing);
        var attempts := s.analysisAttempts + 1;
        var inconclusive := assessed.confidence < e.settings.policy.confidenceThreshold || assessed.needsMoreEvidence;
        var recollect := inconclusive && attempts < e.settings.maxAnalysisAttempts;
        var escalated := inconclusive && !recollect;
        Some(s.(finding := Some(finding.(assessed := assessed)), analysisAttempts := attempts,
                stage := if recollect then InMonitor else if escalated then InAnalyze else InPlan,
                status := if escalated then Escalated else Running))
      case _ => None
  }

  /** The evidence behind the diagnosis does not support executable remediation. */
  predicate EvidenceWithheld(s: State, settings: Settings)
  {
    settings.requireEvidence && s.finding.Some?
    && !Evidence.RemediationAllowed(s.finding.value.assessed, settings.remediationThreshold, settings.completenessThreshold)
  }

  function PlanNode(s: State, e: Event): Option<State>
  {
    if s.planningAttempts > e.settings.maxPlanningRetries || EvidenceWithheld(s, e.settings) then
      if e.input.Proceed? then Some(s.(stage := InPlan, status := Escalated)) else None
    else match e.input
      case PlannerFailed => Some(s.(stage := InPlan, status := Escalated))
      case NothingPlanned => Some(Fail(s, InPlan))
      case Advised =>
        Some(s.(plan := None, planningAttempts := s.planningAttempts + 1, stage := InUpdateKnowledge, status := Escalated))
      case Planned(plan, byModel, canonicalType) =>
        var finding :=
          if byModel && s.finding.Some?
          then Some(s.finding.value.(assessed := s.finding.value.assessed.(incidentType := canonicalType)))
          else s.finding;
        Some(s.(plan := Some(plan), finding := finding, planningAttempts := s.planningAttempts + 1, stage := InPolicyGate))
      case _ => None
  }

  function CaseOf(s: State): Policy.Case
  {
    Policy.Case(s.incident.incidentId, s.facts.evidence, s.facts.evidenceVersion,
      if s.finding.None? then None
      else
        var f := s.finding.value;
        Some(Policy.Diagnosis(f.assessed.incidentType, f.assessed.confidence, f.evidenceIds, f.sourceIp)),
      s.plan)
  }

  function RequestFor(s: State, plan: RemediationPlan, hash: PlanHash, role: Role, e: Event): ApprovalRequest
  {
    ApprovalRequest(
      ApprovalId(s.incident.incidentId, plan.planId, hash, s.facts.evidenceVersion),
      s.incident.investigationId, s.incident.incidentId, plan.planId, plan.planVersion, hash,
      if s.facts.evidenceVersion.Some? then s.facts.evidenceVersion.value else "",
      plan.policyVersion, plan.catalogueVersion, ActionIds(plan.actions), role,
      Min(plan.expiresAt, e.now + e.settings.approvalTtlSeconds * SECOND))
  }

  /** A request over no actions cannot be formed: the node raises and there is no step. */
  function PolicyNode(books: Playbooks, s: State, e: Event): Option<State>
  {
    if !e.input.Proceed? then None
    else
      var decision := Policy.Decide(e.settings.policy, books, CaseOf(s), e.now);
      if !decision.allowed then Some(s.(stage := InPolicyGate, status := Escalated))
      else if !decision.approvalRequired then Some(s.(stage := InPolicyGate, status := Approved))
      else if s.plan.None? || s.plan.value.planId == "" || s.plan.value.planHash.None? || decision.requiredRole.None?
      then Some(Fail(s, InPolicyGate))
      else if s.plan.value.actions == [] then None
      else
        var request := RequestFor(s, s.plan.value, s.plan.value.planHash.value, decision.requiredRole.value, e);
        Some(s.(approval := s.approval.(request := Some(request)), stage := InPolicyGate, status := WaitingApproval))
  }

  /** The request still speaks about this incident, this plan and this evidence, and nothing has expired. */
  predicate Bound(s: State, request: ApprovalRequest, e: Event)
  {
    && s.plan.Some?
    && var plan := s.plan.value;
    && request.incidentId == s.incident.incidentId
    && request.investigationId == s.incident.investigationId
    && request.planId == plan.planId
    && request.planVersion == plan.planVersion
    && request.planHash == ComputePlanHash(plan)
    && s.facts.evidenceVersion == Some(request.evidenceVersion) && request.evidenceVersion == plan.evidenceVersion
    && request.policyVersion == e.settings.policy.policyVersion && request.policyVersion == plan.policyVersion
    && request.catalogueVersion == e.settings.policy.catalogueVersion && request.catalogueVersion == plan.catalogueVersion
    && request.actionIds == ActionIds(plan.actions)
    && e.now < request.expiresAt && e.now < plan.expiresAt
  }

  function Refuse(s: State): State { s.(stage := InPolicyGate, status := Escalated) }

  function ApprovalNode(s: State, e: Event): Option<State>
  {
    if s.approval.request.None? then if e.input.Proceed? then Some(Fail(s, InPolicyGate)) else None
    else if !e.input.ApprovalPayload? then None
    else if e.input.submission.None? then Some(Refuse(s))
    else
      var request, submission := s.approval.request.value, e.input.submission.value;
      if submission.approvalId != request.approvalId || !Bound(s, request, e) then Some(Refuse(s))
      else
        var decided := s.(approval := s.approval.(decision := Some(submission)), stage := InPolicyGate);
        if submission.approve && !Policy.RoleAllows(submission.actorRoles, Some(request.requiredRole))
        then Some(decided.(status := Escalated))
        else Some(decided.(status := if submission.approve then Approved else Rejected))
  }

  predicate ApprovalOnRecord(s: State) { s.approval.request.Some? && s.approval.decision.Some? && s.approval.decision.value.approve }

  predicate MayExecute(books: Playbooks, s: State, grant: Grant, e: Event)
    requires ApprovalOnRecord(s)
  {
    && grant.approvalId == s.approval.decision.value.approvalId
    && Bound(s, s.approval.request.value, e)
    && s.plan.Some? && grant.actionIds == ActionIds(s.plan.value.actions)
    && Policy.RoleAllows(grant.actorRoles, Some(s.approval.request.value.requiredRole))
    && Policy.Decide(e.settings.policy, books, CaseOf(s), e.now).allowed
  }

  function GrantNode(books: Playbooks, s: State, e: Event): Option<State>
  {
    if !ApprovalOnRecord(s) then if e.input.Proceed? then Some(Fail(s, InPolicyGate)) else None
    else if !e.input.GrantPayload? then None
    else if e.input.grant.None? || !MayExecute(books, s, e.input.grant.value, e) then Some(Refuse(s))
    else Some(s.(approval := s.approval.(grant := e.input.grant), stage := InExecute))
  }

  function SetupOf(settings: Settings, input: Input): Executor.Setup
    requires input.ExecutorRuns? || input.RollbackRuns?
  {
    Executor.Setup(settings.execution, input.durable, input.snapshots, input.numericAgent)
  }

  predicate ExecutorRefuses(s: State)
  {
    s.plan.None? || (s.approval.grant.Some? && s.approval.grant.value.actionIds != ActionIds(s.plan.value.actions))
  }

  /** The run of the executor on the stored plan. */
  function Execution(s: State, e: Event): Executor.Progress
    requires s.plan.Some? && e.input.ExecutorRuns? && |e.input.turns| == |s.plan.value.actions|
  {
    Executor.RunUpTo(SetupOf(e.settings, e.input), s.plan.value, e.input.turns, e.input.host, |e.input.turns|)
  }

  function ExecuteNode(s: State, e: Event): Option<State>
  {
    if !e.input.ExecutorRuns? then None
    else if ExecutorRefuses(s) then Some(Fail(s, InExecute))
    else if |e.input.turns| != |s.plan.value.actions| then None
    else
      var p := Execution(s, e);
      if p.raised then Some(Fail(s, InExecute))
      else
        var ready := Verify.ReadyAt(p.results, e.settings.observationSeconds);
        Some(s.(response := s.response.(results := p.results, notBefore := ready), stage := InVerify,
                status := if ready.Some? then WaitingVerification else Running))
  }

  function WaitNode(s: State, e: Event): Option<State>
  {
    if s.response.notBefore.None? then if e.input.Proceed? then Some(s.(stage := InRollback, status := Escalated)) else None
    else if !e.input.WaitPayload? then None
    else if e.input.investigationId != Some(s.incident.investigationId) || e.now < s.response.notBefore.value
    then Some(s.(stage := InVerify, status := WaitingVerification))
    else Some(s.(stage := InVerify, status := Running))
  }

  function SubjectOf(s: State): Verify.Subject
  {
    Verify.Subject(s.incident.agentId, if s.finding.Some? && s.finding.value.sourceIp != "" then Some(s.finding.value.sourceIp) else None,
                   s.plan, s.response.results)
  }

  function VerifyNode(s: State, e: Event): Option<State>
  {
    if !e.input.VerifierRuns? then None
    else match Verify.Verification(VerifySettingsOf(e.settings), SubjectOf(s), e.now, e.input.seen, e.input.page)
      case Err(_) => Some(s.(stage := InRollback, status := Escalated))
      case Ok(result) =>
        Some(s.(response := s.response.(verification := Some(result)),
                stage := if result.IsPassed() then InUpdateKnowledge
                         else if result.outcome.VerdictFailed? || result.outcome.VerdictPartial? then InRollback
                         else InVerify,
                status := if result.IsPassed() then Running else Escalated))
  }

  function RollbackNode(s: State, e: Event): Option<State>
  {
    match e.input
    case RollbackRaises => Some(s.(response := s.response.(rollback := Some(RollbackRecord(false, []))), stage := InRollback, status := Escalated))
    case RollbackRuns(_, _, _, host, turns) =>
      if s.plan.Some? && |turns| != |s.plan.value.rollbackActions| then None
      else
        var prior := if s.response.rollback.Some? then s.response.rollback.value.entries else [];
        var entries :=
          if s.plan.None? then []
          else Executor.RollbackUpTo(SetupOf(e.settings, e.input), s.plan.value, s.response.results, prior, turns, host, |turns|).entries;
        Some(s.(response := s.response.(rollback := Some(RollbackRecord(Executor.Successful(entries), entries))), stage := InRollback, status := Escalated))
    case _ => None
  }

  function KnowledgeNode(s: State, e: Event): Option<State>
  {
    if !e.input.Proceed? then None
    else Some(if s.stage.InUpdateKnowledge? && s.status.Running? then s.(status := Completed) else s)
  }

  // ---- Steps and runs ---------------------------------------------------------------------------

  /** Waiting for an external resume. */
  predicate Paused(s: State)
  {
    || (s.node.HumanApproval? && s.approval.request.Some?)
    || (s.node.ExecutionAuthorization? && ApprovalOnRecord(s))
    || (s.node.VerificationWait? && s.response.notBefore.Some?)
  }

  function Moved(after: Option<State>, route: State -> Node): Option<State>
  {
    if after.None? then None else Some(after.value.(node := route(after.value)))
  }

  function RunNode(books: Playbooks, s: State, e: Event): Option<State>
  {
    match s.node
    case Monitor => Moved(MonitorNode(s, e), AfterMonitor)
    case Analyze => Moved(AnalyzeNode(s, e), AfterAnalyze)
    case Plan => Moved(PlanNode(s, e), AfterPlan)
    case PolicyGate => Moved(PolicyNode(books, s, e), AfterPolicyGate)
    case HumanApproval => Moved(ApprovalNode(s, e), AfterHumanApproval)
    case ExecutionAuthorization => Moved(GrantNode(books, s, e), AfterExecutionAuthorization)
    case Execute => Moved(ExecuteNode(s, e), AfterExecute)
    case VerificationWait => Moved(WaitNode(s, e), AfterVerificationWait)
    case VerifyResponse => Moved(VerifyNode(s, e), AfterVerify)
    case Rollback => Moved(RollbackNode(s, e), _ => Knowledge)
    case Knowledge => Moved(KnowledgeNode(s, e), _ => End)
    case End => None
  }

  /** Re-entry after an escalation from Analyze, as if Analyze had asked for another collection. */
  function Reenter(s: State, e: Event): Option<State>
  {
    if s.node.End? && s.status.Escalated? && s.stage.InAnalyze?
    then Some(s.(node := Monitor, status := Running, stage := InMonitor,
                 analysisAttempts := Max(e.settings.maxAnalysisAttempts - 1, 0)))
    else None
  }

  function Step(books: Playbooks, s: State, e: Event): Option<State>
  {
    match e.input
    case Replaced(plan, version, finding) =>
      if Paused(s) then Some(s.(plan := plan, facts := s.facts.(evidenceVersion := version), finding := finding)) else None
    case MoreEvidence => Reenter(s, e)
    case _ => RunNode(books, s, e)
  }

  function Run(books: Playbooks, start: State, events: seq<Event>): Option<State>
  {
    if events == [] then Some(start)
    else
      var before := Run(books, start, events[..|events| - 1]);
      if before.None? then None else Step(books, before.value, events[|events| - 1])
  }

  /** A queued investigation before its first step. */
  predicate Fresh(s: State)
  {
    && s.node.Monitor? && (s.status.Created? || s.status.Queued?) && s.stage.InMonitor?
    && s.analysisAttempts == 0 && s.planningAttempts == 0 && s.finding.None? && Untouched(s)
  }

  /** Nothing has been planned, approved or executed. */
  predicate Untouched(s: State)
  {
    && s.plan.None? && s.approval.request.None? && s.approval.decision.None? && s.approval.grant.None? && s.response.results == []
    && s.response.notBefore.None? && s.response.verification.None? && s.response.rollback.None?
  }

  // ---- The graph --------------------------------------------------------------------------------

  /** The edge table of the graph. */
  predicate Edge(a: Node, b: Node)
  {
    match a
    case Monitor => b in {Analyze, Knowledge}
    case Analyze => b in {Plan, Monitor, Knowledge}
    case Plan => b in {PolicyGate, Knowledge}
    case PolicyGate => b in {HumanApproval, ExecutionAuthorization, Knowledge}
    case HumanApproval => b in {ExecutionAuthorization, Knowledge}
    case ExecutionAuthorization => b in {Execute, Knowledge}
    case Execute => b in {VerificationWait, VerifyResponse, Rollback, Knowledge}
    case VerificationWait => b in {VerificationWait, VerifyResponse, Rollback, Knowledge}
    case VerifyResponse => b in {Rollback, Knowledge}
    case Rollback => b == Knowledge
    case Knowledge => b == End
    case End => false
  }

  lemma NodeFollowsEdges(books: Playbooks, s: State, e: Event)
    requires RunNode(books, s, e).Some?
    ensures Edge(s.node, RunNode(books, s, e).value.node)
  {
    match s.node
    case Monitor => MovedRoutes(MonitorNode(s, e), AfterMonitor);
    case Analyze => MovedRoutes(AnalyzeNode(s, e), AfterAnalyze);
    case Plan => MovedRoutes(PlanNode(s, e), AfterPlan);
    case PolicyGate => MovedRoutes(PolicyNode(books, s, e), AfterPolicyGate);
    case HumanApproval => MovedRoutes(ApprovalNode(s, e), AfterHumanApproval);
    case ExecutionAuthorization => MovedRoutes(GrantNode(books, s, e), AfterExecutionAuthorization);
    case Execute => MovedRoutes(ExecuteNode(s, e), AfterExecute);
    case VerificationWait => MovedRoutes(WaitNode(s, e), AfterVerificationWait);
    case VerifyResponse => MovedRoutes(VerifyNode(s, e), AfterVerify);
    case _ =>
  }

  lemma MovedRoutes(after: Option<State>, route: State -> Node)
    ensures after.Some? ==> Moved(after, route).Some? && Moved(after, route).value.node == route(after.value)
  {
  }

  /** A step is a replacement at a pause, a re-entry, or an edge of the graph. */
  lemma StepFollowsEdges(books: Playbooks, s: State, e: Event)
    requires Step(books, s, e).Some?
    ensures var after := Step(books, s, e).value;
      if e.input.Replaced? then Paused(s) && after.node == s.node
      else if e.input.MoreEvidence? then s.node.End? && after.node.Monitor?
      else Step(books, s, e) == RunNode(books, s, e) && Edge(s.node, after.node)
  {
    match e.input
    case Replaced(_, _, _) =>
    case MoreEvidence =>
    case _ => NodeFollowsEdges(books, s, e);
  }

  lemma RunExtends(books: Playbooks, start: State, events: seq<Event>, e: Event, before: State)
    requires Run(books, start, events) == Some(before)
    ensures Run(books, start, events + [e]) == Step(books, before, e)
  {
    assert (events + [e])[..|events|] == events;
  }
}
