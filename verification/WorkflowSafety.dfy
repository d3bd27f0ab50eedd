/**
 Safety of whole workflow runs: what must have happened before the executor is reached, and what a
 completed run stands for.
 */
module WorkflowSafety {
  import opened Common
  import opened Registries
  import opened Workflow
  import Evidence
  import Executor
  import Policy
  import Verify

  // ---- The invariant ----------------------------------------------------------------------------

  /** Whoever meets the role a request asks for outranks every action of the plan it was made for. */
  ghost predicate Covers(request: ApprovalRequest)
  {
    forall roles: seq<Role> :: Policy.RoleAllows(roles, Some(request.requiredRole)) ==>
      Policy.Outranks(roles, request.planHash.payload.actions)
  }

  predicate Unexecuted(s: State)
  {
    s.approval.grant.None? && s.response.results == [] && s.response.notBefore.None? && s.response.verification.None? && s.response.rollback.None?
  }

  /** An approval by somebody of a sufficient role, for the request on record. */
  ghost predicate ProperApproval(s: State)
  {
    && ApprovalOnRecord(s) && Covers(s.approval.request.value)
    && s.approval.decision.value.approvalId == s.approval.request.value.approvalId
    && Policy.RoleAllows(s.approval.decision.value.actorRoles, Some(s.approval.request.value.requiredRole))
  }

  ghost predicate Inv(s: State)
  {
    && (s.status.Completed? ==> s.node.End?)
    && match s.node
       case Monitor => Untouched(s)
       case Analyze => Untouched(s)
       case Plan => Untouched(s)
       case PolicyGate => s.approval.request.None? && s.approval.decision.None? && Unexecuted(s)
       case HumanApproval => s.approval.request.Some? && Covers(s.approval.request.value) && s.approval.decision.None? && Unexecuted(s)
       case ExecutionAuthorization => Unexecuted(s) && (ApprovalOnRecord(s) ==> ProperApproval(s))
       case Execute => ProperApproval(s) && s.approval.grant.Some? && s.response.rollback.None?
       case VerificationWait => s.response.rollback.None?
       case VerifyResponse => s.response.rollback.None?
       case Rollback => s.response.rollback.None?
       case Knowledge => s.stage.InAnalyze? ==> Untouched(s)
       case End => s.stage.InAnalyze? ==> Untouched(s)
  }

  /** A request carries the plan it was made for, and asks for a role that covers it. */
  lemma RequestCovers(books: Playbooks, s: State, e: Event)
    requires s.plan.Some? && s.plan.value.planHash.Some?
    requires Policy.Decide(e.settings.policy, books, CaseOf(s), e.now).allowed
    requires Policy.Decide(e.settings.policy, books, CaseOf(s), e.now).requiredRole.Some?
    ensures var role := Policy.Decide(e.settings.policy, books, CaseOf(s), e.now).requiredRole.value;
      Covers(RequestFor(s, s.plan.value, s.plan.value.planHash.value, role, e))
  {
    Policy.AllowedIffPermitted(e.settings.policy, books, CaseOf(s), e.now);
    var role := Policy.Decide(e.settings.policy, books, CaseOf(s), e.now).requiredRole;
    forall roles: seq<Role> | Policy.RoleAllows(roles, role)
      ensures Policy.Outranks(roles, s.plan.value.actions)
    {
      Policy.RequiredRoleCoversActions(e.settings.policy, books, CaseOf(s), e.now, roles);
    }
    assert s.plan.value.planHash.value == ComputePlanHash(s.plan.value);
  }

  lemma PolicyKeeps(books: Playbooks, s: State, e: Event)
    requires s.node.PolicyGate? && Inv(s) && RunNode(books, s, e).Some?
    ensures Inv(RunNode(books, s, e).value)
  {
    var decision := Policy.Decide(e.settings.policy, books, CaseOf(s), e.now);
    if decision.allowed && decision.requiredRole.Some? && s.plan.Some? && s.plan.value.planHash.Some? {
      RequestCovers(books, s, e);
    }
  }

  lemma MonitorAndAnalyzeKeep(books: Playbooks, s: State, e: Event)
    requires s.node.Monitor? || s.node.Analyze?
    requires Inv(s) && RunNode(books, s, e).Some?
    ensures Inv(RunNode(books, s, e).value)
  {
  }

  lemma PlanKeeps(books: Playbooks, s: State, e: Event)
    requires s.node.Plan? && Inv(s) && RunNode(books, s, e).Some?
    ensures Inv(RunNode(books, s, e).value)
  {
  }

  lemma ApprovalKeeps(books: Playbooks, s: State, e: Event)
    requires s.node.HumanApproval? && Inv(s) && RunNode(books, s, e).Some?
    ensures Inv(RunNode(books, s, e).value)
  {
  }

  lemma GrantKeeps(books: Playbooks, s: State, e: Event)
    requires s.node.ExecutionAuthorization? && Inv(s) && RunNode(books, s, e).Some?
    ensures Inv(RunNode(books, s, e).value)
  {
  }

  lemma LaterNodesKeep(books: Playbooks, s: State, e: Event)
    requires s.node.Execute? || s.node.VerificationWait? || s.node.VerifyResponse? || s.node.Rollback? || s.node.Knowledge?
    requires Inv(s) && RunNode(books, s, e).Some?
    ensures Inv(RunNode(books, s, e).value)
  {
  }

  lemma StepKeepsInv(books: Playbooks, s: State, e: Event)
    requires Inv(s) && Step(books, s, e).Some?
    ensures Inv(Step(books, s, e).value)
  {
    if !e.input.Replaced? && !e.input.MoreEvidence? {
      match s.node
      case Monitor => MonitorAndAnalyzeKeep(books, s, e);
      case Analyze => MonitorAndAnalyzeKeep(books, s, e);
      case Plan => PlanKeeps(books, s, e);
      case PolicyGate => PolicyKeeps(books, s, e);
      case HumanApproval => ApprovalKeeps(books, s, e);
      case ExecutionAuthorization => GrantKeeps(books, s, e);
      case _ => LaterNodesKeep(books, s, e);
    }
  }

  lemma {:induction false} RunKeepsInv(books: Playbooks, start: State, events: seq<Event>)
    requires Inv(start) && Run(books, start, events).Some?
    ensures Inv(Run(books, start, events).value)
  {
    if events != [] {
      var front := events[..|events| - 1];
      RunKeepsInv(books, start, front);
      StepKeepsInv(books, Run(books, start, front).value, events[|events| - 1]);
    }
  }

  // ---- Plans rest on evidence -------------------------------------------------------------------

  /** What the analyzer and the collectors must have delivered for a plan to be proposed. */
  ghost predicate Supported(raw: Evidence.Diagnosis, threatBearing: bool, collected: Facts, settings: Settings)
  {
    && Evidence.Completeness(collected.collections) >= settings.completenessThreshold
    && (forall i :: 0 <= i < |collected.collections| && collected.collections[i].required ==>
          !Evidence.IsGap(collected.collections[i].status))
    && threatBearing && !collected.truncated && !raw.needsMoreEvidence
    && raw.confidence >= settings.remediationThreshold && raw.confidence >= 0.75
  }

  lemma OnlyPlanLeadsToGate(books: Playbooks, s: State, e: Event)
    requires Step(books, s, e).Some? && Step(books, s, e).value.node.PolicyGate?
    ensures s.node.Plan? && e.input.Planned? && !EvidenceWithheld(s, e.settings)
  {
    StepFollowsEdges(books, s, e);
  }

  lemma OnlyAnalysisLeadsToPlan(books: Playbooks, s: State, e: Event)
    requires Step(books, s, e).Some? && Step(books, s, e).value.node.Plan? && Inv(s)
    ensures s.node.Analyze? && e.input.Analyzed?
    ensures Step(books, s, e).value.finding == Some(e.input.finding.(assessed := Evidence.AssessEvidence(
      e.input.finding.assessed, s.facts.collections, e.settings.completenessThreshold, s.facts.truncated, e.input.threatBearing)))
  {
    StepFollowsEdges(books, s, e);
  }

  /** The last event of the run was an analysis that supports a plan under these settings. */
  ghost predicate JustSupported(books: Playbooks, start: State, events: seq<Event>, settings: Settings)
  {
    && events != []
    && var last := |events| - 1;
    var before := Run(books, start, events[..last]);
    && before.Some? && events[last].input.Analyzed?
    && Supported(events[last].input.finding.assessed, events[last].input.threatBearing, before.value.facts, settings)
  }

  /** With the evidence requirement on, an executable plan reaches the gate only from an analysis whose
      unrounded evidence met the threshold, with no required collector missing and a threat to act on. */
  lemma PlansRestOnEvidence(books: Playbooks, start: State, events: seq<Event>)
    requires Fresh(start) && Run(books, start, events).Some? && Run(books, start, events).value.node.PolicyGate?
    requires forall i :: 0 <= i < |events| ==>
      events[i].settings.requireEvidence && events[i].settings.completenessThreshold == events[0].settings.completenessThreshold
    ensures events != [] && JustSupported(books, start, events[..|events| - 1], events[|events| - 1].settings)
  {
    var last := |events| - 1;
    OnlyPlanLeadsToGate(books, Run(books, start, events[..last]).value, events[last]);
    PlanFollowsAnalysis(books, start, events[..last], events[last].settings);
  }

  lemma PlanFollowsAnalysis(books: Playbooks, start: State, events: seq<Event>, settings: Settings)
    requires Fresh(start) && Run(books, start, events).Some? && Run(books, start, events).value.node.Plan?
    requires events != [] ==> settings.completenessThreshold == events[|events| - 1].settings.completenessThreshold
    requires settings.requireEvidence && !EvidenceWithheld(Run(books, start, events).value, settings)
    ensures JustSupported(books, start, events, settings)
  {
    var last := |events| - 1;
    RunKeepsInv(books, start, events[..last]);
    AnalysisSupportsPlan(books, Run(books, start, events[..last]).value, events[last], settings);
  }

  lemma AnalysisSupportsPlan(books: Playbooks, s: State, e: Event, settings: Settings)
    requires Inv(s) && Step(books, s, e).Some? && Step(books, s, e).value.node.Plan?
    requires settings.requireEvidence && settings.completenessThreshold == e.settings.completenessThreshold
    requires !EvidenceWithheld(Step(books, s, e).value, settings)
    ensures e.input.Analyzed? && Supported(e.input.finding.assessed, e.input.threatBearing, s.facts, settings)
  {
    OnlyAnalysisLeadsToPlan(books, s, e);
    Evidence.AllowedIffSupported(e.input.finding.assessed, s.facts.collections, e.settings.completenessThreshold,
                                 s.facts.truncated, e.input.threatBearing, settings.remediationThreshold);
  }

  // ---- Execution is authorized ------------------------------------------------------------------

  /** Everything that holds when the last resume lets the workflow on to the executor. */
  ghost predicate AuthorizedExecution(books: Playbooks, before: State, e: Event, after: State)
  {
    && ApprovalOnRecord(before) && before.plan.Some? && before.finding.Some?
    && e.input.GrantPayload? && e.input.grant.Some?
    && after == before.(approval := before.approval.(grant := e.input.grant), stage := InExecute, node := Execute)
    && var request, decision, grant, plan := before.approval.request.value, before.approval.decision.value, e.input.grant.value, before.plan.value;
    && request.approvalId == decision.approvalId == grant.approvalId
    && request.actionIds == grant.actionIds == ActionIds(plan.actions)
    && request.planHash.payload == CanonicalPayload(plan)
    && e.now < request.expiresAt && e.now < plan.expiresAt
    && Policy.Permits(e.settings.policy, books, CaseOf(before), CaseOf(before).diagnosis.value, plan, e.now)
    && Policy.Outranks(decision.actorRoles, plan.actions)
    && Policy.Outranks(grant.actorRoles, plan.actions)
  }

  lemma GrantIsAuthorized(books: Playbooks, s: State, e: Event)
    requires s.node.ExecutionAuthorization? && Inv(s)
    requires RunNode(books, s, e).Some? && RunNode(books, s, e).value.node.Execute?
    ensures AuthorizedExecution(books, s, e, RunNode(books, s, e).value)
  {
    Policy.AllowedIffPermitted(e.settings.policy, books, CaseOf(s), e.now);
    assert Covers(s.approval.request.value);
  }

  lemma OnlyGrantLeadsToExecute(books: Playbooks, s: State, e: Event)
    requires Step(books, s, e).Some? && Step(books, s, e).value.node.Execute?
    ensures s.node.ExecutionAuthorization? && RunNode(books, s, e) == Step(books, s, e)
  {
    StepFollowsEdges(books, s, e);
  }

  /** The k-th event approved the request now on record, while it still spoke about the stored plan. */
  ghost predicate ApprovedAt(books: Playbooks, start: State, events: seq<Event>, s: State, k: nat)
    requires k < |events| && s.approval.request.Some? && s.approval.decision.Some?
  {
    && Run(books, start, events[..k]).Some?
    && var state := Run(books, start, events[..k]).value;
    && state.node.HumanApproval? && state.approval.request == s.approval.request
    && events[k].input == ApprovalPayload(s.approval.decision)
    && Bound(state, s.approval.request.value, events[k])
  }

  ghost predicate WasApproved(books: Playbooks, start: State, events: seq<Event>, s: State)
    requires s.approval.request.Some? && s.approval.decision.Some?
  {
    exists k :: 0 <= k < |events| && ApprovedAt(books, start, events, s, k)
  }

  lemma ApprovalIsRecorded(books: Playbooks, s: State, e: Event)
    requires Step(books, s, e).Some? && s.approval.decision != Step(books, s, e).value.approval.decision
    ensures var after := Step(books, s, e).value;
      && s.node.HumanApproval? && s.approval.request.Some? && after.approval.request == s.approval.request
      && after.approval.decision.Some? && e.input == ApprovalPayload(after.approval.decision)
      && Bound(s, s.approval.request.value, e)
  {
    StepFollowsEdges(books, s, e);
  }

  lemma RequestIsKept(books: Playbooks, s: State, e: Event)
    requires Inv(s) && s.approval.decision.Some? && Step(books, s, e).Some?
    ensures Step(books, s, e).value.approval.request == s.approval.request && Step(books, s, e).value.approval.decision == s.approval.decision
  {
    StepFollowsEdges(books, s, e);
  }

  lemma StaysApproved(books: Playbooks, start: State, events: seq<Event>, s: State, after: State)
    requires events != [] && s.approval.request.Some? && s.approval.decision.Some?
    requires WasApproved(books, start, events[..|events| - 1], s)
    requires after.approval.request == s.approval.request && after.approval.decision == s.approval.decision
    ensures WasApproved(books, start, events, after)
  {
    var last := |events| - 1;
    var k :| 0 <= k < last && ApprovedAt(books, start, events[..last], s, k);
    assert events[..last][..k] == events[..k];
    assert ApprovedAt(books, start, events, after, k);
  }

  /** An approval on record was sent by an event of the run, for the request on record. */
  lemma {:induction false} DecisionsComeFromApprovers(books: Playbooks, start: State, events: seq<Event>)
    requires Fresh(start) && Run(books, start, events).Some? && Run(books, start, events).value.approval.decision.Some?
    ensures Run(books, start, events).value.approval.request.Some?
    ensures WasApproved(books, start, events, Run(books, start, events).value)
  {
    var last := |events| - 1;
    var before := Run(books, start, events[..last]).value;
    var e := events[last];
    RunKeepsInv(books, start, events[..last]);
    if before.approval.decision.Some? {
      DecisionsComeFromApprovers(books, start, events[..last]);
      RequestIsKept(books, before, e);
      StaysApproved(books, start, events, before, Run(books, start, events).value);
    } else {
      ApprovalIsRecorded(books, before, e);
      assert ApprovedAt(books, start, events, Run(books, start, events).value, last);
    }
  }

  /** The last event of the run was such a grant, for an approval sent earlier in it. */
  ghost predicate JustAuthorized(books: Playbooks, start: State, events: seq<Event>, s: State)
  {
    && events != []
    && var last := |events| - 1;
    var before := Run(books, start, events[..last]);
    && before.Some? && AuthorizedExecution(books, before.value, events[last], s)
    && s.approval.request.Some? && s.approval.decision.Some? && WasApproved(books, start, events, s)
  }

  /** In every run, whatever is replaced at a pause, the executor is reached only straight after a grant that
      matches an earlier approval for exactly this plan, by two actors who outrank all its actions, with policy
      allowing it and nothing expired at that moment. */
  lemma ExecutionIsAuthorized(books: Playbooks, start: State, events: seq<Event>)
    requires Fresh(start) && Run(books, start, events).Some? && Run(books, start, events).value.node.Execute?
    ensures JustAuthorized(books, start, events, Run(books, start, events).value)
  {
    var last := |events| - 1;
    var before := Run(books, start, events[..last]).value;
    OnlyGrantLeadsToExecute(books, before, events[last]);
    RunKeepsInv(books, start, events[..last]);
    GrantIsAuthorized(books, before, events[last]);
    DecisionsComeFromApprovers(books, start, events);
  }

  // ---- A proper approval is honoured ------------------------------------------------------------

  lemma PolicyAsks(books: Playbooks, s: State, e: Event) returns (role: Role)
    requires e.input.Proceed? && s.plan.Some? && s.plan.value.actions != [] && s.plan.value.planId != ""
    requires Policy.Decide(e.settings.policy, books, CaseOf(s), e.now).allowed
    ensures s.plan.value.planHash == Some(ComputePlanHash(s.plan.value))
    ensures Policy.Decide(e.settings.policy, books, CaseOf(s), e.now).requiredRole == Some(role)
    ensures PolicyNode(books, s, e) == Some(s.(
      approval := s.approval.(request := Some(RequestFor(s, s.plan.value, ComputePlanHash(s.plan.value), role, e))),
      stage := InPolicyGate, status := WaitingApproval))
  {
    Policy.AllowedIffPermitted(e.settings.policy, books, CaseOf(s), e.now);
    Policy.ActionsNeedApproval(e.settings.policy, books, CaseOf(s), e.now);
    role := Policy.Decide(e.settings.policy, books, CaseOf(s), e.now).requiredRole.value;
  }

  lemma GateRoutes(books: Playbooks, s: State, e: Event)
    requires s.node.PolicyGate?
    ensures RunNode(books, s, e) == Moved(PolicyNode(books, s, e), AfterPolicyGate)
  {
  }

  lemma GateRequests(books: Playbooks, s: State, e: Event) returns (role: Role)
    requires s.node.PolicyGate? && e.input.Proceed? && s.plan.Some? && s.plan.value.actions != [] && s.plan.value.planId != ""
    requires Policy.Decide(e.settings.policy, books, CaseOf(s), e.now).allowed
    ensures Policy.Decide(e.settings.policy, books, CaseOf(s), e.now).requiredRole == Some(role)
    ensures RunNode(books, s, e) == Some(s.(
      node := HumanApproval,
      approval := s.approval.(request := Some(RequestFor(s, s.plan.value, ComputePlanHash(s.plan.value), role, e))),
      stage := InPolicyGate, status := WaitingApproval))
  {
    role := PolicyAsks(books, s, e);
    GateRoutes(books, s, e);
  }

  /** A request nobody interfered with stays bound until it expires. */
  lemma RequestStaysBound(books: Playbooks, s: State, request: ApprovalRequest, asked: Event, e: Event)
    requires s.plan.Some? && s.facts.evidenceVersion.Some?
    requires Policy.Decide(asked.settings.policy, books, CaseOf(s), asked.now).allowed
    requires request == RequestFor(s, s.plan.value, ComputePlanHash(s.plan.value), request.requiredRole, asked)
    requires e.settings.policy == asked.settings.policy && e.now < request.expiresAt
    ensures Bound(s, request, e)
  {
    Policy.AllowedIffPermitted(asked.settings.policy, books, CaseOf(s), asked.now);
  }

  lemma ApproverAdmits(books: Playbooks, s: State, e: Event, submission: Submission)
    requires s.node.HumanApproval? && s.approval.request.Some? && Bound(s, s.approval.request.value, e)
    requires e.input == ApprovalPayload(Some(submission)) && submission.approve
    requires submission.approvalId == s.approval.request.value.approvalId
    requires Policy.RoleAllows(submission.actorRoles, Some(s.approval.request.value.requiredRole))
    ensures RunNode(books, s, e).Some?
    ensures RunNode(books, s, e).value == s.(
      node := ExecutionAuthorization, status := Approved, stage := InPolicyGate,
      approval := s.approval.(decision := Some(submission)))
  {
  }

  lemma GrantRoutes(books: Playbooks, s: State, e: Event)
    requires s.node.ExecutionAuthorization?
    ensures RunNode(books, s, e) == Moved(GrantNode(books, s, e), AfterExecutionAuthorization)
  {
  }

  lemma GrantNodeAdmits(books: Playbooks, s: State, e: Event, grant: Grant)
    requires ApprovalOnRecord(s) && MayExecute(books, s, grant, e) && e.input == GrantPayload(Some(grant))
    ensures GrantNode(books, s, e) == Some(s.(stage := InExecute, approval := s.approval.(grant := Some(grant))))
  {
  }

  lemma GrantAdmits(books: Playbooks, s: State, e: Event, grant: Grant)
    requires s.node.ExecutionAuthorization? && ApprovalOnRecord(s) && MayExecute(books, s, grant, e)
    requires e.input == GrantPayload(Some(grant))
    ensures RunNode(books, s, e) == Some(s.(node := Execute, stage := InExecute, approval := s.approval.(grant := Some(grant))))
  {
    GrantRoutes(books, s, e);
    GrantNodeAdmits(books, s, e, grant);
  }

  /** The gate is not only safe: an allowed plan, approved and granted in time by actors who hold the role
      asked for, with nothing replaced meanwhile and the same policy, does reach the executor. */
  lemma ProperApprovalIsHonoured(books: Playbooks, s: State, asked: Event, approved: Event, granted: Event,
                                 submission: Submission, grant: Grant)
    requires s.node.PolicyGate? && asked.input.Proceed? && s.plan.Some? && s.facts.evidenceVersion.Some?
    requires s.approval.decision.None? && s.approval.grant.None?
    requires s.plan.value.actions != [] && s.plan.value.planId != ""
    requires Policy.Decide(asked.settings.policy, books, CaseOf(s), asked.now).allowed
    requires approved.settings.policy == asked.settings.policy == granted.settings.policy
    requires approved.input == ApprovalPayload(Some(submission)) && granted.input == GrantPayload(Some(grant)) && submission.approve
    requires Run(books, s, [asked]).Some? && Run(books, s, [asked]).value.approval.request.Some? ==>
      var request := Run(books, s, [asked]).value.approval.request.value;
      && submission.approvalId == grant.approvalId == request.approvalId
      && grant.actionIds == request.actionIds
      && approved.now < request.expiresAt && granted.now < request.expiresAt
      && Policy.RoleAllows(submission.actorRoles, Some(request.requiredRole))
      && Policy.RoleAllows(grant.actorRoles, Some(request.requiredRole))
      && Policy.Decide(granted.settings.policy, books, CaseOf(s), granted.now).allowed
    ensures Run(books, s, [asked]).Some? && Run(books, s, [asked]).value.approval.request.Some?
    ensures Run(books, s, [asked, approved, granted]) == Some(s.(
      node := Execute, status := Approved, stage := InExecute,
      approval := Approval(Run(books, s, [asked]).value.approval.request, Some(submission), Some(grant))))
  {
    var role := GateRequests(books, s, asked);
    OneStep(books, s, asked);
    var waiting := RunNode(books, s, asked).value;
    var request := waiting.approval.request.value;
    RequestStaysBound(books, s, request, asked, approved);
    RequestStaysBound(books, s, request, asked, granted);
    assert Bound(waiting, request, approved);
    ApproverAdmits(books, waiting, approved, submission);
    TwoSteps(books, s, asked, approved, waiting);
    var decided := RunNode(books, waiting, approved).value;
    assert CaseOf(decided) == CaseOf(s);
    assert Bound(decided, request, granted);
    GrantAdmits(books, decided, granted, grant);
    ThirdStep(books, s, asked, approved, granted, decided);
  }

  lemma OneStep(books: Playbooks, s: State, e: Event)
    ensures Run(books, s, [e]) == Step(books, s, e)
  {
    RunExtends(books, s, [], e, s);
    assert [] + [e] == [e];
  }

  lemma TwoSteps(books: Playbooks, s: State, e: Event, f: Event, t: State)
    requires Step(books, s, e) == Some(t)
    ensures Run(books, s, [e, f]) == Step(books, t, f)
  {
    OneStep(books, s, e);
    RunExtends(books, s, [e], f, t);
    assert [e] + [f] == [e, f];
  }

  lemma ThirdStep(books: Playbooks, s: State, e: Event, f: Event, g: Event, u: State)
    requires Run(books, s, [e, f]) == Some(u)
    ensures Run(books, s, [e, f, g]) == Step(books, u, g)
  {
    RunExtends(books, s, [e, f], g, u);
    assert [e, f] + [g] == [e, f, g];
  }

  // ---- Completion is verified -------------------------------------------------------------------

  lemma CompletesAfterPassing(books: Playbooks, s: State, e: Event)
    requires Inv(s) && Step(books, s, e).Some? && Step(books, s, e).value.status.Completed?
    ensures s.node.Knowledge? && s.stage.InUpdateKnowledge? && s.status.Running?
    ensures Step(books, s, e).value == s.(status := Completed, node := End)
  {
    StepKeepsInv(books, s, e);
    StepFollowsEdges(books, s, e);
  }

  /** The verifier has just passed the executed plan. */
  ghost predicate JustVerified(books: Playbooks, before: State, e: Event, after: State)
  {
    && before.node.VerifyResponse? && e.input.VerifierRuns?
    && Verify.ReallyVerified(VerifySettingsOf(e.settings), SubjectOf(before), e.now, e.input.seen, e.input.page)
    && after.response.results == before.response.results && after.plan == before.plan
  }

  lemma OnlyVerificationUpdatesKnowledge(books: Playbooks, s: State, e: Event)
    requires Inv(s) && Step(books, s, e).Some?
    requires var after := Step(books, s, e).value; after.node.Knowledge? && after.stage.InUpdateKnowledge? && after.status.Running?
    ensures JustVerified(books, s, e, Step(books, s, e).value)
  {
    StepFollowsEdges(books, s, e);
    if s.node.VerifyResponse? {
      VerifierPasses(books, s, e);
    } else {
      OthersDoNot(books, s, e);
    }
  }

  lemma VerifierPasses(books: Playbooks, s: State, e: Event)
    requires s.node.VerifyResponse? && RunNode(books, s, e).Some?
    requires var after := RunNode(books, s, e).value; after.node.Knowledge? && after.stage.InUpdateKnowledge?
    ensures JustVerified(books, s, e, RunNode(books, s, e).value)
  {
    Verify.PassedIffReallyVerified(VerifySettingsOf(e.settings), SubjectOf(s), e.now, e.input.seen, e.input.page);
  }

  lemma OthersDoNot(books: Playbooks, s: State, e: Event)
    requires !s.node.VerifyResponse? && RunNode(books, s, e).Some?
    ensures var after := RunNode(books, s, e).value;
      after.node.Knowledge? && after.stage.InUpdateKnowledge? ==> !after.status.Running?
  {
    match s.node
    case Monitor => MovedRoutes(MonitorNode(s, e), AfterMonitor);
    case Analyze => MovedRoutes(AnalyzeNode(s, e), AfterAnalyze);
    case Plan => MovedRoutes(PlanNode(s, e), AfterPlan);
    case PolicyGate => MovedRoutes(PolicyNode(books, s, e), AfterPolicyGate);
    case HumanApproval => MovedRoutes(ApprovalNode(s, e), AfterHumanApproval);
    case ExecutionAuthorization => MovedRoutes(GrantNode(books, s, e), AfterExecutionAuthorization);
    case Execute => MovedRoutes(ExecuteNode(s, e), AfterExecute);
    case VerificationWait => MovedRoutes(WaitNode(s, e), AfterVerificationWait);
    case _ =>
  }

  /** Some step ran the executor for real. */
  ghost predicate ExecutedForReal(events: seq<Event>)
  {
    exists k :: 0 <= k < |events| && events[k].input.ExecutorRuns? && events[k].settings.execution.Real()
  }

  ghost predicate SomeSucceeded(results: seq<Executor.ExecutionResult>)
  {
    exists i :: 0 <= i < |results| && Verify.Succeeded(results[i].status)
  }

  lemma ResultsComeFromExecutor(books: Playbooks, s: State, e: Event)
    requires Step(books, s, e).Some? && SomeSucceeded(Step(books, s, e).value.response.results)
    ensures Step(books, s, e).value.response.results == s.response.results || (e.input.ExecutorRuns? && e.settings.execution.Real())
  {
    StepFollowsEdges(books, s, e);
    if s.node.Execute? && e.input.ExecutorRuns? {
      SimulatedResultsFail(books, s, e);
    }
  }

  lemma SimulatedResultsFail(books: Playbooks, s: State, e: Event)
    requires s.node.Execute? && e.input.ExecutorRuns? && RunNode(books, s, e).Some?
    ensures var after := RunNode(books, s, e).value;
      after.response.results != s.response.results && !e.settings.execution.Real() ==> !SomeSucceeded(after.response.results)
  {
    if !ExecutorRefuses(s) && !e.settings.execution.Real() {
      var setup := SetupOf(e.settings, e.input);
      Executor.SuccessNeedsReal(setup, s.plan.value, e.input.turns, e.input.host, |e.input.turns|);
      assert Executor.AllSimulated(Executor.RunUpTo(setup, s.plan.value, e.input.turns, e.input.host, |e.input.turns|).results);
    }
  }

  lemma {:induction false} SuccessWasReal(books: Playbooks, start: State, events: seq<Event>)
    requires start.response.results == [] && Run(books, start, events).Some?
    requires SomeSucceeded(Run(books, start, events).value.response.results)
    ensures ExecutedForReal(events)
  {
    var last := |events| - 1;
    ResultsComeFromExecutor(books, Run(books, start, events[..last]).value, events[last]);
    if Run(books, start, events).value.response.results == Run(books, start, events[..last]).value.response.results {
      SuccessWasReal(books, start, events[..last]);
      var k :| 0 <= k < last && events[..last][k].input.ExecutorRuns? && events[..last][k].settings.execution.Real();
      assert events[k] == events[..last][k];
    }
  }

  /** A completed run really executed its plan, and ended with a verification that stands for everything
      ReallyVerified says, of exactly the results and the plan it completed with. */
  lemma CompletedMeansVerified(books: Playbooks, start: State, events: seq<Event>)
    requires Fresh(start) && Run(books, start, events).Some? && Run(books, start, events).value.status.Completed?
    ensures |events| >= 2 && ExecutedForReal(events)
    ensures var n := |events| - 2;
      && Run(books, start, events[..n]).Some?
      && JustVerified(books, Run(books, start, events[..n]).value, events[n], Run(books, start, events).value)
  {
    var n := |events| - 2;
    RunKeepsInv(books, start, events[..n + 1]);
    CompletesAfterPassing(books, Run(books, start, events[..n + 1]).value, events[n + 1]);
    assert events[..n + 1][..n] == events[..n] && events[..n + 1][n] == events[n];
    var before := Run(books, start, events[..n]).value;
    RunKeepsInv(books, start, events[..n]);
    OnlyVerificationUpdatesKnowledge(books, before, events[n]);
    SuccessWasReal(books, start, events[..n]);
    RealStays(events, n);
  }

  lemma RealStays(events: seq<Event>, n: nat)
    requires n <= |events| && ExecutedForReal(events[..n])
    ensures ExecutedForReal(events)
  {
    var k :| 0 <= k < n && events[..n][k].input.ExecutorRuns? && events[..n][k].settings.execution.Real();
    assert events[k] == events[..n][k];
  }

  /** Nothing follows a completed run. */
  lemma CompletedIsFinal(books: Playbooks, s: State, e: Event)
    requires Inv(s) && s.status.Completed?
    ensures Step(books, s, e).None?
  {
  }

  // ---- The wait gate and the verifier's own window ----------------------------------------------

  predicate Observes(events: seq<Event>, seconds: int)
  {
    forall i :: 0 <= i < |events| ==> events[i].settings.observationSeconds == seconds
  }

  /** The deadline is the one of the recorded results. */
  predicate DeadlineHolds(s: State, seconds: int)
  {
    s.node.VerificationWait? || s.node.VerifyResponse? ==> s.response.notBefore == Verify.ReadyAt(s.response.results, seconds)
  }

  lemma StepKeepsDeadline(books: Playbooks, s: State, e: Event, seconds: int)
    requires DeadlineHolds(s, seconds) && e.settings.observationSeconds == seconds && Step(books, s, e).Some?
    ensures DeadlineHolds(Step(books, s, e).value, seconds)
  {
    StepFollowsEdges(books, s, e);
  }

  lemma {:induction false} RunKeepsDeadline(books: Playbooks, start: State, events: seq<Event>, seconds: int)
    requires start.node.Monitor? && Observes(events, seconds) && Run(books, start, events).Some?
    ensures DeadlineHolds(Run(books, start, events).value, seconds)
  {
    if events != [] {
      var last := |events| - 1;
      RunKeepsDeadline(books, start, events[..last], seconds);
      StepKeepsDeadline(books, Run(books, start, events[..last]).value, events[last], seconds);
    }
  }

  /** A resume the gate admits never fails the verifier's own window check, as long as the observation time
      is unchanged and the clock does not run back: the checks are run and decide. */
  lemma GateAdmitsVerification(books: Playbooks, start: State, events: seq<Event>, resume: Event, check: Event)
    requires Fresh(start) && Observes(events + [check], check.settings.observationSeconds)
    requires Run(books, start, events).Some? && Run(books, start, events).value.node.VerificationWait?
    requires Step(books, Run(books, start, events).value, resume).Some?
    requires var s := Step(books, Run(books, start, events).value, resume).value;
      && s.node.VerifyResponse? && resume.now <= check.now && check.input.VerifierRuns?
      && !check.settings.execution.dryRun && check.settings.execution.realExecutionEnabled
      && (forall i :: 0 <= i < |s.response.results| ==> !Verify.FailedStatus(s.response.results[i].status))
      && s.plan.Some? && Verify.AllRegistered(Verify.Declared(s.plan.value))
    ensures
      var subject := SubjectOf(Step(books, Run(books, start, events).value, resume).value);
      var settings := VerifySettingsOf(check.settings);
      Verify.Verification(settings, subject, check.now, check.input.seen, check.input.page) ==
        var checks := Verify.RunChecks(Verify.Registrations(Verify.Declared(subject.plan.value)), settings, subject, check.input.seen,
                                       Verify.Related(subject, check.input.page),
                                       check.input.page.Some? && check.input.page.value.truncated);
        if checks.None? then Err(Verify.GatewayRaised) else Ok(Verify.Combine(checks.value))
  {
    var s := Run(books, start, events).value;
    forall i | 0 <= i < |events| ensures events[i].settings.observationSeconds == check.settings.observationSeconds {
      assert events[i] == (events + [check])[i];
    }
    RunKeepsDeadline(books, start, events, check.settings.observationSeconds);
    AdmittedAfterDeadline(books, s, resume);
    Verify.GateImpliesWindow(VerifySettingsOf(check.settings), SubjectOf(Step(books, s, resume).value), check.now,
                             check.input.seen, check.input.page);
  }

  lemma AdmittedAfterDeadline(books: Playbooks, s: State, e: Event)
    requires s.node.VerificationWait? && Step(books, s, e).Some? && Step(books, s, e).value.node.VerifyResponse?
    ensures s.response.notBefore.Some? && s.response.notBefore.value <= e.now
    ensures Step(books, s, e).value.response.results == s.response.results && Step(books, s, e).value.plan == s.plan
  {
    StepFollowsEdges(books, s, e);
  }
}
