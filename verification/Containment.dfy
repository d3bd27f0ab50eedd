/**
 A containment that goes well: when evidence, policy, actors, provider and checks all cooperate, the workflow
 runs from the alert to completion. The safety theorems are thus not met by refusing everything.
 */
module Containment {
  import opened Common
  import opened Registries
  import opened Workflow
  import Evidence
  import Executor
  import PlanBuilders
  import Policy
  import Verify
  import WorkflowSafety

  // ---- From the alert to the gate ---------------------------------------------------------------

  lemma Collects(books: Playbooks, s: State, e: Event)
    requires s.node.Monitor? && e.input.Monitored?
    ensures Step(books, s, e) == Some(s.(
      node := Analyze, status := Running, stage := InAnalyze,
      facts := Facts(e.input.evidence, Some(e.input.version), e.input.collections, e.input.truncated)))
  {
  }

  function Assessed(s: State, e: Event): Evidence.Diagnosis
    requires e.input.Analyzed?
  {
    Evidence.AssessEvidence(e.input.finding.assessed, s.facts.collections, e.settings.completenessThreshold,
                            s.facts.truncated, e.input.threatBearing)
  }

  lemma Diagnoses(books: Playbooks, s: State, e: Event)
    requires s.node.Analyze? && e.input.Analyzed? && s.analysisAttempts < e.settings.maxAnalysisAttempts
    requires Assessed(s, e).confidence >= e.settings.policy.confidenceThreshold && !Assessed(s, e).needsMoreEvidence
    ensures Step(books, s, e) == Some(s.(
      node := Plan, status := Running, stage := InPlan, analysisAttempts := s.analysisAttempts + 1,
      finding := Some(e.input.finding.(assessed := Assessed(s, e)))))
  {
  }

  lemma Plans(books: Playbooks, s: State, e: Event)
    requires s.node.Plan? && e.input.Planned? && !e.input.byModel
    requires s.planningAttempts <= e.settings.maxPlanningRetries && !EvidenceWithheld(s, e.settings)
    ensures Step(books, s, e) == Some(s.(
      node := PolicyGate, stage := InPolicyGate, plan := Some(e.input.plan), planningAttempts := s.planningAttempts + 1))
  {
  }

  // ---- From the executor to the end -------------------------------------------------------------

  lemma Executes(books: Playbooks, s: State, e: Event)
    requires s.node.Execute? && s.plan.Some? && !ExecutorRefuses(s)
    requires e.input.ExecutorRuns? && |e.input.turns| == |s.plan.value.actions|
    requires !Execution(s, e).raised && Verify.ReadyAt(Execution(s, e).results, e.settings.observationSeconds).Some?
    ensures Step(books, s, e) == Some(s.(
      node := VerificationWait, status := WaitingVerification, stage := InVerify,
      response := s.response.(results := Execution(s, e).results,
                              notBefore := Verify.ReadyAt(Execution(s, e).results, e.settings.observationSeconds))))
  {
  }

  lemma Resumes(books: Playbooks, s: State, e: Event)
    requires s.node.VerificationWait? && s.response.notBefore.Some? && s.response.notBefore.value <= e.now
    requires e.input == WaitPayload(Some(s.incident.investigationId))
    ensures Step(books, s, e) == Some(s.(node := VerifyResponse, status := Running, stage := InVerify))
  {
  }

  lemma Passes(s: State, e: Event) returns (after: State)
    requires e.input.VerifierRuns?
    requires Verify.ReallyVerified(VerifySettingsOf(e.settings), SubjectOf(s), e.now, e.input.seen, e.input.page)
    ensures VerifyNode(s, e) == Some(after) && after.status.Running? && after.stage.InUpdateKnowledge?
  {
    Verify.PassedIffReallyVerified(VerifySettingsOf(e.settings), SubjectOf(s), e.now, e.input.seen, e.input.page);
    after := VerifyNode(s, e).value;
  }

  lemma VerifyRoutes(books: Playbooks, s: State, e: Event)
    requires s.node.VerifyResponse? && e.input.VerifierRuns?
    ensures Step(books, s, e) == Moved(VerifyNode(s, e), AfterVerify)
  {
  }

  lemma Closes(books: Playbooks, s: State, e: Event)
    requires s.node.Knowledge? && s.status.Running? && s.stage.InUpdateKnowledge? && e.input.Proceed?
    ensures Step(books, s, e) == Some(s.(node := End, status := Completed))
  {
  }

  /** From the executor on, a run that succeeds, waits, and is verified completes. */
  lemma ExecutedContainmentCompletes(books: Playbooks, s: State, executed: Event, resumed: Event, verified: Event, closed: Event)
    requires s.node.Execute? && s.plan.Some? && !ExecutorRefuses(s)
    requires executed.input.ExecutorRuns? && |executed.input.turns| == |s.plan.value.actions|
    requires !Execution(s, executed).raised
    requires Verify.ReadyAt(Execution(s, executed).results, executed.settings.observationSeconds).Some?
    requires Verify.ReadyAt(Execution(s, executed).results, executed.settings.observationSeconds).value <= resumed.now
    requires resumed.input == WaitPayload(Some(s.incident.investigationId))
    requires verified.input.VerifierRuns? && closed.input.Proceed?
    requires Verify.ReallyVerified(VerifySettingsOf(verified.settings), SubjectOf(s).(results := Execution(s, executed).results),
                                   verified.now, verified.input.seen, verified.input.page)
    ensures Run(books, s, [executed, resumed, verified, closed]).Some?
    ensures Run(books, s, [executed, resumed, verified, closed]).value.status.Completed?
  {
    Executes(books, s, executed);
    var waiting := Step(books, s, executed).value;
    Resumes(books, waiting, resumed);
    var admitted := Step(books, waiting, resumed).value;
    WorkflowSafety.TwoSteps(books, s, executed, resumed, waiting);
    assert SubjectOf(admitted) == SubjectOf(s).(results := Execution(s, executed).results);
    var passed := VerifiesAndCloses(books, admitted, verified, closed);
    WorkflowSafety.ThirdStep(books, s, executed, resumed, verified, admitted);
    RunExtends(books, s, [executed, resumed, verified], closed, passed);
    assert [executed, resumed, verified] + [closed] == [executed, resumed, verified, closed];
  }

  lemma VerifiesAndCloses(books: Playbooks, s: State, verified: Event, closed: Event) returns (passed: State)
    requires s.node.VerifyResponse? && verified.input.VerifierRuns? && closed.input.Proceed?
    requires Verify.ReallyVerified(VerifySettingsOf(verified.settings), SubjectOf(s), verified.now, verified.input.seen, verified.input.page)
    ensures Step(books, s, verified) == Some(passed)
    ensures Step(books, passed, closed).Some? && Step(books, passed, closed).value.status.Completed?
  {
    var after := Passes(s, verified);
    VerifyRoutes(books, s, verified);
    passed := after.(node := Knowledge);
    Closes(books, passed, closed);
  }

  // ---- One containment in full ------------------------------------------------------------------

  const POLICY := Policy.PolicySettings(0.5, "1.0", "1.0", {}, {}, {}, {}, {})
  const SETTINGS := Settings(2, 1, 0.5, 0.8, true, 1800, 60, false, POLICY, Executor.ExecutionSettings(true, true, false, false, true))

  const START := State(
    Monitor, Queued, InMonitor, Incident("INC-1", "INV-1", "001"), Facts({}, None, [], false), None, None,
    Approval(None, None, None), Response([], None, None, None), 0, 0)

  const SOURCE := "203.0.113.7"
  const RAW := Evidence.Diagnosis("ssh_brute_force", 0.95, false, Evidence.Suspicious, false, 0.0, [], [], [], [])

  const COLLECTED := Event(0, SETTINGS, Monitored({"EV-1"}, "v1", [], false))
  const DIAGNOSED := Event(0, SETTINGS, Analyzed(Finding(RAW, {"EV-1"}, SOURCE), true))

  function BlockPlan(): RemediationPlan
  {
    var x := PlanBuilders.Context("INC-1", Some("v1"), ["EV-1"], POLICY, 1800, 3600, 0);
    PlanBuilders.BlockSourceIpPlan(x, "PLAN-1", BRUTE_FORCE.key.playbookId, SOURCE, "ACT-1", "ACT-2").value
  }

  function PlanEvent(plan: RemediationPlan): Event { Event(0, SETTINGS, Planned(plan, false, "ssh_brute_force")) }

  /** An empty collection plan leaves nothing unanswered, so a confident diagnosis is confirmed. */
  lemma ConfirmsDiagnosis(rs: seq<Evidence.Collection>)
    requires rs == []
    ensures var d := Evidence.AssessEvidence(RAW, rs, 0.5, false, true);
      && d.confidence == 0.95 && !d.needsMoreEvidence && d.incidentType == "ssh_brute_force"
      && Evidence.RemediationAllowed(d, 0.8, 0.5)
  {
    assert Evidence.RequiredCount(rs) == 0;
    assert Evidence.Completeness(rs) == 1.0;
    Evidence.AllowedIffSupported(RAW, rs, 0.5, false, true, 0.8);
    assert Evidence.Round3(1.0) == 1.0;
  }

  lemma ReachesGate(books: Playbooks, plan: RemediationPlan) returns (gate: State)
    ensures Run(books, START, [COLLECTED, DIAGNOSED, PlanEvent(plan)]) == Some(gate)
    ensures gate.node.PolicyGate? && gate.plan == Some(plan) && gate.incident == START.incident
    ensures gate.facts == Facts({"EV-1"}, Some("v1"), [], false)
    ensures gate.finding.Some? && gate.finding.value.evidenceIds == {"EV-1"} && gate.finding.value.sourceIp == SOURCE
    ensures gate.finding.value.assessed.incidentType == "ssh_brute_force" && gate.finding.value.assessed.confidence == 0.95
    ensures gate.approval == START.approval && gate.response == START.response
  {
    Collects(books, START, COLLECTED);
    var collected := Step(books, START, COLLECTED).value;
    ConfirmsDiagnosis(collected.facts.collections);
    Diagnoses(books, collected, DIAGNOSED);
    var diagnosed := Step(books, collected, DIAGNOSED).value;
    Plans(books, diagnosed, PlanEvent(plan));
    gate := Step(books, diagnosed, PlanEvent(plan)).value;
    WorkflowSafety.TwoSteps(books, START, COLLECTED, DIAGNOSED, collected);
    WorkflowSafety.ThirdStep(books, START, COLLECTED, DIAGNOSED, PlanEvent(plan), diagnosed);
  }

  const DIAGNOSIS := Policy.Diagnosis("ssh_brute_force", 0.95, {"EV-1"}, SOURCE)

  lemma EvidenceIds()
    ensures Members(["EV-1"]) == {"EV-1"}
  {
    assert ["EV-1"][0] in Members(["EV-1"]);
  }

  lemma PolicyAllows(books: Playbooks, plan: RemediationPlan)
    requires PlanBuilders.Shipped(books) && plan == BlockPlan()
    ensures var c := Policy.Case("INC-1", {"EV-1"}, Some("v1"), Some(DIAGNOSIS), Some(plan));
      Policy.Decide(POLICY, books, c, 0).allowed
  {
    EvidenceIds();
    var x := PlanBuilders.Context("INC-1", Some("v1"), ["EV-1"], POLICY, 1800, 3600, 0);
    PlanBuilders.BlockPlanPermittedIff(books, BRUTE_FORCE, x, "PLAN-1", DIAGNOSIS, "ACT-1", "ACT-2", {"EV-1"}, 0);
  }

  lemma PolicyAsksForL2(books: Playbooks, plan: RemediationPlan)
    requires |plan.actions| == 1 && plan.actions[0].actionType == BlockIp && plan.requiredRole == Some(SocL2)
    ensures var c := Policy.Case("INC-1", {"EV-1"}, Some("v1"), Some(DIAGNOSIS), Some(plan));
      Policy.Decide(POLICY, books, c, 0).requiredRole == Some(SocL2)
  {
    assert Policy.RegisteredRoles(plan.actions[..0]) == [];
    assert Policy.RegisteredRoles(plan.actions) == [SocL2];
    assert Policy.HighestRole([SocL2]) == Some(SocL2) by {
      assert [SocL2][..0] == [];
    }
  }

  const ASKED := Event(0, SETTINGS, Proceed)
  const ANALYST := [SocL3]

  lemma ReachesExecutor(books: Playbooks, gate: State) returns (approved: Event, granted: Event, after: State)
    requires PlanBuilders.Shipped(books) && gate.node.PolicyGate? && gate.plan == Some(BlockPlan())
    requires CaseOf(gate) == Policy.Case("INC-1", {"EV-1"}, Some("v1"), Some(DIAGNOSIS), gate.plan)
    requires gate.approval.decision.None? && gate.approval.grant.None? && gate.facts.evidenceVersion == Some("v1")
    ensures Run(books, gate, [ASKED, approved, granted]) == Some(after)
    ensures after.node.Execute? && after.approval.grant.Some? && after.approval.grant.value.actionIds == ActionIds(BlockPlan().actions)
    ensures after == gate.(node := Execute, status := Approved, stage := InExecute, approval := after.approval)
  {
    var plan := BlockPlan();
    PolicyAllows(books, plan);
    PolicyAsksForL2(books, plan);
    var role := WorkflowSafety.GateRequests(books, gate, ASKED);
    var request := RequestFor(gate, plan, ComputePlanHash(plan), role, ASKED);
    var submission := Submission(request.approvalId, true, "analyst", ANALYST);
    var grant := Grant(request.approvalId, "EXE-1", ActionIds(plan.actions), "analyst", ANALYST);
    approved := Event(0, SETTINGS, ApprovalPayload(Some(submission)));
    granted := Event(0, SETTINGS, GrantPayload(Some(grant)));
    WorkflowSafety.OneStep(books, gate, ASKED);
    assert Policy.RoleAllows(ANALYST, Some(SocL2)) by {
      assert RoleLevel(ANALYST[0]) >= Policy.RequiredLevel(SocL2);
    }
    assert Run(books, gate, [ASKED]).value.approval.request == Some(request);
    WorkflowSafety.ProperApprovalIsHonoured(books, gate, ASKED, approved, granted, submission, grant);
    after := Run(books, gate, [ASKED, approved, granted]).value;
  }

  const TURN := Executor.Turn(0, 0, Executor.Mapping(Executor.REQUIRED_FIELDS, SOURCE, Some(false)), Executor.Claim(true),
                              Executor.Acknowledged(true), false, false)

  const EXECUTED := Event(0, SETTINGS, ExecutorRuns(true, true, true, {}, [TURN]))
  const RESUMED := Event(60 * SECOND, SETTINGS, WaitPayload(Some("INV-1")))
  const ALL_WELL := Verify.Observed(Some(true), Some(true), Verify.NotConfigured)
  const NO_ALERTS := Some(Verify.AlertPage([], false))
  const VERIFIED := Event(60 * SECOND, SETTINGS, VerifierRuns(ALL_WELL, NO_ALERTS))
  const CLOSED := Event(60 * SECOND, SETTINGS, Proceed)

  lemma BlockIsAccepted(s: State)
    requires s.plan == Some(BlockPlan())
    ensures !Execution(s, EXECUTED).raised && |Execution(s, EXECUTED).results| == 1
    ensures Execution(s, EXECUTED).results[0].status == Executor.Accepted && Execution(s, EXECUTED).results[0].completedAt == 0
  {
    var setup := SetupOf(SETTINGS, EXECUTED.input);
    assert Executor.RunUpTo(setup, BlockPlan(), [TURN], {}, 0) == Executor.Progress([], {}, false);
    assert Executor.ForwardStep(setup, BlockPlan().actions[0], TURN, {}).Reported?;
  }

  lemma ReadyAfterAMinute(results: seq<Executor.ExecutionResult>)
    requires |results| == 1 && results[0].status == Executor.Accepted && results[0].completedAt == 0
    ensures Verify.ReadyAt(results, 60) == Some(60 * SECOND)
  {
    assert Verify.LatestSuccess(results[..0]) == None;
  }

  lemma BlockChecksHold(v: Verify.Subject, s: Verify.VerifySettings)
    requires v.agentId == "001" && !s.requireProbe
    ensures var names := PlanBuilders.BLOCK_SECURITY + PlanBuilders.BLOCK_HEALTH;
      Verify.AllRegistered(names) && Verify.ChecksHold(Verify.Registrations(names), s, v, ALL_WELL, Some([]), false)
  {
    var names := PlanBuilders.BLOCK_SECURITY + PlanBuilders.BLOCK_HEALTH;
    assert names[0] == "ssh_attempts_stopped" && names[1] == "no_new_critical_alerts" && names[2] == "wazuh_agent_connected"
        && names[3] == "ssh_port_listening" && names[4] == "management_ssh_reachable";
    var regs := Verify.Registrations(names);
    assert Verify.IsRequired(regs[0], s) && regs[0].category == Security && Verify.IsRequired(regs[2], s) && regs[2].category == Health;
  }

  lemma EverythingVerified(v: Verify.Subject, s: Verify.VerifySettings)
    requires v.agentId == "001" && v.plan == Some(BlockPlan()) && s == VerifySettingsOf(SETTINGS)
    requires |v.results| == 1 && v.results[0].status == Executor.Accepted && v.results[0].completedAt == 0
    ensures Verify.ReallyVerified(s, v, 60 * SECOND, ALL_WELL, NO_ALERTS)
  {
    ReadyAfterAMinute(v.results);
    assert Verify.Succeeded(v.results[0].status);
    assert Verify.Related(v, NO_ALERTS) == Some([]);
    BlockChecksHold(v, s);
  }

  /** There is a run from a queued investigation to a completed one. */
  lemma SomeRunCompletes(books: Playbooks)
    requires PlanBuilders.Shipped(books)
    ensures exists start, events :: Fresh(start) && Run(books, start, events).Some? && Run(books, start, events).value.status.Completed?
  {
    var first := [COLLECTED, DIAGNOSED, PlanEvent(BlockPlan())];
    var gate := ReachesGate(books, BlockPlan());
    var approved, granted, ready := ReachesExecutor(books, gate);
    var second := [ASKED, approved, granted];
    var third := [EXECUTED, RESUMED, VERIFIED, CLOSED];
    FinishesFrom(books, ready);
    RunsCompose(books, START, first, second);
    RunsCompose(books, START, first + second, third);
  }

  lemma FinishesFrom(books: Playbooks, s: State)
    requires s.node.Execute? && s.plan == Some(BlockPlan()) && s.incident == START.incident
    requires s.approval.grant.Some? && s.approval.grant.value.actionIds == ActionIds(BlockPlan().actions)
    ensures Run(books, s, [EXECUTED, RESUMED, VERIFIED, CLOSED]).Some?
    ensures Run(books, s, [EXECUTED, RESUMED, VERIFIED, CLOSED]).value.status.Completed?
  {
    BlockIsAccepted(s);
    ReadyAfterAMinute(Execution(s, EXECUTED).results);
    EverythingVerified(SubjectOf(s).(results := Execution(s, EXECUTED).results), VerifySettingsOf(SETTINGS));
    ExecutedContainmentCompletes(books, s, EXECUTED, RESUMED, VERIFIED, CLOSED);
  }

  lemma {:induction false} RunsCompose(books: Playbooks, start: State, events: seq<Event>, more: seq<Event>)
    requires Run(books, start, events).Some?
    ensures Run(books, start, events + more) == Run(books, Run(books, start, events).value, more)
  {
    if more == [] {
      assert events + more == events;
    } else {
      var front := more[..|more| - 1];
      assert events + more == (events + front) + [more[|more| - 1]];
      RunsCompose(books, start, events, front);
      assert (events + more)[..|events + more| - 1] == events + front;
    }
  }
}
