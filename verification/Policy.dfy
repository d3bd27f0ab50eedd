/**
 The policy gate: deterministic reasons to refuse a plan, and the role an approver of it must hold.
 */
module Policy {
  import opened Common
  import opened Registries

  // ---- Roles ------------------------------------------------------------------------------------

  /** Level a required role asks for; an unknown one asks for more than anybody has. */
  function RequiredLevel(r: Role): nat
  {
    if r.OtherRole? then 99 else RoleLevel(r)
  }

  predicate RoleAllows(roles: seq<Role>, required: Option<Role>)
  {
    required.None? || exists i :: 0 <= i < |roles| && RoleLevel(roles[i]) >= RequiredLevel(required.value)
  }

  function HigherRole(first: Option<Role>, second: Option<Role>): Option<Role>
  {
    if first.None? then second
    else if second.None? then first
    else if RequiredLevel(second.value) > RequiredLevel(first.value) then second
    else first
  }

  /** The first of the highest roles. */
  function HighestRole(roles: seq<Role>): Option<Role>
  {
    if roles == [] then None else HigherRole(HighestRole(roles[..|roles| - 1]), Some(roles[|roles| - 1]))
  }

  // ---- Inputs -----------------------------------------------------------------------------------

  /** sourceIp is in canonical form, and empty when there is none. */
  datatype Diagnosis = Diagnosis(incidentType: string, confidence: real, evidenceIds: set<string>, sourceIp: string)

  datatype PolicySettings = PolicySettings(
    confidenceThreshold: real,
    policyVersion: string,
    catalogueVersion: string,
    protectedIps: set<string>,
    adminIps: set<string>,
    protectedAccounts: set<string>,
    protectedProcesses: set<string>,
    protectedServices: set<string>)

  const ACTION_CATALOGUE_VERSION := "1.0"

  datatype Case = Case(
    incidentId: string,
    evidence: set<string>,
    evidenceVersion: Option<string>,
    diagnosis: Option<Diagnosis>,
    plan: Option<RemediationPlan>)

  datatype Reason =
    | MissingDiagnosisOrPlan | LowConfidence | InvalidEvidenceReferences | PlanIncidentMismatch
    | PlanEvidenceVersionMismatch | PlanPolicyVersionMismatch | CatalogueVersionMismatch | PlanExpired
    | PlanHashMismatch | InvalidPlaybookRegistration | RollbackUnavailable | UnregisteredAction
    | InvalidActionEvidence | TargetNotEvidenceBound | ProtectedIp | ApprovedAdminIp | BlockTtlRequired
    | ProtectedAccount | ProtectedProcess | ProtectedService | UnregisteredRollback | InvalidRollbackEvidence
    | UnregisteredCheck | PlanRiskTooLow | PolicyPassed

  datatype PolicyDecision = PolicyDecision(allowed: bool, approvalRequired: bool, requiredRole: Option<Role>, reasons: seq<Reason>)

  // ---- The decision -----------------------------------------------------------------------------

  function When(b: bool, r: Reason): seq<Reason> { if b then [r] else [] }

  predicate Grounded(refs: set<string>, evidence: set<string>) { refs != {} && refs <= evidence }

  predicate HashIsCurrent(p: RemediationPlan) { p.planHash == Some(ComputePlanHash(p)) }

  predicate VersionIs(version: string, stored: Option<string>)
  {
    version == if stored.Some? then stored.value else ""
  }

  function PlanReasons(s: PolicySettings, books: Playbooks, c: Case, d: Diagnosis, p: RemediationPlan, now: int): seq<Reason>
  {
    When(d.confidence < s.confidenceThreshold, LowConfidence)
    + When(!Grounded(d.evidenceIds, c.evidence), InvalidEvidenceReferences)
    + When(p.incidentId != c.incidentId, PlanIncidentMismatch)
    + When(!VersionIs(p.evidenceVersion, c.evidenceVersion), PlanEvidenceVersionMismatch)
    + When(p.policyVersion != s.policyVersion, PlanPolicyVersionMismatch)
    + When(p.catalogueVersion != s.catalogueVersion || p.catalogueVersion != ACTION_CATALOGUE_VERSION, CatalogueVersionMismatch)
    + When(p.expiresAt <= now, PlanExpired)
    + When(!HashIsCurrent(p), PlanHashMismatch)
    + When(ValidatePlan(books, p, Some(d.incidentType)).Err?, InvalidPlaybookRegistration)
    + When(p.actions != [] && p.rollbackActions == [], RollbackUnavailable)
  }

  predicate RunsService(t: ActionType) { t.StopService? || t.RestartService? }

  function ActionReasons(s: PolicySettings, c: Case, d: Diagnosis, a: RemediationAction): seq<Reason>
  {
    When(Registered(a.actionType).None?, Reason.UnregisteredAction)
    + When(!Grounded(Members(a.evidenceRefs), c.evidence), InvalidActionEvidence)
    + When(a.actionType.BlockIp? && (d.sourceIp == "" || a.target != d.sourceIp), TargetNotEvidenceBound)
    + When(a.actionType.BlockIp? && a.target in s.protectedIps, ProtectedIp)
    + When(a.actionType.BlockIp? && a.target in s.adminIps, ApprovedAdminIp)
    + When(a.actionType.BlockIp? && a.ttlSeconds.None?, BlockTtlRequired)
    + When(a.actionType.DisableUser? && a.target in s.protectedAccounts, ProtectedAccount)
    + When(RunsService(a.actionType) && a.target in s.protectedProcesses, ProtectedProcess)
    + When((RunsService(a.actionType) || a.actionType.StartService?) && a.target in s.protectedServices, ProtectedService)
  }

  function AllActionReasons(s: PolicySettings, c: Case, d: Diagnosis, actions: seq<RemediationAction>): seq<Reason>
  {
    if actions == [] then []
    else AllActionReasons(s, c, d, actions[..|actions| - 1]) + ActionReasons(s, c, d, actions[|actions| - 1])
  }

  function RollbackReasons(c: Case, a: RemediationAction): seq<Reason>
  {
    When(Registered(a.actionType).None?, UnregisteredRollback)
    + When(!Grounded(Members(a.evidenceRefs), c.evidence), InvalidRollbackEvidence)
  }

  function AllRollbackReasons(c: Case, actions: seq<RemediationAction>): seq<Reason>
  {
    if actions == [] then []
    else AllRollbackReasons(c, actions[..|actions| - 1]) + RollbackReasons(c, actions[|actions| - 1])
  }

  function CheckReasons(checks: seq<string>): seq<Reason>
  {
    if checks == [] then []
    else CheckReasons(checks[..|checks| - 1]) + When(RegisteredCheck(checks[|checks| - 1]).None?, UnregisteredCheck)
  }

  function MaximumRisk(actions: seq<RemediationAction>): int
  {
    if actions == [] then 0
    else if |actions| == 1 then actions[0].riskLevel
    else Max(MaximumRisk(actions[..|actions| - 1]), actions[|actions| - 1].riskLevel)
  }

  function RegisteredRoles(actions: seq<RemediationAction>): seq<Role>
  {
    if actions == [] then []
    else
      var registration := Registered(actions[|actions| - 1].actionType);
      RegisteredRoles(actions[..|actions| - 1]) + (if registration.Some? then [registration.value.minimumRole] else [])
  }

  predicate Mutates(a: RemediationAction)
  {
    Registered(a.actionType).Some? && Registered(a.actionType).value.mutating
  }

  function AllReasons(s: PolicySettings, books: Playbooks, c: Case, d: Diagnosis, p: RemediationPlan, now: int): seq<Reason>
  {
    PlanReasons(s, books, c, d, p, now)
    + AllActionReasons(s, c, d, p.actions)
    + AllRollbackReasons(c, p.rollbackActions)
    + CheckReasons(p.securityChecks + p.healthChecks)
    + When(p.riskLevel < MaximumRisk(p.actions), PlanRiskTooLow)
  }

  function Decide(s: PolicySettings, books: Playbooks, c: Case, now: int): PolicyDecision
  {
    if c.diagnosis.None? || c.plan.None? then PolicyDecision(false, false, None, [MissingDiagnosisOrPlan])
    else
      var p := c.plan.value;
      var reasons := AllReasons(s, books, c, c.diagnosis.value, p, now);
      PolicyDecision(
        reasons == [],
        p.approvalRequired || exists i :: 0 <= i < |p.actions| && Mutates(p.actions[i]),
        HigherRole(p.requiredRole, HighestRole(RegisteredRoles(p.actions))),
        if reasons == [] then [PolicyPassed] else Dedupe(reasons))
  }

  /** The gate as it runs: reasons and roles collected item by item. */
  method Evaluate(s: PolicySettings, books: Playbooks, c: Case, now: int) returns (decision: PolicyDecision)
    ensures decision == Decide(s, books, c, now)
  {
    if c.diagnosis.None? || c.plan.None? {
      return PolicyDecision(false, false, None, [MissingDiagnosisOrPlan]);
    }
    var d, p := c.diagnosis.value, c.plan.value;
    var actions, roles, mutating := ScanActions(s, c, d, p.actions);
    var rollbacks := ScanRollbacks(c, p.rollbackActions);
    var checks := ScanChecks(p.securityChecks + p.healthChecks);
    var risk := When(p.riskLevel < MaximumRisk(p.actions), PlanRiskTooLow);
    var reasons := PlanReasons(s, books, c, d, p, now) + actions + rollbacks + checks + risk;
    return PolicyDecision(reasons == [], p.approvalRequired || mutating, HigherRole(p.requiredRole, HighestRole(roles)),
                          if reasons == [] then [PolicyPassed] else Dedupe(reasons));
  }

  method ScanActions(s: PolicySettings, c: Case, d: Diagnosis, actions: seq<RemediationAction>)
      returns (reasons: seq<Reason>, roles: seq<Role>, mutating: bool)
    ensures reasons == AllActionReasons(s, c, d, actions)
    ensures roles == RegisteredRoles(actions)
    ensures mutating <==> exists i :: 0 <= i < |actions| && Mutates(actions[i])
  {
    reasons, roles, mutating := [], [], false;
    for k := 0 to |actions|
      invariant reasons == AllActionReasons(s, c, d, actions[..k])
      invariant roles == RegisteredRoles(actions[..k])
      invariant mutating <==> exists i :: 0 <= i < k && Mutates(actions[i])
    {
      assert actions[..k + 1][..k] == actions[..k];
      var registration := Registered(actions[k].actionType);
      if registration.Some? {
        roles := roles + [registration.value.minimumRole];
        mutating := mutating || registration.value.mutating;
      }
      reasons := reasons + ActionReasons(s, c, d, actions[k]);
    }
    assert actions[..|actions|] == actions;
  }

  method ScanRollbacks(c: Case, actions: seq<RemediationAction>) returns (reasons: seq<Reason>)
    ensures reasons == AllRollbackReasons(c, actions)
  {
    reasons := [];
    for k := 0 to |actions|
      invariant reasons == AllRollbackReasons(c, actions[..k])
    {
      assert actions[..k + 1][..k] == actions[..k];
      reasons := reasons + RollbackReasons(c, actions[k]);
    }
    assert actions[..|actions|] == actions;
  }

  method ScanChecks(checks: seq<string>) returns (reasons: seq<Reason>)
    ensures reasons == CheckReasons(checks)
  {
    reasons := [];
    for k := 0 to |checks|
      invariant reasons == CheckReasons(checks[..k])
    {
      assert checks[..k + 1][..k] == checks[..k];
      reasons := reasons + When(RegisteredCheck(checks[k]).None?, UnregisteredCheck);
    }
    assert checks[..|checks|] == checks;
  }

  // ---- What the decision means ------------------------------------------------------------------

  /** The plan may be carried out on this evidence: what the gate is for, said at once. */
  ghost predicate Permits(s: PolicySettings, books: Playbooks, c: Case, d: Diagnosis, p: RemediationPlan, now: int)
  {
    && d.confidence >= s.confidenceThreshold
    && Grounded(d.evidenceIds, c.evidence)
    && p.incidentId == c.incidentId
    && VersionIs(p.evidenceVersion, c.evidenceVersion)
    && p.policyVersion == s.policyVersion
    && p.catalogueVersion == s.catalogueVersion == ACTION_CATALOGUE_VERSION
    && now < p.expiresAt
    && HashIsCurrent(p)
    && ValidatePlan(books, p, Some(d.incidentType)).Ok?
    && (p.actions != [] ==> p.rollbackActions != [])
    && (forall i :: 0 <= i < |p.actions| ==> PermitsAction(s, c, d, p.actions[i]))
    && (forall i :: 0 <= i < |p.rollbackActions| ==> PermitsRollback(c, p.rollbackActions[i]))
    && (forall i :: 0 <= i < |p.securityChecks| ==> Known(p.securityChecks[i]))
    && (forall i :: 0 <= i < |p.healthChecks| ==> Known(p.healthChecks[i]))
    && CoversRisk(p)
  }

  /** The plan declares no less risk than any of its actions, and no negative one if it has none. */
  ghost predicate CoversRisk(p: RemediationPlan)
  {
    (p.actions == [] ==> p.riskLevel >= 0) && forall i :: 0 <= i < |p.actions| ==> p.actions[i].riskLevel <= p.riskLevel
  }

  ghost predicate PermitsAction(s: PolicySettings, c: Case, d: Diagnosis, a: RemediationAction)
  {
    && Registered(a.actionType).Some?
    && Grounded(Members(a.evidenceRefs), c.evidence)
    && (a.actionType.BlockIp? ==>
          d.sourceIp != "" && a.target == d.sourceIp && a.target !in s.protectedIps + s.adminIps && a.ttlSeconds.Some?)
    && (a.actionType.DisableUser? ==> a.target !in s.protectedAccounts)
    && (RunsService(a.actionType) ==> a.target !in s.protectedProcesses + s.protectedServices)
    && (a.actionType.StartService? ==> a.target !in s.protectedServices)
  }

  ghost predicate PermitsRollback(c: Case, a: RemediationAction)
  {
    Registered(a.actionType).Some? && Grounded(Members(a.evidenceRefs), c.evidence)
  }

  lemma ActionReasonsSay(s: PolicySettings, c: Case, d: Diagnosis, a: RemediationAction)
    ensures ActionReasons(s, c, d, a) == [] <==> PermitsAction(s, c, d, a)
  {
  }

  lemma {:induction false} AllActionReasonsSay(s: PolicySettings, c: Case, d: Diagnosis, actions: seq<RemediationAction>)
    ensures AllActionReasons(s, c, d, actions) == [] <==> forall i :: 0 <= i < |actions| ==> PermitsAction(s, c, d, actions[i])
  {
    if actions != [] {
      AllActionReasonsSay(s, c, d, actions[..|actions| - 1]);
      ActionReasonsSay(s, c, d, actions[|actions| - 1]);
    }
  }

  lemma {:induction false} AllRollbackReasonsSay(c: Case, actions: seq<RemediationAction>)
    ensures AllRollbackReasons(c, actions) == [] <==> forall i :: 0 <= i < |actions| ==> PermitsRollback(c, actions[i])
  {
    if actions != [] {
      AllRollbackReasonsSay(c, actions[..|actions| - 1]);
    }
  }

  predicate Known(check: string) { RegisteredCheck(check).Some? }

  lemma {:induction false} CheckReasonsSay(checks: seq<string>)
    ensures CheckReasons(checks) == [] <==> forall i :: 0 <= i < |checks| ==> Known(checks[i])
  {
    if checks != [] {
      var front, last := checks[..|checks| - 1], checks[|checks| - 1];
      CheckReasonsSay(front);
      CheckReasonsStep(checks);
      assert forall i :: 0 <= i < |front| ==> checks[i] == front[i];
    }
  }

  lemma CheckReasonsStep(checks: seq<string>)
    requires checks != []
    ensures CheckReasons(checks) == [] <==> CheckReasons(checks[..|checks| - 1]) == [] && Known(checks[|checks| - 1])
  {
  }

  lemma {:induction false} MaximumRiskIsMaximum(actions: seq<RemediationAction>, level: int)
    requires actions != []
    ensures level >= MaximumRisk(actions) <==> forall i :: 0 <= i < |actions| ==> actions[i].riskLevel <= level
  {
    if |actions| > 1 {
      MaximumRiskIsMaximum(actions[..|actions| - 1], level);
    }
  }

  lemma PlanReasonsSay(s: PolicySettings, books: Playbooks, c: Case, d: Diagnosis, p: RemediationPlan, now: int)
    ensures PlanReasons(s, books, c, d, p, now) == [] <==>
      && d.confidence >= s.confidenceThreshold
      && Grounded(d.evidenceIds, c.evidence)
      && p.incidentId == c.incidentId
      && VersionIs(p.evidenceVersion, c.evidenceVersion)
      && p.policyVersion == s.policyVersion
      && p.catalogueVersion == s.catalogueVersion == ACTION_CATALOGUE_VERSION
      && now < p.expiresAt
      && HashIsCurrent(p)
      && ValidatePlan(books, p, Some(d.incidentType)).Ok?
      && (p.actions != [] ==> p.rollbackActions != [])
  {
  }

  lemma Concatenated<T>(a: seq<T>, b: seq<T>, c: seq<T>, d: seq<T>, e: seq<T>)
    ensures a + b + c + d + e == [] <==> a == [] && b == [] && c == [] && d == [] && e == []
  {
    assert |a + b + c + d + e| == |a| + |b| + |c| + |d| + |e|;
  }

  /** The gate opens exactly for the plans that may be carried out. */
  lemma AllowedIffPermitted(s: PolicySettings, books: Playbooks, c: Case, now: int)
    ensures Decide(s, books, c, now).allowed <==>
      c.diagnosis.Some? && c.plan.Some? && Permits(s, books, c, c.diagnosis.value, c.plan.value, now)
  {
    if c.diagnosis.Some? && c.plan.Some? {
      var d, p := c.diagnosis.value, c.plan.value;
      PlanReasonsSay(s, books, c, d, p, now);
      AllActionReasonsSay(s, c, d, p.actions);
      AllRollbackReasonsSay(c, p.rollbackActions);
      var checks := p.securityChecks + p.healthChecks;
      CheckReasonsSay(checks);
      ChecksSplit(p.securityChecks, p.healthChecks);
      RiskSays(p);
      Concatenated(PlanReasons(s, books, c, d, p, now), AllActionReasons(s, c, d, p.actions),
                   AllRollbackReasons(c, p.rollbackActions), CheckReasons(checks),
                   When(p.riskLevel < MaximumRisk(p.actions), PlanRiskTooLow));
    }
  }

  lemma RiskSays(p: RemediationPlan)
    ensures p.riskLevel >= MaximumRisk(p.actions) <==> CoversRisk(p)
  {
    if p.actions != [] {
      MaximumRiskIsMaximum(p.actions, p.riskLevel);
    }
  }

  lemma ChecksSplit(a: seq<string>, b: seq<string>)
    ensures (forall i :: 0 <= i < |a + b| ==> Known((a + b)[i])) <==>
      && (forall i :: 0 <= i < |a| ==> Known(a[i]))
      && (forall i :: 0 <= i < |b| ==> Known(b[i]))
  {
    assert forall i :: 0 <= i < |a| ==> (a + b)[i] == a[i];
    assert forall i :: 0 <= i < |b| ==> (a + b)[|a| + i] == b[i];
  }

  // ---- What the required role means -------------------------------------------------------------

  /** Whoever meets the higher of two requirements meets both. */
  lemma HigherRoleCoversBoth(roles: seq<Role>, first: Option<Role>, second: Option<Role>)
    requires RoleAllows(roles, HigherRole(first, second))
    ensures RoleAllows(roles, first) && RoleAllows(roles, second)
  {
    if first.Some? && second.Some? {
      var i :| 0 <= i < |roles| && RoleLevel(roles[i]) >= RequiredLevel(HigherRole(first, second).value);
    }
  }

  lemma {:induction false} HighestRoleCoversEach(roles: seq<Role>, required: seq<Role>)
    requires RoleAllows(roles, HighestRole(required))
    ensures forall i :: 0 <= i < |required| ==> RoleAllows(roles, Some(required[i]))
  {
    if required != [] {
      var n := |required| - 1;
      HigherRoleCoversBoth(roles, HighestRole(required[..n]), Some(required[n]));
      HighestRoleCoversEach(roles, required[..n]);
    }
  }

  lemma {:induction false} RegisteredRolesHasEach(actions: seq<RemediationAction>, i: nat)
    requires i < |actions| && Registered(actions[i].actionType).Some?
    ensures Registered(actions[i].actionType).value.minimumRole in RegisteredRoles(actions)
  {
    if i < |actions| - 1 {
      RegisteredRolesHasEach(actions[..|actions| - 1], i);
    }
  }

  /** These roles rank at or above what every one of the actions demands. */
  ghost predicate Outranks(roles: seq<Role>, actions: seq<RemediationAction>)
  {
    forall i :: 0 <= i < |actions| && Registered(actions[i].actionType).Some? ==>
      RoleAllows(roles, Some(Registered(actions[i].actionType).value.minimumRole))
  }

  /** Meeting the role the gate asks for means outranking every action, and what the plan itself asks for. */
  lemma RequiredRoleCoversActions(s: PolicySettings, books: Playbooks, c: Case, now: int, roles: seq<Role>)
    requires c.diagnosis.Some? && c.plan.Some?
    requires RoleAllows(roles, Decide(s, books, c, now).requiredRole)
    ensures Outranks(roles, c.plan.value.actions) && RoleAllows(roles, c.plan.value.requiredRole)
  {
    var p := c.plan.value;
    var required := RegisteredRoles(p.actions);
    HigherRoleCoversBoth(roles, p.requiredRole, HighestRole(required));
    HighestRoleCoversEach(roles, required);
    forall i | 0 <= i < |p.actions| && Registered(p.actions[i].actionType).Some?
      ensures RoleAllows(roles, Some(Registered(p.actions[i].actionType).value.minimumRole))
    {
      RegisteredRolesHasEach(p.actions, i);
    }
  }

  /** A plan that does something always needs an approval by somebody of a known role. */
  lemma ActionsNeedApproval(s: PolicySettings, books: Playbooks, c: Case, now: int)
    requires Decide(s, books, c, now).allowed && c.plan.value.actions != []
    ensures Decide(s, books, c, now).approvalRequired && Decide(s, books, c, now).requiredRole.Some?
  {
    AllowedIffPermitted(s, books, c, now);
    var actions := c.plan.value.actions;
    assert Registered(actions[0].actionType).Some? by {
      assert PermitsAction(s, c, c.diagnosis.value, actions[0]);
    }
    ActionHasRole(actions);
  }

  lemma ActionHasRole(actions: seq<RemediationAction>)
    requires actions != [] && Registered(actions[0].actionType).Some?
    ensures HighestRole(RegisteredRoles(actions)).Some? && Mutates(actions[0])
  {
    RegisteredRolesHasEach(actions, 0);
    HighestRoleExists(RegisteredRoles(actions));
  }

  lemma HighestRoleExists(roles: seq<Role>)
    requires roles != []
    ensures HighestRole(roles).Some?
  {
  }
}
