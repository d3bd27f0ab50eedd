/**
 The plan builders behind the shipped playbooks, and what their plans always satisfy: validation against
 the published shape, a known condition for policy to allow them, and a rollback that restores the host.
 */
module PlanBuilders {
  import opened Common
  import opened Registries
  import opened Policy
  import Executor

  /** What a builder reads of the workflow; refs list the evidence of the diagnosis. */
  datatype Context = Context(
    incidentId: string, evidenceVersion: Option<string>, refs: seq<string>, settings: PolicySettings, approvalTtlSeconds: int,
    blockTtlSeconds: nat, now: int)

  const BLOCK_SECURITY := ["ssh_attempts_stopped", "no_new_critical_alerts"]
  const BLOCK_HEALTH := ["wazuh_agent_connected", "ssh_port_listening", "management_ssh_reachable"]
  const ACCOUNT_SECURITY := ["no_new_auth_success_for_user", "no_new_critical_alerts"]
  const ACCOUNT_HEALTH := ["wazuh_agent_connected", "management_ssh_reachable"]

  const WAZUH_SCOPE := "wazuh_active_response"

  /** A plan with its identity and hash bound. */
  function Envelope(x: Context, planId: string, playbookId: string, risk: int, action: RemediationAction,
                    rollback: RemediationAction, preconditions: seq<string>, security: seq<string>, health: seq<string>,
                    role: Role): RemediationPlan
  {
    var unbound := RemediationPlan(
      planId, 1, None, playbookId, "1.0", x.incidentId, if x.evidenceVersion.Some? then x.evidenceVersion.value else "",
      x.settings.policyVersion, x.settings.catalogueVersion, x.now + x.approvalTtlSeconds * SECOND, risk, [action],
      preconditions, health, security, [rollback], true, Some(role));
    unbound.(planHash := Some(ComputePlanHash(unbound)))
  }

  function Reverting(actionId: string): map<string, string> { map[REVERTS := actionId] }

  /** Blocks the diagnosed source for a while; there is no plan without one. */
  function BlockSourceIpPlan(x: Context, planId: string, playbookId: string, sourceIp: string, blockId: string,
                             unblockId: string): Option<RemediationPlan>
  {
    if sourceIp == "" then None
    else Some(Envelope(x, planId, playbookId, 1,
      RemediationAction(blockId, BlockIp, sourceIp, map[SCOPE := WAZUH_SCOPE], 15, Some(x.blockTtlSeconds), 1, x.refs),
      RemediationAction(unblockId, UnblockIp, sourceIp, Reverting(blockId), 15, None, 0, x.refs),
      ["source_ip_not_protected", "source_ip_not_approved_admin", "wazuh_agent_connected", "rollback_available"],
      BLOCK_SECURITY, BLOCK_HEALTH, SocL2))
  }

  function Named(users: seq<string>): seq<string>
  {
    if users == [] then [] else (if users[0] == "" then [] else [users[0]]) + Named(users[1..])
  }

  /** Disables the one compromised account; none or several are refused. */
  function DisableUserPlan(x: Context, planId: string, playbookId: string, users: seq<string>, disableId: string,
                           enableId: string): Option<RemediationPlan>
  {
    if |Named(users)| != 1 then None
    else Some(Envelope(x, planId, playbookId, 2,
      RemediationAction(disableId, DisableUser, Named(users)[0], map[SCOPE := WAZUH_SCOPE], 15, None, 2, x.refs),
      RemediationAction(enableId, EnableUser, Named(users)[0], Reverting(disableId), 15, None, 1, x.refs),
      ["account_not_protected", "source_not_approved_admin", "wazuh_agent_connected", "rollback_available"],
      ACCOUNT_SECURITY, ACCOUNT_HEALTH, SocL3))
  }

  // ---- Built plans are valid --------------------------------------------------------------------

  ghost predicate Shipped(books: Registries.Playbooks)
  {
    && BRUTE_FORCE.key in books && books[BRUTE_FORCE.key] == BRUTE_FORCE
    && PASSWORD_SPRAY.key in books && books[PASSWORD_SPRAY.key] == PASSWORD_SPRAY
    && CREDENTIAL_COMPROMISE.key in books && books[CREDENTIAL_COMPROMISE.key] == CREDENTIAL_COMPROMISE
  }

  lemma ChecksDiffer()
    ensures Distinct(BLOCK_SECURITY) && Distinct(BLOCK_HEALTH) && Distinct(ACCOUNT_SECURITY) && Distinct(ACCOUNT_HEALTH)
  {
    assert |BLOCK_SECURITY[0]| == 20 && |BLOCK_SECURITY[1]| == 22;
    assert |BLOCK_HEALTH[0]| == 21 && |BLOCK_HEALTH[1]| == 18 && |BLOCK_HEALTH[2]| == 24;
    assert |ACCOUNT_SECURITY[0]| == 28 && |ACCOUNT_SECURITY[1]| == 22;
    assert |ACCOUNT_HEALTH[0]| == 21 && |ACCOUNT_HEALTH[1]| == 24;
  }

  lemma PairMembers(xs: seq<string>)
    requires |xs| == 2
    ensures Members(xs) == {xs[0], xs[1]}
  {
    assert xs[0] in Members(xs) && xs[1] in Members(xs);
  }

  lemma TripleMembers(xs: seq<string>)
    requires |xs| == 3
    ensures Members(xs) == {xs[0], xs[1], xs[2]}
  {
    assert xs[0] in Members(xs) && xs[1] in Members(xs) && xs[2] in Members(xs);
  }

  lemma CheckMembers()
    ensures Members(BLOCK_SECURITY) == BRUTE_FORCE.securityChecks == PASSWORD_SPRAY.securityChecks
    ensures Members(BLOCK_HEALTH) == SSH_HEALTH_CHECKS
    ensures Members(ACCOUNT_SECURITY) == CREDENTIAL_COMPROMISE.securityChecks
    ensures Members(ACCOUNT_HEALTH) == CREDENTIAL_COMPROMISE.healthChecks
  {
    PairMembers(BLOCK_SECURITY);
    TripleMembers(BLOCK_HEALTH);
    PairMembers(ACCOUNT_SECURITY);
    PairMembers(ACCOUNT_HEALTH);
  }

  /** A plan of one action and its exact rollback, with its book's checks, is valid. */
  lemma SingleActionPlanIsValid(books: Registries.Playbooks, book: Playbook, plan: RemediationPlan, diagnosisType: string)
    requires book.key == PlaybookKey(plan.playbookId, plan.playbookVersion) && book.key in books && books[book.key] == book
    requires diagnosisType in book.incidentTypes
    requires |plan.actions| == |plan.rollbackActions| == 1 == book.actionCount == book.rollbackCount
    requires RevertsExactly(plan.rollbackActions[0], plan.actions[0])
    requires plan.actions[0].parameters.Keys == {SCOPE}
    requires plan.actions[0].actionType in book.actionTypes && plan.rollbackActions[0].actionType in book.rollbackTypes
    requires Distinct(plan.securityChecks) && Distinct(plan.healthChecks)
    requires Members(plan.securityChecks) == book.securityChecks && Members(plan.healthChecks) == book.healthChecks
    ensures ValidatePlan(books, plan, Some(diagnosisType)).Ok?
  {
    assert ExactMatches(plan.rollbackActions[1..], plan.actions[0]) == 0;
    assert ActionError(plan, plan.actions[0]).None?;
    assert FirstActionError(plan, plan.actions[1..]).None?;
  }

  /** Every plan the block builder makes for its playbooks is valid for the diagnoses they publish. */
  lemma BlockPlanIsValid(books: Registries.Playbooks, book: Playbook, x: Context, planId: string, sourceIp: string,
                         blockId: string, unblockId: string, diagnosisType: string)
    requires Shipped(books) && (book == BRUTE_FORCE || book == PASSWORD_SPRAY) && diagnosisType in book.incidentTypes
    requires BlockSourceIpPlan(x, planId, book.key.playbookId, sourceIp, blockId, unblockId).Some?
    ensures var plan := BlockSourceIpPlan(x, planId, book.key.playbookId, sourceIp, blockId, unblockId).value;
      ValidatePlan(books, plan, Some(diagnosisType)).Ok?
  {
    ChecksDiffer();
    CheckMembers();
    var plan := BlockSourceIpPlan(x, planId, book.key.playbookId, sourceIp, blockId, unblockId).value;
    SingleActionPlanIsValid(books, book, plan, diagnosisType);
  }

  /** And so is every plan of the account builder. */
  lemma AccountPlanIsValid(books: Registries.Playbooks, x: Context, planId: string, users: seq<string>,
                           disableId: string, enableId: string, diagnosisType: string)
    requires Shipped(books) && diagnosisType in CREDENTIAL_COMPROMISE.incidentTypes
    requires DisableUserPlan(x, planId, CREDENTIAL_COMPROMISE.key.playbookId, users, disableId, enableId).Some?
    ensures var plan := DisableUserPlan(x, planId, CREDENTIAL_COMPROMISE.key.playbookId, users, disableId, enableId).value;
      ValidatePlan(books, plan, Some(diagnosisType)).Ok?
  {
    ChecksDiffer();
    CheckMembers();
    var plan := DisableUserPlan(x, planId, CREDENTIAL_COMPROMISE.key.playbookId, users, disableId, enableId).value;
    SingleActionPlanIsValid(books, CREDENTIAL_COMPROMISE, plan, diagnosisType);
  }

  // ---- Built plans can be taken back ------------------------------------------------------------

  /** Whatever the provider does with a block or a disablement, rolling back a returning run of a built plan
      restores the host, as long as snapshots are true and the inverse command works. */
  lemma BuiltPlanIsRestored(setup: Executor.Setup, books: Registries.Playbooks, book: Playbook, plan: RemediationPlan,
      diagnosisType: string, turn: Executor.Turn, rollbackTurn: Executor.RollbackTurn, host: Executor.Host)
    requires book.key == PlaybookKey(plan.playbookId, plan.playbookVersion) && book.key in books && books[book.key] == book
    requires Reversible(book) && |plan.actions| == |plan.rollbackActions| == 1
    requires ValidatePlan(books, plan, Some(diagnosisType)).Ok?
    requires Executor.Truthful(setup, plan.actions[0], turn.snapshot, host)
    requires !Executor.RunUpTo(setup, plan, [turn], host, 1).raised
    requires var p := Executor.RunUpTo(setup, plan, [turn], host, 1);
      Executor.Assisted(setup, p.results, plan.rollbackActions[0], rollbackTurn, p.host)
    ensures var p := Executor.RunUpTo(setup, plan, [turn], host, 1);
      Executor.RollbackUpTo(setup, plan, p.results, [], [rollbackTurn], p.host, 1).host == host
  {
    ValidActionsAreReversible(books, book, plan, diagnosisType);
    assert Executor.TruthfulRun(setup, plan, [turn], host, 1) by {
      assert Executor.RunUpTo(setup, plan, [turn], host, 0).host == host;
    }
    var p := Executor.RunUpTo(setup, plan, [turn], host, 1);
    assert Executor.AssistedRollback(setup, plan, p.results, [], [rollbackTurn], p.host, 1) by {
      assert Executor.RollbackUpTo(setup, plan, p.results, [], [rollbackTurn], p.host, 0).host == p.host;
    }
    Executor.RunThenRollbackRestores(setup, setup, books, plan, Some(diagnosisType), [turn], [], [rollbackTurn], host);
  }

  lemma ValidActionsAreReversible(books: Registries.Playbooks, book: Playbook, plan: RemediationPlan, diagnosisType: string)
    requires book.key == PlaybookKey(plan.playbookId, plan.playbookVersion) && book.key in books && books[book.key] == book
    requires Reversible(book) && ValidatePlan(books, plan, Some(diagnosisType)).Ok?
    ensures forall i :: 0 <= i < |plan.actions| ==> RollbackTypeOf(plan.actions[i].actionType).Some?
  {
  }

  // ---- When policy allows a built plan ----------------------------------------------------------

  /** A built block is allowed exactly while it is fresh and the source is neither protected nor an
      administrator's, on a confident diagnosis whose evidence is known. */
  lemma BlockPlanPermittedIff(books: Registries.Playbooks, book: Playbook, x: Context, planId: string, d: Policy.Diagnosis,
                              blockId: string, unblockId: string, evidence: set<string>, now: int)
    requires Shipped(books) && (book == BRUTE_FORCE || book == PASSWORD_SPRAY)
    requires d.incidentType in book.incidentTypes && d.evidenceIds == Members(x.refs) && d.sourceIp != ""
    ensures
      var plan := BlockSourceIpPlan(x, planId, book.key.playbookId, d.sourceIp, blockId, unblockId).value;
      Decide(x.settings, books, Case(x.incidentId, evidence, x.evidenceVersion, Some(d), Some(plan)), now).allowed <==>
        && d.confidence >= x.settings.confidenceThreshold
        && Grounded(d.evidenceIds, evidence)
        && x.settings.catalogueVersion == ACTION_CATALOGUE_VERSION
        && now < x.now + x.approvalTtlSeconds * SECOND
        && d.sourceIp !in x.settings.protectedIps && d.sourceIp !in x.settings.adminIps
  {
    var plan := BlockSourceIpPlan(x, planId, book.key.playbookId, d.sourceIp, blockId, unblockId).value;
    var c := Case(x.incidentId, evidence, x.evidenceVersion, Some(d), Some(plan));
    AllowedIffPermitted(x.settings, books, c, now);
    BlockPlanIsValid(books, book, x, planId, d.sourceIp, blockId, unblockId, d.incidentType);
    BlockPlanDetails(x, planId, book.key.playbookId, d, blockId, unblockId, c);
    SingleActionPermits(x.settings, books, c, d, plan, now);
  }

  /** For a valid plan of one action and one rollback, what is left to check. */
  lemma SingleActionPermits(s: PolicySettings, books: Registries.Playbooks, c: Case, d: Policy.Diagnosis, p: RemediationPlan, now: int)
    requires |p.actions| == |p.rollbackActions| == 1 && ValidatePlan(books, p, Some(d.incidentType)).Ok?
    requires HashIsCurrent(p) && CoversRisk(p)
    requires forall i :: 0 <= i < |p.securityChecks| ==> Known(p.securityChecks[i])
    requires forall i :: 0 <= i < |p.healthChecks| ==> Known(p.healthChecks[i])
    ensures Permits(s, books, c, d, p, now) <==>
      && d.confidence >= s.confidenceThreshold && Grounded(d.evidenceIds, c.evidence)
      && p.incidentId == c.incidentId && VersionIs(p.evidenceVersion, c.evidenceVersion)
      && p.policyVersion == s.policyVersion && p.catalogueVersion == s.catalogueVersion == ACTION_CATALOGUE_VERSION
      && now < p.expiresAt
      && PermitsAction(s, c, d, p.actions[0]) && PermitsRollback(c, p.rollbackActions[0])
  {
  }

  /** The parts of the permission that a built block always meets, and the one it meets by its target. */
  lemma BlockPlanDetails(x: Context, planId: string, playbookId: string, d: Policy.Diagnosis, blockId: string,
                         unblockId: string, c: Case)
    requires d.evidenceIds == Members(x.refs) && d.sourceIp != ""
    ensures var plan := BlockSourceIpPlan(x, planId, playbookId, d.sourceIp, blockId, unblockId).value;
      && HashIsCurrent(plan) && CoversRisk(plan)
      && (forall i :: 0 <= i < |plan.securityChecks| ==> Known(plan.securityChecks[i]))
      && (forall i :: 0 <= i < |plan.healthChecks| ==> Known(plan.healthChecks[i]))
      && (PermitsAction(x.settings, c, d, plan.actions[0]) <==>
            Grounded(d.evidenceIds, c.evidence) && d.sourceIp !in x.settings.protectedIps + x.settings.adminIps)
      && (PermitsRollback(c, plan.rollbackActions[0]) <==> Grounded(d.evidenceIds, c.evidence))
  {
  }
}
