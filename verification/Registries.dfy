/**
 Code-owned registries: which actions exist and how each is undone, which checks exist, and which plans a
 published playbook admits.
 */
module Registries {
  import opened Common

  datatype ActionType =
    | BlockIp | UnblockIp | IsolateHost | RestoreNetworkAccess | DisableUser | EnableUser
    | StopService | StartService | RestartService | QuarantineFile | RestoreFile
    | ApplyApprovedPatch | RestoreConfiguration | IncreaseMonitoring

  datatype Role = SocL1 | SocL2 | SocL3 | SecurityAdmin | OtherRole(name: string)

  /** Rank of a role an actor carries; an unknown one ranks below all. */
  function RoleLevel(r: Role): nat
  {
    match r
    case SocL1 => 1
    case SocL2 => 2
    case SocL3 => 3
    case SecurityAdmin => 4
    case OtherRole(_) => 0
  }

  datatype ExecutorKey =
    | FirewallDropKey | FirewallDropDeleteKey | DisableAccountKey | DisableAccountDeleteKey | UnmappedKey(name: string)

  datatype ActionRegistration = ActionRegistration(
    actionType: ActionType,
    executorKey: ExecutorKey,
    minimumRole: Role,
    rollbackType: Option<ActionType>,
    allowedParameters: set<string>,
    mutating: bool)

  datatype RegistryError = AlreadyRegistered | UnknownAction | UnknownCheck

  const SCOPE := "scope"
  const REVERTS := "reverts_action_id"

  /** The shipped action catalogue. */
  function Registered(t: ActionType): Option<ActionRegistration>
  {
    match t
    case BlockIp => Some(ActionRegistration(BlockIp, FirewallDropKey, SocL2, Some(UnblockIp), {SCOPE}, true))
    case UnblockIp => Some(ActionRegistration(UnblockIp, FirewallDropDeleteKey, SocL2, None, {REVERTS}, true))
    case DisableUser => Some(ActionRegistration(DisableUser, DisableAccountKey, SocL3, Some(EnableUser), {SCOPE}, true))
    case EnableUser => Some(ActionRegistration(EnableUser, DisableAccountDeleteKey, SocL3, None, {REVERTS}, true))
    case _ => None
  }

  function RollbackTypeOf(t: ActionType): Option<ActionType>
  {
    if Registered(t).Some? then Registered(t).value.rollbackType else None
  }

  class ActionRegistry {
    var items: map<ActionType, ActionRegistration>

    constructor ()
      ensures items == map[]
    {
      items := map[];
    }

    /** A type is registered once; a second registration changes nothing. */
    method Register(item: ActionRegistration) returns (r: Result<(), RegistryError>)
      modifies this
      ensures r.Ok? <==> item.actionType !in old(items)
      ensures items == if r.Ok? then old(items)[item.actionType := item] else old(items)
    {
      if item.actionType in items {
        return Err(AlreadyRegistered);
      }
      items := items[item.actionType := item];
      return Ok(());
    }
  }

  /** The registrations made at start-up are the catalogue. */
  method ShippedActions() returns (registry: ActionRegistry)
    ensures fresh(registry)
    ensures forall t :: t in registry.items <==> Registered(t).Some?
    ensures forall t :: t in registry.items ==> registry.items[t] == Registered(t).value
  {
    registry := new ActionRegistry();
    var types := [BlockIp, UnblockIp, DisableUser, EnableUser];
    for i := 0 to |types|
      invariant fresh(registry)
      invariant forall t :: t in registry.items <==> t in types[..i]
      invariant forall t :: t in registry.items ==> registry.items[t] == Registered(t).value
    {
      var done := registry.Register(Registered(types[i]).value);
    }
    assert forall t :: Registered(t).Some? <==> t in types;
  }

  // ---- Checks -----------------------------------------------------------------------------------

  datatype CheckCategory = Security | Health

  /** The verifier's method behind a check. */
  datatype CheckHandler =
    | SshAttemptsStopped | NoNewCriticalAlerts | AgentConnected | SshPortListening | ManagementSshReachable | NoNewLogin

  datatype CheckRegistration = CheckRegistration(name: string, category: CheckCategory, handler: CheckHandler, required: bool)

  /** The shipped verification checks. */
  function RegisteredCheck(name: string): Option<CheckRegistration>
  {
    if name == "ssh_attempts_stopped" then Some(CheckRegistration(name, Security, SshAttemptsStopped, true))
    else if name == "no_new_critical_alerts" then Some(CheckRegistration(name, Security, NoNewCriticalAlerts, true))
    else if name == "wazuh_agent_connected" then Some(CheckRegistration(name, Health, AgentConnected, true))
    else if name == "ssh_port_listening" then Some(CheckRegistration(name, Health, SshPortListening, true))
    else if name == "management_ssh_reachable" then Some(CheckRegistration(name, Health, ManagementSshReachable, false))
    else if name == "no_new_auth_success_for_user" then Some(CheckRegistration(name, Security, NoNewLogin, true))
    else None
  }

  // ---- Plans ------------------------------------------------------------------------------------

  datatype RemediationAction = RemediationAction(
    actionId: string,
    actionType: ActionType,
    target: string,
    parameters: map<string, string>,
    timeoutSeconds: nat,
    ttlSeconds: Option<nat>,
    riskLevel: int,
    evidenceRefs: seq<string>)
  {
    /** The id of the action this one takes back, if it names one. */
    function Reverts(): Option<string>
    {
      if REVERTS in parameters then Some(parameters[REVERTS]) else None
    }
  }

  datatype PlanPayload = PlanPayload(
    actions: seq<RemediationAction>,
    risk: int,
    preconditions: seq<string>,
    healthChecks: seq<string>,
    securityChecks: seq<string>,
    rollbackActions: seq<RemediationAction>,
    requiredRole: Option<Role>,
    playbookId: string,
    playbookVersion: string,
    incidentId: string,
    planVersion: int,
    evidenceVersion: string,
    policyVersion: string,
    catalogueVersion: string)

  /** The digest of a payload, taken to be collision-free. */
  datatype PlanHash = PlanHash(payload: PlanPayload)

  datatype RemediationPlan = RemediationPlan(
    planId: string,
    planVersion: int,
    planHash: Option<PlanHash>,
    playbookId: string,
    playbookVersion: string,
    incidentId: string,
    evidenceVersion: string,
    policyVersion: string,
    catalogueVersion: string,
    expiresAt: int,
    riskLevel: int,
    actions: seq<RemediationAction>,
    preconditions: seq<string>,
    healthChecks: seq<string>,
    securityChecks: seq<string>,
    rollbackActions: seq<RemediationAction>,
    approvalRequired: bool,
    requiredRole: Option<Role>)

  function CanonicalPayload(p: RemediationPlan): PlanPayload
  {
    PlanPayload(p.actions, p.riskLevel, p.preconditions, p.healthChecks, p.securityChecks, p.rollbackActions,
                p.requiredRole, p.playbookId, p.playbookVersion, p.incidentId, p.planVersion, p.evidenceVersion,
                p.policyVersion, p.catalogueVersion)
  }

  function ComputePlanHash(p: RemediationPlan): PlanHash
  {
    PlanHash(CanonicalPayload(p))
  }

  function ActionIds(actions: seq<RemediationAction>): seq<string>
  {
    seq(|actions|, i requires 0 <= i < |actions| => actions[i].actionId)
  }

  // ---- Playbooks --------------------------------------------------------------------------------

  datatype PlaybookKey = PlaybookKey(playbookId: string, version: string)

  datatype Playbook = Playbook(
    key: PlaybookKey,
    incidentTypes: set<string>,
    actionTypes: set<ActionType>,
    rollbackTypes: set<ActionType>,
    securityChecks: set<string>,
    healthChecks: set<string>,
    actionCount: nat,
    rollbackCount: nat)

  type Playbooks = map<PlaybookKey, Playbook>

  class PlaybookRegistry {
    var items: Playbooks

    /** Everything a registered playbook names is registered too. */
    ghost predicate Valid()
      reads this
    {
      forall k :: k in items ==>
        && items[k].key == k
        && (forall t :: t in items[k].actionTypes + items[k].rollbackTypes ==> Registered(t).Some?)
        && (forall c :: c in items[k].securityChecks + items[k].healthChecks ==> RegisteredCheck(c).Some?)
    }

    constructor ()
      ensures items == map[] && Valid()
    {
      items := map[];
    }

    method Register(item: Playbook) returns (r: Result<(), RegistryError>)
      requires Valid()
      modifies this
      ensures Valid()
      ensures r.Ok? <==>
        && item.key !in old(items)
        && (forall t :: t in item.actionTypes + item.rollbackTypes ==> Registered(t).Some?)
        && (forall c :: c in item.securityChecks + item.healthChecks ==> RegisteredCheck(c).Some?)
      ensures items == if r.Ok? then old(items)[item.key := item] else old(items)
    {
      if item.key in items {
        return Err(AlreadyRegistered);
      }
      if exists t :: t in item.actionTypes + item.rollbackTypes && Registered(t).None? {
        return Err(UnknownAction);
      }
      if exists c :: c in item.securityChecks + item.healthChecks && RegisteredCheck(c).None? {
        return Err(UnknownCheck);
      }
      items := items[item.key := item];
      return Ok(());
    }
  }

  const SSH_HEALTH_CHECKS := {"wazuh_agent_connected", "ssh_port_listening", "management_ssh_reachable"}

  const BRUTE_FORCE := Playbook(
    PlaybookKey("ssh-bruteforce-v1", "1.0"), {"ssh_brute_force"}, {BlockIp}, {UnblockIp},
    {"ssh_attempts_stopped", "no_new_critical_alerts"}, SSH_HEALTH_CHECKS, 1, 1)

  const PASSWORD_SPRAY := Playbook(
    PlaybookKey("ssh-password-spray-v1", "1.0"), {"ssh_password_spraying"}, {BlockIp}, {UnblockIp},
    {"ssh_attempts_stopped", "no_new_critical_alerts"}, SSH_HEALTH_CHECKS, 1, 1)

  const CREDENTIAL_COMPROMISE := Playbook(
    PlaybookKey("credential-compromise-v1", "1.0"), {"ssh_success_after_failures"}, {DisableUser}, {EnableUser},
    {"no_new_auth_success_for_user", "no_new_critical_alerts"},
    {"wazuh_agent_connected", "management_ssh_reachable"}, 1, 1)

  /** Every action a shipped playbook publishes can be undone, by as many rollbacks as it has actions. */
  ghost predicate Reversible(book: Playbook)
  {
    book.actionCount == book.rollbackCount && forall t :: t in book.actionTypes ==> RollbackTypeOf(t).Some?
  }

  /** The playbooks registered at start-up are all accepted, and every one is reversible. */
  method ShippedPlaybooks() returns (registry: PlaybookRegistry)
    ensures fresh(registry) && registry.Valid()
    ensures registry.items.Values == {BRUTE_FORCE, PASSWORD_SPRAY, CREDENTIAL_COMPROMISE}
    ensures forall k :: k in registry.items ==> Reversible(registry.items[k])
  {
    registry := new PlaybookRegistry();
    ShippedKeysDiffer();
    var first := registry.Register(BRUTE_FORCE);
    var second := registry.Register(PASSWORD_SPRAY);
    var third := registry.Register(CREDENTIAL_COMPROMISE);
    ghost var items := registry.items;
    assert BRUTE_FORCE.key in items && PASSWORD_SPRAY.key in items && CREDENTIAL_COMPROMISE.key in items;
  }

  lemma ShippedKeysDiffer()
    ensures BRUTE_FORCE.key != PASSWORD_SPRAY.key
    ensures BRUTE_FORCE.key != CREDENTIAL_COMPROMISE.key
    ensures PASSWORD_SPRAY.key != CREDENTIAL_COMPROMISE.key
  {
    assert |BRUTE_FORCE.key.playbookId| == 17 && |PASSWORD_SPRAY.key.playbookId| == 21
        && |CREDENTIAL_COMPROMISE.key.playbookId| == 24;
  }

  // ---- Plan validation --------------------------------------------------------------------------

  datatype PlanError =
    | UnknownPlaybook | UnsupportedIncident | DuplicateActionIds | DuplicateRollbackIds
    | WrongActionCount | WrongRollbackCount | DuplicateSecurityChecks | DuplicateHealthChecks
    | UnpublishedAction | UnpublishedRollback | WrongSecurityChecks | WrongHealthChecks
    | UnregisteredAction | UnpublishedParameters | RollbackNotExact

  predicate Distinct(xs: seq<string>)
  {
    forall i, j :: 0 <= i < j < |xs| ==> xs[i] != xs[j]
  }

  function Members(xs: seq<string>): set<string>
  {
    set i | 0 <= i < |xs| :: xs[i]
  }

  /** rollback takes back exactly this action. */
  predicate RevertsExactly(rollback: RemediationAction, action: RemediationAction)
  {
    && RollbackTypeOf(action.actionType) == Some(rollback.actionType)
    && rollback.target == action.target
    && rollback.Reverts() == Some(action.actionId)
  }

  function ExactMatches(rollbacks: seq<RemediationAction>, action: RemediationAction): nat
  {
    if rollbacks == [] then 0
    else (if RevertsExactly(rollbacks[0], action) then 1 else 0) + ExactMatches(rollbacks[1..], action)
  }

  function ActionError(plan: RemediationPlan, action: RemediationAction): Option<PlanError>
  {
    match Registered(action.actionType)
    case None => Some(UnregisteredAction)
    case Some(registration) =>
      if !(action.parameters.Keys <= registration.allowedParameters) then Some(UnpublishedParameters)
      else if registration.rollbackType.None? then None
      else if ExactMatches(plan.rollbackActions, action) != 1 then Some(RollbackNotExact)
      else None
  }

  function FirstActionError(plan: RemediationPlan, actions: seq<RemediationAction>): Option<PlanError>
  {
    if actions == [] then None
    else if ActionError(plan, actions[0]).Some? then ActionError(plan, actions[0])
    else FirstActionError(plan, actions[1..])
  }

  function ValidatePlan(books: Playbooks, plan: RemediationPlan, diagnosisType: Option<string>): Result<(), PlanError>
  {
    var key := PlaybookKey(plan.playbookId, plan.playbookVersion);
    if key !in books then Err(UnknownPlaybook)
    else
      var book := books[key];
      if diagnosisType.Some? && diagnosisType.value != "" && diagnosisType.value !in book.incidentTypes
      then Err(UnsupportedIncident)
      else if !Distinct(ActionIds(plan.actions)) then Err(DuplicateActionIds)
      else if !Distinct(ActionIds(plan.rollbackActions)) then Err(DuplicateRollbackIds)
      else if |plan.actions| != book.actionCount then Err(WrongActionCount)
      else if |plan.rollbackActions| != book.rollbackCount then Err(WrongRollbackCount)
      else if !Distinct(plan.securityChecks) then Err(DuplicateSecurityChecks)
      else if !Distinct(plan.healthChecks) then Err(DuplicateHealthChecks)
      else if exists i :: 0 <= i < |plan.actions| && plan.actions[i].actionType !in book.actionTypes
      then Err(UnpublishedAction)
      else if exists i :: 0 <= i < |plan.rollbackActions| && plan.rollbackActions[i].actionType !in book.rollbackTypes
      then Err(UnpublishedRollback)
      else if Members(plan.securityChecks) != book.securityChecks then Err(WrongSecurityChecks)
      else if Members(plan.healthChecks) != book.healthChecks then Err(WrongHealthChecks)
      else match FirstActionError(plan, plan.actions)
        case Some(error) => Err(error)
        case None => Ok(())
  }

  lemma {:induction false} NoActionError(plan: RemediationPlan, actions: seq<RemediationAction>)
    requires FirstActionError(plan, actions).None?
    ensures forall i :: 0 <= i < |actions| ==> ActionError(plan, actions[i]).None?
  {
    if actions != [] {
      NoActionError(plan, actions[1..]);
      assert forall i :: 1 <= i < |actions| ==> actions[i] == actions[1..][i - 1];
    }
  }

  lemma {:induction false} ExactMatchExists(rollbacks: seq<RemediationAction>, action: RemediationAction)
      returns (j: nat)
    requires ExactMatches(rollbacks, action) >= 1
    ensures j < |rollbacks| && RevertsExactly(rollbacks[j], action)
  {
    if RevertsExactly(rollbacks[0], action) {
      j := 0;
    } else {
      j := ExactMatchExists(rollbacks[1..], action);
      j := j + 1;
    }
  }

  /** The part of validation that pairing depends on. */
  ghost predicate PairingChecked(plan: RemediationPlan)
  {
    && |plan.actions| == |plan.rollbackActions|
    && Distinct(ActionIds(plan.actions))
    && forall i :: 0 <= i < |plan.actions| ==> ActionError(plan, plan.actions[i]).None?
  }

  lemma ValidPlanIsPaired(books: Playbooks, plan: RemediationPlan, diagnosisType: Option<string>)
    requires ValidatePlan(books, plan, diagnosisType).Ok?
    requires var book := books[PlaybookKey(plan.playbookId, plan.playbookVersion)]; book.actionCount == book.rollbackCount
    ensures PairingChecked(plan)
  {
    NoActionError(plan, plan.actions);
  }

  /** Position of the rollback of each action. */
  lemma RollbackPositions(plan: RemediationPlan, n: nat) returns (f: seq<nat>)
    requires PairingChecked(plan) && n <= |plan.actions|
    requires forall i :: 0 <= i < n ==> RollbackTypeOf(plan.actions[i].actionType).Some?
    ensures |f| == n
    ensures forall i :: 0 <= i < n ==>
      f[i] < |plan.actions| && RevertsExactly(plan.rollbackActions[f[i]], plan.actions[i])
  {
    f := [];
    if n > 0 {
      f := RollbackPositions(plan, n - 1);
      var action := plan.actions[n - 1];
      assert ActionError(plan, action).None?;
      var j := ExactMatchExists(plan.rollbackActions, action);
      f := f + [j];
    }
  }

  /** Two actions cannot share a rollback, as it names one action id. */
  lemma RollbackPositionsDiffer(plan: RemediationPlan, f: seq<nat>)
    requires PairingChecked(plan) && |f| == |plan.actions|
    requires forall i :: 0 <= i < |f| ==>
      f[i] < |f| && RevertsExactly(plan.rollbackActions[f[i]], plan.actions[i])
    ensures forall i, j :: 0 <= i < j < |f| ==> f[i] != f[j]
  {
    forall i, j | 0 <= i < j < |f| ensures f[i] != f[j] {
      assert ActionIds(plan.actions)[i] != ActionIds(plan.actions)[j];
    }
  }

  /** In a valid plan of a playbook with as many rollbacks as actions, the rollbacks are exactly the
      inverses of the actions: each action has one, and there is no other. */
  lemma ValidPlanPairsRollbacks(books: Playbooks, plan: RemediationPlan, diagnosisType: Option<string>)
    requires ValidatePlan(books, plan, diagnosisType).Ok?
    requires forall i :: 0 <= i < |plan.actions| ==> RollbackTypeOf(plan.actions[i].actionType).Some?
    requires var book := books[PlaybookKey(plan.playbookId, plan.playbookVersion)]; book.actionCount == book.rollbackCount
    ensures Paired(plan.actions, plan.rollbackActions)
  {
    ValidPlanIsPaired(books, plan, diagnosisType);
    PairedFromPositions(plan);
  }

  ghost predicate HasRollback(rollbacks: seq<RemediationAction>, action: RemediationAction)
  {
    exists j :: 0 <= j < |rollbacks| && RevertsExactly(rollbacks[j], action)
  }

  ghost predicate HasAction(actions: seq<RemediationAction>, rollback: RemediationAction)
  {
    exists i :: 0 <= i < |actions| && RevertsExactly(rollback, actions[i])
  }

  /** Each action has a rollback that reverts exactly it, and each rollback has such an action. */
  ghost predicate Paired(actions: seq<RemediationAction>, rollbacks: seq<RemediationAction>)
  {
    && (forall i :: 0 <= i < |actions| ==> HasRollback(rollbacks, actions[i]))
    && (forall j :: 0 <= j < |rollbacks| ==> HasAction(actions, rollbacks[j]))
  }

  lemma PairedFromPositions(plan: RemediationPlan)
    requires PairingChecked(plan)
    requires forall i :: 0 <= i < |plan.actions| ==> RollbackTypeOf(plan.actions[i].actionType).Some?
    ensures Paired(plan.actions, plan.rollbackActions)
  {
    var f := RollbackPositions(plan, |plan.actions|);
    RollbackPositionsDiffer(plan, f);
    InjectionIsSurjection(f);
    forall i | 0 <= i < |plan.actions| ensures HasRollback(plan.rollbackActions, plan.actions[i]) {
      RollbackAt(plan, f, i);
    }
    forall j | 0 <= j < |plan.rollbackActions| ensures HasAction(plan.actions, plan.rollbackActions[j]) {
      assert j in f;
      var i :| 0 <= i < |f| && f[i] == j;
      RollbackAt(plan, f, i);
    }
  }

  lemma RollbackAt(plan: RemediationPlan, f: seq<nat>, i: nat)
    requires |f| == |plan.actions| == |plan.rollbackActions| && i < |f|
    requires f[i] < |f| && RevertsExactly(plan.rollbackActions[f[i]], plan.actions[i])
    ensures HasRollback(plan.rollbackActions, plan.actions[i])
    ensures HasAction(plan.actions, plan.rollbackActions[f[i]])
  {
  }
}
