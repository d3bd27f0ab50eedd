/**
 The restricted executor: carries out the actions of an approved plan one by one, and takes them back.
 The host is the set of effects in force on it; what the provider does with a command, and everything
 else outside the process, is an input.
 */
module Executor {
  import opened Common
  import opened Registries

  // ---- The host ---------------------------------------------------------------------------------

  /** What a forward action of this type leaves behind on its target. */
  datatype Effect = Effect(kind: ActionType, target: string)

  type Host = set<Effect>

  datatype Command = FirewallDrop | FirewallDropDelete | DisableAccount | DisableAccountDelete

  /** The only commands the executor can issue. */
  function CommandFor(key: ExecutorKey): Option<Command>
  {
    match key
    case FirewallDropKey => Some(FirewallDrop)
    case FirewallDropDeleteKey => Some(FirewallDropDelete)
    case DisableAccountKey => Some(DisableAccount)
    case DisableAccountDeleteKey => Some(DisableAccountDelete)
    case UnmappedKey(_) => None
  }

  function ActionCommand(t: ActionType): Option<Command>
  {
    if Registered(t).Some? then CommandFor(Registered(t).value.executorKey) else None
  }

  predicate Adds(c: Command) { c.FirewallDrop? || c.DisableAccount? }

  function TouchedBy(c: Command, target: string): Effect
  {
    Effect(if c.FirewallDrop? || c.FirewallDropDelete? then BlockIp else DisableUser, target)
  }

  function Perform(c: Command, target: string, host: Host): Host
  {
    if Adds(c) then host + {TouchedBy(c, target)} else host - {TouchedBy(c, target)}
  }

  /** The effect an action is about, if it has a command. */
  function Subject(action: RemediationAction): Option<Effect>
  {
    if ActionCommand(action.actionType).Some?
    then Some(TouchedBy(ActionCommand(action.actionType).value, action.target))
    else None
  }

  // ---- Inputs -----------------------------------------------------------------------------------

  datatype ExecutionSettings = ExecutionSettings(
    modeEnabled: bool, realExecutionEnabled: bool, dryRun: bool, readOnly: bool, dangerousToolsAllowed: bool)
  {
    predicate Real()
    {
      modeEnabled && realExecutionEnabled && !dryRun && !readOnly && dangerousToolsAllowed
    }
  }

  datatype Setup = Setup(settings: ExecutionSettings, durable: bool, snapshots: bool, numericAgent: bool)

  datatype SnapshotField = TargetField | ActionPresentField | AgentStatusField | ConnectivityField | OtherField(name: string)

  const REQUIRED_FIELDS := {TargetField, ActionPresentField, AgentStatusField, ConnectivityField}

  datatype Snapshot = SnapshotRaised | NotAMapping | Mapping(fields: set<SnapshotField>, target: string, present: Option<bool>)

  datatype Claim = Claim(claimed: bool) | ClaimRaised

  datatype Reply =
    | Acknowledged(applied: bool)
    | TimedOut(applied: bool)
    | ApiError(code: Option<int>, applied: bool)
    | OtherFailure(applied: bool)

  /** What one forward action meets. */
  datatype Turn = Turn(
    startedAt: int, completedAt: int, snapshot: Snapshot, claim: Claim, reply: Reply,
    cacheFails: bool, completionFails: bool)

  /** What one rollback action meets. */
  datatype RollbackTurn = RollbackTurn(snapshot: Snapshot, reply: Reply)

  predicate Ambiguous(code: Option<int>) { code.None? || code.value >= 500 }

  /** Whether the host carried the command out; a definite rejection means that it did not. */
  predicate TookEffect(reply: Reply)
  {
    reply.applied && (reply.ApiError? ==> Ambiguous(reply.code))
  }

  // ---- Outcomes ---------------------------------------------------------------------------------

  datatype Status =
    | DryRun | Accepted | Applied | Executed | FailedRetryable | FailedTerminal | Duplicate | TimedOutStatus
    | OutcomeUnknown | NoOp | RolledBack | Cancelled | NotRequired

  datatype ExecutionResult = ExecutionResult(
    actionId: string, actionType: ActionType, target: string, status: Status, before: Option<bool>,
    rollbackActionId: Option<string>, startedAt: int, completedAt: int)

  datatype RollbackEntry = RollbackEntry(actionId: string, actionType: ActionType, target: string, status: Status)

  /** The action may be in force on the host. */
  predicate MayHaveMutated(s: Status) { s.Accepted? || s.Applied? || s.Executed? || s.OutcomeUnknown? }

  function StatusOf(reply: Reply): Status
  {
    match reply
    case Acknowledged(_) => Accepted
    case TimedOut(_) => OutcomeUnknown
    case ApiError(code, _) => if Ambiguous(code) then OutcomeUnknown else FailedTerminal
    case OtherFailure(_) => OutcomeUnknown
  }

  // ---- One action -------------------------------------------------------------------------------

  /** Whether the effect was in force, as far as a complete and matching snapshot says. */
  function BeforeState(setup: Setup, action: RemediationAction, snapshot: Snapshot): Option<bool>
  {
    if !setup.snapshots || !snapshot.Mapping? || !(REQUIRED_FIELDS <= snapshot.fields) || snapshot.target != action.target
    then None
    else snapshot.present
  }

  /** The desired state already holds. A forward action is one with a registered rollback. */
  predicate AlreadySatisfied(action: RemediationAction, present: bool)
  {
    RollbackTypeOf(action.actionType).Some? == present
  }

  /** The reply the executor sees, and the host after it. */
  function Dispatch(setup: Setup, action: RemediationAction, reply: Reply, host: Host): (Reply, Host)
  {
    if ActionCommand(action.actionType).None? || !setup.numericAgent then (OtherFailure(false), host)
    else (reply, if TookEffect(reply) then Perform(ActionCommand(action.actionType).value, action.target, host) else host)
  }

  function RollbackIdFor(rollbacks: seq<RemediationAction>, actionId: string): Option<string>
  {
    if rollbacks == [] then None
    else
      var last := rollbacks[|rollbacks| - 1];
      if actionId != "" && last.Reverts() == Some(actionId) then Some(last.actionId)
      else RollbackIdFor(rollbacks[..|rollbacks| - 1], actionId)
  }

  datatype Step = Reported(status: Status, before: Option<bool>, host: Host) | Aborted(host: Host)

  predicate Temporary(action: RemediationAction) { action.ttlSeconds.Some? && action.ttlSeconds.value != 0 }

  function ForwardStep(setup: Setup, action: RemediationAction, turn: Turn, host: Host): Step
  {
    if !setup.settings.Real() then
      if turn.claim.ClaimRaised? then Aborted(host)
      else if !turn.claim.claimed then Reported(Duplicate, None, host)
      else Reported(if Temporary(action) && turn.cacheFails then OutcomeUnknown else DryRun, None, host)
    else if !setup.durable then Reported(FailedTerminal, None, host)
    else
      var before := BeforeState(setup, action, turn.snapshot);
      if before.None? || turn.claim.ClaimRaised? then Reported(FailedTerminal, None, host)
      else if !turn.claim.claimed then Reported(Duplicate, None, host)
      else if AlreadySatisfied(action, before.value) then
        if turn.completionFails then Aborted(host) else Reported(NoOp, before, host)
      else
        var (reply, after) := Dispatch(setup, action, turn.reply, host);
        if turn.completionFails then Aborted(after)
        else if reply.Acknowledged? && Temporary(action) && turn.cacheFails then Reported(OutcomeUnknown, before, after)
        else Reported(StatusOf(reply), before, after)
  }

  function ResultOf(action: RemediationAction, rollbacks: seq<RemediationAction>, turn: Turn, status: Status,
                    before: Option<bool>): ExecutionResult
  {
    ExecutionResult(action.actionId, action.actionType, action.target, status, before,
                    RollbackIdFor(rollbacks, action.actionId), turn.startedAt, turn.completedAt)
  }

  // ---- A run ------------------------------------------------------------------------------------

  datatype Progress = Progress(results: seq<ExecutionResult>, host: Host, raised: bool)

  /** The state after the first k actions. */
  function RunUpTo(setup: Setup, plan: RemediationPlan, turns: seq<Turn>, host: Host, k: nat): (p: Progress)
    requires k <= |plan.actions| == |turns|
    ensures !p.raised ==> |p.results| == k
  {
    if k == 0 then Progress([], host, false)
    else
      var p := RunUpTo(setup, plan, turns, host, k - 1);
      if p.raised then p
      else match ForwardStep(setup, plan.actions[k - 1], turns[k - 1], p.host)
        case Aborted(after) => Progress(p.results, after, true)
        case Reported(status, before, after) =>
          Progress(p.results + [ResultOf(plan.actions[k - 1], plan.rollbackActions, turns[k - 1], status, before)], after, false)
  }

  function LastResult(results: seq<ExecutionResult>, id: string): Option<ExecutionResult>
  {
    if results == [] then None
    else if results[|results| - 1].actionId == id then Some(results[|results| - 1])
    else LastResult(results[..|results| - 1], id)
  }

  function LastEntry(entries: seq<RollbackEntry>, id: string): Option<RollbackEntry>
  {
    if entries == [] then None
    else if entries[|entries| - 1].actionId == id then Some(entries[|entries| - 1])
    else LastEntry(entries[..|entries| - 1], id)
  }

  predicate RolledBackBefore(prior: seq<RollbackEntry>, id: string)
  {
    var entry := LastEntry(prior, id);
    entry.Some? && (entry.value.status.Executed? || entry.value.status.RolledBack?)
  }

  /** The action a rollback names was carried out, or may have been. */
  predicate Needed(results: seq<ExecutionResult>, rollback: RemediationAction)
  {
    var id := if rollback.Reverts().Some? then rollback.Reverts().value else "";
    LastResult(results, id).Some? && MayHaveMutated(LastResult(results, id).value.status)
  }

  function RollbackStep(setup: Setup, results: seq<ExecutionResult>, prior: seq<RollbackEntry>,
                        action: RemediationAction, turn: RollbackTurn, host: Host): (Status, Host)
  {
    if RolledBackBefore(prior, action.actionId) then (Duplicate, host)
    else if !Needed(results, action) || !setup.settings.Real() then (NotRequired, host)
    else
      var before := BeforeState(setup, action, turn.snapshot);
      if before.None? then (OutcomeUnknown, host)
      else if AlreadySatisfied(action, before.value) then (NoOp, host)
      else
        var (reply, after) := Dispatch(setup, action, turn.reply, host);
        (StatusOf(reply), after)
  }

  datatype RollbackProgress = RollbackProgress(entries: seq<RollbackEntry>, host: Host)

  /** The state after the first k rollback actions. */
  function RollbackUpTo(setup: Setup, plan: RemediationPlan, results: seq<ExecutionResult>, prior: seq<RollbackEntry>,
                        turns: seq<RollbackTurn>, host: Host, k: nat): (p: RollbackProgress)
    requires k <= |plan.rollbackActions| == |turns|
    ensures |p.entries| == k
  {
    if k == 0 then RollbackProgress([], host)
    else
      var p := RollbackUpTo(setup, plan, results, prior, turns, host, k - 1);
      var action := plan.rollbackActions[k - 1];
      var (status, after) := RollbackStep(setup, results, prior, action, turns[k - 1], p.host);
      RollbackProgress(p.entries + [RollbackEntry(action.actionId, action.actionType, action.target, status)], after)
  }

  // ---- The executor object ----------------------------------------------------------------------

  datatype RunError = PlanRequired | AuthorizationMismatch | StoreUnavailable

  class RestrictedExecutor {
    const setup: Setup
    var host: Host

    constructor (setup: Setup, host: Host)
      ensures this.setup == setup && this.host == host
    {
      this.setup := setup;
      this.host := host;
    }

    method ExecuteReal(action: RemediationAction, answer: Reply) returns (reply: Reply)
      modifies this
      ensures (reply, host) == Dispatch(setup, action, answer, old(host))
    {
      var command := ActionCommand(action.actionType);
      if command.None? || !setup.numericAgent {
        return OtherFailure(false);
      }
      if TookEffect(answer) {
        host := Perform(command.value, action.target, host);
      }
      return answer;
    }

    /** Carries out the plan. An exception leaves the host as it is then, and no results. */
    method Run(plan: Option<RemediationPlan>, authorized: Option<seq<string>>, turns: seq<Turn>)
        returns (r: Result<seq<ExecutionResult>, RunError>)
      requires plan.Some? ==> |turns| == |plan.value.actions|
      modifies this
      ensures plan.None? ==> r == Err(PlanRequired) && host == old(host)
      ensures plan.Some? && authorized.Some? && authorized.value != ActionIds(plan.value.actions) ==>
        r == Err(AuthorizationMismatch) && host == old(host)
      ensures plan.Some? && (authorized.None? || authorized.value == ActionIds(plan.value.actions)) ==>
        var p := RunUpTo(setup, plan.value, turns, old(host), |turns|);
        host == p.host && r == if p.raised then Err(StoreUnavailable) else Ok(p.results)
    {
      if plan.None? {
        return Err(PlanRequired);
      }
      var actions := plan.value.actions;
      if authorized.Some? && authorized.value != ActionIds(actions) {
        return Err(AuthorizationMismatch);
      }
      ghost var start := host;
      var results: seq<ExecutionResult> := [];
      var enabled := setup.settings.Real();
      for k := 0 to |actions|
        invariant Progress(results, host, false) == RunUpTo(setup, plan.value, turns, start, k)
      {
        var action, turn := actions[k], turns[k];
        ghost var step := ForwardStep(setup, action, turn, host);
        var status, before := FailedTerminal, None;
        var claimed := false;
        if enabled {
          if setup.durable {
            var present := BeforeState(setup, action, turn.snapshot);
            if present.Some? && turn.claim.Claim? {
              status := Duplicate;
              claimed := turn.claim.claimed;
            }
            if claimed {
              before := present;
              if AlreadySatisfied(action, present.value) {
                status := NoOp;
              } else {
                var reply := ExecuteReal(action, turn.reply);
                status := StatusOf(reply);
                if reply.Acknowledged? && Temporary(action) && turn.cacheFails {
                  status := OutcomeUnknown;
                }
              }
              if turn.completionFails {
                RunStaysRaised(setup, plan.value, turns, start, k + 1, |turns|);
                return Err(StoreUnavailable);
              }
            }
          }
        } else {
          if turn.claim.ClaimRaised? {
            RunStaysRaised(setup, plan.value, turns, start, k + 1, |turns|);
            return Err(StoreUnavailable);
          }
          status := Duplicate;
          if turn.claim.claimed {
            status := if Temporary(action) && turn.cacheFails then OutcomeUnknown else DryRun;
          }
        }
        assert step == Reported(status, before, host);
        results := results + [ResultOf(action, plan.value.rollbackActions, turn, status, before)];
      }
      return Ok(results);
    }

    /** Takes back what the results say may be in force. Never raises. */
    method Rollback(plan: Option<RemediationPlan>, results: seq<ExecutionResult>, prior: seq<RollbackEntry>,
                    turns: seq<RollbackTurn>) returns (entries: seq<RollbackEntry>)
      requires plan.Some? ==> |turns| == |plan.value.rollbackActions|
      modifies this
      ensures plan.None? ==> entries == [] && host == old(host)
      ensures plan.Some? ==>
        RollbackProgress(entries, host) == RollbackUpTo(setup, plan.value, results, prior, turns, old(host), |turns|)
    {
      entries := [];
      if plan.None? {
        return;
      }
      ghost var start := host;
      var actions := plan.value.rollbackActions;
      for k := 0 to |actions|
        invariant RollbackProgress(entries, host) == RollbackUpTo(setup, plan.value, results, prior, turns, start, k)
      {
        var action, turn := actions[k], turns[k];
        var status := NotRequired;
        if RolledBackBefore(prior, action.actionId) {
          status := Duplicate;
        } else if Needed(results, action) && setup.settings.Real() {
          var present := BeforeState(setup, action, turn.snapshot);
          if present.None? {
            status := OutcomeUnknown;
          } else if AlreadySatisfied(action, present.value) {
            status := NoOp;
          } else {
            var reply := ExecuteReal(action, turn.reply);
            status := StatusOf(reply);
          }
        }
        entries := entries + [RollbackEntry(action.actionId, action.actionType, action.target, status)];
      }
    }
  }

  lemma {:induction false} RunStaysRaised(setup: Setup, plan: RemediationPlan, turns: seq<Turn>, host: Host, k: nat, n: nat)
    requires k <= n <= |plan.actions| == |turns|
    requires RunUpTo(setup, plan, turns, host, k).raised
    ensures RunUpTo(setup, plan, turns, host, n) == RunUpTo(setup, plan, turns, host, k)
  {
    if k < n {
      RunStaysRaised(setup, plan, turns, host, k, n - 1);
    }
  }

  // ---- What one action does ---------------------------------------------------------------------

  /** A snapshot that passes the checks says truly whether the effect is in force. */
  ghost predicate Truthful(setup: Setup, action: RemediationAction, snapshot: Snapshot, host: Host)
  {
    var present := BeforeState(setup, action, snapshot);
    present.Some? && Subject(action).Some? ==> (present.value <==> Subject(action).value in host)
  }

  /** Whatever the provider does, the host changes only under a granted claim and for an action then reported
      as possibly in force; a dry run changes nothing; an action reported as needless was already in force. */
  lemma ForwardStepIsHonest(setup: Setup, action: RemediationAction, turn: Turn, host: Host)
    ensures var step := ForwardStep(setup, action, turn, host);
      && (step.Reported? && step.host != host ==> MayHaveMutated(step.status) && setup.settings.Real())
      && (!setup.settings.Real() ==> step.host == host)
      && (step.host != host ==> setup.durable && turn.claim == Claim(true))
      && (step.Reported? && step.status.Accepted? ==> turn.reply.Acknowledged? && turn.claim == Claim(true))
      && (step.Reported? && step.status.Duplicate? ==> turn.claim == Claim(false))
      && (step.Reported? && step.status.NoOp? && Forward(action) && Truthful(setup, action, turn.snapshot, host) ==>
            Subject(action).value in host)
  {
  }

  /** The commands behind an action and its rollback add and remove the same effect. */
  lemma RollbackIsInverse(rollback: RemediationAction, action: RemediationAction)
    requires RevertsExactly(rollback, action)
    ensures Subject(action).Some? && Subject(rollback) == Subject(action)
    ensures Adds(ActionCommand(action.actionType).value) && !Adds(ActionCommand(rollback.actionType).value)
    ensures RollbackTypeOf(action.actionType).Some? && RollbackTypeOf(rollback.actionType).None?
  {
  }

  lemma ForwardStepAdds(setup: Setup, action: RemediationAction, turn: Turn, host: Host)
    requires RollbackTypeOf(action.actionType).Some? && Subject(action).Some?
    requires Adds(ActionCommand(action.actionType).value)
    requires Truthful(setup, action, turn.snapshot, host)
    ensures var step := ForwardStep(setup, action, turn, host);
      && host <= step.host <= host + {Subject(action).value}
      && (step.Reported? && step.host != host ==> MayHaveMutated(step.status))
      && (step.Reported? && setup.settings.Real() && MayHaveMutated(step.status) ==> Subject(action).value !in host)
  {
  }

  ghost predicate AllSimulated(results: seq<ExecutionResult>)
  {
    forall i :: 0 <= i < |results| ==>
      results[i].status.DryRun? || results[i].status.Duplicate? || results[i].status.OutcomeUnknown?
  }

  /** Without real execution no action is reported as accepted or as needless. */
  lemma {:induction false} SuccessNeedsReal(setup: Setup, plan: RemediationPlan, turns: seq<Turn>, host: Host, k: nat)
    requires k <= |plan.actions| == |turns|
    requires !setup.settings.Real()
    ensures AllSimulated(RunUpTo(setup, plan, turns, host, k).results)
  {
    if k > 0 {
      SuccessNeedsReal(setup, plan, turns, host, k - 1);
    }
  }

  // ---- A run only adds, and says what it may have added -----------------------------------------

  ghost predicate TruthfulRun(setup: Setup, plan: RemediationPlan, turns: seq<Turn>, host: Host, k: nat)
    requires k <= |plan.actions| == |turns|
  {
    forall i :: 0 <= i < k && !RunUpTo(setup, plan, turns, host, i).raised ==>
      Truthful(setup, plan.actions[i], turns[i].snapshot, RunUpTo(setup, plan, turns, host, i).host)
  }

  /** Each action adds an effect of its own, as every action with a registered rollback does. */
  ghost predicate Forward(action: RemediationAction)
  {
    && RollbackTypeOf(action.actionType).Some? && Subject(action).Some?
    && Adds(ActionCommand(action.actionType).value)
  }

  ghost predicate AllForward(actions: seq<RemediationAction>)
  {
    forall i :: 0 <= i < |actions| ==> Forward(actions[i])
  }

  /** e was added by one of the first k actions, which is reported as possibly in force. */
  ghost predicate Accounted(actions: seq<RemediationAction>, results: seq<ExecutionResult>, k: nat, e: Effect)
    requires k <= |actions| && k <= |results|
  {
    exists i :: 0 <= i < k && Subject(actions[i]) == Some(e) && MayHaveMutated(results[i].status)
  }

  /** What is true of a run that got through its first |results| actions. */
  ghost predicate RunRecord(actions: seq<RemediationAction>, results: seq<ExecutionResult>, start: Host, host: Host)
    requires |results| <= |actions|
  {
    && start <= host
    && (forall i :: 0 <= i < |results| ==> results[i].actionId == actions[i].actionId)
    && (forall e :: e in host && e !in start ==> Accounted(actions, results, |results|, e))
    && (forall i :: 0 <= i < |results| && MayHaveMutated(results[i].status) ==>
          Subject(actions[i]).Some? && Subject(actions[i]).value !in start)
  }

  /** Every effect a returning run added belongs to an action reported as possibly in force, and every such
      action had been absent from the host before the run. */
  lemma {:induction false} RunAddsOnlyReported(setup: Setup, plan: RemediationPlan, turns: seq<Turn>, host: Host, k: nat)
    requires k <= |plan.actions| == |turns|
    requires setup.settings.Real() && AllForward(plan.actions) && TruthfulRun(setup, plan, turns, host, k)
    requires !RunUpTo(setup, plan, turns, host, k).raised
    ensures var p := RunUpTo(setup, plan, turns, host, k);
      RunRecord(plan.actions, p.results, host, p.host)
  {
    if k > 0 {
      RunAddsOnlyReported(setup, plan, turns, host, k - 1);
      var p := RunUpTo(setup, plan, turns, host, k - 1);
      var action := plan.actions[k - 1];
      assert Forward(action);
      assert Truthful(setup, action, turns[k - 1].snapshot, p.host);
      ForwardStepAdds(setup, action, turns[k - 1], p.host);
      var step := ForwardStep(setup, action, turns[k - 1], p.host);
      var result := ResultOf(action, plan.rollbackActions, turns[k - 1], step.status, step.before);
      RecordGrows(plan.actions, p.results, result, host, p.host, step.host);
    }
  }

  lemma RecordGrows(actions: seq<RemediationAction>, results: seq<ExecutionResult>, result: ExecutionResult,
                    start: Host, host: Host, after: Host)
    requires |results| < |actions| && RunRecord(actions, results, start, host)
    requires result.actionId == actions[|results|].actionId && Subject(actions[|results|]).Some?
    requires host <= after <= host + {Subject(actions[|results|]).value}
    requires after != host ==> MayHaveMutated(result.status)
    requires MayHaveMutated(result.status) ==> Subject(actions[|results|]).value !in host
    ensures RunRecord(actions, results + [result], start, after)
  {
    var k := |results|;
    var longer := results + [result];
    forall e | e in after && e !in start ensures Accounted(actions, longer, k + 1, e) {
      if e in host {
        var i :| 0 <= i < k && Subject(actions[i]) == Some(e) && MayHaveMutated(results[i].status);
        assert longer[i] == results[i];
      } else {
        assert longer[k] == result;
      }
    }
  }

  // ---- Rolling back -----------------------------------------------------------------------------

  lemma {:induction false} LastResultIsAt(results: seq<ExecutionResult>, i: nat)
    requires i < |results|
    requires forall a, b :: 0 <= a < b < |results| ==> results[a].actionId != results[b].actionId
    ensures LastResult(results, results[i].actionId) == Some(results[i])
  {
    if i < |results| - 1 {
      LastResultIsAt(results[..|results| - 1], i);
    }
  }

  /** The inverse command works when it is needed, and the snapshot taken before it is complete and true. */
  ghost predicate Assisted(setup: Setup, results: seq<ExecutionResult>, action: RemediationAction, turn: RollbackTurn, host: Host)
  {
    setup.settings.Real() && Needed(results, action) ==>
      && BeforeState(setup, action, turn.snapshot).Some?
      && Truthful(setup, action, turn.snapshot, host)
      && TookEffect(turn.reply)
  }

  ghost predicate AssistedRollback(setup: Setup, plan: RemediationPlan, results: seq<ExecutionResult>, prior: seq<RollbackEntry>,
                                   turns: seq<RollbackTurn>, host: Host, k: nat)
    requires k <= |plan.rollbackActions| == |turns|
  {
    forall j :: 0 <= j < k ==>
      Assisted(setup, results, plan.rollbackActions[j], turns[j], RollbackUpTo(setup, plan, results, prior, turns, host, j).host)
  }

  ghost predicate NoneDone(prior: seq<RollbackEntry>)
  {
    forall i :: 0 <= i < |prior| ==> !prior[i].status.Executed? && !prior[i].status.RolledBack?
  }

  lemma {:induction false} NothingRolledBackBefore(prior: seq<RollbackEntry>, id: string)
    requires NoneDone(prior)
    ensures !RolledBackBefore(prior, id)
  {
    if prior != [] && prior[|prior| - 1].actionId != id {
      NothingRolledBackBefore(prior[..|prior| - 1], id);
    }
  }

  /** A needed rollback removes the effect of its action, and nothing else. */
  lemma RollbackStepRemoves(setup: Setup, results: seq<ExecutionResult>, prior: seq<RollbackEntry>,
                            rollback: RemediationAction, turn: RollbackTurn, action: RemediationAction, host: Host)
    requires setup.settings.Real() && setup.numericAgent && NoneDone(prior)
    requires RevertsExactly(rollback, action) && Assisted(setup, results, rollback, turn, host)
    ensures RollbackStep(setup, results, prior, rollback, turn, host).1
         == if Needed(results, rollback) then host - {Subject(action).value} else host
  {
    NothingRolledBackBefore(prior, rollback.actionId);
    RollbackIsInverse(rollback, action);
  }

  /** Effects whose rollback is among the first k ones and was needed. */
  ghost predicate TakenBack(rollbacks: seq<RemediationAction>, results: seq<ExecutionResult>, k: nat, e: Effect)
    requires k <= |rollbacks|
  {
    exists j :: 0 <= j < k && Needed(results, rollbacks[j]) && Subject(rollbacks[j]) == Some(e)
  }

  lemma TakenBackGrows(rollbacks: seq<RemediationAction>, results: seq<ExecutionResult>, k: nat, e: Effect)
    requires 0 < k <= |rollbacks|
    ensures TakenBack(rollbacks, results, k, e)
      <==> TakenBack(rollbacks, results, k - 1, e)
           || (Needed(results, rollbacks[k - 1]) && Subject(rollbacks[k - 1]) == Some(e))
  {
  }

  lemma PairedStepRemoves(setup: Setup, actions: seq<RemediationAction>, results: seq<ExecutionResult>,
      prior: seq<RollbackEntry>, rollback: RemediationAction, turn: RollbackTurn, host: Host)
    requires setup.settings.Real() && setup.numericAgent && NoneDone(prior)
    requires HasAction(actions, rollback) && Assisted(setup, results, rollback, turn, host)
    ensures var after := RollbackStep(setup, results, prior, rollback, turn, host).1;
      forall e :: e in after <==> e in host && !(Needed(results, rollback) && Subject(rollback) == Some(e))
  {
    var i :| 0 <= i < |actions| && RevertsExactly(rollback, actions[i]);
    RollbackStepRemoves(setup, results, prior, rollback, turn, actions[i], host);
    RollbackIsInverse(rollback, actions[i]);
  }

  lemma {:induction false} RollbackRemovesExactly(setup: Setup, plan: RemediationPlan, results: seq<ExecutionResult>,
      prior: seq<RollbackEntry>, turns: seq<RollbackTurn>, host: Host, k: nat)
    requires k <= |plan.rollbackActions| == |turns|
    requires setup.settings.Real() && setup.numericAgent && NoneDone(prior)
    requires Paired(plan.actions, plan.rollbackActions)
    requires AssistedRollback(setup, plan, results, prior, turns, host, k)
    ensures var p := RollbackUpTo(setup, plan, results, prior, turns, host, k);
      forall e :: e in p.host <==> e in host && !TakenBack(plan.rollbackActions, results, k, e)
  {
    if k > 0 {
      RollbackRemovesExactly(setup, plan, results, prior, turns, host, k - 1);
      var p := RollbackUpTo(setup, plan, results, prior, turns, host, k - 1);
      var rollback, turn := plan.rollbackActions[k - 1], turns[k - 1];
      var after := RollbackStep(setup, results, prior, rollback, turn, p.host).1;
      assert forall e :: e in after <==> e in p.host && !(Needed(results, rollback) && Subject(rollback) == Some(e)) by {
        assert HasAction(plan.actions, rollback);
        PairedStepRemoves(setup, plan.actions, results, prior, rollback, turn, p.host);
      }
      forall e ensures e in after <==> e in host && !TakenBack(plan.rollbackActions, results, k, e) {
        TakenBackGrows(plan.rollbackActions, results, k, e);
      }
    }
  }

  // ---- Run, then roll back ----------------------------------------------------------------------

  /** Without real execution, or without a numeric agent, nothing reaches the host. */
  lemma {:induction false} InertRun(setup: Setup, plan: RemediationPlan, turns: seq<Turn>, host: Host, k: nat)
    requires k <= |plan.actions| == |turns|
    requires !setup.settings.Real() || !setup.numericAgent
    ensures RunUpTo(setup, plan, turns, host, k).host == host
  {
    if k > 0 {
      InertRun(setup, plan, turns, host, k - 1);
    }
  }

  lemma {:induction false} InertRollback(setup: Setup, plan: RemediationPlan, results: seq<ExecutionResult>,
      prior: seq<RollbackEntry>, turns: seq<RollbackTurn>, host: Host, k: nat)
    requires k <= |plan.rollbackActions| == |turns|
    requires !setup.settings.Real() || !setup.numericAgent || results == []
    ensures RollbackUpTo(setup, plan, results, prior, turns, host, k).host == host
  {
    if k > 0 {
      InertRollback(setup, plan, results, prior, turns, host, k - 1);
    }
  }

  /** A rollback is needed exactly when its action is reported as possibly in force. */
  lemma NeededIffReported(plan: RemediationPlan, results: seq<ExecutionResult>, start: Host, host: Host, i: nat, j: nat)
    requires |results| == |plan.actions| && RunRecord(plan.actions, results, start, host)
    requires Distinct(ActionIds(plan.actions))
    requires i < |plan.actions| && j < |plan.rollbackActions|
    requires RevertsExactly(plan.rollbackActions[j], plan.actions[i])
    ensures Needed(results, plan.rollbackActions[j]) <==> MayHaveMutated(results[i].status)
  {
    forall a, b | 0 <= a < b < |results| ensures results[a].actionId != results[b].actionId {
      assert ActionIds(plan.actions)[a] != ActionIds(plan.actions)[b];
    }
    LastResultIsAt(results, i);
  }

  /** What the run added is exactly what the rollbacks take back. */
  lemma TakenBackIsAdded(plan: RemediationPlan, results: seq<ExecutionResult>, start: Host, host: Host, e: Effect)
    requires |results| == |plan.actions| && RunRecord(plan.actions, results, start, host)
    requires Distinct(ActionIds(plan.actions)) && Paired(plan.actions, plan.rollbackActions)
    requires e in host
    ensures TakenBack(plan.rollbackActions, results, |plan.rollbackActions|, e) <==> e !in start
  {
    var rollbacks := plan.rollbackActions;
    if e !in start {
      assert Accounted(plan.actions, results, |results|, e);
      var i :| 0 <= i < |results| && Subject(plan.actions[i]) == Some(e) && MayHaveMutated(results[i].status);
      assert HasRollback(rollbacks, plan.actions[i]);
      var j :| 0 <= j < |rollbacks| && RevertsExactly(rollbacks[j], plan.actions[i]);
      NeededIffReported(plan, results, start, host, i, j);
      RollbackIsInverse(rollbacks[j], plan.actions[i]);
    }
    if TakenBack(rollbacks, results, |rollbacks|, e) {
      var j :| 0 <= j < |rollbacks| && Needed(results, rollbacks[j]) && Subject(rollbacks[j]) == Some(e);
      assert HasAction(plan.actions, rollbacks[j]);
      var i :| 0 <= i < |plan.actions| && RevertsExactly(rollbacks[j], plan.actions[i]);
      NeededIffReported(plan, results, start, host, i, j);
      RollbackIsInverse(rollbacks[j], plan.actions[i]);
    }
  }

  lemma ReversibleIsForward(actions: seq<RemediationAction>)
    requires forall i :: 0 <= i < |actions| ==> RollbackTypeOf(actions[i].actionType).Some?
    ensures AllForward(actions)
  {
  }

  /** Rolling back after a run that returned leaves exactly the effects there were before it: whatever the
      provider did with the forward commands, as long as snapshots are true and inverse commands work. The
      settings are read anew for the rollback; real execution must not have been switched on or off between. */
  lemma RunThenRollbackRestores(setup: Setup, undo: Setup, books: Playbooks, plan: RemediationPlan, diagnosisType: Option<string>,
      turns: seq<Turn>, prior: seq<RollbackEntry>, rollbackTurns: seq<RollbackTurn>, host: Host)
    requires undo.settings.Real() == setup.settings.Real() && undo.numericAgent == setup.numericAgent
    requires ValidatePlan(books, plan, diagnosisType).Ok?
    requires forall i :: 0 <= i < |plan.actions| ==> RollbackTypeOf(plan.actions[i].actionType).Some?
    requires var book := books[PlaybookKey(plan.playbookId, plan.playbookVersion)]; book.actionCount == book.rollbackCount
    requires |turns| == |plan.actions| && |rollbackTurns| == |plan.rollbackActions|
    requires TruthfulRun(setup, plan, turns, host, |turns|)
    requires !RunUpTo(setup, plan, turns, host, |turns|).raised
    requires NoneDone(prior)
    requires var p := RunUpTo(setup, plan, turns, host, |turns|);
      AssistedRollback(undo, plan, p.results, prior, rollbackTurns, p.host, |rollbackTurns|)
    ensures var p := RunUpTo(setup, plan, turns, host, |turns|);
      RollbackUpTo(undo, plan, p.results, prior, rollbackTurns, p.host, |rollbackTurns|).host == host
  {
    var p := RunUpTo(setup, plan, turns, host, |turns|);
    if !setup.settings.Real() || !setup.numericAgent {
      InertRun(setup, plan, turns, host, |turns|);
      InertRollback(undo, plan, p.results, prior, rollbackTurns, p.host, |rollbackTurns|);
    } else {
      ValidPlanIsPaired(books, plan, diagnosisType);
      ValidPlanPairsRollbacks(books, plan, diagnosisType);
      ReversibleIsForward(plan.actions);
      RestoredWhenReal(setup, undo, plan, turns, prior, rollbackTurns, host);
    }
  }

  lemma RestoredWhenReal(setup: Setup, undo: Setup, plan: RemediationPlan, turns: seq<Turn>, prior: seq<RollbackEntry>,
      rollbackTurns: seq<RollbackTurn>, host: Host)
    requires setup.settings.Real() && undo.settings.Real() && undo.numericAgent && NoneDone(prior)
    requires Distinct(ActionIds(plan.actions)) && Paired(plan.actions, plan.rollbackActions) && AllForward(plan.actions)
    requires |turns| == |plan.actions| && |rollbackTurns| == |plan.rollbackActions|
    requires TruthfulRun(setup, plan, turns, host, |turns|)
    requires !RunUpTo(setup, plan, turns, host, |turns|).raised
    requires var p := RunUpTo(setup, plan, turns, host, |turns|);
      AssistedRollback(undo, plan, p.results, prior, rollbackTurns, p.host, |rollbackTurns|)
    ensures var p := RunUpTo(setup, plan, turns, host, |turns|);
      RollbackUpTo(undo, plan, p.results, prior, rollbackTurns, p.host, |rollbackTurns|).host == host
  {
    var p := RunUpTo(setup, plan, turns, host, |turns|);
    RunAddsOnlyReported(setup, plan, turns, host, |turns|);
    RollbackRemovesExactly(undo, plan, p.results, prior, rollbackTurns, p.host, |rollbackTurns|);
    var after := RollbackUpTo(undo, plan, p.results, prior, rollbackTurns, p.host, |rollbackTurns|).host;
    forall e ensures e in after <==> e in host {
      if e in p.host {
        TakenBackIsAdded(plan, p.results, host, p.host, e);
      }
    }
  }

  // ---- What rollback does not promise -----------------------------------------------------------

  /** The workflow calls a rollback successful when every entry has one of these statuses. */
  predicate Successful(entries: seq<RollbackEntry>)
  {
    forall i :: 0 <= i < |entries| ==>
      entries[i].status.Executed? || entries[i].status.DryRun? || entries[i].status.NotRequired?
  }

  predicate NothingToDo(setup: Setup, results: seq<ExecutionResult>, prior: seq<RollbackEntry>, rollback: RemediationAction)
  {
    && !RolledBackBefore(prior, rollback.actionId)
    && !(setup.settings.Real() && Needed(results, rollback))
  }

  /** A rollback is called successful exactly when it had nothing to do: one that removed an effect, or
      found it already gone, never is. */
  lemma {:induction false} SuccessMeansNothingToDo(setup: Setup, plan: RemediationPlan, results: seq<ExecutionResult>,
      prior: seq<RollbackEntry>, turns: seq<RollbackTurn>, host: Host, k: nat)
    requires k <= |plan.rollbackActions| == |turns|
    ensures Successful(RollbackUpTo(setup, plan, results, prior, turns, host, k).entries) <==>
      forall j :: 0 <= j < k ==> NothingToDo(setup, results, prior, plan.rollbackActions[j])
  {
    if k > 0 {
      SuccessMeansNothingToDo(setup, plan, results, prior, turns, host, k - 1);
      var p := RollbackUpTo(setup, plan, results, prior, turns, host, k - 1);
      var status := RollbackStep(setup, results, prior, plan.rollbackActions[k - 1], turns[k - 1], p.host).0;
      var entry := RollbackEntry(plan.rollbackActions[k - 1].actionId, plan.rollbackActions[k - 1].actionType,
                                 plan.rollbackActions[k - 1].target, status);
      SuccessfulAppend(p.entries, entry);
      assert [entry][0] == entry;
      assert Successful([entry]) <==> NothingToDo(setup, results, prior, plan.rollbackActions[k - 1]);
    }
  }

  lemma SuccessfulAppend(entries: seq<RollbackEntry>, entry: RollbackEntry)
    ensures Successful(entries + [entry]) <==> Successful(entries) && Successful([entry])
  {
    var longer := entries + [entry];
    assert longer[|entries|] == entry;
    assert forall i :: 0 <= i < |entries| ==> longer[i] == entries[i];
    assert [entry][0] == entry;
  }

  /** No rollback is ever reported as done, so a second one finds none to skip. */
  lemma {:induction false} RollbackNeverReportsDone(setup: Setup, plan: RemediationPlan, results: seq<ExecutionResult>,
      prior: seq<RollbackEntry>, turns: seq<RollbackTurn>, host: Host, k: nat)
    requires k <= |plan.rollbackActions| == |turns|
    ensures NoneDone(RollbackUpTo(setup, plan, results, prior, turns, host, k).entries)
  {
    if k > 0 {
      RollbackNeverReportsDone(setup, plan, results, prior, turns, host, k - 1);
    }
  }

  /** The i-th action reached the host and changed it: real and durable execution of a numeric agent, the effect
      absent before, the claim granted, and the command carried out. */
  predicate TookHold(setup: Setup, action: RemediationAction, turn: Turn)
  {
    && setup.settings.Real() && setup.durable && setup.numericAgent
    && BeforeState(setup, action, turn.snapshot) == Some(false)
    && turn.claim == Claim(true) && TookEffect(turn.reply)
  }

  lemma StepChangesHostIff(setup: Setup, action: RemediationAction, turn: Turn, host: Host)
    requires Forward(action) && Truthful(setup, action, turn.snapshot, host)
    ensures ForwardStep(setup, action, turn, host).host == if TookHold(setup, action, turn) then host + {Subject(action).value} else host
    ensures TookHold(setup, action, turn) ==> Subject(action).value !in host
  {
  }

  /** How many actions a run got to, the one it raised at included. */
  function Reached(p: Progress): nat { |p.results| + if p.raised then 1 else 0 }

  predicate NoneTookHold(setup: Setup, plan: RemediationPlan, turns: seq<Turn>, n: nat)
    requires n <= |plan.actions| == |turns|
  {
    forall i :: 0 <= i < n ==> !TookHold(setup, plan.actions[i], turns[i])
  }

  /** A run leaves the host as it was exactly if none of the actions it got to took hold. */
  lemma {:induction false} RunChangesHostIff(setup: Setup, plan: RemediationPlan, turns: seq<Turn>, host: Host, k: nat)
    requires k <= |plan.actions| == |turns| && AllForward(plan.actions) && TruthfulRun(setup, plan, turns, host, k)
    ensures HostTells(setup, plan, turns, host, RunUpTo(setup, plan, turns, host, k), k)
  {
    if k > 0 {
      RunChangesHostIff(setup, plan, turns, host, k - 1);
      var before := RunUpTo(setup, plan, turns, host, k - 1);
      if !before.raised {
        OneMoreReached(setup, plan, turns, host, k);
        assert Truthful(setup, plan.actions[k - 1], turns[k - 1].snapshot, before.host);
        HostTellsMore(setup, plan, turns, host, before, RunUpTo(setup, plan, turns, host, k), k);
      }
    }
  }

  ghost predicate HostTells(setup: Setup, plan: RemediationPlan, turns: seq<Turn>, host: Host, p: Progress, k: nat)
    requires k <= |plan.actions| == |turns|
  {
    && host <= p.host && Reached(p) <= k && (!p.raised ==> Reached(p) == k)
    && (p.host == host <==> NoneTookHold(setup, plan, turns, Reached(p)))
  }

  lemma HostTellsMore(setup: Setup, plan: RemediationPlan, turns: seq<Turn>, host: Host, before: Progress, p: Progress, k: nat)
    requires 0 < k <= |plan.actions| == |turns| && AllForward(plan.actions) && !before.raised
    requires HostTells(setup, plan, turns, host, before, k - 1) && Reached(p) == k
    requires Truthful(setup, plan.actions[k - 1], turns[k - 1].snapshot, before.host)
    requires p.host == ForwardStep(setup, plan.actions[k - 1], turns[k - 1], before.host).host
    ensures HostTells(setup, plan, turns, host, p, k)
  {
    assert Forward(plan.actions[k - 1]);
    StepChangesHostIff(setup, plan.actions[k - 1], turns[k - 1], before.host);
    NoneTookHoldStep(setup, plan, turns, k);
  }

  lemma NoneTookHoldStep(setup: Setup, plan: RemediationPlan, turns: seq<Turn>, k: nat)
    requires 0 < k <= |plan.actions| == |turns|
    ensures NoneTookHold(setup, plan, turns, k) <==>
      NoneTookHold(setup, plan, turns, k - 1) && !TookHold(setup, plan.actions[k - 1], turns[k - 1])
  {
  }

  lemma OneMoreReached(setup: Setup, plan: RemediationPlan, turns: seq<Turn>, host: Host, k: nat)
    requires 0 < k <= |plan.actions| == |turns| && !RunUpTo(setup, plan, turns, host, k - 1).raised
    ensures var p := RunUpTo(setup, plan, turns, host, k);
      && Reached(p) == k
      && p.host == ForwardStep(setup, plan.actions[k - 1], turns[k - 1], RunUpTo(setup, plan, turns, host, k - 1).host).host
  {
  }

  /** When a run raises its results are dropped, and rollback acts on results only. The host is then as it was
      before exactly if nothing took hold up to the action it raised at: no effect is ever taken back. */
  lemma RaisedRunIsUndoneIff(setup: Setup, plan: RemediationPlan, turns: seq<Turn>, prior: seq<RollbackEntry>,
      rollbackTurns: seq<RollbackTurn>, host: Host)
    requires |turns| == |plan.actions| && |rollbackTurns| == |plan.rollbackActions|
    requires AllForward(plan.actions) && TruthfulRun(setup, plan, turns, host, |turns|)
    requires RunUpTo(setup, plan, turns, host, |turns|).raised
    ensures var p := RunUpTo(setup, plan, turns, host, |turns|);
      && Reached(p) <= |turns|
      && (RollbackUpTo(setup, plan, [], prior, rollbackTurns, p.host, |rollbackTurns|).host == host <==>
            NoneTookHold(setup, plan, turns, Reached(p)))
  {
    var p := RunUpTo(setup, plan, turns, host, |turns|);
    RunChangesHostIff(setup, plan, turns, host, |turns|);
    InertRollback(setup, plan, [], prior, rollbackTurns, p.host, |rollbackTurns|);
  }

  /** With real execution switched off between a returning run and its rollback, nothing is taken back: the host
      is restored exactly if nothing took hold. */
  lemma SwitchedOffRestoresIff(setup: Setup, undo: Setup, plan: RemediationPlan, turns: seq<Turn>, prior: seq<RollbackEntry>,
      rollbackTurns: seq<RollbackTurn>, host: Host)
    requires !undo.settings.Real()
    requires |turns| == |plan.actions| && |rollbackTurns| == |plan.rollbackActions|
    requires AllForward(plan.actions) && TruthfulRun(setup, plan, turns, host, |turns|)
    requires !RunUpTo(setup, plan, turns, host, |turns|).raised
    ensures var p := RunUpTo(setup, plan, turns, host, |turns|);
      RollbackUpTo(undo, plan, p.results, prior, rollbackTurns, p.host, |rollbackTurns|).host == host <==>
        NoneTookHold(setup, plan, turns, |turns|)
  {
    var p := RunUpTo(setup, plan, turns, host, |turns|);
    RunChangesHostIff(setup, plan, turns, host, |turns|);
    InertRollback(undo, plan, p.results, prior, rollbackTurns, p.host, |rollbackTurns|);
  }

  /** With real execution switched on between, a simulated action of unknown outcome is taken back all the same:
      the host is restored exactly if no such action's effect was in force all along. */
  lemma SwitchedOnRestoresIff(setup: Setup, undo: Setup, plan: RemediationPlan, turns: seq<Turn>, prior: seq<RollbackEntry>,
      rollbackTurns: seq<RollbackTurn>, host: Host)
    requires !setup.settings.Real() && undo.settings.Real() && undo.numericAgent && NoneDone(prior)
    requires Paired(plan.actions, plan.rollbackActions)
    requires |turns| == |plan.actions| && |rollbackTurns| == |plan.rollbackActions|
    requires var p := RunUpTo(setup, plan, turns, host, |turns|);
      AssistedRollback(undo, plan, p.results, prior, rollbackTurns, p.host, |rollbackTurns|)
    ensures var p := RunUpTo(setup, plan, turns, host, |turns|);
      RollbackUpTo(undo, plan, p.results, prior, rollbackTurns, p.host, |rollbackTurns|).host == host <==>
        forall e :: e in host ==> !TakenBack(plan.rollbackActions, p.results, |rollbackTurns|, e)
  {
    InertRun(setup, plan, turns, host, |turns|);
    var p := RunUpTo(setup, plan, turns, host, |turns|);
    RollbackRemovesExactly(undo, plan, p.results, prior, rollbackTurns, p.host, |rollbackTurns|);
    var after := RollbackUpTo(undo, plan, p.results, prior, rollbackTurns, p.host, |rollbackTurns|).host;
    if forall e :: e in host ==> !TakenBack(plan.rollbackActions, p.results, |rollbackTurns|, e) {
      assert forall e :: e in after <==> e in host;
    }
  }

  /** For instance a block that takes hold before the store fails stays in force. */
  lemma RaisedRunIsNotUndone(plan: RemediationPlan, rollbackTurn: RollbackTurn, target: string)
    requires |plan.actions| == 1 && plan.actions[0].actionType == BlockIp && plan.actions[0].target == target
    requires |plan.rollbackActions| == 1
    ensures
      var setup := Setup(ExecutionSettings(true, true, false, false, true), true, true, true);
      var turn := Turn(0, 1, Mapping(REQUIRED_FIELDS, target, Some(false)), Claim(true), Acknowledged(true), false, true);
      var p := RunUpTo(setup, plan, [turn], {}, 1);
      p.raised && RollbackUpTo(setup, plan, [], [], [rollbackTurn], p.host, 1).host != {}
  {
    var setup := Setup(ExecutionSettings(true, true, false, false, true), true, true, true);
    var turn := Turn(0, 1, Mapping(REQUIRED_FIELDS, target, Some(false)), Claim(true), Acknowledged(true), false, true);
    assert RunUpTo(setup, plan, [turn], {}, 0) == Progress([], {}, false);
    assert TookHold(setup, plan.actions[0], turn);
    RaisedRunIsUndoneIff(setup, plan, [turn], [], [rollbackTurn], {});
  }
}
