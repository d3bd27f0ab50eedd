/**
 Verification after execution: the observation window, the registered checks on what was observed since,
 and the verdict.
 */
module Verify {
  import opened Common
  import opened Registries
  import opened Executor

  // ---- The observation window -------------------------------------------------------------------

  predicate Succeeded(s: Status) { s.Accepted? || s.Applied? || s.Executed? || s.NoOp? }

  predicate FailedStatus(s: Status) { s.FailedRetryable? || s.FailedTerminal? || s.TimedOutStatus? || s.Cancelled? }

  /** The last completion of a successful action. */
  function LatestSuccess(results: seq<ExecutionResult>): Option<int>
  {
    if results == [] then None
    else
      var before := LatestSuccess(results[..|results| - 1]);
      var last := results[|results| - 1];
      if !Succeeded(last.status) then before
      else if before.Some? then Some(Max(before.value, last.completedAt))
      else Some(last.completedAt)
  }

  function ReadyAt(results: seq<ExecutionResult>, observationSeconds: int): Option<int>
  {
    var latest := LatestSuccess(results);
    if latest.Some? then Some(latest.value + Max(observationSeconds, 0) * SECOND) else None
  }

  /** The deadline an observation has to wait for: after every successful completion, and no later than needed. */
  method ObservationReadyAt(results: seq<ExecutionResult>, observationSeconds: int) returns (ready: Option<int>)
    ensures ready == ReadyAt(results, observationSeconds)
    ensures ready.Some? <==> exists i :: 0 <= i < |results| && Succeeded(results[i].status)
    ensures ready.Some? ==>
      && (forall i :: 0 <= i < |results| && Succeeded(results[i].status) ==>
            results[i].completedAt + Max(observationSeconds, 0) * SECOND <= ready.value)
      && (exists i :: 0 <= i < |results| && Succeeded(results[i].status)
            && results[i].completedAt + Max(observationSeconds, 0) * SECOND == ready.value)
  {
    var latest: Option<int> := None;
    for k := 0 to |results|
      invariant latest == LatestSuccess(results[..k])
    {
      assert results[..k + 1][..k] == results[..k];
      if Succeeded(results[k].status) {
        latest := Some(if latest.Some? then Max(latest.value, results[k].completedAt) else results[k].completedAt);
      }
    }
    assert results[..|results|] == results;
    LatestSuccessIsLatest(results);
    return if latest.Some? then Some(latest.value + Max(observationSeconds, 0) * SECOND) else None;
  }

  lemma {:induction false} LatestSuccessIsLatest(results: seq<ExecutionResult>)
    ensures LatestSuccess(results).Some? <==> exists i :: 0 <= i < |results| && Succeeded(results[i].status)
    ensures LatestSuccess(results).Some? ==>
      && (forall i :: 0 <= i < |results| && Succeeded(results[i].status) ==> results[i].completedAt <= LatestSuccess(results).value)
      && (exists i :: 0 <= i < |results| && Succeeded(results[i].status) && results[i].completedAt == LatestSuccess(results).value)
  {
    if results != [] {
      var front := results[..|results| - 1];
      LatestSuccessIsLatest(front);
      assert forall i :: 0 <= i < |front| ==> results[i] == front[i];
    }
  }

  // ---- What is observed -------------------------------------------------------------------------

  datatype EventOutcome = Failure | Success | Other

  datatype Alert = Alert(
    timestamp: int, sourceIp: Option<string>, eventOutcome: EventOutcome, agentId: string, ruleLevel: int,
    targetUser: Option<string>, sshAuthentication: bool)

  datatype AlertPage = AlertPage(alerts: seq<Alert>, truncated: bool)

  datatype Probe = NotConfigured | ProbeRaised | Probed(reachable: bool)

  /** Answers of the gateway; a missing one is a call that raised. */
  datatype Observed = Observed(agentActive: Option<bool>, sshPortListening: Option<bool>, probe: Probe)

  datatype VerifySettings = VerifySettings(dryRun: bool, realExecutionEnabled: bool, observationSeconds: int, requireProbe: bool)

  /** The part of the workflow state verification looks at. No agent is the empty string. */
  datatype Subject = Subject(
    agentId: string, diagnosedSourceIp: Option<string>, plan: Option<RemediationPlan>, results: seq<ExecutionResult>)

  // ---- The checks -------------------------------------------------------------------------------

  datatype CheckOutcome = Passed | Failed | NotVerified | Simulated

  predicate OnAgent(agentId: string, a: Alert) { agentId == "" || a.agentId == agentId }

  function After(alerts: seq<Alert>, start: int): seq<Alert>
  {
    if alerts == [] then []
    else After(alerts[..|alerts| - 1], start) + (if alerts[|alerts| - 1].timestamp > start then [alerts[|alerts| - 1]] else [])
  }

  predicate IsAttempt(v: Subject, a: Alert)
  {
    a.sourceIp == v.diagnosedSourceIp && a.eventOutcome.Failure? && OnAgent(v.agentId, a) && a.sshAuthentication
  }

  predicate IsCritical(v: Subject, a: Alert) { a.ruleLevel >= 12 && OnAgent(v.agentId, a) }

  predicate IsTarget(actions: seq<RemediationAction>, user: Option<string>)
  {
    user.Some? && user.value != "" && exists i :: 0 <= i < |actions| && actions[i].target == user.value
  }

  predicate HasTarget(actions: seq<RemediationAction>)
  {
    exists i :: 0 <= i < |actions| && actions[i].target != ""
  }

  predicate IsLogin(v: Subject, a: Alert)
  {
    v.plan.Some? && IsTarget(v.plan.value.actions, a.targetUser) && a.eventOutcome.Success? && OnAgent(v.agentId, a)
  }

  /** A check over alerts fails on a hit, and cannot pass when the page was cut short. */
  function FromAlerts(hit: bool, truncated: bool): CheckOutcome
  {
    if hit then Failed else if truncated then NotVerified else Passed
  }

  function FromFlag(b: bool): CheckOutcome { if b then Passed else Failed }

  /** What a check says, or None when it raises. related are the alerts after the observation start, if the
      gateway could be asked. */
  function Outcome(handler: CheckHandler, v: Subject, seen: Observed, related: Option<seq<Alert>>, truncated: bool): Option<CheckOutcome>
  {
    match handler
    case SshAttemptsStopped =>
      if related.None? then None
      else Some(FromAlerts(exists i :: 0 <= i < |related.value| && IsAttempt(v, related.value[i]), truncated))
    case NoNewCriticalAlerts =>
      if related.None? then None
      else Some(FromAlerts(exists i :: 0 <= i < |related.value| && IsCritical(v, related.value[i]), truncated))
    case NoNewLogin =>
      if v.plan.None? || !HasTarget(v.plan.value.actions) then Some(NotVerified)
      else if related.None? then None
      else Some(FromAlerts(exists i :: 0 <= i < |related.value| && IsLogin(v, related.value[i]), truncated))
    case AgentConnected =>
      if v.agentId == "" then Some(Failed)
      else if seen.agentActive.None? then None else Some(FromFlag(seen.agentActive.value))
    case SshPortListening =>
      if v.agentId == "" then Some(Failed)
      else if seen.sshPortListening.None? then None else Some(FromFlag(seen.sshPortListening.value))
    case ManagementSshReachable =>
      match seen.probe
      case NotConfigured => Some(NotVerified)
      case ProbeRaised => None
      case Probed(ok) => Some(FromFlag(ok))
  }

  predicate UsesAlerts(handler: CheckHandler, v: Subject)
  {
    || handler.SshAttemptsStopped? || handler.NoNewCriticalAlerts?
    || (handler.NoNewLogin? && v.plan.Some? && HasTarget(v.plan.value.actions))
  }

  datatype CheckResult = CheckResult(name: string, category: CheckCategory, required: bool, outcome: CheckOutcome)

  /** Whether a check can hold the verdict back; one of them is optional unless configured. */
  function Effective(registration: CheckRegistration, s: VerifySettings): CheckRegistration
  {
    if registration.handler.ManagementSshReachable? then registration.(required := s.requireProbe) else registration
  }

  // ---- The verdict ------------------------------------------------------------------------------

  datatype Verdict = VerdictPassed | VerdictFailed | VerdictPartial | VerdictSimulated | VerdictNotVerified

  datatype VerificationResult = VerificationResult(
    outcome: Verdict, securityPassed: bool, healthPassed: bool, checks: seq<CheckResult>, dryRun: bool)
  {
    predicate IsPassed() { outcome.VerdictPassed? && securityPassed && healthPassed }
  }

  datatype VerifyError = CheckNotRegistered | GatewayRaised

  predicate CategoryPassed(checks: seq<CheckResult>, category: CheckCategory)
  {
    && (exists i :: 0 <= i < |checks| && checks[i].required && checks[i].category == category)
    && (forall i :: 0 <= i < |checks| && checks[i].required && checks[i].category == category ==> checks[i].outcome.Passed?)
  }

  predicate SomeRequired(checks: seq<CheckResult>, outcome: CheckOutcome)
  {
    exists i :: 0 <= i < |checks| && checks[i].required && checks[i].outcome == outcome
  }

  function Combine(checks: seq<CheckResult>): VerificationResult
  {
    var security, health := CategoryPassed(checks, Security), CategoryPassed(checks, Health);
    VerificationResult(
      if SomeRequired(checks, Failed) then VerdictFailed
      else if SomeRequired(checks, NotVerified) then VerdictPartial
      else if security && health then VerdictPassed
      else VerdictNotVerified,
      security, health, checks, false)
  }

  function Inconclusive(outcome: Verdict): VerificationResult
  {
    VerificationResult(outcome, false, false, [], false)
  }

  /** One result for each declared check, unless a check raises. */
  function RunChecks(regs: seq<CheckRegistration>, s: VerifySettings, v: Subject, seen: Observed, related: Option<seq<Alert>>,
                     truncated: bool): Option<seq<CheckResult>>
  {
    if regs == [] then Some([])
    else
      var n := |regs| - 1;
      var front := RunChecks(regs[..n], s, v, seen, related, truncated);
      var outcome := Outcome(regs[n].handler, v, seen, related, truncated);
      var check := Effective(regs[n], s);
      if front.None? || outcome.None? then None
      else Some(front.value + [CheckResult(check.name, check.category, check.required, outcome.value)])
  }

  function Declared(plan: RemediationPlan): seq<string> { plan.securityChecks + plan.healthChecks }

  predicate AllRegistered(names: seq<string>)
  {
    forall i :: 0 <= i < |names| ==> RegisteredCheck(names[i]).Some?
  }

  function Registrations(names: seq<string>): seq<CheckRegistration>
    requires AllRegistered(names)
  {
    seq(|names|, i requires 0 <= i < |names| => RegisteredCheck(names[i]).value)
  }

  function SimulatedChecks(regs: seq<CheckRegistration>): seq<CheckResult>
  {
    seq(|regs|, i requires 0 <= i < |regs| => CheckResult(regs[i].name, regs[i].category, regs[i].required, Simulated))
  }

  /** page is the gateway's answer about alerts since the observation start. */
  function Verification(s: VerifySettings, v: Subject, now: int, seen: Observed, page: Option<AlertPage>): Result<VerificationResult, VerifyError>
  {
    if exists i :: 0 <= i < |v.results| && FailedStatus(v.results[i].status) then Ok(Inconclusive(VerdictFailed))
    else if v.plan.None? then Ok(Inconclusive(VerdictNotVerified))
    else
      var names := Declared(v.plan.value);
      if !AllRegistered(names) then Err(CheckNotRegistered)
      else if s.dryRun || !s.realExecutionEnabled
      then Ok(VerificationResult(VerdictSimulated, false, false, SimulatedChecks(Registrations(names)), true))
      else
        var start := LatestSuccess(v.results);
        if start.None? || now - start.value < Max(s.observationSeconds, 0) * SECOND
        then Ok(Inconclusive(VerdictNotVerified))
        else
          var related := if page.Some? then Some(After(page.value.alerts, start.value)) else None;
          var checks := RunChecks(Registrations(names), s, v, seen, related, page.Some? && page.value.truncated);
          if checks.None? then Err(GatewayRaised) else Ok(Combine(checks.value))
  }

  class ResponseVerifier {
    const settings: VerifySettings
    var related: Option<seq<Alert>>
    var truncated: bool
    /** How often the gateway was asked for alerts. */
    var searches: nat

    constructor (settings: VerifySettings)
      ensures this.settings == settings && related == None && searches == 0
    {
      this.settings := settings;
      related, truncated, searches := None, false, 0;
    }

    /** Alerts are fetched once and kept for the other checks of the run. */
    method LoadAlerts(start: int, page: Option<AlertPage>) returns (ok: bool)
      modifies this
      ensures ok <==> old(related).Some? || page.Some?
      ensures old(related).Some? ==> related == old(related) && truncated == old(truncated) && searches == old(searches)
      ensures old(related).None? ==> searches == old(searches) + 1
      ensures old(related).None? && ok ==> related == Some(After(page.value.alerts, start)) && truncated == page.value.truncated
      ensures !ok ==> related == None && truncated == old(truncated)
    {
      if related.Some? {
        return true;
      }
      searches := searches + 1;
      if page.None? {
        return false;
      }
      var kept: seq<Alert> := [];
      var alerts := page.value.alerts;
      for k := 0 to |alerts|
        invariant kept == After(alerts[..k], start)
      {
        assert alerts[..k + 1][..k] == alerts[..k];
        if alerts[k].timestamp > start {
          kept := kept + [alerts[k]];
        }
      }
      assert alerts[..|alerts|] == alerts;
      related, truncated := Some(kept), page.value.truncated;
      return true;
    }

    /** Runs the declared checks in order, asking for alerts at most once. */
    method CheckAll(regs: seq<CheckRegistration>, v: Subject, start: int, seen: Observed, page: Option<AlertPage>)
        returns (checks: Option<seq<CheckResult>>)
        modifies this
      ensures checks == RunChecks(regs, settings, v, seen, if page.Some? then Some(After(page.value.alerts, start)) else None,
                                  page.Some? && page.value.truncated)
      ensures searches <= old(searches) + 1
    {
      ghost var answer := if page.Some? then Some(After(page.value.alerts, start)) else None;
      ghost var cut := page.Some? && page.value.truncated;
      related, truncated := None, false;
      checks := Some([]);
      for k := 0 to |regs|
        invariant checks.Some? && checks == RunChecks(regs[..k], settings, v, seen, answer, cut)
        invariant related.Some? ==> related == answer && truncated == cut
        invariant searches == old(searches) + if related.Some? then 1 else 0
      {
        assert regs[..k + 1][..k] == regs[..k];
        if UsesAlerts(regs[k].handler, v) {
          var ok := LoadAlerts(start, page);
          if !ok {
            RaisingCheck(regs, settings, v, seen, answer, cut, k);
            return None;
          }
        }
        AlertsOnlyWhenUsed(regs[k].handler, v, seen, related, truncated, answer, cut);
        var outcome := Outcome(regs[k].handler, v, seen, related, truncated);
        if outcome.None? {
          RaisingCheck(regs, settings, v, seen, answer, cut, k);
          return None;
        }
        var check := Effective(regs[k], settings);
        checks := Some(checks.value + [CheckResult(check.name, check.category, check.required, outcome.value)]);
      }
      assert regs[..|regs|] == regs;
    }

    method Run(v: Subject, now: int, seen: Observed, page: Option<AlertPage>) returns (r: Result<VerificationResult, VerifyError>)
      modifies this
      ensures r == Verification(settings, v, now, seen, page)
      ensures searches <= old(searches) + 1
    {
      if exists i :: 0 <= i < |v.results| && FailedStatus(v.results[i].status) {
        return Ok(Inconclusive(VerdictFailed));
      }
      if v.plan.None? {
        return Ok(Inconclusive(VerdictNotVerified));
      }
      var names := Declared(v.plan.value);
      if !AllRegistered(names) {
        return Err(CheckNotRegistered);
      }
      if settings.dryRun || !settings.realExecutionEnabled {
        return Ok(VerificationResult(VerdictSimulated, false, false, SimulatedChecks(Registrations(names)), true));
      }
      var start := LatestSuccess(v.results);
      if start.None? || now - start.value < Max(settings.observationSeconds, 0) * SECOND {
        return Ok(Inconclusive(VerdictNotVerified));
      }
      var checks := CheckAll(Registrations(names), v, start.value, seen, page);
      return if checks.None? then Err(GatewayRaised) else Ok(Combine(checks.value));
    }
  }

  lemma AlertsOnlyWhenUsed(handler: CheckHandler, v: Subject, seen: Observed, related: Option<seq<Alert>>, truncated: bool,
                           answer: Option<seq<Alert>>, cut: bool)
    requires UsesAlerts(handler, v) ==> related == answer && truncated == cut
    ensures Outcome(handler, v, seen, related, truncated) == Outcome(handler, v, seen, answer, cut)
  {
  }

  /** One check that raises ends the run. */
  lemma {:induction false} RaisingCheck(regs: seq<CheckRegistration>, s: VerifySettings, v: Subject, seen: Observed,
                                        related: Option<seq<Alert>>, truncated: bool, k: nat)
    requires k < |regs| && Outcome(regs[k].handler, v, seen, related, truncated).None?
    ensures RunChecks(regs, s, v, seen, related, truncated).None?
  {
    var n := |regs| - 1;
    if k < n {
      RaisingCheck(regs[..n], s, v, seen, related, truncated, k);
    }
  }

  // ---- What a passed verification means ---------------------------------------------------------

  function CheckAt(reg: CheckRegistration, s: VerifySettings, v: Subject, seen: Observed, related: Option<seq<Alert>>, truncated: bool): CheckResult
    requires Outcome(reg.handler, v, seen, related, truncated).Some?
  {
    var check := Effective(reg, s);
    CheckResult(check.name, check.category, check.required, Outcome(reg.handler, v, seen, related, truncated).value)
  }

  lemma {:induction false} RunChecksAt(regs: seq<CheckRegistration>, s: VerifySettings, v: Subject, seen: Observed,
                                       related: Option<seq<Alert>>, truncated: bool, i: nat)
    requires i < |regs| && RunChecks(regs, s, v, seen, related, truncated).Some?
    ensures |RunChecks(regs, s, v, seen, related, truncated).value| == |regs|
    ensures Outcome(regs[i].handler, v, seen, related, truncated).Some?
    ensures RunChecks(regs, s, v, seen, related, truncated).value[i] == CheckAt(regs[i], s, v, seen, related, truncated)
  {
    var n := |regs| - 1;
    RunChecksStep(regs, s, v, seen, related, truncated);
    if n > 0 {
      RunChecksAt(regs[..n], s, v, seen, related, truncated, if i < n then i else 0);
    } else {
      assert regs[..n] == [];
    }
  }

  /** No check raises when each one has an outcome. */
  lemma {:induction false} RunChecksComplete(regs: seq<CheckRegistration>, s: VerifySettings, v: Subject, seen: Observed,
                                             related: Option<seq<Alert>>, truncated: bool)
    requires forall i :: 0 <= i < |regs| ==> Outcome(regs[i].handler, v, seen, related, truncated).Some?
    ensures RunChecks(regs, s, v, seen, related, truncated).Some?
  {
    if regs != [] {
      var n := |regs| - 1;
      forall i | 0 <= i < n ensures Outcome(regs[..n][i].handler, v, seen, related, truncated).Some? {
        assert regs[..n][i] == regs[i];
      }
      RunChecksComplete(regs[..n], s, v, seen, related, truncated);
      RunChecksStep(regs, s, v, seen, related, truncated);
    }
  }

  lemma RunChecksStep(regs: seq<CheckRegistration>, s: VerifySettings, v: Subject, seen: Observed, related: Option<seq<Alert>>, truncated: bool)
    requires regs != []
    ensures var n := |regs| - 1;
      var front := RunChecks(regs[..n], s, v, seen, related, truncated);
      var checks := RunChecks(regs, s, v, seen, related, truncated);
      && (checks.Some? <==> front.Some? && Outcome(regs[n].handler, v, seen, related, truncated).Some?)
      && (checks.Some? ==> checks.value == front.value + [CheckAt(regs[n], s, v, seen, related, truncated)])
  {
  }

  predicate IsRequired(reg: CheckRegistration, s: VerifySettings)
  {
    Effective(reg, s).required
  }

  /** Some declared check of this category counts. */
  predicate Represented(regs: seq<CheckRegistration>, s: VerifySettings, category: CheckCategory)
  {
    exists i :: 0 <= i < |regs| && IsRequired(regs[i], s) && regs[i].category == category
  }

  lemma CombinePasses(checks: seq<CheckResult>)
    ensures Combine(checks).IsPassed() <==>
      && (exists i :: 0 <= i < |checks| && checks[i].required && checks[i].category == Security)
      && (exists i :: 0 <= i < |checks| && checks[i].required && checks[i].category == Health)
      && (forall i :: 0 <= i < |checks| && checks[i].required ==> checks[i].outcome.Passed?)
  {
  }

  function Related(v: Subject, page: Option<AlertPage>): Option<seq<Alert>>
  {
    if page.Some? && LatestSuccess(v.results).Some?
    then Some(After(page.value.alerts, LatestSuccess(v.results).value)) else None
  }

  /** The evidence a passed verification stands for. */
  ghost predicate ReallyVerified(s: VerifySettings, v: Subject, now: int, seen: Observed, page: Option<AlertPage>)
  {
    && !s.dryRun && s.realExecutionEnabled
    && (forall i :: 0 <= i < |v.results| ==> !FailedStatus(v.results[i].status))
    && (exists i :: 0 <= i < |v.results| && Succeeded(v.results[i].status))
    && (forall i :: 0 <= i < |v.results| && Succeeded(v.results[i].status) ==>
          v.results[i].completedAt + Max(s.observationSeconds, 0) * SECOND <= now)
    && v.plan.Some? && AllRegistered(Declared(v.plan.value))
    && ChecksHold(Registrations(Declared(v.plan.value)), s, v, seen, Related(v, page), page.Some? && page.value.truncated)
  }

  /** Each category is represented, no check raised, and every one that counts passed. */
  ghost predicate ChecksHold(regs: seq<CheckRegistration>, s: VerifySettings, v: Subject, seen: Observed,
                             related: Option<seq<Alert>>, truncated: bool)
  {
    && Represented(regs, s, Security) && Represented(regs, s, Health)
    && (forall i :: 0 <= i < |regs| ==> Outcome(regs[i].handler, v, seen, related, truncated).Some?)
    && (forall i :: 0 <= i < |regs| && IsRequired(regs[i], s) ==> Outcome(regs[i].handler, v, seen, related, truncated) == Some(Passed))
  }

  /** checks are the outcomes of the named checks, one by one. */
  ghost predicate Answers(checks: seq<CheckResult>, regs: seq<CheckRegistration>, s: VerifySettings, v: Subject, seen: Observed,
                          related: Option<seq<Alert>>, truncated: bool)
  {
    && |checks| == |regs|
    && forall i :: 0 <= i < |regs| ==>
         Outcome(regs[i].handler, v, seen, related, truncated).Some? && checks[i] == CheckAt(regs[i], s, v, seen, related, truncated)
  }

  lemma RunChecksAnswers(regs: seq<CheckRegistration>, s: VerifySettings, v: Subject, seen: Observed,
                         related: Option<seq<Alert>>, truncated: bool)
    requires RunChecks(regs, s, v, seen, related, truncated).Some?
    ensures Answers(RunChecks(regs, s, v, seen, related, truncated).value, regs, s, v, seen, related, truncated)
  {
    forall i | 0 <= i < |regs|
      ensures var checks := RunChecks(regs, s, v, seen, related, truncated).value;
        && |checks| == |regs| && Outcome(regs[i].handler, v, seen, related, truncated).Some?
        && checks[i] == CheckAt(regs[i], s, v, seen, related, truncated)
    {
      RunChecksAt(regs, s, v, seen, related, truncated, i);
    }
  }

  lemma AnswersCombine(checks: seq<CheckResult>, regs: seq<CheckRegistration>, s: VerifySettings, v: Subject, seen: Observed,
                       related: Option<seq<Alert>>, truncated: bool)
    requires Answers(checks, regs, s, v, seen, related, truncated)
    ensures Combine(checks).IsPassed() <==> ChecksHold(regs, s, v, seen, related, truncated)
  {
    CombinePasses(checks);
  }

  lemma ChecksHoldIffCombined(regs: seq<CheckRegistration>, s: VerifySettings, v: Subject, seen: Observed,
                              related: Option<seq<Alert>>, truncated: bool)
    ensures var checks := RunChecks(regs, s, v, seen, related, truncated);
      checks.Some? && Combine(checks.value).IsPassed() <==> ChecksHold(regs, s, v, seen, related, truncated)
  {
    var checks := RunChecks(regs, s, v, seen, related, truncated);
    if checks.Some? {
      RunChecksAnswers(regs, s, v, seen, related, truncated);
      AnswersCombine(checks.value, regs, s, v, seen, related, truncated);
    } else if forall i :: 0 <= i < |regs| ==> Outcome(regs[i].handler, v, seen, related, truncated).Some? {
      RunChecksComplete(regs, s, v, seen, related, truncated);
    }
  }

  /** A verification passes exactly when execution was real, nothing failed, something succeeded, the
      observation window is over, and every required check passed with one in each category. */
  lemma PassedIffReallyVerified(s: VerifySettings, v: Subject, now: int, seen: Observed, page: Option<AlertPage>)
    ensures var r := Verification(s, v, now, seen, page);
      r.Ok? && r.value.IsPassed() <==> ReallyVerified(s, v, now, seen, page)
  {
    LatestSuccessIsLatest(v.results);
    if v.plan.Some? && AllRegistered(Declared(v.plan.value)) {
      ChecksHoldIffCombined(Registrations(Declared(v.plan.value)), s, v, seen, Related(v, page), page.Some? && page.value.truncated);
    }
  }

  /** With unchanged settings, a resume the wait gate lets through finds the verifier's window over: the
      verifier then neither simulates nor stops short of running the checks. */
  lemma GateImpliesWindow(s: VerifySettings, v: Subject, now: int, seen: Observed, page: Option<AlertPage>)
    requires ReadyAt(v.results, s.observationSeconds).Some? && ReadyAt(v.results, s.observationSeconds).value <= now
    requires forall i :: 0 <= i < |v.results| ==> !FailedStatus(v.results[i].status)
    requires v.plan.Some? && AllRegistered(Declared(v.plan.value)) && !s.dryRun && s.realExecutionEnabled
    ensures Verification(s, v, now, seen, page) ==
      var checks := RunChecks(Registrations(Declared(v.plan.value)), s, v, seen, Related(v, page), page.Some? && page.value.truncated);
      if checks.None? then Err(GatewayRaised) else Ok(Combine(checks.value))
  {
  }

  lemma {:induction false} AfterHasExactlyLater(alerts: seq<Alert>, start: int)
    ensures forall a :: a in After(alerts, start) <==> a in alerts && a.timestamp > start
  {
    if alerts != [] {
      var n := |alerts| - 1;
      AfterHasExactlyLater(alerts[..n], start);
      assert alerts == alerts[..n] + [alerts[n]];
    }
  }

  /** Passing the attempts check rests on a complete page without one later attempt from the diagnosed source. */
  lemma AttemptsStoppedMeans(v: Subject, seen: Observed, page: AlertPage, start: int)
    ensures Outcome(SshAttemptsStopped, v, seen, Some(After(page.alerts, start)), page.truncated) == Some(Passed)
      <==> !page.truncated && forall a :: a in page.alerts && a.timestamp > start ==> !IsAttempt(v, a)
  {
    AfterHasExactlyLater(page.alerts, start);
    var later := After(page.alerts, start);
    assert forall i :: 0 <= i < |later| ==> later[i] in later;
  }

  /** Passing the login check rests on a complete page without one later login of a disabled account. */
  lemma NoLoginMeans(v: Subject, seen: Observed, page: AlertPage, start: int)
    requires v.plan.Some? && HasTarget(v.plan.value.actions)
    ensures Outcome(NoNewLogin, v, seen, Some(After(page.alerts, start)), page.truncated) == Some(Passed)
      <==> !page.truncated && forall a :: a in page.alerts && a.timestamp > start ==> !IsLogin(v, a)
  {
    AfterHasExactlyLater(page.alerts, start);
    var later := After(page.alerts, start);
    assert forall i :: 0 <= i < |later| ==> later[i] in later;
  }
}
