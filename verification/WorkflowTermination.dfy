/**
 How long workflow runs can be: a measure every step decreases except waiting, a bound on analyzer runs,
 and at most one execution and one rollback. limit bounds the analysis limits that the steps of a run read.
 */
module WorkflowTermination {
  import opened Common
  import opened Registries
  import opened Workflow
  import WorkflowSafety

  // ---- The measure ------------------------------------------------------------------------------

  /** Analyzer runs still allowed. */
  function Left(s: State, limit: int): nat { Max(limit - s.analysisAttempts, 0) }

  function Rank(s: State, limit: int): nat
  {
    match s.node
    case Monitor => 11 + 2 * Left(s, limit)
    case Analyze => 10 + 2 * Left(s, limit)
    case Plan => 9
    case PolicyGate => 8
    case HumanApproval => 7
    case ExecutionAuthorization => 6
    case Execute => 5
    case VerificationWait => 4
    case VerifyResponse => 3
    case Rollback => 2
    case Knowledge => 1
    case End => 0
  }

  /** External events that may leave the workflow where it waits. */
  predicate Waits(input: Input) { input.Replaced? || input.WaitPayload? }

  /** No step reads an analysis limit above this one. */
  predicate LimitsUpTo(events: seq<Event>, limit: int)
  {
    forall i :: 0 <= i < |events| ==> events[i].settings.maxAnalysisAttempts <= limit
  }

  /** The same in a run without re-entries. */
  predicate Limited(events: seq<Event>, limit: int)
  {
    LimitsUpTo(events, limit) && forall i :: 0 <= i < |events| ==> !events[i].input.MoreEvidence?
  }

  lemma MonitorAndAnalyzeDescend(books: Playbooks, s: State, e: Event, limit: int)
    requires (s.node.Monitor? || s.node.Analyze?) && RunNode(books, s, e).Some? && e.settings.maxAnalysisAttempts <= limit
    ensures Rank(RunNode(books, s, e).value, limit) < Rank(s, limit)
  {
  }

  lemma StepDescends(books: Playbooks, s: State, e: Event, limit: int)
    requires Step(books, s, e).Some? && !e.input.MoreEvidence? && e.settings.maxAnalysisAttempts <= limit
    ensures Rank(Step(books, s, e).value, limit) <= Rank(s, limit)
    ensures !Waits(e.input) ==> Rank(Step(books, s, e).value, limit) < Rank(s, limit)
  {
    StepFollowsEdges(books, s, e);
    if s.node.Monitor? || s.node.Analyze? {
      if !e.input.Replaced? {
        MonitorAndAnalyzeDescend(books, s, e, limit);
      }
    } else if s.node.VerificationWait? {
      OnlyResumesRepeat(books, s, e);
    }
  }

  lemma OnlyResumesRepeat(books: Playbooks, s: State, e: Event)
    requires s.node.VerificationWait? && Step(books, s, e).Some?
    ensures Step(books, s, e).value.node.VerificationWait? ==> Waits(e.input)
  {
    StepFollowsEdges(books, s, e);
  }

  function Count(events: seq<Event>, p: Input -> bool): nat
  {
    if events == [] then 0
    else Count(events[..|events| - 1], p) + if p(events[|events| - 1].input) then 1 else 0
  }

  /** Re-entries after an escalation start over at the first node. */
  predicate Reenters(input: Input) { input.MoreEvidence? }

  /** How many steps external events can bring: a waiting event itself, a re-entry a whole run. */
  function Brought(events: seq<Event>, limit: int): nat
  {
    if events == [] then 0 else Brought(events[..|events| - 1], limit) + BroughtBy(events[|events| - 1].input, limit)
  }

  function BroughtBy(input: Input, limit: int): nat
  {
    if Waits(input) then 1 else if Reenters(input) then 12 + 2 * Max(limit, 0) else 0
  }

  lemma StepCosts(books: Playbooks, s: State, e: Event, limit: int)
    requires Step(books, s, e).Some? && e.settings.maxAnalysisAttempts <= limit
    ensures Rank(Step(books, s, e).value, limit) < Rank(s, limit) + BroughtBy(e.input, limit)
  {
    if !Reenters(e.input) {
      StepDescends(books, s, e, limit);
    }
  }

  /** A run is no longer than the rank of its first state and what its external events bring: between
      replacements, refused or premature resumes and re-entries, every run is finite. */
  lemma {:induction false} RunIsBounded(books: Playbooks, start: State, events: seq<Event>, limit: int)
    requires LimitsUpTo(events, limit) && Run(books, start, events).Some?
    ensures |events| + Rank(Run(books, start, events).value, limit) <= Rank(start, limit) + Brought(events, limit)
  {
    if events != [] {
      var last := |events| - 1;
      RunIsBounded(books, start, events[..last], limit);
      StepCosts(books, Run(books, start, events[..last]).value, events[last], limit);
    }
  }

  // ---- Analyzer runs ----------------------------------------------------------------------------

  predicate RunsAnalyzer(input: Input) { input.AnalyzerFailed? || input.Analyzed? }

  predicate FailedInAnalyze(s: State) { s.status.Failed? && s.stage.InAnalyze? }

  predicate AtEnd(s: State) { s.node.Knowledge? || s.node.End? }

  /** Analyzer runs since start, a failed one included, as the state shows them. */
  function AnalyzerRuns(s: State): nat { s.analysisAttempts + if FailedInAnalyze(s) then 1 else 0 }

  ghost predicate CountsAnalyzer(s: State, e: Event, after: State)
  {
    && (FailedInAnalyze(after) ==> AtEnd(after))
    && AnalyzerRuns(after) == AnalyzerRuns(s) + (if RunsAnalyzer(e.input) then 1 else 0)
    && (RunsAnalyzer(e.input) ==> AnalyzerRuns(after) <= e.settings.maxAnalysisAttempts)
  }

  lemma AnalyzerNodeCounts(books: Playbooks, s: State, e: Event)
    requires s.node.Analyze? && !FailedInAnalyze(s) && RunNode(books, s, e).Some?
    ensures CountsAnalyzer(s, e, RunNode(books, s, e).value)
  {
  }

  lemma EarlyNodesCount(books: Playbooks, s: State, e: Event)
    requires s.node.Monitor? || s.node.Plan? || s.node.PolicyGate? || s.node.HumanApproval?
    requires !FailedInAnalyze(s) && RunNode(books, s, e).Some?
    ensures CountsAnalyzer(s, e, RunNode(books, s, e).value)
  {
  }

  lemma LateNodesCount(books: Playbooks, s: State, e: Event)
    requires s.node.ExecutionAuthorization? || s.node.Execute? || s.node.VerificationWait? || s.node.VerifyResponse? || s.node.Rollback?
    requires !FailedInAnalyze(s) && RunNode(books, s, e).Some?
    ensures CountsAnalyzer(s, e, RunNode(books, s, e).value)
  {
  }

  lemma AnalyzerStep(books: Playbooks, s: State, e: Event)
    requires Step(books, s, e).Some? && !e.input.MoreEvidence?
    requires FailedInAnalyze(s) ==> AtEnd(s)
    ensures CountsAnalyzer(s, e, Step(books, s, e).value)
  {
    if !e.input.Replaced? {
      match s.node
      case Analyze => AnalyzerNodeCounts(books, s, e);
      case Monitor => EarlyNodesCount(books, s, e);
      case Plan => EarlyNodesCount(books, s, e);
      case PolicyGate => EarlyNodesCount(books, s, e);
      case HumanApproval => EarlyNodesCount(books, s, e);
      case Knowledge =>
      case End =>
      case _ => LateNodesCount(books, s, e);
    }
  }

  lemma {:induction false} AnalyzerRunsAreCounted(books: Playbooks, start: State, events: seq<Event>, limit: int)
    requires Limited(events, limit) && Run(books, start, events).Some? && !start.status.Failed?
    ensures var s := Run(books, start, events).value;
      && (FailedInAnalyze(s) ==> AtEnd(s))
      && AnalyzerRuns(s) == start.analysisAttempts + Count(events, RunsAnalyzer)
      && (Count(events, RunsAnalyzer) > 0 ==> AnalyzerRuns(s) <= limit)
  {
    if events != [] {
      var last := |events| - 1;
      AnalyzerRunsAreCounted(books, start, events[..last], limit);
      AnalyzerStep(books, Run(books, start, events[..last]).value, events[last]);
    }
  }

  /** A fresh run consults the analyzer no more often than the configured limit. */
  lemma FreshRunAnalyzesWithinLimit(books: Playbooks, start: State, events: seq<Event>, limit: int)
    requires Fresh(start) && Limited(events, limit) && Run(books, start, events).Some?
    ensures Count(events, RunsAnalyzer) <= Max(limit, 0)
  {
    AnalyzerRunsAreCounted(books, start, events, limit);
  }

  /** Asking for more evidence is possible only before anything was planned, approved or executed, and
      leads to at most one more analyzer run. */
  lemma ReentryIsHarmless(books: Playbooks, start: State, before: seq<Event>, again: Event, events: seq<Event>)
    requires Fresh(start) && Run(books, start, before).Some?
    requires again.input.MoreEvidence? && Step(books, Run(books, start, before).value, again).Some?
    requires Limited(events, again.settings.maxAnalysisAttempts)
    requires Run(books, Step(books, Run(books, start, before).value, again).value, events).Some?
    ensures Untouched(Run(books, start, before).value)
    ensures Count(events, RunsAnalyzer) <= 1
  {
    WorkflowSafety.RunKeepsInv(books, start, before);
    AnalyzerRunsAreCounted(books, Step(books, Run(books, start, before).value, again).value, events, again.settings.maxAnalysisAttempts);
  }

  // ---- One execution, one rollback --------------------------------------------------------------

  predicate RunsExecutor(input: Input) { input.ExecutorRuns? }

  predicate RunsRollback(input: Input) { input.RollbackRuns? || input.RollbackRaises? }

  /** Past the executor: the stage can then no longer name Analyze, so there is no way back. */
  predicate PastExecution(s: State)
  {
    s.node.VerificationWait? || s.node.VerifyResponse? || s.node.Rollback? || (AtEnd(s) && !s.stage.InAnalyze?)
  }

  predicate PastRollback(s: State) { AtEnd(s) && !s.stage.InAnalyze? }

  lemma PastExecutionStays(books: Playbooks, s: State, e: Event)
    requires Step(books, s, e).Some? && (PastExecution(s) || s.node.Execute?)
    ensures PastExecution(Step(books, s, e).value)
    ensures PastRollback(s) ==> PastRollback(Step(books, s, e).value)
    ensures RunsExecutor(e.input) <==> s.node.Execute?
    ensures RunsRollback(e.input) <==> s.node.Rollback?
    ensures s.node.Rollback? ==> PastRollback(Step(books, s, e).value)
  {
    StepFollowsEdges(books, s, e);
  }

  lemma BeforeExecution(books: Playbooks, s: State, e: Event)
    requires Step(books, s, e).Some? && !PastExecution(s) && !s.node.Execute?
    ensures !RunsExecutor(e.input) && !RunsRollback(e.input)
    ensures var after := Step(books, s, e).value; !PastExecution(after) || AtEnd(after)
  {
    StepFollowsEdges(books, s, e);
  }

  /** Over a whole run, re-entries included, the executor runs at most once, the rollback at most once, and
      no rollback runs without an execution before it. */
  lemma {:induction false} AtMostOneExecution(books: Playbooks, start: State, events: seq<Event>)
    requires Fresh(start) && Run(books, start, events).Some?
    ensures var s := Run(books, start, events).value;
      && Count(events, RunsRollback) <= Count(events, RunsExecutor) <= 1
      && (Count(events, RunsExecutor) == 1 ==> PastExecution(s))
      && (Count(events, RunsRollback) == 1 ==> PastRollback(s))
      && (s.node.VerificationWait? || s.node.VerifyResponse? || s.node.Rollback? ==> Count(events, RunsExecutor) == 1)
  {
    if events != [] {
      var last := |events| - 1;
      AtMostOneExecution(books, start, events[..last]);
      var s := Run(books, start, events[..last]).value;
      if PastExecution(s) || s.node.Execute? {
        PastExecutionStays(books, s, events[last]);
      } else {
        BeforeExecution(books, s, events[last]);
      }
    }
  }
}
