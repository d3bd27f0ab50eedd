/**
 The executor's restoration carried to whole workflow runs: a run that executes, and later rolls back without
 its plan having been replaced meanwhile, leaves the host as it was before the execution.
 */
module WorkflowRestoration {
  import opened Common
  import opened Registries
  import opened Workflow
  import Executor
  import PlanBuilders
  import WorkflowSafety
  import WorkflowTermination

  predicate Responding(s: State) { s.node.VerificationWait? || s.node.VerifyResponse? || s.node.Rollback? }

  lemma StepKeepsResponse(books: Playbooks, s: State, e: Event)
    requires WorkflowTermination.PastExecution(s) && Step(books, s, e).Some? && !e.input.Replaced?
    requires Responding(Step(books, s, e).value)
    ensures Responding(s)
    ensures var after := Step(books, s, e).value;
      after.plan == s.plan && after.response.results == s.response.results && after.response.rollback == s.response.rollback
  {
    StepFollowsEdges(books, s, e);
  }

  predicate NothingReplaced(events: seq<Event>)
  {
    forall i :: 0 <= i < |events| ==> !events[i].input.Replaced?
  }

  /** On the way from the executor to the rollback, plan and results stay. */
  lemma {:induction false} RunKeepsResponse(books: Playbooks, s: State, events: seq<Event>)
    requires WorkflowTermination.PastExecution(s) && NothingReplaced(events) && Run(books, s, events).Some?
    ensures var after := Run(books, s, events).value;
      && WorkflowTermination.PastExecution(after)
      && (Responding(after) ==>
            after.plan == s.plan && after.response.results == s.response.results && after.response.rollback == s.response.rollback)
  {
    if events != [] {
      var last := |events| - 1;
      RunKeepsResponse(books, s, events[..last]);
      var before := Run(books, s, events[..last]).value;
      WorkflowTermination.PastExecutionStays(books, before, events[last]);
      if Responding(Run(books, s, events).value) {
        StepKeepsResponse(books, before, events[last]);
      }
    }
  }

  lemma ExecutionIsRecorded(books: Playbooks, s: State, e: Event)
    requires s.node.Execute? && !ExecutorRefuses(s) && e.input.ExecutorRuns? && |e.input.turns| == |s.plan.value.actions|
    requires !Execution(s, e).raised
    ensures Step(books, s, e).Some?
    ensures var after := Step(books, s, e).value;
      && WorkflowTermination.PastExecution(after) && after.plan == s.plan
      && after.response.results == Execution(s, e).results && after.response.rollback == s.response.rollback
  {
  }

  /** What a state at the executor brings with it: a granted, valid plan and no rollback yet. */
  lemma ReadyToExecute(books: Playbooks, start: State, events: seq<Event>) returns (diagnosisType: string)
    requires Fresh(start) && Run(books, start, events).Some? && Run(books, start, events).value.node.Execute?
    ensures var s := Run(books, start, events).value;
      && s.plan.Some? && !ExecutorRefuses(s) && s.response.rollback.None?
      && ValidatePlan(books, s.plan.value, Some(diagnosisType)).Ok?
  {
    WorkflowSafety.ExecutionIsAuthorized(books, start, events);
    WorkflowSafety.RunKeepsInv(books, start, events);
    var before := Run(books, start, events[..|events| - 1]).value;
    diagnosisType := CaseOf(before).diagnosis.value.incidentType;
  }

  /** The rollback of this event, on the stored plan and results. */
  function Undoing(s: State, e: Event): Executor.RollbackProgress
    requires s.plan.Some? && e.input.RollbackRuns? && |e.input.rollbackTurns| == |s.plan.value.rollbackActions|
  {
    Executor.RollbackUpTo(SetupOf(e.settings, e.input), s.plan.value, s.response.results, [], e.input.rollbackTurns, e.input.host,
                          |e.input.rollbackTurns|)
  }

  /** Between a returning execution and the rollback of a fresh run nothing is replaced and nobody else touches the
      host; snapshots are true and inverse commands work; real execution is not switched. Then the rollback works
      on the executed plan and its results, and leaves the host exactly as the execution found it. */
  lemma RollbackRestoresHost(books: Playbooks, start: State, events: seq<Event>, executed: Event, between: seq<Event>, undone: Event)
    requires forall k :: k in books ==> books[k].key == k && Reversible(books[k])
    requires Fresh(start) && Run(books, start, events).Some? && Run(books, start, events).value.node.Execute?
    requires executed.input.ExecutorRuns? && Step(books, Run(books, start, events).value, executed).Some? && NothingReplaced(between)
    requires Run(books, Step(books, Run(books, start, events).value, executed).value, between).Some?
    requires var s, u := Run(books, start, events).value, Run(books, Step(books, Run(books, start, events).value, executed).value, between).value;
      && s.plan.Some? && |executed.input.turns| == |s.plan.value.actions| && !Execution(s, executed).raised
      && Executor.TruthfulRun(SetupOf(executed.settings, executed.input), s.plan.value, executed.input.turns, executed.input.host, |executed.input.turns|)
      && u.node.Rollback? && undone.input.RollbackRuns? && undone.input.host == Execution(s, executed).host
      && |undone.input.rollbackTurns| == |s.plan.value.rollbackActions|
      && Executor.AssistedRollback(SetupOf(undone.settings, undone.input), s.plan.value, Execution(s, executed).results, [],
                                   undone.input.rollbackTurns, undone.input.host, |undone.input.rollbackTurns|)
    requires undone.settings.execution.Real() == executed.settings.execution.Real()
    requires undone.input.numericAgent == executed.input.numericAgent
    ensures var s, u := Run(books, start, events).value, Run(books, Step(books, Run(books, start, events).value, executed).value, between).value;
      && u.plan == s.plan && u.response.results == Execution(s, executed).results
      && Step(books, u, undone).Some?
      && Undoing(u, undone).host == executed.input.host
      && Step(books, u, undone).value.response.rollback
         == Some(RollbackRecord(Executor.Successful(Undoing(u, undone).entries), Undoing(u, undone).entries))
  {
    var s := Run(books, start, events).value;
    var diagnosisType := ReadyToExecute(books, start, events);
    ExecutionIsRecorded(books, s, executed);
    var t := Step(books, s, executed).value;
    RunKeepsResponse(books, t, between);
    var u := Run(books, t, between).value;
    RollbackIsRecorded(books, u, undone);
    PlanIsRestored(books, s, diagnosisType, executed, undone);
  }

  lemma RollbackIsRecorded(books: Playbooks, s: State, e: Event)
    requires s.node.Rollback? && s.plan.Some? && s.response.rollback.None?
    requires e.input.RollbackRuns? && |e.input.rollbackTurns| == |s.plan.value.rollbackActions|
    ensures Step(books, s, e).Some?
    ensures Step(books, s, e).value.response.rollback
         == Some(RollbackRecord(Executor.Successful(Undoing(s, e).entries), Undoing(s, e).entries))
  {
  }

  lemma PlanIsRestored(books: Playbooks, s: State, diagnosisType: string, executed: Event, undone: Event)
    requires forall k :: k in books ==> books[k].key == k && Reversible(books[k])
    requires s.plan.Some? && ValidatePlan(books, s.plan.value, Some(diagnosisType)).Ok?
    requires executed.input.ExecutorRuns? && |executed.input.turns| == |s.plan.value.actions| && !Execution(s, executed).raised
    requires Executor.TruthfulRun(SetupOf(executed.settings, executed.input), s.plan.value, executed.input.turns, executed.input.host, |executed.input.turns|)
    requires undone.input.RollbackRuns? && |undone.input.rollbackTurns| == |s.plan.value.rollbackActions|
    requires undone.input.host == Execution(s, executed).host
    requires Executor.AssistedRollback(SetupOf(undone.settings, undone.input), s.plan.value, Execution(s, executed).results, [],
                                       undone.input.rollbackTurns, undone.input.host, |undone.input.rollbackTurns|)
    requires undone.settings.execution.Real() == executed.settings.execution.Real()
    requires undone.input.numericAgent == executed.input.numericAgent
    ensures Executor.RollbackUpTo(SetupOf(undone.settings, undone.input), s.plan.value, Execution(s, executed).results, [],
                                  undone.input.rollbackTurns, undone.input.host, |undone.input.rollbackTurns|).host == executed.input.host
  {
    var plan := s.plan.value;
    var book := books[PlaybookKey(plan.playbookId, plan.playbookVersion)];
    PlanBuilders.ValidActionsAreReversible(books, book, plan, diagnosisType);
    Executor.RunThenRollbackRestores(SetupOf(executed.settings, executed.input), SetupOf(undone.settings, undone.input), books, plan,
      Some(diagnosisType), executed.input.turns, [], undone.input.rollbackTurns, executed.input.host);
  }
}
