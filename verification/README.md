# Verified model of the incident-response workflow

A Dafny model of a controlled incident-response system, organised as a Monitor, Analyze, Plan, Execute loop over shared
knowledge, with proofs of what its parts promise together.
`dafny verify dfyconfig.toml` checks everything.

## What is modelled

* **The workflow machine** (`Workflow`, `WorkflowSafety`, `WorkflowTermination`, `WorkflowRestoration`): eleven nodes, the conditional edges, three
  external interrupts and the re-entry after an escalation, as a step function over a state. Analyzer and planner outputs, resume
  payloads, settings, the clock and the provider are inputs of each step; while the workflow waits, the plan, the evidence version
  and the diagnosis may be replaced, and settings may differ in every step. The theorems quantify over all finite runs; `Containment`
  shows that a run from the alert to completion exists.
* **The response path** (`Registries`, `PlanBuilders`, `Policy`, `Executor`, `Verify`, `Evidence`): the plan builders, plan validation
  against published playbooks, the policy gate and its role arithmetic, the executor's forward and rollback loops over a host that is a set of effects, the
  verification verdict, and the evidence gate in front of planning.
* **Budgets and limiters** (`RateLimiter`, `ToolBudget`, `PromptBudget`, `SchemaBudget`, `ResultClipping`, `ResultDelivery`,
  `ClippedReferences`): the stateful loops, each proved against a statement of what it is for. `ToolBudget` interleaves the lock-delimited sections of parallel calls.
* **Leases, claims and recovery** (`Leases`, `ExecutionLeases`, `QueueClaims`, `Recovery`): one row per resource, taken without waiting,
  released by token, while other workers act on the same table.
* **Pure reasoning** (`WindowMatch`, `Sanitization` over the trees of `Json`): the detection window and its grouping, and the bounded copy
  made before storage. `Common` holds shared vocabulary and a pigeonhole principle.

Code that updates fields or fills lists is modelled by classes and loops, proved equal to a specification function; what the source
promises is then proved about that function. Instants are integers in microseconds, except in `RateLimiter`, where they are reals.
Plan hashes and approval ids are injective constructors. Addresses are already canonical.

## Promises that do not hold as stated

* A rollback that removed an effect is never called successful (`Executor.SuccessMeansNothingToDo`): the executor reports `accepted` or
  `no_op`, and the workflow counts neither.
* If the executor raises, its results are dropped and rollback undoes nothing: the host is then as before exactly if none of the actions
  it got to took hold (`Executor.RaisedRunIsUndoneIff`). Restoration is proved for runs that return.
* Settings are read anew for the rollback. Switching real execution between the two calls breaks restoration, exactly when something took
  hold (off, `Executor.SwitchedOffRestoresIff`) or when a simulated action of unknown outcome was in force all along (on,
  `Executor.SwitchedOnRestoresIff`).
* "Once a non-queued status is stored, the workflow is not started again" is true of every status the workflow stores, and false of the
  `failed` that a worker stores after giving up, because that store is made without the lease
  (`QueueClaims.SurrenderCanPrecedeInvocation`). A worker about to start the workflow does so for a queued row exactly when the stored
  attempt count is below the limit (`QueueClaims.InvocationRespectsStoredStatus`).
* A clipped result mentions only references of its source exactly when every loss recorded under an identifier key happens to read as one
  of them (`ResultDelivery.ClippedIsFaithful`), in particular when no top-level list stands under such a key; for every such key there is
  a result that breaks it (`ClippedReferences.ShortenedIdListInventsReference`).
* Assessing evidence twice changes the outcome exactly in the deferred case (`Evidence.AssessmentIsIdempotentUnlessDeferred`), and
  sanitizing a copy again changes it exactly when a list lost more than one item, or a mapping or mark does not settle
  (`Sanitization.SecondCopyIsSameIff`).

## Model

| member | source | states |
|---|---|---|
| `WorkflowSafety.ExecutionIsAuthorized` | Backend/app/mape_k/nodes.py:693-843 | in every run, whatever is replaced at a pause, the executor is reached only straight after a grant whose approval id, action ids and plan payload match an approval sent earlier in the run, unexpired, re-allowed by policy, both actors outranking every action |
| `WorkflowSafety.DecisionsComeFromApprovers` | Backend/app/mape_k/nodes.py:577-690 | an approval on record was sent by some event of the run, for the request on record, while the request was bound to the stored plan |
| `WorkflowSafety.GrantIsAuthorized` | Backend/app/mape_k/nodes.py:732-843 | the authorization node lets a grant through only with everything above |
| `WorkflowSafety.OnlyGrantLeadsToExecute` | Backend/app/mape_k/routes.py:52-58 | no other node, replacement or re-entry leads to the executor |
| `WorkflowSafety.RequestCovers` | Backend/app/mape_k/nodes.py:528-554 | a request carries the hash of the plan it was made for and asks for a role that outranks all its actions |
| `WorkflowSafety.RunKeepsInv` | Backend/app/mape_k/nodes.py:133-843 | what every node may assume about plan, request, decision and grant holds in every reachable state |
| `WorkflowSafety.ApprovalIsRecorded` | Backend/app/mape_k/nodes.py:636-690 | a decision changes only on a bound approval payload at the approval node |
| `WorkflowSafety.ProperApprovalIsHonoured` | Backend/app/mape_k/nodes.py:498-843 | conversely, an allowed plan that is approved and granted in time by sufficient roles, with nothing replaced, does reach the executor |
| `WorkflowSafety.GateRequests` | Backend/app/mape_k/nodes.py:516-568 | an allowed plan with actions always yields a request bound to its own hash |
| `WorkflowSafety.RequestStaysBound` | Backend/app/mape_k/nodes.py:93-130 | a request nobody interfered with stays bound until it expires |
| `WorkflowSafety.PlansRestOnEvidence` | Backend/app/mape_k/nodes.py:358-405 | with the evidence requirement on, an executable plan is gated only after an analysis whose unrounded evidence met the threshold, with no gap and a threat to act on |
| `WorkflowSafety.CompletedMeansVerified` | Backend/app/mape_k/nodes.py:967-1073 | a completed run executed outside dry-run and ended with a verification that means everything ReallyVerified says, of the results and plan it completed with |
| `WorkflowSafety.SuccessWasReal` | Backend/app/mape_k/nodes.py:846-878 | a successful result is only ever recorded by an execution outside dry-run |
| `WorkflowSafety.OnlyVerificationUpdatesKnowledge` | Backend/app/mape_k/nodes.py:979-1006 | the knowledge node is entered as successful only from a passed verification |
| `WorkflowSafety.CompletedIsFinal` | Backend/app/mape_k/graph.py:323-324 | no step follows a completed run |
| `WorkflowSafety.GateAdmitsVerification` | Backend/app/mape_k/nodes.py:881-964 | with unchanged observation time and a clock that does not run back, an admitted resume never fails the verifier's own window check |
| `WorkflowSafety.RunKeepsDeadline` | Backend/app/mape_k/nodes.py:854-866 | the waiting deadline is always the one of the recorded results |
| `Workflow.NodeFollowsEdges` | Backend/app/mape_k/graph.py:260-324 | every node moves along the edge table of the graph |
| `Workflow.StepFollowsEdges` | Backend/app/mape_k/routes.py:12-90 | a step is a replacement at an interrupt, a re-entry, or an edge |
| `WorkflowTermination.RunIsBounded` | Backend/app/mape_k/graph.py:260-324 | with the analysis limit read anew in each step and never above some bound, a run is no longer than the rank of its first state, plus its external waiting events, plus a constant for each re-entry |
| `WorkflowTermination.StepDescends` | Backend/app/mape_k/routes.py:12-90 | every step other than waiting and re-entry strictly decreases the rank |
| `WorkflowTermination.FreshRunAnalyzesWithinLimit` | Backend/app/mape_k/nodes.py:143-200 | the analyzer runs at most the configured number of times in a fresh run |
| `WorkflowTermination.AnalyzerRunsAreCounted` | Backend/app/mape_k/nodes.py:147-200 | the attempt counter counts exactly the analyzer runs of the run |
| `WorkflowTermination.ReentryIsHarmless` | Backend/app/orchestration/investigation_service.py:584-622 | more evidence can be asked for only before anything was planned, approved or executed, and adds at most one analyzer run |
| `WorkflowTermination.AtMostOneExecution` | Backend/app/mape_k/graph.py:293-324 | over whole runs, re-entries included: at most one execution, at most one rollback, and no rollback without an execution before it |
| `Executor.RunThenRollbackRestores` | Backend/app/mape_k/executor.py:154-492 | for every valid plan whose actions all have a rollback type and whose playbook has equal counts, rollback after a returning run leaves exactly the initial effects, whatever the provider did with the forward commands; settings are read anew for the rollback, as long as real execution is not switched |
| `WorkflowRestoration.RollbackRestoresHost` | Backend/app/mape_k/nodes.py:846-1073 | in a workflow run that executes, waits and rolls back with nothing replaced in between, the rollback node acts on the executed plan and its results and leaves the host as the executor found it |
| `Executor.SwitchedOffRestoresIff` | Backend/app/mape_k/executor.py:398-492 | with real execution switched off before the rollback, the host is restored exactly if no action took hold |
| `Executor.SwitchedOnRestoresIff` | Backend/app/mape_k/executor.py:398-492 | with real execution switched on after a simulated run, the host is restored exactly if rollback takes back nothing that was in force all along |
| `Executor.RunAddsOnlyReported` | Backend/app/mape_k/executor.py:277-380 | every effect a run added belongs to an action reported as possibly in force, and such an action had been absent before |
| `Executor.RollbackRemovesExactly` | Backend/app/mape_k/executor.py:398-492 | rollback removes exactly the effects whose rollback was needed |
| `Executor.TakenBackIsAdded` | Backend/app/mape_k/executor.py:386-434 | what was added is what is taken back |
| `Executor.NeededIffReported` | Backend/app/mape_k/executor.py:399-421 | a rollback is needed exactly when its own action is reported as possibly in force |
| `Executor.RollbackIsInverse` | Backend/app/mape_k/executor.py:25-30 | the commands of an action and of its registered rollback touch the same effect in opposite ways |
| `Executor.ForwardStepIsHonest` | Backend/app/mape_k/executor.py:171-379 | the host changes only under a granted claim and for an action then reported as possibly in force; a dry run changes nothing; a no-op was already in force |
| `Executor.SuccessNeedsReal` | Backend/app/mape_k/executor.py:278-302 | without real execution no action is reported accepted or no-op |
| `Executor.RestrictedExecutor.Run` | Backend/app/mape_k/executor.py:154-380 | the loop yields the run of the specification, results and host, on a missing plan and a mismatched authorization too |
| `Executor.RestrictedExecutor.Rollback` | Backend/app/mape_k/executor.py:382-492 | the loop yields the rollback of the specification and never raises |
| `Executor.RestrictedExecutor.ExecuteReal` | Backend/app/mape_k/executor.py:65-89 | one command reaches the host only with a registered command and a numeric agent |
| `Executor.SuccessMeansNothingToDo` | Backend/app/mape_k/nodes.py:1033-1036 | a rollback counts as successful exactly when it had nothing to do |
| `Executor.RollbackNeverReportsDone` | Backend/app/mape_k/executor.py:403-415 | no rollback entry ever has the status that would let a second rollback skip it |
| `Executor.RaisedRunIsUndoneIff` | Backend/app/mape_k/nodes.py:850-853 | after a run that raised, at any action of any plan, rollback leaves the initial host exactly if none of the actions the run got to took hold |
| `Executor.RunChangesHostIff` | Backend/app/mape_k/executor.py:154-380 | a run leaves the host unchanged exactly if none of the actions it got to took hold: real, durable, numeric agent, absent before, claim granted, command carried out |
| `Executor.RaisedRunIsNotUndone` | Backend/app/mape_k/nodes.py:850-853 | for instance a block that takes hold before the store fails stays in force |
| `Registries.ValidPlanPairsRollbacks` | Backend/app/mape_k/registries.py:160-217 | in a valid plan of a playbook with equal counts the rollbacks are exactly the inverses of the actions, one each |
| `Registries.RollbackPositionsDiffer` | Backend/app/mape_k/registries.py:207-217 | no rollback serves two actions |
| `Registries.ActionRegistry.Register` | Backend/app/mape_k/registries.py:36-39 | a type is registered once, and a refused registration changes nothing |
| `Registries.ShippedActions` | Backend/app/mape_k/registries.py:223-259 | the start-up registrations give exactly the catalogue |
| `Registries.PlaybookRegistry.Register` | Backend/app/mape_k/registries.py:121-131 | a playbook is accepted exactly when its key is new and everything it names is registered |
| `Registries.ShippedPlaybooks` | Backend/app/mape_k/registries.py:299-362 | the shipped playbooks are all accepted and every one is reversible with equal counts |
| `Policy.AllowedIffPermitted` | Backend/app/mape_k/policy.py:56-196 | the gate opens exactly for the plans that may be carried out, said as one condition |
| `Policy.RequiredRoleCoversActions` | Backend/app/mape_k/policy.py:173-181 | meeting the required role means outranking every action and what the plan itself asks for |
| `Policy.ActionsNeedApproval` | Backend/app/mape_k/policy.py:182-189 | an allowed plan with actions always needs approval by a known role |
| `Policy.HigherRoleCoversBoth` | Backend/app/mape_k/policy.py:36-43 | the higher of two required roles satisfies both |
| `Policy.Evaluate` | Backend/app/mape_k/policy.py:57-196 | the evaluation loops yield the specified decision |
| `Verify.PassedIffReallyVerified` | Backend/app/mape_k/verify.py:367-501 | a verification passes exactly when execution was real, nothing failed, something succeeded, the window is over, and every required check passed with one in each category |
| `Verify.GateImpliesWindow` | Backend/app/mape_k/verify.py:436-458 | past the deadline of its results, the verifier runs the checks |
| `Verify.ObservationReadyAt` | Backend/app/mape_k/verify.py:35-69 | the deadline is after every successful completion by the observation time, and no later |
| `Verify.ResponseVerifier.Run` | Backend/app/mape_k/verify.py:367-501 | the method gives the specified verdict and asks for alerts at most once |
| `Verify.ResponseVerifier.LoadAlerts` | Backend/app/mape_k/verify.py:119-157 | alerts are fetched once, and only those after the observation start are kept |
| `Verify.ResponseVerifier.CheckAll` | Backend/app/mape_k/verify.py:460-469 | all checks of a run see the same page of alerts |
| `Verify.AttemptsStoppedMeans` | Backend/app/mape_k/verify.py:171-205 | the attempts check passes exactly on a complete page without a later attempt from the diagnosed source |
| `Verify.NoLoginMeans` | Backend/app/mape_k/verify.py:236-283 | the login check passes exactly on a complete page without a later login of a disabled account |
| `Evidence.EvidenceGateIsAntitone` | Backend/app/mape_k/schemas.py:571-711 | losing collected evidence never turns a refused remediation into an allowed one, despite the rounding |
| `Evidence.AllowedIffSupported` | Backend/app/mape_k/schemas.py:571-711 | the gate opens exactly when the unrounded evidence meets the threshold with no gap, for a threat, with confidence left after at most one unfavourable answer |
| `Evidence.AssessmentIsIdempotentUnlessDeferred` | Backend/app/mape_k/schemas.py:680-685 | a second assessment changes nothing, except in exactly the deferred case |
| `Evidence.CompletenessShrinks` | Backend/app/mape_k/schemas.py:571-687 | completeness falls with lost evidence |
| `RateLimiter.SlidingWindowBound` | Backend/app/mape_k/llm.py:229-243 | for every sequence of calls on a clock that does not run back, each window of one period admits at most the budget, or a single oversized call |
| `RateLimiter.DequeIsRecentHistory` | Backend/app/mape_k/llm.py:229-243 | the deque holds exactly the admitted calls of the last period |
| `RateLimiter.WaitMeansRefused` | Backend/app/mape_k/llm.py:233-243 | a call is turned away exactly when told to wait a positive time |
| `RateLimiter.LLMRateLimiter.LocalWait` | Backend/app/mape_k/llm.py:229-243 | one locked call yields the specified admission or wait |
| `RateLimiter.LLMRateLimiter.Acquire` | Backend/app/mape_k/llm.py:245-258 | the call asks at the window again after every wait it accepts; the last asking is admitted by the window, or refused with the very wait the window demands when that is too long; with enough patience it is always served, sleeping less than a period and 0.05 s |
| `ToolBudget.EveryInterleavingIsAccounted` | Backend/app/soc_assistant/tool_agent.py:2499-2714 | under every interleaving: used never exceeds the limit and equals successes, failures, errors and calls in flight; attempts equal decided outcomes and pending calls |
| `ToolBudget.CacheHitRepeatsEarlierSuccess` | Backend/app/soc_assistant/tool_agent.py:2542-2714 | every cache hit returns the content of an earlier successful call of the same tool and arguments |
| `ToolBudget.ToolCallBudget.Invoke` | Backend/app/soc_assistant/tool_agent.py:2542-2714 | one undisturbed call of the object takes steps of that model and delivers what they say |
| `ToolBudget.ToolCallBudget.Reserve` | Backend/app/soc_assistant/tool_agent.py:2542-2714 | a unit is reserved exactly while the limit is not reached |
| `ToolBudget.ToolCallBudget.Finish` | Backend/app/soc_assistant/tool_agent.py:2542-2714 | finishing a call records its outcome in the counter, the cache, the ledger and the events |
| `ToolBudget.StepKeepsAccounts` | Backend/app/soc_assistant/tool_agent.py:2542-2714 | each lock-delimited step keeps the books |
| `PromptBudget.BoundedAnalystPrompt` | Backend/app/soc_assistant/tool_agent.py:120-151 | the prompt fits or the call raises with nothing left to trim; kept history is the longest fitting human-led suffix; the current turn changes only in tool contents, and only without history |
| `PromptBudget.DropOldestTurn` | Backend/app/soc_assistant/tool_agent.py:143-148 | the oldest message and everything up to the next human turn go |
| `PromptBudget.ShrinkLargestToolMessage` | Backend/app/soc_assistant/tool_agent.py:97-118 | exactly the first largest unmarked tool result is replaced, and none is left exactly when it refuses |
| `PromptBudget.ShrinkingCounts` | Backend/app/soc_assistant/tool_agent.py:97-118 | each replacement leaves one unmarked result fewer |
| `SchemaBudget.FitToolSchemaBudget` | Backend/app/soc_assistant/tool_agent.py:695-730 | the result is a greedy selection: ordered subsequence, protected tools kept, kept optional ones a prefix by priority, within budget unless nothing more can go |
| `SchemaBudget.SelectionIsGreedy` | Backend/app/soc_assistant/tool_agent.py:695-730 | trimming in priority order gives such a selection in the original order |
| `SchemaBudget.PopKeepsTrimmed` | Backend/app/soc_assistant/tool_agent.py:709-725 | each removal takes the last optional tool, and putting it back would exceed the budget |
| `SchemaBudget.TokensIgnoreOrder` | Backend/app/mape_k/llm.py:281-292 | what schemas cost does not depend on their order |
| `ResultDelivery.Clip` | Backend/app/soc_assistant/tool_agent.py:1099-1286 | the halving loop yields the specified clipping; what it delivers is within budget and faithful |
| `ResultDelivery.ClippingOutcome` | Backend/app/soc_assistant/tool_agent.py:1169-1247 | over the budget, something is delivered exactly when one of eight halvings fits, and then the first that does; it raises exactly when there is a list to halve beside a coverage that is no mapping or an offset that is no number where one is needed; only otherwise the compact notice is sent |
| `ResultDelivery.ClippedIsFaithful` | Backend/app/soc_assistant/tool_agent.py:1169-1247 | what is delivered has lists that are prefixes of the source lists, non-empty where those were, and states every loss exactly; it mentions only references of the source exactly if the losses under identifier keys happen to read as such |
| `ResultDelivery.RoundsAreFaithful` | Backend/app/soc_assistant/tool_agent.py:1169-1247 | the same after any number of halvings |
| `ResultDelivery.SearchFindsFirst` | Backend/app/soc_assistant/tool_agent.py:1176-1247 | the bounded loop finds the first round that fits, and nothing only when none does |
| `ResultClipping.HalvedIffStatable` | Backend/app/soc_assistant/tool_agent.py:1186-1213 | a halving raises exactly on such a coverage or offset, and never after one that did not |
| `ResultClipping.LossesDecide` | Backend/app/soc_assistant/tool_agent.py:914-958 | a shortened result mentions only known references exactly when the losses recorded under identifier keys read as known ones |
| `ResultClipping.HalvedIsFaithful` | Backend/app/soc_assistant/tool_agent.py:1177-1220 | each halving keeps lists faithful and losses stated |
| `ResultClipping.PrefixMentionsLess` | Backend/app/soc_assistant/tool_agent.py:914-958 | what a prefix of a list mentions, the list mentions |
| `ResultClipping.DroppedAt` | Backend/app/soc_assistant/tool_agent.py:1214-1219 | the recorded loss of a list is the difference of its lengths |
| `ClippedReferences.ShortenedIdListInventsReference` | Backend/app/soc_assistant/tool_agent.py:1099-1247 | two long texts under any identifier key mention nothing, exceed a budget of twice their length, and are delivered with a reference nobody retrieved |
| `Sanitization.StoredCopyIsSafe` | Backend/app/db/sanitization.py:10-72 | the stored copy of any tree has no sensitive key at any depth and at most the bounded number of nodes |
| `Sanitization.SanitizedIsBounded` | Backend/app/db/sanitization.py:38-72 | the copy has at most the sum of (items + 1)^i nodes over the depths |
| `Sanitization.SanitizedHasNoSensitiveKey` | Backend/app/db/sanitization.py:24-72 | no key of the copy is sensitive, the added marker included |
| `Sanitization.FittingTreeIsUnchanged` | Backend/app/db/sanitization.py:38-72 | a tree within all limits and without sensitive keys comes back unchanged |
| `Sanitization.SecondCopyIsSameIff` | Backend/app/db/sanitization.py:38-72 | copying the copy again changes nothing exactly for trees that settle: no list loses two items, no full mapping loses two fields, and the marks have room |
| `Sanitization.SecondCopyForgetsTheCount` | Backend/app/db/sanitization.py:38-72 | every list or full mapping that lost two or more is copied differently the second time |
| `Sanitization.SanitizeForStorage` | Backend/app/db/sanitization.py:29-72 | the recursive copy with its in-place lists yields the specified tree |
| `Sanitization.SanitizeMappingItems` | Backend/app/db/sanitization.py:38-72 | the dictionary filled entry by entry is the specified one |
| `WindowMatch.WindowMatchesIffInterval` | Backend/app/mape_k/analyze.py:131-158 | the anchored scan matches exactly when some interval of the window length meets all three thresholds |
| `WindowMatch.WindowMatchesIgnoresOrder` | Backend/app/mape_k/analyze.py:131-158 | the verdict does not depend on arrival order |
| `WindowMatch.WindowMatchesIsMonotone` | Backend/app/mape_k/analyze.py:131-158 | further alerts never retract a match |
| `WindowMatch.ClassifyFailures` | Backend/app/mape_k/analyze.py:197-239 | spraying or brute force is flagged exactly when some key and interval of failures meets its policy |
| `Leases.LeaseTable.Acquire` | Backend/app/db/repositories/investigations.py:1448-1489 | a lease is granted exactly when no active one stands in its row |
| `Leases.LeaseTable.Release` | Backend/app/db/repositories/investigations.py:1522-1545 | a release removes only the lease with its token |
| `ExecutionLeases.ExecutionService.ExecuteApproved` | Backend/app/orchestration/investigation_service.py:965-1148 | the way out is the refusal of a lease, or what the claim and the resumed workflow say; of the leases taken exactly those on addresses reported as possibly blocked stay, with their token and term; the workflow is resumed once, and exactly the claims that led nowhere are marked failed |
| `ExecutionLeases.ExecutionService.AcquireScopes` | Backend/app/orchestration/investigation_service.py:1057-1074 | scopes are leased in order until one is refused |
| `ExecutionLeases.RefusalHasCause` | Backend/app/orchestration/investigation_service.py:1057-1083 | a refusal is of the first scope not leased, because the request is invalid or somebody holds an unexpired lease |
| `ExecutionLeases.TakenLeasesStand` | Backend/app/orchestration/investigation_service.py:1057-1074 | every lease taken that outlasts the call stands in the table when all are taken |
| `ExecutionLeases.ExecutionService.Resume` | Backend/app/orchestration/investigation_service.py:1085-1120 | the workflow is resumed only while every lease stands |
| `ExecutionLeases.ExecutionService.ReleaseLeases` | Backend/app/orchestration/investigation_service.py:1121-1148 | leases are given back in reverse, the retained ones skipped, lost ones ignored |
| `ExecutionLeases.ReleaseAccountsForLeases` | Backend/app/orchestration/investigation_service.py:1121-1148 | after the release only retained leases and those of others remain |
| `QueueClaims.AtMostOneInvocation` | Backend/app/orchestration/investigation_service.py:672-729 | under every interleaving of workers, approvals, executions, verifications and requests for more evidence, with leases outlasting their use, at most one of them is inside the workflow |
| `QueueClaims.InvocationRespectsStoredStatus` | Backend/app/orchestration/investigation_service.py:700-880 | a worker about to start the workflow never follows a stored workflow status, and the row is still queued exactly if its stored attempt count is below the limit |
| `QueueClaims.QueuedNeverReturns` | Backend/app/orchestration/investigation_service.py:835-880 | a stored status other than queued is never turned back |
| `QueueClaims.SurrenderCanPrecedeInvocation` | Backend/app/orchestration/investigation_service.py:835-880 | a failure stored without the lease can precede a start of the workflow |
| `QueueClaims.RunKeepsInvariants` | Backend/app/orchestration/investigation_service.py:499-535 | lease holder, stored version, attempt count, status and worker stages agree in every reachable state |
| `Recovery.Recover` | Backend/app/mape_k/temporary_actions.py:103-256 | when enabled, the store receives one completion per record, the adapter exactly the rollbacks of records whose target was free, every lease taken is given back, and an exception out of a completion ends the batch after its release; when disabled nothing changes |
| `Recovery.RecoverOne` | Backend/app/mape_k/temporary_actions.py:159-245 | one record leaves one completion of what its attempt amounted to, one rollback if its target was free, and a table changed by others only |
| `Recovery.RollbackAdapter.Rollback` | Backend/app/mape_k/temporary_actions.py:170-178 | the adapter is called only while the lease on its target is held |
| `Recovery.ActionStore.Complete` | Backend/app/db/repositories/investigations.py:2857-2904 | a completion under a claim that still stands stores rolled back, retryable or terminal; a repeated one repeats the stored result; any other finds the claim lost |
| `Recovery.SuccessIsVerified` | Backend/app/mape_k/temporary_actions.py:178-191 | the i-th completion reports success, and under a standing claim the action is stored as rolled back, exactly for a free target and a successful and verified rollback |
| `Recovery.TasksAreOfFreeTargets` | Backend/app/mape_k/temporary_actions.py:159-191 | a rollback is asked for exactly for the records whose target could be leased |
| `Recovery.AttemptsAreBounded` | Backend/app/db/repositories/investigations.py:2857-2904 | over any claims and completions an action is tried at most once more than the retry limit, all but the last attempt failed in a retryable way, and it ends rolled back exactly if the last one succeeded |
| `PlanBuilders.BlockPlanIsValid` | Backend/app/mape_k/playbooks.py:218-271 | every plan the block builder makes for the brute-force and spraying playbooks passes validation |
| `PlanBuilders.AccountPlanIsValid` | Backend/app/mape_k/playbooks.py:275-340 | so does every plan of the account builder |
| `PlanBuilders.BlockPlanPermittedIff` | Backend/app/mape_k/playbooks.py:218-271 | policy allows a built block exactly while it is fresh, on a confident diagnosis with known evidence, for a source that is neither protected nor an administrator's |
| `PlanBuilders.BuiltPlanIsRestored` | Backend/app/mape_k/playbooks.py:240-260 | a returning run of a built plan is undone by its rollback |
| `Containment.ExecutedContainmentCompletes` | Backend/app/mape_k/nodes.py:846-1073 | from the executor on, a run whose action succeeds, waits out its window and is really verified completes |
| `Containment.SomeRunCompletes` | Backend/app/mape_k/graph.py:260-324 | there is a run from a queued investigation to a completed one |
| `Containment.RunsCompose` | Backend/app/mape_k/graph.py:260-324 | a run continued by a run is a run |

## Left out

- Evidence fetching, planner and analyzer prompts, model retries, LLM error classes, and token and cost totals: each is an input or a single-branch fact.
- An exception that escapes a node (such as an approval request over an empty action list): the step then does not exist, and the state stays as it was.
- The shared Redis window of the rate limiter: taken as unavailable, so the local window governs.
- Gateways, responder, database sessions, web and chat interfaces: their answers are inputs; the lease table and the stored rows are modelled, other tables are not.
- SHA-256, JSON text, and IP and regular-expression parsing: hashes are injective constructors and addresses are canonical strings.
- Execution ids, idempotency keys, expiry timestamps and audit events: recorded by the source, read by none of the modelled decisions.
- Exact labels of the SSH diagnosis beyond spraying and brute force: single branches on the flags that are modelled.
- Scoring of tool priorities: the priority of a tool is an input of the trimming.
- Contents of the compact fallback, audit records and delivery bookkeeping of clipping, and floating-point values inside JSON: the fallback has no length bound to prove.
- Field checks on actions and plans beyond those of plan validation, such as the shape of account names and the range of timeouts: every value of the types is admitted.
- Classification of alerts as SSH authentication by their texts: a flag of the alert.
- Case folding and stripping of keys beyond ASCII letters and the four white-space characters of JSON, in sanitization and in the reference rules: other characters are kept as they are.
- ExecutionLeases.ExecutionService.ExecuteApproved: marking an execution as failed is taken to return, one claim is one call, and other workers act on the lease table only while the workflow runs.
- Executor.RunThenRollbackRestores: the plan is the same in both calls; the workflow lets it be replaced while waiting for verification, and rollback then follows the new plan.
- QueueClaims.InvocationRespectsStoredStatus: the retry limit is one and the same for every failure stored during the interleaving.
