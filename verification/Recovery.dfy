/**
 Recovery of expired temporary actions: every claimed record is rolled back under a lease on its target
 and completed exactly once, whatever the adapter and the store answer.
 */
module Recovery {
  import opened Common
  import opened Leases
  import opened Registries
  import Executor

  /** A claimed record; unset texts are empty, an unknown action type is None. */
  datatype Record = Record(
    actionId: string, actionType: Option<ActionType>, investigationId: string, organizationId: string, target: string,
    rollbackActionId: string, rollbackClaimId: string, idempotencyKey: string)

  datatype Task = Task(actionId: string, actionType: ActionType, target: string, rollbackType: ActionType, claimId: string)

  function FromRecord(r: Record): Option<Task>
  {
    if r.actionType.None? || RollbackTypeOf(r.actionType.value).None? then None
    else if r.actionId == "" || r.investigationId == "" || r.organizationId == "" || r.target == ""
            || r.rollbackActionId == "" || r.rollbackClaimId == "" || r.idempotencyKey == "" then None
    else Some(Task(r.actionId, r.actionType.value, r.target, RollbackTypeOf(r.actionType.value).value, r.rollbackClaimId))
  }

  function TypeName(t: ActionType): string
  {
    match t
    case BlockIp => "block_ip"
    case UnblockIp => "unblock_ip"
    case IsolateHost => "isolate_host"
    case RestoreNetworkAccess => "restore_network_access"
    case DisableUser => "disable_user"
    case EnableUser => "enable_user"
    case StopService => "stop_service"
    case StartService => "start_service"
    case RestartService => "restart_service"
    case QuarantineFile => "quarantine_file"
    case RestoreFile => "restore_file"
    case ApplyApprovedPatch => "apply_approved_patch"
    case RestoreConfiguration => "restore_configuration"
    case IncreaseMonitoring => "increase_monitoring"
  }

  function TargetKey(t: Task): Key
  {
    Key(if t.actionType.BlockIp? || t.actionType.UnblockIp? then "ip" else TypeName(t.actionType), t.target)
  }

  datatype AdapterReply =
    | Attempted(success: bool, verified: bool, retryable: bool)
    | NotAnAttempt
    | AdapterTimedOut
    | AdapterApiError(code: Option<int>)
    | AdapterLeaseConflict
    | AdapterFailed

  datatype RollbackStatus = RollbackRunning | RolledBack | FailedRetryable | FailedTerminal | OtherStatus(text: string)

  /** The stored action as a completion finds it. */
  datatype StoredAction = StoredAction(status: RollbackStatus, claimId: string, retryCount: nat)

  datatype StoreView = Missing | Found(action: StoredAction) | StoreRaises

  /** What one record meets: the adapter's answer, how long it takes, and the stored action afterwards. */
  datatype Turn = Turn(adapter: AdapterReply, finishedAt: int, stored: StoreView)

  datatype Attempt = Attempt(success: bool, retryable: bool)

  /** What an adapter's answer amounts to; an unverified success is a failure for good. */
  function Judged(reply: AdapterReply): Attempt
  {
    match reply
    case Attempted(success, verified, retryable) =>
      if success && !verified then Attempt(false, false) else Attempt(success, retryable)
    case NotAnAttempt => Attempt(false, false)
    case AdapterTimedOut => Attempt(false, true)
    case AdapterApiError(code) => Attempt(false, code.None? || code.value >= 500)
    case AdapterLeaseConflict => Attempt(false, true)
    case AdapterFailed => Attempt(false, false)
  }

  // ---- Completing a claim -----------------------------------------------------------------------

  /** A completion as sent to the store. */
  datatype Completion = Completion(actionId: string, claimId: string, attempt: Attempt)

  datatype Completed = Status(status: RollbackStatus) | ClaimLost | CompletionRaised

  predicate IsResult(s: RollbackStatus) { s.RolledBack? || s.FailedRetryable? || s.FailedTerminal? }

  /** The action after a completion, and the answer: its stored status, or that the claim is gone. */
  function CompleteAction(c: Completion, view: StoreView, maxRetries: nat): (Completed, StoreView)
  {
    match view
    case StoreRaises => (CompletionRaised, view)
    case Missing => (ClaimLost, view)
    case Found(action) =>
      if action.claimId == c.claimId && IsResult(action.status) then (Status(action.status), view)
      else if !action.status.RollbackRunning? || action.claimId != c.claimId then (ClaimLost, view)
      else if c.attempt.success then (Status(RolledBack), Found(action.(status := RolledBack)))
      else
        var count := action.retryCount + 1;
        var status := if c.attempt.retryable && count <= maxRetries then FailedRetryable else FailedTerminal;
        (Status(status), Found(StoredAction(status, action.claimId, count)))
  }

  /** The store, as far as completions reach it. */
  class ActionStore {
    var completions: seq<Completion>

    constructor ()
      ensures completions == []
    {
      completions := [];
    }

    method Complete(c: Completion, view: StoreView, maxRetries: nat) returns (reply: Completed)
      modifies this
      ensures completions == old(completions) + [c]
      ensures reply == CompleteAction(c, view, maxRetries).0
    {
      completions := completions + [c];
      return CompleteAction(c, view, maxRetries).0;
    }
  }

  /** The adapter, and the rollbacks it was asked for. */
  class RollbackAdapter {
    var tasks: seq<Task>

    constructor ()
      ensures tasks == []
    {
      tasks := [];
    }

    /** To be called only while the lease on the target is held. Others may act meanwhile. */
    method Rollback(table: LeaseTable, task: Task, lease: Lease, now: int, turn: Turn) returns (reply: AdapterReply)
      requires table.Valid() && lease.owner == task.claimId
      requires Active(table.rows, TargetKey(task), now) && table.rows[TargetKey(task)] == lease
      modifies this, table
      ensures table.Valid()
      ensures ChangedByOthers(task.claimId, turn.finishedAt, old(table.rows), old(table.nextToken), table.rows, table.nextToken)
      ensures tasks == old(tasks) + [task] && reply == turn.adapter
    {
      tasks := tasks + [task];
      table.OthersAct(task.claimId, turn.finishedAt);
      return turn.adapter;
    }
  }

  // ---- One record -------------------------------------------------------------------------------

  datatype TableState = TableState(rows: Rows, next: nat)

  /** How far a record gets on this table. */
  datatype Leasing = NoTask | Refused(error: LeaseError) | Granted(token: nat)

  function LeasingOf(r: Record, s: TableState, seconds: int, now: int): Leasing
  {
    match FromRecord(r)
    case None => NoTask
    case Some(task) =>
      if !ValidRequest(TargetKey(task), task.claimId, seconds) then Refused(InvalidRequest)
      else if Active(s.rows, TargetKey(task), now) then Refused(LeaseConflict)
      else Granted(s.next)
  }

  function AttemptOf(leasing: Leasing, reply: AdapterReply): Attempt
  {
    match leasing
    case NoTask => Attempt(false, false)
    case Refused(error) => Attempt(false, error.LeaseConflict?)
    case Granted(_) => Judged(reply)
  }

  function CompletionOf(r: Record, s: TableState, turn: Turn, seconds: int, now: int): Completion
  {
    Completion(r.actionId, r.rollbackClaimId, AttemptOf(LeasingOf(r, s, seconds, now), turn.adapter))
  }

  function TasksOf(r: Record, s: TableState, seconds: int, now: int): seq<Task>
  {
    if LeasingOf(r, s, seconds, now).Granted? then [FromRecord(r).value] else []
  }

  /** The table with the lease of this record taken and given back, and a token spent on it. */
  function Passed(r: Record, s: TableState, seconds: int, now: int): TableState
  {
    if LeasingOf(r, s, seconds, now).Granted? then TableState(s.rows - {TargetKey(FromRecord(r).value)}, s.next + 1) else s
  }

  /** Apart from that lease, the record leaves the table as others made it. */
  ghost predicate LeavesTable(r: Record, s: TableState, turn: Turn, s': TableState, seconds: int, now: int)
  {
    var mine := Passed(r, s, seconds, now);
    if LeasingOf(r, s, seconds, now).Granted?
    then ChangedByOthers(r.rollbackClaimId, turn.finishedAt, mine.rows, mine.next, s'.rows, s'.next)
    else s' == s
  }

  /** A lease others could not renew or hand on is gone once released. */
  lemma ReleasedForGood(me: string, until: int, rows: Rows, next: nat, during: Rows, duringNext: nat, key: Key, lease: Lease)
    requires key !in rows || rows[key].token < next
    requires lease.owner == me && lease.token == next
    requires ChangedByOthers(me, until, rows[key := lease], next + 1, during, duringNext)
    ensures var after := if key in during && during[key].token == next then during - {key} else during;
      ChangedByOthers(me, until, rows - {key}, next + 1, after, duringNext)
  {
  }

  /** Leases the target and asks for the rollback, if the record makes a task and its target is free. */
  method AttemptRollback(table: LeaseTable, adapter: RollbackAdapter, r: Record, turn: Turn, leaseSeconds: int, now: int)
      returns (attempt: Attempt, lease: Option<Lease>)
    requires table.Valid() && leaseSeconds >= 1
    modifies table, adapter
    ensures table.Valid()
    ensures var before := TableState(old(table.rows), old(table.nextToken));
      var leasing := LeasingOf(r, before, leaseSeconds, now);
      && attempt == AttemptOf(leasing, turn.adapter)
      && adapter.tasks == old(adapter.tasks) + TasksOf(r, before, leaseSeconds, now)
      && lease == (if leasing.Granted? then Some(Lease(before.next, r.rollbackClaimId, now + leaseSeconds)) else None)
      && if lease.Some?
         then ChangedByOthers(r.rollbackClaimId, turn.finishedAt, before.rows[TargetKey(FromRecord(r).value) := lease.value],
                              before.next + 1, table.rows, table.nextToken)
         else table.rows == before.rows && table.nextToken == before.next
  {
    var task := FromRecord(r);
    if task.None? {
      return Attempt(false, false), None;
    }
    var acquired := table.Acquire(TargetKey(task.value), task.value.claimId, leaseSeconds, now);
    if acquired.Err? {
      return Attempt(false, acquired.error.LeaseConflict?), None;
    }
    var answer := adapter.Rollback(table, task.value, acquired.value, now, turn);
    return Judged(answer), Some(acquired.value);
  }

  method RecoverOne(table: LeaseTable, store: ActionStore, adapter: RollbackAdapter, r: Record, turn: Turn, leaseSeconds: int,
                    maxRetries: nat, now: int) returns (reply: Completed)
    requires table.Valid() && leaseSeconds >= 1
    modifies table, store, adapter
    ensures table.Valid()
    ensures var before := TableState(old(table.rows), old(table.nextToken));
      && LeavesTable(r, before, turn, TableState(table.rows, table.nextToken), leaseSeconds, now)
      && adapter.tasks == old(adapter.tasks) + TasksOf(r, before, leaseSeconds, now)
      && store.completions == old(store.completions) + [CompletionOf(r, before, turn, leaseSeconds, now)]
      && reply == CompleteAction(CompletionOf(r, before, turn, leaseSeconds, now), turn.stored, maxRetries).0
  {
    ghost var before := TableState(table.rows, table.nextToken);
    BelowNext(table, FromRecord(r));
    var attempt, lease := AttemptRollback(table, adapter, r, turn, leaseSeconds, now);
    reply := store.Complete(Completion(r.actionId, r.rollbackClaimId, attempt), turn.stored, maxRetries);
    if lease.Some? {
      var key := TargetKey(FromRecord(r).value);
      ReleasedForGood(r.rollbackClaimId, turn.finishedAt, before.rows, before.next, table.rows, table.nextToken, key, lease.value);
      var released := table.Release(key, lease.value.token);
    }
  }

  lemma BelowNext(table: LeaseTable, task: Option<Task>)
    requires table.Valid()
    ensures task.Some? && TargetKey(task.value) in table.rows ==> table.rows[TargetKey(task.value)].token < table.nextToken
  {
  }

  // ---- The batch --------------------------------------------------------------------------------

  datatype RecoveryResult = RecoveryResult(actionId: string, rollbackActionId: string, claimId: string, completed: Completed)

  datatype Outcome = Disabled | Finished(results: seq<RecoveryResult>) | Raised

  datatype Batch = Batch(records: seq<Record>, turns: seq<Turn>, lockSeconds: int, now: int, maxRetries: nat)
  {
    function LeaseSeconds(): int { Max(1, lockSeconds) }
  }

  /** The completion sent for the i-th record, on the table as it was then. */
  function SentAt(b: Batch, s: TableState, i: nat): Completion
    requires i < |b.records| == |b.turns|
  {
    CompletionOf(b.records[i], s, b.turns[i], b.LeaseSeconds(), b.now)
  }

  function RepliedAt(b: Batch, s: TableState, i: nat): Completed
    requires i < |b.records| == |b.turns|
  {
    CompleteAction(SentAt(b, s, i), b.turns[i].stored, b.maxRetries).0
  }

  /** The table before each of the first n records and after them: each record leaves it as others made it. */
  ghost predicate Chain(b: Batch, states: seq<TableState>, n: nat)
    requires |b.records| == |b.turns|
  {
    && n <= |b.records| && |states| == n + 1
    && forall i :: 0 <= i < n ==> LeavesTable(b.records[i], states[i], b.turns[i], states[i + 1], b.LeaseSeconds(), b.now)
  }

  /** One completion for each of the first n records, in order. */
  function Completions(b: Batch, states: seq<TableState>, n: nat): seq<Completion>
    requires n <= |b.records| == |b.turns| && n <= |states|
  {
    seq(n, i requires 0 <= i < n => SentAt(b, states[i], i))
  }

  /** The rollbacks asked for: one for each record whose lease was granted. */
  function AllTasks(b: Batch, states: seq<TableState>, n: nat): seq<Task>
    requires n <= |b.records| && n <= |states|
  {
    if n == 0 then []
    else AllTasks(b, states, n - 1) + TasksOf(b.records[n - 1], states[n - 1], b.LeaseSeconds(), b.now)
  }

  function Results(b: Batch, states: seq<TableState>, n: nat): seq<RecoveryResult>
    requires n <= |b.records| == |b.turns| && n <= |states|
  {
    seq(n, i requires 0 <= i < n =>
      RecoveryResult(b.records[i].actionId, b.records[i].rollbackActionId, b.records[i].rollbackClaimId, RepliedAt(b, states[i], i)))
  }

  /** The batch went through its first n records, and ended there with an exception or because there are no more. */
  ghost predicate BatchEnds(b: Batch, states: seq<TableState>, outcome: Outcome)
    requires |b.records| == |b.turns|
  {
    && |states| > 0
    && var n := |states| - 1;
    && Chain(b, states, n)
    && (forall i :: 0 <= i < n - 1 ==> !RepliedAt(b, states[i], i).CompletionRaised?)
    && match outcome
       case Disabled => false
       case Raised => n > 0 && RepliedAt(b, states[n - 1], n - 1).CompletionRaised?
       case Finished(results) =>
         && n == |b.records| && results == Results(b, states, n)
         && (n > 0 ==> !RepliedAt(b, states[n - 1], n - 1).CompletionRaised?)
  }

  method RecoverAll(table: LeaseTable, store: ActionStore, adapter: RollbackAdapter, b: Batch)
      returns (outcome: Outcome, ghost states: seq<TableState>)
    requires table.Valid() && |b.turns| == |b.records|
    modifies table, store, adapter
    ensures table.Valid()
    ensures BatchEnds(b, states, outcome)
    ensures states[0] == TableState(old(table.rows), old(table.nextToken)) && states[|states| - 1] == TableState(table.rows, table.nextToken)
    ensures store.completions == old(store.completions) + Completions(b, states, |states| - 1)
    ensures adapter.tasks == old(adapter.tasks) + AllTasks(b, states, |states| - 1)
  {
    states := [TableState(table.rows, table.nextToken)];
    var results: seq<RecoveryResult> := [];
    ghost var start := TableState(table.rows, table.nextToken);
    ghost var sent: seq<Completion>, asked: seq<Task> := [], [];
    for k := 0 to |b.records|
      invariant table.Valid()
      invariant BatchSoFar(b, states, k, start, TableState(table.rows, table.nextToken), sent, asked, results)
      invariant store.completions == old(store.completions) + sent && adapter.tasks == old(adapter.tasks) + asked
      invariant forall i :: 0 <= i < k ==> !RepliedAt(b, states[i], i).CompletionRaised?
    {
      ghost var before := TableState(table.rows, table.nextToken);
      var r := b.records[k];
      var reply := RecoverOne(table, store, adapter, r, b.turns[k], b.LeaseSeconds(), b.maxRetries, b.now);
      ghost var after := TableState(table.rows, table.nextToken);
      BatchGrows(b, states, k, start, before, after, sent, asked, results);
      states := states + [after];
      sent, asked := sent + [SentAt(b, before, k)], asked + TasksOf(r, before, b.LeaseSeconds(), b.now);
      if reply.CompletionRaised? {
        return Raised, states;
      }
      results := results + [RecoveryResult(r.actionId, r.rollbackActionId, r.rollbackClaimId, reply)];
    }
    return Finished(results), states;
  }

  /** The whole batch, when recovery is enabled. An exception out of a completion ends it, after that record's
      lease is released. */
  method Recover(table: LeaseTable, store: ActionStore, adapter: Option<RollbackAdapter>, settings: Executor.ExecutionSettings,
                 durable: bool, b: Batch) returns (outcome: Outcome, ghost states: seq<TableState>)
    requires table.Valid() && |b.turns| == |b.records|
    modifies table, store, if adapter.Some? then {adapter.value} else {}
    ensures table.Valid()
    ensures outcome.Disabled? <==> !(settings.Real() && durable && adapter.Some?)
    ensures outcome.Disabled? ==>
      table.rows == old(table.rows) && table.nextToken == old(table.nextToken) && store.completions == old(store.completions)
    ensures !outcome.Disabled? ==>
      && BatchEnds(b, states, outcome)
      && states[0] == TableState(old(table.rows), old(table.nextToken)) && states[|states| - 1] == TableState(table.rows, table.nextToken)
      && store.completions == old(store.completions) + Completions(b, states, |states| - 1)
      && adapter.value.tasks == old(adapter.value.tasks) + AllTasks(b, states, |states| - 1)
  {
    if !settings.Real() || !durable || adapter.None? {
      return Disabled, [];
    }
    outcome, states := RecoverAll(table, store, adapter.value, b);
  }

  /** What k records have left in the table, the store, the adapter and the results. */
  ghost predicate BatchSoFar(b: Batch, states: seq<TableState>, k: nat, start: TableState, now: TableState,
                             sent: seq<Completion>, asked: seq<Task>, results: seq<RecoveryResult>)
    requires |b.records| == |b.turns|
  {
    && Chain(b, states, k) && states[0] == start && states[k] == now
    && sent == Completions(b, states, k) && asked == AllTasks(b, states, k) && results == Results(b, states, k)
  }

  lemma BatchGrows(b: Batch, states: seq<TableState>, k: nat, start: TableState, now: TableState, after: TableState,
                   sent: seq<Completion>, asked: seq<Task>, results: seq<RecoveryResult>)
    requires |b.records| == |b.turns| && k < |b.records| && BatchSoFar(b, states, k, start, now, sent, asked, results)
    requires LeavesTable(b.records[k], now, b.turns[k], after, b.LeaseSeconds(), b.now)
    ensures BatchSoFar(b, states + [after], k + 1, start, after, sent + [SentAt(b, now, k)],
                       asked + TasksOf(b.records[k], now, b.LeaseSeconds(), b.now),
                       results + [RecoveryResult(b.records[k].actionId, b.records[k].rollbackActionId, b.records[k].rollbackClaimId,
                                                 RepliedAt(b, now, k))])
  {
    var longer := states + [after];
    assert forall i :: 0 <= i <= k ==> longer[i] == states[i];
    ChainGrows(b, states, longer, k);
    SentGrows(b, states, longer, k);
    TasksDependOnPast(b, states, longer, k);
  }

  lemma {:induction false} TasksDependOnPast(b: Batch, earlier: seq<TableState>, states: seq<TableState>, n: nat)
    requires n <= |earlier| <= |states| && n <= |b.records| && forall i :: 0 <= i < |earlier| ==> states[i] == earlier[i]
    ensures AllTasks(b, states, n) == AllTasks(b, earlier, n)
  {
    if n > 0 {
      TasksDependOnPast(b, earlier, states, n - 1);
    }
  }

  lemma ChainGrows(b: Batch, earlier: seq<TableState>, states: seq<TableState>, k: nat)
    requires |b.records| == |b.turns| && k < |b.records| && Chain(b, earlier, k)
    requires |states| == k + 2 && forall i :: 0 <= i <= k ==> states[i] == earlier[i]
    requires LeavesTable(b.records[k], states[k], b.turns[k], states[k + 1], b.LeaseSeconds(), b.now)
    ensures Chain(b, states, k + 1)
  {
  }

  lemma SentGrows(b: Batch, earlier: seq<TableState>, states: seq<TableState>, k: nat)
    requires |b.records| == |b.turns| && k < |b.records| && |earlier| == k + 1
    requires |states| == k + 2 && forall i :: 0 <= i <= k ==> states[i] == earlier[i]
    ensures Completions(b, states, k + 1) == Completions(b, earlier, k) + [SentAt(b, states[k], k)]
    ensures Results(b, states, k + 1) == Results(b, earlier, k)
      + [RecoveryResult(b.records[k].actionId, b.records[k].rollbackActionId, b.records[k].rollbackClaimId, RepliedAt(b, states[k], k))]
  {
  }

  // ---- What the store is told -------------------------------------------------------------------

  /** Nothing stands in the way of leasing the record's target: the record makes a task, the request is valid,
      and nobody holds an unexpired lease. */
  ghost predicate TargetFree(r: Record, s: TableState, seconds: int, now: int)
  {
    && FromRecord(r).Some?
    && ValidRequest(TargetKey(FromRecord(r).value), r.rollbackClaimId, seconds)
    && !Active(s.rows, TargetKey(FromRecord(r).value), now)
  }

  ghost predicate VerifiedRollback(reply: AdapterReply) { reply.Attempted? && reply.success && reply.verified }

  /** The claim a completion speaks for is still the one the action runs under. */
  predicate ClaimStands(view: StoreView, claimId: string)
  {
    view.Found? && view.action.status.RollbackRunning? && view.action.claimId == claimId
  }

  /** The i-th completion reports success exactly if the target was free and the adapter rolled back and
      verified it; under a claim that still stands, the action is then stored as rolled back, and only then. */
  lemma SuccessIsVerified(b: Batch, states: seq<TableState>, i: nat, n: nat)
    requires |b.records| == |b.turns| && i < n && Chain(b, states, n)
    ensures var done := TargetFree(b.records[i], states[i], b.LeaseSeconds(), b.now) && VerifiedRollback(b.turns[i].adapter);
      && (Completions(b, states, n)[i].attempt.success <==> done)
      && (ClaimStands(b.turns[i].stored, b.records[i].rollbackClaimId) ==>
            (Results(b, states, n)[i].completed == Status(RolledBack) <==> done))
  {
  }

  /** The i-th record was one whose target was free, and it asks for this rollback. */
  ghost predicate AskedAt(b: Batch, states: seq<TableState>, i: nat, t: Task)
    requires i < |b.records| && i < |states|
  {
    TargetFree(b.records[i], states[i], b.LeaseSeconds(), b.now) && FromRecord(b.records[i]) == Some(t)
  }

  lemma TasksAt(b: Batch, s: TableState, i: nat, t: Task)
    requires i < |b.records|
    ensures t in TasksOf(b.records[i], s, b.LeaseSeconds(), b.now)
      <==> TargetFree(b.records[i], s, b.LeaseSeconds(), b.now) && FromRecord(b.records[i]) == Some(t)
  {
    var r := b.records[i];
    if FromRecord(r).Some? {
      assert FromRecord(r).value.claimId == r.rollbackClaimId;
    }
  }

  /** A rollback is asked for in a batch exactly for the records whose target was free. */
  lemma {:induction false} TasksAreOfFreeTargets(b: Batch, states: seq<TableState>, n: nat, t: Task)
    requires n <= |b.records| && n <= |states|
    ensures t in AllTasks(b, states, n) <==> exists i :: 0 <= i < n && AskedAt(b, states, i, t)
  {
    if n > 0 {
      TasksAreOfFreeTargets(b, states, n - 1, t);
      TasksAt(b, states[n - 1], n - 1, t);
      assert AskedAt(b, states, n - 1, t) <==> t in TasksOf(b.records[n - 1], states[n - 1], b.LeaseSeconds(), b.now);
    }
  }

  // ---- How often an action is tried -------------------------------------------------------------

  /** Whether an overdue action can be claimed again; a claim abandoned for long enough counts as open. */
  predicate Claimable(a: StoredAction, maxRetries: nat)
  {
    !a.status.RolledBack? && !a.status.FailedTerminal? && a.retryCount <= maxRetries
  }

  /** An action claimed and completed once per attempt, if it could be claimed each time. */
  function AfterAttempts(a: StoredAction, attempts: seq<Attempt>, maxRetries: nat): Option<StoredAction>
  {
    if attempts == [] then Some(a)
    else
      var before := AfterAttempts(a, attempts[..|attempts| - 1], maxRetries);
      if before.None? || !Claimable(before.value, maxRetries) then None
      else
        var running := before.value.(status := RollbackRunning);
        Some(CompleteAction(Completion("", running.claimId, attempts[|attempts| - 1]), Found(running), maxRetries).1.action)
  }

  /** An action is tried at most once more than the retry limit allows, a success or a failure for good ends it,
      and only a last attempt that succeeded leaves it rolled back. */
  lemma {:induction false} AttemptsAreBounded(a: StoredAction, attempts: seq<Attempt>, maxRetries: nat)
    requires AfterAttempts(a, attempts, maxRetries).Some? && attempts != []
    ensures a.retryCount + |attempts| <= maxRetries + 1
    ensures var end := AfterAttempts(a, attempts, maxRetries).value;
      && (end.status.RolledBack? <==> attempts[|attempts| - 1].success)
      && (end.status.RolledBack? || end.retryCount == a.retryCount + |attempts|)
      && (forall i :: 0 <= i < |attempts| - 1 ==> attempts[i].retryable && !attempts[i].success)
  {
    var front := attempts[..|attempts| - 1];
    if front != [] {
      AttemptsAreBounded(a, front, maxRetries);
      RetryableLast(a, front, maxRetries);
      assert forall i :: 0 <= i < |front| ==> attempts[i] == front[i];
    }
  }

  /** Only a retryable failure leaves an action claimable. */
  lemma RetryableLast(a: StoredAction, attempts: seq<Attempt>, maxRetries: nat)
    requires attempts != [] && AfterAttempts(a, attempts, maxRetries).Some?
    requires Claimable(AfterAttempts(a, attempts, maxRetries).value, maxRetries)
    ensures attempts[|attempts| - 1].retryable && !attempts[|attempts| - 1].success
  {
  }
}
