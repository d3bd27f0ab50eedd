/**
 Executing an approved response: the incident and every target are leased, the approved actions are
 claimed, the workflow is resumed, and every lease is given back on every way out, except those that
 must outlive the call because a temporary block on their address may be in force.
 */
module ExecutionLeases {
  import opened Common
  import opened Leases

  datatype PlannedAction = PlannedAction(
    actionId: string, actionType: string, target: string, ttlSeconds: nat, timeoutSeconds: nat)

  datatype ReportedResult = ReportedResult(target: string, status: string)

  /** The stored investigation as the caller found it. */
  datatype Before = Before(
    waitingForExecution: bool,
    incidentId: string,
    evidenceVersion: string,
    planHash: string,
    actions: seq<PlannedAction>,
    requestApprovalId: string,
    requestActionIds: seq<string>,
    decisionPlanHash: string,
    decisionEvidenceVersion: string)

  datatype Scope = Scope(key: Key, seconds: int, retainable: bool)

  datatype Held = Held(key: Key, token: nat, retainable: bool)

  datatype ResumeReply = ResumeRaised | Resumed(status: string, results: seq<ReportedResult>)

  /** What the world answers: when each lease is asked for, the claim, the resumed workflow, and when it is done. */
  datatype World = World(clock: nat -> int, claim: Option<string>, resume: ResumeReply, finishedAt: int)

  datatype Outcome =
    | NotWaiting | ApprovalMismatch | StaleApproval
    | LockedByAnother | InvalidLease | ClaimRefused | ResumeFailed
    | Executed(status: string, results: seq<ReportedResult>)

  function ActionIds(actions: seq<PlannedAction>): seq<string>
  {
    if actions == [] then []
    else (if actions[0].actionId == "" then [] else [actions[0].actionId]) + ActionIds(actions[1..])
  }

  function MaxTimeout(actions: seq<PlannedAction>): nat
  {
    if actions == [] then 0 else Max(actions[0].timeoutSeconds, MaxTimeout(actions[1..]))
  }

  function ScopeOf(a: PlannedAction, lockSeconds: int): Scope
  {
    var kind := if a.actionType == "block_ip" || a.actionType == "unblock_ip" then "ip"
                else if a.actionType == "" then "resource" else a.actionType;
    Scope(Key(kind, a.target),
          Min(MAX_LEASE_SECONDS, Max(lockSeconds, Max(a.ttlSeconds, a.timeoutSeconds + 60))),
          a.ttlSeconds > 0)
  }

  function TargetScopes(actions: seq<PlannedAction>, lockSeconds: int): seq<Scope>
  {
    if actions == [] then []
    else (if actions[0].target == "" then [] else [ScopeOf(actions[0], lockSeconds)])
         + TargetScopes(actions[1..], lockSeconds)
  }

  /** The incident first, then each target once per distinct request. */
  function ResourceScopes(b: Before, lockSeconds: int): seq<Scope>
  {
    Dedupe([Scope(Key("incident", b.incidentId), Min(3600, Max(lockSeconds, MaxTimeout(b.actions) + 60)), false)]
           + TargetScopes(b.actions, lockSeconds))
  }

  /** Why a request is refused before anything is leased, if it is. */
  function Precheck(b: Before, approvalId: string): Option<Outcome>
  {
    var expected := ActionIds(b.actions);
    if !b.waitingForExecution then Some(NotWaiting)
    else if b.requestApprovalId != approvalId then Some(ApprovalMismatch)
    else if expected == [] || b.requestActionIds != expected || b.decisionPlanHash != b.planHash
            || b.decisionEvidenceVersion != b.evidenceVersion then Some(StaleApproval)
    else None
  }

  /** How the call ends once every lease is held. */
  function WayOut(w: World): Outcome
  {
    match (w.claim, w.resume)
    case (None, _) => ClaimRefused
    case (Some(_), ResumeRaised) => ResumeFailed
    case (Some(_), Resumed(status, results)) => Executed(status, results)
  }

  /** A resume that raised, failed, or reported no result at all. */
  predicate LedNowhere(reply: ResumeReply)
  {
    reply.ResumeRaised? || reply.status == "failed" || reply.results == []
  }

  predicate Mutated(status: string)
  {
    status == "accepted" || status == "applied" || status == "executed" || status == "outcome_unknown"
  }

  /** A lease that outlives the call: temporary, on an address reported as possibly blocked. */
  predicate Retained(h: Held, reply: Option<ResumeReply>)
  {
    && h.retainable && h.key.resourceType == "ip"
    && reply.Some? && reply.value.Resumed?
    && exists i :: 0 <= i < |reply.value.results|
         && reply.value.results[i].target == h.key.resourceId && Mutated(reply.value.results[i].status)
  }

  /** What giving back these leases removes: exactly the rows that still carry their tokens. */
  predicate GivenBack(k: Key, rows: Rows, held: seq<Held>, reply: Option<ResumeReply>)
  {
    k in rows && exists i :: 0 <= i < |held| && held[i].key == k && held[i].token == rows[k].token
                             && !Retained(held[i], reply)
  }

  function AfterRelease(rows: Rows, held: seq<Held>, reply: Option<ResumeReply>): Rows
  {
    map k | k in rows && !GivenBack(k, rows, held, reply) :: rows[k]
  }

  // ---- Taking leases ----------------------------------------------------------------------------

  /** The table, the leases taken so far, and the refusal that stopped the taking, if one did. */
  datatype Take = Take(rows: Rows, held: seq<Held>, refused: Option<LeaseError>)

  /** Asking for the first n scopes in order, each at its own time, until one is refused. */
  function TakeUpTo(rows: Rows, nextToken: nat, scopes: seq<Scope>, owner: string, clock: nat -> int, n: nat): Take
    requires n <= |scopes|
  {
    if n == 0 then Take(rows, [], None)
    else TakeOne(TakeUpTo(rows, nextToken, scopes, owner, clock, n - 1), nextToken, scopes[n - 1], owner, clock(n - 1))
  }

  function TakeOne(t: Take, nextToken: nat, scope: Scope, owner: string, now: int): Take
  {
    if t.refused.Some? then t
    else if !ValidRequest(scope.key, owner, scope.seconds) then t.(refused := Some(InvalidRequest))
    else if Active(t.rows, scope.key, now) then t.(refused := Some(LeaseConflict))
    else
      var lease := Lease(nextToken + |t.held|, owner, now + scope.seconds);
      Take(t.rows[scope.key := lease], t.held + [Held(scope.key, lease.token, scope.retainable)], None)
  }

  function LeaseOf(h: Held, scope: Scope, owner: string, takenAt: int): Lease
  {
    Lease(h.token, owner, takenAt + scope.seconds)
  }

  /** A lease until then is in force at every instant of the call. */
  predicate Outlasts(w: World, n: nat, expiresAt: int)
  {
    w.finishedAt < expiresAt && forall i: nat :: i < n ==> w.clock(i) < expiresAt
  }

  /** Every lease that outlasts the call stands in the table, with its token, owner and term. */
  ghost predicate Standing(rows: Rows, held: seq<Held>, scopes: seq<Scope>, owner: string, w: World)
  {
    && |held| <= |scopes|
    && forall i :: 0 <= i < |held| && Outlasts(w, |scopes|, w.clock(i) + scopes[i].seconds) ==>
         held[i].key in rows && rows[held[i].key] == LeaseOf(held[i], scopes[i], owner, w.clock(i))
  }

  ghost predicate HeldFrom(held: seq<Held>, scopes: seq<Scope>, nextToken: nat)
  {
    && |held| <= |scopes|
    && forall i :: 0 <= i < |held| ==> held[i] == Held(scopes[i].key, nextToken + i, scopes[i].retainable)
  }

  lemma {:induction false} TakenAreHeld(rows: Rows, nextToken: nat, scopes: seq<Scope>, owner: string, clock: nat -> int, n: nat)
    requires n <= |scopes|
    ensures var t := TakeUpTo(rows, nextToken, scopes, owner, clock, n);
      && HeldFrom(t.held, scopes, nextToken) && |t.held| <= n
      && (t.refused.None? <==> |t.held| == n)
  {
    if n > 0 {
      TakenAreHeld(rows, nextToken, scopes, owner, clock, n - 1);
    }
  }

  /** A refusal is of the first scope that was not leased, and for a reason. */
  lemma {:induction false} RefusalHasCause(rows: Rows, nextToken: nat, scopes: seq<Scope>, owner: string, clock: nat -> int, n: nat)
    requires n <= |scopes| && TakeUpTo(rows, nextToken, scopes, owner, clock, n).refused.Some?
    ensures var t := TakeUpTo(rows, nextToken, scopes, owner, clock, n);
      && |t.held| < n
      && var scope := scopes[|t.held|];
      && (t.refused == Some(InvalidRequest) <==> !ValidRequest(scope.key, owner, scope.seconds))
      && (t.refused == Some(LeaseConflict) ==> Active(t.rows, scope.key, clock(|t.held|)))
  {
    TakenAreHeld(rows, nextToken, scopes, owner, clock, n - 1);
    if TakeUpTo(rows, nextToken, scopes, owner, clock, n - 1).refused.Some? {
      RefusalHasCause(rows, nextToken, scopes, owner, clock, n - 1);
    }
  }

  /** No later lease of the same call displaces one that is still in force. */
  lemma {:induction false} TakenLeasesStand(rows: Rows, nextToken: nat, scopes: seq<Scope>, owner: string, w: World, n: nat)
    requires n <= |scopes|
    ensures var t := TakeUpTo(rows, nextToken, scopes, owner, w.clock, n);
      Standing(t.rows, t.held, scopes, owner, w)
  {
    if n > 0 {
      TakenLeasesStand(rows, nextToken, scopes, owner, w, n - 1);
      TakenAreHeld(rows, nextToken, scopes, owner, w.clock, n - 1);
      OneMoreStands(TakeUpTo(rows, nextToken, scopes, owner, w.clock, n - 1), nextToken, scopes, owner, w, n);
    }
  }

  lemma OneMoreStands(before: Take, nextToken: nat, scopes: seq<Scope>, owner: string, w: World, n: nat)
    requires 0 < n <= |scopes| && Standing(before.rows, before.held, scopes, owner, w)
    requires before.refused.None? ==> |before.held| == n - 1
    ensures var t := TakeOne(before, nextToken, scopes[n - 1], owner, w.clock(n - 1));
      Standing(t.rows, t.held, scopes, owner, w)
  {
    var t := TakeOne(before, nextToken, scopes[n - 1], owner, w.clock(n - 1));
    if t.held != before.held {
      LaterLeaseSpares(before, t, scopes, owner, w, n);
    }
  }

  lemma LaterLeaseSpares(before: Take, t: Take, scopes: seq<Scope>, owner: string, w: World, n: nat)
    requires 0 < n <= |scopes| && |before.held| == n - 1 && Standing(before.rows, before.held, scopes, owner, w)
    requires !Active(before.rows, scopes[n - 1].key, w.clock(n - 1))
    requires |t.held| == n && t.held[..n - 1] == before.held && t.held[n - 1].key == scopes[n - 1].key
    requires t.rows == before.rows[scopes[n - 1].key := LeaseOf(t.held[n - 1], scopes[n - 1], owner, w.clock(n - 1))]
    ensures Standing(t.rows, t.held, scopes, owner, w)
  {
    forall i | 0 <= i < n && Outlasts(w, |scopes|, w.clock(i) + scopes[i].seconds)
      ensures t.held[i].key in t.rows && t.rows[t.held[i].key] == LeaseOf(t.held[i], scopes[i], owner, w.clock(i))
    {
      if i < n - 1 {
        assert t.held[i] == before.held[i];
        var at: nat := n - 1;
        assert w.clock(at) < w.clock(i) + scopes[i].seconds;
      }
    }
  }

  // ---- Giving leases back -----------------------------------------------------------------------

  /** Every lease of the call is either gone from the table afterwards or was meant to stay. */
  ghost predicate LeasesAccounted(rows: Rows, held: seq<Held>, reply: Option<ResumeReply>, final: Rows)
  {
    && (forall i :: 0 <= i < |held| && !Retained(held[i], reply) ==>
          !(held[i].key in final && final[held[i].key].token == held[i].token))
    && (forall i :: 0 <= i < |held| && Retained(held[i], reply) && held[i].key in rows && rows[held[i].key].token == held[i].token ==>
          held[i].key in final && final[held[i].key] == rows[held[i].key])
    && (forall k :: k in final ==> k in rows && final[k] == rows[k])
    && (forall k :: k in rows && k !in final ==>
          exists i :: 0 <= i < |held| && held[i].key == k && held[i].token == rows[k].token && !Retained(held[i], reply))
  }

  /** What the call leaves of its own leases: none that need not stay, and every one that must and is still in force. */
  ghost predicate OnlyRetainedStay(held: seq<Held>, scopes: seq<Scope>, owner: string, w: World, reply: Option<ResumeReply>, final: Rows)
    requires |held| <= |scopes|
  {
    forall i :: 0 <= i < |held| ==>
      if Retained(held[i], reply)
      then Outlasts(w, |scopes|, w.clock(i) + scopes[i].seconds) ==>
        held[i].key in final && final[held[i].key] == LeaseOf(held[i], scopes[i], owner, w.clock(i))
      else !(held[i].key in final && final[held[i].key].token == held[i].token)
  }

  ghost predicate DistinctTokens(held: seq<Held>)
  {
    forall i, j :: 0 <= i < j < |held| ==> held[i].token != held[j].token
  }

  /** Giving back by token leaves exactly the retained leases and everybody else's. */
  lemma ReleaseAccountsForLeases(rows: Rows, held: seq<Held>, reply: Option<ResumeReply>)
    requires DistinctTokens(held)
    ensures LeasesAccounted(rows, held, reply, AfterRelease(rows, held, reply))
  {
    var final := AfterRelease(rows, held, reply);
    forall i | 0 <= i < |held| && !Retained(held[i], reply)
      ensures !(held[i].key in final && final[held[i].key].token == held[i].token)
    {
      if held[i].key in final && final[held[i].key].token == held[i].token {
        assert GivenBack(held[i].key, rows, held, reply);
      }
    }
    forall i | 0 <= i < |held| && Retained(held[i], reply) && held[i].key in rows && rows[held[i].key].token == held[i].token
      ensures held[i].key in final
    {
      assert !GivenBack(held[i].key, rows, held, reply);
    }
  }

  lemma OthersSpareStanding(held: seq<Held>, scopes: seq<Scope>, owner: string, w: World, rows: Rows, next: nat, rows': Rows, next': nat)
    requires Standing(rows, held, scopes, owner, w) && ChangedByOthers(owner, w.finishedAt, rows, next, rows', next')
    ensures Standing(rows', held, scopes, owner, w)
  {
  }

  lemma StandingLeasesAreAccounted(held: seq<Held>, scopes: seq<Scope>, owner: string, w: World, reply: Option<ResumeReply>,
                                   rows: Rows, final: Rows)
    requires Standing(rows, held, scopes, owner, w) && LeasesAccounted(rows, held, reply, final)
    ensures OnlyRetainedStay(held, scopes, owner, w, reply, final)
  {
  }

  class ExecutionService {
    const table: LeaseTable
    /** Claims under which the workflow was resumed, and claims marked failed, in order. */
    var resumed: seq<string>
    var failedExecutions: seq<string>

    constructor (table: LeaseTable)
      ensures this.table == table && resumed == [] && failedExecutions == []
    {
      this.table := table;
      resumed, failedExecutions := [], [];
    }

    /** Asks for one more scope. */
    method AcquireOne(held: seq<Held>, scope: Scope, owner: string, now: int) returns (more: seq<Held>, refused: Option<LeaseError>)
      requires table.Valid() && |held| <= table.nextToken
      modifies table
      ensures table.Valid() && table.nextToken - |more| == old(table.nextToken) - |held|
      ensures Take(table.rows, more, refused)
           == TakeOne(Take(old(table.rows), held, None), old(table.nextToken) - |held|, scope, owner, now)
    {
      var lease := table.Acquire(scope.key, owner, scope.seconds, now);
      if lease.Err? {
        return held, Some(lease.error);
      }
      return held + [Held(scope.key, lease.value.token, scope.retainable)], None;
    }

    /** Takes the scopes in order until one is refused. */
    method AcquireScopes(scopes: seq<Scope>, owner: string, clock: nat -> int)
        returns (held: seq<Held>, refused: Option<LeaseError>)
      requires table.Valid()
      modifies table
      ensures table.Valid()
      ensures Take(table.rows, held, refused) == TakeUpTo(old(table.rows), old(table.nextToken), scopes, owner, clock, |scopes|)
      ensures table.nextToken == old(table.nextToken) + |held|
    {
      held, refused := [], None;
      for i := 0 to |scopes|
        invariant table.Valid() && refused.None?
        invariant Take(table.rows, held, None) == TakeUpTo(old(table.rows), old(table.nextToken), scopes, owner, clock, i)
        invariant table.nextToken == old(table.nextToken) + |held|
      {
        ghost var before := Take(table.rows, held, None);
        held, refused := AcquireOne(held, scopes[i], owner, clock(i));
        assert Take(table.rows, held, refused) == TakeOne(before, old(table.nextToken), scopes[i], owner, clock(i));
        if refused.Some? {
          RefusedStays(old(table.rows), old(table.nextToken), scopes, owner, clock, i + 1, |scopes|);
          return;
        }
      }
    }

    /** Resumes the workflow under a claim. To be called only while every lease taken stands; others may act meanwhile. */
    method Resume(claim: string, held: seq<Held>, scopes: seq<Scope>, owner: string, w: World) returns (reply: ResumeReply)
      requires table.Valid() && |held| == |scopes| && Standing(table.rows, held, scopes, owner, w)
      modifies this`resumed, table
      ensures table.Valid() && ChangedByOthers(owner, w.finishedAt, old(table.rows), old(table.nextToken), table.rows, table.nextToken)
      ensures resumed == old(resumed) + [claim] && reply == w.resume
    {
      resumed := resumed + [claim];
      table.OthersAct(owner, w.finishedAt);
      return w.resume;
    }

    /** Gives the leases back in reverse order, skipping the retained ones and ignoring lost ones. */
    method ReleaseLeases(held: seq<Held>, reply: Option<ResumeReply>)
      requires table.Valid()
      modifies table`rows
      ensures table.Valid()
      ensures table.rows == AfterRelease(old(table.rows), held, reply)
    {
      var i := |held|;
      assert AfterRelease(table.rows, held[i..], reply) == table.rows;
      while i > 0
        invariant 0 <= i <= |held|
        invariant table.Valid()
        invariant table.rows == AfterRelease(old(table.rows), held[i..], reply)
      {
        i := i - 1;
        assert held[i..] == [held[i]] + held[i + 1..];
        ghost var before := table.rows;
        if !Retained(held[i], reply) {
          var released := table.Release(held[i].key, held[i].token);
        }
        ReleaseOneMore(old(table.rows), held[i + 1..], held[i], reply);
      }
      assert held[0..] == held;
    }

    /** Executes an approved plan under leases. */
    method ExecuteApproved(b: Before, approvalId: string, owner: string, lockSeconds: int, w: World)
        returns (outcome: Outcome, ghost atRelease: Rows, ghost nextAtRelease: nat)
      requires table.Valid()
      modifies this, table
      ensures table.Valid()
      // Refused before any lease: nothing is touched.
      ensures Precheck(b, approvalId).Some? ==>
        outcome == Precheck(b, approvalId).value
        && table.rows == old(table.rows) && failedExecutions == old(failedExecutions) && resumed == old(resumed)
      ensures Precheck(b, approvalId).None? ==>
        var scopes := ResourceScopes(b, lockSeconds);
        var taken := TakeUpTo(old(table.rows), old(table.nextToken), scopes, owner, w.clock, |scopes|);
        var reply := if taken.refused.None? && w.claim.Some? then Some(w.resume) else None;
        // The way out: a refused lease, or what the claim and the resumed workflow say.
        && outcome == (match taken.refused
                       case Some(LeaseConflict) => LockedByAnother
                       case Some(InvalidRequest) => InvalidLease
                       case None => WayOut(w))
        // Between taking and giving back, the table changed only by others, and only while the workflow ran.
        && (if reply.Some?
            then ChangedByOthers(owner, w.finishedAt, taken.rows, old(table.nextToken) + |taken.held|, atRelease, nextAtRelease)
            else atRelease == taken.rows)
        // Exactly the leases that need not stay are given back, and the others stay.
        && table.rows == AfterRelease(atRelease, taken.held, reply)
        && |taken.held| <= |scopes| && OnlyRetainedStay(taken.held, scopes, owner, w, reply, table.rows)
        // The workflow is resumed once, under the claim; a claim that led nowhere is marked failed, and no other is.
        && resumed == old(resumed) + (if reply.Some? then [w.claim.value] else [])
        && failedExecutions == old(failedExecutions) + if reply.Some? && LedNowhere(w.resume) then [w.claim.value] else []
    {
      atRelease, nextAtRelease := table.rows, table.nextToken;
      var refusal := Precheck(b, approvalId);
      if refusal.Some? {
        return refusal.value, atRelease, nextAtRelease;
      }
      var scopes := ResourceScopes(b, lockSeconds);
      TakenAreHeld(table.rows, table.nextToken, scopes, owner, w.clock, |scopes|);
      TakenLeasesStand(table.rows, table.nextToken, scopes, owner, w, |scopes|);
      var held, refused := AcquireScopes(scopes, owner, w.clock);
      ghost var taken, next := table.rows, table.nextToken;
      var reply: Option<ResumeReply> := None;
      if refused.Some? {
        outcome := if refused.value == LeaseConflict then LockedByAnother else InvalidLease;
      } else if w.claim.None? {
        outcome := ClaimRefused;
      } else {
        var answer := Resume(w.claim.value, held, scopes, owner, w);
        OthersSpareStanding(held, scopes, owner, w, taken, next, table.rows, table.nextToken);
        reply := Some(answer);
        if LedNowhere(answer) {
          failedExecutions := failedExecutions + [w.claim.value];
        }
        outcome := WayOut(w);
      }
      atRelease, nextAtRelease := table.rows, table.nextToken;
      ReleaseLeases(held, reply);
      ReleaseAccountsForLeases(atRelease, held, reply);
      StandingLeasesAreAccounted(held, scopes, owner, w, reply, atRelease, table.rows);
    }
  }

  lemma {:induction false} RefusedStays(rows: Rows, nextToken: nat, scopes: seq<Scope>, owner: string, clock: nat -> int, i: nat, n: nat)
    requires i <= n <= |scopes| && TakeUpTo(rows, nextToken, scopes, owner, clock, i).refused.Some?
    ensures TakeUpTo(rows, nextToken, scopes, owner, clock, n) == TakeUpTo(rows, nextToken, scopes, owner, clock, i)
  {
    if i < n {
      RefusedStays(rows, nextToken, scopes, owner, clock, i, n - 1);
    }
  }

  lemma ReleaseOneMore(rows: Rows, later: seq<Held>, h: Held, reply: Option<ResumeReply>)
    ensures var before := AfterRelease(rows, later, reply);
            AfterRelease(rows, [h] + later, reply)
            == if !Retained(h, reply) && h.key in before && before[h.key].token == h.token then before - {h.key} else before
  {
    var all := [h] + later;
    forall k | k in rows
      ensures GivenBack(k, rows, all, reply) <==>
        GivenBack(k, rows, later, reply) || (h.key == k && h.token == rows[k].token && !Retained(h, reply))
    {
      if GivenBack(k, rows, later, reply) {
        var i :| 0 <= i < |later| && later[i].key == k && later[i].token == rows[k].token && !Retained(later[i], reply);
        assert all[i + 1] == later[i];
      }
      if h.key == k && h.token == rows[k].token && !Retained(h, reply) {
        assert all[0] == h;
      }
      if GivenBack(k, rows, all, reply) {
        var i :| 0 <= i < |all| && all[i].key == k && all[i].token == rows[k].token && !Retained(all[i], reply);
        if i > 0 { assert later[i - 1] == all[i]; }
      }
    }
  }
}
