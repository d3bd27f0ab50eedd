/**
 Running a queued investigation: many workers may see it, one leases it, re-reads it under the lease, runs
 the workflow, and stores the new status before giving the lease back. Others resume the workflow under the
 same lease. A failed worker counts the failure afterwards, without it. One step is one access to the shared rows.
 */
module QueueClaims {
  import opened Common

  datatype Status = Queued | Running | Waiting | Completed | Escalated | Failed

  /** The stored row: every write goes through compare-and-swap on version. */
  datatype Snapshot = Snapshot(status: Status, version: nat, workerAttempts: nat)

  datatype Lease = Lease(worker: nat, until: int)

  /** Queue workers start the workflow; resumers, such as approvals, executions, verifications and requests for
      more evidence, continue it. Failures of the background worker's own resumptions are counted too. */
  datatype Role = Starter | Resumer(counted: bool)

  datatype Pc =
    | Start
    | Ready(role: Role)
    | Leased(until: int, role: Role)
    | Cleared(until: int)
    | Invoking(until: int, role: Role)
    | Invoked(until: int, role: Role, reached: Status)
    | Saving(until: int, role: Role, reached: Status, expected: nat)
    | Leaving(until: int, role: Role, raised: bool)
    | Failing
    | FailureRead(seen: Snapshot)
    | Finished

  /** synced records whether a workflow's status was ever stored. */
  datatype System = System(now: int, snapshot: Snapshot, lease: Option<Lease>, workers: seq<Pc>, synced: bool)

  datatype Step =
    | Tick(seconds: nat)
    | Arrive
    | ArriveToResume(counted: bool)
    | Look(w: nat)
    | AcquireLease(w: nat, seconds: nat)
    | ReadAgain(w: nat)
    | Invoke(w: nat)
    | Return(w: nat, reached: Status)
    | Raise(w: nat)
    | ReadVersion(w: nat)
    | Save(w: nat)
    | Release(w: nat)
    | ReadFailure(w: nat)
    | SaveFailure(w: nat, maxAttempts: nat)

  predicate InCritical(pc: Pc)
  {
    pc.Leased? || pc.Cleared? || pc.Invoking? || pc.Invoked? || pc.Saving? || pc.Leaving?
  }

  predicate At(s: System, w: nat)
  {
    w < |s.workers|
  }

  /** A worker about to start the workflow of a queued investigation. */
  predicate AboutToStart(s: System, w: nat) { At(s, w) && s.workers[w].Cleared? }

  predicate Enabled(s: System, step: Step)
  {
    match step
    case Tick(_) => true
    case Arrive => true
    case ArriveToResume(_) => true
    case Look(w) => At(s, w) && s.workers[w] == Start
    case AcquireLease(w, seconds) => At(s, w) && s.workers[w].Ready? && seconds >= 1
    case ReadAgain(w) => At(s, w) && s.workers[w].Leased? && s.workers[w].role.Starter?
    case Invoke(w) => AboutToStart(s, w) || (At(s, w) && s.workers[w].Leased? && s.workers[w].role.Resumer?)
    case Return(w, reached) => At(s, w) && s.workers[w].Invoking? && reached != Queued
    case Raise(w) => At(s, w) && s.workers[w].Invoking?
    case ReadVersion(w) => At(s, w) && s.workers[w].Invoked?
    case Save(w) => At(s, w) && s.workers[w].Saving?
    case Release(w) => At(s, w) && s.workers[w].Leaving?
    case ReadFailure(w) => At(s, w) && s.workers[w] == Failing
    case SaveFailure(w, maxAttempts) => At(s, w) && s.workers[w].FailureRead?
  }

  function To(s: System, w: nat, pc: Pc): System
    requires At(s, w)
  {
    s.(workers := s.workers[w := pc])
  }

  function Stored(s: System, status: Status, attempts: nat): Snapshot
  {
    Snapshot(status, s.snapshot.version + 1, attempts)
  }

  function Next(s: System, step: Step): System
    requires Enabled(s, step)
  {
    match step
    case Tick(seconds) => s.(now := s.now + seconds)
    case Arrive => s.(workers := s.workers + [Start])
    case ArriveToResume(counted) => s.(workers := s.workers + [Ready(Resumer(counted))])
    case Look(w) => To(s, w, if s.snapshot.status == Queued then Ready(Starter) else Finished)
    case AcquireLease(w, seconds) =>
      if s.lease.Some? && s.lease.value.until > s.now then To(s, w, Finished)
      else To(s.(lease := Some(Lease(w, s.now + seconds))), w, Leased(s.now + seconds, s.workers[w].role))
    case ReadAgain(w) =>
      var until := s.workers[w].until;
      To(s, w, if s.snapshot.status == Queued then Cleared(until) else Leaving(until, Starter, false))
    case Invoke(w) => To(s, w, Invoking(s.workers[w].until, if s.workers[w].Cleared? then Starter else s.workers[w].role))
    case Return(w, reached) => To(s, w, Invoked(s.workers[w].until, s.workers[w].role, reached))
    case Raise(w) => To(s, w, Leaving(s.workers[w].until, s.workers[w].role, true))
    case ReadVersion(w) => To(s, w, Saving(s.workers[w].until, s.workers[w].role, s.workers[w].reached, s.snapshot.version))
    case Save(w) =>
      var pc := s.workers[w];
      if pc.expected == s.snapshot.version
      then To(s.(snapshot := Stored(s, pc.reached, 0), synced := true), w, Leaving(pc.until, pc.role, false))
      else To(s, w, Leaving(pc.until, pc.role, true))
    case Release(w) =>
      var pc := s.workers[w];
      var freed := if s.lease == Some(Lease(w, pc.until)) then s.(lease := None) else s;
      To(freed, w, if pc.raised && pc.role != Resumer(false) then Failing else Finished)
    case ReadFailure(w) => To(s, w, FailureRead(s.snapshot))
    case SaveFailure(w, maxAttempts) =>
      var seen := s.workers[w].seen;
      var attempts := seen.workerAttempts + 1;
      var status := if attempts >= Max(1, maxAttempts) then Failed else seen.status;
      if seen.version == s.snapshot.version then To(s.(snapshot := Stored(s, status, attempts)), w, Finished)
      else To(s, w, Finished)
  }

  const INITIAL := System(0, Snapshot(Queued, 1, 0), None, [], false)

  /** The leases of the workers that are using them have not run out. */
  ghost predicate LeasesOutlast(s: System)
  {
    forall w :: 0 <= w < |s.workers| && InCritical(s.workers[w]) ==> s.now < s.workers[w].until
  }

  /** The system after an interleaving in which every step was possible in its turn. */
  function Run(steps: seq<Step>): Option<System>
  {
    if steps == [] then Some(INITIAL)
    else
      var before := Run(steps[..|steps| - 1]);
      if before.Some? && Enabled(before.value, steps[|steps| - 1])
      then Some(Next(before.value, steps[|steps| - 1]))
      else None
  }

  /** At every point of the interleaving, leases in use had not run out. */
  ghost predicate LeasesOutlastRun(steps: seq<Step>)
  {
    forall n :: 0 <= n <= |steps| && Run(steps[..n]).Some? ==> LeasesOutlast(Run(steps[..n]).value)
  }

  /** Every failure is counted against the same limit. */
  predicate OneLimit(steps: seq<Step>, limit: nat)
  {
    forall i :: 0 <= i < |steps| && steps[i].SaveFailure? ==> steps[i].maxAttempts == limit
  }

  // ---- What every interleaving keeps ------------------------------------------------------------

  /** Whoever uses the lease is recorded as its holder, so nobody else does. */
  ghost predicate Exclusive(s: System)
  {
    forall w :: 0 <= w < |s.workers| && InCritical(s.workers[w]) ==> s.lease == Some(Lease(w, s.workers[w].until))
  }

  /** Starting the workflow, or cleared to. */
  predicate Committed(pc: Pc)
  {
    pc.Cleared? || ((pc.Invoking? || pc.Invoked? || pc.Saving?) && pc.role.Starter?)
  }

  /** Until a workflow's status is stored, the row is queued while attempts are left and failed afterwards;
      once it is stored, the row is queued no more and no worker is on its way to start the workflow. */
  ghost predicate Settled(s: System, limit: nat)
  {
    && (!s.synced ==> s.snapshot.status == if s.snapshot.workerAttempts < Max(1, limit) then Queued else Failed)
    && (s.synced ==> s.snapshot.status != Queued)
    && (s.synced ==> forall w :: 0 <= w < |s.workers| ==> !Committed(s.workers[w]))
    && (forall w :: 0 <= w < |s.workers| && s.workers[w].FailureRead? ==>
          && s.workers[w].seen.version <= s.snapshot.version
          && (s.workers[w].seen.version == s.snapshot.version ==> s.workers[w].seen == s.snapshot))
    && (forall w :: 0 <= w < |s.workers| && (s.workers[w].Invoked? || s.workers[w].Saving?) ==> s.workers[w].reached != Queued)
  }

  lemma StepKeepsExclusive(s: System, step: Step)
    requires Exclusive(s) && LeasesOutlast(s) && Enabled(s, step)
    ensures Exclusive(Next(s, step))
  {
  }

  /** A step that moves one worker and stores nothing. */
  lemma MoveKeepsSettled(s: System, w: nat, pc: Pc, limit: nat)
    requires Settled(s, limit) && At(s, w)
    requires Committed(pc) ==> !s.synced
    requires pc.FailureRead? ==> pc.seen == s.snapshot
    requires pc.Invoked? || pc.Saving? ==> pc.reached != Queued
    ensures Settled(To(s, w, pc), limit)
  {
  }

  lemma SaveKeepsSettled(s: System, w: nat, limit: nat)
    requires Exclusive(s) && Settled(s, limit) && Enabled(s, Save(w))
    ensures Settled(Next(s, Save(w)), limit)
  {
    var pc, next := s.workers[w], Next(s, Save(w));
    if pc.expected == s.snapshot.version {
      assert s.lease == Some(Lease(w, pc.until));
      forall v | 0 <= v < |next.workers| ensures !Committed(next.workers[v]) {
      }
    } else {
      MoveKeepsSettled(s, w, Leaving(pc.until, pc.role, true), limit);
    }
  }

  lemma SaveFailureKeepsSettled(s: System, w: nat, limit: nat)
    requires Settled(s, limit) && Enabled(s, SaveFailure(w, limit))
    ensures Settled(Next(s, SaveFailure(w, limit)), limit)
  {
    if s.workers[w].seen.version != s.snapshot.version {
      MoveKeepsSettled(s, w, Finished, limit);
    }
  }

  lemma QuietStepKeepsSettled(s: System, step: Step, limit: nat)
    requires Settled(s, limit) && Enabled(s, step)
    requires step.Look? || step.ReadAgain? || step.Invoke? || step.Return? || step.Raise? || step.ReadVersion? || step.ReadFailure?
    ensures Settled(Next(s, step), limit)
  {
    match step
    case Look(w) => MoveKeepsSettled(s, w, Next(s, step).workers[w], limit);
    case ReadAgain(w) => MoveKeepsSettled(s, w, Next(s, step).workers[w], limit);
    case Invoke(w) => MoveKeepsSettled(s, w, Next(s, step).workers[w], limit);
    case Return(w, _) => MoveKeepsSettled(s, w, Next(s, step).workers[w], limit);
    case Raise(w) => MoveKeepsSettled(s, w, Next(s, step).workers[w], limit);
    case ReadVersion(w) => MoveKeepsSettled(s, w, Next(s, step).workers[w], limit);
    case ReadFailure(w) => MoveKeepsSettled(s, w, Next(s, step).workers[w], limit);
  }

  lemma StepKeepsSettled(s: System, step: Step, limit: nat)
    requires Exclusive(s) && Settled(s, limit) && Enabled(s, step) && (step.SaveFailure? ==> step.maxAttempts == limit)
    ensures Settled(Next(s, step), limit)
  {
    match step
    case Save(w) => SaveKeepsSettled(s, w, limit);
    case SaveFailure(w, _) => SaveFailureKeepsSettled(s, w, limit);
    case Tick(_) =>
    case Arrive =>
    case ArriveToResume(_) =>
    case AcquireLease(w, _) => MoveKeepsSettled(s, w, Next(s, step).workers[w], limit);
    case Release(w) => MoveKeepsSettled(s, w, Next(s, step).workers[w], limit);
    case _ => QuietStepKeepsSettled(s, step, limit);
  }

  lemma {:induction false} RunKeepsExclusive(steps: seq<Step>)
    requires Run(steps).Some? && LeasesOutlastRun(steps)
    ensures Exclusive(Run(steps).value)
    decreases |steps|
  {
    if steps != [] {
      var front := steps[..|steps| - 1];
      FrontOutlasts(steps);
      RunKeepsExclusive(front);
      StepKeepsExclusive(Run(front).value, steps[|steps| - 1]);
    }
  }

  lemma FrontOutlasts(steps: seq<Step>)
    requires steps != [] && LeasesOutlastRun(steps)
    ensures LeasesOutlastRun(steps[..|steps| - 1])
    ensures Run(steps[..|steps| - 1]).Some? ==> LeasesOutlast(Run(steps[..|steps| - 1]).value)
  {
    var front := steps[..|steps| - 1];
    assert forall n :: 0 <= n <= |front| ==> front[..n] == steps[..n];
    assert steps[..|front|] == front;
  }

  lemma {:induction false} RunKeepsInvariants(steps: seq<Step>, limit: nat)
    requires Run(steps).Some? && LeasesOutlastRun(steps) && OneLimit(steps, limit)
    ensures Exclusive(Run(steps).value) && Settled(Run(steps).value, limit)
    decreases |steps|
  {
    RunKeepsExclusive(steps);
    if steps != [] {
      var front := steps[..|steps| - 1];
      FrontOutlasts(steps);
      RunKeepsInvariants(front, limit);
      StepKeepsSettled(Run(front).value, steps[|steps| - 1], limit);
    }
  }

  /** While leases outlast their use, two actors are never inside the workflow together, whether they start or
      resume it. */
  lemma AtMostOneInvocation(steps: seq<Step>, v: nat, w: nat)
    requires Run(steps).Some? && LeasesOutlastRun(steps)
    requires v < |Run(steps).value.workers| && Run(steps).value.workers[v].Invoking?
    requires w < |Run(steps).value.workers| && Run(steps).value.workers[w].Invoking?
    ensures v == w
  {
    RunKeepsExclusive(steps);
    var s := Run(steps).value;
    assert InCritical(s.workers[v]) && InCritical(s.workers[w]);
  }

  /** Once a workflow's status has been stored, no worker starts the workflow again. A worker about to start it
      does so for an investigation still stored as queued exactly when the stored failure count is below the
      limit; otherwise it is stored as failed. */
  lemma InvocationRespectsStoredStatus(steps: seq<Step>, limit: nat, w: nat)
    requires Run(steps).Some? && LeasesOutlastRun(steps) && OneLimit(steps, limit)
    requires AboutToStart(Run(steps).value, w)
    ensures !Run(steps).value.synced
    ensures Run(steps).value.snapshot.status
         == if Run(steps).value.snapshot.workerAttempts < Max(1, limit) then Queued else Failed
  {
    RunKeepsInvariants(steps, limit);
    assert Committed(Run(steps).value.workers[w]);
  }

  /** A stored status other than queued is never turned back into queued. */
  lemma QueuedNeverReturns(s: System, step: Step, limit: nat)
    requires Exclusive(s) && Settled(s, limit) && Enabled(s, step) && (step.SaveFailure? ==> step.maxAttempts == limit)
    requires s.snapshot.status != Queued
    ensures Next(s, step).snapshot.status != Queued
  {
    StepKeepsSettled(s, step, limit);
  }

  // ---- Where the promise stops ------------------------------------------------------------------

  function RunFrom(s: System, steps: seq<Step>): Option<System>
    decreases |steps|
  {
    if steps == [] then Some(s)
    else if Enabled(s, steps[0]) then RunFrom(Next(s, steps[0]), steps[1..])
    else None
  }

  lemma {:induction false} RunExtends(steps: seq<Step>, more: seq<Step>)
    requires Run(steps).Some? && RunFrom(Run(steps).value, more).Some?
    ensures Run(steps + more) == RunFrom(Run(steps).value, more)
    decreases |more|
  {
    if more == [] {
      assert steps + more == steps;
    } else {
      var one := steps + [more[0]];
      assert one[..|one| - 1] == steps;
      assert steps + more == one + more[1..];
      RunExtends(one, more[1..]);
    }
  }

  const ARRIVALS := [Arrive, Arrive, Look(0), Look(1)]
  const FAILED_RUN := [AcquireLease(0, 300), ReadAgain(0), Invoke(0), Raise(0)]
  const SURRENDER := [Release(0), AcquireLease(1, 300), ReadFailure(0), ReadAgain(1), SaveFailure(0, 1)]

  const BOTH_LOOKED := System(0, Snapshot(Queued, 1, 0), None, [Ready(Starter), Ready(Starter)], false)
  const ONE_RAISED := System(0, Snapshot(Queued, 1, 0), Some(Lease(0, 300)), [Leaving(300, Starter, true), Ready(Starter)], false)
  const SURRENDERED := System(0, Snapshot(Failed, 2, 1), Some(Lease(1, 300)), [Finished, Cleared(300)], false)

  /** Giving up is stored without the lease. A worker that re-read the row before that store still starts
      the workflow after it: here worker 0 fails and gives up between worker 1's re-read and its start. */
  lemma SurrenderCanPrecedeInvocation()
    ensures exists steps :: Run(steps).Some? && LeasesOutlastRun(steps)
              && Run(steps).value.snapshot.status == Failed && AboutToStart(Run(steps).value, 1)
  {
    var steps := (ARRIVALS + FAILED_RUN) + SURRENDER;
    SurrenderRun();
    NoTicks();
    InstantRunOutlasts(steps);
    CanStillInvoke();
  }

  lemma CanStillInvoke()
    ensures SURRENDERED.snapshot.status == Failed && AboutToStart(SURRENDERED, 1) && Enabled(SURRENDERED, Invoke(1))
  {
  }

  lemma NoTicks()
    ensures forall i :: 0 <= i < 13 ==> !((ARRIVALS + FAILED_RUN) + SURRENDER)[i].Tick?
    ensures |(ARRIVALS + FAILED_RUN) + SURRENDER| == 13
  {
  }

  lemma SurrenderRun()
    ensures Run((ARRIVALS + FAILED_RUN) + SURRENDER) == Some(SURRENDERED)
  {
    assert Run([]) == Some(INITIAL);
    FirstLooks(ARRIVALS, BOTH_LOOKED);
    RunExtends([], ARRIVALS);
    assert [] + ARRIVALS == ARRIVALS;
    FailedRun(FAILED_RUN, BOTH_LOOKED, ONE_RAISED);
    RunExtends(ARRIVALS, FAILED_RUN);
    SecondHalf(SURRENDER, ONE_RAISED, SURRENDERED);
    RunExtends(ARRIVALS + FAILED_RUN, SURRENDER);
  }

  /** When no time passes, no lease in use runs out. */
  lemma InstantRunOutlasts(steps: seq<Step>)
    requires forall i :: 0 <= i < |steps| ==> !steps[i].Tick?
    ensures LeasesOutlastRun(steps)
  {
    forall n | 0 <= n <= |steps| && Run(steps[..n]).Some? ensures LeasesOutlast(Run(steps[..n]).value) {
      InstantPrefix(steps[..n]);
    }
  }

  lemma {:induction false} InstantPrefix(steps: seq<Step>)
    requires forall i :: 0 <= i < |steps| ==> !steps[i].Tick?
    ensures Run(steps).Some? ==> Run(steps).value.now == 0 && LeasesOutlast(Run(steps).value)
    decreases |steps|
  {
    if steps != [] {
      var front := steps[..|steps| - 1];
      InstantPrefix(front);
      if Run(steps).Some? {
        InstantStep(Run(front).value, steps[|steps| - 1]);
      }
    }
  }

  lemma InstantStep(s: System, step: Step)
    requires s.now == 0 && LeasesOutlast(s) && Enabled(s, step) && !step.Tick?
    ensures Next(s, step).now == 0 && LeasesOutlast(Next(s, step))
  {
  }

  lemma TwoSteps(s: System, a: Step, b: Step, rest: seq<Step>)
    requires Enabled(s, a) && Enabled(Next(s, a), b)
    ensures RunFrom(s, [a, b] + rest) == RunFrom(Next(Next(s, a), b), rest)
  {
    assert ([a, b] + rest)[1..] == [b] + rest;
    assert ([b] + rest)[1..] == rest;
  }

  lemma FirstLooks(steps: seq<Step>, t: System)
    requires steps == [Arrive, Arrive, Look(0), Look(1)]
    requires t == System(0, Snapshot(Queued, 1, 0), None, [Ready(Starter), Ready(Starter)], false)
    ensures RunFrom(INITIAL, steps) == Some(t)
  {
    var rest := [Look(0), Look(1)];
    assert steps == [Arrive, Arrive] + rest && rest == rest + [];
    var s := System(0, Snapshot(Queued, 1, 0), None, [Start, Start], false);
    TwoSteps(INITIAL, Arrive, Arrive, rest);
    assert Next(Next(INITIAL, Arrive), Arrive) == s;
    TwoSteps(s, Look(0), Look(1), []);
    assert Next(Next(s, Look(0)), Look(1)) == t;
  }

  lemma FailedRun(steps: seq<Step>, s: System, t: System)
    requires steps == [AcquireLease(0, 300), ReadAgain(0), Invoke(0), Raise(0)]
    requires s == System(0, Snapshot(Queued, 1, 0), None, [Ready(Starter), Ready(Starter)], false)
    requires t == s.(lease := Some(Lease(0, 300)), workers := [Leaving(300, Starter, true), Ready(Starter)])
    ensures RunFrom(s, steps) == Some(t)
  {
    var rest := [Invoke(0), Raise(0)];
    assert steps == [AcquireLease(0, 300), ReadAgain(0)] + rest && rest == rest + [];
    var u := s.(lease := Some(Lease(0, 300)), workers := [Cleared(300), Ready(Starter)]);
    TwoSteps(s, AcquireLease(0, 300), ReadAgain(0), rest);
    assert Next(Next(s, AcquireLease(0, 300)), ReadAgain(0)) == u;
    TwoSteps(u, Invoke(0), Raise(0), []);
    assert Next(Next(u, Invoke(0)), Raise(0)) == t;
  }

  lemma SecondHalf(steps: seq<Step>, s: System, t: System)
    requires steps == [Release(0), AcquireLease(1, 300), ReadFailure(0), ReadAgain(1), SaveFailure(0, 1)]
    requires s == System(0, Snapshot(Queued, 1, 0), Some(Lease(0, 300)), [Leaving(300, Starter, true), Ready(Starter)], false)
    requires t == System(0, Snapshot(Failed, 2, 1), Some(Lease(1, 300)), [Finished, Cleared(300)], false)
    ensures RunFrom(s, steps) == Some(t)
  {
    var b2 := s.(lease := Some(Lease(1, 300)), workers := [Failing, Leased(300, Starter)]);
    var b4 := b2.(workers := [FailureRead(s.snapshot), Cleared(300)]);
    var last := [SaveFailure(0, 1)];
    var middle := [ReadFailure(0), ReadAgain(1)] + last;
    assert steps == [Release(0), AcquireLease(1, 300)] + middle;
    HandOver(s, b2);
    TwoSteps(s, Release(0), AcquireLease(1, 300), middle);
    ReadSide(b2, b4);
    TwoSteps(b2, ReadFailure(0), ReadAgain(1), last);
    Surrender(b4, t, last);
  }

  lemma HandOver(s: System, t: System)
    requires s.lease == Some(Lease(0, 300)) && s.now == 0 && s.workers == [Leaving(300, Starter, true), Ready(Starter)]
    requires t == s.(lease := Some(Lease(1, 300)), workers := [Failing, Leased(300, Starter)])
    ensures Enabled(s, Release(0)) && Enabled(Next(s, Release(0)), AcquireLease(1, 300))
    ensures Next(Next(s, Release(0)), AcquireLease(1, 300)) == t
  {
  }

  lemma ReadSide(s: System, t: System)
    requires s.snapshot.status == Queued && s.workers == [Failing, Leased(300, Starter)]
    requires t == s.(workers := [FailureRead(s.snapshot), Cleared(300)])
    ensures Enabled(s, ReadFailure(0)) && Enabled(Next(s, ReadFailure(0)), ReadAgain(1))
    ensures Next(Next(s, ReadFailure(0)), ReadAgain(1)) == t
  {
  }

  lemma Surrender(s: System, t: System, steps: seq<Step>)
    requires s.snapshot == Snapshot(Queued, 1, 0)
    requires s.workers == [FailureRead(s.snapshot), Cleared(300)] && steps == [SaveFailure(0, 1)]
    requires t == s.(snapshot := Snapshot(Failed, 2, 1), workers := [Finished, Cleared(300)])
    ensures RunFrom(s, steps) == Some(t)
  {
    assert steps[1..] == [];
    assert Next(s, steps[0]) == t;
  }
}
