/**
 The per-turn tool-call budget: counters, a result cache and a ledger behind one lock, used by calls that
 run in parallel. Every lock-delimited section is one step; the accounting holds under every interleaving.
 */
module ToolBudget {
  import opened Common

  datatype Outcome =
    | UserStopped | CacheHit | BudgetRejection | ValidationError | SourceFailure | ToolError | Success

  /** arguments is the canonical rendering of the call's arguments. */
  datatype Call = Call(id: string, name: string, arguments: string)

  datatype Fingerprint = Fingerprint(name: string, arguments: string)

  function FingerprintOf(c: Call): Fingerprint { Fingerprint(c.name, c.arguments) }

  /** content is what the model was given; a result that is not text has none. */
  datatype Event = Event(call: Call, outcome: Outcome, content: Option<string>)

  datatype Ledger = Ledger(
    limit: int,
    attempted: int,
    used: int,
    successful: int,
    cacheHits: int,
    rejected: int,
    validationErrors: int,
    sourceFailures: int,
    toolErrors: int,
    results: map<Fingerprint, string>,
    outcomes: map<string, Outcome>,
    events: seq<Event>,
    evidence: seq<Event>)

  function Fresh(limit: int): Ledger
  {
    Ledger(Max(1, limit), 0, 0, 0, 0, 0, 0, 0, 0, map[], map[], [], [])
  }

  // ---- The lock-delimited sections --------------------------------------------------------------

  function Record(s: Ledger, c: Call, o: Outcome, content: Option<string>): Ledger
  {
    s.(outcomes := s.outcomes[c.id := o], events := s.events + [Event(c, o, content)])
  }

  function Begun(s: Ledger): Ledger { s.(attempted := s.attempted + 1) }

  function Stopped(s: Ledger, c: Call): Ledger { Record(s, c, UserStopped, None) }

  function Cached(s: Ledger, c: Call): Option<string>
  {
    if FingerprintOf(c) in s.results then Some(s.results[FingerprintOf(c)]) else None
  }

  function Hit(s: Ledger, c: Call, cached: string): Ledger
  {
    Record(s.(cacheHits := s.cacheHits + 1), c, CacheHit, Some(cached))
  }

  predicate Granted(s: Ledger) { s.used < s.limit }

  function Reserved(s: Ledger, c: Call): Ledger
  {
    if Granted(s) then s.(used := s.used + 1)
    else Record(s.(rejected := s.rejected + 1), c, BudgetRejection, None)
  }

  /** The outcomes that classifying a tool's reply can produce. */
  predicate IsReply(o: Outcome) { o == ValidationError || o == SourceFailure || o == ToolError || o == Success }

  /** The counters, cache and ledger after a reply, before its event is recorded. */
  function Counted(s: Ledger, c: Call, o: Outcome, content: Option<string>): Ledger
  {
    var counted :=
      match o
      case ValidationError => s.(used := s.used - 1, validationErrors := s.validationErrors + 1)
      case SourceFailure => s.(sourceFailures := s.sourceFailures + 1)
      case ToolError => s.(toolErrors := s.toolErrors + 1)
      case _ => s.(successful := s.successful + 1);
    if o == Success && content.Some? then
      counted.(results := counted.results[FingerprintOf(c) := content.value],
               evidence := counted.evidence + [Event(c, o, content)])
    else counted
  }

  function Finished(s: Ledger, c: Call, o: Outcome, content: Option<string>): Ledger
  {
    Record(Counted(s, c, o, content), c, o, content)
  }

  // ---- Interleavings ----------------------------------------------------------------------------

  /** Where one call stands between its lock-delimited sections. */
  datatype Pc =
    | Started | StopSeen | Passed | Looked(cached: Option<string>) | InFlight | Done | Raised

  datatype Thread = Thread(call: Call, pc: Pc)

  datatype System = System(ledger: Ledger, threads: seq<Thread>)

  datatype Step =
    | Begin(call: Call)
    | CheckStop(t: nat, stopSet: bool)
    | RecordStop(t: nat)
    | ReadCache(t: nat)
    | RecordHit(t: nat)
    | Reserve(t: nat)
    | Finish(t: nat, outcome: Outcome, content: Option<string>)
    | Raise(t: nat)

  predicate Enabled(s: System, step: Step)
  {
    match step
    case Begin(_) => true
    case CheckStop(t, _) => t < |s.threads| && s.threads[t].pc == Started
    case RecordStop(t) => t < |s.threads| && s.threads[t].pc == StopSeen
    case ReadCache(t) => t < |s.threads| && s.threads[t].pc == Passed
    case RecordHit(t) => t < |s.threads| && s.threads[t].pc.Looked? && s.threads[t].pc.cached.Some?
    case Reserve(t) => t < |s.threads| && s.threads[t].pc == Looked(None)
    case Finish(t, outcome, _) => t < |s.threads| && s.threads[t].pc == InFlight && IsReply(outcome)
    case Raise(t) => t < |s.threads| && s.threads[t].pc == InFlight
  }

  function At(s: System, t: nat, pc: Pc): seq<Thread>
    requires t < |s.threads|
  {
    s.threads[t := s.threads[t].(pc := pc)]
  }

  function Next(s: System, step: Step): System
    requires Enabled(s, step)
  {
    match step
    case Begin(call) => System(Begun(s.ledger), s.threads + [Thread(call, Started)])
    case CheckStop(t, stopSet) => s.(threads := At(s, t, if stopSet then StopSeen else Passed))
    case RecordStop(t) => System(Stopped(s.ledger, s.threads[t].call), At(s, t, Done))
    case ReadCache(t) => s.(threads := At(s, t, Looked(Cached(s.ledger, s.threads[t].call))))
    case RecordHit(t) =>
      System(Hit(s.ledger, s.threads[t].call, s.threads[t].pc.cached.value), At(s, t, Done))
    case Reserve(t) =>
      System(Reserved(s.ledger, s.threads[t].call), At(s, t, if Granted(s.ledger) then InFlight else Done))
    case Finish(t, outcome, content) =>
      System(Finished(s.ledger, s.threads[t].call, outcome, content), At(s, t, Done))
    case Raise(t) => s.(threads := At(s, t, Raised))
  }

  /** The system after an interleaving of steps, when each was possible in its turn. */
  function Run(limit: int, steps: seq<Step>): Option<System>
  {
    if steps == [] then Some(System(Fresh(limit), []))
    else
      var before := Run(limit, steps[..|steps| - 1]);
      if before.Some? && Enabled(before.value, steps[|steps| - 1])
      then Some(Next(before.value, steps[|steps| - 1]))
      else None
  }

  // ---- Accounting -------------------------------------------------------------------------------

  /** Calls that hold a unit of budget: running, or gone by an exception that never reported back. */
  predicate Holds(pc: Pc) { pc == InFlight || pc == Raised }

  function Holding(ts: seq<Thread>): nat
  {
    if ts == [] then 0 else (if Holds(ts[0].pc) then 1 else 0) + Holding(ts[1..])
  }

  /** Calls whose outcome has not been decided. */
  function Pending(ts: seq<Thread>): nat
  {
    if ts == [] then 0 else (if ts[0].pc != Done then 1 else 0) + Pending(ts[1..])
  }

  function Decided(es: seq<Event>, o: Outcome): nat
  {
    if es == [] then 0
    else Decided(es[..|es| - 1], o) + if es[|es| - 1].outcome == o then 1 else 0
  }

  lemma {:induction false} ThreadsAppend(ts: seq<Thread>, t: Thread)
    ensures Holding(ts + [t]) == Holding(ts) + (if Holds(t.pc) then 1 else 0)
    ensures Pending(ts + [t]) == Pending(ts) + (if t.pc != Done then 1 else 0)
  {
    if ts == [] {
      assert (ts + [t])[1..] == [];
    } else {
      assert (ts + [t])[1..] == ts[1..] + [t];
      ThreadsAppend(ts[1..], t);
    }
  }

  lemma {:induction false} ThreadMoves(ts: seq<Thread>, i: nat, t: Thread)
    requires i < |ts|
    ensures Holding(ts[i := t]) == Holding(ts) - (if Holds(ts[i].pc) then 1 else 0) + (if Holds(t.pc) then 1 else 0)
    ensures Pending(ts[i := t]) == Pending(ts) - (if ts[i].pc != Done then 1 else 0) + (if t.pc != Done then 1 else 0)
  {
    if i == 0 {
      assert ts[i := t][1..] == ts[1..];
    } else {
      assert ts[i := t][1..] == ts[1..][i - 1 := t];
      ThreadMoves(ts[1..], i - 1, t);
    }
  }

  lemma DecidedAppend(es: seq<Event>, e: Event, o: Outcome)
    ensures Decided(es + [e], o) == Decided(es, o) + if e.outcome == o then 1 else 0
  {
    assert (es + [e])[..|es + [e]| - 1] == es;
  }

  lemma {:induction false} EveryEventIsDecided(es: seq<Event>)
    ensures |es| == Decided(es, UserStopped) + Decided(es, CacheHit) + Decided(es, BudgetRejection)
                  + Decided(es, ValidationError) + Decided(es, SourceFailure) + Decided(es, ToolError) + Decided(es, Success)
  {
    if es != [] {
      EveryEventIsDecided(es[..|es| - 1]);
    }
  }

  ghost predicate CountersMatch(s: Ledger)
  {
    && s.cacheHits == Decided(s.events, CacheHit)
    && s.rejected == Decided(s.events, BudgetRejection)
    && s.validationErrors == Decided(s.events, ValidationError)
    && s.sourceFailures == Decided(s.events, SourceFailure)
    && s.toolErrors == Decided(s.events, ToolError)
    && s.successful == Decided(s.events, Success)
  }

  /** Among the first n events, a successful call with this fingerprint returned this content. */
  ghost predicate Retrieved(es: seq<Event>, n: nat, f: Fingerprint, content: string)
    requires n <= |es|
  {
    exists i :: 0 <= i < n && es[i].outcome == Success && FingerprintOf(es[i].call) == f && es[i].content == Some(content)
  }

  ghost predicate HitsAreEvidence(es: seq<Event>)
  {
    forall k :: 0 <= k < |es| && es[k].outcome == CacheHit ==>
      es[k].content.Some? && Retrieved(es, k, FingerprintOf(es[k].call), es[k].content.value)
  }

  ghost predicate CacheIsEvidence(s: System)
  {
    && (forall f :: f in s.ledger.results ==> Retrieved(s.ledger.events, |s.ledger.events|, f, s.ledger.results[f]))
    && (forall t :: 0 <= t < |s.threads| && s.threads[t].pc.Looked? && s.threads[t].pc.cached.Some? ==>
          Retrieved(s.ledger.events, |s.ledger.events|, FingerprintOf(s.threads[t].call), s.threads[t].pc.cached.value))
    && HitsAreEvidence(s.ledger.events)
  }

  ghost predicate Accounted(s: System)
  {
    && 0 <= s.ledger.used <= s.ledger.limit
    && s.ledger.used == s.ledger.successful + s.ledger.sourceFailures + s.ledger.toolErrors + Holding(s.threads)
    && s.ledger.attempted == |s.ledger.events| + Pending(s.threads)
    && CountersMatch(s.ledger)
  }

  lemma RecordKeepsCounters(s: Ledger, c: Call, o: Outcome, content: Option<string>)
    ensures var es := Record(s, c, o, content).events;
            forall p: Outcome :: Decided(es, p) == Decided(s.events, p) + if p == o then 1 else 0
  {
    forall p: Outcome
      ensures Decided(Record(s, c, o, content).events, p) == Decided(s.events, p) + if p == o then 1 else 0
    {
      DecidedAppend(s.events, Event(c, o, content), p);
    }
  }

  /** A step that only moves one call, keeping what it holds and owes. */
  lemma MoveKeepsAccounts(s: System, t: nat, pc: Pc)
    requires Accounted(s) && t < |s.threads|
    requires s.threads[t].pc != Done && pc != Done && Holds(pc) == Holds(s.threads[t].pc)
    ensures Accounted(s.(threads := At(s, t, pc)))
  {
    ThreadMoves(s.threads, t, At(s, t, pc)[t]);
  }

  lemma GrantKeepsAccounts(s: System, t: nat)
    requires Accounted(s) && t < |s.threads| && s.threads[t].pc.Looked? && Granted(s.ledger)
    ensures Accounted(Settled(s, t, Reserved(s.ledger, s.threads[t].call), InFlight))
  {
    ThreadMoves(s.threads, t, At(s, t, InFlight)[t]);
  }

  function Settled(s: System, t: nat, ledger: Ledger, pc: Pc): System
    requires t < |s.threads|
  {
    System(ledger, At(s, t, pc))
  }

  /** Recording an outcome settles the call, when the counters moved with the event. */
  lemma SettleKeepsAccounts(s: System, t: nat, counted: Ledger, o: Outcome, content: Option<string>)
    requires Accounted(s) && t < |s.threads| && s.threads[t].pc != Done
    requires counted.events == s.ledger.events && counted.attempted == s.ledger.attempted && counted.limit == s.ledger.limit
    requires counted.used == s.ledger.used - (if o == ValidationError then 1 else 0)
    requires counted.cacheHits == s.ledger.cacheHits + (if o == CacheHit then 1 else 0)
    requires counted.rejected == s.ledger.rejected + (if o == BudgetRejection then 1 else 0)
    requires counted.validationErrors == s.ledger.validationErrors + (if o == ValidationError then 1 else 0)
    requires counted.sourceFailures == s.ledger.sourceFailures + (if o == SourceFailure then 1 else 0)
    requires counted.toolErrors == s.ledger.toolErrors + (if o == ToolError then 1 else 0)
    requires counted.successful == s.ledger.successful + (if o == Success then 1 else 0)
    requires Holds(s.threads[t].pc) <==> IsReply(o)
    ensures Accounted(Settled(s, t, Record(counted, s.threads[t].call, o, content), Done))
  {
    ThreadMoves(s.threads, t, At(s, t, Done)[t]);
    RecordKeepsCounters(counted, s.threads[t].call, o, content);
    if Holds(s.threads[t].pc) {
      HolderIsCounted(s.threads, t);
      CountersAreNatural(s.ledger);
    }
  }

  lemma CountersAreNatural(s: Ledger)
    requires CountersMatch(s)
    ensures s.successful >= 0 && s.sourceFailures >= 0 && s.toolErrors >= 0
  {
  }

  lemma HitKeepsAccounts(s: System, t: nat)
    requires Accounted(s) && Enabled(s, RecordHit(t))
    ensures Accounted(Next(s, RecordHit(t)))
  {
    SettleKeepsAccounts(s, t, s.ledger.(cacheHits := s.ledger.cacheHits + 1), CacheHit, Some(s.threads[t].pc.cached.value));
  }

  lemma ReserveKeepsAccounts(s: System, t: nat)
    requires Accounted(s) && Enabled(s, Reserve(t))
    ensures Accounted(Next(s, Reserve(t)))
  {
    if Granted(s.ledger) {
      GrantKeepsAccounts(s, t);
    } else {
      SettleKeepsAccounts(s, t, s.ledger.(rejected := s.ledger.rejected + 1), BudgetRejection, None);
    }
  }

  lemma FinishKeepsAccounts(s: System, t: nat, o: Outcome, content: Option<string>)
    requires Accounted(s) && Enabled(s, Finish(t, o, content))
    ensures Accounted(Next(s, Finish(t, o, content)))
  {
    SettleKeepsAccounts(s, t, Counted(s.ledger, s.threads[t].call, o, content), o, content);
  }

  lemma StepKeepsAccounts(s: System, step: Step)
    requires Accounted(s) && Enabled(s, step)
    ensures Accounted(Next(s, step))
  {
    match step
    case Begin(call) => ThreadsAppend(s.threads, Thread(call, Started));
    case CheckStop(t, stopSet) => MoveKeepsAccounts(s, t, if stopSet then StopSeen else Passed);
    case ReadCache(t) => MoveKeepsAccounts(s, t, Looked(Cached(s.ledger, s.threads[t].call)));
    case Raise(t) => MoveKeepsAccounts(s, t, Raised);
    case RecordStop(t) => SettleKeepsAccounts(s, t, s.ledger, UserStopped, None);
    case RecordHit(t) => HitKeepsAccounts(s, t);
    case Reserve(t) => ReserveKeepsAccounts(s, t);
    case Finish(t, outcome, content) => FinishKeepsAccounts(s, t, outcome, content);
  }

  lemma {:induction false} HolderIsCounted(ts: seq<Thread>, t: nat)
    requires t < |ts| && Holds(ts[t].pc)
    ensures Holding(ts) >= 1
  {
    if t > 0 {
      HolderIsCounted(ts[1..], t - 1);
    }
  }

  lemma RetrievedSurvives(es: seq<Event>, n: nat, e: Event, m: nat, f: Fingerprint, content: string)
    requires n <= |es| && n <= m <= |es| + 1 && Retrieved(es, n, f, content)
    ensures Retrieved(es + [e], m, f, content)
  {
    var i :| 0 <= i < n && es[i].outcome == Success && FingerprintOf(es[i].call) == f && es[i].content == Some(content);
    assert (es + [e])[i] == es[i];
  }

  /** Recording one more event keeps every earlier justification. */
  lemma EventKeepsEvidence(s: System, e: Event)
    requires CacheIsEvidence(s)
    requires e.outcome == CacheHit ==>
      e.content.Some? && Retrieved(s.ledger.events, |s.ledger.events|, FingerprintOf(e.call), e.content.value)
    ensures CacheIsEvidence(s.(ledger := s.ledger.(events := s.ledger.events + [e])))
  {
    var es := s.ledger.events;
    forall f | f in s.ledger.results ensures Retrieved(es + [e], |es| + 1, f, s.ledger.results[f]) {
      RetrievedSurvives(es, |es|, e, |es| + 1, f, s.ledger.results[f]);
    }
    forall t | 0 <= t < |s.threads| && s.threads[t].pc.Looked? && s.threads[t].pc.cached.Some?
      ensures Retrieved(es + [e], |es| + 1, FingerprintOf(s.threads[t].call), s.threads[t].pc.cached.value)
    {
      RetrievedSurvives(es, |es|, e, |es| + 1, FingerprintOf(s.threads[t].call), s.threads[t].pc.cached.value);
    }
    forall k | 0 <= k < |es + [e]| && (es + [e])[k].outcome == CacheHit
      ensures (es + [e])[k].content.Some?
           && Retrieved(es + [e], k, FingerprintOf((es + [e])[k].call), (es + [e])[k].content.value)
    {
      var hit := (es + [e])[k];
      if k < |es| {
        assert hit == es[k];
      }
      RetrievedSurvives(es, k, e, k, FingerprintOf(hit.call), hit.content.value);
    }
  }

  lemma StepKeepsEvidence(s: System, step: Step)
    requires CacheIsEvidence(s) && Enabled(s, step)
    ensures CacheIsEvidence(Next(s, step))
  {
    match step
    case Begin(_) =>
    case CheckStop(_, _) =>
    case ReadCache(_) =>
    case Raise(_) =>
    case RecordStop(t) => EventKeepsEvidence(s, Event(s.threads[t].call, UserStopped, None));
    case RecordHit(t) =>
      EventKeepsEvidence(s, Event(s.threads[t].call, CacheHit, Some(s.threads[t].pc.cached.value)));
    case Reserve(t) => EventKeepsEvidence(s, Event(s.threads[t].call, BudgetRejection, None));
    case Finish(t, outcome, content) =>
      var e := Event(s.threads[t].call, outcome, content);
      EventKeepsEvidence(s, e);
      var es := s.ledger.events + [e];
      assert es[|es| - 1] == e;
  }

  lemma {:induction false} RunKeepsInvariants(limit: int, steps: seq<Step>)
    requires Run(limit, steps).Some?
    ensures var s := Run(limit, steps).value;
            s.ledger.limit == Max(1, limit) && Accounted(s) && CacheIsEvidence(s)
    decreases |steps|
  {
    if steps != [] {
      var front, last := steps[..|steps| - 1], steps[|steps| - 1];
      RunKeepsInvariants(limit, front);
      var before := Run(limit, front).value;
      StepKeepsAccounts(before, last);
      StepKeepsEvidence(before, last);
    }
  }

  /** Under every interleaving: the cap holds, each unit of budget is accounted for, and each attempt has
      exactly one outcome or is still pending. */
  lemma EveryInterleavingIsAccounted(limit: int, steps: seq<Step>)
    requires Run(limit, steps).Some?
    ensures var s := Run(limit, steps).value;
      && 0 <= s.ledger.used <= Max(1, limit)
      && s.ledger.used == s.ledger.successful + s.ledger.sourceFailures + s.ledger.toolErrors + Holding(s.threads)
      && s.ledger.attempted
         == Decided(s.ledger.events, UserStopped) + s.ledger.cacheHits + s.ledger.rejected + s.ledger.validationErrors
            + s.ledger.sourceFailures + s.ledger.toolErrors + s.ledger.successful + Pending(s.threads)
      && CountersMatch(s.ledger)
  {
    RunKeepsInvariants(limit, steps);
    EveryEventIsDecided(Run(limit, steps).value.ledger.events);
  }

  /** A cache hit never invents evidence: an earlier successful call of the same tool with the same
      arguments returned what it delivers. */
  lemma CacheHitRepeatsEarlierSuccess(limit: int, steps: seq<Step>, k: nat)
    requires Run(limit, steps).Some?
    requires var es := Run(limit, steps).value.ledger.events; k < |es| && es[k].outcome == CacheHit
    ensures var es := Run(limit, steps).value.ledger.events;
            exists i :: 0 <= i < k
              && es[i].outcome == Success
              && es[i].call.name == es[k].call.name && es[i].call.arguments == es[k].call.arguments
              && es[i].content == es[k].content
  {
    RunKeepsInvariants(limit, steps);
  }

  // ---- The object behind the lock ---------------------------------------------------------------

  class ToolCallBudget {
    const limit: int
    var attempted: int
    var used: int
    var successful: int
    var cacheHits: int
    var rejected: int
    var validationErrors: int
    var sourceFailures: int
    var toolErrors: int
    var results: map<Fingerprint, string>
    var outcomes: map<string, Outcome>
    var events: seq<Event>
    var evidence: seq<Event>

    ghost function View(): Ledger
      reads this
    {
      Ledger(limit, attempted, used, successful, cacheHits, rejected, validationErrors, sourceFailures, toolErrors,
             results, outcomes, events, evidence)
    }

    constructor (requested: int)
      ensures View() == Fresh(requested)
    {
      limit := Max(1, requested);
      attempted, used, successful, cacheHits, rejected := 0, 0, 0, 0, 0;
      validationErrors, sourceFailures, toolErrors := 0, 0, 0;
      results, outcomes, events, evidence := map[], map[], [], [];
    }

    method Append(c: Call, o: Outcome, content: Option<string>)
      modifies this`outcomes, this`events
      ensures View() == Record(old(View()), c, o, content)
    {
      outcomes := outcomes[c.id := o];
      events := events + [Event(c, o, content)];
    }

    method Begin()
      modifies this`attempted
      ensures View() == Begun(old(View()))
    {
      attempted := attempted + 1;
    }

    method RecordHit(c: Call, cached: string)
      modifies this`cacheHits, this`outcomes, this`events
      ensures View() == Hit(old(View()), c, cached)
    {
      cacheHits := cacheHits + 1;
      Append(c, CacheHit, Some(cached));
    }

    method Reserve(c: Call) returns (granted: bool)
      modifies this`used, this`rejected, this`outcomes, this`events
      ensures granted == Granted(old(View()))
      ensures View() == Reserved(old(View()), c)
    {
      if used >= limit {
        rejected := rejected + 1;
        Append(c, BudgetRejection, None);
        return false;
      }
      used := used + 1;
      return true;
    }

    method Finish(c: Call, o: Outcome, content: Option<string>)
      requires IsReply(o)
      modifies this
      ensures View() == Finished(old(View()), c, o, content)
    {
      if o == ValidationError {
        used := used - 1;
        validationErrors := validationErrors + 1;
      } else if o == SourceFailure {
        sourceFailures := sourceFailures + 1;
      } else if o == ToolError {
        toolErrors := toolErrors + 1;
      } else {
        successful := successful + 1;
      }
      if o == Success && content.Some? {
        results := results[FingerprintOf(c) := content.value];
        evidence := evidence + [Event(c, o, content)];
      }
      Append(c, o, content);
    }

    /** One undisturbed call: what it delivers and which steps of the interleaving model it takes. */
    method Invoke(c: Call, stopSet: bool, reply: Outcome, content: Option<string>)
        returns (outcome: Outcome, delivered: Option<string>)
      requires IsReply(reply)
      modifies this
      ensures var s := Begun(old(View()));
              if stopSet then
                outcome == UserStopped && View() == Stopped(s, c)
              else if Cached(s, c).Some? then
                outcome == CacheHit && delivered == Cached(s, c) && View() == Hit(s, c, Cached(s, c).value)
              else if !Granted(s) then
                outcome == BudgetRejection && View() == Reserved(s, c)
              else
                outcome == reply && delivered == content && View() == Finished(Reserved(s, c), c, reply, content)
    {
      Begin();
      if stopSet {
        Append(c, UserStopped, None);
        return UserStopped, None;
      }
      if FingerprintOf(c) in results {
        var cached := results[FingerprintOf(c)];
        RecordHit(c, cached);
        return CacheHit, Some(cached);
      }
      var granted := Reserve(c);
      if !granted {
        return BudgetRejection, None;
      }
      Finish(c, reply, content);
      return reply, content;
    }
  }
}
