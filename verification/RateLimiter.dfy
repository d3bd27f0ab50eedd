/**
 The in-process rate limiter in front of every model call: a sliding window held in a deque, and the
 loop that sleeps until the window has room. The window's promise is stated over the history of
 admitted calls, for every sequence of calls that a lock can produce.
 */
module RateLimiter {
  import opened Common

  datatype Entry = Entry(time: real, units: int)

  datatype Limits = Limits(maxUnits: int, period: real, maxWait: real)

  datatype Call = Call(now: real, cost: int)

  datatype Acquisition = Acquired | RateLimited(wait: real)

  // ---- The deque as a value -------------------------------------------------------------------

  function Units(es: seq<Entry>): int
  {
    if es == [] then 0 else es[0].units + Units(es[1..])
  }

  /** Drops expired entries from the front, as the popleft loop does. */
  function Expire(es: seq<Entry>, now: real, period: real): seq<Entry>
  {
    if es != [] && now - es[0].time >= period then Expire(es[1..], now, period) else es
  }

  predicate Admits(es: seq<Entry>, call: Call, lim: Limits)
  {
    var live := Expire(es, call.now, lim.period);
    Units(live) + call.cost <= lim.maxUnits || live == []
  }

  function AfterCall(es: seq<Entry>, call: Call, lim: Limits): seq<Entry>
  {
    var live := Expire(es, call.now, lim.period);
    if Admits(es, call, lim) then live + [Entry(call.now, call.cost)] else live
  }

  function WaitFor(es: seq<Entry>, call: Call, lim: Limits): real
  {
    var live := Expire(es, call.now, lim.period);
    if Admits(es, call, lim) then 0.0 else lim.period - (call.now - live[0].time)
  }

  // ---- Runs: every order in which the lock can serialise calls ---------------------------------

  ghost predicate Chronological(calls: seq<Call>)
  {
    && (forall i :: 0 <= i < |calls| ==> calls[i].cost >= 1)
    && (forall i, j :: 0 <= i < j < |calls| ==> calls[i].now <= calls[j].now)
  }

  /** The deque es after these calls. */
  function DequeFrom(es: seq<Entry>, calls: seq<Call>, lim: Limits): seq<Entry>
  {
    if calls == [] then es
    else AfterCall(DequeFrom(es, calls[..|calls| - 1], lim), calls[|calls| - 1], lim)
  }

  function DequeAfter(calls: seq<Call>, lim: Limits): seq<Entry> { DequeFrom([], calls, lim) }

  /** The history of admitted calls, never forgotten. */
  function Admitted(calls: seq<Call>, lim: Limits): seq<Entry>
  {
    if calls == [] then []
    else
      var before := calls[..|calls| - 1];
      var call := calls[|calls| - 1];
      Admitted(before, lim)
      + if Admits(DequeAfter(before, lim), call, lim) then [Entry(call.now, call.cost)] else []
  }

  /** The admitted calls that fall in the half-open window [from, until). */
  function Within(es: seq<Entry>, from: real, until: real): seq<Entry>
  {
    if es == [] then []
    else (if from <= es[0].time < until then [es[0]] else []) + Within(es[1..], from, until)
  }

  /** The entries younger than the period at time now. */
  function Recent(es: seq<Entry>, now: real, period: real): seq<Entry>
  {
    if es == [] then []
    else (if now - es[0].time < period then [es[0]] else []) + Recent(es[1..], now, period)
  }

  ghost predicate Sorted(es: seq<Entry>)
  {
    forall i, j :: 0 <= i < j < |es| ==> es[i].time <= es[j].time
  }

  ghost predicate Upto(es: seq<Entry>, now: real)
  {
    forall i :: 0 <= i < |es| ==> es[i].time <= now && es[i].units >= 1
  }

  lemma {:induction false} UnitsAppend(es: seq<Entry>, e: Entry)
    ensures Units(es + [e]) == Units(es) + e.units
  {
    if es != [] {
      assert (es + [e])[1..] == es[1..] + [e];
      UnitsAppend(es[1..], e);
    }
  }

  lemma {:induction false} WithinAppend(es: seq<Entry>, e: Entry, from: real, until: real)
    ensures Within(es + [e], from, until) == Within(es, from, until) + if from <= e.time < until then [e] else []
  {
    if es == [] {
      assert (es + [e])[1..] == [];
    } else {
      assert (es + [e])[1..] == es[1..] + [e];
      WithinAppend(es[1..], e, from, until);
    }
  }

  lemma {:induction false} RecentAppend(es: seq<Entry>, e: Entry, now: real, period: real)
    ensures Recent(es + [e], now, period) == Recent(es, now, period) + if now - e.time < period then [e] else []
  {
    if es == [] {
      assert (es + [e])[1..] == [];
    } else {
      assert (es + [e])[1..] == es[1..] + [e];
      RecentAppend(es[1..], e, now, period);
    }
  }

  /** On a chronological deque, dropping from the front removes exactly the expired entries. */
  lemma {:induction false} ExpireIsRecent(es: seq<Entry>, now: real, period: real)
    requires Sorted(es)
    ensures Expire(es, now, period) == Recent(es, now, period)
  {
    if es != [] {
      ExpireIsRecent(es[1..], now, period);
      if now - es[0].time < period && |es| > 1 {
        assert es[1].time >= es[0].time;
        assert Expire(es[1..], now, period) == es[1..];
      }
    }
  }

  /** What expired once stays expired. */
  lemma {:induction false} RecentOfRecent(es: seq<Entry>, now: real, later: real, period: real)
    requires now <= later
    ensures Recent(Recent(es, now, period), later, period) == Recent(es, later, period)
  {
    if es != [] {
      RecentOfRecent(es[1..], now, later, period);
      var tail := Recent(es[1..], now, period);
      if now - es[0].time < period {
        assert ([es[0]] + tail)[1..] == tail;
      } else {
        assert [] + tail == tail;
      }
    }
  }

  lemma {:induction false} RecentSorted(es: seq<Entry>, now: real, period: real)
    requires Sorted(es)
    ensures Sorted(Recent(es, now, period))
    ensures forall e :: e in Recent(es, now, period) ==> e in es
  {
    if es != [] {
      RecentSorted(es[1..], now, period);
      var tail := Recent(es[1..], now, period);
      forall i | 0 <= i < |tail| ensures es[0].time <= tail[i].time {
        assert tail[i] in es[1..];
      }
    }
  }

  /** The deque holds exactly the admitted calls of the last period. */
  lemma {:induction false} DequeIsRecentHistory(calls: seq<Call>, lim: Limits)
    requires Chronological(calls) && lim.period > 0.0
    ensures Sorted(Admitted(calls, lim))
    ensures calls != [] ==> Upto(Admitted(calls, lim), calls[|calls| - 1].now)
    ensures calls != [] ==>
      DequeAfter(calls, lim) == Recent(Admitted(calls, lim), calls[|calls| - 1].now, lim.period)
  {
    if calls != [] {
      var before := calls[..|calls| - 1];
      var call := calls[|calls| - 1];
      DequeIsRecentHistory(before, lim);
      var history := Admitted(before, lim);
      LiveIsRecent(before, call, lim);
      if before != [] {
        assert before[|before| - 1].now <= call.now;
      }
      RecentAppend(history, Entry(call.now, call.cost), call.now, lim.period);
      assert history + [] == history;
    }
  }

  lemma {:induction false} LiveIsRecent(before: seq<Call>, call: Call, lim: Limits)
    requires before != [] ==> before[|before| - 1].now <= call.now
    requires Sorted(Admitted(before, lim))
    requires before != [] ==>
      DequeAfter(before, lim) == Recent(Admitted(before, lim), before[|before| - 1].now, lim.period)
    ensures Expire(DequeAfter(before, lim), call.now, lim.period)
         == Recent(Admitted(before, lim), call.now, lim.period)
  {
    if before != [] {
      var last := before[|before| - 1].now;
      RecentSorted(Admitted(before, lim), last, lim.period);
      ExpireIsRecent(DequeAfter(before, lim), call.now, lim.period);
      RecentOfRecent(Admitted(before, lim), last, call.now, lim.period);
    }
  }

  /** Every window that contains now holds no more than what is still live at now. */
  lemma {:induction false} WindowInsideRecent(es: seq<Entry>, from: real, now: real, period: real)
    requires Upto(es, now) && from <= now < from + period
    ensures Units(Within(es, from, from + period)) <= Units(Recent(es, now, period))
    ensures |Within(es, from, from + period)| <= |Recent(es, now, period)|
  {
    if es != [] {
      WindowInsideRecent(es[1..], from, now, period);
      var w, r := Within(es[1..], from, from + period), Recent(es[1..], now, period);
      assert ([es[0]] + w)[1..] == w && ([es[0]] + r)[1..] == r;
      assert [] + w == w && [] + r == r;
    }
  }

  lemma {:induction false} EmptyWindow(es: seq<Entry>, from: real, until: real)
    requires until <= from
    ensures Within(es, from, until) == []
  {
    if es != [] {
      EmptyWindow(es[1..], from, until);
    }
  }

  lemma AdmissionKeepsWindow(history: seq<Entry>, e: Entry, from: real, lim: Limits)
    requires Upto(history, e.time)
    requires var live := Recent(history, e.time, lim.period);
             Units(live) + e.units <= lim.maxUnits || live == []
    requires var w := Within(history, from, from + lim.period);
             |w| <= 1 || Units(w) <= lim.maxUnits
    ensures var w := Within(history + [e], from, from + lim.period);
            |w| <= 1 || Units(w) <= lim.maxUnits
  {
    var until := from + lim.period;
    WithinAppend(history, e, from, until);
    if from <= e.time < until {
      WindowInsideRecent(history, from, e.time, lim.period);
      UnitsAppend(Within(history, from, until), e);
    } else {
      assert Within(history, from, until) + [] == Within(history, from, until);
    }
  }

  /** The limiter's promise: over any run of calls, each window of one period admits at most
      maxUnits, except that a single call may be alone in it whatever it costs. */
  lemma {:induction false} SlidingWindowBound(calls: seq<Call>, lim: Limits, from: real)
    requires Chronological(calls)
    ensures var w := Within(Admitted(calls, lim), from, from + lim.period);
            |w| <= 1 || Units(w) <= lim.maxUnits
  {
    if lim.period <= 0.0 {
      EmptyWindow(Admitted(calls, lim), from, from + lim.period);
    } else if calls != [] {
      var before := calls[..|calls| - 1];
      var call := calls[|calls| - 1];
      SlidingWindowBound(before, lim, from);
      DequeIsRecentHistory(before, lim);
      var history := Admitted(before, lim);
      var e := Entry(call.now, call.cost);
      if Admits(DequeAfter(before, lim), call, lim) {
        LiveIsRecent(before, call, lim);
        AdmissionKeepsWindow(history, e, from, lim);
      } else {
        assert history + [] == history;
      }
    }
  }

  /** A call is turned away exactly when it is told to wait a positive time. */
  lemma WaitMeansRefused(es: seq<Entry>, call: Call, lim: Limits)
    requires Sorted(es) && Upto(es, call.now)
    ensures !Admits(es, call, lim) <==> WaitFor(es, call, lim) > 0.0
    ensures WaitFor(es, call, lim) <= Max0(lim.period)
  {
    ExpireKeeps(es, call.now, lim.period);
  }

  function Max0(x: real): real { MaxReal(x, 0.0) }

  lemma {:induction false} ExpireKeeps(es: seq<Entry>, now: real, period: real)
    requires Sorted(es) && Upto(es, now)
    ensures var live := Expire(es, now, period);
            && Sorted(live) && Upto(live, now) && |live| <= |es|
            && (live != [] ==> now - live[0].time < period)
            && (live != es ==> |live| < |es|)
  {
    if es != [] {
      ExpireKeeps(es[1..], now, period);
    }
  }

  // ---- The limiter object ---------------------------------------------------------------------

  /** The monotonic clock. Reading it may find that any time has passed; sleeping is exact. */
  class MonotonicClock {
    var now: real
    var slept: real

    method Read() returns (t: real)
      modifies this
      ensures t == now >= old(now) && slept == old(slept)
    {
      var delay: real :| delay >= 0.0;
      now := now + delay;
      t := now;
    }

    method Sleep(seconds: real)
      requires seconds >= 0.0
      modifies this
      ensures now == old(now) + seconds && slept == old(slept) + seconds
    {
      now := now + seconds;
      slept := slept + seconds;
    }
  }

  class LLMRateLimiter {
    const lim: Limits
    var entries: seq<Entry>

    constructor (maxUnits: int, period: real, maxWait: real)
      ensures lim == Limits(maxUnits, period, maxWait) && entries == []
    {
      lim := Limits(maxUnits, period, maxWait);
      entries := [];
    }

    ghost predicate Valid(now: real)
      reads this
    {
      Sorted(entries) && Upto(entries, now)
    }

    method LocalWait(cost: int, now: real) returns (wait: real)
      requires Valid(now) && cost >= 1
      modifies this
      ensures Valid(now)
      ensures entries == AfterCall(old(entries), Call(now, cost), lim)
      ensures wait == WaitFor(old(entries), Call(now, cost), lim)
    {
      ExpireKeeps(entries, now, lim.period);
      while entries != [] && now - entries[0].time >= lim.period
        invariant Expire(entries, now, lim.period) == Expire(old(entries), now, lim.period)
        decreases |entries|
      {
        entries := entries[1..];
      }
      var spent := Units(entries);
      if spent + cost <= lim.maxUnits || entries == [] {
        entries := entries + [Entry(now, cost)];
        return 0.0;
      }
      return lim.period - (now - entries[0].time);
    }

    /** Waits for room. When the caller is willing to wait one whole period it is always served,
        having slept for less than a period and one twentieth of a second. calls are the askings at the window. */
    method Acquire(cost: int, clock: MonotonicClock) returns (r: Acquisition, ghost calls: seq<Call>)
      requires Valid(clock.now)
      modifies this, clock
      ensures Valid(clock.now)
      // Every asking but the last was refused with a wait the caller accepts, and the next one comes after it.
      ensures AskedInTurn(old(entries), calls, Max(cost, 1), lim) && calls != []
      ensures old(clock.now) <= calls[0].now && calls[|calls| - 1].now == clock.now
      ensures entries == DequeFrom(old(entries), calls, lim)
      // The last one is admitted, or refused with a wait that is too long.
      ensures var last := |calls| - 1;
        var before := DequeFrom(old(entries), calls[..last], lim);
        r == if Admits(before, calls[last], lim) then Acquired else RateLimited(WaitFor(before, calls[last], lim))
      ensures r.RateLimited? ==> lim.maxWait < r.wait <= lim.period
      ensures lim.maxWait >= lim.period ==> r.Acquired?
      ensures clock.slept == old(clock.slept) || clock.slept - old(clock.slept) < lim.period + 0.05
    {
      var units := Max(cost, 1);
      ghost var start := clock.now;
      calls := [];
      while true
        invariant Valid(start) && start == old(clock.now) <= clock.now
        invariant AskedInTurn(old(entries), calls, units, lim) && entries == DequeFrom(old(entries), calls, lim)
        invariant calls != [] ==> start <= calls[0].now && Patient(old(entries), calls, |calls| - 1, clock.now, lim)
        invariant clock.slept - old(clock.slept) <= clock.now - start
        invariant calls == [] ==> clock.slept == old(clock.slept)
        invariant calls != [] ==> entries != [] && clock.now - entries[0].time >= lim.period
        invariant calls != [] ==> clock.slept - old(clock.slept) < lim.period + 0.05
        decreases |entries| + (if calls == [] then 1 else 0)
      {
        var now := clock.Read();
        WaitMeansRefused(entries, Call(now, units), lim);
        ExpireKeeps(entries, now, lim.period);
        ExpireKeeps(entries, start, lim.period);
        ghost var before := entries;
        ghost var earlier := calls;
        var wait := LocalWait(units, now);
        calls := calls + [Call(now, units)];
        OneMoreAsking(old(entries), earlier, Call(now, units), lim);
        if wait <= 0.0 {
          return Acquired, calls;
        }
        ExpireUpto(before, start, now, lim.period);
        if wait > lim.maxWait {
          return RateLimited(wait), calls;
        }
        clock.Sleep(MaxReal(wait, 0.05));
      }
    }
  }

  /** The i-th asking was refused, with a wait the caller accepts and that is over at until. */
  ghost predicate Patient(es: seq<Entry>, calls: seq<Call>, i: nat, until: real, lim: Limits)
    requires i < |calls|
  {
    var before := DequeFrom(es, calls[..i], lim);
    var wait := WaitFor(before, calls[i], lim);
    !Admits(before, calls[i], lim) && wait <= lim.maxWait && calls[i].now + MaxReal(wait, 0.05) <= until
  }

  ghost predicate AskedInTurn(es: seq<Entry>, calls: seq<Call>, units: int, lim: Limits)
  {
    && (forall i :: 0 <= i < |calls| ==> calls[i].cost == units)
    && (forall i :: 0 <= i < |calls| - 1 ==> NextInTurn(es, calls, i, lim))
  }

  ghost predicate NextInTurn(es: seq<Entry>, calls: seq<Call>, i: nat, lim: Limits)
    requires i + 1 < |calls|
  {
    Patient(es, calls, i, calls[i + 1].now, lim)
  }

  lemma OneMoreAsking(es: seq<Entry>, calls: seq<Call>, call: Call, lim: Limits)
    requires AskedInTurn(es, calls, call.cost, lim)
    requires calls != [] ==> Patient(es, calls, |calls| - 1, call.now, lim)
    ensures AskedInTurn(es, calls + [call], call.cost, lim)
    ensures (calls + [call])[..|calls|] == calls
    ensures DequeFrom(es, calls + [call], lim) == AfterCall(DequeFrom(es, calls, lim), call, lim)
  {
    var more := calls + [call];
    assert more[..|calls|] == calls;
    forall i | 0 <= i < |more| - 1 ensures NextInTurn(es, more, i, lim) {
      assert more[..i] == calls[..i] && more[i] == calls[i];
      assert i < |calls| - 1 ==> NextInTurn(es, calls, i, lim);
      if i < |calls| - 1 {
        assert more[i + 1] == calls[i + 1];
      }
    }
  }

  lemma {:induction false} ExpireUpto(es: seq<Entry>, start: real, now: real, period: real)
    requires Sorted(es) && Upto(es, start)
    ensures Sorted(Expire(es, now, period)) && Upto(Expire(es, now, period), start)
  {
    if es != [] {
      ExpireUpto(es[1..], start, now, period);
    }
  }
}
