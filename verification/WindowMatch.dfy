/**
 The authentication classifier's window test: a scan anchored at each alert in time order, refined to
 the statement an analyst would make, that some interval of the given length holds enough evidence.
 */
module WindowMatch {
  import opened Common

  datatype Alert = Alert(
    id: string,
    timestamp: int,
    sourceIp: Option<string>,
    asset: Option<string>,
    targetUser: Option<string>)

  datatype Thresholds = Thresholds(window: int, attempts: int, events: int, users: int)

  /** Attempts recorded per alert id; an alert without a record counts once. */
  type AttemptCounts = map<string, int>

  ghost predicate AtLeastOne(counts: AttemptCounts)
  {
    forall id :: id in counts ==> counts[id] >= 1
  }

  function AttemptsOf(a: Alert, counts: AttemptCounts): int
  {
    if a.id in counts then counts[a.id] else 1
  }

  function Attempts(alerts: seq<Alert>, counts: AttemptCounts): int
  {
    if alerts == [] then 0 else AttemptsOf(alerts[0], counts) + Attempts(alerts[1..], counts)
  }

  function UsersOf(a: Alert): set<string>
  {
    if a.targetUser.Some? && a.targetUser.value != "" then {a.targetUser.value} else {}
  }

  function Users(alerts: seq<Alert>): set<string>
  {
    if alerts == [] then {} else UsersOf(alerts[0]) + Users(alerts[1..])
  }

  predicate Meets(alerts: seq<Alert>, counts: AttemptCounts, th: Thresholds)
  {
    && Attempts(alerts, counts) >= th.attempts
    && |alerts| >= th.events
    && |Users(alerts)| >= th.users
  }

  // ---- The scan as the code runs it -----------------------------------------------------------

  function Insert(a: Alert, sorted: seq<Alert>): seq<Alert>
  {
    if sorted == [] || a.timestamp <= sorted[0].timestamp then [a] + sorted
    else [sorted[0]] + Insert(a, sorted[1..])
  }

  /** Stable order by timestamp. */
  function SortByTime(alerts: seq<Alert>): seq<Alert>
  {
    if alerts == [] then [] else Insert(alerts[0], SortByTime(alerts[1..]))
  }

  function NotLaterThan(alerts: seq<Alert>, limit: int): seq<Alert>
  {
    if alerts == [] then []
    else (if alerts[0].timestamp <= limit then [alerts[0]] else []) + NotLaterThan(alerts[1..], limit)
  }

  predicate AnchorMatches(ordered: seq<Alert>, index: nat, counts: AttemptCounts, th: Thresholds)
    requires index < |ordered|
  {
    Meets(NotLaterThan(ordered[index..], ordered[index].timestamp + th.window), counts, th)
  }

  predicate WindowMatches(alerts: seq<Alert>, counts: AttemptCounts, th: Thresholds)
  {
    var ordered := SortByTime(alerts);
    exists index :: 0 <= index < |ordered| && AnchorMatches(ordered, index, counts, th)
  }

  // ---- The interval specification ---------------------------------------------------------------

  /** The alerts of the closed interval [from, until], in whatever order they came. */
  function Between(alerts: seq<Alert>, from: int, until: int): seq<Alert>
  {
    if alerts == [] then []
    else (if from <= alerts[0].timestamp <= until then [alerts[0]] else []) + Between(alerts[1..], from, until)
  }

  predicate IntervalMeets(alerts: seq<Alert>, from: int, counts: AttemptCounts, th: Thresholds)
  {
    Meets(Between(alerts, from, from + th.window), counts, th)
  }

  ghost predicate SomeIntervalMeets(alerts: seq<Alert>, counts: AttemptCounts, th: Thresholds)
  {
    exists from :: IntervalMeets(alerts, from, counts, th)
  }

  // ---- Order does not matter --------------------------------------------------------------------

  ghost predicate SameTotals(a: seq<Alert>, b: seq<Alert>, counts: AttemptCounts)
  {
    Attempts(a, counts) == Attempts(b, counts) && |a| == |b| && Users(a) == Users(b)
  }

  lemma {:induction false} BetweenConcat(a: seq<Alert>, b: seq<Alert>, from: int, until: int)
    ensures Between(a + b, from, until) == Between(a, from, until) + Between(b, from, until)
  {
    if a == [] {
      assert a + b == b;
    } else {
      assert (a + b)[1..] == a[1..] + b;
      BetweenConcat(a[1..], b, from, until);
    }
  }

  lemma {:induction false} TotalsConcat(a: seq<Alert>, b: seq<Alert>, counts: AttemptCounts)
    ensures Attempts(a + b, counts) == Attempts(a, counts) + Attempts(b, counts)
    ensures Users(a + b) == Users(a) + Users(b)
  {
    if a == [] {
      assert a + b == b;
    } else {
      assert (a + b)[1..] == a[1..] + b;
      TotalsConcat(a[1..], b, counts);
    }
  }

  /** Rearranging alerts changes neither what an interval holds nor its totals. */
  lemma {:induction false} PermutationKeepsTotals(
    a: seq<Alert>, b: seq<Alert>, counts: AttemptCounts, from: int, until: int)
    requires multiset(a) == multiset(b)
    ensures SameTotals(Between(a, from, until), Between(b, from, until), counts)
    decreases |a|
  {
    if a == [] {
      assert |multiset(b)| == 0;
      assert b == [];
    } else {
      var x := a[0];
      var i := PermutationFind(a, b);
      var rest := b[..i] + b[i + 1..];
      PermutationTail(a, b, i);
      PermutationKeepsTotals(a[1..], rest, counts, from, until);
      MoveToFront(b, i, counts, from, until);
      FrontTotals(x, a[1..], rest, counts, from, until);
      assert a == [x] + a[1..];
    }
  }

  lemma MoveToFront(b: seq<Alert>, i: nat, counts: AttemptCounts, from: int, until: int)
    requires i < |b|
    ensures SameTotals(Between([b[i]] + (b[..i] + b[i + 1..]), from, until), Between(b, from, until), counts)
  {
    var before, x, after := b[..i], [b[i]], b[i + 1..];
    assert b == before + (x + after);
    BetweenConcat(before, x + after, from, until);
    BetweenConcat(x, after, from, until);
    BetweenConcat(x, before + after, from, until);
    BetweenConcat(before, after, from, until);
    SwapTotals(Between(before, from, until), Between(x, from, until), Between(after, from, until), counts);
  }

  lemma SwapTotals(p: seq<Alert>, q: seq<Alert>, r: seq<Alert>, counts: AttemptCounts)
    ensures SameTotals(q + (p + r), p + (q + r), counts)
  {
    TotalsConcat(q, p + r, counts);
    TotalsConcat(p, r, counts);
    TotalsConcat(p, q + r, counts);
    TotalsConcat(q, r, counts);
  }

  lemma FrontTotals(x: Alert, a: seq<Alert>, b: seq<Alert>, counts: AttemptCounts, from: int, until: int)
    requires SameTotals(Between(a, from, until), Between(b, from, until), counts)
    ensures SameTotals(Between([x] + a, from, until), Between([x] + b, from, until), counts)
  {
    BetweenConcat([x], a, from, until);
    BetweenConcat([x], b, from, until);
    TotalsConcat(Between([x], from, until), Between(a, from, until), counts);
    TotalsConcat(Between([x], from, until), Between(b, from, until), counts);
  }

  ghost predicate InTimeOrder(alerts: seq<Alert>)
  {
    forall i, j :: 0 <= i < j < |alerts| ==> alerts[i].timestamp <= alerts[j].timestamp
  }

  lemma {:induction false} InsertSorts(a: Alert, sorted: seq<Alert>)
    requires InTimeOrder(sorted)
    ensures InTimeOrder(Insert(a, sorted))
    ensures multiset(Insert(a, sorted)) == multiset(sorted) + multiset{a}
  {
    if sorted == [] || a.timestamp <= sorted[0].timestamp {
    } else {
      InsertSorts(a, sorted[1..]);
      assert sorted == [sorted[0]] + sorted[1..];
      var tail := Insert(a, sorted[1..]);
      forall i | 0 <= i < |tail| ensures sorted[0].timestamp <= tail[i].timestamp {
        assert tail[i] in multiset(tail);
        assert tail[i] in multiset(sorted[1..]) + multiset{a};
      }
    }
  }

  lemma {:induction false} SortByTimeSorts(alerts: seq<Alert>)
    ensures InTimeOrder(SortByTime(alerts))
    ensures multiset(SortByTime(alerts)) == multiset(alerts)
  {
    if alerts != [] {
      SortByTimeSorts(alerts[1..]);
      InsertSorts(alerts[0], SortByTime(alerts[1..]));
      assert alerts == [alerts[0]] + alerts[1..];
    }
  }

  // ---- The refinement ---------------------------------------------------------------------------

  /** From an anchor whose predecessors are all strictly earlier, the scan's window is the interval. */
  lemma {:induction false} AnchorWindowIsInterval(ordered: seq<Alert>, from: int, until: int)
    requires forall i :: 0 <= i < |ordered| ==> from <= ordered[i].timestamp
    ensures NotLaterThan(ordered, until) == Between(ordered, from, until)
  {
    if ordered != [] {
      AnchorWindowIsInterval(ordered[1..], from, until);
    }
  }

  /** More alerts never lower a total when every alert counts at least once. */
  lemma {:induction false} WiderIntervalHasMore(
    alerts: seq<Alert>, counts: AttemptCounts, from: int, until: int, from': int, until': int)
    requires AtLeastOne(counts)
    requires forall i :: 0 <= i < |alerts| && from <= alerts[i].timestamp <= until
               ==> from' <= alerts[i].timestamp <= until'
    ensures var narrow, wide := Between(alerts, from, until), Between(alerts, from', until');
            && Attempts(narrow, counts) <= Attempts(wide, counts)
            && |narrow| <= |wide|
            && Users(narrow) <= Users(wide)
  {
    if alerts != [] {
      WiderIntervalHasMore(alerts[1..], counts, from, until, from', until');
      var n, w := Between(alerts[1..], from, until), Between(alerts[1..], from', until');
      assert ([alerts[0]] + n)[1..] == n && ([alerts[0]] + w)[1..] == w;
      assert [] + n == n && [] + w == w;
    }
  }

  lemma {:induction false} SuffixHasMore(prefix: seq<Alert>, suffix: seq<Alert>, counts: AttemptCounts, from: int, until: int)
    requires AtLeastOne(counts)
    ensures var part, all := Between(suffix, from, until), Between(prefix + suffix, from, until);
            && Attempts(part, counts) <= Attempts(all, counts)
            && |part| <= |all|
            && Users(part) <= Users(all)
  {
    BetweenConcat(prefix, suffix, from, until);
    TotalsConcat(Between(prefix, from, until), Between(suffix, from, until), counts);
    AttemptsNonNegative(Between(prefix, from, until), counts);
  }

  lemma {:induction false} AttemptsNonNegative(alerts: seq<Alert>, counts: AttemptCounts)
    requires AtLeastOne(counts)
    ensures Attempts(alerts, counts) >= |alerts|
  {
    if alerts != [] {
      AttemptsNonNegative(alerts[1..], counts);
    }
  }

  lemma {:induction false} EmptyBeforeAnchor(prefix: seq<Alert>, from: int, until: int)
    requires forall i :: 0 <= i < |prefix| ==> prefix[i].timestamp < from
    ensures Between(prefix, from, until) == []
  {
    if prefix != [] {
      EmptyBeforeAnchor(prefix[1..], from, until);
    }
  }

  lemma {:induction false} BetweenNonEmpty(alerts: seq<Alert>, from: int, until: int)
    requires Between(alerts, from, until) != []
    ensures exists i :: 0 <= i < |alerts| && from <= alerts[i].timestamp <= until
  {
    if !(from <= alerts[0].timestamp <= until) {
      assert Between(alerts, from, until) == Between(alerts[1..], from, until);
      BetweenNonEmpty(alerts[1..], from, until);
      var i :| 0 <= i < |alerts[1..]| && from <= alerts[1..][i].timestamp <= until;
      assert alerts[i + 1] == alerts[1..][i];
    }
  }

  lemma MoreStillMeets(part: seq<Alert>, all: seq<Alert>, counts: AttemptCounts, th: Thresholds)
    requires Meets(part, counts, th)
    requires Attempts(part, counts) <= Attempts(all, counts) && |part| <= |all| && Users(part) <= Users(all)
    ensures Meets(all, counts, th)
  {
    SubsetSize(Users(part), Users(all));
  }

  lemma AnchorGivesInterval(ordered: seq<Alert>, index: nat, counts: AttemptCounts, th: Thresholds)
    requires InTimeOrder(ordered) && AtLeastOne(counts)
    requires index < |ordered| && AnchorMatches(ordered, index, counts, th)
    ensures IntervalMeets(ordered, ordered[index].timestamp, counts, th)
  {
    var from := ordered[index].timestamp;
    var until := from + th.window;
    var prefix, suffix := ordered[..index], ordered[index..];
    AnchorWindowIsInterval(suffix, from, until);
    assert ordered == prefix + suffix;
    SuffixHasMore(prefix, suffix, counts, from, until);
    MoreStillMeets(Between(suffix, from, until), Between(ordered, from, until), counts, th);
  }

  /** The first alert not before the interval's start. */
  lemma FirstNotBefore(ordered: seq<Alert>, from: int, until: int) returns (index: nat)
    requires Between(ordered, from, until) != []
    ensures index < |ordered| && ordered[index].timestamp >= from
    ensures forall i :: 0 <= i < index ==> ordered[i].timestamp < from
  {
    BetweenNonEmpty(ordered, from, until);
    index := 0;
    while ordered[index].timestamp < from
      invariant index < |ordered|
      invariant forall i :: 0 <= i < index ==> ordered[i].timestamp < from
      decreases |ordered| - index
    {
      index := index + 1;
    }
  }

  /** The first alert of a qualifying interval anchors a qualifying scan window. */
  lemma IntervalGivesAnchor(ordered: seq<Alert>, from: int, counts: AttemptCounts, th: Thresholds)
      returns (index: nat)
    requires InTimeOrder(ordered) && AtLeastOne(counts) && th.events >= 1
    requires IntervalMeets(ordered, from, counts, th)
    ensures index < |ordered| && AnchorMatches(ordered, index, counts, th)
  {
    index := FirstNotBefore(ordered, from, from + th.window);
    SuffixHoldsInterval(ordered, index, from, from + th.window);
    LaterAnchorMeets(ordered[index..], from, counts, th);
  }

  lemma SuffixHoldsInterval(ordered: seq<Alert>, index: nat, from: int, until: int)
    requires index <= |ordered|
    requires forall i :: 0 <= i < index ==> ordered[i].timestamp < from
    ensures Between(ordered, from, until) == Between(ordered[index..], from, until)
  {
    assert ordered == ordered[..index] + ordered[index..];
    BetweenConcat(ordered[..index], ordered[index..], from, until);
    EmptyBeforeAnchor(ordered[..index], from, until);
    assert [] + Between(ordered[index..], from, until) == Between(ordered[index..], from, until);
  }

  lemma LaterAnchorMeets(suffix: seq<Alert>, from: int, counts: AttemptCounts, th: Thresholds)
    requires AtLeastOne(counts) && suffix != [] && from <= suffix[0].timestamp
    requires forall i :: 0 <= i < |suffix| ==> suffix[0].timestamp <= suffix[i].timestamp
    requires Meets(Between(suffix, from, from + th.window), counts, th)
    ensures Meets(NotLaterThan(suffix, suffix[0].timestamp + th.window), counts, th)
  {
    var anchor, until := suffix[0].timestamp, from + th.window;
    WiderIntervalHasMore(suffix, counts, from, until, anchor, anchor + th.window);
    AnchorWindowIsInterval(suffix, anchor, anchor + th.window);
    MoreStillMeets(Between(suffix, from, until), Between(suffix, anchor, anchor + th.window), counts, th);
  }

  /** The scan finds a match exactly when some interval of the window's length meets the thresholds. */
  lemma WindowMatchesIffInterval(alerts: seq<Alert>, counts: AttemptCounts, th: Thresholds)
    requires AtLeastOne(counts) && th.events >= 1
    ensures WindowMatches(alerts, counts, th) <==> SomeIntervalMeets(alerts, counts, th)
  {
    var ordered := SortByTime(alerts);
    SortByTimeSorts(alerts);
    if WindowMatches(alerts, counts, th) {
      var index :| 0 <= index < |ordered| && AnchorMatches(ordered, index, counts, th);
      AnchorGivesInterval(ordered, index, counts, th);
      IntervalIgnoresOrder(ordered, alerts, ordered[index].timestamp, counts, th);
    }
    if SomeIntervalMeets(alerts, counts, th) {
      var from :| IntervalMeets(alerts, from, counts, th);
      IntervalIgnoresOrder(ordered, alerts, from, counts, th);
      var index := IntervalGivesAnchor(ordered, from, counts, th);
    }
  }

  lemma IntervalIgnoresOrder(a: seq<Alert>, b: seq<Alert>, from: int, counts: AttemptCounts, th: Thresholds)
    requires multiset(a) == multiset(b)
    ensures IntervalMeets(a, from, counts, th) == IntervalMeets(b, from, counts, th)
  {
    PermutationKeepsTotals(a, b, counts, from, from + th.window);
  }

  /** The verdict does not depend on the order in which alerts arrived. */
  lemma WindowMatchesIgnoresOrder(a: seq<Alert>, b: seq<Alert>, counts: AttemptCounts, th: Thresholds)
    requires AtLeastOne(counts) && th.events >= 1 && multiset(a) == multiset(b)
    ensures WindowMatches(a, counts, th) == WindowMatches(b, counts, th)
  {
    WindowMatchesIffInterval(a, counts, th);
    WindowMatchesIffInterval(b, counts, th);
    forall from: int
      ensures IntervalMeets(a, from, counts, th) == IntervalMeets(b, from, counts, th)
    {
      IntervalIgnoresOrder(a, b, from, counts, th);
    }
  }

  /** Further alerts never retract a match. */
  lemma WindowMatchesIsMonotone(alerts: seq<Alert>, more: seq<Alert>, counts: AttemptCounts, th: Thresholds)
    requires AtLeastOne(counts) && th.events >= 1
    requires WindowMatches(alerts, counts, th)
    ensures WindowMatches(more + alerts, counts, th)
  {
    WindowMatchesIffInterval(alerts, counts, th);
    WindowMatchesIffInterval(more + alerts, counts, th);
    var from :| IntervalMeets(alerts, from, counts, th);
    SuffixHasMore(more, alerts, counts, from, from + th.window);
    MoreStillMeets(Between(alerts, from, from + th.window), Between(more + alerts, from, from + th.window), counts, th);
    assert IntervalMeets(more + alerts, from, counts, th);
  }

  // ---- Grouping ---------------------------------------------------------------------------------

  datatype SshPolicy = SshPolicy(
    bruteForceMinFailures: int, bruteForceMinEvents: int, bruteForceWindow: int,
    sprayMinUsers: int, sprayMinFailures: int, sprayWindow: int)
  {
    function SprayThresholds(): Thresholds
    {
      Thresholds(sprayWindow, sprayMinFailures, sprayMinUsers, sprayMinUsers)
    }

    function BruteForceThresholds(): Thresholds
    {
      Thresholds(bruteForceWindow, bruteForceMinFailures, bruteForceMinEvents, 0)
    }

    /** The bounds the policy model enforces on the two event minimums. */
    ghost predicate Valid() { bruteForceMinEvents >= 2 && sprayMinUsers >= 2 }
  }

  datatype SprayKey = SprayKey(sourceIp: Option<string>, asset: Option<string>)

  datatype BruteForceKey = BruteForceKey(sourceIp: Option<string>, asset: Option<string>, user: Option<string>)

  function SprayKeyOf(a: Alert): SprayKey { SprayKey(a.sourceIp, a.asset) }

  function BruteForceKeyOf(a: Alert): BruteForceKey { BruteForceKey(a.sourceIp, a.asset, a.targetUser) }

  /** The failures that carry one spray key, in arrival order. */
  function WithSprayKey(failures: seq<Alert>, key: SprayKey): seq<Alert>
  {
    if failures == [] then []
    else
      var last := failures[|failures| - 1];
      WithSprayKey(failures[..|failures| - 1], key) + if SprayKeyOf(last) == key then [last] else []
  }

  function WithBruteForceKey(failures: seq<Alert>, key: BruteForceKey): seq<Alert>
  {
    if failures == [] then []
    else
      var last := failures[|failures| - 1];
      WithBruteForceKey(failures[..|failures| - 1], key) + if BruteForceKeyOf(last) == key then [last] else []
  }

  ghost predicate SprayObserved(failures: seq<Alert>, counts: AttemptCounts, policy: SshPolicy)
  {
    exists key :: SomeIntervalMeets(WithSprayKey(failures, key), counts, policy.SprayThresholds())
  }

  ghost predicate BruteForceObserved(failures: seq<Alert>, counts: AttemptCounts, policy: SshPolicy)
  {
    exists key :: SomeIntervalMeets(WithBruteForceKey(failures, key), counts, policy.BruteForceThresholds())
  }

  lemma NoIntervalInNothing(counts: AttemptCounts, th: Thresholds)
    requires th.events >= 1
    ensures !SomeIntervalMeets([], counts, th)
  {
    forall from: int ensures !IntervalMeets([], from, counts, th) {
      assert Between([], from, from + th.window) == [];
    }
  }

  /** Groups the failures and flags each pattern exactly when one key's failures show it. */
  method ClassifyFailures(failures: seq<Alert>, counts: AttemptCounts, policy: SshPolicy)
      returns (spray: bool, bruteForce: bool)
    requires AtLeastOne(counts) && policy.Valid()
    ensures spray <==> SprayObserved(failures, counts, policy)
    ensures bruteForce <==> BruteForceObserved(failures, counts, policy)
  {
    var sprayGroups: map<SprayKey, seq<Alert>> := map[];
    var bruteForceGroups: map<BruteForceKey, seq<Alert>> := map[];
    for i := 0 to |failures|
      invariant forall key :: WithSprayKey(failures[..i], key) == (if key in sprayGroups then sprayGroups[key] else [])
      invariant forall key ::
        WithBruteForceKey(failures[..i], key) == (if key in bruteForceGroups then bruteForceGroups[key] else [])
    {
      var alert := failures[i];
      assert failures[..i + 1][..i] == failures[..i] && failures[..i + 1][i] == alert;
      var s, b := SprayKeyOf(alert), BruteForceKeyOf(alert);
      sprayGroups := sprayGroups[s := (if s in sprayGroups then sprayGroups[s] else []) + [alert]];
      bruteForceGroups := bruteForceGroups[b := (if b in bruteForceGroups then bruteForceGroups[b] else []) + [alert]];
    }
    assert failures[..|failures|] == failures;
    spray := exists key :: key in sprayGroups && WindowMatches(sprayGroups[key], counts, policy.SprayThresholds());
    bruteForce := exists key ::
      key in bruteForceGroups && WindowMatches(bruteForceGroups[key], counts, policy.BruteForceThresholds());
    NoIntervalInNothing(counts, policy.SprayThresholds());
    NoIntervalInNothing(counts, policy.BruteForceThresholds());
    forall key: SprayKey
      ensures SomeIntervalMeets(WithSprayKey(failures, key), counts, policy.SprayThresholds())
           == (key in sprayGroups && WindowMatches(sprayGroups[key], counts, policy.SprayThresholds()))
    {
      WindowMatchesIffInterval(WithSprayKey(failures, key), counts, policy.SprayThresholds());
    }
    forall key: BruteForceKey
      ensures SomeIntervalMeets(WithBruteForceKey(failures, key), counts, policy.BruteForceThresholds())
           == (key in bruteForceGroups && WindowMatches(bruteForceGroups[key], counts, policy.BruteForceThresholds()))
    {
      WindowMatchesIffInterval(WithBruteForceKey(failures, key), counts, policy.BruteForceThresholds());
    }
  }
}
