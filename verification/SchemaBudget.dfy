/**
 Trimming the tool schemas bound to a model call: the lowest-priority optional tools are dropped, one at
 a time, until the measured schema cost fits.
 */
module SchemaBudget {
  import opened Common

  datatype Priority = Priority(tier: int, rank: int)

  /** size is the length of the tool's rendered schema. */
  datatype Tool = Tool(name: string, priority: Priority, size: nat)

  predicate AtMost(a: Priority, b: Priority)
  {
    a.tier < b.tier || (a.tier == b.tier && a.rank <= b.rank)
  }

  function Sizes(ts: seq<Tool>): nat
  {
    if ts == [] then 0 else ts[0].size + Sizes(ts[1..])
  }

  /** Four characters per token over the rendered list: brackets, schemas, and separators. */
  function SchemaTokens(ts: seq<Tool>): nat
  {
    (2 + Sizes(ts) + (if ts == [] then 0 else 2 * (|ts| - 1)) + 3) / 4
  }

  function InsertByPriority(t: Tool, sorted: seq<Tool>): seq<Tool>
  {
    if sorted == [] || AtMost(t.priority, sorted[0].priority) then [t] + sorted
    else [sorted[0]] + InsertByPriority(t, sorted[1..])
  }

  /** Stable order, highest priority first. */
  function ByPriority(ts: seq<Tool>): seq<Tool>
  {
    if ts == [] then [] else InsertByPriority(ts[0], ByPriority(ts[1..]))
  }

  function Optional(ts: seq<Tool>, core: set<string>): seq<Tool>
  {
    if ts == [] then []
    else (if ts[0].name in core then [] else [ts[0]]) + Optional(ts[1..], core)
  }

  function Protected(ts: seq<Tool>, core: set<string>): seq<Tool>
  {
    if ts == [] then []
    else (if ts[0].name in core then [ts[0]] else []) + Protected(ts[1..], core)
  }

  function Names(ts: seq<Tool>): set<string>
  {
    set i | 0 <= i < |ts| :: ts[i].name
  }

  /** The tools with these names, in their original order. */
  function Select(ts: seq<Tool>, names: set<string>): seq<Tool>
  {
    if ts == [] then []
    else (if ts[0].name in names then [ts[0]] else []) + Select(ts[1..], names)
  }

  ghost predicate UniqueNames(ts: seq<Tool>)
  {
    forall i, j :: 0 <= i < j < |ts| ==> ts[i].name != ts[j].name
  }

  // ---- Order and cost ---------------------------------------------------------------------------

  ghost predicate InPriorityOrder(ts: seq<Tool>)
  {
    forall i, j :: 0 <= i < j < |ts| ==> AtMost(ts[i].priority, ts[j].priority)
  }

  lemma {:induction false} InsertByPriorityAdds(t: Tool, sorted: seq<Tool>)
    ensures multiset(InsertByPriority(t, sorted)) == multiset(sorted) + multiset{t}
  {
    if sorted != [] && !AtMost(t.priority, sorted[0].priority) {
      InsertByPriorityAdds(t, sorted[1..]);
      assert sorted == [sorted[0]] + sorted[1..];
    }
  }

  lemma {:induction false} InsertByPrioritySorts(t: Tool, sorted: seq<Tool>)
    requires InPriorityOrder(sorted)
    ensures InPriorityOrder(InsertByPriority(t, sorted))
    ensures multiset(InsertByPriority(t, sorted)) == multiset(sorted) + multiset{t}
  {
    InsertByPriorityAdds(t, sorted);
    if sorted != [] && !AtMost(t.priority, sorted[0].priority) {
      InsertByPrioritySorts(t, sorted[1..]);
      var tail := InsertByPriority(t, sorted[1..]);
      forall i | 0 <= i < |tail| ensures AtMost(sorted[0].priority, tail[i].priority) {
        assert tail[i] in multiset(tail);
        assert tail[i] == t || tail[i] in sorted[1..];
      }
      HeadInOrder(sorted[0], tail);
    }
  }

  lemma HeadInOrder(head: Tool, tail: seq<Tool>)
    requires InPriorityOrder(tail) && forall i :: 0 <= i < |tail| ==> AtMost(head.priority, tail[i].priority)
    ensures InPriorityOrder([head] + tail)
  {
  }

  lemma {:induction false} ByPrioritySorts(ts: seq<Tool>)
    ensures InPriorityOrder(ByPriority(ts))
    ensures multiset(ByPriority(ts)) == multiset(ts)
  {
    if ts != [] {
      ByPrioritySorts(ts[1..]);
      InsertByPrioritySorts(ts[0], ByPriority(ts[1..]));
      assert ts == [ts[0]] + ts[1..];
    }
  }

  lemma {:induction false} SizesConcat(a: seq<Tool>, b: seq<Tool>)
    ensures Sizes(a + b) == Sizes(a) + Sizes(b)
  {
    if a == [] {
      assert a + b == b;
    } else {
      assert (a + b)[1..] == a[1..] + b;
      SizesConcat(a[1..], b);
    }
  }

  /** What a list of schemas costs does not depend on its order. */
  lemma {:induction false} TokensIgnoreOrder(a: seq<Tool>, b: seq<Tool>)
    requires multiset(a) == multiset(b)
    ensures |a| == |b| && Sizes(a) == Sizes(b) && SchemaTokens(a) == SchemaTokens(b)
    decreases |a|
  {
    PermutationLength(a, b);
    if a != [] {
      var i := PermutationFind(a, b);
      var rest := b[..i] + b[i + 1..];
      PermutationTail(a, b, i);
      TokensIgnoreOrder(a[1..], rest);
      SizesWithout(b, i);
    }
  }

  lemma SizesWithout(b: seq<Tool>, i: nat)
    requires i < |b|
    ensures Sizes(b) == b[i].size + Sizes(b[..i] + b[i + 1..])
  {
    assert b == b[..i] + ([b[i]] + b[i + 1..]);
    SizesConcat(b[..i], [b[i]] + b[i + 1..]);
    SizesConcat(b[..i], b[i + 1..]);
  }

  lemma {:induction false} OptionalConcat(a: seq<Tool>, b: seq<Tool>, core: set<string>)
    ensures Optional(a + b, core) == Optional(a, core) + Optional(b, core)
  {
    if a == [] {
      assert a + b == b;
    } else {
      assert (a + b)[1..] == a[1..] + b;
      OptionalConcat(a[1..], b, core);
      ConcatAssociates(if a[0].name in core then [] else [a[0]], Optional(a[1..], core), Optional(b, core));
    }
  }

  lemma {:induction false} ProtectedConcat(a: seq<Tool>, b: seq<Tool>, core: set<string>)
    ensures Protected(a + b, core) == Protected(a, core) + Protected(b, core)
  {
    if a == [] {
      assert a + b == b;
    } else {
      assert (a + b)[1..] == a[1..] + b;
      ProtectedConcat(a[1..], b, core);
      ConcatAssociates(if a[0].name in core then [a[0]] else [], Protected(a[1..], core), Protected(b, core));
    }
  }

  lemma {:induction false} AllProtected(ts: seq<Tool>, core: set<string>)
    requires forall i :: 0 <= i < |ts| ==> ts[i].name in core
    ensures Optional(ts, core) == [] && Protected(ts, core) == ts
  {
    if ts != [] {
      AllProtected(ts[1..], core);
    }
  }

  /** Popping the last unprotected tool drops exactly the last optional one. */
  lemma PopDropsLastOptional(ts: seq<Tool>, k: nat, core: set<string>)
    requires k < |ts| && ts[k].name !in core
    requires forall i :: k < i < |ts| ==> ts[i].name in core
    ensures Optional(ts, core) == Optional(ts[..k] + ts[k + 1..], core) + [ts[k]]
    ensures Protected(ts, core) == Protected(ts[..k] + ts[k + 1..], core)
  {
    assert ts == ts[..k] + [ts[k]] + ts[k + 1..];
    SplitAtLastOptional(ts[..k], ts[k], ts[k + 1..], core);
  }

  lemma SplitAtLastOptional(before: seq<Tool>, t: Tool, after: seq<Tool>, core: set<string>)
    requires t.name !in core && forall i :: 0 <= i < |after| ==> after[i].name in core
    ensures Optional(before + [t] + after, core) == Optional(before + after, core) + [t]
    ensures Protected(before + [t] + after, core) == Protected(before + after, core)
  {
    OptionalConcat(before + [t], after, core);
    OptionalConcat(before, [t], core);
    OptionalConcat(before, after, core);
    ProtectedConcat(before + [t], after, core);
    ProtectedConcat(before, [t], core);
    ProtectedConcat(before, after, core);
    AllProtected(after, core);
    SingleOptional(t, core);
    NothingAdded(Optional(before, core));
    NothingAdded(Optional(before, core) + [t]);
    NothingAdded(Protected(before, core));
  }

  lemma NothingAdded(ts: seq<Tool>)
    ensures ts + [] == ts
  {
  }

  lemma SingleOptional(t: Tool, core: set<string>)
    requires t.name !in core
    ensures Optional([t], core) == [t] && Protected([t], core) == []
  {
  }

  // ---- Selecting by name ------------------------------------------------------------------------

  lemma {:induction false} SelectAll(ts: seq<Tool>, names: set<string>)
    requires forall i :: 0 <= i < |ts| ==> ts[i].name in names
    ensures Select(ts, names) == ts
  {
    if ts != [] {
      SelectAll(ts[1..], names);
    }
  }

  lemma {:induction false} SelectWithout(ts: seq<Tool>, names: set<string>, gone: string)
    requires forall i :: 0 <= i < |ts| ==> ts[i].name != gone
    ensures Select(ts, names - {gone}) == Select(ts, names)
  {
    if ts != [] {
      SelectWithout(ts[1..], names, gone);
    }
  }

  lemma {:induction false} SelectRemoves(ts: seq<Tool>, names: set<string>, x: Tool)
    requires UniqueNames(ts) && x in ts && x.name in names
    ensures multiset(Select(ts, names)) == multiset(Select(ts, names - {x.name})) + multiset{x}
  {
    if ts[0] == x {
      SelectWithout(ts[1..], names, x.name);
    } else {
      var i :| 0 <= i < |ts| && ts[i] == x;
      assert ts[1..][i - 1] == x;
      SelectRemoves(ts[1..], names, x);
      assert ts[0].name != x.name;
    }
  }

  lemma UniqueIsPreserved(a: seq<Tool>, b: seq<Tool>)
    requires multiset(a) == multiset(b) && UniqueNames(a)
    ensures UniqueNames(b)
  {
    forall i, j | 0 <= i < j < |b| ensures b[i].name != b[j].name {
      if b[i].name == b[j].name {
        assert b[i] in multiset(a) && b[j] in multiset(a);
        var m :| 0 <= m < |a| && a[m] == b[i];
        var n :| 0 <= n < |a| && a[n] == b[j];
        assert m == n;
        assert b[i] == b[j];
        TwiceIsTwo(b, i, j);
        assert multiset(a)[b[i]] >= 2;
        OnceIsOne(a, m);
        assert false;
      }
    }
  }

  lemma TwiceIsTwo(b: seq<Tool>, i: nat, j: nat)
    requires i < j < |b| && b[i] == b[j]
    ensures multiset(b)[b[i]] >= 2
  {
    assert b == b[..j] + ([b[j]] + b[j + 1..]);
    assert b[..j][i] == b[i];
    assert b[i] in multiset(b[..j]);
  }

  lemma OnceIsOne(a: seq<Tool>, m: nat)
    requires m < |a| && UniqueNames(a)
    ensures multiset(a)[a[m]] == 1
  {
    var before, after := a[..m], a[m + 1..];
    assert a == before + ([a[m]] + after);
    forall k | 0 <= k < |before| ensures before[k] != a[m] { assert before[k] == a[k]; }
    forall k | 0 <= k < |after| ensures after[k] != a[m] { assert after[k] == a[m + 1 + k]; }
    assert a[m] !in multiset(before) && a[m] !in multiset(after);
  }

  lemma RemovedName(ts: seq<Tool>, k: nat)
    requires UniqueNames(ts) && k < |ts|
    ensures Names(ts[..k] + ts[k + 1..]) == Names(ts) - {ts[k].name}
    ensures UniqueNames(ts[..k] + ts[k + 1..])
  {
    var rest := ts[..k] + ts[k + 1..];
    forall i | 0 <= i < |rest| ensures rest[i] == ts[if i < k then i else i + 1] {
    }
    forall n | n in Names(ts) - {ts[k].name} ensures n in Names(rest) {
      var i :| 0 <= i < |ts| && ts[i].name == n;
      assert rest[if i < k then i else i - 1].name == n;
    }
  }

  // ---- The trimming loop ------------------------------------------------------------------------

  /** The last tool that may be dropped, if any. */
  method LastOptional(ordered: seq<Tool>, core: set<string>) returns (r: Option<nat>)
    ensures r.Some? ==> r.value < |ordered| && ordered[r.value].name !in core
                        && forall i :: r.value < i < |ordered| ==> ordered[i].name in core
    ensures r.None? ==> forall i :: 0 <= i < |ordered| ==> ordered[i].name in core
  {
    var index := |ordered|;
    while index > 0
      invariant 0 <= index <= |ordered|
      invariant forall i :: index <= i < |ordered| ==> ordered[i].name in core
    {
      index := index - 1;
      if ordered[index].name !in core {
        return Some(index);
      }
    }
    return None;
  }

  /** What the trimmed selection promises: order is kept, no protected tool is lost, the optional tools
      kept are the first of the optional ones by priority, it fits unless there is nothing more to
      drop, and nothing was dropped that would still have fitted. */
  ghost predicate GreedySelection(tools: seq<Tool>, kept: seq<Tool>, core: set<string>, budget: nat)
  {
    var optional := Optional(ByPriority(tools), core);
    && (exists names: set<string> :: kept == Select(tools, names))
    && (forall t :: t in tools && t.name in core ==> t in kept)
    && exists k: nat {:trigger optional[..k]} ::
         && k <= |optional|
         && multiset(kept) == multiset(Protected(ByPriority(tools), core)) + multiset(optional[..k])
         && (SchemaTokens(kept) <= budget || k == 0 || |kept| <= 1)
         && (k < |optional| ==> SchemaTokens(kept + [optional[k]]) > budget)
  }

  lemma {:induction false} PartsMakeWhole(ts: seq<Tool>, core: set<string>)
    ensures multiset(ts) == multiset(Protected(ts, core)) + multiset(Optional(ts, core))
  {
    if ts != [] {
      PartsMakeWhole(ts[1..], core);
      assert ts == [ts[0]] + ts[1..];
    }
  }

  lemma {:induction false} CoreIsProtected(ts: seq<Tool>, core: set<string>, t: Tool)
    requires t in ts && t.name in core
    ensures t in Protected(ts, core)
  {
    if ts[0] != t {
      CoreIsProtected(ts[1..], core, t);
    }
  }

  /** The state of the trimming loop. */
  ghost predicate Trimmed(tools: seq<Tool>, ordered: seq<Tool>, core: set<string>, budget: nat)
  {
    var optional := Optional(ByPriority(tools), core);
    var k := |Optional(ordered, core)|;
    && UniqueNames(ordered)
    && multiset(Select(tools, Names(ordered))) == multiset(ordered)
    && Protected(ordered, core) == Protected(ByPriority(tools), core)
    && Optional(ordered, core) <= optional
    && (k < |optional| ==> SchemaTokens(ordered + [optional[k]]) > budget)
  }

  lemma NothingDroppedYet(tools: seq<Tool>, core: set<string>, budget: nat)
    requires UniqueNames(tools)
    ensures Trimmed(tools, ByPriority(tools), core, budget)
    ensures Select(tools, Names(ByPriority(tools))) == tools
  {
    var ordered := ByPriority(tools);
    ByPrioritySorts(tools);
    UniqueIsPreserved(tools, ordered);
    SameNames(tools, ordered);
    SelectAll(tools, Names(ordered));
  }

  lemma PopKeepsTrimmed(tools: seq<Tool>, ordered: seq<Tool>, k: nat, core: set<string>, budget: nat)
    requires UniqueNames(tools) && Trimmed(tools, ordered, core, budget)
    requires k < |ordered| && ordered[k].name !in core
    requires forall i :: k < i < |ordered| ==> ordered[i].name in core
    requires SchemaTokens(ordered) > budget
    ensures Trimmed(tools, ordered[..k] + ordered[k + 1..], core, budget)
  {
    var rest := ordered[..k] + ordered[k + 1..];
    PopDropsLastOptional(ordered, k, core);
    RemovedName(ordered, k);
    assert ordered[k].name in Names(ordered);
    PopKeepsSelected(tools, ordered, k, Names(ordered));
    LastDroppedExceeds(ordered, k, rest, budget);
    var n := |Optional(rest, core)|;
    assert Optional(ordered, core)[n] == ordered[k];
    assert Optional(ByPriority(tools), core)[n] == ordered[k];
  }

  lemma LastDroppedExceeds(ordered: seq<Tool>, k: nat, rest: seq<Tool>, budget: nat)
    requires k < |ordered| && rest == ordered[..k] + ordered[k + 1..]
    requires SchemaTokens(ordered) > budget
    ensures SchemaTokens(rest + [ordered[k]]) > budget
  {
    MultisetWithout(ordered, k);
    TokensIgnoreOrder(ordered, rest + [ordered[k]]);
  }

  lemma PopKeepsSelected(tools: seq<Tool>, ordered: seq<Tool>, k: nat, names: set<string>)
    requires UniqueNames(tools) && k < |ordered| && ordered[k].name in names
    requires multiset(Select(tools, names)) == multiset(ordered)
    ensures multiset(Select(tools, names - {ordered[k].name})) == multiset(ordered[..k] + ordered[k + 1..])
  {
    SelectedMember(tools, ordered, ordered[k], names);
    SelectRemoves(tools, names, ordered[k]);
    MultisetWithout(ordered, k);
    MultisetCancel(multiset(Select(tools, names - {ordered[k].name})), multiset(ordered[..k] + ordered[k + 1..]), ordered[k]);
  }

  lemma SelectedMember(tools: seq<Tool>, ordered: seq<Tool>, t: Tool, names: set<string>)
    requires multiset(Select(tools, names)) == multiset(ordered) && t in ordered
    ensures t in tools
  {
    assert t in multiset(Select(tools, names));
    SelectMember(tools, names, t);
  }

  lemma CoreIsKept(tools: seq<Tool>, ordered: seq<Tool>, kept: seq<Tool>, core: set<string>, t: Tool)
    requires multiset(ordered) == multiset(kept)
    requires Protected(ordered, core) == Protected(ByPriority(tools), core)
    requires t in tools && t.name in core
    ensures t in kept
  {
    ByPrioritySorts(tools);
    PartsMakeWhole(ordered, core);
    assert t in multiset(tools);
    assert t in ByPriority(tools);
    CoreIsProtected(ByPriority(tools), core, t);
    assert t in multiset(Protected(ordered, core));
    assert t in multiset(kept);
  }

  lemma SelectionIsGreedy(tools: seq<Tool>, ordered: seq<Tool>, core: set<string>, budget: nat, kept: seq<Tool>)
    requires Trimmed(tools, ordered, core, budget) && kept == Select(tools, Names(ordered))
    requires SchemaTokens(ordered) <= budget || Optional(ordered, core) == [] || |ordered| <= 1
    ensures GreedySelection(tools, kept, core, budget)
  {
    var optional := Optional(ByPriority(tools), core);
    var k := |Optional(ordered, core)|;
    PartsMakeWhole(ordered, core);
    assert optional[..k] == Optional(ordered, core);
    TokensIgnoreOrder(ordered, kept);
    if k < |optional| {
      assert multiset(ordered + [optional[k]]) == multiset(kept + [optional[k]]);
      TokensIgnoreOrder(ordered + [optional[k]], kept + [optional[k]]);
    }
    forall t | t in tools && t.name in core ensures t in kept {
      CoreIsKept(tools, ordered, kept, core, t);
    }
  }

  /** Drops optional tools from the end of the priority order while the cost exceeds the budget.
      Tools without a measurable schema are all kept. */
  method FitToolSchemaBudget(tools: seq<Tool>, core: set<string>, budget: nat, measurable: bool)
      returns (kept: seq<Tool>)
    requires UniqueNames(tools)
    ensures |tools| <= 1 || !measurable ==> kept == tools
    ensures measurable ==> GreedySelection(tools, kept, core, budget)
  {
    var ordered := ByPriority(tools);
    NothingDroppedYet(tools, core, budget);
    if |tools| <= 1 {
      ByPrioritySorts(tools);
      TokensIgnoreOrder(tools, ordered);
      SelectionIsGreedy(tools, ordered, core, budget, tools);
      return tools;
    }
    if !measurable {
      return tools;
    }
    while |ordered| > 1 && SchemaTokens(ordered) > budget
      invariant Trimmed(tools, ordered, core, budget)
      decreases |ordered|
    {
      var removable := LastOptional(ordered, core);
      if removable.None? {
        AllProtected(ordered, core);
        break;
      }
      var k := removable.value;
      PopKeepsTrimmed(tools, ordered, k, core, budget);
      ordered := ordered[..k] + ordered[k + 1..];
    }
    kept := Select(tools, Names(ordered));
    SelectionIsGreedy(tools, ordered, core, budget, kept);
  }

  lemma SameNames(a: seq<Tool>, b: seq<Tool>)
    requires multiset(a) == multiset(b)
    ensures forall i :: 0 <= i < |a| ==> a[i].name in Names(b)
  {
    forall i | 0 <= i < |a| ensures a[i].name in Names(b) {
      assert a[i] in multiset(b);
      var j :| 0 <= j < |b| && b[j] == a[i];
    }
  }

  lemma {:induction false} SelectMember(ts: seq<Tool>, names: set<string>, t: Tool)
    requires t in Select(ts, names)
    ensures t in ts && t.name in names
  {
    if ts[0].name !in names || ts[0] != t {
      assert Select(ts, names) == (if ts[0].name in names then [ts[0]] else []) + Select(ts[1..], names);
      SelectMember(ts[1..], names, t);
    }
  }
}
