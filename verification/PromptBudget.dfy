/**
 Bounding the analyst's prompt: old conversation turns are dropped first, then the largest tool results
 of the current turn are replaced by a notice, until the request fits its token budget.
 */
module PromptBudget {
  import opened Common

  datatype Kind = Human | Ai | ToolResult | System

  datatype Message = Message(kind: Kind, content: string, meta: string)

  datatype PromptError = InputLimitExceeded

  const MARKER := "truncated_for_budget"
  const TOOL_BUDGET_NOTICE :=
    "{\"ok\": true, \"" + MARKER + "\": true, \"note\": \"Original tool result exceeded the analyst request budget for this turn and was shortened. Ask a narrower question (smaller time window, specific agent/rule) to see full detail.\"}"

  predicate Shrinkable(m: Message)
  {
    m.kind == ToolResult && !Contains(m.content, MARKER)
  }

  lemma NoticeIsMarked()
    ensures Contains(TOOL_BUDGET_NOTICE, MARKER)
  {
    assert OccursAt(TOOL_BUDGET_NOTICE, MARKER, |"{\"ok\": true, \""|);
  }

  function Shrunk(m: Message): Message
  {
    m.(content := TOOL_BUDGET_NOTICE)
  }

  lemma ShrunkIsFinal(m: Message)
    ensures !Shrinkable(Shrunk(m))
  {
    NoticeIsMarked();
  }

  function ShrinkableCount(ms: seq<Message>): nat
  {
    if ms == [] then 0 else (if Shrinkable(ms[0]) then 1 else 0) + ShrinkableCount(ms[1..])
  }

  lemma {:induction false} ShrinkingCounts(ms: seq<Message>, i: nat)
    requires i < |ms| && Shrinkable(ms[i])
    ensures ShrinkableCount(ms[i := Shrunk(ms[i])]) == ShrinkableCount(ms) - 1
  {
    ShrunkIsFinal(ms[i]);
    var after := ms[i := Shrunk(ms[i])];
    if i == 0 {
      assert after[1..] == ms[1..];
    } else {
      assert after[1..] == ms[1..][i - 1 := Shrunk(ms[1..][i - 1])];
      ShrinkingCounts(ms[1..], i - 1);
    }
  }

  /** Replaces the largest tool result that has not been replaced yet. */
  method ShrinkLargestToolMessage(current: seq<Message>) returns (chosen: Option<nat>, next: seq<Message>)
    ensures chosen.None? ==> next == current && forall i :: 0 <= i < |current| ==> !Shrinkable(current[i])
    ensures chosen.Some? ==>
      && chosen.value < |current| && Shrinkable(current[chosen.value])
      && next == current[chosen.value := Shrunk(current[chosen.value])]
      && (forall j :: 0 <= j < |current| && Shrinkable(current[j])
            ==> |current[j].content| <= |current[chosen.value].content|)
  {
    chosen := None;
    for i := 0 to |current|
      invariant chosen.None? ==> forall j :: 0 <= j < i ==> !Shrinkable(current[j])
      invariant chosen.Some? ==>
        && chosen.value < i && Shrinkable(current[chosen.value])
        && (forall j :: 0 <= j < i && Shrinkable(current[j])
              ==> |current[j].content| <= |current[chosen.value].content|)
    {
      if Shrinkable(current[i])
         && (chosen.None? || |current[i].content| > |current[chosen.value].content|) {
        chosen := Some(i);
      }
    }
    next := if chosen.Some? then current[chosen.value := Shrunk(current[chosen.value])] else current;
  }

  /** The index of the last human message; the whole conversation is current when there is none. */
  function Boundary(messages: seq<Message>): (b: nat)
    ensures b <= |messages|
    ensures b < |messages| ==> (b == 0 || messages[b].kind == Human)
    ensures forall i :: b < i < |messages| ==> messages[i].kind != Human
  {
    if messages == [] then 0
    else if messages[|messages| - 1].kind == Human then |messages| - 1
    else Boundary(messages[..|messages| - 1])
  }

  // ---- What a bounded prompt is -----------------------------------------------------------------

  datatype Budget = Budget(system: Message, tokens: seq<Message> -> nat, schemaTokens: nat, limit: int)
  {
    function Prompt(history: seq<Message>, current: seq<Message>): seq<Message>
    {
      [system] + history + current
    }

    predicate Fits(history: seq<Message>, current: seq<Message>)
    {
      tokens(Prompt(history, current)) + schemaTokens <= limit
    }
  }

  /** A suffix of the history that trimming may stop at: all of it, or one led by a human turn. */
  ghost predicate Candidate(history: seq<Message>, from: nat)
  {
    from == 0 || from == |history| || (from < |history| && history[from].kind == Human)
  }

  /** from starts the longest candidate suffix that fits beside the untouched current turn. */
  ghost predicate LongestFitting(b: Budget, history: seq<Message>, current: seq<Message>, from: nat)
  {
    && from <= |history| && Candidate(history, from)
    && b.Fits(history[from..], current)
    && NoLongerFits(b, history, current, from)
  }

  ghost predicate NoLongerFits(b: Budget, history: seq<Message>, current: seq<Message>, from: nat)
    requires from <= |history|
  {
    forall k {:trigger history[k..]} :: 0 <= k < from && Candidate(history, k) ==> !b.Fits(history[k..], current)
  }

  /** now is the original turn with some tool results replaced, none of them smaller than one kept. */
  ghost predicate GreedilyShrunk(original: seq<Message>, now: seq<Message>)
  {
    && |now| == |original|
    && (forall i :: 0 <= i < |now| ==> now[i] == original[i] || (Shrinkable(original[i]) && now[i] == Shrunk(original[i])))
    && (forall i, j :: 0 <= i < |now| && 0 <= j < |now| && now[i] != original[i] && Shrinkable(now[j])
          ==> |original[j].content| <= |original[i].content|)
  }

  /** The turn needed its last replacement: undoing it overflows again. */
  ghost predicate LastShrinkNeeded(b: Budget, original: seq<Message>, now: seq<Message>)
  {
    |now| == |original|
    && exists i :: 0 <= i < |now| && now[i] != original[i] && now[i] == Shrunk(original[i])
                   && !b.Fits([], now[i := original[i]])
  }

  /** No history fits beside the turn, and the turn fits alone after the fewest replacements. */
  ghost predicate FittingShrunkTurn(b: Budget, history: seq<Message>, original: seq<Message>, now: seq<Message>)
  {
    && NoLongerFits(b, history, original, |history|) && !b.Fits([], original)
    && b.Fits([], now) && now != original
    && GreedilyShrunk(original, now) && LastShrinkNeeded(b, original, now)
  }

  /** Nothing is left to replace, and the turn still does not fit alone. */
  ghost predicate ExhaustedTurn(b: Budget, original: seq<Message>, now: seq<Message>)
  {
    && !b.Fits([], original) && !b.Fits([], now)
    && GreedilyShrunk(original, now)
    && forall i :: 0 <= i < |now| ==> !Shrinkable(now[i])
  }

  ghost predicate BoundedPrompt(b: Budget, history: seq<Message>, current: seq<Message>, prompt: seq<Message>)
  {
    || (exists from: nat :: LongestFitting(b, history, current, from) && prompt == b.Prompt(history[from..], current))
    || (exists now: seq<Message> :: FittingShrunkTurn(b, history, current, now) && prompt == b.Prompt([], now))
  }

  ghost predicate NothingFits(b: Budget, history: seq<Message>, current: seq<Message>)
  {
    && NoLongerFits(b, history, current, |history|)
    && exists now: seq<Message> :: ExhaustedTurn(b, current, now)
  }

  lemma WithHistory(b: Budget, history: seq<Message>, current: seq<Message>, from: nat)
    requires LongestFitting(b, history, current, from)
    ensures BoundedPrompt(b, history, current, b.Prompt(history[from..], current))
  {
  }

  lemma WithoutHistory(b: Budget, history: seq<Message>, current: seq<Message>, now: seq<Message>)
    requires FittingShrunkTurn(b, history, current, now)
    ensures BoundedPrompt(b, history, current, b.Prompt([], now))
  {
  }

  /** Drops history, then shrinks evidence, and gives up only when neither is left. */
  method BoundedAnalystPrompt(messages: seq<Message>, b: Budget) returns (r: Result<seq<Message>, PromptError>)
    ensures r.Ok? ==> b.tokens(r.value) + b.schemaTokens <= b.limit
    ensures r.Ok? ==> BoundedPrompt(b, messages[..Boundary(messages)], messages[Boundary(messages)..], r.value)
    ensures r.Err? ==> NothingFits(b, messages[..Boundary(messages)], messages[Boundary(messages)..])
  {
    var history, current := messages[..Boundary(messages)], messages[Boundary(messages)..];
    ghost var full, turn := history, current;
    ghost var from := 0;
    while true
      invariant 0 <= from <= |full| && history == full[from..]
      invariant Progress(b, full, turn, from, current)
      decreases |history| + ShrinkableCount(current)
    {
      if b.Fits(history, current) {
        ProgressThatFits(b, full, turn, from, current);
        return Ok(b.Prompt(history, current));
      }
      if history != [] {
        ghost var start, before := from, history;
        history := DropOldestTurn(history);
        from := |full| - |history|;
        forall k | start < k < from ensures full[k].kind != Human {
          assert before[k - start] == full[k];
        }
        ProgressAfterDrop(b, full, turn, start, from, current);
        continue;
      }
      var chosen, next := ShrinkLargestToolMessage(current);
      if chosen.None? {
        assert from == |full| && ExhaustedTurn(b, turn, current);
        return Err(InputLimitExceeded);
      }
      ShrinkingCounts(current, chosen.value);
      ProgressAfterShrink(b, full, turn, current, chosen.value);
      current := next;
    }
  }

  /** Pops the oldest message and everything up to the next human turn. */
  method DropOldestTurn(history: seq<Message>) returns (rest: seq<Message>)
    requires history != []
    ensures |rest| < |history| && rest == history[|history| - |rest|..]
    ensures rest == [] || rest[0].kind == Human
    ensures forall k :: 0 < k < |history| - |rest| ==> history[k].kind != Human
  {
    var dropped := 1;
    rest := history[1..];
    while rest != [] && rest[0].kind != Human
      invariant 0 < dropped <= |history| && rest == history[dropped..]
      invariant forall k :: 0 < k < dropped ==> history[k].kind != Human
      decreases |rest|
    {
      dropped := dropped + 1;
      rest := rest[1..];
    }
  }

  /** Where the trimming stands: no longer history fits, and evidence is touched only once none is left. */
  ghost predicate Progress(b: Budget, full: seq<Message>, turn: seq<Message>, from: nat, current: seq<Message>)
    requires from <= |full|
  {
    && Candidate(full, from)
    && NoLongerFits(b, full, turn, from)
    && GreedilyShrunk(turn, current)
    && (current != turn ==> from == |full| && !b.Fits([], turn) && LastShrinkNeeded(b, turn, current))
  }

  lemma ProgressThatFits(b: Budget, full: seq<Message>, turn: seq<Message>, from: nat, current: seq<Message>)
    requires from <= |full| && Progress(b, full, turn, from, current) && b.Fits(full[from..], current)
    ensures BoundedPrompt(b, full, turn, b.Prompt(full[from..], current))
  {
    if current == turn {
      WithHistory(b, full, turn, from);
    } else {
      assert full[from..] == [];
      WithoutHistory(b, full, turn, current);
    }
  }

  lemma ProgressAfterDrop(
    b: Budget, full: seq<Message>, turn: seq<Message>, start: nat, from: nat, current: seq<Message>)
    requires start < from <= |full| && Progress(b, full, turn, start, current)
    requires !b.Fits(full[start..], current)
    requires forall k :: start < k < from ==> full[k].kind != Human
    requires from == |full| || full[from].kind == Human
    ensures Progress(b, full, turn, from, current)
  {
    assert current == turn;
  }

  lemma ProgressAfterShrink(b: Budget, full: seq<Message>, turn: seq<Message>, current: seq<Message>, i: nat)
    requires Progress(b, full, turn, |full|, current) && !b.Fits([], current)
    requires i < |current| && Shrinkable(current[i])
    requires forall j :: 0 <= j < |current| && Shrinkable(current[j]) ==> |current[j].content| <= |current[i].content|
    ensures Progress(b, full, turn, |full|, current[i := Shrunk(current[i])])
  {
    ShrinkStaysGreedy(turn, current, i);
    ShrunkIsFinal(turn[i]);
    var next := current[i := Shrunk(current[i])];
    assert next[i := turn[i]] == current;
    assert next[i] != turn[i];
    assert LastShrinkNeeded(b, turn, next);
  }

  lemma ShrinkStaysGreedy(original: seq<Message>, now: seq<Message>, i: nat)
    requires GreedilyShrunk(original, now)
    requires i < |now| && Shrinkable(now[i])
    requires forall j :: 0 <= j < |now| && Shrinkable(now[j]) ==> |now[j].content| <= |now[i].content|
    ensures now[i] == original[i]
    ensures GreedilyShrunk(original, now[i := Shrunk(now[i])])
  {
    forall j | 0 <= j < |now| && Shrinkable(now[j]) ensures now[j] == original[j] {
      ShrunkIsFinal(original[j]);
    }
    ShrunkIsFinal(now[i]);
  }
}
