/**
 The bounded, secret-free copy that is made of model and tool data before it is stored.
 */
module Sanitization {
  import opened Common
  import opened Json

  /** What one storage call allows, with the test for secret keys. */
  datatype Bounds = Bounds(depth: nat, items: nat, text: nat, isSecret: string -> bool)

  const TRUNCATED := "[truncated]"
  const TRUNCATED_SUFFIX := "...[truncated]"
  const TRUNCATED_ITEMS := "_truncated_items"

  // ---- Sensitive keys ---------------------------------------------------------------------------

  const SENSITIVE_KEY_PARTS: seq<string> := [
    "api_key", "authorization", "chain_of_thought", "credential", "environment",
    "password", "private_key", "reasoning", "secret", "token"]

  function Normalize(s: string): string
  {
    if s == "" then "" else [if s[0] == '-' then '_' else LowerChar(s[0])] + Normalize(s[1..])
  }

  predicate IsSpace(c: char) { c == ' ' || c == '\t' || c == '\n' || c == '\r' }

  function Strip(s: string): string
  {
    if s != "" && IsSpace(s[0]) then Strip(s[1..])
    else if s != "" && IsSpace(s[|s| - 1]) then Strip(s[..|s| - 1])
    else s
  }

  predicate ContainsAny(s: string, parts: seq<string>)
  {
    parts != [] && (Contains(s, parts[0]) || ContainsAny(s, parts[1..]))
  }

  predicate IsSensitiveKey(key: string)
  {
    ContainsAny(Normalize(Strip(key)), SENSITIVE_KEY_PARTS)
  }

  lemma LetterMissing(s: string, part: string, j: nat)
    requires j < |part| && part[j] !in s
    ensures !Contains(s, part)
  {
  }

  lemma {:induction false} NonePresent(s: string, parts: seq<string>)
    requires forall k :: 0 <= k < |parts| ==> !Contains(s, parts[k])
    ensures !ContainsAny(s, parts)
  {
    if parts != [] {
      NonePresent(s, parts[1..]);
    }
  }

  lemma MarkerLacksFirstParts(s: string)
    requires s == TRUNCATED_ITEMS
    ensures !Contains(s, "api_key") && !Contains(s, "authorization") && !Contains(s, "chain_of_thought")
    ensures !Contains(s, "credential") && !Contains(s, "environment")
  {
    LetterMissing(s, "api_key", 1);
    LetterMissing(s, "authorization", 3);
    LetterMissing(s, "chain_of_thought", 1);
    LetterMissing(s, "credential", 9);
    LetterMissing(s, "environment", 2);
  }

  lemma MarkerLacksSecret(s: string)
    requires s == TRUNCATED_ITEMS
    ensures !Contains(s, "secret")
  {
    forall i: int ensures !OccursAt(s, "secret", i) {
      if 0 <= i <= |s| - 6 {
        assert s[i..i + 6][0] == s[i] && s[i..i + 6][5] == s[i + 5];
      }
    }
  }

  lemma MarkerLacksLastParts(s: string)
    requires s == TRUNCATED_ITEMS
    ensures !Contains(s, "password") && !Contains(s, "private_key") && !Contains(s, "reasoning")
    ensures !Contains(s, "secret") && !Contains(s, "token")
  {
    LetterMissing(s, "password", 0);
    LetterMissing(s, "private_key", 0);
    LetterMissing(s, "reasoning", 8);
    LetterMissing(s, "token", 1);
    MarkerLacksSecret(s);
  }

  /** The marker the copy adds is not itself a sensitive key. */
  lemma MarkerIsNotSensitive()
    ensures !IsSensitiveKey(TRUNCATED_ITEMS)
  {
    MarkerNormalizes(TRUNCATED_ITEMS);
    MarkerLacksFirstParts(TRUNCATED_ITEMS);
    MarkerLacksLastParts(TRUNCATED_ITEMS);
  }

  lemma MarkerNormalizes(s: string)
    requires s == TRUNCATED_ITEMS
    ensures Normalize(Strip(s)) == s
  {
    StripPlain(s);
    NormalizePlain(s);
  }

  lemma {:induction false} StripPlain(s: string)
    requires s != "" && !IsSpace(s[0]) && !IsSpace(s[|s| - 1])
    ensures Strip(s) == s
  {
  }

  lemma {:induction false} NormalizePlain(s: string)
    requires forall i :: 0 <= i < |s| ==> s[i] != '-' && !('A' <= s[i] <= 'Z')
    ensures Normalize(s) == s
  {
    if s != "" {
      NormalizePlain(s[1..]);
    }
  }

  // ---- The copy ---------------------------------------------------------------------------------

  function ItemsNote(n: nat): Value
  {
    Str("[" + Decimal(n) + " items truncated]")
  }

  function ClipText(text: string, lim: Bounds): Value
  {
    if |text| <= lim.text then Str(text) else Str(text[..lim.text] + TRUNCATED_SUFFIX)
  }

  function Sanitize(v: Value, depth: nat, lim: Bounds): Value
    decreases v, 1
  {
    if depth > lim.depth then Str(TRUNCATED)
    else match v
      case Null => v
      case Bool(_) => v
      case Num(_) => v
      case Str(text) => ClipText(text, lim)
      case Mapping(fields) => Mapping(SanitizeMapping(fields, depth, lim))
      case Sequence(items) => Sequence(SanitizeSequence(items, depth, lim))
      case Other(rendered) => if depth + 1 > lim.depth then Str(TRUNCATED) else ClipText(rendered, lim)
  }

  function SanitizeMapping(fields: seq<Field>, depth: nat, lim: Bounds): seq<Field>
    decreases fields, |fields| + 1
  {
    var kept := SanitizeFields(fields, Min(|fields|, lim.items), depth, lim);
    if |fields| > lim.items then Put(kept, TRUNCATED_ITEMS, Num(|fields| - lim.items)) else kept
  }

  function SanitizeSequence(items: seq<Value>, depth: nat, lim: Bounds): seq<Value>
    decreases items, |items| + 1
  {
    var kept := SanitizeItems(items, Min(|items|, lim.items), depth, lim);
    if |items| > lim.items then kept + [ItemsNote(|items| - lim.items)] else kept
  }

  /** The copies of the first n fields, sensitive keys left out. */
  function SanitizeFields(fields: seq<Field>, n: nat, depth: nat, lim: Bounds): seq<Field>
    requires n <= |fields|
    decreases fields, n
  {
    if n == 0 then []
    else
      var kept := SanitizeFields(fields, n - 1, depth, lim);
      var field := fields[n - 1];
      if lim.isSecret(field.key) then kept
      else Put(kept, field.key, Sanitize(field.value, depth + 1, lim))
  }

  function SanitizeItems(items: seq<Value>, n: nat, depth: nat, lim: Bounds): (r: seq<Value>)
    requires n <= |items|
    ensures |r| == n
    decreases items, n
  {
    if n == 0 then [] else SanitizeItems(items, n - 1, depth, lim) + [Sanitize(items[n - 1], depth + 1, lim)]
  }

  /** The copy as it is made: a dictionary and a list filled in place on the way down. */
  method SanitizeForStorage(item: Value, depth: nat, lim: Bounds) returns (r: Value)
    ensures r == Sanitize(item, depth, lim)
    decreases item, 0
  {
    if depth > lim.depth {
      return Str(TRUNCATED);
    }
    match item {
      case Null => return item;
      case Bool(_) => return item;
      case Num(_) => return item;
      case Str(text) => return ClipText(text, lim);
      case Mapping(fields) =>
        var copied := SanitizeMappingItems(fields, depth, lim);
        return Mapping(copied);
      case Sequence(items) =>
        var copied := SanitizeSequenceItems(items, depth, lim);
        return Sequence(copied);
      case Other(rendered) =>
        return if depth + 1 > lim.depth then Str(TRUNCATED) else ClipText(rendered, lim);
    }
  }

  method SanitizeMappingItems(fields: seq<Field>, depth: nat, lim: Bounds) returns (result: seq<Field>)
    ensures result == SanitizeMapping(fields, depth, lim)
    decreases fields, 1
  {
    result := [];
    for index := 0 to |fields|
      invariant index <= lim.items
      invariant result == SanitizeFields(fields, index, depth, lim)
    {
      if index >= lim.items {
        result := Put(result, TRUNCATED_ITEMS, Num(|fields| - lim.items));
        return;
      }
      if !lim.isSecret(fields[index].key) {
        var child := SanitizeForStorage(fields[index].value, depth + 1, lim);
        result := Put(result, fields[index].key, child);
      }
    }
  }

  method SanitizeSequenceItems(items: seq<Value>, depth: nat, lim: Bounds) returns (result: seq<Value>)
    ensures result == SanitizeSequence(items, depth, lim)
    decreases items, 1
  {
    result := [];
    for index := 0 to Min(|items|, lim.items)
      invariant result == SanitizeItems(items, index, depth, lim)
    {
      var child := SanitizeForStorage(items[index], depth + 1, lim);
      result := result + [child];
    }
    if |items| > lim.items {
      result := result + [ItemsNote(|items| - lim.items)];
    }
  }

  // ---- No secret survives -----------------------------------------------------------------------

  ghost predicate NoSensitiveKey(v: Value, lim: Bounds)
  {
    match v
    case Mapping(fields) => NoSensitiveField(fields, lim)
    case Sequence(items) => forall i :: 0 <= i < |items| ==> NoSensitiveKey(items[i], lim)
    case _ => true
  }

  ghost predicate NoSensitiveField(fields: seq<Field>, lim: Bounds)
  {
    forall i :: 0 <= i < |fields| ==> !lim.isSecret(fields[i].key) && NoSensitiveKey(fields[i].value, lim)
  }

  lemma {:induction false} PutKeepsSecretsOut(fields: seq<Field>, key: string, value: Value, lim: Bounds)
    requires NoSensitiveField(fields, lim) && !lim.isSecret(key) && NoSensitiveKey(value, lim)
    ensures NoSensitiveField(Put(fields, key, value), lim)
  {
    if fields != [] && fields[0].key != key {
      PutKeepsSecretsOut(fields[1..], key, value, lim);
    }
  }

  lemma {:induction false} SanitizedHasNoSensitiveKey(v: Value, depth: nat, lim: Bounds)
    requires !lim.isSecret(TRUNCATED_ITEMS)
    ensures NoSensitiveKey(Sanitize(v, depth, lim), lim)
    decreases v, 1
  {
    if depth <= lim.depth {
      match v
      case Mapping(fields) =>
        var n := Min(|fields|, lim.items);
        SanitizedFieldsHaveNoSecret(fields, n, depth, lim);
        if |fields| > lim.items {
          PutKeepsSecretsOut(SanitizeFields(fields, n, depth, lim), TRUNCATED_ITEMS, Num(|fields| - lim.items), lim);
        }
      case Sequence(items) =>
        SanitizedItemsHaveNoSecret(items, Min(|items|, lim.items), depth, lim);
        var kept := SanitizeItems(items, Min(|items|, lim.items), depth, lim);
        forall i | 0 <= i < |SanitizeSequence(items, depth, lim)|
          ensures NoSensitiveKey(SanitizeSequence(items, depth, lim)[i], lim)
        {
          assert i < |kept| ==> SanitizeSequence(items, depth, lim)[i] == kept[i];
          assert i == |kept| ==> SanitizeSequence(items, depth, lim)[i].Str?;
        }
      case _ =>
    }
  }

  lemma {:induction false} SanitizedFieldsHaveNoSecret(fields: seq<Field>, n: nat, depth: nat, lim: Bounds)
    requires n <= |fields|
    requires !lim.isSecret(TRUNCATED_ITEMS)
    ensures NoSensitiveField(SanitizeFields(fields, n, depth, lim), lim)
    decreases fields, n
  {
    if n > 0 {
      SanitizedFieldsHaveNoSecret(fields, n - 1, depth, lim);
      var field := fields[n - 1];
      if !lim.isSecret(field.key) {
        SanitizedHasNoSensitiveKey(field.value, depth + 1, lim);
        PutKeepsSecretsOut(SanitizeFields(fields, n - 1, depth, lim), field.key, Sanitize(field.value, depth + 1, lim), lim);
      }
    }
  }

  lemma {:induction false} SanitizedItemsHaveNoSecret(items: seq<Value>, n: nat, depth: nat, lim: Bounds)
    requires n <= |items|
    requires !lim.isSecret(TRUNCATED_ITEMS)
    ensures forall i :: 0 <= i < n ==> NoSensitiveKey(SanitizeItems(items, n, depth, lim)[i], lim)
    decreases items, n
  {
    if n > 0 {
      SanitizedItemsHaveNoSecret(items, n - 1, depth, lim);
      SanitizedHasNoSensitiveKey(items[n - 1], depth + 1, lim);
    }
  }

  // ---- The copy is bounded ----------------------------------------------------------------------

  function Nodes(v: Value): nat
  {
    match v
    case Mapping(fields) => 1 + FieldNodes(fields)
    case Sequence(items) => 1 + ItemNodes(items)
    case _ => 1
  }

  function FieldNodes(fields: seq<Field>): nat
  {
    if fields == [] then 0 else Nodes(fields[0].value) + FieldNodes(fields[1..])
  }

  function ItemNodes(items: seq<Value>): nat
  {
    if items == [] then 0 else ItemNodes(items[..|items| - 1]) + Nodes(items[|items| - 1])
  }

  function Power(base: nat, e: nat): nat
  {
    if e == 0 then 1 else base * Power(base, e - 1)
  }

  /** The sum of base^i for i = 0..top. */
  function PowerSum(base: nat, top: nat): nat
  {
    if top == 0 then 1 else PowerSum(base, top - 1) + Power(base, top)
  }

  lemma {:induction false} PowerSumStep(base: nat, top: nat)
    ensures PowerSum(base, top + 1) == 1 + base * PowerSum(base, top)
  {
    if top > 0 {
      PowerSumStep(base, top - 1);
      assert base * (PowerSum(base, top - 1) + Power(base, top))
          == base * PowerSum(base, top - 1) + base * Power(base, top);
    } else {
      assert Power(base, 1) == base * Power(base, 0);
    }
  }

  lemma {:induction false} PowerSumPositive(base: nat, top: nat)
    ensures PowerSum(base, top) >= 1
  {
    if top > 0 { PowerSumPositive(base, top - 1); }
  }

  lemma {:induction false} PutNodes(fields: seq<Field>, key: string, value: Value)
    ensures FieldNodes(Put(fields, key, value)) <= FieldNodes(fields) + Nodes(value)
  {
    if fields != [] && fields[0].key != key {
      PutNodes(fields[1..], key, value);
    }
  }

  /** The copy of any tree has at most the nodes of a full tree of the allowed width and depth. */
  lemma {:induction false} SanitizedIsBounded(v: Value, depth: nat, lim: Bounds)
    requires depth <= lim.depth + 1
    ensures Nodes(Sanitize(v, depth, lim)) <= PowerSum(lim.items + 1, lim.depth + 1 - depth)
    decreases v, 1
  {
    PowerSumPositive(lim.items + 1, lim.depth + 1 - depth);
    if depth <= lim.depth {
      PowerSumStep(lim.items + 1, lim.depth - depth);
      match v
      case Mapping(fields) => SanitizedMappingBounded(fields, depth, lim);
      case Sequence(items) => SanitizedSequenceBounded(items, depth, lim);
      case _ =>
    }
  }

  /** Copies of at most width children, and perhaps one marker, fit in a row one wider. */
  lemma RowFits(total: nat, n: nat, width: nat, child: nat)
    requires n <= width && child >= 1 && total <= n * child
    ensures total <= (width + 1) * child && total + 1 <= (width + 1) * child
  {
    assert (width - n) * child >= 0;
    assert (width + 1) * child == n * child + (width - n) * child + child;
  }

  lemma MulStep(n: nat, k: nat)
    requires n > 0
    ensures n * k == (n - 1) * k + k
  {
  }

  lemma {:induction false} SanitizedMappingBounded(fields: seq<Field>, depth: nat, lim: Bounds)
    requires depth <= lim.depth
    ensures FieldNodes(SanitizeMapping(fields, depth, lim)) <= (lim.items + 1) * PowerSum(lim.items + 1, lim.depth - depth)
    decreases fields, |fields| + 1
  {
    var n := Min(|fields|, lim.items);
    var child := PowerSum(lim.items + 1, lim.depth - depth);
    PowerSumPositive(lim.items + 1, lim.depth - depth);
    SanitizedFieldsBounded(fields, n, depth, lim);
    var kept := SanitizeFields(fields, n, depth, lim);
    RowFits(FieldNodes(kept), n, lim.items, child);
    if |fields| > lim.items {
      PutNodes(kept, TRUNCATED_ITEMS, Num(|fields| - lim.items));
    }
  }

  lemma {:induction false} SanitizedSequenceBounded(items: seq<Value>, depth: nat, lim: Bounds)
    requires depth <= lim.depth
    ensures ItemNodes(SanitizeSequence(items, depth, lim)) <= (lim.items + 1) * PowerSum(lim.items + 1, lim.depth - depth)
    decreases items, |items| + 1
  {
    var n := Min(|items|, lim.items);
    PowerSumPositive(lim.items + 1, lim.depth - depth);
    SanitizedItemsBounded(items, n, depth, lim);
    var kept := SanitizeItems(items, n, depth, lim);
    RowFits(ItemNodes(kept), n, lim.items, PowerSum(lim.items + 1, lim.depth - depth));
    if |items| > lim.items {
      ItemNodesAppend(kept, ItemsNote(|items| - lim.items));
    }
  }

  lemma ItemNodesAppend(items: seq<Value>, item: Value)
    ensures ItemNodes(items + [item]) == ItemNodes(items) + Nodes(item)
  {
    assert (items + [item])[..|items + [item]| - 1] == items;
  }

  lemma {:induction false} SanitizedFieldsBounded(fields: seq<Field>, n: nat, depth: nat, lim: Bounds)
    requires n <= |fields| && depth <= lim.depth
    ensures FieldNodes(SanitizeFields(fields, n, depth, lim)) <= n * PowerSum(lim.items + 1, lim.depth - depth)
    decreases fields, n
  {
    if n > 0 {
      SanitizedFieldsBounded(fields, n - 1, depth, lim);
      MulStep(n, PowerSum(lim.items + 1, lim.depth - depth));
      var field := fields[n - 1];
      if !lim.isSecret(field.key) {
        SanitizedIsBounded(field.value, depth + 1, lim);
        PutNodes(SanitizeFields(fields, n - 1, depth, lim), field.key, Sanitize(field.value, depth + 1, lim));
      }
    }
  }

  lemma {:induction false} SanitizedItemsBounded(items: seq<Value>, n: nat, depth: nat, lim: Bounds)
    requires n <= |items| && depth <= lim.depth
    ensures ItemNodes(SanitizeItems(items, n, depth, lim)) <= n * PowerSum(lim.items + 1, lim.depth - depth)
    decreases items, n
  {
    if n > 0 {
      SanitizedItemsBounded(items, n - 1, depth, lim);
      SanitizedIsBounded(items[n - 1], depth + 1, lim);
      MulStep(n, PowerSum(lim.items + 1, lim.depth - depth));
      ItemNodesAppend(SanitizeItems(items, n - 1, depth, lim), Sanitize(items[n - 1], depth + 1, lim));
    }
  }

  lemma ShippedMarkerAllowed(isSecret: string -> bool)
    requires isSecret == IsSensitiveKey
    ensures !isSecret(TRUNCATED_ITEMS)
  {
    MarkerIsNotSensitive();
  }

  /** Whatever is handed to storage, its copy is free of sensitive keys and bounded in size. */
  lemma StoredCopyIsSafe(v: Value, lim: Bounds)
    requires lim.isSecret == IsSensitiveKey
    ensures NoSensitiveKey(Sanitize(v, 0, lim), lim)
    ensures Nodes(Sanitize(v, 0, lim)) <= PowerSum(lim.items + 1, lim.depth + 1)
  {
    ShippedMarkerAllowed(lim.isSecret);
    SanitizedHasNoSensitiveKey(v, 0, lim);
    SanitizedIsBounded(v, 0, lim);
  }

  // ---- What already fits is untouched -----------------------------------------------------------

  ghost predicate Fits(v: Value, depth: nat, lim: Bounds)
  {
    && depth <= lim.depth
    && match v
       case Str(text) => |text| <= lim.text
       case Mapping(fields) =>
         && |fields| <= lim.items
         && (forall i, j :: 0 <= i < j < |fields| ==> fields[i].key != fields[j].key)
         && (forall i :: 0 <= i < |fields| ==>
               !lim.isSecret(fields[i].key) && Fits(fields[i].value, depth + 1, lim))
       case Sequence(items) =>
         |items| <= lim.items && forall i :: 0 <= i < |items| ==> Fits(items[i], depth + 1, lim)
       case Other(_) => false
       case _ => true
  }

  lemma {:induction false} FittingTreeIsUnchanged(v: Value, depth: nat, lim: Bounds)
    requires Fits(v, depth, lim)
    ensures Sanitize(v, depth, lim) == v
    decreases v, 1
  {
    match v
    case Mapping(fields) =>
      FittingFieldsUnchanged(fields, |fields|, depth, lim);
      assert fields[..|fields|] == fields;
    case Sequence(items) =>
      FittingItemsUnchanged(items, |items|, depth, lim);
      assert items[..|items|] == items;
    case _ =>
  }

  lemma {:induction false} FittingFieldsUnchanged(fields: seq<Field>, n: nat, depth: nat, lim: Bounds)
    requires n <= |fields| && Fits(Mapping(fields), depth, lim)
    ensures SanitizeFields(fields, n, depth, lim) == fields[..n]
    decreases fields, n
  {
    if n > 0 {
      FittingFieldsUnchanged(fields, n - 1, depth, lim);
      FittingTreeIsUnchanged(fields[n - 1].value, depth + 1, lim);
      PutNextKey(fields, n);
    }
  }

  lemma PutNextKey(fields: seq<Field>, n: nat)
    requires 0 < n <= |fields| && forall i, j :: 0 <= i < j < |fields| ==> fields[i].key != fields[j].key
    ensures Put(fields[..n - 1], fields[n - 1].key, fields[n - 1].value) == fields[..n]
  {
    PutNewKeyAppends(fields[..n - 1], fields[n - 1].key, fields[n - 1].value);
  }

  lemma {:induction false} FittingItemsUnchanged(items: seq<Value>, n: nat, depth: nat, lim: Bounds)
    requires n <= |items| && Fits(Sequence(items), depth, lim)
    ensures SanitizeItems(items, n, depth, lim) == items[..n]
    decreases items, n
  {
    if n > 0 {
      FittingItemsUnchanged(items, n - 1, depth, lim);
      FittingTreeIsUnchanged(items[n - 1], depth + 1, lim);
      assert items[..n] == items[..n - 1] + [items[n - 1]];
    }
  }

  // ---- Copying twice ----------------------------------------------------------------------------

  /** Among the first n fields this one is copied, and no later one of the same key replaces it. */
  predicate Survives(fields: seq<Field>, n: nat, i: nat, lim: Bounds)
    requires i < n <= |fields|
  {
    !lim.isSecret(fields[i].key) && forall j :: i < j < n ==> fields[j].key != fields[i].key
  }

  /** The first n fields are all kept, and none of them uses the marker's key. */
  predicate NoneLost(fields: seq<Field>, n: nat, lim: Bounds)
    requires n <= |fields|
  {
    forall i :: 0 <= i < n ==> Survives(fields, n, i, lim) && fields[i].key != TRUNCATED_ITEMS
  }

  /** What a tree must be like for its copy to be copied unchanged: a list loses at most one item; a mapping over
      the limit loses one field if all its allowed fields are kept, and otherwise has room below it for the count;
      an object rendered too deep has room for the truncation mark; and so on for what is kept. */
  ghost predicate Settles(v: Value, depth: nat, lim: Bounds)
  {
    depth > lim.depth ||
    match v
    case Other(_) => depth < lim.depth || |TRUNCATED| <= lim.text
    case Sequence(items) =>
      && |items| <= lim.items + 1
      && forall i :: 0 <= i < Min(|items|, lim.items) ==> Settles(items[i], depth + 1, lim)
    case Mapping(fields) =>
      var n := Min(|fields|, lim.items);
      && (n < |fields| ==> if NoneLost(fields, n, lim) then |fields| == n + 1 else depth < lim.depth)
      && forall i :: 0 <= i < n && Survives(fields, n, i, lim) && (n < |fields| ==> fields[i].key != TRUNCATED_ITEMS) ==>
           Settles(fields[i].value, depth + 1, lim)
    case _ => true
  }

  predicate Fixed(c: Value, depth: nat, lim: Bounds) { Sanitize(c, depth, lim) == c }

  /** Copying the copy changes nothing exactly for the trees that settle. */
  lemma {:induction false} SecondCopyIsSameIff(v: Value, depth: nat, lim: Bounds)
    requires !lim.isSecret(TRUNCATED_ITEMS)
    ensures Fixed(Sanitize(v, depth, lim), depth, lim) <==> Settles(v, depth, lim)
    decreases v
  {
    if depth <= lim.depth {
      match v
      case Sequence(items) =>
        forall i | 0 <= i < |items| ensures Fixed(Sanitize(items[i], depth + 1, lim), depth + 1, lim) <==> Settles(items[i], depth + 1, lim) {
          SecondCopyIsSameIff(items[i], depth + 1, lim);
        }
        SecondListIsSameIff(items, depth, lim);
      case Mapping(fields) =>
        forall i | 0 <= i < |fields|
          ensures Fixed(Sanitize(fields[i].value, depth + 1, lim), depth + 1, lim) <==> Settles(fields[i].value, depth + 1, lim)
        {
          SecondCopyIsSameIff(fields[i].value, depth + 1, lim);
        }
        var settled := seq(|fields|, i requires 0 <= i < |fields| => Settles(fields[i].value, depth + 1, lim));
        SecondMappingIsSameIff(fields, depth, lim, settled);
      case Str(text) => ClippedTextIsFixed(text, lim);
      case Other(rendered) => ClippedTextIsFixed(rendered, lim);
      case _ =>
    }
  }

  /** A cut text is cut at the same place again. */
  lemma ClippedTextIsFixed(text: string, lim: Bounds)
    ensures ClipText(ClipText(text, lim).text, lim) == ClipText(text, lim)
  {
    if |text| > lim.text {
      assert (text[..lim.text] + TRUNCATED_SUFFIX)[..lim.text] == text[..lim.text];
    }
  }

  // Lists

  lemma {:induction false} ItemCopies(items: seq<Value>, n: nat, depth: nat, lim: Bounds)
    requires n <= |items|
    ensures forall i :: 0 <= i < n ==> SanitizeItems(items, n, depth, lim)[i] == Sanitize(items[i], depth + 1, lim)
  {
    if n > 0 {
      ItemCopies(items, n - 1, depth, lim);
    }
  }

  lemma LongDecimal(n: nat)
    requires n >= 10
    ensures |Decimal(n)| >= 2
  {
    assert |Decimal(n / 10)| >= 1;
  }

  lemma SingleNote(n: nat)
    ensures ItemsNote(n) == ItemsNote(1) <==> n == 1
  {
    if n >= 10 {
      LongDecimal(n);
      assert |ItemsNote(n).text| != |ItemsNote(1).text|;
    } else {
      assert ItemsNote(n).text[1] == "0123456789"[n] && ItemsNote(1).text[1] == '1';
    }
  }

  ghost predicate AllFixed(cs: seq<Value>, depth: nat, lim: Bounds)
  {
    forall i :: 0 <= i < |cs| ==> Fixed(cs[i], depth, lim)
  }

  lemma SecondListIsSame(cs: seq<Value>, n: nat, depth: nat, lim: Bounds)
    requires n <= |cs|
    ensures SanitizeItems(cs, n, depth, lim) == cs[..n] <==> AllFixed(cs[..n], depth + 1, lim)
  {
    ItemCopies(cs, n, depth, lim);
    var again := SanitizeItems(cs, n, depth, lim);
    assert forall i :: 0 <= i < n ==> again[i] == Sanitize(cs[..n][i], depth + 1, lim);
    if AllFixed(cs[..n], depth + 1, lim) {
      assert forall i :: 0 <= i < n ==> again[i] == cs[..n][i];
    }
  }

  lemma SecondListIsSameIff(items: seq<Value>, depth: nat, lim: Bounds)
    requires depth <= lim.depth
    requires forall i :: 0 <= i < |items| ==>
      (Fixed(Sanitize(items[i], depth + 1, lim), depth + 1, lim) <==> Settles(items[i], depth + 1, lim))
    ensures Fixed(Sanitize(Sequence(items), depth, lim), depth, lim) <==> Settles(Sequence(items), depth, lim)
  {
    var n := Min(|items|, lim.items);
    var kept := SanitizeItems(items, n, depth, lim);
    ItemCopies(items, n, depth, lim);
    var copy := SanitizeSequence(items, depth, lim);
    SecondListIsSame(copy, n, depth, lim);
    assert copy[..n] == kept;
    if n < |items| {
      SingleNote(|items| - n);
      var again := SanitizeSequence(copy, depth, lim);
      assert again == SanitizeItems(copy, n, depth, lim) + [ItemsNote(1)];
      assert copy == kept + [ItemsNote(|items| - n)];
      assert again == copy <==> SanitizeItems(copy, n, depth, lim) == kept && ItemsNote(1) == ItemsNote(|items| - n) by {
        assert again[..n] == SanitizeItems(copy, n, depth, lim) && again[n] == ItemsNote(1);
      }
    }
    assert AllFixed(kept, depth + 1, lim) <==> forall i :: 0 <= i < n ==> Settles(items[i], depth + 1, lim);
  }

  // Mappings

  ghost predicate DistinctKeys(fields: seq<Field>)
  {
    forall i, j :: 0 <= i < j < |fields| ==> fields[i].key != fields[j].key
  }

  predicate HasKey(fields: seq<Field>, key: string)
  {
    exists i :: 0 <= i < |fields| && fields[i].key == key
  }

  /** Assigning to an existing key replaces one field; assigning to a new one appends it. */
  lemma {:induction false} PutPlace(fields: seq<Field>, key: string, value: Value) returns (k: nat)
    requires DistinctKeys(fields)
    ensures if HasKey(fields, key)
            then k < |fields| && fields[k].key == key && Put(fields, key, value) == fields[k := Field(key, value)]
            else k == |fields| && Put(fields, key, value) == fields + [Field(key, value)]
    ensures DistinctKeys(Put(fields, key, value))
  {
    if HasKey(fields, key) {
      k :| 0 <= k < |fields| && fields[k].key == key;
      PutReplaces(fields, key, value, k);
    } else {
      k := |fields|;
      PutNewKeyAppends(fields, key, value);
    }
  }

  lemma {:induction false} PutReplaces(fields: seq<Field>, key: string, value: Value, k: nat)
    requires DistinctKeys(fields) && k < |fields| && fields[k].key == key
    ensures Put(fields, key, value) == fields[k := Field(key, value)]
  {
    if k > 0 {
      PutReplaces(fields[1..], key, value, k - 1);
    }
  }

  /** f is the copy of the i-th field, which survives among the first n. */
  ghost predicate CopyOf(f: Field, fields: seq<Field>, n: nat, i: nat, depth: nat, lim: Bounds)
  {
    && i < n <= |fields| && Survives(fields, n, i, lim)
    && f == Field(fields[i].key, Sanitize(fields[i].value, depth + 1, lim))
  }

  ghost predicate FromSurvivor(f: Field, fields: seq<Field>, n: nat, depth: nat, lim: Bounds)
  {
    exists i :: 0 <= i < n && CopyOf(f, fields, n, i, depth, lim)
  }

  ghost predicate HasCopy(c: seq<Field>, fields: seq<Field>, n: nat, i: nat, depth: nat, lim: Bounds)
  {
    exists k :: 0 <= k < |c| && CopyOf(c[k], fields, n, i, depth, lim)
  }

  /** The copied fields are the copies of the survivors, one each. */
  ghost predicate CopiesOf(c: seq<Field>, fields: seq<Field>, n: nat, depth: nat, lim: Bounds)
    requires n <= |fields|
  {
    && DistinctKeys(c) && |c| <= n
    && (forall k :: 0 <= k < |c| ==> FromSurvivor(c[k], fields, n, depth, lim))
    && (forall i :: 0 <= i < n && Survives(fields, n, i, lim) ==> HasCopy(c, fields, n, i, depth, lim))
    && (|c| == n <==> forall i :: 0 <= i < n ==> Survives(fields, n, i, lim))
  }

  lemma {:induction false} FieldCopies(fields: seq<Field>, n: nat, depth: nat, lim: Bounds)
    requires n <= |fields|
    ensures CopiesOf(SanitizeFields(fields, n, depth, lim), fields, n, depth, lim)
  {
    if n > 0 {
      FieldCopies(fields, n - 1, depth, lim);
      var kept := SanitizeFields(fields, n - 1, depth, lim);
      var field := fields[n - 1];
      if lim.isSecret(field.key) {
        SecretFieldAdds(kept, fields, n, depth, lim);
      } else {
        var k := PutPlace(kept, field.key, Sanitize(field.value, depth + 1, lim));
        KeyIsKnown(kept, fields, n, depth, lim);
        OneFieldAdds(kept, fields, n, depth, lim, k);
      }
    }
  }

  lemma SecretFieldAdds(kept: seq<Field>, fields: seq<Field>, n: nat, depth: nat, lim: Bounds)
    requires 0 < n <= |fields| && lim.isSecret(fields[n - 1].key) && CopiesOf(kept, fields, n - 1, depth, lim)
    ensures CopiesOf(kept, fields, n, depth, lim)
  {
    assert forall i :: 0 <= i < n - 1 ==> (Survives(fields, n, i, lim) <==> Survives(fields, n - 1, i, lim));
    assert !Survives(fields, n, n - 1, lim);
    forall k | 0 <= k < |kept| ensures FromSurvivor(kept[k], fields, n, depth, lim) {
      var i :| 0 <= i < n - 1 && CopyOf(kept[k], fields, n - 1, i, depth, lim);
      assert CopyOf(kept[k], fields, n, i, depth, lim);
    }
    forall i | 0 <= i < n && Survives(fields, n, i, lim) ensures HasCopy(kept, fields, n, i, depth, lim) {
      assert HasCopy(kept, fields, n - 1, i, depth, lim);
      var k :| 0 <= k < |kept| && CopyOf(kept[k], fields, n - 1, i, depth, lim);
      assert CopyOf(kept[k], fields, n, i, depth, lim);
    }
  }

  /** A key that is not secret is already among the copies exactly if an earlier field has it. */
  lemma KeyIsKnown(kept: seq<Field>, fields: seq<Field>, n: nat, depth: nat, lim: Bounds)
    requires 0 < n <= |fields| && !lim.isSecret(fields[n - 1].key) && CopiesOf(kept, fields, n - 1, depth, lim)
    ensures HasKey(kept, fields[n - 1].key) <==> HasKey(fields[..n - 1], fields[n - 1].key)
  {
    var key := fields[n - 1].key;
    if HasKey(kept, key) {
      var k :| 0 <= k < |kept| && kept[k].key == key;
      assert FromSurvivor(kept[k], fields, n - 1, depth, lim);
      var i :| 0 <= i < n - 1 && CopyOf(kept[k], fields, n - 1, i, depth, lim);
      assert fields[..n - 1][i].key == key;
    }
    if HasKey(fields[..n - 1], key) {
      var i :| 0 <= i < n - 1 && fields[..n - 1][i].key == key;
      var last := LastWithKey(fields, n - 1, i);
      assert Survives(fields, n - 1, last, lim);
      assert HasCopy(kept, fields, n - 1, last, depth, lim);
    }
  }

  lemma LastWithKey(fields: seq<Field>, n: nat, i: nat) returns (last: nat)
    requires i < n <= |fields|
    ensures last < n && fields[last].key == fields[i].key
    ensures forall j :: last < j < n ==> fields[j].key != fields[last].key
    decreases n - i
  {
    if j :| i < j < n && fields[j].key == fields[i].key {
      last := LastWithKey(fields, n, j);
    } else {
      last := i;
    }
  }

  /** c is kept with f at k, replacing a field or appended. */
  ghost predicate OneChange(kept: seq<Field>, c: seq<Field>, k: nat, f: Field)
  {
    && k < |c| && c[k] == f && |kept| <= |c| <= |kept| + 1 && (|c| > |kept| ==> k == |kept|)
    && forall m :: 0 <= m < |kept| && m != k ==> c[m] == kept[m]
  }

  lemma OneFieldAdds(kept: seq<Field>, fields: seq<Field>, n: nat, depth: nat, lim: Bounds, k: nat)
    requires 0 < n <= |fields| && !lim.isSecret(fields[n - 1].key) && CopiesOf(kept, fields, n - 1, depth, lim)
    requires HasKey(kept, fields[n - 1].key) <==> HasKey(fields[..n - 1], fields[n - 1].key)
    requires HasKey(kept, fields[n - 1].key) ==> k < |kept| && kept[k].key == fields[n - 1].key
    requires !HasKey(kept, fields[n - 1].key) ==> k == |kept|
    ensures var f := Field(fields[n - 1].key, Sanitize(fields[n - 1].value, depth + 1, lim));
      CopiesOf(if k < |kept| then kept[k := f] else kept + [f], fields, n, depth, lim)
  {
    var key := fields[n - 1].key;
    var f := Field(key, Sanitize(fields[n - 1].value, depth + 1, lim));
    var c := if k < |kept| then kept[k := f] else kept + [f];
    assert OneChange(kept, c, k, f);
    assert DistinctKeys(c);
    OneChangeSurvives(fields, n, lim);
    OneChangeFromSurvivors(kept, c, fields, n, depth, lim, k);
    OneChangeHasCopies(kept, c, fields, n, depth, lim, k);
    OneChangeCounts(kept, c, fields, n, depth, lim, k);
  }

  lemma OneChangeSurvives(fields: seq<Field>, n: nat, lim: Bounds)
    requires 0 < n <= |fields|
    ensures forall i :: 0 <= i < n - 1 ==>
      (Survives(fields, n, i, lim) <==> Survives(fields, n - 1, i, lim) && fields[i].key != fields[n - 1].key)
    ensures Survives(fields, n, n - 1, lim) <==> !lim.isSecret(fields[n - 1].key)
  {
  }

  lemma OneChangeFromSurvivors(kept: seq<Field>, c: seq<Field>, fields: seq<Field>, n: nat, depth: nat, lim: Bounds, k: nat)
    requires 0 < n <= |fields| && !lim.isSecret(fields[n - 1].key) && CopiesOf(kept, fields, n - 1, depth, lim) && DistinctKeys(c)
    requires OneChange(kept, c, k, Field(fields[n - 1].key, Sanitize(fields[n - 1].value, depth + 1, lim)))
    ensures forall m :: 0 <= m < |c| ==> FromSurvivor(c[m], fields, n, depth, lim)
  {
    OneChangeSurvives(fields, n, lim);
    forall m | 0 <= m < |c| ensures FromSurvivor(c[m], fields, n, depth, lim) {
      if m != k {
        assert c[m] == kept[m] && FromSurvivor(kept[m], fields, n - 1, depth, lim);
        var i :| 0 <= i < n - 1 && CopyOf(kept[m], fields, n - 1, i, depth, lim);
        assert c[m].key != c[k].key;
        assert CopyOf(c[m], fields, n, i, depth, lim);
      } else {
        assert CopyOf(c[k], fields, n, n - 1, depth, lim);
      }
    }
  }

  lemma OneChangeHasCopies(kept: seq<Field>, c: seq<Field>, fields: seq<Field>, n: nat, depth: nat, lim: Bounds, k: nat)
    requires 0 < n <= |fields| && !lim.isSecret(fields[n - 1].key) && CopiesOf(kept, fields, n - 1, depth, lim)
    requires OneChange(kept, c, k, Field(fields[n - 1].key, Sanitize(fields[n - 1].value, depth + 1, lim)))
    requires k < |kept| ==> kept[k].key == fields[n - 1].key
    ensures forall i :: 0 <= i < n && Survives(fields, n, i, lim) ==> HasCopy(c, fields, n, i, depth, lim)
  {
    OneChangeSurvives(fields, n, lim);
    forall i | 0 <= i < n && Survives(fields, n, i, lim) ensures HasCopy(c, fields, n, i, depth, lim) {
      if i < n - 1 {
        assert HasCopy(kept, fields, n - 1, i, depth, lim);
        var m :| 0 <= m < |kept| && CopyOf(kept[m], fields, n - 1, i, depth, lim);
        assert CopyOf(c[m], fields, n, i, depth, lim);
      } else {
        assert CopyOf(c[k], fields, n, i, depth, lim);
      }
    }
  }

  lemma OneChangeCounts(kept: seq<Field>, c: seq<Field>, fields: seq<Field>, n: nat, depth: nat, lim: Bounds, k: nat)
    requires 0 < n <= |fields| && !lim.isSecret(fields[n - 1].key) && CopiesOf(kept, fields, n - 1, depth, lim)
    requires |c| == if HasKey(fields[..n - 1], fields[n - 1].key) then |kept| else |kept| + 1
    ensures |c| <= n && (|c| == n <==> forall i :: 0 <= i < n ==> Survives(fields, n, i, lim))
  {
    OneChangeSurvives(fields, n, lim);
    var front := fields[..n - 1];
    assert forall i :: 0 <= i < n - 1 ==> front[i] == fields[i];
    if HasKey(front, fields[n - 1].key) {
      var i :| 0 <= i < n - 1 && front[i].key == fields[n - 1].key;
      assert !Survives(fields, n, i, lim);
    }
  }

  /** A copied mapping has no secret and no repeated key, so copying it again copies each value. */
  lemma {:induction false} SecondFields(c: seq<Field>, n: nat, depth: nat, lim: Bounds)
    requires n <= |c| && DistinctKeys(c) && forall i :: 0 <= i < |c| ==> !lim.isSecret(c[i].key)
    ensures |SanitizeFields(c, n, depth, lim)| == n
    ensures forall i :: 0 <= i < n ==> SanitizeFields(c, n, depth, lim)[i] == Field(c[i].key, Sanitize(c[i].value, depth + 1, lim))
  {
    if n > 0 {
      SecondFields(c, n - 1, depth, lim);
      PutNewKeyAppends(SanitizeFields(c, n - 1, depth, lim), c[n - 1].key, Sanitize(c[n - 1].value, depth + 1, lim));
    }
  }

  ghost predicate FieldsFixed(c: seq<Field>, depth: nat, lim: Bounds)
  {
    forall i :: 0 <= i < |c| ==> Fixed(c[i].value, depth, lim)
  }

  lemma SecondFieldsAreSame(c: seq<Field>, n: nat, depth: nat, lim: Bounds)
    requires n <= |c| && DistinctKeys(c) && forall i :: 0 <= i < |c| ==> !lim.isSecret(c[i].key)
    ensures SanitizeFields(c, n, depth, lim) == c[..n] <==> FieldsFixed(c[..n], depth + 1, lim)
  {
    SecondFields(c, n, depth, lim);
    var again := SanitizeFields(c, n, depth, lim);
    if again == c[..n] {
      assert forall i :: 0 <= i < n ==> again[i] == c[..n][i];
    }
    if FieldsFixed(c[..n], depth + 1, lim) {
      assert forall i :: 0 <= i < n ==> again[i] == c[..n][i];
    }
  }

  /** Which of the fields have a copy that is copied unchanged. */
  ghost predicate Settled(settled: seq<bool>, fields: seq<Field>, depth: nat, lim: Bounds)
  {
    && |settled| == |fields|
    && forall i :: 0 <= i < |fields| ==> (settled[i] <==> Fixed(Sanitize(fields[i].value, depth + 1, lim), depth + 1, lim))
  }

  /** All survivors but one of this key settle. */
  ghost predicate SurvivorsSettle(fields: seq<Field>, n: nat, settled: seq<bool>, lim: Bounds, skip: Option<string>)
    requires n <= |fields| == |settled|
  {
    forall i :: 0 <= i < n && Survives(fields, n, i, lim) && Some(fields[i].key) != skip ==> settled[i]
  }

  /** The kept values are fixed exactly if the survivors settle. */
  lemma KeptAreFixedIff(c: seq<Field>, fields: seq<Field>, n: nat, depth: nat, lim: Bounds, settled: seq<bool>, skip: Option<string>)
    requires n <= |fields| && CopiesOf(c, fields, n, depth, lim) && Settled(settled, fields, depth, lim)
    ensures OthersFixed(c, depth + 1, lim, skip) <==> SurvivorsSettle(fields, n, settled, lim, skip)
  {
    if OthersFixed(c, depth + 1, lim, skip) {
      forall i | 0 <= i < n && Survives(fields, n, i, lim) && Some(fields[i].key) != skip ensures settled[i] {
        assert HasCopy(c, fields, n, i, depth, lim);
        var k :| 0 <= k < |c| && CopyOf(c[k], fields, n, i, depth, lim);
      }
    } else {
      var k :| 0 <= k < |c| && Some(c[k].key) != skip && !Fixed(c[k].value, depth + 1, lim);
      assert FromSurvivor(c[k], fields, n, depth, lim);
      var i :| 0 <= i < n && CopyOf(c[k], fields, n, i, depth, lim);
      assert !settled[i];
    }
  }

  lemma CopiesAreNotSecret(c: seq<Field>, fields: seq<Field>, n: nat, depth: nat, lim: Bounds)
    requires n <= |fields| && CopiesOf(c, fields, n, depth, lim)
    ensures forall k :: 0 <= k < |c| ==> !lim.isSecret(c[k].key)
  {
    forall k | 0 <= k < |c| ensures !lim.isSecret(c[k].key) {
      assert FromSurvivor(c[k], fields, n, depth, lim);
    }
  }

  /** The condition on a mapping, its fields' own conditions given. */
  ghost predicate MappingSettles(fields: seq<Field>, depth: nat, lim: Bounds, settled: seq<bool>)
    requires |settled| == |fields|
  {
    var n := Min(|fields|, lim.items);
    && (n < |fields| ==> if NoneLost(fields, n, lim) then |fields| == n + 1 else depth < lim.depth)
    && SurvivorsSettle(fields, n, settled, lim, if n < |fields| then Some(TRUNCATED_ITEMS) else None)
  }

  lemma SecondMappingIsSameIff(fields: seq<Field>, depth: nat, lim: Bounds, settled: seq<bool>)
    requires depth <= lim.depth && !lim.isSecret(TRUNCATED_ITEMS) && Settled(settled, fields, depth, lim)
    ensures SanitizeMapping(SanitizeMapping(fields, depth, lim), depth, lim) == SanitizeMapping(fields, depth, lim)
      <==> MappingSettles(fields, depth, lim, settled)
  {
    var n := Min(|fields|, lim.items);
    var kept := SanitizeFields(fields, n, depth, lim);
    FieldCopies(fields, n, depth, lim);
    CopiesAreNotSecret(kept, fields, n, depth, lim);
    if n == |fields| {
      FittingMappingIsSameIff(kept, fields, n, depth, lim, settled);
    } else if NoneLost(fields, n, lim) {
      FullMappingIsSameIff(kept, fields, n, depth, lim, settled);
    } else {
      ShortMappingIsSameIff(kept, fields, n, depth, lim, settled);
    }
  }

  /** What the three cases share. */
  ghost predicate KeptFields(kept: seq<Field>, fields: seq<Field>, n: nat, depth: nat, lim: Bounds, settled: seq<bool>)
  {
    && n == Min(|fields|, lim.items) && kept == SanitizeFields(fields, n, depth, lim) && CopiesOf(kept, fields, n, depth, lim)
    && (forall k :: 0 <= k < |kept| ==> !lim.isSecret(kept[k].key))
    && Settled(settled, fields, depth, lim) && depth <= lim.depth && !lim.isSecret(TRUNCATED_ITEMS)
  }

  lemma FittingMappingIsSameIff(kept: seq<Field>, fields: seq<Field>, n: nat, depth: nat, lim: Bounds, settled: seq<bool>)
    requires KeptFields(kept, fields, n, depth, lim, settled) && n == |fields|
    ensures SanitizeMapping(kept, depth, lim) == kept <==> SurvivorsSettle(fields, n, settled, lim, None)
  {
    SecondFieldsAreSame(kept, |kept|, depth, lim);
    assert kept[..|kept|] == kept;
    KeptAreFixedIff(kept, fields, n, depth, lim, settled, None);
  }

  lemma FullCopyIsMarked(kept: seq<Field>, fields: seq<Field>, n: nat, depth: nat, lim: Bounds)
    requires n == lim.items < |fields| && NoneLost(fields, n, lim)
    requires kept == SanitizeFields(fields, n, depth, lim) && CopiesOf(kept, fields, n, depth, lim)
    ensures SanitizeMapping(fields, depth, lim) == kept + [Field(TRUNCATED_ITEMS, Num(|fields| - n))]
    ensures |kept| == n && forall k :: 0 <= k < n ==> kept[k].key != TRUNCATED_ITEMS
  {
    forall k | 0 <= k < |kept| ensures kept[k].key != TRUNCATED_ITEMS {
      assert FromSurvivor(kept[k], fields, n, depth, lim);
    }
    PutNewKeyAppends(kept, TRUNCATED_ITEMS, Num(|fields| - n));
  }

  /** Over the limit with every allowed field kept: the count is made anew. */
  lemma FullMappingIsSameIff(kept: seq<Field>, fields: seq<Field>, n: nat, depth: nat, lim: Bounds, settled: seq<bool>)
    requires KeptFields(kept, fields, n, depth, lim, settled) && n < |fields| && NoneLost(fields, n, lim)
    ensures SanitizeMapping(SanitizeMapping(fields, depth, lim), depth, lim) == SanitizeMapping(fields, depth, lim) <==>
      |fields| - n == 1 && SurvivorsSettle(fields, n, settled, lim, Some(TRUNCATED_ITEMS))
  {
    FullCopyIsSameIff(kept, fields, n, depth, lim);
    KeptAreFixedIff(kept, fields, n, depth, lim, settled, Some(TRUNCATED_ITEMS));
  }

  lemma FullCopyIsSameIff(kept: seq<Field>, fields: seq<Field>, n: nat, depth: nat, lim: Bounds)
    requires n == lim.items < |fields| && NoneLost(fields, n, lim) && !lim.isSecret(TRUNCATED_ITEMS)
    requires kept == SanitizeFields(fields, n, depth, lim) && CopiesOf(kept, fields, n, depth, lim)
    requires forall k :: 0 <= k < |kept| ==> !lim.isSecret(kept[k].key)
    ensures SanitizeMapping(SanitizeMapping(fields, depth, lim), depth, lim) == SanitizeMapping(fields, depth, lim) <==>
      |fields| - n == 1 && OthersFixed(kept, depth + 1, lim, Some(TRUNCATED_ITEMS))
  {
    FullCopyIsMarked(kept, fields, n, depth, lim);
    var lost: nat := |fields| - n;
    MarkedCopyIsSameIff(kept, SanitizeMapping(fields, depth, lim), n, depth, lim, lost);
  }

  lemma NoMarkerToSkip(kept: seq<Field>, depth: nat, lim: Bounds)
    requires forall k :: 0 <= k < |kept| ==> kept[k].key != TRUNCATED_ITEMS
    ensures FieldsFixed(kept, depth + 1, lim) <==> OthersFixed(kept, depth + 1, lim, Some(TRUNCATED_ITEMS))
  {
  }

  /** A full mapping with a count behind it keeps its count only if that is one. */
  lemma MarkedCopyIsSameIff(kept: seq<Field>, copy: seq<Field>, n: nat, depth: nat, lim: Bounds, lost: nat)
    requires |kept| == n == lim.items && DistinctKeys(kept) && !lim.isSecret(TRUNCATED_ITEMS)
    requires forall k :: 0 <= k < n ==> !lim.isSecret(kept[k].key) && kept[k].key != TRUNCATED_ITEMS
    requires copy == kept + [Field(TRUNCATED_ITEMS, Num(lost))]
    ensures SanitizeMapping(copy, depth, lim) == copy <==> lost == 1 && OthersFixed(kept, depth + 1, lim, Some(TRUNCATED_ITEMS))
  {
    NoMarkerToSkip(kept, depth, lim);
    var mark := Field(TRUNCATED_ITEMS, Num(lost));
    assert copy[..n] == kept;
    SecondFieldsAreSame(copy, n, depth, lim);
    SecondFields(copy, n, depth, lim);
    var again := SanitizeFields(copy, n, depth, lim);
    PutNewKeyAppends(again, TRUNCATED_ITEMS, Num(1));
    AppendSame(again, kept, Field(TRUNCATED_ITEMS, Num(1)), mark);
  }

  lemma AppendSame(a: seq<Field>, b: seq<Field>, x: Field, y: Field)
    requires |a| == |b|
    ensures a + [x] == b + [y] <==> a == b && x == y
  {
    if a + [x] == b + [y] {
      assert (a + [x])[..|a|] == a && (b + [y])[..|a|] == b;
      assert (a + [x])[|a|] == x && (b + [y])[|a|] == y;
    }
  }

  ghost predicate OthersFixed(kept: seq<Field>, depth: nat, lim: Bounds, skip: Option<string>)
  {
    forall k :: 0 <= k < |kept| && Some(kept[k].key) != skip ==> Fixed(kept[k].value, depth, lim)
  }

  /** Over the limit with a field lost or the marker's key in use: the copy is within the limit, count and all. */
  lemma ShortMappingIsSameIff(kept: seq<Field>, fields: seq<Field>, n: nat, depth: nat, lim: Bounds, settled: seq<bool>)
    requires KeptFields(kept, fields, n, depth, lim, settled) && n < |fields| && !NoneLost(fields, n, lim)
    ensures SanitizeMapping(SanitizeMapping(fields, depth, lim), depth, lim) == SanitizeMapping(fields, depth, lim) <==>
      depth < lim.depth && SurvivorsSettle(fields, n, settled, lim, Some(TRUNCATED_ITEMS))
  {
    ShortCopyIsSameIff(kept, fields, n, depth, lim);
    KeptAreFixedIff(kept, fields, n, depth, lim, settled, Some(TRUNCATED_ITEMS));
  }

  lemma ShortCopyIsSameIff(kept: seq<Field>, fields: seq<Field>, n: nat, depth: nat, lim: Bounds)
    requires n == lim.items < |fields| && !NoneLost(fields, n, lim) && depth <= lim.depth && !lim.isSecret(TRUNCATED_ITEMS)
    requires kept == SanitizeFields(fields, n, depth, lim) && CopiesOf(kept, fields, n, depth, lim)
    requires forall k :: 0 <= k < |kept| ==> !lim.isSecret(kept[k].key)
    ensures SanitizeMapping(SanitizeMapping(fields, depth, lim), depth, lim) == SanitizeMapping(fields, depth, lim) <==>
      depth < lim.depth && OthersFixed(kept, depth + 1, lim, Some(TRUNCATED_ITEMS))
  {
    LostMakesRoom(kept, fields, n, depth, lim);
    CountedCopyIsSameIff(kept, n, depth, lim, |fields| - n);
  }

  /** A count inside the limit is a value like any other. */
  lemma CountedCopyIsSameIff(kept: seq<Field>, n: nat, depth: nat, lim: Bounds, lost: nat)
    requires DistinctKeys(kept) && n == lim.items && |kept| <= n && (|kept| == n ==> HasKey(kept, TRUNCATED_ITEMS))
    requires depth <= lim.depth && !lim.isSecret(TRUNCATED_ITEMS) && forall k :: 0 <= k < |kept| ==> !lim.isSecret(kept[k].key)
    ensures var copy := Put(kept, TRUNCATED_ITEMS, Num(lost));
      SanitizeMapping(copy, depth, lim) == copy <==>
        && depth < lim.depth
        && OthersFixed(kept, depth + 1, lim, Some(TRUNCATED_ITEMS))
  {
    var mark := Field(TRUNCATED_ITEMS, Num(lost));
    var at := PutPlace(kept, TRUNCATED_ITEMS, Num(lost));
    var copy := Put(kept, TRUNCATED_ITEMS, Num(lost));
    assert |copy| <= n && copy[at] == mark;
    SecondFieldsAreSame(copy, |copy|, depth, lim);
    assert copy[..|copy|] == copy;
    assert forall k :: 0 <= k < |copy| && k != at ==> copy[k] == kept[k] && copy[k].key != TRUNCATED_ITEMS;
    assert Fixed(mark.value, depth + 1, lim) <==> depth < lim.depth;
  }

  lemma LostMakesRoom(kept: seq<Field>, fields: seq<Field>, n: nat, depth: nat, lim: Bounds)
    requires n <= |fields| && CopiesOf(kept, fields, n, depth, lim) && !NoneLost(fields, n, lim)
    ensures |kept| == n ==> HasKey(kept, TRUNCATED_ITEMS)
  {
    if |kept| == n {
      var i :| 0 <= i < n && !(Survives(fields, n, i, lim) && fields[i].key != TRUNCATED_ITEMS);
      assert HasCopy(kept, fields, n, i, depth, lim);
    }
  }

  /** So a list that lost more than one item, or a full mapping that lost more than one field, is copied
      differently the second time: the note then speaks of one loss. */
  lemma SecondCopyForgetsTheCount(v: Value, depth: nat, lim: Bounds)
    requires depth <= lim.depth && !lim.isSecret(TRUNCATED_ITEMS)
    requires match v
      case Sequence(items) => |items| > lim.items + 1
      case Mapping(fields) => |fields| > lim.items + 1 && NoneLost(fields, lim.items, lim)
      case _ => false
    ensures Sanitize(Sanitize(v, depth, lim), depth, lim) != Sanitize(v, depth, lim)
  {
    SecondCopyIsSameIff(v, depth, lim);
  }
}
