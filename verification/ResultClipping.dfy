/**
 Clipping a tool result to the output budget: whole records are dropped from the longest top-level list,
 and what was dropped is stated beside what is delivered.
 */
module ResultClipping {
  import opened Common
  import opened Json

  // ---- Evidence references ----------------------------------------------------------------------

  function Lower(s: string): string
  {
    if s == "" then "" else [LowerChar(s[0])] + Lower(s[1..])
  }

  predicate EndsWith(s: string, suffix: string)
  {
    |s| >= |suffix| && s[|s| - |suffix|..] == suffix
  }

  predicate IsReferenceKey(lowered: string)
  {
    lowered == "evidence_ref" || EndsWith(lowered, "_evidence_ref")
  }

  predicate IsReferenceListKey(lowered: string)
  {
    lowered == "evidence_references" || lowered == "evidence_refs" || EndsWith(lowered, "_evidence_refs")
  }

  predicate IsIdKey(key: string)
  {
    key == "alert_id" || key == "finding_id" || key == "evidence_id" || key == "investigation_id"
  }

  function IdPrefix(key: string): string
  {
    if key == "alert_id" then "wazuh:alert:"
    else if key == "finding_id" then "finding:"
    else if key == "evidence_id" then "evidence:"
    else "investigation:"
  }

  /** Text or an integer; booleans count as integers. */
  predicate IsScalar(v: Value) { v.Str? || v.Num? || v.Bool? }

  function ScalarText(v: Value): string
    requires IsScalar(v)
  {
    match v
    case Str(text) => text
    case Num(n) => if n < 0 then "-" + Decimal(-n) else Decimal(n)
    case Bool(b) => if b then "True" else "False"
  }

  function NonEmpty(s: string): seq<string> { if s == "" then [] else [s] }

  function TextItems(items: seq<Value>): seq<string>
  {
    if items == [] then []
    else TextItems(items[..|items| - 1])
         + if items[|items| - 1].Str? then NonEmpty(items[|items| - 1].text) else []
  }

  /** Every reference a tree mentions, in the order it is visited. */
  function References(v: Value): seq<string>
    decreases v, 1
  {
    match v
    case Mapping(fields) => FieldsReferences(fields)
    case Sequence(items) => ItemsReferences(items)
    case _ => []
  }

  function FieldsReferences(fields: seq<Field>): seq<string>
    decreases fields, 0
  {
    if fields == [] then [] else FieldReferences(fields[0]) + FieldsReferences(fields[1..])
  }

  function ItemsReferences(items: seq<Value>): seq<string>
    decreases items, 0
  {
    if items == [] then [] else ItemsReferences(items[..|items| - 1]) + References(items[|items| - 1])
  }

  function FieldReferences(f: Field): seq<string>
    decreases f, 2
  {
    var lowered := Lower(f.key);
    if f.value.Str? && IsReferenceKey(lowered) then NonEmpty(f.value.text)
    else if f.value.Sequence? && IsReferenceListKey(lowered) then TextItems(f.value.items)
    else if IsIdKey(f.key) && IsScalar(f.value) then [IdPrefix(f.key) + ScalarText(f.value)]
    else References(f.value)
  }

  function CollectEvidenceReferences(fields: seq<Field>): seq<string>
  {
    Dedupe(FieldsReferences(fields))
  }

  ghost predicate Within(a: seq<string>, b: seq<string>)
  {
    forall x :: x in a ==> x in b
  }

  lemma {:induction false} FieldsReferencesMembers(fields: seq<Field>, r: string)
    ensures r in FieldsReferences(fields) <==> exists i :: 0 <= i < |fields| && r in FieldReferences(fields[i])
  {
    if fields != [] {
      FieldsReferencesMembers(fields[1..], r);
      assert forall i :: 0 <= i < |fields| - 1 ==> fields[1..][i] == fields[i + 1];
      if i :| 0 <= i < |fields| && r in FieldReferences(fields[i]) {
        if i > 0 { assert fields[1..][i - 1] == fields[i]; }
      }
      if r in FieldsReferences(fields[1..]) {
        var i :| 0 <= i < |fields[1..]| && r in FieldReferences(fields[1..][i]);
        assert fields[i + 1] == fields[1..][i];
      }
    }
  }

  /** What a prefix of a list mentions, the list mentions. */
  lemma {:induction false} PrefixMentionsLess(items: seq<Value>, n: nat)
    requires n <= |items|
    ensures Within(ItemsReferences(items[..n]), ItemsReferences(items))
    ensures Within(TextItems(items[..n]), TextItems(items))
  {
    if n < |items| {
      PrefixMentionsLess(items[..|items| - 1], n);
      assert items[..|items| - 1][..n] == items[..n];
    } else {
      assert items[..n] == items;
    }
  }

  lemma PrefixFieldMentionsLess(key: string, items: seq<Value>, n: nat)
    requires n <= |items|
    ensures Within(FieldReferences(Field(key, Sequence(items[..n]))), FieldReferences(Field(key, Sequence(items))))
  {
    PrefixMentionsLess(items, n);
  }

  // ---- Bookkeeping fields -----------------------------------------------------------------------

  /** A key whose shape rules out every reference rule: it ends neither in "ref" nor in "_id". */
  ghost predicate PlainKey(key: string)
  {
    |key| >= 2 && LowerChar(key[|key| - 1]) != 'f' && key[|key| - 2] != 'i'
  }

  lemma {:induction false} LowerAt(s: string, i: nat)
    requires i < |s|
    ensures |Lower(s)| == |s| && Lower(s)[i] == LowerChar(s[i])
  {
    if |s| > 1 {
      LowerAt(s[1..], if i > 0 then i - 1 else 0);
    }
  }

  lemma PlainFieldHasNoReferences(key: string, value: Value)
    requires PlainKey(key) && !value.Mapping? && !value.Sequence?
    ensures FieldReferences(Field(key, value)) == []
  {
    LowerAt(key, |key| - 1);
    var lowered := Lower(key);
    assert lowered[|lowered| - 1] != 'f';
  }

  ghost predicate PlainFields(fields: seq<Field>)
  {
    forall i :: 0 <= i < |fields| ==>
      PlainKey(fields[i].key) && !fields[i].value.Mapping? && !fields[i].value.Sequence?
  }

  function Truthy(v: Option<Value>): bool
  {
    match v
    case None => false
    case Some(Null) => false
    case Some(Bool(b)) => b
    case Some(Num(n)) => n != 0
    case Some(Str(text)) => text != ""
    case Some(Mapping(fields)) => fields != []
    case Some(Sequence(items)) => items != []
    case Some(Other(_)) => true
  }

  /** The first of two keys that carries a number. */
  function NumberOf(source: seq<Field>, first: string, second: string): int
  {
    match (Get(source, first), Get(source, second))
    case (Some(Num(n)), _) => n
    case (Some(Bool(b)), _) => if b then 1 else 0
    case (_, Some(Num(n))) => n
    case (_, Some(Bool(b))) => if b then 1 else 0
    case _ => 0
  }

  function FirstPresent(a: Option<Value>, b: Option<Value>): Option<Value> { if a.Some? then a else b }

  function CoverageSnapshot(value: seq<Field>): seq<Field>
  {
    var source := match Get(value, "coverage") case Some(Mapping(fields)) => fields case _ => value;
    var matched := NumberOf(source, "matched", "total");
    var returned := NumberOf(source, "source_returned", "returned");
    var truncated := Truthy(FirstPresent(Get(source, "source_truncated"),
                              FirstPresent(Get(source, "truncated"), Get(value, "truncated"))));
    [Field("matched", Num(matched)),
     Field("source_returned", Num(returned)),
     Field("source_truncated", Bool(truncated)),
     Field("search_status", Str(if truncated || (matched > 0 && returned < matched) then "partial" else "complete"))]
  }

  lemma SnapshotIsPlain(value: seq<Field>)
    ensures PlainFields(CoverageSnapshot(value))
  {
  }

  // ---- One round of shrinking -------------------------------------------------------------------

  /** Lengths of the top-level lists before anything was dropped. */
  function ListLengths(fields: seq<Field>): seq<Field>
  {
    if fields == [] then []
    else (if fields[0].value.Sequence? then [Field(fields[0].key, Num(|fields[0].value.items|))] else [])
         + ListLengths(fields[1..])
  }

  /** How many records each shortened list lost. */
  function DroppedRecords(shrunk: seq<Field>, original: seq<Field>): seq<Field>
  {
    if original == [] then [] else DroppedHead(shrunk, original[0]) + DroppedRecords(shrunk, original[1..])
  }

  function DroppedHead(shrunk: seq<Field>, length: Field): seq<Field>
  {
    match (length.value, Get(shrunk, length.key))
    case (Num(n), Some(Sequence(items))) => if |items| < n then [Field(length.key, Num(n - |items|))] else []
    case _ => []
  }

  /** The first longest non-empty list. */
  function LongestList(fields: seq<Field>): Option<(string, nat)>
  {
    if fields == [] then None
    else
      var f := fields[|fields| - 1];
      var before := LongestList(fields[..|fields| - 1]);
      if f.value.Sequence? && f.value.items != [] && f.key != "evidence_references"
         && (before.None? || |f.value.items| > before.value.1)
      then Some((f.key, |f.value.items|))
      else before
  }

  function WithCoverage(shrunk: seq<Field>, snapshot: seq<Field>, extra: seq<Field>): Option<seq<Field>>
  {
    match Get(shrunk, "coverage")
    case None => Some(shrunk)
    case Some(Mapping(coverage)) =>
      Some(Put(shrunk, "coverage", Mapping(Update(Update(coverage, snapshot), extra))))
    case _ => None
  }

  const PARTIAL: seq<Field> := [Field("output_truncated", Bool(true)), Field("status", Str("partial"))]

  function IsList(fields: seq<Field>, key: string): bool
  {
    match Get(fields, key) case Some(Sequence(_)) => true case _ => false
  }

  function ListLength(fields: seq<Field>, key: string): nat
  {
    match Get(fields, key) case Some(Sequence(items)) => |items| case _ => 0
  }

  function Primary(fields: seq<Field>): Option<string>
  {
    if IsList(fields, "alerts") then Some("alerts")
    else if IsList(fields, "items") then Some("items")
    else None
  }

  /** The page offset as a number, when it is one. */
  function Offset(fields: seq<Field>): Option<int>
  {
    match Get(fields, "offset")
    case None => Some(0)
    case Some(Num(n)) => Some(n)
    case Some(Bool(b)) => Some(if b then 1 else 0)
    case _ => None
  }

  function Cut(items: seq<Value>): seq<Value>
  {
    items[..Min(|items|, Max(1, |items| / 2))]
  }

  /** What a page states of itself once records were dropped. */
  function Stated(shrunk: seq<Field>, snapshot: seq<Field>, returned: int): Option<seq<Field>>
  {
    WithCoverage(Put(Put(shrunk, "returned", Num(returned)), "sampled", Bool(true)), snapshot,
                 [Field("returned", Num(returned))] + PARTIAL)
  }

  /** Where the next page starts, when the result says so. */
  function WithOffset(covered: seq<Field>, kept: nat): Option<seq<Field>>
  {
    if Get(covered, "next_offset").None? then Some(covered)
    else if Offset(covered).None? then None
    else Some(Put(covered, "next_offset", Num(Offset(covered).value + kept)))
  }

  /** The counts stated beside the primary list, when the result has one. */
  function WithCounts(shrunk: seq<Field>, snapshot: seq<Field>): Option<seq<Field>>
  {
    match Primary(shrunk)
    case None => Some(shrunk)
    case Some(primary) =>
      var kept := ListLength(shrunk, primary);
      match Stated(shrunk, snapshot, kept + ListLength(shrunk, "archive_events"))
      case None => None
      case Some(covered) => WithOffset(covered, kept)
  }

  /** The list halved, and coverage restated. */
  function Shortened(shrunk: seq<Field>, longest: string, snapshot: seq<Field>): Option<seq<Field>>
  {
    match Get(shrunk, longest)
    case Some(Sequence(items)) =>
      var cut := Put(shrunk, longest, Sequence(Cut(items)));
      WithCoverage(Put(cut, "truncated", Bool(true)), snapshot, PARTIAL)
    case _ => None
  }

  /** Halves the longest list and restates coverage, counts and losses. None where the code would raise. */
  function Halved(
    shrunk: seq<Field>, longest: string, snapshot: seq<Field>, original: seq<Field>): Option<seq<Field>>
  {
    match Shortened(shrunk, longest, snapshot)
    case None => None
    case Some(covered) =>
      match WithCounts(covered, snapshot)
      case None => None
      case Some(counted) =>
        Some(Put(counted, "dropped_records", Mapping(DroppedRecords(counted, original))))
  }

  // ---- What every round keeps -------------------------------------------------------------------

  predicate Bookkeeping(key: string)
  {
    key == "truncated" || key == "coverage" || key == "returned" || key == "sampled"
    || key == "next_offset" || key == "dropped_records"
  }

  /** Lists that remain are prefixes of their source, and everything else is the source's own. */
  ghost predicate FaithfulAt(source: seq<Field>, shrunk: seq<Field>, key: string)
  {
    match (Get(source, key), Get(shrunk, key))
    case (Some(Sequence(all)), Some(Sequence(kept))) => kept <= all && (all != [] ==> kept != [])
    case (from, now) => Bookkeeping(key) || from == now
  }

  ghost predicate Faithful(source: seq<Field>, shrunk: seq<Field>)
  {
    forall key :: FaithfulAt(source, shrunk, key) && (IsList(shrunk, key) ==> IsList(source, key))
  }

  /** No top-level list sits under a key that the reference rules read as an identifier. */
  ghost predicate NoListUnderIdKey(fields: seq<Field>)
  {
    forall key :: IsIdKey(key) ==> !IsList(fields, key)
  }

  ghost predicate MentionsOnly(fields: seq<Field>, source: seq<string>)
  {
    forall f :: f in fields ==> Within(FieldReferences(f), source)
  }

  /** The same of every field but the recorded losses, which each round writes anew. */
  ghost predicate MentionsOutside(fields: seq<Field>, source: seq<string>)
  {
    forall f :: f in fields ==> LossesOrWithin(f, source)
  }

  ghost predicate LossesOrWithin(f: Field, source: seq<string>)
  {
    f.key == "dropped_records" || Within(FieldReferences(f), source)
  }

  lemma MentionsOnlyCollects(fields: seq<Field>, source: seq<string>)
    requires MentionsOnly(fields, source)
    ensures Within(FieldsReferences(fields), source)
  {
    forall r | r in FieldsReferences(fields) ensures r in source {
      FieldsReferencesMembers(fields, r);
      var i :| 0 <= i < |fields| && r in FieldReferences(fields[i]);
      assert fields[i] in fields;
    }
  }

  lemma OwnReferences(fields: seq<Field>)
    ensures MentionsOnly(fields, FieldsReferences(fields))
  {
    forall f, r | f in fields && r in FieldReferences(f) ensures r in FieldsReferences(fields) {
      FieldsReferencesMembers(fields, r);
      var i :| 0 <= i < |fields| && fields[i] == f;
    }
  }

  lemma PutMentionsOnly(fields: seq<Field>, key: string, value: Value, source: seq<string>)
    requires MentionsOnly(fields, source) && Within(FieldReferences(Field(key, value)), source)
    ensures MentionsOnly(Put(fields, key, value), source)
  {
    PutMembers(fields, key, value);
  }

  lemma PutMentionsOutside(fields: seq<Field>, key: string, value: Value, source: seq<string>)
    requires MentionsOutside(fields, source)
    requires key == "dropped_records" || Within(FieldReferences(Field(key, value)), source)
    ensures MentionsOutside(Put(fields, key, value), source)
  {
    PutMembers(fields, key, value);
  }

  lemma {:induction false} UpdateMentionsOnly(fields: seq<Field>, more: seq<Field>, source: seq<string>)
    requires MentionsOnly(fields, source) && PlainFields(more)
    ensures MentionsOnly(Update(fields, more), source)
  {
    if more != [] {
      UpdateMentionsOnly(fields, more[..|more| - 1], source);
      var last := more[|more| - 1];
      PlainFieldHasNoReferences(last.key, last.value);
      PutMentionsOnly(Update(fields, more[..|more| - 1]), last.key, last.value, source);
    }
  }

  lemma CoverageFieldReferences(fields: seq<Field>)
    ensures FieldReferences(Field("coverage", Mapping(fields))) == FieldsReferences(fields)
  {
  }

  lemma MappingMentions(fields: seq<Field>, source: seq<string>)
    requires Within(FieldsReferences(fields), source)
    ensures MentionsOnly(fields, source)
  {
    OwnReferences(fields);
  }

  lemma CoverageMentionsOutside(shrunk: seq<Field>, snapshot: seq<Field>, extra: seq<Field>, source: seq<string>)
    requires MentionsOutside(shrunk, source) && PlainFields(snapshot) && PlainFields(extra)
    requires WithCoverage(shrunk, snapshot, extra).Some?
    ensures MentionsOutside(WithCoverage(shrunk, snapshot, extra).value, source)
  {
    match Get(shrunk, "coverage")
    case Some(Mapping(coverage)) =>
      GetIsMember(shrunk, "coverage");
      assert Within(FieldReferences(Field("coverage", Mapping(coverage))), source);
      CoverageFieldReferences(coverage);
      MappingMentions(coverage, source);
      UpdateMentionsOnly(coverage, snapshot, source);
      UpdateMentionsOnly(Update(coverage, snapshot), extra, source);
      var merged := Update(Update(coverage, snapshot), extra);
      MentionsOnlyCollects(merged, source);
      CoverageFieldReferences(merged);
      PutMentionsOutside(shrunk, "coverage", Mapping(merged), source);
    case _ =>
  }

  lemma NumberMentionsNothing(fields: seq<Field>, key: string, value: Value, source: seq<string>)
    requires MentionsOutside(fields, source) && PlainKey(key) && (value.Num? || value.Bool?)
    ensures MentionsOutside(Put(fields, key, value), source)
  {
    PlainFieldHasNoReferences(key, value);
    PutMentionsOutside(fields, key, value, source);
  }

  lemma StatedMentionsOutside(shrunk: seq<Field>, snapshot: seq<Field>, returned: int, source: seq<string>)
    requires MentionsOutside(shrunk, source) && PlainFields(snapshot) && Stated(shrunk, snapshot, returned).Some?
    ensures MentionsOutside(Stated(shrunk, snapshot, returned).value, source)
  {
    var once := Put(shrunk, "returned", Num(returned));
    NumberMentionsNothing(shrunk, "returned", Num(returned), source);
    NumberMentionsNothing(once, "sampled", Bool(true), source);
    CoverageMentionsOutside(
      Put(once, "sampled", Bool(true)), snapshot, [Field("returned", Num(returned))] + PARTIAL, source);
  }

  lemma OffsetMentionsOutside(covered: seq<Field>, kept: nat, source: seq<string>)
    requires MentionsOutside(covered, source) && WithOffset(covered, kept).Some?
    ensures MentionsOutside(WithOffset(covered, kept).value, source)
  {
    if Offset(covered).Some? {
      NumberMentionsNothing(covered, "next_offset", Num(Offset(covered).value + kept), source);
    }
  }

  lemma CountsMentionOutside(shrunk: seq<Field>, snapshot: seq<Field>, source: seq<string>)
    requires MentionsOutside(shrunk, source) && PlainFields(snapshot)
    requires WithCounts(shrunk, snapshot).Some?
    ensures MentionsOutside(WithCounts(shrunk, snapshot).value, source)
  {
    if Primary(shrunk).Some? {
      var kept := ListLength(shrunk, Primary(shrunk).value);
      var returned := kept + ListLength(shrunk, "archive_events");
      StatedMentionsOutside(shrunk, snapshot, returned, source);
      OffsetMentionsOutside(Stated(shrunk, snapshot, returned).value, kept, source);
    }
  }

  // ---- Losses are stated exactly ----------------------------------------------------------------

  ghost predicate UniqueKeys(fields: seq<Field>)
  {
    forall i, j :: 0 <= i < j < |fields| ==> fields[i].key != fields[j].key
  }

  lemma {:induction false} GetAbsent(fields: seq<Field>, key: string)
    requires forall f :: f in fields ==> f.key != key
    ensures Get(fields, key) == None
  {
    if fields != [] {
      assert fields[0] in fields;
      GetAbsent(fields[1..], key);
    }
  }

  lemma {:induction false} ListLengthsAreLists(fields: seq<Field>)
    requires UniqueKeys(fields)
    ensures forall f :: f in ListLengths(fields) ==> f.value.Num? && IsList(fields, f.key)
  {
    if fields != [] {
      ListLengthsAreLists(fields[1..]);
      forall f | f in ListLengths(fields[1..]) ensures IsList(fields, f.key) {
        TailKeysDiffer(fields, f.key);
      }
    }
  }

  lemma LaterLengthsDiffer(fields: seq<Field>)
    requires fields != [] && UniqueKeys(fields)
    ensures forall f :: f in ListLengths(fields[1..]) ==> f.key != fields[0].key
  {
    ListLengthsAreLists(fields[1..]);
    forall f | f in ListLengths(fields[1..]) ensures f.key != fields[0].key {
      TailKeysDiffer(fields, f.key);
    }
  }

  lemma {:induction false} ListLengthsUnique(fields: seq<Field>)
    requires UniqueKeys(fields)
    ensures UniqueKeys(ListLengths(fields))
  {
    if fields != [] {
      ListLengthsUnique(fields[1..]);
      LaterLengthsDiffer(fields);
      var rest := ListLengths(fields[1..]);
      assert forall i :: 0 <= i < |rest| ==> rest[i] in rest;
    }
  }

  lemma {:induction false} ListLengthsGet(fields: seq<Field>, key: string)
    requires UniqueKeys(fields)
    ensures Get(ListLengths(fields), key) == if IsList(fields, key) then Some(Num(ListLength(fields, key))) else None
  {
    if fields != [] {
      ListLengthsGet(fields[1..], key);
      var rest := ListLengths(fields[1..]);
      if fields[0].value.Sequence? {
        GetHeadFirst(Field(fields[0].key, Num(|fields[0].value.items|)), rest, key);
      } else {
        assert ListLengths(fields) == rest;
        if fields[0].key == key && Get(rest, key).Some? {
          LaterLengthsDiffer(fields);
          GetIsMember(rest, key);
        }
      }
    }
  }

  lemma ListLengthsAt(fields: seq<Field>, key: string)
    requires UniqueKeys(fields)
    ensures UniqueKeys(ListLengths(fields))
    ensures forall f :: f in ListLengths(fields) ==> f.value.Num? && IsList(fields, f.key)
    ensures Get(ListLengths(fields), key) == if IsList(fields, key) then Some(Num(ListLength(fields, key))) else None
  {
    ListLengthsUnique(fields);
    ListLengthsAreLists(fields);
    ListLengthsGet(fields, key);
  }

  lemma TailKeysDiffer(fields: seq<Field>, key: string)
    requires fields != [] && UniqueKeys(fields) && IsList(fields[1..], key)
    ensures key != fields[0].key
  {
    LaterKeyDiffers(fields, key);
  }

  lemma LaterKeyDiffers(fields: seq<Field>, key: string)
    requires fields != [] && UniqueKeys(fields) && Get(fields[1..], key).Some?
    ensures key != fields[0].key && Get(fields, key) == Get(fields[1..], key)
  {
    GetIsMember(fields[1..], key);
    var f := Field(key, Get(fields[1..], key).value);
    var i :| 0 <= i < |fields[1..]| && fields[1..][i] == f;
    assert fields[i + 1] == f;
  }

  lemma {:induction false} DroppedKeysAreSource(shrunk: seq<Field>, original: seq<Field>)
    requires UniqueKeys(original)
    ensures forall f :: f in DroppedRecords(shrunk, original) ==> f.value.Num? && Get(original, f.key).Some?
  {
    if original != [] {
      DroppedKeysAreSource(shrunk, original[1..]);
      forall f | f in DroppedRecords(shrunk, original[1..]) ensures Get(original, f.key).Some? {
        LaterKeyDiffers(original, f.key);
      }
    }
  }

  lemma LaterDropsDiffer(shrunk: seq<Field>, original: seq<Field>)
    requires original != [] && UniqueKeys(original)
    ensures forall f :: f in DroppedRecords(shrunk, original[1..]) ==> f.key != original[0].key
  {
    DroppedKeysAreSource(shrunk, original[1..]);
    forall f | f in DroppedRecords(shrunk, original[1..]) ensures f.key != original[0].key {
      LaterKeyDiffers(original, f.key);
    }
  }

  /** The loss recorded for one list is the difference of the two lengths. */
  lemma {:induction false} DroppedAt(shrunk: seq<Field>, original: seq<Field>, key: string)
    requires UniqueKeys(original)
    ensures Get(DroppedRecords(shrunk, original), key)
         == match (Get(original, key), Get(shrunk, key))
            case (Some(Num(n)), Some(Sequence(items))) => if |items| < n then Some(Num(n - |items|)) else None
            case _ => None
  {
    if original != [] {
      DroppedAt(shrunk, original[1..], key);
      var rest := DroppedRecords(shrunk, original[1..]);
      var head := DroppedHead(shrunk, original[0]);
      if original[0].key == key {
        LaterDropsDiffer(shrunk, original);
        GetAbsent(rest, key);
      }
      if head != [] {
        GetHeadFirst(head[0], rest, key);
        assert head == [head[0]];
      } else {
        assert head + rest == rest;
      }
    }
  }

  /** How many records a list that is still delivered lost, when it lost any. */
  function Loss(source: seq<Field>, shrunk: seq<Field>, key: string): Option<nat>
  {
    if IsList(shrunk, key) && ListLength(shrunk, key) < ListLength(source, key)
    then Some(ListLength(source, key) - ListLength(shrunk, key))
    else None
  }

  predicate StatedAt(source: seq<Field>, shrunk: seq<Field>, dropped: seq<Field>, key: string)
  {
    Get(dropped, key) == match Loss(source, shrunk, key) case Some(n) => Some(Num(n)) case None => None
  }

  /** dropped_records names exactly the shortened lists, with the number of records each lost. */
  ghost predicate StatesLosses(source: seq<Field>, shrunk: seq<Field>, dropped: seq<Field>)
  {
    && UniqueKeys(dropped)
    && (forall f :: f in dropped ==> f.value.Num?)
    && forall key :: key != "dropped_records" ==> StatedAt(source, shrunk, dropped, key)
  }

  ghost predicate LossesStated(source: seq<Field>, shrunk: seq<Field>)
  {
    match Get(shrunk, "dropped_records")
    case Some(Mapping(dropped)) => StatesLosses(source, shrunk, dropped)
    case _ => false
  }

  lemma {:induction false} DroppedKeysUnique(shrunk: seq<Field>, original: seq<Field>)
    requires UniqueKeys(original)
    ensures UniqueKeys(DroppedRecords(shrunk, original))
  {
    if original != [] {
      DroppedKeysUnique(shrunk, original[1..]);
      LaterDropsDiffer(shrunk, original);
      var rest := DroppedRecords(shrunk, original[1..]);
      assert forall i :: 0 <= i < |rest| ==> rest[i] in rest;
    }
  }

  lemma BookkeepingStaysFaithful(source: seq<Field>, shrunk: seq<Field>, key: string, value: Value)
    requires Faithful(source, shrunk) && Bookkeeping(key) && !value.Sequence?
    ensures Faithful(source, Put(shrunk, key, value))
  {
    forall k ensures FaithfulAt(source, Put(shrunk, key, value), k)
                  && (IsList(Put(shrunk, key, value), k) ==> IsList(source, k)) {
      GetAfterPut(shrunk, key, value, k);
      assert FaithfulAt(source, shrunk, k);
    }
  }

  lemma CoverageStaysFaithful(source: seq<Field>, shrunk: seq<Field>, snapshot: seq<Field>, extra: seq<Field>)
    requires Faithful(source, shrunk) && WithCoverage(shrunk, snapshot, extra).Some?
    ensures Faithful(source, WithCoverage(shrunk, snapshot, extra).value)
  {
    match Get(shrunk, "coverage")
    case Some(Mapping(coverage)) =>
      BookkeepingStaysFaithful(source, shrunk, "coverage", Mapping(Update(Update(coverage, snapshot), extra)));
    case _ =>
  }

  lemma StatedStaysFaithful(source: seq<Field>, shrunk: seq<Field>, snapshot: seq<Field>, returned: int)
    requires Faithful(source, shrunk) && Stated(shrunk, snapshot, returned).Some?
    ensures Faithful(source, Stated(shrunk, snapshot, returned).value)
  {
    var once := Put(shrunk, "returned", Num(returned));
    BookkeepingStaysFaithful(source, shrunk, "returned", Num(returned));
    BookkeepingStaysFaithful(source, once, "sampled", Bool(true));
    CoverageStaysFaithful(
      source, Put(once, "sampled", Bool(true)), snapshot, [Field("returned", Num(returned))] + PARTIAL);
  }

  lemma CountsStayFaithful(source: seq<Field>, shrunk: seq<Field>, snapshot: seq<Field>)
    requires Faithful(source, shrunk) && WithCounts(shrunk, snapshot).Some?
    ensures Faithful(source, WithCounts(shrunk, snapshot).value)
  {
    if Primary(shrunk).Some? {
      var kept := ListLength(shrunk, Primary(shrunk).value);
      var returned := kept + ListLength(shrunk, "archive_events");
      StatedStaysFaithful(source, shrunk, snapshot, returned);
      var covered := Stated(shrunk, snapshot, returned).value;
      if Offset(covered).Some? {
        BookkeepingStaysFaithful(source, covered, "next_offset", Num(Offset(covered).value + kept));
      }
    }
  }

  lemma CutStaysFaithful(source: seq<Field>, shrunk: seq<Field>, key: string, items: seq<Value>)
    requires Faithful(source, shrunk) && Get(shrunk, key) == Some(Sequence(items)) && items != []
    ensures Faithful(source, Put(shrunk, key, Sequence(Cut(items))))
  {
    var after := Put(shrunk, key, Sequence(Cut(items)));
    forall k ensures FaithfulAt(source, after, k) && (IsList(after, k) ==> IsList(source, k)) {
      GetAfterPut(shrunk, key, Sequence(Cut(items)), k);
      assert FaithfulAt(source, shrunk, k);
    }
  }

  lemma CutMentionsOutside(shrunk: seq<Field>, key: string, items: seq<Value>, source: seq<string>)
    requires MentionsOutside(shrunk, source) && Get(shrunk, key) == Some(Sequence(items))
    ensures MentionsOutside(Put(shrunk, key, Sequence(Cut(items))), source)
  {
    GetIsMember(shrunk, key);
    PrefixFieldMentionsLess(key, items, Min(|items|, Max(1, |items| / 2)));
    PutMentionsOutside(shrunk, key, Sequence(Cut(items)), source);
  }

  lemma StatedLosses(source: seq<Field>, counted: seq<Field>)
    requires UniqueKeys(source) && Faithful(source, counted)
    ensures LossesStated(source, Put(counted, "dropped_records", Mapping(DroppedRecords(counted, ListLengths(source)))))
  {
    var dropped := DroppedRecords(counted, ListLengths(source));
    var after := Put(counted, "dropped_records", Mapping(dropped));
    GetAfterPut(counted, "dropped_records", Mapping(dropped), "dropped_records");
    ListLengthsAt(source, "");
    DroppedKeysUnique(counted, ListLengths(source));
    DroppedKeysAreSource(counted, ListLengths(source));
    forall key | key != "dropped_records" ensures StatedAt(source, after, dropped, key) {
      GetAfterPut(counted, "dropped_records", Mapping(dropped), key);
      assert FaithfulAt(source, counted, key);
      ListLengthsAt(source, key);
      DroppedAt(counted, ListLengths(source), key);
    }
  }

  lemma NumberUnderOtherKeyIsSilent(f: Field)
    requires f.value.Num? && !IsIdKey(f.key)
    ensures FieldReferences(f) == []
  {
  }

  lemma DroppedFieldReferences(dropped: seq<Field>)
    ensures FieldReferences(Field("dropped_records", Mapping(dropped))) == FieldsReferences(dropped)
  {
  }

  lemma ShortenedIsFaithful(source: seq<Field>, shrunk: seq<Field>, longest: string, snapshot: seq<Field>)
    requires Faithful(source, shrunk) && IsList(shrunk, longest) && ListLength(shrunk, longest) > 0
    requires Shortened(shrunk, longest, snapshot).Some?
    ensures Faithful(source, Shortened(shrunk, longest, snapshot).value)
  {
    var items := Get(shrunk, longest).value.items;
    var cut := Put(shrunk, longest, Sequence(Cut(items)));
    CutStaysFaithful(source, shrunk, longest, items);
    BookkeepingStaysFaithful(source, cut, "truncated", Bool(true));
    CoverageStaysFaithful(source, Put(cut, "truncated", Bool(true)), snapshot, PARTIAL);
  }

  /** One round keeps the lists faithful and states every loss. */
  lemma HalvedIsFaithful(source: seq<Field>, shrunk: seq<Field>, longest: string, snapshot: seq<Field>)
    requires UniqueKeys(source) && Faithful(source, shrunk)
    requires IsList(shrunk, longest) && ListLength(shrunk, longest) > 0
    requires Halved(shrunk, longest, snapshot, ListLengths(source)).Some?
    ensures var after := Halved(shrunk, longest, snapshot, ListLengths(source)).value;
            Faithful(source, after) && LossesStated(source, after)
  {
    ShortenedIsFaithful(source, shrunk, longest, snapshot);
    var covered := Shortened(shrunk, longest, snapshot).value;
    CountsStayFaithful(source, covered, snapshot);
    var counted := WithCounts(covered, snapshot).value;
    StatedLosses(source, counted);
    BookkeepingStaysFaithful(source, counted, "dropped_records", Mapping(DroppedRecords(counted, ListLengths(source))));
  }

  lemma ShortenedMentionsOutside(
    shrunk: seq<Field>, longest: string, snapshot: seq<Field>, references: seq<string>)
    requires MentionsOutside(shrunk, references) && PlainFields(snapshot)
    requires Shortened(shrunk, longest, snapshot).Some?
    ensures MentionsOutside(Shortened(shrunk, longest, snapshot).value, references)
  {
    var items := Get(shrunk, longest).value.items;
    var cut := Put(shrunk, longest, Sequence(Cut(items)));
    CutMentionsOutside(shrunk, longest, items, references);
    NumberMentionsNothing(cut, "truncated", Bool(true), references);
    CoverageMentionsOutside(Put(cut, "truncated", Bool(true)), snapshot, PARTIAL, references);
  }

  lemma HalvedMentionsOutside(
    shrunk: seq<Field>, longest: string, snapshot: seq<Field>, original: seq<Field>, references: seq<string>)
    requires MentionsOutside(shrunk, references) && PlainFields(snapshot)
    requires Halved(shrunk, longest, snapshot, original).Some?
    ensures MentionsOutside(Halved(shrunk, longest, snapshot, original).value, references)
  {
    ShortenedMentionsOutside(shrunk, longest, snapshot, references);
    var covered := Shortened(shrunk, longest, snapshot).value;
    CountsMentionOutside(covered, snapshot, references);
    var counted := WithCounts(covered, snapshot).value;
    PutMentionsOutside(counted, "dropped_records", Mapping(DroppedRecords(counted, original)), references);
  }

  /** A loss recorded under an identifier key reads as an identifier. */
  lemma IdLossIsMentioned(after: seq<Field>, dropped: seq<Field>, key: string, n: nat)
    requires Get(after, "dropped_records") == Some(Mapping(dropped))
    requires IsIdKey(key) && Get(dropped, key) == Some(Num(n))
    ensures IdPrefix(key) + Decimal(n) in FieldsReferences(after)
  {
    var r := IdPrefix(key) + Decimal(n);
    GetIsMember(dropped, key);
    assert r in FieldReferences(Field(key, Num(n)));
    FieldsReferencesMembers(dropped, r);
    var i :| 0 <= i < |dropped| && dropped[i] == Field(key, Num(n));
    assert r in FieldsReferences(dropped);
    DroppedFieldReferences(dropped);
    GetIsMember(after, "dropped_records");
    FieldsReferencesMembers(after, r);
    var j :| 0 <= j < |after| && after[j] == Field("dropped_records", Mapping(dropped));
  }

  /** The recorded losses that read as identifiers are all among the given references. */
  ghost predicate LossesReadAs(source: seq<Field>, shrunk: seq<Field>, known: seq<string>)
  {
    forall key :: IsIdKey(key) && Loss(source, shrunk, key).Some? ==> LossReference(source, shrunk, key) in known
  }

  function LossReference(source: seq<Field>, shrunk: seq<Field>, key: string): string
    requires Loss(source, shrunk, key).Some?
  {
    IdPrefix(key) + Decimal(Loss(source, shrunk, key).value)
  }

  lemma LossIsMentioned(source: seq<Field>, shrunk: seq<Field>, key: string)
    requires LossesStated(source, shrunk) && IsIdKey(key) && Loss(source, shrunk, key).Some?
    ensures LossReference(source, shrunk, key) in FieldsReferences(shrunk)
  {
    var dropped := Get(shrunk, "dropped_records").value.fields;
    assert StatedAt(source, shrunk, dropped, key);
    IdLossIsMentioned(shrunk, dropped, key, Loss(source, shrunk, key).value);
  }

  lemma RecordedLossReadsAs(
    source: seq<Field>, shrunk: seq<Field>, dropped: seq<Field>, known: seq<string>, f: Field)
    requires StatesLosses(source, shrunk, dropped) && LossesReadAs(source, shrunk, known) && f in dropped
    ensures Within(FieldReferences(f), known)
  {
    if IsIdKey(f.key) {
      MemberIsGot(dropped, f);
      assert StatedAt(source, shrunk, dropped, f.key);
      assert LossReference(source, shrunk, f.key) in known;
    } else {
      NumberUnderOtherKeyIsSilent(f);
    }
  }

  /** A shortened result mentions only known references exactly when the losses that read as identifiers
      are known. */
  lemma LossesDecide(source: seq<Field>, shrunk: seq<Field>, known: seq<string>)
    requires LossesStated(source, shrunk) && UniqueKeys(shrunk) && MentionsOutside(shrunk, known)
    ensures Within(FieldsReferences(shrunk), known) <==> LossesReadAs(source, shrunk, known)
  {
    forall key | IsIdKey(key) && Loss(source, shrunk, key).Some?
      ensures LossReference(source, shrunk, key) in FieldsReferences(shrunk) {
      LossIsMentioned(source, shrunk, key);
    }
    if LossesReadAs(source, shrunk, known) {
      var dropped := Get(shrunk, "dropped_records").value.fields;
      forall f | f in dropped ensures Within(FieldReferences(f), known) {
        RecordedLossReadsAs(source, shrunk, dropped, known, f);
      }
      MentionsOnlyCollects(dropped, known);
      DroppedFieldReferences(dropped);
      forall f | f in shrunk ensures Within(FieldReferences(f), known) {
        MemberIsGot(shrunk, f);
      }
      MentionsOnlyCollects(shrunk, known);
    }
  }

  // ---- Keys stay unique -------------------------------------------------------------------------

  lemma {:induction false} LongestIsList(fields: seq<Field>)
    requires UniqueKeys(fields) && LongestList(fields).Some?
    ensures var (key, n) := LongestList(fields).value;
            n > 0 && exists f :: f in fields && f.key == key && f.value.Sequence? && |f.value.items| == n
  {
    var f := fields[|fields| - 1];
    var front := fields[..|fields| - 1];
    if LongestList(fields) == LongestList(front) {
      LongestIsList(front);
    } else {
      assert f in fields;
    }
  }

  lemma {:induction false} MemberIsGot(fields: seq<Field>, f: Field)
    requires UniqueKeys(fields) && f in fields
    ensures Get(fields, f.key) == Some(f.value)
  {
    if fields[0] != f {
      var i :| 0 <= i < |fields| && fields[i] == f;
      assert fields[1..][i - 1] == f;
      assert fields[0].key != f.key;
      MemberIsGot(fields[1..], f);
    }
  }

  lemma {:induction false} PutKeepsKeysUnique(fields: seq<Field>, key: string, value: Value)
    requires UniqueKeys(fields)
    ensures UniqueKeys(Put(fields, key, value))
  {
    if fields != [] && fields[0].key != key {
      PutKeepsKeysUnique(fields[1..], key, value);
      PutMembers(fields[1..], key, value);
      var tail := Put(fields[1..], key, value);
      forall i | 0 <= i < |tail| ensures tail[i].key != fields[0].key {
        assert tail[i] in tail;
      }
    }
  }

  lemma {:induction false} WithoutKeepsKeysUnique(fields: seq<Field>, key: string)
    requires UniqueKeys(fields)
    ensures UniqueKeys(Without(fields, key))
  {
    if fields != [] {
      WithoutKeepsKeysUnique(fields[1..], key);
      GetAfterWithout(fields[1..], key, key);
      var tail := Without(fields[1..], key);
      forall i | 0 <= i < |tail| ensures tail[i].key != fields[0].key {
        assert tail[i] in fields[1..];
      }
    }
  }

  lemma HalvedKeepsKeysUnique(shrunk: seq<Field>, longest: string, snapshot: seq<Field>, original: seq<Field>)
    requires UniqueKeys(shrunk) && Halved(shrunk, longest, snapshot, original).Some?
    ensures UniqueKeys(Halved(shrunk, longest, snapshot, original).value)
  {
    var cut := Put(shrunk, longest, Sequence(Cut(Get(shrunk, longest).value.items)));
    PutKeepsKeysUnique(shrunk, longest, Sequence(Cut(Get(shrunk, longest).value.items)));
    PutKeepsKeysUnique(cut, "truncated", Bool(true));
    CoverageKeepsKeysUnique(Put(cut, "truncated", Bool(true)), snapshot, PARTIAL);
    var covered := Shortened(shrunk, longest, snapshot).value;
    CountsKeepKeysUnique(covered, snapshot);
    var counted := WithCounts(covered, snapshot).value;
    PutKeepsKeysUnique(counted, "dropped_records", Mapping(DroppedRecords(counted, original)));
  }

  lemma CoverageKeepsKeysUnique(shrunk: seq<Field>, snapshot: seq<Field>, extra: seq<Field>)
    requires UniqueKeys(shrunk) && WithCoverage(shrunk, snapshot, extra).Some?
    ensures UniqueKeys(WithCoverage(shrunk, snapshot, extra).value)
  {
    match Get(shrunk, "coverage")
    case Some(Mapping(coverage)) =>
      PutKeepsKeysUnique(shrunk, "coverage", Mapping(Update(Update(coverage, snapshot), extra)));
    case _ =>
  }

  lemma CountsKeepKeysUnique(shrunk: seq<Field>, snapshot: seq<Field>)
    requires UniqueKeys(shrunk) && WithCounts(shrunk, snapshot).Some?
    ensures UniqueKeys(WithCounts(shrunk, snapshot).value)
  {
    if Primary(shrunk).Some? {
      var kept := ListLength(shrunk, Primary(shrunk).value);
      var returned := kept + ListLength(shrunk, "archive_events");
      var once := Put(shrunk, "returned", Num(returned));
      PutKeepsKeysUnique(shrunk, "returned", Num(returned));
      PutKeepsKeysUnique(once, "sampled", Bool(true));
      CoverageKeepsKeysUnique(
        Put(once, "sampled", Bool(true)), snapshot, [Field("returned", Num(returned))] + PARTIAL);
      var covered := Stated(shrunk, snapshot, returned).value;
      if Offset(covered).Some? {
        PutKeepsKeysUnique(covered, "next_offset", Num(Offset(covered).value + kept));
      }
    }
  }

  lemma LongestIsGot(fields: seq<Field>)
    requires UniqueKeys(fields) && LongestList(fields).Some?
    ensures IsList(fields, LongestList(fields).value.0) && ListLength(fields, LongestList(fields).value.0) > 0
  {
    LongestIsList(fields);
    var (key, n) := LongestList(fields).value;
    var f :| f in fields && f.key == key && f.value.Sequence? && |f.value.items| == n;
    MemberIsGot(fields, f);
  }

  // ---- When a halving raises --------------------------------------------------------------------

  /** Coverage, when present, can be extended. */
  predicate Restatable(fields: seq<Field>)
  {
    Get(fields, "coverage").None? || Get(fields, "coverage").value.Mapping?
  }

  /** The next offset, when one has to be stated, can be computed. */
  predicate Countable(fields: seq<Field>)
  {
    Primary(fields).Some? && Get(fields, "next_offset").Some? ==> Offset(fields).Some?
  }

  predicate Statable(fields: seq<Field>) { Restatable(fields) && Countable(fields) }

  /** Shortening a list, or writing a field that nothing is computed from, changes neither. */
  predicate Indifferent(fields: seq<Field>, key: string, value: Value)
  {
    || (IsList(fields, key) && value.Sequence?)
    || (key != "coverage" && key != "alerts" && key != "items" && key != "offset" && key != "next_offset")
  }

  lemma PutKeepsStatable(fields: seq<Field>, key: string, value: Value)
    requires Indifferent(fields, key, value)
    ensures Restatable(Put(fields, key, value)) == Restatable(fields)
    ensures Countable(Put(fields, key, value)) == Countable(fields)
  {
    GetAfterPut(fields, key, value, "coverage");
    GetAfterPut(fields, key, value, "alerts");
    GetAfterPut(fields, key, value, "items");
    GetAfterPut(fields, key, value, "offset");
    GetAfterPut(fields, key, value, "next_offset");
  }

  lemma CoverageKeepsStatable(shrunk: seq<Field>, snapshot: seq<Field>, extra: seq<Field>)
    ensures var after := WithCoverage(shrunk, snapshot, extra);
            && (after.Some? <==> Restatable(shrunk))
            && (after.Some? ==> Restatable(after.value) && Countable(after.value) == Countable(shrunk)
                                && Primary(after.value) == Primary(shrunk))
  {
    match Get(shrunk, "coverage")
    case Some(Mapping(coverage)) =>
      var merged := Mapping(Update(Update(coverage, snapshot), extra));
      GetAfterPut(shrunk, "coverage", merged, "coverage");
      GetAfterPut(shrunk, "coverage", merged, "alerts");
      GetAfterPut(shrunk, "coverage", merged, "items");
      GetAfterPut(shrunk, "coverage", merged, "offset");
      GetAfterPut(shrunk, "coverage", merged, "next_offset");
    case _ =>
  }

  lemma PutKeepsPrimary(fields: seq<Field>, key: string, value: Value)
    requires key != "alerts" && key != "items"
    ensures Primary(Put(fields, key, value)) == Primary(fields)
  {
    GetAfterPut(fields, key, value, "alerts");
    GetAfterPut(fields, key, value, "items");
  }

  lemma OffsetKeepsStatable(covered: seq<Field>, n: int)
    requires Statable(covered) && Offset(covered).Some?
    ensures Statable(Put(covered, "next_offset", Num(n)))
  {
    GetAfterPut(covered, "next_offset", Num(n), "coverage");
    GetAfterPut(covered, "next_offset", Num(n), "offset");
  }

  lemma StatedKeepsStatable(shrunk: seq<Field>, snapshot: seq<Field>, returned: int)
    requires Restatable(shrunk)
    ensures var after := Stated(shrunk, snapshot, returned);
            after.Some? && Restatable(after.value) && Countable(after.value) == Countable(shrunk)
            && Primary(after.value) == Primary(shrunk)
  {
    var once := Put(shrunk, "returned", Num(returned));
    PutKeepsStatable(shrunk, "returned", Num(returned));
    PutKeepsStatable(once, "sampled", Bool(true));
    PutKeepsPrimary(shrunk, "returned", Num(returned));
    PutKeepsPrimary(once, "sampled", Bool(true));
    CoverageKeepsStatable(
      Put(once, "sampled", Bool(true)), snapshot, [Field("returned", Num(returned))] + PARTIAL);
  }

  lemma CountsKeepStatable(shrunk: seq<Field>, snapshot: seq<Field>)
    requires Restatable(shrunk)
    ensures WithCounts(shrunk, snapshot).Some? <==> Countable(shrunk)
    ensures WithCounts(shrunk, snapshot).Some? ==> Statable(WithCounts(shrunk, snapshot).value)
  {
    if Primary(shrunk).Some? {
      var kept := ListLength(shrunk, Primary(shrunk).value);
      var returned := kept + ListLength(shrunk, "archive_events");
      StatedKeepsStatable(shrunk, snapshot, returned);
      var covered := Stated(shrunk, snapshot, returned).value;
      if Offset(covered).Some? && Countable(covered) {
        OffsetKeepsStatable(covered, Offset(covered).value + kept);
      }
    }
  }

  /** A halving raises exactly on a result whose coverage or offset cannot be restated, and leaves one
      on which the next halving does not raise. */
  lemma HalvedIffStatable(shrunk: seq<Field>, longest: string, snapshot: seq<Field>, original: seq<Field>)
    requires IsList(shrunk, longest)
    ensures Halved(shrunk, longest, snapshot, original).Some? <==> Statable(shrunk)
    ensures Statable(shrunk) ==> Statable(Halved(shrunk, longest, snapshot, original).value)
  {
    var items := Get(shrunk, longest).value.items;
    var cut := Put(shrunk, longest, Sequence(Cut(items)));
    PutKeepsStatable(shrunk, longest, Sequence(Cut(items)));
    PutKeepsStatable(cut, "truncated", Bool(true));
    CoverageKeepsStatable(Put(cut, "truncated", Bool(true)), snapshot, PARTIAL);
    if Restatable(shrunk) {
      var covered := Shortened(shrunk, longest, snapshot).value;
      CountsKeepStatable(covered, snapshot);
      if Countable(covered) {
        var counted := WithCounts(covered, snapshot).value;
        PutKeepsStatable(counted, "dropped_records", Mapping(DroppedRecords(counted, original)));
      }
    }
  }
}
