/**
 A list of records under an identifier key, clipped: the recorded loss reads as an identifier, so the delivery
 mentions a reference that was never retrieved.
 */
module ClippedReferences {
  import opened Common
  import opened Json
  import opened ResultClipping
  import opened ResultDelivery

  // ---- Length of rendered text ------------------------------------------------------------------

  /** Length of the JSON text of a value, for texts that need no escapes. */
  function Rendered(v: Value): nat
    decreases v, 1
  {
    match v
    case Null => 4
    case Bool(b) => if b then 4 else 5
    case Num(n) => if n < 0 then 1 + |Decimal(-n)| else |Decimal(n)|
    case Str(text) => |text| + 2
    case Mapping(fields) => 2 + Max(0, FieldsSize(fields) - 2)
    case Sequence(items) => 2 + Max(0, ItemsSize(items) - 2)
    case Other(rendered) => |rendered| + 2
  }

  /** Key, value, colon and a separator after every field. */
  function FieldsSize(fields: seq<Field>): nat
    decreases fields, 0
  {
    if fields == [] then 0 else FieldSize(fields[0]) + FieldsSize(fields[1..])
  }

  function FieldSize(f: Field): nat
    decreases f, 2
  {
    |f.key| + 6 + Rendered(f.value)
  }

  function ItemsSize(items: seq<Value>): nat
    decreases items, 0
  {
    if items == [] then 0 else 2 + Rendered(items[0]) + ItemsSize(items[1..])
  }

  lemma {:induction false} PutSize(fields: seq<Field>, key: string, value: Value)
    ensures FieldsSize(Put(fields, key, value)) <= FieldsSize(fields) + FieldSize(Field(key, value))
  {
    if fields != [] && fields[0].key != key {
      PutSize(fields[1..], key, value);
      assert Put(fields, key, value)[1..] == Put(fields[1..], key, value);
    } else if fields != [] {
      assert Put(fields, key, value)[1..] == fields[1..];
    } else {
      assert Put(fields, key, value)[1..] == [];
    }
  }

  lemma {:induction false} LastFieldSize(fields: seq<Field>)
    requires fields != []
    ensures FieldsSize(fields) == FieldsSize(fields[..|fields| - 1]) + FieldSize(fields[|fields| - 1])
  {
    if |fields| > 1 {
      LastFieldSize(fields[1..]);
      assert fields[1..][..|fields| - 2] == fields[..|fields| - 1][1..];
    }
  }

  lemma {:induction false} UpdateSize(fields: seq<Field>, more: seq<Field>)
    ensures FieldsSize(Update(fields, more)) <= FieldsSize(fields) + FieldsSize(more)
  {
    if more != [] {
      var last := more[|more| - 1];
      UpdateSize(fields, more[..|more| - 1]);
      PutSize(Update(fields, more[..|more| - 1]), last.key, last.value);
      LastFieldSize(more);
    }
  }

  // ---- The clipped list -------------------------------------------------------------------------

  /** Two records of plain text under one key. */
  function TwoTexts(key: string, text: string): seq<Field>
  {
    [Field(key, Sequence([Str(text), Str(text)]))]
  }

  /** The same with one of them dropped. */
  function OneText(key: string, text: string): seq<Field>
  {
    [Field(key, Sequence([Str(text)])), Field("truncated", Bool(true)),
     Field("dropped_records", Mapping([Field(key, Num(1))]))]
  }

  lemma IdKeyIsPlainListKey(key: string)
    requires IsIdKey(key)
    ensures !IsReferenceListKey(Lower(key))
    ensures key !in ["coverage", "alerts", "items", "truncated", "dropped_records", "_provenance",
                     "evidence_references"]
    ensures |key| <= 16 && |IdPrefix(key)| <= 14
  {
    LowerAt(key, |key| - 1);
    assert key[|key| - 1] == 'd';
  }

  lemma TextsMentionNothing(key: string, text: string)
    requires IsIdKey(key)
    ensures FieldReferences(Field(key, Sequence([Str(text), Str(text)]))) == []
    ensures FieldReferences(Field(key, Sequence([Str(text)]))) == []
  {
    IdKeyIsPlainListKey(key);
    var two, one := [Str(text), Str(text)], [Str(text)];
    assert two[..1] == one && one[..0] == [];
    assert ItemsReferences(one) == [] && ItemsReferences(two) == [];
  }

  lemma OneField(f: Field)
    ensures FieldsReferences([f]) == FieldReferences(f)
    ensures FieldsSize([f]) == FieldSize(f)
  {
    assert [f][1..] == [];
  }

  lemma FirstField(f: Field, rest: seq<Field>)
    ensures FieldsReferences([f] + rest) == FieldReferences(f) + FieldsReferences(rest)
    ensures FieldsSize([f] + rest) == FieldSize(f) + FieldsSize(rest)
  {
    assert ([f] + rest)[1..] == rest;
  }

  lemma ThreeFields(f: Field, g: Field, h: Field)
    ensures FieldsReferences([f, g, h]) == FieldReferences(f) + FieldReferences(g) + FieldReferences(h)
    ensures FieldsSize([f, g, h]) == FieldSize(f) + FieldSize(g) + FieldSize(h)
  {
    assert [f, g, h] == [f] + ([g] + [h]);
    FirstField(f, [g] + [h]);
    FirstField(g, [h]);
    OneField(h);
  }

  lemma SourceMentionsNothing(key: string, text: string)
    requires IsIdKey(key)
    ensures CollectEvidenceReferences(TwoTexts(key, text)) == []
    ensures Start(TwoTexts(key, text)) == TwoTexts(key, text)
  {
    TextsMentionNothing(key, text);
    IdKeyIsPlainListKey(key);
    OneField(TwoTexts(key, text)[0]);
    assert TwoTexts(key, text)[1..] == [];
    assert Without(TwoTexts(key, text)[1..], "evidence_references") == [];
  }

  lemma LossMentionsOne(key: string)
    requires IsIdKey(key)
    ensures FieldReferences(Field("dropped_records", Mapping([Field(key, Num(1))]))) == [IdPrefix(key) + "1"]
  {
    DroppedFieldReferences([Field(key, Num(1))]);
    OneField(Field(key, Num(1)));
  }

  lemma ClippedMentionsTheLoss(key: string, text: string)
    requires IsIdKey(key)
    ensures CollectEvidenceReferences(OneText(key, text)) == [IdPrefix(key) + "1"]
  {
    var fields := OneText(key, text);
    TextsMentionNothing(key, text);
    PlainFieldHasNoReferences("truncated", Bool(true));
    LossMentionsOne(key);
    ThreeFields(fields[0], fields[1], fields[2]);
    DedupeOne(IdPrefix(key) + "1");
  }

  lemma DedupeOne(reference: string)
    ensures Dedupe([reference]) == [reference]
  {
    assert [reference][..0] == [];
  }

  lemma TwoTextsShorten(key: string, text: string, snapshot: seq<Field>)
    requires IsIdKey(key)
    ensures Shortened(TwoTexts(key, text), key, snapshot)
            == Some([Field(key, Sequence([Str(text)])), Field("truncated", Bool(true))])
  {
    IdKeyIsPlainListKey(key);
    var cut := [Field(key, Sequence([Str(text)]))];
    assert Cut([Str(text), Str(text)]) == [Str(text)];
    assert TwoTexts(key, text)[1..] == [];
    assert Put(TwoTexts(key, text), key, Sequence([Str(text)])) == cut;
    PutNewKeyAppends(cut, "truncated", Bool(true));
    var covered := [Field(key, Sequence([Str(text)])), Field("truncated", Bool(true))];
    assert cut + [Field("truncated", Bool(true))] == covered;
    GetAbsent(covered, "coverage");
  }

  lemma OneTextIsLost(key: string, text: string)
    ensures var covered := [Field(key, Sequence([Str(text)])), Field("truncated", Bool(true))];
            DroppedRecords(covered, ListLengths(TwoTexts(key, text))) == [Field(key, Num(1))]
  {
    var lengths := [Field(key, Num(2))];
    assert TwoTexts(key, text)[1..] == [] && lengths[1..] == [];
    assert ListLengths(TwoTexts(key, text)) == lengths;
  }

  lemma TwoTextsHalve(key: string, text: string, snapshot: seq<Field>)
    requires IsIdKey(key)
    ensures Halved(TwoTexts(key, text), key, snapshot, ListLengths(TwoTexts(key, text))) == Some(OneText(key, text))
  {
    IdKeyIsPlainListKey(key);
    TwoTextsShorten(key, text, snapshot);
    OneTextIsLost(key, text);
    var covered := [Field(key, Sequence([Str(text)])), Field("truncated", Bool(true))];
    GetAbsent(covered, "alerts");
    GetAbsent(covered, "items");
    var losses := Mapping([Field(key, Num(1))]);
    PutNewKeyAppends(covered, "dropped_records", losses);
    assert covered + [Field("dropped_records", losses)] == OneText(key, text);
  }

  lemma TwoTextsInOneRound(key: string, text: string)
    requires IsIdKey(key)
    ensures OneRound(TwoTexts(key, text), TwoTexts(key, text)) == Shorter(OneText(key, text))
  {
    SourceMentionsNothing(key, text);
    IdKeyIsPlainListKey(key);
    TwoTextsHalve(key, text, CoverageSnapshot(TwoTexts(key, text)));
    assert TwoTexts(key, text)[..0] == [];
    assert LongestList(TwoTexts(key, text)) == Some((key, 2));
  }

  lemma TextsSize(text: string)
    ensures Rendered(Sequence([Str(text), Str(text)])) == 2 * |text| + 8
    ensures Rendered(Sequence([Str(text)])) == |text| + 4
  {
    var two, one := [Str(text), Str(text)], [Str(text)];
    assert two[1..] == one && one[1..] == [];
    assert ItemsSize(one) == |text| + 4;
  }

  lemma WholeExceeds(key: string, text: string, r: Renderer)
    requires IsIdKey(key)
    ensures Rendered(FullValue(TwoTexts(key, text), [], r)) > 2 * |text|
  {
    IdKeyIsPlainListKey(key);
    var fields := TwoTexts(key, text);
    GetAbsent(fields, "_provenance");
    var provenance := Mapping(Update(Update([], [Field("source_evidence_reference_count", Num(0)),
      Field("delivered_evidence_reference_count", Num(0))]), r.delivery(fields)));
    PutNewKeyAppends(fields, "_provenance", provenance);
    assert FullValue(fields, [], r) == Mapping(fields + [Field("_provenance", provenance)]);
    FirstField(fields[0], [Field("_provenance", provenance)]);
    TextsSize(text);
  }

  lemma CountsAreShort(reference: string)
    requires |reference| <= 15
    ensures FieldsSize([Field("source_evidence_reference_count", Num(0)),
                        Field("delivered_evidence_references", Sequence([Str(reference)])),
                        Field("delivered_evidence_reference_count", Num(1)),
                        Field("undelivered_evidence_reference_count", Num(0)),
                        Field("source_inventory", Str("backend_evidence_ledger"))]) <= 400
  {
    var a := Field("source_evidence_reference_count", Num(0));
    var b := Field("delivered_evidence_references", Sequence([Str(reference)]));
    var c := Field("delivered_evidence_reference_count", Num(1));
    var d := Field("undelivered_evidence_reference_count", Num(0));
    var e := Field("source_inventory", Str("backend_evidence_ledger"));
    assert [a, b, c, d, e] == [a] + ([b] + [c, d, e]);
    FirstField(a, [b] + [c, d, e]);
    FirstField(b, [c, d, e]);
    ThreeFields(c, d, e);
    TextsSize(reference);
  }

  lemma OneTextIsShort(key: string, text: string)
    requires IsIdKey(key)
    ensures FieldsSize(OneText(key, text)) <= |text| + 200
  {
    IdKeyIsPlainListKey(key);
    var fields := OneText(key, text);
    ThreeFields(fields[0], fields[1], fields[2]);
    TextsSize(text);
    OneField(Field(key, Num(1)));
  }

  lemma ClippedFits(key: string, text: string, r: Renderer)
    requires IsIdKey(key) && FieldsSize(r.delivery(OneText(key, text))) <= 400
    ensures Rendered(Delivery(TwoTexts(key, text), OneText(key, text), r)) <= |text| + 1100
  {
    SourceMentionsNothing(key, text);
    ClippedMentionsTheLoss(key, text);
    IdKeyIsPlainListKey(key);
    var reference := IdPrefix(key) + "1";
    var references := seq(1, i requires 0 <= i < 1 => Str([reference][i]));
    assert references == [Str(reference)];
    var counts := [Field("source_evidence_reference_count", Num(0)),
                   Field("delivered_evidence_references", Sequence(references)),
                   Field("delivered_evidence_reference_count", Num(1)),
                   Field("undelivered_evidence_reference_count", Num(0)),
                   Field("source_inventory", Str("backend_evidence_ledger"))];
    CountsAreShort(reference);
    UpdateSize(counts, r.delivery(OneText(key, text)));
    var provenance := Mapping(Update(counts, r.delivery(OneText(key, text))));
    assert Delivery(TwoTexts(key, text), OneText(key, text), r)
        == Mapping(Put(OneText(key, text), "_provenance", provenance));
    PutSize(OneText(key, text), "_provenance", provenance);
    OneTextIsShort(key, text);
  }

  /** Without the condition on the losses the promise fails: two long texts under any identifier key mention
      nothing, exceed a budget of twice their length, and are delivered with a reference nobody retrieved. */
  lemma ShortenedIdListInventsReference(key: string, text: string, r: Renderer)
    requires IsIdKey(key) && |text| >= 1100
    requires r.size == Rendered && FieldsSize(r.delivery(OneText(key, text))) <= 400
    ensures CollectEvidenceReferences(TwoTexts(key, text)) == []
    ensures var clipped := Clipping(Mapping(TwoTexts(key, text)), Budget(2 * |text|), r);
            clipped.Partial? && clipped.fields == OneText(key, text) && clipped.delivered == [IdPrefix(key) + "1"]
  {
    SourceMentionsNothing(key, text);
    ClippedMentionsTheLoss(key, text);
    WholeExceeds(key, text, r);
    ClippedFits(key, text, r);
    TwoTextsInOneRound(key, text);
    var fields := TwoTexts(key, text);
    assert Halving(fields)(fields) == Shorter(OneText(key, text));
    assert Fitting(fields, 2 * |text|, r)(OneText(key, text));
  }
}
