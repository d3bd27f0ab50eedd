/**
 Serializing a tool result within its budget: the halvings of ResultClipping, repeated until the result fits,
 and what can be said of the result of the whole loop.
 */
module ResultDelivery {
  import opened Common
  import opened Json
  import opened ResultClipping

  // ---- What is delivered ------------------------------------------------------------------------

  datatype Clipped =
    | Whole(value: Value)
    | Partial(fields: seq<Field>, delivered: seq<string>, value: Value)
    | Compact
    | PlainValue(value: Value)
    | PlainNotice
    | Raised

  /** size is the length of the rendered text; delivery describes the kind of evidence in a result. */
  datatype Renderer = Renderer(size: Value -> nat, delivery: seq<Field> -> seq<Field>)

  function FullValue(fields: seq<Field>, references: seq<string>, r: Renderer): Value
  {
    var own := match Get(fields, "_provenance") case Some(Mapping(p)) => p case _ => [];
    var counts := [Field("source_evidence_reference_count", Num(|references|)),
                   Field("delivered_evidence_reference_count", Num(|references|))];
    Mapping(Put(fields, "_provenance", Mapping(Update(Update(own, counts), r.delivery(fields)))))
  }

  function Candidate(shrunk: seq<Field>, references: seq<string>, delivered: seq<string>, r: Renderer): Value
  {
    var counts := [Field("source_evidence_reference_count", Num(|references|)),
                   Field("delivered_evidence_references", Sequence(seq(|delivered|, i requires 0 <= i < |delivered| => Str(delivered[i])))),
                   Field("delivered_evidence_reference_count", Num(|delivered|)),
                   Field("undelivered_evidence_reference_count", Num(Max(0, |references| - |delivered|))),
                   Field("source_inventory", Str("backend_evidence_ledger"))];
    Mapping(Put(shrunk, "_provenance", Mapping(Update(counts, r.delivery(shrunk)))))
  }

  /** The result as shrinking starts with it, without its flat reference inventory. */
  function Start(fields: seq<Field>): seq<Field> { Without(fields, "evidence_references") }

  lemma StartIsFaithful(fields: seq<Field>)
    requires UniqueKeys(fields)
    ensures UniqueKeys(Start(fields)) && Faithful(Start(fields), Start(fields))
    ensures MentionsOutside(Start(fields), CollectEvidenceReferences(fields))
  {
    WithoutKeepsKeysUnique(fields, "evidence_references");
    GetAfterWithout(fields, "evidence_references", "");
    OwnReferences(fields);
    DedupeMembers(FieldsReferences(fields));
    forall key ensures FaithfulAt(Start(fields), Start(fields), key) {
    }
  }

  // ---- Clipping, round by round -----------------------------------------------------------------

  datatype Round =
    | Shorter(fields: seq<Field>)
    | NoListLeft
    | Raises

  /** One halving of the longest list. */
  function OneRound(fields: seq<Field>, shrunk: seq<Field>): Round
  {
    match LongestList(shrunk)
    case None => NoListLeft
    case Some((longest, _)) =>
      match Halved(shrunk, longest, CoverageSnapshot(fields), ListLengths(Start(fields)))
      case None => Raises
      case Some(next) => Shorter(next)
  }

  function Rounds(round: seq<Field> -> Round, start: seq<Field>, n: nat): Round
  {
    if n == 0 then Shorter(start)
    else
      match Rounds(round, start, n - 1)
      case Shorter(shrunk) => round(shrunk)
      case stopped => stopped
  }

  /** Rounds until a result fits, as long as some are left. */
  function Search(round: seq<Field> -> Round, fits: seq<Field> -> bool, shrunk: seq<Field>, left: nat): Round
    decreases left
  {
    if left == 0 then NoListLeft
    else
      match round(shrunk)
      case Shorter(next) => if fits(next) then Shorter(next) else Search(round, fits, next, left - 1)
      case stopped => stopped
  }

  /** The result fits after some number of rounds. */
  predicate FitsAfter(round: seq<Field> -> Round, fits: seq<Field> -> bool, start: seq<Field>, n: nat)
  {
    match Rounds(round, start, n) case Shorter(shrunk) => fits(shrunk) case _ => false
  }

  /** The n-th round is the first after the given one to fit, and gives this result. */
  ghost predicate FirstFit(
    round: seq<Field> -> Round, fits: seq<Field> -> bool, start: seq<Field>, after: nat, n: nat, found: Round)
  {
    && after < n <= 8 && found.Shorter? && FitsAfter(round, fits, start, n)
    && (forall k :: after < k < n ==> !FitsAfter(round, fits, start, k))
    && found == Rounds(round, start, n)
  }

  lemma {:induction false} StoppedStaysStopped(round: seq<Field> -> Round, start: seq<Field>, n: nat, m: nat)
    requires n <= m && !Rounds(round, start, n).Shorter?
    ensures !Rounds(round, start, m).Shorter?
  {
    if n < m {
      StoppedStaysStopped(round, start, n, m - 1);
    }
  }

  /** The search finds the first of the rounds left that fits, and nothing only when none does. */
  lemma {:induction false} SearchFindsFirst(
    round: seq<Field> -> Round, fits: seq<Field> -> bool, start: seq<Field>, shrunk: seq<Field>, n: nat)
    requires n <= 8 && Rounds(round, start, n) == Shorter(shrunk)
    ensures var found := Search(round, fits, shrunk, 8 - n);
            && (found.Shorter? <==> exists k :: n < k <= 8 && FitsAfter(round, fits, start, k))
            && (found.Shorter? ==> exists k :: FirstFit(round, fits, start, n, k, found))
    decreases 8 - n
  {
    var found := Search(round, fits, shrunk, 8 - n);
    if n < 8 {
      assert Rounds(round, start, n + 1) == round(shrunk);
      if !round(shrunk).Shorter? {
        forall k | n < k <= 8 ensures !FitsAfter(round, fits, start, k) {
          StoppedStaysStopped(round, start, n + 1, k);
        }
      } else if fits(round(shrunk).fields) {
        assert FitsAfter(round, fits, start, n + 1);
        assert FirstFit(round, fits, start, n, n + 1, found);
      } else {
        SearchFindsFirst(round, fits, start, round(shrunk).fields, n + 1);
        if found.Shorter? {
          var k :| FirstFit(round, fits, start, n + 1, k, found);
          assert FirstFit(round, fits, start, n, k, found);
        }
      }
    }
  }

  /** A round takes a good result to a good one, and to one that has a further property. */
  ghost predicate Keeps(round: seq<Field> -> Round, good: seq<Field> -> bool, gained: seq<Field> -> bool)
  {
    forall s :: good(s) && round(s).Shorter? ==> good(round(s).fields) && gained(round(s).fields)
  }

  lemma {:induction false} RoundsKeep(
    round: seq<Field> -> Round, good: seq<Field> -> bool, gained: seq<Field> -> bool, start: seq<Field>, n: nat)
    requires Keeps(round, good, gained) && good(start)
    ensures Rounds(round, start, n).Shorter? ==>
      good(Rounds(round, start, n).fields) && (n > 0 ==> gained(Rounds(round, start, n).fields))
  {
    if n > 0 {
      RoundsKeep(round, good, gained, start, n - 1);
    }
  }

  lemma {:induction false} SearchNeverRaises(
    round: seq<Field> -> Round, fits: seq<Field> -> bool, good: seq<Field> -> bool, shrunk: seq<Field>, left: nat)
    requires Keeps(round, good, good) && good(shrunk)
    requires forall s :: good(s) ==> !round(s).Raises?
    ensures !Search(round, fits, shrunk, left).Raises?
    decreases left
  {
    if left > 0 && round(shrunk).Shorter? {
      SearchNeverRaises(round, fits, good, round(shrunk).fields, left - 1);
    }
  }

  // ---- Clipping ---------------------------------------------------------------------------------

  function Delivery(fields: seq<Field>, shrunk: seq<Field>, r: Renderer): Value
  {
    Candidate(shrunk, CollectEvidenceReferences(fields), CollectEvidenceReferences(shrunk), r)
  }

  function Halving(fields: seq<Field>): seq<Field> -> Round { shrunk => OneRound(fields, shrunk) }

  function Fitting(fields: seq<Field>, maxChars: nat, r: Renderer): seq<Field> -> bool
  {
    shrunk => r.size(Delivery(fields, shrunk, r)) <= maxChars
  }

  function Delivered(fields: seq<Field>, found: Round, r: Renderer): Clipped
  {
    match found
    case Shorter(shrunk) => Partial(shrunk, CollectEvidenceReferences(shrunk), Delivery(fields, shrunk, r))
    case NoListLeft => Compact
    case Raises => Raised
  }

  /** Configured budgets below 1000 characters are raised to that. */
  function Budget(setting: int): nat { Max(1000, setting) }

  /** What clipping makes of a result. */
  function Clipping(value: Value, maxChars: nat, r: Renderer): Clipped
  {
    match value
    case Mapping(fields) =>
      var full := FullValue(fields, CollectEvidenceReferences(fields), r);
      if r.size(full) <= maxChars then Whole(full)
      else Delivered(fields, Search(Halving(fields), Fitting(fields, maxChars, r), Start(fields), 8), r)
    case _ => if r.size(value) <= maxChars then PlainValue(value) else PlainNotice
  }

  predicate OverBudget(fields: seq<Field>, maxChars: nat, r: Renderer)
  {
    r.size(FullValue(fields, CollectEvidenceReferences(fields), r)) > maxChars
  }

  lemma StatableRound(fields: seq<Field>, shrunk: seq<Field>)
    requires UniqueKeys(shrunk)
    ensures OneRound(fields, shrunk).Raises? <==> LongestList(shrunk).Some? && !Statable(shrunk)
    ensures OneRound(fields, shrunk).Shorter? ==>
      Statable(OneRound(fields, shrunk).fields) && UniqueKeys(OneRound(fields, shrunk).fields)
  {
    if LongestList(shrunk).Some? {
      LongestIsGot(shrunk);
      var longest := LongestList(shrunk).value.0;
      HalvedIffStatable(shrunk, longest, CoverageSnapshot(fields), ListLengths(Start(fields)));
      if Statable(shrunk) {
        HalvedKeepsKeysUnique(shrunk, longest, CoverageSnapshot(fields), ListLengths(Start(fields)));
      }
    }
  }

  lemma StatableNeverRaises(fields: seq<Field>, fits: seq<Field> -> bool)
    requires UniqueKeys(Start(fields)) && Statable(Start(fields))
    ensures !Search(Halving(fields), fits, Start(fields), 8).Raises?
  {
    ghost var good := (s: seq<Field>) => UniqueKeys(s) && Statable(s);
    forall s | good(s)
      ensures !Halving(fields)(s).Raises? && (Halving(fields)(s).Shorter? ==> good(Halving(fields)(s).fields)) {
      StatableRound(fields, s);
    }
    SearchNeverRaises(Halving(fields), fits, good, Start(fields), 8);
  }

  lemma RaisesIff(fields: seq<Field>, fits: seq<Field> -> bool)
    requires UniqueKeys(fields)
    ensures Search(Halving(fields), fits, Start(fields), 8).Raises?
            <==> LongestList(Start(fields)).Some? && !Statable(Start(fields))
  {
    StartIsFaithful(fields);
    if Statable(Start(fields)) {
      StatableNeverRaises(fields, fits);
    } else {
      StatableRound(fields, Start(fields));
    }
  }

  /** Over the budget: clipping delivers exactly when one of eight halvings fits, and then the first that
      does; it raises exactly when there is a list to halve beside a coverage or an offset that cannot be
      restated; in every other case it sends the notice. */
  lemma ClippingOutcome(fields: seq<Field>, maxChars: nat, r: Renderer)
    requires UniqueKeys(fields) && OverBudget(fields, maxChars, r)
    ensures var clipped := Clipping(Mapping(fields), maxChars, r);
            var fits := Fitting(fields, maxChars, r);
            && (clipped.Partial? || clipped.Compact? || clipped.Raised?)
            && (clipped.Partial? <==> exists k :: 0 < k <= 8 && FitsAfter(Halving(fields), fits, Start(fields), k))
            && (clipped.Partial? ==>
                  exists k :: FirstFit(Halving(fields), fits, Start(fields), 0, k, Shorter(clipped.fields)))
            && (clipped.Raised? <==> LongestList(Start(fields)).Some? && !Statable(Start(fields)))
  {
    SearchFindsFirst(Halving(fields), Fitting(fields, maxChars, r), Start(fields), Start(fields), 0);
    RaisesIff(fields, Fitting(fields, maxChars, r));
  }

  /** What a clipped delivery promises of the result it came from. */
  ghost predicate FaithfulDelivery(fields: seq<Field>, shrunk: seq<Field>, delivered: seq<string>)
  {
    && Faithful(Start(fields), shrunk)
    && LossesStated(Start(fields), shrunk)
    && delivered == CollectEvidenceReferences(shrunk)
    && (Within(delivered, CollectEvidenceReferences(fields))
        <==> LossesReadAs(Start(fields), shrunk, CollectEvidenceReferences(fields)))
    && (NoListUnderIdKey(Start(fields)) ==> Within(delivered, CollectEvidenceReferences(fields)))
  }

  ghost predicate Sound(fields: seq<Field>, shrunk: seq<Field>)
  {
    && UniqueKeys(shrunk) && Faithful(Start(fields), shrunk)
    && MentionsOutside(shrunk, CollectEvidenceReferences(fields))
  }

  lemma DeliveryIsFaithful(fields: seq<Field>, shrunk: seq<Field>)
    requires Sound(fields, shrunk) && LossesStated(Start(fields), shrunk)
    ensures FaithfulDelivery(fields, shrunk, CollectEvidenceReferences(shrunk))
  {
    LossesDecide(Start(fields), shrunk, CollectEvidenceReferences(fields));
    DedupeMembers(FieldsReferences(shrunk));
    if NoListUnderIdKey(Start(fields)) {
      assert forall key :: IsIdKey(key) ==> Loss(Start(fields), shrunk, key).None?;
    }
  }

  lemma OneRoundIsSound(fields: seq<Field>, shrunk: seq<Field>)
    requires UniqueKeys(fields) && Sound(fields, shrunk) && OneRound(fields, shrunk).Shorter?
    ensures Sound(fields, OneRound(fields, shrunk).fields)
    ensures LossesStated(Start(fields), OneRound(fields, shrunk).fields)
  {
    var longest := LongestList(shrunk).value.0;
    var snapshot := CoverageSnapshot(fields);
    StartIsFaithful(fields);
    LongestIsGot(shrunk);
    SnapshotIsPlain(fields);
    HalvedIsFaithful(Start(fields), shrunk, longest, snapshot);
    HalvedKeepsKeysUnique(shrunk, longest, snapshot, ListLengths(Start(fields)));
    HalvedMentionsOutside(shrunk, longest, snapshot, ListLengths(Start(fields)), CollectEvidenceReferences(fields));
  }

  lemma OneRoundIsFaithful(fields: seq<Field>, before: seq<Field>, shrunk: seq<Field>)
    requires UniqueKeys(fields) && Sound(fields, before) && OneRound(fields, before) == Shorter(shrunk)
    ensures FaithfulDelivery(fields, shrunk, CollectEvidenceReferences(shrunk))
  {
    OneRoundIsSound(fields, before);
    DeliveryIsFaithful(fields, shrunk);
  }

  /** After any number of halvings the lists are prefixes, every loss is stated, and what is mentioned is
      decided by the losses. */
  lemma RoundsAreFaithful(fields: seq<Field>, n: nat)
    requires UniqueKeys(fields) && n > 0 && Rounds(Halving(fields), Start(fields), n).Shorter?
    ensures var shrunk := Rounds(Halving(fields), Start(fields), n).fields;
            FaithfulDelivery(fields, shrunk, CollectEvidenceReferences(shrunk))
  {
    ghost var good := (s: seq<Field>) => Sound(fields, s);
    ghost var faithful := (s: seq<Field>) => FaithfulDelivery(fields, s, CollectEvidenceReferences(s));
    forall s | good(s) && Halving(fields)(s).Shorter?
      ensures good(Halving(fields)(s).fields) && faithful(Halving(fields)(s).fields) {
      OneRoundIsSound(fields, s);
      OneRoundIsFaithful(fields, s, Halving(fields)(s).fields);
    }
    StartIsFaithful(fields);
    RoundsKeep(Halving(fields), good, faithful, Start(fields), n);
  }

  /** A clipped delivery is within the budget and faithful to the result it came from. */
  lemma ClippedIsFaithful(fields: seq<Field>, maxChars: nat, r: Renderer)
    requires UniqueKeys(fields)
    ensures var clipped := Clipping(Mapping(fields), maxChars, r);
            clipped.Partial? ==>
              && r.size(clipped.value) <= maxChars
              && clipped.value == Candidate(clipped.fields, CollectEvidenceReferences(fields), clipped.delivered, r)
              && FaithfulDelivery(fields, clipped.fields, clipped.delivered)
  {
    var clipped := Clipping(Mapping(fields), maxChars, r);
    if clipped.Partial? {
      ClippingOutcome(fields, maxChars, r);
      var k :| FirstFit(Halving(fields), Fitting(fields, maxChars, r), Start(fields), 0, k, Shorter(clipped.fields));
      RoundsAreFaithful(fields, k);
    }
  }

  /** The halving loop: at most eight rounds, up to the first result that fits. */
  method ShrinkToFit(round: seq<Field> -> Round, fits: seq<Field> -> bool, start: seq<Field>) returns (found: Round)
    ensures found == Search(round, fits, start, 8)
  {
    var shrunk := start;
    for i := 0 to 8
      invariant Search(round, fits, shrunk, 8 - i) == Search(round, fits, start, 8)
    {
      var next := round(shrunk);
      if !next.Shorter? {
        return next;
      }
      shrunk := next.fields;
      if fits(shrunk) {
        return next;
      }
    }
    return NoListLeft;
  }

  /** Serializes a tool result within the budget: whole when it fits, else after at most eight halvings
      of its longest lists, else as a bare notice. */
  method Clip(value: Value, setting: int, r: Renderer) returns (clipped: Clipped)
    requires value.Mapping? ==> UniqueKeys(value.fields)
    ensures clipped == Clipping(value, Budget(setting), r)
    ensures clipped.Partial? ==>
      && value.Mapping? && r.size(clipped.value) <= Budget(setting)
      && FaithfulDelivery(value.fields, clipped.fields, clipped.delivered)
  {
    var maxChars := Max(1000, setting);
    if !value.Mapping? {
      return if r.size(value) <= maxChars then PlainValue(value) else PlainNotice;
    }
    var full := FullValue(value.fields, CollectEvidenceReferences(value.fields), r);
    if r.size(full) <= maxChars {
      return Whole(full);
    }
    ClippedIsFaithful(value.fields, maxChars, r);
    var found := ShrinkToFit(Halving(value.fields), Fitting(value.fields, maxChars, r), Start(value.fields));
    return Delivered(value.fields, found, r);
  }
}
