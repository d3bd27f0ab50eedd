/**
 The evidence gate: stamping completeness, gaps and a verdict onto a diagnosis from what the collectors
 answered, and the predicate that decides whether executable remediation may be proposed at all.
 */
module Evidence {
  import opened Common

  datatype CollectionStatus =
    | Collected | NotFound | Deferred | CollectorUnavailable | NotConfigured | Truncated | Stale | Unsupported

  datatype Collection = Collection(
    evidenceType: string, required: bool, status: CollectionStatus, evidenceIds: seq<string>)

  datatype Verdict =
    | ConfirmedMalicious | LikelyMalicious | Suspicious | LikelyBenign | ConfirmedBenign
    | InsufficientEvidence | TelemetryUnavailable

  datatype Diagnosis = Diagnosis(
    incidentType: string,
    confidence: real,
    needsMoreEvidence: bool,
    verdict: Verdict,
    observedConfirmed: bool,
    completeness: real,
    telemetryGaps: seq<string>,
    missing: seq<string>,
    contradictingRequirements: seq<string>,
    contradictingIds: seq<string>)

  predicate Answered(s: CollectionStatus) { s == Collected || s == NotFound }

  predicate IsGap(s: CollectionStatus) { s == CollectorUnavailable || s == NotConfigured || s == Unsupported }

  // ---- What the required collectors said --------------------------------------------------------

  function RequiredCount(rs: seq<Collection>): nat
  {
    if rs == [] then 0 else (if rs[0].required then 1 else 0) + RequiredCount(rs[1..])
  }

  function AnsweredCount(rs: seq<Collection>): nat
  {
    if rs == [] then 0 else (if rs[0].required && Answered(rs[0].status) then 1 else 0) + AnsweredCount(rs[1..])
  }

  /** The types of the required results whose status is in the given set, in collection order. */
  function TypesWith(rs: seq<Collection>, statuses: set<CollectionStatus>): seq<string>
  {
    if rs == [] then []
    else (if rs[0].required && rs[0].status in statuses then [rs[0].evidenceType] else [])
         + TypesWith(rs[1..], statuses)
  }

  function IdsNotFound(rs: seq<Collection>): seq<string>
  {
    if rs == [] then []
    else (if rs[0].required && rs[0].status == NotFound then rs[0].evidenceIds else []) + IdsNotFound(rs[1..])
  }

  const GAPS := {CollectorUnavailable, NotConfigured, Unsupported}
  const UNANSWERED := {Deferred, CollectorUnavailable, NotConfigured, Truncated, Stale, Unsupported}

  function Completeness(rs: seq<Collection>): real
  {
    if RequiredCount(rs) == 0 then 1.0 else AnsweredCount(rs) as real / RequiredCount(rs) as real
  }

  /** Rounds to three decimals, halves to the even thousandth. */
  function Round3(x: real): real
  {
    var scaled := x * 1000.0;
    var down := scaled.Floor;
    var rest := scaled - down as real;
    var thousandths :=
      if rest < 0.5 then down
      else if rest > 0.5 then down + 1
      else if down % 2 == 0 then down
      else down + 1;
    thousandths as real / 1000.0
  }

  function BaseVerdict(d: Diagnosis, rs: seq<Collection>, threshold: real, truncated: bool, threatBearing: bool): Verdict
  {
    if TypesWith(rs, GAPS) != [] then TelemetryUnavailable
    else if truncated || d.needsMoreEvidence || Completeness(rs) < threshold then InsufficientEvidence
    else if !threatBearing then Suspicious
    else if d.confidence >= 0.9 then ConfirmedMalicious
    else if d.confidence >= 0.75 then LikelyMalicious
    else Suspicious
  }

  /** Each unfavourable answer costs a threat verdict one band, down to suspicious. */
  function Weaken(v: Verdict, contradictions: nat): Verdict
  {
    if contradictions == 0 then v
    else match v
      case ConfirmedMalicious => if contradictions == 1 then LikelyMalicious else Suspicious
      case LikelyMalicious => Suspicious
      case _ => v
  }

  function AssessEvidence(
    d: Diagnosis, rs: seq<Collection>, threshold: real, truncated: bool, threatBearing: bool): Diagnosis
  {
    var contradicting := TypesWith(rs, {NotFound});
    d.(verdict := Weaken(BaseVerdict(d, rs, threshold, truncated, threatBearing), |contradicting|),
       observedConfirmed := TypesWith(rs, GAPS) == [] && Completeness(rs) >= threshold && d.confidence >= 0.75,
       contradictingRequirements := contradicting,
       contradictingIds := Dedupe(d.contradictingIds + IdsNotFound(rs)),
       completeness := Round3(Completeness(rs)),
       telemetryGaps := TypesWith(rs, GAPS),
       missing := Dedupe(d.missing + TypesWith(rs, UNANSWERED)),
       needsMoreEvidence := d.needsMoreEvidence || TypesWith(rs, {Deferred}) != [])
  }

  predicate RemediationAllowed(d: Diagnosis, confidenceThreshold: real, completenessThreshold: real)
  {
    && (d.verdict == ConfirmedMalicious || d.verdict == LikelyMalicious)
    && d.confidence >= confidenceThreshold
    && d.completeness >= completenessThreshold
    && d.telemetryGaps == []
  }

  // ---- The gate never opens for less evidence ---------------------------------------------------

  /** The same collections, some of the collected required ones having lost that status. */
  ghost predicate LosesEvidence(more: seq<Collection>, less: seq<Collection>)
  {
    && |more| == |less|
    && forall i :: 0 <= i < |more| ==>
         || less[i] == more[i]
         || (more[i].required && more[i].status == Collected && less[i] == more[i].(status := less[i].status))
  }

  lemma {:induction false} LosingEvidenceShiftsCounts(more: seq<Collection>, less: seq<Collection>)
    requires LosesEvidence(more, less)
    ensures RequiredCount(less) == RequiredCount(more)
    ensures AnsweredCount(less) <= AnsweredCount(more) <= RequiredCount(more)
    ensures |TypesWith(more, GAPS)| <= |TypesWith(less, GAPS)|
    ensures |TypesWith(more, {NotFound})| <= |TypesWith(less, {NotFound})|
  {
    if more != [] {
      LosingEvidenceShiftsCounts(more[1..], less[1..]);
    }
  }

  lemma CompletenessShrinks(more: seq<Collection>, less: seq<Collection>)
    requires LosesEvidence(more, less)
    ensures Completeness(less) <= Completeness(more)
  {
    LosingEvidenceShiftsCounts(more, less);
    var n := RequiredCount(more);
    if n != 0 {
      DivisionIsMonotone(AnsweredCount(less) as real, AnsweredCount(more) as real, n as real);
    }
  }

  lemma DivisionIsMonotone(a: real, b: real, n: real)
    requires a <= b && n > 0.0
    ensures a / n <= b / n
  {
    assert (b - a) / n >= 0.0;
    assert b / n == a / n + (b - a) / n;
  }

  lemma Round3IsMonotone(x: real, y: real)
    requires x <= y
    ensures Round3(x) <= Round3(y)
  {
    var a, b := x * 1000.0, y * 1000.0;
    assert a <= b;
    assert a.Floor <= b.Floor;
  }

  lemma WeakenIsAntitone(v: Verdict, fewer: nat, more: nat)
    requires fewer <= more
    requires Weaken(v, more) == ConfirmedMalicious || Weaken(v, more) == LikelyMalicious
    ensures Weaken(v, fewer) == ConfirmedMalicious || Weaken(v, fewer) == LikelyMalicious
  {
  }

  /** Losing evidence never turns a refused remediation into an allowed one. */
  lemma EvidenceGateIsAntitone(
    d: Diagnosis, more: seq<Collection>, less: seq<Collection>,
    threshold: real, truncated: bool, threatBearing: bool, confidenceThreshold: real, completenessThreshold: real)
    requires LosesEvidence(more, less)
    requires RemediationAllowed(AssessEvidence(d, less, threshold, truncated, threatBearing),
                                confidenceThreshold, completenessThreshold)
    ensures RemediationAllowed(AssessEvidence(d, more, threshold, truncated, threatBearing),
                               confidenceThreshold, completenessThreshold)
  {
    LosingEvidenceShiftsCounts(more, less);
    CompletenessShrinks(more, less);
    Round3IsMonotone(Completeness(less), Completeness(more));
    var base := BaseVerdict(d, less, threshold, truncated, threatBearing);
    assert TypesWith(more, GAPS) == [];
    assert BaseVerdict(d, more, threshold, truncated, threatBearing) == base;
    WeakenIsAntitone(base, |TypesWith(more, {NotFound})|, |TypesWith(less, {NotFound})|);
  }

  /** Exactly when the gate opens: the unrounded evidence meets the threshold (and so does the rounded
      figure that is stored), nothing required went unasked, the capability bears a threat, and the
      confidence still carries the verdict after at most one unfavourable answer. */
  lemma AllowedIffSupported(
    d: Diagnosis, rs: seq<Collection>, threshold: real, truncated: bool, threatBearing: bool, confidenceThreshold: real)
    ensures RemediationAllowed(AssessEvidence(d, rs, threshold, truncated, threatBearing), confidenceThreshold, threshold) <==>
      && Completeness(rs) >= threshold && Round3(Completeness(rs)) >= threshold
      && (forall i :: 0 <= i < |rs| && rs[i].required ==> !IsGap(rs[i].status))
      && threatBearing && !truncated && !d.needsMoreEvidence
      && d.confidence >= confidenceThreshold
      && ((|TypesWith(rs, {NotFound})| == 0 && d.confidence >= 0.75)
          || (|TypesWith(rs, {NotFound})| == 1 && d.confidence >= 0.9))
  {
    NoGapTypes(rs);
  }

  lemma {:induction false} NoGapTypes(rs: seq<Collection>)
    ensures TypesWith(rs, GAPS) == [] <==> forall i :: 0 <= i < |rs| && rs[i].required ==> !IsGap(rs[i].status)
  {
    if rs != [] {
      NoGapTypes(rs[1..]);
      assert forall i :: 0 <= i < |rs| - 1 ==> rs[i + 1] == rs[1..][i];
      if TypesWith(rs, GAPS) == [] {
        forall i | 0 <= i < |rs| && rs[i].required ensures !IsGap(rs[i].status) {
          if i > 0 { assert rs[i] == rs[1..][i - 1]; }
        }
      }
    }
  }

  // ---- Assessing twice --------------------------------------------------------------------------

  lemma {:induction false} DedupeAbsorbs(xs: seq<string>, ys: seq<string>)
    requires forall y :: y in ys ==> y in xs
    ensures Dedupe(xs + ys) == Dedupe(xs)
  {
    if ys == [] {
      assert xs + ys == xs;
    } else {
      var front, y := ys[..|ys| - 1], ys[|ys| - 1];
      assert (xs + ys)[..|xs + ys| - 1] == xs + front;
      assert y in ys;
      DedupeAbsorbs(xs, front);
      DedupeMembers(xs);
    }
  }

  lemma {:induction false} DedupeFixpoint(xs: seq<string>)
    ensures Dedupe(Dedupe(xs)) == Dedupe(xs)
  {
    if xs != [] {
      var front := xs[..|xs| - 1];
      DedupeFixpoint(front);
      var once := Dedupe(front);
      var last := xs[|xs| - 1];
      if last !in once {
        assert (once + [last])[..|once + [last]| - 1] == once;
      }
    }
  }

  lemma DedupeTwice(xs: seq<string>, ys: seq<string>)
    ensures Dedupe(Dedupe(xs + ys) + ys) == Dedupe(xs + ys)
  {
    DedupeMembers(xs + ys);
    DedupeAbsorbs(Dedupe(xs + ys), ys);
    DedupeFixpoint(xs + ys);
  }

  /** Everything but the verdict is settled by the first assessment. */
  lemma OnlyVerdictCanChange(d: Diagnosis, rs: seq<Collection>, threshold: real, truncated: bool, threatBearing: bool)
    ensures var once := AssessEvidence(d, rs, threshold, truncated, threatBearing);
      var twice := AssessEvidence(once, rs, threshold, truncated, threatBearing);
      twice == once.(verdict := twice.verdict)
  {
    DedupeTwice(d.contradictingIds, IdsNotFound(rs));
    DedupeTwice(d.missing, TypesWith(rs, UNANSWERED));
  }

  /** Asking for more evidence changes a verdict only if nothing else had prevented one. */
  lemma VerdictFallsWithRequest(d: Diagnosis, asking: Diagnosis, rs: seq<Collection>, threshold: real, truncated: bool,
                                threatBearing: bool, contradictions: nat)
    requires asking.confidence == d.confidence && (d.needsMoreEvidence ==> asking.needsMoreEvidence)
    ensures Weaken(BaseVerdict(asking, rs, threshold, truncated, threatBearing), contradictions)
         == Weaken(BaseVerdict(d, rs, threshold, truncated, threatBearing), contradictions)
      <==> || asking.needsMoreEvidence == d.needsMoreEvidence
           || TypesWith(rs, GAPS) != []
           || truncated
           || Completeness(rs) < threshold
  {
  }

  /** A second assessment of the same collections changes nothing, except when evidence was deferred
      on a diagnosis that asked for none: the first pass then raises the request, and the second one
      takes the verdict down to insufficient evidence unless it already was a refusal to conclude. */
  lemma AssessmentIsIdempotentUnlessDeferred(
    d: Diagnosis, rs: seq<Collection>, threshold: real, truncated: bool, threatBearing: bool)
    ensures var once := AssessEvidence(d, rs, threshold, truncated, threatBearing);
            AssessEvidence(once, rs, threshold, truncated, threatBearing) == once <==>
              || TypesWith(rs, {Deferred}) == []
              || d.needsMoreEvidence
              || TypesWith(rs, GAPS) != []
              || truncated
              || Completeness(rs) < threshold
  {
    OnlyVerdictCanChange(d, rs, threshold, truncated, threatBearing);
    var once := AssessEvidence(d, rs, threshold, truncated, threatBearing);
    VerdictFallsWithRequest(d, once, rs, threshold, truncated, threatBearing, |TypesWith(rs, {NotFound})|);
  }
}
