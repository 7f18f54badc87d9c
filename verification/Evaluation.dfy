/** Threshold evaluation of the advisory baseline: the offline evaluator of `defensive_evaluation.py` and the
    online provider of `advisory_model.py`. Scores and rates are modelled as reals. */
module Evaluation {
  import opened Wrappers

  /** The value under `risk_score`, if there is one. */
  datatype Feature = Missing | Number(n: real) | NotNumeric

  datatype Label = Attack | Benign
  datatype Split = Train | Validation | Test
  datatype Sample = Sample(kind: Label, riskScore: Feature)

  datatype Policy = Policy(
    enabled: bool, requireTestSplit: bool, minimumPrecision: real, minimumRecall: real, maximumFalsePositiveRate: real,
    minimumAttackSamples: nat, minimumBenignSamples: nat)

  /** The bounds the policy contract enforces. */
  predicate PolicyValid(p: Policy) {
    && 0.5 <= p.minimumPrecision <= 1.0 && 0.5 <= p.minimumRecall <= 1.0 && 0.0 <= p.maximumFalsePositiveRate <= 0.5
    && p.minimumAttackSamples > 0 && p.minimumBenignSamples > 0
  }

  datatype Failure = BadThreshold | BadSplit | PolicyDisabled | TestSplitRequired | NotNumericScore | ScoreOutOfRange
  datatype Status = Accepted | Rejected | InsufficientData
  datatype Counts = Counts(tp: nat, fp: nat, tn: nat, fn: nat)
  datatype Verdict = Verdict(counts: Counts, precision: real, recall: real, falsePositiveRate: real, status: Status)

  // ----- The classifier -----

  function PredictsAttack(threshold: real, f: Feature): Result<bool, Failure> {
    match f
    case Missing => Ok(0.0 >= threshold)
    case Number(n) => Ok(n >= threshold)
    case NotNumeric => Err(NotNumericScore)
  }

  // ----- What the counters count -----

  predicate Flagged(threshold: real, s: Sample) {
    PredictsAttack(threshold, s.riskScore) == Ok(true)
  }

  /** How many samples of this kind the classifier flags, or does not flag. */
  function Count(threshold: real, samples: seq<Sample>, kind: Label, flagged: bool): nat {
    if samples == [] then 0
    else
      var s := samples[|samples| - 1];
      Count(threshold, samples[..|samples| - 1], kind, flagged)
        + if s.kind == kind && Flagged(threshold, s) == flagged then 1 else 0
  }

  function Confusion(threshold: real, samples: seq<Sample>): Counts {
    Counts(Count(threshold, samples, Attack, true), Count(threshold, samples, Benign, true),
           Count(threshold, samples, Benign, false), Count(threshold, samples, Attack, false))
  }

  function OfKind(samples: seq<Sample>, kind: Label): nat {
    if samples == [] then 0
    else OfKind(samples[..|samples| - 1], kind) + if samples[|samples| - 1].kind == kind then 1 else 0
  }

  predicate AllNumeric(samples: seq<Sample>) {
    forall i | 0 <= i < |samples| :: samples[i].riskScore != NotNumeric
  }

  function Ratio(part: nat, whole: nat): real {
    if whole == 0 then 0.0 else part as real / whole as real
  }

  function Judged(p: Policy, c: Counts): Verdict {
    var precision, recall, rate := Ratio(c.tp, c.tp + c.fp), Ratio(c.tp, c.tp + c.fn), Ratio(c.fp, c.fp + c.tn);
    Verdict(c, precision, recall, rate,
            if precision < p.minimumPrecision || recall < p.minimumRecall || rate > p.maximumFalsePositiveRate
              then Rejected else Accepted)
  }

  predicate Sufficient(p: Policy, samples: seq<Sample>) {
    OfKind(samples, Attack) >= p.minimumAttackSamples && OfKind(samples, Benign) >= p.minimumBenignSamples
  }

  function Refusal(p: Policy, split: Split): Option<Failure> {
    if split == Train then Some(BadSplit)
    else if !p.enabled then Some(PolicyDisabled)
    else if p.requireTestSplit && split != Test then Some(TestSplitRequired)
    else None
  }

  class RiskScoreThresholdClassifier {
    const threshold: real

    constructor (threshold: real)
      requires 0.0 <= threshold <= 1.0
      ensures this.threshold == threshold
    {
      this.threshold := threshold;
    }
  }

  /** `evaluate` on the samples of one split. */
  method Evaluate(p: Policy, split: Split, samples: seq<Sample>, classifier: RiskScoreThresholdClassifier)
    returns (result: Result<Verdict, Failure>)
    ensures result.Err? <==> Refusal(p, split).Some? || (Sufficient(p, samples) && !AllNumeric(samples))
    ensures result.Err? ==>
      result.failure == if Refusal(p, split).Some? then Refusal(p, split).value else NotNumericScore
    ensures result.Ok? && !Sufficient(p, samples) ==>
      result.value == Verdict(Counts(0, 0, 0, 0), 0.0, 0.0, 0.0, InsufficientData)
    ensures result.Ok? && Sufficient(p, samples) ==> result.value == Judged(p, Confusion(classifier.threshold, samples))
  {
    if split == Train {
      return Err(BadSplit);
    }
    if !p.enabled {
      return Err(PolicyDisabled);
    }
    if p.requireTestSplit && split != Test {
      return Err(TestSplitRequired);
    }
    if OfKind(samples, Attack) < p.minimumAttackSamples || OfKind(samples, Benign) < p.minimumBenignSamples {
      return Ok(Verdict(Counts(0, 0, 0, 0), 0.0, 0.0, 0.0, InsufficientData));
    }
    var tp, fp, tn, fn := 0, 0, 0, 0;
    for i := 0 to |samples|
      invariant AllNumeric(samples[..i])
      invariant Counts(tp, fp, tn, fn) == Confusion(classifier.threshold, samples[..i])
    {
      var prediction := PredictsAttack(classifier.threshold, samples[i].riskScore);
      assert samples[..i + 1][..i] == samples[..i];
      if prediction.Err? {
        assert samples[i].riskScore == NotNumeric;
        return Err(NotNumericScore);
      }
      if samples[i].kind == Attack && prediction.value {
        tp := tp + 1;
      } else if samples[i].kind == Attack {
        fn := fn + 1;
      } else if prediction.value {
        fp := fp + 1;
      } else {
        tn := tn + 1;
      }
    }
    assert samples[..|samples|] == samples;
    var precision, recall, rate := Ratio(tp, tp + fp), Ratio(tp, tp + fn), Ratio(fp, fp + tn);
    var rejections := 0;
    if precision < p.minimumPrecision {
      rejections := rejections + 1;
    }
    if recall < p.minimumRecall {
      rejections := rejections + 1;
    }
    if rate > p.maximumFalsePositiveRate {
      rejections := rejections + 1;
    }
    var status := if rejections == 0 then Accepted else Rejected;
    result := Ok(Verdict(Counts(tp, fp, tn, fn), precision, recall, rate, status));
  }

  // ----- Conservation and monotonicity -----

  /** The four counters partition the split: attacks are hit or missed, benign samples flagged or passed. */
  lemma {:induction false} CountersPartition(threshold: real, samples: seq<Sample>)
    ensures var c := Confusion(threshold, samples);
      && c.tp + c.fn == OfKind(samples, Attack) && c.fp + c.tn == OfKind(samples, Benign)
      && c.tp + c.fp + c.tn + c.fn == |samples|
  {
    if samples != [] {
      CountersPartition(threshold, samples[..|samples| - 1]);
    }
  }

  lemma {:induction false} FlagsMonotone(low: real, high: real, samples: seq<Sample>, kind: Label)
    requires low <= high
    ensures Count(high, samples, kind, true) <= Count(low, samples, kind, true)
  {
    if samples != [] {
      FlagsMonotone(low, high, samples[..|samples| - 1], kind);
    }
  }

  lemma RatioMonotone(a: nat, b: nat, whole: nat)
    requires a <= b
    ensures Ratio(a, whole) <= Ratio(b, whole)
  {
    if whole > 0 {
      assert a as real / whole as real <= b as real / whole as real;
    }
  }

  /** Raising the threshold never raises hits, false alarms, recall or false-positive rate. */
  lemma RaisingThresholdNeverRaises(p: Policy, low: real, high: real, samples: seq<Sample>)
    requires low <= high
    ensures var l, h := Judged(p, Confusion(low, samples)), Judged(p, Confusion(high, samples));
      && h.counts.tp <= l.counts.tp && h.counts.fp <= l.counts.fp
      && h.recall <= l.recall && h.falsePositiveRate <= l.falsePositiveRate
  {
    var l, h := Confusion(low, samples), Confusion(high, samples);
    FlagsMonotone(low, high, samples, Attack);
    FlagsMonotone(low, high, samples, Benign);
    CountersPartition(low, samples);
    CountersPartition(high, samples);
    RatioMonotone(h.tp, l.tp, OfKind(samples, Attack));
    RatioMonotone(h.fp, l.fp, OfKind(samples, Benign));
  }

  // ----- Acceptance -----

  /** `part` is at least, or at most, the share `bound` of `whole`. */
  predicate AtLeast(part: nat, whole: nat, bound: real) {
    part as real >= bound * whole as real
  }

  predicate AtMost(part: nat, whole: nat, bound: real) {
    part as real <= bound * whole as real
  }

  lemma RatioBounds(part: nat, whole: nat, bound: real)
    requires whole > 0
    ensures Ratio(part, whole) >= bound <==> AtLeast(part, whole, bound)
    ensures Ratio(part, whole) <= bound <==> AtMost(part, whole, bound)
  {
    var w := whole as real;
    var q := part as real / w;
    assert q * w == part as real;
    Scaled(q, bound, w);
  }

  lemma Scaled(q: real, bound: real, w: real)
    requires w > 0.0
    ensures q >= bound <==> q * w >= bound * w
    ensures q <= bound <==> q * w <= bound * w
  {
    assert (q - bound) * w == q * w - bound * w;
  }

  /** On sufficient data a model is accepted exactly when it flags something, enough of what it flags are
      attacks, enough of all attacks are flagged, and few enough benign samples are. */
  lemma AcceptedExactly(p: Policy, threshold: real, samples: seq<Sample>)
    requires PolicyValid(p) && Sufficient(p, samples)
    ensures var c := Confusion(threshold, samples);
      Judged(p, c).status == Accepted <==>
        && c.tp + c.fp > 0 && AtLeast(c.tp, c.tp + c.fp, p.minimumPrecision)
        && AtLeast(c.tp, OfKind(samples, Attack), p.minimumRecall)
        && AtMost(c.fp, OfKind(samples, Benign), p.maximumFalsePositiveRate)
  {
    var c := Confusion(threshold, samples);
    CountersPartition(threshold, samples);
    RatioBounds(c.tp, OfKind(samples, Attack), p.minimumRecall);
    RatioBounds(c.fp, OfKind(samples, Benign), p.maximumFalsePositiveRate);
    if c.tp + c.fp > 0 {
      RatioBounds(c.tp, c.tp + c.fp, p.minimumPrecision);
    }
    NoRatio(c.tp);
    hide AtLeast, AtMost, Ratio, Count, OfKind, Confusion;
  }

  lemma NoRatio(part: nat)
    ensures Ratio(part, 0) == 0.0
  {
  }

  /** `rate` is the share that `part` has in `whole`; a share of nothing is zero. */
  predicate IsShare(rate: real, part: nat, whole: nat) {
    rate * whole as real == part as real && (whole == 0 ==> rate == 0.0)
  }

  lemma RatioIsShare(part: nat, whole: nat)
    requires part <= whole
    ensures IsShare(Ratio(part, whole), part, whole)
  {
  }

  /** Each reported rate is its share: precision of what is flagged, recall of all attacks, and the false-positive
      rate of all benign samples. */
  lemma RatesExactly(p: Policy, threshold: real, samples: seq<Sample>)
    ensures var v := Judged(p, Confusion(threshold, samples));
      && v.counts == Confusion(threshold, samples)
      && IsShare(v.precision, v.counts.tp, v.counts.tp + v.counts.fp)
      && IsShare(v.recall, v.counts.tp, OfKind(samples, Attack))
      && IsShare(v.falsePositiveRate, v.counts.fp, OfKind(samples, Benign))
  {
    hide IsShare, Ratio;
    var c := Confusion(threshold, samples);
    CountersPartition(threshold, samples);
    RatioIsShare(c.tp, c.tp + c.fp);
    RatioIsShare(c.tp, c.tp + c.fn);
    RatioIsShare(c.fp, c.fp + c.tn);
  }

  // ----- When precision falls -----

  /** The shares compared by cross-multiplication. */
  lemma RatioBelow(a: nat, x: nat, c: nat, y: nat)
    requires x > 0 && y > 0
    ensures Ratio(a, x) < Ratio(c, y) <==> a * y < c * x
  {
    RatioBounds(a, x, Ratio(c, y));
    var q := c as real / y as real;
    assert q * y as real == c as real;
    Scaled(a as real, q * x as real, y as real);
    assert (q * x as real) * y as real == c as real * x as real;
  }

  lemma CrossTerms(a: int, b: int, c: int, d: int)
    ensures (c - a) * b > (d - b) * a <==> a * (c + d) < c * (a + b)
  {
  }

  /** Raising the threshold lowers precision if and only if the samples no longer flagged are richer in attacks
      than those still flagged; when nothing is flagged any more, if and only if an attack was flagged before. */
  lemma PrecisionFallsExactly(p: Policy, low: real, high: real, samples: seq<Sample>)
    requires low <= high
    ensures var l, h := Confusion(low, samples), Confusion(high, samples);
      && h.tp <= l.tp && h.fp <= l.fp
      && (Judged(p, h).precision < Judged(p, l).precision <==>
            if h.tp + h.fp == 0 then l.tp > 0 else (l.tp - h.tp) * h.fp > (l.fp - h.fp) * h.tp)
  {
    FlagsMonotone(low, high, samples, Attack);
    FlagsMonotone(low, high, samples, Benign);
    var l, h := Confusion(low, samples), Confusion(high, samples);
    hide Count, Confusion;
    NoRatio(h.tp);
    NoRatio(l.tp);
    if h.tp + h.fp > 0 {
      RatioBelow(h.tp, h.tp + h.fp, l.tp, l.tp + l.fp);
      CrossTerms(h.tp, h.fp, l.tp, l.fp);
    } else if l.tp + l.fp > 0 {
      RatioBounds(l.tp, l.tp + l.fp, 0.0);
    }
    hide Ratio;
  }

  lemma CountOfTwo(threshold: real, a: Sample, b: Sample, kind: Label, flagged: bool)
    ensures Count(threshold, [a, b], kind, flagged) ==
      (if a.kind == kind && Flagged(threshold, a) == flagged then 1 else 0)
        + (if b.kind == kind && Flagged(threshold, b) == flagged then 1 else 0)
  {
    assert [a, b][..1] == [a] && [a][..0] == [];
    assert Count(threshold, [a], kind, flagged) == if a.kind == kind && Flagged(threshold, a) == flagged then 1 else 0;
  }

  /** It happens: two samples, of which the attack scores lower. */
  lemma PrecisionIsNotMonotone(p: Policy)
    ensures var samples := [Sample(Attack, Number(0.5)), Sample(Benign, Number(0.9))];
      Judged(p, Confusion(0.8, samples)).precision < Judged(p, Confusion(0.4, samples)).precision
  {
    var samples := [Sample(Attack, Number(0.5)), Sample(Benign, Number(0.9))];
    forall threshold, kind, flagged { CountOfTwo(threshold, samples[0], samples[1], kind, flagged); }
    assert Confusion(0.8, samples) == Counts(0, 1, 0, 1);
    assert Confusion(0.4, samples) == Counts(1, 1, 0, 0);
  }

  // ----- Online against offline -----

  datatype Classification = Suspicious | LikelyBenign | InsufficientEvidence
  datatype Assessment = Assessment(classification: Classification, confidence: real)

  /** `assess` with `evidence` linked records. */
  function Assessed(threshold: real, riskScore: Feature, evidence: nat): Result<Assessment, Failure> {
    if evidence == 0 || !riskScore.Number? then Ok(Assessment(InsufficientEvidence, 0.0))
    else if !(0.0 <= riskScore.n <= 1.0) then Err(ScoreOutOfRange)
    else if riskScore.n >= threshold then Ok(Assessment(Suspicious, riskScore.n))
    else Ok(Assessment(LikelyBenign, 1.0 - riskScore.n))
  }

  predicate CallsSuspicious(threshold: real, riskScore: Feature, evidence: nat) {
    var a := Assessed(threshold, riskScore, evidence);
    a.Ok? && a.value.classification == Suspicious
  }

  /** The provider is said to match the offline baseline exactly. The two part exactly on a score at or above the
      threshold without evidence, on a missing score (which counts as zero offline) at threshold zero, and on a
      score above one; and there it is always the baseline that predicts an attack. */
  lemma OnlineMatchesOffline(threshold: real, riskScore: Feature, evidence: nat)
    requires 0.0 <= threshold <= 1.0
    ensures (CallsSuspicious(threshold, riskScore, evidence) <==> PredictsAttack(threshold, riskScore) == Ok(true)) <==>
      !((evidence == 0 && riskScore.Number? && riskScore.n >= threshold)
        || (riskScore.Missing? && threshold == 0.0)
        || (riskScore.Number? && riskScore.n > 1.0))
    ensures CallsSuspicious(threshold, riskScore, evidence) ==> PredictsAttack(threshold, riskScore) == Ok(true)
    ensures riskScore.Number? && 0.0 <= riskScore.n <= 1.0 && evidence > 0 ==>
      (CallsSuspicious(threshold, riskScore, evidence) <==> PredictsAttack(threshold, riskScore) == Ok(true))
  {
  }
}
