/**
 * The admissions calculator: a composite desirability score built from an
 * academic score (GPA normalised against the applicant's school, blended with
 * the SAT score and scaled by the school's competitiveness), a mission-fit
 * weighted average, additive context modifiers and an intersectionality
 * bonus; the score is then sorted into a category by a first-match decision
 * list. The calculator object keeps an append-only audit log and a list of
 * historical outcomes.
 *
 * Floats are exact reals. The logistic function used to normalise GPAs is
 * transcendental and is kept abstract: the calculator holds it as a function
 * value, and facts about it are hypotheses (`LogisticRange`).
 */
module Admissions {
  import opened Wrappers

  // ---------------------------------------------------------------------------
  // Data model
  // ---------------------------------------------------------------------------

  /** The institution's weights for the three score components. */
  datatype Weights = Weights(academic: real, contributions: real, missionFit: real)

  /** One item of the institution's mission-metric dictionary, in iteration order. */
  datatype Metric = Metric(name: string, weight: real)

  /** The classification thresholds, keyed 'Safety', 'Target' and 'Reach'. */
  datatype Thresholds = Thresholds(safety: real, target: real, reach: real)

  /** The thresholds every calculator starts with. */
  const DefaultThresholds := Thresholds(0.7, 0.5, 0.3)

  /**
   * An applicant. Keys the code indexes directly (`gpa`, `test_scores`,
   * `school_id`, the contributions' `total`) are plain fields; keys it reads
   * with `.get` are optional and the operations apply the code's defaults.
   */
  datatype Student = Student(
    gpa: real,
    testScores: int,
    schoolId: string,
    lowIncome: Option<bool>,
    adversityScore: Option<real>,
    underrepresentedGroup: Option<real>,
    contributionsTotal: real,
    leadership: Option<real>,
    missionAlignment: map<string, real>)

  /** The four categories; `BelowThreshold` is the string 'Below Threshold'. */
  datatype Category = Safety | Target | Reach | BelowThreshold

  datatype ComponentScores = ComponentScores(academic: real, contributions: real, missionFit: real)

  datatype ScoreResult = ScoreResult(
    finalScore: real,
    confidence: real,
    category: Category,
    componentScores: ComponentScores)

  /** The metadata dictionaries the calculator attaches to its audit entries. */
  datatype AuditMetadata =
    | SchoolRef(school: string)
    | AcademicParts(gpaScore: real, testScore: real, finalScore: real)
    | ContextParts(baseScore: real, adjustments: real)
    | NewWeights(newWeights: Weights)

  /** An audit entry (its timestamp is not modelled). */
  datatype AuditEntry = AuditEntry(action: string, metadata: AuditMetadata)

  /** A historical outcome record (its timestamp is not modelled). */
  datatype HistoricalRecord = HistoricalRecord(student: Student, outcome: bool)

  /** Per-school statistics the calculator is configured with: school id to a dictionary of floats. */
  type ProfileTable = map<string, map<string, real>>

  // ---------------------------------------------------------------------------
  // Helpers
  // ---------------------------------------------------------------------------

  /** Python's `min(a, b)`. */
  function Min(a: real, b: real): (m: real)
    ensures m <= a && m <= b
    ensures m == a || m == b
  {
    if b < a then b else a
  }

  /** `d.get(key, default)` on a dictionary of floats. */
  function Get(d: map<string, real>, key: string, default: real): real {
    if key in d then d[key] else default
  }

  /** `school_profiles.get(school_id, {})`. */
  function ProfileOf(profiles: ProfileTable, schoolId: string): map<string, real> {
    if schoolId in profiles then profiles[schoolId] else map[]
  }

  /** The profile is present and non-empty, so `not school_profile` is false. */
  predicate HasProfile(profiles: ProfileTable, schoolId: string) {
    ProfileOf(profiles, schoolId) != map[]
  }

  /** The standard deviation normalisation divides by is not zero. */
  predicate StdUsable(profiles: ProfileTable, schoolId: string) {
    !HasProfile(profiles, schoolId) || Get(ProfileOf(profiles, schoolId), "gpa_std", 0.5) != 0.0
  }

  /**
   * What the logistic function is known to do: map every real into [0, 1].
   * The real logistic stays inside (0, 1); its floating-point evaluation
   * reaches 0.0 and 1.0 for large arguments, so the bound is closed.
   */
  ghost predicate LogisticRange(sigmoid: real -> real) {
    forall z :: 0.0 <= sigmoid(z) <= 1.0
  }

  /** The logistic function is non-decreasing. */
  ghost predicate LogisticMonotone(sigmoid: real -> real) {
    forall x, y :: x <= y ==> sigmoid(x) <= sigmoid(y)
  }

  // ---------------------------------------------------------------------------
  // GPA normalisation and the academic score
  // ---------------------------------------------------------------------------

  /**
   * The value `normalize_gpa` returns. With a school profile it lies in
   * [0, 1] whenever the logistic function does; without one, a GPA in [0, 4]
   * gives a value in [0, 1].
   */
  function GpaScore(profiles: ProfileTable, sigmoid: real -> real, s: Student): (r: real)
    requires StdUsable(profiles, s.schoolId)
    ensures HasProfile(profiles, s.schoolId) && LogisticRange(sigmoid) ==> 0.0 <= r <= 1.0
    ensures !HasProfile(profiles, s.schoolId) && 0.0 <= s.gpa <= 4.0 ==> 0.0 <= r <= 1.0
  {
    var p := ProfileOf(profiles, s.schoolId);
    if p == map[] then s.gpa / 4.0
    else sigmoid((s.gpa - Get(p, "gpa_mean", 3.0)) / Get(p, "gpa_std", 0.5))
  }

  /** The audit entries `normalize_gpa` appends: one only when the profile is missing or empty. */
  function GpaTrail(profiles: ProfileTable, s: Student): (r: seq<AuditEntry>)
    ensures |r| <= 1
    ensures r == [] <==> HasProfile(profiles, s.schoolId)
    ensures forall i :: 0 <= i < |r| ==>
      r[i].action == "missing_school_profile" && r[i].metadata == SchoolRef(s.schoolId)
  {
    if HasProfile(profiles, s.schoolId) then []
    else [AuditEntry("missing_school_profile", SchoolRef(s.schoolId))]
  }

  /** With no usable profile the GPA is divided by 4.0; otherwise it goes through the z-score and the logistic function, with mean 3.0 and deviation 0.5 where the profile lacks them. */
  lemma GpaScoreCases(profiles: ProfileTable, sigmoid: real -> real, s: Student)
    requires StdUsable(profiles, s.schoolId)
    ensures !HasProfile(profiles, s.schoolId) ==> GpaScore(profiles, sigmoid, s) == s.gpa / 4.0
    ensures HasProfile(profiles, s.schoolId) ==>
      var p := ProfileOf(profiles, s.schoolId);
      GpaScore(profiles, sigmoid, s) ==
        sigmoid((s.gpa - (if "gpa_mean" in p then p["gpa_mean"] else 3.0))
                / (if "gpa_std" in p then p["gpa_std"] else 0.5))
  {
  }

  lemma QuotientMonotone(a: real, b: real, d: real)
    requires a <= b && d > 0.0
    ensures a / d <= b / d
  {
  }

  /**
   * A higher GPA at the same school never gives a lower normalised GPA, as
   * long as the logistic function is monotone and the school's deviation is
   * positive.
   */
  lemma GpaScoreMonotone(profiles: ProfileTable, sigmoid: real -> real, s1: Student, s2: Student)
    requires s1.schoolId == s2.schoolId && s1.gpa <= s2.gpa
    requires Get(ProfileOf(profiles, s1.schoolId), "gpa_std", 0.5) > 0.0
    requires LogisticMonotone(sigmoid)
    ensures GpaScore(profiles, sigmoid, s1) <= GpaScore(profiles, sigmoid, s2)
  {
    var p := ProfileOf(profiles, s1.schoolId);
    if p != map[] {
      var mean, std := Get(p, "gpa_mean", 3.0), Get(p, "gpa_std", 0.5);
      QuotientMonotone(s1.gpa - mean, s2.gpa - mean, std);
    }
  }

  /** `test_scores / 1600`. */
  function TestNorm(s: Student): real {
    s.testScores as real / 1600.0
  }

  /** The profile's competitiveness, 1.0 when the profile or the key is missing. */
  function Competitiveness(profiles: ProfileTable, schoolId: string): real {
    Get(ProfileOf(profiles, schoolId), "competitiveness", 1.0)
  }

  /** The academic score before the cap (the value the audit entry records as 'final_score'). */
  function RawAcademic(profiles: ProfileTable, sigmoid: real -> real, s: Student): real
    requires StdUsable(profiles, s.schoolId)
  {
    (GpaScore(profiles, sigmoid, s) * 0.6 + TestNorm(s) * 0.4) * Competitiveness(profiles, s.schoolId)
  }

  /** The value `calculate_academic_score` returns: never above 1.0, and the uncapped blend whenever that is at most 1.0. */
  function AcademicScore(profiles: ProfileTable, sigmoid: real -> real, s: Student): (r: real)
    requires StdUsable(profiles, s.schoolId)
    ensures r <= 1.0
    ensures var c := if s.schoolId in profiles && "competitiveness" in profiles[s.schoolId]
                     then profiles[s.schoolId]["competitiveness"] else 1.0;
            var blend := (GpaScore(profiles, sigmoid, s) * 0.6 + s.testScores as real / 1600.0 * 0.4) * c;
            (blend <= 1.0 ==> r == blend) && (blend > 1.0 ==> r == 1.0)
  {
    assert Competitiveness(profiles, s.schoolId)
           == if s.schoolId in profiles && "competitiveness" in profiles[s.schoolId]
              then profiles[s.schoolId]["competitiveness"] else 1.0;
    assert TestNorm(s) == s.testScores as real / 1600.0;
    Min(RawAcademic(profiles, sigmoid, s), 1.0)
  }

  /** The audit entries `calculate_academic_score` appends: those of the normalisation, then one with the three intermediate values. */
  function AcademicTrail(profiles: ProfileTable, sigmoid: real -> real, s: Student): (r: seq<AuditEntry>)
    requires StdUsable(profiles, s.schoolId)
    ensures |r| == |GpaTrail(profiles, s)| + 1 && r[..|r| - 1] == GpaTrail(profiles, s)
    ensures r[|r| - 1].action == "academic_score_calculated" && r[|r| - 1].metadata.AcademicParts?
    ensures r[|r| - 1].metadata.gpaScore == GpaScore(profiles, sigmoid, s)
    ensures r[|r| - 1].metadata.testScore == TestNorm(s)
    ensures r[|r| - 1].metadata.finalScore
            == (GpaScore(profiles, sigmoid, s) * 0.6 + TestNorm(s) * 0.4) * Competitiveness(profiles, s.schoolId)
    ensures Min(r[|r| - 1].metadata.finalScore, 1.0) == AcademicScore(profiles, sigmoid, s)
  {
    GpaTrail(profiles, s)
      + [AuditEntry("academic_score_calculated",
                    AcademicParts(GpaScore(profiles, sigmoid, s), TestNorm(s), RawAcademic(profiles, sigmoid, s)))]
  }

  // ---------------------------------------------------------------------------
  // Mission fit
  // ---------------------------------------------------------------------------

  /** `mission_alignment.get(metric, 0)`. */
  function AlignmentOf(alignment: map<string, real>, metric: string): real {
    if metric in alignment then alignment[metric] else 0.0
  }

  predicate NonNegativeWeights(metrics: seq<Metric>) {
    forall i :: 0 <= i < |metrics| ==> metrics[i].weight >= 0.0
  }

  predicate AlignmentInUnit(alignment: map<string, real>) {
    forall m :: m in alignment ==> 0.0 <= alignment[m] <= 1.0
  }

  /** `sum(mission_metrics.values())`: non-negative when every weight is. */
  function WeightSum(metrics: seq<Metric>): (r: real)
    ensures NonNegativeWeights(metrics) ==> r >= 0.0
  {
    if metrics == [] then 0.0
    else
      assert NonNegativeWeights(metrics) ==> NonNegativeWeights(metrics[1..]) by {
        if NonNegativeWeights(metrics) {
          NonNegativeWeightsTail(metrics);
        }
      }
      metrics[0].weight + WeightSum(metrics[1..])
  }

  lemma NonNegativeWeightsTail(metrics: seq<Metric>)
    requires metrics != [] && NonNegativeWeights(metrics)
    ensures NonNegativeWeights(metrics[1..])
  {
  }

  /**
   * The weighted sum of alignments, a missing alignment counting as 0: an
   * applicant aligned with none of the metrics sums to 0.
   */
  function WeightedFit(metrics: seq<Metric>, alignment: map<string, real>): real {
    if metrics == [] then 0.0
    else AlignmentOf(alignment, metrics[0].name) * metrics[0].weight + WeightedFit(metrics[1..], alignment)
  }

  /** An applicant aligned with none of the metrics has a weighted sum of 0. */
  lemma {:induction false} WeightedFitNoAlignment(metrics: seq<Metric>, alignment: map<string, real>)
    requires forall i :: 0 <= i < |metrics| ==> metrics[i].name !in alignment
    ensures WeightedFit(metrics, alignment) == 0.0
  {
    if metrics != [] {
      forall i | 0 <= i < |metrics[1..]| ensures metrics[1..][i].name !in alignment {
        assert metrics[1..][i] == metrics[i + 1];
      }
      WeightedFitNoAlignment(metrics[1..], alignment);
    }
  }

  /** With non-negative weights and alignments in [0, 1] the weighted sum lies between 0 and the weight sum. */
  lemma {:induction false} WeightedFitBetween(metrics: seq<Metric>, alignment: map<string, real>)
    requires NonNegativeWeights(metrics)
    requires AlignmentInUnit(alignment)
    ensures 0.0 <= WeightedFit(metrics, alignment) <= WeightSum(metrics)
  {
    if metrics != [] {
      var a, w := AlignmentOf(alignment, metrics[0].name), metrics[0].weight;
      NonNegativeWeightsTail(metrics);
      WeightedFitBetween(metrics[1..], alignment);
      ProductBounds(a, w);
      assert WeightedFit(metrics, alignment) == a * w + WeightedFit(metrics[1..], alignment);
      assert WeightSum(metrics) == w + WeightSum(metrics[1..]);
    }
  }

  lemma QuotientBounds(f: real, t: real)
    requires t > 0.0 && 0.0 <= f <= t
    ensures 0.0 <= f / t <= 1.0
  {
  }

  lemma QuotientExact(f: real, c: real, t: real)
    requires t != 0.0 && f == c * t
    ensures f / t == c
  {
  }

  /**
   * The value `calculate_mission_fit` returns; a zero weight sum is the
   * code's division error. It is a weighted average: in [0, 1] for
   * non-negative weights with a positive sum and alignments in [0, 1].
   */
  function MissionFit(metrics: seq<Metric>, alignment: map<string, real>): (r: real)
    requires WeightSum(metrics) != 0.0
    ensures (NonNegativeWeights(metrics) && WeightSum(metrics) > 0.0 && AlignmentInUnit(alignment)) ==> 0.0 <= r <= 1.0
  {
    var f, t := WeightedFit(metrics, alignment), WeightSum(metrics);
    assert NonNegativeWeights(metrics) && t > 0.0 && AlignmentInUnit(alignment) ==> 0.0 <= f / t <= 1.0 by {
      if NonNegativeWeights(metrics) && t > 0.0 && AlignmentInUnit(alignment) {
        WeightedFitBetween(metrics, alignment);
        QuotientBounds(f, t);
      }
    }
    f / t
  }

  /** A uniform alignment `c` with every metric makes the weighted sum `c` times the weight sum. */
  lemma {:induction false} WeightedFitUniform(metrics: seq<Metric>, alignment: map<string, real>, c: real)
    requires forall i :: 0 <= i < |metrics| ==> AlignmentOf(alignment, metrics[i].name) == c
    ensures WeightedFit(metrics, alignment) == c * WeightSum(metrics)
  {
    if metrics != [] {
      assert AlignmentOf(alignment, metrics[0].name) == c;
      forall i | 0 <= i < |metrics[1..]| ensures AlignmentOf(alignment, metrics[1..][i].name) == c {
        assert metrics[1..][i] == metrics[i + 1];
      }
      WeightedFitUniform(metrics[1..], alignment, c);
      Distribute(c, metrics[0].weight, WeightSum(metrics[1..]));
    }
  }

  lemma Distribute(c: real, x: real, y: real)
    ensures c * x + c * y == c * (x + y)
  {
  }

  /** An applicant aligned to degree `c` with every metric (missing ones count as 0) has mission fit exactly `c`. */
  lemma MissionFitUniform(metrics: seq<Metric>, alignment: map<string, real>, c: real)
    requires WeightSum(metrics) != 0.0
    requires forall i :: 0 <= i < |metrics| ==> AlignmentOf(alignment, metrics[i].name) == c
    ensures MissionFit(metrics, alignment) == c
  {
    WeightedFitUniform(metrics, alignment, c);
    MissionFitOfMultiple(metrics, alignment, c);
  }

  /** A weighted sum that is `c` times the weight sum gives mission fit `c`. */
  lemma MissionFitOfMultiple(metrics: seq<Metric>, alignment: map<string, real>, c: real)
    requires WeightSum(metrics) != 0.0
    requires WeightedFit(metrics, alignment) == c * WeightSum(metrics)
    ensures MissionFit(metrics, alignment) == c
  {
    var f, t := WeightedFit(metrics, alignment), WeightSum(metrics);
    assert MissionFit(metrics, alignment) == f / t;
    QuotientExact(f, c, t);
  }

  // ---------------------------------------------------------------------------
  // Context modifiers, intersectionality, confidence
  // ---------------------------------------------------------------------------

  /** The legal-compliance stub: every applicant passes. */
  function CheckLegalCompliance(s: Student): (compliant: bool)
    ensures compliant
  {
    true
  }

  /**
   * The adjustments `apply_context_modifiers` accumulates, the last gated by
   * the compliance check: never negative for non-negative adversity and
   * under-representation, and at most 0.18 when both lie in [0, 1].
   */
  function Adjustments(s: Student): (r: real)
    ensures s.adversityScore.GetOr(0.0) >= 0.0 && s.underrepresentedGroup.GetOr(0.0) >= 0.0 ==> r >= 0.0
    ensures (0.0 <= s.adversityScore.GetOr(0.0) <= 1.0 && 0.0 <= s.underrepresentedGroup.GetOr(0.0) <= 1.0) ==> r <= 0.18
  {
    (if s.lowIncome.GetOr(false) then 0.05 else 0.0)
    + s.adversityScore.GetOr(0.0) * 0.1
    + (if CheckLegalCompliance(s) then s.underrepresentedGroup.GetOr(0.0) * 0.03 else 0.0)
  }

  /** The value `apply_context_modifiers` returns: never above 1.0, and exactly base plus adjustments below the cap. */
  function ContextAdjusted(s: Student, base: real): (r: real)
    ensures r <= 1.0
    ensures base + Adjustments(s) <= 1.0 ==> r == base + Adjustments(s)
    ensures base + Adjustments(s) > 1.0 ==> r == 1.0
  {
    Min(base + Adjustments(s), 1.0)
  }

  /** Since compliance always holds, the adjustment is exactly 0.05 for low income plus 0.1 per unit of adversity plus 0.03 per unit of under-representation. */
  lemma AdjustmentsExact(s: Student)
    ensures Adjustments(s) ==
      (if s.lowIncome == Some(true) then 0.05 else 0.0)
      + 0.1 * (if s.adversityScore.Some? then s.adversityScore.value else 0.0)
      + 0.03 * (if s.underrepresentedGroup.Some? then s.underrepresentedGroup.value else 0.0)
  {
  }

  /** Context modifiers with non-negative inputs never lower a score that is already at most 1.0. */
  lemma ContextNeverLowers(s: Student, base: real)
    requires s.adversityScore.GetOr(0.0) >= 0.0
    requires s.underrepresentedGroup.GetOr(0.0) >= 0.0
    ensures ContextAdjusted(s, base) >= Min(base, 1.0)
  {
  }

  /** The intersectionality bonus: 0.05 exactly when adversity exceeds 0.7 and leadership exceeds 0.5, else 0. */
  function AnalyzeIntersectionality(s: Student): (bonus: real)
    ensures bonus == 0.05 <==> s.adversityScore.GetOr(0.0) > 0.7 && s.leadership.GetOr(0.0) > 0.5
    ensures bonus == 0.0 <==> !(s.adversityScore.GetOr(0.0) > 0.7 && s.leadership.GetOr(0.0) > 0.5)
  {
    var score := 0.0;
    if s.adversityScore.GetOr(0.0) > 0.7 && s.leadership.GetOr(0.0) > 0.5 then score + 0.05 else score
  }

  /** The confidence stub: a fixed 0.8, enough for the Safety confidence gate. */
  function CalculateConfidenceScore(s: Student): (confidence: real)
    ensures confidence == 0.8
  {
    0.8
  }

  // ---------------------------------------------------------------------------
  // Classification
  // ---------------------------------------------------------------------------

  /** The first-match decision list of `classify_application`. */
  function Classify(t: Thresholds, score: real, confidence: real): (c: Category)
    ensures c == Safety <==> score >= t.safety && confidence >= 0.7
    ensures c == Target <==> !(score >= t.safety && confidence >= 0.7)
                              && score >= t.target && confidence >= 0.5
    ensures c == Reach <==> !(score >= t.safety && confidence >= 0.7)
                             && !(score >= t.target && confidence >= 0.5)
                             && score >= t.reach
    ensures c == BelowThreshold <==> !(score >= t.safety && confidence >= 0.7)
                                      && !(score >= t.target && confidence >= 0.5)
                                      && score < t.reach
  {
    if score >= t.safety && confidence >= 0.7 then Safety
    else if score >= t.target && confidence >= 0.5 then Target
    else if score >= t.reach then Reach
    else BelowThreshold
  }

  /** The order of the categories, BelowThreshold lowest. */
  function Rank(c: Category): nat {
    match c
    case BelowThreshold => 0
    case Reach => 1
    case Target => 2
    case Safety => 3
  }

  /**
   * Raising the score or the confidence never yields a lower category. This
   * holds for any thresholds, ordered or not: each gate is monotone and the
   * list returns the highest-ranked gate that is open.
   */
  lemma ClassifyMonotone(t: Thresholds, score1: real, confidence1: real, score2: real, confidence2: real)
    requires score1 <= score2 && confidence1 <= confidence2
    ensures Rank(Classify(t, score1, confidence1)) <= Rank(Classify(t, score2, confidence2))
  {
  }

  /** With the stub's confidence the confidence gates are always open, so only the score decides. */
  lemma ClassifyWithStubConfidence(t: Thresholds, s: Student, score: real)
    ensures Classify(t, score, CalculateConfidenceScore(s)) ==
      if score >= t.safety then Safety
      else if score >= t.target then Target
      else if score >= t.reach then Reach
      else BelowThreshold
  {
  }

  // ---------------------------------------------------------------------------
  // The total score
  // ---------------------------------------------------------------------------

  /** The three component weights are non-negative. */
  predicate NonNegativeComponents(w: Weights) {
    w.academic >= 0.0 && w.contributions >= 0.0 && w.missionFit >= 0.0
  }

  lemma ProductBounds(x: real, k: real)
    requires 0.0 <= x <= 1.0 && k >= 0.0
    ensures 0.0 <= x * k <= k
  {
    assert k - x * k == (1.0 - x) * k;
  }

  /** Three fractions of three non-negative weights add up to at most the weights' sum. */
  lemma WeightedTripleBounds(x: real, y: real, z: real, wx: real, wy: real, wz: real)
    requires 0.0 <= x <= 1.0 && 0.0 <= y <= 1.0 && 0.0 <= z <= 1.0
    requires wx >= 0.0 && wy >= 0.0 && wz >= 0.0
    ensures 0.0 <= x * wx + y * wy + z * wz <= wx + wy + wz
  {
    ProductBounds(x, wx);
    ProductBounds(y, wy);
    ProductBounds(z, wz);
    var a, b, c := x * wx, y * wy, z * wz;
    assert 0.0 <= a <= wx && 0.0 <= b <= wy && 0.0 <= c <= wz;
  }

  /**
   * The weighted base composite of the three components: with non-negative
   * weights and components in [0, 1] it lies between 0 and the sum of the
   * weights.
   */
  function BaseComposite(w: Weights, academic: real, contributions: real, missionFit: real): (r: real)
    ensures (NonNegativeComponents(w) && 0.0 <= academic <= 1.0 && 0.0 <= contributions <= 1.0
             && 0.0 <= missionFit <= 1.0) ==> 0.0 <= r <= w.academic + w.contributions + w.missionFit
  {
    var r := academic * w.academic + contributions * w.contributions + missionFit * w.missionFit;
    assert (NonNegativeComponents(w) && 0.0 <= academic <= 1.0 && 0.0 <= contributions <= 1.0
            && 0.0 <= missionFit <= 1.0) ==> 0.0 <= r <= w.academic + w.contributions + w.missionFit by {
      if NonNegativeComponents(w) && 0.0 <= academic <= 1.0 && 0.0 <= contributions <= 1.0
         && 0.0 <= missionFit <= 1.0 {
        WeightedTripleBounds(academic, contributions, missionFit, w.academic, w.contributions, w.missionFit);
      }
    }
    r
  }

  /**
   * The base composite of an applicant: between 0 and the sum of the
   * component weights when the weights are non-negative, the contributions
   * total lies in [0, 1], the mission fit is a weighted average and the
   * academic score is not negative.
   */
  function BaseScore(w: Weights, metrics: seq<Metric>, profiles: ProfileTable, sigmoid: real -> real, s: Student): (r: real)
    requires StdUsable(profiles, s.schoolId) && WeightSum(metrics) != 0.0
    ensures (NonNegativeComponents(w) && 0.0 <= s.contributionsTotal <= 1.0
             && NonNegativeWeights(metrics) && WeightSum(metrics) > 0.0 && AlignmentInUnit(s.missionAlignment)
             && 0.0 <= AcademicScore(profiles, sigmoid, s)) ==> 0.0 <= r <= w.academic + w.contributions + w.missionFit
  {
    BaseComposite(w, AcademicScore(profiles, sigmoid, s), s.contributionsTotal, MissionFit(metrics, s.missionAlignment))
  }

  /**
   * The result `calculate_total_score` returns: the final score never exceeds
   * 1.0, the category is the decision list applied to it, and the components
   * are the capped academic score, the contributions total and the mission fit.
   */
  function TotalScore(w: Weights, metrics: seq<Metric>, profiles: ProfileTable, t: Thresholds,
                      sigmoid: real -> real, s: Student): (r: ScoreResult)
    requires StdUsable(profiles, s.schoolId) && WeightSum(metrics) != 0.0
    ensures r.finalScore <= 1.0
    ensures r.confidence == 0.8
    ensures r.category == Classify(t, r.finalScore, r.confidence)
    ensures r.componentScores.academic <= 1.0
    ensures r.componentScores == ComponentScores(AcademicScore(profiles, sigmoid, s), s.contributionsTotal,
                                                 MissionFit(metrics, s.missionAlignment))
    ensures r.finalScore
            == Min(BaseScore(w, metrics, profiles, sigmoid, s) + Adjustments(s) + AnalyzeIntersectionality(s), 1.0)
  {
    var academic := AcademicScore(profiles, sigmoid, s);
    var fit := MissionFit(metrics, s.missionAlignment);
    var base := BaseComposite(w, academic, s.contributionsTotal, fit);
    var adjusted := ContextAdjusted(s, base);
    var bonus := AnalyzeIntersectionality(s);
    var confidence := CalculateConfidenceScore(s);
    var finalScore := Min(adjusted + bonus, 1.0);
    ScoreResult(finalScore, confidence, Classify(t, finalScore, confidence),
                ComponentScores(academic, s.contributionsTotal, fit))
  }

  /** The audit entries one `calculate_total_score` appends: the academic ones, then the context adjustment. */
  function ScoringTrail(w: Weights, metrics: seq<Metric>, profiles: ProfileTable, sigmoid: real -> real, s: Student): (r: seq<AuditEntry>)
    requires StdUsable(profiles, s.schoolId) && WeightSum(metrics) != 0.0
    ensures |r| == |GpaTrail(profiles, s)| + 2
    ensures r[..|r| - 1] == AcademicTrail(profiles, sigmoid, s)
    ensures forall i :: 0 <= i < |r| - 2 ==> r[i].action == "missing_school_profile"
    ensures r[|r| - 2].action == "academic_score_calculated"
    ensures r[|r| - 1].action == "context_adjustments_applied" && r[|r| - 1].metadata.ContextParts?
    ensures r[|r| - 1].metadata.baseScore == BaseScore(w, metrics, profiles, sigmoid, s)
    ensures r[|r| - 1].metadata.adjustments == Adjustments(s)
  {
    AcademicTrail(profiles, sigmoid, s)
      + [AuditEntry("context_adjustments_applied",
                    ContextParts(BaseScore(w, metrics, profiles, sigmoid, s), Adjustments(s)))]
  }

  /**
   * The final score is the base composite plus the context adjustment and the
   * bonus, capped at 1.0 at each step; with non-negative adversity and
   * under-representation it is never below the base composite capped at 1.0.
   */
  lemma FinalScoreBounds(w: Weights, metrics: seq<Metric>, profiles: ProfileTable, t: Thresholds,
                         sigmoid: real -> real, s: Student)
    requires StdUsable(profiles, s.schoolId) && WeightSum(metrics) != 0.0
    requires s.adversityScore.GetOr(0.0) >= 0.0
    requires s.underrepresentedGroup.GetOr(0.0) >= 0.0
    ensures var base := BaseScore(w, metrics, profiles, sigmoid, s);
            var r := TotalScore(w, metrics, profiles, t, sigmoid, s);
            Min(base, 1.0) <= r.finalScore <= 1.0
  {
  }

  // ---------------------------------------------------------------------------
  // The scenario of the code's example usage
  // ---------------------------------------------------------------------------

  const ExampleWeights := Weights(0.4, 0.3, 0.3)
  const ExampleMetrics := [Metric("diversity", 0.4), Metric("community_impact", 0.6)]
  const ExampleProfiles: ProfileTable := map[
    "HS_123" := map["gpa_mean" := 3.8, "gpa_std" := 0.2, "competitiveness" := 1.2],
    "HS_456" := map["gpa_mean" := 3.4, "gpa_std" := 0.4, "competitiveness" := 0.9]]
  const ExampleStudent := Student(
    3.7, 1450, "HS_123", Some(true), Some(0.8), None, 0.85, Some(0.9),
    map["diversity" := 0.7, "community_impact" := 0.8])

  /**
   * The example applicant has mission fit 0.76 and, whatever value the
   * logistic function gives inside [0, 1], a final score of at least 0.837
   * and the category Safety.
   */
  lemma ExampleIsSafety(sigmoid: real -> real)
    requires LogisticRange(sigmoid)
    ensures StdUsable(ExampleProfiles, ExampleStudent.schoolId) && WeightSum(ExampleMetrics) == 1.0
    ensures MissionFit(ExampleMetrics, ExampleStudent.missionAlignment) == 0.76
    ensures var r := TotalScore(ExampleWeights, ExampleMetrics, ExampleProfiles, DefaultThresholds, sigmoid, ExampleStudent);
            r.finalScore >= 0.837 && r.category == Safety
  {
  }

  // ---------------------------------------------------------------------------
  // The calculator object
  // ---------------------------------------------------------------------------

  class AdmissionsCalculator {
    var weights: Weights
    const missionMetrics: seq<Metric>
    const schoolProfiles: ProfileTable
    const thresholds: Thresholds
    /** The logistic function `1 / (1 + exp(-z))`, kept abstract. */
    const sigmoid: real -> real
    var auditLog: seq<AuditEntry>
    var historicalData: seq<HistoricalRecord>

    constructor (institutionWeights: Weights, missionMetrics: seq<Metric>, schoolProfiles: ProfileTable,
                 sigmoid: real -> real)
      ensures weights == institutionWeights
      ensures this.missionMetrics == missionMetrics && this.schoolProfiles == schoolProfiles
      ensures this.sigmoid == sigmoid
      ensures thresholds == DefaultThresholds
      ensures auditLog == [] && historicalData == []
    {
      weights := institutionWeights;
      this.missionMetrics := missionMetrics;
      this.schoolProfiles := schoolProfiles;
      this.sigmoid := sigmoid;
      auditLog := [];
      historicalData := [];
      thresholds := DefaultThresholds;
    }

    /** Appends one entry at the end of the audit log; earlier entries stay as they were. */
    method LogAudit(action: string, metadata: AuditMetadata)
      modifies this`auditLog
      ensures auditLog == old(auditLog) + [AuditEntry(action, metadata)]
    {
      auditLog := auditLog + [AuditEntry(action, metadata)];
    }

    /** Normalises the applicant's GPA, logging a missing school profile. */
    method NormalizeGpa(student: Student) returns (gpaScore: real)
      requires StdUsable(schoolProfiles, student.schoolId)
      modifies this`auditLog
      ensures gpaScore == GpaScore(schoolProfiles, sigmoid, student)
      ensures auditLog == old(auditLog) + GpaTrail(schoolProfiles, student)
    {
      var schoolProfile := ProfileOf(schoolProfiles, student.schoolId);
      if schoolProfile == map[] {
        LogAudit("missing_school_profile", SchoolRef(student.schoolId));
        return student.gpa / 4.0;
      }
      var schoolMean := Get(schoolProfile, "gpa_mean", 3.0);
      var schoolStd := Get(schoolProfile, "gpa_std", 0.5);
      var zScore := (student.gpa - schoolMean) / schoolStd;
      return sigmoid(zScore);
    }

    /** Computes the capped academic score and logs its intermediate values. */
    method CalculateAcademicScore(student: Student) returns (academic: real)
      requires StdUsable(schoolProfiles, student.schoolId)
      modifies this`auditLog
      ensures academic == AcademicScore(schoolProfiles, sigmoid, student)
      ensures academic <= 1.0
      ensures auditLog == old(auditLog) + AcademicTrail(schoolProfiles, sigmoid, student)
    {
      ghost var before := auditLog;
      var gpaScore := NormalizeGpa(student);
      var testScore := student.testScores as real / 1600.0;
      var schoolCompetitiveness := Get(ProfileOf(schoolProfiles, student.schoolId), "competitiveness", 1.0);
      var academicScore := (gpaScore * 0.6 + testScore * 0.4) * schoolCompetitiveness;
      LogAudit("academic_score_calculated", AcademicParts(gpaScore, testScore, academicScore));
      academic := Min(academicScore, 1.0);
      assert testScore == TestNorm(student);
      assert academicScore == RawAcademic(schoolProfiles, sigmoid, student);
      assert auditLog == before + GpaTrail(schoolProfiles, student)
                         + [AuditEntry("academic_score_calculated", AcademicParts(gpaScore, testScore, academicScore))];
    }

    /** Adds the context adjustments to `baseScore`, logs them, and caps the sum at 1.0. */
    method ApplyContextModifiers(student: Student, baseScore: real) returns (adjusted: real)
      modifies this`auditLog
      ensures adjusted == ContextAdjusted(student, baseScore)
      ensures adjusted <= 1.0
      ensures auditLog == old(auditLog)
                          + [AuditEntry("context_adjustments_applied", ContextParts(baseScore, Adjustments(student)))]
    {
      var adjustments := 0.0;
      if student.lowIncome.GetOr(false) {
        adjustments := adjustments + 0.05;
      }
      adjustments := adjustments + student.adversityScore.GetOr(0.0) * 0.1;
      if CheckLegalCompliance(student) {
        adjustments := adjustments + student.underrepresentedGroup.GetOr(0.0) * 0.03;
      }
      LogAudit("context_adjustments_applied", ContextParts(baseScore, adjustments));
      adjusted := Min(baseScore + adjustments, 1.0);
    }

    /** Scores an applicant; the result never exceeds 1.0 and carries its category. */
    method CalculateTotalScore(student: Student) returns (result: ScoreResult)
      requires StdUsable(schoolProfiles, student.schoolId)
      requires WeightSum(missionMetrics) != 0.0
      modifies this`auditLog
      ensures result == TotalScore(weights, missionMetrics, schoolProfiles, thresholds, sigmoid, student)
      ensures result.finalScore <= 1.0
      ensures result.category == Classify(thresholds, result.finalScore, result.confidence)
      ensures auditLog == old(auditLog) + ScoringTrail(weights, missionMetrics, schoolProfiles, sigmoid, student)
    {
      ghost var before := auditLog;
      var academic := CalculateAcademicScore(student);
      ghost var afterAcademic := auditLog;
      var contributions := student.contributionsTotal;
      var missionFit := MissionFit(missionMetrics, student.missionAlignment);
      var baseScore := academic * weights.academic + contributions * weights.contributions
                       + missionFit * weights.missionFit;
      assert baseScore == BaseScore(weights, missionMetrics, schoolProfiles, sigmoid, student);
      var contextAdjusted := ApplyContextModifiers(student, baseScore);
      assert auditLog == afterAcademic
                         + [AuditEntry("context_adjustments_applied", ContextParts(baseScore, Adjustments(student)))];
      var intersectionBonus := AnalyzeIntersectionality(student);
      var confidence := CalculateConfidenceScore(student);
      var finalScore := Min(contextAdjusted + intersectionBonus, 1.0);
      result := ScoreResult(finalScore, confidence, Classify(thresholds, finalScore, confidence),
                            ComponentScores(academic, contributions, missionFit));
      assert auditLog == before + ScoringTrail(weights, missionMetrics, schoolProfiles, sigmoid, student);
    }

    /** Replaces the weights and logs one 'weights_updated' entry. */
    method UpdateWeights(newWeights: Weights)
      modifies this`weights, this`auditLog
      ensures weights == newWeights
      ensures auditLog == old(auditLog) + [AuditEntry("weights_updated", NewWeights(newWeights))]
    {
      weights := newWeights;
      LogAudit("weights_updated", NewWeights(newWeights));
    }

    /** Appends one outcome record at the end of the historical data. */
    method AddHistoricalData(studentData: Student, admissionOutcome: bool)
      modifies this`historicalData
      ensures historicalData == old(historicalData) + [HistoricalRecord(studentData, admissionOutcome)]
    {
      historicalData := historicalData + [HistoricalRecord(studentData, admissionOutcome)];
    }
  }
}
