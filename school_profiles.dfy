/**
 * School-profile resolution: a memoising lookup that, on a cache miss, takes
 * the first profile offered by three ranked sources (the national statistics
 * registry, the state education department, a scrape of the school's web
 * site), fills in estimated GPA statistics when the profile still has no GPA
 * mean, and caches the result under the school id.
 *
 * The sources are network calls or mock payloads; here each is an input: the
 * profile it would return, or `None` when it fails. The builders of the
 * records each source returns are modelled, so their shape is proved.
 */
module SchoolProfiles {
  import opened Wrappers

  /** The `data_source` strings the code sets: "nces", "cde", "web_scraping" and the default "unknown". */
  datatype DataSource = Nces | Cde | WebScraping | Unknown

  /** The `SchoolProfile` dataclass; `None` fields are `Option`s. */
  datatype SchoolProfile = SchoolProfile(
    id: string,
    name: string,
    gpaMean: Option<real>,
    gpaStd: Option<real>,
    competitiveness: Option<real>,
    apCourses: Option<int>,
    dataSource: DataSource)

  /** Both GPA statistics are populated. */
  predicate HasGpaStats(p: SchoolProfile) {
    p.gpaMean.Some? && p.gpaStd.Some?
  }

  /** What every source returns for `schoolId`: a profile with that id that sets both GPA statistics or neither. */
  predicate SourceShaped(p: SchoolProfile, schoolId: string) {
    p.id == schoolId && (p.gpaMean.Some? <==> p.gpaStd.Some?)
  }

  /** A source's outcome: no profile, or a well-shaped one. */
  predicate SourceOutcome(o: Option<SchoolProfile>, schoolId: string) {
    o.Some? ==> SourceShaped(o.value, schoolId)
  }

  // ---------------------------------------------------------------------------
  // Rounding and the eligibility calibration
  // ---------------------------------------------------------------------------

  /** `round(x, 1)`: the nearest multiple of 0.1, halves rounded up. */
  function RoundToTenth(x: real): (r: real)
    ensures x - 0.05 < r <= x + 0.05
    ensures (r * 10.0).Floor as real == r * 10.0
  {
    ((x * 10.0 + 0.5).Floor as real) / 10.0
  }

  /** `_uc_eligibility_to_gpa`: 3.0 + 0.7 * rate, rounded to one decimal. */
  function UcEligibilityToGpa(eligibilityRate: real): (gpa: real)
    ensures 3.0 + eligibilityRate * 0.7 - 0.05 < gpa <= 3.0 + eligibilityRate * 0.7 + 0.05
    ensures (gpa * 10.0).Floor as real == gpa * 10.0
  {
    RoundToTenth(3.0 + eligibilityRate * 0.7)
  }

  /** An eligibility rate in [0, 1] gives an estimated mean GPA in [3.0, 3.7]. */
  lemma UcEligibilityRange(eligibilityRate: real)
    requires 0.0 <= eligibilityRate <= 1.0
    ensures 3.0 <= UcEligibilityToGpa(eligibilityRate) <= 3.7
  {
  }

  /** The eligibility rate of the state registry's sample record, 0.72, calibrates to 3.5. */
  lemma UcEligibilitySample()
    ensures UcEligibilityToGpa(0.72) == 3.5
  {
  }

  // ---------------------------------------------------------------------------
  // The records the sources return
  // ---------------------------------------------------------------------------

  /** The record the national registry source builds. */
  function NcesRecord(schoolId: string, name: string, gpaMean: real, gpaStd: real, apCourses: int): (p: SchoolProfile)
    ensures SourceShaped(p, schoolId) && HasGpaStats(p)
    ensures p.dataSource == Nces && p.apCourses == Some(apCourses)
    ensures p.gpaMean == Some(gpaMean) && p.gpaStd == Some(gpaStd)
  {
    SchoolProfile(schoolId, name, Some(gpaMean), Some(gpaStd), None, Some(apCourses), Nces)
  }

  /** The record the state registry source builds: mean calibrated from the eligibility rate, deviation 0.25. */
  function CdeRecord(schoolId: string, name: string, eligibilityRate: real, apCount: int): (p: SchoolProfile)
    ensures SourceShaped(p, schoolId) && HasGpaStats(p)
    ensures p.dataSource == Cde && p.gpaStd == Some(0.25)
    ensures p.gpaMean == Some(UcEligibilityToGpa(eligibilityRate))
    ensures p.apCourses == Some(apCount)
  {
    SchoolProfile(schoolId, name, Some(UcEligibilityToGpa(eligibilityRate)), Some(0.25), None, Some(apCount), Cde)
  }

  /** The record a successful scrape builds: the scraped mean, deviation 0.3, no AP count. */
  function ScrapedRecord(schoolId: string, name: string, gpaMean: real): (p: SchoolProfile)
    ensures SourceShaped(p, schoolId) && HasGpaStats(p)
    ensures p.dataSource == WebScraping && p.apCourses.None?
    ensures p.gpaMean == Some(gpaMean) && p.gpaStd == Some(0.3)
  {
    SchoolProfile(schoolId, name, Some(gpaMean), Some(0.3), None, None, WebScraping)
  }

  /** The record a failed scrape returns. */
  function UnknownSchool(schoolId: string): (p: SchoolProfile)
    ensures SourceShaped(p, schoolId) && !HasGpaStats(p)
    ensures p.apCourses.None?
  {
    SchoolProfile(schoolId, "Unknown School", None, None, None, None, Unknown)
  }

  /** `_scrape_school_data`: the scraped record, or the unknown-school record when scraping fails. */
  function ScrapeSchoolData(schoolId: string, scraped: Option<SchoolProfile>): (p: SchoolProfile)
    requires SourceOutcome(scraped, schoolId)
    ensures SourceShaped(p, schoolId)
    ensures scraped.None? ==> p == UnknownSchool(schoolId)
    ensures scraped.Some? ==> p == scraped.value
  {
    scraped.GetOr(UnknownSchool(schoolId))
  }

  // ---------------------------------------------------------------------------
  // Resolution
  // ---------------------------------------------------------------------------

  /** Python's `a or b or ...` over optional profiles: the first one present. */
  function FirstSome<T>(options: seq<Option<T>>): (r: Option<T>)
    ensures r.None? <==> forall i :: 0 <= i < |options| ==> options[i].None?
    ensures r.Some? ==> exists i :: 0 <= i < |options| && options[i] == r
                                    && forall j :: 0 <= j < i ==> options[j].None?
  {
    if options == [] then None
    else if options[0].Some? then options[0]
    else
      var r := FirstSome(options[1..]);
      assert forall i :: 1 <= i < |options| ==> options[i] == options[1..][i - 1];
      r
  }

  /** The truthiness of `ap_courses`: present and non-zero. */
  predicate ApTruthy(apCourses: Option<int>) {
    apCourses.Some? && apCourses.value != 0
  }

  /**
   * `_estimate_gpa_stats`: with a truthy AP count the mean is 3.2 plus 0.02 per
   * course and the deviation 0.35; otherwise (no count, or zero) 3.0 and 0.4.
   * No other field changes.
   */
  function EstimateGpaStats(p: SchoolProfile): (r: SchoolProfile)
    ensures HasGpaStats(r)
    ensures r.id == p.id && r.name == p.name && r.competitiveness == p.competitiveness
    ensures r.apCourses == p.apCourses && r.dataSource == p.dataSource
    ensures ApTruthy(p.apCourses) ==>
      r.gpaMean == Some(3.2 + p.apCourses.value as real * 0.02) && r.gpaStd == Some(0.35)
    ensures !ApTruthy(p.apCourses) ==> r.gpaMean == Some(3.0) && r.gpaStd == Some(0.4)
  {
    if ApTruthy(p.apCourses) then
      p.(gpaMean := Some(3.2 + p.apCourses.value as real * 0.02), gpaStd := Some(0.35))
    else
      p.(gpaMean := Some(3.0), gpaStd := Some(0.4))
  }

  /**
   * The profile the source chain yields before estimation: the national
   * registry's when it answers, then the state registry's, then the scraped
   * one, then the unknown-school record.
   */
  function FirstAvailable(schoolId: string, nces: Option<SchoolProfile>, cde: Option<SchoolProfile>,
                          scraped: Option<SchoolProfile>): (p: SchoolProfile)
    requires SourceOutcome(scraped, schoolId)
    ensures nces.Some? ==> p == nces.value
    ensures nces.None? && cde.Some? ==> p == cde.value
    ensures nces.None? && cde.None? && scraped.Some? ==> p == scraped.value
    ensures nces.None? && cde.None? && scraped.None? ==> p == UnknownSchool(schoolId)
  {
    var options := [nces, cde, Some(ScrapeSchoolData(schoolId, scraped))];
    var chosen := FirstSome(options);
    assert chosen.Some? && (nces.Some? ==> chosen == nces) && (nces.None? && cde.Some? ==> chosen == cde)
           && (nces.None? && cde.None? ==> chosen == options[2]) by {
      assert options[0] == nces && options[1] == cde && options[2].Some?;
      var i :| 0 <= i < |options| && options[i] == chosen && forall j :: 0 <= j < i ==> options[j].None?;
      assert nces.Some? ==> i == 0;
      assert nces.None? && cde.Some? ==> i == 1;
      assert nces.None? && cde.None? ==> i == 2;
    }
    chosen.value
  }

  /** The profile a cache miss stores: the first available one, estimated when it has no GPA mean. */
  function ResolveMiss(schoolId: string, nces: Option<SchoolProfile>, cde: Option<SchoolProfile>,
                       scraped: Option<SchoolProfile>): (p: SchoolProfile)
    requires SourceOutcome(nces, schoolId) && SourceOutcome(cde, schoolId) && SourceOutcome(scraped, schoolId)
    ensures HasGpaStats(p) && p.id == schoolId
  {
    var found := FirstAvailable(schoolId, nces, cde, scraped);
    if found.gpaMean.None? then EstimateGpaStats(found) else found
  }

  /** A source that supplies GPA statistics is taken as it is; one that does not is completed by estimation. */
  lemma ResolveMissKeepsSourceData(schoolId: string, nces: Option<SchoolProfile>, cde: Option<SchoolProfile>,
                                   scraped: Option<SchoolProfile>)
    requires SourceOutcome(nces, schoolId) && SourceOutcome(cde, schoolId) && SourceOutcome(scraped, schoolId)
    ensures var found := FirstAvailable(schoolId, nces, cde, scraped);
            var p := ResolveMiss(schoolId, nces, cde, scraped);
            && (HasGpaStats(found) ==> p == found)
            && (!HasGpaStats(found) ==> p == EstimateGpaStats(found))
  {
  }

  /** When every source fails the profile is the unknown school with mean 3.0 and deviation 0.4. */
  lemma AllSourcesFail(schoolId: string)
    ensures ResolveMiss(schoolId, None, None, None)
            == SchoolProfile(schoolId, "Unknown School", Some(3.0), Some(0.4), None, None, Unknown)
  {
  }

  // ---------------------------------------------------------------------------
  // The builder and its cache
  // ---------------------------------------------------------------------------

  class SchoolProfileBuilder {
    var cache: map<string, SchoolProfile>

    /** Every cached profile is stored under its own id and has both GPA statistics. */
    ghost predicate Valid()
      reads this
    {
      forall k :: k in cache ==> cache[k].id == k && HasGpaStats(cache[k])
    }

    constructor ()
      ensures Valid() && cache == map[]
    {
      cache := map[];
    }

    /**
     * Returns the cached profile on a hit without consulting the sources;
     * on a miss resolves through the sources and caches the result. The
     * cache afterwards maps `schoolId` to the returned profile and every
     * other key as before.
     */
    method GetSchoolProfile(schoolId: string, nces: Option<SchoolProfile>, cde: Option<SchoolProfile>,
                            scraped: Option<SchoolProfile>) returns (profile: SchoolProfile)
      requires Valid()
      requires SourceOutcome(nces, schoolId) && SourceOutcome(cde, schoolId) && SourceOutcome(scraped, schoolId)
      modifies this`cache
      ensures Valid()
      ensures HasGpaStats(profile) && profile.id == schoolId
      ensures schoolId in old(cache) ==> profile == old(cache)[schoolId] && cache == old(cache)
      ensures schoolId !in old(cache) ==> profile == ResolveMiss(schoolId, nces, cde, scraped)
      ensures cache == old(cache)[schoolId := profile]
    {
      if schoolId in cache {
        return cache[schoolId];
      }
      profile := FirstAvailable(schoolId, nces, cde, scraped);
      if profile.gpaMean.None? {
        profile := EstimateGpaStats(profile);
      }
      cache := cache[schoolId := profile];
    }
  }

  /** Two lookups of one school give the same profile; the second one's sources play no part. */
  method ResolveTwice(b: SchoolProfileBuilder, schoolId: string,
                      nces1: Option<SchoolProfile>, cde1: Option<SchoolProfile>, scraped1: Option<SchoolProfile>,
                      nces2: Option<SchoolProfile>, cde2: Option<SchoolProfile>, scraped2: Option<SchoolProfile>)
    returns (first: SchoolProfile, second: SchoolProfile)
    requires b.Valid()
    requires SourceOutcome(nces1, schoolId) && SourceOutcome(cde1, schoolId) && SourceOutcome(scraped1, schoolId)
    requires SourceOutcome(nces2, schoolId) && SourceOutcome(cde2, schoolId) && SourceOutcome(scraped2, schoolId)
    modifies b
    ensures b.Valid()
    ensures first == second
    ensures b.cache == old(b.cache)[schoolId := first]
  {
    first := b.GetSchoolProfile(schoolId, nces1, cde1, scraped1);
    second := b.GetSchoolProfile(schoolId, nces2, cde2, scraped2);
  }
}
