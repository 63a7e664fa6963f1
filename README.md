# CollegePredictor: admissions scoring and school-profile resolution in Dafny

This project models the two computational parts of CollegePredictor.

- **Admissions scoring** (`admissions.dfy`, module `Admissions`) models the `AdmissionsCalculator`. It computes the academic score: the GPA is normalised against the applicant's school, blended with the SAT score, scaled by the school's competitiveness and capped at 1.0. It then computes the mission fit as a weighted average of the applicant's alignment with the institution's mission metrics. It adds the context modifiers (low income, adversity, under-representation) under a cap, adds a two-threshold intersectionality bonus, and sorts the final score into Safety, Target, Reach or Below Threshold with a first-match decision list. The calculator is a class. It keeps an append-only audit log, a historical-data list and replaceable weights. The scoring methods are proved equal to specification functions. Every state-changing method states exactly what it appends to the log or the history.
- **School-profile resolution** (`school_profiles.dfy`, module `SchoolProfiles`) models the `SchoolProfileBuilder`. It is a memoising lookup over a cache map. A hit returns the cached profile. A miss takes the first profile offered by three ranked sources: the national statistics registry, the state education department, and a web scrape, which yields an "Unknown School" record when it fails. If that profile has no GPA mean, estimated statistics are filled in. The result is then cached. The class invariant `Valid()` says every cached profile is stored under its own id and has both GPA statistics.

`wrappers.dfy` holds the `Option` type: Python's `None` versus a value.

Floats are modelled as exact reals. The logistic function `1 / (1 + exp(-z))` is kept abstract. The calculator holds it as a `real -> real` value. Contracts that need its range take `LogisticRange(sigmoid)` as a hypothesis: every value lies in [0, 1]. The bound is closed because the floating-point logistic reaches exactly 0.0 and 1.0 for large arguments. The three profile sources are inputs: each is the profile the source would return, or `None` when it fails.

The model follows the code's own behaviour on these points:
- The applicant's test score is read from the key `test_scores`.
- `_estimate_gpa_stats` leaves `data_source` as it was. There is no "estimated" source tag.
- A zero `gpa_std` or a zero mission-weight sum is an uncaught division error in the code. Here it is a precondition (`StdUsable`, `WeightSum(...) != 0.0`), not a reported error value. So the model does not capture the partial audit trail a failing `calculate_total_score` leaves: the academic score's one or two entries are already logged when the mission fit divides by zero.
- Confidence is the literal 0.8, and legal compliance is the literal `True`.

Two of the model's results are worth noting. Classification is monotone in score and confidence for *any* thresholds, not only the default ordered ones (`ClassifyMonotone`). And with the stubbed confidence of 0.8, the confidence gates never bind (`ClassifyWithStubConfidence`).

## Model

| member | source | states |
|---|---|---|
| `Admissions.GpaScore` | CollegePredictor/AdmissionCalculator.py:33-43 | The normalised GPA lies in [0, 1] with a school profile, whenever the logistic does. Without one, a GPA in [0, 4] gives a value in [0, 1] |
| `Admissions.GpaScoreCases` | CollegePredictor/AdmissionCalculator.py:33-43 | With a missing or empty school profile, the normalised GPA is gpa / 4.0. Otherwise it is the logistic of (gpa − mean) / std, where a missing mean defaults to 3.0 and a missing std to 0.5 |
| `Admissions.GpaScoreMonotone` | CollegePredictor/AdmissionCalculator.py:33-43 | At the same school, a higher GPA never gives a lower normalised GPA. This holds when the logistic is monotone and the school's deviation is positive; without a profile it is division by 4.0 |
| `Admissions.GpaTrail` | CollegePredictor/AdmissionCalculator.py:36-37 | The normalisation logs at most one entry. It logs one exactly when the profile is missing or empty, with action 'missing_school_profile' and the school id |
| `Admissions.AcademicScore` | CollegePredictor/AdmissionCalculator.py:45-59 | The academic score never exceeds 1.0. When (gpa_norm·0.6 + test/1600·0.4)·competitiveness is at most 1.0, the score is exactly that value; otherwise it is 1.0. Competitiveness is 1.0 when the profile or the key is missing |
| `Admissions.AcademicTrail` | CollegePredictor/AdmissionCalculator.py:45-59 | The academic score logs the normalisation's entries, then one 'academic_score_calculated' entry. That entry holds the GPA score and test/1600. Its 'final_score' is exactly the uncapped (gpa_norm·0.6 + test/1600·0.4)·competitiveness, and capping it at 1.0 gives the returned score |
| `Admissions.WeightSum` | CollegePredictor/AdmissionCalculator.py:66 | The sum of the mission-metric weights is non-negative when every weight is |
| `Admissions.WeightedFitBetween` | CollegePredictor/AdmissionCalculator.py:62-65 | The weighted alignment sum `WeightedFit` lies between 0 and the weight sum, given non-negative weights and alignments in [0, 1]. Missing alignments count as 0 |
| `Admissions.WeightedFitNoAlignment` | CollegePredictor/AdmissionCalculator.py:62-65 | An applicant aligned with none of the metrics has a weighted alignment sum of 0, because `.get(metric, 0)` supplies 0 for every metric |
| `Admissions.MissionFit` | CollegePredictor/AdmissionCalculator.py:61-66 | Σ alignment·weight / Σ weight lies in [0, 1], given non-negative weights, a positive weight sum and alignments in [0, 1]. A zero weight sum is excluded, because the code divides by it |
| `Admissions.WeightedFitUniform` | CollegePredictor/AdmissionCalculator.py:62-65 | When the applicant is aligned to degree c with every metric, the weighted alignment sum is c times the weight sum |
| `Admissions.MissionFitUniform` | CollegePredictor/AdmissionCalculator.py:61-66 | Mission fit is a weighted average. An applicant aligned to degree c with every metric (missing alignments counting as 0) has fit exactly c |
| `Admissions.MissionFitOfMultiple` | CollegePredictor/AdmissionCalculator.py:66 | A weighted sum that is c times a non-zero weight sum normalises to exactly c |
| `Admissions.CheckLegalCompliance` | CollegePredictor/AdmissionCalculator.py:85-88 | The compliance check holds for every applicant |
| `Admissions.ContextAdjusted` | CollegePredictor/AdmissionCalculator.py:68-83 | The context-adjusted score never exceeds 1.0. It is exactly base + adjustments when that sum is at most 1.0, and 1.0 otherwise |
| `Admissions.AdjustmentsExact` | CollegePredictor/AdmissionCalculator.py:68-88 | The adjustment is exactly 0.05 for low income + 0.1·adversity + 0.03·under-representation, with missing keys counting as 0 or false. The compliance gate is always open |
| `Admissions.Adjustments` | CollegePredictor/AdmissionCalculator.py:69-77 | The accumulated adjustment is non-negative for non-negative adversity and under-representation. It is at most 0.18 when both lie in [0, 1] |
| `Admissions.ContextNeverLowers` | CollegePredictor/AdmissionCalculator.py:68-83 | With non-negative adversity and under-representation, the context-adjusted score is at least min(base, 1.0) |
| `Admissions.AnalyzeIntersectionality` | CollegePredictor/AdmissionCalculator.py:95-102 | The bonus is 0.05 exactly when adversity > 0.7 and leadership > 0.5, and 0 exactly when not. Missing keys count as 0 |
| `Admissions.CalculateConfidenceScore` | CollegePredictor/AdmissionCalculator.py:90-93 | The confidence stub is a fixed 0.8 for every applicant |
| `Admissions.Classify` | CollegePredictor/AdmissionCalculator.py:132-139 | Safety iff score ≥ Safety threshold and confidence ≥ 0.7. Else Target iff score ≥ Target threshold and confidence ≥ 0.5. Else Reach iff score ≥ Reach threshold. Else Below Threshold |
| `Admissions.ClassifyMonotone` | CollegePredictor/AdmissionCalculator.py:132-139 | Raising the score or the confidence never yields a lower category, for any thresholds (the default 0.7/0.5/0.3 included) |
| `Admissions.ClassifyWithStubConfidence` | CollegePredictor/AdmissionCalculator.py:132-139 | With the stub confidence, the category depends on the score alone, through the three thresholds in order |
| `Admissions.TotalScore` | CollegePredictor/AdmissionCalculator.py:104-130 | The final score never exceeds 1.0, even after the bonus. The confidence is 0.8. The category is the decision list applied to the final score. The components are exactly the capped academic score (at most 1.0), the applicant's contributions total and the mission fit. The final score is exactly min(base composite + adjustments + bonus, 1.0): the two caps collapse into one because the bonus is never negative |
| `Admissions.BaseComposite` | CollegePredictor/AdmissionCalculator.py:109-113 | With non-negative component weights and components in [0, 1], the base composite lies between 0 and the sum of the three weights |
| `Admissions.BaseScore` | CollegePredictor/AdmissionCalculator.py:105-113 | An applicant's base composite lies between 0 and the sum of the component weights. This needs non-negative weights, a contributions total in [0, 1], a mission fit that is a weighted average, and a non-negative academic score |
| `Admissions.ScoringTrail` | CollegePredictor/AdmissionCalculator.py:104-115 | One total-score computation logs the academic entries and then one 'context_adjustments_applied' entry carrying the base composite and the adjustment, so 2 or 3 entries in all. Any entries before the last two are 'missing_school_profile' |
| `Admissions.FinalScoreBounds` | CollegePredictor/AdmissionCalculator.py:104-119 | With non-negative adversity and under-representation, the final score lies between min(base composite, 1.0) and 1.0 |
| `Admissions.ExampleIsSafety` | CollegePredictor/AdmissionCalculator.py:155-196 | For the example configuration and applicant, the mission fit is 0.76. Whatever the logistic gives inside [0, 1], the final score is at least 0.837 and the category is Safety |
| `Admissions.AdmissionsCalculator.constructor` | CollegePredictor/AdmissionCalculator.py:7-15 | A new calculator has the given weights, metrics and profiles, the thresholds 0.7/0.5/0.3, and an empty audit log and historical-data list |
| `Admissions.AdmissionsCalculator.LogAudit` | CollegePredictor/AdmissionCalculator.py:25-31 | Appends exactly one entry at the end of the audit log and changes nothing else |
| `Admissions.AdmissionsCalculator.NormalizeGpa` | CollegePredictor/AdmissionCalculator.py:33-43 | Returns the normalised GPA. Appends a 'missing_school_profile' entry exactly when the profile is missing or empty |
| `Admissions.AdmissionsCalculator.CalculateAcademicScore` | CollegePredictor/AdmissionCalculator.py:45-59 | Returns the capped academic score. Appends the normalisation's entries, then one 'academic_score_calculated' entry holding the GPA score, the test score and the uncapped score |
| `Admissions.AdmissionsCalculator.ApplyContextModifiers` | CollegePredictor/AdmissionCalculator.py:68-83 | Returns min(base + adjustments, 1.0), built by accumulating the adjustments step by step. Appends one 'context_adjustments_applied' entry with the base and the adjustments |
| `Admissions.AdmissionsCalculator.CalculateTotalScore` | CollegePredictor/AdmissionCalculator.py:104-130 | Returns the total-score result, with the final score at most 1.0 and its category. Appends exactly the scoring trail: the academic entries, then the context entry |
| `Admissions.AdmissionsCalculator.UpdateWeights` | CollegePredictor/AdmissionCalculator.py:141-143 | Replaces the weights and appends one 'weights_updated' entry carrying them |
| `Admissions.AdmissionsCalculator.AddHistoricalData` | CollegePredictor/AdmissionCalculator.py:145-150 | Appends exactly one record (applicant, outcome) at the end of the historical data and changes nothing else |
| `SchoolProfiles.RoundToTenth` | CollegePredictor/School_profiles.py:110 | The result is a multiple of 0.1 within 0.05 of its argument |
| `SchoolProfiles.UcEligibilityToGpa` | CollegePredictor/School_profiles.py:107-110 | The result is a multiple of 0.1 within 0.05 of 3.0 + 0.7·rate |
| `SchoolProfiles.UcEligibilityRange` | CollegePredictor/School_profiles.py:107-110 | An eligibility rate in [0, 1] gives an estimated mean GPA in [3.0, 3.7] |
| `SchoolProfiles.UcEligibilitySample` | CollegePredictor/School_profiles.py:66-74 | The state registry's rate 0.72 calibrates to a mean of 3.5 |
| `SchoolProfiles.NcesRecord` | CollegePredictor/School_profiles.py:48-55 | The national registry's record has the school's id, the registry's GPA mean and deviation as given, its AP count and source "nces" |
| `SchoolProfiles.CdeRecord` | CollegePredictor/School_profiles.py:71-78 | The state registry's record has the school's id, the calibrated mean, std 0.25, the registry's AP count and source "cde" |
| `SchoolProfiles.ScrapedRecord` | CollegePredictor/School_profiles.py:96-102 | The scraped record has the school's id, the scraped mean, std 0.3, no AP count, and source "web_scraping" |
| `SchoolProfiles.UnknownSchool` | CollegePredictor/School_profiles.py:105 | The scrape-failure record has the school's id, no GPA statistics and no AP count |
| `SchoolProfiles.ScrapeSchoolData` | CollegePredictor/School_profiles.py:83-105 | The scraper always yields a profile. A successful scrape yields its own profile, and a failed one the unknown-school record |
| `SchoolProfiles.FirstSome` | CollegePredictor/School_profiles.py:26-28 | The `or` chain gives None iff every option is None. Otherwise it gives an option that is present and preceded only by None |
| `SchoolProfiles.FirstAvailable` | CollegePredictor/School_profiles.py:26-28 | The profile is the national registry's if present, else the state registry's, else the scraped one, else the unknown-school record |
| `SchoolProfiles.EstimateGpaStats` | CollegePredictor/School_profiles.py:112-120 | With a truthy AP count (present and non-zero), mean 3.2 + 0.02·count and std 0.35. Otherwise mean 3.0 and std 0.4. id, name, competitiveness, AP count and source are unchanged |
| `SchoolProfiles.ResolveMiss` | CollegePredictor/School_profiles.py:25-32 | A resolved profile always has both GPA statistics and the requested id |
| `SchoolProfiles.ResolveMissKeepsSourceData` | CollegePredictor/School_profiles.py:30-32 | A source profile with GPA statistics is kept as it is. One without them is completed by estimation |
| `SchoolProfiles.AllSourcesFail` | CollegePredictor/School_profiles.py:26-32 | When every source fails, the profile is (id, "Unknown School", mean 3.0, std 0.4, source "unknown") |
| `SchoolProfiles.SchoolProfileBuilder.constructor` | CollegePredictor/School_profiles.py:17-18 | A new builder has an empty cache, which satisfies the invariant |
| `SchoolProfiles.SchoolProfileBuilder.GetSchoolProfile` | CollegePredictor/School_profiles.py:20-35 | On a hit, returns the cached profile and leaves the cache unchanged. On a miss, returns the resolved profile. Afterwards the cache maps the id to the returned profile and every other key as before. The invariant is kept |
| `SchoolProfiles.ResolveTwice` | CollegePredictor/School_profiles.py:20-35 | Two lookups of one school return the same profile. The second lookup's sources play no part |

## Left out

- Timestamps (`datetime.now()`) in audit and historical entries are not modelled. Entries carry only the action and metadata, or the applicant and outcome.
- The logistic function's value is not modelled, because it is transcendental floating point. The function is kept abstract. Only its closed range [0, 1] and, in `GpaScoreMonotone`, its monotonicity are used, as hypotheses.
- IEEE float rounding is not modelled; all arithmetic is exact over reals.
- `SchoolProfiles.RoundToTenth`: rounds halves up, whereas Python's `round(x, 1)` rounds the binary float half-to-even. The two agree except on exact ties.
- Network access, HTML parsing and float parsing in `_scrape_school_data` are not modelled. The scrape is an input: the profile it would produce, or `None` for failure.
- The hard-coded mock payloads of `_get_nces_data` and `_get_cde_data` are not modelled. Their sources are inputs. The record builders (`NcesRecord`, `CdeRecord`) take the payload values as parameters.
- The `print` error reports and the `__main__` demos are not modelled. The demo's data appears only in `ExampleIsSafety`.
- The exception handling inside the sources is not modelled; a failing source is simply `None`.
- KeyError on the keys the code indexes directly (`gpa`, `test_scores`, `school_id`, `total`, the three weight keys) cannot arise, because these are plain record fields. Python duck typing of dictionary values is not modelled either.
- `log_audit` accepts arbitrary metadata dictionaries. Here metadata ranges over the four shapes the calculator itself logs.
- `add_historical_data` takes an arbitrary dictionary; here it takes an applicant record.
- `SchoolProfile` is a value. `_estimate_gpa_stats` updates the object in place; here it returns the updated record. The object it updates is always one a source has just built, so the difference is not observable within the builder. The aliasing between the returned profile and its cache entry is not captured: in Python, a caller that mutates the returned object also changes the cache.
- `SchoolProfiles.SchoolProfileBuilder.GetSchoolProfile`: requires every source outcome to have the requested id and to set both GPA statistics or neither. Each source in the code does so (`NcesRecord`, `CdeRecord`, `ScrapedRecord`, `UnknownSchool`). The requirement is stated even for calls that hit the cache.
- The calculator keeps references to the caller's dictionaries: the weights, the mission metrics and the school profiles (lines 8-10 and 142 of CollegePredictor/AdmissionCalculator.py), the logged `new_weights` metadata (line 143), and the historical `student` entries (line 147). In Python, a later in-place change by the caller alters subsequent scores and rewrites entries already logged. Here these are values, so `missionMetrics` and `schoolProfiles` are constants and earlier log and history entries never change. This aliasing is not captured.
- Concurrency is not modelled. The code is single-threaded.
