/**
 * Scoring one evaluation scenario (evaluation/scorer.py): keyword overlap of
 * the root cause and of the remediation steps, calibration of the confidence
 * against the scenario's minimum, and the share of expected services the report
 * mentions, combined with fixed weights into a total that passes at 0.60.
 */
module Scorer {
  import opened Text
  import opened Models
  import LlmClient
  import Arith

  const PassThreshold: real := 0.60

  const WRootCause: real := 0.40
  const WRemediation: real := 0.30
  const WConfidence: real := 0.15
  const WServices: real := 0.15

  lemma WeightsSumToOne()
    ensures WRootCause + WRemediation + WConfidence + WServices == 1.0
  {
  }

  /** An evaluation scenario: the alert and what a good report on it mentions. */
  datatype EvalScenario = EvalScenario(
    name: string,
    alert: Alert,
    expectedRootCauseKeywords: seq<string>,
    expectedRemediationKeywords: seq<string>,
    expectedAffectedServices: seq<string>,
    minConfidence: real,
    mockResponses: seq<LlmClient.Response>)

  /** `min_confidence` defaults to 0.5. */
  const DefaultMinConfidence: real := 0.5

  datatype ScenarioScore = ScenarioScore(
    scenarioName: string,
    rootCauseMatch: real,
    remediationCoverage: real,
    confidenceCalibration: real,
    affectedServicesAccuracy: real,
    totalScore: real,
    passed: bool)

  // ---------------------------------------------------------------------------
  // Keyword overlap
  // ---------------------------------------------------------------------------

  /** `kw.lower() in lower` */
  predicate Found(lower: string, keyword: string) {
    Contains(lower, Lower(keyword))
  }

  /** `sum(1 for kw in keywords if kw.lower() in lower)` */
  function CountFound(lower: string, keywords: seq<string>): (n: nat)
    ensures n <= |keywords|
  {
    if keywords == [] then 0
    else (if Found(lower, keywords[0]) then 1 else 0) + CountFound(lower, keywords[1..])
  }

  /** Every keyword is found exactly when the count reaches the length; none when it is 0. */
  lemma {:induction false} CountFoundExtremes(lower: string, keywords: seq<string>)
    ensures CountFound(lower, keywords) == |keywords| <==> forall i :: 0 <= i < |keywords| ==> Found(lower, keywords[i])
    ensures CountFound(lower, keywords) == 0 <==> forall i :: 0 <= i < |keywords| ==> !Found(lower, keywords[i])
  {
    if keywords != [] {
      CountFoundExtremes(lower, keywords[1..]);
      assert forall i :: 0 < i < |keywords| ==> keywords[i] == keywords[1..][i - 1];
    }
  }

  /** `_keyword_overlap(text, keywords)`: the fraction of keywords found in `text`, ignoring case. */
  function KeywordOverlap(text: string, keywords: seq<string>): (r: real)
    ensures 0.0 <= r <= 1.0
    ensures keywords == [] ==> r == 1.0
    ensures keywords != [] ==> r * (|keywords| as real) == CountFound(Lower(text), keywords) as real
  {
    if keywords == [] then 1.0
    else
      Arith.Fraction(CountFound(Lower(text), keywords) as real, |keywords| as real);
      CountFound(Lower(text), keywords) as real / |keywords| as real
  }

  /** A non-empty keyword list scores 1 exactly when all its keywords occur, and 0 exactly when none does. */
  lemma OverlapExtremes(text: string, keywords: seq<string>)
    requires keywords != []
    ensures KeywordOverlap(text, keywords) == 1.0 <==> forall i :: 0 <= i < |keywords| ==> Found(Lower(text), keywords[i])
    ensures KeywordOverlap(text, keywords) == 0.0 <==> forall i :: 0 <= i < |keywords| ==> !Found(Lower(text), keywords[i])
  {
    CountFoundExtremes(Lower(text), keywords);
    var found := CountFound(Lower(text), keywords) as real;
    Arith.Fraction(found, |keywords| as real);
    assert KeywordOverlap(text, keywords) == found / |keywords| as real;
  }

  // ---------------------------------------------------------------------------
  // Confidence calibration
  // ---------------------------------------------------------------------------

  function Max(a: real, b: real): real {
    if a >= b then a else b
  }

  /**
   * Full marks at or above `min_confidence`, else `max(0, confidence / min_confidence)`.
   * The division is safe: a confidence in [0, 1] below the minimum makes the minimum positive.
   */
  function Calibration(confidence: Confidence, minConfidence: real): (r: real)
    ensures 0.0 <= r <= 1.0
    ensures confidence >= minConfidence ==> r == 1.0
    ensures confidence < minConfidence ==> r * minConfidence == confidence && r < 1.0
  {
    if confidence >= minConfidence then 1.0 else Max(0.0, confidence / minConfidence)
  }

  /** Half the minimum confidence gives half marks, whatever the (positive) minimum. */
  lemma HalfConfidenceHalfMarks(minConfidence: real)
    requires 0.0 < minConfidence <= 2.0
    ensures Calibration(minConfidence / 2.0, minConfidence) == 0.5
  {
    var half: Confidence := minConfidence / 2.0;
    assert half < minConfidence;
    assert (half / minConfidence) * minConfidence == half;
  }

  // ---------------------------------------------------------------------------
  // Affected services
  // ---------------------------------------------------------------------------

  /** `{s.lower() for s in scenario.expected_affected_services}` */
  function ExpectedServices(services: seq<string>): set<string> {
    set s | s in services :: Lower(s)
  }

  /** `(report.root_cause + " " + " ".join(report.remediation_steps)).lower()` */
  function AllText(report: IncidentReport): string {
    Lower(report.rootCause + " " + Join(" ", report.remediationSteps))
  }

  /** A service counts as found when the text mentions it or it is the alert's own service. */
  predicate ServiceHit(svc: string, allText: string, alertService: string) {
    Contains(allText, svc) || svc == Lower(alertService)
  }

  /** The expected services that count as found. */
  function ServicesFound(expected: set<string>, allText: string, alertService: string): (r: set<string>)
    ensures r <= expected
    ensures forall s :: s in r <==> s in expected && ServiceHit(s, allText, alertService)
  {
    set s | s in expected && ServiceHit(s, allText, alertService)
  }

  /** The loop of `score_scenario` that fills `found`, one expected service at a time. */
  method FoundServices(expected: set<string>, allText: string, alertService: string) returns (found: set<string>)
    ensures found == ServicesFound(expected, allText, alertService)
  {
    found := {};
    var remaining := expected;
    var alertLower := Lower(alertService);
    while remaining != {}
      invariant remaining <= expected
      invariant found == ServicesFound(expected - remaining, allText, alertService)
      decreases |remaining|
    {
      var svc :| svc in remaining;
      if Contains(allText, svc) || svc == alertLower {
        found := found + {svc};
      }
      remaining := remaining - {svc};
    }
  }

  lemma SubsetCardinality(a: set<string>, b: set<string>)
    requires a <= b
    ensures |a| <= |b|
  {
    assert b == a + (b - a);
  }

  /** `len(found) / len(expected) if expected else 1.0` */
  function ServicesAccuracy(expected: set<string>, allText: string, alertService: string): (r: real)
    ensures 0.0 <= r <= 1.0
    ensures expected == {} ==> r == 1.0
    ensures expected != {} ==> r * (|expected| as real) == |ServicesFound(expected, allText, alertService)| as real
    ensures r == 1.0 <==> forall s :: s in expected ==> ServiceHit(s, allText, alertService)
  {
    var found := ServicesFound(expected, allText, alertService);
    SubsetCardinality(found, expected);
    if expected == {} then 1.0
    else
      Arith.Fraction(|found| as real, |expected| as real);
      assert found == expected <==> |found| == |expected| by {
        if |found| == |expected| && found != expected {
          var x :| x in expected && x !in found;
          SubsetCardinality(found, expected - {x});
        }
      }
      |found| as real / |expected| as real
  }

  // ---------------------------------------------------------------------------
  // The score
  // ---------------------------------------------------------------------------

  /** The weighted total of the four components. */
  function Total(rootCause: real, remediation: real, calibration: real, services: real): (t: real)
    requires 0.0 <= rootCause <= 1.0 && 0.0 <= remediation <= 1.0
    requires 0.0 <= calibration <= 1.0 && 0.0 <= services <= 1.0
    ensures 0.0 <= t <= 1.0
    ensures t == 1.0 <==> rootCause == 1.0 && remediation == 1.0 && calibration == 1.0 && services == 1.0
  {
    WRootCause * rootCause + WRemediation * remediation + WConfidence * calibration + WServices * services
  }

  /** `score_scenario(scenario, report)`, with its components unrounded. */
  function Score(scenario: EvalScenario, report: IncidentReport): (r: ScenarioScore)
    ensures r.scenarioName == scenario.name
    ensures r.rootCauseMatch == KeywordOverlap(report.rootCause, scenario.expectedRootCauseKeywords)
    ensures r.remediationCoverage == KeywordOverlap(Join(" ", report.remediationSteps), scenario.expectedRemediationKeywords)
    ensures r.confidenceCalibration == Calibration(report.confidenceScore, scenario.minConfidence)
    ensures r.affectedServicesAccuracy
      == ServicesAccuracy(ExpectedServices(scenario.expectedAffectedServices), AllText(report), report.alert.service)
    ensures 0.0 <= r.totalScore <= 1.0
    ensures r.passed <==> r.totalScore >= PassThreshold
  {
    var rootCause := KeywordOverlap(report.rootCause, scenario.expectedRootCauseKeywords);
    var remediation := KeywordOverlap(Join(" ", report.remediationSteps), scenario.expectedRemediationKeywords);
    var calibration := Calibration(report.confidenceScore, scenario.minConfidence);
    var services := ServicesAccuracy(ExpectedServices(scenario.expectedAffectedServices), AllText(report),
                                     report.alert.service);
    var total := Total(rootCause, remediation, calibration, services);
    ScenarioScore(scenario.name, rootCause, remediation, calibration, services, total, total >= PassThreshold)
  }

  /** `score_scenario` as the source runs it, collecting `found` with a loop. */
  method ScoreScenario(scenario: EvalScenario, report: IncidentReport) returns (r: ScenarioScore)
    ensures r == Score(scenario, report)
  {
    var rootCause := KeywordOverlap(report.rootCause, scenario.expectedRootCauseKeywords);
    var remediationText := Join(" ", report.remediationSteps);
    var remediation := KeywordOverlap(remediationText, scenario.expectedRemediationKeywords);
    var calibration := Calibration(report.confidenceScore, scenario.minConfidence);
    var expected := ExpectedServices(scenario.expectedAffectedServices);
    var allText := AllText(report);
    var found := FoundServices(expected, allText, report.alert.service);
    var services := if expected != {} then |found| as real / |expected| as real else 1.0;
    assert services == ServicesAccuracy(expected, allText, report.alert.service);
    var total := Total(rootCause, remediation, calibration, services);
    r := ScenarioScore(scenario.name, rootCause, remediation, calibration, services, total, total >= PassThreshold);
  }

  /** A report that matches no keyword at all cannot pass: the other components weigh only 0.30. */
  lemma NoKeywordsFails(scenario: EvalScenario, report: IncidentReport)
    requires Score(scenario, report).rootCauseMatch == 0.0 && Score(scenario, report).remediationCoverage == 0.0
    ensures !Score(scenario, report).passed
  {
  }

  /** Every component at full marks gives a total of 1 and a pass. */
  lemma PerfectReportPasses(scenario: EvalScenario, report: IncidentReport)
    requires forall i :: 0 <= i < |scenario.expectedRootCauseKeywords| ==>
               Found(Lower(report.rootCause), scenario.expectedRootCauseKeywords[i])
    requires forall i :: 0 <= i < |scenario.expectedRemediationKeywords| ==>
               Found(Lower(Join(" ", report.remediationSteps)), scenario.expectedRemediationKeywords[i])
    requires report.confidenceScore >= scenario.minConfidence
    requires forall s :: s in ExpectedServices(scenario.expectedAffectedServices) ==>
               ServiceHit(s, AllText(report), report.alert.service)
    ensures Score(scenario, report).totalScore == 1.0 && Score(scenario, report).passed
  {
    if scenario.expectedRootCauseKeywords != [] {
      OverlapExtremes(report.rootCause, scenario.expectedRootCauseKeywords);
    }
    if scenario.expectedRemediationKeywords != [] {
      OverlapExtremes(Join(" ", report.remediationSteps), scenario.expectedRemediationKeywords);
    }
  }
}
