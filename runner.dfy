/**
 * The evaluation runner (evaluation/runner.py): each scenario is analysed and
 * scored, a failed analysis is scored on a fixed minimal report, and a run
 * reports its mean score, pass rate and cost over the scenarios.
 */
module Runner {
  import opened Wrappers
  import opened Models
  import opened Scorer
  import opened LlmClient
  import Arith

  /** The result of one scenario; `error` is `str(e)` of a failed analysis. */
  datatype ScenarioResult = ScenarioResult(
    scenario: EvalScenario,
    report: IncidentReport,
    score: ScenarioScore,
    error: Option<string>)

  // ---------------------------------------------------------------------------
  // Aggregates
  // ---------------------------------------------------------------------------

  /** How many results have no error. */
  function ErrorFreeCount(results: seq<ScenarioResult>): (n: nat)
    ensures n <= |results|
  {
    if results == [] then 0
    else (if results[0].error.None? then 1 else 0) + ErrorFreeCount(results[1..])
  }

  /** The sum of `total_score` over the results without error. */
  function ErrorFreeScoreSum(results: seq<ScenarioResult>): real {
    if results == [] then 0.0
    else (if results[0].error.None? then results[0].score.totalScore else 0.0) + ErrorFreeScoreSum(results[1..])
  }

  /** How many results passed and have no error. */
  function PassedCount(results: seq<ScenarioResult>): (n: nat)
    ensures n <= ErrorFreeCount(results)
  {
    if results == [] then 0
    else (if results[0].score.passed && results[0].error.None? then 1 else 0) + PassedCount(results[1..])
  }

  /** The sum of `total_cost_usd` over the results without error. */
  function ErrorFreeCost(results: seq<ScenarioResult>): real {
    if results == [] then 0.0
    else (if results[0].error.None? then results[0].report.totalCostUsd else 0.0) + ErrorFreeCost(results[1..])
  }

  /** Scores in [0, 1] sum to at most the number of results counted. */
  lemma {:induction false} ScoreSumBounded(results: seq<ScenarioResult>)
    requires forall i :: 0 <= i < |results| ==> 0.0 <= results[i].score.totalScore <= 1.0
    ensures 0.0 <= ErrorFreeScoreSum(results) <= ErrorFreeCount(results) as real
  {
    if results != [] {
      assert forall i :: 0 <= i < |results[1..]| ==> results[1..][i] == results[i + 1];
      ScoreSumBounded(results[1..]);
    }
  }

  /** The aggregates over a list of results concatenated from two parts add up. */
  lemma {:induction false} AggregatesAppend(a: seq<ScenarioResult>, b: seq<ScenarioResult>)
    ensures ErrorFreeCount(a + b) == ErrorFreeCount(a) + ErrorFreeCount(b)
    ensures ErrorFreeScoreSum(a + b) == ErrorFreeScoreSum(a) + ErrorFreeScoreSum(b)
    ensures PassedCount(a + b) == PassedCount(a) + PassedCount(b)
    ensures ErrorFreeCost(a + b) == ErrorFreeCost(a) + ErrorFreeCost(b)
  {
    if a == [] {
      assert a + b == b;
    } else {
      assert (a + b)[1..] == a[1..] + b;
      AggregatesAppend(a[1..], b);
    }
  }

  /** A run in some mode, with its results in scenario order. */
  datatype EvalRun = EvalRun(mode: string, results: seq<ScenarioResult>) {

    /** `mean_score`: the average total over the error-free results, 0 when there are none. */
    function MeanScore(): (m: real)
      ensures ErrorFreeCount(results) == 0 ==> m == 0.0
      ensures ErrorFreeCount(results) > 0 ==> m * (ErrorFreeCount(results) as real) == ErrorFreeScoreSum(results)
    {
      var n := ErrorFreeCount(results);
      if n == 0 then 0.0
      else
        assert (ErrorFreeScoreSum(results) / n as real) * (n as real) == ErrorFreeScoreSum(results);
        ErrorFreeScoreSum(results) / n as real
    }

    /** `pass_rate`: error-free passes over all results, 0 for an empty run; always in [0, 1]. */
    function PassRate(): (p: real)
      ensures 0.0 <= p <= 1.0
      ensures |results| == 0 ==> p == 0.0
      ensures |results| > 0 ==> p * (|results| as real) == PassedCount(results) as real
    {
      if |results| == 0 then 0.0
      else
        Arith.Fraction(PassedCount(results) as real, |results| as real);
        PassedCount(results) as real / |results| as real
    }

    /** `total_cost`: the report costs of the error-free results. */
    function TotalCost(): (c: real)
      ensures ErrorFreeCount(results) == 0 ==> c == 0.0
    {
      NoErrorFreeNoCost(results);
      ErrorFreeCost(results)
    }
  }

  /** Without error-free results there is no cost. */
  lemma {:induction false} NoErrorFreeNoCost(results: seq<ScenarioResult>)
    ensures ErrorFreeCount(results) == 0 ==> ErrorFreeCost(results) == 0.0
  {
    if results != [] {
      NoErrorFreeNoCost(results[1..]);
    }
  }

  /** Which results count as passed for the pass rate. */
  predicate CountsAsPassed(r: ScenarioResult) {
    r.score.passed && r.error.None?
  }

  /** The passed count reaches the length exactly when every result passed; it is 0 when none did. */
  lemma {:induction false} PassedCountExtremes(results: seq<ScenarioResult>)
    ensures PassedCount(results) == |results| <==> forall i :: 0 <= i < |results| ==> CountsAsPassed(results[i])
    ensures PassedCount(results) == 0 <==> forall i :: 0 <= i < |results| ==> !CountsAsPassed(results[i])
  {
    if results != [] {
      PassedCountExtremes(results[1..]);
      assert forall i :: 0 < i < |results| ==> results[i] == results[1..][i - 1];
      assert PassedCount(results[1..]) <= |results[1..]| by {
        assert PassedCount(results[1..]) <= ErrorFreeCount(results[1..]);
      }
    }
  }

  /** A non-empty run has pass rate 1 exactly when every scenario passed, and 0 exactly when none did. */
  lemma PassRateExtremes(run: EvalRun)
    requires run.results != []
    ensures run.PassRate() == 1.0 <==> forall i :: 0 <= i < |run.results| ==> CountsAsPassed(run.results[i])
    ensures run.PassRate() == 0.0 <==> forall i :: 0 <= i < |run.results| ==> !CountsAsPassed(run.results[i])
  {
    PassedCountExtremes(run.results);
    Arith.Fraction(PassedCount(run.results) as real, |run.results| as real);
  }

  /** With every total in [0, 1], so is the mean. */
  lemma MeanScoreBounded(run: EvalRun)
    requires forall i :: 0 <= i < |run.results| ==> 0.0 <= run.results[i].score.totalScore <= 1.0
    ensures 0.0 <= run.MeanScore() <= 1.0
  {
    ScoreSumBounded(run.results);
    if ErrorFreeCount(run.results) > 0 {
      Arith.Fraction(ErrorFreeScoreSum(run.results), ErrorFreeCount(run.results) as real);
    }
  }

  /**
   * A failed scenario appended to a run leaves the mean score and the cost as
   * they were and adds a non-passing result to the pass rate's denominator.
   */
  lemma FailedResultCountsOnlyInPassRate(run: EvalRun, failed: ScenarioResult)
    requires failed.error.Some?
    ensures EvalRun(run.mode, run.results + [failed]).MeanScore() == run.MeanScore()
    ensures EvalRun(run.mode, run.results + [failed]).TotalCost() == run.TotalCost()
    ensures PassedCount(run.results + [failed]) == PassedCount(run.results)
    ensures |run.results + [failed]| == |run.results| + 1
  {
    AggregatesAppend(run.results, [failed]);
    assert [failed][1..] == [];
  }

  // ---------------------------------------------------------------------------
  // Running scenarios
  // ---------------------------------------------------------------------------

  /** The client a scenario is analysed with: its scripted responses in mock mode, else the live one. */
  datatype ClientChoice = Scripted(responses: seq<Response>) | Live(kind: ClientKind)

  function ClientFor(scenario: EvalScenario, mode: string): (c: ClientChoice)
    ensures mode == "mock" ==> c == Scripted(scenario.mockResponses)
    ensures mode != "mock" ==> c == Live(AnthropicClient)
  {
    if mode == "mock" then Scripted(scenario.mockResponses)
    else
      var created := CreateClient(Some("anthropic"), None);
      assert created == Success(AnthropicClient);
      Live(created.value)
  }

  /** The minimal report a failed analysis is scored on. */
  function ErrorReport(alert: Alert): (r: IncidentReport)
    ensures r.incidentId == "EVAL-ERROR" && r.alert == alert
    ensures r.summary == "" && r.rootCause == ""
    ensures r.confidenceScore == 0.0 && r.remediationSteps == [] && r.agentTrace == []
    ensures r.totalTokens == 0 && r.totalCostUsd == 0.0 && r.durationSeconds == 0.0
    ensures r.requiresHumanApproval
  {
    IncidentReport("EVAL-ERROR", alert, "", "", 0.0, [], [], 0, 0.0, 0.0, true)
  }

  /** Building the minimal report passes the report's own validation: the fallback cannot fail. */
  lemma ErrorReportIsValid(alert: Alert)
    ensures NewIncidentReport("EVAL-ERROR", alert, "", "", 0.0, [], None, 0, 0.0, 0.0, true) == Success(ErrorReport(alert))
  {
  }

  /**
   * `run_scenario(scenario, mode)`: `analyze` stands for `IncidentAnalyzer.analyze`
   * with the chosen client, a `Failure` for the exception it raises.
   */
  function Outcome(scenario: EvalScenario, mode: string,
                   analyze: (ClientChoice, Alert) -> Result<IncidentReport>): (r: ScenarioResult)
    ensures r.scenario == scenario
    ensures r.error.None? <==> analyze(ClientFor(scenario, mode), scenario.alert).Success?
    ensures r.error.None? ==> r.report == analyze(ClientFor(scenario, mode), scenario.alert).value
    ensures r.error.Some? ==> r.error.value == analyze(ClientFor(scenario, mode), scenario.alert).error
                              && r.report == ErrorReport(scenario.alert)
    ensures r.score == Score(scenario, r.report)
  {
    match analyze(ClientFor(scenario, mode), scenario.alert)
    case Success(report) => ScenarioResult(scenario, report, Score(scenario, report), None)
    case Failure(e) =>
      var report := ErrorReport(scenario.alert);
      ScenarioResult(scenario, report, Score(scenario, report), Some(e))
  }

  /** `run_scenario` as the source runs it: analyse, fall back on failure, then score. */
  method RunScenario(scenario: EvalScenario, mode: string,
                     analyze: (ClientChoice, Alert) -> Result<IncidentReport>) returns (r: ScenarioResult)
    ensures r == Outcome(scenario, mode, analyze)
  {
    var client := ClientFor(scenario, mode);
    var error: Option<string> := None;
    var report: IncidentReport;
    var analysed := analyze(client, scenario.alert);
    if analysed.Success? {
      report := analysed.value;
    } else {
      error := Some(analysed.error);
      report := ErrorReport(scenario.alert);
    }
    var score := ScoreScenario(scenario, report);
    r := ScenarioResult(scenario, report, score, error);
  }

  /** `run_all(mode)` over the registered `scenarios`: one result per scenario, in order. */
  method RunAll(scenarios: seq<EvalScenario>, mode: string,
                analyze: (ClientChoice, Alert) -> Result<IncidentReport>) returns (run: EvalRun)
    ensures run.mode == mode && |run.results| == |scenarios|
    ensures forall i :: 0 <= i < |scenarios| ==> run.results[i] == Outcome(scenarios[i], mode, analyze)
  {
    var results: seq<ScenarioResult> := [];
    for k := 0 to |scenarios|
      invariant |results| == k
      invariant forall i :: 0 <= i < k ==> results[i] == Outcome(scenarios[i], mode, analyze)
    {
      var result := RunScenario(scenarios[k], mode, analyze);
      results := results + [result];
    }
    run := EvalRun(mode, results);
  }
}
