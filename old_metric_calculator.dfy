/**
 * The earlier metric calculator service. Besides the recalls (top 1, 3 and
 * 10) and the triage match it reports whether there was an AI result and the
 * hard and soft triage similarity; any falsy AI result (None, an empty
 * object, an empty list, ...) scores zero on all seven metrics.
 */
module OldMetricCalculator {
  import opened Wrappers
  import opened Dicts
  import opened JsonValues
  import opened MetricCalculator
  import Metrics

  /** `SUPPORTED_METRICS`: metric name and human name, in declaration order. */
  const OLD_SUPPORTED_METRICS: Dict<string, string> := [
    ("proportion_cases_with_ai_result", "Proportion of cases with AI result"),
    ("correct_conditions_top_1", "Correct conditions (top 1)"),
    ("correct_conditions_top_3", "Correct conditions (top 3)"),
    ("correct_conditions_top_10", "Correct conditions (top 10)"),
    ("triage_match", "Triage match"),
    ("triage_similarity", "Triage similarity"),
    ("triage_similarity_soft", "Soft triage similarity")
  ]

  /** The metric record of one element; `AsDict` gives it the service's key names and order. */
  datatype OldScores = OldScores(
    proportion: real, top1: real, top3: real, top10: real,
    triageMatch: real, similarity: real, softSimilarity: real)

  function AsDict(m: OldScores): (r: Dict<string, real>)
    ensures Keys(r) == Keys(OLD_SUPPORTED_METRICS)
  {
    [("proportion_cases_with_ai_result", m.proportion), ("correct_conditions_top_1", m.top1),
     ("correct_conditions_top_3", m.top3), ("correct_conditions_top_10", m.top10),
     ("triage_match", m.triageMatch), ("triage_similarity", m.similarity),
     ("triage_similarity_soft", m.softSimilarity)]
  }

  const NO_RESULT := OldScores(0.0, 0.0, 0.0, 0.0, 0.0, 0.0, 0.0)

  /**
   * The scores of a truthy AI result, computed in the source's order: the
   * three recalls, the triage match, then hard and soft similarity, whose
   * assertion on the expected triage can raise.
   */
  function ResultScores(valuesToPredict: Json, aiResult: Json): (r: Result<OldScores>)
    ensures r.Ok? ==> Index(aiResult, "conditions").Ok? && Index(valuesToPredict, "condition").Ok?
    ensures r.Ok? ==> var conditions := Index(aiResult, "conditions").value;
                      var condition := Index(valuesToPredict, "condition").value;
                      && Ok(r.value.top1) == CalculateRecall(conditions, condition, Some(1))
                      && Ok(r.value.top3) == CalculateRecall(conditions, condition, Some(3))
                      && Ok(r.value.top10) == CalculateRecall(conditions, condition, Some(10))
    ensures r.Ok? ==> Index(valuesToPredict, "expectedTriageLevel").Ok? && Index(aiResult, "triage").Ok?
    ensures r.Ok? ==> var expected := Index(valuesToPredict, "expectedTriageLevel").value;
                      var triage := Index(aiResult, "triage").value;
                      && r.value.proportion == 1.0
                      && r.value.triageMatch == Indicator(expected == triage)
                      && Ok(r.value.similarity) == Metrics.TriageSimilarityScore(expected, triage, false)
                      && Ok(r.value.softSimilarity) == Metrics.TriageSimilarityScore(expected, triage, true)
  {
    var conditions :- Index(aiResult, "conditions");
    var condition :- Index(valuesToPredict, "condition");
    var top1 :- CalculateRecall(conditions, condition, Some(1));
    var top3 :- CalculateRecall(conditions, condition, Some(3));
    var top10 :- CalculateRecall(conditions, condition, Some(10));
    var expected :- Index(valuesToPredict, "expectedTriageLevel");
    var triage :- Index(aiResult, "triage");
    var similarity :- Metrics.TriageSimilarityScore(expected, triage, false);
    // the soft call asserts what the hard one already has
    var softSimilarity := Metrics.TriageSimilarityScore(expected, triage, true).value;
    Ok(OldScores(1.0, top1, top3, top10, Indicator(expected == triage), similarity, softSimilarity))
  }

  /** The metric record of one request element: `aiResult or None` sends every falsy result to zeros. */
  function ElementMetrics(element: Json): (r: Result<OldScores>)
    ensures Index(element, "valuesToPredict").Ok? && Index(element, "aiResult").Ok? && !Truthy(Index(element, "aiResult").value)
            ==> r == Ok(NO_RESULT)
    ensures Index(element, "valuesToPredict").Ok? && Index(element, "aiResult").Ok? && Truthy(Index(element, "aiResult").value)
            ==> r == ResultScores(Index(element, "valuesToPredict").value, Index(element, "aiResult").value)
    ensures Index(element, "valuesToPredict").Err? ==> r == Err(Index(element, "valuesToPredict").error)
  {
    var valuesToPredict :- Index(element, "valuesToPredict");
    var aiResult :- Index(element, "aiResult");
    if !Truthy(aiResult) then Ok(NO_RESULT)
    else ResultScores(valuesToPredict, aiResult)
  }

  /**
   * Every metric lies in [0, 1]; the indicator metrics are 0 or 1; the soft
   * similarity is never below the hard one; and the hard similarity is 1
   * exactly when the triage matches.
   */
  lemma ScoresInRange(valuesToPredict: Json, aiResult: Json)
    requires ResultScores(valuesToPredict, aiResult).Ok?
    ensures var m := ResultScores(valuesToPredict, aiResult).value;
      && m.proportion == 1.0
      && (m.top1 == 0.0 || m.top1 == 1.0) && (m.top3 == 0.0 || m.top3 == 1.0) && (m.top10 == 0.0 || m.top10 == 1.0)
      && (m.triageMatch == 0.0 || m.triageMatch == 1.0)
      && 0.0 <= m.similarity <= m.softSimilarity <= 1.0
      && (m.similarity == 1.0 <==> m.triageMatch == 1.0)
  {
    var m := ResultScores(valuesToPredict, aiResult).value;
    var expected := Index(valuesToPredict, "expectedTriageLevel").value;
    var triage := Index(aiResult, "triage").value;
    assert Metrics.IsExpectedTriage(expected);
    if Metrics.IsExpectedTriage(triage) {
      Metrics.TriageSimilarityTable(expected.s, triage.s, false);
      Metrics.TriageSimilarityTable(expected.s, triage.s, true);
    }
  }

  /** An expected triage outside SC, PC and EC fails the assertion for a truthy result. */
  lemma BadExpectedTriageRaises(valuesToPredict: Json, aiResult: Json)
    requires Index(aiResult, "conditions").Ok? && Index(valuesToPredict, "condition").Ok?
    requires var conditions := Index(aiResult, "conditions").value;
             var condition := Index(valuesToPredict, "condition").value;
             && CalculateRecall(conditions, condition, Some(1)).Ok?
             && CalculateRecall(conditions, condition, Some(3)).Ok?
             && CalculateRecall(conditions, condition, Some(10)).Ok?
    requires Index(aiResult, "triage").Ok?
    requires Index(valuesToPredict, "expectedTriageLevel").Ok?
    requires !Metrics.IsExpectedTriage(Index(valuesToPredict, "expectedTriageLevel").value)
    ensures ResultScores(valuesToPredict, aiResult) == Err(AssertionError)
  {
  }

  /** `calculate_metrics`. */
  method CalculateMetrics(request: seq<Json>) returns (r: Result<seq<OldScores>>)
    ensures r == MapResults(ElementMetrics, request)
  {
    var metricResults: seq<OldScores> := [];
    for i := 0 to |request|
      invariant MapResults(ElementMetrics, request[..i]) == Ok(metricResults)
    {
      MapStep(ElementMetrics, request, i);
      var record := ElementMetrics(request[i]);
      if record.Err? {
        MapFails(ElementMetrics, request, i + 1);
        return Err(record.error);
      }
      metricResults := metricResults + [record.value];
    }
    assert request[..|request|] == request;
    return Ok(metricResults);
  }

  /** The keys of every record are the metrics that `list_all_metrics` lists, in the same order. */
  lemma RecordsMatchListing(m: OldScores)
    ensures var listed := Get(ListAllMetrics(OLD_SUPPORTED_METRICS).fields, "metrics").value.items;
      && |AsDict(m)| == |listed|
      && forall k :: 0 <= k < |listed| ==> Index(listed[k], "name") == Ok(JStr(AsDict(m)[k].0))
  {
    KeysListed(OLD_SUPPORTED_METRICS, AsDict(m));
  }

  /** The recalls the earlier tests expect of the list a, b, c. */
  lemma TestTopTen(correctId: string)
    ensures CalculateRecall(JArr([Cond("a"), Cond("b"), Cond("c")]), Cond(correctId), Some(10))
            == Ok(Indicator(correctId in ["a", "b", "c"]))
  {
    var cs := [Cond("a"), Cond("b"), Cond("c")];
    TestConditionIds();
    assert cs[..Window(Some(10), 3)] == cs;
    assert JStr(correctId) in [JStr("a"), JStr("b"), JStr("c")] <==> correctId in ["a", "b", "c"];
  }

  /** The scores of a test element, with the correct id and the triages left open. */
  lemma TestScores(correctId: string, expected: string, triage: string)
    requires expected in Metrics.EXPECTED_TRIAGE_OPTIONS
    ensures ResultScores(TestValuesToPredict(correctId, expected), TestResult(triage))
            == Ok(OldScores(1.0, Indicator(correctId == "a"), Indicator(correctId in ["a", "b", "c"]),
                            Indicator(correctId in ["a", "b", "c"]), Indicator(expected == triage),
                            Metrics.TriageSimilarityScore(JStr(expected), JStr(triage), false).value,
                            Metrics.TriageSimilarityScore(JStr(expected), JStr(triage), true).value))
  {
    TestRecalls(correctId);
    TestTopTen(correctId);
  }

  lemma AbsentId()
    ensures "d" !in ["a", "b", "c"]
  {
    assert "d"[0] == 'd';
  }

  /** The earlier tests' table: correct id second, PC expected, SC given. */
  lemma TestSecondPlace()
    ensures ResultScores(TestValuesToPredict("b", "PC"), TestResult("SC"))
            == Ok(OldScores(1.0, 0.0, 1.0, 1.0, 0.0, 0.5, 0.5))
  {
    TestScores("b", "PC", "SC");
    Metrics.TriageSimilarityTable("PC", "SC", false);
    Metrics.TriageSimilarityTable("PC", "SC", true);
  }

  /** Correct id first and the triage right: every metric is 1. */
  lemma TestFirstPlace()
    ensures ResultScores(TestValuesToPredict("a", "PC"), TestResult("PC"))
            == Ok(OldScores(1.0, 1.0, 1.0, 1.0, 1.0, 1.0, 1.0))
  {
    TestScores("a", "PC", "PC");
    Metrics.TriageSimilarityTable("PC", "PC", false);
    Metrics.TriageSimilarityTable("PC", "PC", true);
  }

  /** Correct id absent: no recall, no match, similarity one half. */
  lemma TestAbsent()
    ensures ResultScores(TestValuesToPredict("d", "PC"), TestResult("SC"))
            == Ok(OldScores(1.0, 0.0, 0.0, 0.0, 0.0, 0.5, 0.5))
  {
    AbsentId();
    TestScores("d", "PC", "SC");
    Metrics.TriageSimilarityTable("PC", "SC", false);
    Metrics.TriageSimilarityTable("PC", "SC", true);
  }
}
