/**
 * The stand-alone metric calculator service: for each element of a request
 * (the values to predict of a case and the AI's result for it) a record of
 * metric values, each 0.0 or 1.0: whether the correct condition is anywhere,
 * first, or in the first three of the AI's conditions, and whether the
 * triage matches.
 */
module MetricCalculator {
  import opened Wrappers
  import opened Dicts
  import opened JsonValues

  /** `SUPPORTED_METRICS`: metric name and human name, in declaration order. */
  const SUPPORTED_METRICS: Dict<string, string> := [
    ("correct_conditions", "Correct conditions (anywhere)"),
    ("correct_conditions_top_1", "Correct conditions (top 1)"),
    ("correct_conditions_top_3", "Correct conditions (top 3)"),
    ("triage_match", "Triage match")
  ]

  /** One entry of `list_all_metrics`. */
  function MetricEntry(entry: (string, string)): (r: Json)
    ensures Index(r, "name") == Ok(JStr(entry.0)) && Index(r, "human_name") == Ok(JStr(entry.1))
  {
    var r := JObj([("name", JStr(entry.0)), ("human_name", JStr(entry.1))]);
    assert Get(r.fields, "human_name") == Some(JStr(entry.1));
    r
  }

  function MetricEntries(supported: Dict<string, string>): (r: seq<Json>)
    ensures |r| == |supported|
    ensures forall i :: 0 <= i < |r| ==> r[i] == MetricEntry(supported[i])
  {
    if supported == [] then [] else [MetricEntry(supported[0])] + MetricEntries(supported[1..])
  }

  /** `list_all_metrics`: `{"metrics": [{"name", "human_name"}, ...]}` over the given table. */
  function ListAllMetrics(supported: Dict<string, string>): (r: Json)
    ensures r.JObj? && Keys(r.fields) == ["metrics"]
    ensures var listed := Get(r.fields, "metrics").value;
      && listed.JArr? && |listed.items| == |supported|
      && forall i :: 0 <= i < |supported| ==>
           Index(listed.items[i], "name") == Ok(JStr(supported[i].0))
           && Index(listed.items[i], "human_name") == Ok(JStr(supported[i].1))
  {
    var r := JObj([("metrics", JArr(MetricEntries(supported)))]);
    assert Get(r.fields, "metrics") == Some(JArr(MetricEntries(supported)));
    r
  }

  // ---------------------------------------------------------------- recall

  /** How many items `x[:top_n]` keeps of `n`; `None` keeps them all. */
  function Window(topN: Option<nat>, n: nat): (w: nat)
    ensures w <= n
    ensures topN.None? ==> w == n
    ensures topN.Some? ==> w == if topN.value < n then topN.value else n
  {
    if topN.Some? && topN.value < n then topN.value else n
  }

  /**
   * The items of `x[:top_n]` as a `for` loop sees them: a list's first items,
   * a string's first characters; slicing anything else is a TypeError.
   */
  function SliceItems(x: Json, topN: Option<nat>): (r: Result<seq<Json>>)
    ensures r.Ok? <==> x.JArr? || x.JStr?
    ensures x.JArr? ==> r == Ok(x.items[..Window(topN, |x.items|)])
    ensures x.JStr? ==> |r.value| == Window(topN, |x.s|) && forall i :: 0 <= i < |r.value| ==> r.value[i].JStr?
    ensures r.Err? ==> r.error == TypeError
  {
    match x
    case JArr(items) => Ok(items[..Window(topN, |items|)])
    case JStr(s) =>
      var w := Window(topN, |s|);
      Ok(seq(w, i requires 0 <= i < w => JStr([s[i]])))
    case _ => Err(TypeError)
  }

  /** `[condition["id"] for condition in conditions]`: the first item without an id raises. */
  function ConditionIds(conditions: seq<Json>): (r: Result<seq<Json>>)
    ensures r.Ok? <==> forall i :: 0 <= i < |conditions| ==> Index(conditions[i], "id").Ok?
    ensures r.Ok? ==> |r.value| == |conditions|
                      && forall i :: 0 <= i < |conditions| ==> r.value[i] == Index(conditions[i], "id").value
  {
    if conditions == [] then Ok([])
    else
      var head :- Index(conditions[0], "id");
      var tail :- ConditionIds(conditions[1..]);
      assert forall i :: 1 <= i < |conditions| ==> conditions[i] == conditions[1..][i - 1];
      Ok([head] + tail)
  }

  /** `float(x)` of a boolean. */
  function Indicator(b: bool): (r: real)
    ensures r == 1.0 <==> b
    ensures r == 0.0 <==> !b
  {
    if b then 1.0 else 0.0
  }

  /**
   * `calculate_recall`: 1.0 when the correct condition's id is among the ids
   * of the first `top_n` conditions, else 0.0. The correct condition's id is
   * looked up before the conditions are sliced.
   */
  function CalculateRecall(conditions: Json, correct: Json, topN: Option<nat>): (r: Result<real>)
    ensures r.Ok? ==> r.value == 0.0 || r.value == 1.0
    ensures Index(correct, "id").Err? ==> r == Err(Index(correct, "id").error)
  {
    var id :- Index(correct, "id");
    var window :- SliceItems(conditions, topN);
    var ids :- ConditionIds(window);
    Ok(Indicator(id in ids))
  }

  /** The condition list has an id at each of its first `n` positions. */
  predicate IdsUpTo(conditions: seq<Json>, n: nat)
    requires n <= |conditions|
  {
    forall i :: 0 <= i < n ==> Index(conditions[i], "id").Ok?
  }

  /**
   * On a list of conditions that all have ids, recall is 1.0 exactly when
   * one of the first `top_n` of them has the correct id, and 0.0 otherwise.
   */
  lemma RecallFindsId(conditions: seq<Json>, correct: Json, topN: Option<nat>)
    requires Index(correct, "id").Ok? && IdsUpTo(conditions, Window(topN, |conditions|))
    ensures var found := exists i :: 0 <= i < Window(topN, |conditions|)
                                     && Index(conditions[i], "id") == Index(correct, "id");
      CalculateRecall(JArr(conditions), correct, topN) == Ok(Indicator(found))
  {
    var w := Window(topN, |conditions|);
    var window := conditions[..w];
    assert forall i :: 0 <= i < w ==> window[i] == conditions[i];
    assert SliceItems(JArr(conditions), topN) == Ok(window);
    var ids := ConditionIds(window);
    assert ids.Ok?;
    var id := Index(correct, "id").value;
    assert CalculateRecall(JArr(conditions), correct, topN) == Ok(Indicator(id in ids.value));
    if id in ids.value {
      var i :| 0 <= i < |ids.value| && ids.value[i] == id;
      assert Index(conditions[i], "id") == Ok(id);
    }
  }

  /** A non-empty string in place of the condition list cannot be searched: TypeError. */
  lemma RecallOfString(s: string, correct: Json, topN: Option<nat>)
    requires Index(correct, "id").Ok? && Window(topN, |s|) > 0
    ensures CalculateRecall(JStr(s), correct, topN) == Err(TypeError)
  {
    var window := SliceItems(JStr(s), topN).value;
    assert window[0].JStr?;
  }

  /** The later the correct id sits, the fewer windows see it: recall cannot fall as `top_n` grows. */
  lemma RecallGrowsWithWindow(conditions: seq<Json>, correct: Json, m: nat, n: nat)
    requires m <= n && Index(correct, "id").Ok? && IdsUpTo(conditions, Window(Some(n), |conditions|))
    ensures CalculateRecall(JArr(conditions), correct, Some(m)).Ok?
    ensures CalculateRecall(JArr(conditions), correct, Some(m)).value
            <= CalculateRecall(JArr(conditions), correct, Some(n)).value
  {
    RecallFindsId(conditions, correct, Some(m));
    RecallFindsId(conditions, correct, Some(n));
  }

  // ---------------------------------------------------------------- per element

  /** The metric record of one element; `AsDict` gives it the service's key names and order. */
  datatype Scores = Scores(correctConditions: real, top1: real, top3: real, triageMatch: real)

  function AsDict(m: Scores): (r: Dict<string, real>)
    ensures Keys(r) == Keys(SUPPORTED_METRICS)
  {
    [("correct_conditions", m.correctConditions), ("correct_conditions_top_1", m.top1),
     ("correct_conditions_top_3", m.top3), ("triage_match", m.triageMatch)]
  }

  predicate ZeroOrOne(m: Scores) {
    && (m.correctConditions == 0.0 || m.correctConditions == 1.0)
    && (m.top1 == 0.0 || m.top1 == 1.0)
    && (m.top3 == 0.0 || m.top3 == 1.0)
    && (m.triageMatch == 0.0 || m.triageMatch == 1.0)
  }

  /** The scores of an AI result that is not None: three recalls and the triage match. */
  function ResultScores(valuesToPredict: Json, aiResult: Json): (r: Result<Scores>)
    ensures r.Ok? ==> ZeroOrOne(r.value)
    ensures r.Ok? ==> (r.value.triageMatch == 1.0
                       <==> Index(valuesToPredict, "expectedTriageLevel") == Index(aiResult, "triage"))
    ensures r.Ok? ==> Index(aiResult, "conditions").Ok? && Index(valuesToPredict, "condition").Ok?
    ensures r.Ok? ==> var conditions := Index(aiResult, "conditions").value;
                      var condition := Index(valuesToPredict, "condition").value;
                      && Ok(r.value.correctConditions) == CalculateRecall(conditions, condition, None)
                      && Ok(r.value.top1) == CalculateRecall(conditions, condition, Some(1))
                      && Ok(r.value.top3) == CalculateRecall(conditions, condition, Some(3))
  {
    var conditions :- Index(aiResult, "conditions");
    var condition :- Index(valuesToPredict, "condition");
    var recall :- CalculateRecall(conditions, condition, None);
    var top1 :- CalculateRecall(conditions, condition, Some(1));
    var top3 :- CalculateRecall(conditions, condition, Some(3));
    var expected :- Index(valuesToPredict, "expectedTriageLevel");
    var triage :- Index(aiResult, "triage");
    Ok(Scores(recall, top1, top3, Indicator(expected == triage)))
  }

  /**
   * The metric record of one request element. Only an `aiResult` of None
   * gives zeros; any other value is indexed as an object.
   */
  function ElementMetrics(element: Json): (r: Result<Scores>)
    ensures r.Ok? ==> ZeroOrOne(r.value)
    ensures Index(element, "valuesToPredict").Ok? && Index(element, "aiResult") == Ok(JNull)
            ==> r == Ok(Scores(0.0, 0.0, 0.0, 0.0))
    ensures Index(element, "valuesToPredict").Ok? && Index(element, "aiResult").Ok? && Index(element, "aiResult").value != JNull
            ==> r == ResultScores(Index(element, "valuesToPredict").value, Index(element, "aiResult").value)
  {
    var valuesToPredict :- Index(element, "valuesToPredict");
    var aiResult :- Index(element, "aiResult");
    if aiResult.JNull? then Ok(Scores(0.0, 0.0, 0.0, 0.0))
    else ResultScores(valuesToPredict, aiResult)
  }

  /** A result at the top of the list is also in the top three and anywhere. */
  lemma TopOneImpliesTopThree(valuesToPredict: Json, aiResult: Json)
    requires ResultScores(valuesToPredict, aiResult).Ok?
    ensures var m := ResultScores(valuesToPredict, aiResult).value;
      m.top1 == 1.0 ==> m.top3 == 1.0 && m.correctConditions == 1.0
  {
    var m := ResultScores(valuesToPredict, aiResult).value;
    var conditions := Index(aiResult, "conditions").value;
    var condition := Index(valuesToPredict, "condition").value;
    assert CalculateRecall(conditions, condition, None).Ok?;
    if m.top1 == 1.0 {
      if conditions.JStr? {
        if |conditions.s| > 0 {
          RecallOfString(conditions.s, condition, None);
          assert false;
        }
      }
      var items := conditions.items;
      assert ConditionIds(items[..Window(None, |items|)]).Ok?;
      assert IdsUpTo(items, |items|) by {
        assert items[..Window(None, |items|)] == items;
      }
      RecallGrowsWithWindow(items, condition, 1, 3);
      RecallFindsId(items, condition, Some(1));
      RecallFindsId(items, condition, None);
    }
  }

  // ---------------------------------------------------------------- the request

  /**
   * A loop over the request that appends each element's record, the first
   * element that raises ending it: `calculate_metrics` of either calculator.
   */
  function MapResults<T>(f: Json -> Result<T>, request: seq<Json>): (r: Result<seq<T>>)
    decreases |request|
  {
    if request == [] then Ok([])
    else
      var before :- MapResults(f, request[..|request| - 1]);
      var record :- f(request[|request| - 1]);
      Ok(before + [record])
  }

  lemma MapStep<T>(f: Json -> Result<T>, request: seq<Json>, i: nat)
    requires i < |request|
    ensures var m := f(request[i]);
      var before := MapResults(f, request[..i]);
      MapResults(f, request[..i + 1])
      == if before.Err? then before else if m.Err? then Err(m.error) else Ok(before.value + [m.value])
  {
    assert request[..i + 1][..i] == request[..i];
  }

  /** Once a prefix fails, the whole request fails with that error. */
  lemma {:induction false} MapFails<T>(f: Json -> Result<T>, request: seq<Json>, n: nat)
    requires n <= |request| && MapResults(f, request[..n]).Err?
    ensures MapResults(f, request) == MapResults(f, request[..n])
    decreases |request| - n
  {
    if n < |request| {
      MapStep(f, request, n);
      MapFails(f, request, n + 1);
    } else {
      assert request[..n] == request;
    }
  }

  /** On success the output has one record per element, in order. */
  lemma {:induction false} MapEach<T>(f: Json -> Result<T>, request: seq<Json>, j: nat)
    requires j < |request| && MapResults(f, request).Ok?
    ensures |MapResults(f, request).value| == |request|
    ensures Ok(MapResults(f, request).value[j]) == f(request[j])
    decreases |request|
  {
    var prefix := request[..|request| - 1];
    if |prefix| > 0 {
      MapEach(f, prefix, if j < |prefix| then j else 0);
    }
    if j < |prefix| {
      assert prefix[j] == request[j];
    }
  }

  /** An element that raises makes the whole request raise. */
  lemma {:induction false} MapRaises<T>(f: Json -> Result<T>, request: seq<Json>, j: nat)
    requires j < |request| && f(request[j]).Err?
    ensures MapResults(f, request).Err?
    decreases |request|
  {
    var prefix := request[..|request| - 1];
    if j < |prefix| {
      assert prefix[j] == request[j];
      MapRaises(f, prefix, j);
    }
  }

  /** `calculate_metrics`. */
  method CalculateMetrics(request: seq<Json>) returns (r: Result<seq<Scores>>)
    ensures r == MapResults(ElementMetrics, request)
  {
    var metricResults: seq<Scores> := [];
    for i := 0 to |request|
      invariant MapResults(ElementMetrics, request[..i]) == Ok(metricResults)
    {
      MapStep(ElementMetrics, request, i);
      var record := ElementMetrics(request[i]);
      if record.Err? {
        MapFails(ElementMetrics, request, i + 1);
        return Err(record.error);
      }
      metricResults := metricResults + [record.value];
    }
    assert request[..|request|] == request;
    return Ok(metricResults);
  }

  /** The keys of every record are the metrics that `list_all_metrics` lists, in the same order. */
  lemma RecordsMatchListing(m: Scores)
    ensures var listed := Get(ListAllMetrics(SUPPORTED_METRICS).fields, "metrics").value.items;
      && |AsDict(m)| == |listed|
      && forall k :: 0 <= k < |listed| ==> Index(listed[k], "name") == Ok(JStr(AsDict(m)[k].0))
  {
    KeysListed(SUPPORTED_METRICS, AsDict(m));
  }

  /** A record with the table's keys has, position by position, the names `list_all_metrics` lists. */
  lemma KeysListed(supported: Dict<string, string>, record: Dict<string, real>)
    requires Keys(record) == Keys(supported)
    ensures var listed := Get(ListAllMetrics(supported).fields, "metrics").value.items;
      && |record| == |listed|
      && forall k :: 0 <= k < |listed| ==> Index(listed[k], "name") == Ok(JStr(record[k].0))
  {
    forall k | 0 <= k < |record| ensures record[k].0 == supported[k].0 {
      assert Keys(record)[k] == record[k].0;
      assert Keys(supported)[k] == supported[k].0;
    }
  }

  // ---------------------------------------------------------------- the test table

  function Cond(id: string): (r: Json)
    ensures Index(r, "id") == Ok(JStr(id))
  {
    var r := JObj([("id", JStr(id))]);
    assert Get(r.fields, "id") == Some(JStr(id));
    r
  }

  /** A request element as the tests build them: conditions a, b, c. */
  function TestResult(triage: string): (r: Json)
    ensures Index(r, "conditions") == Ok(JArr([Cond("a"), Cond("b"), Cond("c")]))
    ensures Index(r, "triage") == Ok(JStr(triage))
  {
    var r := JObj([("conditions", JArr([Cond("a"), Cond("b"), Cond("c")])), ("triage", JStr(triage))]);
    assert Get(r.fields, "triage") == Some(JStr(triage));
    r
  }

  function TestValuesToPredict(correctId: string, expected: string): (r: Json)
    ensures Index(r, "condition") == Ok(Cond(correctId))
    ensures Index(r, "expectedTriageLevel") == Ok(JStr(expected))
  {
    var r := JObj([("condition", Cond(correctId)), ("expectedTriageLevel", JStr(expected))]);
    assert Get(r.fields, "expectedTriageLevel") == Some(JStr(expected));
    r
  }

  lemma TestConditionIds()
    ensures ConditionIds([Cond("a"), Cond("b"), Cond("c")]) == Ok([JStr("a"), JStr("b"), JStr("c")])
    ensures ConditionIds([Cond("a")]) == Ok([JStr("a")])
  {
    var cs := [Cond("a"), Cond("b"), Cond("c")];
    assert Index(cs[0], "id") == Ok(JStr("a")) && Index(cs[1], "id") == Ok(JStr("b")) && Index(cs[2], "id") == Ok(JStr("c"));
    var r := ConditionIds(cs);
    assert r.Ok? && |r.value| == 3;
    assert r.value[0] == JStr("a") && r.value[1] == JStr("b") && r.value[2] == JStr("c");
    var expected: seq<Json> := [JStr("a"), JStr("b"), JStr("c")];
    assert r.value == expected;
    assert r == Ok(expected);
    var one := [Cond("a")];
    assert Index(one[0], "id") == Ok(JStr("a"));
    assert ConditionIds(one).Ok? && ConditionIds(one).value[0] == JStr("a");
    var first: seq<Json> := [JStr("a")];
    assert ConditionIds(one).value == first;
  }

  /** The recalls the tests expect of the list a, b, c. */
  lemma TestRecalls(correctId: string)
    ensures var cs := JArr([Cond("a"), Cond("b"), Cond("c")]);
      && CalculateRecall(cs, Cond(correctId), None) == Ok(Indicator(correctId in ["a", "b", "c"]))
      && CalculateRecall(cs, Cond(correctId), Some(3)) == Ok(Indicator(correctId in ["a", "b", "c"]))
      && CalculateRecall(cs, Cond(correctId), Some(1)) == Ok(Indicator(correctId == "a"))
  {
    var cs := [Cond("a"), Cond("b"), Cond("c")];
    TestConditionIds();
    assert cs[..Window(None, 3)] == cs && cs[..Window(Some(3), 3)] == cs && cs[..Window(Some(1), 3)] == [Cond("a")];
    assert JStr(correctId) in [JStr("a"), JStr("b"), JStr("c")] <==> correctId in ["a", "b", "c"];
  }

  /** The expected outputs of the calculator's tests: correct id second, PC expected, SC given. */
  lemma TestSecondPlace()
    ensures ResultScores(TestValuesToPredict("b", "PC"), TestResult("SC")) == Ok(Scores(1.0, 0.0, 1.0, 0.0))
  {
    TestRecalls("b");
  }

  /** Correct id first and the triage right: every metric is 1. */
  lemma TestFirstPlace()
    ensures ResultScores(TestValuesToPredict("a", "PC"), TestResult("PC")) == Ok(Scores(1.0, 1.0, 1.0, 1.0))
  {
    TestRecalls("a");
  }

  /** Correct id absent and the triage wrong: every metric is 0. */
  lemma TestAbsent()
    ensures ResultScores(TestValuesToPredict("d", "PC"), TestResult("SC")) == Ok(Scores(0.0, 0.0, 0.0, 0.0))
  {
    TestRecalls("d");
  }
}
