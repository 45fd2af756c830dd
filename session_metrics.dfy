/**
 * The metrics computed over the results of a benchmarking session: for
 * every case and every AI, a value (triage similarity, soft triage
 * similarity, triage match, or whether the AI gave a result), then per AI
 * the mean over the cases. The cases' stored data is a parameter, a map from
 * case id to the case's JSON data; a missing case is Django's Http404.
 */
module Metrics {
  import opened Wrappers
  import opened Dicts
  import opened JsonValues
  import opened BenchmarkingSessions
  import opened MetricValues

  /** The metric classes of `metrics.implementations`. */
  datatype MetricKind =
    | TriageSimilarityBase
    | TriageSimilarity
    | SoftTriageSimilarity
    | TriageMatch
    | CasesWithAIResult

  function Name(k: MetricKind): string {
    match k
    case TriageSimilarityBase => "triage_similarity_base"
    case TriageSimilarity => "triage_similarity"
    case SoftTriageSimilarity => "soft_triage_similarity"
    case TriageMatch => "triage_match"
    case CasesWithAIResult => "cases_with_ai_result"
  }

  function Description(k: MetricKind): string {
    match k
    case TriageSimilarityBase => "Triage similarity (Base)"
    case TriageSimilarity => "Triage similarity"
    case SoftTriageSimilarity => "Soft triage similarity"
    case TriageMatch => "Triage match"
    case CasesWithAIResult => "Cases with AI result"
  }

  /** `include_as_metric`: every class but the base one. */
  predicate IncludeAsMetric(k: MetricKind) {
    !k.TriageSimilarityBase?
  }

  const EXPECTED_TRIAGE_OPTIONS: seq<string> := ["SC", "PC", "EC"]
  const SOFT_FAIL_TRIAGE_SIMILARITY: real := 0.2

  /** `EXPECTED_TRIAGE_OPTIONS.index(t)` */
  function TriageIndex(t: string): (i: nat)
    requires t in EXPECTED_TRIAGE_OPTIONS
    ensures i < |EXPECTED_TRIAGE_OPTIONS| && EXPECTED_TRIAGE_OPTIONS[i] == t
  {
    if t == "SC" then 0 else if t == "PC" then 1 else 2
  }

  predicate IsExpectedTriage(t: Json) {
    t.JStr? && t.s in EXPECTED_TRIAGE_OPTIONS
  }

  function Abs(x: int): nat {
    if x < 0 then -x else x
  }

  /**
   * `_calculate_triage_similarity`: the expected triage must be SC, PC or
   * EC; an AI triage outside those scores 0, or the soft fail value when
   * soft; otherwise the score falls by one half per level apart.
   */
  function TriageSimilarityScore(expected: Json, aiTriage: Json, soft: bool): (r: Result<real>)
    ensures r.Err? <==> !IsExpectedTriage(expected)
    ensures r.Err? ==> r.error == AssertionError
    ensures r.Ok? && !IsExpectedTriage(aiTriage) ==> r.value == if soft then SOFT_FAIL_TRIAGE_SIMILARITY else 0.0
    ensures r.Ok? ==> 0.0 <= r.value <= 1.0
  {
    if !IsExpectedTriage(expected) then Err(AssertionError)
    else if !IsExpectedTriage(aiTriage) then Ok(if soft then SOFT_FAIL_TRIAGE_SIMILARITY else 0.0)
    else
      var i := TriageIndex(expected.s);
      var j := TriageIndex(aiTriage.s);
      Ok(1.0 - (Abs(i - j) as real) / (|EXPECTED_TRIAGE_OPTIONS| as real - 1.0))
  }

  /** Equal triages score 1, neighbouring ones 0.5, SC against EC 0, and the score is symmetric. */
  lemma TriageSimilarityTable(a: string, b: string, soft: bool)
    requires a in EXPECTED_TRIAGE_OPTIONS && b in EXPECTED_TRIAGE_OPTIONS
    ensures TriageSimilarityScore(JStr(a), JStr(b), soft) == TriageSimilarityScore(JStr(b), JStr(a), soft)
    ensures a == b ==> TriageSimilarityScore(JStr(a), JStr(b), soft) == Ok(1.0)
    ensures Abs(TriageIndex(a) - TriageIndex(b)) == 1 ==> TriageSimilarityScore(JStr(a), JStr(b), soft) == Ok(0.5)
    ensures {a, b} == {"SC", "EC"} ==> TriageSimilarityScore(JStr(a), JStr(b), soft) == Ok(0.0)
    ensures TriageSimilarityScore(JStr(a), JStr(b), soft) == Ok(1.0) ==> a == b
  {
    if {a, b} == {"SC", "EC"} {
      assert a == "SC" || a == "EC";
      assert b == "SC" || b == "EC";
    }
    if a != b {
      assert TriageIndex(a) != TriageIndex(b);
    }
  }

  /** "UNCERTAIN" and "" are not expected triages: hard scores 0, soft 0.2. */
  lemma UncertainTriageFails(expected: string)
    requires expected in EXPECTED_TRIAGE_OPTIONS
    ensures TriageSimilarityScore(JStr(expected), JStr("UNCERTAIN"), false) == Ok(0.0)
    ensures TriageSimilarityScore(JStr(expected), JStr("UNCERTAIN"), true) == Ok(0.2)
    ensures TriageSimilarityScore(JStr(expected), JStr(""), true) == Ok(0.2)
  {
  }

  // ---------------------------------------------------------------- per-pair values

  /** `case.data["valuesToPredict"]["expectedTriageLevel"]` */
  function ExpectedTriage(data: Json): (r: Result<Json>)
    ensures r.Ok? <==> data.JObj? && HasKey(data.fields, "valuesToPredict")
                       && Get(data.fields, "valuesToPredict").value.JObj?
                       && HasKey(Get(data.fields, "valuesToPredict").value.fields, "expectedTriageLevel")
  {
    var v :- Index(data, "valuesToPredict");
    Index(v, "expectedTriageLevel")
  }

  /** `response.get("value", {}).get("triage", "")` */
  function AiTriage(rec: StepRecord): (r: Result<Json>)
    ensures rec.value.None? ==> r == Ok(JStr(""))
    ensures r.Err? ==> r.error == AttributeError
  {
    GetOrDefault(if rec.value.Some? then rec.value.value else JObj([]), "triage", JStr(""))
  }

  /**
   * `get_object_or_404(Case, pk=case_id).data`, done for each case by the
   * triage metrics; CasesWithAIResult looks no case up and uses no case data.
   */
  function CaseData(k: MetricKind, caseId: string, cases: map<string, Json>): (r: Result<Json>)
    ensures r.Err? <==> !k.CasesWithAIResult? && caseId !in cases
    ensures r.Err? ==> r.error == NotFound
  {
    if k.CasesWithAIResult? then Ok(JNull)
    else if caseId in cases then Ok(cases[caseId])
    else Err(NotFound)
  }

  predicate IsCompleted(rec: StepRecord) {
    rec.status == Completed
  }

  /** The value one metric gives one AI's answer to one case. */
  function PairValue(k: MetricKind, data: Json, rec: StepRecord): (r: Result<real>)
    ensures r.Ok? ==> 0.0 <= r.value <= 1.0
  {
    match k
    case CasesWithAIResult => Ok(if IsCompleted(rec) then 1.0 else 0.0)
    case TriageMatch =>
      var expected :- ExpectedTriage(data);
      if !IsCompleted(rec) then Ok(0.0)
      else
        var triage :- AiTriage(rec);
        Ok(if triage == expected then 1.0 else 0.0)
    case _ =>
      if !IsCompleted(rec) then Ok(0.0)
      else
        var expected :- ExpectedTriage(data);
        var triage :- AiTriage(rec);
        TriageSimilarityScore(expected, triage, k.SoftTriageSimilarity?)
  }

  /** CasesWithAIResult: 1 exactly for a COMPLETED answer, whatever the case. */
  lemma CasesWithResultValue(data: Json, rec: StepRecord)
    ensures PairValue(CasesWithAIResult, data, rec) == Ok(1.0) <==> IsCompleted(rec)
    ensures PairValue(CasesWithAIResult, data, rec) == PairValue(CasesWithAIResult, JNull, rec)
    ensures PairValue(CasesWithAIResult, data, rec).Ok?
  {
  }

  /**
   * TriageMatch: 1 exactly for a COMPLETED answer whose triage equals the
   * expected one; a COMPLETED answer with no value has triage "" and does
   * not match an expected triage.
   */
  lemma TriageMatchValue(data: Json, rec: StepRecord)
    requires ExpectedTriage(data).Ok? && AiTriage(rec).Ok?
    ensures PairValue(TriageMatch, data, rec) == Ok(1.0)
            <==> IsCompleted(rec) && AiTriage(rec).value == ExpectedTriage(data).value
    ensures PairValue(TriageMatch, data, rec).Ok?
    ensures IsCompleted(rec) && rec.value.None? && ExpectedTriage(data).value != JStr("")
            ==> PairValue(TriageMatch, data, rec) == Ok(0.0)
  {
  }

  /**
   * The similarities: an answer that is not COMPLETED scores 0 even when
   * soft; a COMPLETED one scores its triage against the expected one.
   */
  lemma TriageSimilarityValue(k: MetricKind, data: Json, rec: StepRecord)
    requires k.TriageSimilarity? || k.SoftTriageSimilarity? || k.TriageSimilarityBase?
    ensures !IsCompleted(rec) ==> PairValue(k, data, rec) == Ok(0.0)
    ensures IsCompleted(rec) && ExpectedTriage(data).Ok? && AiTriage(rec).Ok?
            ==> PairValue(k, data, rec)
                == TriageSimilarityScore(ExpectedTriage(data).value, AiTriage(rec).value, k.SoftTriageSimilarity?)
  {
  }

  // ---------------------------------------------------------------- calculate

  /** The inner loop over one case's answers, from the values so far. */
  function CaseValues(k: MetricKind, caseId: string, data: Json, items: Dict<string, StepRecord>, acc: Values)
    : Result<Values>
    decreases |items|
  {
    if items == [] then Ok(acc)
    else
      var before :- CaseValues(k, caseId, data, items[..|items| - 1], acc);
      var v :- PairValue(k, data, items[|items| - 1].1);
      Ok(SetPair(before, caseId, items[|items| - 1].0, v))
  }

  /** One case of `calculate`: its data is looked up, then its answers get their values. */
  function CaseStep(k: MetricKind, entry: CaseEntry, cases: map<string, Json>, acc: Values): Result<Values> {
    var data :- CaseData(k, entry.caseId, cases);
    CaseValues(k, entry.caseId, data, entry.responses, acc)
  }

  /** `calculate`: the values of every case's answers, in order; the first failure raises. */
  function CalculatedValues(k: MetricKind, responses: seq<CaseEntry>, cases: map<string, Json>): Result<Values>
    decreases |responses|
  {
    if responses == [] then Ok([])
    else
      var before :- CalculatedValues(k, responses[..|responses| - 1], cases);
      CaseStep(k, responses[|responses| - 1], cases, before)
  }

  lemma CalculatedStep(k: MetricKind, responses: seq<CaseEntry>, cases: map<string, Json>, i: nat)
    requires i < |responses| && CalculatedValues(k, responses[..i], cases).Ok?
    ensures CalculatedValues(k, responses[..i + 1], cases)
            == CaseStep(k, responses[i], cases, CalculatedValues(k, responses[..i], cases).value)
  {
    assert responses[..i + 1][..i] == responses[..i];
  }

  /** Once the inner loop has failed, the case's remaining answers do not matter. */
  lemma {:induction false} CaseErrorStands(k: MetricKind, caseId: string, data: Json, items: Dict<string, StepRecord>,
                                           acc: Values, j: nat)
    requires j <= |items| && CaseValues(k, caseId, data, items[..j], acc).Err?
    ensures CaseValues(k, caseId, data, items, acc) == CaseValues(k, caseId, data, items[..j], acc)
    decreases |items| - j
  {
    if j < |items| {
      assert items[..j + 1][..j] == items[..j];
      CaseErrorStands(k, caseId, data, items, acc, j + 1);
    } else {
      assert items[..j] == items;
    }
  }

  /** Once a case has failed, the remaining cases do not matter. */
  lemma {:induction false} ErrorStands(k: MetricKind, responses: seq<CaseEntry>, cases: map<string, Json>, i: nat)
    requires i <= |responses| && CalculatedValues(k, responses[..i], cases).Err?
    ensures CalculatedValues(k, responses, cases) == CalculatedValues(k, responses[..i], cases)
    decreases |responses| - i
  {
    if i < |responses| {
      assert responses[..i + 1][..i] == responses[..i];
      ErrorStands(k, responses, cases, i + 1);
    } else {
      assert responses[..i] == responses;
    }
  }

  /** The inner loop of `calculate` over one case's answers. */
  method AddCaseValues(k: MetricKind, caseId: string, data: Json, items: Dict<string, StepRecord>, acc: Values)
    returns (r: Result<Values>)
    ensures r == CaseValues(k, caseId, data, items, acc)
  {
    var values := acc;
    for j := 0 to |items|
      invariant CaseValues(k, caseId, data, items[..j], acc) == Ok(values)
    {
      assert items[..j + 1][..j] == items[..j];
      var aiId, rec := items[j].0, items[j].1;
      var v := PairValue(k, data, rec);
      if v.Err? {
        CaseErrorStands(k, caseId, data, items, acc, j + 1);
        return Err(v.error);
      }
      values := SetPair(values, caseId, aiId, v.value);
    }
    assert items[..|items|] == items;
    return Ok(values);
  }

  /** One turn of `calculate`'s outer loop. */
  method ProcessCase(k: MetricKind, entry: CaseEntry, cases: map<string, Json>, acc: Values) returns (r: Result<Values>)
    ensures r == CaseStep(k, entry, cases, acc)
  {
    var data := CaseData(k, entry.caseId, cases);
    if data.Err? {
      return Err(data.error);
    }
    r := AddCaseValues(k, entry.caseId, data.value, entry.responses, acc);
  }

  /** `calculate` of one metric over a session's responses. */
  method Calculate(k: MetricKind, responses: seq<CaseEntry>, cases: map<string, Json>) returns (r: Result<Values>)
    ensures r == CalculatedValues(k, responses, cases)
  {
    var values: Values := [];
    for i := 0 to |responses|
      invariant CalculatedValues(k, responses[..i], cases) == Ok(values)
    {
      CalculatedStep(k, responses, cases, i);
      var next := ProcessCase(k, responses[i], cases, values);
      if next.Err? {
        ErrorStands(k, responses, cases, i + 1);
        return next;
      }
      values := next.value;
    }
    assert responses[..|responses|] == responses;
    return Ok(values);
  }

  lemma {:induction false} CaseValuesWellFormed(k: MetricKind, caseId: string, data: Json,
                                                items: Dict<string, StepRecord>, acc: Values)
    requires WellFormed(acc) && CaseValues(k, caseId, data, items, acc).Ok?
    ensures WellFormed(CaseValues(k, caseId, data, items, acc).value)
    decreases |items|
  {
    if items != [] {
      var before := CaseValues(k, caseId, data, items[..|items| - 1], acc);
      CaseValuesWellFormed(k, caseId, data, items[..|items| - 1], acc);
      var aiId, rec := items[|items| - 1].0, items[|items| - 1].1;
      SetPairWellFormed(before.value, caseId, aiId, PairValue(k, data, rec).value);
    }
  }

  /** What `calculate` yields is well formed: one value per (case, AI), each in [0, 1]. */
  lemma {:induction false} CalculatedWellFormed(k: MetricKind, responses: seq<CaseEntry>, cases: map<string, Json>)
    requires CalculatedValues(k, responses, cases).Ok?
    ensures WellFormed(CalculatedValues(k, responses, cases).value)
    decreases |responses|
  {
    if responses != [] {
      var prefix := responses[..|responses| - 1];
      var last := responses[|responses| - 1];
      CalculatedWellFormed(k, prefix, cases);
      CaseValuesWellFormed(k, last.caseId, CaseData(k, last.caseId, cases).value, last.responses,
                           CalculatedValues(k, prefix, cases).value);
    }
  }

  lemma {:induction false} CaseValuesKeep(k: MetricKind, caseId: string, data: Json, items: Dict<string, StepRecord>,
                                          acc: Values, c: string, a: string)
    requires CaseValues(k, caseId, data, items, acc).Ok? && HasKey(GetOr(acc, c, []), a)
    ensures HasKey(GetOr(CaseValues(k, caseId, data, items, acc).value, c, []), a)
    decreases |items|
  {
    if items != [] {
      CaseValuesKeep(k, caseId, data, items[..|items| - 1], acc, c, a);
      var aiId, rec := items[|items| - 1].0, items[|items| - 1].1;
      SetPairKeeps(CaseValues(k, caseId, data, items[..|items| - 1], acc).value, caseId, aiId,
                   PairValue(k, data, rec).value, c, a);
    }
  }

  lemma {:induction false} CaseValuesCover(k: MetricKind, caseId: string, data: Json, items: Dict<string, StepRecord>,
                                           acc: Values, a: string)
    requires CaseValues(k, caseId, data, items, acc).Ok? && HasKey(items, a)
    ensures HasKey(GetOr(CaseValues(k, caseId, data, items, acc).value, caseId, []), a)
    decreases |items|
  {
    var prefix := items[..|items| - 1];
    var aiId, rec := items[|items| - 1].0, items[|items| - 1].1;
    var before := CaseValues(k, caseId, data, prefix, acc).value;
    var v := PairValue(k, data, rec).value;
    if aiId == a {
      assert Get(SetPair(before, caseId, aiId, v), caseId) == Some(Put(GetOr(before, caseId, []), aiId, v));
    } else {
      HasKeySnoc(items, a);
      CaseValuesCover(k, caseId, data, prefix, acc, a);
      SetPairKeeps(before, caseId, aiId, v, caseId, a);
    }
  }

  /** Every (case, AI) answer of the session has a value once `calculate` succeeds. */
  lemma {:induction false} CalculatedCovers(k: MetricKind, responses: seq<CaseEntry>, cases: map<string, Json>,
                                            i: nat, a: string)
    requires CalculatedValues(k, responses, cases).Ok?
    requires i < |responses| && HasKey(responses[i].responses, a)
    ensures HasKey(GetOr(CalculatedValues(k, responses, cases).value, responses[i].caseId, []), a)
    decreases |responses|
  {
    var prefix := responses[..|responses| - 1];
    var last := responses[|responses| - 1];
    var data := CaseData(k, last.caseId, cases).value;
    var before := CalculatedValues(k, prefix, cases).value;
    if i == |responses| - 1 {
      CaseValuesCover(k, last.caseId, data, last.responses, before, a);
    } else {
      assert prefix[i] == responses[i];
      CalculatedCovers(k, prefix, cases, i, a);
      CaseValuesKeep(k, last.caseId, data, last.responses, before, responses[i].caseId, a);
    }
  }

  /** The aggregate of any metric `calculate` yields is a proportion for every AI. */
  lemma MetricIsProportion(k: MetricKind, responses: seq<CaseEntry>, cases: map<string, Json>, aiId: string)
    requires CalculatedValues(k, responses, cases).Ok?
    ensures var agg := Aggregated(CalculatedValues(k, responses, cases).value);
      Get(agg, aiId).Some? ==> 0.0 <= Get(agg, aiId).value <= 1.0
  {
    CalculatedWellFormed(k, responses, cases);
    AggregatedIsProportion(CalculatedValues(k, responses, cases).value, aiId);
  }

  // ---------------------------------------------------------------- calculate_metrics

  /** One calculated and aggregated metric. */
  datatype CalculatedMetric = CalculatedMetric(id: string, name: string, values: Values, aggregatedValues: Dict<string, real>)

  /** `aggregate(calculate(result))` of one metric. */
  function MetricOf(k: MetricKind, responses: seq<CaseEntry>, cases: map<string, Json>): Result<CalculatedMetric> {
    var values :- CalculatedValues(k, responses, cases);
    Ok(CalculatedMetric(Name(k), Description(k), values, Aggregated(values)))
  }

  /** One requested id: KeyError when it is not registered, else that metric. */
  function MetricStep(registry: Dict<string, MetricKind>, id: string, responses: seq<CaseEntry>,
                      cases: map<string, Json>): Result<CalculatedMetric>
  {
    match Get(registry, id)
    case None => Err(KeyError)
    case Some(k) => MetricOf(k, responses, cases)
  }

  /** `calculate_metrics` over the requested ids, against the registry of metrics. */
  function MetricsOf(registry: Dict<string, MetricKind>, metricIds: seq<string>, responses: seq<CaseEntry>,
                     cases: map<string, Json>): Result<seq<CalculatedMetric>>
    decreases |metricIds|
  {
    if metricIds == [] then Ok([])
    else
      var before :- MetricsOf(registry, metricIds[..|metricIds| - 1], responses, cases);
      var m :- MetricStep(registry, metricIds[|metricIds| - 1], responses, cases);
      Ok(before + [m])
  }

  /** The ids `calculate_metrics` goes through: the requested ones, or by default every registered one. */
  function RequestedIds(registry: Dict<string, MetricKind>, metricIds: Option<seq<string>>): seq<string> {
    if metricIds.Some? then metricIds.value else Keys(registry)
  }

  /**
   * String order as `sort` compares the names: the first differing
   * character decides, and a proper prefix comes first. The names hold no
   * digits, so their natural keys compare the same way.
   */
  predicate Before(a: string, b: string) {
    if a == [] then b != []
    else if b == [] then false
    else if a[0] != b[0] then a[0] < b[0]
    else Before(a[1..], b[1..])
  }

  /**
   * The metric registry: the modelled subclasses of `Metric` that count
   * themselves as metrics, under their names, sorted by name. The base
   * class answers False to `include_as_metric` and is not registered.
   */
  const SUPPORTED_METRICS: Dict<string, MetricKind> := [
    (Name(CasesWithAIResult), CasesWithAIResult),
    (Name(SoftTriageSimilarity), SoftTriageSimilarity),
    (Name(TriageMatch), TriageMatch),
    (Name(TriageSimilarity), TriageSimilarity)
  ]

  /**
   * Each registered entry is a class under its own name, a class's name is
   * registered exactly when the class counts itself as a metric, and no
   * name is registered twice.
   */
  lemma SupportedMetricsListed()
    ensures forall i :: 0 <= i < |SUPPORTED_METRICS| ==> SUPPORTED_METRICS[i].0 == Name(SUPPORTED_METRICS[i].1)
    ensures forall k: MetricKind :: HasKey(SUPPORTED_METRICS, Name(k)) <==> IncludeAsMetric(k)
    ensures DistinctKeys(SUPPORTED_METRICS)
  {
    forall k: MetricKind | IncludeAsMetric(k)
      ensures HasKey(SUPPORTED_METRICS, Name(k))
    {
      var i := match k
        case CasesWithAIResult => 0
        case SoftTriageSimilarity => 1
        case TriageMatch => 2
        case TriageSimilarity => 3
        case TriageSimilarityBase => 0;
      assert Keys(SUPPORTED_METRICS)[i] == Name(k);
    }
    forall i | 0 <= i < |SUPPORTED_METRICS|
      ensures Keys(SUPPORTED_METRICS)[i] != Name(TriageSimilarityBase)
    {
      NamesDistinct(SUPPORTED_METRICS[i].1, TriageSimilarityBase);
    }
    forall i, j | 0 <= i < j < |SUPPORTED_METRICS|
      ensures SUPPORTED_METRICS[i].0 != SUPPORTED_METRICS[j].0
    {
      NamesDistinct(SUPPORTED_METRICS[i].1, SUPPORTED_METRICS[j].1);
    }
  }

  /** Different classes have different names. */
  lemma NamesDistinct(j: MetricKind, k: MetricKind)
    requires j != k
    ensures Name(j) != Name(k)
  {
    if |Name(j)| == |Name(k)| {
      assert Name(j)[0] != Name(k)[0];
    }
  }

  /** The registry is sorted: each registered name comes before the next. */
  lemma RegistryOrdered()
    ensures forall i :: 0 < i < |SUPPORTED_METRICS| ==> Before(SUPPORTED_METRICS[i - 1].0, SUPPORTED_METRICS[i].0)
  {
    forall i | 0 < i < |SUPPORTED_METRICS|
      ensures Before(SUPPORTED_METRICS[i - 1].0, SUPPORTED_METRICS[i].0)
    {
      NamesOrdered(SUPPORTED_METRICS[i - 1].1, SUPPORTED_METRICS[i].1);
    }
  }

  /** The registered class names in registry order, each before the next. */
  lemma NamesOrdered(j: MetricKind, k: MetricKind)
    requires (j, k) in {(CasesWithAIResult, SoftTriageSimilarity), (SoftTriageSimilarity, TriageMatch),
                         (TriageMatch, TriageSimilarity)}
    ensures Before(Name(j), Name(k))
  {
    match j
    case CasesWithAIResult => DifferAt(Name(j), Name(k), 0);
    case SoftTriageSimilarity => DifferAt(Name(j), Name(k), 0);
    case TriageMatch => DifferAt(Name(j), Name(k), 7);
  }

  /** Strings that agree up to position `n` and differ there are ordered by that character. */
  lemma {:induction false} DifferAt(a: string, b: string, n: nat)
    requires n < |a| && n < |b| && a[..n] == b[..n] && a[n] < b[n]
    ensures Before(a, b)
  {
    if n > 0 {
      assert a[1..][..n - 1] == b[1..][..n - 1];
      DifferAt(a[1..], b[1..], n - 1);
    }
  }

  /** `calculate_metrics`: one aggregated metric per requested id, in order; the default is every registered id. */
  method CalculateMetrics(registry: Dict<string, MetricKind>, metricIds: Option<seq<string>>, responses: seq<CaseEntry>,
                          cases: map<string, Json>)
    returns (r: Result<seq<CalculatedMetric>>)
    ensures r == MetricsOf(registry, RequestedIds(registry, metricIds), responses, cases)
  {
    var ids := RequestedIds(registry, metricIds);
    var calculated: seq<CalculatedMetric> := [];
    for i := 0 to |ids|
      invariant MetricsOf(registry, ids[..i], responses, cases) == Ok(calculated)
    {
      MetricsStep(registry, ids, responses, cases, i);
      var m := CalculateOne(registry, ids[i], responses, cases);
      if m.Err? {
        MetricsErrorStands(registry, ids, responses, cases, i + 1);
        return Err(m.error);
      }
      calculated := calculated + [m.value];
    }
    assert ids[..|ids|] == ids;
    return Ok(calculated);
  }

  /** One turn of `calculate_metrics`: look the metric up, calculate, aggregate. */
  method CalculateOne(registry: Dict<string, MetricKind>, id: string, responses: seq<CaseEntry>,
                      cases: map<string, Json>) returns (r: Result<CalculatedMetric>)
    ensures r == MetricStep(registry, id, responses, cases)
  {
    var k := Get(registry, id);
    if k.None? {
      return Err(KeyError);
    }
    var values := Calculate(k.value, responses, cases);
    if values.Err? {
      return Err(values.error);
    }
    var aggregatedValues := Aggregate(values.value);
    return Ok(CalculatedMetric(Name(k.value), Description(k.value), values.value, aggregatedValues));
  }

  lemma MetricsStep(registry: Dict<string, MetricKind>, ids: seq<string>, responses: seq<CaseEntry>,
                    cases: map<string, Json>, i: nat)
    requires i < |ids| && MetricsOf(registry, ids[..i], responses, cases).Ok?
    ensures var m := MetricStep(registry, ids[i], responses, cases);
      MetricsOf(registry, ids[..i + 1], responses, cases)
      == if m.Err? then Err(m.error) else Ok(MetricsOf(registry, ids[..i], responses, cases).value + [m.value])
  {
    assert ids[..i + 1][..i] == ids[..i];
  }

  lemma {:induction false} MetricsErrorStands(registry: Dict<string, MetricKind>, ids: seq<string>,
                                              responses: seq<CaseEntry>, cases: map<string, Json>, i: nat)
    requires i <= |ids| && MetricsOf(registry, ids[..i], responses, cases).Err?
    ensures MetricsOf(registry, ids, responses, cases) == MetricsOf(registry, ids[..i], responses, cases)
    decreases |ids| - i
  {
    if i < |ids| {
      assert ids[..i + 1][..i] == ids[..i];
      MetricsErrorStands(registry, ids, responses, cases, i + 1);
    } else {
      assert ids[..i] == ids;
    }
  }

  /** On success, the metric at position `j` is the one registered under the `j`-th requested id. */
  lemma {:induction false} MetricAt(registry: Dict<string, MetricKind>, ids: seq<string>,
                                    responses: seq<CaseEntry>, cases: map<string, Json>, j: nat)
    requires j < |ids| && MetricsOf(registry, ids, responses, cases).Ok?
    ensures var r := MetricsOf(registry, ids, responses, cases).value;
      && |r| == |ids| && HasKey(registry, ids[j])
      && Ok(r[j]) == MetricOf(Get(registry, ids[j]).value, responses, cases)
    decreases |ids|
  {
    var prefix := ids[..|ids| - 1];
    var before := MetricsOf(registry, prefix, responses, cases);
    var m := MetricStep(registry, ids[|ids| - 1], responses, cases);
    assert before.Ok? && m.Ok?;
    if j < |prefix| {
      MetricAt(registry, prefix, responses, cases, j);
      assert prefix[j] == ids[j];
    } else {
      assert |prefix| > 0 ==> |before.value| == |prefix| by {
        if |prefix| > 0 { MetricAt(registry, prefix, responses, cases, 0); }
      }
    }
  }

  /**
   * On success there is one metric per requested id, in order, each the
   * aggregate of that registered metric's calculation.
   */
  lemma MetricsOneEach(registry: Dict<string, MetricKind>, ids: seq<string>,
                       responses: seq<CaseEntry>, cases: map<string, Json>)
    requires MetricsOf(registry, ids, responses, cases).Ok?
    ensures var r := MetricsOf(registry, ids, responses, cases).value;
      && |r| == |ids|
      && forall i :: 0 <= i < |ids| ==> HasKey(registry, ids[i]) && Ok(r[i]) == MetricOf(Get(registry, ids[i]).value, responses, cases)
  {
    if ids != [] {
      forall i | 0 <= i < |ids|
        ensures HasKey(registry, ids[i])
        ensures Ok(MetricsOf(registry, ids, responses, cases).value[i]) == MetricOf(Get(registry, ids[i]).value, responses, cases)
      {
        MetricAt(registry, ids, responses, cases, i);
      }
      MetricAt(registry, ids, responses, cases, 0);
    }
  }

  /** A requested id that is not registered makes `calculate_metrics` raise. */
  lemma {:induction false} MetricsUnknownRaises(registry: Dict<string, MetricKind>, ids: seq<string>,
                                                responses: seq<CaseEntry>, cases: map<string, Json>, j: nat)
    requires j < |ids| && !HasKey(registry, ids[j])
    ensures MetricsOf(registry, ids, responses, cases).Err?
    decreases |ids|
  {
    var prefix := ids[..|ids| - 1];
    if j < |prefix| {
      assert prefix[j] == ids[j];
      MetricsUnknownRaises(registry, prefix, responses, cases, j);
    }
  }
}
