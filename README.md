# MMVB back end: a Dafny model

This project is a Dafny model of the decision logic in the FG-AI4H Topic Group
"Symptom Assessment" MMVB back end. The back end benchmarks AI symptom checkers
against sets of synthetic or doctor-written medical cases and scores their triage
and differential-diagnosis answers. The model covers these parts:

- **Benchmark engine** (`evaluator/benchmark/` and `evaluator/api.py`):
  - `Runner` (runner.dfy) models one runner process. It covers the health-check
    retry counter, how a health check or a solve-case attempt becomes a result
    record, and the command loop. The loop is a transducer from the commands on
    the runner's pipe to the tagged messages it puts on the result queue.
  - `Manager` (manager.dfy) models the benchmark manager, a class. For each case
    it runs a two-phase protocol: health-check every runner and wait for one
    SENTINEL per runner, then send the case to the healthy runners only. It then
    cleans up on every exit path. The shared result queue is an input sequence of
    tagged messages, and the deadline is an oracle.
  - `Reporter` (reporter.dfy) models the report store. Manager reports and AI
    reports are maps keyed by their primary keys.
  - `EvaluatorApi` (evaluator_api.dfy) and `EvaluatorWorker` (evaluator_worker.dfy)
    model the front end: case-set id validation and listing, the cap on running
    benchmarks, the registry of workers, and the worker's command loop with its
    "GetUpdate" grouping.
  - `BenchmarkProtocol` holds the shared vocabulary of the engine.
- **Benchmarking sessions of the Django back end**: `BenchmarkingSessions`
  (session_tasks.dfy) models the per-case, per-AI status table, the
  classification of each AI's HTTP answer, and the stripping of stored answer
  values.
- **Metrics**:
  - `Metrics` (session_metrics.dfy) and `MetricValues` (metric_values.dfy) cover
    triage similarity (hard and soft), triage match and cases-with-result, their
    per-AI mean, and `calculate_metrics`.
  - `OldMetricCalculator` and `MetricCalculator` model the two stand-alone
    calculator services: recall@N, triage match and triage similarity.
- **Case synthesis**:
  - `SymptomSampling` models `sample_symptoms` and `combine_symptom_and_state`.
    Both generators hold identical copies of these, so they are modelled once.
  - `CaseGeneration` models the Django generator and `OldCaseGenerator` the
    earlier one.
  - `CaseValidators` models the quantity range validators.
  - All random draws are parameters.
- **Toy AIs**:
  - `ToyAIs` (toy_ais.dfy) models the deterministic and random toy solvers, the
    Babylon participant, and the `solve_case` dispatch.
  - `drop_all_but_keys`, `extract_biological_sex` and
    `sort_array_by_another_array` have three copies: toy_ai/api.py:17-40,
    participants/babylon_toy_ai/api.py:22-46 and
    mmvb_backend/toy_ais/implementations/utils.py:21-44. They differ only in
    layout, and in the last copy testing the sex against its `GENDERS` list,
    which holds the same two values. Each is modelled once. Its rows cite the
    toy_ai/api.py copy, except `StableSort.ItemsOfMultiset`, which cites the
    third.
  - `solve_case_random_conditions` has two copies: toy_ai/api.py:43-72 and
    mmvb_backend/toy_ais/implementations/utils.py:47-76. They differ only in
    the name of the fixture data (`DATA` or `FIXTURES_DATA`), which is a
    parameter of the model. It is modelled once and its rows cite the first.
  - `StableSort` (sorting.dfy) models the stable sort by key.
  - `ToyAIsView` models the routing of the toy AI endpoint.
- **Data converters**:
  - `ConvertCsv` models the spreadsheet-to-fixture converter.
  - `LondonTransform` models the grouping of doctor-case rows.
  - `CreateSchemas` models the JSON-schema builder that updates a nested
    definitions dictionary.
- **Serializers and utilities**:
  - `Serializers` models the many-to-many membership updates of cases and case
    sets.
  - `CommonUtils` models `is_true`, the timeout adapter and the error shape of
    `perform_request`.

`Wrappers`, `Dicts`, `JsonValues` and `Text` are shared support modules:
- Python exceptions become `Result` values.
- Python dicts become insertion-ordered association lists, because several
  modelled loops depend on dict order.
- JSON values are a datatype.
- Python's `str`/`int` conversions are written out.

The model treats HTTP responses, random draws, clocks, hash digests and
generated ids as parameters. Similarities and probabilities are `real`.

Where the code has a defect listed under "## Findings", the model keeps both
versions. A member marked "as written" follows the code; the rest of the model
follows the corrected behaviour, and the "states" column marks those members
"corrected".

## Model

| member | source | states |
|---|---|---|
| CommonUtils.IsTrueStrings | mmvb_backend/common/utils.py:44-45 | a string flag is true exactly when it is "1", or "true" or "yes" in any mix of cases; nothing is trimmed, so padded text is false |
| CommonUtils.IsTrueExamples | mmvb_backend/common/utils.py:44-45 | "TRUE", "Yes" and "1" are true; " true", "y", "on" and "" are false |
| CommonUtils.IsTrueOtherValues | mmvb_backend/common/utils.py:44-45 | through `str()`, a boolean is its own flag, an integer is true only when it is 1, and None is false |
| CommonUtils.PoppedTimeout | mmvb_backend/common/utils.py:21 | the popped timeout is the caller's when given, else the default, and the remaining keywords lack "timeout" and keep every other key |
| CommonUtils.TimeoutHTTPAdapter.constructor | mmvb_backend/common/utils.py:20-22 | the adapter stores the given or default timeout and passes the other keywords to its base |
| CommonUtils.TimeoutHTTPAdapter.Send | mmvb_backend/common/utils.py:24-27 | the forwarded keywords are the corrected fill of the stored timeout (see Findings) |
| CommonUtils.SessionTimeoutIgnored | mmvb_backend/common/utils.py:24-27 | as written, a GET through a session keeps the session's `timeout=None`, so the adapter's timeout never applies |
| CommonUtils.FilledTimeout | mmvb_backend/common/utils.py:24-27 | corrected fill: a caller's timeout is kept, a missing or None one becomes the stored one, other keys are unchanged, and filling is idempotent |
| CommonUtils.SessionTimeoutApplied | mmvb_backend/common/utils.py:24-27 | with the corrected fill, a session GET uses the adapter's timeout |
| CommonUtils.PerformRequest | mmvb_backend/common/utils.py:52-65 | as written: the GET goes out with the session's keywords unchanged (timeout None), whatever the adapter's default; the response when it answers, otherwise a dict whose "detail" is the error prefix followed by the exception text |
| CommonUtils.ErrorDetailShape | mmvb_backend/common/utils.py:59-64 | a failed request's result is a one-key dict whose "detail" starts with "Error trying to perform request" and ends with the exception text |
| CommonUtils.PerformRequestIgnoresTimeout | mmvb_backend/common/utils.py:24-27 | as written, the outcome of `perform_request` is the same for every default timeout |
| CaseValidators.QuantityRange | mmvb_backend/case_synthesizer/validators.py:9-20 | a conversion error from `int()` propagates; otherwise the value passes exactly when lower <= int(value) <= upper, else ValidationError |
| CaseValidators.CasesQuantityRange | mmvb_backend/case_synthesizer/validators.py:3-4 | a whole number of cases passes exactly when it is in 1..10000 |
| CaseValidators.CaseSetsQuantityRange | mmvb_backend/case_synthesizer/validators.py:5-6 | a whole number of case sets passes exactly when it is in 1..10 |
| CaseValidators.ConvertedBeforeCompared | mmvb_backend/case_synthesizer/validators.py:13-14 | conversion comes before the comparison: 10.5 truncates and passes, 0.5 fails validation, "7" passes, "seven" raises ValueError |
| ToyAIsView.OperationNames | mmvb_backend/toy_ais/views.py:10-13 | the operations are "health-check" and "solve-case", in that order, mapped to `health_check` and `solve_case`; no other key is present |
| ToyAIsView.ViewGetBadOperation | mmvb_backend/toy_ais/views.py:40-46 | an unknown or missing operation answers 400, naming the operation and listing "health-check, solve-case" |
| ToyAIsView.ViewGetBadSlug | mmvb_backend/toy_ais/views.py:24-39 | with a valid operation, a missing, empty or unregistered slug answers 400 and lists the registered slugs |
| ToyAIsView.ViewGetCalls | mmvb_backend/toy_ais/views.py:26-32 | with a valid operation and slug, the view calls the AI's `health_check` or `solve_case`, answers 200 with its result, and lets an exception through |
| ToyAIsView.ViewGetStatus | mmvb_backend/toy_ais/views.py:18-48 | the view answers 200 exactly when the operation and slug are valid and the call succeeds |
| OldCaseGenerator.CaseIdShape | old_backend/case_generator/api.py:62 | the case id is "case_mmvb_0_0_1_a_" followed by the decimal digits of the drawn integer, which lies in 0..10^8 |
| OldCaseGenerator.CaseOutput | old_backend/case_generator/api.py:107-125 | the output holds the case data under "caseData" and the values to predict under "valuesToPredict" |
| OldCaseGenerator.GeneratedCaseShape | old_backend/case_generator/api.py:60-127 | a generated case has the drawn id, an age in 18..80, a sex of male or female, a present presenting complaint, and predicts the triage level, id and name of a fixture condition |
| OldCaseGenerator.NoProbabilitiesFailsAssertion | old_backend/case_generator/api.py:78-86 | a sampled condition with no symptom probabilities fails the generator's assertion |
| SymptomSampling.Latent | mmvb_backend/case_synthesizer/generator.py:21-26 | one latent state per symptom, in dictionary order: "present" exactly when that symptom's draw is below its probability, else "absent" |
| SymptomSampling.Observed | mmvb_backend/case_synthesizer/generator.py:29-31 | each state is unset exactly when its own draw is below 0.8, else it is kept |
| SymptomSampling.SetCount | mmvb_backend/case_synthesizer/generator.py:34-38 | the number of draws the third pass has taken is at most the number of states |
| SymptomSampling.Unsure | mmvb_backend/case_synthesizer/generator.py:34-38 | unset states stay unset and take no draw; a set state becomes "unsure" when the next unused draw is below 0.1, else it is kept |
| SymptomSampling.ArgMax | mmvb_backend/case_synthesizer/generator.py:42 | `max(..., key=get)` picks a symptom of highest probability, and the first such one in dictionary order |
| SymptomSampling.Fallback | mmvb_backend/case_synthesizer/generator.py:41-43 | states with a present one are unchanged; otherwise the most probable symptom is forced present; `max` over no symptoms raises ValueError |
| SymptomSampling.Kept | mmvb_backend/case_synthesizer/generator.py:45-47 | the result holds exactly the symptoms whose state is set, each with that state |
| SymptomSampling.Drawn | mmvb_backend/case_synthesizer/generator.py:20-38 | the three passes keep one state per symptom, drawing n, n and then one per set state |
| SymptomSampling.SampleSymptoms | mmvb_backend/case_synthesizer/generator.py:19-47 | the three loops, the fallback and the filter give the specified sampling result, including its ValueError |
| SymptomSampling.LatentPass | mmvb_backend/case_synthesizer/generator.py:21-26 | the first loop computes the latent states |
| SymptomSampling.ObservePass | mmvb_backend/case_synthesizer/generator.py:29-31 | the second loop computes the observed states |
| SymptomSampling.UnsurePass | mmvb_backend/case_synthesizer/generator.py:34-38 | the third loop, which skips unset states without drawing, computes the unsure pass |
| SymptomSampling.UnsureOnlyTouchesSet | mmvb_backend/case_synthesizer/generator.py:34-38 | the unsure pass never sets or unsets a state, and the only change it makes is to "unsure" |
| SymptomSampling.DrawnStates | mmvb_backend/case_synthesizer/generator.py:23-38 | every state after the passes is present, absent, unsure or unset |
| SymptomSampling.SampleHasPresent | mmvb_backend/case_synthesizer/generator.py:41-47 | for every non-empty probability dictionary and all draws, the sampling succeeds and its result has a present symptom |
| SymptomSampling.SampleEntries | mmvb_backend/case_synthesizer/generator.py:45-47 | every result key is an input symptom, and every state is present, absent or unsure |
| SymptomSampling.FallbackPicksMostProbable | mmvb_backend/case_synthesizer/generator.py:41-43 | without a drawn present state, the most probable symptom becomes present, and it is the only present one |
| SymptomSampling.SampleOfNothingRaises | mmvb_backend/case_synthesizer/generator.py:42 | an empty probability dictionary makes `max` raise ValueError |
| SymptomSampling.CombineSymptomAndState | mmvb_backend/case_synthesizer/generator.py:50-52 | the merged dict has "state" set to the given value, every other field unchanged, and key order kept, with "state" appended when it is new; a non-dict raises TypeError |
| CaseGeneration.Age | mmvb_backend/case_synthesizer/generator.py:60 | the age lies in 18..80 |
| CaseGeneration.Sex | mmvb_backend/case_synthesizer/generator.py:61 | the sex is male or female |
| CaseGeneration.Weights | mmvb_backend/case_synthesizer/generator.py:67-70 | succeeds exactly when every condition has a probability for the sex; weight i is condition i's `probability[sex]` |
| CaseGeneration.SampledCondition | mmvb_backend/case_synthesizer/generator.py:72-74 | the drawn condition is one of the conditions; an empty list raises IndexError |
| CaseGeneration.LinkedSnoc | mmvb_backend/case_synthesizer/generator.py:76-82 | a symptom is linked to a condition by the rows exactly when it is linked by the earlier rows or by the last one |
| CaseGeneration.SymptomProbabilitiesKeys | mmvb_backend/case_synthesizer/generator.py:76-82 | the probability dict holds each symptom linked to the condition exactly once, and no other symptom |
| CaseGeneration.SymptomProbabilitiesLast | mmvb_backend/case_synthesizer/generator.py:76-82 | a linked symptom's probability is the one on the last row linking it to the condition (later rows overwrite earlier ones) |
| CaseGeneration.SymptomsWithStates | mmvb_backend/case_synthesizer/generator.py:96-102 | succeeds exactly when every fixture symptom has an "id" |
| CaseGeneration.StatedIndicesSound | mmvb_backend/case_synthesizer/generator.py:99-101 | every listed position is a fixture symptom whose id has a sampled state |
| CaseGeneration.StatedIndicesComplete | mmvb_backend/case_synthesizer/generator.py:99-101 | every fixture symptom whose id has a sampled state is listed |
| CaseGeneration.StatedIndicesIncreasing | mmvb_backend/case_synthesizer/generator.py:99-101 | the listed positions are in fixture order, each once |
| CaseGeneration.SymptomsWithStatesExact | mmvb_backend/case_synthesizer/generator.py:96-102 | the result is exactly the fixture symptoms with a sampled state, in fixture order, each combined with its own state |
| CaseGeneration.SymptomsWithStatesStated | mmvb_backend/case_synthesizer/generator.py:96-102 | every kept symptom carries a state the sampling gave |
| CaseGeneration.FirstPresent | mmvb_backend/case_synthesizer/generator.py:106-110 | the index is that of the first present symptom; None means no symptom is present |
| CaseGeneration.SplitPresenting | mmvb_backend/case_synthesizer/generator.py:104-111 | the presenting complaint is the first present symptom, the others are the rest in order, and with no present symptom the pop raises IndexError |
| CaseGeneration.SplitOthers | mmvb_backend/case_synthesizer/generator.py:105-111 | every other feature was one of the symptoms before the split |
| CaseGeneration.ValuesToPredict | mmvb_backend/case_synthesizer/generator.py:125-133 | the values to predict are the sampled condition's triage level, id and name, and a missing key raises |
| CaseGeneration.SampledCaseShape | mmvb_backend/case_synthesizer/generator.py:66-111 | for all draws, a sampled case's condition is a fixture condition, its presenting complaint is present, and every other feature is an object carrying a "state" |
| CaseGeneration.NoLinksRaises | mmvb_backend/case_synthesizer/generator.py:76-87 | with no condition-symptom rows the sampled condition's id is never read, so the generator's own error is raised even for a condition without an id |
| CaseGeneration.MissingIdRaises | mmvb_backend/case_synthesizer/generator.py:76-82 | with at least one row, a sampled condition without an id raises the error of reading it (KeyError, or TypeError for a non-object) |
| CaseGeneration.NoProbabilitiesRaises | mmvb_backend/case_synthesizer/generator.py:84-87 | a condition with no linked symptom raises the generator's error (SynthesisError here) |
| CaseGeneration.GeneratedCases | mmvb_backend/case_synthesizer/generator.py:58-136 | on success the run holds one case per number, in order, each the case that number makes |
| CaseGeneration.Ids | mmvb_backend/case_synthesizer/generator.py:140 | the sort keys are the cases' ids, position by position |
| CaseGeneration.GenerateCases | mmvb_backend/case_synthesizer/generator.py:55-140 | the first failing case's error is raised; otherwise the `quantity` cases (none below one) are returned sorted by id |
| CaseGeneration.MakeCases | mmvb_backend/case_synthesizer/generator.py:58-136 | the loop yields the specified run of cases, stopping at the first error |
| CaseGeneration.GeneratedStep | mmvb_backend/case_synthesizer/generator.py:58-136 | one more iteration either raises its case's error or appends its case |
| CaseGeneration.GeneratedCasesFail | mmvb_backend/case_synthesizer/generator.py:58-136 | a failure at one iteration is the failure of every longer run |
| CaseGeneration.GeneratedSortedById | mmvb_backend/case_synthesizer/generator.py:140 | the returned list is a permutation of the generated cases, in ascending id order |
| CaseGeneration.IdsAscending | mmvb_backend/case_synthesizer/generator.py:140 | cases sorted ascending by their id keys are in ascending id order |
| StableSort.Zip | toy_ai/api.py:38 | `zip` pairs keys with values position by position and stops at the shorter list |
| StableSort.Insert | toy_ai/api.py:37-39 | inserting an element later than all others into a sorted list keeps it sorted and adds exactly that element |
| StableSort.Sort | toy_ai/api.py:37-39 | the sorted list is ordered by key in the chosen direction, equal keys in their original order, and is a permutation of the input |
| StableSort.SortTwo | toy_ai/api.py:37-39 | two pairs come out in key order, and in their original order when the keys tie |
| StableSort.SortArrayByAnotherArraySpec | toy_ai/api.py:34-40 | `sort_array_by_another_array` returns the zipped values permuted into key order, ascending or descending, stable on equal keys |
| StableSort.ItemsOfMultiset | mmvb_backend/toy_ais/implementations/utils.py:36-44 | dropping the keys of a permutation of the pairs leaves a permutation of the values |
| ToyAIs.Take | toy_ai/api.py:87 | `s[:n]` keeps the first n elements, or all of a shorter list |
| ToyAIs.Projected | toy_ai/api.py:17-21 | `drop_all_but_keys` succeeds exactly when every listed key is present; a missing key raises KeyError, and a value that is not a dict raises TypeError |
| ToyAIs.ProjectionKeys | toy_ai/api.py:17-21 | the projection holds exactly the listed keys, each once |
| ToyAIs.ProjectionOrder | toy_ai/api.py:17-21 | with distinct keys, the projection lists them in the order given |
| ToyAIs.ProjectedValues | toy_ai/api.py:20 | each listed key keeps the original value |
| ToyAIs.ProjectedOk | toy_ai/api.py:17-21 | a dict holding every listed key projects without error |
| ToyAIs.ProjectedAgrees | toy_ai/api.py:17-21 | the projection reads only the listed keys: dicts that agree on them project alike |
| ToyAIs.DropAllButKeys | toy_ai/api.py:17-21 | the loop computes the projection, including its KeyError and TypeError |
| ToyAIs.BiologicalSex | toy_ai/api.py:27-30 | the sex is returned exactly when it is "male" or "female"; any other value fails the assertion |
| ToyAIs.Selected | toy_ai/api.py:97-101 | one element contributes its id exactly when its state is the reported one, and fails when it cannot be read |
| ToyAIs.ReportedIds | toy_ai/api.py:97-101 | the comprehension holds exactly the ids of elements in the reported state, and fails when any element cannot be read |
| ToyAIs.Complaints | toy_ai/api.py:97-107 | every id in the complaint set is hashable: a set is only built from ids that are neither lists nor objects |
| ToyAIs.ComplaintsHashable | toy_ai/api.py:97-107 | once both complaint lists are read, the set is built exactly when every reported id is hashable, and otherwise `set()` raises TypeError |
| ToyAIs.ComplaintsReported | toy_ai/api.py:97-107 | an id is a complaint exactly when a presenting or other complaint reports it as "true" ("present" for the Babylon variant) |
| ToyAIs.Related | toy_ai/api.py:118-120 | the number of related symptoms is at most the number of links |
| ToyAIs.Matched | toy_ai/api.py:118-122 | the number of matched symptoms is at most the number of related ones |
| ToyAIs.MatchedAllExactly | toy_ai/api.py:118-122 | every related link is matched exactly when all the condition's linked symptoms were reported |
| ToyAIs.MatchedGrows | toy_ai/api.py:118-122 | reporting more symptoms never lowers the number matched |
| ToyAIs.Share | toy_ai/api.py:116-123 | the score lies between 0 and 1; a condition with no linked symptom divides by zero (ZeroDivisionError) |
| ToyAIs.FullShareIffAllReported | toy_ai/api.py:116-123 | a condition scores 1 exactly when it has links and all its linked symptoms were reported |
| ToyAIs.ShareGrowsWithComplaints | toy_ai/api.py:116-123 | reporting more symptoms never lowers a condition's score |
| ToyAIs.ScoreCondition | toy_ai/api.py:116-124 | the nested loop computes the score of the condition |
| ToyAIs.SexProbability | toy_ai/api.py:49 | a readable probability means the condition has a "probability" dict with an entry for the sex |
| ToyAIs.Eligible | toy_ai/api.py:48-49 | the eligible conditions are exactly the fixture conditions with positive probability for the sex, in fixture order |
| ToyAIs.ScoreOf | toy_ai/api.py:51 | the probability solvers score a condition by its probability for the sex |
| ToyAIs.CollectStep | toy_ai/api.py:48-51 | a condition without positive probability leaves the lists unchanged; an eligible one appends its projection and its score |
| ToyAIs.CollectedFails | toy_ai/api.py:48-51 | once a prefix of the conditions raises, the whole loop raises the same error |
| ToyAIs.CollectedEligible | toy_ai/api.py:48-51 | on success every probability was readable, and exactly one entry and one score were kept per eligible condition |
| ToyAIs.CollectedAt | toy_ai/api.py:48-51 | the i-th kept entry and score are the projection and score of the i-th eligible condition |
| ToyAIs.CollectCandidates | toy_ai/api.py:48-51 | the solvers' loop over the fixture conditions computes the collected entries and scores |
| ToyAIs.CollectOne | toy_ai/api.py:49-51 | one turn of the loop computes the collect step |
| ToyAIs.RankingDescribes | toy_ai/api.py:85 | every ranked entry is the projection of an eligible condition, with that condition's score as key |
| ToyAIs.RankedEligible | toy_ai/api.py:85 | the ranking is ordered by score in the chosen direction, stable on ties, and describes the eligible conditions |
| ToyAIs.AsJson | toy_ai/api.py:91 | each listed condition is the projected dict as a JSON object, position by position |
| ToyAIs.ByProbabilityListed | toy_ai/api.py:85-87 | the first three of the ranking, listed, are the ranked eligible conditions reduced to id and name |
| ToyAIs.RankedListed | toy_ai/api.py:87 | the leading entries of a probability ranking are the ranked conditions reduced to id and name |
| ToyAIs.MostLikelyConditionsRanked | toy_ai/api.py:75-91 | corrected: the answer has triage "PC" and lists, reduced to id and name, the first three conditions of a descending ranking of the eligible conditions |
| ToyAIs.MostLikelyAsWrittenAscending | toy_ai/api.py:75-91 | as written: the answer lists the first three of an ascending ranking, so the least likely conditions |
| ToyAIs.ProjectedAll | toy_ai/api.py:132-134 | the final projection succeeds exactly when every entry has id and name, and lists each entry reduced to them |
| ToyAIs.ReprojectIdAndName | toy_ai/api.py:113-115 | reducing to id and name a condition already kept with id, name and triage gives the condition's own id and name |
| ToyAIs.ReprojectTriage | toy_ai/api.py:113-115 | a condition kept with id, name and triage keeps its expected triage level |
| ToyAIs.RankedReduced | toy_ai/api.py:128-134 | reducing the leading entries of an intersection ranking gives the ranked conditions' ids and names |
| ToyAIs.RankedTriage | toy_ai/api.py:130 | the first entry of an intersection ranking carries the first ranked condition's triage level |
| ToyAIs.IntersectionAnswer | toy_ai/api.py:94-136 | with no eligible condition the answer raises IndexError; otherwise its triage is the top-ranked condition's and it lists the leading conditions of the descending ranking, reduced to id and name |
| ToyAIs.SolveCaseBySymptomIntersection | toy_ai/api.py:94-136 | the intersection solver with its nested loops computes the specified answer |
| ToyAIs.SolveCaseDeterministicMostLikelyConditions | toy_ai/api.py:75-91 | the solver's loop computes the answer as written: triage "PC" and the first three of the ascending ranking (MostLikelyAsWrittenAscending) |
| ToyAIs.Sample | toy_ai/api.py:65-67 | drawing without replacement gives `count` elements, a sub-multiset of the pool, and raises ValueError when more are asked for than the pool holds |
| ToyAIs.RandomAnswer | toy_ai/api.py:43-72 | a random answer has a triage among SC, PC, EC and UNCERTAIN and at most five conditions, each an eligible condition reduced to id and name |
| ToyAIs.SampledEligible | toy_ai/api.py:65-68 | whatever is drawn from the kept entries is an eligible condition reduced to id and name |
| ToyAIs.UnknownRandomisationRaises | toy_ai/api.py:53-67 | once the sex and the conditions are read, the random solver fails exactly for an unknown strategy, for more drawn conditions than are eligible, or for "probability_weighted" with no eligible condition (numpy refuses the empty weights); each failure is ValueError |
| ToyAIs.SolveCaseRandomConditions | toy_ai/api.py:43-72 | the random solver's loop computes the specified answer, including the ValueError of weighted draws over no eligible condition |
| ToyAIs.SolveCase | toy_ai/api.py:139-159 | each of the four implementation names runs its solver as written (the most-likely one ranking ascending); any other name raises ValueError; a missing request field fails |
| ToyAIs.BabylonHealthCheck | participants/babylon_toy_ai/api.py:93-99 | the health check answers status OK exactly for "babylon_toy_ai"; any other name fails the assertion |
| ToyAIs.BabylonSolveCase | participants/babylon_toy_ai/api.py:102-108 | the Babylon service runs the intersection solver (state "present", "otherFeatures", up to seven conditions) for its own name only |
| ToyAIs.TwoKeptCollected | toy_ai/api.py:80-83 | two conditions with positive probability are both kept, in fixture order, with their probabilities |
| ToyAIs.TopOfTwo | toy_ai/api.py:85-87 | of two kept conditions, the likelier comes first only in the reversed ranking |
| ToyAIs.RankedTwo | toy_ai/api.py:80-87 | the probability ranking of two kept conditions, either way round |
| ToyAIs.AnswerOfRanked | toy_ai/api.py:85-91 | the solver answers "PC" with its ranking, listed as JSON objects |
| ToyAIs.MostLikelyAsWrittenListsLessLikelyFirst | toy_ai/api.py:85 | as written, of two eligible conditions the less likely one is listed first |
| ToyAIs.MostLikelyListsMoreLikelyFirst | toy_ai/api.py:85 | corrected, of two eligible conditions the more likely one is listed first |
| ConvertCsv.LikelihoodMapReads | old_backend/data/convert_csv.py:18 | the likelihood map sends "x", "xx" and "xxx" to 0.3, 0.6 and 0.9 and has no other key |
| ConvertCsv.LikelihoodCases | old_backend/data/convert_csv.py:33-41 | `map_likelihood`: an empty cell is None, "x"/"xx"/"xxx" map to 0.3/0.6/0.9, and any other cell raises ValueError |
| ConvertCsv.ConditionProbabilityCases | old_backend/data/convert_csv.py:21-30 | "x, only females" gives male 0.0 and female 0.3; any other mapped likelihood gives both sexes that value; anything else, the empty cell included, raises ValueError |
| ConvertCsv.ExpectedTriageLevelCases | old_backend/data/convert_csv.py:44-52 | SC, PC and EC are kept, "SC/PC" becomes SC, and every other value raises ValueError; a result is always a triage level |
| ConvertCsv.ConditionProbabilityShaped | old_backend/data/convert_csv.py:21-30 | every probability produced is 0.0, 0.3, 0.6 or 0.9 for each sex |
| ConvertCsv.Output | old_backend/data/convert_csv.py:112-128 | the output fails with KeyError exactly when a condition lacks a probability or a triage level; otherwise one entry per condition and per symptom with its hashed id, name, probability and triage, and the links unchanged |
| ConvertCsv.NoDuplicatesSnoc | old_backend/data/convert_csv.py:75-76 | adding a name keeps the names distinct exactly when it was not already there |
| ConvertCsv.HeaderCellsOk | old_backend/data/convert_csv.py:72-77 | the header row succeeds exactly when its names from column 2 on are new and distinct; a repeat fails the assertion |
| ConvertCsv.HeaderCellsValues | old_backend/data/convert_csv.py:72-77 | after the header row the conditions are the old ones followed by the row's names, and each column from 2 on maps to its own cell |
| ConvertCsv.HeaderStep | old_backend/data/convert_csv.py:74-77 | one more header cell adds its name and maps its column, other columns keep their mapping |
| ConvertCsv.SymptomCells | old_backend/data/convert_csv.py:93-110 | a symptom row succeeds exactly when every cell is "", "x", "xx" or "xxx" and every non-empty cell's column is mapped; it appends one link per non-empty cell, with the hashed symptom and a mapped likelihood, and changes nothing else |
| ConvertCsv.SymptomCell | old_backend/data/convert_csv.py:98-110 | one symptom cell adds a link exactly when it is non-empty, and fails on any cell that is not "" or x-marks |
| ConvertCsv.ProbabilityCellsOk | old_backend/data/convert_csv.py:78-84 | the probability row succeeds exactly when every column is mapped and every cell is a condition likelihood, and changes only the probabilities |
| ConvertCsv.ProbabilityCellsValues | old_backend/data/convert_csv.py:78-84 | each column's condition gets that cell's probability |
| ConvertCsv.ProbabilityCellsKeys | old_backend/data/convert_csv.py:78-84 | the row adds probabilities only for mapped conditions |
| ConvertCsv.ProbabilityCell | old_backend/data/convert_csv.py:80-84 | one probability cell: an unmapped column is a KeyError, otherwise its condition's probability is set |
| ConvertCsv.TriageCell | old_backend/data/convert_csv.py:87-92 | one triage cell: an unmapped column is a KeyError, otherwise its condition's triage level is set |
| ConvertCsv.TriageCellsOk | old_backend/data/convert_csv.py:86-92 | the triage row succeeds exactly when every column is mapped and every cell is a triage level, and changes only the triage table |
| ConvertCsv.TriageCellsValues | old_backend/data/convert_csv.py:86-92 | each column's condition gets that cell's triage level |
| ConvertCsv.TriageCellsKeys | old_backend/data/convert_csv.py:86-92 | the row adds triage levels only for mapped conditions |
| ConvertCsv.CellSound | old_backend/data/convert_csv.py:73-110 | one cell keeps the tables sound: distinct names, an injective column map, and only values the mappers produce |
| ConvertCsv.CellsSound | old_backend/data/convert_csv.py:73-110 | a whole row keeps the tables sound |
| ConvertCsv.CellsKeepColumns | old_backend/data/convert_csv.py:78-110 | rows after the header never change the conditions or the column map |
| ConvertCsv.RowStepSound | old_backend/data/convert_csv.py:71-110 | each row of the loop keeps the tables sound and every column mapped to a known condition |
| ConvertCsv.RowsSound | old_backend/data/convert_csv.py:71-110 | the whole loop keeps the tables sound |
| ConvertCsv.ConvertedData | old_backend/data/convert_csv.py:71-128 | a converted file has distinct condition names, distinct symptom names, triage levels among SC, PC and EC, probabilities the mapper produces, and link likelihoods among 0.3, 0.6 and 0.9 |
| ConvertCsv.CellsFail | old_backend/data/convert_csv.py:73-110 | once a cell raises, the rest of the row raises the same |
| ConvertCsv.RowsFail | old_backend/data/convert_csv.py:71-110 | once a row raises, the rest of the file raises the same |
| ConvertCsv.Conversion.constructor | old_backend/data/convert_csv.py:59-64 | the module state starts with empty sets, maps and lists |
| ConvertCsv.Conversion.ProcessCell | old_backend/data/convert_csv.py:73-110 | processing one cell updates the state as the cell function says, or reports its error |
| ConvertCsv.Conversion.ProcessCells | old_backend/data/convert_csv.py:73-110 | processing a row's cells updates the state as the row function says, or reports the first error |
| ConvertCsv.Conversion.ProcessRow | old_backend/data/convert_csv.py:71-110 | processing one row dispatches on its number and first cell as the script does |
| ConvertCsv.ConvertRows | old_backend/data/convert_csv.py:59-128 | the imperative script over all rows computes the specified conversion |
| LondonTransform.CreateConcept | data/doctor_cases/london_model/transform.py:16-17 | a known name gives its concept with the id from data.json; an unknown name raises KeyError |
| LondonTransform.CreateConceptAndState | data/doctor_cases/london_model/transform.py:20-22 | the concept with its state, for states "true", "false" and "unsure" only (AssertionError otherwise, checked before the name's KeyError) |
| LondonTransform.Recorded | data/doctor_cases/london_model/transform.py:25-28 | with no current case nothing changes; otherwise the current case, with the collected other features, is appended to the cases |
| LondonTransform.StrippedRow | data/doctor_cases/london_model/transform.py:40 | every cell is stripped, and the row keeps its length |
| LondonTransform.NewCase | data/doctor_cases/london_model/transform.py:46-80 | a new case takes its id from the number of recorded cases, age from column 3, sex from 4, complaint from 5, triage from 8 and condition from 9; a non-integer age raises ValueError, an age outside 18..99 or an unknown sex fails the assertion, a short row raises IndexError |
| LondonTransform.TriageLevels | data/doctor_cases/london_model/transform.py:11-13 | the triage mapping yields exactly SC, PC and EC, and the state mapping exactly "true", "false" and "unsure" |
| LondonTransform.Begin | data/doctor_cases/london_model/transform.py:42-80 | a row past the first with a non-empty first cell records the previous case and opens a valid new one numbered after the recorded cases; any other row changes nothing; an empty row raises IndexError |
| LondonTransform.AddFeature | data/doctor_cases/london_model/transform.py:82-83 | a row with a feature in column 6 and an open case appends that feature with its mapped state; an unknown state raises KeyError, a short row IndexError; otherwise nothing changes |
| LondonTransform.Kept | data/doctor_cases/london_model/transform.py:87-91 | the kept cases are exactly those whose spreadsheet id does not start with "CC_" |
| LondonTransform.KeptInOrder | data/doctor_cases/london_model/transform.py:87-91 | filtering two runs one after the other gives the two filtered runs one after the other, so the filter keeps the input order |
| LondonTransform.KeptOne | data/doctor_cases/london_model/transform.py:87-91 | a single case is kept exactly when its spreadsheet id does not start with "CC_" |
| LondonTransform.RecordedNumbered | data/doctor_cases/london_model/transform.py:25-28 | recording keeps every case valid and numbered by its position |
| LondonTransform.StepNumbered | data/doctor_cases/london_model/transform.py:39-83 | each row of the loop keeps every case valid and numbered by its position |
| LondonTransform.StepOpened | data/doctor_cases/london_model/transform.py:42-48 | a row opens one more case exactly when it starts one |
| LondonTransform.StepsNumbered | data/doctor_cases/london_model/transform.py:39-83 | the whole loop keeps every case valid and numbered by its position |
| LondonTransform.StepsOpened | data/doctor_cases/london_model/transform.py:39-83 | the loop opens one case per row that starts a case |
| LondonTransform.CollectedCases | data/doctor_cases/london_model/transform.py:39-85 | after the final record there is one case per starting row, the i-th with id suffix i, each valid |
| LondonTransform.TransformedCases | data/doctor_cases/london_model/transform.py:39-91 | the written cases are exactly the collected ones not dropped by the "CC_" filter, and each is valid |
| LondonTransform.Transformer.constructor | data/doctor_cases/london_model/transform.py:31-37 | the script starts with no cases, no current case and no features |
| LondonTransform.Transformer.RecordLastCase | data/doctor_cases/london_model/transform.py:25-28 | recording updates the state as the specification function says |
| LondonTransform.Transformer.BeginRow | data/doctor_cases/london_model/transform.py:42-80 | the first half of a row updates the state as specified, or reports its error |
| LondonTransform.Transformer.AddRowFeature | data/doctor_cases/london_model/transform.py:82-83 | the second half of a row updates the state as specified, or reports its error |
| LondonTransform.Transformer.ProcessRow | data/doctor_cases/london_model/transform.py:40-83 | one row strips its cells and runs both halves |
| LondonTransform.RunRows | data/doctor_cases/london_model/transform.py:33-83 | the loop over all rows computes the specified state, or the first error |
| LondonTransform.StepsNext | data/doctor_cases/london_model/transform.py:39-83 | one more row is one more step of the loop |
| LondonTransform.RunTransform | data/doctor_cases/london_model/transform.py:31-91 | the script computes the specified list of cases |
| LondonTransform.RowsFail | data/doctor_cases/london_model/transform.py:39-83 | once a row raises, the rest of the file raises the same |
| CreateSchemas.CreateConst | scripts/create_schemas.py:17-18 | a constant property holds the value as both "const" and "default", with the description |
| CreateSchemas.LookupConst | scripts/create_schemas.py:21-22 | the lookup succeeds exactly when the property exists and has a "const" (an attributes list only once pruned to the empty constant), and returns that constant; otherwise KeyError |
| CreateSchemas.LastSegmentSuffix | scripts/create_schemas.py:234 | `split('/')[-1]` is a suffix of the reference with no '/' in it |
| CreateSchemas.LastSegmentOfRef | scripts/create_schemas.py:234 | the last segment of "#/definitions/" followed by an id without '/' is that id |
| CreateSchemas.OntologyUrisCases | scripts/create_schemas.py:34-37 | an id containing "CUSTOM" has no ontology URI; any other id must parse as an integer (ValueError otherwise) and gives one SNOMED URI with that number |
| CreateSchemas.ConceptTemplateShape | scripts/create_schemas.py:31-54 | the template has the name as title, requires id, name and standardOntologyUris, holds exactly those three constants with their descriptions and the ontology URIs, and raises ValueError exactly when the id does not parse |
| CreateSchemas.AddedShape | scripts/create_schemas.py:25-28 | adding properties appends their keys to "required", in order, and adds exactly those keys to the properties |
| CreateSchemas.AddedValues | scripts/create_schemas.py:25-28 | each added key maps to its given value, and every other property is unchanged |
| CreateSchemas.AddedOne | scripts/create_schemas.py:25-28 | adding a one-entry dict is adding that property |
| CreateSchemas.AddProperties | scripts/create_schemas.py:25-28 | the loop over the dict computes the specified additions |
| CreateSchemas.FindingPropertiesAdded | scripts/create_schemas.py:109-125 | a finding gets "state" as a reference to clinicalFindingState and an empty "attributes" list, both required, and stays well formed |
| CreateSchemas.FindingDefinitionShape | scripts/create_schemas.py:100-127 | a finding definition requires id, name, standardOntologyUris, state and attributes, has the state reference and an empty attribute list, and fails exactly when its ontology id does not parse |
| CreateSchemas.AttributeRefAppended | scripts/create_schemas.py:182-184 | appending to a finding's attribute list adds the ref at the end and changes nothing else; a definition without the list raises KeyError |
| CreateSchemas.AttributeDefinitionShape | scripts/create_schemas.py:137-169 | an attribute requires its three constants and "values" (an empty list when multi-select) or "value" (an empty choice), and has no scope yet |
| CreateSchemas.RegisteredAttribute | scripts/create_schemas.py:130-193 | after registration the attribute is stored with its value property and a non-required "scope" naming the finding, and the finding's list ends with a ref to the attribute's definition |
| CreateSchemas.ValueRefAppended | scripts/create_schemas.py:265-275 | a value ref is appended to "values" when present, else to the "value" choice; the other properties do not change; neither property raises KeyError |
| CreateSchemas.RefsTo | scripts/create_schemas.py:263 | one ref per concept, titled by its name and pointing to its definition, in order |
| CreateSchemas.RefsToSnoc | scripts/create_schemas.py:263-277 | one more concept adds one more ref at the end |
| CreateSchemas.WithValueSet | scripts/create_schemas.py:243-280 | after registering a value set, "value" lists refs to exactly the attribute's values, in order |
| CreateSchemas.RegisteredConditions | scripts/create_schemas.py:77-96 | no conditions leave the definitions unchanged; otherwise "condition" lists refs to all conditions in order; a failure is ValueError from a condition whose ontology id does not parse |
| CreateSchemas.ConditionsListed | scripts/create_schemas.py:82-96 | each turn of the loop rewrites "condition", so the last one lists every condition |
| CreateSchemas.ConditionsFail | scripts/create_schemas.py:82-96 | a failing condition loop raises ValueError for an unparsable ontology id |
| CreateSchemas.Concepts | scripts/create_schemas.py:204-206 | the concept of each finding, in order |
| CreateSchemas.PrunedCases | scripts/create_schemas.py:236-240 | a finding with an empty attribute list gets the constant empty list instead; one with attributes is unchanged; a definition without the list raises KeyError |
| CreateSchemas.PrunedSettles | scripts/create_schemas.py:233-240 | after the clean-up every finding a ref leads to is settled, no definition is added or removed, and only empty lists change |
| CreateSchemas.FindingRefIds | scripts/create_schemas.py:214-219 | the last segment of each finding ref is the finding's id |
| CreateSchemas.RegisteredFindings | scripts/create_schemas.py:196-231 | "clinicalFinding" lists refs to every finding in order, and "attribute" lists every attribute ref collected |
| CreateSchemas.FindingsSettled | scripts/create_schemas.py:196-240 | after registration every finding's definition is settled |
| CreateSchemas.PrunedKeeps | scripts/create_schemas.py:233-240 | the clean-up leaves the lists of refs as they were |
| CreateSchemas.SchemaJson.constructor | scripts/create_schemas.py:287-290 | the document starts as the generic schema |
| CreateSchemas.SchemaJson.RegisterConditions | scripts/create_schemas.py:77-96 | the loop updates the definitions as specified, or reports its error |
| CreateSchemas.SchemaJson.RegisterClinicalFinding | scripts/create_schemas.py:100-127 | registering a finding updates the definitions as specified |
| CreateSchemas.SchemaJson.RegisterAttribute | scripts/create_schemas.py:130-193 | registering an attribute updates the definitions and returns its ref as specified |
| CreateSchemas.SchemaJson.RegisterAttributeValueSet | scripts/create_schemas.py:243-280 | registering a value set updates the definitions as specified |
| CreateSchemas.SchemaJson.RegisterValues | scripts/create_schemas.py:248-277 | the values loop updates the definitions and collects one ref per value |
| CreateSchemas.SchemaJson.RegisterValue | scripts/create_schemas.py:250-275 | one value is stored and its ref appended to its attribute |
| CreateSchemas.SchemaJson.RegisterFindingAttributes | scripts/create_schemas.py:221-223 | the attribute loop of one finding updates the definitions and refs as specified |
| CreateSchemas.SchemaJson.RegisterFindingValueSets | scripts/create_schemas.py:226-227 | the value-set loop of one finding updates the definitions as specified |
| CreateSchemas.SchemaJson.RegisterFinding | scripts/create_schemas.py:204-227 | one turn of the findings loop updates the definitions and refs as specified |
| CreateSchemas.SchemaJson.PruneFindings | scripts/create_schemas.py:233-240 | the clean-up loop updates the definitions as specified |
| CreateSchemas.SchemaJson.RegisterFindings | scripts/create_schemas.py:202-227 | the findings loop updates the definitions and collects one ref per finding |
| CreateSchemas.SchemaJson.RegisterClinicalFindingsAndAttributes | scripts/create_schemas.py:196-240 | the whole registration updates the definitions as specified |
| CreateSchemas.SchemaJson.GenerateSchema | scripts/create_schemas.py:283-307 | the document gets the generated id, description and comment, then conditions and findings |
| CreateSchemas.AddPropertyWellformed | scripts/create_schemas.py:25-28 | adding a property keeps a concept well formed: every constant equals its default and every required key is a property |
| CreateSchemas.ValueStepWellformed | scripts/create_schemas.py:250-275 | registering one value keeps the definitions well formed |
| CreateSchemas.ValuesWellformed | scripts/create_schemas.py:248-277 | the values loop keeps the definitions well formed |
| CreateSchemas.ConditionsWellformed | scripts/create_schemas.py:82-96 | the conditions loop keeps the definitions well formed |
| CreateSchemas.WithAttributeWellformed | scripts/create_schemas.py:130-193 | registering an attribute keeps the definitions well formed |
| CreateSchemas.AttributesWellformed | scripts/create_schemas.py:221-223 | a finding's attribute loop keeps the definitions well formed |
| CreateSchemas.ValueSetsWellformed | scripts/create_schemas.py:226-227 | a finding's value-set loop keeps the definitions well formed |
| CreateSchemas.FindingStepWellformed | scripts/create_schemas.py:204-227 | one turn of the findings loop keeps the definitions well formed |
| CreateSchemas.FindingsWellformed | scripts/create_schemas.py:202-227 | the findings loop keeps the definitions well formed |
| CreateSchemas.PrunedWellformed | scripts/create_schemas.py:233-240 | the clean-up keeps the definitions well formed |
| CreateSchemas.GeneratedWellformed | scripts/create_schemas.py:283-307 | the generated schema's definitions are well formed when the generic one's are |
| Serializers.MembershipSymmetric | mmvb_backend/cases/api/serializers.py:59-61 | a case is among a set's cases exactly when the set is among the case's sets |
| Serializers.WithMembersExact | mmvb_backend/cases/api/serializers.py:43-48 | after setting a case set's members it has exactly the given cases, and every other set keeps its members |
| Serializers.WithSetsExact | mmvb_backend/cases/api/serializers.py:92-100 | after setting a case's sets it is in exactly the given sets, and every other case keeps its sets |
| Serializers.WithMembersIdempotent | mmvb_backend/cases/api/serializers.py:43-48 | setting the same members twice is setting them once |
| Serializers.WithMembersFromCaseSide | mmvb_backend/cases/api/serializers.py:43-48 | seen from a case, setting a set's members adds that set to a listed case and removes it from any other |
| Serializers.CaseStore.constructor | mmvb_backend/cases/api/serializers.py:11-16 | the store starts with no cases, no case sets and no memberships |
| Serializers.CaseStore.AddCases | mmvb_backend/cases/api/serializers.py:47-48 | the loop adds the set to each listed case and nothing else |
| Serializers.CaseStore.RemoveUnlisted | mmvb_backend/cases/api/serializers.py:44-46 | the loop removes the set from each assigned case not listed, and nothing else |
| Serializers.CaseStore.CreateCaseSet | mmvb_backend/cases/api/serializers.py:19-31 | a new case set with its name whose members are exactly the given cases (none when no "cases" is given); other tables unchanged and every row still joins existing records |
| Serializers.CaseStore.UpdateCaseSet | mmvb_backend/cases/api/serializers.py:34-52 | the name is updated when given; a non-empty case list becomes exactly the set's members, while an absent or empty one leaves the memberships alone |
| Serializers.CaseStore.CreateCase | mmvb_backend/cases/api/serializers.py:68-81 | a new case with its data that is in exactly the given case sets (none when none are given) |
| Serializers.CaseStore.UpdateCase | mmvb_backend/cases/api/serializers.py:84-104 | the data is updated when given; a non-empty list of case sets becomes exactly the case's sets, while an absent or empty one leaves the memberships alone |
| Serializers.RemoveThenAdd | mmvb_backend/cases/api/serializers.py:43-48 | removing the unlisted members and then adding the listed ones is setting the members to the listed cases |
| MetricValues.AssignedKeeps | mmvb_backend/metrics/implementations/cases_with_result.py:63-65 | assigning a value that satisfies a property keeps every value of the dict satisfying it |
| MetricValues.InnerWellFormed | mmvb_backend/metrics/implementations/cases_with_result.py:63-65 | updating one AI's value in a case keeps the AI ids distinct and the values in [0, 1] |
| MetricValues.SetPairWellFormed | mmvb_backend/metrics/implementations/triage_match.py:78-80 | `setdefault(case_id, {}).update(...)` with a value in [0, 1] keeps the case ids and AI ids distinct and every value in [0, 1] |
| MetricValues.SetPairKeeps | mmvb_backend/metrics/implementations/triage_match.py:78-80 | a later answer never removes an AI's value from an earlier case |
| MetricValues.AddItemsStep | mmvb_backend/metrics/implementations/cases_with_result.py:34-35 | one more answer adds its value to its AI's sum |
| MetricValues.SumsStep | mmvb_backend/metrics/implementations/cases_with_result.py:33-35 | one more case adds its answers to the sums |
| MetricValues.AddCaseSums | mmvb_backend/metrics/implementations/cases_with_result.py:34-35 | the inner loop adds one case's values to the sums |
| MetricValues.Aggregate | mmvb_backend/metrics/implementations/cases_with_result.py:28-47 | `aggregate` computes the per-AI sums divided by the number of cases (nothing for no cases) |
| MetricValues.ItemsTotalAbsent | mmvb_backend/metrics/implementations/cases_with_result.py:34-35 | an AI without an answer in a case adds nothing from it |
| MetricValues.BumpGet | mmvb_backend/metrics/implementations/cases_with_result.py:35 | the `defaultdict` add creates the key when new and adds the value to that AI only |
| MetricValues.AddItemsHas | mmvb_backend/metrics/implementations/cases_with_result.py:34-35 | after a case the sums have an AI exactly when it had a sum or answered that case |
| MetricValues.AddItemsValue | mmvb_backend/metrics/implementations/cases_with_result.py:34-35 | after a case an AI's sum grows by its values in that case |
| MetricValues.SumsHas | mmvb_backend/metrics/implementations/cases_with_result.py:32-35 | the sums have an AI exactly when it answered some case |
| MetricValues.SumsValue | mmvb_backend/metrics/implementations/cases_with_result.py:32-35 | an AI's sum is the total of its values over all cases |
| MetricValues.SumsGet | mmvb_backend/metrics/implementations/cases_with_result.py:32-35 | the sums hold exactly the AIs that answered, each with its total |
| MetricValues.DivideAllGet | mmvb_backend/metrics/implementations/cases_with_result.py:38-44 | dividing keeps the same AIs and divides each sum by the count |
| MetricValues.AggregatedIsMean | mmvb_backend/metrics/implementations/cases_with_result.py:28-47 | the aggregated value of an AI is its total over the number of cases, present exactly when the AI answered some case; no cases give no values |
| MetricValues.ItemsTotalBounded | mmvb_backend/metrics/implementations/cases_with_result.py:34-35 | one case contributes between 0 and 1 to an AI's sum |
| MetricValues.TotalBounded | mmvb_backend/metrics/implementations/cases_with_result.py:32-35 | an AI's total lies between 0 and the number of cases |
| MetricValues.AggregatedIsProportion | mmvb_backend/metrics/implementations/cases_with_result.py:37-44 | for well-formed values every aggregated value is a proportion in [0, 1] |
| Metrics.TriageIndex | mmvb_backend/metrics/implementations/triage_similarity.py:49-50 | `EXPECTED_TRIAGE_OPTIONS.index(t)` is the position of t |
| Metrics.TriageSimilarityScore | mmvb_backend/metrics/implementations/triage_similarity.py:37-56 | an expected triage outside SC, PC, EC fails the assertion; an AI triage outside them scores 0.2 when soft and 0 otherwise; every score lies in [0, 1] |
| Metrics.TriageSimilarityTable | mmvb_backend/metrics/implementations/triage_similarity.py:49-56 | the score is symmetric, 1 exactly for equal levels, 0.5 for neighbouring levels and 0 for SC against EC |
| Metrics.UncertainTriageFails | mmvb_backend/metrics/implementations/triage_similarity.py:43-47 | "UNCERTAIN" or an empty triage scores 0, or 0.2 when soft |
| Metrics.ExpectedTriage | mmvb_backend/metrics/implementations/triage_similarity.py:101-103 | the expected triage is read exactly when the case data has valuesToPredict with expectedTriageLevel |
| Metrics.AiTriage | mmvb_backend/metrics/implementations/triage_similarity.py:107 | an answer with no value has triage ""; a value that is not a dict raises AttributeError |
| Metrics.CaseData | mmvb_backend/metrics/implementations/triage_similarity.py:92 | the triage metrics look the case up and raise Http404 for an unknown case; CasesWithAIResult looks nothing up |
| Metrics.PairValue | mmvb_backend/metrics/implementations/triage_similarity.py:95-109 | every value one metric gives one answer lies in [0, 1] |
| Metrics.CasesWithResultValue | mmvb_backend/metrics/implementations/cases_with_result.py:60-61 | an answer scores 1 exactly when it is COMPLETED, whatever the case data |
| Metrics.TriageMatchValue | mmvb_backend/metrics/implementations/triage_match.py:67-76 | an answer matches exactly when it is COMPLETED and its triage equals the expected one; a completed answer with no value does not match |
| Metrics.TriageSimilarityValue | mmvb_backend/metrics/implementations/triage_similarity.py:95-109 | an answer that is not COMPLETED scores 0, soft or not; a completed one scores its triage against the expected one |
| Metrics.CalculatedStep | mmvb_backend/metrics/implementations/triage_similarity.py:90-113 | one more case is one more step of `calculate` |
| Metrics.CaseErrorStands | mmvb_backend/metrics/implementations/triage_similarity.py:95-113 | once an answer raises, the rest of the case raises the same |
| Metrics.ErrorStands | mmvb_backend/metrics/implementations/triage_similarity.py:90-113 | once a case raises, the rest of the session raises the same |
| Metrics.AddCaseValues | mmvb_backend/metrics/implementations/triage_similarity.py:95-113 | the inner loop computes one case's values |
| Metrics.ProcessCase | mmvb_backend/metrics/implementations/triage_similarity.py:91-113 | one turn of the outer loop looks up the case and computes its values |
| Metrics.Calculate | mmvb_backend/metrics/implementations/triage_similarity.py:83-116 | `calculate` computes the specified values, or the first error |
| Metrics.CaseValuesWellFormed | mmvb_backend/metrics/implementations/triage_similarity.py:95-113 | one case keeps the values well formed |
| Metrics.CalculatedWellFormed | mmvb_backend/metrics/implementations/triage_similarity.py:83-116 | the calculated values name each case once, each AI once per case, and lie in [0, 1] |
| Metrics.CaseValuesKeep | mmvb_backend/metrics/implementations/triage_similarity.py:111-113 | a case never removes a value recorded before it |
| Metrics.CaseValuesCover | mmvb_backend/metrics/implementations/triage_similarity.py:95-113 | every AI that answered a case has a value for it |
| Metrics.CalculatedCovers | mmvb_backend/metrics/implementations/triage_similarity.py:83-116 | every answer of every case has a value in the result |
| Metrics.MetricIsProportion | mmvb_backend/metrics/implementations/triage_similarity.py:58-80 | every aggregated value of every metric lies in [0, 1] |
| Metrics.SupportedMetricsListed | mmvb_backend/metrics/implementations/__init__.py:7-10 | each entry is a class under its own name; a class's name is registered exactly when its `include_as_metric` holds (so not the triage-similarity base class, triage_similarity.py:33-35); no name twice |
| Metrics.RegistryOrdered | mmvb_backend/metrics/implementations/__init__.py:8-10 | the registry is sorted by name: each registered name comes before the next |
| Metrics.CalculateMetrics | mmvb_backend/metrics/helpers.py:6-17 | `calculate_metrics` runs the requested metrics (all registered by default) in order |
| Metrics.CalculateOne | mmvb_backend/metrics/helpers.py:10-15 | one requested id: KeyError when unregistered, else that metric calculated and aggregated |
| Metrics.MetricsStep | mmvb_backend/metrics/helpers.py:9-15 | one more id is one more metric at the end, or the first error |
| Metrics.MetricsErrorStands | mmvb_backend/metrics/helpers.py:9-15 | once a metric raises, the whole call raises the same |
| Metrics.MetricAt | mmvb_backend/metrics/helpers.py:9-15 | the j-th result is the j-th requested metric |
| Metrics.MetricsOneEach | mmvb_backend/metrics/helpers.py:6-17 | one result per requested id, each that metric's calculation and aggregation |
| Metrics.MetricsUnknownRaises | mmvb_backend/metrics/helpers.py:10 | an unregistered id makes the call fail |
| MetricCalculator.MetricEntry | metric_calculator/api.py:18 | an entry's name and human name are the metric's key and description |
| MetricCalculator.MetricEntries | metric_calculator/api.py:17-20 | one entry per supported metric, in order |
| MetricCalculator.ListAllMetrics | metric_calculator/api.py:15-21 | the listing has only "metrics", holding every supported metric's name and human name in order |
| MetricCalculator.Window | metric_calculator/api.py:27 | `[:top_n]` keeps all elements for None, else the first top_n or all of a shorter list |
| MetricCalculator.SliceItems | metric_calculator/api.py:27 | slicing works on a list or a string and raises TypeError on anything else |
| MetricCalculator.ConditionIds | metric_calculator/api.py:27 | the id of every condition, in order, failing when one has none |
| MetricCalculator.Indicator | metric_calculator/api.py:25 | `float(b)` is 1 exactly when b holds and 0 otherwise |
| MetricCalculator.CalculateRecall | metric_calculator/api.py:24-28 | the recall is 0 or 1, and a correct condition without id raises |
| MetricCalculator.RecallFindsId | metric_calculator/api.py:24-28 | the recall is 1 exactly when a condition within the window has the correct id |
| MetricCalculator.RecallOfString | metric_calculator/api.py:27 | a string in place of the list of conditions raises TypeError |
| MetricCalculator.RecallGrowsWithWindow | metric_calculator/api.py:24-28 | a wider window never lowers the recall |
| MetricCalculator.AsDict | metric_calculator/api.py:58-65 | the result dict has the supported metrics' keys, in order |
| MetricCalculator.ResultScores | metric_calculator/api.py:43-56 | every score is 0 or 1; the triage match is 1 exactly when the triages are equal; the recalls are those of the whole list, the first and the first three |
| MetricCalculator.ElementMetrics | metric_calculator/api.py:34-65 | a None result scores 0 everywhere; any other result is scored |
| MetricCalculator.TopOneImpliesTopThree | metric_calculator/api.py:44-52 | a correct first condition is also correct in the first three and anywhere |
| MetricCalculator.MapStep | metric_calculator/api.py:34-65 | one more element appends its scores, or raises |
| MetricCalculator.MapFails | metric_calculator/api.py:34-65 | once an element raises, the whole request raises the same |
| MetricCalculator.MapEach | metric_calculator/api.py:34-65 | on success there is one result per element, each that element's scores |
| MetricCalculator.MapRaises | metric_calculator/api.py:34-65 | an element that raises makes the request fail |
| MetricCalculator.CalculateMetrics | metric_calculator/api.py:31-67 | the loop computes each element's scores in order, or the first error |
| MetricCalculator.RecordsMatchListing | metric_calculator/api.py:7-21 | each result lists the metrics under the names the listing gives, in its order |
| MetricCalculator.KeysListed | metric_calculator/api.py:15-21 | a record with the supported keys lists them as the listing does |
| MetricCalculator.TestConditionIds | tests/test_metric_calculator.py:10 | the test list's ids are a, b and c |
| MetricCalculator.TestRecalls | tests/test_metric_calculator.py:5-51 | for the list a, b, c the recall is 1 exactly for a listed id, and top-1 only for a |
| MetricCalculator.TestSecondPlace | tests/test_metric_calculator.py:6-20 | correct id second, PC expected, SC given: 1, 0, 1, 0 |
| MetricCalculator.TestFirstPlace | tests/test_metric_calculator.py:21-35 | correct id first, triage right: every metric 1 |
| MetricCalculator.TestAbsent | tests/test_metric_calculator.py:36-50 | correct id absent, triage wrong: every metric 0 |
| OldMetricCalculator.AsDict | old_backend/metric_calculator/api.py:101-111 | the result dict has the seven supported metrics' keys, in order |
| OldMetricCalculator.ResultScores | old_backend/metric_calculator/api.py:69-99 | a result scores proportion 1, top-1/3/10 recalls, triage match as equality, and hard and soft triage similarity |
| OldMetricCalculator.ElementMetrics | old_backend/metric_calculator/api.py:57-111 | a falsy result (None, empty) scores 0 everywhere; any other is scored; missing valuesToPredict raises |
| OldMetricCalculator.ScoresInRange | old_backend/metric_calculator/api.py:69-99 | recalls and match are 0 or 1, similarity lies between 0 and the soft similarity, which is at most 1, and similarity is 1 exactly when the triage matches |
| OldMetricCalculator.BadExpectedTriageRaises | old_backend/metric_calculator/api.py:38-39 | an expected triage outside SC, PC, EC fails the assertion |
| OldMetricCalculator.CalculateMetrics | old_backend/metric_calculator/api.py:54-113 | the loop computes each element's scores in order, or the first error |
| OldMetricCalculator.RecordsMatchListing | old_backend/metric_calculator/api.py:7-28 | each result lists the metrics under the names the listing gives, in its order |
| OldMetricCalculator.TestTopTen | old_backend/tests/test_metric_calculator.py:5-60 | the top-10 recall of a, b, c is 1 exactly for a listed id |
| OldMetricCalculator.TestScores | old_backend/tests/test_metric_calculator.py:5-60 | for the test list every metric is as the formulas give for any correct id and triages |
| OldMetricCalculator.TestSecondPlace | old_backend/tests/test_metric_calculator.py:7-23 | correct id second, PC expected, SC given: the expected seven values |
| OldMetricCalculator.TestFirstPlace | old_backend/tests/test_metric_calculator.py:24-41 | correct id first, triage right: every metric 1 |
| OldMetricCalculator.TestAbsent | old_backend/tests/test_metric_calculator.py:42-59 | correct id absent, SC for PC: recalls 0, similarities 0.5 |
| BenchmarkingSessions.TemplatePending | mmvb_backend/benchmarking_sessions/tasks.py:35-43 | the response template holds each AI PENDING and nothing else |
| BenchmarkingSessions.TemplateKeys | mmvb_backend/benchmarking_sessions/tasks.py:35-43 | the template lists each AI once, in the order the AIs first come |
| BenchmarkingSessions.InitialResponses | mmvb_backend/benchmarking_sessions/tasks.py:26-33 | one entry per case, in case order, with its id, its index and the template |
| BenchmarkingSessions.SetRecord | mmvb_backend/benchmarking_sessions/tasks.py:54-59 | replacing one AI's record in one case keeps every other case, the case's id and index, and every other AI's record |
| BenchmarkingSessions.UpdatedStatus | mmvb_backend/benchmarking_sessions/tasks.py:48-59 | no current case raises TypeError, a case index past the end IndexError and an unknown AI KeyError; otherwise the record gets the new status, keeps its value, and gets the error only when one is given |
| BenchmarkingSessions.SetRecordKeepsTable | mmvb_backend/benchmarking_sessions/tasks.py:54-59 | replacing a record that exists keeps the table's shape: the same cases and AIs |
| BenchmarkingSessions.BenchmarkReporter.constructor | mmvb_backend/benchmarking_sessions/tasks.py:20-33 | a new reporter has no current case, the initial table and nothing published |
| BenchmarkingSessions.BenchmarkReporter.ResponseTemplate | mmvb_backend/benchmarking_sessions/tasks.py:35-43 | the loop builds the template of the reporter's AIs |
| BenchmarkingSessions.BenchmarkReporter.MarkBeginCase | mmvb_backend/benchmarking_sessions/tasks.py:45-46 | the current case becomes the given index |
| BenchmarkingSessions.BenchmarkReporter.UpdateCaseStatus | mmvb_backend/benchmarking_sessions/tasks.py:48-68 | on success the table is updated and one report (the whole table, the current index, the case count) is published; on error nothing changes |
| BenchmarkingSessions.BenchmarkReporter.MarkProcessing | mmvb_backend/benchmarking_sessions/tasks.py:70-73 | the record becomes PROCESSING and one report is published |
| BenchmarkingSessions.BenchmarkReporter.MarkCompleted | mmvb_backend/benchmarking_sessions/tasks.py:75-81 | the record becomes COMPLETED, the report is published, and only then is the answer stored under "value" |
| BenchmarkingSessions.BenchmarkReporter.MarkError | mmvb_backend/benchmarking_sessions/tasks.py:83-86 | the record becomes ERRORED with the error and one report is published |
| BenchmarkingSessions.UpdateTouchesOneRecord | mmvb_backend/benchmarking_sessions/tasks.py:54-59 | a status update changes one AI's record in the current case and nothing else |
| BenchmarkingSessions.Classify | mmvb_backend/benchmarking_sessions/tasks.py:133-171 | a read timeout is TIMEOUT; another request exception propagates; a failed status or an answer naming "error" is SERVER_ERROR; a successful answer whose body is not JSON raises ValueError; an answer whose triage is not SC, PC, EC or UNCERTAIN is BAD_RESPONSE; otherwise the answer itself is the result |
| BenchmarkingSessions.RunBenchmark | mmvb_backend/benchmarking_sessions/tasks.py:89-175 | with no AI the futures session raises ValueError; the session is left RUNNING with its responses unchanged when that happens or an answer raises; otherwise it is FINISHED with the reporter's table, one settled entry per case, and two reports per AI per case |
| BenchmarkingSessions.RunCases | mmvb_backend/benchmarking_sessions/tasks.py:107-171 | the cases loop succeeds exactly when every answer can be classified, and then settles every case |
| BenchmarkingSessions.RunCase | mmvb_backend/benchmarking_sessions/tasks.py:107-171 | one case touches only its own entry and settles every AI's record from its answer |
| BenchmarkingSessions.ProcessingStep | mmvb_backend/benchmarking_sessions/tasks.py:117-118 | marking one more AI PROCESSING keeps the other cases and extends the marked prefix |
| BenchmarkingSessions.MarkAllProcessing | mmvb_backend/benchmarking_sessions/tasks.py:117-130 | every AI of the case is PROCESSING, one report each, other cases unchanged |
| BenchmarkingSessions.ProcessNext | mmvb_backend/benchmarking_sessions/tasks.py:118 | one more AI is PROCESSING and one more report is published |
| BenchmarkingSessions.ErrorStep | mmvb_backend/benchmarking_sessions/tasks.py:137-139 | a failed answer leaves its record ERRORED with the error and no other record changed |
| BenchmarkingSessions.CompletedStep | mmvb_backend/benchmarking_sessions/tasks.py:171 | a completed answer leaves its record COMPLETED holding the answer and no other record changed |
| BenchmarkingSessions.RecordVerdict | mmvb_backend/benchmarking_sessions/tasks.py:136-171 | a classified answer settles that AI's record, publishes one report and changes no other record |
| BenchmarkingSessions.ClassifyCase | mmvb_backend/benchmarking_sessions/tasks.py:133-171 | answers handled in completion order settle every AI of the case, one report each, or the first exception propagates |
| BenchmarkingSessions.SettledInOrder | mmvb_backend/benchmarking_sessions/tasks.py:133 | whatever the completion order, once all are handled every AI's record is settled |
| BenchmarkingSessions.StripEntry | mmvb_backend/benchmarking_sessions/api/utils.py:4-8 | one case keeps its id, index and AIs, each record without its value |
| BenchmarkingSessions.Stripped | mmvb_backend/benchmarking_sessions/api/utils.py:1-8 | every case stripped, in order |
| BenchmarkingSessions.StripValuesFromResponses | mmvb_backend/benchmarking_sessions/api/utils.py:1-8 | the loop strips the array in place |
| BenchmarkingSessions.StrippedHasNoValues | mmvb_backend/benchmarking_sessions/api/utils.py:7-8 | after stripping no record holds a value and status and error are as before |
| BenchmarkingSessions.StripIdempotent | mmvb_backend/benchmarking_sessions/api/utils.py:1-8 | stripping twice is stripping once |
| Runner.NextAttempts | evaluator/benchmark/runner.py:84-90 | at or past the maximum the counter goes back to 1 and no retry is asked; below it the counter moves on by one and a retry is asked |
| Runner.NextAttemptsInRange | evaluator/benchmark/runner.py:84-90 | a counter in 1..MAX_NUM_ATTEMPTS stays there, and a retry is asked exactly when it moved on |
| Runner.HealthAttempt | evaluator/benchmark/runner.py:137-252 | every result put is unhealthy by default with one health check and case status ERROR; a call that does not raise ends with its result and a SENTINEL; one that raises puts at most one message and no SENTINEL; only a successful check is healthy, and it keeps the counter |
| Runner.StatusNotOkIsFailure | evaluator/benchmark/runner.py:216-241 | a 200 answer whose "status" is missing or not "OK" fails like a bad status code |
| Runner.FinalFailureRecordsError | evaluator/benchmark/runner.py:166-241 | the last failed attempt, whether the request raised, the status code was not 200 or a 200 answer's status was not "OK", does not raise, resets the counter, and records one error with healthcheck status ERROR |
| Runner.IsHealthySpec | evaluator/benchmark/runner.py:132-137 | the retried check makes at least one request and at most as many as the attempts left |
| Runner.IsHealthyUnfold | evaluator/benchmark/runner.py:132-136 | the decorator calls the body again exactly when it raised and attempts are left |
| Runner.FailingEndpointFrom | evaluator/benchmark/runner.py:132-241 | against an endpoint whose every response is a raised request, a non-200 answer or a 200 answer whose status is not "OK", a check part-way through uses up the remaining attempts and ends with the final result and a SENTINEL |
| Runner.RaisedAttemptRetries | evaluator/benchmark/runner.py:166-230 | a failed attempt of any of the three kinds before the last one moves the counter on, puts one HEALTH_CHECK message and raises |
| Runner.FailingEndpoint | evaluator/benchmark/runner.py:132-241 | the retry bound: against an endpoint that raises, answers a status other than 200, or answers 200 without status "OK", in any mix, exactly MAX_NUM_ATTEMPTS requests, MAX_NUM_ATTEMPTS HEALTH_CHECK results, then a SENTINEL, and the counter back at 1 |
| Runner.NonJsonErrorFrom | evaluator/benchmark/runner.py:187-214 | against an endpoint answering a status other than 200 with a body that is not JSON, each remaining attempt raises in its log call before putting anything |
| Runner.NonJsonErrorEndpoint | evaluator/benchmark/runner.py:187-214 | such an endpoint gets MAX_NUM_ATTEMPTS requests, after which `is_healthy` raises having put no ERROR result and no SENTINEL |
| Runner.SuccessKeepsCounter | evaluator/benchmark/runner.py:243-252 | a successful check is healthy and leaves the counter where earlier failures put it |
| Runner.SolveCaseSpec | evaluator/benchmark/runner.py:254-334 | a case without "caseData" raises KeyError and a 200 answer without a JSON body raises; otherwise the result is healthchecked, hard timeout exactly on a timeout, soft timeout exactly when slower than the soft limit, OK exactly on status 200 with the body as result, and ERROR with an error otherwise |
| Runner.RunStep | evaluator/benchmark/runner.py:43-56 | a command only adds to the queue; a SENTINEL command stops the loop and puts nothing; a solved case puts its result and then a SENTINEL |
| Runner.RunFromUnfold | evaluator/benchmark/runner.py:42-64 | one command other than TERMINATE is served, then the rest, or the final SENTINEL is put when it raised |
| Runner.StepOfGrows | evaluator/benchmark/runner.py:43-56 | every command only adds to the result queue |
| Runner.RunWithEndsWithFinal | evaluator/benchmark/runner.py:42-64 | `run` only adds to the queue, and when it stops by TERMINATE or an exception the last message is the final SENTINEL with the AI's name |
| Runner.OneFinalSentinel | evaluator/benchmark/runner.py:57-64 | the final SENTINEL is put once, last |
| Runner.NoFinalPayloadInStep | evaluator/benchmark/runner.py:43-56 | serving a command never puts the final SENTINEL itself |
| Runner.HealthEmittedTagged | evaluator/benchmark/runner.py:126-130 | what a health check puts carries the runner's id and a health payload |
| Runner.StepMessagesTagged | evaluator/benchmark/runner.py:45-51 | a command puts only messages with the runner's id and the payload their signal calls for |
| Runner.RunMessagesTagged | evaluator/benchmark/runner.py:38-65 | every message `run` puts, the final SENTINEL included, carries the runner's id and the payload its signal calls for |
| Runner.BenchmarkRunner.constructor | evaluator/benchmark/runner.py:28-36 | a new runner has its name and id, the health counter at 1, no requests made and the given queue |
| Runner.BenchmarkRunner.UpdateAttempts | evaluator/benchmark/runner.py:84-90 | `_update_attempts` updates the counter and answers as NextAttempts says |
| Runner.BenchmarkRunner.HealthAttemptOnce | evaluator/benchmark/runner.py:137-252 | one call of the body makes one request, puts what HealthAttempt says and updates the counter |
| Runner.BenchmarkRunner.IsHealthy | evaluator/benchmark/runner.py:132-252 | the decorated check leaves the counter, requests and queue as the retry specification says |
| Runner.BenchmarkRunner.SolveCase | evaluator/benchmark/runner.py:254-334 | one solve request whose result is SolveCaseSpec of its outcome |
| Runner.BenchmarkRunner.Serve | evaluator/benchmark/runner.py:45-56 | one command changes the state as RunStep says |
| Runner.BenchmarkRunner.Run | evaluator/benchmark/runner.py:38-65 | the loop changes the state and ends as RunFrom says |
| Manager.UnhealthyOutput | evaluator/benchmark/manager.py:191-199 | the output stored for an unhealthy AI keeps its name, case status and healthchecked flag |
| Manager.SolvedOutput | evaluator/benchmark/manager.py:256-268 | a solve result stored without its log keeps its name, case status and result |
| Manager.Taken | evaluator/benchmark/manager.py:170-175 | the polls between two positions take at most one message each; an empty poll takes nothing |
| Manager.LinesOf | evaluator/benchmark/manager.py:201-203 | each log line is appended as itself, in order |
| Manager.SolveLogAsWritten | evaluator/benchmark/manager.py:256-258 | as written, the loop appends the whole log list once per line instead of each line |
| Manager.SolveLogAsWrittenNestsLines | evaluator/benchmark/manager.py:256-258 | a one-line solve log reaches the logs as a nested list, not as its line |
| Manager.SetupRunnersAsWrittenRaises | evaluator/benchmark/manager.py:71-78 | as written, the six arguments of each runner call do not bind to the five parameters of `BenchmarkRunner.__init__` (evaluator/benchmark/runner.py:28), so a setup with at least one AI raises TypeError; the corrected five-argument call binds for every AI, with its position as `runner_id` |
| Manager.BurntMarker | evaluator/benchmark/manager.py:220-222 | the marker name starts with the case id followed by "_" and more (the case number) |
| Manager.CaseIdOf | evaluator/benchmark/manager.py:147 | the case id read is `case["caseData"]["caseId"]` |
| Manager.HealthyIdsExact | evaluator/benchmark/manager.py:164-203 | the health phase keeps exactly the ids of the runners that reported themselves healthy |
| Manager.HealthSentinels | evaluator/benchmark/manager.py:177-178 | the health phase counts every SENTINEL it takes, and only those |
| Manager.HealthStepKeys | evaluator/benchmark/manager.py:179-200 | one message adds a results entry exactly when it is an unhealthy report |
| Manager.UnhealthyRecorded | evaluator/benchmark/manager.py:179-200 | an AI has an entry in the case's results exactly when it had one or reported itself unhealthy |
| Manager.LastSolveWins | evaluator/benchmark/manager.py:268 | an AI's entry is the last solve result it sent |
| Manager.SolveSentinels | evaluator/benchmark/manager.py:253-254 | the solve phase counts every SENTINEL it takes, and only those |
| Manager.Occurrences | evaluator/benchmark/manager.py:237-239 | the count is positive exactly when the id is in the list |
| Manager.BenchmarkManager.constructor | evaluator/benchmark/manager.py:25-32 | a new manager is IDLE, not set up, with an empty database and no timeout check made |
| Manager.BenchmarkManager.IfTimeout | evaluator/benchmark/manager.py:34-35 | a check counts, and answers timed out exactly from the deadline on |
| Manager.BenchmarkManager.Poll | evaluator/benchmark/manager.py:170-175 | a poll takes the next queue entry, or is empty when the queue is exhausted |
| Manager.BenchmarkManager.Setup | evaluator/benchmark/manager.py:37-54 | a manager that is not IDLE raises ValueError and changes nothing; otherwise the run's attributes are stored, logs start empty, the manager report is created or found, and each AI gets a runner with an empty pipe |
| Manager.BenchmarkManager.SetAttributes | evaluator/benchmark/manager.py:38-45 | the run's id, case set, AIs and an empty log and queue are stored |
| Manager.BenchmarkManager.SetupReport | evaluator/benchmark/manager.py:60-63 | the manager report is the one the database creates, or finds under a taken id |
| Manager.BenchmarkManager.SetupRunners | evaluator/benchmark/manager.py:65-84 | corrected: when IDLE, runner i serves the i-th AI and its pipe is empty; otherwise nothing changes |
| Manager.BenchmarkManager.FinishExecution | evaluator/benchmark/manager.py:114-116 | the manager is IDLE with no runners |
| Manager.BenchmarkManager.SendHealthChecks | evaluator/benchmark/manager.py:161-162 | every runner's pipe gets one HEALTH_CHECK for the case |
| Manager.BenchmarkManager.SendSolveCases | evaluator/benchmark/manager.py:237-239 | each runner's pipe gets the case once per time its id is listed healthy |
| Manager.BenchmarkManager.HealthPhase | evaluator/benchmark/manager.py:164-203 | the phase leaves results, healthy ids, logs and AI reports as the messages taken say, and completes exactly when one SENTINEL per runner arrived; otherwise it timed out |
| Manager.BenchmarkManager.TakeHealthMessage | evaluator/benchmark/manager.py:177-203 | one message is handled as HealthStep says and adds at most its own runner's id |
| Manager.BenchmarkManager.SolvePhase | evaluator/benchmark/manager.py:241-268 | corrected: the phase leaves results, logs and AI reports as the messages taken say, and completes exactly when one SENTINEL per healthy runner arrived; otherwise it timed out |
| Manager.BenchmarkManager.SolveTurn | evaluator/benchmark/manager.py:243-268 | one turn checks the timeout once, and counts a SENTINEL only when it did not time out |
| Manager.BenchmarkManager.RecordSolve | evaluator/benchmark/manager.py:253-268 | corrected: one message is handled as SolveStep says, each log line appended once |
| Manager.BenchmarkManager.NamesOf | evaluator/benchmark/manager.py:209-214 | the names of the listed runners, in order |
| Manager.BenchmarkManager.BeginCase | evaluator/benchmark/manager.py:146-162 | the report's cursor is (case number + 1, case id), the log says health checks start, and every runner is sent HEALTH_CHECK |
| Manager.BenchmarkManager.FinishCase | evaluator/benchmark/manager.py:205-268 | with no healthy runner the run stops with the run id and the results so far; otherwise the case is marked burnt and solved, or the run times out |
| Manager.BenchmarkManager.CheckCase | evaluator/benchmark/manager.py:146-203 | the cursor moves to the case and the healthy ids are runners of the pool |
| Manager.BenchmarkManager.CaseBody | evaluator/benchmark/manager.py:146-268 | the results gain the case's entry; the case is burnt when the run goes on; a stop is a timeout or all AIs unhealthy |
| Manager.BenchmarkManager.RunCase | evaluator/benchmark/manager.py:142-268 | a timeout check failing first stops the run and sends nothing; a case id that cannot be read raises; a case that goes on is burnt and has its results entry |
| Manager.BenchmarkManager.RunCases | evaluator/benchmark/manager.py:132-277 | the manager is RUNNING; a finished run has every case burnt and in the results; an all-unhealthy stop carries the run id |
| Manager.BenchmarkManager.SendTerminate | evaluator/benchmark/manager.py:125-127 | every runner's pipe gets TERMINATE |
| Manager.BenchmarkManager.RunBenchmark | evaluator/benchmark/manager.py:118-130 | a manager never set up raises AttributeError; otherwise, however the run ends, every pipe ends with TERMINATE after what was sent, and the manager is IDLE with no runners; a finished run has every case burnt and in the results |
| Reporter.NewManagerReport | evaluator/benchmark/reporter.py:66-72 | a new manager report has its id, case index -1 and no current case |
| Reporter.CreatedManagerReport | evaluator/benchmark/reporter.py:63-76 | creating under a taken id gives the stored report, otherwise a new one |
| Reporter.InitialCaseStatus | evaluator/benchmark/reporter.py:140-143 | the case status is ERROR exactly when the errors count is truthy, else RUNNING |
| Reporter.UpdatedAIReport | evaluator/benchmark/reporter.py:219-237 | the case status is always written, the health status only when given, and each counter whose flag is truthy goes up by exactly one |
| Reporter.UpdateAITable | evaluator/benchmark/reporter.py:239-245 | the UPDATE changes only the row with the key, if there is one, and adds no row |
| Reporter.CreateAITable | evaluator/benchmark/reporter.py:139-169 | a new key gets a row copied from the data; an existing key falls back to the update with the data's values as flags; no other row changes |
| Reporter.CreateTwiceIncrements | evaluator/benchmark/reporter.py:158-169 | reporting the same health result twice counts two health checks and adds one error instead of overwriting the row |
| Reporter.UpdateMissingKeyIsNoOp | evaluator/benchmark/reporter.py:239-245 | updating a key without a row changes nothing |
| Reporter.UpdateCountersMonotone | evaluator/benchmark/reporter.py:227-237 | a row's counters never go down and rise by at most one per update |
| Reporter.SetCursor | evaluator/benchmark/reporter.py:125-130 | the UPDATE by id writes both cursor fields of that row only |
| Reporter.DeleteManagerReportAsWritten | evaluator/benchmark/reporter.py:96-110 | as written, a delete by instance removes the row, and a delete by id removes nothing |
| Reporter.DeleteByIdKeepsRow | evaluator/benchmark/reporter.py:101-108 | as written, deleting an existing id answers True and leaves the row in place |
| Reporter.DeleteManagerReportSpec | evaluator/benchmark/reporter.py:96-110 | corrected: after a delete by id the row is gone, and the answer says whether it existed; with neither argument nothing changes and the answer is False |
| Reporter.DatabaseClient.constructor | evaluator/benchmark/reporter.py:54-57 | a new client starts with empty tables |
| Reporter.DatabaseClient.SelectManagerReport | evaluator/benchmark/reporter.py:78-94 | the stored report, or None exactly when no report has the id |
| Reporter.DatabaseClient.SelectAIReport | evaluator/benchmark/reporter.py:171-183 | the stored row for the key, or None exactly when there is none |
| Reporter.DatabaseClient.CreateManagerReport | evaluator/benchmark/reporter.py:63-76 | a taken id leaves the table and returns the stored report; a new id stores and returns a new report |
| Reporter.DatabaseClient.UpdateManagerReport | evaluator/benchmark/reporter.py:112-137 | by instance or by id both cursor fields are written; with neither the answer is None and nothing changes |
| Reporter.DatabaseClient.DeleteManagerReport | evaluator/benchmark/reporter.py:96-110 | the delete changes the table and answers as the corrected specification says |
| Reporter.DatabaseClient.CreateAIReport | evaluator/benchmark/reporter.py:139-169 | the table becomes CreateAITable of the old one |
| Reporter.DatabaseClient.UpdateAIReport | evaluator/benchmark/reporter.py:207-245 | the table becomes UpdateAITable of the old one |
| EvaluatorApi.ReplaceAllChars | evaluator/api.py:99-100 | every character of a replaced text comes from the text or from the replacement |
| EvaluatorApi.UniqueIdValid | evaluator/api.py:99-107 | an id made from a time stamp's digits and point passes `parse_validate_caseSetId`, so a generated case set can be extracted |
| EvaluatorApi.ReplaceAllRemoves | evaluator/api.py:100 | replacing "." by "_" leaves no "." |
| EvaluatorApi.FetchedCases | evaluator/api.py:121-126 | the cases are the JSON bodies of the first n answers, exactly when every request returns (does not raise) with status 200 and a JSON body; otherwise the error is the one raised by the first request that does not: RequestException from `requests.get`, AssertionError for the status, ValueError from `request.json()` |
| EvaluatorApi.FetchRaisesAtFirstFailure | evaluator/api.py:121-126 | the generation fails with exactly the first failing request's error; a raised request gives RequestException and a 200 answer whose body is not JSON gives ValueError |
| EvaluatorApi.GeneratedCases | evaluator/api.py:114-126 | generation succeeds exactly when numCases parses, lies in 1..200 and every request returns 200 with a JSON body, and then gives numCases cases; a numCases that does not parse raises its error, one out of range AssertionError, and otherwise the first failing request's error |
| EvaluatorApi.ExtractCaseSet | evaluator/api.py:103-107 | an id with a character outside lower-case letters, digits and "_" fails the assertion; a successful extraction had a valid id |
| EvaluatorApi.GenerateThenExtract | evaluator/api.py:128-158 | a case set written under a valid id is extracted with exactly the cases written |
| EvaluatorApi.ListedIds | evaluator/api.py:138-148 | at most one id per directory entry |
| EvaluatorApi.ListedIdsExact | evaluator/api.py:142-147 | an entry that names neither the database nor the burnt cases is listed under its name |
| EvaluatorApi.ListedIdsSkip | evaluator/api.py:142-147 | every listed id comes from an entry that names neither the database nor the burnt cases |
| EvaluatorApi.ListedAisAccepted | evaluator/api.py:161-167 | every AI the API lists is one a "Start" accepts |
| EvaluatorApi.PollEntry | evaluator/api.py:316-327 | a placeholder is skipped; a worker with a reply arriving counts exactly when its status is not IDLE |
| EvaluatorApi.Polled | evaluator/api.py:316-327 | the loop keeps the same benchmarks and polls each once |
| EvaluatorApi.RunningAtMostWorkers | evaluator/api.py:316-327 | placeholders never count, so no more benchmarks run than there are workers |
| EvaluatorApi.RegisteredPut | evaluator/api.py:334-335 | registering a benchmark in both dicts keeps them naming the same benchmarks |
| EvaluatorApi.RegisteredRemove | evaluator/api.py:381-382 | forgetting a benchmark in both dicts keeps them agreeing |
| EvaluatorApi.RegisteredPolled | evaluator/api.py:316-327 | polling keeps the benchmarks registered |
| EvaluatorApi.StartedWorker | evaluator/api.py:345-359 | a new worker's reply to "Start" is "Started" exactly when it set the run up, and "Error" otherwise |
| EvaluatorApi.Evaluator.constructor | evaluator/api.py:79-86 | both registries start empty |
| EvaluatorApi.Evaluator.GenerateCaseSet | evaluator/api.py:114-135 | on success the cases are written under a fresh id and the id is returned; on failure nothing is written and the error propagates |
| EvaluatorApi.Evaluator.CreateBenchmarkManager | evaluator/api.py:314-337 | more running benchmarks than the limit gives "CantCreateBecauseTooBusy"; otherwise a placeholder, not yet fully running, is registered under the new id, which is returned |
| EvaluatorApi.Evaluator.PollAll | evaluator/api.py:315-327 | the loop polls every benchmark and counts the running ones |
| EvaluatorApi.Evaluator.RunCaseSetAgainstAis | evaluator/api.py:340-362 | a request without a string "benchmarkManagerId" raises and changes nothing; otherwise a worker that took "Start" is registered as fully running and its reply returned |
| EvaluatorApi.Evaluator.Register | evaluator/api.py:349-360 | the worker is registered and the benchmark is fully running |
| EvaluatorApi.Evaluator.ReportUpdate | evaluator/api.py:365-386 | `report_update` changes the registries and answers as ReportUpdateSpec says |
| EvaluatorApi.ReportUpdateRegistered | evaluator/api.py:365-386 | `report_update` keeps both registries naming the same benchmarks |
| EvaluatorApi.ReportUpdateRefuses | evaluator/api.py:366-377 | a request without a string id, for an unknown benchmark or for one not yet started raises and changes nothing |
| EvaluatorApi.ReportUpdateForgets | evaluator/api.py:375-382 | an update comes only from a started benchmark, which is forgotten exactly when the update carries results |
| EvaluatorApi.ReportUpdateInSync | evaluator/api.py:375-377 | with no late reply waiting, the update returned is the worker's answer to this very request |
| EvaluatorApi.FetchErrorStands | evaluator/api.py:121-126 | once a request fails to deliver a case, generation fails with that same error whatever follows |
| EvaluatorApi.FetchStopsAt | evaluator/api.py:121-126 | after the cases delivered so far, a request that does not deliver ends the loop with its own error |
| EvaluatorApi.CreateWhenFewWorkers | evaluator/api.py:314-337 | with no more workers than the limit, a manager is always created |
| EvaluatorWorker.ParseValidateCaseSetId | evaluator/api.py:103-107 | the id is returned unchanged exactly when every character is a lower-case letter, a digit or "_", and AssertionError otherwise |
| EvaluatorWorker.CheckAi | evaluator/api.py:202-205 | an AI passes exactly when it is a configured name |
| EvaluatorWorker.CheckAis | evaluator/api.py:202-205 | the AI-name validation passes exactly when every requested AI does, and then names them in order |
| EvaluatorWorker.CheckAisError | evaluator/api.py:202-205 | a failed validation fails with the error of one of the requested AIs |
| EvaluatorWorker.CheckAisNames | evaluator/api.py:202-205 | a passed validation names exactly the requested AIs |
| EvaluatorWorker.BenchmarkedAis | evaluator/api.py:207-209 | the dict has each name once, in first-occurrence order, with its configured endpoints |
| EvaluatorWorker.PyLen | evaluator/api.py:215-216 | `len` works exactly on a list, a dict or a string |
| EvaluatorWorker.RequestedAis | evaluator/api.py:199-205 | every AI taken is configured |
| EvaluatorWorker.RequestedAisExact | evaluator/api.py:199-205 | when the AI-name validation passes every requested item is a configured name, and exactly those are taken |
| EvaluatorWorker.StartSpec | evaluator/api.py:189-217 | a started run has the given id, a valid case-set id, each requested AI once in order, and the loaded case file's length as its number of cases |
| EvaluatorWorker.StartBenchmarksRequested | evaluator/api.py:199-217 | a started run benchmarks exactly the requested AIs, each configured |
| EvaluatorWorker.SummaryPairs | evaluator/api.py:254-263 | one (AI name, summary) pair per report row, in order |
| EvaluatorWorker.EntryResults | evaluator/api.py:288-291 | one (AI name, result) pair per entry of a case |
| EvaluatorWorker.ResultsByAiSpec | evaluator/api.py:285-291 | falsy results give an empty dict |
| EvaluatorWorker.GetUpdateSpec | evaluator/api.py:244-306 | the update succeeds exactly when the report exists and, for an IDLE manager with a results file, the results can be grouped; it carries the run and case-set ids, the report's cursor and the logs; results are empty unless the manager is IDLE with a results file |
| EvaluatorWorker.UpdateListsEveryRow | evaluator/api.py:253-263 | every AI with a report row is listed with the summaries of exactly its rows, in row order |
| EvaluatorWorker.WorkerStep | evaluator/api.py:177-311 | corrected: only None ends the loop, answered None; every known command is answered once; a fresh manager reports IDLE; an update without a run is "Error"; a Start is "Started" exactly when the run is set up, and "Error" with a fresh manager otherwise |
| EvaluatorWorker.WorkerStepAsWritten | evaluator/api.py:189-190 | as written, `BenchmarkManager()` binds no argument to the constructor's one parameter (evaluator/benchmark/manager.py:25), so every "Start" raises TypeError and is answered "Error", keeping the state; every other command is handled as the corrected turn |
| EvaluatorWorker.ManagerCallBinds | evaluator/benchmark/manager.py:25 | the corrected constructor call, given the start time, binds it to `benchmark_start_time` |
| EvaluatorWorker.StartFailsAsWritten | evaluator/api.py:189-237 | as written a well-formed "Start" is answered "Error", where the corrected step answers "Started" |
| EvaluatorWorker.WorkerRun | evaluator/api.py:178-311 | `main` takes no more commands than there are |
| EvaluatorWorker.WorkerRunStopsAtNone | evaluator/api.py:178-187 | `main` takes commands up to the first None, answers it last with None and stops; without a None it takes every command |
| EvaluatorWorker.BenchmarkManagerWorker.constructor | evaluator/api.py:173-175 | a new worker holds no manager and has replied nothing |
| EvaluatorWorker.BenchmarkManagerWorker.StartRun | evaluator/api.py:189-237 | the "Start" branch computes StartSpec |
| EvaluatorWorker.BenchmarkManagerWorker.CheckRequestedAis | evaluator/api.py:199-205 | the loop computes RequestedAis |
| EvaluatorWorker.BenchmarkManagerWorker.CollectReports | evaluator/api.py:253-263 | the loop groups the report rows' summaries by AI name |
| EvaluatorWorker.BenchmarkManagerWorker.ResultsByAi | evaluator/api.py:285-291 | the nested loop computes ResultsByAiSpec |
| EvaluatorWorker.BenchmarkManagerWorker.ReadUpdate | evaluator/api.py:244-306 | "GetUpdate" computes GetUpdateSpec |
| EvaluatorWorker.BenchmarkManagerWorker.Handle | evaluator/api.py:179-311 | corrected: one command changes the state and puts the reply as WorkerStep says |
| EvaluatorWorker.BenchmarkManagerWorker.Serve | evaluator/api.py:177-311 | the loop changes the state and puts the replies as WorkerRun says |
| EvaluatorWorker.WorkerRunStops | evaluator/api.py:184-187 | a command that stops `main` is the last one it takes |
| EvaluatorWorker.WorkerRunContinues | evaluator/api.py:178-311 | a command after which `main` goes on is answered before the rest |
| EvaluatorWorker.AddCaseResults | evaluator/api.py:288-291 | one case's results are appended under their AI names, or the first missing "result" raises |
| EvaluatorWorker.PrefixErrorStands | evaluator/api.py:202-205 | once a prefix of the requested AIs fails, the whole validation fails the same way |
| EvaluatorWorker.CheckAiFails | evaluator/api.py:202-205 | an AI that fails makes the whole validation fail with its error |
| Text.ParseInt | scripts/create_schemas.py:36 | `int(s)` succeeds exactly on digits with an optional leading sign (the forms listed under "## Left out"), and raises ValueError otherwise |
| Text.IntRoundTrip | scripts/create_schemas.py:36-52 | reading back an integer's decimal text gives the integer |
| Text.Lower | mmvb_backend/common/utils.py:45 | the lower-cased text has the same length, each ASCII capital becomes its small letter, and every other character is kept |
| Text.StripLeftSpaces | data/doctor_cases/london_model/transform.py:40 | `lstrip` removes exactly the leading whitespace: what it leaves is a suffix that starts with a non-space |
| Text.StripRightSpaces | data/doctor_cases/london_model/transform.py:40 | `rstrip` removes exactly the trailing whitespace: what it leaves is a prefix that ends with a non-space |
| Text.StripIdempotent | data/doctor_cases/london_model/transform.py:40 | a stripped cell neither starts nor ends with whitespace, and stripping it again changes nothing |
| JsonValues.PyInt | mmvb_backend/case_synthesizer/validators.py:13 | `int(x)` truncates a number toward zero; any failure is TypeError or ValueError |
| JsonValues.Index | evaluator/benchmark/manager.py:147 | `j[key]` succeeds exactly on an object that has the key, and gives the value stored under it |
| Dicts.Put | mmvb_backend/case_synthesizer/generator.py:76-82 | after `d[k] = v`, k maps to v; a new key goes last in the key order, an existing key keeps its place; distinct keys stay distinct |
| Dicts.PutOther | mmvb_backend/case_synthesizer/generator.py:76-82 | assigning one key leaves every other key's value as it was |
| Dicts.Get | mmvb_backend/case_synthesizer/generator.py:96-102 | `d.get(k)` is None exactly when k is not a key, and otherwise a value stored under k |

## Left out

- Process, Pipe, Queue and Thread mechanics are not modelled: the runners, the
  manager's thread, the evaluator workers and the Celery task.
  - Messages on pipes and queues are input sequences.
  - The one-second polling and the `time.time()` deadlines are not modelled. The
    manager's deadline is an oracle that says how many deadline checks pass.
- The `random.shuffle` of pipes and of healthy ids in manager.py is not modelled.
  Each runner reads only its own pipe, so the order in which commands go to
  different pipes cannot be observed by a runner.
- Real HTTP is not modelled:
  - `requests` and the futures session. A response is an abstract value: whether
    the request raised (and, where the code tells them apart, how), its status,
    a body that is JSON or not, and, where the code reads it, its elapsed time.
    The runner's two endpoints and the case generator that `generate_case_set`
    calls are oracles indexed by how many calls were made.
  - `retry_strategy` in mmvb_backend/common/utils.py, because no adapter in the
    code mounts it.
  - The waits between the runner's retries. The retry count is modelled.
- Logging is not modelled: `_log_info`, `_log_error`, the logger module and the
  prints. The one exception is the `response.json()` call inside their
  arguments, whose failure the model keeps.
- Runner.FailingEndpoint: the bound covers the responses `is_healthy` counts as
  failures. It does not cover three kinds of answer that raise before the
  counter is updated or before anything is put on the queue:
  - an answer with a status other than 200 whose body is not JSON
    (NonJsonErrorEndpoint shows that `is_healthy` then raises after
    MAX_NUM_ATTEMPTS requests, with no ERROR result and no SENTINEL);
  - a 200 answer whose body is not JSON;
  - a 200 answer whose body is JSON but not an object.
- Persistence is not modelled: Peewee/SQLite in reporter.py and the Django ORM.
  - Tables are maps keyed by their primary keys; many-to-many relations are sets.
  - Timestamps, transactions and the `with self.database` context are not
    modelled.
- `delete_ai_report` and `shutdown` in evaluator/benchmark/reporter.py are not
  modelled.
- Randomness is not modelled; every draw is a parameter.
  - `random.random()` values feed `sample_symptoms`, and `random.randint` values
    give ages and case ids.
  - Weighted and uniform `choice` results are given as the chosen element. The
    model only requires that the element belongs to the list it was drawn from.
    It does not model the weights of numpy's `p=` argument, nor those of
    `random.choices` in the case generators
    (mmvb_backend/case_synthesizer/generator.py:72-74,
    old_backend/case_generator/api.py:74). So `CaseGeneration.SampledCondition`
    may pick a condition whose weight for the drawn sex is 0.0, which Python never
    picks, and the ValueError `random.choices` raises when every weight is zero
    is not modelled. `CaseGeneration.Weights` reads the weights only for their
    errors.
- MD5 digests are an opaque function `hash`, and generated ids are parameters.
  This covers `md5` in convert_csv.py and evaluator/api.py, `generate_id`, and the
  UUID primary keys.
- File I/O is not modelled: reading and writing case sets, `data.json` and
  results files. File contents and whether a file exists are parameters.
- Python set iteration order is not modelled. `convert_csv.py` collects conditions
  and symptoms in sets and lists them in the sets' iteration order. The model
  lists them in first-insertion order, because Python's set order is not part of
  the language.
- JSON serialisation is not modelled: key order on output and number formatting.
- Python's `==` on decoded JSON is modelled as structural equality of `Json`
  values. Python's `==` also makes `True == 1` and `False == 0`, and it compares
  dicts without regard to key order; the model does neither. The members this
  affects are listed below.
- MetricCalculator.CalculateRecall: `id in ids` is structural, so an id `true`
  does not match a listed `1`, and two object ids with the same entries in
  another order do not match.
- MetricCalculator.ResultScores: the triage match compares the expected and
  given triage structurally, with the same two differences, as does its recall.
- OldMetricCalculator.ResultScores: the same two differences, in its triage
  match and its recalls.
- ToyAIs.Related, ToyAIs.Matched, CaseGeneration.SymptomProbabilities: a link's
  condition id is compared with the condition's id, and a link's symptom id is
  looked up among the complaints, structurally, with the same two differences.
- EvaluatorWorker.CaseSetIdText: a JSON number is one `real`, so the model does
  not tell the integer `5` from the float `5.0`. The code turns `5.0` into the
  text "5.0", which the validation refuses; the model gives "5" and accepts it.
- Text.ParseInt: models `int()` on text for the plain forms only, an optional
  sign followed by ASCII digits. Surrounding whitespace, `_` digit separators and
  non-ASCII digits, which `int()` also accepts, are not modelled.
- `register_attribute_value_set` in scripts/create_schemas.py takes a
  `clinical_finding_id` parameter that it never uses, so the model leaves the
  parameter out.
- The example lemmas take symbolic fixture data and concrete small inputs. They
  are not the repository's own test fixtures.
- `BenchmarkManager.build_report` (evaluator/benchmark/manager.py:86-112) is not
  modelled. It indexes a key it never sets and reads a field that AI reports do
  not have, so it cannot complete.
- Three metric modules are not modelled:
  - `correct_conditions_top_n.py` uses an undefined name.
  - `proportion_cases_with_result.py` uses `defaultdict` without importing it.
  - `tirage_similarity.py` unpacks dict keys as pairs, and its soft `calculate`
    returns None. `triage_similarity.py` supersedes it.
- The registries of metrics and of toy AIs import `get_all_subclasses`,
  `import_modules` and `natural_keys` from `common.utils`. Those helpers are not
  part of this model, and mmvb_backend/common/utils.py, which is modelled, does
  not define them. Both registries are written out as explicit lists instead.
  - `Metrics.SUPPORTED_METRICS` lists the classes of the modelled metric modules
    (cases_with_result.py, triage_match.py, triage_similarity.py) whose
    `include_as_metric` returns True. The triage-similarity base class returns
    False and is not listed. Classes in the three metric modules that are not
    modelled (above) are not listed either.
  - The list is in plain string order. The class names hold no digits, so natural
    order and string order agree.
- `generate_casesets` (mmvb_backend/case_synthesizer/generator.py:143-156) is not
  modelled. It only repeats `generate_cases` and saves the results.
- `CamelCaseAutoSchema` is not modelled. It only configures the schema.
- scripts/parse_berlin_model.py is not part of this model. It consists of pandas
  DataFrame transforms.
- The Flask/connexion apps, the Django URLs and views that only delegate,
  management commands and migrations are not modelled.
- Python floats are `real`. IEEE rounding is not modelled.
- Manager.CaseIdOf: rejects a case whose `caseId` is not a string at once,
  with TypeError. The code carries such an id through the report update and the
  health phase, and raises TypeError only when a healthy runner makes it build
  the burnt-case marker name (evaluator/benchmark/manager.py:220-222); with no
  healthy runner it goes on to the next case. Case sets whose ids are all
  strings behave the same in both.
- EvaluatorApi.Evaluator.RunCaseSetAgainstAis: keys the registry by string ids
  and raises TypeError for any other "benchmarkManagerId". The code accepts any
  hashable JSON value as the key (a number, a boolean or null) and raises only
  for a list or an object.
- EvaluatorApi.ReportUpdateRefuses: a "benchmarkId" that is not a string
  raises TypeError in the model. The code looks up any hashable value like any
  other key.
- Text.Lower: lower-cases ASCII letters only, where `str.lower` maps every
  cased letter. No non-ASCII character lower-cases to a letter of "true" or
  "yes", so `is_true`, its only user, gives the same answers.

## Findings

| source | as written | input that shows it | evidently intended | confidence | as-written member | corrected member |
|---|---|---|---|---|---|---|
| evaluator/benchmark/reporter.py:101-108 | `delete_manager_report(benchmark_id=...)` runs a `select` query and returns True when it finds the row | any stored benchmark id: the call answers True and the row is still there | delete the row with that id | high (not executed) | Reporter.DeleteByIdKeepsRow | Reporter.DeleteManagerReportSpec |
| evaluator/benchmark/manager.py:257-258 | each solve-case log line appends the whole `logs` list to `accumulated_logs` | a solve result with the log `["a"]` adds `[["a"]]`, not `["a"]` | append each line | high (not executed) | Manager.SolveLogAsWrittenNestsLines | Manager.LinesOf |
| toy_ai/api.py:85 | the most-likely solver sorts by probability ascending, then keeps the first three | two eligible conditions with probabilities 0.1 and 0.9: the 0.1 one is listed first | list the most likely conditions first | medium (not executed) | ToyAIs.MostLikelyAsWrittenListsLessLikelyFirst | ToyAIs.MostLikelyListsMoreLikelyFirst |
| evaluator/api.py:190 | "Start" builds `BenchmarkManager()` without the `benchmark_start_time` that manager.py:25 requires | any well-formed "Start" command: the constructor raises TypeError and the worker answers "Error" | build the manager with its start time and start the run | high (not executed) | EvaluatorWorker.StartFailsAsWritten | EvaluatorWorker.WorkerStep |
| mmvb_backend/common/utils.py:24-27 | `send` fills in the adapter's timeout only when "timeout" is absent from the keywords | a GET through a session: the session passes `timeout=None`, so the request keeps no timeout | fill in the stored timeout when the caller gave none, absent or None | medium (not executed) | CommonUtils.SessionTimeoutIgnored | CommonUtils.FilledTimeout |
| evaluator/benchmark/manager.py:71-78 | `setup_runners` passes six arguments (with `benchmark_start_time`) to a runner constructor that takes five (runner.py:28) | a setup with any benchmarked AI: the constructor raises TypeError | build one runner per AI with ids 0..n-1 | high (not executed) | Manager.SetupRunnersAsWrittenRaises | Manager.BenchmarkManager.SetupRunners |
