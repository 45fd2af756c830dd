/**
 * The synthetic case generator of the Django back end (`generate_cases`):
 * each case draws an age, a biological sex and a condition, samples the
 * condition's symptoms, and splits the first present symptom off as the
 * presenting complaint. The fixture data is a parameter, and so are the
 * draws: which condition the weighted choice returns, the random integers,
 * and the stream `sample_symptoms` draws from.
 */
module CaseGeneration {
  import opened Wrappers
  import opened Dicts
  import opened JsonValues
  import opened Text
  import opened SymptomSampling
  import StableSort

  const BIOLOGICAL_SEXES: seq<string> := ["male", "female"]
  const MIN_AGE: nat := 18
  const MAX_AGE: nat := 80

  /** One row of `condition_symptom_probability`: condition id, symptom id, probability. */
  datatype Link = Link(conditionId: Json, symptomId: string, probability: real)

  /** The fixture file: conditions, their symptom probabilities, and the symptoms. */
  datatype Fixtures = Fixtures(conditions: seq<Json>, links: seq<Link>, symptoms: seq<Json>)

  /** The draws one case takes. */
  datatype CaseDraws = CaseDraws(idDraw: nat, ageDraw: nat, sexDraw: nat, conditionDraw: nat, rand: Stream)

  /** `random.randint(MIN_AGE, MAX_AGE)` */
  function Age(draws: CaseDraws): (age: nat)
    ensures MIN_AGE <= age <= MAX_AGE
  {
    MIN_AGE + draws.ageDraw % (MAX_AGE - MIN_AGE + 1)
  }

  /** `random.choice(BIOLOGICAL_SEXES)` */
  function Sex(draws: CaseDraws): (sex: string)
    ensures sex in BIOLOGICAL_SEXES
  {
    BIOLOGICAL_SEXES[draws.sexDraw % |BIOLOGICAL_SEXES|]
  }

  /** `condition["probability"][sex]` can be read. */
  predicate HasWeight(condition: Json, sex: string) {
    Index(condition, "probability").Ok? && Index(Index(condition, "probability").value, sex).Ok?
  }

  /**
   * `[c["probability"][sex] for c in conditions]`, the weights of the
   * condition draw: every condition must have a probability for the sex.
   */
  function Weights(conditions: seq<Json>, sex: string): (r: Result<seq<Json>>)
    ensures r.Ok? <==> forall i :: 0 <= i < |conditions| ==> HasWeight(conditions[i], sex)
    ensures r.Ok? ==> |r.value| == |conditions|
    ensures r.Ok? ==> forall i :: 0 <= i < |conditions| ==>
      r.value[i] == Index(Index(conditions[i], "probability").value, sex).value
  {
    if conditions == [] then Ok([])
    else
      var table :- Index(conditions[0], "probability");
      var weight :- Index(table, sex);
      var rest :- Weights(conditions[1..], sex);
      Ok([weight] + rest)
  }

  /** `random.choices(conditions, weights)[0]`: the drawn index; an empty population raises IndexError. */
  function SampledCondition(conditions: seq<Json>, draws: CaseDraws): (r: Result<Json>)
    ensures r.Ok? <==> conditions != []
    ensures r.Ok? ==> r.value in conditions
    ensures r.Err? ==> r.error == IndexError
  {
    if conditions == [] then Err(IndexError) else Ok(conditions[draws.conditionDraw % |conditions|])
  }

  /** `{symptom_id: p for condition_id, symptom_id, p in links if condition_id == id}`; a later row wins. */
  function SymptomProbabilities(links: seq<Link>, conditionId: Json): Dict<string, real>
    decreases |links|
  {
    if links == [] then []
    else
      var before := SymptomProbabilities(links[..|links| - 1], conditionId);
      var last := links[|links| - 1];
      if last.conditionId == conditionId then Put(before, last.symptomId, last.probability)
      else before
  }

  /** Some row links the symptom to the condition. */
  predicate Linked(links: seq<Link>, conditionId: Json, symptomId: string) {
    exists i :: 0 <= i < |links| && links[i].conditionId == conditionId && links[i].symptomId == symptomId
  }

  lemma LinkedSnoc(links: seq<Link>, conditionId: Json, symptomId: string)
    requires links != []
    ensures Linked(links, conditionId, symptomId) <==>
      Linked(links[..|links| - 1], conditionId, symptomId) ||
      (links[|links| - 1].conditionId == conditionId && links[|links| - 1].symptomId == symptomId)
  {
    var init := links[..|links| - 1];
    if Linked(links, conditionId, symptomId) {
      var i :| 0 <= i < |links| && links[i].conditionId == conditionId && links[i].symptomId == symptomId;
      if i < |init| {
        assert init[i] == links[i];
      }
    }
    if Linked(init, conditionId, symptomId) {
      var i :| 0 <= i < |init| && init[i].conditionId == conditionId && init[i].symptomId == symptomId;
      assert links[i] == init[i];
    }
  }

  /** Each symptom linked to the condition appears once, and no other does. */
  lemma {:induction false} SymptomProbabilitiesKeys(links: seq<Link>, conditionId: Json)
    ensures var r := SymptomProbabilities(links, conditionId);
      && DistinctKeys(r)
      && forall k :: HasKey(r, k) <==> Linked(links, conditionId, k)
    decreases |links|
  {
    if links != [] {
      var init := links[..|links| - 1];
      var before := SymptomProbabilities(init, conditionId);
      var last := links[|links| - 1];
      var r := SymptomProbabilities(links, conditionId);
      SymptomProbabilitiesKeys(init, conditionId);
      if last.conditionId == conditionId {
        PutHasKey(before, last.symptomId, last.probability);
      }
      forall k ensures HasKey(r, k) <==> Linked(links, conditionId, k) {
        LinkedSnoc(links, conditionId, k);
      }
    }
  }

  /** Row `i` links the symptom to the condition, and no later row does. */
  predicate LastLink(links: seq<Link>, conditionId: Json, symptomId: string, i: int) {
    && 0 <= i < |links| && links[i].conditionId == conditionId && links[i].symptomId == symptomId
    && forall j :: i < j < |links| ==> !(links[j].conditionId == conditionId && links[j].symptomId == symptomId)
  }

  /** A linked symptom's probability is the one its last row gives: later rows overwrite earlier ones. */
  lemma {:induction false} SymptomProbabilitiesLast(links: seq<Link>, conditionId: Json, symptomId: string, i: int)
    requires LastLink(links, conditionId, symptomId, i)
    ensures Get(SymptomProbabilities(links, conditionId), symptomId) == Some(links[i].probability)
    decreases |links|
  {
    var init := links[..|links| - 1];
    var last := links[|links| - 1];
    if i < |links| - 1 {
      assert !(last.conditionId == conditionId && last.symptomId == symptomId);
      assert init[i] == links[i];
      assert LastLink(init, conditionId, symptomId, i);
      SymptomProbabilitiesLast(init, conditionId, symptomId, i);
      if last.conditionId == conditionId {
        PutOther(SymptomProbabilities(init, conditionId), last.symptomId, last.probability, symptomId);
      }
    }
  }

  /**
   * `states.get(symptom["id"])` for a symptom whose id is a string; None
   * otherwise. Python's `in` would raise TypeError for a list or dict id;
   * the fixture's symptom ids are all strings, so the model does not.
   */
  function StateOf(symptom: Json, states: Dict<string, string>): Option<string> {
    var id := Index(symptom, "id");
    if id.Ok? && id.value.JStr? then Get(states, id.value.s) else None
  }

  /**
   * `[combine_symptom_and_state(s, states.get(s["id"])) for s in symptoms
   * if s["id"] in states]`: the fixture's symptoms that were sampled, in
   * fixture order, each with its state. Reading an id raises for a symptom
   * that is not an object or has none.
   */
  function SymptomsWithStates(symptoms: seq<Json>, states: Dict<string, string>): (r: Result<seq<Json>>)
    ensures r.Ok? <==> forall i :: 0 <= i < |symptoms| ==> Index(symptoms[i], "id").Ok?
  {
    if symptoms == [] then Ok([])
    else
      var id :- Index(symptoms[0], "id");
      match StateOf(symptoms[0], states)
      case Some(st) =>
        var combined :- CombineSymptomAndState(symptoms[0], JStr(st));
        var rest :- SymptomsWithStates(symptoms[1..], states);
        Ok([combined] + rest)
      case None => SymptomsWithStates(symptoms[1..], states)
  }

  /** The positions from `from` on whose symptom has a sampled state, in increasing order. */
  function StatedIndices(symptoms: seq<Json>, states: Dict<string, string>, from: nat): seq<nat>
    decreases |symptoms| - from
  {
    if from >= |symptoms| then []
    else if StateOf(symptoms[from], states).Some? then [from] + StatedIndices(symptoms, states, from + 1)
    else StatedIndices(symptoms, states, from + 1)
  }

  /** Every position in `idx` is one from `from` on whose symptom has a sampled state. */
  predicate StatedFrom(symptoms: seq<Json>, states: Dict<string, string>, from: nat, idx: seq<nat>) {
    forall n :: 0 <= n < |idx| ==> from <= idx[n] < |symptoms| && StateOf(symptoms[idx[n]], states).Some?
  }

  /** Every stated position is one from `from` on whose symptom has a sampled state. */
  lemma {:induction false} StatedIndicesSound(symptoms: seq<Json>, states: Dict<string, string>, from: nat)
    ensures StatedFrom(symptoms, states, from, StatedIndices(symptoms, states, from))
    decreases |symptoms| - from
  {
    if from < |symptoms| {
      StatedIndicesSound(symptoms, states, from + 1);
      var later := StatedIndices(symptoms, states, from + 1);
      if StateOf(symptoms[from], states).Some? {
        var idx := [from] + later;
        assert StatedIndices(symptoms, states, from) == idx;
        forall n | 0 <= n < |idx|
          ensures from <= idx[n] < |symptoms| && StateOf(symptoms[idx[n]], states).Some?
        {
          if n > 0 {
            assert idx[n] == later[n - 1];
            assert from + 1 <= later[n - 1] < |symptoms|;
          }
        }
      } else {
        assert StatedIndices(symptoms, states, from) == later;
      }
    }
  }

  /** Every position from `from` on whose symptom has a sampled state is listed. */
  lemma {:induction false} StatedIndicesComplete(symptoms: seq<Json>, states: Dict<string, string>, from: nat)
    ensures forall i :: from <= i < |symptoms| && StateOf(symptoms[i], states).Some? ==> i in StatedIndices(symptoms, states, from)
    decreases |symptoms| - from
  {
    if from < |symptoms| {
      StatedIndicesComplete(symptoms, states, from + 1);
    }
  }

  /** The positions are listed in strictly increasing order. */
  predicate Increasing(idx: seq<nat>) {
    forall m, n :: 0 <= m < n < |idx| ==> idx[m] < idx[n]
  }

  /** The stated positions are listed in increasing order, so each once. */
  lemma {:induction false} StatedIndicesIncreasing(symptoms: seq<Json>, states: Dict<string, string>, from: nat)
    ensures Increasing(StatedIndices(symptoms, states, from))
    decreases |symptoms| - from
  {
    if from < |symptoms| {
      StatedIndicesIncreasing(symptoms, states, from + 1);
      StatedIndicesSound(symptoms, states, from + 1);
      var later := StatedIndices(symptoms, states, from + 1);
      if StateOf(symptoms[from], states).Some? {
        assert StatedIndices(symptoms, states, from) == [from] + later;
        IncreasingCons(from, later);
      }
    }
  }

  /** A position below every listed one can be put in front of an increasing list. */
  lemma IncreasingCons(first: nat, rest: seq<nat>)
    requires Increasing(rest)
    requires forall k :: 0 <= k < |rest| ==> first < rest[k]
    ensures Increasing([first] + rest)
  {
    var idx := [first] + rest;
    forall m, n | 0 <= m < n < |idx|
      ensures idx[m] < idx[n]
    {
      assert idx[n] == rest[n - 1];
      if m > 0 {
        assert idx[m] == rest[m - 1];
      }
    }
  }

  /** The symptom is an object with a sampled state, and `x` is it combined with that state. */
  predicate CombinedWithOwnState(symptom: Json, states: Dict<string, string>, x: Json) {
    symptom.JObj? && StateOf(symptom, states).Some? &&
    x == CombineSymptomAndState(symptom, JStr(StateOf(symptom, states).value)).value
  }

  /** `r` holds, position by position, the symptoms at positions `idx`, each combined with its own sampled state. */
  predicate WithOwnStates(symptoms: seq<Json>, states: Dict<string, string>, idx: seq<nat>, r: seq<Json>)
    decreases |idx|
  {
    && |r| == |idx|
    && (idx != [] ==>
          && idx[0] < |symptoms| && CombinedWithOwnState(symptoms[idx[0]], states, r[0])
          && WithOwnStates(symptoms, states, idx[1..], r[1..]))
  }

  /**
   * The symptoms with states are exactly the sampled fixture symptoms, in
   * fixture order, each combined with its own sampled state.
   */
  lemma SymptomsWithStatesExact(symptoms: seq<Json>, states: Dict<string, string>)
    requires SymptomsWithStates(symptoms, states).Ok?
    ensures WithOwnStates(symptoms, states, StatedIndices(symptoms, states, 0), SymptomsWithStates(symptoms, states).value)
  {
    assert symptoms[0..] == symptoms;
    SymptomsWithStatesFrom(symptoms, states, 0);
  }

  lemma {:induction false} SymptomsWithStatesFrom(symptoms: seq<Json>, states: Dict<string, string>, from: nat)
    requires from <= |symptoms| && SymptomsWithStates(symptoms[from..], states).Ok?
    ensures WithOwnStates(symptoms, states, StatedIndices(symptoms, states, from), SymptomsWithStates(symptoms[from..], states).value)
    decreases |symptoms| - from
  {
    if from < |symptoms| {
      var tail := symptoms[from..];
      assert tail[0] == symptoms[from] && tail[1..] == symptoms[from + 1..];
      SymptomsWithStatesFrom(symptoms, states, from + 1);
      var rest := SymptomsWithStates(tail[1..], states).value;
      var later := StatedIndices(symptoms, states, from + 1);
      match StateOf(symptoms[from], states)
      case Some(st) =>
        var combined := CombineSymptomAndState(symptoms[from], JStr(st)).value;
        assert SymptomsWithStates(tail, states).value == [combined] + rest;
        assert StatedIndices(symptoms, states, from) == [from] + later;
        assert CombinedWithOwnState(symptoms[from], states, combined);
        WithOwnStatesCons(symptoms, states, from, later, combined, rest);
      case None =>
        assert SymptomsWithStates(tail, states) == SymptomsWithStates(tail[1..], states);
        assert StatedIndices(symptoms, states, from) == later;
    }
  }

  lemma WithOwnStatesCons(symptoms: seq<Json>, states: Dict<string, string>, i: nat, idx: seq<nat>, combined: Json, r: seq<Json>)
    requires WithOwnStates(symptoms, states, idx, r)
    requires i < |symptoms| && CombinedWithOwnState(symptoms[i], states, combined)
    ensures WithOwnStates(symptoms, states, [i] + idx, [combined] + r)
  {
    var idx', r' := [i] + idx, [combined] + r;
    assert idx'[0] == i && r'[0] == combined;
    assert idx'[1..] == idx && r'[1..] == r;
  }

  /** The states the sampling gave, as JSON strings. */
  function StateValues(states: Dict<string, string>): set<Json> {
    set p | p in states :: JStr(p.1)
  }

  /** An object whose "state" is one the sampling gave. */
  predicate Stated(symptom: Json, states: Dict<string, string>) {
    symptom.JObj? && Index(symptom, "state").Ok? && Index(symptom, "state").value in StateValues(states)
  }

  /** Every symptom kept carries a state the sampling gave. */
  lemma {:induction false} SymptomsWithStatesStated(symptoms: seq<Json>, states: Dict<string, string>)
    requires SymptomsWithStates(symptoms, states).Ok?
    ensures var r := SymptomsWithStates(symptoms, states).value;
      forall x :: x in r ==> Stated(x, states)
  {
    if symptoms != [] {
      SymptomsWithStatesStated(symptoms[1..], states);
      var id := Index(symptoms[0], "id").value;
      var r := SymptomsWithStates(symptoms, states).value;
      var rest := SymptomsWithStates(symptoms[1..], states).value;
      if id.JStr? && Get(states, id.s).Some? {
        var state := Get(states, id.s).value;
        var combined := CombineSymptomAndState(symptoms[0], JStr(state)).value;
        assert r == [combined] + rest;
        var n :| 0 <= n < |states| && states[n] == (id.s, state);
        assert JStr(state) in StateValues(states);
      }
    }
  }

  predicate IsPresent(symptom: Json) {
    Index(symptom, "state") == Ok(JStr(PRESENT))
  }

  /** `[i for i, s in enumerate(symptoms) if s["state"] == PRESENT][0]`, or None when there is none. */
  function FirstPresent(symptoms: seq<Json>): (r: Option<nat>)
    ensures r.Some? ==> r.value < |symptoms| && IsPresent(symptoms[r.value])
                        && forall j :: 0 <= j < r.value ==> !IsPresent(symptoms[j])
    ensures r.None? ==> forall j :: 0 <= j < |symptoms| ==> !IsPresent(symptoms[j])
  {
    if symptoms == [] then None
    else if IsPresent(symptoms[0]) then Some(0)
    else
      var rest := FirstPresent(symptoms[1..]);
      assert forall j :: 1 <= j < |symptoms| ==> symptoms[1..][j - 1] == symptoms[j];
      if rest.Some? then Some(rest.value + 1) else None
  }

  /** The presenting complaint and the other features: the first present symptom popped off. */
  datatype Split = Split(presenting: Json, others: seq<Json>)

  /** `symptoms.pop(first present index)`; IndexError when no symptom is present. */
  function SplitPresenting(symptoms: seq<Json>): (r: Result<Split>)
    ensures r.Ok? <==> exists j :: 0 <= j < |symptoms| && IsPresent(symptoms[j])
    ensures r.Err? ==> r.error == IndexError
    ensures r.Ok? ==> var i := FirstPresent(symptoms).value;
      && r.value.presenting == symptoms[i] && IsPresent(r.value.presenting)
      && r.value.others == symptoms[..i] + symptoms[i + 1..]
      && forall j :: 0 <= j < i ==> !IsPresent(symptoms[j])
  {
    match FirstPresent(symptoms)
    case None => Err(IndexError)
    case Some(i) => Ok(Split(symptoms[i], symptoms[..i] + symptoms[i + 1..]))
  }

  /** The other features are symptoms that were there before the split. */
  lemma SplitOthers(symptoms: seq<Json>)
    requires SplitPresenting(symptoms).Ok?
    ensures forall x :: x in SplitPresenting(symptoms).value.others ==> x in symptoms
  {
    var i := FirstPresent(symptoms).value;
    var others := SplitPresenting(symptoms).value.others;
    forall x | x in others ensures x in symptoms {
      var j :| 0 <= j < |others| && others[j] == x;
      if j < i {
        assert others[j] == symptoms[j];
      } else {
        assert others[j] == symptoms[j + 1];
      }
    }
  }

  /** A synthesized case: its UUID (as its integer value) and its data. */
  datatype SynthCase = SynthCase(id: nat, data: Json)

  /** The profile: biological sex and age. */
  function Profile(sex: string, age: nat): Json {
    JObj([("biological_sex", JStr(sex)), ("age", JNum(age as real))])
  }

  /**
   * What a case predicts: the sampled condition's triage level, id and name,
   * the triage level stored under `triageKey`.
   */
  function ValuesToPredict(condition: Json, triageKey: string): (r: Result<Json>)
    ensures r.Ok? <==> Index(condition, "expected_triage_level").Ok? && Index(condition, "id").Ok? && Index(condition, "name").Ok?
    ensures r.Ok? ==> r.value == JObj([
              (triageKey, Index(condition, "expected_triage_level").value),
              ("condition", JObj([("id", Index(condition, "id").value), ("name", Index(condition, "name").value)]))])
  {
    var triage :- Index(condition, "expected_triage_level");
    var id :- Index(condition, "id");
    var name :- Index(condition, "name");
    Ok(JObj([(triageKey, triage), ("condition", JObj([("id", id), ("name", name)]))]))
  }

  /**
   * The case part shared by both generators: the sampled condition, its
   * symptom probabilities and sampled states, and the split of the symptoms.
   * `noProbabilities` is what the generator raises when there are no symptom
   * probabilities or no sampled states.
   */
  datatype Sampled = Sampled(condition: Json, split: Split)

  function SampleCase(fixtures: Fixtures, sex: string, draws: CaseDraws, noProbabilities: Exception): (r: Result<Sampled>)
  {
    var _ :- Weights(fixtures.conditions, sex);
    var condition :- SampledCondition(fixtures.conditions, draws);
    // the condition's id is read in the comprehension's filter, once per row
    if fixtures.links == [] then Err(noProbabilities)
    else
      var conditionId :- Index(condition, "id");
      var probabilities := SymptomProbabilities(fixtures.links, conditionId);
      if |probabilities| <= 0 then Err(noProbabilities)
      else
        SampleHasPresent(probabilities, draws.rand);
        var states := SampledSymptoms(probabilities, draws.rand).value;
        if |states| <= 0 then Err(noProbabilities)
        else
          var symptoms :- SymptomsWithStates(fixtures.symptoms, states);
          var split :- SplitPresenting(symptoms);
          Ok(Sampled(condition, split))
  }

  /**
   * However the draws fall, a case that is sampled has a fixture condition
   * and a present presenting complaint, and each of its other features is
   * an object carrying a state.
   */
  lemma SampledCaseShape(fixtures: Fixtures, sex: string, draws: CaseDraws, noProbabilities: Exception)
    requires SampleCase(fixtures, sex, draws, noProbabilities).Ok?
    ensures var s := SampleCase(fixtures, sex, draws, noProbabilities).value;
      && IsPresent(s.split.presenting)
      && s.condition in fixtures.conditions
      && forall x :: x in s.split.others ==> x.JObj? && Index(x, "state").Ok?
  {
    var s := SampleCase(fixtures, sex, draws, noProbabilities).value;
    var condition := SampledCondition(fixtures.conditions, draws).value;
    assert fixtures.links != [];
    var conditionId := Index(condition, "id").value;
    var probabilities := SymptomProbabilities(fixtures.links, conditionId);
    var states := SampledSymptoms(probabilities, draws.rand).value;
    var symptoms := SymptomsWithStates(fixtures.symptoms, states).value;
    assert s == Sampled(condition, SplitPresenting(symptoms).value);
    SymptomsWithStatesStated(fixtures.symptoms, states);
    SplitOthers(symptoms);
  }

  /**
   * With no condition-symptom rows the condition's id is never read: the
   * generator raises its own error even for a condition without an id.
   */
  lemma NoLinksRaises(fixtures: Fixtures, sex: string, draws: CaseDraws, noProbabilities: Exception)
    requires Weights(fixtures.conditions, sex).Ok? && fixtures.conditions != []
    requires fixtures.links == []
    ensures SampleCase(fixtures, sex, draws, noProbabilities) == Err(noProbabilities)
  {
  }

  /**
   * With some rows the id is read; a condition without one raises KeyError
   * (or TypeError when the sampled condition is not an object).
   */
  lemma MissingIdRaises(fixtures: Fixtures, sex: string, draws: CaseDraws, noProbabilities: Exception)
    requires Weights(fixtures.conditions, sex).Ok? && fixtures.conditions != []
    requires fixtures.links != []
    requires Index(fixtures.conditions[draws.conditionDraw % |fixtures.conditions|], "id").Err?
    ensures SampleCase(fixtures, sex, draws, noProbabilities)
      == Err(Index(fixtures.conditions[draws.conditionDraw % |fixtures.conditions|], "id").error)
  {
  }

  /** A condition with no symptom probabilities raises the generator's error. */
  lemma NoProbabilitiesRaises(fixtures: Fixtures, sex: string, draws: CaseDraws, noProbabilities: Exception)
    requires Weights(fixtures.conditions, sex).Ok? && fixtures.conditions != []
    requires var condition := fixtures.conditions[draws.conditionDraw % |fixtures.conditions|];
      && Index(condition, "id").Ok?
      && forall i :: 0 <= i < |fixtures.links| ==> fixtures.links[i].conditionId != Index(condition, "id").value
    ensures SampleCase(fixtures, sex, draws, noProbabilities) == Err(noProbabilities)
  {
    var condition := fixtures.conditions[draws.conditionDraw % |fixtures.conditions|];
    var probabilities := SymptomProbabilities(fixtures.links, Index(condition, "id").value);
    SymptomProbabilitiesKeys(fixtures.links, Index(condition, "id").value);
    if probabilities != [] {
      assert HasKey(probabilities, probabilities[0].0) by {
        assert Keys(probabilities)[0] == probabilities[0].0;
      }
    }
  }

  /** One case of `generate_cases`, the `number`-th of `quantity`. */
  function GeneratedCase(fixtures: Fixtures, number: nat, quantity: int, draws: CaseDraws): (r: Result<SynthCase>)
  {
    var age := Age(draws);
    var sex := Sex(draws);
    var metaData := JObj([("description", JStr("Synthetic London-model case (" + IntToString(number + 1) + "/" + IntToString(quantity) + ")"))]);
    var sampled :- SampleCase(fixtures, sex, draws, SynthesisError);
    var predicted :- ValuesToPredict(sampled.condition, "expected_triage_level");
    Ok(SynthCase(draws.idDraw, JObj([
      ("case_data", JObj([
        ("meta_data", metaData),
        ("profile_information", Profile(sex, age)),
        ("presenting_complaints", JArr([sampled.split.presenting])),
        ("other_features", JArr(sampled.split.others))])),
      ("values_to_predict", predicted)])))
  }

  /** The `number`-th iteration of the loop, for every number. */
  function CaseMaker(fixtures: Fixtures, quantity: int, draws: nat -> CaseDraws): nat -> Result<SynthCase> {
    (number: nat) => GeneratedCase(fixtures, number, quantity, draws(number))
  }

  /** The cases of the first `n` iterations, in the order they are made; the first failure raises. */
  function GeneratedCases(make: nat -> Result<SynthCase>, n: nat): (r: Result<seq<SynthCase>>)
    ensures r.Ok? ==> |r.value| == n
    ensures r.Ok? ==> forall j :: 0 <= j < n ==> Ok(r.value[j]) == make(j)
  {
    if n == 0 then Ok([])
    else
      var before :- GeneratedCases(make, n - 1);
      var last :- make(n - 1);
      Ok(before + [last])
  }

  function Ids(cases: seq<SynthCase>): (keys: seq<real>)
    ensures |keys| == |cases| && forall j :: 0 <= j < |cases| ==> keys[j] == cases[j].id as real
  {
    seq(|cases|, j requires 0 <= j < |cases| => cases[j].id as real)
  }

  /** `generate_cases`: `quantity` cases (none for a quantity below one), returned sorted by id. */
  method GenerateCases(fixtures: Fixtures, quantity: int, draws: nat -> CaseDraws) returns (r: Result<seq<SynthCase>>)
    ensures var count := if quantity > 0 then quantity else 0;
      var made := GeneratedCases(CaseMaker(fixtures, quantity, draws), count);
      && (made.Err? ==> r == Err(made.error))
      && (made.Ok? ==> r == Ok(StableSort.SortArrayByAnotherArray(made.value, Ids(made.value), false)))
  {
    var count := if quantity > 0 then quantity else 0;
    var cases :- MakeCases(CaseMaker(fixtures, quantity, draws), count);
    return Ok(StableSort.SortArrayByAnotherArray(cases, Ids(cases), false));
  }

  /** The loop of `generate_cases`: `make(number)` for each number below `count`, appended in order. */
  method MakeCases(make: nat -> Result<SynthCase>, count: nat) returns (r: Result<seq<SynthCase>>)
    ensures r == GeneratedCases(make, count)
  {
    var cases: seq<SynthCase> := [];
    for number := 0 to count
      invariant GeneratedCases(make, number) == Ok(cases)
    {
      var made := make(number);
      GeneratedStep(make, number, cases, made);
      if made.Err? {
        GeneratedCasesFail(make, number + 1, count);
        return Err(made.error);
      }
      cases := cases + [made.value];
    }
    return Ok(cases);
  }

  /** One more iteration: its failure is the run's, or its case is appended. */
  lemma GeneratedStep(make: nat -> Result<SynthCase>, n: nat, cases: seq<SynthCase>, made: Result<SynthCase>)
    requires GeneratedCases(make, n) == Ok(cases) && make(n) == made
    ensures made.Err? ==> GeneratedCases(make, n + 1) == Err(made.error)
    ensures made.Ok? ==> GeneratedCases(make, n + 1) == Ok(cases + [made.value])
  {
  }

  /** A failure at the n-th case is the failure of every longer run. */
  lemma {:induction false} GeneratedCasesFail(make: nat -> Result<SynthCase>, n: nat, m: nat)
    requires n <= m && GeneratedCases(make, n).Err?
    ensures GeneratedCases(make, m) == GeneratedCases(make, n)
    decreases m - n
  {
    if n < m {
      GeneratedCasesFail(make, n, m - 1);
    }
  }

  /** The returned cases are the generated ones, ordered by id. */
  lemma GeneratedSortedById(cases: seq<SynthCase>)
    ensures var sorted := StableSort.SortArrayByAnotherArray(cases, Ids(cases), false);
      && |sorted| == |cases|
      && multiset(sorted) == multiset(cases)
      && forall i, j :: 0 <= i < j < |sorted| ==> sorted[i].id <= sorted[j].id
  {
    var tagged := StableSort.Tag(StableSort.Zip(Ids(cases), cases));
    var t := StableSort.Sort(tagged, false);
    StableSort.SortArrayByAnotherArraySpec(cases, Ids(cases), false);
    assert StableSort.Items(tagged) == cases;
    StableSort.ItemsOfMultiset(t, tagged);
    forall i | 0 <= i < |t| ensures t[i].key == t[i].item.id as real {
      assert t[i] in tagged;
    }
    IdsAscending(t);
  }

  /** Cases tagged with their ids and sorted ascending by key are in ascending id order. */
  lemma IdsAscending(t: seq<StableSort.Tagged<SynthCase>>)
    requires StableSort.SortedBy(t, false)
    requires forall i :: 0 <= i < |t| ==> t[i].key == t[i].item.id as real
    ensures forall i, j :: 0 <= i < j < |t| ==> StableSort.Items(t)[i].id <= StableSort.Items(t)[j].id
  {
    forall i, j | 0 <= i < j < |t| ensures StableSort.Items(t)[i].id <= StableSort.Items(t)[j].id {
      assert StableSort.Precedes(t[i], t[j], false);
    }
  }
}
