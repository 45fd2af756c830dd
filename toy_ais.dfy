/**
 * The toy AIs: stand-in symptom checkers that answer a case from the
 * condition fixtures. Two of them are deterministic (the "most likely
 * conditions" AI and the "symptom intersection" AI, the latter also run as the
 * Babylon participant), two pick conditions at random. Each answer is a
 * dictionary `{"triage": ..., "conditions": [...]}` whose conditions carry only
 * an id and a name.
 *
 * The fixture file is loaded at import time in the original; here it is the
 * `Fixtures` parameter. Random draws are the `RandomDraws` oracle.
 */
module ToyAIs {
  import opened Wrappers
  import opened Dicts
  import opened Text
  import opened JsonValues
  import StableSort

  const MAX_RETURNED_CONDITIONS: nat := 3
  const BABYLON_MAX_RETURNED_CONDITIONS: nat := 7
  /** `random.randint(0, 5)` bounds the number of randomly chosen conditions. */
  const MAX_RANDOM_CONDITIONS: nat := 5
  const GENDERS: seq<string> := ["male", "female"]
  const TRIAGE_LEVELS: seq<string> := ["SC", "PC", "EC", "UNCERTAIN"]
  const ID_AND_NAME: seq<string> := ["id", "name"]
  const ID_NAME_AND_TRIAGE: seq<string> := ["id", "name", "expected_triage_level"]

  /** One `[condition_id, symptom_id, probability]` triple; the solvers ignore the probability. */
  datatype Link = Link(conditionId: Json, symptomId: Json)

  /** The `conditions` and `condition_symptom_probability` lists of the fixture file. */
  datatype Fixtures = Fixtures(conditions: seq<Json>, links: seq<Link>)

  /** `s[:n]` */
  function Take<T>(s: seq<T>, n: nat): (r: seq<T>)
    ensures |r| == if |s| < n then |s| else n
    ensures r == s[..|r|]
  {
    if |s| < n then s else s[..n]
  }

  // ------------------------------------------------------------ drop_all_but_keys

  predicate DistinctNames(keys: seq<string>) {
    forall i, j :: 0 <= i < j < |keys| ==> keys[i] != keys[j]
  }

  /** Every listed key can be read from val. */
  predicate AllPresent(val: Json, keys: seq<string>) {
    keys == [] || (val.JObj? && forall k :: k in keys ==> HasKey(val.fields, k))
  }

  /**
   * `drop_all_but_keys(val, keys)`: a new dictionary of the listed keys with
   * val's values. A missing key raises KeyError; indexing a value that is not
   * a dictionary raises TypeError.
   */
  function Projected(val: Json, keys: seq<string>): (r: Result<Dict<string, Json>>)
    ensures r.Ok? <==> AllPresent(val, keys)
    ensures r.Err? ==> r.error == (if val.JObj? then KeyError else TypeError)
    decreases |keys|
  {
    if keys == [] then Ok([])
    else
      var init := keys[..|keys| - 1];
      var last := keys[|keys| - 1];
      assert forall k :: k in keys <==> k in init || k == last;
      var out :- Projected(val, init);
      var v :- Index(val, last);
      Ok(Put(out, last, v))
  }

  /** The projection holds exactly the listed keys, each once. */
  lemma {:induction false} ProjectionKeys(val: Json, keys: seq<string>)
    requires Projected(val, keys).Ok?
    ensures var d := Projected(val, keys).value;
      DistinctKeys(d) && forall k :: HasKey(d, k) <==> k in keys
    decreases |keys|
  {
    if keys != [] {
      var init := keys[..|keys| - 1];
      var last := keys[|keys| - 1];
      assert forall k :: k in keys <==> k in init || k == last;
      ProjectionKeys(val, init);
      PutHasKey(Projected(val, init).value, last, Index(val, last).value);
    }
  }

  /** With distinct keys, the projection lists them in the given order. */
  lemma {:induction false} ProjectionOrder(val: Json, keys: seq<string>)
    requires Projected(val, keys).Ok? && DistinctNames(keys)
    ensures Keys(Projected(val, keys).value) == keys
    decreases |keys|
  {
    if keys != [] {
      var init := keys[..|keys| - 1];
      var last := keys[|keys| - 1];
      DistinctInit(keys);
      ProjectionOrder(val, init);
      ProjectionKeys(val, init);
      var out := Projected(val, init).value;
      assert !HasKey(out, last);
      ProjectedSnoc(val, keys);
      assert keys == init + [last];
    }
  }

  lemma DistinctInit(keys: seq<string>)
    requires DistinctNames(keys) && keys != []
    ensures DistinctNames(keys[..|keys| - 1]) && keys[|keys| - 1] !in keys[..|keys| - 1]
  {
    var init := keys[..|keys| - 1];
    forall i, j | 0 <= i < j < |init| ensures init[i] != init[j] {
      assert init[i] == keys[i] && init[j] == keys[j];
    }
    forall i | 0 <= i < |init| ensures init[i] != keys[|keys| - 1] {
      assert init[i] == keys[i];
    }
  }

  lemma ProjectedSnoc(val: Json, keys: seq<string>)
    requires Projected(val, keys).Ok? && keys != []
    ensures Projected(val, keys[..|keys| - 1]).Ok? && Index(val, keys[|keys| - 1]).Ok?
    ensures Projected(val, keys).value ==
      Put(Projected(val, keys[..|keys| - 1]).value, keys[|keys| - 1], Index(val, keys[|keys| - 1]).value)
  {
  }

  /** A listed key other than the last is listed before it. */
  lemma InFront(keys: seq<string>, k: string)
    requires k in keys && k != keys[|keys| - 1]
    ensures k in keys[..|keys| - 1]
  {
    var i :| 0 <= i < |keys| && keys[i] == k;
    assert keys[..|keys| - 1][i] == k;
  }

  /** Each listed key keeps val's value. */
  lemma {:induction false} ProjectedValues(val: Json, keys: seq<string>, k: string)
    requires Projected(val, keys).Ok? && val.JObj? && k in keys
    ensures Get(Projected(val, keys).value, k) == Get(val.fields, k)
    decreases |keys|
  {
    var init := keys[..|keys| - 1];
    var last := keys[|keys| - 1];
    ProjectedSnoc(val, keys);
    var out := Projected(val, init).value;
    var v := Index(val, last).value;
    if k != last {
      InFront(keys, k);
      ProjectedValues(val, init, k);
      PutOther(out, last, v, k);
    }
  }

  /** An object with every listed key projects without error. */
  lemma {:induction false} ProjectedOk(val: Json, keys: seq<string>)
    requires val.JObj? && forall k :: k in keys ==> HasKey(val.fields, k)
    ensures Projected(val, keys).Ok?
    decreases |keys|
  {
    if keys != [] {
      var init := keys[..|keys| - 1];
      assert forall k :: k in init ==> k in keys;
      ProjectedOk(val, init);
      assert keys[|keys| - 1] in keys;
    }
  }

  /** The loop of `drop_all_but_keys`, one key at a time. */
  method DropAllButKeys(val: Json, keys: seq<string>) returns (r: Result<Dict<string, Json>>)
    ensures r == Projected(val, keys)
  {
    var output: Dict<string, Json> := [];
    var i := 0;
    while i < |keys|
      invariant 0 <= i <= |keys|
      invariant Projected(val, keys[..i]) == Ok(output)
    {
      var v := Index(val, keys[i]);
      if v.Err? {
        assert keys[i] in keys;
        return Err(v.error);
      }
      assert keys[..i + 1][..i] == keys[..i];
      output := Put(output, keys[i], v.value);
      i := i + 1;
    }
    assert keys[..i] == keys;
    r := Ok(output);
  }

  // ------------------------------------------------------------ extract_biological_sex

  /** `case_data["profileInformation"]["biologicalSex"]` */
  function SexField(caseData: Json): Result<Json> {
    var profile :- Index(caseData, "profileInformation");
    Index(profile, "biologicalSex")
  }

  /** `extract_biological_sex`: the recorded sex, asserted to be one of GENDERS. */
  function BiologicalSex(caseData: Json): (r: Result<string>)
    ensures r.Ok? <==> SexField(caseData).Ok? && SexField(caseData).value in [JStr("male"), JStr("female")]
    ensures r.Ok? ==> r.value in GENDERS && SexField(caseData) == Ok(JStr(r.value))
    ensures SexField(caseData).Ok? && r.Err? ==> r.error == AssertionError
  {
    var sex :- SexField(caseData);
    if sex == JStr("male") || sex == JStr("female") then Ok(sex.s) else Err(AssertionError)
  }

  // ------------------------------------------------------------ complaints

  /** Which toy AI's reading of the case: the toy_ai package or the Babylon participant. */
  datatype Variant = ToyAI | Babylon {
    /** The second list of findings in the case. */
    function OtherKey(): string {
      if ToyAI? then "otherComplaints" else "otherFeatures"
    }
    /** The state that marks a finding as reported. */
    function ReportedState(): string {
      if ToyAI? then "true" else "present"
    }
    function MaxReturned(): nat {
      if ToyAI? then MAX_RETURNED_CONDITIONS else BABYLON_MAX_RETURNED_CONDITIONS
    }
  }

  /** The element reports the finding with the given id. */
  predicate Reports(element: Json, state: string, id: Json) {
    Index(element, "state") == Ok(JStr(state)) && Index(element, "id") == Ok(id)
  }

  /** Reading the element's state, or the id of a reported element, raises. */
  predicate Unreadable(element: Json, state: string) {
    Index(element, "state").Err? || (Index(element, "state") == Ok(JStr(state)) && Index(element, "id").Err?)
  }

  /** One element of the comprehension: its id when its state matches. */
  function Selected(element: Json, state: string): (r: Result<seq<Json>>)
    ensures r.Err? <==> Unreadable(element, state)
    ensures r.Ok? ==> forall x :: x in r.value <==> Reports(element, state, x)
  {
    var st :- Index(element, "state");
    if st == JStr(state) then
      var id :- Index(element, "id");
      Ok([id])
    else Ok([])
  }

  /** `[element["id"] for element in elements if element["state"] == state]` */
  function ReportedIds(elements: seq<Json>, state: string): (r: Result<seq<Json>>)
    ensures r.Err? <==> exists e :: e in elements && Unreadable(e, state)
    ensures r.Ok? ==> forall x :: x in r.value <==> exists e :: e in elements && Reports(e, state, x)
  {
    if elements == [] then Ok([])
    else
      var head :- Selected(elements[0], state);
      var rest :- ReportedIds(elements[1..], state);
      assert forall e :: e in elements <==> e == elements[0] || e in elements[1..];
      Ok(head + rest)
  }

  /**
   * The set of reported finding ids: those of the presenting complaints
   * followed by those of the variant's second list. `set()` raises TypeError
   * when one of them is a list or a dict.
   */
  function Complaints(caseData: Json, variant: Variant): (r: Result<set<Json>>)
    ensures r.Ok? ==> forall x :: x in r.value ==> Hashable(x)
  {
    var presenting :- Index(caseData, "presentingComplaints");
    var presentingItems :- Iterated(presenting);
    var first :- ReportedIds(presentingItems, variant.ReportedState());
    var others :- Index(caseData, variant.OtherKey());
    var otherItems :- Iterated(others);
    var second :- ReportedIds(otherItems, variant.ReportedState());
    if exists i :: 0 <= i < |first + second| && !Hashable((first + second)[i]) then Err(TypeError)
    else Ok(set x | x in first + second)
  }

  /** Both lists of reported elements can be read, and the ids they report. */
  predicate ComplaintListsRead(caseData: Json, variant: Variant) {
    && Index(caseData, "presentingComplaints").Ok?
    && Iterated(Index(caseData, "presentingComplaints").value).Ok?
    && ReportedIds(Iterated(Index(caseData, "presentingComplaints").value).value, variant.ReportedState()).Ok?
    && Index(caseData, variant.OtherKey()).Ok?
    && Iterated(Index(caseData, variant.OtherKey()).value).Ok?
    && ReportedIds(Iterated(Index(caseData, variant.OtherKey()).value).value, variant.ReportedState()).Ok?
  }

  /** The reported ids, presenting complaints first, once both lists are read. */
  function ReportedComplaintIds(caseData: Json, variant: Variant): seq<Json>
    requires ComplaintListsRead(caseData, variant)
  {
    ReportedIds(Iterated(Index(caseData, "presentingComplaints").value).value, variant.ReportedState()).value
      + ReportedIds(Iterated(Index(caseData, variant.OtherKey()).value).value, variant.ReportedState()).value
  }

  /**
   * Once both lists are read, the set is built exactly when every reported id
   * is hashable; a list or a dict among them raises TypeError.
   */
  lemma ComplaintsHashable(caseData: Json, variant: Variant)
    requires ComplaintListsRead(caseData, variant)
    ensures Complaints(caseData, variant).Ok? <==> forall x :: x in ReportedComplaintIds(caseData, variant) ==> Hashable(x)
    ensures Complaints(caseData, variant).Err? ==> Complaints(caseData, variant).error == TypeError
  {
    var ids := ReportedComplaintIds(caseData, variant);
    if exists i :: 0 <= i < |ids| && !Hashable(ids[i]) {
      var i :| 0 <= i < |ids| && !Hashable(ids[i]);
      assert ids[i] in ids;
    }
  }

  /** An id is a complaint exactly when an element of either list reports it. */
  lemma ComplaintsReported(caseData: Json, variant: Variant, x: Json)
    requires Complaints(caseData, variant).Ok?
    ensures Index(caseData, "presentingComplaints").Ok? && Iterated(Index(caseData, "presentingComplaints").value).Ok?
    ensures Index(caseData, variant.OtherKey()).Ok? && Iterated(Index(caseData, variant.OtherKey()).value).Ok?
    ensures var presenting := Iterated(Index(caseData, "presentingComplaints").value).value;
      var others := Iterated(Index(caseData, variant.OtherKey()).value).value;
      x in Complaints(caseData, variant).value <==>
        (exists e :: e in presenting && Reports(e, variant.ReportedState(), x)) ||
        (exists e :: e in others && Reports(e, variant.ReportedState(), x))
  {
    var state := variant.ReportedState();
    var presenting := Iterated(Index(caseData, "presentingComplaints").value).value;
    var others := Iterated(Index(caseData, variant.OtherKey()).value).value;
    var first := ReportedIds(presenting, state).value;
    var second := ReportedIds(others, state).value;
    assert Complaints(caseData, variant).value == set y | y in first + second;
    assert x in first + second <==> x in first || x in second;
  }

  // ------------------------------------------------------------ scoring

  /** How many links name the condition. */
  function Related(links: seq<Link>, id: Json): (n: nat)
    ensures n <= |links|
  {
    if links == [] then 0
    else Related(links[..|links| - 1], id) + (if links[|links| - 1].conditionId == id then 1 else 0)
  }

  /** How many links name the condition and a reported symptom. */
  function Matched(links: seq<Link>, id: Json, complaints: set<Json>): (n: nat)
    ensures n <= Related(links, id)
  {
    if links == [] then 0
    else
      var last := links[|links| - 1];
      Matched(links[..|links| - 1], id, complaints) + (if last.conditionId == id && last.symptomId in complaints then 1 else 0)
  }

  /** Every symptom linked to the condition was reported. */
  predicate AllLinkedReported(links: seq<Link>, id: Json, complaints: set<Json>) {
    forall i :: 0 <= i < |links| && links[i].conditionId == id ==> links[i].symptomId in complaints
  }

  /** Matched counts every related link exactly when all of them name a reported symptom. */
  lemma {:induction false} MatchedAllExactly(links: seq<Link>, id: Json, complaints: set<Json>)
    ensures Matched(links, id, complaints) == Related(links, id) <==> AllLinkedReported(links, id, complaints)
    decreases |links|
  {
    if links != [] {
      var init := links[..|links| - 1];
      MatchedAllExactly(init, id, complaints);
      assert forall i :: 0 <= i < |init| ==> init[i] == links[i];
    }
  }

  /** Reporting more symptoms never lowers the number matched. */
  lemma {:induction false} MatchedGrows(links: seq<Link>, id: Json, fewer: set<Json>, more: set<Json>)
    requires fewer <= more
    ensures Matched(links, id, fewer) <= Matched(links, id, more)
    decreases |links|
  {
    if links != [] {
      MatchedGrows(links[..|links| - 1], id, fewer, more);
    }
  }

  /**
   * The intersection score, `probability /= num_related_symptoms`: the share of
   * the condition's linked symptoms that were reported. A condition without
   * links divides by zero.
   */
  function Share(links: seq<Link>, id: Json, complaints: set<Json>): (r: Result<real>)
    ensures r.Err? <==> Related(links, id) == 0
    ensures r.Err? ==> r.error == ZeroDivisionError
    ensures r.Ok? ==> 0.0 <= r.value <= 1.0
  {
    var related := Related(links, id);
    if related == 0 then Err(ZeroDivisionError)
    else Ok(Matched(links, id, complaints) as real / related as real)
  }

  lemma RatioIsOne(m: real, n: real)
    requires n > 0.0
    ensures m / n == 1.0 <==> m == n
  {
    assert (m / n) * n == m;
  }

  lemma RatioMonotone(a: real, b: real, n: real)
    requires n > 0.0 && a <= b
    ensures a / n <= b / n
  {
    assert (b / n) * n - (a / n) * n == b - a;
    assert (b / n - a / n) * n == b - a;
  }

  /** A condition scores 1 exactly when it has links and all its linked symptoms were reported. */
  lemma FullShareIffAllReported(links: seq<Link>, id: Json, complaints: set<Json>)
    ensures Share(links, id, complaints) == Ok(1.0) <==> Related(links, id) > 0 && AllLinkedReported(links, id, complaints)
  {
    MatchedAllExactly(links, id, complaints);
    var related := Related(links, id);
    if related > 0 {
      RatioIsOne(Matched(links, id, complaints) as real, related as real);
    }
  }

  /** Reporting more symptoms never lowers a condition's score. */
  lemma ShareGrowsWithComplaints(links: seq<Link>, id: Json, fewer: set<Json>, more: set<Json>)
    requires fewer <= more && Related(links, id) > 0
    ensures Share(links, id, fewer).value <= Share(links, id, more).value
  {
    MatchedGrows(links, id, fewer, more);
    RatioMonotone(Matched(links, id, fewer) as real, Matched(links, id, more) as real, Related(links, id) as real);
  }

  /** The inner loop over the links, counting related and matched symptoms. */
  method ScoreCondition(links: seq<Link>, id: Json, complaints: set<Json>) returns (r: Result<real>)
    ensures r == Share(links, id, complaints)
  {
    var probability: nat := 0;
    var related: nat := 0;
    for i := 0 to |links|
      invariant related == Related(links[..i], id)
      invariant probability == Matched(links[..i], id, complaints)
    {
      assert links[..i + 1][..i] == links[..i];
      if links[i].conditionId == id {
        related := related + 1;
        if links[i].symptomId in complaints {
          probability := probability + 1;
        }
      }
    }
    assert links[..|links|] == links;
    if related == 0 {
      return Err(ZeroDivisionError);
    }
    r := Ok(probability as real / related as real);
  }

  // ------------------------------------------------------------ candidate conditions

  /** `condition["probability"][biological_sex]`, compared with 0.0 (anything but a number raises TypeError). */
  function SexProbability(condition: Json, sex: string): (r: Result<real>)
    ensures r.Ok? ==> Index(condition, "probability").Ok? && Index(Index(condition, "probability").value, sex).Ok?
  {
    var table :- Index(condition, "probability");
    var p :- Index(table, sex);
    match p
    case JNum(n) => Ok(n)
    case JBool(b) => Ok(if b then 1.0 else 0.0)
    case _ => Err(TypeError)
  }

  /** The condition's probability for the sex (0 when it cannot be read). */
  function Probability(condition: Json, sex: string): real {
    match SexProbability(condition, sex)
    case Ok(p) => p
    case Err(_) => 0.0
  }

  /** A condition the solvers consider: positive probability for the sex. */
  predicate Positive(condition: Json, sex: string) {
    SexProbability(condition, sex).Ok? && SexProbability(condition, sex).value > 0.0
  }

  /** The conditions with positive probability for the sex, in fixture order. */
  function Eligible(conditions: seq<Json>, sex: string): (e: seq<Json>)
    ensures forall i :: 0 <= i < |e| ==> Positive(e[i], sex)
    ensures forall c :: c in e <==> c in conditions && Positive(c, sex)
  {
    if conditions == [] then []
    else
      var init := conditions[..|conditions| - 1];
      var last := conditions[|conditions| - 1];
      assert forall c :: c in conditions <==> c in init || c == last;
      Eligible(init, sex) + (if Positive(last, sex) then [last] else [])
  }

  /** How a solver ranks the conditions it keeps. */
  datatype Scoring = ByProbability | ByIntersection(links: seq<Link>, complaints: set<Json>)

  /** The keys a solver keeps of each condition. */
  function ProjectedKeys(scoring: Scoring): seq<string> {
    if scoring.ByProbability? then ID_AND_NAME else ID_NAME_AND_TRIAGE
  }

  /** The value appended to `probabilities` for a kept condition. */
  function ScoreOf(scoring: Scoring, condition: Json, probability: real): (r: Result<real>)
    ensures scoring.ByProbability? ==> r == Ok(probability)
  {
    match scoring
    case ByProbability => Ok(probability)
    case ByIntersection(links, complaints) =>
      var id :- Index(condition, "id");
      Share(links, id, complaints)
  }

  /** The parallel `conditions` and `probabilities` lists a solver builds. */
  datatype Candidates = Candidates(entries: seq<Dict<string, Json>>, keys: seq<real>)

  /** One turn of a solver's loop over the fixture conditions. */
  function CollectStep(acc: Candidates, condition: Json, sex: string, scoring: Scoring): (r: Result<Candidates>)
    ensures r.Ok? && !Positive(condition, sex) ==> r.value == acc
    ensures r.Ok? && Positive(condition, sex) ==>
      Projected(condition, ProjectedKeys(scoring)).Ok? &&
      ScoreOf(scoring, condition, SexProbability(condition, sex).value).Ok? &&
      r.value == Candidates(acc.entries + [Projected(condition, ProjectedKeys(scoring)).value],
                            acc.keys + [ScoreOf(scoring, condition, SexProbability(condition, sex).value).value])
    ensures r.Ok? ==> SexProbability(condition, sex).Ok?
  {
    var p :- SexProbability(condition, sex);
    if p > 0.0 then
      var entry :- Projected(condition, ProjectedKeys(scoring));
      var score :- ScoreOf(scoring, condition, p);
      Ok(Candidates(acc.entries + [entry], acc.keys + [score]))
    else Ok(acc)
  }

  /** The whole loop over the fixture conditions. */
  function Collected(conditions: seq<Json>, sex: string, scoring: Scoring): (r: Result<Candidates>)
  {
    if conditions == [] then Ok(Candidates([], []))
    else
      var acc :- Collected(conditions[..|conditions| - 1], sex, scoring);
      CollectStep(acc, conditions[|conditions| - 1], sex, scoring)
  }

  lemma CollectedStep(conditions: seq<Json>, i: nat, sex: string, scoring: Scoring)
    requires i < |conditions| && Collected(conditions[..i], sex, scoring).Ok?
    ensures Collected(conditions[..i + 1], sex, scoring) ==
      CollectStep(Collected(conditions[..i], sex, scoring).value, conditions[i], sex, scoring)
  {
    assert conditions[..i + 1][..i] == conditions[..i];
  }

  /** Once a prefix of the conditions raises, the whole loop raises the same. */
  lemma {:induction false} CollectedFails(conditions: seq<Json>, i: nat, sex: string, scoring: Scoring)
    requires i <= |conditions| && Collected(conditions[..i], sex, scoring).Err?
    ensures Collected(conditions, sex, scoring) == Collected(conditions[..i], sex, scoring)
    decreases |conditions|
  {
    if i < |conditions| {
      var init := conditions[..|conditions| - 1];
      assert init[..i] == conditions[..i];
      CollectedFails(init, i, sex, scoring);
    } else {
      assert conditions[..i] == conditions;
    }
  }

  /** Every condition's probability was readable, and one entry was kept per eligible condition. */
  lemma {:induction false} CollectedEligible(conditions: seq<Json>, sex: string, scoring: Scoring)
    requires Collected(conditions, sex, scoring).Ok?
    ensures forall c :: c in conditions ==> SexProbability(c, sex).Ok?
    ensures var cs := Collected(conditions, sex, scoring).value;
      |cs.entries| == |Eligible(conditions, sex)| == |cs.keys|
    decreases |conditions|
  {
    if conditions != [] {
      var init := conditions[..|conditions| - 1];
      var last := conditions[|conditions| - 1];
      assert forall c :: c in conditions ==> c in init || c == last;
      CollectedEligible(init, sex, scoring);
    }
  }

  /**
   * The i-th collected entry and key are the kept keys and the score of the
   * i-th condition with positive probability.
   */
  lemma {:induction false} CollectedAt(conditions: seq<Json>, sex: string, scoring: Scoring, i: nat)
    requires Collected(conditions, sex, scoring).Ok? && i < |Eligible(conditions, sex)|
    ensures var cs := Collected(conditions, sex, scoring).value;
      var e := Eligible(conditions, sex);
      i < |cs.entries| && i < |cs.keys| &&
      Projected(e[i], ProjectedKeys(scoring)) == Ok(cs.entries[i]) &&
      ScoreOf(scoring, e[i], Probability(e[i], sex)) == Ok(cs.keys[i])
    decreases |conditions|
  {
    CollectedEligible(conditions, sex, scoring);
    var init := conditions[..|conditions| - 1];
    var last := conditions[|conditions| - 1];
    var e0 := Eligible(init, sex);
    CollectedEligible(init, sex, scoring);
    if i < |e0| {
      CollectedAt(init, sex, scoring, i);
      assert Eligible(conditions, sex)[i] == e0[i];
    } else {
      assert Positive(last, sex) && Eligible(conditions, sex)[i] == last;
    }
  }

  /** The loop of a solver over the fixture conditions, one step method per turn. */
  method CollectCandidates(conditions: seq<Json>, sex: string, scoring: Scoring) returns (r: Result<Candidates>)
    ensures r == Collected(conditions, sex, scoring)
  {
    var acc := Candidates([], []);
    var i := 0;
    while i < |conditions|
      invariant 0 <= i <= |conditions|
      invariant Collected(conditions[..i], sex, scoring) == Ok(acc)
    {
      var next := CollectOne(acc, conditions[i], sex, scoring);
      CollectedStep(conditions, i, sex, scoring);
      if next.Err? {
        CollectedFails(conditions, i + 1, sex, scoring);
        return next;
      }
      acc := next.value;
      i := i + 1;
    }
    assert conditions[..i] == conditions;
    r := Ok(acc);
  }

  /** One turn of the loop: the probability test, `drop_all_but_keys`, and the score. */
  method CollectOne(acc: Candidates, condition: Json, sex: string, scoring: Scoring) returns (r: Result<Candidates>)
    ensures r == CollectStep(acc, condition, sex, scoring)
  {
    var p := SexProbability(condition, sex);
    if p.Err? {
      return Err(p.error);
    }
    if p.value > 0.0 {
      var entry := DropAllButKeys(condition, ProjectedKeys(scoring));
      if entry.Err? {
        return Err(entry.error);
      }
      var score: Result<real>;
      if scoring.ByIntersection? {
        var id := Index(condition, "id");
        if id.Err? {
          return Err(id.error);
        }
        score := ScoreCondition(scoring.links, id.value, scoring.complaints);
      } else {
        score := Ok(p.value);
      }
      if score.Err? {
        return Err(score.error);
      }
      r := Ok(Candidates(acc.entries + [entry.value], acc.keys + [score.value]));
    } else {
      r := Ok(acc);
    }
  }

  // ------------------------------------------------------------ ranking

  /** The kept conditions tagged with their key and position, in the order of `sort_array_by_another_array`. */
  function Ranking(c: Candidates, reverse: bool): seq<StableSort.Tagged<Dict<string, Json>>> {
    StableSort.Sort(StableSort.Tag(StableSort.Zip(c.keys, c.entries)), reverse)
  }

  /** `sort_array_by_another_array(conditions, probabilities, reverse)[:n]` */
  function Top(c: Candidates, reverse: bool, n: nat): seq<Dict<string, Json>> {
    Take(StableSort.SortArrayByAnotherArray(c.entries, c.keys, reverse), n)
  }

  /** The first n ranked items. */
  function Leading(t: seq<StableSort.Tagged<Dict<string, Json>>>, n: nat): (r: seq<Dict<string, Json>>)
    ensures |r| == if |t| < n then |t| else n
    ensures forall i :: 0 <= i < |r| ==> r[i] == t[i].item
  {
    StableSort.Items(Take(t, n))
  }

  lemma TopIsLeading(c: Candidates, reverse: bool, n: nat)
    ensures Top(c, reverse, n) == Leading(Ranking(c, reverse), n)
  {
    StableSort.SortArrayByAnotherArraySpec(c.entries, c.keys, reverse);
  }

  /** x is the entry of the eligible condition at its position: its kept keys and its score. */
  predicate Describes(x: StableSort.Tagged<Dict<string, Json>>, e: seq<Json>, sex: string, scoring: Scoring) {
    x.index < |e| &&
    Projected(e[x.index], ProjectedKeys(scoring)) == Ok(x.item) &&
    ScoreOf(scoring, e[x.index], Probability(e[x.index], sex)) == Ok(x.key)
  }

  /** Keys run down (reverse) or up along the ranking. */
  predicate KeysOrdered(t: seq<StableSort.Tagged<Dict<string, Json>>>, reverse: bool) {
    forall i, j :: 0 <= i < j < |t| ==> if reverse then t[i].key >= t[j].key else t[i].key <= t[j].key
  }

  /** The eligible condition at position i occurs in the ranking. */
  predicate Ranks(t: seq<StableSort.Tagged<Dict<string, Json>>>, i: nat) {
    exists k :: 0 <= k < |t| && t[k].index == i
  }

  /** Every eligible condition occurs in the ranking. */
  predicate Covers(t: seq<StableSort.Tagged<Dict<string, Json>>>, n: nat) {
    forall i :: 0 <= i < n ==> Ranks(t, i)
  }

  /**
   * t ranks the eligible conditions e: one entry per condition, each
   * describing its condition, keys in the chosen direction.
   */
  predicate RankedBy(t: seq<StableSort.Tagged<Dict<string, Json>>>, e: seq<Json>, sex: string, scoring: Scoring, reverse: bool) {
    |t| == |e| && KeysOrdered(t, reverse) && Covers(t, |e|) &&
    forall k :: 0 <= k < |t| ==> Describes(t[k], e, sex, scoring)
  }

  lemma SortedKeysOrdered(t: seq<StableSort.Tagged<Dict<string, Json>>>, reverse: bool)
    requires StableSort.SortedBy(t, reverse)
    ensures KeysOrdered(t, reverse)
  {
    forall i, j | 0 <= i < j < |t| ensures if reverse then t[i].key >= t[j].key else t[i].key <= t[j].key {
      assert StableSort.Precedes(t[i], t[j], reverse);
    }
  }

  /** The k-th ranked entry describes an eligible condition. */
  lemma RankingDescribes(conditions: seq<Json>, sex: string, scoring: Scoring, reverse: bool, k: nat)
    requires Collected(conditions, sex, scoring).Ok?
    requires k < |Ranking(Collected(conditions, sex, scoring).value, reverse)|
    ensures Describes(Ranking(Collected(conditions, sex, scoring).value, reverse)[k], Eligible(conditions, sex), sex, scoring)
  {
    var c := Collected(conditions, sex, scoring).value;
    CollectedEligible(conditions, sex, scoring);
    var tagged := StableSort.Tag(StableSort.Zip(c.keys, c.entries));
    var t := Ranking(c, reverse);
    assert multiset(t) == multiset(tagged);
    assert t[k] in multiset(tagged);
    var i :| 0 <= i < |tagged| && tagged[i] == t[k];
    CollectedAt(conditions, sex, scoring, i);
  }

  /** Every collected entry occurs in the ranking. */
  lemma RankingCovers(c: Candidates, reverse: bool, i: nat)
    requires |c.entries| == |c.keys| && i < |c.keys|
    ensures Ranks(Ranking(c, reverse), i)
  {
    var tagged := StableSort.Tag(StableSort.Zip(c.keys, c.entries));
    var t := Ranking(c, reverse);
    assert multiset(t) == multiset(tagged);
    assert tagged[i] in multiset(t);
    var k :| 0 <= k < |t| && t[k] == tagged[i];
  }

  /** The ranking of the collected conditions ranks the eligible conditions. */
  lemma RankedEligible(conditions: seq<Json>, sex: string, scoring: Scoring, reverse: bool)
    requires Collected(conditions, sex, scoring).Ok?
    ensures RankedBy(Ranking(Collected(conditions, sex, scoring).value, reverse), Eligible(conditions, sex), sex, scoring, reverse)
  {
    var c := Collected(conditions, sex, scoring).value;
    var e := Eligible(conditions, sex);
    CollectedEligible(conditions, sex, scoring);
    var t := Ranking(c, reverse);
    StableSort.SortArrayByAnotherArraySpec(c.entries, c.keys, reverse);
    SortedKeysOrdered(t, reverse);
    forall k | 0 <= k < |t| ensures Describes(t[k], e, sex, scoring) {
      RankingDescribes(conditions, sex, scoring, reverse, k);
    }
    forall i | 0 <= i < |e| ensures Ranks(t, i) {
      RankingCovers(c, reverse, i);
    }
  }

  /** The output dictionary of every solver. */
  function Answer(triage: Json, conditions: seq<Json>): Json {
    JObj([("triage", triage), ("conditions", JArr(conditions))])
  }

  /** A condition reduced to id and name, as listed in an answer (null if either is missing). */
  function IdAndName(condition: Json): Json {
    match Projected(condition, ID_AND_NAME)
    case Ok(d) => JObj(d)
    case Err(_) => JNull
  }

  /** A condition's expected triage level (null if missing). */
  function TriageOf(condition: Json): Json {
    match Index(condition, "expected_triage_level")
    case Ok(v) => v
    case Err(_) => JNull
  }

  function AsJson(entries: seq<Dict<string, Json>>): (r: seq<Json>)
    ensures |r| == |entries| && forall i :: 0 <= i < |r| ==> r[i] == JObj(entries[i])
  {
    seq(|entries|, i requires 0 <= i < |entries| => JObj(entries[i]))
  }

  // ------------------------------------------------------------ most likely conditions

  /** The probability solver's kept conditions ranked in the given direction and cut to three. */
  function ByProbabilityRanked(caseData: Json, fixtures: Fixtures, reverse: bool): Result<seq<Dict<string, Json>>> {
    var sex :- BiologicalSex(caseData);
    var c :- Collected(fixtures.conditions, sex, ByProbability);
    Ok(Top(c, reverse, MAX_RETURNED_CONDITIONS))
  }

  /**
   * `solve_case_deterministic_most_likely_conditions` as written: the call to
   * `sort_array_by_another_array` leaves `reverse` at False, so the least
   * likely conditions come first and the three kept are the least likely.
   */
  function MostLikelyConditionsAsWritten(caseData: Json, fixtures: Fixtures): Result<Json> {
    var top :- ByProbabilityRanked(caseData, fixtures, false);
    Ok(Answer(JStr("PC"), AsJson(top)))
  }

  /** The most likely conditions solver with the ranking its name promises: highest probability first. */
  function MostLikelyConditions(caseData: Json, fixtures: Fixtures): Result<Json> {
    var top :- ByProbabilityRanked(caseData, fixtures, true);
    Ok(Answer(JStr("PC"), AsJson(top)))
  }

  /** The probability solver's cut ranking lists the leading ranked conditions, reduced to id and name. */
  lemma ByProbabilityListed(conditions: seq<Json>, sex: string, reverse: bool)
    requires Collected(conditions, sex, ByProbability).Ok?
    ensures var c := Collected(conditions, sex, ByProbability).value;
      var t := Ranking(c, reverse);
      var e := Eligible(conditions, sex);
      var n := if |t| < MAX_RETURNED_CONDITIONS then |t| else MAX_RETURNED_CONDITIONS;
      RankedBy(t, e, sex, ByProbability, reverse) &&
      AsJson(Top(c, reverse, MAX_RETURNED_CONDITIONS)) == seq(n, i requires 0 <= i < n => IdAndName(e[t[i].index]))
  {
    var c := Collected(conditions, sex, ByProbability).value;
    var t := Ranking(c, reverse);
    var e := Eligible(conditions, sex);
    TopIsLeading(c, reverse, MAX_RETURNED_CONDITIONS);
    RankedEligible(conditions, sex, ByProbability, reverse);
    RankedListed(t, e, sex, MAX_RETURNED_CONDITIONS);
  }

  /** The leading entries of a ranking by probability are the ranked conditions reduced to id and name. */
  lemma RankedListed(t: seq<StableSort.Tagged<Dict<string, Json>>>, e: seq<Json>, sex: string, m: nat)
    requires forall k :: 0 <= k < |t| ==> t[k].index < |e| && Describes(t[k], e, sex, ByProbability)
    ensures var n := if |t| < m then |t| else m;
      AsJson(Leading(t, m)) == seq(n, i requires 0 <= i < n => IdAndName(e[t[i].index]))
  {
    var n := if |t| < m then |t| else m;
    var listed := AsJson(Leading(t, m));
    assert ProjectedKeys(ByProbability) == ID_AND_NAME;
    forall i | 0 <= i < n ensures listed[i] == IdAndName(e[t[i].index]) {
      assert Describes(t[i], e, sex, ByProbability);
    }
  }

  /**
   * Corrected: the answer always has triage "PC" and lists, reduced to id and
   * name, the first three conditions of a ranking of all conditions with
   * positive probability for the sex by descending probability.
   */
  lemma MostLikelyConditionsRanked(caseData: Json, fixtures: Fixtures)
    requires MostLikelyConditions(caseData, fixtures).Ok?
    ensures BiologicalSex(caseData).Ok?
    ensures Collected(fixtures.conditions, BiologicalSex(caseData).value, ByProbability).Ok?
    ensures var sex := BiologicalSex(caseData).value;
      var t := Ranking(Collected(fixtures.conditions, sex, ByProbability).value, true);
      var e := Eligible(fixtures.conditions, sex);
      var n := if |t| < MAX_RETURNED_CONDITIONS then |t| else MAX_RETURNED_CONDITIONS;
      RankedBy(t, e, sex, ByProbability, true) &&
      MostLikelyConditions(caseData, fixtures).value ==
        Answer(JStr("PC"), seq(n, i requires 0 <= i < n => IdAndName(e[t[i].index])))
  {
    ByProbabilityListed(fixtures.conditions, BiologicalSex(caseData).value, true);
  }

  /** As written, the answer leads a ranking by ascending probability. */
  lemma MostLikelyAsWrittenAscending(caseData: Json, fixtures: Fixtures)
    requires MostLikelyConditionsAsWritten(caseData, fixtures).Ok?
    ensures BiologicalSex(caseData).Ok?
    ensures Collected(fixtures.conditions, BiologicalSex(caseData).value, ByProbability).Ok?
    ensures var sex := BiologicalSex(caseData).value;
      var t := Ranking(Collected(fixtures.conditions, sex, ByProbability).value, false);
      var e := Eligible(fixtures.conditions, sex);
      var n := if |t| < MAX_RETURNED_CONDITIONS then |t| else MAX_RETURNED_CONDITIONS;
      RankedBy(t, e, sex, ByProbability, false) &&
      MostLikelyConditionsAsWritten(caseData, fixtures).value ==
        Answer(JStr("PC"), seq(n, i requires 0 <= i < n => IdAndName(e[t[i].index])))
  {
    ByProbabilityListed(fixtures.conditions, BiologicalSex(caseData).value, false);
  }

  // ------------------------------------------------------------ symptom intersection

  /** The conditions of the answer: `drop_all_but_keys(condition, keys)` of each. */
  function ProjectedAll(entries: seq<Dict<string, Json>>, keys: seq<string>): (r: Result<seq<Json>>)
    ensures r.Ok? <==> forall i :: 0 <= i < |entries| ==> Projected(JObj(entries[i]), keys).Ok?
    ensures r.Ok? ==> |r.value| == |entries|
    ensures r.Ok? ==> forall i :: 0 <= i < |entries| ==> r.value[i] == JObj(Projected(JObj(entries[i]), keys).value)
  {
    if entries == [] then Ok([])
    else
      var head :- Projected(JObj(entries[0]), keys);
      var rest :- ProjectedAll(entries[1..], keys);
      assert forall i :: 1 <= i < |entries| ==> entries[i] == entries[1..][i - 1];
      Ok([JObj(head)] + rest)
  }

  /**
   * `solve_case_by_symptom_intersection`: conditions with positive
   * probability for the sex, ranked by the share of their linked symptoms
   * that were reported, highest first and cut to the variant's maximum. The
   * triage is the top condition's expected triage level; with no condition
   * left, `conditions[0]` raises IndexError.
   */
  function BySymptomIntersection(caseData: Json, fixtures: Fixtures, variant: Variant): Result<Json> {
    var sex :- BiologicalSex(caseData);
    var complaints :- Complaints(caseData, variant);
    var c :- Collected(fixtures.conditions, sex, ByIntersection(fixtures.links, complaints));
    var top := Top(c, true, variant.MaxReturned());
    if top == [] then Err(IndexError)
    else
      var triage :- Index(JObj(top[0]), "expected_triage_level");
      var conditions :- ProjectedAll(top, ID_AND_NAME);
      Ok(Answer(triage, conditions))
  }

  /** Projection reads only the listed keys. */
  lemma {:induction false} ProjectedAgrees(a: Json, b: Json, keys: seq<string>)
    requires a.JObj? && b.JObj?
    requires forall k :: k in keys ==> Get(a.fields, k) == Get(b.fields, k)
    ensures Projected(a, keys) == Projected(b, keys)
    decreases |keys|
  {
    if keys != [] {
      var init := keys[..|keys| - 1];
      assert forall k :: k in init ==> k in keys;
      ProjectedAgrees(a, b, init);
      assert keys[|keys| - 1] in keys;
    }
  }

  /** Re-projecting a condition kept with id, name and triage to id and name projects the condition itself. */
  lemma ReprojectIdAndName(condition: Json, kept: Dict<string, Json>)
    requires Projected(condition, ID_NAME_AND_TRIAGE) == Ok(kept)
    ensures Projected(JObj(kept), ID_AND_NAME) == Projected(condition, ID_AND_NAME)
    ensures Projected(condition, ID_AND_NAME).Ok?
  {
    assert condition.JObj?;
    forall k | k in ID_AND_NAME
      ensures Get(kept, k) == Get(condition.fields, k)
    {
      assert k in ID_NAME_AND_TRIAGE by {
        assert k == ID_NAME_AND_TRIAGE[0] || k == ID_NAME_AND_TRIAGE[1];
      }
      ProjectedValues(condition, ID_NAME_AND_TRIAGE, k);
    }
    ProjectedAgrees(JObj(kept), condition, ID_AND_NAME);
    ProjectionKeys(condition, ID_NAME_AND_TRIAGE);
    assert HasKey(kept, "id") && HasKey(kept, "name") by {
      assert "id" == ID_NAME_AND_TRIAGE[0] && "name" == ID_NAME_AND_TRIAGE[1];
    }
    ProjectedOk(JObj(kept), ID_AND_NAME);
  }

  /** A condition kept with id, name and triage keeps its expected triage level. */
  lemma ReprojectTriage(condition: Json, kept: Dict<string, Json>)
    requires Projected(condition, ID_NAME_AND_TRIAGE) == Ok(kept)
    ensures Index(JObj(kept), "expected_triage_level") == Index(condition, "expected_triage_level")
    ensures Index(condition, "expected_triage_level").Ok?
  {
    assert "expected_triage_level" == ID_NAME_AND_TRIAGE[2];
    ProjectedValues(condition, ID_NAME_AND_TRIAGE, "expected_triage_level");
  }

  /**
   * Reducing the leading entries of an intersection ranking to id and name
   * reduces the ranked conditions themselves; the first entry's triage is
   * the first condition's.
   */
  lemma RankedReduced(t: seq<StableSort.Tagged<Dict<string, Json>>>, e: seq<Json>, sex: string, scoring: Scoring, m: nat)
    requires scoring.ByIntersection?
    requires forall k :: 0 <= k < |t| ==> t[k].index < |e| && Describes(t[k], e, sex, scoring)
    ensures var n := if |t| < m then |t| else m;
      ProjectedAll(Leading(t, m), ID_AND_NAME) == Ok(seq(n, i requires 0 <= i < n => IdAndName(e[t[i].index])))
  {
    var n := if |t| < m then |t| else m;
    var top := Leading(t, m);
    var expected := seq(n, i requires 0 <= i < n => IdAndName(e[t[i].index]));
    forall i | 0 <= i < n
      ensures Projected(JObj(top[i]), ID_AND_NAME).Ok?
      ensures JObj(Projected(JObj(top[i]), ID_AND_NAME).value) == expected[i]
    {
      assert top[i] == t[i].item;
      ReducedAt(t[i], e, sex, scoring);
    }
    ProjectedAllEach(top, ID_AND_NAME, expected);
  }

  /** Projecting every entry to a known value projects the list to those values. */
  lemma ProjectedAllEach(entries: seq<Dict<string, Json>>, keys: seq<string>, expected: seq<Json>)
    requires |expected| == |entries|
    requires forall i :: 0 <= i < |entries| ==> Projected(JObj(entries[i]), keys).Ok?
    requires forall i :: 0 <= i < |entries| ==> JObj(Projected(JObj(entries[i]), keys).value) == expected[i]
    ensures ProjectedAll(entries, keys) == Ok(expected)
  {
    assert ProjectedAll(entries, keys).Ok?;
    var reduced := ProjectedAll(entries, keys).value;
    assert |reduced| == |expected|;
    assert forall i :: 0 <= i < |entries| ==> reduced[i] == expected[i];
    assert reduced == expected;
  }

  lemma ReducedAt(x: StableSort.Tagged<Dict<string, Json>>, e: seq<Json>, sex: string, scoring: Scoring)
    requires scoring.ByIntersection? && x.index < |e| && Describes(x, e, sex, scoring)
    ensures Projected(JObj(x.item), ID_AND_NAME).Ok?
    ensures JObj(Projected(JObj(x.item), ID_AND_NAME).value) == IdAndName(e[x.index])
  {
    assert ProjectedKeys(scoring) == ID_NAME_AND_TRIAGE;
    ReprojectIdAndName(e[x.index], x.item);
  }

  /** The first entry of an intersection ranking carries the first condition's triage. */
  lemma RankedTriage(t: seq<StableSort.Tagged<Dict<string, Json>>>, e: seq<Json>, sex: string, scoring: Scoring, m: nat)
    requires scoring.ByIntersection? && |t| > 0 && m > 0
    requires t[0].index < |e| && Describes(t[0], e, sex, scoring)
    ensures Index(JObj(Leading(t, m)[0]), "expected_triage_level") == Ok(TriageOf(e[t[0].index]))
  {
    assert ProjectedKeys(scoring) == ID_NAME_AND_TRIAGE;
    ReprojectTriage(e[t[0].index], t[0].item);
  }

  /**
   * Once the sex, the complaints and the loop over the conditions succeed,
   * the answer fails only when no condition is eligible (IndexError).
   * Otherwise it lists, reduced to id and name, the first conditions (up to
   * the variant's maximum) of a ranking of all eligible conditions by
   * descending score, and its triage is the first one's expected triage level.
   */
  lemma IntersectionAnswer(caseData: Json, fixtures: Fixtures, variant: Variant)
    requires BiologicalSex(caseData).Ok? && Complaints(caseData, variant).Ok?
    requires Collected(fixtures.conditions, BiologicalSex(caseData).value,
                       ByIntersection(fixtures.links, Complaints(caseData, variant).value)).Ok?
    ensures var sex := BiologicalSex(caseData).value;
      var scoring := ByIntersection(fixtures.links, Complaints(caseData, variant).value);
      var t := Ranking(Collected(fixtures.conditions, sex, scoring).value, true);
      var e := Eligible(fixtures.conditions, sex);
      var n := if |t| < variant.MaxReturned() then |t| else variant.MaxReturned();
      var r := BySymptomIntersection(caseData, fixtures, variant);
      RankedBy(t, e, sex, scoring, true) &&
      (e == [] ==> r == Err(IndexError)) &&
      (e != [] ==> r == Ok(Answer(TriageOf(e[t[0].index]), seq(n, i requires 0 <= i < n => IdAndName(e[t[i].index])))))
  {
    var sex := BiologicalSex(caseData).value;
    var scoring := ByIntersection(fixtures.links, Complaints(caseData, variant).value);
    var c := Collected(fixtures.conditions, sex, scoring).value;
    var t := Ranking(c, true);
    var e := Eligible(fixtures.conditions, sex);
    TopIsLeading(c, true, variant.MaxReturned());
    RankedEligible(fixtures.conditions, sex, scoring, true);
    RankedReduced(t, e, sex, scoring, variant.MaxReturned());
    if e != [] {
      assert RankedBy(t, e, sex, scoring, true);
      RankedTriage(t, e, sex, scoring, variant.MaxReturned());
    }
  }

  /** The intersection solver's loop, with the nested loop over the links for each kept condition. */
  method SolveCaseBySymptomIntersection(caseData: Json, fixtures: Fixtures, variant: Variant) returns (r: Result<Json>)
    ensures r == BySymptomIntersection(caseData, fixtures, variant)
  {
    var sex := BiologicalSex(caseData);
    if sex.Err? {
      return Err(sex.error);
    }
    var complaints := Complaints(caseData, variant);
    if complaints.Err? {
      return Err(complaints.error);
    }
    var c := CollectCandidates(fixtures.conditions, sex.value, ByIntersection(fixtures.links, complaints.value));
    if c.Err? {
      return Err(c.error);
    }
    var top := Top(c.value, true, variant.MaxReturned());
    if top == [] {
      return Err(IndexError);
    }
    var triage := Index(JObj(top[0]), "expected_triage_level");
    if triage.Err? {
      return Err(triage.error);
    }
    var conditions := ProjectedAll(top, ID_AND_NAME);
    if conditions.Err? {
      return Err(conditions.error);
    }
    r := Ok(Answer(triage.value, conditions.value));
  }

  /**
   * The most likely conditions solver's loop over the fixture conditions, as
   * written: the ranking is ascending.
   */
  method SolveCaseDeterministicMostLikelyConditions(caseData: Json, fixtures: Fixtures) returns (r: Result<Json>)
    ensures r == MostLikelyConditionsAsWritten(caseData, fixtures)
  {
    var sex := BiologicalSex(caseData);
    if sex.Err? {
      return Err(sex.error);
    }
    var c := CollectCandidates(fixtures.conditions, sex.value, ByProbability);
    if c.Err? {
      return Err(c.error);
    }
    r := Ok(Answer(JStr("PC"), AsJson(Top(c.value, false, MAX_RETURNED_CONDITIONS))));
  }

  // ------------------------------------------------------------ random conditions

  /** The random draws of `solve_case_random_conditions`. */
  datatype RandomDraws = RandomDraws(
    count: nat,        // `random.randint(0, 5)`, taken modulo 6
    pick: nat -> nat,  // numpy's successive picks, each an index into what is left
    triage: nat)       // `random.choice` over TRIAGE_LEVELS, taken modulo 4

  /**
   * `numpy.random.choice(pool, count, replace=False)`: count elements, each
   * drawn from what is left. Asking for more than the pool holds raises
   * ValueError.
   */
  function Sample<T>(pool: seq<T>, pick: nat -> nat, start: nat, count: nat): (r: Result<seq<T>>)
    ensures r.Ok? <==> count <= |pool|
    ensures r.Err? ==> r.error == ValueError
    ensures r.Ok? ==> |r.value| == count && multiset(r.value) <= multiset(pool)
    decreases count
  {
    if count > |pool| then Err(ValueError)
    else if count == 0 then Ok([])
    else
      var k := pick(start) % |pool|;
      var rest := pool[..k] + pool[k + 1..];
      assert pool == pool[..k] + [pool[k]] + pool[k + 1..];
      assert multiset(rest) == multiset(pool) - multiset{pool[k]};
      var tail := Sample(rest, pick, start + 1, count - 1).value;
      Ok([pool[k]] + tail)
  }

  predicate KnownRandomisation(randomisationType: string) {
    randomisationType == "uniform" || randomisationType == "probability_weighted"
  }

  /**
   * `solve_case_random_conditions`: the conditions with positive probability
   * for the sex, of which up to five are drawn without replacement, and a
   * random triage level. Any strategy other than "uniform" and
   * "probability_weighted" raises ValueError. Otherwise the weighting only
   * shapes the draws, except with no eligible condition: the weights are then
   * the empty list, which numpy refuses because it does not sum to 1.
   */
  function RandomConditions(caseData: Json, fixtures: Fixtures, randomisationType: string, draws: RandomDraws): Result<Json> {
    var sex :- BiologicalSex(caseData);
    var c :- Collected(fixtures.conditions, sex, ByProbability);
    if !KnownRandomisation(randomisationType) then Err(ValueError)
    else if randomisationType == "probability_weighted" && c.entries == [] then Err(ValueError)
    else
      var chosen :- Sample(c.entries, draws.pick, 0, draws.count % (MAX_RANDOM_CONDITIONS + 1));
      Ok(Answer(JStr(TRIAGE_LEVELS[draws.triage % |TRIAGE_LEVELS|]), AsJson(chosen)))
  }

  /**
   * A random answer has a triage level from SC, PC, EC and UNCERTAIN and at
   * most five conditions, each an eligible condition reduced to id and name.
   */
  lemma RandomAnswer(caseData: Json, fixtures: Fixtures, randomisationType: string, draws: RandomDraws)
    requires RandomConditions(caseData, fixtures, randomisationType, draws).Ok?
    ensures KnownRandomisation(randomisationType) && BiologicalSex(caseData).Ok?
    ensures DrawnFrom(RandomConditions(caseData, fixtures, randomisationType, draws).value,
                      Eligible(fixtures.conditions, BiologicalSex(caseData).value))
  {
    var sex := BiologicalSex(caseData).value;
    var c := Collected(fixtures.conditions, sex, ByProbability).value;
    var chosen := Sample(c.entries, draws.pick, 0, draws.count % (MAX_RANDOM_CONDITIONS + 1)).value;
    var triage := TRIAGE_LEVELS[draws.triage % |TRIAGE_LEVELS|];
    SampledEligible(fixtures.conditions, sex, chosen);
    assert RandomConditions(caseData, fixtures, randomisationType, draws).value == Answer(JStr(triage), AsJson(chosen));
    Drawn(triage, AsJson(chosen), Eligible(fixtures.conditions, sex));
  }

  /**
   * An answer whose triage level is one of TRIAGE_LEVELS and whose at most
   * five conditions are each one of e reduced to id and name.
   */
  ghost predicate DrawnFrom(a: Json, e: seq<Json>) {
    exists triage, conditions :: a == Answer(JStr(triage), conditions) &&
      triage in TRIAGE_LEVELS && |conditions| <= MAX_RANDOM_CONDITIONS &&
      forall x :: x in conditions ==> exists j :: 0 <= j < |e| && x == IdAndName(e[j])
  }

  lemma Drawn(triage: string, conditions: seq<Json>, e: seq<Json>)
    requires triage in TRIAGE_LEVELS && |conditions| <= MAX_RANDOM_CONDITIONS
    requires forall x :: x in conditions ==> exists j :: 0 <= j < |e| && x == IdAndName(e[j])
    ensures DrawnFrom(Answer(JStr(triage), conditions), e)
  {
  }

  /** Whatever is drawn from the collected entries is an eligible condition reduced to id and name. */
  lemma SampledEligible(conditions: seq<Json>, sex: string, chosen: seq<Dict<string, Json>>)
    requires Collected(conditions, sex, ByProbability).Ok?
    requires multiset(chosen) <= multiset(Collected(conditions, sex, ByProbability).value.entries)
    ensures var e := Eligible(conditions, sex);
      forall x :: x in AsJson(chosen) ==> exists j :: 0 <= j < |e| && x == IdAndName(e[j])
  {
    var c := Collected(conditions, sex, ByProbability).value;
    var e := Eligible(conditions, sex);
    var conditionsJson := AsJson(chosen);
    CollectedEligible(conditions, sex, ByProbability);
    forall x | x in conditionsJson ensures exists j :: 0 <= j < |e| && x == IdAndName(e[j]) {
      var i :| 0 <= i < |conditionsJson| && conditionsJson[i] == x;
      assert chosen[i] in multiset(chosen);
      assert chosen[i] in multiset(c.entries);
      var j :| 0 <= j < |c.entries| && c.entries[j] == chosen[i];
      CollectedAt(conditions, sex, ByProbability, j);
      assert ProjectedKeys(ByProbability) == ID_AND_NAME;
      assert x == IdAndName(e[j]);
    }
  }

  /**
   * Once the sex and the conditions are read, the solver raises exactly for an
   * unknown strategy, for more draws than eligible conditions, and for weighted
   * draws with no eligible condition; each of these is a ValueError.
   */
  lemma UnknownRandomisationRaises(caseData: Json, fixtures: Fixtures, randomisationType: string, draws: RandomDraws)
    requires BiologicalSex(caseData).Ok?
    requires Collected(fixtures.conditions, BiologicalSex(caseData).value, ByProbability).Ok?
    ensures RandomConditions(caseData, fixtures, randomisationType, draws).Err? <==>
      || !KnownRandomisation(randomisationType)
      || draws.count % (MAX_RANDOM_CONDITIONS + 1) > |Eligible(fixtures.conditions, BiologicalSex(caseData).value)|
      || (randomisationType == "probability_weighted" && Eligible(fixtures.conditions, BiologicalSex(caseData).value) == [])
    ensures RandomConditions(caseData, fixtures, randomisationType, draws).Err? ==>
      RandomConditions(caseData, fixtures, randomisationType, draws) == Err(ValueError)
  {
    CollectedEligible(fixtures.conditions, BiologicalSex(caseData).value, ByProbability);
  }

  /** The random solver's loop over the fixture conditions. */
  method SolveCaseRandomConditions(caseData: Json, fixtures: Fixtures, randomisationType: string, draws: RandomDraws)
    returns (r: Result<Json>)
    ensures r == RandomConditions(caseData, fixtures, randomisationType, draws)
  {
    var sex := BiologicalSex(caseData);
    if sex.Err? {
      return Err(sex.error);
    }
    var c := CollectCandidates(fixtures.conditions, sex.value, ByProbability);
    if c.Err? {
      return Err(c.error);
    }
    if !KnownRandomisation(randomisationType) {
      return Err(ValueError);
    }
    if randomisationType == "probability_weighted" && c.value.entries == [] {
      return Err(ValueError);
    }
    var chosen := Sample(c.value.entries, draws.pick, 0, draws.count % (MAX_RANDOM_CONDITIONS + 1));
    if chosen.Err? {
      return Err(chosen.error);
    }
    r := Ok(Answer(JStr(TRIAGE_LEVELS[draws.triage % |TRIAGE_LEVELS|]), AsJson(chosen.value)));
  }

  // ------------------------------------------------------------ solve_case

  const TOY_AI_RANDOM_UNIFORM: string := "toy_ai_random_uniform"
  const TOY_AI_RANDOM_PROBABILITY_WEIGHTED: string := "toy_ai_random_probability_weighted"
  const TOY_AI_DETERMINISTIC_MOST_LIKELY_CONDITIONS: string := "toy_ai_deterministic_most_likely_conditions"
  const TOY_AI_DETERMINISTIC_BY_SYMPTOM_INTERSECTION: string := "toy_ai_deterministic_by_symptom_intersection"
  const TOY_AI_NAMES: seq<string> := [TOY_AI_RANDOM_UNIFORM, TOY_AI_RANDOM_PROBABILITY_WEIGHTED,
                                      TOY_AI_DETERMINISTIC_MOST_LIKELY_CONDITIONS, TOY_AI_DETERMINISTIC_BY_SYMPTOM_INTERSECTION]

  /**
   * `solve_case(request)` of the toy AI service: the request's aiImplementation
   * selects one of the four solvers for its caseData; any other name raises
   * ValueError.
   */
  method SolveCase(request: Json, fixtures: Fixtures, draws: RandomDraws) returns (r: Result<Json>)
    ensures Index(request, "caseData").Err? || Index(request, "aiImplementation").Err? ==> r.Err?
    ensures Index(request, "caseData").Ok? && Index(request, "aiImplementation").Ok? ==>
      var caseData := Index(request, "caseData").value;
      var name := Index(request, "aiImplementation").value;
      (name == JStr(TOY_AI_RANDOM_UNIFORM) ==> r == RandomConditions(caseData, fixtures, "uniform", draws)) &&
      (name == JStr(TOY_AI_RANDOM_PROBABILITY_WEIGHTED) ==> r == RandomConditions(caseData, fixtures, "probability_weighted", draws)) &&
      (name == JStr(TOY_AI_DETERMINISTIC_MOST_LIKELY_CONDITIONS) ==> r == MostLikelyConditionsAsWritten(caseData, fixtures)) &&
      (name == JStr(TOY_AI_DETERMINISTIC_BY_SYMPTOM_INTERSECTION) ==> r == BySymptomIntersection(caseData, fixtures, ToyAI)) &&
      (!(name.JStr? && name.s in TOY_AI_NAMES) ==> r == Err(ValueError))
  {
    var caseData := Index(request, "caseData");
    if caseData.Err? {
      return Err(caseData.error);
    }
    var name := Index(request, "aiImplementation");
    if name.Err? {
      return Err(name.error);
    }
    if name.value == JStr(TOY_AI_RANDOM_UNIFORM) {
      r := SolveCaseRandomConditions(caseData.value, fixtures, "uniform", draws);
    } else if name.value == JStr(TOY_AI_RANDOM_PROBABILITY_WEIGHTED) {
      r := SolveCaseRandomConditions(caseData.value, fixtures, "probability_weighted", draws);
    } else if name.value == JStr(TOY_AI_DETERMINISTIC_MOST_LIKELY_CONDITIONS) {
      r := SolveCaseDeterministicMostLikelyConditions(caseData.value, fixtures);
    } else if name.value == JStr(TOY_AI_DETERMINISTIC_BY_SYMPTOM_INTERSECTION) {
      r := SolveCaseBySymptomIntersection(caseData.value, fixtures, ToyAI);
    } else {
      r := Err(ValueError);
    }
  }

  // ------------------------------------------------------------ the Babylon participant

  const BABYLON_TOY_AI: string := "babylon_toy_ai"

  /** `health_check(request)`: asserts the implementation name and reports OK. */
  function BabylonHealthCheck(request: Json): (r: Result<Json>)
    ensures r.Ok? <==> Index(request, "aiImplementation") == Ok(JStr(BABYLON_TOY_AI))
    ensures r.Ok? ==> r.value == JObj([("status", JStr("OK"))])
    ensures Index(request, "aiImplementation").Ok? && r.Err? ==> r.error == AssertionError
  {
    var name :- Index(request, "aiImplementation");
    if name == JStr(BABYLON_TOY_AI) then Ok(JObj([("status", JStr("OK"))])) else Err(AssertionError)
  }

  /** `solve_case(request)`: asserts the implementation name, then runs the intersection solver with Babylon's reading of the case. */
  method BabylonSolveCase(request: Json, fixtures: Fixtures) returns (r: Result<Json>)
    ensures Index(request, "caseData").Err? || Index(request, "aiImplementation").Err? ==> r.Err?
    ensures Index(request, "caseData").Ok? && Index(request, "aiImplementation").Ok? ==>
      if Index(request, "aiImplementation").value == JStr(BABYLON_TOY_AI)
      then r == BySymptomIntersection(Index(request, "caseData").value, fixtures, Babylon)
      else r == Err(AssertionError)
  {
    var caseData := Index(request, "caseData");
    if caseData.Err? {
      return Err(caseData.error);
    }
    var name := Index(request, "aiImplementation");
    if name.Err? {
      return Err(name.error);
    }
    if name.value != JStr(BABYLON_TOY_AI) {
      return Err(AssertionError);
    }
    r := SolveCaseBySymptomIntersection(caseData.value, fixtures, Babylon);
  }

  // ------------------------------------------------------------ the most likely conditions, on two conditions

  /**
   * A case of the given sex and a fixture of two conditions, both kept for
   * that sex, the first less likely than the second.
   */
  predicate TwoKept(caseData: Json, fixtures: Fixtures, sex: string, p1: real, p2: real,
                    e1: Dict<string, Json>, e2: Dict<string, Json>) {
    && BiologicalSex(caseData) == Ok(sex)
    && |fixtures.conditions| == 2
    && SexProbability(fixtures.conditions[0], sex) == Ok(p1) && Projected(fixtures.conditions[0], ID_AND_NAME) == Ok(e1)
    && SexProbability(fixtures.conditions[1], sex) == Ok(p2) && Projected(fixtures.conditions[1], ID_AND_NAME) == Ok(e2)
    && 0.0 < p1 < p2
  }

  /** The loop over two conditions is its two turns, one after the other. */
  lemma CollectedTwo(conditions: seq<Json>, sex: string, first: Candidates, second: Candidates)
    requires |conditions| == 2
    requires CollectStep(Candidates([], []), conditions[0], sex, ByProbability) == Ok(first)
    requires CollectStep(first, conditions[1], sex, ByProbability) == Ok(second)
    ensures Collected(conditions, sex, ByProbability) == Ok(second)
  {
    var init := conditions[..1];
    assert Collected(init, sex, ByProbability) == Ok(first) by {
      assert init[..0] == [] && init[0] == conditions[0];
    }
    assert conditions[..|conditions| - 1] == init;
  }

  /** Both conditions are collected, in fixture order. */
  lemma TwoKeptCollected(conditions: seq<Json>, sex: string, p1: real, p2: real,
                         e1: Dict<string, Json>, e2: Dict<string, Json>)
    requires |conditions| == 2
    requires SexProbability(conditions[0], sex) == Ok(p1) && Projected(conditions[0], ID_AND_NAME) == Ok(e1)
    requires SexProbability(conditions[1], sex) == Ok(p2) && Projected(conditions[1], ID_AND_NAME) == Ok(e2)
    requires 0.0 < p1 && 0.0 < p2
    ensures Collected(conditions, sex, ByProbability) == Ok(Candidates([e1, e2], [p1, p2]))
  {
    KeptFirst(conditions[0], sex, p1, e1);
    KeptSecond(conditions[1], sex, p1, p2, e1, e2);
    CollectedTwo(conditions, sex, Candidates([e1], [p1]), Candidates([e1, e2], [p1, p2]));
  }

  lemma KeptFirst(condition: Json, sex: string, p: real, entry: Dict<string, Json>)
    requires SexProbability(condition, sex) == Ok(p) && p > 0.0
    requires Projected(condition, ID_AND_NAME) == Ok(entry)
    ensures CollectStep(Candidates([], []), condition, sex, ByProbability) == Ok(Candidates([entry], [p]))
  {
    KeptStep(Candidates([], []), condition, sex, p, entry);
    assert [] + [entry] == [entry] && [] + [p] == [p];
  }

  lemma KeptSecond(condition: Json, sex: string, p1: real, p2: real, e1: Dict<string, Json>, e2: Dict<string, Json>)
    requires SexProbability(condition, sex) == Ok(p2) && p2 > 0.0
    requires Projected(condition, ID_AND_NAME) == Ok(e2)
    ensures CollectStep(Candidates([e1], [p1]), condition, sex, ByProbability) == Ok(Candidates([e1, e2], [p1, p2]))
  {
    KeptStep(Candidates([e1], [p1]), condition, sex, p2, e2);
    assert [e1] + [e2] == [e1, e2] && [p1] + [p2] == [p1, p2];
  }

  /** The probability ranking of two kept conditions, either way round. */
  lemma RankedTwo(caseData: Json, fixtures: Fixtures, sex: string, p1: real, p2: real,
                  e1: Dict<string, Json>, e2: Dict<string, Json>, reverse: bool)
    requires TwoKept(caseData, fixtures, sex, p1, p2, e1, e2)
    ensures ByProbabilityRanked(caseData, fixtures, reverse) == Ok(if reverse then [e2, e1] else [e1, e2])
  {
    TwoKeptCollected(fixtures.conditions, sex, p1, p2, e1, e2);
    TopOfTwo(e1, e2, p1, p2, reverse);
  }

  lemma KeptStep(acc: Candidates, condition: Json, sex: string, p: real, entry: Dict<string, Json>)
    requires SexProbability(condition, sex) == Ok(p) && p > 0.0
    requires Projected(condition, ID_AND_NAME) == Ok(entry)
    ensures CollectStep(acc, condition, sex, ByProbability) == Ok(Candidates(acc.entries + [entry], acc.keys + [p]))
  {
  }

  /** Of two collected conditions, the ranking lists the likelier first only when reversed. */
  lemma TopOfTwo(e1: Dict<string, Json>, e2: Dict<string, Json>, p1: real, p2: real, reverse: bool)
    requires p1 < p2
    ensures Top(Candidates([e1, e2], [p1, p2]), reverse, MAX_RETURNED_CONDITIONS) == if reverse then [e2, e1] else [e1, e2]
  {
    var c := Candidates([e1, e2], [p1, p2]);
    var a := StableSort.Tagged(p1, 0, e1);
    var b := StableSort.Tagged(p2, 1, e2);
    assert StableSort.Tag(StableSort.Zip(c.keys, c.entries)) == [a, b];
    StableSort.SortTwo(a, b, reverse);
    TopIsLeading(c, reverse, MAX_RETURNED_CONDITIONS);
  }

  lemma AsJsonTwo(a: Dict<string, Json>, b: Dict<string, Json>)
    ensures AsJson([a, b]) == [JObj(a), JObj(b)]
  {
    var r := AsJson([a, b]);
    assert |r| == 2 && r[0] == JObj(a) && r[1] == JObj(b);
  }

  /** Both solvers answer with their ranking, listed as JSON objects. */
  lemma AnswerOfRanked(caseData: Json, fixtures: Fixtures, reverse: bool, top: seq<Dict<string, Json>>, listed: seq<Json>)
    requires ByProbabilityRanked(caseData, fixtures, reverse) == Ok(top)
    requires listed == AsJson(top)
    ensures !reverse ==> MostLikelyConditionsAsWritten(caseData, fixtures) == Ok(Answer(JStr("PC"), listed))
    ensures reverse ==> MostLikelyConditions(caseData, fixtures) == Ok(Answer(JStr("PC"), listed))
  {
  }

  /** As written, the less likely condition is listed first. */
  lemma MostLikelyAsWrittenListsLessLikelyFirst(caseData: Json, fixtures: Fixtures, sex: string, p1: real, p2: real,
                                                e1: Dict<string, Json>, e2: Dict<string, Json>)
    requires TwoKept(caseData, fixtures, sex, p1, p2, e1, e2)
    ensures MostLikelyConditionsAsWritten(caseData, fixtures) == Ok(Answer(JStr("PC"), [JObj(e1), JObj(e2)]))
  {
    RankedTwo(caseData, fixtures, sex, p1, p2, e1, e2, false);
    AsJsonTwo(e1, e2);
    AnswerOfRanked(caseData, fixtures, false, [e1, e2], [JObj(e1), JObj(e2)]);
  }

  /** With the ranking the name promises, the more likely condition is listed first. */
  lemma MostLikelyListsMoreLikelyFirst(caseData: Json, fixtures: Fixtures, sex: string, p1: real, p2: real,
                                       e1: Dict<string, Json>, e2: Dict<string, Json>)
    requires TwoKept(caseData, fixtures, sex, p1, p2, e1, e2)
    ensures MostLikelyConditions(caseData, fixtures) == Ok(Answer(JStr("PC"), [JObj(e2), JObj(e1)]))
  {
    RankedTwo(caseData, fixtures, sex, p1, p2, e1, e2, true);
    AsJsonTwo(e2, e1);
    AnswerOfRanked(caseData, fixtures, true, [e2, e1], [JObj(e2), JObj(e1)]);
  }
}
