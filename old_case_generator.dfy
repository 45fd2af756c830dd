/**
 * The case generator of the earlier services (`generate_case`): the same
 * sampling as the Django generator, but one case at a time, a case id made
 * of a fixed prefix and a random integer, camel-case keys, and assertions
 * where the newer generator raises SynthesisError.
 */
module OldCaseGenerator {
  import opened Wrappers
  import opened JsonValues
  import opened Text
  import opened CaseGeneration

  const CASE_ID_PREFIX: string := "case_mmvb_0_0_1_a_"
  /** The upper bound of `random.randint(0, 1e8)`. */
  const MAX_ID_SUFFIX: nat := 100000000
  const DESCRIPTION: string := "a synthetic case for the MMVB"

  /** `"case_mmvb_0_0_1_a_" + str(random.randint(0, 1e8))` */
  function CaseId(draws: CaseDraws): string {
    CASE_ID_PREFIX + NatToString(draws.idDraw % (MAX_ID_SUFFIX + 1))
  }

  /** The case id is the prefix followed by the decimal digits of an integer from 0 to 10^8. */
  lemma CaseIdShape(draws: CaseDraws)
    ensures StartsWith(CaseId(draws), CASE_ID_PREFIX)
    ensures var suffix := CaseId(draws)[|CASE_ID_PREFIX|..];
      && AllDigits(suffix) && DigitsValue(suffix) <= MAX_ID_SUFFIX
      && ParseInt(suffix) == Ok(draws.idDraw % (MAX_ID_SUFFIX + 1))
  {
    var n := draws.idDraw % (MAX_ID_SUFFIX + 1);
    var id := CaseId(draws);
    assert id[..|CASE_ID_PREFIX|] == CASE_ID_PREFIX;
    assert id[|CASE_ID_PREFIX|..] == NatToString(n);
    DigitsOfNat(n);
  }

  function CaseData(caseId: string, sex: string, age: nat, split: Split): Json {
    JObj([
      ("caseId", JStr(caseId)),
      ("metaData", JObj([("description", JStr(DESCRIPTION))])),
      ("profileInformation", JObj([("biologicalSex", JStr(sex)), ("age", JNum(age as real))])),
      ("presentingComplaints", JArr([split.presenting])),
      ("otherFeatures", JArr(split.others))])
  }

  /** The output object: the case data and the values to predict. */
  function CaseOutput(caseData: Json, predicted: Json): (r: Json)
    ensures Index(r, "caseData") == Ok(caseData) && Index(r, "valuesToPredict") == Ok(predicted)
  {
    var r := JObj([("caseData", caseData), ("valuesToPredict", predicted)]);
    assert Dicts.Get(r.fields, "valuesToPredict") == Some(predicted);
    r
  }

  /** `generate_case` */
  function GenerateCase(fixtures: Fixtures, draws: CaseDraws): (r: Result<Json>)
  {
    var sampled :- SampleCase(fixtures, Sex(draws), draws, AssertionError);
    var predicted :- ValuesToPredict(sampled.condition, "expectedTriageLevel");
    Ok(CaseOutput(CaseData(CaseId(draws), Sex(draws), Age(draws), sampled.split), predicted))
  }

  /**
   * A generated case has the drawn case id, an age from 18 to 80, a sex of
   * male or female, a present presenting complaint, and predicts the
   * triage level, id and name of a condition of the fixture.
   */
  lemma GeneratedCaseShape(fixtures: Fixtures, draws: CaseDraws)
    requires GenerateCase(fixtures, draws).Ok?
    ensures var r := GenerateCase(fixtures, draws).value;
      var s := SampleCase(fixtures, Sex(draws), draws, AssertionError).value;
      && Index(r, "caseData") == Ok(CaseData(CaseId(draws), Sex(draws), Age(draws), s.split))
      && 18 <= Age(draws) <= 80 && Sex(draws) in ["male", "female"]
      && IsPresent(s.split.presenting)
      && s.condition in fixtures.conditions
      && Index(r, "valuesToPredict") == Ok(JObj([
           ("expectedTriageLevel", Index(s.condition, "expected_triage_level").value),
           ("condition", JObj([("id", Index(s.condition, "id").value), ("name", Index(s.condition, "name").value)]))]))
  {
    SampledCaseShape(fixtures, Sex(draws), draws, AssertionError);
  }

  /** A condition without symptom probabilities fails the generator's assertion. */
  lemma NoProbabilitiesFailsAssertion(fixtures: Fixtures, draws: CaseDraws)
    requires CaseGeneration.Weights(fixtures.conditions, Sex(draws)).Ok? && fixtures.conditions != []
    requires var condition := fixtures.conditions[draws.conditionDraw % |fixtures.conditions|];
      && Index(condition, "id").Ok?
      && forall i :: 0 <= i < |fixtures.links| ==> fixtures.links[i].conditionId != Index(condition, "id").value
    ensures GenerateCase(fixtures, draws) == Err(AssertionError)
  {
    NoProbabilitiesRaises(fixtures, Sex(draws), draws, AssertionError);
  }
}
