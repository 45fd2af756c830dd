/**
 * The quantity validators of the case synthesizer: `quantity_range(lower,
 * upper)` makes a validator that converts its value with `int()` and
 * raises ValidationError outside the inclusive range.
 */
module CaseValidators {
  import opened Wrappers
  import opened JsonValues
  import Text

  const MIN_CASES_QUANTITY: int := 1
  const MAX_CASES_QUANTITY: int := 10000
  const MIN_CASESETS_QUANTITY: int := 1
  const MAX_CASESETS_QUANTITY: int := 10

  /**
   * The validator `quantity_range(lower, upper)` returns, applied to a value:
   * the conversion's own error, ValidationError out of range, else nothing.
   */
  function QuantityRange(lower: int, upper: int, value: Json): (r: Result<()>)
    ensures PyInt(value).Err? ==> r == Err(PyInt(value).error)
    ensures PyInt(value).Ok? ==> (r.Ok? <==> lower <= PyInt(value).value <= upper)
    ensures PyInt(value).Ok? && r.Err? ==> r.error == ValidationError
  {
    var n :- PyInt(value);
    if n > upper || n < lower then Err(ValidationError) else Ok(())
  }

  /** The number of cases to synthesize: 1 to 10000, both ends included. */
  lemma CasesQuantityRange(n: int)
    ensures QuantityRange(MIN_CASES_QUANTITY, MAX_CASES_QUANTITY, JNum(n as real)).Ok? <==> 1 <= n <= 10000
  {
    assert (n as real).Floor == n;
    assert n < 0 ==> (-(n as real)).Floor == -n;
  }

  /** The number of case sets: 1 to 10, both ends included. */
  lemma CaseSetsQuantityRange(n: int)
    ensures QuantityRange(MIN_CASESETS_QUANTITY, MAX_CASESETS_QUANTITY, JNum(n as real)).Ok? <==> 1 <= n <= 10
  {
    assert (n as real).Floor == n;
    assert n < 0 ==> (-(n as real)).Floor == -n;
  }

  /**
   * The value is converted before it is compared: 10.5 truncates to 10 and
   * passes the case-set range, "7" parses and passes, "seven" raises
   * ValueError rather than ValidationError.
   */
  lemma ConvertedBeforeCompared()
    ensures QuantityRange(MIN_CASESETS_QUANTITY, MAX_CASESETS_QUANTITY, JNum(10.5)).Ok?
    ensures QuantityRange(MIN_CASESETS_QUANTITY, MAX_CASESETS_QUANTITY, JNum(0.5)) == Err(ValidationError)
    ensures QuantityRange(MIN_CASESETS_QUANTITY, MAX_CASESETS_QUANTITY, JStr("7")).Ok?
    ensures QuantityRange(MIN_CASESETS_QUANTITY, MAX_CASESETS_QUANTITY, JStr("seven")) == Err(ValueError)
  {
    assert (10.5).Floor == 10;
    assert (0.5).Floor == 0;
    assert Text.DigitsValue("7") == 7 by {
      assert "7"[..0] == [];
    }
    assert !Text.IsDigit('s');
  }
}
