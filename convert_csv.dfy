/**
 * The converter from the symptom/condition spreadsheet (as CSV rows) to the
 * fixture data: row 0 names the conditions (columns from 2 on), row 2 holds
 * each condition's likeliness per gender, a row labelled "Expected triage
 * level" holds each condition's triage, and every other row after 2 is a
 * symptom whose non-empty cells link it to a condition with a likelihood.
 * The MD5 digest is an opaque function `hash`.
 */
module ConvertCsv {
  import opened Wrappers
  import opened Dicts

  const LIKELIHOOD_MAP: Dict<string, real> := [("x", 0.3), ("xx", 0.6), ("xxx", 0.9)]
  const LIKELIHOODS: set<real> := {0.3, 0.6, 0.9}
  /** The cells a symptom row may hold. */
  const SYMPTOM_CELLS: seq<string> := ["", "x", "xx", "xxx"]
  const TRIAGE_LEVELS: seq<string> := ["SC", "PC", "EC"]
  const TRIAGE_ROW: string := "Expected triage level"
  const ONLY_FEMALES: string := "x, only females"

  /** A condition's probability for each gender. */
  datatype ByGender = ByGender(male: real, female: real)

  lemma LikelihoodMapReads()
    ensures Get(LIKELIHOOD_MAP, "x") == Some(0.3)
    ensures Get(LIKELIHOOD_MAP, "xx") == Some(0.6)
    ensures Get(LIKELIHOOD_MAP, "xxx") == Some(0.9)
    ensures forall v :: HasKey(LIKELIHOOD_MAP, v) <==> v == "x" || v == "xx" || v == "xxx"
  {
    assert Keys(LIKELIHOOD_MAP) == ["x", "xx", "xxx"];
    assert "x" != "xx" && "x" != "xxx" && "xx" != "xxx";
    assert LIKELIHOOD_MAP[1..] == [("xx", 0.6), ("xxx", 0.9)];
    assert LIKELIHOOD_MAP[1..][1..] == [("xxx", 0.9)];
  }

  /** `map_likelihood`: an empty cell is no link; otherwise the cell is looked up. */
  function Likelihood(value: string): Result<Option<real>> {
    if value == "" then Ok(None)
    else
      match Get(LIKELIHOOD_MAP, value)
      case Some(p) => Ok(Some(p))
      case None => Err(ValueError)
  }

  /** An empty cell is no link; x, xx and xxx are 0.3, 0.6 and 0.9; anything else is a ValueError. */
  lemma LikelihoodCases(value: string)
    ensures value == "" ==> Likelihood(value) == Ok(None)
    ensures value == "x" ==> Likelihood(value) == Ok(Some(0.3))
    ensures value == "xx" ==> Likelihood(value) == Ok(Some(0.6))
    ensures value == "xxx" ==> Likelihood(value) == Ok(Some(0.9))
    ensures Likelihood(value).Err? <==> value !in SYMPTOM_CELLS
    ensures Likelihood(value).Err? ==> Likelihood(value).error == ValueError
  {
    LikelihoodMapReads();
  }

  /** `extract_condition_probability`. */
  function ConditionProbability(value: string): Result<ByGender> {
    if value == ONLY_FEMALES then Ok(ByGender(0.0, Get(LIKELIHOOD_MAP, "x").value))
    else
      match Get(LIKELIHOOD_MAP, value)
      case Some(p) => Ok(ByGender(p, p))
      case None => Err(ValueError)
  }

  /**
   * "x, only females" is 0 for males and 0.3 for females; x, xx and xxx give
   * both genders the cell's likelihood; anything else is a ValueError.
   */
  lemma ConditionProbabilityCases(value: string)
    ensures value == ONLY_FEMALES ==> ConditionProbability(value) == Ok(ByGender(0.0, 0.3))
    ensures value != ONLY_FEMALES ==>
      (ConditionProbability(value).Ok? <==> value != "" && Likelihood(value).Ok?) &&
      (ConditionProbability(value).Ok? ==>
         ConditionProbability(value).value == ByGender(Likelihood(value).value.value, Likelihood(value).value.value))
    ensures ConditionProbability(value).Err? ==> ConditionProbability(value).error == ValueError
  {
    LikelihoodMapReads();
    LikelihoodCases(value);
  }

  /** `map_expected_triage_level`. */
  function ExpectedTriageLevel(value: string): Result<string> {
    if value == "SC" || value == "PC" || value == "EC" then Ok(value)
    else if value == "SC/PC" then Ok("SC")
    else Err(ValueError)
  }

  /** SC, PC and EC are kept, "SC/PC" becomes SC, anything else is a ValueError. */
  lemma ExpectedTriageLevelCases(value: string)
    ensures value in TRIAGE_LEVELS ==> ExpectedTriageLevel(value) == Ok(value)
    ensures value == "SC/PC" ==> ExpectedTriageLevel(value) == Ok("SC")
    ensures ExpectedTriageLevel(value).Err? <==> value !in TRIAGE_LEVELS && value != "SC/PC"
    ensures ExpectedTriageLevel(value).Err? ==> ExpectedTriageLevel(value).error == ValueError
    ensures ExpectedTriageLevel(value).Ok? ==> ExpectedTriageLevel(value).value in TRIAGE_LEVELS
  {
  }

  /** A probability as `extract_condition_probability` produces it. */
  predicate ProbabilityShaped(p: ByGender) {
    p == ByGender(0.0, 0.3) || (p.male == p.female && p.male in LIKELIHOODS)
  }

  lemma ConditionProbabilityShaped(value: string)
    requires ConditionProbability(value).Ok?
    ensures ProbabilityShaped(ConditionProbability(value).value)
  {
    if value != ONLY_FEMALES {
      assert value in SYMPTOM_CELLS && value != "";
      assert value == "x" || value == "xx" || value == "xxx";
    }
  }

  // ------------------------------------------------------------ the tables the loop fills

  /** A row of `condition_symptom_probability`: hashed condition, hashed symptom, likelihood. */
  datatype Link = Link(conditionId: string, symptomId: string, likelihood: real)

  datatype Tables = Tables(
    conditions: seq<string>,              // the `conditions` set, in the order names were added
    symptoms: seq<string>,                // the `symptoms` set, likewise
    columns: map<nat, string>,            // column_id_to_condition_map
    probabilities: map<string, ByGender>, // condition_probability
    triage: map<string, string>,          // condition_to_expected_triage_level
    links: seq<Link>)                     // condition_symptom_probability

  const EMPTY: Tables := Tables([], [], map[], map[], map[], [])

  /** What a row's cells from column 2 on are read as. */
  datatype RowKind = Header | Probabilities | Triage | Symptom(name: string)

  /** One cell (column c > 1) of a row of the given kind. */
  function Cell(t: Tables, kind: RowKind, c: nat, v: string, hash: string -> string): Result<Tables> {
    match kind
    case Header =>
      if v in t.conditions then Err(AssertionError)
      else Ok(t.(conditions := t.conditions + [v], columns := t.columns[c := v]))
    case Probabilities =>
      if c !in t.columns then Err(KeyError)
      else
        var p :- ConditionProbability(v);
        Ok(t.(probabilities := t.probabilities[t.columns[c] := p]))
    case Triage =>
      if c !in t.columns then Err(KeyError)
      else
        var level :- ExpectedTriageLevel(v);
        Ok(t.(triage := t.triage[t.columns[c] := level]))
    case Symptom(name) =>
      if v !in SYMPTOM_CELLS then Err(AssertionError)
      else
        match Likelihood(v)
        case Ok(Some(l)) =>
          if c !in t.columns then Err(KeyError)
          else Ok(t.(links := t.links + [Link(hash(t.columns[c]), hash(name), l)]))
        case _ => Ok(t)
  }

  /** The loop over the first n cells of a row; columns 0 and 1 are skipped. */
  function Cells(t: Tables, kind: RowKind, row: seq<string>, n: nat, hash: string -> string): Result<Tables>
    requires n <= |row|
    decreases n
  {
    if n == 0 then Ok(t)
    else
      var acc :- Cells(t, kind, row, n - 1, hash);
      if n - 1 > 1 then Cell(acc, kind, n - 1, row[n - 1], hash) else Ok(acc)
  }

  /** One row of the CSV loop, numbered from 0. */
  function RowStep(t: Tables, rowId: nat, row: seq<string>, hash: string -> string): Result<Tables> {
    if rowId == 0 then Cells(t, Header, row, |row|, hash)
    else if rowId == 1 then Ok(t)
    else if rowId == 2 then Cells(t, Probabilities, row, |row|, hash)
    else if |row| == 0 then Err(IndexError)
    else if row[0] == TRIAGE_ROW then Cells(t, Triage, row, |row|, hash)
    else if row[0] in t.symptoms then Err(AssertionError)
    else Cells(t.(symptoms := t.symptoms + [row[0]]), Symptom(row[0]), row, |row|, hash)
  }

  function RowStepOf(hash: string -> string): (Tables, nat, seq<string>) -> Result<Tables> {
    (t: Tables, rowId: nat, row: seq<string>) => RowStep(t, rowId, row, hash)
  }

  /** A loop over the first n rows, starting from empty tables, with `step` for one row. */
  function RowsWith(step: (Tables, nat, seq<string>) -> Result<Tables>, rows: seq<seq<string>>, n: nat): Result<Tables>
    requires n <= |rows|
    decreases n
  {
    if n == 0 then Ok(EMPTY)
    else
      var t :- RowsWith(step, rows, n - 1);
      step(t, n - 1, rows[n - 1])
  }

  /** The CSV loop over the first n rows. */
  function Rows(rows: seq<seq<string>>, n: nat, hash: string -> string): Result<Tables>
    requires n <= |rows|
  {
    RowsWith(RowStepOf(hash), rows, n)
  }

  // ------------------------------------------------------------ the output

  datatype SymptomEntry = SymptomEntry(id: string, name: string)
  datatype ConditionEntry = ConditionEntry(id: string, name: string, probability: ByGender, expectedTriageLevel: string)
  datatype Data = Data(symptoms: seq<SymptomEntry>, conditions: seq<ConditionEntry>, links: seq<Link>)

  /** `data_symptoms`, `data_conditions` and the links; a condition without probability or triage is a KeyError. */
  function Output(t: Tables, hash: string -> string): (r: Result<Data>)
    ensures r.Ok? <==> forall name :: name in t.conditions ==> name in t.probabilities && name in t.triage
    ensures r.Err? ==> r.error == KeyError
    ensures r.Ok? ==> |r.value.conditions| == |t.conditions| && |r.value.symptoms| == |t.symptoms| && r.value.links == t.links
    ensures r.Ok? ==> forall i :: 0 <= i < |t.conditions| ==>
      r.value.conditions[i].name == t.conditions[i] && r.value.conditions[i].id == hash(t.conditions[i]) &&
      r.value.conditions[i].probability == t.probabilities[t.conditions[i]] &&
      r.value.conditions[i].expectedTriageLevel == t.triage[t.conditions[i]]
    ensures r.Ok? ==> forall i :: 0 <= i < |t.symptoms| ==> r.value.symptoms[i] == SymptomEntry(hash(t.symptoms[i]), t.symptoms[i])
  {
    if forall name :: name in t.conditions ==> name in t.probabilities && name in t.triage then
      var symptoms := seq(|t.symptoms|, i requires 0 <= i < |t.symptoms| => SymptomEntry(hash(t.symptoms[i]), t.symptoms[i]));
      var conditions := seq(|t.conditions|, i requires 0 <= i < |t.conditions| =>
        var name := t.conditions[i];
        ConditionEntry(hash(name), name, t.probabilities[name], t.triage[name]));
      Ok(Data(symptoms, conditions, t.links))
    else Err(KeyError)
  }

  /** The whole script: every row, then the output. */
  function Convert(rows: seq<seq<string>>, hash: string -> string): Result<Data> {
    var t :- Rows(rows, |rows|, hash);
    Output(t, hash)
  }

  // ------------------------------------------------------------ what each kind of row does

  predicate NoDuplicates<T(==)>(s: seq<T>) {
    forall i, j :: 0 <= i < j < |s| ==> s[i] != s[j]
  }

  lemma NoDuplicatesSnoc<T>(s: seq<T>, x: T)
    ensures NoDuplicates(s + [x]) <==> NoDuplicates(s) && x !in s
  {
    var e := s + [x];
    if NoDuplicates(s) && x !in s {
      forall i, j | 0 <= i < j < |e| ensures e[i] != e[j] {
        if j == |s| { assert e[i] == s[i]; }
      }
    }
    if NoDuplicates(e) {
      forall i, j | 0 <= i < j < |s| ensures s[i] != s[j] {
        assert e[i] == s[i] && e[j] == s[j];
      }
      forall i | 0 <= i < |s| ensures s[i] != x {
        assert e[i] == s[i] && e[|s|] == x;
      }
    }
  }

  /** The condition names of a header row's first n cells: those from column 2 on. */
  function Names(row: seq<string>, n: nat): seq<string>
    requires n <= |row|
  {
    if n <= 2 then [] else row[2..n]
  }

  /** Every column is mapped to a different condition. */
  predicate Injective(columns: map<nat, string>) {
    forall c, d :: c in columns && d in columns && c != d ==> columns[c] != columns[d]
  }

  /**
   * The header row fails an assertion exactly when one of the names of
   * columns 2 on repeats or is already a condition.
   */
  lemma {:induction false} HeaderCellsOk(t: Tables, row: seq<string>, n: nat, hash: string -> string)
    requires n <= |row| && NoDuplicates(t.conditions)
    ensures Cells(t, Header, row, n, hash).Ok? <==> NoDuplicates(t.conditions + Names(row, n))
    ensures Cells(t, Header, row, n, hash).Err? ==> Cells(t, Header, row, n, hash).error == AssertionError
    decreases n
  {
    if n > 0 {
      HeaderCellsOk(t, row, n - 1, hash);
      if n - 1 > 1 {
        var prefix := Names(row, n - 1);
        assert Names(row, n) == prefix + [row[n - 1]];
        assert t.conditions + Names(row, n) == (t.conditions + prefix) + [row[n - 1]];
        NoDuplicatesSnoc(t.conditions + prefix, row[n - 1]);
        if Cells(t, Header, row, n - 1, hash).Ok? {
          HeaderCellsValues(t, row, n - 1, hash);
        }
      } else {
        assert Names(row, n) == Names(row, n - 1) == [];
      }
    }
  }

  /**
   * Otherwise it adds those names, in order, to the conditions and maps
   * each of those columns to its name, and changes nothing else.
   */
  lemma {:induction false} HeaderCellsValues(t: Tables, row: seq<string>, n: nat, hash: string -> string)
    requires n <= |row| && Cells(t, Header, row, n, hash).Ok?
    ensures HeaderAdded(t, Cells(t, Header, row, n, hash).value, row, n)
    decreases n
  {
    if n > 0 {
      var p := Cells(t, Header, row, n - 1, hash).value;
      HeaderCellsValues(t, row, n - 1, hash);
      if n - 1 > 1 {
        HeaderStep(t, p, Cells(t, Header, row, n, hash).value, row, n);
      } else {
        assert Names(row, n) == Names(row, n - 1) == [];
      }
    }
  }

  /** The tables after the header's first n cells: t with those names added and their columns mapped. */
  ghost predicate HeaderAdded(t: Tables, u: Tables, row: seq<string>, n: nat)
    requires n <= |row|
  {
    && u == t.(conditions := t.conditions + Names(row, n), columns := u.columns)
    && (forall c :: c in u.columns <==> c in t.columns || 2 <= c < n)
    && (forall c :: 2 <= c < n ==> u.columns[c] == row[c])
    && (forall c :: c in t.columns && !(2 <= c < n) ==> u.columns[c] == t.columns[c])
  }

  lemma HeaderStep(t: Tables, p: Tables, u: Tables, row: seq<string>, n: nat)
    requires 2 < n <= |row| && HeaderAdded(t, p, row, n - 1)
    requires u == p.(conditions := p.conditions + [row[n - 1]], columns := p.columns[n - 1 := row[n - 1]])
    ensures HeaderAdded(t, u, row, n)
  {
    assert Names(row, n) == Names(row, n - 1) + [row[n - 1]];
    forall c ensures c in u.columns <==> c in t.columns || 2 <= c < n {
      assert c in u.columns <==> c in p.columns || c == n - 1;
    }
    forall c | 2 <= c < n ensures u.columns[c] == row[c] {
      if c < n - 1 {
        assert u.columns[c] == p.columns[c];
      }
    }
    forall c | c in t.columns && !(2 <= c < n) ensures u.columns[c] == t.columns[c] {
      assert c != n - 1;
    }
  }

  /** How many of a symptom row's first n cells, from column 2 on, are non-empty. */
  function NonEmptyCells(row: seq<string>, n: nat): nat
    requires n <= |row|
  {
    if n == 0 then 0
    else NonEmptyCells(row, n - 1) + (if n - 1 > 1 && row[n - 1] != "" then 1 else 0)
  }

  /**
   * A symptom row holds only "", x, xx and xxx from column 2 on, and every
   * non-empty cell must be under a condition column; it then appends one
   * link per non-empty cell, all for this symptom, and changes nothing else.
   */
  lemma {:induction false} SymptomCells(t: Tables, name: string, row: seq<string>, n: nat, hash: string -> string)
    requires n <= |row|
    ensures Cells(t, Symptom(name), row, n, hash).Ok? <==>
      forall c :: 2 <= c < n ==> row[c] in SYMPTOM_CELLS && (row[c] != "" ==> c in t.columns)
    ensures Cells(t, Symptom(name), row, n, hash).Ok? ==>
      var u := Cells(t, Symptom(name), row, n, hash).value;
      u == t.(links := u.links) && |u.links| == |t.links| + NonEmptyCells(row, n) && u.links[..|t.links|] == t.links &&
      forall i :: |t.links| <= i < |u.links| ==> u.links[i].symptomId == hash(name) && u.links[i].likelihood in LIKELIHOODS
    decreases n
  {
    if n > 0 {
      SymptomCells(t, name, row, n - 1, hash);
      var prev := Cells(t, Symptom(name), row, n - 1, hash);
      if prev.Ok? && n - 1 > 1 {
        SymptomCell(prev.value, name, n - 1, row[n - 1], hash);
      }
    }
  }

  /** One cell of a symptom row: a mark adds one link of that symptom, an empty cell adds nothing. */
  lemma SymptomCell(t: Tables, name: string, c: nat, v: string, hash: string -> string)
    ensures Cell(t, Symptom(name), c, v, hash).Ok? <==> v in SYMPTOM_CELLS && (v != "" ==> c in t.columns)
    ensures Cell(t, Symptom(name), c, v, hash).Ok? ==>
      var u := Cell(t, Symptom(name), c, v, hash).value;
      u == t.(links := u.links) && u.links[..|t.links|] == t.links &&
      |u.links| == |t.links| + (if v != "" then 1 else 0) &&
      forall i :: |t.links| <= i < |u.links| ==> u.links[i].symptomId == hash(name) && u.links[i].likelihood in LIKELIHOODS
  {
    if v in SYMPTOM_CELLS && v != "" {
      assert Likelihood(v).Ok? && Likelihood(v).value.Some?;
      assert Likelihood(v).value.value in LIKELIHOODS by {
        assert v == "x" || v == "xx" || v == "xxx";
      }
    }
  }

  /**
   * The probability row needs every column from 2 on to be a condition
   * column holding a readable likeliness, and changes only the probabilities.
   */
  lemma {:induction false} ProbabilityCellsOk(t: Tables, row: seq<string>, n: nat, hash: string -> string)
    requires n <= |row|
    ensures Cells(t, Probabilities, row, n, hash).Ok? <==> forall c :: 2 <= c < n ==> c in t.columns && ConditionProbability(row[c]).Ok?
    ensures Cells(t, Probabilities, row, n, hash).Ok? ==>
      Cells(t, Probabilities, row, n, hash).value == t.(probabilities := Cells(t, Probabilities, row, n, hash).value.probabilities)
    decreases n
  {
    if n > 0 {
      ProbabilityCellsOk(t, row, n - 1, hash);
      var prev := Cells(t, Probabilities, row, n - 1, hash);
      if prev.Ok? && n - 1 > 1 {
        ProbabilityCell(prev.value, n - 1, row[n - 1], hash);
      }
    }
  }

  /**
   * It gives each of those conditions its likeliness.
   */
  lemma {:induction false} ProbabilityCellsValues(t: Tables, row: seq<string>, n: nat, hash: string -> string)
    requires n <= |row| && Injective(t.columns) && Cells(t, Probabilities, row, n, hash).Ok?
    ensures var u := Cells(t, Probabilities, row, n, hash).value;
      forall c :: 2 <= c < n ==>
        c in t.columns && ConditionProbability(row[c]).Ok? && t.columns[c] in u.probabilities && u.probabilities[t.columns[c]] == ConditionProbability(row[c]).value
    decreases n
  {
    if n > 0 {
      var p := Cells(t, Probabilities, row, n - 1, hash).value;
      ProbabilityCellsValues(t, row, n - 1, hash);
      ProbabilityCellsOk(t, row, n - 1, hash);
      if n - 1 > 1 {
        ProbabilityCell(p, n - 1, row[n - 1], hash);
        var k := t.columns[n - 1];
        var u := Cells(t, Probabilities, row, n, hash).value;
        assert u.probabilities == p.probabilities[k := ConditionProbability(row[n - 1]).value];
        forall c | 2 <= c < n
          ensures c in t.columns && ConditionProbability(row[c]).Ok? && t.columns[c] in u.probabilities && u.probabilities[t.columns[c]] == ConditionProbability(row[c]).value
        {
          if c < n - 1 {
            assert t.columns[c] != k;
          }
        }
      }
    }
  }

  /** The only keys it adds are condition names of columns. */
  lemma {:induction false} ProbabilityCellsKeys(t: Tables, row: seq<string>, n: nat, hash: string -> string)
    requires n <= |row| && Cells(t, Probabilities, row, n, hash).Ok?
    ensures forall k :: k in Cells(t, Probabilities, row, n, hash).value.probabilities ==> k in t.probabilities || k in t.columns.Values
    decreases n
  {
    if n > 0 {
      var p := Cells(t, Probabilities, row, n - 1, hash).value;
      ProbabilityCellsKeys(t, row, n - 1, hash);
      ProbabilityCellsOk(t, row, n - 1, hash);
      if n - 1 > 1 {
        ProbabilityCell(p, n - 1, row[n - 1], hash);
      }
    }
  }


  lemma ProbabilityCell(t: Tables, c: nat, v: string, hash: string -> string)
    ensures Cell(t, Probabilities, c, v, hash).Ok? <==> c in t.columns && ConditionProbability(v).Ok?
    ensures Cell(t, Probabilities, c, v, hash).Ok? ==>
      Cell(t, Probabilities, c, v, hash).value == t.(probabilities := t.probabilities[t.columns[c] := ConditionProbability(v).value])
  {
  }

  lemma TriageCell(t: Tables, c: nat, v: string, hash: string -> string)
    ensures Cell(t, Triage, c, v, hash).Ok? <==> c in t.columns && ExpectedTriageLevel(v).Ok?
    ensures Cell(t, Triage, c, v, hash).Ok? ==>
      Cell(t, Triage, c, v, hash).value == t.(triage := t.triage[t.columns[c] := ExpectedTriageLevel(v).value])
  {
  }

  /**
   * The triage row needs every column from 2 on to be a condition column
   * holding SC, PC, EC or SC/PC, and changes only the triage levels.
   */
  lemma {:induction false} TriageCellsOk(t: Tables, row: seq<string>, n: nat, hash: string -> string)
    requires n <= |row|
    ensures Cells(t, Triage, row, n, hash).Ok? <==> forall c :: 2 <= c < n ==> c in t.columns && ExpectedTriageLevel(row[c]).Ok?
    ensures Cells(t, Triage, row, n, hash).Ok? ==>
      Cells(t, Triage, row, n, hash).value == t.(triage := Cells(t, Triage, row, n, hash).value.triage)
    decreases n
  {
    if n > 0 {
      TriageCellsOk(t, row, n - 1, hash);
      var prev := Cells(t, Triage, row, n - 1, hash);
      if prev.Ok? && n - 1 > 1 {
        TriageCell(prev.value, n - 1, row[n - 1], hash);
      }
    }
  }

  /**
   * It records each of those conditions' triage level.
   */
  lemma {:induction false} TriageCellsValues(t: Tables, row: seq<string>, n: nat, hash: string -> string)
    requires n <= |row| && Injective(t.columns) && Cells(t, Triage, row, n, hash).Ok?
    ensures var u := Cells(t, Triage, row, n, hash).value;
      forall c :: 2 <= c < n ==>
        c in t.columns && ExpectedTriageLevel(row[c]).Ok? && t.columns[c] in u.triage && u.triage[t.columns[c]] == ExpectedTriageLevel(row[c]).value
    decreases n
  {
    if n > 0 {
      var p := Cells(t, Triage, row, n - 1, hash).value;
      TriageCellsValues(t, row, n - 1, hash);
      TriageCellsOk(t, row, n - 1, hash);
      if n - 1 > 1 {
        TriageCell(p, n - 1, row[n - 1], hash);
        var k := t.columns[n - 1];
        var u := Cells(t, Triage, row, n, hash).value;
        assert u.triage == p.triage[k := ExpectedTriageLevel(row[n - 1]).value];
        forall c | 2 <= c < n
          ensures c in t.columns && ExpectedTriageLevel(row[c]).Ok? && t.columns[c] in u.triage && u.triage[t.columns[c]] == ExpectedTriageLevel(row[c]).value
        {
          if c < n - 1 {
            assert t.columns[c] != k;
          }
        }
      }
    }
  }

  /** The only keys it adds are condition names of columns. */
  lemma {:induction false} TriageCellsKeys(t: Tables, row: seq<string>, n: nat, hash: string -> string)
    requires n <= |row| && Cells(t, Triage, row, n, hash).Ok?
    ensures forall k :: k in Cells(t, Triage, row, n, hash).value.triage ==> k in t.triage || k in t.columns.Values
    decreases n
  {
    if n > 0 {
      var p := Cells(t, Triage, row, n - 1, hash).value;
      TriageCellsKeys(t, row, n - 1, hash);
      TriageCellsOk(t, row, n - 1, hash);
      if n - 1 > 1 {
        TriageCell(p, n - 1, row[n - 1], hash);
      }
    }
  }


  // ------------------------------------------------------------ what the whole script keeps

  /**
   * Condition and symptom names are distinct, every column maps to its own
   * condition, and every recorded probability, triage and link likelihood is
   * one the mappers produce.
   */
  ghost predicate Sound(t: Tables) {
    NoDuplicates(t.conditions) && NoDuplicates(t.symptoms) && Injective(t.columns) &&
    (forall k :: k in t.probabilities ==> ProbabilityShaped(t.probabilities[k])) &&
    (forall k :: k in t.triage ==> t.triage[k] in TRIAGE_LEVELS) &&
    (forall l :: l in t.links ==> l.likelihood in LIKELIHOODS)
  }

  lemma CellSound(t: Tables, kind: RowKind, c: nat, v: string, hash: string -> string)
    requires Sound(t) && (kind.Header? ==> forall d :: d in t.columns ==> t.columns[d] in t.conditions)
    requires Cell(t, kind, c, v, hash).Ok?
    ensures Sound(Cell(t, kind, c, v, hash).value)
    ensures kind.Header? ==> var u := Cell(t, kind, c, v, hash).value;
      forall d :: d in u.columns ==> u.columns[d] in u.conditions
  {
    var u := Cell(t, kind, c, v, hash).value;
    match kind
    case Header =>
      NoDuplicatesSnoc(t.conditions, v);
    case Probabilities =>
      ConditionProbabilityShaped(v);
    case Triage =>
    case Symptom(name) =>
      if v != "" {
        assert v == "x" || v == "xx" || v == "xxx";
      }
  }

  lemma {:induction false} CellsSound(t: Tables, kind: RowKind, row: seq<string>, n: nat, hash: string -> string)
    requires n <= |row| && Sound(t) && (kind.Header? ==> forall d :: d in t.columns ==> t.columns[d] in t.conditions)
    requires Cells(t, kind, row, n, hash).Ok?
    ensures Sound(Cells(t, kind, row, n, hash).value)
    ensures kind.Header? ==> var u := Cells(t, kind, row, n, hash).value;
      forall d :: d in u.columns ==> u.columns[d] in u.conditions
    decreases n
  {
    if n > 0 {
      CellsSound(t, kind, row, n - 1, hash);
      if n - 1 > 1 {
        CellSound(Cells(t, kind, row, n - 1, hash).value, kind, n - 1, row[n - 1], hash);
      }
    }
  }

  /** Every column maps to a known condition (the header row is the only writer of both). */
  ghost predicate ColumnsKnown(t: Tables) {
    forall d :: d in t.columns ==> t.columns[d] in t.conditions
  }

  lemma {:induction false} CellsKeepColumns(t: Tables, kind: RowKind, row: seq<string>, n: nat, hash: string -> string)
    requires n <= |row| && !kind.Header? && Cells(t, kind, row, n, hash).Ok?
    ensures Cells(t, kind, row, n, hash).value.columns == t.columns
    ensures Cells(t, kind, row, n, hash).value.conditions == t.conditions
    decreases n
  {
    if n > 0 {
      CellsKeepColumns(t, kind, row, n - 1, hash);
    }
  }

  lemma RowStepSound(t: Tables, rowId: nat, row: seq<string>, hash: string -> string)
    requires Sound(t) && ColumnsKnown(t) && RowStep(t, rowId, row, hash).Ok?
    ensures Sound(RowStep(t, rowId, row, hash).value) && ColumnsKnown(RowStep(t, rowId, row, hash).value)
  {
    if rowId == 0 {
      CellsSound(t, Header, row, |row|, hash);
    } else if rowId == 2 {
      CellsSound(t, Probabilities, row, |row|, hash);
      CellsKeepColumns(t, Probabilities, row, |row|, hash);
    } else if rowId > 2 && row[0] == TRIAGE_ROW {
      CellsSound(t, Triage, row, |row|, hash);
      CellsKeepColumns(t, Triage, row, |row|, hash);
    } else if rowId > 2 {
      var s := t.(symptoms := t.symptoms + [row[0]]);
      NoDuplicatesSnoc(t.symptoms, row[0]);
      CellsSound(s, Symptom(row[0]), row, |row|, hash);
      CellsKeepColumns(s, Symptom(row[0]), row, |row|, hash);
    }
  }

  lemma {:induction false} RowsSound(rows: seq<seq<string>>, n: nat, hash: string -> string)
    requires n <= |rows| && Rows(rows, n, hash).Ok?
    ensures Sound(Rows(rows, n, hash).value) && ColumnsKnown(Rows(rows, n, hash).value)
    decreases n
  {
    if n > 0 {
      RowsSound(rows, n - 1, hash);
      RowStepSound(Rows(rows, n - 1, hash).value, n - 1, rows[n - 1], hash);
    }
  }

  /**
   * The written data has distinct condition and symptom names, each
   * condition a probability as the spreadsheet's likeliness allows and a
   * triage of SC, PC or EC, and each link a likelihood of 0.3, 0.6 or 0.9.
   */
  lemma ConvertedData(rows: seq<seq<string>>, hash: string -> string)
    requires Convert(rows, hash).Ok?
    ensures var d := Convert(rows, hash).value;
      (forall i, j :: 0 <= i < j < |d.conditions| ==> d.conditions[i].name != d.conditions[j].name) &&
      (forall i, j :: 0 <= i < j < |d.symptoms| ==> d.symptoms[i].name != d.symptoms[j].name) &&
      (forall i :: 0 <= i < |d.conditions| ==>
         d.conditions[i].expectedTriageLevel in TRIAGE_LEVELS && ProbabilityShaped(d.conditions[i].probability)) &&
      (forall l :: l in d.links ==> l.likelihood in LIKELIHOODS)
  {
    var t := Rows(rows, |rows|, hash).value;
    RowsSound(rows, |rows|, hash);
    var d := Convert(rows, hash).value;
    assert d == Output(t, hash).value;
    forall i | 0 <= i < |d.conditions|
      ensures d.conditions[i].expectedTriageLevel in TRIAGE_LEVELS && ProbabilityShaped(d.conditions[i].probability)
    {
      assert t.conditions[i] in t.conditions;
    }
  }

  // ------------------------------------------------------------ the loop as the script runs it

  lemma {:induction false} CellsFail(t: Tables, kind: RowKind, row: seq<string>, i: nat, n: nat, hash: string -> string)
    requires i <= n <= |row| && Cells(t, kind, row, i, hash).Err?
    ensures Cells(t, kind, row, n, hash) == Cells(t, kind, row, i, hash)
    decreases n
  {
    if n > i {
      CellsFail(t, kind, row, i, n - 1, hash);
    }
  }

  /** Once a row fails, the loop stops with that row's error. */
  lemma {:induction false} RowsFail(step: (Tables, nat, seq<string>) -> Result<Tables>, rows: seq<seq<string>>,
                                    i: nat, n: nat)
    requires i <= n <= |rows| && RowsWith(step, rows, i).Err?
    ensures RowsWith(step, rows, n) == RowsWith(step, rows, i)
    decreases n
  {
    if n > i {
      RowsFail(step, rows, i, n - 1);
    }
  }

  /** The module-level sets, maps and list the CSV loop fills in place. */
  class Conversion {
    var conditions: seq<string>
    var symptoms: seq<string>
    var columns: map<nat, string>
    var probabilities: map<string, ByGender>
    var triage: map<string, string>
    var links: seq<Link>

    function State(): Tables
      reads this
    {
      Tables(conditions, symptoms, columns, probabilities, triage, links)
    }

    constructor()
      ensures State() == EMPTY
    {
      conditions, symptoms, columns, probabilities, triage, links := [], [], map[], map[], map[], [];
    }

    /** One cell's assertion, lookup, mapping and update. */
    method ProcessCell(kind: RowKind, c: nat, v: string, hash: string -> string) returns (error: Option<Exception>)
      modifies this
      ensures Cell(old(State()), kind, c, v, hash) == if error.None? then Ok(State()) else Err(error.value)
    {
      error := None;
      match kind
      case Header =>
        if v in conditions {
          return Some(AssertionError);
        }
        conditions := conditions + [v];
        columns := columns[c := v];
      case Probabilities =>
        if c !in columns {
          return Some(KeyError);
        }
        var p := ConditionProbability(v);
        if p.Err? {
          return Some(p.error);
        }
        probabilities := probabilities[columns[c] := p.value];
      case Triage =>
        if c !in columns {
          return Some(KeyError);
        }
        var level := ExpectedTriageLevel(v);
        if level.Err? {
          return Some(level.error);
        }
        triage := triage[columns[c] := level.value];
      case Symptom(name) =>
        if v !in SYMPTOM_CELLS {
          return Some(AssertionError);
        }
        var l := Likelihood(v);
        if l.Ok? && l.value.Some? {
          if c !in columns {
            return Some(KeyError);
          }
          links := links + [Link(hash(columns[c]), hash(name), l.value.value)];
        }
    }

    /** `for column_id, column_value in enumerate(row): if column_id > 1: ...` */
    method ProcessCells(kind: RowKind, row: seq<string>, hash: string -> string) returns (error: Option<Exception>)
      modifies this
      ensures Cells(old(State()), kind, row, |row|, hash) == if error.None? then Ok(State()) else Err(error.value)
    {
      ghost var start := State();
      for c := 0 to |row|
        invariant Cells(start, kind, row, c, hash) == Ok(State())
      {
        if c > 1 {
          error := ProcessCell(kind, c, row[c], hash);
          if error.Some? {
            CellsFail(start, kind, row, c + 1, |row|, hash);
            return;
          }
        }
      }
      error := None;
    }

    /** One row of the CSV loop. */
    method ProcessRow(rowId: nat, row: seq<string>, hash: string -> string) returns (error: Option<Exception>)
      modifies this
      ensures RowStep(old(State()), rowId, row, hash) == if error.None? then Ok(State()) else Err(error.value)
    {
      if rowId == 0 {
        error := ProcessCells(Header, row, hash);
      } else if rowId == 1 {
        error := None;
      } else if rowId == 2 {
        error := ProcessCells(Probabilities, row, hash);
      } else if |row| == 0 {
        error := Some(IndexError);
      } else if row[0] == TRIAGE_ROW {
        error := ProcessCells(Triage, row, hash);
      } else if row[0] in symptoms {
        error := Some(AssertionError);
      } else {
        symptoms := symptoms + [row[0]];
        error := ProcessCells(Symptom(row[0]), row, hash);
      }
    }
  }

  /** The script: the CSV loop, then the data it writes. */
  method ConvertRows(rows: seq<seq<string>>, hash: string -> string) returns (r: Result<Data>)
    ensures r == Convert(rows, hash)
  {
    var conversion := new Conversion();
    for i := 0 to |rows|
      invariant Rows(rows, i, hash) == Ok(conversion.State())
    {
      var error := conversion.ProcessRow(i, rows[i], hash);
      if error.Some? {
        RowsFail(RowStepOf(hash), rows, i + 1, |rows|);
        return Err(error.value);
      }
    }
    r := Output(conversion.State(), hash);
  }
}
