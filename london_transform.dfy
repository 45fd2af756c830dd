/**
 * The script that turns the London 2019 spreadsheet of doctor-written cases
 * into case JSON. A row whose first cell is non-empty starts a case (age,
 * sex, presenting complaint, creator, spreadsheet id, expected triage and
 * condition); it and the rows after it may each add one other feature from
 * columns 6 and 7. Cases whose spreadsheet id starts with "CC_" are dropped
 * at the end. Concept names are looked up in `ids`, the name-to-id table
 * the script builds from the fixture data.
 */
module LondonTransform {
  import opened Wrappers
  import opened Text

  const STATE_MAPPING: map<string, string> := map["present" := "true", "absent" := "false", "unknown" := "unsure"]
  const TRIAGE_MAPPING: map<string, string> := map["self_care" := "SC", "primary_care" := "PC", "emergency" := "EC"]
  /** The states `create_concept_and_state` accepts. */
  const STATES: seq<string> := ["true", "false", "unsure"]
  const SEXES: seq<string> := ["male", "female"]
  const CASE_ID_PREFIX: string := "human_doctor_case_london_model_spreadsheet111D40_case_"
  /** The metaData description every case carries. */
  const DESCRIPTION: string := "A case created by a human doctor (the London 2019 model cases)"
  const DROPPED_PREFIX: string := "CC_"

  datatype Concept = Concept(name: string, id: string)
  datatype ConceptState = ConceptState(state: string, concept: Concept)

  /** A recorded case: its caseData (profile, complaints, metaData, other features) and its valuesToPredict. */
  datatype Case = Case(
    caseId: string,
    age: int,
    biologicalSex: string,
    presentingComplaints: seq<ConceptState>,
    caseCreator: string,
    spreadsheetCaseId: string,
    otherFeatures: seq<ConceptState>,
    expectedTriageLevel: string,
    condition: Concept)

  /** The script's variables between rows: `CASES`, `current_case` and `other_features`. */
  datatype Vars = Vars(cases: seq<Case>, current: Option<Case>, otherFeatures: seq<ConceptState>)

  const START: Vars := Vars([], None, [])

  function CaseId(index: nat): string {
    CASE_ID_PREFIX + NatToString(index)
  }

  /** `create_concept`: a name unknown to the table is a KeyError. */
  function CreateConcept(ids: map<string, string>, name: string): (r: Result<Concept>)
    ensures r.Ok? <==> name in ids
    ensures r.Ok? ==> r.value == Concept(name, ids[name])
    ensures r.Err? ==> r.error == KeyError
  {
    if name in ids then Ok(Concept(name, ids[name])) else Err(KeyError)
  }

  /** `create_concept_and_state`: the state must be true, false or unsure, then the name is looked up. */
  function CreateConceptAndState(ids: map<string, string>, name: string, state: string): (r: Result<ConceptState>)
    ensures r.Ok? <==> state in STATES && name in ids
    ensures r.Ok? ==> r.value == ConceptState(state, Concept(name, ids[name]))
    ensures state !in STATES ==> r == Err(AssertionError)
    ensures state in STATES && name !in ids ==> r == Err(KeyError)
  {
    if state !in STATES then Err(AssertionError)
    else
      var concept :- CreateConcept(ids, name);
      Ok(ConceptState(state, concept))
  }

  /** `record_last_case`: the current case, with its other features, is appended when there is one. */
  function Recorded(s: Vars): (r: Vars)
    ensures s.current.None? ==> r == s
    ensures s.current.Some? ==>
      r == s.(cases := s.cases + [s.current.value.(otherFeatures := s.otherFeatures)])
  {
    match s.current
    case None => s
    case Some(c) => s.(cases := s.cases + [c.(otherFeatures := s.otherFeatures)])
  }

  /** `[cell.strip() for cell in row]`. */
  function StrippedRow(row: seq<string>): (r: seq<string>)
    ensures |r| == |row| && forall i :: 0 <= i < |row| ==> r[i] == Strip(row[i])
  {
    seq(|row|, i requires 0 <= i < |row| => Strip(row[i]))
  }

  /**
   * The case a starting row describes, numbered `index`: cells are read in
   * the script's order, and a missing cell is an IndexError.
   */
  function NewCase(ids: map<string, string>, row: seq<string>, index: nat): (r: Result<Case>)
    ensures r.Ok? ==> Valid(r.value) && r.value.caseId == CaseId(index) && r.value.otherFeatures == []
    ensures r.Ok? ==>
      |row| > 9 && row[5] in ids && row[8] in TRIAGE_MAPPING && row[9] in ids &&
      ParseInt(row[3]) == Ok(r.value.age) && r.value.biologicalSex == row[4] &&
      r.value.caseCreator == row[1] && r.value.spreadsheetCaseId == row[2] &&
      r.value.presentingComplaints == [ConceptState("true", Concept(row[5], ids[row[5]]))] &&
      r.value.expectedTriageLevel == TRIAGE_MAPPING[row[8]] && r.value.condition == Concept(row[9], ids[row[9]])
    ensures |row| > 4 && ParseInt(row[3]).Ok? && 18 <= ParseInt(row[3]).value <= 99 && row[4] !in SEXES ==>
      r == Err(AssertionError)
    ensures |row| > 3 && ParseInt(row[3]).Ok? && !(18 <= ParseInt(row[3]).value <= 99) ==> r == Err(AssertionError)
    ensures |row| > 3 && ParseInt(row[3]).Err? ==> r == Err(ValueError)
    ensures |row| <= 3 ==> r == Err(IndexError)
  {
    if |row| <= 3 then Err(IndexError)
    else
      var age :- ParseInt(row[3]);
      if !(18 <= age <= 99) then Err(AssertionError)
      else if |row| <= 4 then Err(IndexError)
      else if row[4] !in SEXES then Err(AssertionError)
      else if |row| <= 5 then Err(IndexError)
      else
        var complaint :- CreateConceptAndState(ids, row[5], "true");
        if |row| <= 8 then Err(IndexError)
        else if row[8] !in TRIAGE_MAPPING then Err(KeyError)
        else if |row| <= 9 then Err(IndexError)
        else
          var condition :- CreateConcept(ids, row[9]);
          Ok(Case(CaseId(index), age, row[4], [complaint], row[1], row[2], [], TRIAGE_MAPPING[row[8]], condition))
  }

  /** What every recorded case satisfies: the script's assertions and the two mappings. */
  predicate Valid(c: Case) {
    18 <= c.age <= 99 && c.biologicalSex in SEXES &&
    |c.presentingComplaints| == 1 && c.presentingComplaints[0].state == "true" &&
    c.expectedTriageLevel in TRIAGE_MAPPING.Values &&
    forall f :: f in c.otherFeatures ==> f.state in STATES
  }

  lemma TriageLevels()
    ensures TRIAGE_MAPPING.Values == {"SC", "PC", "EC"}
    ensures STATE_MAPPING.Values == {"true", "false", "unsure"}
  {
    assert TRIAGE_MAPPING["self_care"] == "SC" && TRIAGE_MAPPING["primary_care"] == "PC" && TRIAGE_MAPPING["emergency"] == "EC";
    assert STATE_MAPPING["present"] == "true" && STATE_MAPPING["absent"] == "false" && STATE_MAPPING["unknown"] == "unsure";
  }

  /** Whether a (stripped) row starts a new case. */
  predicate StartsCase(rowIndex: nat, row: seq<string>) {
    rowIndex > 0 && |row| > 0 && row[0] != ""
  }

  /** The first half of a row: recording the previous case and starting a new one. */
  function Begin(ids: map<string, string>, s: Vars, rowIndex: nat, row: seq<string>): (r: Result<Vars>)
    ensures rowIndex > 0 && |row| == 0 ==> r == Err(IndexError)
    ensures r.Ok? && !StartsCase(rowIndex, row) ==> r.value == s
    ensures r.Ok? && StartsCase(rowIndex, row) ==>
      r.value.cases == Recorded(s).cases && r.value.otherFeatures == [] &&
      r.value.current.Some? && r.value.current.value.caseId == CaseId(|Recorded(s).cases|) && Valid(r.value.current.value)
  {
    if rowIndex == 0 then Ok(s)
    else if |row| == 0 then Err(IndexError)
    else if row[0] == "" then Ok(s)
    else
      var cases := Recorded(s).cases;
      var c :- NewCase(ids, row, |cases|);
      Ok(Vars(cases, Some(c), []))
  }

  /** The second half: column 6, when non-empty and a case is open, adds an other feature. */
  function AddFeature(ids: map<string, string>, s: Vars, row: seq<string>): (r: Result<Vars>)
    ensures |row| <= 6 ==> r == Err(IndexError)
    ensures r.Ok? ==> |row| > 6
    ensures r.Ok? && (row[6] == "" || s.current.None?) ==> r.value == s
    ensures r.Ok? && row[6] != "" && s.current.Some? ==>
      |row| > 7 && row[7] in STATE_MAPPING && row[6] in ids &&
      r.value == s.(otherFeatures := s.otherFeatures + [ConceptState(STATE_MAPPING[row[7]], Concept(row[6], ids[row[6]]))])
    ensures |row| > 7 && row[6] != "" && s.current.Some? && row[7] !in STATE_MAPPING ==> r == Err(KeyError)
  {
    if |row| <= 6 then Err(IndexError)
    else if row[6] == "" || s.current.None? then Ok(s)
    else if |row| <= 7 then Err(IndexError)
    else if row[7] !in STATE_MAPPING then Err(KeyError)
    else
      TriageLevels();
      var feature :- CreateConceptAndState(ids, row[6], STATE_MAPPING[row[7]]);
      Ok(s.(otherFeatures := s.otherFeatures + [feature]))
  }

  /** One iteration of the row loop, on the raw row. */
  function Step(ids: map<string, string>, s: Vars, rowIndex: nat, raw: seq<string>): Result<Vars> {
    var row := StrippedRow(raw);
    var begun :- Begin(ids, s, rowIndex, row);
    AddFeature(ids, begun, row)
  }

  /** The row loop over the first n rows. */
  function Steps(ids: map<string, string>, rows: seq<seq<string>>, n: nat): Result<Vars>
    requires n <= |rows|
    decreases n
  {
    if n == 0 then Ok(START)
    else
      var s :- Steps(ids, rows, n - 1);
      Step(ids, s, n - 1, rows[n - 1])
  }

  /** `CASES` once the last case is recorded, before the filter. */
  function Collected(ids: map<string, string>, rows: seq<seq<string>>): Result<seq<Case>> {
    var s :- Steps(ids, rows, |rows|);
    Ok(Recorded(s).cases)
  }

  predicate Dropped(c: Case) {
    StartsWith(c.spreadsheetCaseId, DROPPED_PREFIX)
  }

  /** The final comprehension: cases whose spreadsheet id starts with "CC_" are left out, the rest kept in order. */
  function Kept(cases: seq<Case>): (r: seq<Case>)
    ensures |r| <= |cases|
    ensures forall c :: c in r <==> c in cases && !Dropped(c)
  {
    if cases == [] then []
    else
      var rest := Kept(cases[1..]);
      assert forall c :: c in cases <==> c == cases[0] || c in cases[1..];
      if Dropped(cases[0]) then rest else [cases[0]] + rest
  }

  /**
   * The filter keeps order: filtering two runs of cases one after the other
   * gives the two filtered runs one after the other; with KeptOne, this
   * makes `Kept` the order-preserving filter.
   */
  lemma {:induction false} KeptInOrder(a: seq<Case>, b: seq<Case>)
    ensures Kept(a + b) == Kept(a) + Kept(b)
  {
    if a == [] {
      assert a + b == b;
    } else {
      var ab := a + b;
      assert ab[0] == a[0] && ab[1..] == a[1..] + b;
      assert Kept(ab) == if Dropped(a[0]) then Kept(a[1..] + b) else [a[0]] + Kept(a[1..] + b);
      KeptInOrder(a[1..], b);
    }
  }

  /** A single case is kept exactly when it is not dropped. */
  lemma KeptOne(c: Case)
    ensures Kept([c]) == if Dropped(c) then [] else [c]
  {
    assert [c][1..] == [];
  }

  /** The whole script: every row, the last case, then the filter. */
  function Transform(ids: map<string, string>, rows: seq<seq<string>>): Result<seq<Case>> {
    var cases :- Collected(ids, rows);
    Ok(Kept(cases))
  }

  // ------------------------------------------------------------ what the loop keeps

  /** How many of the first n rows start a case. */
  function Starts(rows: seq<seq<string>>, n: nat): nat
    requires n <= |rows|
  {
    if n == 0 then 0
    else Starts(rows, n - 1) + (if StartsCase(n - 1, StrippedRow(rows[n - 1])) then 1 else 0)
  }

  /**
   * Recorded cases are numbered 0, 1, ... in order and the open case takes
   * the next number; every case is valid, and so is every pending feature.
   */
  ghost predicate Numbered(s: Vars) {
    (forall i :: 0 <= i < |s.cases| ==> s.cases[i].caseId == CaseId(i) && Valid(s.cases[i])) &&
    (s.current.Some? ==> s.current.value.caseId == CaseId(|s.cases|) && Valid(s.current.value)) &&
    (forall f :: f in s.otherFeatures ==> f.state in STATES)
  }

  /** One case per starting row seen so far, open or recorded. */
  function Opened(s: Vars): nat {
    |s.cases| + (if s.current.Some? then 1 else 0)
  }

  lemma RecordedNumbered(s: Vars)
    requires Numbered(s)
    ensures Recorded(s).current == s.current && Recorded(s).otherFeatures == s.otherFeatures
    ensures Numbered(Recorded(s).(current := None))
  {
  }

  /** A step keeps every case numbered and valid. */
  lemma StepNumbered(ids: map<string, string>, s: Vars, rowIndex: nat, raw: seq<string>)
    requires Numbered(s) && Step(ids, s, rowIndex, raw).Ok?
    ensures Numbered(Step(ids, s, rowIndex, raw).value)
  {
    var row := StrippedRow(raw);
    var begun := Begin(ids, s, rowIndex, row).value;
    RecordedNumbered(s);
    assert Numbered(begun);
    TriageLevels();
    var r := AddFeature(ids, begun, row).value;
    assert r.cases == begun.cases && r.current == begun.current;
  }

  /** A step opens one case exactly when its row starts one. */
  lemma StepOpened(ids: map<string, string>, s: Vars, rowIndex: nat, raw: seq<string>)
    requires Step(ids, s, rowIndex, raw).Ok?
    ensures Opened(Step(ids, s, rowIndex, raw).value) ==
      Opened(s) + (if StartsCase(rowIndex, StrippedRow(raw)) then 1 else 0)
  {
    var row := StrippedRow(raw);
    var begun := Begin(ids, s, rowIndex, row).value;
    var r := AddFeature(ids, begun, row).value;
    assert r.cases == begun.cases && r.current == begun.current;
  }

  lemma {:induction false} StepsNumbered(ids: map<string, string>, rows: seq<seq<string>>, n: nat)
    requires n <= |rows| && Steps(ids, rows, n).Ok?
    ensures Numbered(Steps(ids, rows, n).value)
    decreases n
  {
    if n > 0 {
      var prev := Steps(ids, rows, n - 1).value;
      assert Steps(ids, rows, n) == Step(ids, prev, n - 1, rows[n - 1]);
      StepsNumbered(ids, rows, n - 1);
      StepNumbered(ids, prev, n - 1, rows[n - 1]);
    }
  }

  lemma {:induction false} StepsOpened(ids: map<string, string>, rows: seq<seq<string>>, n: nat)
    requires n <= |rows| && Steps(ids, rows, n).Ok?
    ensures Opened(Steps(ids, rows, n).value) == Starts(rows, n)
    decreases n
  {
    if n > 0 {
      var prev := Steps(ids, rows, n - 1).value;
      assert Steps(ids, rows, n) == Step(ids, prev, n - 1, rows[n - 1]);
      StepsOpened(ids, rows, n - 1);
      StepOpened(ids, prev, n - 1, rows[n - 1]);
    }
  }

  /**
   * Before the filter there is one case per starting row, the i-th carries
   * the id suffix i (the number of cases recorded before it), and every case
   * is valid.
   */
  lemma CollectedCases(ids: map<string, string>, rows: seq<seq<string>>)
    requires Collected(ids, rows).Ok?
    ensures var cases := Collected(ids, rows).value;
      |cases| == Starts(rows, |rows|) &&
      forall i :: 0 <= i < |cases| ==> cases[i].caseId == CaseId(i) && Valid(cases[i])
  {
    StepsNumbered(ids, rows, |rows|);
    StepsOpened(ids, rows, |rows|);
    RecordedNumbered(Steps(ids, rows, |rows|).value);
  }

  /** Every case written out is valid, comes from the collected cases, and has no "CC_" spreadsheet id. */
  lemma TransformedCases(ids: map<string, string>, rows: seq<seq<string>>)
    requires Transform(ids, rows).Ok?
    ensures forall c :: c in Transform(ids, rows).value <==> c in Collected(ids, rows).value && !Dropped(c)
    ensures forall c :: c in Transform(ids, rows).value ==> Valid(c) && !Dropped(c)
  {
    var cases := Collected(ids, rows).value;
    CollectedCases(ids, rows);
    forall c | c in cases ensures Valid(c) {
      var i :| 0 <= i < |cases| && cases[i] == c;
    }
  }

  // ------------------------------------------------------------ the script as it runs

  /** The module-level variables the row loop updates. */
  class Transformer {
    var cases: seq<Case>
    var current: Option<Case>
    var otherFeatures: seq<ConceptState>

    function State(): Vars
      reads this
    {
      Vars(cases, current, otherFeatures)
    }

    constructor()
      ensures State() == START
    {
      cases, current, otherFeatures := [], None, [];
    }

    /** `record_last_case(current_case, CASES, other_features)`. */
    method RecordLastCase()
      modifies this
      ensures State() == Recorded(old(State()))
    {
      if current.Some? {
        cases := cases + [current.value.(otherFeatures := otherFeatures)];
      }
    }

    /** The first half of a row: record the open case and start a new one when column 0 is set. */
    method BeginRow(ids: map<string, string>, rowIndex: nat, row: seq<string>) returns (error: Option<Exception>)
      modifies this
      ensures Begin(ids, old(State()), rowIndex, row) == if error.None? then Ok(State()) else Err(error.value)
    {
      error := None;
      if rowIndex > 0 {
        if |row| == 0 {
          return Some(IndexError);
        }
        if row[0] != "" {
          RecordLastCase();
          var started := NewCase(ids, row, |cases|);
          if started.Err? {
            return Some(started.error);
          }
          current, otherFeatures := Some(started.value), [];
        }
      }
    }

    /** The second half: `other_features += [...]` when column 6 is set and a case is open. */
    method AddRowFeature(ids: map<string, string>, row: seq<string>) returns (error: Option<Exception>)
      modifies this
      ensures AddFeature(ids, old(State()), row) == if error.None? then Ok(State()) else Err(error.value)
    {
      error := None;
      if |row| <= 6 {
        return Some(IndexError);
      }
      if row[6] != "" && current.Some? {
        if |row| <= 7 {
          return Some(IndexError);
        }
        if row[7] !in STATE_MAPPING {
          return Some(KeyError);
        }
        var feature := CreateConceptAndState(ids, row[6], STATE_MAPPING[row[7]]);
        if feature.Err? {
          return Some(feature.error);
        }
        otherFeatures := otherFeatures + [feature.value];
      }
    }

    /** One row: strip the cells, maybe start a case, maybe add a feature. */
    method ProcessRow(ids: map<string, string>, rowIndex: nat, raw: seq<string>) returns (error: Option<Exception>)
      modifies this
      ensures Step(ids, old(State()), rowIndex, raw) == if error.None? then Ok(State()) else Err(error.value)
    {
      var row := StrippedRow(raw);
      error := BeginRow(ids, rowIndex, row);
      if error.None? {
        error := AddRowFeature(ids, row);
      }
    }
  }

  /** The row loop: every row in turn, until one raises. */
  method RunRows(ids: map<string, string>, rows: seq<seq<string>>) returns (t: Transformer, error: Option<Exception>)
    ensures fresh(t)
    ensures Steps(ids, rows, |rows|) == if error.None? then Ok(t.State()) else Err(error.value)
  {
    t := new Transformer();
    error := None;
    for i := 0 to |rows|
      invariant fresh(t) && error.None?
      invariant Steps(ids, rows, i) == Ok(t.State())
    {
      ghost var before := t.State();
      error := t.ProcessRow(ids, i, rows[i]);
      StepsNext(ids, rows, i, before);
      if error.Some? {
        RowsFail(ids, rows, i + 1, |rows|);
        return;
      }
    }
  }

  lemma StepsNext(ids: map<string, string>, rows: seq<seq<string>>, i: nat, s: Vars)
    requires i < |rows| && Steps(ids, rows, i) == Ok(s)
    ensures Steps(ids, rows, i + 1) == Step(ids, s, i, rows[i])
  {
  }

  /** The script: the row loop, the last case, and the "CC_" filter. */
  method RunTransform(ids: map<string, string>, rows: seq<seq<string>>) returns (r: Result<seq<Case>>)
    ensures r == Transform(ids, rows)
  {
    var t, error := RunRows(ids, rows);
    if error.Some? {
      return Err(error.value);
    }
    t.RecordLastCase();
    return Ok(Kept(t.cases));
  }

  lemma {:induction false} RowsFail(ids: map<string, string>, rows: seq<seq<string>>, i: nat, n: nat)
    requires i <= n <= |rows| && Steps(ids, rows, i).Err?
    ensures Steps(ids, rows, n) == Steps(ids, rows, i)
    decreases n
  {
    if n > i {
      RowsFail(ids, rows, i, n - 1);
    }
  }
}
