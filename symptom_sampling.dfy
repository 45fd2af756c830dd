/**
 * `sample_symptoms` and `combine_symptom_and_state`, shared word for word by
 * both case generators. The random draws are a parameter: `rand(k)` is the
 * k-th value `random.random()` returns. Every draw of the function is a
 * `random.random()`: `random.choices(EVIDENCE_STATES, [p, 1 - p])` picks
 * "present" exactly when its draw is below p.
 */
module SymptomSampling {
  import opened Wrappers
  import opened Dicts
  import opened JsonValues

  const PRESENT: string := "present"
  const ABSENT: string := "absent"
  const UNKNOWN: string := "unsure"
  const OBSERVATION_PROBABILITY: real := 0.8
  const UNSURE_PROBABILITY: real := 0.1

  /** Successive results of `random.random()`. */
  type Stream = nat -> real

  /** The first pass: each symptom's latent state, drawn with its probability of being present. */
  function Latent(probabilities: Dict<string, real>, rand: Stream): (s: seq<string>)
    ensures |s| == |probabilities|
    ensures forall i :: 0 <= i < |s| ==> s[i] == if rand(i) < probabilities[i].1 then PRESENT else ABSENT
  {
    seq(|probabilities|, i requires 0 <= i < |probabilities| => if rand(i) < probabilities[i].1 then PRESENT else ABSENT)
  }

  /** The second pass, drawing from `rand(start)` on: a state goes unobserved (None) with probability 0.8. */
  function Observed(latent: seq<string>, rand: Stream, start: nat): (s: seq<Option<string>>)
    ensures |s| == |latent|
    ensures forall i :: 0 <= i < |s| ==> s[i] == if rand(start + i) < OBSERVATION_PROBABILITY then None else Some(latent[i])
  {
    seq(|latent|, i requires 0 <= i < |latent| => if rand(start + i) < OBSERVATION_PROBABILITY then None else Some(latent[i]))
  }

  /** How many states are set: the draws the third pass has taken so far. */
  function SetCount(states: seq<Option<string>>): (n: nat)
    ensures n <= |states|
  {
    if states == [] then 0 else SetCount(states[..|states| - 1]) + (if states[|states| - 1].Some? then 1 else 0)
  }

  /**
   * The third pass, drawing from `rand(start)` on, one draw per state still
   * set: that state becomes "unsure" with probability 0.1. Unset states are
   * skipped and take no draw.
   */
  function Unsure(states: seq<Option<string>>, rand: Stream, start: nat): (s: seq<Option<string>>)
    ensures |s| == |states|
    ensures forall i :: 0 <= i < |s| ==>
              s[i] == if states[i].None? then None
                      else if rand(start + SetCount(states[..i])) < UNSURE_PROBABILITY then Some(UNKNOWN)
                      else states[i]
  {
    seq(|states|, i requires 0 <= i < |states| =>
      if states[i].None? then None
      else if rand(start + SetCount(states[..i])) < UNSURE_PROBABILITY then Some(UNKNOWN)
      else states[i])
  }

  /** `max(probabilities, key=probabilities.get)`: the first symptom of highest probability. */
  function ArgMax(probabilities: Dict<string, real>): (i: nat)
    requires probabilities != []
    ensures i < |probabilities|
    ensures forall j :: 0 <= j < |probabilities| ==> probabilities[j].1 <= probabilities[i].1
    ensures forall j :: 0 <= j < i ==> probabilities[j].1 < probabilities[i].1
    decreases |probabilities|
  {
    if |probabilities| == 1 then 0
    else
      var m := ArgMax(probabilities[..|probabilities| - 1]);
      assert forall j :: 0 <= j < |probabilities| - 1 ==> probabilities[..|probabilities| - 1][j] == probabilities[j];
      if probabilities[|probabilities| - 1].1 > probabilities[m].1 then |probabilities| - 1 else m
  }

  /**
   * The fallback: without a present state, the most probable symptom is
   * forced present; `max` of no symptoms at all raises ValueError.
   */
  function Fallback(states: seq<Option<string>>, probabilities: Dict<string, real>): (r: Result<seq<Option<string>>>)
    requires |states| == |probabilities|
    ensures r.Err? <==> Some(PRESENT) !in states && probabilities == []
    ensures r.Err? ==> r.error == ValueError
    ensures Some(PRESENT) in states ==> r == Ok(states)
    ensures Some(PRESENT) !in states && probabilities != [] ==> r == Ok(states[ArgMax(probabilities) := Some(PRESENT)])
  {
    if Some(PRESENT) in states then Ok(states)
    else if probabilities == [] then Err(ValueError)
    else Ok(states[ArgMax(probabilities) := Some(PRESENT)])
  }

  /** `{symptom: state for symptom, state in symptom_states.items() if state}` */
  function Kept(probabilities: Dict<string, real>, states: seq<Option<string>>): (r: Dict<string, string>)
    requires |states| == |probabilities|
    ensures forall i :: 0 <= i < |probabilities| && states[i].Some? ==> (probabilities[i].0, states[i].value) in r
    ensures forall x :: x in r ==> exists i :: 0 <= i < |probabilities| && states[i] == Some(x.1) && probabilities[i].0 == x.0
  {
    if probabilities == [] then []
    else
      var rest := Kept(probabilities[1..], states[1..]);
      assert forall i :: 1 <= i < |probabilities| ==> probabilities[1..][i - 1] == probabilities[i] && states[1..][i - 1] == states[i];
      (if states[0].Some? then [(probabilities[0].0, states[0].value)] else []) + rest
  }

  /** The states after the three passes, before the fallback. */
  function Drawn(probabilities: Dict<string, real>, rand: Stream): (s: seq<Option<string>>)
    ensures |s| == |probabilities|
  {
    var n := |probabilities|;
    Unsure(Observed(Latent(probabilities, rand), rand, n), rand, 2 * n)
  }

  /** `sample_symptoms`. */
  function SampledSymptoms(probabilities: Dict<string, real>, rand: Stream): (r: Result<Dict<string, string>>)
  {
    var states :- Fallback(Drawn(probabilities, rand), probabilities);
    Ok(Kept(probabilities, states))
  }

  /** `sample_symptoms`: the three passes over the dictionary, the fallback and the filter. */
  method SampleSymptoms(probabilities: Dict<string, real>, rand: Stream) returns (r: Result<Dict<string, string>>)
    ensures r == SampledSymptoms(probabilities, rand)
  {
    var n := |probabilities|;
    var latent := LatentPass(probabilities, rand);
    var observed := ObservePass(latent, rand, n);
    var states := UnsurePass(observed, rand, 2 * n);
    if Some(PRESENT) !in states {
      if n == 0 {
        return Err(ValueError);
      }
      states := states[ArgMax(probabilities) := Some(PRESENT)];
    }
    r := Ok(Kept(probabilities, states));
  }

  /** The first loop of `sample_symptoms`. */
  method LatentPass(probabilities: Dict<string, real>, rand: Stream) returns (latent: seq<string>)
    ensures latent == Latent(probabilities, rand)
  {
    latent := [];
    for i := 0 to |probabilities|
      invariant latent == Latent(probabilities, rand)[..i]
    {
      latent := latent + [if rand(i) < probabilities[i].1 then PRESENT else ABSENT];
    }
  }

  /** The second loop of `sample_symptoms`. */
  method ObservePass(latent: seq<string>, rand: Stream, start: nat) returns (observed: seq<Option<string>>)
    ensures observed == Observed(latent, rand, start)
  {
    observed := [];
    for i := 0 to |latent|
      invariant observed == Observed(latent, rand, start)[..i]
    {
      observed := observed + [if rand(start + i) < OBSERVATION_PROBABILITY then None else Some(latent[i])];
    }
  }

  /** The third loop of `sample_symptoms`, with the position of the next draw. */
  method UnsurePass(observed: seq<Option<string>>, rand: Stream, start: nat) returns (states: seq<Option<string>>)
    ensures states == Unsure(observed, rand, start)
  {
    states := [];
    var cursor := start;
    for i := 0 to |observed|
      invariant states == Unsure(observed, rand, start)[..i]
      invariant cursor == start + SetCount(observed[..i])
    {
      assert observed[..i + 1][..i] == observed[..i];
      if observed[i].None? {
        states := states + [None];
      } else {
        states := states + [if rand(cursor) < UNSURE_PROBABILITY then Some(UNKNOWN) else observed[i]];
        cursor := cursor + 1;
      }
    }
  }

  /** The third pass changes only states that are still set, and never unsets one. */
  lemma UnsureOnlyTouchesSet(states: seq<Option<string>>, rand: Stream, start: nat, i: nat)
    requires i < |states|
    ensures Unsure(states, rand, start)[i].None? <==> states[i].None?
    ensures Unsure(states, rand, start)[i] != states[i] ==> Unsure(states, rand, start)[i] == Some(UNKNOWN)
  {
  }

  /** Every drawn state is one of present, absent and unsure, or unset. */
  lemma DrawnStates(probabilities: Dict<string, real>, rand: Stream, i: nat)
    requires i < |probabilities|
    ensures Drawn(probabilities, rand)[i] in {None, Some(PRESENT), Some(ABSENT), Some(UNKNOWN)}
  {
  }

  /**
   * For any non-empty dictionary of probabilities and any draws the result
   * has a present symptom, and its every entry is one of the input's symptoms
   * with state present, absent or unsure.
   */
  lemma SampleHasPresent(probabilities: Dict<string, real>, rand: Stream)
    requires probabilities != []
    ensures SampledSymptoms(probabilities, rand).Ok?
    ensures exists x :: x in SampledSymptoms(probabilities, rand).value && x.1 == PRESENT
  {
    var drawn := Drawn(probabilities, rand);
    var states := Fallback(drawn, probabilities).value;
    if Some(PRESENT) !in drawn {
      assert states[ArgMax(probabilities)] == Some(PRESENT);
    }
    assert Some(PRESENT) in states;
    var i :| 0 <= i < |states| && states[i] == Some(PRESENT);
    assert (probabilities[i].0, PRESENT) in Kept(probabilities, states);
  }

  lemma SampleEntries(probabilities: Dict<string, real>, rand: Stream)
    requires SampledSymptoms(probabilities, rand).Ok?
    ensures forall x :: x in SampledSymptoms(probabilities, rand).value ==>
              x.0 in Keys(probabilities) && x.1 in {PRESENT, ABSENT, UNKNOWN}
  {
    var drawn := Drawn(probabilities, rand);
    var states := Fallback(drawn, probabilities).value;
    forall x | x in SampledSymptoms(probabilities, rand).value
      ensures x.0 in Keys(probabilities) && x.1 in {PRESENT, ABSENT, UNKNOWN}
    {
      var i :| 0 <= i < |probabilities| && states[i] == Some(x.1) && probabilities[i].0 == x.0;
      assert Keys(probabilities)[i] == x.0;
      if states[i] != drawn[i] {
        assert x.1 == PRESENT;
      } else {
        DrawnStates(probabilities, rand, i);
      }
    }
  }

  /** Without a present state after the passes, the most probable symptom is the one made present. */
  lemma FallbackPicksMostProbable(probabilities: Dict<string, real>, rand: Stream)
    requires probabilities != [] && Some(PRESENT) !in Drawn(probabilities, rand)
    ensures var top := ArgMax(probabilities);
      && (probabilities[top].0, PRESENT) in SampledSymptoms(probabilities, rand).value
      && forall x :: x in SampledSymptoms(probabilities, rand).value && x.1 == PRESENT ==> x.0 == probabilities[top].0
  {
    var drawn := Drawn(probabilities, rand);
    var top := ArgMax(probabilities);
    var states := drawn[top := Some(PRESENT)];
    assert Fallback(drawn, probabilities) == Ok(states);
    forall x | x in Kept(probabilities, states) && x.1 == PRESENT ensures x.0 == probabilities[top].0 {
      var i :| 0 <= i < |probabilities| && states[i] == Some(x.1) && probabilities[i].0 == x.0;
      if i != top {
        assert false;
      }
    }
  }

  /** An empty dictionary of probabilities makes `max` raise ValueError. */
  lemma SampleOfNothingRaises(rand: Stream)
    ensures SampledSymptoms([], rand) == Err(ValueError)
  {
  }

  /** `{**symptom, **{"state": state}}`: the symptom's fields with "state" set or replaced. */
  function CombineSymptomAndState(symptom: Json, state: Json): (r: Result<Json>)
    ensures r.Ok? <==> symptom.JObj?
    ensures r.Err? ==> r.error == TypeError
    ensures r.Ok? ==> r.value.JObj? && Index(r.value, "state") == Ok(state)
    ensures r.Ok? ==> forall k :: k != "state" ==> Get(r.value.fields, k) == Get(symptom.fields, k)
    ensures r.Ok? && HasKey(symptom.fields, "state") ==> Keys(r.value.fields) == Keys(symptom.fields)
    ensures r.Ok? && !HasKey(symptom.fields, "state") ==> Keys(r.value.fields) == Keys(symptom.fields) + ["state"]
  {
    if !symptom.JObj? then Err(TypeError)
    else
      var fields := Put(symptom.fields, "state", state);
      PutHasKey(symptom.fields, "state", state);
      PutOthers(symptom.fields, "state", state);
      Ok(JObj(fields))
  }
}
