/**
 * The values of a metric over a benchmarking session, case id to AI id to
 * value, as `calculate` fills them in with `setdefault(...).update(...)`,
 * and the per-AI mean that `aggregate` computes from them with a
 * `defaultdict` sum.
 */
module MetricValues {
  import opened Wrappers
  import opened Dicts

  /** `metrics["values"]`: case id to AI id to value. */
  type Values = Dict<string, Dict<string, real>>

  /** `cases_metrics.setdefault(case_id, {}).update({ai_id: v})` */
  function SetPair(acc: Values, caseId: string, aiId: string, v: real): Values {
    Put(acc, caseId, Put(GetOr(acc, caseId, []), aiId, v))
  }

  // ---------------------------------------------------------------- well-formed values

  /** Every value lies in [0, 1]. */
  ghost predicate ValuesIn01(d: Dict<string, real>) {
    forall i :: 0 <= i < |d| ==> 0.0 <= d[i].1 <= 1.0
  }

  /** Each case's values name each AI once and lie in [0, 1]; each case is named once. */
  ghost predicate WellFormed(values: Values) {
    && DistinctKeys(values)
    && forall i :: 0 <= i < |values| ==> DistinctKeys(values[i].1) && ValuesIn01(values[i].1)
  }

  /** `d[k] = v` keeps every value satisfying p when v does. */
  lemma {:induction false} AssignedKeeps<V>(d: Dict<string, V>, k: string, v: V, p: V -> bool)
    requires forall i :: 0 <= i < |d| ==> p(d[i].1)
    requires p(v)
    ensures forall i :: 0 <= i < |Assigned(d, k, v)| ==> p(Assigned(d, k, v)[i].1)
  {
    if d != [] && d[0].0 != k {
      AssignedKeeps(d[1..], k, v, p);
    }
  }

  lemma InnerWellFormed(inner: Dict<string, real>, aiId: string, v: real)
    requires DistinctKeys(inner) && ValuesIn01(inner) && 0.0 <= v <= 1.0
    ensures DistinctKeys(Put(inner, aiId, v)) && ValuesIn01(Put(inner, aiId, v))
  {
    AssignedKeeps(inner, aiId, v, (x: real) => 0.0 <= x <= 1.0);
  }

  lemma SetPairWellFormed(acc: Values, caseId: string, aiId: string, v: real)
    requires WellFormed(acc) && 0.0 <= v <= 1.0
    ensures WellFormed(SetPair(acc, caseId, aiId, v))
  {
    var inner := GetOr(acc, caseId, []);
    assert DistinctKeys(inner) && ValuesIn01(inner);
    var updated := Put(inner, aiId, v);
    InnerWellFormed(inner, aiId, v);
    var p := (d: Dict<string, real>) => DistinctKeys(d) && ValuesIn01(d);
    AssignedKeeps(acc, caseId, updated, p);
  }

  /** A value once set for (case, AI) stays set; each answer of each case gets one. */
  lemma SetPairKeeps(acc: Values, caseId: string, aiId: string, v: real, c: string, a: string)
    requires HasKey(GetOr(acc, c, []), a)
    ensures HasKey(GetOr(SetPair(acc, caseId, aiId, v), c, []), a)
  {
    var inner := GetOr(acc, caseId, []);
    if c == caseId {
      PutHasKey(inner, aiId, v);
    } else {
      PutOther(acc, caseId, Put(inner, aiId, v), c);
    }
  }

  // ---------------------------------------------------------------- aggregate

  /** `sums[ai_id] += v` for every answer of one case, in order. */
  function AddItems(sums: Dict<string, real>, items: Dict<string, real>): Dict<string, real>
    decreases |items|
  {
    if items == [] then sums
    else
      Bump(AddItems(sums, items[..|items| - 1]), items[|items| - 1])
  }

  /** `sums[ai_id] += v` on the `defaultdict(int)` */
  function Bump(sums: Dict<string, real>, item: (string, real)): Dict<string, real> {
    Put(sums, item.0, Plus(GetOr(sums, item.0, 0.0), item.1))
  }

  function Plus(a: real, b: real): real {
    a + b
  }

  /** The `defaultdict` of sums per AI over every case, in the order the AIs first come. */
  function Sums(values: Values): Dict<string, real>
    decreases |values|
  {
    if values == [] then []
    else AddItems(Sums(values[..|values| - 1]), values[|values| - 1].1)
  }

  /** `{ai_id: s / n for ai_id, s in sums.items()}` */
  function DivideAll(sums: Dict<string, real>, n: real): Dict<string, real>
    requires n != 0.0
  {
    if sums == [] then [] else [(sums[0].0, sums[0].1 / n)] + DivideAll(sums[1..], n)
  }

  /** `aggregate`'s aggregatedValues: per AI, the sum of its values over the number of cases. */
  function Aggregated(values: Values): Dict<string, real> {
    if values == [] then [] else DivideAll(Sums(values), |values| as real)
  }

  lemma AddItemsStep(sums: Dict<string, real>, items: Dict<string, real>, j: nat)
    requires j < |items|
    ensures AddItems(sums, items[..j + 1]) == Bump(AddItems(sums, items[..j]), items[j])
  {
    assert items[..j + 1][..j] == items[..j];
  }

  lemma SumsStep(values: Values, i: nat)
    requires i < |values|
    ensures Sums(values[..i + 1]) == AddItems(Sums(values[..i]), values[i].1)
  {
    assert values[..i + 1][..i] == values[..i];
  }

  /** The inner loop of `aggregate`: one case's values added to the sums. */
  method AddCaseSums(sums: Dict<string, real>, items: Dict<string, real>) returns (r: Dict<string, real>)
    ensures r == AddItems(sums, items)
  {
    r := sums;
    for j := 0 to |items|
      invariant r == AddItems(sums, items[..j])
    {
      AddItemsStep(sums, items, j);
      r := Bump(r, items[j]);
    }
    assert items[..|items|] == items;
  }

  /** `aggregate`: the defaultdict sum, then the mean per AI. */
  method Aggregate(values: Values) returns (aggregatedValues: Dict<string, real>)
    ensures aggregatedValues == Aggregated(values)
  {
    var sums: Dict<string, real> := [];
    for i := 0 to |values|
      invariant sums == Sums(values[..i])
    {
      SumsStep(values, i);
      sums := AddCaseSums(sums, values[i].1);
    }
    assert values[..|values|] == values;
    var caseCount := |values|;
    aggregatedValues := if caseCount == 0 then [] else DivideAll(sums, caseCount as real);
  }

  /** The sum of one AI's values among a case's answers. */
  function ItemsTotal(items: Dict<string, real>, aiId: string): real
    decreases |items|
  {
    if items == [] then 0.0
    else ItemsTotal(items[..|items| - 1], aiId) + (if items[|items| - 1].0 == aiId then items[|items| - 1].1 else 0.0)
  }

  /** The sum of one AI's values over every case. */
  function Total(values: Values, aiId: string): real
    decreases |values|
  {
    if values == [] then 0.0
    else Total(values[..|values| - 1], aiId) + ItemsTotal(values[|values| - 1].1, aiId)
  }

  /** The AI has a value for some case. */
  ghost predicate Appears(values: Values, aiId: string) {
    exists i :: 0 <= i < |values| && HasKey(values[i].1, aiId)
  }

  lemma {:induction false} ItemsTotalAbsent(items: Dict<string, real>, aiId: string)
    requires !HasKey(items, aiId)
    ensures ItemsTotal(items, aiId) == 0.0
    decreases |items|
  {
    if items != [] {
      assert Keys(items) == Keys(items[..|items| - 1]) + [items[|items| - 1].0];
      ItemsTotalAbsent(items[..|items| - 1], aiId);
    }
  }

  /** One `+=` gives the AI a sum and adds to it, and leaves the other AIs' sums alone. */
  lemma BumpGet(sums: Dict<string, real>, item: (string, real), aiId: string)
    ensures HasKey(Bump(sums, item), aiId) <==> HasKey(sums, aiId) || item.0 == aiId
    ensures GetOr(Bump(sums, item), aiId, 0.0) == GetOr(sums, aiId, 0.0) + (if item.0 == aiId then item.1 else 0.0)
  {
    var v := Plus(GetOr(sums, item.0, 0.0), item.1);
    PutHasKey(sums, item.0, v);
    if item.0 != aiId {
      PutOther(sums, item.0, v, aiId);
    }
  }

  /** After the sums of a case, an AI has a sum iff it had one or answered in the case. */
  lemma {:induction false} AddItemsHas(sums: Dict<string, real>, items: Dict<string, real>, aiId: string)
    ensures HasKey(AddItems(sums, items), aiId) <==> HasKey(sums, aiId) || HasKey(items, aiId)
    decreases |items|
  {
    if items != [] {
      var prefix := items[..|items| - 1];
      HasKeySnoc(items, aiId);
      AddItemsHas(sums, prefix, aiId);
      BumpGet(AddItems(sums, prefix), items[|items| - 1], aiId);
    }
  }

  /** The sums of a case add each AI's values in the case to its sum so far. */
  lemma {:induction false} AddItemsValue(sums: Dict<string, real>, items: Dict<string, real>, aiId: string)
    ensures GetOr(AddItems(sums, items), aiId, 0.0) == GetOr(sums, aiId, 0.0) + ItemsTotal(items, aiId)
    decreases |items|
  {
    if items != [] {
      var prefix := items[..|items| - 1];
      AddItemsValue(sums, prefix, aiId);
      BumpGet(AddItems(sums, prefix), items[|items| - 1], aiId);
    }
  }

  lemma {:induction false} SumsHas(values: Values, aiId: string)
    ensures HasKey(Sums(values), aiId) <==> Appears(values, aiId)
    decreases |values|
  {
    if values != [] {
      var prefix := values[..|values| - 1];
      var last := values[|values| - 1];
      SumsHas(prefix, aiId);
      AddItemsHas(Sums(prefix), last.1, aiId);
      if Appears(prefix, aiId) {
        var i :| 0 <= i < |prefix| && HasKey(prefix[i].1, aiId);
        assert values[i] == prefix[i];
      }
      if HasKey(last.1, aiId) {
        assert HasKey(values[|values| - 1].1, aiId);
      }
      if Appears(values, aiId) {
        var i :| 0 <= i < |values| && HasKey(values[i].1, aiId);
        if i < |values| - 1 {
          assert prefix[i] == values[i];
        }
      }
    }
  }

  lemma {:induction false} SumsValue(values: Values, aiId: string)
    ensures GetOr(Sums(values), aiId, 0.0) == Total(values, aiId)
    decreases |values|
  {
    if values != [] {
      var prefix := values[..|values| - 1];
      SumsValue(prefix, aiId);
      AddItemsValue(Sums(prefix), values[|values| - 1].1, aiId);
    }
  }

  /** Each AI's sum is its total over every case; an AI with no value has no sum. */
  lemma SumsGet(values: Values, aiId: string)
    ensures Get(Sums(values), aiId) == if Appears(values, aiId) then Some(Total(values, aiId)) else None
  {
    SumsHas(values, aiId);
    SumsValue(values, aiId);
  }

  lemma {:induction false} DivideAllGet(sums: Dict<string, real>, n: real, aiId: string)
    requires n != 0.0
    ensures Get(DivideAll(sums, n), aiId) == if HasKey(sums, aiId) then Some(Get(sums, aiId).value / n) else None
  {
    if sums != [] {
      assert Keys(sums) == [sums[0].0] + Keys(sums[1..]);
      var rest := DivideAll(sums[1..], n);
      assert ([(sums[0].0, sums[0].1 / n)] + rest)[1..] == rest;
      DivideAllGet(sums[1..], n, aiId);
    }
  }

  /**
   * The aggregated value of an AI is the mean of its values over the cases
   * (an AI with no value in any case is absent); no values, no aggregate.
   */
  lemma AggregatedIsMean(values: Values, aiId: string)
    ensures values == [] ==> Aggregated(values) == []
    ensures Get(Aggregated(values), aiId)
            == if Appears(values, aiId) then Some(Total(values, aiId) / (|values| as real)) else None
  {
    SumsGet(values, aiId);
    if values != [] {
      DivideAllGet(Sums(values), |values| as real, aiId);
    }
  }

  lemma Proportion(t: real, n: real)
    requires 0.0 <= t <= n && n > 0.0
    ensures 0.0 <= t / n <= 1.0
  {
    assert t / n * n == t;
  }

  lemma {:induction false} ItemsTotalBounded(items: Dict<string, real>, aiId: string)
    requires DistinctKeys(items) && ValuesIn01(items)
    ensures 0.0 <= ItemsTotal(items, aiId) <= 1.0
    decreases |items|
  {
    if items != [] {
      var prefix := items[..|items| - 1];
      assert DistinctKeys(prefix) && ValuesIn01(prefix) by {
        forall i | 0 <= i < |prefix| ensures prefix[i] == items[i] { }
      }
      ItemsTotalBounded(prefix, aiId);
      if items[|items| - 1].0 == aiId {
        assert !HasKey(prefix, aiId) by {
          forall i | 0 <= i < |prefix| ensures prefix[i].0 != aiId {
            assert items[i].0 != items[|items| - 1].0;
          }
        }
        ItemsTotalAbsent(prefix, aiId);
      }
    }
  }

  lemma {:induction false} TotalBounded(values: Values, aiId: string)
    requires forall i :: 0 <= i < |values| ==> DistinctKeys(values[i].1) && ValuesIn01(values[i].1)
    ensures 0.0 <= Total(values, aiId) <= |values| as real
    decreases |values|
  {
    if values != [] {
      var prefix := values[..|values| - 1];
      assert forall i :: 0 <= i < |prefix| ==> prefix[i] == values[i];
      TotalBounded(prefix, aiId);
      ItemsTotalBounded(values[|values| - 1].1, aiId);
    }
  }

  /** Over well-formed values every aggregated value is a proportion, in [0, 1]. */
  lemma AggregatedIsProportion(values: Values, aiId: string)
    requires WellFormed(values)
    ensures Get(Aggregated(values), aiId).Some? ==> 0.0 <= Get(Aggregated(values), aiId).value <= 1.0
  {
    AggregatedIsMean(values, aiId);
    if values != [] {
      TotalBounded(values, aiId);
      Proportion(Total(values, aiId), |values| as real);
    }
  }

}
