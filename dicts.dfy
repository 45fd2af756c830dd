/**
 * Python dictionaries as insertion-ordered association lists. Python keeps the
 * insertion order of a dict, and several modelled loops depend on it, so a dict
 * is a sequence of (key, value) pairs: assigning to an existing key keeps its
 * position, assigning to a new key appends it.
 */
module Dicts {
  import opened Wrappers

  type Dict<K, V> = seq<(K, V)>

  /** The keys in iteration order, `list(d)`. */
  function Keys<K, V>(d: Dict<K, V>): (ks: seq<K>)
    ensures |ks| == |d|
    ensures forall i :: 0 <= i < |d| ==> ks[i] == d[i].0
  {
    seq(|d|, i requires 0 <= i < |d| => d[i].0)
  }

  /** `k in d` */
  predicate HasKey<K(==), V>(d: Dict<K, V>, k: K) {
    k in Keys(d)
  }

  /** Every key occurs once, as in a real Python dict. */
  predicate DistinctKeys<K(==), V>(d: Dict<K, V>) {
    forall i, j :: 0 <= i < j < |d| ==> d[i].0 != d[j].0
  }

  lemma DistinctTail<K, V>(d: Dict<K, V>)
    requires d != [] && DistinctKeys(d)
    ensures DistinctKeys(d[1..]) && d[0].0 !in Keys(d[1..])
  {
    assert forall i, j :: 0 <= i < j < |d| - 1 ==> d[1..][i] == d[i + 1] && d[1..][j] == d[j + 1];
  }

  lemma DistinctCons<K, V>(x: (K, V), d: Dict<K, V>)
    requires DistinctKeys(d) && x.0 !in Keys(d)
    ensures DistinctKeys([x] + d)
  {
    var e := [x] + d;
    forall i, j | 0 <= i < j < |e| ensures e[i].0 != e[j].0 {
      if i == 0 {
        assert e[j].0 == Keys(d)[j - 1];
      } else {
        assert e[i] == d[i - 1] && e[j] == d[j - 1];
      }
    }
  }

  /** `d.get(k)`: the value of the first pair with key k. */
  function Get<K(==), V>(d: Dict<K, V>, k: K): (r: Option<V>)
    ensures r.None? <==> !HasKey(d, k)
    ensures r.Some? ==> exists i :: 0 <= i < |d| && d[i] == (k, r.value)
  {
    if d == [] then None
    else if d[0].0 == k then Some(d[0].1)
    else
      assert Keys(d) == [d[0].0] + Keys(d[1..]);
      Get(d[1..], k)
  }

  /** `d.get(k, default)` */
  function GetOr<K(==), V>(d: Dict<K, V>, k: K, default: V): V {
    match Get(d, k)
    case Some(v) => v
    case None => default
  }

  lemma ConcatAssoc<T>(a: seq<T>, b: seq<T>, c: seq<T>)
    ensures a + (b + c) == (a + b) + c
  {
  }

  lemma KeysCons<K, V>(x: (K, V), d: Dict<K, V>)
    ensures Keys([x] + d) == [x.0] + Keys(d)
  {
  }

  lemma KeysTail<K, V>(d: Dict<K, V>)
    requires d != []
    ensures Keys(d) == [d[0].0] + Keys(d[1..])
  {
    assert d == [d[0]] + d[1..];
    KeysCons(d[0], d[1..]);
  }

  /** A key of d is a key of all but its last pair, or the last key. */
  lemma HasKeySnoc<K, V>(d: Dict<K, V>, k: K)
    requires d != []
    ensures HasKey(d, k) <==> HasKey(d[..|d| - 1], k) || d[|d| - 1].0 == k
  {
    assert Keys(d) == Keys(d[..|d| - 1]) + [d[|d| - 1].0];
  }

  /** `d[k] = v`: replaces the value in place, or appends a new pair. */
  function Put<K(==), V>(d: Dict<K, V>, k: K, v: V): (r: Dict<K, V>)
    ensures Get(r, k) == Some(v)
    ensures Keys(r) == if HasKey(d, k) then Keys(d) else Keys(d) + [k]
    ensures DistinctKeys(d) ==> DistinctKeys(r)
  {
    AssignedGet(d, k, v);
    AssignedKeys(d, k, v);
    if DistinctKeys(d) then
      AssignedDistinct(d, k, v);
      Assigned(d, k, v)
    else
      Assigned(d, k, v)
  }

  /** The pairs of `d[k] = v`, before anything is said about them. */
  function Assigned<K(==), V>(d: Dict<K, V>, k: K, v: V): Dict<K, V> {
    if d == [] then [(k, v)]
    else if d[0].0 == k then [(k, v)] + d[1..]
    else [d[0]] + Assigned(d[1..], k, v)
  }

  lemma {:induction false} AssignedGet<K, V>(d: Dict<K, V>, k: K, v: V)
    ensures Get(Assigned(d, k, v), k) == Some(v)
  {
    if d != [] && d[0].0 != k {
      AssignedGet(d[1..], k, v);
      assert ([d[0]] + Assigned(d[1..], k, v))[1..] == Assigned(d[1..], k, v);
    }
  }

  lemma {:induction false} AssignedKeys<K, V>(d: Dict<K, V>, k: K, v: V)
    ensures Keys(Assigned(d, k, v)) == if HasKey(d, k) then Keys(d) else Keys(d) + [k]
  {
    if d != [] {
      KeysTail(d);
      if d[0].0 == k {
        KeysCons((k, v), d[1..]);
      } else {
        var rest := Assigned(d[1..], k, v);
        AssignedKeys(d[1..], k, v);
        KeysCons(d[0], rest);
        assert HasKey(d, k) <==> HasKey(d[1..], k);
        if !HasKey(d[1..], k) {
          ConcatAssoc([d[0].0], Keys(d[1..]), [k]);
        }
      }
    }
  }

  lemma {:induction false} AssignedDistinct<K, V>(d: Dict<K, V>, k: K, v: V)
    requires DistinctKeys(d)
    ensures DistinctKeys(Assigned(d, k, v))
  {
    if d != [] {
      DistinctTail(d);
      if d[0].0 == k {
        DistinctCons((k, v), d[1..]);
      } else {
        AssignedDistinct(d[1..], k, v);
        AssignedKeys(d[1..], k, v);
        KeysTail(d);
        DistinctCons(d[0], Assigned(d[1..], k, v));
      }
    }
  }

  /** `d[k] = v` brings in no pair but (k, v). */
  lemma {:induction false} PutElements<K, V>(d: Dict<K, V>, k: K, v: V)
    ensures forall p :: p in Put(d, k, v) ==> p in d || p == (k, v)
  {
    AssignedElements(d, k, v);
  }

  lemma {:induction false} AssignedElements<K, V>(d: Dict<K, V>, k: K, v: V)
    ensures forall p :: p in Assigned(d, k, v) ==> p in d || p == (k, v)
  {
    if d != [] && d[0].0 != k {
      AssignedElements(d[1..], k, v);
      assert forall p :: p in d[1..] ==> p in d;
    } else if d != [] {
      assert forall p :: p in d[1..] ==> p in d;
    }
  }

  /** After `d[k] = v` the keys are those of d and k. */
  lemma PutHasKey<K, V>(d: Dict<K, V>, k: K, v: V)
    ensures forall x :: HasKey(Put(d, k, v), x) <==> HasKey(d, x) || x == k
  {
    var r := Put(d, k, v);
    if !HasKey(d, k) {
      assert forall x :: x in Keys(d) + [k] <==> x in Keys(d) || x == k;
    }
  }

  /** Assigning one key leaves every other key's value as it was. */
  lemma {:induction false} PutOther<K, V>(d: Dict<K, V>, k: K, v: V, k': K)
    requires k' != k
    ensures Get(Put(d, k, v), k') == Get(d, k')
  {
    if d != [] && d[0].0 != k {
      PutOther(d[1..], k, v, k');
    }
  }

  lemma PutOthers<K, V>(d: Dict<K, V>, k: K, v: V)
    ensures forall k' :: k' != k ==> Get(Put(d, k, v), k') == Get(d, k')
  {
    forall k' | k' != k ensures Get(Put(d, k, v), k') == Get(d, k') {
      PutOther(d, k, v, k');
    }
  }

  /** `del d[k]`, or `d.pop(k)`: drops the pair with key k. */
  function Remove<K(==,!new), V>(d: Dict<K, V>, k: K): (r: Dict<K, V>)
    requires DistinctKeys(d)
    ensures !HasKey(r, k)
    ensures DistinctKeys(r)
    ensures forall x :: x in Keys(r) <==> x in Keys(d) && x != k
  {
    if d == [] then []
    else if d[0].0 == k then
      assert Keys(d) == [d[0].0] + Keys(d[1..]);
      d[1..]
    else
      DistinctTail(d);
      var rest := Remove(d[1..], k);
      assert Keys(d) == [d[0].0] + Keys(d[1..]);
      assert Keys([d[0]] + rest) == [d[0].0] + Keys(rest);
      DistinctCons(d[0], rest);
      [d[0]] + rest
  }

  /** Removing one key leaves every other key's value as it was. */
  lemma {:induction false} RemoveOther<K(!new), V>(d: Dict<K, V>, k: K, k': K)
    requires DistinctKeys(d) && k' != k
    ensures Get(Remove(d, k), k') == Get(d, k')
  {
    if d != [] && d[0].0 != k {
      RemoveOther(d[1..], k, k');
    }
  }

  /** The keys in the order they first occur, each once. */
  function FirstOccurrences<K(==,!new)>(ks: seq<K>): (r: seq<K>)
    ensures forall k :: k in r <==> k in ks
    decreases |ks|
  {
    if ks == [] then []
    else
      var prefix := FirstOccurrences(ks[..|ks| - 1]);
      var last := ks[|ks| - 1];
      assert forall k :: k in ks <==> k in ks[..|ks| - 1] || k == last;
      if last in prefix then prefix else prefix + [last]
  }

  /** `d.setdefault(k, []).append(v)` */
  function SetDefaultAppend<K(==), V>(d: Dict<K, seq<V>>, k: K, v: V): Dict<K, seq<V>> {
    Put(d, k, GetOr(d, k, []) + [v])
  }

  /** The dict a loop of `setdefault(k, []).append(v)` over the pairs builds, starting from {}. */
  function Grouped<K(==), V>(pairs: seq<(K, V)>): Dict<K, seq<V>>
    decreases |pairs|
  {
    if pairs == [] then []
    else SetDefaultAppend(Grouped(pairs[..|pairs| - 1]), pairs[|pairs| - 1].0, pairs[|pairs| - 1].1)
  }

  /** One more pair is one more `setdefault(k, []).append(v)`. */
  lemma GroupedSnoc<K, V>(pairs: seq<(K, V)>, x: (K, V))
    ensures Grouped(pairs + [x]) == SetDefaultAppend(Grouped(pairs), x.0, x.1)
  {
    assert (pairs + [x])[..|pairs|] == pairs;
  }

  /** The dict the same loop leaves when it starts from d instead of {}. */
  function AppendAll<K(==), V>(d: Dict<K, seq<V>>, pairs: seq<(K, V)>): Dict<K, seq<V>>
    decreases |pairs|
  {
    if pairs == [] then d
    else SetDefaultAppend(AppendAll(d, pairs[..|pairs| - 1]), pairs[|pairs| - 1].0, pairs[|pairs| - 1].1)
  }

  lemma AppendAllSnoc<K, V>(d: Dict<K, seq<V>>, pairs: seq<(K, V)>, x: (K, V))
    ensures AppendAll(d, pairs + [x]) == SetDefaultAppend(AppendAll(d, pairs), x.0, x.1)
  {
    assert (pairs + [x])[..|pairs|] == pairs;
  }

  /** Going on from the grouping of some pairs is grouping them and the further ones together. */
  lemma {:induction false} GroupedThenMore<K, V>(pairs: seq<(K, V)>, more: seq<(K, V)>)
    ensures AppendAll(Grouped(pairs), more) == Grouped(pairs + more)
    decreases |more|
  {
    if more == [] {
      assert pairs + more == pairs;
    } else {
      var front := more[..|more| - 1];
      var x := more[|more| - 1];
      assert more == front + [x];
      ConcatAssoc(pairs, front, [x]);
      GroupedThenMore(pairs, front);
      AppendAllSnoc(Grouped(pairs), front, x);
      GroupedSnoc(pairs + front, x);
    }
  }

  /** The values paired with k, in order. */
  function ValuesOf<K(==), V>(pairs: seq<(K, V)>, k: K): seq<V>
    decreases |pairs|
  {
    if pairs == [] then []
    else ValuesOf(pairs[..|pairs| - 1], k) + (if pairs[|pairs| - 1].0 == k then [pairs[|pairs| - 1].1] else [])
  }

  /** Grouping keeps, under each key, exactly the values paired with it, in their order. */
  lemma {:induction false} GroupedValues<K, V>(pairs: seq<(K, V)>, k: K)
    ensures GetOr(Grouped(pairs), k, []) == ValuesOf(pairs, k)
    ensures HasKey(Grouped(pairs), k) <==> ValuesOf(pairs, k) != []
    decreases |pairs|
  {
    if pairs != [] {
      var prefix := pairs[..|pairs| - 1];
      var last := pairs[|pairs| - 1];
      GroupedValues(prefix, k);
      if last.0 != k {
        PutOther(Grouped(prefix), last.0, GetOr(Grouped(prefix), last.0, []) + [last.1], k);
      }
    }
  }

  /** Grouping lists the keys in the order they first occur. */
  lemma {:induction false} GroupedKeys<K(!new), V>(pairs: seq<(K, V)>)
    ensures Keys(Grouped(pairs)) == FirstOccurrences(Keys(pairs))
    decreases |pairs|
  {
    if pairs != [] {
      var prefix := pairs[..|pairs| - 1];
      GroupedKeys(prefix);
      assert Keys(pairs)[..|pairs| - 1] == Keys(prefix);
    }
  }
}
