/**
 * Python's `sorted(zip(keys, values), key=lambda pair: pair[0], reverse=...)`:
 * a stable sort on real keys. With `reverse=True` Python orders by key from
 * largest to smallest and still keeps equal keys in their original order.
 * Each element is tagged with its original position, which makes stability a
 * plain ordering condition.
 */
module StableSort {

  datatype Tagged<T> = Tagged(key: real, index: nat, item: T)

  /** a comes first in the sorted output: by key in the chosen direction, ties by original position. */
  predicate Precedes<T>(a: Tagged<T>, b: Tagged<T>, reverse: bool) {
    (if reverse then a.key > b.key else a.key < b.key) || (a.key == b.key && a.index < b.index)
  }

  predicate SortedBy<T>(s: seq<Tagged<T>>, reverse: bool) {
    forall i, j :: 0 <= i < j < |s| ==> Precedes(s[i], s[j], reverse)
  }

  /** Positions increase along the sequence (true of a freshly tagged input). */
  predicate IndicesIncrease<T>(s: seq<Tagged<T>>) {
    forall i, j :: 0 <= i < j < |s| ==> s[i].index < s[j].index
  }

  /** `zip(keys, values)`, which stops at the shorter of the two. */
  function Zip<K, T>(keys: seq<K>, values: seq<T>): (z: seq<(K, T)>)
    ensures |z| == if |keys| < |values| then |keys| else |values|
    ensures forall i :: 0 <= i < |z| ==> z[i] == (keys[i], values[i])
  {
    var n := if |keys| < |values| then |keys| else |values|;
    seq(n, i requires 0 <= i < n => (keys[i], values[i]))
  }

  function Tag<T>(pairs: seq<(real, T)>): (t: seq<Tagged<T>>)
    ensures |t| == |pairs| && IndicesIncrease(t)
    ensures forall i :: 0 <= i < |t| ==> t[i] == Tagged(pairs[i].0, i, pairs[i].1)
  {
    seq(|pairs|, i requires 0 <= i < |pairs| => Tagged(pairs[i].0, i, pairs[i].1))
  }

  function Items<T>(t: seq<Tagged<T>>): (r: seq<T>)
    ensures |r| == |t|
    ensures forall i :: 0 <= i < |t| ==> r[i] == t[i].item
  {
    seq(|t|, i requires 0 <= i < |t| => t[i].item)
  }

  lemma PrecedesTransitive<T>(a: Tagged<T>, b: Tagged<T>, c: Tagged<T>, reverse: bool)
    requires Precedes(a, b, reverse) && Precedes(b, c, reverse)
    ensures Precedes(a, c, reverse)
  {
  }

  /** Appending an element that every element precedes keeps the sequence sorted. */
  lemma SortedSnoc<T>(s: seq<Tagged<T>>, x: Tagged<T>, reverse: bool)
    requires SortedBy(s, reverse)
    requires forall i :: 0 <= i < |s| ==> Precedes(s[i], x, reverse)
    ensures SortedBy(s + [x], reverse)
  {
    var e := s + [x];
    forall i, j | 0 <= i < j < |e| ensures Precedes(e[i], e[j], reverse) {
      if j == |s| {
        assert e[i] == s[i] && e[j] == x;
      } else {
        assert e[i] == s[i] && e[j] == s[j];
      }
    }
  }

  /** What is placed before the last element of a sorted sequence precedes it. */
  lemma AllPrecedeLast<T>(front: seq<Tagged<T>>, init: seq<Tagged<T>>, x: Tagged<T>, last: Tagged<T>, reverse: bool)
    requires SortedBy(init + [last], reverse) && Precedes(x, last, reverse)
    requires forall y :: y in front ==> y == x || y in init
    ensures forall i :: 0 <= i < |front| ==> Precedes(front[i], last, reverse)
  {
    var s := init + [last];
    forall i | 0 <= i < |front| ensures Precedes(front[i], last, reverse) {
      if front[i] != x {
        assert front[i] in front;
        var k :| 0 <= k < |init| && init[k] == front[i];
        assert s[k] == front[i] && s[|init|] == last;
      }
    }
  }

  /** Places x, whose position is later than every element of s, into the sorted s. */
  function Insert<T>(x: Tagged<T>, s: seq<Tagged<T>>, reverse: bool): (r: seq<Tagged<T>>)
    requires SortedBy(s, reverse)
    requires forall i :: 0 <= i < |s| ==> s[i].index < x.index
    ensures SortedBy(r, reverse)
    ensures multiset(r) == multiset(s) + multiset{x}
    ensures forall y :: y in r ==> y == x || y in s
  {
    if s == [] then [x]
    else
      var last := s[|s| - 1];
      var init := s[..|s| - 1];
      assert s == init + [last];
      if Precedes(last, x, reverse) then
        forall i | 0 <= i < |s| ensures Precedes(s[i], x, reverse) {
          if i < |s| - 1 { PrecedesTransitive(s[i], last, x, reverse); }
        }
        SortedSnoc(s, x, reverse);
        s + [x]
      else
        assert Precedes(x, last, reverse);
        var front := Insert(x, init, reverse);
        AllPrecedeLast(front, init, x, last, reverse);
        SortedSnoc(front, last, reverse);
        assert multiset(front + [last]) == multiset(front) + multiset{last};
        front + [last]
  }

  /** Insertion sort of a tagged sequence. */
  function Sort<T>(s: seq<Tagged<T>>, reverse: bool): (r: seq<Tagged<T>>)
    requires IndicesIncrease(s)
    ensures SortedBy(r, reverse)
    ensures multiset(r) == multiset(s)
    ensures forall y :: y in r ==> y in s
  {
    if s == [] then []
    else
      var prefix := s[..|s| - 1];
      var sorted := Sort(prefix, reverse);
      assert forall i :: 0 <= i < |sorted| ==> sorted[i].index < s[|s| - 1].index by {
        forall i | 0 <= i < |sorted| ensures sorted[i].index < s[|s| - 1].index {
          assert sorted[i] in prefix;
        }
      }
      assert s == prefix + [s[|s| - 1]];
      Insert(s[|s| - 1], sorted, reverse)
  }

  /** Two elements come out in the order Precedes puts them. */
  lemma SortTwo<T>(a: Tagged<T>, b: Tagged<T>, reverse: bool)
    requires a.index < b.index
    ensures IndicesIncrease([a, b])
    ensures Sort([a, b], reverse) == if Precedes(a, b, reverse) then [a, b] else [b, a]
  {
    SortOne(a, reverse);
    var s := [a, b];
    assert s[..|s| - 1] == [a] && s[|s| - 1] == b;
    assert Sort(s, reverse) == Insert(b, [a], reverse);
  }

  lemma SortOne<T>(a: Tagged<T>, reverse: bool)
    ensures Sort([a], reverse) == [a]
  {
    assert [a][..0] == [];
  }

  /** `sort_array_by_another_array(values, keys, reverse)`. */
  function SortArrayByAnotherArray<T>(values: seq<T>, keys: seq<real>, reverse: bool): (r: seq<T>)
  {
    Items(Sort(Tag(Zip(keys, values)), reverse))
  }

  /**
   * The result is the zipped values permuted so that keys run in the chosen
   * direction, equal keys keeping their original order.
   */
  lemma SortArrayByAnotherArraySpec<T>(values: seq<T>, keys: seq<real>, reverse: bool)
    ensures var t := Sort(Tag(Zip(keys, values)), reverse);
      && SortArrayByAnotherArray(values, keys, reverse) == Items(t)
      && SortedBy(t, reverse)
      && multiset(t) == multiset(Tag(Zip(keys, values)))
      && |t| == |Zip(keys, values)|
  {
    var t := Sort(Tag(Zip(keys, values)), reverse);
    assert |multiset(t)| == |t|;
  }

  lemma ItemsConcat<T>(a: seq<Tagged<T>>, b: seq<Tagged<T>>)
    ensures Items(a + b) == Items(a) + Items(b)
  {
  }

  /** Permuting tagged elements permutes their items. */
  lemma {:induction false} ItemsOfMultiset<T>(a: seq<Tagged<T>>, b: seq<Tagged<T>>)
    requires multiset(a) == multiset(b)
    ensures multiset(Items(a)) == multiset(Items(b))
    decreases |a|
  {
    if a != [] {
      var x := a[0];
      assert x in multiset(b);
      var k :| 0 <= k < |b| && b[k] == x;
      var rest := b[..k] + b[k + 1..];
      assert b == b[..k] + [x] + b[k + 1..];
      assert a == [x] + a[1..];
      assert multiset(a) == multiset{x} + multiset(a[1..]);
      assert multiset(b) == multiset(b[..k]) + multiset{x} + multiset(b[k + 1..]);
      assert multiset(rest) == multiset(b[..k]) + multiset(b[k + 1..]);
      assert multiset(a[1..]) == multiset(a) - multiset{x};
      assert multiset(rest) == multiset(b) - multiset{x};
      ItemsOfMultiset(a[1..], rest);
      ItemsConcat([x], a[1..]);
      ItemsConcat(b[..k] + [x], b[k + 1..]);
      ItemsConcat(b[..k], [x]);
      ItemsConcat(b[..k], b[k + 1..]);
    }
  }
}
