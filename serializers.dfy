/**
 * The custom `create` and `update` handlers of the case and case-set
 * serializers. A case belongs to any number of case sets through one
 * many-to-many table; `CaseSet.cases` is that table read from the other
 * side. The handlers run on data the serializer has validated, so every
 * case or case set they are given exists.
 */
module Serializers {
  import opened Wrappers
  import opened JsonValues

  /** Primary keys; the database draws them as random UUIDs, here they come in as fresh parameters. */
  type CaseId = nat
  type CaseSetId = nat

  /** The many-to-many table: a (case, case set) row per membership. */
  type Membership = set<(CaseId, CaseSetId)>

  /** `case_set.cases.all()` */
  function Members(rel: Membership, s: CaseSetId): set<CaseId> {
    set p | p in rel && p.1 == s :: p.0
  }

  /** `case.case_sets.all()` */
  function SetsOf(rel: Membership, c: CaseId): set<CaseSetId> {
    set p | p in rel && p.0 == c :: p.1
  }

  /** The table read from either side is the same relation. */
  lemma MembershipSymmetric(rel: Membership, c: CaseId, s: CaseSetId)
    ensures c in Members(rel, s) <==> s in SetsOf(rel, c)
  {
    if c in Members(rel, s) {
      var p :| p in rel && p.1 == s && p.0 == c;
      assert p == (c, s);
    }
    if s in SetsOf(rel, c) {
      var p :| p in rel && p.0 == c && p.1 == s;
      assert p == (c, s);
    }
  }

  /** The cases a list names, as the set the table stores. */
  function Named<T>(xs: Option<seq<T>>): set<T> {
    if xs.Some? then set x | x in xs.value else {}
  }

  /** `if cases:` -- a list that is present and not empty. */
  predicate NonEmpty<T>(xs: Option<seq<T>>) {
    xs.Some? && xs.value != []
  }

  /** The table after the members of `s` are made exactly `cs`: rows of other sets are kept. */
  function WithMembers(rel: Membership, s: CaseSetId, cs: set<CaseId>): (r: Membership) {
    (set p | p in rel && p.1 != s) + (set c | c in cs :: (c, s))
  }

  /** The table after the sets of `c` are made exactly `ss`: rows of other cases are kept. */
  function WithSets(rel: Membership, c: CaseId, ss: set<CaseSetId>): (r: Membership) {
    (set p | p in rel && p.0 != c) + (set s | s in ss :: (c, s))
  }

  /** After WithMembers the set has exactly the given members, and every other set keeps its own. */
  lemma WithMembersExact(rel: Membership, s: CaseSetId, cs: set<CaseId>)
    ensures Members(WithMembers(rel, s, cs), s) == cs
    ensures forall t :: t != s ==> Members(WithMembers(rel, s, cs), t) == Members(rel, t)
  {
    var r := WithMembers(rel, s, cs);
    forall c | c in cs
      ensures c in Members(r, s)
    {
      assert (c, s) in r;
    }
    forall t | t != s
      ensures Members(r, t) == Members(rel, t)
    {
      forall c | c in Members(rel, t)
        ensures c in Members(r, t)
      {
        assert (c, t) in rel;
        assert (c, t) in r;
      }
    }
  }

  /** After WithSets the case is in exactly the given sets, and every other case keeps its own. */
  lemma WithSetsExact(rel: Membership, c: CaseId, ss: set<CaseSetId>)
    ensures SetsOf(WithSets(rel, c, ss), c) == ss
    ensures forall d :: d != c ==> SetsOf(WithSets(rel, c, ss), d) == SetsOf(rel, d)
  {
    var r := WithSets(rel, c, ss);
    forall s | s in ss
      ensures s in SetsOf(r, c)
    {
      assert (c, s) in r;
    }
    forall d | d != c
      ensures SetsOf(r, d) == SetsOf(rel, d)
    {
      forall s | s in SetsOf(rel, d)
        ensures s in SetsOf(r, d)
      {
        assert (d, s) in rel;
        assert (d, s) in r;
      }
    }
  }

  /** Assigning the same members again changes nothing. */
  lemma WithMembersIdempotent(rel: Membership, s: CaseSetId, cs: set<CaseId>)
    ensures WithMembers(WithMembers(rel, s, cs), s, cs) == WithMembers(rel, s, cs)
  {
    var once := WithMembers(rel, s, cs);
    var twice := WithMembers(once, s, cs);
    forall p | p in once
      ensures p in twice
    {
      if p.1 == s {
        assert p.0 in cs && p == (p.0, s);
      }
    }
  }

  /**
   * Seen from the case side, making the members of `s` exactly `cs` puts
   * every case of `cs` into `s`, takes every other case out of it, and
   * keeps the case's other sets.
   */
  lemma WithMembersFromCaseSide(rel: Membership, s: CaseSetId, cs: set<CaseId>, c: CaseId)
    ensures SetsOf(WithMembers(rel, s, cs), c) == if c in cs then SetsOf(rel, c) + {s} else SetsOf(rel, c) - {s}
  {
    var r := WithMembers(rel, s, cs);
    var expected := if c in cs then SetsOf(rel, c) + {s} else SetsOf(rel, c) - {s};
    forall t | t in expected
      ensures t in SetsOf(r, c)
    {
      if t == s {
        assert (c, s) in r;
      } else {
        assert (c, t) in rel;
        assert (c, t) in r;
      }
    }
    forall t | t in SetsOf(r, c)
      ensures t in expected
    {
      assert (c, t) in r;
      if t != s {
        assert (c, t) in rel;
      }
    }
  }

  /** The case sets and cases of the database and the table between them. */
  class CaseStore {
    var caseSetNames: map<CaseSetId, string>
    var caseData: map<CaseId, Json>
    var membership: Membership

    /** Every row of the table joins a case and a case set that exist. */
    predicate Valid()
      reads this
    {
      forall p :: p in membership ==> p.0 in caseData && p.1 in caseSetNames
    }

    constructor ()
      ensures caseSetNames == map[] && caseData == map[] && membership == {} && Valid()
    {
      caseSetNames := map[];
      caseData := map[];
      membership := {};
    }

    /** `for case in cases: case.case_sets.add(case_set)` -- one row per listed case, none twice. */
    method AddCases(cs: seq<CaseId>, s: CaseSetId)
      modifies this`membership
      ensures membership == old(membership) + set c | c in cs :: (c, s)
    {
      for i := 0 to |cs|
        invariant membership == old(membership) + set c | c in cs[..i] :: (c, s)
      {
        assert cs[..i + 1] == cs[..i] + [cs[i]];
        membership := membership + {(cs[i], s)};
      }
      assert cs[..|cs|] == cs;
    }

    /** `for case in assigned_cases: if case not in cases: case.case_sets.remove(instance)` */
    method RemoveUnlisted(current: set<CaseId>, cs: seq<CaseId>, s: CaseSetId)
      modifies this`membership
      ensures membership == old(membership) - set c | c in current && c !in cs :: (c, s)
    {
      var rest := current;
      while rest != {}
        invariant rest <= current
        invariant membership == old(membership) - set c | c in current - rest && c !in cs :: (c, s)
        decreases |rest|
      {
        var c :| c in rest;
        if c !in cs {
          membership := membership - {(c, s)};
        }
        rest := rest - {c};
      }
      assert current - rest == current;
    }

    /**
     * `CaseSetSerializer.create`: the set is created, then added to the case
     * sets of each given case in turn.
     */
    method CreateCaseSet(newId: CaseSetId, name: string, cases: Option<seq<CaseId>>)
      requires Valid() && newId !in caseSetNames
      requires forall c :: c in Named(cases) ==> c in caseData
      modifies this
      ensures Valid()
      ensures caseSetNames == old(caseSetNames)[newId := name] && caseData == old(caseData)
      ensures membership == WithMembers(old(membership), newId, Named(cases))
      ensures Members(membership, newId) == Named(cases)
    {
      var cs := if cases.Some? then cases.value else [];
      caseSetNames := caseSetNames[newId := name];
      AddCases(cs, newId);
      assert membership == WithMembers(old(membership), newId, Named(cases)) by {
        assert forall p :: p in old(membership) ==> p.1 != newId;
      }
      WithMembersExact(old(membership), newId, Named(cases));
    }

    /**
     * `CaseSetSerializer.update`: the given fields are written; a present,
     * non-empty case list then becomes the set's exact membership (cases
     * not in it leave the set, the others join it). An absent or empty list
     * leaves membership alone.
     */
    method UpdateCaseSet(instance: CaseSetId, name: Option<string>, cases: Option<seq<CaseId>>)
      requires Valid() && instance in caseSetNames
      requires forall c :: c in Named(cases) ==> c in caseData
      modifies this
      ensures Valid()
      ensures caseSetNames == old(caseSetNames)[instance := if name.Some? then name.value else old(caseSetNames)[instance]]
      ensures caseData == old(caseData)
      ensures membership == if NonEmpty(cases) then WithMembers(old(membership), instance, Named(cases)) else old(membership)
    {
      var cs := if cases.Some? then cases.value else [];
      var current := Members(membership, instance);
      if name.Some? {
        caseSetNames := caseSetNames[instance := name.value];
      }
      if cs != [] {
        RemoveUnlisted(current, cs, instance);
        AddCases(cs, instance);
        RemoveThenAdd(old(membership), instance, cs);
      }
    }

    /**
     * `CaseSerializer.create`: the case is created and, when the list is
     * present and not empty, added to each given case set.
     */
    method CreateCase(newId: CaseId, data: Json, caseSets: Option<seq<CaseSetId>>)
      requires Valid() && newId !in caseData
      requires forall s :: s in Named(caseSets) ==> s in caseSetNames
      modifies this
      ensures Valid()
      ensures caseData == old(caseData)[newId := data] && caseSetNames == old(caseSetNames)
      ensures membership == old(membership) + set s | s in Named(caseSets) :: (newId, s)
      ensures SetsOf(membership, newId) == Named(caseSets)
    {
      caseData := caseData[newId := data];
      if NonEmpty(caseSets) {
        membership := membership + set s | s in caseSets.value :: (newId, s);
      } else {
        assert Named(caseSets) == {};
      }
      assert membership == WithSets(old(membership), newId, Named(caseSets)) by {
        assert forall p :: p in old(membership) ==> p.0 != newId;
      }
      WithSetsExact(old(membership), newId, Named(caseSets));
    }

    /**
     * `CaseSerializer.update`: the given fields are written; a present,
     * non-empty list of case sets then becomes the case's exact sets: the
     * ones not listed are removed, the listed ones added.
     */
    method UpdateCase(instance: CaseId, data: Option<Json>, caseSets: Option<seq<CaseSetId>>)
      requires Valid() && instance in caseData
      requires forall s :: s in Named(caseSets) ==> s in caseSetNames
      modifies this
      ensures Valid()
      ensures caseData == old(caseData)[instance := if data.Some? then data.value else old(caseData)[instance]]
      ensures caseSetNames == old(caseSetNames)
      ensures membership == if NonEmpty(caseSets) then WithSets(old(membership), instance, Named(caseSets)) else old(membership)
    {
      if data.Some? {
        caseData := caseData[instance := data.value];
      }
      if NonEmpty(caseSets) {
        var toAdd := caseSets.value;
        var toRemove := set s | s in SetsOf(membership, instance) && s !in toAdd;
        membership := membership - set s | s in toRemove :: (instance, s);
        membership := membership + set s | s in toAdd :: (instance, s);
        assert membership == WithSets(old(membership), instance, Named(caseSets)) by {
          forall p | p in old(membership) && p.0 == instance && p.1 !in toAdd
            ensures p.1 in toRemove
          {
            assert p == (instance, p.1);
          }
        }
      }
    }
  }

  /** Removing the members not listed and then adding the listed ones is WithMembers. */
  lemma RemoveThenAdd(rel: Membership, s: CaseSetId, cs: seq<CaseId>)
    ensures (rel - set c | c in Members(rel, s) && c !in cs :: (c, s)) + (set c | c in cs :: (c, s)) ==
      WithMembers(rel, s, set c | c in cs)
  {
    var lhs := (rel - set c | c in Members(rel, s) && c !in cs :: (c, s)) + (set c | c in cs :: (c, s));
    var rhs := WithMembers(rel, s, set c | c in cs);
    forall p | p in rel && p.1 == s && p.0 !in cs
      ensures p !in lhs
    {
      assert p.0 in Members(rel, s);
      assert p == (p.0, s);
    }
  }
}
