/** The deep merge of record contexts (trust-registry/src/domain/mod.rs). */
module JsonMerge {
  import opened Domain

  /** What merging means: addition wins, except that two objects merge key by key. */
  function Merge(base: Json, add: Json): Json
    decreases add
  {
    if base.Obj? && add.Obj? then
      Obj(map k | k in base.fields.Keys + add.fields.Keys :: MergeAt(base, add, k))
    else
      add
  }

  function MergeAt(base: Json, add: Json, k: string): Json
    requires base.Obj? && add.Obj? && k in base.fields.Keys + add.fields.Keys
    decreases add, 0
  {
    if k !in add.fields then base.fields[k]
    else if k !in base.fields then add.fields[k]
    else Merge(base.fields[k], add.fields[k])
  }

  /**
   * The in-place loop. `additional_map` is drained in an arbitrary order, so the
   * postcondition also says that key order cannot matter.
   */
  method MergeJsonValues(base: Json, additional: Json) returns (merged: Json)
    ensures merged == Merge(base, additional)
    decreases additional
  {
    if base.Obj? && additional.Obj? {
      var baseMap := base.fields;
      var remaining := additional.fields.Keys;
      while remaining != {}
        invariant remaining <= additional.fields.Keys
        invariant baseMap.Keys == base.fields.Keys + (additional.fields.Keys - remaining)
        invariant forall k :: k in baseMap ==>
          baseMap[k] == if k in remaining then base.fields[k] else MergeAt(base, additional, k)
      {
        var key :| key in remaining;
        var value := additional.fields[key];
        if key in baseMap {
          var baseValue := baseMap[key];
          baseMap := baseMap - {key};
          value := MergeJsonValues(baseValue, value);
        }
        baseMap := baseMap[key := value];
        remaining := remaining - {key};
      }
      assert baseMap == Merge(base, additional).fields;
      merged := Obj(baseMap);
    } else {
      merged := additional;
    }
  }

  // ---------------------------------------------------------------- path law

  datatype Sighting = Absent | AnObject | Leaf(value: Json)

  /** What a reader finds after following `path` from the root. */
  function Observe(v: Json, path: seq<string>): Sighting
    decreases |path|
  {
    if path == [] then
      if v.Obj? then AnObject else Leaf(v)
    else if v.Obj? && path[0] in v.fields then
      Observe(v.fields[path[0]], path[1..])
    else
      Absent
  }

  /** Some strict prefix of `path` ends at a non-object. */
  ghost predicate Blocked(v: Json, path: seq<string>) {
    exists i :: 0 <= i < |path| && Observe(v, path[..i]).Leaf?
  }

  lemma ObserveStep(v: Json, k: string, rest: seq<string>)
    requires v.Obj? && k in v.fields
    ensures Observe(v, [k] + rest) == Observe(v.fields[k], rest)
  {
    assert ([k] + rest)[1..] == rest;
  }

  lemma BlockedStep(v: Json, path: seq<string>)
    requires path != []
    ensures Blocked(v, path) <==>
      (!v.Obj? || (path[0] in v.fields && Blocked(v.fields[path[0]], path[1..])))
  {
    if !v.Obj? {
      assert Observe(v, path[..0]).Leaf?;
    } else if path[0] in v.fields {
      var w := v.fields[path[0]];
      forall i | 0 < i < |path|
        ensures Observe(v, path[..i]) == Observe(w, path[1..][..i - 1])
      {
        assert path[..i][1..] == path[1..][..i - 1];
      }
      if Blocked(v, path) {
        var i :| 0 <= i < |path| && Observe(v, path[..i]).Leaf?;
        assert Observe(w, path[1..][..i - 1]).Leaf?;
      }
      if Blocked(w, path[1..]) {
        var j :| 0 <= j < |path[1..]| && Observe(w, path[1..][..j]).Leaf?;
        assert Observe(v, path[..j + 1]).Leaf?;
      }
    } else {
      forall i | 0 <= i < |path|
        ensures !Observe(v, path[..i]).Leaf?
      {
      }
    }
  }

  /** Reading through two layers: the addition's finding, nothing below its leaves, else the base's. */
  ghost function LayeredRead(base: Json, add: Json, path: seq<string>): Sighting {
    if Observe(add, path) != Absent then Observe(add, path)
    else if Blocked(add, path) then Absent
    else Observe(base, path)
  }

  /** The merged value at every path, told without mentioning the merge. */
  lemma {:induction false} PathLaw(base: Json, add: Json, path: seq<string>)
    ensures Observe(Merge(base, add), path) == LayeredRead(base, add, path)
    decreases |path|
  {
    if path != [] {
      BlockedStep(add, path);
      if base.Obj? && add.Obj? && path[0] in base.fields && path[0] in add.fields {
        PathLaw(base.fields[path[0]], add.fields[path[0]], path[1..]);
      } else if add.Obj? && path[0] in add.fields {
        ReadsAreTotal(add, path);
      }
    }
  }

  /** Below a missing key nothing is found; a value never sits below a leaf. */
  lemma {:induction false} ReadsAreTotal(v: Json, path: seq<string>)
    ensures Observe(v, path) != Absent ==> !Blocked(v, path)
    decreases |path|
  {
    if path != [] {
      BlockedStep(v, path);
      if v.Obj? && path[0] in v.fields {
        ReadsAreTotal(v.fields[path[0]], path[1..]);
      }
    }
  }

  /** Trees that read the same along every path are the same tree. */
  lemma {:induction false} SameReadsSameTree(v: Json, w: Json)
    requires forall p :: Observe(v, p) == Observe(w, p)
    ensures v == w
    decreases v
  {
    assert Observe(v, []) == Observe(w, []);
    if v.Obj? {
      forall k
        ensures k in v.fields <==> k in w.fields
        ensures k in v.fields && k in w.fields ==> v.fields[k] == w.fields[k]
      {
        assert Observe(v, [k]) == Observe(w, [k]);
        if k in v.fields {
          ObserveStep(v, k, []);
        }
        if k in w.fields {
          ObserveStep(w, k, []);
        }
        if k in v.fields && k in w.fields {
          forall p
            ensures Observe(v.fields[k], p) == Observe(w.fields[k], p)
          {
            ObserveStep(v, k, p);
            ObserveStep(w, k, p);
          }
          SameReadsSameTree(v.fields[k], w.fields[k]);
        }
      }
      assert v.fields == w.fields;
    }
  }

  /** The path law determines the merge: whatever obeys it is the merged tree. */
  lemma PathLawIsComplete(base: Json, add: Json, candidate: Json)
    requires forall p :: Observe(candidate, p) == LayeredRead(base, add, p)
    ensures candidate == Merge(base, add)
  {
    forall p
      ensures Observe(candidate, p) == Observe(Merge(base, add), p)
    {
      PathLaw(base, add, p);
    }
    SameReadsSameTree(candidate, Merge(base, add));
  }

  // ---------------------------------------------------------------- algebra

  lemma {:induction false} MergeIdempotent(v: Json)
    ensures Merge(v, v) == v
  {
    if v.Obj? {
      forall k | k in v.fields
        ensures MergeAt(v, v, k) == v.fields[k]
      {
        MergeIdempotent(v.fields[k]);
      }
      assert Merge(v, v).fields == v.fields;
    }
  }

  /** Merging the same addition again, or the same base again, changes nothing. */
  lemma {:induction false} MergeAbsorbs(base: Json, add: Json)
    ensures Merge(Merge(base, add), add) == Merge(base, add)
    ensures Merge(base, Merge(base, add)) == Merge(base, add)
    decreases add
  {
    var m := Merge(base, add);
    MergeIdempotent(add);
    if base.Obj? && add.Obj? {
      forall k | k in m.fields
        ensures MergeAt(m, add, k) == m.fields[k]
        ensures MergeAt(base, m, k) == m.fields[k]
      {
        assert m.fields[k] == MergeAt(base, add, k);
        if k in add.fields {
          MergeIdempotent(add.fields[k]);
          if k in base.fields {
            MergeAbsorbs(base.fields[k], add.fields[k]);
          }
        } else {
          MergeIdempotent(base.fields[k]);
        }
      }
      assert Merge(m, add).fields == m.fields;
      assert Merge(base, m).fields == m.fields;
    }
  }

  /** The empty object is a left identity for everything, a right identity exactly on objects. */
  lemma EmptyObjectIdentity(v: Json)
    ensures Merge(EMPTY_OBJECT, v) == v
    ensures Merge(v, EMPTY_OBJECT) == v <==> v.Obj?
  {
    if v.Obj? {
      assert Merge(EMPTY_OBJECT, v).fields == v.fields;
      assert Merge(v, EMPTY_OBJECT).fields == v.fields;
    }
  }

  /** Everything object `a` would contribute below object `c` is already overridden there. */
  predicate Covers(c: Json, a: Json)
    requires c.Obj? && a.Obj?
    decreases a
  {
    forall k :: k in a.fields ==>
      k in c.fields && (a.fields[k].Obj? && c.fields[k].Obj? ==> Covers(c.fields[k], a.fields[k]))
  }

  /**
   * Somewhere the middle tree replaces an object of `a` by a non-object which `c`
   * then replaces by an object again, and `a` holds something there `c` lacks.
   */
  predicate Resurrects(a: Json, b: Json, c: Json)
    decreases b
  {
    a.Obj? && c.Obj?
    && if b.Obj? then
         exists k :: k in a.fields && k in b.fields && k in c.fields
           && Resurrects(a.fields[k], b.fields[k], c.fields[k])
       else
         !Covers(c, a)
  }

  lemma {:induction false} CoversMeansAbsorbed(c: Json, a: Json)
    requires c.Obj? && a.Obj?
    ensures Merge(a, c) == c <==> Covers(c, a)
    decreases a
  {
    forall k | k in a.fields && k in c.fields
      ensures a.fields[k].Obj? && c.fields[k].Obj? ==>
        (Merge(a.fields[k], c.fields[k]) == c.fields[k] <==> Covers(c.fields[k], a.fields[k]))
    {
      if a.fields[k].Obj? && c.fields[k].Obj? {
        CoversMeansAbsorbed(c.fields[k], a.fields[k]);
      }
    }
    if Covers(c, a) {
      forall k | k in a.fields.Keys + c.fields.Keys
        ensures k in c.fields && MergeAt(a, c, k) == c.fields[k]
      {
      }
      assert Merge(a, c).fields == c.fields;
    } else {
      var k :| k in a.fields
        && (k in c.fields ==> a.fields[k].Obj? && c.fields[k].Obj? && !Covers(c.fields[k], a.fields[k]));
      assert k in Merge(a, c).fields;
      if k in c.fields {
        assert Merge(a, c).fields[k] == Merge(a.fields[k], c.fields[k]);
      }
    }
  }

  /** Exactly when a chain of merges may be regrouped. */
  lemma {:induction false} MergeAssociativeIff(a: Json, b: Json, c: Json)
    ensures Merge(Merge(a, b), c) == Merge(a, Merge(b, c)) <==> !Resurrects(a, b, c)
    decreases b
  {
    if a.Obj? && c.Obj? {
      if !b.Obj? {
        CoversMeansAbsorbed(c, a);
      } else {
        var ab, bc := Merge(a, b), Merge(b, c);
        var left, right := Merge(ab, c), Merge(a, bc);
        assert left.fields.Keys == right.fields.Keys;
        forall k | k in left.fields
          ensures left.fields[k] == right.fields[k] <==>
            !(k in a.fields && k in b.fields && k in c.fields
              && Resurrects(a.fields[k], b.fields[k], c.fields[k]))
        {
          assert left.fields[k] == MergeAt(ab, c, k) && right.fields[k] == MergeAt(a, bc, k);
          assert k in ab.fields ==> ab.fields[k] == MergeAt(a, b, k);
          assert k in bc.fields ==> bc.fields[k] == MergeAt(b, c, k);
          if k in a.fields && k in b.fields && k in c.fields {
            MergeAssociativeIff(a.fields[k], b.fields[k], c.fields[k]);
          }
        }
        if !Resurrects(a, b, c) {
          assert left.fields == right.fields;
        }
      }
    }
  }

  /** If the middle tree has no leaf where both outer trees are objects, regrouping is safe. */
  lemma MiddleYieldsImpliesAssociative(a: Json, b: Json, c: Json)
    requires forall p :: Observe(a, p) == AnObject && Observe(c, p) == AnObject ==> !Observe(b, p).Leaf?
    ensures Merge(Merge(a, b), c) == Merge(a, Merge(b, c))
  {
    if Resurrects(a, b, c) {
      var p := ResurrectionPath(a, b, c);
      assert false;
    }
    MergeAssociativeIff(a, b, c);
  }

  lemma {:induction false} ResurrectionPath(a: Json, b: Json, c: Json) returns (path: seq<string>)
    requires Resurrects(a, b, c)
    ensures Observe(a, path) == AnObject && Observe(c, path) == AnObject && Observe(b, path).Leaf?
    decreases b
  {
    if b.Obj? {
      var k :| k in a.fields && k in b.fields && k in c.fields
        && Resurrects(a.fields[k], b.fields[k], c.fields[k]);
      var rest := ResurrectionPath(a.fields[k], b.fields[k], c.fields[k]);
      path := [k] + rest;
      ObserveStep(a, k, rest);
      ObserveStep(b, k, rest);
      ObserveStep(c, k, rest);
    } else {
      path := [];
    }
  }

  /** Merging is not associative in general: null in the middle loses `x` only when grouped left. */
  lemma MergeNotAssociative()
    ensures var a := Obj(map["x" := Null]);
      Merge(Merge(a, Null), EMPTY_OBJECT) == EMPTY_OBJECT
      && Merge(a, Merge(Null, EMPTY_OBJECT)) == a != EMPTY_OBJECT
  {
    var a := Obj(map["x" := Null]);
    EmptyObjectIdentity(a);
    assert "x" in a.fields;
  }
}
