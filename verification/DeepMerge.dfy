/** Deep merging of configuration mappings, and its laws. */
module DeepMerge {
  import opened Keys
  import opened Values

  /** The merge of two values as one equation: two mappings merge key by key, anything else is overridden. */
  function Merge(base: Value, override: Value): Value
    decreases override
  {
    if base.Mapping? && override.Mapping? then
      Mapping(map k | k in base.entries.Keys + override.entries.Keys ::
        if k !in override.entries then base.entries[k]
        else if k !in base.entries then override.entries[k]
        else Merge(base.entries[k], override.entries[k]))
    else
      override
  }

  function MergeSections(base: Section, override: Section): Section {
    Merge(Mapping(base), Mapping(override)).entries
  }

  lemma MergedIsMapping(base: Section, override: Section)
    ensures Mapping(MergeSections(base, override)) == Merge(Mapping(base), Mapping(override))
  {
  }

  lemma MergeSectionsAt(base: Section, override: Section, key: Key)
    requires key in override
    ensures key in MergeSections(base, override)
    ensures MergeSections(base, override)[key] == MergedEntry(Get(base, key), override[key])
  {
    if key in base {
      assert MergeSections(base, override)[key] == Merge(base[key], override[key]);
    }
  }

  /** What the loop stores for one key of the override. */
  function MergedEntry(current: Value, value: Value): Value {
    if current.Mapping? && value.Mapping? then
      Mapping(MergeSections(current.entries, value.entries))
    else
      value
  }

  /** The in-place merge loop: copy the base, then overwrite entry by entry. */
  method MergeMappings(base: Section, override: Section) returns (merged: Section)
    ensures merged == MergeSections(base, override)
    decreases Mapping(override)
  {
    merged := base;
    var rest := override.Keys;
    while rest != {}
      invariant PartlyMerged(base, override, merged, rest)
      decreases |rest|
    {
      var key :| key in rest;
      var current := Get(merged, key);
      var stored := override[key];
      if current.Mapping? && override[key].Mapping? {
        var nested := MergeMappings(current.entries, override[key].entries);
        stored := Mapping(nested);
      }
      MergedOneMore(base, override, merged, rest, key);
      merged := merged[key := stored];
      rest := rest - {key};
    }
  }

  /** The keys of the override outside `rest` already hold their merged values, the other keys those of the base. */
  ghost predicate PartlyMerged(base: Section, override: Section, merged: Section, rest: set<Key>) {
    && rest <= override.Keys
    && merged.Keys == base.Keys + (override.Keys - rest)
    && (forall k :: k in rest && k in base ==> merged[k] == base[k])
    && (rest == {} ==> merged == MergeSections(base, override))
    && (forall k :: k in merged && k !in rest ==>
          k in MergeSections(base, override) && merged[k] == MergeSections(base, override)[k])
  }

  lemma MergedOneMore(base: Section, override: Section, merged: Section, rest: set<Key>, key: Key)
    requires PartlyMerged(base, override, merged, rest) && key in rest
    ensures Get(merged, key) == Get(base, key)
    ensures PartlyMerged(base, override,
              merged[key := MergedEntry(Get(base, key), override[key])], rest - {key})
  {
    MergeSectionsAt(base, override, key);
    var target := MergeSections(base, override);
    var next := merged[key := MergedEntry(Get(base, key), override[key])];
    assert target.Keys == base.Keys + override.Keys;
    assert next.Keys == base.Keys + (override.Keys - (rest - {key}));
    assert forall k :: k in next && k !in rest - {key} ==> next[k] == target[k];
    if rest - {key} == {} {
      assert next.Keys == target.Keys;
      assert forall k :: k in target ==> next[k] == target[k];
    }
  }

  // ---------- the path law ----------

  /** Some proper prefix of the path holds a non-mapping, so nothing below it survives. */
  predicate Blocks(value: Value, path: seq<Key>)
    decreases |path|
  {
    path != [] &&
    (!value.Mapping? || (path[0] in value.entries && Blocks(value.entries[path[0]], path[1..])))
  }

  function CombineAt(base: Value, override: Value, path: seq<Key>): Option<Value> {
    match (Lookup(base, path), Lookup(override, path))
    case (Some(x), Some(y)) => Some(Merge(x, y))
    case (None, Some(y)) => Some(y)
    case (below, None) => if Blocks(override, path) then None else below
  }

  /** What a merge holds at any path is decided by what the two operands hold there. */
  lemma {:induction false} MergeAtPath(base: Value, override: Value, path: seq<Key>)
    ensures Lookup(Merge(base, override), path) == CombineAt(base, override, path)
    decreases |path|
  {
    if path != [] && base.Mapping? && override.Mapping?
       && path[0] in base.entries && path[0] in override.entries {
      MergeAtPath(base.entries[path[0]], override.entries[path[0]], path[1..]);
    }
  }

  // ---------- absorption ----------

  /** Every leaf of `base` is overridden: its keys all occur in `override`, at every mapping they share. */
  predicate Covered(base: Value, override: Value)
    decreases override
  {
    base.Mapping? && override.Mapping? ==>
      forall k :: k in base.entries ==>
        k in override.entries && Covered(base.entries[k], override.entries[k])
  }

  /** Merging into `base` gives back the override exactly when nothing of `base` shows through. */
  lemma {:induction false} CoveredIffAbsorbed(base: Value, override: Value)
    ensures Covered(base, override) <==> Merge(base, override) == override
    decreases override
  {
    if base.Mapping? && override.Mapping? {
      forall k | k in base.entries && k in override.entries
        ensures Covered(base.entries[k], override.entries[k])
           <==> Merge(base.entries[k], override.entries[k]) == override.entries[k]
      {
        CoveredIffAbsorbed(base.entries[k], override.entries[k]);
      }
      var merged := Merge(base, override).entries;
      if Covered(base, override) {
        assert merged == override.entries;
      } else {
        var k :| k in base.entries
          && !(k in override.entries && Covered(base.entries[k], override.entries[k]));
        assert k in merged;
        assert k !in override.entries || merged[k] != override.entries[k];
      }
    }
  }

  lemma {:induction false} CoveredBySelf(value: Value)
    ensures Covered(value, value)
  {
    if value.Mapping? {
      forall k | k in value.entries ensures Covered(value.entries[k], value.entries[k]) {
        CoveredBySelf(value.entries[k]);
      }
    }
  }

  lemma {:induction false} CoveredByMerge(base: Value, override: Value)
    ensures Covered(base, Merge(base, override))
    decreases override
  {
    if base.Mapping? && override.Mapping? {
      var merged := Merge(base, override).entries;
      forall k | k in base.entries ensures k in merged && Covered(base.entries[k], merged[k]) {
        if k in override.entries {
          CoveredByMerge(base.entries[k], override.entries[k]);
        } else {
          CoveredBySelf(base.entries[k]);
        }
      }
    }
  }

  /** Merging is idempotent, and merging either operand in a second time changes nothing. */
  lemma MergeAbsorbs(base: Value, override: Value)
    ensures Merge(base, base) == base
    ensures Merge(Merge(base, override), override) == Merge(base, override)
    ensures Merge(base, Merge(base, override)) == Merge(base, override)
  {
    CoveredBySelf(base);
    CoveredIffAbsorbed(base, base);
    CoveredByMerge(base, override);
    CoveredIffAbsorbed(base, Merge(base, override));
    OverrideAgain(base, override);
  }

  lemma {:induction false} OverrideAgain(base: Value, override: Value)
    ensures Merge(Merge(base, override), override) == Merge(base, override)
    decreases override
  {
    if override.Mapping? {
      if base.Mapping? {
        forall k | k in base.entries && k in override.entries
          ensures Merge(Merge(base.entries[k], override.entries[k]), override.entries[k])
               == Merge(base.entries[k], override.entries[k])
        {
          OverrideAgain(base.entries[k], override.entries[k]);
        }
      }
      forall k | k in override.entries
        ensures Merge(override.entries[k], override.entries[k]) == override.entries[k]
      {
        CoveredBySelf(override.entries[k]);
        CoveredIffAbsorbed(override.entries[k], override.entries[k]);
      }
      assert Merge(Merge(base, override), override).entries == Merge(base, override).entries;
    }
  }

  /** Every entry of `part` is an entry of `whole`. */
  predicate Within(part: Section, whole: Section) {
    forall k :: k in part ==> k in whole && whole[k] == part[k]
  }

  lemma MergeWithin(part: Section, whole: Section)
    requires Within(part, whole)
    ensures MergeSections(whole, part) == whole
  {
    forall k | k in part ensures MergeSections(whole, part)[k] == whole[k] {
      MergeSectionsAt(whole, part, k);
      MergeAbsorbs(part[k], part[k]);
      assert Merge(Mapping(whole), Mapping(part)).entries[k] == Merge(whole[k], part[k]);
    }
    assert MergeSections(whole, part) == whole;
  }

  // ---------- associativity ----------

  /** A path where a mapping is hidden by a non-mapping and then uncovered by a later mapping. */
  predicate Clash(a: Value, b: Value, c: Value, path: seq<Key>) {
    var x, y, z := Lookup(a, path), Lookup(b, path), Lookup(c, path);
    && x.Some? && x.value.Mapping?
    && y.Some? && !y.value.Mapping?
    && z.Some? && z.value.Mapping?
  }

  ghost predicate ClashesCovered(a: Value, b: Value, c: Value) {
    forall path :: Clash(a, b, c, path) ==> Covered(Lookup(a, path).value, Lookup(c, path).value)
  }

  /** Merging is associative exactly when, wherever such a clash occurs, the first mapping shows nothing through the
      third. */
  lemma {:induction false} MergeAssociativeIff(a: Value, b: Value, c: Value)
    ensures Merge(Merge(a, b), c) == Merge(a, Merge(b, c)) <==> ClashesCovered(a, b, c)
    decreases c
  {
    if a.Mapping? && b.Mapping? && c.Mapping? {
      hide Merge, ClashesCovered;
      ClashesBelow(a, b, c);
      forall k | k in a.entries && k in b.entries && k in c.entries
        ensures Merge(Merge(a.entries[k], b.entries[k]), c.entries[k])
             == Merge(a.entries[k], Merge(b.entries[k], c.entries[k]))
           <==> ClashesCovered(a.entries[k], b.entries[k], c.entries[k])
      {
        MergeAssociativeIff(a.entries[k], b.entries[k], c.entries[k]);
      }
      AssociativeByKey(a.entries, b.entries, c.entries);
    } else {
      AssociativeAtRoot(a, b, c);
    }
  }

  lemma AssociativeAtRoot(a: Value, b: Value, c: Value)
    requires !(a.Mapping? && b.Mapping? && c.Mapping?)
    ensures Merge(Merge(a, b), c) == Merge(a, Merge(b, c)) <==> ClashesCovered(a, b, c)
  {
    if c.Mapping? && !b.Mapping? {
      CoveredIffAbsorbed(a, c);
      ClashAtRoot(a, b, c);
    } else {
      assert forall path :: Clash(a, b, c, path) ==> path == [];
    }
  }

  lemma ClashAtRoot(a: Value, b: Value, c: Value)
    requires !b.Mapping? && c.Mapping?
    ensures ClashesCovered(a, b, c) <==> Covered(a, c)
  {
    assert forall path :: Lookup(b, path).Some? ==> path == [];
    if a.Mapping? {
      assert Clash(a, b, c, []);
    }
  }

  /** Under three mappings the clashes are those below their common keys. */
  lemma ClashesBelow(a: Value, b: Value, c: Value)
    requires a.Mapping? && b.Mapping? && c.Mapping?
    ensures ClashesCovered(a, b, c) <==>
      forall k :: k in a.entries && k in b.entries && k in c.entries ==>
        ClashesCovered(a.entries[k], b.entries[k], c.entries[k])
  {
    if ClashesCovered(a, b, c) {
      forall k, path | k in a.entries && k in b.entries && k in c.entries
                       && Clash(a.entries[k], b.entries[k], c.entries[k], path)
        ensures Covered(Lookup(a.entries[k], path).value, Lookup(c.entries[k], path).value)
      {
        assert ([k] + path)[1..] == path;
        assert Clash(a, b, c, [k] + path);
      }
    } else {
      var path :| Clash(a, b, c, path) && !Covered(Lookup(a, path).value, Lookup(c, path).value);
      assert path != [];
      assert Clash(a.entries[path[0]], b.entries[path[0]], c.entries[path[0]], path[1..]);
    }
  }

  /** Three mappings associate exactly when their entries do under every common key. */
  lemma AssociativeByKey(a: Section, b: Section, c: Section)
    ensures Merge(Merge(Mapping(a), Mapping(b)), Mapping(c))
         == Merge(Mapping(a), Merge(Mapping(b), Mapping(c)))
       <==> forall k :: k in a && k in b && k in c ==>
              Merge(Merge(a[k], b[k]), c[k]) == Merge(a[k], Merge(b[k], c[k]))
  {
    var left := Merge(Merge(Mapping(a), Mapping(b)), Mapping(c)).entries;
    var right := Merge(Mapping(a), Merge(Mapping(b), Mapping(c))).entries;
    assert left.Keys == right.Keys == a.Keys + b.Keys + c.Keys;
    assert forall k :: k in left && !(k in a && k in b && k in c) ==> left[k] == right[k];
    assert forall k :: k in a && k in b && k in c ==>
      left[k] == Merge(Merge(a[k], b[k]), c[k]) && right[k] == Merge(a[k], Merge(b[k], c[k]));
    if forall k :: k in a && k in b && k in c ==> left[k] == right[k] {
      assert left == right;
    }
  }

  /** Without the side condition associativity is lost: under any key, a value in the middle that is no mapping hides
      what the outer mappings share. */
  lemma MergeNotAssociative(k: Key, x: Key, leaf: Value, hiding: Value)
    requires !hiding.Mapping?
    ensures var a, b, c := Mapping(map[k := Mapping(map[x := leaf])]), Mapping(map[k := hiding]),
                           Mapping(map[k := Mapping(map[])]);
      Merge(Merge(a, b), c) != Merge(a, Merge(b, c))
  {
    var a, b := Mapping(map[k := Mapping(map[x := leaf])]), Mapping(map[k := hiding]);
    var c := Mapping(map[k := Mapping(map[])]);
    hide Merge;
    MergeAssociativeIff(a, b, c);
    assert Lookup(a, [k]) == Some(Mapping(map[x := leaf]));
    assert Lookup(b, [k]) == Some(hiding);
    assert Lookup(c, [k]) == Some(Mapping(map[]));
    assert Clash(a, b, c, [k]);
    assert x in map[x := leaf];
  }
}
