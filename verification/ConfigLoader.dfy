/** Preparing a configuration: the override is merged over the base, literal secrets are refused, and environment
    references are resolved. */
module ConfigLoader {
  import opened DeepMerge
  import opened EnvResolver
  import opened Keys
  import opened LiteralSecrets
  import opened Values

  datatype PrepareError = LiteralSecret | MissingVariable

  /** The prepared configuration. */
  function PrepareConfig(base: Section, override: Section, env: Environment): Result<Value, PrepareError> {
    var merged := Mapping(MergeSections(base, override));
    if Leaks(merged, false) then Err(LiteralSecret)
    else
      var resolved := Resolve(merged, env);
      if resolved.None? then Err(MissingVariable) else Ok(resolved.value)
  }

  // ---------- merging and resolving ----------

  /** The part of the base that shows through a merge. */
  function ShowingThrough(base: Value, override: Value): Value
    decreases override
  {
    if base.Mapping? && override.Mapping? then
      Mapping(map k | k in base.entries ::
        if k in override.entries then ShowingThrough(base.entries[k], override.entries[k])
        else base.entries[k])
    else
      Null
  }

  /** Preparing succeeds exactly when the override and the part of the base that survives it resolve and hold no
      literal secret; the secrets are looked for first, and what is overridden does no harm. */
  lemma PrepareSucceedsIff(base: Section, override: Section, env: Environment)
    ensures var surviving, over := ShowingThrough(Mapping(base), Mapping(override)), Mapping(override);
      && (PrepareConfig(base, override, env) == Err(LiteralSecret) <==> Leaks(over, false) || Leaks(surviving, false))
      && (PrepareConfig(base, override, env).Ok? <==>
            && !Leaks(over, false) && !Leaks(surviving, false)
            && Resolve(over, env).Some? && Resolve(surviving, env).Some?)
  {
    hide Merge, Resolve, Leaks, ShowingThrough;
    LeaksMergeIff(Mapping(base), Mapping(override), false);
    ResolveMergeIff(Mapping(base), Mapping(override), env);
    MergedIsMapping(base, override);
  }

  /** A merged document leaks exactly when the override or the part of the base that survives it does. */
  lemma {:induction false} LeaksMergeIff(base: Value, override: Value, sensitive: bool)
    ensures Leaks(Merge(base, override), sensitive) <==>
      Leaks(override, sensitive) || Leaks(ShowingThrough(base, override), sensitive)
    decreases override
  {
    hide SensitiveKey, Refused;
    if base.Mapping? && override.Mapping? {
      var merged, surviving := Merge(base, override).entries, ShowingThrough(base, override).entries;
      forall k | k in base.entries && k in override.entries
        ensures Leaks(merged[k], sensitive || SensitiveKey(k)) <==>
          || Leaks(override.entries[k], sensitive || SensitiveKey(k))
          || Leaks(surviving[k], sensitive || SensitiveKey(k))
      {
        LeaksMergeIff(base.entries[k], override.entries[k], sensitive || SensitiveKey(k));
      }
      EntriesLeak(merged, surviving, override.entries, sensitive);
    }
  }

  /** One set of entries leaks exactly when one of two others does, if this holds entry by entry. */
  lemma EntriesLeak(merged: Section, surviving: Section, over: Section, sensitive: bool)
    requires merged.Keys == surviving.Keys + over.Keys
    requires forall k :: k in merged ==>
      (Leaks(merged[k], sensitive || SensitiveKey(k)) <==>
         || (k in over && Leaks(over[k], sensitive || SensitiveKey(k)))
         || (k in surviving && Leaks(surviving[k], sensitive || SensitiveKey(k))))
    ensures Leaks(Mapping(merged), sensitive) <==>
      Leaks(Mapping(over), sensitive) || Leaks(Mapping(surviving), sensitive)
  {
    hide SensitiveKey, Refused;
  }

  lemma {:induction false} ResolveMergeIff(base: Value, override: Value, env: Environment)
    ensures Resolve(Merge(base, override), env).Some? <==>
      Resolve(override, env).Some? && Resolve(ShowingThrough(base, override), env).Some?
    decreases override
  {
    if base.Mapping? && override.Mapping? {
      forall k | k in base.entries && k in override.entries
        ensures Resolve(Merge(base.entries[k], override.entries[k]), env).Some? <==>
          && Resolve(override.entries[k], env).Some?
          && Resolve(ShowingThrough(base.entries[k], override.entries[k]), env).Some?
      {
        ResolveMergeIff(base.entries[k], override.entries[k], env);
      }
      EntriesResolve(Merge(base, override).entries, env);
      EntriesResolve(ShowingThrough(base, override).entries, env);
      EntriesResolve(override.entries, env);
      if Resolve(Merge(base, override), env).Some? {
        forall k | k in override.entries ensures Resolve(override.entries[k], env).Some? {
          assert k in Merge(base, override).entries;
        }
        forall k | k in base.entries ensures Resolve(ShowingThrough(base, override).entries[k], env).Some? {
          assert k in Merge(base, override).entries;
        }
      } else if Resolve(override, env).Some? && Resolve(ShowingThrough(base, override), env).Some? {
        forall k | k in Merge(base, override).entries ensures Resolve(Merge(base, override).entries[k], env).Some? {
          assert k in base.entries ==> k in ShowingThrough(base, override).entries;
        }
        assert false;
      }
    }
  }

  lemma EntriesResolve(entries: Section, env: Environment)
    ensures Resolve(Mapping(entries), env).Some? <==> forall k :: k in entries ==> Resolve(entries[k], env).Some?
  {
  }

  /** When both documents resolve on their own, preparing refuses a literal secret that is left after merging, and
      otherwise gives the merge of the two resolved documents. */
  lemma PrepareCommutes(base: Section, override: Section, env: Environment)
    requires Resolve(Mapping(base), env).Some? && Resolve(Mapping(override), env).Some?
    ensures PrepareConfig(base, override, env) ==
      if Leaks(Mapping(override), false) || Leaks(ShowingThrough(Mapping(base), Mapping(override)), false)
      then Err(LiteralSecret)
      else Ok(Merge(Resolve(Mapping(base), env).value, Resolve(Mapping(override), env).value))
  {
    hide Merge, Resolve, Leaks, ShowingThrough;
    PrepareSucceedsIff(base, override, env);
    ResolveCommutesWithMerge(Mapping(base), Mapping(override), env);
    MergedIsMapping(base, override);
  }

  lemma {:induction false} ResolveCommutesWithMerge(base: Value, override: Value, env: Environment)
    requires Resolve(base, env).Some? && Resolve(override, env).Some?
    ensures Resolve(Merge(base, override), env)
      == Some(Merge(Resolve(base, env).value, Resolve(override, env).value))
    decreases override
  {
    ResolveKeepsShape(base, env);
    ResolveKeepsShape(override, env);
    if base.Mapping? && override.Mapping? {
      hide SameShape;
      forall k | k in base.entries && k in override.entries
        ensures Resolve(Merge(base.entries[k], override.entries[k]), env)
          == Some(Merge(Resolve(base.entries[k], env).value, Resolve(override.entries[k], env).value))
      {
        EntriesResolve(base.entries, env);
        EntriesResolve(override.entries, env);
        ResolveCommutesWithMerge(base.entries[k], override.entries[k], env);
      }
      CommutesByKey(base.entries, override.entries, env);
    }
  }

  lemma CommutesByKey(base: Section, override: Section, env: Environment)
    requires Resolve(Mapping(base), env).Some? && Resolve(Mapping(override), env).Some?
    requires forall k :: k in base && k in override ==>
      Resolve(base[k], env).Some? && Resolve(override[k], env).Some?
      && Resolve(Merge(base[k], override[k]), env)
        == Some(Merge(Resolve(base[k], env).value, Resolve(override[k], env).value))
    ensures Resolve(Merge(Mapping(base), Mapping(override)), env)
      == Some(Merge(Resolve(Mapping(base), env).value, Resolve(Mapping(override), env).value))
  {
    hide ResolveString;
    var merged := Merge(Mapping(base), Mapping(override)).entries;
    forall k | k in merged ensures Resolve(merged[k], env).Some? {
      if k in base && k in override {
        assert merged[k] == Merge(base[k], override[k]);
      }
    }
    var left := Resolve(Mapping(merged), env).value.entries;
    var right := Merge(Resolve(Mapping(base), env).value, Resolve(Mapping(override), env).value).entries;
    assert left.Keys == right.Keys;
    forall k | k in left ensures left[k] == right[k] {
      if k in base && k in override {
        assert merged[k] == Merge(base[k], override[k]);
      }
    }
    assert left == right;
  }

  /** A secret that stands literally under a sensitive key is refused, in whichever document it survives. */
  lemma LiteralSecretRefused(key: Key, text: string, env: Environment)
    requires SensitiveKey(key) && Refused(text)
    ensures PrepareConfig(map[key := Str(text)], map[], env) == Err(LiteralSecret)
    ensures PrepareConfig(map[], map[key := Str(text)], env) == Err(LiteralSecret)
    ensures PrepareConfig(map[key := Str(text)], map[key := Null], env).Ok?
  {
    hide SensitiveKey, Refused;
    var secret: Section := map[key := Str(text)];
    assert Leaks(secret[key], SensitiveKey(key));
    assert MergeSections(secret, map[]) == secret;
    assert MergeSections(map[], secret) == secret;
    Overridden(key, Str(text));
    var over: Section := map[key := Null];
    assert over[key] == Null && !Leaks(Null, SensitiveKey(key));
    EntriesResolve(over, env);
  }

  lemma Overridden(key: Key, value: Value)
    ensures MergeSections(map[key := value], map[key := Null]) == map[key := Null]
  {
    var merged := MergeSections(map[key := value], map[key := Null]);
    assert merged.Keys == {key};
    assert merged[key] == Merge(value, Null);
  }
}
