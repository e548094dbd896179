/** The read-only view of a validated configuration: freezing, dotted lookup, sections. */
module ConfigView {
  import opened Keys
  import opened Values

  /** A frozen value: `Proxy` is a read-only mapping. */
  datatype Frozen =
    | Scalar(value: Value)
    | FrozenTuple(items: seq<Frozen>)
    | Proxy(entries: map<Key, Frozen>)

  const NONE := Scalar(Null)

  function Freeze(value: Value): Frozen {
    match value
    case Mapping(entries) => Proxy(map k | k in entries :: Freeze(entries[k]))
    case Sequence(items) => FrozenTuple(seq(|items|, i requires 0 <= i < |items| => Freeze(items[i])))
    case Tuple(items) => FrozenTuple(seq(|items|, i requires 0 <= i < |items| => Freeze(items[i])))
    case _ => Scalar(value)
  }

  function Unfreeze(frozen: Frozen): Value {
    match frozen
    case Proxy(entries) => Mapping(map k | k in entries :: Unfreeze(entries[k]))
    case FrozenTuple(items) => Sequence(seq(|items|, i requires 0 <= i < |items| => Unfreeze(items[i])))
    case Scalar(value) => value
  }

  predicate TupleFree(value: Value) {
    match value
    case Mapping(entries) => forall k :: k in entries ==> TupleFree(entries[k])
    case Sequence(items) => forall i :: 0 <= i < |items| ==> TupleFree(items[i])
    case Tuple(_) => false
    case _ => true
  }

  /** Thawing gives back exactly the values without tuples; a tuple comes back as a list. */
  lemma {:induction false} UnfreezeFreezeIff(value: Value)
    ensures Unfreeze(Freeze(value)) == value <==> TupleFree(value)
  {
    match value
    case Mapping(entries) =>
      forall k | k in entries ensures Unfreeze(Freeze(entries[k])) == entries[k] <==> TupleFree(entries[k]) {
        UnfreezeFreezeIff(entries[k]);
      }
      var thawed := Unfreeze(Freeze(value)).entries;
      assert thawed.Keys == entries.Keys;
      assert forall k :: k in entries ==> thawed[k] == Unfreeze(Freeze(entries[k]));
      if TupleFree(value) {
        assert thawed == entries;
      }
    case Sequence(items) =>
      forall i | 0 <= i < |items| ensures Unfreeze(Freeze(items[i])) == items[i] <==> TupleFree(items[i]) {
        UnfreezeFreezeIff(items[i]);
      }
      var thawed := Unfreeze(Freeze(value)).items;
      assert forall i :: 0 <= i < |items| ==> thawed[i] == Unfreeze(Freeze(items[i]));
      if TupleFree(value) {
        assert thawed == items;
      }
    case Tuple(_) =>
    case _ =>
  }

  // ---------- lookup ----------

  /** A plugin of an `agents`-like section, reached without naming `plugins`. */
  function PluginCompatibility(entries: map<Key, Frozen>, part: Key): Option<Frozen> {
    if Known(Plugins) !in entries || !entries[Known(Plugins)].Proxy? then None
    else if part in {Known(Defaults), Known(Plugins)} then None
    else
      var plugins := entries[Known(Plugins)].entries;
      if part in plugins && plugins[part] != NONE then Some(plugins[part]) else None
  }

  function Step(current: Frozen, part: Key): Option<Frozen> {
    if !current.Proxy? then None
    else if part in current.entries then Some(current.entries[part])
    else PluginCompatibility(current.entries, part)
  }

  /** Follows the parts from a value; None where the lookup falls back to its default. */
  function Follow(current: Frozen, parts: seq<Key>): Option<Frozen>
    decreases |parts|
  {
    if parts == [] then Some(current)
    else
      var next := Step(current, parts[0]);
      if next.None? then None else Follow(next.value, parts[1..])
  }

  /** Following a path is following its beginning and then its end. */
  lemma {:induction false} FollowAppend(current: Frozen, first: seq<Key>, second: seq<Key>)
    ensures Follow(current, first + second) ==
      if Follow(current, first).None? then None else Follow(Follow(current, first).value, second)
    decreases |first|
  {
    if first == [] {
      assert first + second == second;
    } else {
      assert (first + second)[0] == first[0] && (first + second)[1..] == first[1..] + second;
      if Step(current, first[0]).Some? {
        FollowAppend(Step(current, first[0]).value, first[1..], second);
      }
    }
  }

  // ---------- the same lookup in the original ----------

  predicate HasPlugins(value: Value) {
    value.Mapping? && Known(Plugins) in value.entries && value.entries[Known(Plugins)].Mapping?
  }

  /** One step in the original: the direct entry, or else a plugin of that name that is not null. */
  function OriginalStep(value: Value, part: Key): Option<Value> {
    if !value.Mapping? then None
    else if part in value.entries then Some(value.entries[part])
    else if !HasPlugins(value) || part in {Known(Defaults), Known(Plugins)} then None
    else
      var plugins := value.entries[Known(Plugins)].entries;
      if part in plugins && plugins[part] != Null then Some(plugins[part]) else None
  }

  /** What a path leads to in the original. */
  function Walk(value: Value, path: seq<Key>): Option<Value>
    decreases |path|
  {
    if path == [] then Some(value)
    else
      var next := OriginalStep(value, path[0]);
      if next.None? then None else Walk(next.value, path[1..])
  }

  function FreezeFound(found: Option<Value>): Option<Frozen> {
    if found.None? then None else Some(Freeze(found.value))
  }

  lemma StepFreezes(value: Value, part: Key)
    ensures Step(Freeze(value), part) == FreezeFound(OriginalStep(value, part))
  {
    assert Freeze(Null) == NONE;
    assert forall other: Value :: Freeze(other) == NONE ==> other == Null;
  }

  /** Any lookup in the frozen view finds exactly what the same lookup finds in the original, frozen. */
  lemma {:induction false} FrozenLookupIs(value: Value, path: seq<Key>)
    ensures Follow(Freeze(value), path) == FreezeFound(Walk(value, path))
    decreases |path|
  {
    hide Freeze, Step, OriginalStep;
    if path != [] {
      StepFreezes(value, path[0]);
      if OriginalStep(value, path[0]).Some? {
        FrozenLookupIs(OriginalStep(value, path[0]).value, path[1..]);
      }
    }
  }

  /** The path with `plugins` put in wherever a plugin is reached without naming it. */
  function Spelled(value: Value, path: seq<Key>): seq<Key>
    decreases |path|
  {
    if path == [] || OriginalStep(value, path[0]).None? then path
    else
      var named := if path[0] in value.entries then [path[0]] else [Known(Plugins), path[0]];
      named + Spelled(OriginalStep(value, path[0]).value, path[1..])
  }

  /** What the lookup finds is what the original holds at the path spelled out. */
  lemma {:induction false} WalkIsLookup(value: Value, path: seq<Key>)
    requires Walk(value, path).Some?
    ensures Lookup(value, Spelled(value, path)) == Walk(value, path)
    decreases |path|
  {
    if path != [] {
      var next := OriginalStep(value, path[0]).value;
      WalkIsLookup(next, path[1..]);
      var rest := Spelled(next, path[1..]);
      if path[0] in value.entries {
        assert ([path[0]] + rest)[1..] == rest;
      } else {
        var long := [Known(Plugins), path[0]] + rest;
        assert long[1..] == [path[0]] + rest && long[1..][1..] == rest;
        assert Lookup(value, long) == Lookup(value.entries[Known(Plugins)], long[1..]);
      }
    }
  }

  /** What is literally at a path is what the lookup finds there. */
  lemma {:induction false} LookupIsWalk(value: Value, path: seq<Key>)
    requires Lookup(value, path).Some?
    ensures Walk(value, path) == Lookup(value, path)
    decreases |path|
  {
    if path != [] {
      LookupIsWalk(value.entries[path[0]], path[1..]);
    }
  }

  /** Whatever is in the original at a path is in the frozen view at that path. */
  lemma FrozenLookupAgrees(value: Value, path: seq<Key>)
    requires Lookup(value, path).Some?
    ensures Follow(Freeze(value), path) == Some(Freeze(Lookup(value, path).value))
  {
    LookupIsWalk(value, path);
    FrozenLookupIs(value, path);
  }

  /** A path that meets no `plugins` section finds nothing but what the original has. */
  lemma FrozenLookupOnly(value: Value, path: seq<Key>)
    requires Lookup(value, path).None?
    requires forall i :: 0 <= i < |path| && Lookup(value, path[..i]).Some? ==>
      !HasPlugins(Lookup(value, path[..i]).value)
    ensures Follow(Freeze(value), path) == None
  {
    WalkFindsNothingElse(value, path);
    FrozenLookupIs(value, path);
  }

  lemma {:induction false} WalkFindsNothingElse(value: Value, path: seq<Key>)
    requires Lookup(value, path).None?
    requires forall i :: 0 <= i < |path| && Lookup(value, path[..i]).Some? ==>
      !HasPlugins(Lookup(value, path[..i]).value)
    ensures Walk(value, path) == None
    decreases |path|
  {
    assert path[..0] == [];
    if path != [] && value.Mapping? && path[0] in value.entries {
      forall i | 0 <= i < |path| - 1 && Lookup(value.entries[path[0]], path[1..][..i]).Some?
        ensures !HasPlugins(Lookup(value.entries[path[0]], path[1..][..i]).value)
      {
        assert path[..i + 1][1..] == path[1..][..i] && path[..i + 1][0] == path[0];
        assert Lookup(value, path[..i + 1]) == Lookup(value.entries[path[0]], path[1..][..i]);
      }
      WalkFindsNothingElse(value.entries[path[0]], path[1..]);
    }
  }

  /** Under a section with plugins, `X.rest` and `plugins.X.rest` mean the same for a plugin X that the section
      does not also have as a direct key, exactly when the plugin is not null or something follows it. */
  lemma PluginPathsAgreeIff(root: Frozen, prefix: seq<Key>, x: Key, rest: seq<Key>)
    requires Follow(root, prefix).Some? && Follow(root, prefix).value.Proxy?
    requires var section := Follow(root, prefix).value.entries;
      && x !in section && x !in {Known(Defaults), Known(Plugins)}
      && Known(Plugins) in section && section[Known(Plugins)].Proxy? && x in section[Known(Plugins)].entries
    ensures var plugin := Follow(root, prefix).value.entries[Known(Plugins)].entries[x];
      (Follow(root, prefix + ([x] + rest)) == Follow(root, prefix + ([Known(Plugins), x] + rest)))
      <==> (plugin != NONE || rest != [])
  {
    var section := Follow(root, prefix).value;
    FollowAppend(root, prefix, [x] + rest);
    FollowAppend(root, prefix, [Known(Plugins), x] + rest);
    var long := [Known(Plugins), x] + rest;
    assert ([x] + rest)[1..] == rest && long[1..] == [x] + rest && long[1..][1..] == rest;
    assert Follow(section, long) == Follow(section.entries[Known(Plugins)].entries[x], rest);
  }

  // ---------- dotted paths ----------

  /** `path.split(".")`. */
  function Split(path: string): (parts: seq<string>)
    ensures parts != []
  {
    if path == "" then [""]
    else
      var rest := Split(path[1..]);
      if path[0] == '.' then [""] + rest else [[path[0]] + rest[0]] + rest[1..]
  }

  /** Joining two paths with a dot joins their parts. */
  lemma {:induction false} SplitJoin(first: string, second: string)
    ensures Split(first + "." + second) == Split(first) + Split(second)
  {
    if first == "" {
      assert first + "." + second == "." + second && ("." + second)[1..] == second;
    } else {
      var whole := first + "." + second;
      assert whole[0] == first[0] && whole[1..] == first[1..] + "." + second;
      SplitJoin(first[1..], second);
    }
  }

  lemma {:induction false} SplitWord(word: string)
    requires '.' !in word
    ensures Split(word) == [word]
  {
    if word != "" {
      SplitWord(word[1..]);
      assert word[0] != '.' && [word[0]] + word[1..] == word;
    }
  }

  function KeysOf(parts: seq<string>): (keys: seq<Key>)
    ensures |keys| == |parts|
  {
    seq(|parts|, i requires 0 <= i < |parts| => KeyOf(parts[i]))
  }

  function PathOf(path: string): seq<Key> {
    KeysOf(Split(path))
  }

  lemma PathJoin(first: string, second: string)
    ensures PathOf(first + "." + second) == PathOf(first) + PathOf(second)
  {
    hide Split, KeysOf;
    SplitJoin(first, second);
    KeysJoin(Split(first), Split(second));
  }

  lemma KeysJoin(first: seq<string>, second: seq<string>)
    ensures KeysOf(first + second) == KeysOf(first) + KeysOf(second)
  {
    hide KeyOf;
  }

  lemma PathWord(word: string)
    requires '.' !in word
    ensures PathOf(word) == [KeyOf(word)]
  {
    SplitWord(word);
  }

  datatype ConfigError = MissingPath(path: string) | NotASection(path: string)

  /** The view over frozen values. */
  class ConfigurationView {
    const values: Frozen

    constructor (values: Section)
      ensures this.values == Freeze(Mapping(values))
    {
      this.values := Freeze(Mapping(values));
    }

    /** What a dotted path leads to. */
    function At(path: string): Option<Frozen> {
      if path == "" then Some(values) else Follow(values, PathOf(path))
    }

    method Get(path: string, default: Frozen) returns (found: Frozen)
      ensures found == if At(path).Some? then At(path).value else default
    {
      if path == "" {
        return values;
      }
      var parts := PathOf(path);
      found := values;
      for i := 0 to |parts|
        invariant Follow(found, parts[i..]) == Follow(values, parts)
      {
        assert parts[i..][1..] == parts[i + 1..];
        if !found.Proxy? {
          return default;
        }
        if parts[i] in found.entries {
          found := found.entries[parts[i]];
          continue;
        }
        var compatible := PluginCompatibility(found.entries, parts[i]);
        if compatible.None? {
          return default;
        }
        found := compatible.value;
      }
    }

    /** A required value; a null counts as missing. */
    method Require(path: string) returns (found: Result<Frozen, ConfigError>)
      ensures found.Ok? <==> At(path).Some? && At(path).value != NONE
      ensures found.Ok? ==> At(path) == Some(found.value)
      ensures found.Err? ==> found.error == MissingPath(path)
    {
      var value := Get(path, NONE);
      if value == NONE {
        return Err(MissingPath(path));
      }
      return Ok(value);
    }

    /** A required section, thawed. */
    method Section(path: string) returns (section: Result<Value, ConfigError>)
      ensures section.Ok? <==> At(path).Some? && At(path).value.Proxy?
      ensures section.Ok? ==> section.value == Unfreeze(At(path).value)
      ensures section == Err(MissingPath(path)) <==> At(path).None? || At(path).value == NONE
      ensures section == Err(NotASection(path)) <==>
        At(path).Some? && At(path).value != NONE && !At(path).value.Proxy?
    {
      var value := Require(path);
      if value.Err? {
        return Err(value.error);
      }
      if !value.value.Proxy? {
        return Err(NotASection(path));
      }
      return Ok(Unfreeze(value.value));
    }
  }

  /** What a dotted path leads to in the original. */
  function OriginalAt(values: Section, path: string): Option<Value> {
    if path == "" then Some(Mapping(values)) else Walk(Mapping(values), PathOf(path))
  }

  /** Any dotted lookup in the view finds exactly what the same lookup finds in the original; and thawed it is the
      original value exactly when this holds no tuple. */
  lemma DottedLookupIs(view: ConfigurationView, values: Section, path: string)
    requires view.values == Freeze(Mapping(values))
    ensures view.At(path) == FreezeFound(OriginalAt(values, path))
    ensures OriginalAt(values, path).Some? ==>
      (Unfreeze(view.At(path).value) == OriginalAt(values, path).value <==> TupleFree(OriginalAt(values, path).value))
  {
    hide Follow, Walk, PathOf, Freeze, Unfreeze, TupleFree;
    FrozenLookupIs(Mapping(values), PathOf(path));
    if OriginalAt(values, path).Some? {
      UnfreezeFreezeIff(OriginalAt(values, path).value);
    }
  }

  /** Reading a section of a configuration without tuples through the view gives that section itself. */
  lemma SectionReadsOriginal(view: ConfigurationView, values: Section, path: string)
    requires view.values == Freeze(Mapping(values)) && path != ""
    requires Lookup(Mapping(values), PathOf(path)).Some?
    requires TupleFree(Lookup(Mapping(values), PathOf(path)).value)
    ensures view.At(path).Some? && Unfreeze(view.At(path).value) == Lookup(Mapping(values), PathOf(path)).value
  {
    hide PathOf, Freeze, Unfreeze, TupleFree;
    LookupIsWalk(Mapping(values), PathOf(path));
    DottedLookupIs(view, values, path);
  }

  /** In dotted form: `agents.X.rest` reads what `agents.plugins.X.rest` reads, for a plugin X that is not null
      and no direct key of the section. */
  lemma DottedPluginPathsAgree(view: ConfigurationView, agents: string, x: string, rest: string)
    requires '.' !in x && KeyOf(x) !in {Known(Defaults), Known(Plugins)}
    requires Follow(view.values, PathOf(agents)).Some? && Follow(view.values, PathOf(agents)).value.Proxy?
    requires var section := Follow(view.values, PathOf(agents)).value.entries;
      && KeyOf(x) !in section && Known(Plugins) in section && section[Known(Plugins)].Proxy?
      && KeyOf(x) in section[Known(Plugins)].entries && section[Known(Plugins)].entries[KeyOf(x)] != NONE
    ensures view.At(agents + "." + (x + "." + rest)) == view.At(agents + "." + ("plugins" + "." + (x + "." + rest)))
  {
    hide Follow, PathOf, KeyOf;
    PathJoin(agents, x + "." + rest);
    PathJoin(agents, "plugins" + "." + (x + "." + rest));
    PathJoin("plugins", x + "." + rest);
    PathJoin(x, rest);
    PathWord(x);
    PluginsPath();
    PluginPathsAgreeIff(view.values, PathOf(agents), KeyOf(x), PathOf(rest));
    assert [Known(Plugins)] + ([KeyOf(x)] + PathOf(rest)) == [Known(Plugins), KeyOf(x)] + PathOf(rest);
  }

  lemma PluginsPath()
    ensures PathOf("plugins") == [Known(Plugins)]
  {
    hide PathOf, KeyOf;
    PluginsKey("plugins");
    PathWord("plugins");
  }

  lemma PluginsKey(name: string)
    requires name == FieldName(Plugins)
    ensures KeyOf(name) == Known(Plugins)
  {
    hide KeyAmong, FieldName;
  }
}
