/** The values a configuration document is made of, and the results operations on them return. */
module Values {
  import opened Keys
  import opened Text

  datatype Option<+T> = None | Some(value: T)

  datatype Result<+T, +E> = Ok(value: T) | Err(error: E)

  /** A loaded configuration value: `Sequence` is a Python list, `Tuple` a tuple, `Mapping` a dict. */
  datatype Value =
    | Null
    | Bool(flag: bool)
    | Number(number: real)
    | Str(text: string)
    | Sequence(items: seq<Value>)
    | Tuple(items: seq<Value>)
    | Mapping(entries: Section)

  type Section = map<Key, Value>

  type Sections = map<Key, Section>

  /** `section.get(key)`, with None and a missing key both absent. */
  function Get(section: Section, key: Key): Value {
    if key in section then section[key] else Null
  }

  /** `dict(x) if isinstance(x, Mapping) else {}`. */
  function SectionOrEmpty(value: Value): Section {
    if value.Mapping? then value.entries else map[]
  }

  /** Python's `bool(value)`. */
  predicate Truthy(value: Value) {
    match value
    case Null => false
    case Bool(b) => b
    case Number(n) => n != 0.0
    case Str(s) => s != ""
    case Sequence(items) => items != []
    case Tuple(items) => items != []
    case Mapping(entries) => entries != map[]
  }

  /** What counts as false: null, false, zero, and everything empty. */
  lemma TruthyIff(value: Value)
    ensures !Truthy(value) <==>
      value in {Null, Bool(false), Number(0.0), Str(""), Sequence([]), Tuple([]), Mapping(map[])}
  {
  }

  predicate HasNonBlank(value: Value) {
    value.Str? && Strip(value.text) != ""
  }

  /** The entries of a mapping that are themselves mappings. */
  function MappingsIn(value: Value): Sections {
    if value.Mapping? then
      map k | k in value.entries && value.entries[k].Mapping? :: value.entries[k].entries
    else
      map[]
  }

  function SectionOf(sections: Sections, key: Key): Section {
    if key in sections then sections[key] else map[]
  }

  function MappingOf(sections: Sections): (value: Value)
    ensures value.Mapping?
  {
    Mapping(map k | k in sections :: Mapping(sections[k]))
  }

  lemma MappingsInMappingOf(sections: Sections)
    ensures MappingsIn(MappingOf(sections)) == sections
  {
  }

  /** The value reached by following keys from the root, if every step is defined. */
  function Lookup(value: Value, path: seq<Key>): Option<Value>
    decreases |path|
  {
    if path == [] then Some(value)
    else if value.Mapping? && path[0] in value.entries then Lookup(value.entries[path[0]], path[1..])
    else None
  }
}
