/** Configuration sections seen as entries under the known names. */
module Fields {
  import opened Keys
  import opened Text
  import opened Values

  /** The entry of a field, if there is one. */
  function Entry(section: Section, field: Field): Option<Value> {
    if Known(field) in section then Some(section[Known(field)]) else None
  }

  /** `section.get(key, default)`. */
  function AtOr(section: Section, field: Field, default: Value): Value {
    match Entry(section, field)
    case Some(value) => value
    case None => default
  }

  /** `section.get(key)`, with None and a missing key both absent. */
  function At(section: Section, field: Field): Value {
    AtOr(section, field, Null)
  }

  /** The first that is there. */
  function First(one: Option<Value>, other: Option<Value>): Option<Value> {
    if one.Some? then one else other
  }

  /** The stripped text of a non-blank string entry. */
  function TextAt(section: Section, field: Field): Option<string> {
    if HasNonBlank(At(section, field)) then Some(Strip(At(section, field).text)) else None
  }

  /** `{}`. */
  function Empty(): (r: Section)
    ensures forall field :: Entry(r, field) == None
    ensures KnownOnly(r)
  {
    map[]
  }

  /** `section[key] = value`. */
  function Put(section: Section, field: Field, value: Value): (r: Section)
    ensures forall other ::
      Entry(r, other) == if other == field then Some(value) else Entry(section, other)
    ensures r != map[]
    ensures KnownOnly(section) ==> KnownOnly(r)
  {
    assert Known(field) in section[Known(field) := value];
    section[Known(field) := value]
  }

  /** `section.setdefault(key, value)`. */
  function PutDefault(section: Section, field: Field, value: Value): (r: Section)
    ensures Entry(r, field) == if Entry(section, field).Some? then Entry(section, field) else Some(value)
    ensures forall other :: other != field ==> Entry(r, other) == Entry(section, other)
    ensures Entry(section, field).Some? ==> r == section
    ensures r != map[]
  {
    if Entry(section, field).Some? then section else Put(section, field, value)
  }

  lemma PutSame(section: Section, field: Field, value: Value)
    requires Entry(section, field) == Some(value)
    ensures Put(section, field, value) == section
  {
  }

  /** `if to not in target and from in source: target[to] = source[from]`. */
  function FillFrom(target: Section, to: Field, source: Section, from: Field): (r: Section)
    ensures target != map[] ==> r != map[]
    ensures Entry(r, to) == if Entry(target, to).Some? then Entry(target, to) else Entry(source, from)
    ensures forall other :: other != to ==> Entry(r, other) == Entry(target, other)
  {
    if Entry(target, to).None? && Entry(source, from).Some? then Put(target, to, At(source, from)) else target
  }

  /** `if from in source: target[to] = source[from]`. */
  function CopyTo(target: Section, to: Field, source: Section, from: Field): (r: Section)
    ensures target != map[] ==> r != map[]
    ensures Entry(source, from).None? ==> r == target
    ensures Entry(r, to) == if Entry(source, from).Some? then Entry(source, from) else Entry(target, to)
    ensures forall other :: other != to ==> Entry(r, other) == Entry(target, other)
  {
    if Entry(source, from).Some? then Put(target, to, At(source, from)) else target
  }

  /** The mapping under a field, or an empty one. */
  function SectionAt(section: Section, field: Field): Section {
    SectionOrEmpty(At(section, field))
  }

  /** `if content: section[key] = content`. */
  function PutUnlessEmpty(section: Section, field: Field, content: Section): (r: Section)
    ensures SectionAt(r, field) == if content != map[] then content else SectionAt(section, field)
    ensures forall other :: other != field ==> Entry(r, other) == Entry(section, other)
    ensures content != map[] || section != map[] ==> r != map[]
    ensures content == map[] ==> r == section
  {
    if content != map[] then Put(section, field, Mapping(content)) else section
  }

  lemma PutUnlessEmptySame(section: Section, field: Field)
    ensures PutUnlessEmpty(section, field, SectionAt(section, field)) == section
  {
    if SectionAt(section, field) != map[] {
      PutSame(section, field, At(section, field));
    }
  }

  /** `section.pop(key, None)`. */
  function Drop(section: Section, field: Field): (r: Section)
    ensures forall other ::
      Entry(r, other) == if other == field then None else Entry(section, other)
    ensures KnownOnly(section) ==> KnownOnly(r)
  {
    section - {Known(field)}
  }

  /** For each of the fields, `target[key] = source[key]` unless that is None. */
  function CopyPresent(target: Section, source: Section, fields: set<Field>): (r: Section)
    ensures forall other ::
      Entry(r, other) ==
        if other in fields && At(source, other) != Null then Some(At(source, other)) else Entry(target, other)
    ensures KnownOnly(target) ==> KnownOnly(r)
  {
    target + map field | field in fields && At(source, field) != Null :: Known(field) := At(source, field)
  }

  /** Every key of the section is a known one. */
  ghost predicate KnownOnly(section: Section) {
    forall key :: key in section ==> key.Known?
  }

  /** The entries under all other names. */
  ghost function NamedOf(section: Section): Section {
    map key | key in section && key.Named? :: section[key]
  }

  /** Writing or dropping a field leaves them alone. */
  lemma NamedKept()
    ensures forall section: Section, field, value :: NamedOf(Put(section, field, value)) == NamedOf(section)
    ensures forall section: Section, field :: NamedOf(Drop(section, field)) == NamedOf(section)
  {
    forall section: Section, field, value ensures NamedOf(Put(section, field, value)) == NamedOf(section) {
      assert forall key: Key :: key.Named? ==> (key in Put(section, field, value) <==> key in section);
    }
  }

  // ---------- equal entries read the same ----------

  lemma AtKept(one: Section, other: Section, field: Field)
    requires Entry(one, field) == Entry(other, field)
    ensures At(one, field) == At(other, field)
  {
  }

  lemma SectionKept(one: Section, other: Section, field: Field)
    requires Entry(one, field) == Entry(other, field)
    ensures SectionAt(one, field) == SectionAt(other, field)
  {
  }

  lemma TextKept(one: Section, other: Section, field: Field)
    requires Entry(one, field) == Entry(other, field)
    ensures TextAt(one, field) == TextAt(other, field)
  {
  }
}
