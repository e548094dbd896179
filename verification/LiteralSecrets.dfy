/** Literal secrets in a configuration document: text under a sensitive key that is neither a reference to the
    environment nor a known placeholder. */
module LiteralSecrets {
  import opened EnvResolver
  import opened Keys
  import opened Text
  import opened Values

  // ---------- sensitive keys and harmless texts ----------

  const SENSITIVE_KEY_PARTS: seq<string> := [
    "api_key", "apikey", "auth", "authorization", "bearer", "client_secret", "connection_string", "cookie",
    "credential", "jwt", "key", "password", "refresh_token", "secret", "token"
  ]

  const CONTROL_KEYS: set<string> := {
    "auth_header", "redact_secrets", "expose_secret_values", "max_input_tokens", "max_output_tokens",
    "max_total_tokens", "timezone_metadata_key"
  }

  const DUMMY_SECRETS: set<string> := {
    "dummy", "dummy-key", "test", "test-key", "example", "example-key", "changeme", "replace-me", "placeholder",
    "local-dev-only"
  }

  const DUMMY_PREFIXES: seq<string> := ["dummy-", "test-", "example-", "placeholder-"]

  predicate IsSensitiveName(name: string) {
    var normalized := Lower(Strip(name));
    && normalized != ""
    && normalized !in CONTROL_KEYS
    && exists part :: part in SENSITIVE_KEY_PARTS && Contains(normalized, part)
  }

  /** The key makes everything below it sensitive.  `auth` and `oauth` are sections, not secrets. */
  predicate SensitiveKey(key: Key) {
    var name := NameOf(key);
    !("[" <= name) && name !in {"auth", "oauth"} && IsSensitiveName(name)
  }

  predicate IsDummySecret(text: string) {
    var normalized := Lower(Strip(text));
    normalized in DUMMY_SECRETS || exists prefix :: prefix in DUMMY_PREFIXES && prefix <= normalized
  }

  /** The text may not stand under a sensitive key. */
  predicate Refused(text: string) {
    var literal := Strip(text);
    literal != "" && !HasReference(literal) && !IsDummySecret(literal)
  }

  // ---------- what counts as sensitive, and as harmless ----------

  /** Ten words make a name sensitive; the others on the list contain one of these. */
  ghost predicate HasSensitiveWord(name: string) {
    exists word :: IsSensitiveWord(word) && Contains(name, word)
  }

  ghost predicate IsSensitiveWord(word: string) {
    word in {"auth", "bearer", "connection_string", "cookie", "credential", "jwt", "key", "password", "secret", "token"}
  }

  /** A key is sensitive when its name, stripped and in lower case, contains one of ten words, except for seven names,
      `auth` and `oauth` as they stand, and names that begin with a bracket. */
  lemma SensitiveIff(key: Key)
    ensures SensitiveKey(key) <==>
      var name, normalized := NameOf(key), Lower(Strip(NameOf(key)));
      && HasSensitiveWord(normalized)
      && normalized !in {
           "auth_header", "redact_secrets", "expose_secret_values", "max_input_tokens", "max_output_tokens",
           "max_total_tokens", "timezone_metadata_key"}
      && name != "auth" && name != "oauth" && (name == "" || name[0] != '[')
  {
    hide Lower, Strip, SENSITIVE_KEY_PARTS, HasSensitiveWord;
    var normalized := Lower(Strip(NameOf(key)));
    WordIffPart(normalized);
  }

  lemma WordIffPart(name: string)
    ensures HasSensitiveWord(name) <==> name != "" && exists part :: part in SENSITIVE_KEY_PARTS && Contains(name, part)
  {
    hide Contains;
    if word :| IsSensitiveWord(word) && Contains(name, word) {
      WordIsPart(word);
      assert name != "" by { Longer(name, word); }
    }
    if part :| part in SENSITIVE_KEY_PARTS && Contains(name, part) {
      var word := PartHasWord(part);
      ContainsPart(name, part, word);
    }
  }

  lemma WordIsPart(word: string)
    requires IsSensitiveWord(word)
    ensures word in SENSITIVE_KEY_PARTS && word != ""
  {
    var parts := SENSITIVE_KEY_PARTS;
    assert parts[2] == "auth" && parts[4] == "bearer" && parts[6] == "connection_string" && parts[7] == "cookie";
    assert parts[8] == "credential" && parts[9] == "jwt" && parts[10] == "key" && parts[11] == "password";
    assert parts[13] == "secret" && parts[14] == "token";
  }

  lemma PartHasWord(part: string) returns (word: string)
    requires part in SENSITIVE_KEY_PARTS
    ensures IsSensitiveWord(word) && Contains(part, word)
  {
    var at := 0;
    word := part;
    if part == "api_key" { word, at := "key", 4; }
    if part == "apikey" { word, at := "key", 3; }
    if part == "authorization" { word := "auth"; }
    if part == "client_secret" { word, at := "secret", 7; }
    if part == "refresh_token" { word, at := "token", 8; }
    assert IsAt(part, word, at);
  }

  lemma Longer(text: string, word: string)
    requires Contains(text, word) && word != ""
    ensures text != ""
  {
  }

  lemma ContainsPart(text: string, part: string, word: string)
    requires Contains(text, part) && Contains(part, word)
    ensures Contains(text, word)
  {
    var i :| 0 <= i <= |text| && IsAt(text, part, i);
    var j :| 0 <= j <= |part| && IsAt(part, word, j);
    PartAt(text, part, word, i, j);
  }

  lemma PartAt(text: string, part: string, word: string, i: int, j: int)
    requires IsAt(text, part, i) && IsAt(part, word, j)
    ensures IsAt(text, word, i + j)
  {
    forall k | 0 <= k < |word| ensures text[i + j + k] == word[k] {
      assert text[i..i + |part|][j + k] == part[j + k];
      assert part[j..j + |word|][k] == word[k];
    }
  }

  /** A placeholder: one of seven words, or one of the first four and a hyphen before anything else. */
  ghost predicate IsPlaceholder(text: string) {
    || text in {"dummy", "test", "example", "placeholder", "changeme", "replace-me", "local-dev-only"}
    || HasPrefixWord(text)
  }

  ghost predicate HasPrefixWord(text: string) {
    || "dummy" + "-" <= text || "test" + "-" <= text || "example" + "-" <= text || "placeholder" + "-" <= text
  }

  /** A text is refused exactly when it is not blank, holds no reference and is no placeholder, in any case and with
      spaces around. */
  lemma RefusedIff(text: string)
    ensures Refused(text) <==>
      var literal := Strip(text);
      && literal != "" && !IsPlaceholder(Lower(Strip(literal)))
      && forall i :: 0 <= i < |literal| ==> MatchHead(literal[i..]).None?
  {
    hide Strip, Lower, IsPlaceholder, MatchHead, IsDummySecret;
    PlaceholderIff(Strip(text));
  }

  lemma PlaceholderIff(text: string)
    ensures IsDummySecret(text) <==> IsPlaceholder(Lower(Strip(text)))
  {
    hide Strip, Lower, DUMMY_SECRETS, DUMMY_PREFIXES, IsPlaceholder;
    WordsIff(Lower(Strip(text)));
    PrefixesIff(Lower(Strip(text)));
  }

  lemma WordsIff(text: string)
    ensures text in DUMMY_SECRETS ==> IsPlaceholder(text)
    ensures IsPlaceholder(text) ==> text in DUMMY_SECRETS || HasPrefixWord(text)
    ensures HasPrefixWord(text) ==> IsPlaceholder(text)
  {
    assert "dummy-key"[..6] == "dummy" + "-" && "test-key"[..5] == "test" + "-";
    assert "example-key"[..8] == "example" + "-";
  }

  lemma PrefixesIff(text: string)
    ensures (exists prefix :: prefix in DUMMY_PREFIXES && prefix <= text) <==> HasPrefixWord(text)
  {
    assert DUMMY_PREFIXES[0] == "dummy" + "-" && DUMMY_PREFIXES[1] == "test" + "-";
    assert DUMMY_PREFIXES[2] == "example" + "-" && DUMMY_PREFIXES[3] == "placeholder" + "-";
    if prefix :| prefix in DUMMY_PREFIXES && prefix <= text {
      var i :| 0 <= i < |DUMMY_PREFIXES| && DUMMY_PREFIXES[i] == prefix;
      assert i == 0 || i == 1 || i == 2 || i == 3;
    }
    if HasPrefixWord(text) {
      var i :| 0 <= i < |DUMMY_PREFIXES| && DUMMY_PREFIXES[i] <= text;
      assert DUMMY_PREFIXES[i] in DUMMY_PREFIXES;
    }
  }

  // ---------- the walk ----------

  /** Whether the walk over a document raises, with or without a sensitive key on the way so far. */
  predicate Leaks(value: Value, sensitive: bool) {
    match value
    case Mapping(entries) => exists k :: k in entries && Leaks(entries[k], sensitive || SensitiveKey(k))
    case Sequence(items) => exists i :: 0 <= i < |items| && Leaks(items[i], sensitive)
    case Tuple(items) => exists i :: 0 <= i < |items| && Leaks(items[i], sensitive)
    case Str(text) => sensitive && Refused(text)
    case _ => false
  }

  /** A segment of a configuration path. */
  datatype Segment = Name(key: Key) | Index(at: nat)

  /** The value at a path through mappings, lists and tuples. */
  function Reach(value: Value, path: seq<Segment>): Option<Value>
    decreases |path|
  {
    if path == [] then Some(value)
    else
      match path[0]
      case Name(key) =>
        if value.Mapping? && key in value.entries then Reach(value.entries[key], path[1..]) else None
      case Index(at) =>
        if (value.Sequence? || value.Tuple?) && at < |value.items| then Reach(value.items[at], path[1..]) else None
  }

  predicate HasSensitiveKey(path: seq<Segment>) {
    exists i :: 0 <= i < |path| && path[i].Name? && SensitiveKey(path[i].key)
  }

  /** At the path stands a text that is refused there. */
  predicate SecretAt(value: Value, path: seq<Segment>, sensitive: bool) {
    var found := Reach(value, path);
    found.Some? && found.value.Str? && Refused(found.value.text) && (sensitive || HasSensitiveKey(path))
  }

  /** The walk raises exactly when at some path with a sensitive key stands a text that is refused. */
  lemma {:induction false} LeaksIffSecretAt(value: Value, sensitive: bool)
    ensures Leaks(value, sensitive) <==> exists path :: SecretAt(value, path, sensitive)
    decreases value
  {
    hide SensitiveKey, Refused;
    if Leaks(value, sensitive) {
      var path := PathToSecret(value, sensitive);
    }
    if path :| SecretAt(value, path, sensitive) {
      SecretLeaks(value, path, sensitive);
    }
  }

  lemma {:induction false} PathToSecret(value: Value, sensitive: bool) returns (path: seq<Segment>)
    requires Leaks(value, sensitive)
    ensures SecretAt(value, path, sensitive)
    decreases value
  {
    hide SensitiveKey, Refused;
    match value
    case Mapping(entries) =>
      var k :| k in entries && Leaks(entries[k], sensitive || SensitiveKey(k));
      var rest := PathToSecret(entries[k], sensitive || SensitiveKey(k));
      path := [Name(k)] + rest;
      LongerPath(Name(k), rest);
    case Sequence(items) =>
      var i :| 0 <= i < |items| && Leaks(items[i], sensitive);
      var rest := PathToSecret(items[i], sensitive);
      path := [Index(i)] + rest;
      LongerPath(Index(i), rest);
    case Tuple(items) =>
      var i :| 0 <= i < |items| && Leaks(items[i], sensitive);
      var rest := PathToSecret(items[i], sensitive);
      path := [Index(i)] + rest;
      LongerPath(Index(i), rest);
    case Str(_) =>
      path := [];
  }

  lemma LongerPath(segment: Segment, rest: seq<Segment>)
    ensures HasSensitiveKey([segment] + rest) <==>
      (segment.Name? && SensitiveKey(segment.key)) || HasSensitiveKey(rest)
  {
    hide SensitiveKey;
    var path := [segment] + rest;
    if HasSensitiveKey(rest) {
      var i :| 0 <= i < |rest| && rest[i].Name? && SensitiveKey(rest[i].key);
      assert path[i + 1] == rest[i];
    }
    if segment.Name? && SensitiveKey(segment.key) {
      assert path[0] == segment;
    }
  }

  lemma {:induction false} SecretLeaks(value: Value, path: seq<Segment>, sensitive: bool)
    requires SecretAt(value, path, sensitive)
    ensures Leaks(value, sensitive)
    decreases |path|
  {
    hide SensitiveKey, Refused;
    if path != [] {
      assert path == [path[0]] + path[1..];
      LongerPath(path[0], path[1..]);
      match path[0]
      case Name(key) => SecretLeaks(value.entries[key], path[1..], sensitive || SensitiveKey(key));
      case Index(at) => SecretLeaks(value.items[at], path[1..], sensitive);
    }
  }
}
