/** Resolution of `${env:NAME}` and `${env:NAME:default}` references in configuration values. */
module EnvResolver {
  import opened Keys
  import opened Values

  type Environment = map<string, string>

  // ---------- the reference pattern ----------

  const OPENING := "${env:"

  predicate NameStart(c: char) {
    'A' <= c <= 'Z' || 'a' <= c <= 'z' || c == '_'
  }

  predicate NameChar(c: char) {
    NameStart(c) || '0' <= c <= '9'
  }

  /** By their code points: a name begins with an ASCII letter or an underscore, and goes on with those and digits. */
  lemma NameCharacters(c: char)
    ensures var n := c as int;
      && (NameStart(c) <==> 0x41 <= n <= 0x5A || n == 0x5F || 0x61 <= n <= 0x7A)
      && (NameChar(c) <==> 0x30 <= n <= 0x39 || 0x41 <= n <= 0x5A || n == 0x5F || 0x61 <= n <= 0x7A)
  {
  }

  /** The length of the longest run of name characters at the start of `s`. */
  function NameRun(s: string): (n: nat)
    ensures n <= |s|
    ensures forall i :: 0 <= i < n ==> NameChar(s[i])
    ensures n < |s| ==> !NameChar(s[n])
  {
    if s != "" && NameChar(s[0]) then 1 + NameRun(s[1..]) else 0
  }

  /** The position of the first closing brace, or the length of `s`. */
  function CloseAt(s: string): (n: nat)
    ensures n <= |s|
    ensures forall i :: 0 <= i < n ==> s[i] != '}'
    ensures n < |s| ==> s[n] == '}'
  {
    if s != "" && s[0] != '}' then 1 + CloseAt(s[1..]) else 0
  }

  /** A configured string as the resolver sees it: single characters and references. */
  datatype Piece = Literal(c: char) | Reference(name: string, default: Option<string>)

  function Print(piece: Piece): string {
    match piece
    case Literal(c) => [c]
    case Reference(_, _) => OPENING + Tail(piece)
  }

  /** A reference without its opening. */
  function Tail(piece: Piece): string
    requires piece.Reference?
  {
    piece.name + if piece.default.None? then "}" else ":" + piece.default.value + "}"
  }

  /** The reference that starts `s`, if one does: the pattern match anchored at one position. */
  function MatchHead(s: string): (piece: Option<Piece>)
    ensures piece.Some? ==> piece.value.Reference? && Print(piece.value) <= s
  {
    if OPENING <= s then
      assert s == OPENING + s[6..];
      MatchBody(s[6..])
    else None
  }

  function MatchBody(body: string): (piece: Option<Piece>)
    ensures piece.Some? ==> piece.value.Reference? && Tail(piece.value) <= body
  {
    if body != "" && NameStart(body[0]) then
      var n := NameRun(body);
      if n == |body| then None
      else if body[n] == '}' then
        assert body[..n + 1] == body[..n] + "}";
        Some(Reference(body[..n], None))
      else if body[n] == ':' then
        var text := body[n + 1..];
        var m := CloseAt(text);
        if m == |text| then None
        else
          assert body[..n + 1 + m + 1] == body[..n] + (":" + text[..m] + "}");
          Some(Reference(body[..n], Some(text[..m])))
      else None
    else None
  }

  /** Whether the pattern matches anywhere. */
  predicate HasReference(s: string) {
    exists i :: 0 <= i < |s| && MatchHead(s[i..]).Some?
  }

  // ---------- resolving one string ----------

  /** The text that replaces a reference; a variable that is unset or empty falls back to the default. */
  function Substitute(piece: Piece, env: Environment): Result<string, string> {
    match piece
    case Literal(c) => Ok([c])
    case Reference(name, default) =>
      if name in env && env[name] != "" then Ok(env[name])
      else if default.Some? then Ok(default.value)
      else Err(name)
  }

  /** One scan from left to right; the first reference without a value is the error. */
  function ResolveString(s: string, env: Environment): Result<string, string>
    decreases |s|
  {
    if s == "" then Ok("")
    else
      var piece := HeadPiece(s);
      var text := Substitute(piece, env);
      if text.Err? then text
      else
        var rest := ResolveString(AfterHead(s), env);
        if rest.Err? then rest else Ok(text.value + rest.value)
  }

  function HeadPiece(s: string): (piece: Piece)
    requires s != ""
    ensures Print(piece) <= s && Print(piece) != ""
  {
    var found := MatchHead(s);
    if found.Some? then found.value else Literal(s[0])
  }

  function AfterHead(s: string): (rest: string)
    requires s != ""
    ensures |rest| < |s| && Print(HeadPiece(s)) + rest == s
  {
    s[|Print(HeadPiece(s))|..]
  }

  // ---------- what one scan means ----------

  /** The division of a string into gaps and references, independent of any environment. */
  function Pieces(s: string): seq<Piece>
    decreases |s|
  {
    if s == "" then [] else [HeadPiece(s)] + Pieces(AfterHead(s))
  }

  function PrintAll(pieces: seq<Piece>): string {
    if pieces == [] then "" else Print(pieces[0]) + PrintAll(pieces[1..])
  }

  /** The replacement texts of all pieces side by side, or the first missing variable. */
  function SubstituteAll(pieces: seq<Piece>, env: Environment): Result<string, string> {
    if pieces == [] then Ok("")
    else
      var text := Substitute(pieces[0], env);
      var rest := SubstituteAll(pieces[1..], env);
      if text.Err? then text
      else if rest.Err? then rest
      else Ok(text.value + rest.value)
  }

  /** The pieces make up the whole string, and resolving replaces each of them once, in place: gaps are
      kept and substituted text is never looked at again. */
  lemma {:induction false} ResolvesPieceByPiece(s: string, env: Environment)
    ensures PrintAll(Pieces(s)) == s
    ensures ResolveString(s, env) == SubstituteAll(Pieces(s), env)
    decreases |s|
  {
    if s != "" {
      ResolvesPieceByPiece(AfterHead(s), env);
      assert Pieces(s)[1..] == Pieces(AfterHead(s));
    }
  }

  /** Every match of the pattern makes some piece a reference, and every such piece is a match. */
  lemma {:induction false} ReferenceIffPiece(s: string)
    ensures HasReference(s) <==> exists piece :: piece in Pieces(s) && piece.Reference?
    decreases |s|
  {
    if s != "" {
      var rest := AfterHead(s);
      ReferenceIffPiece(rest);
      assert s[0..] == s;
      if MatchHead(s).Some? {
        assert MatchHead(s[0..]).Some?;
        assert Pieces(s)[0].Reference?;
      } else {
        assert rest == s[1..];
        NoMatchAtHead(s);
        assert Pieces(s) == [Literal(s[0])] + Pieces(rest);
      }
    }
  }

  lemma NoMatchAtHead(s: string)
    requires s != "" && MatchHead(s).None?
    ensures HasReference(s) <==> HasReference(s[1..])
  {
    assert s[0..] == s;
    assert forall i :: 0 < i < |s| ==> s[i..] == s[1..][i - 1..];
    assert forall i :: 0 <= i < |s| - 1 ==> s[1..][i..] == s[i + 1..];
  }

  /** The variable of a reference is set to a text that is not empty. */
  predicate IsSet(piece: Piece, env: Environment) {
    piece.Reference? && piece.name in env && env[piece.name] != ""
  }

  /** The text stands for the piece: a gap for itself, a reference for the value of its variable if that is set, and
      for its default otherwise. */
  ghost predicate StandsFor(piece: Piece, env: Environment, text: string) {
    && (piece.Literal? ==> text == [piece.c])
    && (IsSet(piece, env) ==> text == env[piece.name])
    && (piece.Reference? && !IsSet(piece, env) ==> piece.default == Some(text))
  }

  /** A reference to a variable that is unset or empty, without a default. */
  predicate IsMissing(piece: Piece, env: Environment) {
    piece.Reference? && piece.default.None? && !IsSet(piece, env)
  }

  function Concat(texts: seq<string>): string {
    if texts == [] then "" else texts[0] + Concat(texts[1..])
  }

  ghost predicate AllStandFor(pieces: seq<Piece>, env: Environment, texts: seq<string>) {
    |texts| == |pieces| && forall i :: 0 <= i < |pieces| ==> StandsFor(pieces[i], env, texts[i])
  }

  /** The texts stand for the pieces, and make up the result. */
  ghost predicate MadeOf(pieces: seq<Piece>, env: Environment, texts: seq<string>, result: string) {
    AllStandFor(pieces, env, texts) && result == Concat(texts)
  }

  ghost predicate IsFirstMissing(pieces: seq<Piece>, env: Environment, i: int, name: string) {
    && 0 <= i < |pieces|
    && IsMissing(pieces[i], env)
    && pieces[i].name == name
    && forall j :: 0 <= j < i ==> !IsMissing(pieces[j], env)
  }

  /** The resolved text is one text per piece, side by side, each standing for its piece.  There is none exactly when
      a reference is missing, and the error names the first such variable. */
  lemma ResolvedTexts(s: string, env: Environment)
    ensures var pieces, result := Pieces(s), ResolveString(s, env);
      && (result.Ok? ==> exists texts :: MadeOf(pieces, env, texts, result.value))
      && (result.Err? ==> exists i :: IsFirstMissing(pieces, env, i, result.error))
      && (result.Err? <==> exists piece :: piece in pieces && IsMissing(piece, env))
  {
    hide ResolveString, SubstituteAll, Pieces, MadeOf, IsMissing;
    ResolvesPieceByPiece(s, env);
    SubstitutedTexts(Pieces(s), env);
  }

  lemma SubstituteMeans(piece: Piece, env: Environment)
    ensures Substitute(piece, env).Ok? ==> StandsFor(piece, env, Substitute(piece, env).value)
    ensures Substitute(piece, env).Err? <==> IsMissing(piece, env)
    ensures Substitute(piece, env).Err? ==> piece.Reference? && Substitute(piece, env).error == piece.name
  {
  }

  lemma {:induction false} SubstitutedTexts(pieces: seq<Piece>, env: Environment)
    ensures var result := SubstituteAll(pieces, env);
      && (result.Ok? ==> exists texts :: MadeOf(pieces, env, texts, result.value))
      && (result.Err? ==> exists i :: IsFirstMissing(pieces, env, i, result.error))
      && (result.Err? <==> exists piece :: piece in pieces && IsMissing(piece, env))
  {
    hide Substitute, StandsFor, IsMissing, MadeOf;
    if pieces == [] {
      NoTexts(env);
    } else {
      var piece, tail := pieces[0], pieces[1..];
      assert pieces == [piece] + tail;
      SubstituteMeans(piece, env);
      SubstitutedTexts(tail, env);
      if SubstituteAll(pieces, env).Ok? {
        var texts :| MadeOf(tail, env, texts, SubstituteAll(tail, env).value);
        OneMoreText(piece, tail, env, Substitute(piece, env).value, texts, SubstituteAll(tail, env).value);
      } else if IsMissing(piece, env) {
        assert IsFirstMissing(pieces, env, 0, piece.name);
      } else {
        var i :| IsFirstMissing(tail, env, i, SubstituteAll(tail, env).error);
        assert pieces[i + 1] == tail[i];
        assert IsFirstMissing(pieces, env, i + 1, SubstituteAll(tail, env).error);
      }
    }
  }

  lemma NoTexts(env: Environment)
    ensures MadeOf([], env, [], "")
  {
  }

  lemma OneMoreText(
    piece: Piece, tail: seq<Piece>, env: Environment, text: string, texts: seq<string>, result: string)
    requires StandsFor(piece, env, text) && MadeOf(tail, env, texts, result)
    ensures MadeOf([piece] + tail, env, [text] + texts, text + result)
  {
    hide StandsFor;
    assert ([text] + texts)[1..] == texts;
  }

  /** Resolution fails exactly when some reference has neither a non-empty value nor a default. */
  lemma ResolvesIffNothingMissing(s: string, env: Environment)
    ensures ResolveString(s, env).Ok? <==> forall piece :: piece in Pieces(s) ==> !IsMissing(piece, env)
  {
    hide ResolveString, Pieces, IsMissing;
    ResolvedTexts(s, env);
  }

  /** A string without references is left alone. */
  lemma {:induction false} NoReferenceUnchanged(s: string, env: Environment)
    requires !HasReference(s)
    ensures ResolveString(s, env) == Ok(s)
    decreases |s|
  {
    if s != "" {
      assert s[0..] == s && MatchHead(s[0..]).None?;
      NoMatchAtHead(s);
      NoReferenceUnchanged(s[1..], env);
      assert AfterHead(s) == s[1..] && [s[0]] + s[1..] == s;
    }
  }

  lemma NoDollarNoReference(s: string)
    requires '$' !in s
    ensures !HasReference(s)
  {
    forall i | 0 <= i < |s| ensures MatchHead(s[i..]).None? {
      assert s[i..][0] == s[i] && OPENING[0] == '$';
    }
  }

  /** The piece contributes no dollar sign: neither a stray one nor one inside a substituted text. */
  predicate DollarFree(piece: Piece, env: Environment) {
    && (piece.Literal? ==> piece.c != '$')
    && (IsSet(piece, env) ==> '$' !in env[piece.name])
    && (piece.Reference? && !IsSet(piece, env) && piece.default.Some? ==> '$' !in piece.default.value)
  }

  /** The resolved text holds a dollar sign exactly when a gap or a substituted text does.  Without one the
      result has no reference left and resolving it again, in any environment, is the identity. */
  lemma DollarFreeResolvesOnce(s: string, env: Environment, again: Environment)
    requires ResolveString(s, env).Ok?
    ensures '$' !in ResolveString(s, env).value <==>
      forall piece :: piece in Pieces(s) ==> DollarFree(piece, env)
    ensures (forall piece :: piece in Pieces(s) ==> DollarFree(piece, env)) ==>
      && !HasReference(ResolveString(s, env).value)
      && ResolveString(ResolveString(s, env).value, again) == Ok(ResolveString(s, env).value)
  {
    ResolvesPieceByPiece(s, env);
    DollarsOfPieces(Pieces(s), env);
    if '$' !in ResolveString(s, env).value {
      NoDollarNoReference(ResolveString(s, env).value);
      NoReferenceUnchanged(ResolveString(s, env).value, again);
    }
  }

  lemma {:induction false} DollarsOfPieces(pieces: seq<Piece>, env: Environment)
    requires SubstituteAll(pieces, env).Ok?
    ensures '$' !in SubstituteAll(pieces, env).value <==>
      forall piece :: piece in pieces ==> DollarFree(piece, env)
  {
    if pieces != [] {
      DollarsOfPieces(pieces[1..], env);
      assert pieces == [pieces[0]] + pieces[1..];
      var head, tail := Substitute(pieces[0], env).value, SubstituteAll(pieces[1..], env).value;
      assert '$' in head + tail <==> '$' in head || '$' in tail;
      assert DollarFree(pieces[0], env) <==> '$' !in head;
    }
  }

  /** A default ends at the first closing brace, so it cannot hold a reference.  With `a` unset, this one
      resolves to a text that is itself a reference, for any two variable names. */
  lemma NestedReferenceSurvives(a: string, b: string, env: Environment)
    requires ValidName(a) && ValidName(b) && (a in env ==> env[a] == "")
    ensures var inner := Print(Reference(b, None));
      && ResolveString(Print(Reference(a, Some(inner))), env) == Ok(inner)
      && HasReference(inner)
  {
    var inner := Print(Reference(b, None));
    var cut := Reference(a, Some(OPENING + b));
    var s := Print(Reference(a, Some(inner)));
    assert inner == OPENING + b + "}";
    assert Tail(Reference(a, Some(inner))) == Tail(cut) + "}";
    assert s == Print(cut) + "}";
    MatchPrinted(cut, "}");
    assert AfterHead(s) == "}";
    LiteralResolves('}', env);
    PrintedIsReference(Reference(b, None));
  }

  lemma PrintedIsReference(piece: Piece)
    requires ValidReference(piece)
    ensures HasReference(Print(piece))
  {
    var s := Print(piece);
    MatchPrinted(piece, "");
    assert s + "" == s && s[0..] == s;
    assert MatchHead(s[0..]).Some?;
  }

  lemma LiteralResolves(c: char, env: Environment)
    requires c != '$'
    ensures ResolveString([c], env) == Ok([c])
  {
    NoDollarNoReference([c]);
    NoReferenceUnchanged([c], env);
  }

  ghost predicate ValidName(name: string) {
    name != "" && NameStart(name[0]) && forall i :: 0 <= i < |name| ==> NameChar(name[i])
  }

  ghost predicate ValidReference(piece: Piece) {
    && piece.Reference?
    && ValidName(piece.name)
    && (piece.default.Some? ==> '}' !in piece.default.value)
  }

  /** A printed reference is read back, whatever follows it. */
  lemma MatchPrinted(piece: Piece, rest: string)
    requires ValidReference(piece)
    ensures MatchHead(Print(piece) + rest) == Some(piece)
  {
    var body := Tail(piece) + rest;
    assert Print(piece) + rest == OPENING + body;
    assert (OPENING + body)[6..] == body;
    if piece.default.None? {
      BareNamePrinted(piece.name, rest, body);
    } else {
      DefaultPrinted(piece.name, piece.default.value, rest, body);
    }
  }

  lemma BareNamePrinted(name: string, rest: string, body: string)
    requires ValidName(name) && body == name + "}" + rest
    ensures MatchBody(body) == Some(Reference(name, None))
  {
    RunOf(body, |name|);
    assert body[..|name|] == name;
  }

  lemma DefaultPrinted(name: string, default: string, rest: string, body: string)
    requires ValidName(name) && '}' !in default
    requires body == name + (":" + default + "}") + rest
    ensures MatchBody(body) == Some(Reference(name, Some(default)))
  {
    RunOf(body, |name|);
    assert body[..|name|] == name;
    var text := body[|name| + 1..];
    assert text == default + "}" + rest;
    CloseOf(text, |default|);
    assert text[..|default|] == default;
  }

  /** Conversely, whatever matches is a well-formed reference. */
  lemma MatchIsValid(s: string)
    requires MatchHead(s).Some?
    ensures ValidReference(MatchHead(s).value)
  {
  }

  lemma {:induction false} RunOf(s: string, n: nat)
    requires n < |s| && !NameChar(s[n]) && forall i :: 0 <= i < n ==> NameChar(s[i])
    ensures NameRun(s) == n
  {
  }

  lemma {:induction false} CloseOf(s: string, n: nat)
    requires n < |s| && s[n] == '}' && forall i :: 0 <= i < n ==> s[i] != '}'
    ensures CloseAt(s) == n
  {
  }

  // ---------- resolving a document ----------

  /** Resolves every string below a value; None when some string cannot be resolved. */
  function Resolve(value: Value, env: Environment): Option<Value> {
    match value
    case Str(s) =>
      var text := ResolveString(s, env);
      if text.Ok? then Some(Str(text.value)) else None
    case Sequence(items) =>
      if forall i :: 0 <= i < |items| ==> Resolve(items[i], env).Some? then
        Some(Sequence(seq(|items|, i requires 0 <= i < |items| => Resolve(items[i], env).value)))
      else None
    case Tuple(items) =>
      if forall i :: 0 <= i < |items| ==> Resolve(items[i], env).Some? then
        Some(Tuple(seq(|items|, i requires 0 <= i < |items| => Resolve(items[i], env).value)))
      else None
    case Mapping(entries) =>
      if forall k :: k in entries ==> Resolve(entries[k], env).Some? then
        Some(Mapping(map k | k in entries :: Resolve(entries[k], env).value))
      else None
    case _ => Some(value)
  }

  /** Two values that differ at most in the text of their strings. */
  ghost predicate SameShape(a: Value, b: Value) {
    match a
    case Str(_) => b.Str?
    case Sequence(items) => b.Sequence? && |b.items| == |items|
      && forall i :: 0 <= i < |items| ==> SameShape(items[i], b.items[i])
    case Tuple(items) => b.Tuple? && |b.items| == |items|
      && forall i :: 0 <= i < |items| ==> SameShape(items[i], b.items[i])
    case Mapping(entries) => b.Mapping? && b.entries.Keys == entries.Keys
      && forall k :: k in entries ==> SameShape(entries[k], b.entries[k])
    case _ => a == b
  }

  lemma {:induction false} ResolveKeepsShape(value: Value, env: Environment)
    requires Resolve(value, env).Some?
    ensures SameShape(value, Resolve(value, env).value)
  {
    match value
    case Sequence(items) =>
      forall i | 0 <= i < |items| ensures SameShape(items[i], Resolve(items[i], env).value) {
        ResolveKeepsShape(items[i], env);
      }
    case Tuple(items) =>
      forall i | 0 <= i < |items| ensures SameShape(items[i], Resolve(items[i], env).value) {
        ResolveKeepsShape(items[i], env);
      }
    case Mapping(entries) =>
      forall k | k in entries ensures SameShape(entries[k], Resolve(entries[k], env).value) {
        ResolveKeepsShape(entries[k], env);
      }
    case _ =>
  }

  /** Resolving acts at every path on its own. */
  lemma {:induction false} ResolveAtPath(value: Value, env: Environment, path: seq<Key>)
    requires Resolve(value, env).Some?
    ensures Lookup(Resolve(value, env).value, path) ==
      if Lookup(value, path).Some? then Resolve(Lookup(value, path).value, env) else None
    decreases |path|
  {
    if path != [] && value.Mapping? && path[0] in value.entries {
      ResolveAtPath(value.entries[path[0]], env, path[1..]);
    }
  }
}
