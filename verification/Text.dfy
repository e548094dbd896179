/** The string operations the modelled code leans on: whitespace stripping and lower-casing. */
module Text {

  /** The characters for which Python's `str.isspace` holds, and which `str.strip` removes. */
  predicate IsSpace(c: char) {
    var n := c as int;
    || 0x9 <= n <= 0xD
    || 0x1C <= n <= 0x20
    || n == 0x85 || n == 0xA0 || n == 0x1680
    || 0x2000 <= n <= 0x200A
    || n == 0x2028 || n == 0x2029 || n == 0x202F || n == 0x205F || n == 0x3000
  }

  function LStrip(s: string): (r: string)
    ensures |r| <= |s| && r == s[|s| - |r|..]
    ensures r != "" ==> !IsSpace(r[0])
  {
    if s != "" && IsSpace(s[0]) then LStrip(s[1..]) else s
  }

  function RStrip(s: string): (r: string)
    ensures |r| <= |s| && r == s[..|r|]
    ensures r != "" ==> !IsSpace(r[|r| - 1])
    ensures forall i :: |r| <= i < |s| ==> IsSpace(s[i])
  {
    if s != "" && IsSpace(s[|s| - 1]) then RStrip(s[..|s| - 1]) else s
  }

  function Strip(s: string): (r: string)
    ensures Stripped(r)
    ensures |r| <= |s|
  {
    RStrip(LStrip(s))
  }

  /** No whitespace at either end. */
  predicate Stripped(s: string) {
    s == "" || (!IsSpace(s[0]) && !IsSpace(s[|s| - 1]))
  }

  /** Stripping changes nothing exactly when there is nothing to strip. */
  lemma StripFixed(s: string)
    ensures Strip(s) == s <==> Stripped(s)
  {
  }

  /** Stripping takes whitespace off both ends and nothing else. */
  lemma StripTakesSpaces(s: string)
    ensures exists i, j :: 0 <= i <= j <= |s| && Strip(s) == s[i..j] && OnlySpaces(s[..i]) && OnlySpaces(s[j..])
  {
    hide IsSpace, LStrip, RStrip;
    var left := LStrip(s);
    var right := RStrip(left);
    var i := |s| - |left|;
    LStripTakesSpaces(s);
    assert Strip(s) == right == s[i..i + |right|];
    assert s[i + |right|..] == left[|right|..];
  }

  /** Nothing is left exactly of a blank text. */
  lemma BlankIff(s: string)
    ensures Strip(s) == "" <==> OnlySpaces(s)
  {
    hide IsSpace;
    StripTakesSpaces(s);
    var i, j :| 0 <= i <= j <= |s| && Strip(s) == s[i..j] && OnlySpaces(s[..i]) && OnlySpaces(s[j..]);
    if Strip(s) == "" {
      assert s == s[..i] + s[j..];
    } else {
      assert s[i] == Strip(s)[0];
    }
  }

  lemma {:induction false} LStripTakesSpaces(s: string)
    ensures OnlySpaces(s[..|s| - |LStrip(s)|])
  {
    hide IsSpace;
    if s != "" && IsSpace(s[0]) {
      LStripTakesSpaces(s[1..]);
      var rest := s[1..];
      assert s[..|s| - |LStrip(s)|] == [s[0]] + rest[..|rest| - |LStrip(rest)|];
    }
  }

  ghost predicate OnlySpaces(s: string) {
    forall i :: 0 <= i < |s| ==> IsSpace(s[i])
  }

  lemma NonBlank(s: string)
    requires s != "" && !IsSpace(s[0])
    ensures Strip(s) != ""
  {
    assert LStrip(s) == s;
  }

  lemma RStripFixed(s: string)
    ensures RStrip(s) == s <==> s == "" || !IsSpace(s[|s| - 1])
  {
  }

  /** Lower-casing, exact on every character that can lower-case to an ASCII letter: A-Z and the
      Kelvin sign.  The results are only ever compared with ASCII words. */
  function LowerChar(c: char): char {
    if 'A' <= c <= 'Z' then (c as int + 32) as char
    else if c as int == 0x212A then 'k'
    else c
  }

  function Lower(s: string): (r: string)
    ensures |r| == |s|
  {
    seq(|s|, i requires 0 <= i < |s| => LowerChar(s[i]))
  }

  lemma LowerIdempotent(s: string)
    ensures Lower(Lower(s)) == Lower(s)
  {
  }

  /** Lower-casing neither makes nor removes whitespace. */
  lemma LowerStripped(s: string)
    ensures Stripped(Lower(s)) <==> Stripped(s)
  {
    assert forall c :: IsSpace(LowerChar(c)) == IsSpace(c);
  }

  /** `word in text`. */
  predicate Contains(text: string, word: string) {
    exists i :: 0 <= i <= |text| && IsAt(text, word, i)
  }

  predicate IsAt(text: string, word: string, i: int) {
    0 <= i <= |text| - |word| && text[i..i + |word|] == word
  }
}
