/** The normalisation of lists of names in the configuration: every name stripped, none blank, each kept once. */
module NameLists {
  import opened Text
  import opened Values

  /** The names, stripped, each at its first place; None when one is blank. */
  function Normalized(names: seq<string>): Option<seq<string>> {
    if names == [] then Some([])
    else
      var before, last := Normalized(names[..|names| - 1]), Strip(names[|names| - 1]);
      if before.None? || last == "" then None
      else if last in before.value then before
      else Some(before.value + [last])
  }

  /** The loop: it grows the list and the set of names seen so far. */
  method NormalizeNameList(value: seq<string>) returns (normalized: Option<seq<string>>)
    ensures normalized == Normalized(value)
  {
    hide Strip;
    var names: seq<string>, seen: set<string> := [], {};
    for i := 0 to |value|
      invariant Normalized(value[..i]) == Some(names)
      invariant forall name :: name in seen <==> name in names
    {
      assert value[..i + 1][..i] == value[..i];
      var stripped := Strip(value[i]);
      if stripped == "" {
        BlankFails(value, i);
        return None;
      }
      if stripped !in seen {
        names := names + [stripped];
        seen := seen + {stripped};
      }
    }
    assert value[..|value|] == value;
    return Some(names);
  }

  lemma {:induction false} BlankFails(names: seq<string>, i: nat)
    requires i < |names| && Strip(names[i]) == ""
    ensures Normalized(names).None?
  {
    hide Strip;
    if i < |names| - 1 {
      BlankFails(names[..|names| - 1], i);
    }
  }

  /** Name `n` of the list stands, stripped, nowhere before. */
  predicate IsFirst(names: seq<string>, n: nat)
    requires n < |names|
  {
    forall i :: 0 <= i < n ==> Strip(names[i]) != Strip(names[n])
  }

  /** It fails exactly on a blank name; otherwise the result has the stripped names and no others. */
  lemma {:induction false} NormalizedHolds(names: seq<string>)
    ensures Normalized(names).None? <==> exists i :: 0 <= i < |names| && Strip(names[i]) == ""
    ensures Normalized(names).Some? ==>
      forall name :: name in Normalized(names).value <==> exists i :: 0 <= i < |names| && Strip(names[i]) == name
  {
    hide Strip;
    if names != [] {
      NormalizedHolds(names[..|names| - 1]);
    }
  }

  /** The result lists each name once, in the order in which the names first occur. */
  lemma {:induction false} NormalizedInOrder(names: seq<string>)
    requires Normalized(names).Some?
    ensures exists places: seq<nat> :: Placed(names, Normalized(names).value, places)
  {
    hide Strip;
    if names == [] {
      assert Placed(names, [], []);
    } else {
      var last := |names| - 1;
      NormalizedInOrder(names[..last]);
      NormalizedHolds(names[..last]);
      var before := Normalized(names[..last]).value;
      var places: seq<nat> :| Placed(names[..last], before, places);
      if Strip(names[last]) in before {
        assert Placed(names, before, places);
      } else {
        assert Placed(names, before + [Strip(names[last])], places + [last]);
      }
    }
  }

  /** The result stands at increasing places of the list, each of them the first for its name. */
  ghost predicate Placed(names: seq<string>, result: seq<string>, places: seq<nat>) {
    && |places| == |result|
    && (forall k :: 0 <= k < |places| ==>
          places[k] < |names| && Strip(names[places[k]]) == result[k] && IsFirst(names, places[k]))
    && (forall j, k :: 0 <= j < k < |places| ==> places[j] < places[k])
  }

  /** A list is left alone exactly when it is normal already. */
  lemma {:induction false} NormalUnchangedIff(names: seq<string>)
    ensures Normalized(names) == Some(names) <==>
      && (forall i :: 0 <= i < |names| ==> names[i] != "" && Stripped(names[i]))
      && (forall i, j :: 0 <= i < j < |names| ==> names[i] != names[j])
  {
    hide Strip, Stripped;
    if names != [] {
      var last := |names| - 1;
      NormalUnchangedIff(names[..last]);
      StripFixed(names[last]);
      NotLonger(names[..last]);
      assert names == names[..last] + [names[last]];
    }
  }

  lemma {:induction false} NotLonger(names: seq<string>)
    ensures Normalized(names).Some? ==> |Normalized(names).value| <= |names|
  {
    hide Strip;
    if names != [] {
      NotLonger(names[..|names| - 1]);
    }
  }

  /** A normalised list is normal. */
  lemma NormalizedIdempotent(names: seq<string>)
    requires Normalized(names).Some?
    ensures Normalized(Normalized(names).value) == Normalized(names)
  {
    hide Normalized, Stripped;
    NormalizedHolds(names);
    NormalizedInOrder(names);
    var result := Normalized(names).value;
    var places: seq<nat> :| Placed(names, result, places);
    assert forall k :: 0 <= k < |result| ==> Strip(names[places[k]]) == result[k];
    NormalUnchangedIff(result);
  }
}
