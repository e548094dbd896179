/** Prompt sections, cut down to a number of sections and a number of characters. */
module PromptSections {
  import opened Text
  import opened Values

  /** Text as a prompt section keeps it: stripped and not empty. */
  predicate Normal(text: string) {
    text != "" && Stripped(text)
  }

  datatype Titled = Titled(title: string, body: string)

  type PromptSection = section: Titled | Normal(section.title) && Normal(section.body) witness Titled("t", "b")

  /** The constructor: both texts are stripped, and must not be blank. */
  function MakeSection(title: string, body: string): Option<PromptSection> {
    if Strip(title) == "" || Strip(body) == "" then None else Some(Titled(Strip(title), Strip(body)))
  }

  function Max(x: int, y: int): int {
    if x < y then y else x
  }

  /** A summary of at most maxChars characters; no bound when that is not positive. */
  function TruncateText(text: string, maxChars: int): (short: string)
    ensures maxChars > 0 ==> |short| <= maxChars
  {
    var stripped := Strip(text);
    if stripped == "" then ""
    else if maxChars <= 0 || |stripped| <= maxChars then stripped
    else if maxChars <= 3 then stripped[..maxChars]
    else RStrip(stripped[..maxChars - 3]) + "..."
  }

  /** A summary is the whole stripped text if that is within the bound.  Otherwise it is a beginning of the text that
      is as long as the bound where that leaves no room for more than dots, and in all other cases the longest
      beginning that does not end in a space, followed by three dots. */
  lemma TruncateTextIs(text: string, maxChars: int)
    ensures var stripped, short := Strip(text), TruncateText(text, maxChars);
      && (short == stripped <==> maxChars <= 0 || |stripped| <= maxChars)
      && (0 < maxChars <= 3 && maxChars < |stripped| ==> short <= stripped && |short| == maxChars)
      && (3 < maxChars < |stripped| ==>
            exists n: nat :: n + 3 <= maxChars && DottedAt(short, stripped, n) && Blank(stripped, n, maxChars - 3))
  {
    hide Strip, IsSpace;
    var stripped := Strip(text);
    if 3 < maxChars < |stripped| {
      var start := RStrip(stripped[..maxChars - 3]);
      assert stripped[..maxChars - 3][..|start|] == stripped[..|start|];
      assert forall i :: |start| <= i < maxChars - 3 ==> stripped[..maxChars - 3][i] == stripped[i];
      assert DottedAt(TruncateText(text, maxChars), stripped, |start|);
    }
  }

  ghost predicate DottedAt(short: string, text: string, n: nat) {
    n <= |text| && short == text[..n] + "..." && (n > 0 ==> !IsSpace(text[n - 1]))
  }

  ghost predicate Blank(text: string, from: nat, to: nat) {
    forall i :: from <= i < to && i < |text| ==> IsSpace(text[i])
  }

  function CharCount(section: PromptSection): nat {
    |section.title| + |section.body| + 3
  }

  function AvailableBody(section: PromptSection, maxChars: int): int {
    Max(1, maxChars - (|section.title| + 3))
  }

  /** The body of the shortened section, before it is made into a section. */
  function ShortBody(section: PromptSection, maxChars: int): string {
    var available := AvailableBody(section, maxChars);
    var short := TruncateText(section.body, available);
    if short != "" then short else if available <= |section.body| then section.body[..available] else section.body
  }

  lemma ShortBodyFits(section: PromptSection, maxChars: int)
    ensures var short := ShortBody(section, maxChars);
      && short != ""
      && short[0] == section.body[0]
      && |short| <= AvailableBody(section, maxChars)
  {
    StripFixed(section.body);
  }

  /** Shortening never fails: the section keeps its title, and its body is no longer than the room for it. */
  lemma ShortBodyMakesSection(section: PromptSection, maxChars: int)
    ensures var made := MakeSection(section.title, ShortBody(section, maxChars));
      && made.Some?
      && made.value.title == section.title
      && |made.value.body| <= AvailableBody(section, maxChars)
  {
    hide ShortBody, IsSpace;
    ShortBodyFits(section, maxChars);
    StripFixed(section.title);
    NonBlank(ShortBody(section, maxChars));
  }

  function Truncated(section: PromptSection, maxChars: int): PromptSection {
    ShortBodyMakesSection(section, maxChars);
    MakeSection(section.title, ShortBody(section, maxChars)).value
  }

  /** The number of characters the limit counts. */
  function Total(sections: seq<PromptSection>): nat {
    if sections == [] then 0 else Total(sections[..|sections| - 1]) + CharCount(sections[|sections| - 1])
  }

  /** The sections that are looked at. */
  function Considered(sections: seq<PromptSection>, maxItems: Option<int>): (few: seq<PromptSection>)
    ensures few <= sections
  {
    if maxItems.Some? && maxItems.value < |sections| then sections[..Max(0, maxItems.value)] else sections
  }

  /** They are the first ones, as many as the limit of items says, none for a negative one. */
  lemma ConsideredCount(sections: seq<PromptSection>, maxItems: Option<int>, count: nat)
    requires maxItems.Some? ==> count == maxItems.value || (maxItems.value < 0 && count == 0)
    ensures Considered(sections, maxItems) ==
      if maxItems.Some? && count < |sections| then sections[..count] else sections
  {
  }

  predicate WithinChars(maxChars: Option<int>, chars: int) {
    maxChars.Some? ==> chars <= maxChars.value
  }

  /** The length of the longest beginning that stays within the characters. */
  function Fitting(sections: seq<PromptSection>, maxChars: Option<int>): (k: nat)
    ensures k <= |sections|
  {
    if sections == [] || WithinChars(maxChars, Total(sections)) then |sections|
    else Fitting(sections[..|sections| - 1], maxChars)
  }

  /** The first k sections, and the next one, shortened, if there is room for more than its title and eight
      characters. */
  function CutAfter(few: seq<PromptSection>, maxChars: Option<int>, k: nat): seq<PromptSection>
    requires k <= |few|
  {
    if k == |few| || maxChars.None? then few
    else
      var remaining := maxChars.value - Total(few[..k]);
      if remaining <= |few[k].title| + 8 then few[..k]
      else few[..k] + [Truncated(few[k], remaining)]
  }

  /** The limited sections: those considered, cut after the longest beginning that fits. */
  function Limited(sections: seq<PromptSection>, maxItems: Option<int>, maxChars: Option<int>): seq<PromptSection> {
    if maxChars.Some? && maxChars.value <= 0 then []
    else
      var few := Considered(sections, maxItems);
      CutAfter(few, maxChars, Fitting(few, maxChars))
  }

  /** The greedy loop. */
  method LimitPromptSections(sections: seq<PromptSection>, maxItems: Option<int>, maxChars: Option<int>)
    returns (bounded: seq<PromptSection>)
    ensures bounded == Limited(sections, maxItems, maxChars)
  {
    hide Normal, Total, Fitting, Truncated, CharCount, Limited, Considered, CutAfter;
    if (maxItems.Some? && maxItems.value <= 0) || (maxChars.Some? && maxChars.value <= 0) {
      LimitedToNothing(sections, maxItems, maxChars);
      return [];
    }

    bounded := [];
    var usedChars := 0;
    var few := Considered(sections, maxItems);
    assert few[..0] == [];
    TotalNone();
    for i := 0 to |few|
      invariant bounded == few[..i]
      invariant usedChars == Total(few[..i])
      invariant WithinChars(maxChars, usedChars)
    {
      var section := few[i];
      var sectionChars := CharCount(section);
      TotalAppend(few, i);
      if maxChars.None? || usedChars + sectionChars <= maxChars.value {
        bounded := bounded + [section];
        usedChars := usedChars + sectionChars;
        continue;
      }

      LimitedAt(sections, maxItems, maxChars, i);
      CutInside(few, maxChars.value, i);
      var remaining := maxChars.value - usedChars;
      if remaining > |section.title| + 8 {
        bounded := bounded + [Truncated(section, remaining)];
      }
      return;
    }
    assert few[..|few|] == few;
    LimitedAt(sections, maxItems, maxChars, |few|);
    CutNowhere(few, maxChars);
  }

  lemma LimitedToNothing(sections: seq<PromptSection>, maxItems: Option<int>, maxChars: Option<int>)
    requires (maxItems.Some? && maxItems.value <= 0) || (maxChars.Some? && maxChars.value <= 0)
    ensures Limited(sections, maxItems, maxChars) == []
  {
    hide Normal, Truncated;
  }

  /** The limited sections, when the first i of those considered fit and one more does not. */
  lemma LimitedAt(sections: seq<PromptSection>, maxItems: Option<int>, maxChars: Option<int>, i: nat)
    requires maxChars.Some? ==> maxChars.value > 0
    requires i <= |Considered(sections, maxItems)|
    requires WithinChars(maxChars, Total(Considered(sections, maxItems)[..i]))
    requires i < |Considered(sections, maxItems)| ==>
      !WithinChars(maxChars, Total(Considered(sections, maxItems)[..i + 1]))
    ensures Limited(sections, maxItems, maxChars) == CutAfter(Considered(sections, maxItems), maxChars, i)
  {
    hide Normal, Total, Fitting, CutAfter, Considered;
    FittingIs(Considered(sections, maxItems), maxChars, i);
  }

  lemma CutInside(few: seq<PromptSection>, maxChars: int, k: nat)
    requires k < |few|
    ensures CutAfter(few, Some(maxChars), k) ==
      if maxChars - Total(few[..k]) <= |few[k].title| + 8 then few[..k]
      else few[..k] + [Truncated(few[k], maxChars - Total(few[..k]))]
  {
    hide Total, Truncated, Normal;
  }

  lemma CutNowhere(few: seq<PromptSection>, maxChars: Option<int>)
    ensures CutAfter(few, maxChars, |few|) == few
  {
  }

  lemma TotalNone()
    ensures Total([]) == 0
  {
  }

  lemma TotalAppend(sections: seq<PromptSection>, i: nat)
    requires i < |sections|
    ensures Total(sections[..i + 1]) == Total(sections[..i]) + CharCount(sections[i])
  {
    assert sections[..i + 1][..i] == sections[..i];
  }

  // ---------- what the limit promises ----------

  lemma {:induction false} TotalGrows(sections: seq<PromptSection>, i: nat)
    requires i <= |sections|
    ensures Total(sections[..i]) <= Total(sections)
  {
    if i == |sections| {
      assert sections[..i] == sections;
    } else {
      assert sections[..|sections| - 1][..i] == sections[..i];
      TotalGrows(sections[..|sections| - 1], i);
    }
  }

  /** A beginning fits exactly when it is no longer than the fitting one. */
  lemma {:induction false} FitsIff(sections: seq<PromptSection>, maxChars: Option<int>, i: nat)
    requires i <= |sections| && WithinChars(maxChars, 0)
    ensures WithinChars(maxChars, Total(sections[..i])) <==> i <= Fitting(sections, maxChars)
  {
    assert sections[..|sections|] == sections;
    if WithinChars(maxChars, Total(sections)) {
      TotalGrows(sections, i);
    } else if i < |sections| {
      assert sections[..|sections| - 1][..i] == sections[..i];
      FitsIff(sections[..|sections| - 1], maxChars, i);
    }
  }

  lemma FittingIs(sections: seq<PromptSection>, maxChars: Option<int>, i: nat)
    requires i <= |sections|
    requires WithinChars(maxChars, Total(sections[..i]))
    requires i < |sections| ==> !WithinChars(maxChars, Total(sections[..i + 1]))
    ensures Fitting(sections, maxChars) == i
  {
    FitsIff(sections, maxChars, i);
    if i < |sections| {
      FitsIff(sections, maxChars, i + 1);
    }
  }

  /** The result keeps within both limits. */
  lemma LimitedWithinLimits(sections: seq<PromptSection>, maxItems: Option<int>, maxChars: Option<int>)
    ensures var bounded := Limited(sections, maxItems, maxChars);
      && (maxItems.Some? ==> |bounded| <= Max(0, maxItems.value))
      && (maxChars.Some? ==> Total(bounded) <= Max(0, maxChars.value))
  {
    hide Normal, Total, Fitting, Truncated;
    var few, bounded := Considered(sections, maxItems), Limited(sections, maxItems, maxChars);
    TotalNone();
    if WithinChars(maxChars, 0) {
      var k := Fitting(few, maxChars);
      FitsIff(few, maxChars, k);
      assert few[..|few|] == few;
      if maxChars.Some? && |bounded| > k {
        TotalAppend(bounded, k);
        assert bounded[..k] == few[..k] && bounded[..k + 1] == bounded;
        TruncatedFits(few[k], maxChars.value - Total(few[..k]));
      }
    }
  }

  /** A beginning of the body, then three dots, and shorter than the body. */
  ghost predicate Shortens(short: string, body: string) {
    |body| > |short| > 3 && short[|short| - 3..] == "..." && short[..|short| - 3] <= body
  }

  lemma TruncatedShortens(section: PromptSection, maxChars: int)
    requires |section.title| + 8 < maxChars < CharCount(section)
    ensures Shortens(Truncated(section, maxChars).body, section.body)
  {
    hide IsSpace, Strip, ShortBody;
    StripFixed(section.title);
    var start := ShortBodyIs(section, maxChars);
    DotsKeepStripped(start);
  }

  /** What the shortened body consists of. */
  lemma ShortBodyIs(section: PromptSection, maxChars: int) returns (start: string)
    requires |section.title| + 8 < maxChars < CharCount(section)
    ensures ShortBody(section, maxChars) == start + "..."
    ensures start != "" && !IsSpace(start[0]) && start <= section.body
    ensures |start| + 3 < |section.body|
    ensures |start| == maxChars - |section.title| - 6 - DroppedSpaces(section, maxChars)
  {
    hide IsSpace, Strip;
    var body, available := section.body, AvailableBody(section, maxChars);
    StripFixed(body);
    start := RStrip(body[..available - 3]);
    NotAllSpace(body, available - 3);
  }

  lemma DotsKeepStripped(start: string)
    requires start != "" && !IsSpace(start[0])
    ensures Strip(start + "...") == start + "..."
  {
    StripFixed(start + "...");
  }

  lemma NotAllSpace(text: string, n: nat)
    requires Normal(text) && 0 < n <= |text|
    ensures RStrip(text[..n]) != ""
  {
    assert !IsSpace(text[..n][0]);
  }

  lemma TruncatedFits(section: PromptSection, maxChars: int)
    ensures Truncated(section, maxChars).title == section.title
    ensures maxChars > |section.title| + 3 ==> CharCount(Truncated(section, maxChars)) <= maxChars
  {
    hide ShortBody, MakeSection;
    ShortBodyMakesSection(section, maxChars);
  }

  /** All sections but the last are a beginning of the input; the last keeps its title and is the input's own or a
      shortened one.  The beginning is the longest that fits, so nothing is included after a section that did not
      fit. */
  lemma LimitedIsBeginning(sections: seq<PromptSection>, maxItems: Option<int>, maxChars: Option<int>)
    ensures var bounded, few := Limited(sections, maxItems, maxChars), Considered(sections, maxItems);
      && |bounded| <= |few|
      && (forall i :: 0 <= i < |bounded| ==> bounded[i].title == few[i].title)
      && (forall i :: 0 <= i < |bounded| - 1 ==> bounded[i] == few[i])
      && (bounded != [] ==>
            var last := |bounded| - 1;
            bounded[last] == few[last] || Shortens(bounded[last].body, few[last].body))
      && (maxChars.None? ==> bounded == few)
      && (maxChars.Some? ==> forall i :: |bounded| < i <= |few| ==> Total(few[..i]) > maxChars.value)
  {
    hide Normal, Total, Truncated;
    var few, bounded := Considered(sections, maxItems), Limited(sections, maxItems, maxChars);
    if maxChars.Some? && maxChars.value <= 0 {
      forall i | 0 < i <= |few| ensures Total(few[..i]) > 0 {
        TotalAppend(few, i - 1);
      }
    } else {
      hide Normal, Fitting;
      var k := Fitting(few, maxChars);
      forall i | 0 <= i <= |few| ensures WithinChars(maxChars, Total(few[..i])) <==> i <= k {
        FitsIff(few, maxChars, i);
      }
      if maxChars.None? {
        assert WithinChars(maxChars, Total(few[..|few|]));
      } else if |bounded| > k {
        TotalAppend(few, k);
        TruncatedFits(few[k], maxChars.value - Total(few[..k]));
        TruncatedShortens(few[k], maxChars.value - Total(few[..k]));
      }
    }
  }

  /** The limit changes nothing exactly when the input is within both limits. */
  lemma LimitedUnchangedIff(sections: seq<PromptSection>, maxItems: Option<int>, maxChars: Option<int>)
    ensures Limited(sections, maxItems, maxChars) == sections <==>
      && (maxItems.Some? ==> |sections| <= Max(0, maxItems.value))
      && (maxChars.Some? ==> Total(sections) <= Max(0, maxChars.value))
  {
    hide Normal, Limited, Total;
    LimitedWithinLimits(sections, maxItems, maxChars);
    if
      && (maxItems.Some? ==> |sections| <= Max(0, maxItems.value))
      && (maxChars.Some? ==> Total(sections) <= Max(0, maxChars.value))
    {
      WithinLimitsUnchanged(sections, maxItems, maxChars);
    }
  }

  lemma WithinLimitsUnchanged(sections: seq<PromptSection>, maxItems: Option<int>, maxChars: Option<int>)
    requires maxItems.Some? ==> |sections| <= Max(0, maxItems.value)
    requires maxChars.Some? ==> Total(sections) <= Max(0, maxChars.value)
    ensures Limited(sections, maxItems, maxChars) == sections
  {
    hide Normal, Truncated;
    assert Considered(sections, maxItems) == sections;
    if maxChars.Some? && maxChars.value <= 0 {
      assert sections == [];
    } else {
      hide Normal, Total;
      assert Fitting(sections, maxChars) == |sections|;
    }
  }

  /** Limiting twice is limiting once. */
  lemma LimitedTwice(sections: seq<PromptSection>, maxItems: Option<int>, maxChars: Option<int>)
    ensures Limited(Limited(sections, maxItems, maxChars), maxItems, maxChars) == Limited(sections, maxItems, maxChars)
  {
    hide Normal, Limited, Total;
    LimitedWithinLimits(sections, maxItems, maxChars);
    LimitedUnchangedIff(Limited(sections, maxItems, maxChars), maxItems, maxChars);
  }

  // ---------- the rendered size ----------

  function Render(section: PromptSection): string {
    section.title + ":\n" + section.body
  }

  function RenderAll(sections: seq<PromptSection>): string {
    if sections == [] then ""
    else if |sections| == 1 then Render(sections[0])
    else RenderAll(sections[..|sections| - 1]) + "\n\n" + Render(sections[|sections| - 1])
  }

  /** What is counted is not quite what is rendered: n sections take n - 2 characters more than their count, so
      that limited sections can overrun the limit as soon as there are three of them. */
  lemma {:induction false} RenderedLength(sections: seq<PromptSection>)
    requires sections != []
    ensures |RenderAll(sections)| == Total(sections) + |sections| - 2
  {
    if |sections| > 1 {
      RenderedLength(sections[..|sections| - 1]);
    } else {
      assert sections[..0] == [];
    }
  }

  /** The section after the k that fit is shortened. */
  ghost predicate NextIsShortened(few: seq<PromptSection>, maxChars: int, k: nat)
    requires k <= |few|
  {
    k < |few| && maxChars - Total(few[..k]) > |few[k].title| + 8
  }

  /** The trailing spaces that shortening a body drops in front of the dots. */
  ghost function DroppedSpaces(section: PromptSection, maxChars: int): nat {
    var room := maxChars - |section.title| - 6;
    if 0 <= room <= |section.body| then room - |RStrip(section.body[..room])| else 0
  }

  /** Whether limited sections will render within the characters, told from the sections considered: if one is
      shortened, the cut has to drop as many spaces as there are separators too many; if none is, the count of those
      that fit has to leave room for the separators. */
  ghost predicate WillRenderWithin(few: seq<PromptSection>, maxChars: int) {
    var k := Fitting(few, Some(maxChars));
    if NextIsShortened(few, maxChars, k) then
      k - 1 <= DroppedSpaces(few[k], maxChars - Total(few[..k]))
    else
      k == 0 || Total(few[..k]) + k - 2 <= maxChars
  }

  /** The rendered text of limited sections stays within the characters exactly when that can be told before the
      call; the excess is at most the number of separators over one. */
  lemma RenderedWithinIff(sections: seq<PromptSection>, maxItems: Option<int>, maxChars: int)
    ensures var bounded := Limited(sections, maxItems, Some(maxChars));
      && (|RenderAll(bounded)| <= Max(0, maxChars) <==>
            maxChars <= 0 || WillRenderWithin(Considered(sections, maxItems), maxChars))
      && |RenderAll(bounded)| <= Max(0, maxChars) + Max(0, |bounded| - 2)
  {
    hide Normal, Total, Considered, CutAfter, Fitting, DroppedSpaces, CharCount, RenderAll;
    LimitedWithinLimits(sections, maxItems, Some(maxChars));
    RenderedNone();
    var bounded := Limited(sections, maxItems, Some(maxChars));
    if bounded != [] {
      RenderedLength(bounded);
    }
    if maxChars > 0 {
      CutRenders(Considered(sections, maxItems), maxChars);
    }
  }

  lemma CutRenders(few: seq<PromptSection>, maxChars: int)
    requires maxChars > 0
    ensures |RenderAll(CutAfter(few, Some(maxChars), Fitting(few, Some(maxChars))))| <= maxChars <==>
      WillRenderWithin(few, maxChars)
  {
    hide Normal, Total, CutAfter, Fitting, DroppedSpaces, CharCount, RenderAll, Truncated;
    var k := Fitting(few, Some(maxChars));
    RenderedNone();
    assert few[..|few|] == few;
    if k == |few| {
      CutNowhere(few, Some(maxChars));
    } else {
      CutInside(few, maxChars, k);
      NextDoesNotFit(few, maxChars);
    }
    if NextIsShortened(few, maxChars, k) {
      var last := Truncated(few[k], maxChars - Total(few[..k]));
      TruncatedCount(few[k], maxChars - Total(few[..k]));
      AppendTotal(few[..k], last);
      RenderedLength(few[..k] + [last]);
    } else if k > 0 {
      RenderedLength(few[..k]);
    }
  }

  lemma AppendTotal(sections: seq<PromptSection>, last: PromptSection)
    ensures Total(sections + [last]) == Total(sections) + CharCount(last)
  {
    assert (sections + [last])[..|sections|] == sections;
  }

  lemma NextDoesNotFit(few: seq<PromptSection>, maxChars: int)
    requires maxChars > 0 && Fitting(few, Some(maxChars)) < |few|
    ensures var k := Fitting(few, Some(maxChars));
      maxChars - Total(few[..k]) < CharCount(few[k])
  {
    hide Normal, Total, Fitting, CharCount;
    var k := Fitting(few, Some(maxChars));
    FitsIff(few, Some(maxChars), k + 1);
    TotalAppend(few, k);
  }

  /** A shortened section fills the room it has, but for the spaces dropped. */
  lemma TruncatedCount(section: PromptSection, maxChars: int)
    requires |section.title| + 8 < maxChars < CharCount(section)
    ensures CharCount(Truncated(section, maxChars)) == maxChars - DroppedSpaces(section, maxChars)
  {
    hide IsSpace, Strip, ShortBody;
    StripFixed(section.title);
    var start := ShortBodyIs(section, maxChars);
    DotsKeepStripped(start);
  }

  /** No more than two sections never overrun. */
  lemma TwoRenderWithin(sections: seq<PromptSection>, maxItems: Option<int>, maxChars: int)
    requires |Considered(sections, maxItems)| <= 2
    ensures |RenderAll(Limited(sections, maxItems, Some(maxChars)))| <= Max(0, maxChars)
  {
    hide Limited, RenderAll, Considered, Total, WillRenderWithin;
    RenderedWithinIff(sections, maxItems, maxChars);
    LimitedIsBeginning(sections, maxItems, Some(maxChars));
  }

  lemma RenderedNone()
    ensures RenderAll([]) == ""
  {
  }

  /** Three sections within a limit of fifteen characters whose rendered text has sixteen. */
  lemma RenderedCanOverrun()
    ensures var section: PromptSection := Titled("t", "b"); var sections := [section, section, section];
      && Limited(sections, None, Some(15)) == sections
      && |RenderAll(sections)| == 16
  {
    var section: PromptSection := Titled("t", "b");
    var sections := [section, section, section];
    assert sections[..2] == [section, section] && sections[..2][..1] == [section] && [section][..0] == [];
    assert Total([section]) == 5;
    assert Total(sections[..2]) == 10;
    assert Total(sections) == 15;
    LimitedUnchangedIff(sections, None, Some(15));
    RenderedLength(sections);
  }
}
