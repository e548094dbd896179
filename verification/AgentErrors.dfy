/** Structured agent errors: the messages they may carry, and their conversion to details and back. */
module AgentErrors {
  import opened Text
  import opened Values

  // ---------- safe messages ----------

  /** `str.casefold`, character by character. */
  function FoldAll(fold: char -> string, text: string): string {
    if text == "" then "" else FoldAll(fold, text[..|text| - 1]) + fold(text[|text| - 1])
  }

  /** All that is used of case folding: on ASCII it is lower-casing. */
  ghost predicate FoldsAscii(fold: char -> string) {
    forall c :: c as int < 128 ==> fold(c) == [LowerChar(c)]
  }

  const TRACEBACK := "traceback"
  const STACK_TRACE := "stack trace"
  const FILE_LINE := "file \""

  /** The text looks like a stack trace. */
  predicate Revealing(fold: char -> string, text: string) {
    var lowered := FoldAll(fold, text);
    Contains(lowered, TRACEBACK) || Contains(lowered, STACK_TRACE) || Contains(lowered, FILE_LINE)
  }

  const LONGEST := 400

  function Shortened(text: string): string
    requires |text| > LONGEST
  {
    RStrip(text[..LONGEST - 1]) + "..."
  }

  /** A safe message; None stands for a value that is no text. */
  function Normalized(fold: char -> string, value: Option<string>, fallback: string): string {
    if value.None? then fallback
    else
      var text := Strip(value.value);
      if text == "" || Revealing(fold, text) then fallback
      else if |text| <= LONGEST then text
      else Shortened(text)
  }

  /** A text that passes through without being replaced. */
  predicate Passes(fold: char -> string, text: string) {
    text != "" && Stripped(text) && !Revealing(fold, text)
  }

  ghost predicate IsTraceWord(word: string) {
    word in {"traceback", "stack trace", "file \""}
  }

  /** What becomes of a text: the fallback if it is blank or one of three words is in it, case folded; otherwise the
      stripped text, or if that has more than 400 characters the longest beginning of it that has fewer and does not
      end in a space, followed by three dots. */
  lemma NormalizedTold(fold: char -> string, text: string, fallback: string)
    ensures var message, stripped := Normalized(fold, Some(text), fallback), Strip(text);
      var safe := stripped != "" && !HasTraceWord(FoldAll(fold, stripped));
      && (!safe ==> message == fallback)
      && (safe && |stripped| <= 400 ==> message == stripped)
      && (safe && |stripped| > 400 ==>
            exists n: nat :: EndsAt(stripped, n) && message == stripped[..n] + "...")
  {
    hide Strip, IsSpace, FoldAll, HasTraceWord, Revealing;
    var stripped := Strip(text);
    RevealingIff(fold, stripped);
    if |stripped| > LONGEST {
      var start := RStrip(stripped[..399]);
      assert stripped[..399][..|start|] == stripped[..|start|];
      assert forall i :: |start| <= i < 399 ==> stripped[..399][i] == stripped[i];
      assert EndsAt(stripped, |start|);
    }
  }

  /** The last character before n is no space, and there are only spaces from there on. */
  ghost predicate EndsAt(text: string, n: nat) {
    && n <= 399 <= |text|
    && (n > 0 ==> !IsSpace(text[n - 1]))
    && forall i :: n <= i < 399 ==> IsSpace(text[i])
  }

  lemma RevealingIff(fold: char -> string, text: string)
    ensures Revealing(fold, text) <==> HasTraceWord(FoldAll(fold, text))
  {
    hide FoldAll, IsTraceWord;
    TraceWords();
    var lowered := FoldAll(fold, text);
    if HasTraceWord(lowered) {
      var i, word :| IsTraceWord(word) && IsAt(lowered, word, i);
      assert IsAt(lowered, word, i);
      assert Contains(lowered, word);
    }
    if Revealing(fold, text) {
      var word :| IsTraceWord(word) && Contains(lowered, word);
      assert Contains(lowered, word);
      var i :| 0 <= i <= |lowered| && IsAt(lowered, word, i);
      assert IsTraceWord(word) && IsAt(lowered, word, i);
    }
  }

  ghost predicate HasTraceWord(text: string) {
    exists i, word :: IsTraceWord(word) && IsAt(text, word, i)
  }

  lemma TraceWords()
    ensures IsTraceWord(TRACEBACK) && IsTraceWord(STACK_TRACE) && IsTraceWord(FILE_LINE)
    ensures forall word :: IsTraceWord(word) ==> word == TRACEBACK || word == STACK_TRACE || word == FILE_LINE
  {
  }

  lemma {:induction false} FoldAppend(fold: char -> string, left: string, right: string)
    ensures FoldAll(fold, left + right) == FoldAll(fold, left) + FoldAll(fold, right)
  {
    if right == "" {
      assert left + right == left;
    } else {
      assert (left + right)[..|left + right| - 1] == left + right[..|right| - 1];
      FoldAppend(fold, left, right[..|right| - 1]);
    }
  }

  lemma FoldDot(fold: char -> string, text: string)
    requires FoldsAscii(fold)
    ensures FoldAll(fold, text + ".") == FoldAll(fold, text) + "."
  {
    assert LowerChar('.') == '.';
  }

  lemma FoldDots(fold: char -> string)
    requires FoldsAscii(fold)
    ensures FoldAll(fold, "...") == "..."
  {
    FoldDot(fold, "");
    FoldDot(fold, ".");
    FoldDot(fold, "..");
  }

  /** A word without dots that is found in a text followed by dots is found in the text. */
  lemma ContainsBeforeDots(text: string, word: string)
    requires word != "" && '.' !in word && Contains(text + "...", word)
    ensures Contains(text, word)
  {
    var all := text + "...";
    var i :| IsAt(all, word, i);
    assert IsAt(all, word, i);
    assert word[|word| - 1] == all[i + |word| - 1] != '.';
    assert IsAt(text, word, i);
  }

  lemma ContainsLonger(text: string, more: string, word: string)
    requires Contains(text, word)
    ensures Contains(text + more, word)
  {
    var i :| IsAt(text, word, i);
    assert IsAt(text, word, i);
    assert IsAt(text + more, word, i);
  }

  lemma WordsHaveNoDots()
    ensures '.' !in TRACEBACK && '.' !in STACK_TRACE && '.' !in FILE_LINE
    ensures TRACEBACK != "" && STACK_TRACE != "" && FILE_LINE != ""
  {
  }

  /** Neither cutting a text off nor adding dots makes it look like a stack trace. */
  lemma CutRevealsNothing(fold: char -> string, text: string, n: nat)
    requires FoldsAscii(fold) && n <= |text| && !Revealing(fold, text)
    ensures !Revealing(fold, text[..n] + "...")
  {
    hide Contains, FoldAll, TRACEBACK, STACK_TRACE, FILE_LINE;
    WordsHaveNoDots();
    var start := text[..n];
    assert text == start + text[n..];
    FoldAppend(fold, start, text[n..]);
    FoldAppend(fold, start, "...");
    FoldDots(fold);
    forall word | word in {TRACEBACK, STACK_TRACE, FILE_LINE}
      ensures Contains(FoldAll(fold, start + "..."), word) ==> Contains(FoldAll(fold, text), word)
    {
      if Contains(FoldAll(fold, start + "..."), word) {
        ContainsBeforeDots(FoldAll(fold, start), word);
        ContainsLonger(FoldAll(fold, start), FoldAll(fold, text[n..]), word);
      }
    }
  }

  /** What is kept of a text before the dots. */
  lemma KeptPart(text: string) returns (kept: string)
    requires text != "" && Stripped(text) && |text| > LONGEST
    ensures Shortened(text) == kept + "..."
    ensures 0 < |kept| < LONGEST && kept == text[..|kept|]
    ensures !IsSpace(kept[0]) && !IsSpace(kept[|kept| - 1])
  {
    kept := RStrip(text[..LONGEST - 1]);
    assert text[..LONGEST - 1][0] == text[0];
  }

  lemma DotsAreNoSpace(text: string)
    requires text != "" && !IsSpace(text[0])
    ensures Stripped(text + "...") && Strip(text + "...") == text + "..."
  {
    StripFixed(text + "...");
  }

  /** A shortened text passes again. */
  lemma ShortenedPasses(fold: char -> string, text: string)
    requires FoldsAscii(fold) && Passes(fold, text) && |text| > LONGEST
    ensures Passes(fold, Shortened(text))
    ensures 4 <= |Shortened(text)| <= LONGEST + 2
  {
    hide Revealing, IsSpace, FoldsAscii, Shortened, Strip;
    var kept := KeptPart(text);
    DotsAreNoSpace(kept);
    CutRevealsNothing(fold, text, |kept|);
  }

  /** The message is bounded and safe, whatever the value, if the fallback is. */
  lemma NormalizedPasses(fold: char -> string, value: Option<string>, fallback: string)
    requires FoldsAscii(fold) && Passes(fold, fallback) && |fallback| <= LONGEST + 2
    ensures Passes(fold, Normalized(fold, value, fallback))
    ensures |Normalized(fold, value, fallback)| <= LONGEST + 2
  {
    hide Revealing, IsSpace, FoldsAscii, Shortened, Strip;
    if value.Some? && |Strip(value.value)| > LONGEST && !Revealing(fold, Strip(value.value)) {
      ShortenedPasses(fold, Strip(value.value));
    }
  }

  /** Shortening once more: a text of 402 characters stays as it is, one of 401 becomes one of 402. */
  lemma ShortenedAgain(text: string)
    requires text != "" && Stripped(text) && |text| > LONGEST
    ensures var once := Shortened(text);
      && (|once| == LONGEST + 2 ==> Shortened(once) == once)
      && (|once| == LONGEST + 1 ==> |Shortened(once)| == LONGEST + 2)
  {
    var kept := KeptPart(text);
    if |kept| == LONGEST - 1 {
      RStripFixed(kept);
      assert (kept + "...")[..LONGEST - 1] == kept;
    } else if |kept| == LONGEST - 2 {
      RStripFixed(kept + ".");
      assert (kept + "...")[..LONGEST - 1] == kept + ".";
    }
  }

  /** Normalising a text that passes. */
  lemma NormalizedPassing(fold: char -> string, text: string, fallback: string)
    requires Passes(fold, text)
    ensures Normalized(fold, Some(text), fallback) == if |text| <= LONGEST then text else Shortened(text)
  {
    hide Revealing, Shortened, Strip, Stripped;
    StripFixed(text);
  }

  /** A message normalised once is left alone by the normaliser exactly when it does not have 401 characters, and
      then it has 402. */
  lemma NormalizedTwice(fold: char -> string, value: Option<string>, fallback: string, other: string)
    requires FoldsAscii(fold) && Passes(fold, fallback) && |fallback| <= LONGEST
    ensures var once := Normalized(fold, value, fallback);
      var twice := Normalized(fold, Some(once), other);
      && (twice == once <==> |once| != LONGEST + 1)
      && (|once| == LONGEST + 1 ==> |twice| == LONGEST + 2)
  {
    hide Revealing, Shortened, Strip, FoldsAscii;
    var once := Normalized(fold, value, fallback);
    NormalizedPasses(fold, value, fallback);
    NormalizedPassing(fold, once, other);
    if |once| > LONGEST {
      ShortenedAgain(Strip(value.value));
    }
  }

  /** The second normalisation is a fixed point, whatever the fallbacks are. */
  lemma NormalizedSettles(fold: char -> string, value: Option<string>, first: string, second: string, third: string)
    requires FoldsAscii(fold) && Passes(fold, first) && |first| <= LONGEST
    ensures var twice := Normalized(fold, Some(Normalized(fold, value, first)), second);
      && Normalized(fold, Some(twice), third) == twice
      && |twice| <= LONGEST + 2
  {
    hide Revealing, Shortened, Strip, FoldsAscii, Normalized, Passes;
    var once := Normalized(fold, value, first);
    var twice := Normalized(fold, Some(once), second);
    NormalizedPasses(fold, value, first);
    NormalizedTwice(fold, value, first, second);
    NormalizedPassing(fold, once, second);
    if |once| > LONGEST {
      ShortenedPasses(fold, once);
    }
    NormalizedPassing(fold, twice, third);
    if |once| > LONGEST {
      PassesMeans(fold, once);
      ShortenedAgain(once);
    }
  }

  lemma PassesMeans(fold: char -> string, text: string)
    requires Passes(fold, text)
    ensures text != "" && Stripped(text)
  {
  }

  // ---------- when one application is enough ----------

  /** The text is too long, and cutting it at 399 characters leaves exactly one trailing space to drop. */
  predicate CutsOneSpace(text: string) {
    |text| > LONGEST && IsSpace(text[LONGEST - 2]) && !IsSpace(text[LONGEST - 3])
  }

  lemma CutsOneSpaceMeans(text: string)
    requires |text| > LONGEST
    ensures |Shortened(text)| == LONGEST + 1 <==> CutsOneSpace(text)
  {
    var start := text[..LONGEST - 1];
    var kept := RStrip(start);
    assert start[LONGEST - 2] == text[LONGEST - 2] && start[LONGEST - 3] == text[LONGEST - 3];
    if CutsOneSpace(text) {
      assert RStrip(start[..LONGEST - 2]) == start[..LONGEST - 2] by {
        RStripFixed(start[..LONGEST - 2]);
      }
    }
  }

  /** Normalising is idempotent except on safe long texts that are cut in front of a word. */
  lemma NormalizedIdempotentIff(fold: char -> string, value: Option<string>, fallback: string)
    requires FoldsAscii(fold) && Passes(fold, fallback) && |fallback| <= LONGEST
    ensures var once := Normalized(fold, value, fallback);
      Normalized(fold, Some(once), fallback) == once <==>
      !(value.Some? && CutsOneSpace(Strip(value.value)) && !Revealing(fold, Strip(value.value)))
  {
    hide Revealing, Shortened, Strip, FoldsAscii, CutsOneSpace, Passes;
    NormalizedTwice(fold, value, fallback, fallback);
    LongerThan(value, fold, fallback);
  }

  lemma LongerThan(value: Option<string>, fold: char -> string, fallback: string)
    requires |fallback| <= LONGEST
    ensures |Normalized(fold, value, fallback)| == LONGEST + 1 <==>
      value.Some? && CutsOneSpace(Strip(value.value)) && !Revealing(fold, Strip(value.value))
  {
    hide Revealing, Shortened, Strip, IsSpace;
    if value.Some? && |Strip(value.value)| > LONGEST {
      CutsOneSpaceMeans(Strip(value.value));
    }
  }

  /** ASCII text without the letter k and without double quotes. */
  predicate Plain(text: string) {
    forall i :: 0 <= i < |text| ==> text[i] as int < 128 && text[i] != 'k' && text[i] != 'K' && text[i] != '\"'
  }

  lemma {:induction false} FoldPlain(fold: char -> string, text: string)
    requires FoldsAscii(fold) && Plain(text)
    ensures 'k' !in FoldAll(fold, text) && '\"' !in FoldAll(fold, text)
  {
    if text != "" {
      var last := text[|text| - 1];
      FoldPlain(fold, text[..|text| - 1]);
      assert fold(last) == [LowerChar(last)];
    }
  }

  /** Plain text never looks like a stack trace: each of the three words has a k or a quote. */
  lemma PlainReveals(fold: char -> string, text: string)
    requires FoldsAscii(fold) && Plain(text)
    ensures !Revealing(fold, text)
  {
    hide FoldAll;
    FoldPlain(fold, text);
    var lowered := FoldAll(fold, text);
    assert TRACEBACK[8] == 'k' && STACK_TRACE[4] == 'k' && FILE_LINE[5] == '\"';
    NotContained(lowered, TRACEBACK, 8);
    NotContained(lowered, STACK_TRACE, 4);
    NotContained(lowered, FILE_LINE, 5);
  }

  lemma NotContained(text: string, word: string, j: nat)
    requires j < |word| && word[j] !in text
    ensures !Contains(text, word)
  {
    forall i ensures !IsAt(text, word, i) {
      if 0 <= i <= |text| - |word| {
        var found := text[i..i + |word|];
        assert found[j] == text[i + j];
      }
    }
  }

  /** A text of 401 characters on which the normaliser is not idempotent. */
  lemma NotIdempotent(fold: char -> string, fallback: string)
    requires FoldsAscii(fold) && Passes(fold, fallback) && |fallback| <= LONGEST
    ensures var text := seq(401, i => if i == 398 then ' ' else 'a');
      var once := Normalized(fold, Some(text), fallback);
      |once| == 401 && |Normalized(fold, Some(once), fallback)| == 402
  {
    hide Revealing, Shortened, Strip, Passes, FoldsAscii;
    var text := seq(401, i => if i == 398 then ' ' else 'a');
    StripFixed(text);
    PlainReveals(fold, text);
    LongerThan(Some(text), fold, fallback);
    NormalizedTwice(fold, Some(text), fallback, fallback);
  }

  // ---------- the error classes ----------

  datatype ErrorClass =
    | AgentError | NotFound | Disabled | Configuration | PolicyDenied | Capability | InputValidation | PromptBuild
    | Llm | OutputParse | ToolIntent | MemoryCandidate | Review | LimitExceeded | Cancelled

  function Code(errorClass: ErrorClass): string {
    match errorClass
    case AgentError => "agent_error"
    case NotFound => "agent_not_found"
    case Disabled => "agent_disabled"
    case Configuration => "agent_configuration_error"
    case PolicyDenied => "agent_policy_denied"
    case Capability => "agent_capability_error"
    case InputValidation => "agent_input_invalid"
    case PromptBuild => "agent_prompt_build_error"
    case Llm => "agent_llm_error"
    case OutputParse => "agent_output_parse_error"
    case ToolIntent => "agent_tool_intent_error"
    case MemoryCandidate => "agent_memory_candidate_error"
    case Review => "agent_review_error"
    case LimitExceeded => "agent_limit_exceeded"
    case Cancelled => "agent_cancelled"
  }

  predicate DefaultRetryable(errorClass: ErrorClass) {
    errorClass.Llm?
  }

  const CODED: seq<ErrorClass> := [
    NotFound, Disabled, Configuration, PolicyDenied, Capability, InputValidation, PromptBuild, Llm, OutputParse,
    ToolIntent, MemoryCandidate, Review, LimitExceeded, Cancelled
  ]

  /** The class on record for a code, the base class for any other. */
  function ClassByCode(code: string): ErrorClass {
    ClassFrom(code, 0)
  }

  function ClassFrom(code: string, i: nat): ErrorClass
    requires i <= |CODED|
    decreases |CODED| - i
  {
    if i == |CODED| then AgentError
    else if Code(CODED[i]) == code then CODED[i]
    else ClassFrom(code, i + 1)
  }

  lemma CodesDiffer(one: ErrorClass, other: ErrorClass)
    requires one != other
    ensures Code(one) != Code(other)
  {
  }

  lemma CodeIsIdentifier(errorClass: ErrorClass)
    ensures Strip(Code(errorClass)) == Code(errorClass) != ""
  {
    hide Strip, Code;
    CodeEnds(errorClass);
    StripFixed(Code(errorClass));
  }

  lemma CodeEnds(errorClass: ErrorClass)
    ensures var code := Code(errorClass); code != "" && code[0] == 'a' && code[|code| - 1] in {'d', 'r'}
  {
  }

  lemma CodedAll(errorClass: ErrorClass)
    requires errorClass != AgentError
    ensures errorClass in CODED
  {
    assert CODED[0] == NotFound && CODED[1] == Disabled && CODED[2] == Configuration && CODED[3] == PolicyDenied;
    assert CODED[4] == Capability && CODED[5] == InputValidation && CODED[6] == PromptBuild && CODED[7] == Llm;
    assert CODED[8] == OutputParse && CODED[9] == ToolIntent && CODED[10] == MemoryCandidate && CODED[11] == Review;
    assert CODED[12] == LimitExceeded && CODED[13] == Cancelled;
  }

  lemma {:induction false} FoundFrom(errorClass: ErrorClass, i: nat)
    requires i <= |CODED|
    ensures ClassFrom(Code(errorClass), i) == if errorClass in CODED[i..] then errorClass else AgentError
    decreases |CODED| - i
  {
    hide Code, CODED;
    if i < |CODED| {
      if CODED[i] != errorClass {
        CodesDiffer(CODED[i], errorClass);
      }
      FoundFrom(errorClass, i + 1);
      assert CODED[i..] == [CODED[i]] + CODED[i + 1..];
    }
  }

  /** Every class is found by its code. */
  lemma ClassOfCode(errorClass: ErrorClass)
    ensures ClassByCode(Code(errorClass)) == errorClass
  {
    hide Code, CODED, ClassFrom;
    FoundFrom(errorClass, 0);
    assert CODED[0..] == CODED;
    if errorClass != AgentError {
      CodedAll(errorClass);
    }
  }

  /** The codes on record. */
  lemma CodesOnRecord()
    ensures ClassByCode("agent_not_found") == NotFound
    ensures ClassByCode("agent_disabled") == Disabled
    ensures ClassByCode("agent_configuration_error") == Configuration
    ensures ClassByCode("agent_policy_denied") == PolicyDenied
    ensures ClassByCode("agent_capability_error") == Capability
    ensures ClassByCode("agent_input_invalid") == InputValidation
    ensures ClassByCode("agent_prompt_build_error") == PromptBuild
    ensures ClassByCode("agent_llm_error") == Llm
    ensures ClassByCode("agent_output_parse_error") == OutputParse
    ensures ClassByCode("agent_tool_intent_error") == ToolIntent
    ensures ClassByCode("agent_memory_candidate_error") == MemoryCandidate
    ensures ClassByCode("agent_review_error") == Review
    ensures ClassByCode("agent_limit_exceeded") == LimitExceeded
    ensures ClassByCode("agent_cancelled") == Cancelled
  {
    hide ClassByCode;
    ClassOfCode(NotFound);
    ClassOfCode(Disabled);
    ClassOfCode(Configuration);
    ClassOfCode(PolicyDenied);
    ClassOfCode(Capability);
    ClassOfCode(InputValidation);
    ClassOfCode(PromptBuild);
    ClassOfCode(Llm);
    ClassOfCode(OutputParse);
    ClassOfCode(ToolIntent);
    ClassOfCode(MemoryCandidate);
    ClassOfCode(Review);
    ClassOfCode(LimitExceeded);
    ClassOfCode(Cancelled);
  }

  // ---------- errors, details, and the way back ----------

  /** The default messages of the classes. */
  type Defaults = ErrorClass -> string

  ghost predicate SafeDefaults(fold: char -> string, defaults: Defaults) {
    forall c: ErrorClass :: Passes(fold, defaults(c)) && |defaults(c)| <= LONGEST
  }

  datatype Failure = Failure(errorClass: ErrorClass, message: string, retryable: bool)

  datatype Detail = Detail(code: string, message: string, retryable: bool)

  /** The constructor of an error. */
  function MakeFailure(
    fold: char -> string, defaults: Defaults, errorClass: ErrorClass, message: Option<string>, retryable: Option<bool>)
    : Failure
  {
    Failure(
      errorClass,
      Normalized(fold, message, defaults(errorClass)),
      if retryable.Some? then retryable.value else DefaultRetryable(errorClass))
  }

  /** The constructor of a detail; it fails on a blank code. */
  function MakeDetail(
    fold: char -> string, defaults: Defaults, code: string, message: Option<string>, retryable: bool): Option<Detail>
  {
    if Strip(code) == "" then None
    else Some(Detail(Strip(code), Normalized(fold, message, defaults(AgentError)), retryable))
  }

  /** A detail is made exactly when its code is not blank, with the code stripped and the flag as given. */
  lemma DetailMade(fold: char -> string, defaults: Defaults, code: string, message: Option<string>, retryable: bool)
    ensures var detail := MakeDetail(fold, defaults, code, message, retryable);
      && (detail.None? <==> OnlySpaces(code))
      && (detail.Some? ==> detail.value.code == Strip(code) && detail.value.retryable == retryable)
  {
    hide Normalized, IsSpace, Strip;
    BlankIff(code);
  }

  function ToDetail(fold: char -> string, defaults: Defaults, failure: Failure): Option<Detail> {
    MakeDetail(fold, defaults, Code(failure.errorClass), Some(failure.message), failure.retryable)
  }

  function FromDetail(fold: char -> string, defaults: Defaults, detail: Detail): Failure {
    MakeFailure(fold, defaults, ClassByCode(detail.code), Some(detail.message), Some(detail.retryable))
  }

  /** The error came out of its constructor. */
  ghost predicate Made(fold: char -> string, defaults: Defaults, failure: Failure) {
    exists message: Option<string> :: failure.message == Normalized(fold, message, defaults(failure.errorClass))
  }

  /** The detail of an error always exists; rebuilt and turned back, it is the same detail, and the error rebuilt
      from it has the class of the first. */
  lemma DetailRoundTrip(fold: char -> string, defaults: Defaults, failure: Failure)
    requires FoldsAscii(fold) && SafeDefaults(fold, defaults) && Made(fold, defaults, failure)
    ensures var detail := ToDetail(fold, defaults, failure);
      && detail.Some?
      && |detail.value.message| <= LONGEST + 2
      && detail.value.code == Code(failure.errorClass)
      && FromDetail(fold, defaults, detail.value).errorClass == failure.errorClass
      && ToDetail(fold, defaults, FromDetail(fold, defaults, detail.value)) == detail
  {
    hide Code, ClassByCode, Normalized, FoldsAscii, Passes;
    CodeIsIdentifier(failure.errorClass);
    ClassOfCode(failure.errorClass);
    var first, base := defaults(failure.errorClass), defaults(AgentError);
    var message: Option<string> :| failure.message == Normalized(fold, message, first);
    NormalizedSettles(fold, message, first, base, first);
    NormalizedSettles(fold, message, first, base, base);
  }

  /** For a detail that was not made from an error the way back can lose the code or lengthen the message: it is
      kept exactly when the code belongs to a class and the message does not have 401 characters. */
  lemma AnyDetailKeptIff(
    fold: char -> string, defaults: Defaults, code: string, message: Option<string>, retryable: bool)
    requires FoldsAscii(fold) && SafeDefaults(fold, defaults) && Strip(code) != ""
    ensures var detail := MakeDetail(fold, defaults, code, message, retryable);
      ToDetail(fold, defaults, FromDetail(fold, defaults, detail.value)) == detail <==>
      && (exists c: ErrorClass :: Code(c) == Strip(code))
      && |detail.value.message| != LONGEST + 1
  {
    hide Code, ClassByCode, Normalized, FoldsAscii, Passes;
    var base := defaults(AgentError);
    var found := ClassByCode(Strip(code));
    CodeIsIdentifier(found);
    if c: ErrorClass :| Code(c) == Strip(code) {
      ClassOfCode(c);
    }
    NormalizedTwice(fold, message, base, defaults(found));
    NormalizedTwice(fold, message, base, base);
    NormalizedSettles(fold, message, base, defaults(found), base);
  }

  // ---------- foreign exceptions ----------

  /** The backend's other exceptions, by the most special class that is looked for. */
  datatype Kind = PolicyDenial | BadConfiguration | LlmGateway | ToolGateway | MemoryGateway | OtherGateway | Unknown

  datatype Raised =
    | Structured(failure: Failure)
    | Cancellation
    | Foreign(kind: Kind, code: Option<string>, text: string, retryable: Option<bool>)

  /** The stripped code, unless it is blank or no text. */
  function SourceCode(code: Option<string>): Option<string> {
    if code.None? || Strip(code.value) == "" then None else Some(Strip(code.value))
  }

  predicate EndsWith(text: string, end: string) {
    |end| <= |text| && text[|text| - |end|..] == end
  }

  /** A denial by policy, told by class or by code. */
  predicate DeniedByPolicy(raised: Raised) {
    && raised.Foreign?
    && (raised.kind.PolicyDenial?
        || (SourceCode(raised.code).Some? && EndsWith(SourceCode(raised.code).value, "_policy_denied")))
  }

  function NormalizeError(fold: char -> string, defaults: Defaults, raised: Raised): Failure {
    match raised
    case Structured(failure) => failure
    case Cancellation => MakeFailure(fold, defaults, Cancelled, None, None)
    case Foreign(kind, code, text, retryable) =>
      if DeniedByPolicy(raised) then MakeFailure(fold, defaults, PolicyDenied, Some(text), retryable)
      else
        match kind
        case BadConfiguration => MakeFailure(fold, defaults, Configuration, None, None)
        case LlmGateway => MakeFailure(fold, defaults, Llm, None, Some(true))
        case ToolGateway => MakeFailure(fold, defaults, ToolIntent, None, None)
        case MemoryGateway => MakeFailure(fold, defaults, MemoryCandidate, None, None)
        case OtherGateway => MakeFailure(fold, defaults, Llm, None, Some(true))
        case _ => MakeFailure(fold, defaults, AgentError, None, None)
  }

  function DetailFromException(fold: char -> string, defaults: Defaults, raised: Raised): Option<Detail> {
    ToDetail(fold, defaults, NormalizeError(fold, defaults, raised))
  }

  /** A foreign exception counts as denied by policy when its class says so, or the end of its code. */
  ghost predicate Denied(raised: Raised) {
    && raised.Foreign?
    && (raised.kind.PolicyDenial?
        || (raised.code.Some? && exists head :: Strip(raised.code.value) == head + "_policy_denied"))
  }

  lemma DeniedIff(raised: Raised)
    ensures DeniedByPolicy(raised) <==> Denied(raised)
  {
    hide Strip;
    if raised.Foreign? && raised.code.Some? {
      EndsIff(Strip(raised.code.value), "_policy_denied");
      if Strip(raised.code.value) == "" {
        assert forall head :: |head + "_policy_denied"| >= 14;
      }
    }
  }

  lemma EndsIff(text: string, end: string)
    ensures EndsWith(text, end) <==> exists head :: text == head + end
  {
    if EndsWith(text, end) {
      assert text == text[..|text| - |end|] + end;
    }
  }

  /** Every exception has a detail that survives being rebuilt and turned back.  The text of a foreign exception
      gets into it only when policy denied the request; otherwise the message is the default of a class. */
  lemma EveryExceptionHasDetail(fold: char -> string, defaults: Defaults, raised: Raised)
    requires FoldsAscii(fold) && SafeDefaults(fold, defaults)
    requires raised.Structured? ==> Made(fold, defaults, raised.failure)
    ensures var detail := DetailFromException(fold, defaults, raised);
      && detail.Some?
      && |detail.value.message| <= LONGEST + 2
      && ToDetail(fold, defaults, FromDetail(fold, defaults, detail.value)) == detail
      && (!raised.Structured? && !Denied(raised) ==>
            exists c: ErrorClass :: detail.value.code == Code(c) && detail.value.message == defaults(c))
  {
    hide Code, ClassByCode, FoldsAscii, Passes, Normalized, DeniedByPolicy, Denied, Strip;
    DeniedIff(raised);
    var failure := NormalizeError(fold, defaults, raised);
    if !raised.Structured? {
      var message := if raised.Foreign? && DeniedByPolicy(raised) then Some(raised.text) else None;
      assert failure.message == Normalized(fold, message, defaults(failure.errorClass));
    }
    DetailRoundTrip(fold, defaults, failure);
    if !raised.Structured? && !DeniedByPolicy(raised) {
      DefaultStays(fold, defaults, failure.errorClass);
    }
  }

  /** The code and the flag of the detail of an exception that is no agent error: an LLM failure may be retried, a
      denial if the exception says so, and nothing else.  A text that needs no cleaning goes into a denial as it is. */
  lemma ExceptionTold(fold: char -> string, defaults: Defaults, raised: Raised)
    requires FoldsAscii(fold) && SafeDefaults(fold, defaults) && !raised.Structured?
    ensures var detail := DetailFromException(fold, defaults, raised);
      && detail.Some?
      && detail.value.code == CodeTold(raised)
      && (detail.value.retryable <==>
            if Denied(raised) then raised.retryable == Some(true)
            else raised.Foreign? && raised.kind in {LlmGateway, OtherGateway})
      && (Denied(raised) && Passes(fold, raised.text) && |raised.text| <= LONGEST ==>
            detail.value.message == raised.text)
  {
    hide ClassByCode, FoldsAscii, Passes, Normalized, DeniedByPolicy, Strip;
    DeniedIff(raised);
    CodeIsIdentifier(NormalizeError(fold, defaults, raised).errorClass);
    if raised.Foreign? && Denied(raised) && Passes(fold, raised.text) && |raised.text| <= LONGEST {
      NormalizedPassing(fold, raised.text, defaults(PolicyDenied));
      NormalizedPassing(fold, raised.text, defaults(AgentError));
    }
  }

  ghost function CodeTold(raised: Raised): string {
    if raised.Cancellation? then "agent_cancelled"
    else if Denied(raised) then "agent_policy_denied"
    else if raised.Foreign? && raised.kind.BadConfiguration? then "agent_configuration_error"
    else if raised.Foreign? && raised.kind in {LlmGateway, OtherGateway} then "agent_llm_error"
    else if raised.Foreign? && raised.kind.ToolGateway? then "agent_tool_intent_error"
    else if raised.Foreign? && raised.kind.MemoryGateway? then "agent_memory_candidate_error"
    else "agent_error"
  }

  /** A default message goes into a detail as it is. */
  lemma DefaultStays(fold: char -> string, defaults: Defaults, errorClass: ErrorClass)
    requires SafeDefaults(fold, defaults)
    ensures Normalized(fold, None, defaults(errorClass)) == defaults(errorClass)
    ensures Normalized(fold, Some(defaults(errorClass)), defaults(AgentError)) == defaults(errorClass)
  {
    hide Passes, Revealing, Shortened, Strip;
    var message := defaults(errorClass);
    assert Passes(fold, message) && |message| <= LONGEST;
    NormalizedPassing(fold, message, defaults(AgentError));
  }
}
