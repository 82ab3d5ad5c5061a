/** Handwritten multiplicities (`_normalize_image_multiplicity` in `ai_assistant/service.py`). */
module Shorthand {
  import opened Text
  import opened Seqs
  import opened Uml
  import opened Multiplicities

  /** `text.replace(" ", "")`. */
  function WithoutBlanks(text: string): string {
    if text == "" then ""
    else WithoutBlanks(text[..|text| - 1]) + if text[|text| - 1] == ' ' then "" else [text[|text| - 1]]
  }

  function Compact(text: string): string {
    WithoutBlanks(Strip(text))
  }

  predicate IsShorthand(compact: string) {
    || compact == "*" || compact == "n" || compact == "N" || Lower(compact) == "0..n" || Lower(compact) == "0..many"
    || Lower(compact) == "1..n" || Lower(compact) == "1..many"
  }

  /** `_normalize_image_multiplicity`. */
  function NormalizeMultiplicity(text: string): string {
    var compact := Compact(text);
    if compact == "*" || compact == "n" || compact == "N" then "0..*"
    else if Lower(compact) == "0..n" || Lower(compact) == "0..many" then "0..*"
    else if Lower(compact) == "1..n" || Lower(compact) == "1..many" then "1..*"
    else compact
  }

  // ---- blanks ----------------------------------------------------------

  ghost predicate Blank(text: string) {
    forall c :: c in text ==> IsSpace(c)
  }

  /** The text an integer literal may consist of. */
  ghost predicate IsBody(text: string) {
    text != "" && forall c :: c in text ==> IsBodyChar(c)
  }

  lemma {:induction false} StripLeftTakesBlanks(text: string)
    returns (blank: string)
    ensures Blank(blank) && text == blank + StripLeft(text)
  {
    blank := "";
    if text != "" && IsSpace(text[0]) {
      var rest := StripLeftTakesBlanks(text[1..]);
      blank := [text[0]] + rest;
    }
  }

  lemma {:induction false} StripRightTakesBlanks(text: string)
    returns (blank: string)
    ensures Blank(blank) && text == StripRight(text) + blank
  {
    blank := "";
    if text != "" && IsSpace(text[|text| - 1]) {
      var rest := StripRightTakesBlanks(text[..|text| - 1]);
      blank := rest + [text[|text| - 1]];
    }
  }

  lemma {:induction false} StripLeftOf(blank: string, body: string)
    requires Blank(blank) && body != "" && !IsSpace(body[0])
    ensures StripLeft(blank + body) == body
  {
    if blank == "" {
      assert blank + body == body;
    } else {
      assert blank[0] in blank && (blank + body)[1..] == blank[1..] + body;
      StripLeftOf(blank[1..], body);
    }
  }

  lemma {:induction false} StripRightOf(body: string, blank: string)
    requires Blank(blank) && body != "" && !IsSpace(body[|body| - 1])
    ensures StripRight(body + blank) == body
  {
    if blank == "" {
      assert body + blank == body;
    } else {
      var n := |blank| - 1;
      assert blank[n] in blank && (body + blank)[..|body + blank| - 1] == body + blank[..n];
      StripRightOf(body, blank[..n]);
    }
  }

  lemma StripOf(a: string, body: string, b: string)
    requires Blank(a) && Blank(b) && body != "" && !IsSpace(body[0]) && !IsSpace(body[|body| - 1])
    ensures Strip(a + body + b) == body
  {
    AppendAssociates(a, body, b);
    StripLeftOf(a, body + b);
    StripRightOf(body, b);
  }

  lemma {:induction false} BlanksAppend(a: string, b: string)
    ensures WithoutBlanks(a + b) == WithoutBlanks(a) + WithoutBlanks(b)
  {
    if b == "" {
      assert a + b == a;
    } else {
      assert (a + b)[..|a + b| - 1] == a + b[..|b| - 1];
      BlanksAppend(a, b[..|b| - 1]);
    }
  }

  lemma {:induction false} NoBlanks(text: string)
    requires ' ' !in text
    ensures WithoutBlanks(text) == text
  {
    if text != "" {
      LastIsMember(text);
      NoBlanks(text[..|text| - 1]);
    }
  }

  lemma {:induction false} FewerBlanks(text: string)
    ensures forall c :: c in WithoutBlanks(text) ==> c in text
  {
    if text != "" {
      LastIsMember(text);
      FewerBlanks(text[..|text| - 1]);
    }
  }

  // ---- integers --------------------------------------------------------

  lemma {:induction false} DigitsAreBody(text: string)
    requires ParseDigits(text).Some?
    ensures IsBody(text)
  {
    var front := text[..|text| - 1];
    LastIsMember(text);
    if front != "" {
      var head := if front[|front| - 1] == '_' then front[..|front| - 1] else front;
      DigitsAreBody(head);
      LastIsMember(front);
    }
  }

  /** What `int` reads is an integer body between blanks. */
  lemma ReadableIsBody(text: string)
    requires ParseInt(text).Some?
    ensures IsBody(Strip(text))
  {
    var body := Strip(text);
    hide Strip;
    if body[0] == '-' || body[0] == '+' {
      DigitsAreBody(body[1..]);
      assert body == [body[0]] + body[1..];
    } else {
      DigitsAreBody(body);
    }
  }

  lemma SameIntAround(text: string, a: string, b: string)
    requires ParseInt(text).Some? && Blank(a) && Blank(b)
    ensures ParseInt(a + Strip(text) + b) == ParseInt(text)
  {
    ReadableIsBody(text);
    var body := Strip(text);
    assert body[0] in body && body[|body| - 1] in body;
    StripOf(a, body, b);
    hide Strip, ParseDigits;
  }

  lemma AroundBody(text: string)
    returns (a: string, b: string)
    ensures Blank(a) && Blank(b) && text == a + Strip(text) + b
  {
    a := StripLeftTakesBlanks(text);
    b := StripRightTakesBlanks(StripLeft(text));
    AppendAssociates(a, Strip(text), b);
  }

  lemma BlankStaysBlank(text: string)
    requires Blank(text)
    ensures Blank(WithoutBlanks(text))
  {
    FewerBlanks(text);
    hide IsSpace;
  }

  predicate IsBodyChar(c: char) {
    IsDigit(c) || c == '_' || c == '-' || c == '+'
  }

  lemma BodyChar(c: char)
    requires IsBodyChar(c)
    ensures !IsSpace(c) && c != ' ' && c != '.' && c != '*'
  {
  }

  lemma BodyHasNoBlanks(body: string)
    requires IsBody(body)
    ensures body != "" && !IsSpace(body[0]) && !IsSpace(body[|body| - 1])
    ensures WithoutBlanks(body) == body
    ensures forall k :: 0 <= k < |body| ==> body[k] != '.' && body[k] != '*'
  {
    hide IsSpace, IsBodyChar, WithoutBlanks;
    forall k | 0 <= k < |body| ensures !IsSpace(body[k]) && body[k] != ' ' && body[k] != '.' && body[k] != '*' {
      assert body[k] in body;
      BodyChar(body[k]);
    }
    NoBlanks(body);
  }

  lemma BlankHasNoDots(text: string)
    requires Blank(text)
    ensures forall k :: 0 <= k < |text| ==> text[k] != '.'
  {
    forall k | 0 <= k < |text| ensures text[k] != '.' {
      assert text[k] in text;
    }
  }

  lemma NoDotsAppend(a: string, b: string)
    requires forall k :: 0 <= k < |a| ==> a[k] != '.'
    requires forall k :: 0 <= k < |b| ==> b[k] != '.'
    ensures forall k :: 0 <= k < |a + b| ==> (a + b)[k] != '.'
  {
  }

  lemma BodyThenBlanks(text: string)
    returns (b: string)
    ensures Blank(b) && StripLeft(text) == Strip(text) + b
  {
    hide StripLeft, StripRight;
    b := StripRightTakesBlanks(StripLeft(text));
  }

  /** Blanks to the right of an integer do not matter. */
  lemma LowerBoundKeepsMeaning(text: string)
    requires ParseInt(text).Some?
    ensures StripLeft(text) != "" && !IsSpace(StripLeft(text)[0])
    ensures ParseInt(WithoutBlanks(StripLeft(text))) == ParseInt(text)
    ensures forall k :: 0 <= k < |WithoutBlanks(StripLeft(text))| ==> WithoutBlanks(StripLeft(text))[k] != '.'
  {
    hide *;
    ReadableIsBody(text);
    StripLeftEnds(text);
    var body := Strip(text);
    var b := BodyThenBlanks(text);
    BodyHasNoBlanks(body);
    BlanksAppend(body, b);
    BlankStaysBlank(b);
    BlankHasNoDots(WithoutBlanks(b));
    NoDotsAppend(body, WithoutBlanks(b));
    assert "" + body + WithoutBlanks(b) == body + WithoutBlanks(b);
    NothingIsBlank();
    SameIntAround(text, "", WithoutBlanks(b));
  }

  lemma NothingIsBlank()
    ensures Blank("")
  {
  }

  lemma UpperBoundKeepsMeaning(text: string)
    requires ParseInt(text).Some?
    ensures StripRight(text) != ""
    ensures ParseInt(WithoutBlanks(StripRight(text))) == ParseInt(text)
  {
    ReadableIsBody(text);
    var body := Strip(text);
    var a, b := AroundBody(text);
    hide *;
    BodyHasNoBlanks(body);
    assert (a + body)[|a + body| - 1] == body[|body| - 1];
    StripRightOf(a + body, b);
    BlanksAppend(a, body);
    BlankStaysBlank(a);
    assert WithoutBlanks(a) + body + "" == WithoutBlanks(a) + body;
    NothingIsBlank();
    SameIntAround(text, WithoutBlanks(a), "");
  }

  // ---- the theorem -----------------------------------------------------

  lemma RightIsLeft(upper: string)
    requires upper == "*" || ParseInt(upper).Some?
    ensures StripRight(upper) != "" && !IsSpace(StripRight(upper)[|StripRight(upper)| - 1])
  {
    StripRightEnds(upper);
    if upper != "*" {
      UpperBoundKeepsMeaning(upper);
    }
    hide ParseInt;
  }

  lemma StripOfParts(lower: string, upper: string)
    requires ParseInt(lower).Some? && (upper == "*" || ParseInt(upper).Some?)
    ensures Strip(lower + ".." + upper) == StripLeft(lower) + ".." + StripRight(upper)
  {
    hide *;
    LowerBoundKeepsMeaning(lower);
    RightIsLeft(upper);
    var a := StripLeftTakesBlanks(lower);
    var b := StripRightTakesBlanks(upper);
    StripAround(a, StripLeft(lower), StripRight(upper), b);
    assert lower + ".." + upper == a + (StripLeft(lower) + ".." + StripRight(upper)) + b;
  }

  lemma StripAround(a: string, left: string, right: string, b: string)
    requires Blank(a) && Blank(b) && left != "" && !IsSpace(left[0]) && right != "" && !IsSpace(right[|right| - 1])
    ensures Strip(a + (left + ".." + right) + b) == left + ".." + right
  {
    hide *;
    var middle := left + ".." + right;
    assert middle[0] == left[0] && middle[|middle| - 1] == right[|right| - 1];
    StripOf(a, middle, b);
  }

  lemma ReadBounds(lower: string, upper: string)
    requires forall k :: 0 <= k < |lower| ==> lower[k] != '.'
    ensures ParseMultiplicity(lower + ".." + upper) == ParseBound(lower, upper)
  {
    FindDotsAfter(lower, upper);
    hide FindDots, ParseBound;
    assert (lower + ".." + upper)[..|lower|] == lower && (lower + ".." + upper)[|lower| + 2..] == upper;
  }

  lemma CompactParts(a: string, b: string)
    ensures WithoutBlanks(a + ".." + b) == WithoutBlanks(a) + ".." + WithoutBlanks(b)
  {
    BlanksAppend(a + "..", b);
    BlanksAppend(a, "..");
    NoBlanks("..");
    hide WithoutBlanks;
  }

  lemma UpperIsSame(upper: string)
    requires upper == "*" || ParseInt(upper).Some?
    ensures var last := WithoutBlanks(StripRight(upper));
      if upper == "*" then last == "*" else last != "*" && ParseInt(last) == ParseInt(upper)
  {
    if upper == "*" {
      NoBlanks("*");
    } else {
      UpperBoundKeepsMeaning(upper);
      StarIsNoInteger();
    }
    hide WithoutBlanks, ParseInt;
  }

  lemma StarIsNoInteger()
    ensures ParseInt("*").None?
  {
    StripKeepsSpaceless("*");
  }

  lemma BoundsKeepMeaning(lower: string, upper: string)
    requires ParseBound(lower, upper).Some?
    ensures ParseMultiplicity(Compact(lower + ".." + upper)) == ParseBound(lower, upper)
  {
    hide Strip, StripLeft, StripRight, ParseInt, ParseMultiplicity, WithoutBlanks;
    StripOfParts(lower, upper);
    LowerBoundKeepsMeaning(lower);
    CompactParts(StripLeft(lower), StripRight(upper));
    UpperIsSame(upper);
    ReadBounds(WithoutBlanks(StripLeft(lower)), WithoutBlanks(StripRight(upper)));
  }

  lemma ReadAgain(text: string)
    ensures ParseInt(Strip(text)) == ParseInt(text)
  {
    StripTwice(text);
    hide Strip, ParseDigits;
  }

  lemma SingleKeepsMeaning(text: string)
    requires ParseBound(text, text).Some?
    ensures ParseMultiplicity(Compact(text)) == ParseBound(text, text)
  {
    StarIsNoInteger();
    ReadableIsBody(text);
    BodyHasNoBlanks(Strip(text));
    ReadAgain(text);
    FindDotsNone(Strip(text));
    hide Strip, ParseInt, FindDots, WithoutBlanks, IsSpace;
  }

  /** What the parser reads, it reads the same without the blanks. */
  lemma CompactKeepsMeaning(text: string)
    requires ParseMultiplicity(text).Some?
    ensures ParseMultiplicity(Compact(text)) == ParseMultiplicity(text)
  {
    hide ParseBound, Compact;
    match FindDots(text) {
      case None => SingleKeepsMeaning(text);
      case Some(k) =>
        assert text == text[..k] + ".." + text[k + 2..];
        BoundsKeepMeaning(text[..k], text[k + 2..]);
    }
  }

  predicate IsEnding(c: char) {
    c == 'n' || c == 'N' || c == 'y' || c == 'Y'
  }

  lemma LetterEndsNoInteger(text: string)
    requires text != "" && IsEnding(text[|text| - 1])
    ensures ParseInt(text).None?
  {
    StripRightTakesNothing(text);
    if ParseInt(text).Some? {
      ReadableIsBody(text);
    }
    hide ParseInt, Strip;
  }

  lemma StripRightTakesNothing(text: string)
    requires text != "" && IsEnding(text[|text| - 1])
    ensures text[|text| - 1] in Strip(text)
  {
    var a := StripLeftTakesBlanks(text);
    var rest := StripLeft(text);
    assert text[|text| - 1] in text && !Blank(text);
    assert rest[|rest| - 1] == text[|text| - 1];
  }

  lemma LetterEndsNoMultiplicity(text: string)
    requires text != "" && IsEnding(text[|text| - 1])
    ensures ParseMultiplicity(text).None?
  {
    LetterEndsNoInteger(text);
    match FindDots(text) {
      case None =>
      case Some(k) =>
        var upper := text[k + 2..];
        if upper == "" {
          assert Strip("") == "";
        } else {
          assert upper[|upper| - 1] == text[|text| - 1];
          LetterEndsNoInteger(upper);
        }
    }
    hide ParseInt, FindDots;
  }

  /** The parser reads none of the texts that are replaced. */
  lemma ShorthandIsUnreadable(compact: string)
    requires IsShorthand(compact)
    ensures ParseMultiplicity(compact).None?
  {
    if compact == "*" {
      StarIsNoInteger();
      assert FindDots("*").None?;
    } else {
      var n := |compact| - 1;
      assert |Lower(compact)| == |compact| && LowerChar(compact[n]) == Lower(compact)[n];
      LetterEndsNoMultiplicity(compact);
    }
    hide ParseInt, ParseMultiplicity;
  }

  /** Whatever multiplicity the parser reads, normalizing it first changes nothing. */
  lemma NormalizingKeepsMeaning(text: string)
    requires ParseMultiplicity(text).Some?
    ensures ParseMultiplicity(NormalizeMultiplicity(text)) == ParseMultiplicity(text)
  {
    CompactKeepsMeaning(text);
    hide ParseMultiplicity, Lower, Compact;
    if IsShorthand(Compact(text)) {
      ShorthandIsUnreadable(Compact(text));
    }
  }

  lemma ReplacementsAreReadable()
    ensures ParseMultiplicity("0..*") == Some(Multiplicity(0, None)) && ParseMultiplicity("1..*") == Some(Multiplicity(1, None))
  {
    ParseOfFormat(Multiplicity(0, None));
    ParseOfFormat(Multiplicity(1, None));
    assert NatText(0) == "0" && NatText(1) == "1";
    hide ParseMultiplicity;
  }

  /** And the replaced texts become readable. */
  lemma ShorthandBecomesReadable(text: string)
    requires IsShorthand(Compact(text))
    ensures ParseMultiplicity(text).None?
    ensures var r := ParseMultiplicity(NormalizeMultiplicity(text));
      r == Some(Multiplicity(0, None)) || r == Some(Multiplicity(1, None))
  {
    hide ParseMultiplicity, Lower, Compact;
    ShorthandIsUnreadable(Compact(text));
    if ParseMultiplicity(text).Some? {
      CompactKeepsMeaning(text);
    }
    ReplacementsAreReadable();
  }
}
