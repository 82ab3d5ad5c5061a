/** UML multiplicity notation: `format_multiplicity` and `parse_multiplicity`. */
module Multiplicities {
  import opened Text
  import opened Uml

  /** `None` stands for the `ValueError` raised on malformed syntax. */
  function ParseBound(lowerText: string, upperText: string): Option<Multiplicity> {
    match ParseInt(lowerText)
    case None => None
    case Some(lower) =>
      if upperText == "*" then Some(Multiplicity(lower, None))
      else
        match ParseInt(upperText)
        case None => None
        case Some(upper) => Some(Multiplicity(lower, Some(upper)))
  }

  function ParseMultiplicity(text: string): Option<Multiplicity> {
    match FindDots(text)
    case None => ParseBound(text, text)
    case Some(k) => ParseBound(text[..k], text[k + 2..])
  }

  function FormatMultiplicity(value: Multiplicity): string {
    match value.upper
    case None => IntText(value.lower) + "..*"
    case Some(upper) =>
      if value.lower == upper then IntText(value.lower)
      else IntText(value.lower) + ".." + IntText(upper)
  }

  /** Printing then parsing is the identity on every range, negative, inverted
      and unbounded ones included. */
  lemma ParseOfFormat(value: Multiplicity)
    ensures ParseMultiplicity(FormatMultiplicity(value)) == Some(value)
  {
    var text := FormatMultiplicity(value);
    var lower := IntText(value.lower);
    IntTextHasNoSpaces(value.lower);
    ParseIntOfIntText(value.lower);
    if value.upper == Some(value.lower) {
      FindDotsNone(lower);
      assert text != "*";
    } else {
      var upper := if value.upper.None? then "*" else IntText(value.upper.value);
      FindDotsAfter(lower, upper);
      assert text == lower + ".." + upper;
      assert text[..|lower|] == lower && text[|lower| + 2..] == upper;
      if value.upper.Some? {
        IntTextHasNoSpaces(value.upper.value);
        ParseIntOfIntText(value.upper.value);
        assert upper != "*";
      }
    }
  }

  /** The printed form survives the `strip()` every reader applies, and is never empty. */
  lemma FormatIsStripped(value: Multiplicity)
    ensures FormatMultiplicity(value) != ""
    ensures Strip(FormatMultiplicity(value)) == FormatMultiplicity(value)
  {
    IntTextHasNoSpaces(value.lower);
    if value.upper.Some? {
      IntTextHasNoSpaces(value.upper.value);
    }
    StripKeepsSpaceless(FormatMultiplicity(value));
  }

  /** The other direction: whatever text was accepted, printing the range read
      from it gives a text that reads as the same range. */
  lemma ReformatIsStable(text: string)
    requires ParseMultiplicity(text).Some?
    ensures ParseMultiplicity(FormatMultiplicity(ParseMultiplicity(text).value)) == ParseMultiplicity(text)
  {
    ParseOfFormat(ParseMultiplicity(text).value);
  }
}
