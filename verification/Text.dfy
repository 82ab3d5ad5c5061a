/** Optional values, decimal notation and the small string operations of
    Python that the modelled code relies on. */
module Text {

  datatype Option<+T> = None | Some(value: T)

  datatype Result<+T, +E> = Ok(value: T) | Err(error: E)

  /** `text or default`. */
  function TextOr(text: Option<string>, default: string): string {
    if text.None? || text.value == "" then default else text.value
  }

  function LowerChar(c: char): char {
    if 'A' <= c <= 'Z' then (c as int + 32) as char else c
  }

  /** `str.lower()` on ASCII letters; the texts it is compared with are ASCII. */
  function Lower(text: string): (r: string)
    ensures |r| == |text|
  {
    seq(|text|, i requires 0 <= i < |text| => LowerChar(text[i]))
  }

  // ---- decimal notation ------------------------------------------------

  function Digit(d: nat): char
    requires d < 10
  {
    (48 + d) as char
  }

  predicate IsDigit(c: char) {
    48 <= c as int <= 57
  }

  /** `str(n)` for a non-negative integer. */
  function NatText(n: nat): string {
    if n < 10 then [Digit(n)] else NatText(n / 10) + [Digit(n % 10)]
  }

  /** `str(i)` for any integer. */
  function IntText(i: int): string {
    if i < 0 then "-" + NatText(-i) else NatText(i)
  }

  /** The digits of an `int(...)` literal: single underscores may separate them. */
  function ParseDigits(text: string): Option<nat> {
    if text == "" || !IsDigit(text[|text| - 1]) then None
    else
      var digit := text[|text| - 1] as int - 48;
      var front := text[..|text| - 1];
      if front == "" then Some(digit)
      else
        var head := if front[|front| - 1] == '_' then front[..|front| - 1] else front;
        match ParseDigits(head)
        case None => None
        case Some(high) => Some(10 * high + digit)
  }

  /** Python's `int(text)`: `None` stands for `ValueError`. */
  function ParseInt(text: string): Option<int> {
    var body := Strip(text);
    if body != "" && (body[0] == '-' || body[0] == '+') then
      match ParseDigits(body[1..])
      case None => None
      case Some(n) => var i: int := n; Some(if body[0] == '-' then -i else i)
    else
      match ParseDigits(body)
      case None => None
      case Some(n) => Some(n)
  }

  lemma {:induction false} NatTextIsDigits(n: nat)
    ensures NatText(n) != ""
    ensures forall i :: 0 <= i < |NatText(n)| ==> IsDigit(NatText(n)[i])
  {
    if n >= 10 {
      NatTextIsDigits(n / 10);
    }
  }

  lemma {:induction false} ParseDigitsOfNatText(n: nat)
    ensures ParseDigits(NatText(n)) == Some(n)
  {
    if n >= 10 {
      var high := NatText(n / 10);
      NatTextIsDigits(n / 10);
      ParseDigitsOfNatText(n / 10);
      assert NatText(n)[..|NatText(n)| - 1] == high;
      assert IsDigit(high[|high| - 1]);
    }
  }

  /** Reading back a printed integer gives the integer. */
  lemma ParseIntOfIntText(i: int)
    ensures ParseInt(IntText(i)) == Some(i)
  {
    var n := if i < 0 then -i else i;
    NatTextIsDigits(n);
    ParseDigitsOfNatText(n);
    IntTextHasNoSpaces(i);
    StripKeepsSpaceless(IntText(i));
    assert i < 0 ==> IntText(i)[1..] == NatText(n);
    assert i >= 0 ==> IsDigit(IntText(i)[0]);
  }

  lemma NatTextInjective(a: nat, b: nat)
    requires NatText(a) == NatText(b)
    ensures a == b
  {
    ParseDigitsOfNatText(a);
    ParseDigitsOfNatText(b);
  }

  lemma IntTextHasNoSpaces(i: int)
    ensures IntText(i) != ""
    ensures forall k :: 0 <= k < |IntText(i)| ==> IntText(i)[k] == '-' || IsDigit(IntText(i)[k])
    ensures forall k :: 0 <= k < |IntText(i)| ==> !IsSpace(IntText(i)[k])
  {
    NatTextIsDigits(if i < 0 then -i else i);
  }

  // ---- whitespace ------------------------------------------------------

  /** The characters `str.strip()` removes. */
  predicate IsSpace(c: char) {
    var n := c as int;
    || 9 <= n <= 13 || 28 <= n <= 32 || n == 0x85 || n == 0xA0 || n == 0x1680
    || 0x2000 <= n <= 0x200A || n == 0x2028 || n == 0x2029 || n == 0x202F || n == 0x205F || n == 0x3000
  }

  function StripLeft(text: string): string {
    if text != "" && IsSpace(text[0]) then StripLeft(text[1..]) else text
  }

  function StripRight(text: string): string {
    if text != "" && IsSpace(text[|text| - 1]) then StripRight(text[..|text| - 1]) else text
  }

  /** Python's `str.strip()`. */
  function Strip(text: string): string {
    StripRight(StripLeft(text))
  }

  lemma StripKeepsSpaceless(text: string)
    requires text != "" ==> !IsSpace(text[0]) && !IsSpace(text[|text| - 1])
    ensures Strip(text) == text
  {
  }

  lemma {:induction false} StripLeftEnds(text: string)
    ensures StripLeft(text) != "" ==> !IsSpace(StripLeft(text)[0])
  {
    if text != "" && IsSpace(text[0]) {
      StripLeftEnds(text[1..]);
    }
  }

  lemma {:induction false} StripRightEnds(text: string)
    ensures StripRight(text) <= text
    ensures StripRight(text) != "" ==> !IsSpace(StripRight(text)[|StripRight(text)| - 1])
  {
    if text != "" && IsSpace(text[|text| - 1]) {
      StripRightEnds(text[..|text| - 1]);
    }
  }

  lemma StripTwice(text: string)
    ensures Strip(Strip(text)) == Strip(text)
  {
    StripLeftEnds(text);
    StripRightEnds(StripLeft(text));
    hide IsSpace, StripLeft, StripRight;
    StripKeepsSpaceless(Strip(text));
  }

  // ---- substrings ------------------------------------------------------

  /** The position of the first `".."`, as `text.partition("..")` finds it. */
  function FindDots(text: string): (r: Option<nat>)
    ensures r.Some? ==> r.value + 2 <= |text| && text[r.value..r.value + 2] == ".."
  {
    if |text| < 2 then None
    else if text[0] == '.' && text[1] == '.' then Some(0)
    else
      match FindDots(text[1..])
      case None => None
      case Some(k) => Some(k + 1)
  }

  lemma {:induction false} FindDotsAfter(head: string, tail: string)
    requires forall k :: 0 <= k < |head| ==> head[k] != '.'
    ensures FindDots(head + ".." + tail) == Some(|head|)
  {
    var whole := head + ".." + tail;
    if head == "" {
      assert whole[0] == '.' && whole[1] == '.';
    } else {
      assert whole[0] == head[0];
      assert whole[1..] == head[1..] + ".." + tail;
      FindDotsAfter(head[1..], tail);
    }
  }

  lemma {:induction false} FindDotsNone(text: string)
    requires forall k :: 0 <= k < |text| ==> text[k] != '.'
    ensures FindDots(text) == None
  {
    if |text| >= 2 {
      FindDotsNone(text[1..]);
    }
  }
}
