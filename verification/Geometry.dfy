/** Diagram boxes of the XMI dialect: the exporter rounds a centre to a box of whole
    numbers, the importer reads the centre of the box back. */
module Geometry {
  import opened Text
  import opened Documents

  const BOX_WIDTH := 117
  const BOX_HEIGHT := 71
  const ROW_HEIGHT := 14
  const HEADER_HEIGHT := 40

  function BoxHeight(rows: nat): int {
    if BOX_HEIGHT < HEADER_HEIGHT + rows * ROW_HEIGHT then HEADER_HEIGHT + rows * ROW_HEIGHT else BOX_HEIGHT
  }

  // ---- rounding --------------------------------------------------------

  /** Python's `round`: to the nearest integer, halves to the even one. */
  function Round(x: real): int {
    var below := x.Floor;
    var rest := x - below as real;
    if rest < 0.5 then below
    else if rest > 0.5 then below + 1
    else if below % 2 == 0 then below
    else below + 1
  }

  /** The centre that comes back for an exported centre `x` of a box `size` wide. */
  function Snap(x: real, size: int): real {
    Round(x - size as real / 2.0) as real + size as real / 2.0
  }

  /** One round trip moves a coordinate by at most half a unit. */
  lemma SnapMovesHalfAtMost(x: real, size: int)
    ensures -0.5 <= Snap(x, size) - x <= 0.5
  {
  }

  /** A second round trip with a box of the same size moves nothing. */
  lemma SnapTwiceIsSnap(x: real, size: int)
    ensures Snap(Snap(x, size), size) == Snap(x, size)
  {
    var left := Round(x - size as real / 2.0);
    assert Snap(x, size) - size as real / 2.0 == left as real;
    assert Round(left as real) == left;
  }

  // ---- the geometry text -----------------------------------------------

  /** The keys the importer looks for. */
  datatype Side = Left | Top | Right | Bottom

  function SideText(side: Side): string {
    match side
    case Left => "Left="
    case Top => "Top="
    case Right => "Right="
    case Bottom => "Bottom="
  }

  function Field(side: Side, i: int, rest: string): string {
    SideText(side) + (IntText(i) + (";" + rest))
  }

  function GeometryText(left: int, top: int, right: int, bottom: int): string {
    Field(Left, left, Field(Top, top, Field(Right, right, Field(Bottom, bottom, ""))))
  }

  const EDGE_GEOMETRY := "SX=0;SY=0;EX=0;EY=0;EDGE=1;Path=;"

  function StartsWith(text: string, head: string): bool {
    |head| <= |text| && text[..|head|] == head
  }

  function SideAt(text: string): Option<Side> {
    if StartsWith(text, SideText(Left)) then Some(Left)
    else if StartsWith(text, SideText(Top)) then Some(Top)
    else if StartsWith(text, SideText(Right)) then Some(Right)
    else if StartsWith(text, SideText(Bottom)) then Some(Bottom)
    else None
  }

  /** The number of leading digits. */
  function DigitRun(text: string): (n: nat)
    ensures n <= |text|
  {
    if text == "" || !IsDigit(text[0]) then 0 else 1 + DigitRun(text[1..])
  }

  function DigitsValue(digits: string): nat
    requires forall i :: 0 <= i < |digits| ==> IsDigit(digits[i])
  {
    if digits == "" then 0
    else
      assert IsDigit(digits[|digits| - 1]);
      10 * DigitsValue(digits[..|digits| - 1]) + (digits[|digits| - 1] as int - 48)
  }

  lemma {:induction false} DigitRunIsDigits(text: string)
    ensures forall i :: 0 <= i < DigitRun(text) ==> IsDigit(text[i])
  {
    if text != "" && IsDigit(text[0]) {
      DigitRunIsDigits(text[1..]);
      assert forall i :: 0 < i < DigitRun(text) ==> text[i] == text[1..][i - 1];
    }
  }

  function Power10(n: nat): (r: real)
    ensures r > 0.0
  {
    if n == 0 then 1.0 else 10.0 * Power10(n - 1)
  }

  /** An unsigned decimal number at the start of the text, and its length. */
  function UnsignedAt(text: string): (r: Option<(real, nat)>)
    ensures r.Some? ==> 0 < r.value.1 <= |text|
  {
    var n := DigitRun(text);
    if n == 0 then None
    else
      DigitRunIsDigits(text);
      var whole := DigitsValue(text[..n]) as real;
      if n < |text| && text[n] == '.' && DigitRun(text[n + 1..]) > 0 then
        var fraction := text[n + 1..][..DigitRun(text[n + 1..])];
        DigitRunIsDigits(text[n + 1..]);
        Some((whole + DigitsValue(fraction) as real / Power10(|fraction|), n + 1 + |fraction|))
      else Some((whole, n))
  }

  function NumberAt(text: string): (r: Option<(real, nat)>)
    ensures r.Some? ==> 0 < r.value.1 <= |text|
  {
    if text != "" && text[0] == '-' then
      match UnsignedAt(text[1..])
      case None => None
      case Some((value, n)) => Some((-value, n + 1))
    else UnsignedAt(text)
  }

  /** `dict(_GEOMETRY.findall(text))`: leftmost matches, later keys win. */
  function ReadGeometry(text: string): map<Side, real>
    decreases |text|
  {
    if text == "" then map[]
    else
      match SideAt(text)
      case None => ReadGeometry(text[1..])
      case Some(side) =>
        var after := text[|SideText(side)|..];
        match NumberAt(after)
        case None => ReadGeometry(text[1..])
        case Some((value, n)) => map[side := value] + ReadGeometry(after[n..])
  }

  // ---- reading back ----------------------------------------------------

  lemma {:induction false} DigitRunOf(digits: string, rest: string)
    requires forall i :: 0 <= i < |digits| ==> IsDigit(digits[i])
    requires rest != "" && !IsDigit(rest[0])
    ensures DigitRun(digits + rest) == |digits|
  {
    if digits == "" {
      assert digits + rest == rest;
    } else {
      assert (digits + rest)[1..] == digits[1..] + rest;
      DigitRunOf(digits[1..], rest);
    }
  }

  lemma {:induction false} ValueOfNatText(n: nat)
    requires forall i :: 0 <= i < |NatText(n)| ==> IsDigit(NatText(n)[i])
    ensures DigitsValue(NatText(n)) == n
  {
    var text := NatText(n);
    if n >= 10 {
      NatTextIsDigits(n / 10);
      assert text[..|text| - 1] == NatText(n / 10);
      ValueOfNatText(n / 10);
    } else {
      assert text[..0] == "";
    }
  }

  lemma UnsignedOfNatText(n: nat, rest: string)
    requires rest != "" && !IsDigit(rest[0]) && rest[0] != '.'
    ensures UnsignedAt(NatText(n) + rest) == Some((n as real, |NatText(n)|))
  {
    NatTextIsDigits(n);
    DigitRunOf(NatText(n), rest);
    ValueOfNatText(n);
    var text := NatText(n) + rest;
    assert text[..|NatText(n)|] == NatText(n);
    assert text[|NatText(n)|] == rest[0];
    hide DigitRun, DigitsValue, NatText;
  }

  lemma NumberOfIntText(i: int, rest: string)
    requires rest != "" && !IsDigit(rest[0]) && rest[0] != '.'
    ensures NumberAt(IntText(i) + rest) == Some((i as real, |IntText(i)|))
  {
    hide UnsignedAt, NatText;
    var n := if i < 0 then -i else i;
    var text := NatText(n) + rest;
    NatTextIsDigits(n);
    UnsignedOfNatText(n, rest);
    if i < 0 {
      assert IntText(i) + rest == "-" + text;
      assert ("-" + text)[0] == '-' && ("-" + text)[1..] == text;
    } else {
      assert text[0] == NatText(n)[0] && IsDigit(text[0]);
    }
  }

  lemma StartsWithHead(head: string, rest: string)
    ensures StartsWith(head + rest, head)
    ensures (head + rest)[|head|..] == rest
  {
    assert (head + rest)[..|head|] == head;
  }

  lemma HeadOfStart(text: string, head: string)
    requires StartsWith(text, head) && head != ""
    ensures text != "" && text[0] == head[0]
  {
    assert text[..|head|][0] == head[0];
  }

  /** The keys differ in their first character, so the key that is there is the one found. */
  lemma SideIsFound(text: string, side: Side)
    requires StartsWith(text, SideText(side))
    ensures SideAt(text) == Some(side)
  {
    forall other | StartsWith(text, SideText(other))
      ensures other == side
    {
      HeadOfStart(text, SideText(other));
      HeadOfStart(text, SideText(side));
    }
    hide StartsWith, SideText;
  }

  lemma NoSideAt(text: string)
    requires text == "" || text[0] !in {'L', 'T', 'R', 'B'}
    ensures SideAt(text).None?
  {
    forall side | StartsWith(text, SideText(side))
      ensures text[0] in {'L', 'T', 'R', 'B'}
    {
      HeadOfStart(text, SideText(side));
    }
    hide StartsWith, SideText;
  }

  /** One written field is read as one entry. */
  lemma FieldReadsBack(side: Side, i: int, rest: string)
    ensures ReadGeometry(Field(side, i, rest)) == map[side := i as real] + ReadGeometry(rest)
  {
    var after := IntText(i) + (";" + rest);
    StartsWithHead(SideText(side), after);
    SideIsFound(Field(side, i, rest), side);
    NumberOfIntText(i, ";" + rest);
    assert after[|IntText(i)|..] == ";" + rest;
    NoSideAt(";" + rest);
    assert (";" + rest)[1..] == rest;
    assert ReadGeometry(";" + rest) == ReadGeometry(rest);
    hide SideAt, NumberAt, IntText;
  }

  lemma FourEntries(left: real, top: real, right: real, bottom: real)
    ensures map[Left := left] + (map[Top := top] + (map[Right := right] + (map[Bottom := bottom] + map[]))) ==
      map[Left := left, Top := top, Right := right, Bottom := bottom]
  {
  }

  lemma EmptyGeometry()
    ensures ReadGeometry("") == map[]
  {
  }

  /** The four numbers of a written box are read back. */
  lemma GeometryReadsBack(left: int, top: int, right: int, bottom: int)
    ensures ReadGeometry(GeometryText(left, top, right, bottom)) ==
      map[Left := left as real, Top := top as real, Right := right as real, Bottom := bottom as real]
  {
    hide ReadGeometry, Field;
    EmptyGeometry();
    FieldReadsBack(Bottom, bottom, "");
    FieldReadsBack(Right, right, Field(Bottom, bottom, ""));
    FieldReadsBack(Top, top, Field(Right, right, Field(Bottom, bottom, "")));
    FieldReadsBack(Left, left, Field(Top, top, Field(Right, right, Field(Bottom, bottom, ""))));
    FourEntries(left as real, top as real, right as real, bottom as real);
  }

  lemma {:induction false} NoKeysNoGeometry(text: string)
    requires forall i :: 0 <= i < |text| ==> text[i] !in {'L', 'T', 'R', 'B'}
    ensures ReadGeometry(text) == map[]
  {
    if text != "" {
      NoSideAt(text);
      NoKeysNoGeometry(text[1..]);
    }
  }

  /** An edge has no box. */
  lemma EdgeHasNoBox()
    ensures ReadGeometry(EDGE_GEOMETRY) == map[]
  {
    NoKeysNoGeometry(EDGE_GEOMETRY);
  }

  /** The importer's position for a geometry text, if it has one. */
  function CentreOf(text: string): Option<Position> {
    var g := ReadGeometry(text);
    if Left !in g || Top !in g then None
    else
      var right := if Right in g then g[Right] else g[Left];
      var bottom := if Bottom in g then g[Bottom] else g[Top];
      Some(Position((g[Left] + right) / 2.0, (g[Top] + bottom) / 2.0))
  }

  /** The exporter's geometry for a centre and a box height. */
  function BoxText(centre: Position, height: int): string {
    var left, top := Round(centre.x - BOX_WIDTH as real / 2.0), Round(centre.y - height as real / 2.0);
    GeometryText(left, top, left + BOX_WIDTH, top + height)
  }

  /** Writing a box and reading its centre snaps each axis. */
  lemma BoxReadsBack(centre: Position, height: int)
    ensures CentreOf(BoxText(centre, height)) == Some(Position(Snap(centre.x, BOX_WIDTH), Snap(centre.y, height)))
  {
    hide GeometryText, ReadGeometry, Round;
    var left, top := Round(centre.x - BOX_WIDTH as real / 2.0), Round(centre.y - height as real / 2.0);
    GeometryReadsBack(left, top, left + BOX_WIDTH, top + height);
  }
}
