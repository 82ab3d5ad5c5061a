/** Texts shared by the XMI exporter and importer (`xmi_interop`): type names, visibilities,
    element ids and the characters XML cannot hold. */
module XmiNames {
  import opened Text
  import opened Uml
  import opened Schema

  // ---- characters ------------------------------------------------------

  /** The characters `_clean` removes. */
  predicate IsIllegal(c: char) {
    var n := c as int;
    n <= 8 || n == 11 || n == 12 || 14 <= n <= 31 || n == 0xFFFE || n == 0xFFFF
  }

  /** `_clean`. */
  function Clean(text: string): string {
    if text == "" then ""
    else Clean(text[..|text| - 1]) + if IsIllegal(text[|text| - 1]) then "" else [text[|text| - 1]]
  }

  lemma {:induction false} CleanOfConcat(a: string, b: string)
    ensures Clean(a + b) == Clean(a) + Clean(b)
  {
    if b == "" {
      assert a + b == a;
    } else {
      var n := |b| - 1;
      assert (a + b)[..|a + b| - 1] == a + b[..n];
      CleanOfConcat(a, b[..n]);
    }
  }

  lemma {:induction false} CleanKeeps(text: string, c: char)
    requires c in text && !IsIllegal(c)
    ensures c in Clean(text)
  {
    if text[|text| - 1] != c {
      CleanKeeps(text[..|text| - 1], c);
    }
  }

  /** Cleaning twice is cleaning once. */
  lemma {:induction false} CleanIsStable(text: string)
    ensures Clean(Clean(text)) == Clean(text)
  {
    if text != "" {
      var front, last := text[..|text| - 1], text[|text| - 1];
      CleanIsStable(front);
      if !IsIllegal(last) {
        assert Clean(text)[..|Clean(text)| - 1] == Clean(front);
      } else {
        assert Clean(text) == Clean(front);
      }
    }
  }

  lemma {:induction false} CleanKeepsLegal(text: string)
    requires forall c :: c in text ==> !IsIllegal(c)
    ensures Clean(text) == text
  {
    if text != "" {
      CleanKeepsLegal(text[..|text| - 1]);
      assert text == text[..|text| - 1] + [text[|text| - 1]];
      assert text[|text| - 1] in text;
    }
  }

  // ---- types -----------------------------------------------------------

  /** `_EA_TYPE_NAMES`. */
  function EaTypeName(p: PrimitiveType): string {
    match p
    case String => "String"
    case Text => "Text"
    case Integer => "int"
    case Long => "long"
    case Decimal => "decimal"
    case Boolean => "boolean"
    case Date => "date"
    case DateTime => "datetime"
  }

  /** `_PRIMITIVES`. */
  function PrimitiveNamed(name: string): Option<PrimitiveType> {
    if name in {"int", "integer", "short", "byte", "smallint", "int32", "uint"} then Some(Integer)
    else if name in {"long", "bigint", "int64"} then Some(Long)
    else if name in {"string", "varchar", "char", "character", "nvarchar", "uuid"} then Some(String)
    else if name in {"text", "clob"} then Some(PrimitiveType.Text)
    else if name in {"double", "float", "decimal", "numeric", "real", "number", "money"} then Some(Decimal)
    else if name in {"bool", "boolean", "bit"} then Some(Boolean)
    else if name == "date" then Some(Date)
    else if name in {"datetime", "timestamp", "timestamptz", "time"} then Some(DateTime)
    else None
  }

  lemma LowerNames()
    ensures Lower("String") == "string" && Lower("Text") == "text" && Lower("int") == "int" && Lower("long") == "long"
    ensures Lower("decimal") == "decimal" && Lower("boolean") == "boolean"
    ensures Lower("date") == "date" && Lower("datetime") == "datetime"
  {
  }

  lemma EaNameIsStripped(p: PrimitiveType)
    ensures EaTypeName(p) != "" && Strip(EaTypeName(p)) == EaTypeName(p)
  {
    StripKeepsSpaceless(EaTypeName(p));
    hide Strip;
  }

  lemma EaNameIsClean(p: PrimitiveType)
    ensures Clean(EaTypeName(p)) == EaTypeName(p)
  {
    var name := EaTypeName(p);
    assert forall i :: 0 <= i < |name| ==> 'A' <= name[i] <= 'z';
    CleanKeepsLegal(name);
  }

  /** Each name the exporter writes for a primitive is read back as that primitive. */
  lemma EaNameReadsBack(p: PrimitiveType)
    ensures PrimitiveNamed(Lower(Strip(EaTypeName(p)))) == Some(p)
  {
    EaNameIsStripped(p);
    LowerNames();
    hide Lower, Strip;
    match p {
      case Text => assert "text" !in {"string", "varchar", "char", "character", "nvarchar", "uuid"};
      case _ =>
    }
  }

  function ColumnTypeText(t: ColumnType): string {
    match t
    case UUID => "UUID"
    case VARCHAR => "VARCHAR"
    case TEXT => "TEXT"
    case INTEGER => "INTEGER"
    case BIGINT => "BIGINT"
    case NUMERIC => "NUMERIC"
    case BOOLEAN => "BOOLEAN"
    case DATE => "DATE"
    case TIMESTAMPTZ => "TIMESTAMPTZ"
    case ENUM => "ENUM"
  }

  // ---- visibilities ----------------------------------------------------

  function VisibilityText(v: Visibility): string {
    match v
    case Public => "public"
    case Private => "private"
    case Protected => "protected"
    case Package => "package"
  }

  /** `_visibility`. */
  function VisibilityNamed(text: Option<string>): Option<Visibility> {
    var name := Lower(if text.Some? then text.value else "");
    if name == "public" then Some(Public)
    else if name == "private" then Some(Private)
    else if name == "protected" then Some(Protected)
    else if name == "package" then Some(Package)
    else None
  }

  lemma VisibilityReadsBack(v: Visibility)
    ensures VisibilityNamed(Some(VisibilityText(v))) == Some(v)
  {
    assert Lower("public") == "public";
    assert Lower("private") == "private";
    assert Lower("protected") == "protected";
    assert Lower("package") == "package";
    assert "public"[0] == 'p' && "private"[1] == 'r';
    hide Lower;
  }

  // ---- ids -------------------------------------------------------------

  /** The part of `_ea_id` behind the prefix, left abstract. */
  type Render = string -> string

  function EaId(render: Render, id: string): string {
    "EAID_" + render(id)
  }

  /** The id of the k-th primitive type used. */
  function TypeXid(k: nat): string {
    "eaxmiid" + NatText(k)
  }

  lemma TypeXidInjective(a: nat, b: nat)
    requires TypeXid(a) == TypeXid(b)
    ensures a == b
  {
    assert TypeXid(a)[7..] == NatText(a) && TypeXid(b)[7..] == NatText(b);
    NatTextInjective(a, b);
  }

  /** No element id is a type id or a type name. */
  lemma EaIdIsNoTypeName(render: Render, id: string, k: nat, p: PrimitiveType)
    ensures EaId(render, id) != TypeXid(k) && EaId(render, id) != EaTypeName(p)
    ensures EaId(render, id) != ""
  {
    assert EaId(render, id)[0] == 'E';
    assert TypeXid(k)[0] == 'e';
  }

  const ROOT_CLASS := "EARootClass"

  lemma {:induction false} NatTextHasNoUnderscore(n: nat)
    ensures '_' !in NatText(n)
  {
    NatTextIsDigits(n);
  }

  /** A text with an underscore is no type id, no type name and not the root class. */
  lemma UnderscoreIsNoTypeName(text: string, k: nat, p: PrimitiveType)
    requires '_' in text
    ensures text != TypeXid(k) && text != EaTypeName(p) && text != ROOT_CLASS
  {
    NatTextHasNoUnderscore(k);
    assert '_' !in TypeXid(k);
    hide NatText;
  }
}
