/** Generation profiles (`relational_mapping/domain/profile.py`) and the strict
    parser of the reserved `"profile"` key (`mapping/profile_parser.py`). */
module Profiles {
  import opened Text
  import opened Uml

  datatype SortDirection = Asc | Desc

  datatype CrudOperation = Create | Read | Update | Delete

  datatype DefaultSort = DefaultSort(attributeId: ElementId, direction: SortDirection)

  /** `None` in a field means "not declared". */
  datatype ColumnProfile = ColumnProfile(searchable: Option<bool>, sortable: Option<bool>, readOnly: Option<bool>)

  datatype TableProfile = TableProfile(
    entity: Option<bool>,
    auditable: Option<bool>,
    readOnly: Option<bool>,
    crud: Option<seq<CrudOperation>>,
    defaultSort: Option<DefaultSort>)

  /** The rules of the parser, in the order they are applied to one entry. */
  datatype ProfileError =
    | EntryNotAMapping
    | ProfileNotAnObject
    | UnknownKey
    | NotABoolean(key: string)
    | CrudNotAList
    | UnknownCrud
    | DuplicateCrud
    | SortNotAnObject
    | SortMissingKey(key: string)
    | SortUnknownKey
    | SortAttributeInvalid
    | SortDirectionInvalid

  const TABLE_KEYS := {"entity", "auditable", "readOnly", "crud", "defaultSort"}
  const COLUMN_KEYS := {"searchable", "sortable", "readOnly"}
  const SORT_KEYS := {"attribute", "direction"}
  const CRUD_ORDER := [Create, Read, Update, Delete]

  function CrudText(operation: CrudOperation): string {
    match operation
    case Create => "create"
    case Read => "read"
    case Update => "update"
    case Delete => "delete"
  }

  predicate IsCrudText(text: string) {
    text in {"create", "read", "update", "delete"}
  }

  /** Rules 1 to 3: the non-empty profile object, or `None` when nothing is declared. */
  function ProfileBody(entry: Json, allowed: set<string>): Result<Option<map<string, Json>>, ProfileError> {
    if !entry.JObject? then Err(EntryNotAMapping)
    else if "profile" !in entry.fields then Ok(None)
    else
      var body := entry.fields["profile"];
      if !body.JObject? then Err(ProfileNotAnObject)
      else if exists key :: key in body.fields && key !in allowed then Err(UnknownKey)
      else if body.fields == map[] then Ok(None)
      else Ok(Some(body.fields))
  }

  /** Rule 4. */
  function ParseBoolean(body: map<string, Json>, key: string): Result<Option<bool>, ProfileError> {
    if key !in body then Ok(None)
    else if !body[key].JBool? then Err(NotABoolean(key))
    else Ok(Some(body[key].b))
  }

  predicate HasRepetition(items: seq<Json>) {
    exists i, j :: 0 <= i < j < |items| && items[i] == items[j]
  }

  /** Rules 5 to 7, then the canonical order of the declared operations. */
  function ParseCrud(body: map<string, Json>): Result<Option<seq<CrudOperation>>, ProfileError> {
    if "crud" !in body then Ok(None)
    else
      var raw := body["crud"];
      if !raw.JArray? || exists item :: item in raw.items && !item.JString? then Err(CrudNotAList)
      else
        match CrudOf(raw.items)
        case Err(e) => Err(e)
        case Ok(crud) => Ok(Some(crud))
  }

  function CrudOf(items: seq<Json>): Result<seq<CrudOperation>, ProfileError>
    requires forall item :: item in items ==> item.JString?
  {
    if exists item: Json :: item in items && !IsCrudText(item.s) then Err(UnknownCrud)
    else if HasRepetition(items) then Err(DuplicateCrud)
    else Ok(CanonicalCrud((set item | item in items), CRUD_ORDER))
  }

  /** The operations of `order` that are declared. */
  function CanonicalCrud(seen: set<Json>, order: seq<CrudOperation>): seq<CrudOperation> {
    if order == [] then []
    else
      (if JString(CrudText(order[0])) in seen then [order[0]] else [])
      + CanonicalCrud(seen, order[1..])
  }

  /** Rules 8 to 12; the attribute id is not resolved here. */
  function ParseDefaultSort(body: map<string, Json>): Result<Option<DefaultSort>, ProfileError> {
    if "defaultSort" !in body then Ok(None)
    else
      var raw := body["defaultSort"];
      if !raw.JObject? then Err(SortNotAnObject)
      else if "attribute" !in raw.fields then Err(SortMissingKey("attribute"))
      else if "direction" !in raw.fields then Err(SortMissingKey("direction"))
      else if exists key :: key in raw.fields && key !in SORT_KEYS then Err(SortUnknownKey)
      else
        var attribute, direction := raw.fields["attribute"], raw.fields["direction"];
        if !attribute.JString? || attribute.s == "" then Err(SortAttributeInvalid)
        else if direction == JString("asc") then Ok(Some(DefaultSort(attribute.s, Asc)))
        else if direction == JString("desc") then Ok(Some(DefaultSort(attribute.s, Desc)))
        else Err(SortDirectionInvalid)
  }

  function ParseTableProfile(entry: Json): Result<Option<TableProfile>, ProfileError> {
    match ProfileBody(entry, TABLE_KEYS)
    case Err(e) => Err(e)
    case Ok(None) => Ok(None)
    case Ok(Some(body)) =>
      match ParseBoolean(body, "entity")
      case Err(e) => Err(e)
      case Ok(entity) =>
        match ParseBoolean(body, "auditable")
        case Err(e) => Err(e)
        case Ok(auditable) =>
          match ParseBoolean(body, "readOnly")
          case Err(e) => Err(e)
          case Ok(readOnly) =>
            match ParseCrud(body)
            case Err(e) => Err(e)
            case Ok(crud) =>
              match ParseDefaultSort(body)
              case Err(e) => Err(e)
              case Ok(defaultSort) => Ok(Some(TableProfile(entity, auditable, readOnly, crud, defaultSort)))
  }

  function ParseColumnProfile(entry: Json): Result<Option<ColumnProfile>, ProfileError> {
    match ProfileBody(entry, COLUMN_KEYS)
    case Err(e) => Err(e)
    case Ok(None) => Ok(None)
    case Ok(Some(body)) =>
      match ParseBoolean(body, "searchable")
      case Err(e) => Err(e)
      case Ok(searchable) =>
        match ParseBoolean(body, "sortable")
        case Err(e) => Err(e)
        case Ok(sortable) =>
          match ParseBoolean(body, "readOnly")
          case Err(e) => Err(e)
          case Ok(readOnly) => Ok(Some(ColumnProfile(searchable, sortable, readOnly)))
  }

  // ---- the loop of `_crud` ---------------------------------------------

  method ReadCrud(raw: seq<Json>) returns (r: Result<seq<CrudOperation>, ProfileError>)
    requires forall item :: item in raw ==> item.JString?
    ensures r == CrudOf(raw)
  {
    for i := 0 to |raw|
      invariant forall k :: 0 <= k < i ==> IsCrudText(raw[k].s)
    {
      if !IsCrudText(raw[i].s) {
        return Err(UnknownCrud);
      }
    }
    var seen: set<Json> := {};
    for i := 0 to |raw|
      invariant forall item :: item in seen <==> item in raw[..i]
      invariant forall j, k :: 0 <= j < k < i ==> raw[j] != raw[k]
    {
      if raw[i] in seen {
        return Err(DuplicateCrud);
      }
      seen := seen + {raw[i]};
    }
    assert seen == set item | item in raw;
    return Ok(CanonicalCrud(seen, CRUD_ORDER));
  }
}
