/** What each stage of `map_to_relational` computes, stage by stage
    (`relational_mapping/mapping/mapper.py`). */
module Mapper {
  import opened Text
  import opened Uml
  import opened Naming
  import opened Profiles
  import opened Schema
  import opened MapErrors
  import opened Hierarchy
  import opened Trees
  import opened ParentMaps

  // ---- generation profiles ---------------------------------------------

  datatype ProfileIndex = ProfileIndex(tables: map<ElementId, TableProfile>, columns: map<ElementId, ColumnProfile>)

  /** The entry is read as a table or a column profile; ids of neither are skipped unread. */
  predicate EntryParses(model: Model, id: ElementId)
    requires id in model.metadata
  {
    if IsClassId(model, id) then ParseTableProfile(JObject(model.metadata[id])).Ok?
    else if IsAttributeId(model, id) then ParseColumnProfile(JObject(model.metadata[id])).Ok?
    else true
  }

  predicate ProfilesParse(model: Model) {
    forall id :: id in model.metadata ==> EntryParses(model, id)
  }

  function TableProfileOf(model: Model, id: ElementId): Option<TableProfile>
    requires ProfilesParse(model)
  {
    if id in model.metadata && IsClassId(model, id) then
      assert EntryParses(model, id);
      ParseTableProfile(JObject(model.metadata[id])).value
    else None
  }

  function ColumnProfileOf(model: Model, id: ElementId): Option<ColumnProfile>
    requires ProfilesParse(model)
  {
    if id in model.metadata && !IsClassId(model, id) && IsAttributeId(model, id) then
      assert EntryParses(model, id);
      ParseColumnProfile(JObject(model.metadata[id])).value
    else None
  }

  /** `_collect_profiles`. */
  function ProfilesOf(model: Model): Result<ProfileIndex, MapError> {
    if !ProfilesParse(model) then Err(InvalidGenerationProfile)
    else
      Ok(ProfileIndex(
        map id | id in model.metadata && TableProfileOf(model, id).Some? :: TableProfileOf(model, id).value,
        map id | id in model.metadata && ColumnProfileOf(model, id).Some? :: ColumnProfileOf(model, id).value))
  }

  // ---- enumerations ----------------------------------------------------

  datatype EnumStage = EnumStage(types: seq<EnumType>, nameById: map<ElementId, string>)

  function EnumTypeNames(types: seq<EnumType>): set<string> {
    set e | e in types :: e.name
  }

  function LabelsOf(literals: seq<EnumerationLiteral>): seq<string> {
    seq(|literals|, i requires 0 <= i < |literals| =>
      if literals[i].value.Some? && literals[i].value.value != "" then literals[i].value.value else literals[i].name)
  }

  /** `_map_enumerations`: every enumeration becomes an enum type with a fresh name. */
  function EnumStageOf(snake: SnakeCase, enumerations: seq<Enumeration>): Result<EnumStage, MapError> {
    if enumerations == [] then Ok(EnumStage([], map[]))
    else
      var last := enumerations[|enumerations| - 1];
      match EnumStageOf(snake, enumerations[..|enumerations| - 1])
      case Err(e) => Err(e)
      case Ok(stage) =>
        match snake(last.name)
        case None => Err(InvalidElementName(last.name))
        case Some(preferred) =>
          match FreeName(snake, EnumTypeNames(stage.types), preferred, None)
          case Err(name) => Err(InvalidElementName(name))
          case Ok(name) =>
            Ok(EnumStage(stage.types + [EnumType(name, LabelsOf(last.literals), last.id)], stage.nameById[last.id := name]))
  }

  // ---- tables ----------------------------------------------------------

  /** What stage 3 reads besides the classes. */
  datatype Context = Context(snake: SnakeCase, enumNameById: map<ElementId, string>, profiles: ProfileIndex)

  /** An attribute together with the class that contributes it to a table. */
  datatype Owned = Owned(attribute: UmlAttribute, ownerId: ElementId, ownerName: string, nullable: bool)

  function Lookup<T>(m: map<ElementId, T>, id: ElementId): Option<T> {
    if id in m then Some(m[id]) else None
  }

  /** The type mapping table. */
  function PrimitiveColumn(name: string, primitive: PrimitiveType, o: Owned, profile: Option<ColumnProfile>): Column {
    var (typ, length, precision, scale) :=
      match primitive
      case String => (VARCHAR, Some(255), None, None)
      case Text => (TEXT, None, None, None)
      case Integer => (INTEGER, None, None, None)
      case Long => (BIGINT, None, None, None)
      case Decimal => (NUMERIC, None, Some(19), Some(4))
      case Boolean => (BOOLEAN, None, None, None)
      case Date => (DATE, None, None, None)
      case DateTime => (TIMESTAMPTZ, None, None, None);
    Column(name, typ, o.nullable, length, precision, scale, None, Some(o.attribute.id), Some(o.ownerId), profile)
  }

  /** `_map_attribute_column`. */
  function AttributeColumn(ctx: Context, taken: set<string>, o: Owned): Result<Column, MapError> {
    match ctx.snake(o.attribute.name)
    case None => Err(InvalidElementName(o.attribute.name))
    case Some(preferred) =>
      match FreeName(ctx.snake, taken, preferred, Some(o.ownerName))
      case Err(name) => Err(InvalidElementName(name))
      case Ok(name) =>
        var profile := Lookup(ctx.profiles.columns, o.attribute.id);
        match o.attribute.typ
        case EnumerationRef(enumerationId) =>
          if enumerationId !in ctx.enumNameById then Err(UnknownEnumeration(o.attribute.id, enumerationId))
          else
            Ok(Column(name, ENUM, o.nullable, None, None, None, Some(ctx.enumNameById[enumerationId]),
                      Some(o.attribute.id), Some(o.ownerId), profile))
        case Primitive(primitive) => Ok(PrimitiveColumn(name, primitive, o, profile))
  }

  function OwnedBy(c: UmlClass, nullable: bool): (r: seq<Owned>)
    ensures |r| == |c.attributes|
  {
    seq(|c.attributes|, i requires 0 <= i < |c.attributes| => Owned(c.attributes[i], c.id, c.name, nullable))
  }

  predicate AreClasses(classes: seq<UmlClass>, ids: seq<ElementId>) {
    forall id :: id in ids ==> ClassById(classes, id).Some?
  }

  /** The attributes of a tree in column order: the root's are not nullable, the others are. */
  function OwnedInTree(classes: seq<UmlClass>, tree: seq<ElementId>): seq<Owned>
    requires AreClasses(classes, tree)
  {
    if tree == [] then []
    else
      var n := |tree| - 1;
      OwnedInTree(classes, tree[..n]) + OwnedBy(ClassById(classes, tree[n]).value, n != 0)
  }

  function AddAttribute(ctx: Context, t: Table, o: Owned): Result<Table, MapError> {
    match AttributeColumn(ctx, ColumnNames(t.columns), o)
    case Err(e) => Err(e)
    case Ok(column) => Ok(t.(columns := t.columns + [column]))
  }

  function AddAttributes(ctx: Context, t: Table, owned: seq<Owned>): Result<Table, MapError> {
    if owned == [] then Ok(t)
    else
      match AddAttributes(ctx, t, owned[..|owned| - 1])
      case Err(e) => Err(e)
      case Ok(before) => AddAttribute(ctx, before, owned[|owned| - 1])
  }

  const ID_COLUMN := PlainColumn("id", UUID, false, None)
  const TYPE_COLUMN := PlainColumn("class_type", VARCHAR, false, Some(255))

  /** The table of a tree before any attribute column. */
  function BareTable(ctx: Context, name: string, classes: seq<UmlClass>, tree: seq<ElementId>): Table
    requires tree != [] && AreClasses(classes, tree)
  {
    var key := PrimaryKey(["id"], "pk_" + name);
    var profile := Lookup(ctx.profiles.tables, tree[0]);
    if |tree| >= 2 then
      Table(name, [ID_COLUMN, TYPE_COLUMN], key, [], [], [], tree, Some("class_type"),
            map id | id in tree :: ClassById(classes, id).value.name, profile)
    else
      Table(name, [ID_COLUMN], key, [], [], [], tree, None, map[], profile)
  }

  /** `_map_table_for_root`. */
  function TableForTree(ctx: Context, taken: set<string>, classes: seq<UmlClass>, tree: seq<ElementId>)
      : Result<Table, MapError>
    requires tree != [] && AreClasses(classes, tree)
  {
    var root := ClassById(classes, tree[0]).value;
    match ctx.snake(root.name)
    case None => Err(InvalidElementName(root.name))
    case Some(preferred) =>
      match FreeName(ctx.snake, taken, preferred, None)
      case Err(name) => Err(InvalidElementName(name))
      case Ok(name) => AddAttributes(ctx, BareTable(ctx, name, classes, tree), OwnedInTree(classes, tree))
  }

  // ---- relationships ---------------------------------------------------

  /** `_is_many`. */
  predicate IsMany(m: Multiplicity) {
    m.upper.None? || m.upper.value > 1
  }

  /** Where the link between two classes is stored. */
  datatype Placement = JoinTable | OnTarget(unique: bool) | OnSource

  function PlacementOf(r: Relationship): Placement {
    if IsMany(r.source.multiplicity) && IsMany(r.target.multiplicity) then JoinTable
    else if IsMany(r.target.multiplicity) then OnTarget(false)
    else if IsMany(r.source.multiplicity) then OnSource
    else OnTarget(true)
  }

  function HoldingEnd(r: Relationship): RelationshipEnd {
    if PlacementOf(r).OnSource? then r.source else r.target
  }

  function ReferencedEnd(r: Relationship): RelationshipEnd {
    if PlacementOf(r).OnSource? then r.target else r.source
  }

  /** A composed part always has its whole, except along a self-composition. */
  predicate IsNullable(r: Relationship) {
    if r.kind == Composition then r.source.classId == r.target.classId
    else ReferencedEnd(r).multiplicity.lower <= 0
  }

  /** `_fk_column_name`. */
  function ForeignKeyName(snake: SnakeCase, end: RelationshipEnd, referenced: string, taken: set<string>)
      : Result<string, MapError>
  {
    if end.role.Some? && end.role.value != "" then
      match snake(end.role.value)
      case None => Err(InvalidElementName(end.role.value))
      case Some(role) =>
        match FreeName(snake, taken, role + "_id", None)
        case Err(name) => Err(InvalidElementName(name))
        case Ok(name) => Ok(name)
    else
      match FreeName(snake, taken, referenced + "_id", None)
      case Err(name) => Err(InvalidElementName(name))
      case Ok(name) => Ok(name)
  }

  function ForeignKeyTo(table: string, column: string, referenced: string, action: ReferentialAction, id: ElementId)
      : ForeignKey
  {
    ForeignKey("fk_" + table + "__" + column, [column], referenced, ["id"], action, id)
  }

  /** `_add_simple_fk`: one key column, its foreign key, and a unique constraint or an index on it. */
  function AddKey(
      snake: SnakeCase, t: Table, end: RelationshipEnd, referenced: string, id: ElementId,
      nullable: bool, action: ReferentialAction, unique: bool): Result<Table, MapError>
  {
    match ForeignKeyName(snake, end, referenced, ColumnNames(t.columns))
    case Err(e) => Err(e)
    case Ok(column) =>
      var extended := t.(
        columns := t.columns + [PlainColumn(column, UUID, nullable, None)],
        foreignKeys := t.foreignKeys + [ForeignKeyTo(t.name, column, referenced, action, id)]);
      if unique then
        Ok(extended.(uniqueConstraints := t.uniqueConstraints + [UniqueConstraint("uq_" + t.name + "__" + column, [column])]))
      else
        Ok(extended.(indexes := t.indexes + [Index("ix_" + t.name + "__" + column, [column])]))
  }

  /** The key `_map_relationships` adds for a relationship that needs no join table. */
  function AddForeignKey(snake: SnakeCase, t: Table, r: Relationship, referenced: string): Result<Table, MapError> {
    AddKey(snake, t, ReferencedEnd(r), referenced, r.id, IsNullable(r),
           if r.kind == Composition then Cascade else NoAction, PlacementOf(r) == OnTarget(true))
  }

  function JoinTableNamed(name: string, r: Relationship, source: string, target: string, toSource: string, toTarget: string)
      : Table
  {
    Table(
      name,
      [ID_COLUMN, PlainColumn(toSource, UUID, false, None), PlainColumn(toTarget, UUID, false, None)],
      PrimaryKey(["id"], "pk_" + name),
      [ForeignKeyTo(name, toSource, source, Cascade, r.id), ForeignKeyTo(name, toTarget, target, Cascade, r.id)],
      [UniqueConstraint("uq_" + name + "__" + toSource + "_" + toTarget, [toSource, toTarget])],
      [Index("ix_" + name + "__" + toSource, [toSource]), Index("ix_" + name + "__" + toTarget, [toTarget])],
      [], None, map[], None)
  }

  /** `_build_join_table`. */
  function BuildJoinTable(snake: SnakeCase, taken: set<string>, r: Relationship, source: string, target: string)
      : Result<Table, MapError>
  {
    match FreeName(snake, taken, source + "_" + target, None)
    case Err(name) => Err(InvalidElementName(name))
    case Ok(name) =>
      match ForeignKeyName(snake, r.source, source, {"id"})
      case Err(e) => Err(e)
      case Ok(toSource) =>
        match ForeignKeyName(snake, r.target, target, {"id", toSource})
        case Err(e) => Err(e)
        case Ok(toTarget) => Ok(JoinTableNamed(name, r, source, target, toSource, toTarget))
  }

  /** The drafts by hierarchy root, the join tables so far and the names in use. */
  datatype Drafts = Drafts(tables: map<ElementId, Table>, joins: seq<Table>, taken: set<string>)

  ghost predicate HasEndTables(parentOf: Parents, d: Drafts, r: Relationship) {
    && Ends(parentOf, r.source.classId) && RootOf(parentOf, r.source.classId) in d.tables
    && Ends(parentOf, r.target.classId) && RootOf(parentOf, r.target.classId) in d.tables
  }

  /** One round of `_map_relationships`: a generalization adds nothing. */
  function MapRelationship(snake: SnakeCase, parentOf: Parents, d: Drafts, r: Relationship): (next: Result<Drafts, MapError>)
    requires HasEndTables(parentOf, d, r)
    ensures next.Ok? ==> next.value.tables.Keys == d.tables.Keys
  {
    if r.kind == Generalization then Ok(d)
    else
      var sourceTable := d.tables[RootOf(parentOf, r.source.classId)].name;
      var targetTable := d.tables[RootOf(parentOf, r.target.classId)].name;
      if PlacementOf(r).JoinTable? then
        match BuildJoinTable(snake, d.taken, r, sourceTable, targetTable)
        case Err(e) => Err(e)
        case Ok(t) => Ok(d.(joins := d.joins + [t], taken := d.taken + {t.name}))
      else
        var holder := RootOf(parentOf, HoldingEnd(r).classId);
        var referenced := if PlacementOf(r).OnSource? then targetTable else sourceTable;
        match AddForeignKey(snake, d.tables[holder], r, referenced)
        case Err(e) => Err(e)
        case Ok(t) => Ok(d.(tables := d.tables[holder := t]))
  }

  function MapRelationships(snake: SnakeCase, parentOf: Parents, d: Drafts, relationships: seq<Relationship>)
      : (next: Result<Drafts, MapError>)
    requires forall r :: r in relationships ==> HasEndTables(parentOf, d, r)
    ensures next.Ok? ==> next.value.tables.Keys == d.tables.Keys
  {
    if relationships == [] then Ok(d)
    else
      var n := |relationships| - 1;
      match MapRelationships(snake, parentOf, d, relationships[..n])
      case Err(e) => Err(e)
      case Ok(before) =>
        assert HasEndTables(parentOf, d, relationships[n]);
        MapRelationship(snake, parentOf, before, relationships[n])
  }

  // ---- the whole pipeline ----------------------------------------------

  ghost predicate RootsInForest(ids: seq<ElementId>, parentOf: Parents, roots: seq<ElementId>) {
    IsForest(ids, parentOf) && forall r :: r in roots ==> r in ids && r !in parentOf
  }

  lemma TreeIsClasses(model: Model, parentOf: Parents, root: ElementId)
    requires IsForest(ClassIds(model.classes), parentOf)
    requires root in ClassIds(model.classes) && root !in parentOf
    ensures AreClasses(model.classes, TreeOf(ClassIds(model.classes), parentOf, root))
  {
    var ids := ClassIds(model.classes);
    forall id | id in TreeOf(ids, parentOf, root)
      ensures ClassById(model.classes, id).Some?
    {
      TreeMembers(ids, parentOf, root, id);
      IdOfClass(model, id);
    }
  }

  /** Stage 3: one table per root, in root order. */
  function RootTables(ctx: Context, model: Model, parentOf: Parents, roots: seq<ElementId>): (r: Result<Drafts, MapError>)
    requires RootsInForest(ClassIds(model.classes), parentOf, roots)
    ensures r.Ok? ==> forall id :: id in r.value.tables <==> id in roots
  {
    if roots == [] then Ok(Drafts(map[], [], {}))
    else
      var last := roots[|roots| - 1];
      match RootTables(ctx, model, parentOf, roots[..|roots| - 1])
      case Err(e) => Err(e)
      case Ok(d) =>
        TreeIsClasses(model, parentOf, last);
        match TableForTree(ctx, d.taken, model.classes, TreeOf(ClassIds(model.classes), parentOf, last))
        case Err(e) => Err(e)
        case Ok(t) => Ok(Drafts(d.tables[last := t], [], d.taken + {t.name}))
  }

  /** Every relationship end finds its table: it is a class, so its root has one. */
  lemma EndsHaveTables(model: Model, parentOf: Parents, d: Drafts)
    requires NoDanglingEnds(model) && IsForest(ClassIds(model.classes), parentOf)
    requires forall id :: id in RootsOf(ClassIds(model.classes), parentOf) ==> id in d.tables
    ensures forall r :: r in model.relationships ==> HasEndTables(parentOf, d, r)
  {
    forall r | r in model.relationships
      ensures HasEndTables(parentOf, d, r)
    {
      var ids := ClassIds(model.classes);
      IdOfClass(model, r.source.classId);
      IdOfClass(model, r.target.classId);
      RootInIds(ids, parentOf, r.source.classId);
      RootInIds(ids, parentOf, r.target.classId);
    }
  }

  function TablesInOrder(roots: seq<ElementId>, tables: map<ElementId, Table>): (r: seq<Table>)
    requires forall id :: id in roots ==> id in tables
    ensures |r| == |roots|
  {
    seq(|roots|, i requires 0 <= i < |roots| => tables[roots[i]])
  }

  /** The state of the pipeline when it is about to freeze its drafts. */
  datatype Mapped = Mapped(parentOf: Parents, roots: seq<ElementId>, ctx: Context, enums: EnumStage, bare: Drafts, drafts: Drafts)

  ghost predicate MappedOk(model: Model, m: Mapped) {
    && IsForest(ClassIds(model.classes), m.parentOf)
    && m.roots == RootsOf(ClassIds(model.classes), m.parentOf)
    && (forall id :: id in m.roots <==> id in m.drafts.tables)
  }

  /** The facts about a finished run, stage by stage. */
  ghost predicate IsRun(snake: SnakeCase, model: Model, m: Mapped) {
    && MappedOk(model, m) && NoDanglingEnds(model)
    && HierarchyOf(model) == Ok(m.parentOf)
    && EnumStageOf(snake, model.enumerations) == Ok(m.enums)
    && ProfilesOf(model) == Ok(m.ctx.profiles)
    && m.ctx.snake == snake && m.ctx.enumNameById == m.enums.nameById
    && RootTables(m.ctx, model, m.parentOf, m.roots) == Ok(m.bare)
    && (forall r :: r in model.relationships ==> HasEndTables(m.parentOf, m.bare, r))
    && MapRelationships(snake, m.parentOf, m.bare, model.relationships) == Ok(m.drafts)
  }

  function RunPipeline(snake: SnakeCase, model: Model): (r: Result<Mapped, MapError>)
    requires DistinctClassIds(model)
    ensures r.Ok? ==> IsRun(snake, model, r.value)
  {
    match FirstDangling(model)
    case Some(id) => Err(DanglingRelationshipEndpoint(id))
    case None =>
      match HierarchyOf(model)
      case Err(e) => Err(e)
      case Ok(parentOf) =>
        HierarchyIsForest(model);
        var roots := RootsOf(ClassIds(model.classes), parentOf);
        match ProfilesOf(model)
        case Err(e) => Err(e)
        case Ok(profiles) =>
          match EnumStageOf(snake, model.enumerations)
          case Err(e) => Err(e)
          case Ok(enums) =>
            var ctx := Context(snake, enums.nameById, profiles);
            match RootTables(ctx, model, parentOf, roots)
            case Err(e) => Err(e)
            case Ok(bare) =>
              EndsHaveTables(model, parentOf, bare);
              match MapRelationships(snake, parentOf, bare, model.relationships)
              case Err(e) => Err(e)
              case Ok(drafts) => Ok(Mapped(parentOf, roots, ctx, enums, bare, drafts))
  }

  /** `map_to_relational`. */
  function MapToRelational(snake: SnakeCase, model: Model): Result<RelationalModel, MapError>
    requires DistinctClassIds(model)
  {
    match RunPipeline(snake, model)
    case Err(e) => Err(e)
    case Ok(m) =>
      Ok(RelationalModel(TablesInOrder(m.roots, m.drafts.tables) + m.drafts.joins, m.enums.types))
  }
}
