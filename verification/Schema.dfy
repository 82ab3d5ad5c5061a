/** The relational schema `map_to_relational` produces (`relational_mapping/domain/schema.py`). */
module Schema {
  import opened Text
  import opened Uml
  import opened Profiles

  datatype ColumnType = UUID | VARCHAR | TEXT | INTEGER | BIGINT | NUMERIC | BOOLEAN | DATE | TIMESTAMPTZ | ENUM

  datatype ReferentialAction = NoAction | Cascade

  datatype Column = Column(
    name: string,
    typ: ColumnType,
    nullable: bool,
    length: Option<nat>,
    precision: Option<nat>,
    scale: Option<nat>,
    enumTypeName: Option<string>,
    sourceElementId: Option<ElementId>,
    owningClassId: Option<ElementId>,
    profile: Option<ColumnProfile>)

  /** A column that stems from no attribute. */
  function PlainColumn(name: string, typ: ColumnType, nullable: bool, length: Option<nat>): Column {
    Column(name, typ, nullable, length, None, None, None, None, None, None)
  }

  datatype PrimaryKey = PrimaryKey(columnNames: seq<string>, name: string)

  datatype ForeignKey = ForeignKey(
    name: string,
    columnNames: seq<string>,
    referencedTable: string,
    referencedColumnNames: seq<string>,
    onDelete: ReferentialAction,
    sourceRelationshipId: ElementId)

  datatype UniqueConstraint = UniqueConstraint(name: string, columnNames: seq<string>)

  datatype Index = Index(name: string, columnNames: seq<string>)

  datatype EnumType = EnumType(name: string, labels: seq<string>, sourceEnumerationId: ElementId)

  datatype Table = Table(
    name: string,
    columns: seq<Column>,
    primaryKey: PrimaryKey,
    foreignKeys: seq<ForeignKey>,
    uniqueConstraints: seq<UniqueConstraint>,
    indexes: seq<Index>,
    sourceClassIds: seq<ElementId>,
    discriminatorColumn: Option<string>,
    discriminatorValues: map<ElementId, string>,
    profile: Option<TableProfile>)

  datatype RelationalModel = RelationalModel(tables: seq<Table>, enumTypes: seq<EnumType>)

  function ColumnNames(columns: seq<Column>): (r: set<string>)
    ensures forall c :: c in columns ==> c.name in r
  {
    set c | c in columns :: c.name
  }

  /** `column_by_name`: the first column with this name. */
  function ColumnByName(columns: seq<Column>, name: string): (r: Option<Column>)
    ensures r.Some? ==> r.value in columns && r.value.name == name
    ensures r.None? <==> name !in ColumnNames(columns)
  {
    if columns == [] then None
    else if columns[0].name == name then Some(columns[0])
    else ColumnByName(columns[1..], name)
  }

  // ---- what a well-formed schema is ------------------------------------

  ghost predicate DistinctColumnNames(t: Table) {
    forall i, j :: 0 <= i < j < |t.columns| ==> t.columns[i].name != t.columns[j].name
  }

  /** The key `id` is one non-null UUID column. */
  ghost predicate HasIdKey(t: Table) {
    && t.primaryKey.columnNames == ["id"]
    && exists c :: c in t.columns && c.name == "id" && c.typ == UUID && !c.nullable
  }

  /** The foreign key is one UUID column of its table and points at an `id`. */
  ghost predicate IsSimpleForeignKey(t: Table, fk: ForeignKey) {
    && |fk.columnNames| == 1
    && fk.referencedColumnNames == ["id"]
    && exists c :: c in t.columns && c.name == fk.columnNames[0] && c.typ == UUID && c.sourceElementId.None?
  }

  ghost predicate HasColumns(t: Table, names: seq<string>) {
    forall n :: n in names ==> n in ColumnNames(t.columns)
  }

  ghost predicate WellFormedTable(t: Table) {
    && DistinctColumnNames(t)
    && HasIdKey(t)
    && (forall fk :: fk in t.foreignKeys ==> IsSimpleForeignKey(t, fk))
    && (forall u :: u in t.uniqueConstraints ==> HasColumns(t, u.columnNames))
    && (forall x :: x in t.indexes ==> HasColumns(t, x.columnNames))
  }

  ghost predicate WellFormedSchema(m: RelationalModel) {
    && (forall i, j :: 0 <= i < j < |m.tables| ==> m.tables[i].name != m.tables[j].name)
    && (forall i, j :: 0 <= i < j < |m.enumTypes| ==> m.enumTypes[i].name != m.enumTypes[j].name)
    && (forall t :: t in m.tables ==> WellFormedTable(t))
    && (forall t, fk :: t in m.tables && fk in t.foreignKeys ==>
          exists u :: u in m.tables && u.name == fk.referencedTable)
    && (forall t, c :: t in m.tables && c in t.columns && c.typ == ENUM ==>
          c.enumTypeName.Some? && exists e :: e in m.enumTypes && e.name == c.enumTypeName.value)
  }
}
