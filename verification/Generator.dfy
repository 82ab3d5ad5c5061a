/** What the code generator demands of a table and how it splits a hierarchy table into
    classes (`spring_generator/emit/errors.py`, `inheritance_context.py`), and the manifest's
    column lookup (`domain_manifest/builder/entities.py`). */
module Generator {
  import opened Text
  import opened Seqs
  import opened Uml
  import opened Schema
  import opened Trees
  import opened Naming
  import opened Mapper
  import opened MapperSound
  import opened MapperTheorems

  datatype ShapeError =
    | UnsupportedPrimaryKey
    | CompositeForeignKey(name: string)
    | UnsupportedColumnType(column: string)
    | DiscriminatorColumnRequired
    | SourceClassIdsRequired
    | DiscriminatorColumnMissing
    | DiscriminatorValueRequired(classId: ElementId)
    | UnknownColumnOwner(classId: ElementId, column: string)
    | SubclassRelationshipUnsupported(classId: ElementId, column: string)
    | UnownedColumnUnsupported(column: string)

  // ---- the rules, stated declaratively ---------------------------------

  ghost predicate KeyShape(t: Table) {
    && |t.primaryKey.columnNames| == 1
    && var key := ColumnByName(t.columns, t.primaryKey.columnNames[0]); key.Some? && key.value.typ == UUID
  }

  ghost predicate SimpleKeys(t: Table) {
    forall fk :: fk in t.foreignKeys ==> |fk.columnNames| <= 1
  }

  ghost predicate NamedEnums(t: Table) {
    forall c :: c in t.columns && c.typ == ENUM ==> c.enumTypeName.Some?
  }

  predicate HasInheritanceMetadata(t: Table) {
    t.discriminatorColumn.Some? || t.discriminatorValues != map[]
  }

  function KeyedColumns(t: Table): set<string> {
    set fk, n | fk in t.foreignKeys && n in fk.columnNames :: n
  }

  ghost predicate OwnedByHierarchy(t: Table, c: Column) {
    c.owningClassId.Some? ==> c.owningClassId.value in t.sourceClassIds
  }

  /** Outside key and discriminator, a foreign-key column is the root's and any other has an owner. */
  ghost predicate OwnerRule(t: Table, c: Column)
    requires KeyShape(t) && t.discriminatorColumn.Some? && t.sourceClassIds != []
  {
    || c.name == t.primaryKey.columnNames[0] || c.name == t.discriminatorColumn.value
    || (c.name in KeyedColumns(t) && (c.owningClassId.Some? ==> c.owningClassId.value == t.sourceClassIds[0]))
    || (c.name !in KeyedColumns(t) && c.owningClassId.Some?)
  }

  ghost predicate InheritanceShape(t: Table)
    requires KeyShape(t)
  {
    && t.discriminatorColumn.Some? && t.sourceClassIds != []
    && t.discriminatorColumn.value in ColumnNames(t.columns)
    && (forall id :: id in t.sourceClassIds ==> id in t.discriminatorValues)
    && (forall c :: c in t.columns ==> OwnedByHierarchy(t, c))
    && (forall c :: c in t.columns ==> OwnerRule(t, c))
  }

  /** The rules that are checked entry by entry. */
  datatype Rule = SimpleKey | NamedEnum | ValuedClass | KnownOwner | PlacedColumn

  /** The discriminator, the classes and the column that holds the discriminator are there. */
  ghost predicate HasHierarchyParts(t: Table) {
    && KeyShape(t) && t.discriminatorColumn.Some? && t.sourceClassIds != []
    && t.discriminatorColumn.value in ColumnNames(t.columns)
  }

  ghost predicate Breaks(t: Table, rule: Rule, k: nat) {
    match rule
    case SimpleKey => k < |t.foreignKeys| && |t.foreignKeys[k].columnNames| > 1
    case NamedEnum => k < |t.columns| && t.columns[k].typ == ENUM && t.columns[k].enumTypeName.None?
    case ValuedClass => k < |t.sourceClassIds| && t.sourceClassIds[k] !in t.discriminatorValues
    case KnownOwner => k < |t.columns| && !OwnedByHierarchy(t, t.columns[k])
    case PlacedColumn => k < |t.columns| && HasHierarchyParts(t) && !OwnerRule(t, t.columns[k])
  }

  ghost predicate Obeys(t: Table, rule: Rule) {
    forall k: nat :: !Breaks(t, rule, k)
  }

  ghost predicate BreaksFirst(t: Table, rule: Rule, k: nat) {
    Breaks(t, rule, k) && forall j: nat :: j < k ==> !Breaks(t, rule, j)
  }

  lemma TableRulesHold(t: Table)
    ensures Obeys(t, SimpleKey) <==> SimpleKeys(t)
    ensures Obeys(t, NamedEnum) <==> NamedEnums(t)
  {
    hide KeyShape;
    forall k: nat ensures !Breaks(t, SimpleKey, k) <== SimpleKeys(t) && !Breaks(t, NamedEnum, k) <== NamedEnums(t) {
      assert k < |t.foreignKeys| ==> t.foreignKeys[k] in t.foreignKeys;
      assert k < |t.columns| ==> t.columns[k] in t.columns;
    }
    forall fk | fk in t.foreignKeys && Obeys(t, SimpleKey) ensures |fk.columnNames| <= 1 {
      var k: nat :| k < |t.foreignKeys| && t.foreignKeys[k] == fk;
      assert !Breaks(t, SimpleKey, k);
    }
    forall c | c in t.columns && c.typ == ENUM && Obeys(t, NamedEnum) ensures c.enumTypeName.Some? {
      var k: nat :| k < |t.columns| && t.columns[k] == c;
      assert !Breaks(t, NamedEnum, k);
    }
  }

  lemma InheritanceRulesHold(t: Table)
    requires HasHierarchyParts(t)
    ensures InheritanceShape(t) <==> Obeys(t, ValuedClass) && Obeys(t, KnownOwner) && Obeys(t, PlacedColumn)
  {
    hide OwnedByHierarchy, OwnerRule, KeyShape;
    if InheritanceShape(t) {
      forall k: nat
        ensures !Breaks(t, ValuedClass, k) && !Breaks(t, KnownOwner, k) && !Breaks(t, PlacedColumn, k)
      {
        assert k < |t.columns| ==> t.columns[k] in t.columns;
      }
    }
    if Obeys(t, ValuedClass) && Obeys(t, KnownOwner) && Obeys(t, PlacedColumn) {
      forall id | id in t.sourceClassIds ensures id in t.discriminatorValues {
        var k: nat :| k < |t.sourceClassIds| && t.sourceClassIds[k] == id;
        assert !Breaks(t, ValuedClass, k);
      }
      forall c | c in t.columns ensures OwnedByHierarchy(t, c) && OwnerRule(t, c) {
        var k: nat :| k < |t.columns| && t.columns[k] == c;
        assert !Breaks(t, KnownOwner, k) && !Breaks(t, PlacedColumn, k);
      }
    }
  }

  /** The error of the first inheritance rule that is broken, at the first entry that breaks it. */
  ghost predicate IsInheritanceReport(t: Table, e: ShapeError) {
    match e
    case DiscriminatorColumnRequired => t.discriminatorColumn.None?
    case SourceClassIdsRequired => t.discriminatorColumn.Some? && t.sourceClassIds == []
    case DiscriminatorColumnMissing =>
      && t.discriminatorColumn.Some? && t.sourceClassIds != []
      && t.discriminatorColumn.value !in ColumnNames(t.columns)
    case DiscriminatorValueRequired(id) =>
      && HasHierarchyParts(t)
      && exists k: nat :: BreaksFirst(t, ValuedClass, k) && id == t.sourceClassIds[k]
    case UnknownColumnOwner(id, name) =>
      && HasHierarchyParts(t) && Obeys(t, ValuedClass)
      && exists k: nat :: BreaksFirst(t, KnownOwner, k)
           && t.columns[k].owningClassId == Some(id) && t.columns[k].name == name
    case SubclassRelationshipUnsupported(id, name) =>
      && HasHierarchyParts(t) && Obeys(t, ValuedClass) && Obeys(t, KnownOwner)
      && exists k: nat :: BreaksFirst(t, PlacedColumn, k) && t.columns[k].name in KeyedColumns(t)
           && t.columns[k].owningClassId == Some(id) && t.columns[k].name == name
    case UnownedColumnUnsupported(name) =>
      && HasHierarchyParts(t) && Obeys(t, ValuedClass) && Obeys(t, KnownOwner)
      && exists k: nat :: BreaksFirst(t, PlacedColumn, k) && t.columns[k].name !in KeyedColumns(t)
           && t.columns[k].name == name
    case _ => false
  }

  /** The error of the first rule that is broken, at the first entry that breaks it. */
  ghost predicate IsReport(t: Table, e: ShapeError) {
    match e
    case UnsupportedPrimaryKey => !KeyShape(t)
    case CompositeForeignKey(name) =>
      KeyShape(t) && exists k: nat :: BreaksFirst(t, SimpleKey, k) && t.foreignKeys[k].name == name
    case UnsupportedColumnType(name) =>
      && KeyShape(t) && Obeys(t, SimpleKey)
      && exists k: nat :: BreaksFirst(t, NamedEnum, k) && t.columns[k].name == name
    case _ =>
      && KeyShape(t) && Obeys(t, SimpleKey) && Obeys(t, NamedEnum)
      && HasInheritanceMetadata(t) && IsInheritanceReport(t, e)
  }

  /** A table has at most one report. */
  lemma ReportIsUnique(t: Table, e: ShapeError, f: ShapeError)
    requires IsReport(t, e) && IsReport(t, f)
    ensures e == f
  {
    hide KeyShape, Breaks, HasInheritanceMetadata;
  }

  /** A table the generator can emit. */
  ghost predicate InScope(t: Table) {
    KeyShape(t) && SimpleKeys(t) && NamedEnums(t) && (HasInheritanceMetadata(t) ==> InheritanceShape(t))
  }

  // ---- the checks as loops ---------------------------------------------

  method CollectKeyedColumns(t: Table) returns (keyed: set<string>)
    ensures keyed == KeyedColumns(t)
  {
    keyed := {};
    for i := 0 to |t.foreignKeys|
      invariant forall n :: n in keyed <==> exists k :: 0 <= k < i && n in t.foreignKeys[k].columnNames
    {
      keyed := keyed + set n | n in t.foreignKeys[i].columnNames;
    }
  }

  method CheckForeignKeys(t: Table) returns (r: Option<ShapeError>)
    requires KeyShape(t)
    ensures r.None? <==> Obeys(t, SimpleKey)
    ensures r.Some? ==> IsReport(t, r.value)
  {
    hide KeyShape, IsInheritanceReport;
    for i := 0 to |t.foreignKeys|
      invariant forall k :: 0 <= k < i ==> !Breaks(t, SimpleKey, k)
    {
      if |t.foreignKeys[i].columnNames| > 1 {
        assert BreaksFirst(t, SimpleKey, i);
        return Some(CompositeForeignKey(t.foreignKeys[i].name));
      }
    }
    return None;
  }

  method CheckEnumColumns(t: Table) returns (r: Option<ShapeError>)
    requires KeyShape(t) && Obeys(t, SimpleKey)
    ensures r.None? <==> Obeys(t, NamedEnum)
    ensures r.Some? ==> IsReport(t, r.value)
  {
    hide KeyShape, IsInheritanceReport;
    for i := 0 to |t.columns|
      invariant forall k :: 0 <= k < i ==> !Breaks(t, NamedEnum, k)
    {
      if t.columns[i].typ == ENUM && t.columns[i].enumTypeName.None? {
        assert BreaksFirst(t, NamedEnum, i);
        return Some(UnsupportedColumnType(t.columns[i].name));
      }
    }
    return None;
  }

  method CheckClassValues(t: Table) returns (r: Option<ShapeError>)
    requires HasHierarchyParts(t)
    ensures r.None? <==> Obeys(t, ValuedClass)
    ensures r.Some? ==> IsInheritanceReport(t, r.value)
  {
    hide KeyShape;
    for i := 0 to |t.sourceClassIds|
      invariant forall k :: 0 <= k < i ==> !Breaks(t, ValuedClass, k)
    {
      if t.sourceClassIds[i] !in t.discriminatorValues {
        assert BreaksFirst(t, ValuedClass, i);
        return Some(DiscriminatorValueRequired(t.sourceClassIds[i]));
      }
    }
    return None;
  }

  method CheckKnownOwners(t: Table) returns (r: Option<ShapeError>)
    requires HasHierarchyParts(t) && Obeys(t, ValuedClass)
    ensures r.None? <==> Obeys(t, KnownOwner)
    ensures r.Some? ==> IsInheritanceReport(t, r.value)
  {
    hide KeyShape, HasHierarchyParts, OwnerRule;
    for i := 0 to |t.columns|
      invariant forall k :: 0 <= k < i ==> !Breaks(t, KnownOwner, k)
    {
      var owner := t.columns[i].owningClassId;
      if owner.Some? && owner.value !in t.sourceClassIds {
        assert BreaksFirst(t, KnownOwner, i);
        return Some(UnknownColumnOwner(owner.value, t.columns[i].name));
      }
    }
    return None;
  }

  method CheckPlacement(t: Table) returns (r: Option<ShapeError>)
    requires HasHierarchyParts(t) && Obeys(t, ValuedClass) && Obeys(t, KnownOwner)
    ensures r.None? <==> Obeys(t, PlacedColumn)
    ensures r.Some? ==> IsInheritanceReport(t, r.value)
  {
    var keyed := CollectKeyedColumns(t);
    var root := t.sourceClassIds[0];
    hide OwnedByHierarchy;
    for i := 0 to |t.columns|
      invariant forall k :: 0 <= k < i ==> !Breaks(t, PlacedColumn, k)
    {
      var column := t.columns[i];
      if column.name == t.primaryKey.columnNames[0] || column.name == t.discriminatorColumn.value {
        continue;
      }
      if column.name in keyed {
        if column.owningClassId.Some? && column.owningClassId.value != root {
          assert BreaksFirst(t, PlacedColumn, i);
          return Some(SubclassRelationshipUnsupported(column.owningClassId.value, column.name));
        }
        continue;
      }
      if column.owningClassId.None? {
        assert BreaksFirst(t, PlacedColumn, i);
        return Some(UnownedColumnUnsupported(column.name));
      }
    }
    return None;
  }

  /** `_reject_malformed_inheritance`. */
  method RejectMalformedInheritance(t: Table) returns (r: Option<ShapeError>)
    requires KeyShape(t)
    ensures r.None? <==> InheritanceShape(t)
    ensures r.Some? ==> IsInheritanceReport(t, r.value)
  {
    if t.discriminatorColumn.None? {
      return Some(DiscriminatorColumnRequired);
    }
    if t.sourceClassIds == [] {
      return Some(SourceClassIdsRequired);
    }
    if ColumnByName(t.columns, t.discriminatorColumn.value).None? {
      return Some(DiscriminatorColumnMissing);
    }
    InheritanceRulesHold(t);
    hide InheritanceShape, Obeys, IsInheritanceReport, KeyShape;
    r := CheckClassValues(t);
    if r.None? {
      r := CheckKnownOwners(t);
    }
    if r.None? {
      r := CheckPlacement(t);
    }
  }

  /** `reject_out_of_scope`: the first violated rule, in the fixed order of the checks. */
  method RejectOutOfScope(t: Table) returns (r: Option<ShapeError>)
    ensures r.None? <==> InScope(t)
    ensures r.Some? ==> IsReport(t, r.value)
  {
    if |t.primaryKey.columnNames| != 1 {
      return Some(UnsupportedPrimaryKey);
    }
    var key := ColumnByName(t.columns, t.primaryKey.columnNames[0]);
    if key.None? || key.value.typ != UUID {
      return Some(UnsupportedPrimaryKey);
    }
    TableRulesHold(t);
    hide SimpleKeys, NamedEnums, InheritanceShape, Obeys;
    r := CheckForeignKeys(t);
    if r.None? {
      r := CheckEnumColumns(t);
    }
    if r.None? && HasInheritanceMetadata(t) {
      r := RejectMalformedInheritance(t);
    }
  }

  // ---- mapped tables are in scope --------------------------------------

  /** The shape the mapper gives every table is one the generator accepts. */
  lemma SoundTableIsInScope(enumNames: set<string>, t: Table)
    requires SoundTable(enumNames, t)
    ensures InScope(t)
  {
    ColumnIsByName(t, ID_COLUMN);
    assert forall fk :: fk in t.foreignKeys ==> IsSimpleForeignKey(t, fk);
    forall c | c in t.columns && c.typ == ENUM ensures c.enumTypeName.Some? {
      assert SoundColumn(enumNames, t, c);
    }
    if HasInheritanceMetadata(t) {
      HierarchyTableIsInScope(enumNames, t);
    }
  }

  lemma ColumnIsByName(t: Table, c: Column)
    requires DistinctColumnNames(t) && c in t.columns
    ensures ColumnByName(t.columns, c.name) == Some(c)
  {
    var d := ColumnByName(t.columns, c.name).value;
    var i :| 0 <= i < |t.columns| && t.columns[i] == c;
    var j :| 0 <= j < |t.columns| && t.columns[j] == d;
  }

  lemma HierarchyTableIsInScope(enumNames: set<string>, t: Table)
    requires SoundTable(enumNames, t) && KeyShape(t) && HasInheritanceMetadata(t)
    ensures InheritanceShape(t)
  {
    assert TYPE_COLUMN in t.columns;
    hide WellFormedTable, KeyShape;
    forall c | c in t.columns ensures OwnedByHierarchy(t, c) && OwnerRule(t, c) {
      assert SoundColumn(enumNames, t, c);
      SoundColumnHasOwner(enumNames, t, c);
    }
  }

  lemma SoundColumnHasOwner(enumNames: set<string>, t: Table, c: Column)
    requires SoundTable(enumNames, t) && KeyShape(t) && c in t.columns
    requires t.discriminatorColumn.Some? && t.sourceClassIds != []
    ensures OwnedByHierarchy(t, c) && OwnerRule(t, c)
  {
    assert SoundColumn(enumNames, t, c);
    if c.sourceElementId.Some? {
      AttributeIsNotKeyed(enumNames, t, c);
    } else if exists fk :: fk in t.foreignKeys && fk.columnNames == [c.name] {
      var fk :| fk in t.foreignKeys && fk.columnNames == [c.name];
      assert c.name in fk.columnNames;
    }
  }

  /** The column of a foreign key stems from no attribute, so no attribute column is keyed. */
  lemma AttributeIsNotKeyed(enumNames: set<string>, t: Table, c: Column)
    requires SoundTable(enumNames, t) && c in t.columns && c.sourceElementId.Some?
    ensures c.name !in KeyedColumns(t)
  {
    hide SoundDiscriminator, SoundColumn, HasIdKey, HasColumns;
    forall fk | fk in t.foreignKeys ensures c.name !in fk.columnNames {
      assert IsSimpleForeignKey(t, fk);
      KeyColumnIsPlain(t, fk, c);
    }
  }

  lemma KeyColumnIsPlain(t: Table, fk: ForeignKey, c: Column)
    requires DistinctColumnNames(t) && IsSimpleForeignKey(t, fk) && c in t.columns && c.sourceElementId.Some?
    ensures c.name !in fk.columnNames
  {
    var d :| d in t.columns && d.name == fk.columnNames[0] && d.typ == UUID && d.sourceElementId.None?;
    ColumnIsByName(t, d);
    ColumnIsByName(t, c);
  }

  // ---- the split into classes ------------------------------------------

  /** The column becomes a field of the class `owner`; key and foreign keys go to the root. */
  predicate IsFieldOf(t: Table, keyed: set<string>, owner: ElementId, isRoot: bool, c: Column)
    requires |t.primaryKey.columnNames| > 0
  {
    var isKey := c.name == t.primaryKey.columnNames[0];
    && Some(c.name) != t.discriminatorColumn
    && (|| (isKey && isRoot)
        || (!isKey && c.name in keyed && c.owningClassId.None? && isRoot)
        || c.owningClassId == Some(owner))
  }

  function FieldsOf(t: Table, columns: seq<Column>, owner: ElementId, isRoot: bool): (r: seq<Column>)
    requires |t.primaryKey.columnNames| > 0
    ensures forall c :: c in r <==> c in columns && IsFieldOf(t, KeyedColumns(t), owner, isRoot, c)
  {
    if columns == [] then []
    else
      var n := |columns| - 1;
      FieldsOf(t, columns[..n], owner, isRoot)
      + if IsFieldOf(t, KeyedColumns(t), owner, isRoot, columns[n]) then [columns[n]] else []
  }

  /** `_build_fields_for_owner`. */
  method BuildFieldsForOwner(t: Table, owner: ElementId, isRoot: bool) returns (fields: seq<Column>)
    requires |t.primaryKey.columnNames| > 0
    ensures fields == FieldsOf(t, t.columns, owner, isRoot)
  {
    var keyed := CollectKeyedColumns(t);
    fields := [];
    for i := 0 to |t.columns|
      invariant fields == FieldsOf(t, t.columns[..i], owner, isRoot)
    {
      PrefixStep(t.columns, i);
      var column := t.columns[i];
      if Some(column.name) == t.discriminatorColumn {
        continue;
      }
      var isKey := column.name == t.primaryKey.columnNames[0];
      var hasKey := !isKey && column.name in keyed;
      var toRootKey := hasKey && column.owningClassId.None? && isRoot;
      var toOwner := column.owningClassId == Some(owner);
      if !(isKey && isRoot) && !toRootKey && !toOwner {
        continue;
      }
      fields := fields + [column];
    }
    FullPrefix(t.columns);
  }

  /** `build_inheritance_hierarchy_context`: the fields of the class at position `k` of the hierarchy. */
  function ClassFields(t: Table, k: nat): seq<Column>
    requires |t.primaryKey.columnNames| > 0 && k < |t.sourceClassIds|
  {
    FieldsOf(t, t.columns, t.sourceClassIds[k], k == 0)
  }

  ghost predicate IsFieldIn(t: Table, c: Column, k: nat)
    requires |t.primaryKey.columnNames| > 0
  {
    k < |t.sourceClassIds| && c in ClassFields(t, k)
  }

  lemma {:induction false} FieldsAreDistinct(t: Table, columns: seq<Column>, owner: ElementId, isRoot: bool)
    requires |t.primaryKey.columnNames| > 0 && Distinct(columns)
    ensures Distinct(FieldsOf(t, columns, owner, isRoot))
  {
    if columns != [] {
      var n := |columns| - 1;
      FieldsAreDistinct(t, columns[..n], owner, isRoot);
      assert columns[n] !in columns[..n];
    }
  }

  /** The class a column of a hierarchy table goes to: its owner, or the root. */
  ghost predicate BelongsAt(t: Table, c: Column, k: nat) {
    && k < |t.sourceClassIds|
    && if c.owningClassId.None? then k == 0 else t.sourceClassIds[k] == c.owningClassId.value
  }

  /** In a hierarchy table every column but the discriminator is a field of exactly one
      generated class, once: its owner's, or the root's for the key and the foreign keys. */
  lemma HierarchyColumnsArePartitioned(enumNames: set<string>, t: Table, c: Column)
    requires SoundTable(enumNames, t) && Distinct(t.sourceClassIds) && |t.sourceClassIds| >= 2 && c in t.columns
    ensures t.primaryKey.columnNames == ["id"]
    ensures forall k :: 0 <= k < |t.sourceClassIds| ==> Distinct(ClassFields(t, k))
    ensures forall k :: 0 <= k < |t.sourceClassIds| ==>
      (c in ClassFields(t, k) <==> Some(c.name) != t.discriminatorColumn && BelongsAt(t, c, k))
    ensures Some(c.name) != t.discriminatorColumn ==> exists k :: BelongsAt(t, c, k)
  {
    assert Distinct(t.columns) by {
      assert DistinctColumnNames(t);
    }
    SoundTableIsInScope(enumNames, t);
    assert OwnedByHierarchy(t, c) && OwnerRule(t, c);
    assert SoundColumn(enumNames, t, c);
    ColumnIsByName(t, ID_COLUMN);
    ColumnIsByName(t, c);
    hide SoundTable, WellFormedTable, InScope, KeyShape;
    forall k | 0 <= k < |t.sourceClassIds|
      ensures Distinct(ClassFields(t, k))
      ensures c in ClassFields(t, k) <==> Some(c.name) != t.discriminatorColumn && BelongsAt(t, c, k)
    {
      FieldsAreDistinct(t, t.columns, t.sourceClassIds[k], k == 0);
    }
    if c.owningClassId.Some? {
      var k :| 0 <= k < |t.sourceClassIds| && t.sourceClassIds[k] == c.owningClassId.value;
      assert BelongsAt(t, c, k);
    } else {
      assert BelongsAt(t, c, 0);
    }
  }

  /** Whatever the mapper produces, the generator accepts. */
  lemma MappedTablesAreInScope(snake: SnakeCase, model: Model)
    requires DistinctClassIds(model) && MapToRelational(snake, model).Ok?
    ensures forall t :: t in MapToRelational(snake, model).value.tables ==> InScope(t)
  {
    MappingIsWellFormed(snake, model);
    var m := MapToRelational(snake, model).value;
    hide MapToRelational;
    forall t | t in m.tables ensures InScope(t) {
      SoundTableIsInScope(EnumTypeNames(m.enumTypes), t);
    }
  }

  /** ... and in each of its hierarchy tables the classes share out the columns. */
  lemma MappedHierarchiesArePartitioned(snake: SnakeCase, model: Model, t: Table, c: Column)
    requires DistinctClassIds(model) && DistinctAttributeIds(model) && MapToRelational(snake, model).Ok?
    requires t in MapToRelational(snake, model).value.tables && |t.sourceClassIds| >= 2 && c in t.columns
    ensures t.primaryKey.columnNames == ["id"]
    ensures forall k :: 0 <= k < |t.sourceClassIds| ==> Distinct(ClassFields(t, k))
    ensures forall j, k :: IsFieldIn(t, c, j) && IsFieldIn(t, c, k) ==> j == k
    ensures (exists k :: IsFieldIn(t, c, k)) <==> Some(c.name) != t.discriminatorColumn
  {
    MappingIsWellFormed(snake, model);
    HierarchyClassesDistinct(snake, model, t);
    var m := MapToRelational(snake, model).value;
    hide MapToRelational, WellFormedSchema, SoundTable;
    HierarchyColumnsArePartitioned(EnumTypeNames(m.enumTypes), t, c);
    hide ClassFields;
    if k :| BelongsAt(t, c, k) && Some(c.name) != t.discriminatorColumn {
      assert IsFieldIn(t, c, k);
    }
  }

  lemma HierarchyClassesDistinct(snake: SnakeCase, model: Model, t: Table)
    requires DistinctClassIds(model) && DistinctAttributeIds(model) && MapToRelational(snake, model).Ok?
    requires t in MapToRelational(snake, model).value.tables
    ensures Distinct(t.sourceClassIds)
  {
    PipelineHoldsTrees(snake, model);
    PipelineIsSound(snake, model);
    var m := RunPipeline(snake, model).value;
    assert t in Frozen(m.roots, m.drafts);
    hide RunPipeline, MapToRelational;
    FrozenTables(m.roots, m.drafts, t);
    if root :| root in m.drafts.tables && m.drafts.tables[root] == t {
      assert RootHolds(model, m.ctx, m.parentOf, root, t);
      TreeDistinct(ClassIds(model.classes), m.parentOf, root);
    }
  }
}
