/** The mapper as the program runs it: drafts that are appended to in place, loops and
    early returns, each equal to the stage it implements. */
module MapperLoops {
  import opened Text
  import opened Seqs
  import opened Uml
  import opened Naming
  import opened Profiles
  import opened Schema
  import opened MapErrors
  import opened Hierarchy
  import opened Trees
  import opened ParentMaps
  import opened Mapper

  // ---- drafts ----------------------------------------------------------

  /** `_TableDraft`. */
  class TableDraft {
    var name: string
    var columns: seq<Column>
    var columnNames: set<string>
    var primaryKey: PrimaryKey
    var foreignKeys: seq<ForeignKey>
    var uniqueConstraints: seq<UniqueConstraint>
    var indexes: seq<Index>
    var sourceClassIds: seq<ElementId>
    var discriminatorColumn: Option<string>
    var discriminatorValues: map<ElementId, string>
    var profile: Option<TableProfile>

    /** The name set the loops consult is the set of names of the columns. */
    ghost predicate Valid()
      reads this
    {
      columnNames == ColumnNames(columns)
    }

    /** `_freeze_table`. */
    function Frozen(): Table
      reads this
    {
      Table(name, columns, primaryKey, foreignKeys, uniqueConstraints, indexes,
            sourceClassIds, discriminatorColumn, discriminatorValues, profile)
    }

    constructor (name: string, sourceClassIds: seq<ElementId>, profile: Option<TableProfile>)
      ensures Valid()
      ensures Frozen() ==
        Table(name, [ID_COLUMN], PrimaryKey(["id"], "pk_" + name), [], [], [], sourceClassIds, None, map[], profile)
    {
      this.name := name;
      this.columns := [ID_COLUMN];
      this.columnNames := {"id"};
      this.primaryKey := PrimaryKey(["id"], "pk_" + name);
      this.foreignKeys := [];
      this.uniqueConstraints := [];
      this.indexes := [];
      this.sourceClassIds := sourceClassIds;
      this.discriminatorColumn := None;
      this.discriminatorValues := map[];
      this.profile := profile;
    }

    method AppendColumn(column: Column)
      requires Valid()
      modifies this`columns, this`columnNames
      ensures Valid() && Frozen() == old(Frozen()).(columns := old(columns) + [column])
    {
      columns := columns + [column];
      columnNames := columnNames + {column.name};
    }
  }

  // ---- enumerations and profiles ---------------------------------------

  method MapEnumerations(snake: SnakeCase, enumerations: seq<Enumeration>) returns (r: Result<EnumStage, MapError>)
    ensures r == EnumStageOf(snake, enumerations)
  {
    var types: seq<EnumType> := [];
    var nameById: map<ElementId, string> := map[];
    var taken: set<string> := {};
    for i := 0 to |enumerations|
      invariant EnumStageOf(snake, enumerations[..i]) == Ok(EnumStage(types, nameById))
      invariant taken == EnumTypeNames(types)
    {
      PrefixStep(enumerations, i);
      var enumeration := enumerations[i];
      var preferred := snake(enumeration.name);
      if preferred.None? {
        EnumErrorStands(snake, enumerations, i + 1);
        return Err(InvalidElementName(enumeration.name));
      }
      var name := UniqueName(snake, taken, preferred.value, None);
      taken := taken + {name.value};
      types := types + [EnumType(name.value, LabelsOf(enumeration.literals), enumeration.id)];
      nameById := nameById[enumeration.id := name.value];
    }
    FullPrefix(enumerations);
    return Ok(EnumStage(types, nameById));
  }

  lemma {:induction false} EnumErrorStands(snake: SnakeCase, enumerations: seq<Enumeration>, i: nat)
    requires i <= |enumerations| && EnumStageOf(snake, enumerations[..i]).Err?
    ensures EnumStageOf(snake, enumerations) == EnumStageOf(snake, enumerations[..i])
  {
    if i < |enumerations| {
      assert enumerations[..|enumerations| - 1][..i] == enumerations[..i];
      EnumErrorStands(snake, enumerations[..|enumerations| - 1], i);
    } else {
      FullPrefix(enumerations);
    }
  }

  method CollectProfiles(model: Model) returns (r: Result<ProfileIndex, MapError>)
    ensures r == ProfilesOf(model)
  {
    var tables: map<ElementId, TableProfile> := map[];
    var columns: map<ElementId, ColumnProfile> := map[];
    var pending := model.metadata.Keys;
    while pending != {}
      invariant pending <= model.metadata.Keys
      invariant forall id :: id in model.metadata && id !in pending ==> EntryParses(model, id)
      invariant forall id :: id in tables ==> id in model.metadata && id !in pending
      invariant forall id :: id in columns ==> id in model.metadata && id !in pending
      invariant forall id :: id in model.metadata && id !in pending ==>
        Lookup(tables, id) == (if IsClassId(model, id) then ParseTableProfile(JObject(model.metadata[id])).value else None)
      invariant forall id :: id in model.metadata && id !in pending ==>
        Lookup(columns, id) ==
          (if !IsClassId(model, id) && IsAttributeId(model, id)
           then ParseColumnProfile(JObject(model.metadata[id])).value else None)
    {
      var id :| id in pending;
      pending := pending - {id};
      var entry := JObject(model.metadata[id]);
      if IsClassId(model, id) {
        var profile := ParseTableProfile(entry);
        if profile.Err? {
          assert !EntryParses(model, id);
          return Err(InvalidGenerationProfile);
        }
        if profile.value.Some? {
          tables := tables[id := profile.value.value];
        }
      } else if IsAttributeId(model, id) {
        var profile := ParseColumnProfile(entry);
        if profile.Err? {
          assert !EntryParses(model, id);
          return Err(InvalidGenerationProfile);
        }
        if profile.value.Some? {
          columns := columns[id := profile.value.value];
        }
      }
    }
    IndexIs(model, tables, columns);
    return Ok(ProfileIndex(tables, columns));
  }

  lemma IndexIs(model: Model, tables: map<ElementId, TableProfile>, columns: map<ElementId, ColumnProfile>)
    requires ProfilesParse(model)
    requires tables.Keys <= model.metadata.Keys && columns.Keys <= model.metadata.Keys
    requires forall id :: id in model.metadata ==> Lookup(tables, id) == TableProfileOf(model, id)
    requires forall id :: id in model.metadata ==> Lookup(columns, id) == ColumnProfileOf(model, id)
    ensures ProfilesOf(model) == Ok(ProfileIndex(tables, columns))
  {
    hide TableProfileOf, ColumnProfileOf;
    var index := ProfilesOf(model).value;
    forall id ensures id in index.tables <==> id in tables {
      assert id in model.metadata ==> (Lookup(tables, id).Some? <==> TableProfileOf(model, id).Some?);
    }
    forall id ensures id in index.columns <==> id in columns {
      assert id in model.metadata ==> (Lookup(columns, id).Some? <==> ColumnProfileOf(model, id).Some?);
    }
    assert index.tables == tables;
    assert index.columns == columns;
  }

  // ---- tables ----------------------------------------------------------

  method MapAttributeColumn(ctx: Context, taken: set<string>, o: Owned) returns (r: Result<Column, MapError>)
    ensures r == AttributeColumn(ctx, taken, o)
  {
    var preferred := ctx.snake(o.attribute.name);
    if preferred.None? {
      return Err(InvalidElementName(o.attribute.name));
    }
    var name := UniqueName(ctx.snake, taken, preferred.value, Some(o.ownerName));
    if name.Err? {
      return Err(InvalidElementName(name.error));
    }
    var profile := Lookup(ctx.profiles.columns, o.attribute.id);
    match o.attribute.typ {
      case EnumerationRef(id) =>
        if id !in ctx.enumNameById {
          return Err(UnknownEnumeration(o.attribute.id, id));
        }
        return Ok(Column(name.value, ENUM, o.nullable, None, None, None, Some(ctx.enumNameById[id]),
                         Some(o.attribute.id), Some(o.ownerId), profile));
      case Primitive(primitive) =>
        return Ok(PrimitiveColumn(name.value, primitive, o, profile));
    }
  }

  lemma OneMoreAttribute(ctx: Context, t: Table, owned: seq<Owned>, o: Owned)
    requires AddAttributes(ctx, t, owned).Ok?
    ensures AddAttributes(ctx, t, owned + [o]) == AddAttribute(ctx, AddAttributes(ctx, t, owned).value, o)
  {
    assert (owned + [o])[..|owned|] == owned;
  }

  /** The inner loop of `_map_table_for_root`, over the attributes of one class. */
  method AppendAttributes(
      ctx: Context, draft: TableDraft, ghost bare: Table, ghost before: seq<Owned>, owned: seq<Owned>, ghost all: seq<Owned>)
      returns (r: Result<(), MapError>)
    requires draft.Valid() && AddAttributes(ctx, bare, before) == Ok(draft.Frozen())
    requires before + owned <= all
    modifies draft`columns, draft`columnNames
    ensures draft.Valid()
    ensures r.Ok? ==> AddAttributes(ctx, bare, before + owned) == Ok(draft.Frozen())
    ensures r.Err? ==> AddAttributes(ctx, bare, all) == Err(r.error)
  {
    hide AddAttributes, AttributeColumn;
    ghost var done := before;
    for i := 0 to |owned|
      invariant draft.Valid() && AddAttributes(ctx, bare, done) == Ok(draft.Frozen())
      invariant done == before + owned[..i]
    {
      var column := MapAttributeColumn(ctx, draft.columnNames, owned[i]);
      OneMoreAttribute(ctx, bare, done, owned[i]);
      PrefixStep(owned, i);
      AppendAssociates(before, owned[..i], [owned[i]]);
      done := done + [owned[i]];
      if column.Err? {
        assert all[..|done|] == done;
        AttributeErrorStands(ctx, bare, all, |done|);
        return Err(column.error);
      }
      draft.AppendColumn(column.value);
    }
    FullPrefix(owned);
    return Ok(());
  }

  lemma {:induction false} AttributeErrorStands(ctx: Context, t: Table, owned: seq<Owned>, i: nat)
    requires i <= |owned| && AddAttributes(ctx, t, owned[..i]).Err?
    ensures AddAttributes(ctx, t, owned) == AddAttributes(ctx, t, owned[..i])
  {
    if i < |owned| {
      assert owned[..|owned| - 1][..i] == owned[..i];
      AttributeErrorStands(ctx, t, owned[..|owned| - 1], i);
    } else {
      FullPrefix(owned);
    }
  }

  /** Attributes of a longer tree extend those of a shorter one. */
  lemma {:induction false} OwnedPrefix(classes: seq<UmlClass>, tree: seq<ElementId>, i: nat)
    requires AreClasses(classes, tree) && i <= |tree|
    ensures OwnedInTree(classes, tree[..i]) <= OwnedInTree(classes, tree)
  {
    if i < |tree| {
      assert tree[..|tree| - 1][..i] == tree[..i];
      OwnedPrefix(classes, tree[..|tree| - 1], i);
    } else {
      FullPrefix(tree);
    }
  }

  /** The outer loop of `_map_table_for_root`, over the classes of the tree. */
  method FillDraft(ctx: Context, draft: TableDraft, classes: seq<UmlClass>, tree: seq<ElementId>) returns (r: Result<(), MapError>)
    requires draft.Valid() && AreClasses(classes, tree)
    modifies draft`columns, draft`columnNames
    ensures draft.Valid()
    ensures r.Ok? ==> AddAttributes(ctx, old(draft.Frozen()), OwnedInTree(classes, tree)) == Ok(draft.Frozen())
    ensures r.Err? ==> AddAttributes(ctx, old(draft.Frozen()), OwnedInTree(classes, tree)) == Err(r.error)
  {
    ghost var bare := draft.Frozen();
    ghost var all := OwnedInTree(classes, tree);
    assert AddAttributes(ctx, bare, []) == Ok(draft.Frozen());
    hide AddAttributes;
    for i := 0 to |tree|
      invariant draft.Valid()
      invariant AddAttributes(ctx, bare, OwnedInTree(classes, tree[..i])) == Ok(draft.Frozen())
    {
      PrefixStep(tree, i);
      var owned := OwnedBy(ClassById(classes, tree[i]).value, i != 0);
      OwnedPrefix(classes, tree, i + 1);
      var outcome := AppendAttributes(ctx, draft, bare, OwnedInTree(classes, tree[..i]), owned, all);
      if outcome.Err? {
        return Err(outcome.error);
      }
    }
    FullPrefix(tree);
    return Ok(());
  }

  /** `_map_table_for_root`. */
  method MapTableForRoot(ctx: Context, taken: set<string>, classes: seq<UmlClass>, tree: seq<ElementId>)
      returns (r: Result<TableDraft, MapError>)
    requires tree != [] && AreClasses(classes, tree)
    ensures r.Err? ==> TableForTree(ctx, taken, classes, tree) == Err(r.error)
    ensures r.Ok? ==> fresh(r.value) && r.value.Valid() && TableForTree(ctx, taken, classes, tree) == Ok(r.value.Frozen())
  {
    hide AddAttributes, OwnedInTree;
    var root := ClassById(classes, tree[0]).value;
    var preferred := ctx.snake(root.name);
    if preferred.None? {
      return Err(InvalidElementName(root.name));
    }
    var name := UniqueName(ctx.snake, taken, preferred.value, None);
    var draft := new TableDraft(name.value, tree, Lookup(ctx.profiles.tables, tree[0]));
    if |tree| >= 2 {
      draft.discriminatorColumn := Some("class_type");
      draft.AppendColumn(TYPE_COLUMN);
      draft.discriminatorValues := map id | id in tree :: ClassById(classes, id).value.name;
    }
    assert draft.Frozen() == BareTable(ctx, name.value, classes, tree);
    var outcome := FillDraft(ctx, draft, classes, tree);
    if outcome.Err? {
      return Err(outcome.error);
    }
    return Ok(draft);
  }

  // ---- relationships ---------------------------------------------------

  method ForeignKeyColumnName(snake: SnakeCase, end: RelationshipEnd, referenced: string, taken: set<string>)
      returns (r: Result<string, MapError>)
    ensures r == ForeignKeyName(snake, end, referenced, taken)
  {
    var preferred := referenced + "_id";
    if end.role.Some? && end.role.value != "" {
      var role := snake(end.role.value);
      if role.None? {
        return Err(InvalidElementName(end.role.value));
      }
      preferred := role.value + "_id";
    }
    var name := UniqueName(snake, taken, preferred, None);
    return Ok(name.value);
  }

  /** `_add_simple_fk`. */
  method AddSimpleForeignKey(
      snake: SnakeCase, draft: TableDraft, end: RelationshipEnd, referenced: string, id: ElementId,
      nullable: bool, action: ReferentialAction, addUnique: bool) returns (r: Result<(), MapError>)
    requires draft.Valid()
    modifies draft
    ensures draft.Valid()
    ensures match r
      case Ok(_) => AddKey(snake, old(draft.Frozen()), end, referenced, id, nullable, action, addUnique) == Ok(draft.Frozen())
      case Err(e) => AddKey(snake, old(draft.Frozen()), end, referenced, id, nullable, action, addUnique) == Err(e)
  {
    var name := ForeignKeyColumnName(snake, end, referenced, draft.columnNames);
    if name.Err? {
      return Err(name.error);
    }
    var column := name.value;
    draft.AppendColumn(PlainColumn(column, UUID, nullable, None));
    draft.foreignKeys := draft.foreignKeys + [ForeignKeyTo(draft.name, column, referenced, action, id)];
    if addUnique {
      draft.uniqueConstraints :=
        draft.uniqueConstraints + [UniqueConstraint("uq_" + draft.name + "__" + column, [column])];
    } else {
      draft.indexes := draft.indexes + [Index("ix_" + draft.name + "__" + column, [column])];
    }
    return Ok(());
  }

  /** `_build_join_table`. */
  method MakeJoinTable(snake: SnakeCase, taken: set<string>, relationship: Relationship, source: string, target: string)
      returns (r: Result<Table, MapError>)
    ensures r == BuildJoinTable(snake, taken, relationship, source, target)
  {
    var name := UniqueName(snake, taken, source + "_" + target, None);
    var columnNames := {"id"};
    var toSource := ForeignKeyColumnName(snake, relationship.source, source, columnNames);
    if toSource.Err? {
      return Err(toSource.error);
    }
    columnNames := columnNames + {toSource.value};
    var toTarget := ForeignKeyColumnName(snake, relationship.target, target, columnNames);
    if toTarget.Err? {
      return Err(toTarget.error);
    }
    return Ok(JoinTableNamed(name.value, relationship, source, target, toSource.value, toTarget.value));
  }

  /** The drafts hold the tables of `d`, each in an object of its own. */
  ghost predicate Holds(drafts: map<ElementId, TableDraft>, tables: map<ElementId, Table>)
    reads drafts.Values
  {
    && drafts.Keys == tables.Keys
    && (forall a, b :: a in drafts && b in drafts && a != b ==> drafts[a] != drafts[b])
    && (forall a :: a in drafts ==> drafts[a].Valid() && drafts[a].Frozen() == tables[a])
  }

  /** Changing one draft changes that one table. */
  method StoreKey(
      snake: SnakeCase, drafts: map<ElementId, TableDraft>, ghost tables: map<ElementId, Table>,
      holder: ElementId, end: RelationshipEnd, referenced: string, id: ElementId,
      nullable: bool, action: ReferentialAction, addUnique: bool)
      returns (r: Result<(), MapError>)
    requires Holds(drafts, tables) && holder in drafts
    modifies drafts[holder]
    ensures match r
      case Ok(_) =>
        var t := AddKey(snake, tables[holder], end, referenced, id, nullable, action, addUnique);
        t.Ok? && Holds(drafts, tables[holder := t.value])
      case Err(e) => AddKey(snake, tables[holder], end, referenced, id, nullable, action, addUnique) == Err(e)
  {
    hide AddKey;
    r := AddSimpleForeignKey(snake, drafts[holder], end, referenced, id, nullable, action, addUnique);
  }

  /** The table that holds the key of a relationship, the end it refers to, and its constraints. */
  method PlaceKey(
      snake: SnakeCase, drafts: map<ElementId, TableDraft>, ghost tables: map<ElementId, Table>,
      sourceRoot: ElementId, targetRoot: ElementId, relationship: Relationship)
      returns (r: Result<(), MapError>)
    requires Holds(drafts, tables) && sourceRoot in drafts && targetRoot in drafts
    requires !PlacementOf(relationship).JoinTable?
    modifies drafts.Values
    ensures
      var holder := if PlacementOf(relationship).OnSource? then sourceRoot else targetRoot;
      var referenced := if PlacementOf(relationship).OnSource? then targetRoot else sourceRoot;
      var t := AddForeignKey(snake, tables[holder], relationship, tables[referenced].name);
      match r
      case Ok(_) => t.Ok? && Holds(drafts, tables[holder := t.value])
      case Err(e) => t == Err(e)
  {
    hide AddKey;
    var sourceMany, targetMany := IsMany(relationship.source.multiplicity), IsMany(relationship.target.multiplicity);
    var holder, referenced, end, addUnique;
    if targetMany && !sourceMany {
      holder, referenced, end, addUnique := targetRoot, drafts[sourceRoot].name, relationship.source, false;
    } else if sourceMany && !targetMany {
      holder, referenced, end, addUnique := sourceRoot, drafts[targetRoot].name, relationship.target, false;
    } else {
      holder, referenced, end, addUnique := targetRoot, drafts[sourceRoot].name, relationship.source, true;
    }
    var nullable, action;
    if relationship.kind == Composition {
      nullable, action := relationship.source.classId == relationship.target.classId, Cascade;
    } else {
      nullable, action := end.multiplicity.lower <= 0, NoAction;
    }
    r := StoreKey(snake, drafts, tables, holder, end, referenced, relationship.id, nullable, action, addUnique);
  }

  /** One round of the loop of `_map_relationships`. */
  method StoreRelationship(
      snake: SnakeCase, parentOf: Parents, drafts: map<ElementId, TableDraft>, ghost d: Drafts,
      joins: seq<Table>, taken: set<string>, relationship: Relationship)
      returns (r: Result<(seq<Table>, set<string>), MapError>)
    requires HasEndTables(parentOf, d, relationship)
    requires Holds(drafts, d.tables) && d.joins == joins && d.taken == taken
    modifies drafts.Values
    ensures match r
      case Ok((joins', taken')) =>
        var next := MapRelationship(snake, parentOf, d, relationship);
        next.Ok? && Holds(drafts, next.value.tables) && next.value.joins == joins' && next.value.taken == taken'
      case Err(e) => MapRelationship(snake, parentOf, d, relationship) == Err(e)
  {
    hide AddForeignKey, BuildJoinTable;
    if relationship.kind == Generalization {
      return Ok((joins, taken));
    }
    var sourceRoot := FindRoot(parentOf, relationship.source.classId);
    var targetRoot := FindRoot(parentOf, relationship.target.classId);
    if IsMany(relationship.source.multiplicity) && IsMany(relationship.target.multiplicity) {
      var t := MakeJoinTable(snake, taken, relationship, drafts[sourceRoot].name, drafts[targetRoot].name);
      if t.Err? {
        return Err(t.error);
      }
      return Ok((joins + [t.value], taken + {t.value.name}));
    }
    var outcome := PlaceKey(snake, drafts, d.tables, sourceRoot, targetRoot, relationship);
    if outcome.Err? {
      return Err(outcome.error);
    }
    return Ok((joins, taken));
  }

  /** `_map_relationships`. */
  method StoreRelationships(
      snake: SnakeCase, parentOf: Parents, drafts: map<ElementId, TableDraft>, ghost d: Drafts, taken: set<string>,
      relationships: seq<Relationship>)
      returns (r: Result<seq<Table>, MapError>)
    requires forall x :: x in relationships ==> HasEndTables(parentOf, d, x)
    requires Holds(drafts, d.tables) && d.joins == [] && d.taken == taken
    modifies drafts.Values
    ensures match r
      case Ok(joins) =>
        var after := MapRelationships(snake, parentOf, d, relationships);
        after.Ok? && Holds(drafts, after.value.tables) && after.value.joins == joins
      case Err(e) => MapRelationships(snake, parentOf, d, relationships) == Err(e)
  {
    var joins: seq<Table>, names := [], taken;
    ghost var current := d;
    assert MapRelationships(snake, parentOf, d, relationships[..0]) == Ok(d);
    hide MapRelationships, MapRelationship, HasEndTables;
    for i := 0 to |relationships|
      invariant MapRelationships(snake, parentOf, d, relationships[..i]) == Ok(current)
      invariant Holds(drafts, current.tables) && current.joins == joins && current.taken == names
    {
      PrefixStep(relationships, i);
      OneMoreRelationship(snake, parentOf, d, relationships, i, current);
      var outcome := StoreRelationship(snake, parentOf, drafts, current, joins, names, relationships[i]);
      if outcome.Err? {
        RelationshipErrorStands(snake, parentOf, d, relationships, i + 1);
        return Err(outcome.error);
      }
      current := MapRelationship(snake, parentOf, current, relationships[i]).value;
      joins, names := outcome.value.0, outcome.value.1;
    }
    FullPrefix(relationships);
    return Ok(joins);
  }

  lemma OneMoreRelationship(
      snake: SnakeCase, parentOf: Parents, d: Drafts, relationships: seq<Relationship>, i: nat, current: Drafts)
    requires forall x :: x in relationships ==> HasEndTables(parentOf, d, x)
    requires i < |relationships| && MapRelationships(snake, parentOf, d, relationships[..i]) == Ok(current)
    ensures HasEndTables(parentOf, current, relationships[i])
    ensures MapRelationships(snake, parentOf, d, relationships[..i + 1]) == MapRelationship(snake, parentOf, current, relationships[i])
  {
    PrefixStep(relationships, i);
    assert HasEndTables(parentOf, d, relationships[i]);
  }

  lemma {:induction false} RelationshipErrorStands(
      snake: SnakeCase, parentOf: Parents, d: Drafts, relationships: seq<Relationship>, i: nat)
    requires forall x :: x in relationships ==> HasEndTables(parentOf, d, x)
    requires i <= |relationships| && MapRelationships(snake, parentOf, d, relationships[..i]).Err?
    ensures MapRelationships(snake, parentOf, d, relationships) == MapRelationships(snake, parentOf, d, relationships[..i])
  {
    if i < |relationships| {
      assert relationships[..|relationships| - 1][..i] == relationships[..i];
      RelationshipErrorStands(snake, parentOf, d, relationships[..|relationships| - 1], i);
    } else {
      FullPrefix(relationships);
    }
  }

  // ---- the pipeline ----------------------------------------------------

  /** `_check_dangling_endpoints`. */
  method CheckDanglingEnds(model: Model) returns (r: Option<ElementId>)
    ensures r == FirstDangling(model)
  {
    var known := set c | c in model.classes :: c.id;
    for i := 0 to |model.relationships|
      invariant FirstDanglingIn(model, model.relationships) == FirstDanglingIn(model, model.relationships[i..])
    {
      var relationship := model.relationships[i];
      assert model.relationships[i..][1..] == model.relationships[i + 1..];
      if relationship.source.classId !in known || relationship.target.classId !in known {
        return Some(relationship.id);
      }
    }
    return None;
  }

  datatype HierarchyParts = HierarchyParts(
    roots: seq<ElementId>, descendantsOf: map<ElementId, seq<ElementId>>, parentOf: Parents)

  /** `_build_hierarchy`. */
  method BuildHierarchy(model: Model) returns (r: Result<HierarchyParts, MapError>)
    requires NoDanglingEnds(model) && DistinctClassIds(model)
    ensures match r
      case Ok(h) =>
        && HierarchyOf(model) == Ok(h.parentOf) && IsForest(ClassIds(model.classes), h.parentOf)
        && h.roots == RootsOf(ClassIds(model.classes), h.parentOf)
        && forall root :: root in h.roots ==>
             root in h.descendantsOf
             && [root] + h.descendantsOf[root] == TreeOf(ClassIds(model.classes), h.parentOf, root)
      case Err(e) => HierarchyOf(model) == Err(e)
  {
    var parents := BuildParentMap(model.relationships);
    if parents.Err? {
      return Err(parents.error);
    }
    var ids, parentOf := ClassIds(model.classes), parents.value;
    var cycle := FindGeneralizationCycle(ids, parentOf);
    if cycle.Some? {
      return Err(GeneralizationCycle(cycle.value));
    }
    HierarchyIsForest(model);
    var childrenOf := BuildChildMap(ids, parentOf);
    var roots := RootsOf(ids, parentOf);
    var descendantsOf := DescendantsOfRoots(ids, parentOf, roots, childrenOf);
    return Ok(HierarchyParts(roots, descendantsOf, parentOf));
  }

  method DescendantsOfRoots(
      ghost ids: seq<ElementId>, ghost parentOf: Parents, roots: seq<ElementId>, childrenOf: map<ElementId, seq<ElementId>>)
      returns (descendantsOf: map<ElementId, seq<ElementId>>)
    requires RootsInForest(ids, parentOf, roots) && IsChildMap(ids, parentOf, childrenOf)
    ensures forall root :: root in roots ==>
      root in descendantsOf && [root] + descendantsOf[root] == TreeOf(ids, parentOf, root)
  {
    hide IsForest, IsChildMap, TreeOf;
    descendantsOf := map[];
    for i := 0 to |roots|
      invariant forall k :: 0 <= k < i ==>
        roots[k] in descendantsOf && [roots[k]] + descendantsOf[roots[k]] == TreeOf(ids, parentOf, roots[k])
    {
      var descendants := DescendantsBreadthFirst(ids, parentOf, roots[i], childrenOf);
      descendantsOf := descendantsOf[roots[i] := descendants];
    }
  }

  /** Drafting one more tree. */
  method DraftTree(
      ctx: Context, classes: seq<UmlClass>, tree: seq<ElementId>,
      drafts: map<ElementId, TableDraft>, taken: set<string>, ghost d: Drafts)
      returns (r: Result<map<ElementId, TableDraft>, MapError>)
    requires tree != [] && AreClasses(classes, tree)
    requires Holds(drafts, d.tables) && d.taken == taken
    ensures match r
      case Ok(drafts') =>
        var t := TableForTree(ctx, taken, classes, tree);
        && t.Ok? && tree[0] in drafts'
        && fresh(drafts'.Values - drafts.Values)
        && Holds(drafts', d.tables[tree[0] := t.value]) && drafts'[tree[0]].name == t.value.name
      case Err(e) => TableForTree(ctx, taken, classes, tree) == Err(e)
  {
    hide TableForTree;
    var draft := MapTableForRoot(ctx, taken, classes, tree);
    if draft.Err? {
      return Err(draft.error);
    }
    return Ok(drafts[tree[0] := draft.value]);
  }

  lemma OneMoreRoot(ctx: Context, model: Model, parentOf: Parents, roots: seq<ElementId>, i: nat)
    requires RootsInForest(ClassIds(model.classes), parentOf, roots) && i < |roots|
    requires RootTables(ctx, model, parentOf, roots[..i]).Ok?
    ensures roots[i] in ClassIds(model.classes) && roots[i] !in parentOf
    ensures AreClasses(model.classes, TreeOf(ClassIds(model.classes), parentOf, roots[i]))
    ensures var d := RootTables(ctx, model, parentOf, roots[..i]).value;
      RootTables(ctx, model, parentOf, roots[..i + 1]) ==
        match TableForTree(ctx, d.taken, model.classes, TreeOf(ClassIds(model.classes), parentOf, roots[i]))
        case Err(e) => Err(e)
        case Ok(t) => Ok(Drafts(d.tables[roots[i] := t], [], d.taken + {t.name}))
  {
    PrefixStep(roots, i);
    TreeIsClasses(model, parentOf, roots[i]);
    hide TableForTree, IsForest, TreeOf, AreClasses;
  }

  /** Stage 3: one draft per root. */
  method DraftTables(ctx: Context, model: Model, h: HierarchyParts)
      returns (r: Result<(map<ElementId, TableDraft>, set<string>), MapError>)
    requires RootsInForest(ClassIds(model.classes), h.parentOf, h.roots)
    requires forall root :: root in h.roots ==>
      root in h.descendantsOf && [root] + h.descendantsOf[root] == TreeOf(ClassIds(model.classes), h.parentOf, root)
    ensures match r
      case Ok((drafts, taken)) =>
        var d := RootTables(ctx, model, h.parentOf, h.roots);
        && fresh(drafts.Values)
        && d.Ok? && Holds(drafts, d.value.tables) && d.value.joins == [] && d.value.taken == taken
      case Err(e) => RootTables(ctx, model, h.parentOf, h.roots) == Err(e)
  {
    var drafts: map<ElementId, TableDraft> := map[];
    var taken: set<string> := {};
    ghost var d := Drafts(map[], [], {});
    assert RootTables(ctx, model, h.parentOf, h.roots[..0]) == Ok(d);
    hide TableForTree, IsForest, TreeOf, AreClasses, RootTables;
    for i := 0 to |h.roots|
      invariant RootTables(ctx, model, h.parentOf, h.roots[..i]) == Ok(d)
      invariant Holds(drafts, d.tables) && d.joins == [] && d.taken == taken && fresh(drafts.Values)
    {
      PrefixStep(h.roots, i);
      var root := h.roots[i];
      OneMoreRoot(ctx, model, h.parentOf, h.roots, i);
      var outcome := DraftTree(ctx, model.classes, [root] + h.descendantsOf[root], drafts, taken, d);
      if outcome.Err? {
        RootErrorStands(ctx, model, h.parentOf, h.roots, i + 1);
        return Err(outcome.error);
      }
      drafts := outcome.value;
      taken := taken + {drafts[root].name};
      d := Drafts(d.tables[root := drafts[root].Frozen()], [], taken);
    }
    FullPrefix(h.roots);
    return Ok((drafts, taken));
  }

  lemma {:induction false} RootErrorStands(ctx: Context, model: Model, parentOf: Parents, roots: seq<ElementId>, i: nat)
    requires RootsInForest(ClassIds(model.classes), parentOf, roots) && i <= |roots|
    requires RootTables(ctx, model, parentOf, roots[..i]).Err?
    ensures RootTables(ctx, model, parentOf, roots) == RootTables(ctx, model, parentOf, roots[..i])
  {
    if i < |roots| {
      assert roots[..|roots| - 1][..i] == roots[..i];
      RootErrorStands(ctx, model, parentOf, roots[..|roots| - 1], i);
    } else {
      FullPrefix(roots);
    }
  }

  /** Freezing the drafts in root order. */
  method Freeze(roots: seq<ElementId>, drafts: map<ElementId, TableDraft>, ghost tables: map<ElementId, Table>)
      returns (frozen: seq<Table>)
    requires Holds(drafts, tables) && forall id :: id in roots ==> id in drafts
    ensures frozen == TablesInOrder(roots, tables)
  {
    frozen := [];
    for i := 0 to |roots|
      invariant |frozen| == i && forall k :: 0 <= k < i ==> frozen[k] == tables[roots[k]]
    {
      frozen := frozen + [drafts[roots[i]].Frozen()];
    }
  }

  /** `map_to_relational`. */
  method MapModel(snake: SnakeCase, model: Model) returns (r: Result<RelationalModel, MapError>)
    requires DistinctClassIds(model)
    ensures r == MapToRelational(snake, model)
  {
    var dangling := CheckDanglingEnds(model);
    if dangling.Some? {
      return Err(DanglingRelationshipEndpoint(dangling.value));
    }
    var hierarchy := BuildHierarchy(model);
    if hierarchy.Err? {
      return Err(hierarchy.error);
    }
    var h := hierarchy.value;
    var profiles := CollectProfiles(model);
    if profiles.Err? {
      return Err(profiles.error);
    }
    var enums := MapEnumerations(snake, model.enumerations);
    if enums.Err? {
      return Err(enums.error);
    }
    var ctx := Context(snake, enums.value.nameById, profiles.value);
    var tables := DraftTables(ctx, model, h);
    if tables.Err? {
      return Err(tables.error);
    }
    var (drafts, taken) := tables.value;
    ghost var bare := RootTables(ctx, model, h.parentOf, h.roots).value;
    EndsHaveTables(model, h.parentOf, bare);
    var joins := StoreRelationships(snake, h.parentOf, drafts, bare, taken, model.relationships);
    if joins.Err? {
      return Err(joins.error);
    }
    var frozen := Freeze(h.roots, drafts, MapRelationships(snake, h.parentOf, bare, model.relationships).value.tables);
    return Ok(RelationalModel(frozen + joins.value, enums.value.types));
  }
}
