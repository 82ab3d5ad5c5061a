/** What `map_to_relational` guarantees about every model. */
module MapperTheorems {
  import opened Text
  import opened Uml
  import opened Naming
  import opened Schema
  import opened Hierarchy
  import opened Trees
  import opened ParentMaps
  import opened Mapper
  import opened MapperSound
  import opened MapperColumns

  // ---- enumerations ----------------------------------------------------

  ghost predicate SoundEnums(s: EnumStage) {
    && (forall i, j :: 0 <= i < j < |s.types| ==> s.types[i].name != s.types[j].name)
    && (forall id :: id in s.nameById ==> s.nameById[id] in EnumTypeNames(s.types))
  }

  lemma {:induction false} EnumsAreSound(snake: SnakeCase, enumerations: seq<Enumeration>)
    requires EnumStageOf(snake, enumerations).Ok?
    ensures SoundEnums(EnumStageOf(snake, enumerations).value)
    ensures forall id :: id in EnumStageOf(snake, enumerations).value.nameById <==> EnumerationById(enumerations, id).Some?
  {
    if enumerations != [] {
      var n := |enumerations| - 1;
      EnumsAreSound(snake, enumerations[..n]);
      var before, after := EnumStageOf(snake, enumerations[..n]).value, EnumStageOf(snake, enumerations).value;
      assert after.types[|before.types|] in after.types;
      assert forall e :: e in before.types ==> e in after.types;
      forall id ensures id in after.nameById <==> EnumerationById(enumerations, id).Some? {
        assert enumerations == enumerations[..n] + [enumerations[n]];
      }
    }
  }

  // ---- the schema is well formed ---------------------------------------

  lemma PipelineIsSound(snake: SnakeCase, model: Model)
    requires DistinctClassIds(model) && RunPipeline(snake, model).Ok?
    ensures var m := RunPipeline(snake, model).value;
      SoundEnums(m.enums) && SoundDrafts(EnumTypeNames(m.enums.types), m.drafts)
  {
    var m := RunPipeline(snake, model).value;
    var names := EnumTypeNames(m.enums.types);
    hide RunPipeline, SoundDrafts;
    EnumsAreSound(snake, model.enumerations);
    RootTablesAreSound(names, m.ctx, model, m.parentOf, m.roots);
    RelationshipsKeepSound(names, snake, m.parentOf, m.bare, model.relationships);
  }

  /** A successful mapping has distinct table, enum and column names, an `id` key in
      every table, and only single-column foreign keys to the key of an existing table. */
  lemma MappingIsWellFormed(snake: SnakeCase, model: Model)
    requires DistinctClassIds(model) && MapToRelational(snake, model).Ok?
    ensures WellFormedSchema(MapToRelational(snake, model).value)
    ensures forall t :: t in MapToRelational(snake, model).value.tables ==>
      SoundTable(EnumTypeNames(MapToRelational(snake, model).value.enumTypes), t)
  {
    PipelineIsSound(snake, model);
    var m := RunPipeline(snake, model).value;
    FreezeIsWellFormed(m.roots, m.drafts, m.enums);
  }

  /** The tables of the schema: the drafts in root order, then the join tables. */
  function Frozen(roots: seq<ElementId>, d: Drafts): seq<Table>
    requires forall id :: id in roots ==> id in d.tables
  {
    TablesInOrder(roots, d.tables) + d.joins
  }

  ghost predicate IsDraft(d: Drafts, t: Table) {
    (exists a :: a in d.tables && d.tables[a] == t) || t in d.joins
  }

  lemma FrozenTables(roots: seq<ElementId>, d: Drafts, t: Table)
    requires forall id :: id in roots <==> id in d.tables
    ensures t in Frozen(roots, d) <==> IsDraft(d, t)
  {
    var tables, k := Frozen(roots, d), |roots|;
    if t in tables {
      var i :| 0 <= i < |tables| && tables[i] == t;
      assert i < k ==> t == d.tables[roots[i]];
      assert i >= k ==> t == d.joins[i - k];
    }
    if a :| a in d.tables && d.tables[a] == t {
      var i :| 0 <= i < k && roots[i] == a;
      assert tables[i] == t;
    }
    if t in d.joins {
      var j :| 0 <= j < |d.joins| && d.joins[j] == t;
      assert tables[k + j] == t;
    }
  }

  lemma FrozenNamesDistinct(roots: seq<ElementId>, d: Drafts)
    requires Distinct(roots) && forall id :: id in roots <==> id in d.tables
    requires DistinctTableNames(d)
    ensures forall i, j :: 0 <= i < j < |Frozen(roots, d)| ==> Frozen(roots, d)[i].name != Frozen(roots, d)[j].name
  {
    var tables, k := Frozen(roots, d), |roots|;
    forall i, j | 0 <= i < j < |tables|
      ensures tables[i].name != tables[j].name
    {
      if j < k {
        assert roots[i] != roots[j];
      } else if i < k {
        assert tables[j] == d.joins[j - k];
      } else {
        assert tables[i] == d.joins[i - k] && tables[j] == d.joins[j - k];
      }
    }
  }

  lemma FrozenTableIsSound(roots: seq<ElementId>, d: Drafts, names: set<string>, t: Table)
    requires forall id :: id in roots <==> id in d.tables
    requires SoundDrafts(names, d) && t in Frozen(roots, d)
    ensures SoundTable(names, t) && KnownReferences(d, t)
  {
    hide SoundTable, KnownReferences;
    FrozenTables(roots, d, t);
  }

  lemma FreezeIsWellFormed(roots: seq<ElementId>, d: Drafts, enums: EnumStage)
    requires Distinct(roots) && forall id :: id in roots <==> id in d.tables
    requires SoundEnums(enums) && SoundDrafts(EnumTypeNames(enums.types), d)
    ensures WellFormedSchema(RelationalModel(Frozen(roots, d), enums.types))
    ensures forall t :: t in Frozen(roots, d) ==> SoundTable(EnumTypeNames(enums.types), t)
  {
    var names, tables := EnumTypeNames(enums.types), Frozen(roots, d);
    FrozenNamesDistinct(roots, d);
    forall t | t in tables ensures SoundTable(names, t) && KnownReferences(d, t) {
      FrozenTableIsSound(roots, d, names, t);
    }
    hide Frozen, SoundDrafts, DistinctTableNames, WellFormedTable;
    forall t, fk | t in tables && fk in t.foreignKeys
      ensures exists u :: u in tables && u.name == fk.referencedTable
    {
      assert KnownReferences(d, t);
      var a :| a in d.tables && d.tables[a].name == fk.referencedTable;
      FrozenTables(roots, d, d.tables[a]);
    }
    forall t, c | t in tables && c in t.columns && c.typ == ENUM
      ensures c.enumTypeName.Some? && exists e :: e in enums.types && e.name == c.enumTypeName.value
    {
      assert SoundColumn(names, t, c);
    }
  }

  // ---- every attribute has its column ----------------------------------

  /** The table of a root holds exactly the attributes of the root's tree. */
  ghost predicate IsTreeTable(model: Model, ctx: Context, tree: seq<ElementId>, t: Table)
    requires tree != [] && AreClasses(model.classes, tree)
  {
    && t.sourceClassIds == tree
    && HoldsOwned(t.columns, OwnedInTree(model.classes, tree))
    && t.profile == Lookup(ctx.profiles.tables, tree[0])
  }

  ghost predicate RootHolds(model: Model, ctx: Context, parentOf: Parents, root: ElementId, t: Table)
    requires IsForest(ClassIds(model.classes), parentOf)
  {
    && root in ClassIds(model.classes) && root !in parentOf
    && AreClasses(model.classes, TreeOf(ClassIds(model.classes), parentOf, root))
    && IsTreeTable(model, ctx, TreeOf(ClassIds(model.classes), parentOf, root), t)
  }

  /** A join table stands for no class and holds no attribute. */
  ghost predicate IsSynthetic(t: Table) {
    t.sourceClassIds == [] && forall c :: c in t.columns ==> c.sourceElementId.None?
  }

  ghost predicate TablesHoldTrees(model: Model, ctx: Context, parentOf: Parents, d: Drafts) {
    && IsForest(ClassIds(model.classes), parentOf)
    && (forall root :: root in d.tables ==> RootHolds(model, ctx, parentOf, root, d.tables[root]))
    && (forall t :: t in d.joins ==> IsSynthetic(t))
  }

  lemma TreeTableHolds(ctx: Context, taken: set<string>, model: Model, tree: seq<ElementId>)
    requires tree != [] && AreClasses(model.classes, tree) && Distinct(tree)
    requires DistinctClassIds(model) && DistinctAttributeIds(model)
    requires TableForTree(ctx, taken, model.classes, tree).Ok?
    ensures IsTreeTable(model, ctx, tree, TableForTree(ctx, taken, model.classes, tree).value)
  {
    OwnedIsDistinct(model, tree);
    var preferred := ctx.snake(ClassById(model.classes, tree[0]).value.name).value;
    var name := FreeName(ctx.snake, taken, preferred, None).value;
    var bare := BareTable(ctx, name, model.classes, tree);
    AttributesAreHeld(ctx, bare, OwnedInTree(model.classes, tree));
    AttributesGrow(ctx, bare, OwnedInTree(model.classes, tree));
  }

  lemma {:induction false} AttributesGrow(ctx: Context, t: Table, owned: seq<Owned>)
    requires AddAttributes(ctx, t, owned).Ok?
    ensures Grows(t, AddAttributes(ctx, t, owned).value)
  {
    if owned != [] {
      AttributesGrow(ctx, t, owned[..|owned| - 1]);
    }
  }

  lemma AddedTableHolds(model: Model, ctx: Context, parentOf: Parents, d: Drafts, id: ElementId, t: Table)
    requires TablesHoldTrees(model, ctx, parentOf, d) && RootHolds(model, ctx, parentOf, id, t)
    ensures TablesHoldTrees(model, ctx, parentOf, Drafts(d.tables[id := t], [], d.taken + {t.name}))
  {
    hide RootHolds, IsForest;
  }

  lemma {:induction false} RootTablesHoldTrees(ctx: Context, model: Model, parentOf: Parents, roots: seq<ElementId>)
    requires RootsInForest(ClassIds(model.classes), parentOf, roots)
    requires DistinctClassIds(model) && DistinctAttributeIds(model)
    requires RootTables(ctx, model, parentOf, roots).Ok?
    ensures TablesHoldTrees(model, ctx, parentOf, RootTables(ctx, model, parentOf, roots).value)
  {
    if roots != [] {
      var front, last := roots[..|roots| - 1], roots[|roots| - 1];
      RootTablesHoldTrees(ctx, model, parentOf, front);
      var d := RootTables(ctx, model, parentOf, front).value;
      TreeIsClasses(model, parentOf, last);
      TreeDistinct(ClassIds(model.classes), parentOf, last);
      TreeTableHolds(ctx, d.taken, model, TreeOf(ClassIds(model.classes), parentOf, last));
      var t := TableForTree(ctx, d.taken, model.classes, TreeOf(ClassIds(model.classes), parentOf, last)).value;
      assert RootHolds(model, ctx, parentOf, last, t);
      hide TablesHoldTrees, RootHolds, IsForest, TableForTree;
      assert RootTables(ctx, model, parentOf, roots).value == Drafts(d.tables[last := t], [], d.taken + {t.name});
      AddedTableHolds(model, ctx, parentOf, d, last, t);
    }
  }

  lemma KeyKeepsTree(snake: SnakeCase, model: Model, ctx: Context, tree: seq<ElementId>, t: Table, r: Relationship, referenced: string)
    requires tree != [] && AreClasses(model.classes, tree) && IsTreeTable(model, ctx, tree, t)
    requires AddForeignKey(snake, t, r, referenced).Ok?
    ensures IsTreeTable(model, ctx, tree, AddForeignKey(snake, t, r, referenced).value)
  {
    var u := AddForeignKey(snake, t, r, referenced).value;
    PlainColumnKeepsHeld(t.columns, OwnedInTree(model.classes, tree), u.columns[|t.columns|]);
    assert u.columns == t.columns + [u.columns[|t.columns|]];
  }

  lemma ReplacedTableHolds(model: Model, ctx: Context, parentOf: Parents, d: Drafts, id: ElementId, u: Table)
    requires TablesHoldTrees(model, ctx, parentOf, d) && RootHolds(model, ctx, parentOf, id, u)
    ensures TablesHoldTrees(model, ctx, parentOf, d.(tables := d.tables[id := u]))
  {
    hide RootHolds, IsForest;
  }

  lemma KeyRelationshipKeepsTrees(
      snake: SnakeCase, model: Model, ctx: Context, parentOf: Parents, d: Drafts, r: Relationship, holder: ElementId, referenced: string)
    requires TablesHoldTrees(model, ctx, parentOf, d) && holder in d.tables
    requires AddForeignKey(snake, d.tables[holder], r, referenced).Ok?
    ensures var u := AddForeignKey(snake, d.tables[holder], r, referenced).value;
      TablesHoldTrees(model, ctx, parentOf, d.(tables := d.tables[holder := u]))
  {
    hide HoldsOwned, AddForeignKey;
    assert RootHolds(model, ctx, parentOf, holder, d.tables[holder]);
    KeyKeepsTree(snake, model, ctx, TreeOf(ClassIds(model.classes), parentOf, holder), d.tables[holder], r, referenced);
    ReplacedTableHolds(model, ctx, parentOf, d, holder, AddForeignKey(snake, d.tables[holder], r, referenced).value);
  }

  lemma JoinRelationshipKeepsTrees(
      snake: SnakeCase, model: Model, ctx: Context, parentOf: Parents, d: Drafts, r: Relationship, source: string, target: string)
    requires TablesHoldTrees(model, ctx, parentOf, d)
    requires BuildJoinTable(snake, d.taken, r, source, target).Ok?
    ensures var t := BuildJoinTable(snake, d.taken, r, source, target).value;
      TablesHoldTrees(model, ctx, parentOf, d.(joins := d.joins + [t], taken := d.taken + {t.name}))
  {
    JoinHasNoSources(snake, d.taken, r, source, target);
    hide RootHolds, IsForest, BuildJoinTable;
  }

  lemma RelationshipKeepsTrees(snake: SnakeCase, model: Model, ctx: Context, parentOf: Parents, d: Drafts, r: Relationship)
    requires TablesHoldTrees(model, ctx, parentOf, d) && HasEndTables(parentOf, d, r)
    requires MapRelationship(snake, parentOf, d, r).Ok?
    ensures TablesHoldTrees(model, ctx, parentOf, MapRelationship(snake, parentOf, d, r).value)
  {
    hide TablesHoldTrees, AddForeignKey, BuildJoinTable;
    if r.kind != Generalization {
      var source, target := RootOf(parentOf, r.source.classId), RootOf(parentOf, r.target.classId);
      if PlacementOf(r).JoinTable? {
        JoinRelationshipKeepsTrees(snake, model, ctx, parentOf, d, r, d.tables[source].name, d.tables[target].name);
      } else if PlacementOf(r).OnSource? {
        KeyRelationshipKeepsTrees(snake, model, ctx, parentOf, d, r, source, d.tables[target].name);
      } else {
        KeyRelationshipKeepsTrees(snake, model, ctx, parentOf, d, r, target, d.tables[source].name);
      }
    }
  }

  lemma JoinHasNoSources(snake: SnakeCase, taken: set<string>, r: Relationship, source: string, target: string)
    requires BuildJoinTable(snake, taken, r, source, target).Ok?
    ensures IsSynthetic(BuildJoinTable(snake, taken, r, source, target).value)
  {
  }

  lemma {:induction false} RelationshipsKeepTrees(
      snake: SnakeCase, model: Model, ctx: Context, parentOf: Parents, d: Drafts, relationships: seq<Relationship>)
    requires TablesHoldTrees(model, ctx, parentOf, d)
    requires forall r :: r in relationships ==> HasEndTables(parentOf, d, r)
    requires MapRelationships(snake, parentOf, d, relationships).Ok?
    ensures TablesHoldTrees(model, ctx, parentOf, MapRelationships(snake, parentOf, d, relationships).value)
  {
    hide TablesHoldTrees;
    if relationships != [] {
      var n := |relationships| - 1;
      RelationshipsKeepTrees(snake, model, ctx, parentOf, d, relationships[..n]);
      var before := MapRelationships(snake, parentOf, d, relationships[..n]).value;
      assert HasEndTables(parentOf, d, relationships[n]);
      RelationshipKeepsTrees(snake, model, ctx, parentOf, before, relationships[n]);
    }
  }

  lemma PipelineHoldsTrees(snake: SnakeCase, model: Model)
    requires DistinctClassIds(model) && DistinctAttributeIds(model) && RunPipeline(snake, model).Ok?
    ensures var m := RunPipeline(snake, model).value;
      TablesHoldTrees(model, m.ctx, m.parentOf, m.drafts)
  {
    var m := RunPipeline(snake, model).value;
    hide RunPipeline, TablesHoldTrees;
    RootTablesHoldTrees(m.ctx, model, m.parentOf, m.roots);
    RelationshipsKeepTrees(snake, model, m.ctx, m.parentOf, m.bare, model.relationships);
  }

  ghost predicate IsColumnOf(tables: seq<Table>, i: nat, k: nat, id: ElementId) {
    i < |tables| && k < |tables[i].columns| && tables[i].columns[k].sourceElementId == Some(id)
  }

  /** The owner of a sourced column is the one class with that attribute. */
  lemma ColumnNamesItsClass(model: Model, ctx: Context, parentOf: Parents, root: ElementId, t: Table, column: Column, c: UmlClass)
    requires IsForest(ClassIds(model.classes), parentOf) && RootHolds(model, ctx, parentOf, root, t)
    requires DistinctClassIds(model) && DistinctAttributeIds(model)
    requires column in t.columns && c in model.classes
    requires column.sourceElementId.Some? && IsAttributeOf(c, column.sourceElementId.value)
    ensures Ends(parentOf, c.id) && RootOf(parentOf, c.id) == root
  {
    var ids := ClassIds(model.classes);
    var tree := TreeOf(ids, parentOf, root);
    assert HasOwner(OwnedInTree(model.classes, tree), column);
    var o :| o in OwnedInTree(model.classes, tree) && Represents(column, o);
    OwnedMembers(model.classes, tree, o);
    var k :| 0 <= k < |tree| && IsOwnedAt(model.classes, tree, o, k);
    ClassByIdUnique(model.classes, c);
    SameAttributeSameClass(model, o.ownerId, c.id, o.attribute.id);
    TreeMembers(ids, parentOf, root, c.id);
  }

  /** The attribute has one column in all tables: in the table of `root`, nullable iff its class is not the root. */
  ghost predicate StoredOnce(tables: seq<Table>, root: ElementId, c: UmlClass, a: UmlAttribute) {
    exists i: nat, k: nat :: IsColumnOf(tables, i, k, a.id)
      && tables[i].sourceClassIds != [] && tables[i].sourceClassIds[0] == root
      && Represents(tables[i].columns[k], Owned(a, c.id, c.name, c.id != root))
      && forall j: nat, l: nat :: IsColumnOf(tables, j, l, a.id) ==> j == i && l == k
  }

  /** Each attribute of an accepted model is stored in exactly one column of exactly one
      table, that of its hierarchy root; the column is nullable iff its class is not the root. */
  lemma AttributeHasOneColumn(snake: SnakeCase, model: Model, c: UmlClass, a: UmlAttribute)
    requires DistinctClassIds(model) && DistinctAttributeIds(model)
    requires MapToRelational(snake, model).Ok? && c in model.classes && a in c.attributes
    ensures HierarchyOf(model).Ok? && Ends(HierarchyOf(model).value, c.id)
    ensures StoredOnce(MapToRelational(snake, model).value.tables, RootOf(HierarchyOf(model).value, c.id), c, a)
  {
    PipelineHoldsTrees(snake, model);
    var m := RunPipeline(snake, model).value;
    assert MapToRelational(snake, model).value.tables == Frozen(m.roots, m.drafts);
    hide RunPipeline, MapToRelational, Frozen, TablesHoldTrees, StoredOnce;
    AttributeIsStoredOnce(model, m.ctx, m.parentOf, m.roots, m.drafts, c, a);
  }

  /** The table of a root stands in the schema at the position of the root. */
  lemma RootTableAt(
      model: Model, ctx: Context, parentOf: Parents, roots: seq<ElementId>, d: Drafts, root: ElementId) returns (i: nat)
    requires TablesHoldTrees(model, ctx, parentOf, d) && root in roots
    requires forall id :: id in roots <==> id in d.tables
    ensures i < |roots| && roots[i] == root && i < |Frozen(roots, d)| && Frozen(roots, d)[i] == d.tables[root]
    ensures IsForest(ClassIds(model.classes), parentOf) && RootHolds(model, ctx, parentOf, root, d.tables[root])
  {
    hide IsForest, RootHolds;
    i :| 0 <= i < |roots| && roots[i] == root;
  }

  lemma AttributeIsStoredOnce(
      model: Model, ctx: Context, parentOf: Parents, roots: seq<ElementId>, d: Drafts, c: UmlClass, a: UmlAttribute)
    requires TablesHoldTrees(model, ctx, parentOf, d) && roots == RootsOf(ClassIds(model.classes), parentOf)
    requires forall id :: id in roots <==> id in d.tables
    requires DistinctClassIds(model) && DistinctAttributeIds(model) && c in model.classes && a in c.attributes
    ensures Ends(parentOf, c.id) && StoredOnce(Frozen(roots, d), RootOf(parentOf, c.id), c, a)
  {
    RootOfClass(model, parentOf, c);
    hide *;
    var root := RootOf(parentOf, c.id);
    var i := RootTableAt(model, ctx, parentOf, roots, d, root);
    var k := FindTreeColumn(model, ctx, parentOf, root, d.tables[root], c, a);
    IsColumnAt(Frozen(roots, d), i, k, Owned(a, c.id, c.name, c.id != root));
    forall j: nat, l: nat | IsColumnOf(Frozen(roots, d), j, l, a.id)
      ensures j == i && l == k
    {
      ColumnIsUnique(model, ctx, parentOf, roots, d, c, a, i, k, j, l);
    }
    IsTheOnlyColumn(Frozen(roots, d), root, c, a, i, k);
  }

  lemma IsColumnAt(tables: seq<Table>, i: nat, k: nat, o: Owned)
    requires i < |tables| && k < |tables[i].columns| && Represents(tables[i].columns[k], o)
    ensures IsColumnOf(tables, i, k, o.attribute.id)
  {
  }

  lemma IsTheOnlyColumn(tables: seq<Table>, root: ElementId, c: UmlClass, a: UmlAttribute, i: nat, k: nat)
    requires i < |tables| && k < |tables[i].columns|
    requires tables[i].sourceClassIds != [] && tables[i].sourceClassIds[0] == root
    requires Represents(tables[i].columns[k], Owned(a, c.id, c.name, c.id != root))
    requires forall j: nat, l: nat :: IsColumnOf(tables, j, l, a.id) ==> j == i && l == k
    ensures StoredOnce(tables, root, c, a)
  {
    assert IsColumnOf(tables, i, k, a.id);
  }

  lemma RootOfClass(model: Model, parentOf: Parents, c: UmlClass)
    requires IsForest(ClassIds(model.classes), parentOf) && c in model.classes
    ensures c.id in ClassIds(model.classes) && Ends(parentOf, c.id)
    ensures RootOf(parentOf, c.id) in ClassIds(model.classes)
    ensures RootOf(parentOf, c.id) in RootsOf(ClassIds(model.classes), parentOf)
  {
    IdOfClass(model, c.id);
    RootInIds(ClassIds(model.classes), parentOf, c.id);
  }

  lemma TreeOwns(model: Model, parentOf: Parents, root: ElementId, c: UmlClass, a: UmlAttribute)
    requires IsForest(ClassIds(model.classes), parentOf) && root in ClassIds(model.classes) && root !in parentOf
    requires AreClasses(model.classes, TreeOf(ClassIds(model.classes), parentOf, root))
    requires DistinctClassIds(model) && c in model.classes && a in c.attributes
    requires Ends(parentOf, c.id) && RootOf(parentOf, c.id) == root
    ensures Owned(a, c.id, c.name, c.id != root)
      in OwnedInTree(model.classes, TreeOf(ClassIds(model.classes), parentOf, root))
  {
    var ids := ClassIds(model.classes);
    var tree := TreeOf(ids, parentOf, root);
    IdOfClass(model, c.id);
    TreeMembers(ids, parentOf, root, c.id);
    TreeDistinct(ids, parentOf, root);
    ClassByIdUnique(model.classes, c);
    hide IsForest, TreeOf;
    var n :| 0 <= n < |tree| && tree[n] == c.id;
    assert n != 0 ==> tree[0] != tree[n];
    var o := Owned(a, c.id, c.name, c.id != root);
    assert IsOwnedAt(model.classes, tree, o, n);
    OwnedMembers(model.classes, tree, o);
  }

  lemma FindTreeColumn(
      model: Model, ctx: Context, parentOf: Parents, root: ElementId, t: Table, c: UmlClass, a: UmlAttribute) returns (k: nat)
    requires IsForest(ClassIds(model.classes), parentOf) && RootHolds(model, ctx, parentOf, root, t)
    requires DistinctClassIds(model) && c in model.classes && a in c.attributes
    requires Ends(parentOf, c.id) && RootOf(parentOf, c.id) == root
    ensures k < |t.columns| && Represents(t.columns[k], Owned(a, c.id, c.name, c.id != root))
    ensures t.sourceClassIds != [] && t.sourceClassIds[0] == root
  {
    hide IsForest, Ends;
    TreeOwns(model, parentOf, root, c, a);
    var o := Owned(a, c.id, c.name, c.id != root);
    assert HasColumn(t.columns, o);
    var column :| column in t.columns && Represents(column, o);
    k :| 0 <= k < |t.columns| && t.columns[k] == column;
  }

  lemma LateIsJoin(roots: seq<ElementId>, d: Drafts, j: nat)
    requires forall id :: id in roots ==> id in d.tables
    requires |roots| <= j < |Frozen(roots, d)|
    ensures Frozen(roots, d)[j] in d.joins
  {
    assert Frozen(roots, d)[j] == d.joins[j - |roots|];
  }

  lemma ColumnIsUnique(
      model: Model, ctx: Context, parentOf: Parents, roots: seq<ElementId>, d: Drafts, c: UmlClass, a: UmlAttribute,
      i: nat, k: nat, j: nat, l: nat)
    requires TablesHoldTrees(model, ctx, parentOf, d) && roots == RootsOf(ClassIds(model.classes), parentOf)
    requires forall id :: id in roots <==> id in d.tables
    requires DistinctClassIds(model) && DistinctAttributeIds(model) && c in model.classes && a in c.attributes
    requires i < |roots| && Ends(parentOf, c.id) && roots[i] == RootOf(parentOf, c.id)
    requires IsColumnOf(Frozen(roots, d), i, k, a.id) && IsColumnOf(Frozen(roots, d), j, l, a.id)
    ensures j == i && l == k
  {
    var t := Frozen(roots, d)[j];
    assert t.columns[l] in t.columns;
    hide IsForest, RootHolds, RootsOf;
    if |roots| <= j {
      LateIsJoin(roots, d, j);
    }
    assert t == d.tables[roots[j]];
    assert Distinct(roots);
    assert RootHolds(model, ctx, parentOf, roots[j], t);
    ColumnNamesItsClass(model, ctx, parentOf, roots[j], t, t.columns[l], c);
    assert DistinctSources(t.columns);
  }
}
