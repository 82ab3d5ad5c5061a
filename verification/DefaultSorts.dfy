/** From the write gate to the manifest: a `defaultSort` accepted on an inheritance root can be resolved. */
module DefaultSorts {
  import opened Text
  import opened Uml
  import opened Naming
  import opened Schema
  import opened MapErrors
  import opened Hierarchy
  import opened Trees
  import opened ParentMaps
  import opened Mapper
  import opened Commands
  import opened Documents

  // ---- mapping does not depend on profiles, except for the profiles ----

  /** Tables that agree in everything naming depends on. */
  ghost predicate SameNames(t: Table, u: Table) {
    t.name == u.name && ColumnNames(t.columns) == ColumnNames(u.columns)
  }

  ghost predicate SameContext(a: Context, b: Context) {
    a.snake == b.snake && a.enumNameById == b.enumNameById
  }

  ghost predicate SameNamesAll(d: Drafts, e: Drafts) {
    && d.tables.Keys == e.tables.Keys && d.joins == e.joins && d.taken == e.taken
    && forall id :: id in d.tables ==> SameNames(d.tables[id], e.tables[id])
  }

  ghost predicate TablesAgree(x: Result<Table, MapError>, y: Result<Table, MapError>) {
    match (x, y)
    case (Ok(t), Ok(u)) => SameNames(t, u)
    case (Err(e), Err(f)) => e == f
    case _ => false
  }

  ghost predicate DraftsAgree(x: Result<Drafts, MapError>, y: Result<Drafts, MapError>) {
    match (x, y)
    case (Ok(d), Ok(e)) => SameNamesAll(d, e)
    case (Err(e), Err(f)) => e == f
    case _ => false
  }

  lemma AttributeAgrees(a: Context, b: Context, t: Table, u: Table, o: Owned)
    requires SameContext(a, b) && SameNames(t, u)
    ensures TablesAgree(Mapper.AddAttribute(a, t, o), Mapper.AddAttribute(b, u, o))
  {
  }

  lemma {:induction false} AttributesAgree(a: Context, b: Context, t: Table, u: Table, owned: seq<Owned>)
    requires SameContext(a, b) && SameNames(t, u)
    ensures TablesAgree(AddAttributes(a, t, owned), AddAttributes(b, u, owned))
  {
    if owned != [] {
      var n := |owned| - 1;
      AttributesAgree(a, b, t, u, owned[..n]);
      var x, y := AddAttributes(a, t, owned[..n]), AddAttributes(b, u, owned[..n]);
      if x.Ok? {
        AttributeAgrees(a, b, x.value, y.value, owned[n]);
      }
      hide Mapper.AddAttribute, SameNames;
    }
  }

  lemma TreeTablesAgree(a: Context, b: Context, taken: set<string>, classes: seq<UmlClass>, tree: seq<ElementId>)
    requires SameContext(a, b) && tree != [] && AreClasses(classes, tree)
    ensures TablesAgree(TableForTree(a, taken, classes, tree), TableForTree(b, taken, classes, tree))
  {
    var preferred := a.snake(ClassById(classes, tree[0]).value.name);
    if preferred.Some? {
      var name := FreeName(a.snake, taken, preferred.value, None).value;
      AttributesAgree(a, b, BareTable(a, name, classes, tree), BareTable(b, name, classes, tree), OwnedInTree(classes, tree));
    }
  }

  lemma AddedTablesAgree(d: Drafts, e: Drafts, id: ElementId, t: Table, u: Table)
    requires SameNamesAll(d, e) && SameNames(t, u)
    ensures SameNamesAll(Drafts(d.tables[id := t], [], d.taken + {t.name}), Drafts(e.tables[id := u], [], e.taken + {u.name}))
  {
  }

  lemma {:induction false} RootTablesAgree(a: Context, b: Context, model: Model, after: Model, parentOf: Parents, roots: seq<ElementId>)
    requires SameContext(a, b) && after.classes == model.classes
    requires RootsInForest(ClassIds(model.classes), parentOf, roots)
    ensures DraftsAgree(RootTables(a, model, parentOf, roots), RootTables(b, after, parentOf, roots))
  {
    if roots != [] {
      var n := |roots| - 1;
      RootTablesAgree(a, b, model, after, parentOf, roots[..n]);
      var x, y := RootTables(a, model, parentOf, roots[..n]), RootTables(b, after, parentOf, roots[..n]);
      if x.Ok? {
        TreeIsClasses(model, parentOf, roots[n]);
        var tree := TreeOf(ClassIds(model.classes), parentOf, roots[n]);
        TreeTablesAgree(a, b, x.value.taken, model.classes, tree);
        var t, u := TableForTree(a, x.value.taken, model.classes, tree), TableForTree(b, x.value.taken, model.classes, tree);
        hide TableForTree, IsForest, SameNames;
        if t.Ok? {
          AddedTablesAgree(x.value, y.value, roots[n], t.value, u.value);
        }
      }
    }
  }

  lemma KeysAgree(snake: SnakeCase, t: Table, u: Table, r: Relationship, referenced: string)
    requires SameNames(t, u)
    ensures TablesAgree(AddForeignKey(snake, t, r, referenced), AddForeignKey(snake, u, r, referenced))
  {
  }

  lemma ReplacedTablesAgree(d: Drafts, e: Drafts, id: ElementId, t: Table, u: Table)
    requires SameNamesAll(d, e) && SameNames(t, u) && id in d.tables
    ensures SameNamesAll(d.(tables := d.tables[id := t]), e.(tables := e.tables[id := u]))
  {
  }

  lemma RelationshipAgrees(snake: SnakeCase, parentOf: Parents, d: Drafts, e: Drafts, r: Relationship)
    requires SameNamesAll(d, e) && HasEndTables(parentOf, d, r) && HasEndTables(parentOf, e, r)
    ensures DraftsAgree(MapRelationship(snake, parentOf, d, r), MapRelationship(snake, parentOf, e, r))
  {
    if r.kind != Generalization {
      var source, target := RootOf(parentOf, r.source.classId), RootOf(parentOf, r.target.classId);
      assert SameNames(d.tables[source], e.tables[source]) && SameNames(d.tables[target], e.tables[target]);
      var holder := if PlacementOf(r).OnSource? then source else target;
      var referenced := d.tables[if PlacementOf(r).OnSource? then target else source].name;
      KeysAgree(snake, d.tables[holder], e.tables[holder], r, referenced);
      var t, u := AddForeignKey(snake, d.tables[holder], r, referenced), AddForeignKey(snake, e.tables[holder], r, referenced);
      if !PlacementOf(r).JoinTable? && t.Ok? {
        ReplacedTablesAgree(d, e, holder, t.value, u.value);
      }
      hide BuildJoinTable, AddForeignKey;
    }
  }

  lemma {:induction false} RelationshipsAgree(
      snake: SnakeCase, parentOf: Parents, d: Drafts, e: Drafts, relationships: seq<Relationship>)
    requires SameNamesAll(d, e)
    requires forall r :: r in relationships ==> HasEndTables(parentOf, d, r) && HasEndTables(parentOf, e, r)
    ensures DraftsAgree(MapRelationships(snake, parentOf, d, relationships), MapRelationships(snake, parentOf, e, relationships))
  {
    hide SameNamesAll, MapRelationship;
    if relationships != [] {
      var n := |relationships| - 1;
      RelationshipsAgree(snake, parentOf, d, e, relationships[..n]);
      if MapRelationships(snake, parentOf, d, relationships[..n]).Ok? {
        assert HasEndTables(parentOf, d, relationships[n]) && HasEndTables(parentOf, e, relationships[n]);
        RelationshipAgrees(snake, parentOf, MapRelationships(snake, parentOf, d, relationships[..n]).value,
                           MapRelationships(snake, parentOf, e, relationships[..n]).value, relationships[n]);
      }
    }
  }

  lemma EndsDoNotDepend(model: Model, metadata: Metadata)
    requires NoDanglingEnds(model)
    ensures NoDanglingEnds(model.(metadata := metadata))
  {
    assert forall id :: IsClassId(model, id) <==> IsClassId(model.(metadata := metadata), id);
  }

  lemma BareTablesAgree(a: Context, b: Context, model: Model, after: Model, parentOf: Parents, roots: seq<ElementId>)
    requires SameContext(a, b) && after.classes == model.classes
    requires RootsInForest(ClassIds(model.classes), parentOf, roots) && RootTables(a, model, parentOf, roots).Ok?
    ensures RootTables(b, after, parentOf, roots).Ok?
    ensures SameNamesAll(RootTables(a, model, parentOf, roots).value, RootTables(b, after, parentOf, roots).value)
  {
    hide RootTables, SameNamesAll, IsForest, ClassIds;
    RootTablesAgree(a, b, model, after, parentOf, roots);
  }

  lemma DraftsMapAlike(snake: SnakeCase, parentOf: Parents, d: Drafts, e: Drafts, relationships: seq<Relationship>)
    requires SameNamesAll(d, e)
    requires forall r :: r in relationships ==> HasEndTables(parentOf, d, r) && HasEndTables(parentOf, e, r)
    requires MapRelationships(snake, parentOf, d, relationships).Ok?
    ensures MapRelationships(snake, parentOf, e, relationships).Ok?
  {
    hide MapRelationships, SameNamesAll, HasEndTables;
    RelationshipsAgree(snake, parentOf, d, e, relationships);
  }

  lemma ParsingSucceeds(model: Model)
    requires ProfilesParse(model)
    ensures ProfilesOf(model).Ok?
  {
    hide EntryParses;
  }

  /** The stages of a run, repeated on the same model with other metadata. */
  lemma StagesAgree(snake: SnakeCase, model: Model, m: Mapped, after: Model, profiles: ProfileIndex)
    requires IsRun(snake, model, m) && after == model.(metadata := after.metadata)
    ensures var ctx := Context(snake, m.enums.nameById, profiles);
      && RootTables(ctx, after, m.parentOf, m.roots).Ok?
      && var bare := RootTables(ctx, after, m.parentOf, m.roots).value;
         && (forall r :: r in after.relationships ==> HasEndTables(m.parentOf, bare, r))
         && MapRelationships(snake, m.parentOf, bare, after.relationships).Ok?
  {
    hide ProfilesOf, HierarchyOf, EnumStageOf, ClassIds, IsForest, RootsOf, RootTables, MapRelationships, HasEndTables, SameNamesAll;
    EndsDoNotDepend(model, after.metadata);
    var ctx := Context(snake, m.enums.nameById, profiles);
    BareTablesAgree(m.ctx, ctx, model, after, m.parentOf, m.roots);
    var bare := RootTables(ctx, after, m.parentOf, m.roots).value;
    EndsHaveTables(after, m.parentOf, bare);
    DraftsMapAlike(snake, m.parentOf, m.bare, bare, model.relationships);
  }

  /** Changing only metadata that still parses leaves a mappable model mappable. */
  lemma MetadataDoesNotDecide(snake: SnakeCase, model: Model, metadata: Metadata)
    requires DistinctClassIds(model) && RunPipeline(snake, model).Ok?
    requires ProfilesParse(model.(metadata := metadata))
    ensures var after := model.(metadata := metadata);
      && DistinctClassIds(after) && RunPipeline(snake, after).Ok?
      && RunPipeline(snake, after).value.parentOf == RunPipeline(snake, model).value.parentOf
  {
    var after := model.(metadata := metadata);
    EndsDoNotDepend(model, metadata);
    ParsingSucceeds(after);
    hide ProfilesParse, ProfilesOf, NoDanglingEnds, IsForest, RootsOf, RootTables, MapRelationships, HasEndTables;
    StagesAgree(snake, model, RunPipeline(snake, model).value, after, ProfilesOf(after).value);
  }
}
