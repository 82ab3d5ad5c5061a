/** Which link sets the schema of an accepted model stores. */
module LinkMeaning {
  import opened Text
  import opened Seqs
  import opened Uml
  import opened Naming
  import opened Schema
  import opened Hierarchy
  import opened Trees
  import opened ParentMaps
  import opened Mapper
  import opened MapperSound
  import opened MapperTheorems
  import opened LinkStorage
  import opened Links

  /** Ids are random: no two elements of a model share one. */
  ghost predicate DistinctIds(model: Model) {
    DistinctClassIds(model) && DistinctAttributeIds(model) && DistinctRelationshipIds(model.relationships)
  }

  lemma NamedRows(pop: Population, roots: seq<ElementId>, d: Drafts, root: ElementId)
    requires Distinct(roots) && forall id :: id in roots <==> id in d.tables
    requires DistinctTableNames(d) && root in d.tables
    ensures RowsNamed(pop, Frozen(roots, d), d.tables[root].name) == Rows(pop, d.tables[root].sourceClassIds)
  {
    var tables, t := Frozen(roots, d), d.tables[root];
    FrozenTables(roots, d, t);
    assert forall u :: u in d.joins ==> u.name != t.name;
    forall u | u in tables && u.name == t.name ensures u == t {
      FrozenTables(roots, d, u);
    }
  }

  /** The schema's only key for `r` is the one the mapper placed. */
  lemma KeyIsThePlacedOne(
      enumNames: set<string>, parentOf: Parents, roots: seq<ElementId>, d: Drafts, r: Relationship,
      t: Table, fk: ForeignKey, c: Column)
    requires forall id :: id in roots <==> id in d.tables
    requires SoundDrafts(enumNames, d) && HasEndTables(parentOf, d, r) && IsStored(parentOf, d, r)
    requires !PlacementOf(r).JoinTable? && IsKeyOf(Frozen(roots, d), r, t, fk, c)
    ensures t == d.tables[RootOf(parentOf, HoldingEnd(r).classId)]
    ensures IsKeyColumn(t, r, NameOfRoot(parentOf, d, ReferencedEnd(r).classId), fk, c)
  {
    FrozenTables(roots, d, t);
    var holder := RootOf(parentOf, HoldingEnd(r).classId);
    var referenced := NameOfRoot(parentOf, d, ReferencedEnd(r).classId);
    hide Frozen, SoundTable, KnownReferences;
    assert !Untouched(t, r.id);
    assert t == d.tables[holder];
    assert HasKey(t, r, referenced);
    SoleKey(enumNames, t, r, referenced, fk, c);
  }

  lemma SoleKey(enumNames: set<string>, t: Table, r: Relationship, referenced: string, fk: ForeignKey, c: Column)
    requires SoundTable(enumNames, t) && HasKey(t, r, referenced)
    requires fk in t.foreignKeys && fk.sourceRelationshipId == r.id && c in t.columns && fk.columnNames == [c.name]
    ensures IsKeyColumn(t, r, referenced, fk, c)
  {
    assert DistinctColumnNames(t);
    hide SoundTable;
    var k, b :| IsKeyColumn(t, r, referenced, k, b);
    var i :| 0 <= i < |t.foreignKeys| && t.foreignKeys[i] == fk;
    var j :| 0 <= j < |t.foreignKeys| && t.foreignKeys[j] == k;
    assert i == j;
    assert [c.name][0] == [b.name][0];
    var x :| 0 <= x < |t.columns| && t.columns[x] == c;
    var y :| 0 <= y < |t.columns| && t.columns[y] == b;
  }

  lemma PlacedKeyExists(parentOf: Parents, roots: seq<ElementId>, d: Drafts, r: Relationship)
    returns (t: Table, fk: ForeignKey, c: Column)
    requires forall id :: id in roots <==> id in d.tables
    requires HasEndTables(parentOf, d, r) && IsStored(parentOf, d, r) && !PlacementOf(r).JoinTable?
    ensures IsKeyOf(Frozen(roots, d), r, t, fk, c)
  {
    t := d.tables[RootOf(parentOf, HoldingEnd(r).classId)];
    FrozenTables(roots, d, t);
    fk, c :| IsKeyColumn(t, r, NameOfRoot(parentOf, d, ReferencedEnd(r).classId), fk, c);
  }

  lemma JoinIsThePlacedOne(parentOf: Parents, roots: seq<ElementId>, d: Drafts, r: Relationship, t: Table)
    requires forall id :: id in roots <==> id in d.tables
    requires HasEndTables(parentOf, d, r) && IsStored(parentOf, d, r)
    requires PlacementOf(r).JoinTable? && IsJoinOf(Frozen(roots, d), r, t)
    ensures IsJoin(t, r, NameOfRoot(parentOf, d, r.source.classId), NameOfRoot(parentOf, d, r.target.classId))
  {
    FrozenTables(roots, d, t);
    assert t.foreignKeys[0] in t.foreignKeys;
    assert !Untouched(t, r.id);
  }

  lemma PlacedJoinExists(parentOf: Parents, roots: seq<ElementId>, d: Drafts, r: Relationship) returns (t: Table)
    requires forall id :: id in roots <==> id in d.tables
    requires HasEndTables(parentOf, d, r) && IsStored(parentOf, d, r) && PlacementOf(r).JoinTable?
    ensures IsJoinOf(Frozen(roots, d), r, t)
  {
    hide Untouched;
    var j :| 0 <= j < |d.joins|
      && IsJoin(d.joins[j], r, NameOfRoot(parentOf, d, r.source.classId), NameOfRoot(parentOf, d, r.target.classId))
      && forall i :: 0 <= i < |d.joins| && i != j ==> Untouched(d.joins[i], r.id);
    t := d.joins[j];
    FrozenTables(roots, d, t);
  }

  function TableRows(pop: Population, parentOf: Parents, d: Drafts, id: ElementId): set<Obj>
    requires Ends(parentOf, id) && RootOf(parentOf, id) in d.tables
  {
    Rows(pop, d.tables[RootOf(parentOf, id)].sourceClassIds)
  }

  ghost predicate CellsCanHold(
      links: set<Link>, nullable: bool, unique: bool, holders: set<Obj>, referenced: set<Obj>, onSource: bool)
  {
    exists cells :: CellsObey(cells, nullable, unique, holders, referenced) && LinksOfCells(cells, onSource) == links
  }

  /** Contents of any key column for `r` obey the placed constraints. */
  lemma HeldCellsObey(
      enumNames: set<string>, parentOf: Parents, roots: seq<ElementId>, d: Drafts, r: Relationship,
      pop: Population, t: Table, fk: ForeignKey, c: Column, cells: map<Obj, Option<Obj>>)
    requires Distinct(roots) && forall id :: id in roots <==> id in d.tables
    requires SoundDrafts(enumNames, d) && HasEndTables(parentOf, d, r) && IsStored(parentOf, d, r)
    requires !PlacementOf(r).JoinTable? && IsKeyOf(Frozen(roots, d), r, t, fk, c)
    ensures KeyHolds(Frozen(roots, d), pop, t, fk, c, cells) <==>
      CellsObey(cells, IsNullable(r), PlacementOf(r) == OnTarget(true),
                TableRows(pop, parentOf, d, HoldingEnd(r).classId), TableRows(pop, parentOf, d, ReferencedEnd(r).classId))
  {
    NamedRows(pop, roots, d, RootOf(parentOf, ReferencedEnd(r).classId));
    KeyIsThePlacedOne(enumNames, parentOf, roots, d, r, t, fk, c);
    hide Frozen, SoundDrafts, IsStored, CellsObey, RowsNamed, Rows;
  }

  /** Storing `r` in the schema is storing it in one column with the placed constraints. */
  lemma StorableInKey(
      enumNames: set<string>, parentOf: Parents, roots: seq<ElementId>, d: Drafts, r: Relationship,
      pop: Population, links: set<Link>)
    requires Distinct(roots) && forall id :: id in roots <==> id in d.tables
    requires SoundDrafts(enumNames, d) && HasEndTables(parentOf, d, r) && IsStored(parentOf, d, r)
    requires !PlacementOf(r).JoinTable?
    ensures Storable(Frozen(roots, d), r, pop, links) <==>
      CellsCanHold(links, IsNullable(r), PlacementOf(r) == OnTarget(true),
                   TableRows(pop, parentOf, d, HoldingEnd(r).classId), TableRows(pop, parentOf, d, ReferencedEnd(r).classId),
                   PlacementOf(r).OnSource?)
  {
    hide Frozen, SoundDrafts, IsStored, CellsObey, LinksOfCells, TableRows, KeyHolds, IsKeyOf;
    var holders := TableRows(pop, parentOf, d, HoldingEnd(r).classId);
    var referenced := TableRows(pop, parentOf, d, ReferencedEnd(r).classId);
    hide HasEndTables;
    var t, fk, c := PlacedKeyExists(parentOf, roots, d, r);
    if Storable(Frozen(roots, d), r, pop, links) {
      var t', fk', c', cells :|
        && IsKeyOf(Frozen(roots, d), r, t', fk', c') && KeyHolds(Frozen(roots, d), pop, t', fk', c', cells)
        && LinksOfCells(cells, PlacementOf(r).OnSource?) == links;
      HeldCellsObey(enumNames, parentOf, roots, d, r, pop, t', fk', c', cells);
    }
    if cells :|
      && CellsObey(cells, IsNullable(r), PlacementOf(r) == OnTarget(true), holders, referenced)
      && LinksOfCells(cells, PlacementOf(r).OnSource?) == links
    {
      HeldCellsObey(enumNames, parentOf, roots, d, r, pop, t, fk, c, cells);
    }
  }

  lemma KeyHoldsExactly(r: Relationship, sources: set<Obj>, targets: set<Obj>, links: set<Link>)
    requires !PlacementOf(r).JoinTable?
    ensures CellsCanHold(links, IsNullable(r), PlacementOf(r) == OnTarget(true),
                         if HoldsOnSource(r) then sources else targets, if HoldsOnSource(r) then targets else sources,
                         HoldsOnSource(r))
      <==> Held(r, sources, targets, links)
  {
    CellsHoldExactly(links, IsNullable(r), PlacementOf(r) == OnTarget(true),
                     if HoldsOnSource(r) then sources else targets, if HoldsOnSource(r) then targets else sources,
                     HoldsOnSource(r));
    PlacementIsOnePerEnd(r, links);
    hide Functional, Injective, OnePerEnd, CellsObey, LinksOfCells, Covers;
  }

  lemma StorableInJoin(parentOf: Parents, roots: seq<ElementId>, d: Drafts, r: Relationship, pop: Population, links: set<Link>)
    requires Distinct(roots) && forall id :: id in roots <==> id in d.tables
    requires DistinctTableNames(d) && HasEndTables(parentOf, d, r) && IsStored(parentOf, d, r)
    requires PlacementOf(r).JoinTable?
    ensures Storable(Frozen(roots, d), r, pop, links) <==>
      var sources, targets := TableRows(pop, parentOf, d, r.source.classId), TableRows(pop, parentOf, d, r.target.classId);
      exists rows :: PairsObey(rows, true, sources, targets) && LinksOfPairs(rows) == links
  {
    NamedRows(pop, roots, d, RootOf(parentOf, r.source.classId));
    NamedRows(pop, roots, d, RootOf(parentOf, r.target.classId));
    var t := PlacedJoinExists(parentOf, roots, d, r);
    JoinIsThePlacedOne(parentOf, roots, d, r, t);
    var sources := TableRows(pop, parentOf, d, r.source.classId);
    var targets := TableRows(pop, parentOf, d, r.target.classId);
    hide Frozen, DistinctTableNames, IsStored, PairsObey, LinksOfPairs, RowsNamed, Rows;
    if Storable(Frozen(roots, d), r, pop, links) {
      var t', rows :| IsJoinOf(Frozen(roots, d), r, t') && JoinHolds(Frozen(roots, d), pop, t', rows)
        && LinksOfPairs(rows) == links;
      JoinIsThePlacedOne(parentOf, roots, d, r, t');
      assert PairsObey(rows, true, sources, targets);
    }
    if rows :| PairsObey(rows, true, sources, targets) && LinksOfPairs(rows) == links {
      assert JoinHolds(Frozen(roots, d), pop, t, rows);
    }
  }

  lemma JoinHoldsExactly(r: Relationship, sources: set<Obj>, targets: set<Obj>, links: set<Link>)
    requires PlacementOf(r).JoinTable?
    ensures (exists rows :: PairsObey(rows, true, sources, targets) && LinksOfPairs(rows) == links)
      <==> Held(r, sources, targets, links)
  {
    PairsHoldExactly(links, true, sources, targets);
    PlacementIsOnePerEnd(r, links);
    hide PairsObey, LinksOfPairs;
  }

  /** The objects that share the table of a class: those of its whole hierarchy. */
  function ObjectsOf(pop: Population, model: Model, parentOf: Parents, id: ElementId): set<Obj>
    requires IsForest(ClassIds(model.classes), parentOf) && id in ClassIds(model.classes)
  {
    RootInIds(ClassIds(model.classes), parentOf, id);
    Rows(pop, TreeOf(ClassIds(model.classes), parentOf, RootOf(parentOf, id)))
  }

  ghost predicate EndsInModel(model: Model, parentOf: Parents, r: Relationship) {
    && IsForest(ClassIds(model.classes), parentOf)
    && r.source.classId in ClassIds(model.classes) && r.target.classId in ClassIds(model.classes)
  }

  lemma EndsAreInModel(snake: SnakeCase, model: Model, m: Mapped, r: Relationship)
    requires IsRun(snake, model, m) && r in model.relationships
    ensures EndsInModel(model, m.parentOf, r)
  {
    IdOfClass(model, r.source.classId);
    IdOfClass(model, r.target.classId);
  }

  /** For every relationship of an accepted model, the link sets its storage can hold: one partner
      per object where an end is not many, every row of the holding table linked where the key is
      NOT NULL. The rows of a table are the objects of its whole hierarchy. */
  lemma StorableIsHeld(snake: SnakeCase, model: Model, r: Relationship, pop: Population, links: set<Link>)
    requires DistinctIds(model) && RunPipeline(snake, model).Ok?
    requires r in model.relationships && r.kind != Generalization
    ensures var parentOf := RunPipeline(snake, model).value.parentOf;
      && EndsInModel(model, parentOf, r)
      && (Storable(MapToRelational(snake, model).value.tables, r, pop, links) <==>
            Held(r, ObjectsOf(pop, model, parentOf, r.source.classId), ObjectsOf(pop, model, parentOf, r.target.classId), links))
  {
    var m := RunPipeline(snake, model).value;
    assert MapToRelational(snake, model).value.tables == Frozen(m.roots, m.drafts);
    EndsAreInModel(snake, model, m, r);
    RelationshipIsStored(snake, model, r);
    PipelineIsSound(snake, model);
    PipelineHoldsTrees(snake, model);
    hide RunPipeline, MapToRelational, IsStored;
    RowsAreObjects(pop, model, m, r.source.classId);
    RowsAreObjects(pop, model, m, r.target.classId);
    hide TablesHoldTrees, Storable, Held;
    DraftsStoreHeld(EnumTypeNames(m.enums.types), m.parentOf, m.roots, m.drafts, r, pop, links);
  }

  lemma DraftsStoreHeld(
      enumNames: set<string>, parentOf: Parents, roots: seq<ElementId>, d: Drafts, r: Relationship,
      pop: Population, links: set<Link>)
    requires Distinct(roots) && forall id :: id in roots <==> id in d.tables
    requires SoundDrafts(enumNames, d) && HasEndTables(parentOf, d, r) && IsStored(parentOf, d, r)
    ensures Storable(Frozen(roots, d), r, pop, links) <==>
      Held(r, TableRows(pop, parentOf, d, r.source.classId), TableRows(pop, parentOf, d, r.target.classId), links)
  {
    var sources := TableRows(pop, parentOf, d, r.source.classId);
    var targets := TableRows(pop, parentOf, d, r.target.classId);
    hide IsStored, Storable, Held, SoundTable, CellsCanHold, Frozen;
    if PlacementOf(r).JoinTable? {
      StorableInJoin(parentOf, roots, d, r, pop, links);
      JoinHoldsExactly(r, sources, targets, links);
    } else {
      StorableInKey(enumNames, parentOf, roots, d, r, pop, links);
      KeyHoldsExactly(r, sources, targets, links);
    }
  }

  lemma RowsAreObjects(pop: Population, model: Model, m: Mapped, id: ElementId)
    requires MappedOk(model, m) && TablesHoldTrees(model, m.ctx, m.parentOf, m.drafts)
    requires id in ClassIds(model.classes)
    ensures Ends(m.parentOf, id) && RootOf(m.parentOf, id) in m.drafts.tables
    ensures TableRows(pop, m.parentOf, m.drafts, id) == ObjectsOf(pop, model, m.parentOf, id)
  {
    RootInIds(ClassIds(model.classes), m.parentOf, id);
    var root := RootOf(m.parentOf, id);
    assert root in m.roots;
    assert RootHolds(model, m.ctx, m.parentOf, root, m.drafts.tables[root]);
  }

  // ---- outside hierarchies ---------------------------------------------

  /** No generalization touches the class. */
  ghost predicate IsLone(model: Model, id: ElementId) {
    forall x :: !HasParent(model.relationships, id, x) && !HasParent(model.relationships, x, id)
  }

  lemma EmptyLevel(ids: seq<ElementId>, parentOf: Parents, height: nat)
    requires IsForest(ids, parentOf)
    ensures IsLevel(ids, parentOf, [], height) && BreadthFirst(ids, parentOf, [], height) == []
  {
  }

  lemma LoneTree(model: Model, id: ElementId)
    requires HierarchyOf(model).Ok? && IsForest(ClassIds(model.classes), HierarchyOf(model).value)
    requires id in ClassIds(model.classes) && IsLone(model, id)
    ensures var ids, parentOf := ClassIds(model.classes), HierarchyOf(model).value;
      RootOf(parentOf, id) == id && id !in parentOf && TreeOf(ids, parentOf, id) == [id]
  {
    var ids, parentOf := ClassIds(model.classes), HierarchyOf(model).value;
    HierarchyIsRelation(model);
    hide HasParent, HierarchyOf, Ends;
    RootIsLevel(ids, parentOf, id);
    var next := NextLevel(ids, parentOf, [id]);
    assert forall x :: x !in next;
    HeadIsMember(next);
    LevelUnfolds(ids, parentOf, [id], 1);
    EmptyLevel(ids, parentOf, 2);
  }

  /** Between two classes outside any hierarchy, the rows are the objects of the classes themselves. */
  lemma LoneLinksAreHeld(
      snake: SnakeCase, model: Model, r: Relationship, pop: Population, links: set<Link>)
    requires DistinctIds(model) && RunPipeline(snake, model).Ok?
    requires r in model.relationships && r.kind != Generalization
    requires IsLone(model, r.source.classId) && IsLone(model, r.target.classId)
    ensures Storable(MapToRelational(snake, model).value.tables, r, pop, links) <==>
      Held(r, Rows(pop, [r.source.classId]), Rows(pop, [r.target.classId]), links)
  {
    StorableIsHeld(snake, model, r, pop, links);
    hide Storable, Held, Rows, MapToRelational;
    LoneTree(model, r.source.classId);
    LoneTree(model, r.target.classId);
  }
}
