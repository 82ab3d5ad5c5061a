/** The manifest resolver (`domain_manifest/builder/entities.py`): when a declared `defaultSort` resolves. */
module SortResolution {
  import opened Text
  import opened Uml
  import opened Naming
  import opened Profiles
  import opened Schema
  import opened Hierarchy
  import opened Trees
  import opened ParentMaps
  import opened Mapper
  import opened MapperSound
  import opened MapperColumns
  import opened MapperTheorems
  import opened Commands
  import opened Documents
  import opened DocumentRuns
  import opened DefaultSorts

  // ---- the gate's descendants are the mapper's tree --------------------

  lemma {:induction false} ClimbReachesRoot(parentOf: Parents, x: ElementId, n: nat)
    requires Ends(parentOf, x) && Climb(parentOf, x, n).Some? && Climb(parentOf, x, n).value !in parentOf
    ensures RootOf(parentOf, x) == Climb(parentOf, x, n).value
    decreases n
  {
    if n > 0 {
      ParentHeight(parentOf, x);
      ClimbReachesRoot(parentOf, parentOf[x], n - 1);
    }
  }

  /** What the write gate's worklist collects for a root is, as a set, the mapper's
      breadth-first list of that root. */
  lemma WorklistIsTree(model: Model, root: ElementId, x: ElementId)
    requires HierarchyOf(model).Ok? && NoDanglingEnds(model) && DistinctClassIds(model)
    requires IsClassId(model, root) && IsInheritanceRoot(model, root)
    ensures IsForest(ClassIds(model.classes), HierarchyOf(model).value)
    ensures root in ClassIds(model.classes) && root !in HierarchyOf(model).value
    ensures IsDescendant(model.relationships, x, root) <==>
      x in TreeOf(ClassIds(model.classes), HierarchyOf(model).value, root) && x != root
  {
    var ids, parentOf := ClassIds(model.classes), HierarchyOf(model).value;
    HierarchyIsForest(model);
    HierarchyIsRelation(model);
    IdOfClass(model, root);
    TreeMembers(ids, parentOf, root, x);
    hide HierarchyOf, TreeOf, HasParent, ClassIds;
    if IsDescendant(model.relationships, x, root) {
      var n: nat :| 0 < n && DescendsIn(model.relationships, x, root, n);
      DescentClimbs(model, x, root, n);
      ClimbReachesRoot(parentOf, x, n);
    }
    if x in ids && RootOf(parentOf, x) == root && x != root {
      RootIsTopOfChain(parentOf, x);
      DescentClimbs(model, x, root, Height(parentOf, x) - 1);
    }
  }

  // ---- the resolver ----------------------------------------------------

  /** The discriminator column is skipped; a synthetic column matches no attribute. */
  predicate Resolves(t: Table, column: Column, id: ElementId) {
    t.discriminatorColumn != Some(column.name) && column.sourceElementId == Some(id)
  }

  method ResolveAttribute(t: Table, id: ElementId) returns (r: Option<nat>)
    ensures r.Some? ==> r.value < |t.columns| && Resolves(t, t.columns[r.value], id)
    ensures r.Some? ==> forall k :: 0 <= k < r.value ==> !Resolves(t, t.columns[k], id)
    ensures r.None? ==> forall k :: 0 <= k < |t.columns| ==> !Resolves(t, t.columns[k], id)
  {
    for i := 0 to |t.columns|
      invariant forall k :: 0 <= k < i ==> !Resolves(t, t.columns[k], id)
    {
      if Resolves(t, t.columns[i], id) {
        return Some(i);
      }
    }
    return None;
  }

  /** Exactly one column answers to the attribute id. */
  ghost predicate ResolvesOnce(t: Table, id: ElementId) {
    exists k: nat :: k < |t.columns| && Resolves(t, t.columns[k], id)
      && forall l: nat :: l < |t.columns| && Resolves(t, t.columns[l], id) ==> l == k
  }

  ghost predicate Answers(t: Table, id: ElementId) {
    exists k: nat :: k < |t.columns| && Resolves(t, t.columns[k], id)
  }

  /** A class of the hierarchy under `root` owns the attribute. */
  ghost predicate OwnedUnder(model: Model, parentOf: Parents, root: ElementId, id: ElementId) {
    exists c :: c in model.classes && IsAttributeOf(c, id) && Ends(parentOf, c.id) && RootOf(parentOf, c.id) == root
  }

  lemma NotTheDiscriminator(names: set<string>, t: Table, k: nat)
    requires SoundTable(names, t) && k < |t.columns| && t.columns[k].sourceElementId.Some?
    ensures t.discriminatorColumn != Some(t.columns[k].name)
  {
    if t.discriminatorColumn.Some? {
      var j :| 0 <= j < |t.columns| && t.columns[j] == TYPE_COLUMN;
      assert j != k;
    }
  }

  lemma ColumnComesFromTree(model: Model, ctx: Context, parentOf: Parents, root: ElementId, t: Table, column: Column)
    requires IsForest(ClassIds(model.classes), parentOf) && RootHolds(model, ctx, parentOf, root, t)
    requires column in t.columns && column.sourceElementId.Some?
    ensures OwnedUnder(model, parentOf, root, column.sourceElementId.value)
  {
    var ids := ClassIds(model.classes);
    var tree := TreeOf(ids, parentOf, root);
    assert HasOwner(OwnedInTree(model.classes, tree), column);
    var o :| o in OwnedInTree(model.classes, tree) && Represents(column, o);
    OwnedMembers(model.classes, tree, o);
    var k :| 0 <= k < |tree| && IsOwnedAt(model.classes, tree, o, k);
    var c := ClassById(model.classes, tree[k]).value;
    TreeMembers(ids, parentOf, root, c.id);
    hide TreeOf, IsForest;
    assert IsAttributeOf(c, o.attribute.id);
  }

  lemma OwnedAttributeResolves(
      names: set<string>, model: Model, ctx: Context, parentOf: Parents, root: ElementId, t: Table, id: ElementId)
    requires IsForest(ClassIds(model.classes), parentOf) && RootHolds(model, ctx, parentOf, root, t)
    requires SoundTable(names, t) && DistinctClassIds(model) && OwnedUnder(model, parentOf, root, id)
    ensures ResolvesOnce(t, id)
  {
    hide IsForest, SoundTable;
    var c :| c in model.classes && IsAttributeOf(c, id) && Ends(parentOf, c.id) && RootOf(parentOf, c.id) == root;
    var a :| a in c.attributes && a.id == id;
    var k := FindTreeColumn(model, ctx, parentOf, root, t, c, a);
    NotTheDiscriminator(names, t, k);
    assert DistinctSources(t.columns);
    hide RootHolds;
    assert Resolves(t, t.columns[k], id);
  }

  lemma TreeTableResolves(
      names: set<string>, model: Model, ctx: Context, parentOf: Parents, root: ElementId, t: Table, id: ElementId)
    requires IsForest(ClassIds(model.classes), parentOf) && RootHolds(model, ctx, parentOf, root, t)
    requires SoundTable(names, t) && DistinctClassIds(model)
    ensures Answers(t, id) <==> OwnedUnder(model, parentOf, root, id)
    ensures Answers(t, id) ==> ResolvesOnce(t, id)
  {
    hide IsForest, SoundTable, RootHolds, OwnedUnder, DistinctClassIds;
    if OwnedUnder(model, parentOf, root, id) {
      OwnedAttributeResolves(names, model, ctx, parentOf, root, t, id);
    }
    if Answers(t, id) {
      var k: nat :| k < |t.columns| && Resolves(t, t.columns[k], id);
      ColumnComesFromTree(model, ctx, parentOf, root, t, t.columns[k]);
    }
  }

  /** On the table of a root, the resolver finds exactly the attributes of the classes
      whose hierarchy root it is, each in one column. */
  lemma ResolverSucceedsExactly(snake: SnakeCase, model: Model, root: ElementId, id: ElementId)
    requires DistinctClassIds(model) && DistinctAttributeIds(model) && RunPipeline(snake, model).Ok?
    requires root in RunPipeline(snake, model).value.roots
    ensures var m := RunPipeline(snake, model).value;
      var t := m.drafts.tables[root];
      && t in MapToRelational(snake, model).value.tables
      && (Answers(t, id) <==> OwnedUnder(model, m.parentOf, root, id))
      && (Answers(t, id) ==> ResolvesOnce(t, id))
  {
    PipelineHoldsTrees(snake, model);
    PipelineIsSound(snake, model);
    var m := RunPipeline(snake, model).value;
    var i :| 0 <= i < |m.roots| && m.roots[i] == root;
    assert TablesInOrder(m.roots, m.drafts.tables)[i] == m.drafts.tables[root];
    assert RootHolds(model, m.ctx, m.parentOf, root, m.drafts.tables[root]);
    hide RunPipeline, RootHolds, IsForest, SoundTable;
    TreeTableResolves(EnumTypeNames(m.enums.types), model, m.ctx, m.parentOf, root, m.drafts.tables[root], id);
  }

  // ---- from the gate to the resolver -----------------------------------

  /** The parsed profile of a `SetGenerationProfile` payload. */
  function Parsed(profile: map<string, Json>): Result<Option<TableProfile>, ProfileError> {
    ParseTableProfile(JObject(map["profile" := JObject(profile)]))
  }

  lemma ProfileIsThere(metadata: Metadata, id: ElementId, profile: map<string, Json>)
    requires profile != map[]
    ensures var after := WithProfile(metadata, id, Some(profile));
      id in after && "profile" in after[id] && after[id]["profile"] == JObject(profile)
  {
    var entry: Entry := if id in metadata then metadata[id] else map[];
    assert "profile" in entry["profile" := JObject(profile)];
  }

  /** After an accepted `SetGenerationProfile` every entry still parses, and this one holds the payload. */
  lemma AcceptedProfileParses(model: Model, id: ElementId, profile: map<string, Json>)
    requires ProfilesParse(model) && IsClassId(model, id) && profile != map[]
    requires ProfileGate(model, id, Some(profile)).None?
    ensures var after := Handle(model, SetGenerationProfile(id, Some(profile)));
      && after == model.(metadata := after.metadata) && ProfilesParse(after)
      && Parsed(profile).Ok? && TableProfileOf(after, id) == Parsed(profile).value
  {
    var after := Handle(model, SetGenerationProfile(id, Some(profile)));
    WithProfileEntries(model.metadata, id, Some(profile));
    LevelsUnchanged(model, after);
    ProfileIsThere(model.metadata, id, profile);
    ParsersReadProfileOnly(after.metadata[id], map["profile" := JObject(profile)]);
    AcceptedEntryIsGood(model, id, Some(profile), after.metadata[id]);
    hide ParseTableProfile, ParseColumnProfile, IsClassId, IsAttributeId, WithProfile;
    forall x | x in after.metadata ensures EntryParses(after, x) {
      assert x != id ==> EntryParses(model, x);
    }
  }

  /** The sort attribute the gate lets through belongs to the hierarchy of the root. */
  lemma AllowedSortIsOwnedUnder(model: Model, c: UmlClass, attributeId: ElementId)
    requires HierarchyOf(model).Ok? && NoDanglingEnds(model) && DistinctClassIds(model)
    requires c in model.classes && IsInheritanceRoot(model, c.id) && SortAllowed(model, c, attributeId)
    ensures OwnedUnder(model, HierarchyOf(model).value, c.id, attributeId)
  {
    var parentOf := HierarchyOf(model).value;
    WorklistIsTree(model, c.id, c.id);
    hide HierarchyOf, ClassIds;
    if !IsAttributeOf(c, attributeId) {
      var x :| IsDescendant(model.relationships, x, c.id)
        && ClassById(model.classes, x).Some? && IsAttributeOf(ClassById(model.classes, x).value, attributeId);
      WorklistIsTree(model, c.id, x);
      TreeMembers(ClassIds(model.classes), parentOf, c.id, x);
      hide TreeOf, IsDescendant;
      var d := ClassById(model.classes, x).value;
      assert d in model.classes && IsAttributeOf(d, attributeId) && d.id == x;
    } else {
      RootOfClass(model, parentOf, c);
    }
  }

  lemma GateAllowsSort(model: Model, c: UmlClass, profile: map<string, Json>)
    requires DistinctClassIds(model) && c in model.classes && profile != map[]
    requires ProfileGate(model, c.id, Some(profile)).None?
    requires Parsed(profile).Ok? && Parsed(profile).value.Some? && Parsed(profile).value.value.defaultSort.Some?
    ensures SortAllowed(model, c, Parsed(profile).value.value.defaultSort.value.attributeId)
  {
    hide ParseTableProfile;
    ClassByIdUnique(model.classes, c);
    assert IsClassId(model, c.id);
  }

  lemma RootTableProfile(snake: SnakeCase, model: Model, root: ElementId)
    requires DistinctClassIds(model) && DistinctAttributeIds(model) && RunPipeline(snake, model).Ok?
    requires root in RunPipeline(snake, model).value.roots
    ensures var t := RunPipeline(snake, model).value.drafts.tables[root];
      && t.sourceClassIds != [] && t.sourceClassIds[0] == root
      && ProfilesParse(model) && t.profile == TableProfileOf(model, root)
  {
    PipelineHoldsTrees(snake, model);
    var m := RunPipeline(snake, model).value;
    assert RootHolds(model, m.ctx, m.parentOf, root, m.drafts.tables[root]);
    hide RunPipeline, TableForTree, RootTables, HierarchyOf;
  }

  /** The model maps, the table of `root` carries this profile, and one column answers to its sort attribute. */
  ghost predicate ServesSort(snake: SnakeCase, model: Model, root: ElementId, profile: TableProfile)
    requires DistinctClassIds(model) && profile.defaultSort.Some?
  {
    && RunPipeline(snake, model).Ok?
    && var m := RunPipeline(snake, model).value;
       && root in m.roots
       && var t := m.drafts.tables[root];
          && t in MapToRelational(snake, model).value.tables
          && t.sourceClassIds != [] && t.sourceClassIds[0] == root
          && t.profile == Some(profile)
          && ResolvesOnce(t, profile.defaultSort.value.attributeId)
  }

  lemma OwnedSortIsServed(snake: SnakeCase, model: Model, root: ElementId, profile: TableProfile)
    requires DistinctClassIds(model) && DistinctAttributeIds(model) && RunPipeline(snake, model).Ok?
    requires root in RunPipeline(snake, model).value.roots && profile.defaultSort.Some?
    requires ProfilesParse(model) && TableProfileOf(model, root) == Some(profile)
    requires OwnedUnder(model, RunPipeline(snake, model).value.parentOf, root, profile.defaultSort.value.attributeId)
    ensures ServesSort(snake, model, root, profile)
  {
    RootTableProfile(snake, model, root);
    ResolverSucceedsExactly(snake, model, root, profile.defaultSort.value.attributeId);
    hide RunPipeline, MapToRelational, TableProfileOf, ProfilesParse, ResolvesOnce, OwnedUnder;
  }

  /** A `defaultSort` that the gate accepts on an inheritance root of a mappable model: the
      updated model maps, the table of that root carries exactly that profile, and one
      column answers to the sort attribute. */
  lemma AcceptedSortResolves(snake: SnakeCase, model: Model, c: UmlClass, profile: map<string, Json>)
    requires DistinctClassIds(model) && DistinctAttributeIds(model) && RunPipeline(snake, model).Ok?
    requires c in model.classes && IsInheritanceRoot(model, c.id) && profile != map[]
    requires ProfileGate(model, c.id, Some(profile)).None?
    requires Parsed(profile).Ok? && Parsed(profile).value.Some? && Parsed(profile).value.value.defaultSort.Some?
    ensures var after := Handle(model, SetGenerationProfile(c.id, Some(profile)));
      DistinctClassIds(after) && ServesSort(snake, after, c.id, Parsed(profile).value.value)
  {
    var after := Handle(model, SetGenerationProfile(c.id, Some(profile)));
    assert IsClassId(model, c.id);
    AcceptedProfileParses(model, c.id, profile);
    GateAllowsSort(model, c, profile);
    AllowedSortIsOwnedUnder(model, c, Parsed(profile).value.value.defaultSort.value.attributeId);
    WorklistIsTree(model, c.id, c.id);
    assert DistinctAttributeIds(after);
    hide Parsed, Handle, ProfileGate, SortAllowed, HierarchyOf, IsInheritanceRoot, ProfilesParse, DistinctAttributeIds,
         IsDescendant, ClassById, IsAttributeOf, IsClassId, TableProfileOf, MapToRelational;
    MetadataDoesNotDecide(snake, model, after.metadata);
    hide DistinctClassIds;
    assert c.id in RunPipeline(snake, after).value.roots;
    hide RunPipeline;
    OwnedSortIsServed(snake, after, c.id, Parsed(profile).value.value);
  }
}
