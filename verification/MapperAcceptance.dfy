/** Which models `map_to_relational` accepts, when their names have database forms. */
module MapperAcceptance {
  import opened Text
  import opened Seqs
  import opened Uml
  import opened Naming
  import opened Schema
  import opened Hierarchy
  import opened Trees
  import opened ParentMaps
  import opened Mapper
  import opened MapperColumns
  import opened MapperTheorems

  predicate Converts(snake: SnakeCase, name: string) {
    snake(name).Some?
  }

  predicate RoleConverts(snake: SnakeCase, end: RelationshipEnd) {
    end.role.Some? && end.role.value != "" ==> Converts(snake, end.role.value)
  }

  /** The roles that name a key column: of both ends in a join table, else of the referenced end. */
  predicate RolesConvert(snake: SnakeCase, r: Relationship) {
    if PlacementOf(r).JoinTable? then RoleConverts(snake, r.source) && RoleConverts(snake, r.target)
    else RoleConverts(snake, ReferencedEnd(r))
  }

  predicate OwnedConverts(snake: SnakeCase, o: Owned) {
    Converts(snake, o.attribute.name) && Converts(snake, o.ownerName)
  }

  /** `snake_case` leaves something of every name of this model that is used. */
  ghost predicate NamesConvert(snake: SnakeCase, model: Model) {
    && (forall e :: e in model.enumerations ==> Converts(snake, e.name))
    && (forall c :: c in model.classes ==> Converts(snake, c.name))
    && (forall c, a :: c in model.classes && a in c.attributes ==> Converts(snake, a.name))
    && forall r :: r in model.relationships && r.kind != Generalization ==> RolesConvert(snake, r)
  }

  ghost predicate KnownType(enumIds: set<ElementId>, t: AttributeType) {
    t.EnumerationRef? ==> t.enumerationId in enumIds
  }

  /** Every enumeration an attribute refers to is in the model. */
  ghost predicate EnumReferencesKnown(model: Model) {
    forall c, a :: c in model.classes && a in c.attributes && a.typ.EnumerationRef? ==>
      EnumerationById(model.enumerations, a.typ.enumerationId).Some?
  }

  lemma {:induction false} EnumsAreAccepted(snake: SnakeCase, enumerations: seq<Enumeration>)
    requires forall e :: e in enumerations ==> Converts(snake, e.name)
    ensures EnumStageOf(snake, enumerations).Ok?
  {
    if enumerations != [] {
      LastIsMember(enumerations);
      EnumsAreAccepted(snake, enumerations[..|enumerations| - 1]);
    }
  }

  lemma AttributeAccepted(ctx: Context, t: Table, o: Owned)
    requires OwnedConverts(ctx.snake, o)
    ensures AddAttribute(ctx, t, o).Ok? <==> KnownType(ctx.enumNameById.Keys, o.attribute.typ)
  {
  }

  lemma {:induction false} AttributesAccepted(ctx: Context, t: Table, owned: seq<Owned>)
    requires forall o :: o in owned ==> OwnedConverts(ctx.snake, o)
    ensures AddAttributes(ctx, t, owned).Ok? <==>
      forall o :: o in owned ==> KnownType(ctx.enumNameById.Keys, o.attribute.typ)
  {
    hide AddAttribute, KnownType, OwnedConverts;
    if owned != [] {
      var n := |owned| - 1;
      LastIsMember(owned);
      AttributesAccepted(ctx, t, owned[..n]);
      if AddAttributes(ctx, t, owned[..n]).Ok? {
        AttributeAccepted(ctx, AddAttributes(ctx, t, owned[..n]).value, owned[n]);
      }
    }
  }

  lemma {:induction false} RootTablesAccepted(ctx: Context, model: Model, parentOf: Parents, roots: seq<ElementId>)
    requires NamesConvert(ctx.snake, model) && RootsInForest(ClassIds(model.classes), parentOf, roots)
    ensures RootTables(ctx, model, parentOf, roots).Ok? <==>
      forall root :: root in roots ==> TreeAccepted(ctx, model, parentOf, root)
  {
    if roots != [] {
      var n := |roots| - 1;
      RootTablesAccepted(ctx, model, parentOf, roots[..n]);
      if RootTables(ctx, model, parentOf, roots[..n]).Ok? {
        var d := RootTables(ctx, model, parentOf, roots[..n]).value;
        TreeAcceptedIff(ctx, d.taken, model, parentOf, roots[n]);
      }
      PrefixStep(roots, n);
      FullPrefix(roots);
      assert forall root :: root in roots <==> root in roots[..n] || root == roots[n];
    }
  }

  ghost predicate TreeAccepted(ctx: Context, model: Model, parentOf: Parents, root: ElementId) {
    && IsForest(ClassIds(model.classes), parentOf) && root in ClassIds(model.classes) && root !in parentOf
    && (var tree := TreeOf(ClassIds(model.classes), parentOf, root);
        AreClasses(model.classes, tree)
        && forall o :: o in OwnedInTree(model.classes, tree) ==> KnownType(ctx.enumNameById.Keys, o.attribute.typ))
  }

  lemma TreeConverts(snake: SnakeCase, model: Model, tree: seq<ElementId>)
    requires NamesConvert(snake, model) && AreClasses(model.classes, tree)
    ensures forall o :: o in OwnedInTree(model.classes, tree) ==> OwnedConverts(snake, o)
  {
    forall o | o in OwnedInTree(model.classes, tree) ensures OwnedConverts(snake, o) {
      OwnedMembers(model.classes, tree, o);
      var k :| 0 <= k < |tree| && IsOwnedAt(model.classes, tree, o, k);
    }
  }

  lemma TreeAcceptedIff(ctx: Context, taken: set<string>, model: Model, parentOf: Parents, root: ElementId)
    requires NamesConvert(ctx.snake, model) && IsForest(ClassIds(model.classes), parentOf)
    requires root in ClassIds(model.classes) && root !in parentOf
    ensures AreClasses(model.classes, TreeOf(ClassIds(model.classes), parentOf, root))
    ensures TreeAccepted(ctx, model, parentOf, root) <==>
      TableForTree(ctx, taken, model.classes, TreeOf(ClassIds(model.classes), parentOf, root)).Ok?
  {
    TreeIsClasses(model, parentOf, root);
    var tree := TreeOf(ClassIds(model.classes), parentOf, root);
    var preferred := ctx.snake(ClassById(model.classes, tree[0]).value.name).value;
    var name := FreeName(ctx.snake, taken, preferred, None).value;
    hide IsForest;
    TreeConverts(ctx.snake, model, tree);
    AttributesAccepted(ctx, BareTable(ctx, name, model.classes, tree), OwnedInTree(model.classes, tree));
  }

  /** All trees together own exactly the attributes of the model. */
  lemma TreesAcceptedIff(ctx: Context, model: Model, parentOf: Parents)
    requires IsForest(ClassIds(model.classes), parentOf) && DistinctClassIds(model)
    requires forall id :: id in ctx.enumNameById <==> EnumerationById(model.enumerations, id).Some?
    ensures EnumReferencesKnown(model) <==>
      forall root :: root in RootsOf(ClassIds(model.classes), parentOf) ==> TreeAccepted(ctx, model, parentOf, root)
  {
    var roots := RootsOf(ClassIds(model.classes), parentOf);
    if EnumReferencesKnown(model) {
      forall root | root in roots ensures TreeAccepted(ctx, model, parentOf, root) {
        TreeKnown(ctx, model, parentOf, root);
      }
    }
    if forall root :: root in roots ==> TreeAccepted(ctx, model, parentOf, root) {
      forall c, a | c in model.classes && a in c.attributes && a.typ.EnumerationRef?
        ensures EnumerationById(model.enumerations, a.typ.enumerationId).Some?
      {
        AttributeKnown(ctx, model, parentOf, c, a);
      }
    }
  }

  lemma TreeKnown(ctx: Context, model: Model, parentOf: Parents, root: ElementId)
    requires IsForest(ClassIds(model.classes), parentOf) && root in ClassIds(model.classes) && root !in parentOf
    requires EnumReferencesKnown(model)
    requires forall id :: id in ctx.enumNameById <==> EnumerationById(model.enumerations, id).Some?
    ensures TreeAccepted(ctx, model, parentOf, root)
  {
    TreeIsClasses(model, parentOf, root);
    hide IsForest;
    var tree := TreeOf(ClassIds(model.classes), parentOf, root);
    forall o | o in OwnedInTree(model.classes, tree)
      ensures KnownType(ctx.enumNameById.Keys, o.attribute.typ)
    {
      OwnedMembers(model.classes, tree, o);
      var k :| 0 <= k < |tree| && IsOwnedAt(model.classes, tree, o, k);
    }
  }

  lemma AttributeKnown(ctx: Context, model: Model, parentOf: Parents, c: UmlClass, a: UmlAttribute)
    requires IsForest(ClassIds(model.classes), parentOf) && DistinctClassIds(model)
    requires forall root :: root in RootsOf(ClassIds(model.classes), parentOf) ==> TreeAccepted(ctx, model, parentOf, root)
    requires c in model.classes && a in c.attributes
    ensures KnownType(ctx.enumNameById.Keys, a.typ)
  {
    RootOfClass(model, parentOf, c);
    hide IsForest, RootsOf;
    var root := RootOf(parentOf, c.id);
    assert TreeAccepted(ctx, model, parentOf, root);
    TreeOwns(model, parentOf, root, c, a);
  }

  lemma {:induction false} RelationshipsAccepted(
      snake: SnakeCase, parentOf: Parents, d: Drafts, relationships: seq<Relationship>)
    requires forall r :: r in relationships ==> HasEndTables(parentOf, d, r) && (r.kind != Generalization ==> RolesConvert(snake, r))
    ensures MapRelationships(snake, parentOf, d, relationships).Ok?
  {
    if relationships != [] {
      var n := |relationships| - 1;
      RelationshipsAccepted(snake, parentOf, d, relationships[..n]);
      var before := MapRelationships(snake, parentOf, d, relationships[..n]).value;
      assert HasEndTables(parentOf, d, relationships[n]);
      assert HasEndTables(parentOf, before, relationships[n]);
      assert relationships[n] in relationships;
    }
  }

  /** Among the models whose names convert, the mapper accepts exactly those without dangling
      ends, with single acyclic inheritance, parsing profiles and known enumerations. */
  lemma AcceptsExactly(snake: SnakeCase, model: Model)
    requires DistinctClassIds(model) && NamesConvert(snake, model)
    ensures MapToRelational(snake, model).Ok? <==>
      && NoDanglingEnds(model) && SingleParents(model) && Acyclic(model)
      && ProfilesParse(model) && EnumReferencesKnown(model)
  {
    if NoDanglingEnds(model) {
      HierarchyAccepts(model);
      if HierarchyOf(model).Ok? && ProfilesParse(model) {
        var parentOf := HierarchyOf(model).value;
        HierarchyIsForest(model);
        EnumsAreAccepted(snake, model.enumerations);
        EnumsAreSound(snake, model.enumerations);
        var ctx := Context(snake, EnumStageOf(snake, model.enumerations).value.nameById, ProfilesOf(model).value);
        var roots := RootsOf(ClassIds(model.classes), parentOf);
        RootTablesAccepted(ctx, model, parentOf, roots);
        TreesAcceptedIff(ctx, model, parentOf);
        if RootTables(ctx, model, parentOf, roots).Ok? {
          var bare := RootTables(ctx, model, parentOf, roots).value;
          EndsHaveTables(model, parentOf, bare);
          RelationshipsAccepted(snake, parentOf, bare, model.relationships);
        }
      }
    }
  }
}
