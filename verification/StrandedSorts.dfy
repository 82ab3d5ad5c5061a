/** Which commands strand a `defaultSort`: the entry stays, and no class under its own one has
    the attribute any more. */
module StrandedSorts {
  import opened Text
  import opened Uml
  import opened Naming
  import opened Profiles
  import opened Schema
  import opened Hierarchy
  import opened Trees
  import opened ParentMaps
  import opened Mapper
  import opened Commands
  import opened Documents
  import opened DocumentRuns
  import opened SortResolution

  /** `x` is `a` or a descendant of it. */
  ghost predicate Under(relationships: seq<Relationship>, x: ElementId, a: ElementId) {
    exists n: nat :: DescendsIn(relationships, x, a, n)
  }

  /** The class has a profile entry that sorts by the attribute. */
  predicate HasSort(model: Model, root: ElementId, id: ElementId) {
    IsClassId(model, root) && root in model.metadata && SortTarget(model.metadata[root]) == Some(id)
  }

  ghost predicate DeclaredUnder(model: Model, root: ElementId, id: ElementId) {
    exists c :: c in model.classes && IsAttributeOf(c, id) && Under(model.relationships, c.id, root)
  }

  ghost predicate Stranded(model: Model, root: ElementId, id: ElementId) {
    HasSort(model, root, id) && !DeclaredUnder(model, root, id)
  }

  // ---- chains ----------------------------------------------------------

  lemma {:induction false} ChainsConcat(relationships: seq<Relationship>, x: ElementId, y: ElementId, z: ElementId, m: nat, n: nat)
    requires DescendsIn(relationships, x, y, m) && DescendsIn(relationships, y, z, n)
    ensures DescendsIn(relationships, x, z, m + n)
    decreases m
  {
    hide HasParent;
    if m > 0 {
      var p :| HasParent(relationships, x, p) && DescendsIn(relationships, p, y, m - 1);
      ChainsConcat(relationships, p, y, z, m - 1, n);
    }
  }

  /** An edge that is among the relationships and not among those kept. */
  ghost predicate IsLost(relationships: seq<Relationship>, kept: seq<Relationship>, s: ElementId, t: ElementId) {
    HasParent(relationships, s, t) && !HasParent(kept, s, t)
  }

  /** An edge on the way from `x` up to `a` is lost. */
  ghost predicate LosesEdge(relationships: seq<Relationship>, kept: seq<Relationship>, x: ElementId, a: ElementId) {
    exists s, t :: IsLost(relationships, kept, s, t) && Under(relationships, x, s) && Under(relationships, t, a)
  }

  ghost predicate Within(kept: seq<Relationship>, relationships: seq<Relationship>) {
    forall c, p :: HasParent(kept, c, p) ==> HasParent(relationships, c, p)
  }

  lemma {:induction false} KeptChain(relationships: seq<Relationship>, kept: seq<Relationship>, x: ElementId, y: ElementId, a: ElementId, n: nat)
    requires DescendsIn(relationships, y, a, n) && Under(relationships, x, y)
    requires !LosesEdge(relationships, kept, x, a)
    ensures DescendsIn(kept, y, a, n)
    decreases n
  {
    hide HasParent;
    if n > 0 {
      var p :| HasParent(relationships, y, p) && DescendsIn(relationships, p, a, n - 1);
      var m: nat :| DescendsIn(relationships, x, y, m);
      assert DescendsIn(relationships, p, p, 0);
      assert DescendsIn(relationships, y, p, 1);
      ChainsConcat(relationships, x, y, p, m, 1);
      assert Under(relationships, p, a);
      assert !IsLost(relationships, kept, y, p);
      KeptChain(relationships, kept, x, p, a, n - 1);
    }
  }

  /** No chain comes back to where it started. */
  lemma NoWayBack(model: Model, s: ElementId, t: ElementId, a: ElementId, k: nat, n: nat)
    requires HierarchyOf(model).Ok? && NoDanglingEnds(model)
    requires HasParent(model.relationships, s, t) && DescendsIn(model.relationships, t, a, n)
    ensures !DescendsIn(model.relationships, a, s, k)
  {
    var rels := model.relationships;
    HierarchyAccepts(model);
    var r :| r in rels && r.kind == Generalization && r.source.classId == s && r.target.classId == t;
    assert IsClassId(model, s);
    hide HierarchyOf, HasParent, IsClassId, NoDanglingEnds;
    assert !DescendsIn(rels, s, s, n + k + 1);
    if DescendsIn(rels, a, s, k) {
      ChainsConcat(rels, t, a, s, n, k);
    }
  }

  lemma OneParent(model: Model, x: ElementId, p: ElementId, q: ElementId)
    requires HierarchyOf(model).Ok? && NoDanglingEnds(model)
    requires HasParent(model.relationships, x, p) && HasParent(model.relationships, x, q)
    ensures p == q
  {
    HierarchyAccepts(model);
  }

  /** Up to the lost edge there is one way only, and no way on. */
  lemma {:induction false} BrokenChain(
      model: Model, kept: seq<Relationship>, s: ElementId, t: ElementId, x: ElementId, a: ElementId, k: nat, n: nat, m: nat)
    requires HierarchyOf(model).Ok? && NoDanglingEnds(model) && Within(kept, model.relationships)
    requires IsLost(model.relationships, kept, s, t)
    requires DescendsIn(model.relationships, x, s, k) && DescendsIn(model.relationships, t, a, m)
    ensures !DescendsIn(kept, x, a, n)
    decreases k
  {
    hide HasParent, HierarchyOf, NoDanglingEnds;
    NoWayBack(model, s, t, a, k, m);
    if n > 0 && DescendsIn(kept, x, a, n) {
      var p :| HasParent(kept, x, p) && DescendsIn(kept, p, a, n - 1);
      if k == 0 {
        OneParent(model, x, p, t);
      } else {
        var q :| HasParent(model.relationships, x, q) && DescendsIn(model.relationships, q, s, k - 1);
        OneParent(model, x, p, q);
        BrokenChain(model, kept, s, t, p, a, k - 1, n - 1, m);
      }
    }
  }

  /** On an accepted hierarchy a class stays under another one iff no edge between them is lost. */
  lemma StaysUnder(model: Model, kept: seq<Relationship>, x: ElementId, a: ElementId)
    requires HierarchyOf(model).Ok? && NoDanglingEnds(model) && Within(kept, model.relationships)
    requires Under(model.relationships, x, a)
    ensures Under(kept, x, a) <==> !LosesEdge(model.relationships, kept, x, a)
  {
    var rels := model.relationships;
    if LosesEdge(rels, kept, x, a) {
      var s, t :| IsLost(rels, kept, s, t) && Under(rels, x, s) && Under(rels, t, a);
      var k: nat :| DescendsIn(rels, x, s, k);
      var m: nat :| DescendsIn(rels, t, a, m);
      hide IsLost, HasParent, HierarchyOf, DescendsIn, Within;
      forall n: nat ensures !DescendsIn(kept, x, a, n) {
        BrokenChain(model, kept, s, t, x, a, k, n, m);
      }
    } else {
      var n: nat :| DescendsIn(rels, x, a, n);
      assert DescendsIn(rels, x, x, 0);
      KeptChain(rels, kept, x, x, a, n);
    }
  }

  // ---- what a command loses --------------------------------------------

  /** The only generalizations from `s` to `t` are those with this id. */
  ghost predicate OnlyVia(relationships: seq<Relationship>, id: ElementId, s: ElementId, t: ElementId) {
    && HasParent(relationships, s, t)
    && forall g :: g in relationships && g.kind == Generalization && g.source.classId == s && g.target.classId == t ==>
         g.id == id
  }

  /** The command cuts the hierarchy between the owner of the attribute and the class with the sort:
      the only generalization of an edge between them goes, or a class strictly between them. */
  ghost predicate Cuts(model: Model, command: Command, owner: ElementId, root: ElementId) {
    var rels := model.relationships;
    match command
    case RemoveRelationship(id) =>
      exists s, t :: OnlyVia(rels, id, s, t) && Under(rels, owner, s) && Under(rels, t, root)
    case RemoveClass(id) => IsDescendant(rels, owner, id) && IsDescendant(rels, id, root)
    case _ => false
  }

  function WithoutRelationship(relationships: seq<Relationship>, id: ElementId): seq<Relationship> {
    Filter(relationships, (r: Relationship) => r.id != id)
  }

  function WithoutClass(relationships: seq<Relationship>, id: ElementId): seq<Relationship> {
    Filter(relationships, (r: Relationship) => r.source.classId != id && r.target.classId != id)
  }

  lemma RelationshipLost(relationships: seq<Relationship>, id: ElementId, s: ElementId, t: ElementId)
    ensures IsLost(relationships, WithoutRelationship(relationships, id), s, t) <==> OnlyVia(relationships, id, s, t)
    ensures Within(WithoutRelationship(relationships, id), relationships)
  {
  }

  lemma ClassLost(relationships: seq<Relationship>, id: ElementId, s: ElementId, t: ElementId)
    ensures IsLost(relationships, WithoutClass(relationships, id), s, t) <==>
      HasParent(relationships, s, t) && (s == id || t == id)
    ensures Within(WithoutClass(relationships, id), relationships)
  {
    if HasParent(relationships, s, t) && s != id && t != id {
      var r :| r in relationships && r.kind == Generalization && r.source.classId == s && r.target.classId == t;
      assert r in WithoutClass(relationships, id);
    }
  }

  lemma ProperIsDescendant(relationships: seq<Relationship>, x: ElementId, a: ElementId)
    requires x != a
    ensures Under(relationships, x, a) <==> IsDescendant(relationships, x, a)
  {
  }

  lemma LosesRelationship(model: Model, id: ElementId, x: ElementId, a: ElementId)
    ensures LosesEdge(model.relationships, WithoutRelationship(model.relationships, id), x, a) <==>
      Cuts(model, RemoveRelationship(id), x, a)
  {
    forall s, t { RelationshipLost(model.relationships, id, s, t); }
    hide OnlyVia, IsLost, Under;
  }

  lemma LosesClass(model: Model, id: ElementId, x: ElementId, a: ElementId)
    requires x != id && a != id
    ensures LosesEdge(model.relationships, WithoutClass(model.relationships, id), x, a) <==>
      Cuts(model, RemoveClass(id), x, a)
  {
    var rels := model.relationships;
    var kept := WithoutClass(rels, id);
    ProperIsDescendant(rels, x, id);
    ProperIsDescendant(rels, id, a);
    if LosesEdge(rels, kept, x, a) {
      var s, t :| IsLost(rels, kept, s, t) && Under(rels, x, s) && Under(rels, t, a);
      ClassLost(rels, id, s, t);
      hide IsDescendant;
      EdgeExtends(rels, x, s, t, a);
    }
    if Cuts(model, RemoveClass(id), x, a) {
      var n: nat :| 0 < n && DescendsIn(rels, id, a, n);
      var t :| HasParent(rels, id, t) && DescendsIn(rels, t, a, n - 1);
      ClassLost(rels, id, id, t);
      assert Under(rels, t, a);
    }
  }

  lemma EdgeExtends(relationships: seq<Relationship>, x: ElementId, s: ElementId, t: ElementId, a: ElementId)
    requires HasParent(relationships, s, t) && Under(relationships, x, s) && Under(relationships, t, a)
    ensures Under(relationships, x, t) && Under(relationships, s, a)
  {
    hide HasParent;
    var m: nat :| DescendsIn(relationships, x, s, m);
    var n: nat :| DescendsIn(relationships, t, a, n);
    assert DescendsIn(relationships, t, t, 0);
    assert DescendsIn(relationships, s, t, 1);
    ChainsConcat(relationships, x, s, t, m, 1);
    ChainsConcat(relationships, s, t, a, 1, n);
  }

  // ---- the other commands ----------------------------------------------

  predicate SameEdge(r: Relationship, q: Relationship) {
    r.kind == q.kind && r.source.classId == q.source.classId && r.target.classId == q.target.classId
  }

  /** An update changes no ends and no kind. */
  lemma UpdateKeepsEdge(rels: seq<Relationship>, q: Relationship, updated: Relationship, r: Relationship)
    requires DistinctRelationshipIds(rels) && q in rels && r in rels
    requires SameEdge(updated, q)
    ensures exists u :: u in ReplaceRelationship(rels, q.id, updated) && SameEdge(u, r)
  {
    var i :| 0 <= i < |rels| && rels[i] == r;
    var j :| 0 <= j < |rels| && rels[j] == q;
    var u := ReplaceRelationship(rels, q.id, updated)[i];
    assert u in ReplaceRelationship(rels, q.id, updated) && SameEdge(u, r);
  }

  /** Commands other than the two removals keep every generalization. */
  lemma EdgesStay(model: Model, command: Command, c: ElementId, p: ElementId)
    requires !command.RemoveRelationship? && !command.RemoveClass? && DistinctRelationshipIds(model.relationships)
    requires HasParent(model.relationships, c, p)
    ensures HasParent(Handle(model, command).relationships, c, p)
  {
    var rels, after := model.relationships, Handle(model, command).relationships;
    var r :| r in rels && r.kind == Generalization && r.source.classId == c && r.target.classId == p;
    hide DistinctRelationshipIds;
    if command.UpdateRelationship? {
      if RelationshipById(rels, command.relationshipId).Some? {
        var q := RelationshipById(rels, command.relationshipId).value;
        var updated := Updated(q, command.newLabel, command.sourceMultiplicity, command.targetMultiplicity);
        assert SameEdge(updated, q) by { hide UpdatedName; }
        UpdateKeepsEdge(rels, q, updated, r);
        hide Updated, ReplaceRelationship;
        assert after == ReplaceRelationship(rels, q.id, updated);
      }
    } else {
      assert r in after by { hide ReplaceClass, Filter, ClassById; }
    }
  }

  lemma {:induction false} ChainStays(rels: seq<Relationship>, after: seq<Relationship>, x: ElementId, a: ElementId, n: nat)
    requires forall c, p :: HasParent(rels, c, p) ==> HasParent(after, c, p)
    requires DescendsIn(rels, x, a, n)
    ensures DescendsIn(after, x, a, n)
    decreases n
  {
    hide HasParent;
    if n > 0 {
      var y :| HasParent(rels, x, y) && DescendsIn(rels, y, a, n - 1);
      ChainStays(rels, after, y, a, n - 1);
    }
  }

  ghost predicate HoldsOwner(classes: seq<UmlClass>, owner: ElementId, id: ElementId) {
    exists c :: c in classes && c.id == owner && IsAttributeOf(c, id)
  }

  lemma ReplacedOwner(classes: seq<UmlClass>, c: UmlClass, updated: UmlClass, owner: UmlClass, id: ElementId)
    requires owner in classes && IsAttributeOf(owner, id) && updated.id == c.id
    requires owner.id == c.id ==> IsAttributeOf(updated, id)
    ensures HoldsOwner(ReplaceClass(classes, c.id, updated), owner.id, id)
  {
    var after := ReplaceClass(classes, c.id, updated);
    var i :| 0 <= i < |classes| && classes[i] == owner;
    assert after[i] in after;
  }

  /** The owner keeps the attribute unless one of the two is removed. */
  lemma OwnerStays(model: Model, command: Command, owner: UmlClass, id: ElementId)
    requires IdsDistinct(model) && owner in model.classes && IsAttributeOf(owner, id)
    requires command.RemoveClass? ==> command.classId != owner.id
    requires command.RemoveAttribute? ==> command.attributeId != id
    ensures HoldsOwner(Handle(model, command).classes, owner.id, id)
  {
    var after := Handle(model, command);
    ClassByIdUnique(model.classes, owner);
    hide ReplaceClass, IdsDistinct;
    match command
    case RenameClass(c, name) =>
      if ClassById(model.classes, c).Some? {
        var d := ClassById(model.classes, c).value;
        ReplacedOwner(model.classes, d, d.(name := name), owner, id);
      }
    case AddAttribute(c, attribute) =>
      if ClassById(model.classes, c).Some? {
        var d := ClassById(model.classes, c).value;
        ReplacedOwner(model.classes, d, d.(attributes := d.attributes + [attribute]), owner, id);
      }
    case RemoveAttribute(c, attributeId) =>
      if ClassById(model.classes, c).Some? && IsAttributeOf(ClassById(model.classes, c).value, attributeId) {
        var d := ClassById(model.classes, c).value;
        ReplacedOwner(model.classes, d, d.(attributes := Filter(d.attributes, (x: UmlAttribute) => x.id != attributeId)), owner, id);
      }
    case AddOperation(c, operation) =>
      if ClassById(model.classes, c).Some? {
        var d := ClassById(model.classes, c).value;
        ReplacedOwner(model.classes, d, d.(operations := d.operations + [operation]), owner, id);
      }
    case RemoveOperation(c, operationId) =>
      if ClassById(model.classes, c).Some? {
        var d := ClassById(model.classes, c).value;
        ReplacedOwner(model.classes, d, d.(operations := Filter(d.operations, (x: UmlOperation) => x.id != operationId)), owner, id);
      }
    case _ => assert owner in after.classes;
  }

  /** No command but the two removals takes the attribute from under the class and leaves the sort. */
  lemma OthersDoNotStrand(model: Model, command: Command, owner: UmlClass, root: ElementId, id: ElementId)
    requires !command.RemoveRelationship? && !command.RemoveClass?
    requires IdsDistinct(model) && DistinctRelationshipIds(model.relationships)
    requires HasSort(model, root, id)
    requires owner in model.classes && IsAttributeOf(owner, id) && Under(model.relationships, owner.id, root)
    ensures !Stranded(Handle(model, command), root, id)
  {
    var after := Handle(model, command);
    if command.RemoveAttribute? && command.attributeId == id {
      SortGoesWithAttribute(model, command.classId, root, id, owner);
      return;
    }
    OwnerStays(model, command, owner, id);
    var n: nat :| DescendsIn(model.relationships, owner.id, root, n);
    forall c, p | HasParent(model.relationships, c, p) ensures HasParent(after.relationships, c, p) {
      EdgesStay(model, command, c, p);
    }
    hide Handle, IdsDistinct, DistinctRelationshipIds, HasSort, HasParent;
    ChainStays(model.relationships, after.relationships, owner.id, root, n);
  }

  lemma SortGoesWithAttribute(model: Model, c: ElementId, root: ElementId, id: ElementId, owner: UmlClass)
    requires HasSort(model, root, id)
    requires owner in model.classes && IsAttributeOf(owner, id) && Under(model.relationships, owner.id, root)
    ensures !Stranded(Handle(model, RemoveAttribute(c, id)), root, id)
  {
    hide Under, IsClassId;
    PrunedSort(model.metadata[root], {id}, id);
  }

  /** Pruning takes the sort from an entry iff its attribute is removed. */
  lemma PrunedSort(entry: Entry, removed: set<ElementId>, id: ElementId)
    requires SortTarget(entry) == Some(id)
    ensures id in removed ==> SortTarget(WithoutDanglingSort(entry, removed)) != Some(id)
    ensures id !in removed ==> WithoutDanglingSort(entry, removed) == entry
  {
  }

  // ---- the theorem -----------------------------------------------------

  /** On an accepted hierarchy, a command strands the sort of a class exactly when it cuts the
      hierarchy between that class and the owner of the sort attribute. */
  lemma StrandsExactly(model: Model, command: Command, owner: UmlClass, root: ElementId, id: ElementId)
    requires IdsDistinct(model) && DistinctRelationshipIds(model.relationships)
    requires HierarchyOf(model).Ok? && NoDanglingEnds(model)
    requires HasSort(model, root, id)
    requires owner in model.classes && IsAttributeOf(owner, id) && Under(model.relationships, owner.id, root)
    ensures Stranded(Handle(model, command), root, id) <==> Cuts(model, command, owner.id, root)
  {
    match command
    case RemoveRelationship(g) => RelationshipStrands(model, g, owner, root, id);
    case RemoveClass(c) => ClassStrands(model, c, owner, root, id);
    case _ => OthersDoNotStrand(model, command, owner, root, id);
  }

  lemma OnlyOwner(model: Model, owner: UmlClass, c: UmlClass, id: ElementId)
    requires IdsDistinct(model) && owner in model.classes && c in model.classes
    requires IsAttributeOf(owner, id) && IsAttributeOf(c, id)
    ensures c == owner
  {
  }

  /** The owner alone decides whether the attribute is still declared under the class. */
  lemma OwnerDecides(model: Model, after: Model, owner: UmlClass, root: ElementId, id: ElementId)
    requires IdsDistinct(model) && owner in model.classes && IsAttributeOf(owner, id)
    requires owner in after.classes && forall c :: c in after.classes ==> c in model.classes
    ensures DeclaredUnder(after, root, id) <==> Under(after.relationships, owner.id, root)
  {
    forall c | c in model.classes && IsAttributeOf(c, id) ensures c == owner {
      OnlyOwner(model, owner, c, id);
    }
    hide IdsDistinct, Under, IsAttributeOf;
  }

  lemma UnderWithoutRelationship(model: Model, g: ElementId, x: ElementId, root: ElementId)
    requires HierarchyOf(model).Ok? && NoDanglingEnds(model) && Under(model.relationships, x, root)
    ensures Under(WithoutRelationship(model.relationships, g), x, root) <==> !Cuts(model, RemoveRelationship(g), x, root)
  {
    RelationshipLost(model.relationships, g, x, root);
    LosesRelationship(model, g, x, root);
    hide HierarchyOf, NoDanglingEnds, Cuts, LosesEdge, Under, Within;
    StaysUnder(model, WithoutRelationship(model.relationships, g), x, root);
  }

  lemma RelationshipStrands(model: Model, g: ElementId, owner: UmlClass, root: ElementId, id: ElementId)
    requires IdsDistinct(model) && HierarchyOf(model).Ok? && NoDanglingEnds(model) && HasSort(model, root, id)
    requires owner in model.classes && IsAttributeOf(owner, id) && Under(model.relationships, owner.id, root)
    ensures Stranded(Handle(model, RemoveRelationship(g)), root, id) <==> Cuts(model, RemoveRelationship(g), owner.id, root)
  {
    var after := Handle(model, RemoveRelationship(g));
    OwnerDecides(model, after, owner, root, id);
    if RelationshipById(model.relationships, g).None? {
      UnknownCutsNothing(model, g, owner.id, root);
      hide HierarchyOf, NoDanglingEnds, IdsDistinct, Cuts, Under, DeclaredUnder, HasSort;
    } else {
      assert after == model.(relationships := WithoutRelationship(model.relationships, g));
      hide HierarchyOf, NoDanglingEnds, IdsDistinct, Cuts, Under, DeclaredUnder, Handle;
      UnderWithoutRelationship(model, g, owner.id, root);
    }
  }

  lemma UnknownCutsNothing(model: Model, g: ElementId, x: ElementId, a: ElementId)
    requires RelationshipById(model.relationships, g).None?
    ensures !Cuts(model, RemoveRelationship(g), x, a)
  {
    hide Under;
    forall s, t ensures !OnlyVia(model.relationships, g, s, t) {
    }
  }

  /** A descendant is a class of the model, and never its own ancestor. */
  lemma DescendantIsClass(model: Model, x: ElementId, a: ElementId)
    requires HierarchyOf(model).Ok? && NoDanglingEnds(model) && IsDescendant(model.relationships, x, a)
    ensures IsClassId(model, x) && x != a
  {
    HierarchyAccepts(model);
    var n: nat :| 0 < n && DescendsIn(model.relationships, x, a, n);
    var p :| HasParent(model.relationships, x, p);
    var r :| r in model.relationships && r.kind == Generalization && r.source.classId == x && r.target.classId == p;
    hide HierarchyOf;
  }

  /** What a removal leaves: the class is gone, and so are the sorts by its attributes. */
  lemma RemovedClass(model: Model, c: UmlClass, root: ElementId, id: ElementId)
    requires IdsDistinct(model) && c in model.classes && HasSort(model, root, id) && IsAttributeId(model, id)
    ensures var after := Handle(model, RemoveClass(c.id));
      && after.relationships == WithoutClass(model.relationships, c.id)
      && (forall d :: d in after.classes <==> d in model.classes && d.id != c.id)
      && (HasSort(after, root, id) <==> root != c.id && !IsAttributeOf(c, id))
  {
    var after := Handle(model, RemoveClass(c.id));
    ClassByIdUnique(model.classes, c);
    var d :| d in model.classes && d.id == root;
    assert IsClassId(after, root) <==> root != c.id by {
      assert root != c.id ==> d in after.classes;
    }
    SortAfterPrune(model, c, root, id);
    hide SortTarget, Prune, IsAttributeOf, AttributeIds, IsClassId;
  }

  lemma SortAfterPrune(model: Model, c: UmlClass, root: ElementId, id: ElementId)
    requires IdsDistinct(model) && c in model.classes && HasSort(model, root, id) && IsAttributeId(model, id)
    ensures var pruned := Prune(model.metadata, {c.id} + AttributeIds(c));
      (root in pruned && SortTarget(pruned[root]) == Some(id)) <==> (root != c.id && !IsAttributeOf(c, id))
  {
    PrunedSort(model.metadata[root], {c.id} + AttributeIds(c), id);
    assert id in AttributeIds(c) <==> IsAttributeOf(c, id);
    assert root in AttributeIds(c) ==> IsAttributeId(model, root);
    assert IsClassId(model, c.id);
    hide SortTarget, WithoutDanglingSort;
  }

  lemma UnderWithoutClass(model: Model, c: ElementId, x: ElementId, root: ElementId)
    requires HierarchyOf(model).Ok? && NoDanglingEnds(model) && Under(model.relationships, x, root)
    requires c != root && c != x
    ensures Under(WithoutClass(model.relationships, c), x, root) <==> !Cuts(model, RemoveClass(c), x, root)
  {
    ClassLost(model.relationships, c, x, root);
    LosesClass(model, c, x, root);
    hide HierarchyOf, NoDanglingEnds, Cuts, LosesEdge, Under, Within;
    StaysUnder(model, WithoutClass(model.relationships, c), x, root);
  }

  lemma ClassStrands(model: Model, c: ElementId, owner: UmlClass, root: ElementId, id: ElementId)
    requires IdsDistinct(model) && HierarchyOf(model).Ok? && NoDanglingEnds(model) && HasSort(model, root, id)
    requires owner in model.classes && IsAttributeOf(owner, id) && Under(model.relationships, owner.id, root)
    ensures Stranded(Handle(model, RemoveClass(c)), root, id) <==> Cuts(model, RemoveClass(c), owner.id, root)
  {
    if Cuts(model, RemoveClass(c), owner.id, root) {
      DescendantIsClass(model, owner.id, c);
      DescendantIsClass(model, c, root);
    }
    ClassIdIsLookup(model, c);
    if IsClassId(model, c) {
      var d :| d in model.classes && d.id == c;
      RemovedClass(model, d, root, id);
      if c != root && c != owner.id {
        OwnerDecides(model, Handle(model, RemoveClass(c)), owner, root, id);
        UnderWithoutClass(model, c, owner.id, root);
      }
      hide Handle, HierarchyOf, IdsDistinct, Cuts, Under, HasSort, IsAttributeOf;
    }
  }

  // ---- what the resolver answers ---------------------------------------

  /** An entry that parses and sorts by an attribute gives a profile with that sort. */
  lemma SortIsParsed(entry: Entry, id: ElementId)
    requires ParseTableProfile(JObject(entry)).Ok? && SortTarget(entry) == Some(id)
    ensures var parsed := ParseTableProfile(JObject(entry)).value;
      parsed.Some? && parsed.value.defaultSort.Some? && parsed.value.defaultSort.value.attributeId == id
  {
    var body := entry["profile"].fields;
    assert body != map[] by { assert "defaultSort" in body; }
  }

  lemma OwnedIsDeclared(model: Model, root: ElementId, id: ElementId)
    requires HierarchyOf(model).Ok? && NoDanglingEnds(model) && DistinctClassIds(model)
    requires IsClassId(model, root) && IsInheritanceRoot(model, root)
    ensures OwnedUnder(model, HierarchyOf(model).value, root, id) <==> DeclaredUnder(model, root, id)
  {
    var parentOf := HierarchyOf(model).value;
    forall c | c in model.classes
      ensures (Ends(parentOf, c.id) && RootOf(parentOf, c.id) == root) <==> Under(model.relationships, c.id, root)
    {
      WorklistIsTree(model, root, c.id);
      TreeMembers(ClassIds(model.classes), parentOf, root, c.id);
      IdOfClass(model, c.id);
      hide TreeOf, ClassIds, HierarchyOf, IsInheritanceRoot;
      if c.id != root {
        ProperIsDescendant(model.relationships, c.id, root);
      } else {
        assert DescendsIn(model.relationships, root, root, 0);
      }
      hide IsDescendant, DescendsIn;
    }
    hide HierarchyOf, Under, IsInheritanceRoot, NoDanglingEnds;
  }

  /** On the table of an inheritance root, a sort is stranded exactly when no column answers to it. */
  lemma StrandedIsUnanswered(snake: SnakeCase, model: Model, root: ElementId, id: ElementId)
    requires IdsDistinct(model) && RunPipeline(snake, model).Ok?
    requires IsInheritanceRoot(model, root) && HasSort(model, root, id)
    ensures var m := RunPipeline(snake, model).value;
      && root in m.roots && root in m.drafts.tables
      && var t := m.drafts.tables[root];
         && t.profile.Some? && t.profile.value.defaultSort.Some? && t.profile.value.defaultSort.value.attributeId == id
         && (Stranded(model, root, id) <==> !Answers(t, id))
  {
    IdsStayDistinctForMapping(model);
    WorklistIsTree(model, root, root);
    assert root in RunPipeline(snake, model).value.roots;
    OwnedIsDeclared(model, root, id);
    hide RunPipeline, MapToRelational, DeclaredUnder, OwnedUnder, Answers;
    RootTableProfile(snake, model, root);
    SortIsParsed(model.metadata[root], id);
    ResolverSucceedsExactly(snake, model, root, id);
  }
}
