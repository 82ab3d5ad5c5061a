/** From the relationships of a model to its generalization hierarchy:
    `_check_dangling_endpoints` and `_build_hierarchy` of `mapping/mapper.py`. */
module ParentMaps {
  import opened Text
  import opened Seqs
  import opened Uml
  import opened MapErrors
  import opened Hierarchy
  import opened Trees

  /** Some generalization makes `parent` a parent of `child`. */
  predicate HasParent(relationships: seq<Relationship>, child: ElementId, parent: ElementId) {
    exists r :: r in relationships && r.kind == Generalization && r.source.classId == child && r.target.classId == parent
  }

  /** The first relationship with an end that is no class of the model. */
  function FirstDangling(model: Model): (r: Option<ElementId>)
    ensures r.None? <==> NoDanglingEnds(model)
  {
    FirstDanglingIn(model, model.relationships)
  }

  function FirstDanglingIn(model: Model, relationships: seq<Relationship>): (r: Option<ElementId>)
    ensures r.None? <==> forall x :: x in relationships ==>
      IsClassId(model, x.source.classId) && IsClassId(model, x.target.classId)
  {
    if relationships == [] then None
    else if !IsClassId(model, relationships[0].source.classId) || !IsClassId(model, relationships[0].target.classId)
    then Some(relationships[0].id)
    else FirstDanglingIn(model, relationships[1..])
  }

  /** The distinct parents of `child`, in the order their generalizations appear. */
  function ParentsOf(relationships: seq<Relationship>, child: ElementId): (r: seq<ElementId>)
    ensures Distinct(r)
    ensures forall p :: p in r <==> HasParent(relationships, child, p)
  {
    if relationships == [] then []
    else
      var front := ParentsOf(relationships[..|relationships| - 1], child);
      var last := relationships[|relationships| - 1];
      if last.kind == Generalization && last.source.classId == child && last.target.classId !in front
      then front + [last.target.classId]
      else front
  }

  predicate IsSubclass(relationships: seq<Relationship>, child: ElementId) {
    exists r :: r in relationships && r.kind == Generalization && r.source.classId == child
  }

  /** The classes with a parent, in the order of their first generalization. */
  function SubclassesOf(relationships: seq<Relationship>): (r: seq<ElementId>)
    ensures forall c :: c in r <==> IsSubclass(relationships, c)
  {
    if relationships == [] then []
    else
      var last := relationships[|relationships| - 1];
      var front := SubclassesOf(relationships[..|relationships| - 1]);
      if last.kind == Generalization && last.source.classId !in front
      then front + [last.source.classId]
      else front
  }

  function SoleParent(child: ElementId, parents: seq<ElementId>): (r: Result<ElementId, MapError>)
    requires parents != []
    ensures r.Ok? ==> parents == [r.value]
    ensures r.Err? ==> r.error == MultipleGeneralizationParents(child, parents) && |parents| > 1
  {
    if |parents| > 1 then Err(MultipleGeneralizationParents(child, parents)) else Ok(parents[0])
  }

  /** The parent of each class, unless a class has several. */
  function ParentMap(relationships: seq<Relationship>, children: seq<ElementId>): (r: Result<Parents, MapError>)
    requires forall c :: c in children ==> ParentsOf(relationships, c) != []
    ensures r.Ok? ==> forall c :: c in r.value <==> c in children
    ensures r.Ok? ==> forall c :: c in children ==> ParentsOf(relationships, c) == [r.value[c]]
    ensures r.Err? ==>
      && r.error.MultipleGeneralizationParents? && r.error.classId in children
      && r.error.parentIds == ParentsOf(relationships, r.error.classId) && |r.error.parentIds| > 1
  {
    if children == [] then Ok(map[])
    else
      var last := children[|children| - 1];
      hide ParentsOf;
      LastIsMember(children);
      match ParentMap(relationships, children[..|children| - 1])
      case Err(e) => Err(e)
      case Ok(parentOf) =>
        match SoleParent(last, ParentsOf(relationships, last))
        case Err(e) => Err(e)
        case Ok(parent) => Ok(parentOf[last := parent])
  }

  lemma SubclassesHaveParents(relationships: seq<Relationship>)
    ensures forall c :: c in SubclassesOf(relationships) ==> ParentsOf(relationships, c) != []
  {
    forall c | c in SubclassesOf(relationships)
      ensures ParentsOf(relationships, c) != []
    {
      var r :| r in relationships && r.kind == Generalization && r.source.classId == c;
      assert r.target.classId in ParentsOf(relationships, c);
    }
  }

  function ParentMapOf(relationships: seq<Relationship>): Result<Parents, MapError> {
    SubclassesHaveParents(relationships);
    ParentMap(relationships, SubclassesOf(relationships))
  }

  /** The parent map of `_build_hierarchy`, or the error it raises. */
  function HierarchyOf(model: Model): Result<Parents, MapError> {
    match ParentMapOf(model.relationships)
    case Err(e) => Err(e)
    case Ok(parentOf) =>
      match FirstCycle(ClassIds(model.classes), parentOf)
      case Some(cycle) => Err(GeneralizationCycle(cycle))
      case None => Ok(parentOf)
  }

  ghost predicate SingleParents(model: Model) {
    forall c, p, q :: HasParent(model.relationships, c, p) && HasParent(model.relationships, c, q) ==> p == q
  }

  /** A chain of generalizations of length `n` leads from `x` up to `a`. */
  ghost predicate DescendsIn(relationships: seq<Relationship>, x: ElementId, a: ElementId, n: nat)
    decreases n
  {
    if n == 0 then x == a
    else exists y :: HasParent(relationships, x, y) && DescendsIn(relationships, y, a, n - 1)
  }

  /** No class is its own proper ancestor. */
  ghost predicate Acyclic(model: Model) {
    forall x, n: nat :: 0 < n && IsClassId(model, x) ==> !DescendsIn(model.relationships, x, x, n)
  }

  /** The parent map is exactly the generalization relation. */
  lemma HierarchyIsRelation(model: Model)
    requires HierarchyOf(model).Ok?
    ensures var parentOf := HierarchyOf(model).value;
      forall c, p :: HasParent(model.relationships, c, p) <==> c in parentOf && parentOf[c] == p
    ensures var parentOf := HierarchyOf(model).value;
      forall c :: c in parentOf ==> HasParent(model.relationships, c, parentOf[c])
  {
    var rels := model.relationships;
    SubclassesHaveParents(rels);
    var parentOf := HierarchyOf(model).value;
    forall c, p ensures HasParent(rels, c, p) <==> c in parentOf && parentOf[c] == p {
      if c in SubclassesOf(rels) {
        assert ParentsOf(rels, c) == [parentOf[c]];
      }
    }
  }

  lemma HierarchyIsForest(model: Model)
    requires HierarchyOf(model).Ok? && NoDanglingEnds(model) && DistinctClassIds(model)
    ensures IsForest(ClassIds(model.classes), HierarchyOf(model).value)
  {
    HierarchyIsRelation(model);
    var ids, parentOf := ClassIds(model.classes), HierarchyOf(model).value;
    forall c | c in parentOf ensures c in ids && parentOf[c] in ids {
      assert HasParent(model.relationships, c, parentOf[c]);
      IdOfClass(model, c);
      IdOfClass(model, parentOf[c]);
    }
  }

  lemma IdOfClass(model: Model, id: ElementId)
    ensures id in ClassIds(model.classes) <==> IsClassId(model, id)
  {
    if IsClassId(model, id) {
      var c :| c in model.classes && c.id == id;
      var i :| 0 <= i < |model.classes| && model.classes[i] == c;
      assert ClassIds(model.classes)[i] == id;
    }
  }

  lemma {:induction false} DescentClimbs(model: Model, x: ElementId, a: ElementId, n: nat)
    requires HierarchyOf(model).Ok?
    ensures DescendsIn(model.relationships, x, a, n) <==> Climb(HierarchyOf(model).value, x, n) == Some(a)
    decreases n
  {
    hide HasParent, HierarchyOf;
    if n > 0 {
      HierarchyIsRelation(model);
      var parentOf := HierarchyOf(model).value;
      if x in parentOf {
        DescentClimbs(model, parentOf[x], a, n - 1);
        assert HasParent(model.relationships, x, parentOf[x]);
      }
    }
  }

  lemma {:induction false} ClimbLowersHeight(parentOf: Parents, x: ElementId, n: nat)
    requires Ends(parentOf, x) && Climb(parentOf, x, n).Some?
    ensures Ends(parentOf, Climb(parentOf, x, n).value)
    ensures Height(parentOf, Climb(parentOf, x, n).value) == Height(parentOf, x) - n
    decreases n
  {
    if n > 0 {
      ParentHeight(parentOf, x);
      ClimbLowersHeight(parentOf, parentOf[x], n - 1);
    }
  }

  lemma {:induction false} CycleDescends(model: Model, parentOf: Parents, cycle: seq<ElementId>, i: nat)
    requires IsParentCycle(parentOf, cycle) && i < |cycle|
    requires forall c :: c in parentOf ==> HasParent(model.relationships, c, parentOf[c])
    ensures DescendsIn(model.relationships, cycle[i], cycle[0], |cycle| - i)
    decreases |cycle| - i
  {
    var rels := model.relationships;
    if i == |cycle| - 1 {
      assert HasParent(rels, cycle[i], cycle[0]) && DescendsIn(rels, cycle[0], cycle[0], 0);
    } else {
      CycleDescends(model, parentOf, cycle, i + 1);
      assert HasParent(rels, cycle[i], cycle[i + 1]);
    }
  }

  /** The hierarchy stage succeeds exactly on the single-parent, acyclic models. */
  lemma HierarchyAccepts(model: Model)
    requires NoDanglingEnds(model)
    ensures HierarchyOf(model).Ok? <==> SingleParents(model) && Acyclic(model)
  {
    var rels, ids := model.relationships, ClassIds(model.classes);
    SubclassesHaveParents(rels);
    match ParentMap(rels, SubclassesOf(rels))
    case Err(e) =>
      assert e.parentIds[0] in e.parentIds && e.parentIds[1] in e.parentIds;
    case Ok(parentOf) =>
      forall c | c in parentOf ensures HasParent(rels, c, parentOf[c]) {
        assert parentOf[c] in ParentsOf(rels, c);
      }
      match FirstCycle(ids, parentOf)
      case Some(cycle) =>
        CycleDescends(model, parentOf, cycle, 0);
        assert HasParent(rels, cycle[|cycle| - 1], cycle[0]);
      case None =>
        HierarchyIsRelation(model);
        forall x, n: nat | 0 < n && IsClassId(model, x)
          ensures !DescendsIn(rels, x, x, n)
        {
          DescentClimbs(model, x, x, n);
          IdOfClass(model, x);
          if DescendsIn(rels, x, x, n) {
            ClimbLowersHeight(parentOf, x, n);
          }
        }
  }

  // ---- the loops -------------------------------------------------------

  /** The `parents_of` dictionary with its insertion order. */
  ghost predicate IsParentsDict(
      relationships: seq<Relationship>, order: seq<ElementId>, parentsOf: map<ElementId, seq<ElementId>>)
  {
    && order == SubclassesOf(relationships)
    && (forall c :: c in parentsOf <==> c in order)
    && forall c :: c in order ==> parentsOf[c] == ParentsOf(relationships, c)
  }

  lemma NoParents(relationships: seq<Relationship>, child: ElementId)
    requires !IsSubclass(relationships, child)
    ensures ParentsOf(relationships, child) == []
  {
    assert forall p :: p !in ParentsOf(relationships, child);
  }

  lemma ParentsDictStep(
      front: seq<Relationship>, last: Relationship,
      order: seq<ElementId>, parentsOf: map<ElementId, seq<ElementId>>)
    requires IsParentsDict(front, order, parentsOf)
    ensures var child, parent := last.source.classId, last.target.classId;
      var parents := if child in parentsOf then parentsOf[child] else [];
      IsParentsDict(front + [last],
        if last.kind == Generalization && child !in parentsOf then order + [child] else order,
        if last.kind == Generalization
        then parentsOf[child := if parent in parents then parents else parents + [parent]]
        else parentsOf)
  {
    assert (front + [last])[..|front|] == front;
    if !IsSubclass(front, last.source.classId) {
      NoParents(front, last.source.classId);
    }
    hide HasParent, IsSubclass;
  }

  method CollectParents(relationships: seq<Relationship>)
      returns (order: seq<ElementId>, parentsOf: map<ElementId, seq<ElementId>>)
    ensures IsParentsDict(relationships, order, parentsOf)
  {
    order, parentsOf := [], map[];
    assert IsParentsDict([], order, parentsOf);
    hide *;
    for i := 0 to |relationships|
      invariant IsParentsDict(relationships[..i], order, parentsOf)
    {
      ParentsDictStep(relationships[..i], relationships[i], order, parentsOf);
      PrefixStep(relationships, i);
      var relationship := relationships[i];
      if relationship.kind != Generalization {
        continue;
      }
      var child, parent := relationship.source.classId, relationship.target.classId;
      var parents := if child in parentsOf then parentsOf[child] else [];
      if child !in parentsOf {
        order := order + [child];
      }
      parentsOf := parentsOf[child := if parent in parents then parents else parents + [parent]];
    }
    FullPrefix(relationships);
  }

  method BuildParentMap(relationships: seq<Relationship>) returns (r: Result<Parents, MapError>)
    ensures r == ParentMapOf(relationships)
  {
    hide HasParent, ParentsOf, SubclassesOf;
    SubclassesHaveParents(relationships);
    var order, parentsOf := CollectParents(relationships);
    var parentOf: Parents := map[];
    for i := 0 to |order|
      invariant ParentMap(relationships, order[..i]) == Ok(parentOf)
    {
      PrefixStep(order, i);
      var child := order[i];
      var parents := parentsOf[child];
      if |parents| > 1 {
        FirstErrorStands(relationships, order, i + 1);
        return Err(MultipleGeneralizationParents(child, parents));
      }
      parentOf := parentOf[child := parents[0]];
    }
    FullPrefix(order);
    return Ok(parentOf);
  }

  lemma {:induction false} FirstErrorStands(relationships: seq<Relationship>, order: seq<ElementId>, i: nat)
    requires forall c :: c in order ==> ParentsOf(relationships, c) != []
    requires i <= |order| && ParentMap(relationships, order[..i]).Err?
    ensures ParentMap(relationships, order) == ParentMap(relationships, order[..i])
    decreases |order|
  {
    if i < |order| {
      assert order[..|order| - 1][..i] == order[..i];
      FirstErrorStands(relationships, order[..|order| - 1], i);
    } else {
      assert order[..i] == order;
    }
  }
}
