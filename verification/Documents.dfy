/** The document row and its write gates (`uml_documents/services.py`, `uml_modeling/documents.py`). */
module Documents {
  import opened Text
  import opened Seqs
  import opened Uml
  import opened Profiles
  import opened ParentMaps
  import opened Commands

  datatype Position = Position(x: real, y: real)

  type Layout = map<ElementId, Position>

  /** The persisted content: model, layout and revision. */
  datatype Document = Document(model: Model, layout: Layout, revision: nat)

  datatype SubmitError =
    | UnknownElement
    | InvalidProfile(reason: ProfileError)
    | SortAttributeElsewhere(attributeId: ElementId)
    | DanglingDescendant
    | UnknownRelationship
    | GeneralizationHasNoMultiplicities
    | StaleRevision
    | EmptyBatch

  // ---- descendants -----------------------------------------------------

  /** `x` lies strictly below `a` in the generalization graph, cyclic or not. */
  ghost predicate IsDescendant(relationships: seq<Relationship>, x: ElementId, a: ElementId) {
    exists n: nat :: 0 < n && DescendsIn(relationships, x, a, n)
  }

  /** A set that has every child of `a` and of its own members has every descendant of `a`. */
  lemma {:induction false} ClosedHasDescendants(relationships: seq<Relationship>, closed: set<ElementId>, x: ElementId, a: ElementId, n: nat)
    requires forall c, p :: HasParent(relationships, c, p) && (p == a || p in closed) ==> c in closed
    requires 0 < n && DescendsIn(relationships, x, a, n)
    ensures x in closed
    decreases n
  {
    var y :| HasParent(relationships, x, y) && DescendsIn(relationships, y, a, n - 1);
    if n > 1 {
      ClosedHasDescendants(relationships, closed, y, a, n - 1);
    }
  }

  lemma ChildIsDescendant(relationships: seq<Relationship>, x: ElementId, y: ElementId, a: ElementId)
    requires HasParent(relationships, x, y) && (y == a || IsDescendant(relationships, y, a))
    ensures IsDescendant(relationships, x, a)
  {
    if y == a {
      assert DescendsIn(relationships, y, a, 0);
      assert DescendsIn(relationships, x, a, 1);
    } else {
      var n: nat :| 0 < n && DescendsIn(relationships, y, a, n);
      assert DescendsIn(relationships, x, a, n + 1);
    }
  }

  lemma OneMoreEdge(front: seq<Relationship>, last: Relationship, c: ElementId, p: ElementId)
    ensures HasParent(front + [last], c, p) <==>
      HasParent(front, c, p) || (last.kind == Generalization && last.source.classId == c && last.target.classId == p)
  {
    if HasParent(front, c, p) {
      var r :| r in front && r.kind == Generalization && r.source.classId == c && r.target.classId == p;
      assert r in front + [last];
    }
    assert last in front + [last];
  }

  /** One round of the worklist: the children of `current` that are new are collected and queued. */
  method CollectChildren(
      relationships: seq<Relationship>, current: ElementId, descendants: set<ElementId>, frontier: seq<ElementId>)
      returns (more: set<ElementId>, queue: seq<ElementId>)
    ensures descendants <= more
    ensures forall x :: x in more - descendants <==> x !in descendants && HasParent(relationships, x, current)
    ensures forall x :: x in queue <==> x in frontier || x in more - descendants
    ensures more == descendants ==> queue == frontier
  {
    more, queue := descendants, frontier;
    for i := 0 to |relationships|
      invariant descendants <= more
      invariant forall x :: x in more - descendants <==> x !in descendants && HasParent(relationships[..i], x, current)
      invariant forall x :: x in queue <==> x in frontier || x in more - descendants
      invariant more == descendants ==> queue == frontier
    {
      PrefixStep(relationships, i);
      var relationship := relationships[i];
      var child := relationship.source.classId;
      forall x { OneMoreEdge(relationships[..i], relationship, x, current); }
      if relationship.kind == Generalization && relationship.target.classId == current && child !in more {
        more := more + {child};
        queue := queue + [child];
      }
    }
    FullPrefix(relationships);
  }

  /** `_descendant_class_ids`: terminates on every graph and finds exactly the descendants. */
  method DescendantClassIds(relationships: seq<Relationship>, classId: ElementId) returns (descendants: set<ElementId>)
    ensures forall x :: x in descendants <==> IsDescendant(relationships, x, classId)
  {
    descendants := {};
    var frontier := [classId];
    ghost var sources := set r | r in relationships :: r.source.classId;
    hide IsDescendant;
    while frontier != []
      invariant descendants <= sources
      invariant forall x :: x in descendants ==> IsDescendant(relationships, x, classId)
      invariant forall x :: x in frontier ==> x == classId || x in descendants
      invariant forall c, p ::
        HasParent(relationships, c, p) && (p == classId || p in descendants) && p !in frontier ==> c in descendants
      decreases sources - descendants, |frontier|
    {
      var last := |frontier| - 1;
      var current := frontier[last];
      LastIsMember(frontier);
      var more, queue := CollectChildren(relationships, current, descendants, frontier[..last]);
      forall x | x in more - descendants
        ensures IsDescendant(relationships, x, classId) && x in sources
      {
        ChildIsDescendant(relationships, x, current, classId);
      }
      descendants, frontier := more, queue;
    }
    forall x | IsDescendant(relationships, x, classId) ensures x in descendants {
      DescendantIsIn(relationships, descendants, x, classId);
    }
  }

  lemma DescendantIsIn(relationships: seq<Relationship>, closed: set<ElementId>, x: ElementId, a: ElementId)
    requires forall c, p :: HasParent(relationships, c, p) && (p == a || p in closed) ==> c in closed
    requires IsDescendant(relationships, x, a)
    ensures x in closed
  {
    var n: nat :| 0 < n && DescendsIn(relationships, x, a, n);
    ClosedHasDescendants(relationships, closed, x, a, n);
  }

  // ---- gates -----------------------------------------------------------

  /** `_is_inheritance_root`. */
  predicate IsInheritanceRoot(model: Model, id: ElementId) {
    !IsSubclass(model.relationships, id)
  }

  /** A descendant of the class that the model does not hold. */
  ghost predicate HasDanglingDescendant(model: Model, id: ElementId) {
    exists x :: IsDescendant(model.relationships, x, id) && ClassById(model.classes, x).None?
  }

  /** The sort attribute is the class's own or, at an inheritance root, a descendant's. */
  ghost predicate SortAllowed(model: Model, c: UmlClass, attributeId: ElementId) {
    || IsAttributeOf(c, attributeId)
    || (IsInheritanceRoot(model, c.id)
        && exists x :: IsDescendant(model.relationships, x, c.id)
             && ClassById(model.classes, x).Some? && IsAttributeOf(ClassById(model.classes, x).value, attributeId))
  }

  /** `_validate_generation_profile`; `None` means the command passes. */
  ghost function ProfileGate(model: Model, id: ElementId, profile: Option<map<string, Json>>): Option<SubmitError> {
    if !IsClassId(model, id) && !IsAttributeId(model, id) then Some(UnknownElement)
    else if profile.None? || profile.value == map[] then None
    else
      var entry := JObject(map["profile" := JObject(profile.value)]);
      match ClassById(model.classes, id)
      case None =>
        (match ParseColumnProfile(entry)
         case Err(e) => Some(InvalidProfile(e))
         case Ok(_) => None)
      case Some(c) =>
        (match ParseTableProfile(entry)
         case Err(e) => Some(InvalidProfile(e))
         case Ok(parsed) =>
           if parsed.None? || parsed.value.defaultSort.None? then None
           else if IsInheritanceRoot(model, id) && HasDanglingDescendant(model, id) then Some(DanglingDescendant)
           else if SortAllowed(model, c, parsed.value.defaultSort.value.attributeId) then None
           else Some(SortAttributeElsewhere(parsed.value.defaultSort.value.attributeId)))
  }

  /** `_validate_relationship_update`. */
  function UpdateGate(model: Model, id: ElementId, source: Option<Multiplicity>, target: Option<Multiplicity>): Option<SubmitError> {
    match RelationshipById(model.relationships, id)
    case None => Some(UnknownRelationship)
    case Some(r) =>
      if (source.Some? || target.Some?) && r.kind == Generalization then Some(GeneralizationHasNoMultiplicities) else None
  }

  /** The gate in front of every command. */
  ghost function Gate(model: Model, command: Command): Option<SubmitError> {
    match command
    case SetGenerationProfile(id, profile) => ProfileGate(model, id, profile)
    case UpdateRelationship(id, _, source, target) => UpdateGate(model, id, source, target)
    case _ => None
  }

  method ValidateGenerationProfile(model: Model, id: ElementId, profile: Option<map<string, Json>>)
      returns (r: Option<SubmitError>)
    ensures r == ProfileGate(model, id, profile)
  {
    var target := ClassById(model.classes, id);
    if target.None? && !IsAttributeId(model, id) {
      return Some(UnknownElement);
    }
    if profile.None? || profile.value == map[] {
      return None;
    }
    var entry := JObject(map["profile" := JObject(profile.value)]);
    if target.None? {
      var column := ParseColumnProfile(entry);
      return if column.Err? then Some(InvalidProfile(column.error)) else None;
    }
    var parsed := ParseTableProfile(entry);
    if parsed.Err? {
      return Some(InvalidProfile(parsed.error));
    }
    if parsed.value.None? || parsed.value.value.defaultSort.None? {
      return None;
    }
    var attributeId := parsed.value.value.defaultSort.value.attributeId;
    hide ParseTableProfile, IsDescendant;
    r := CheckSort(model, target.value, attributeId);
  }

  /** The collection of allowed sort attributes over the class and its descendants. */
  method CheckSort(model: Model, c: UmlClass, attributeId: ElementId) returns (r: Option<SubmitError>)
    ensures r ==
      if IsInheritanceRoot(model, c.id) && HasDanglingDescendant(model, c.id) then Some(DanglingDescendant)
      else if SortAllowed(model, c, attributeId) then None
      else Some(SortAttributeElsewhere(attributeId))
  {
    hide IsDescendant;
    var allowed := AttributeIds(c);
    assert attributeId in allowed <==> IsAttributeOf(c, attributeId);
    if IsInheritanceRoot(model, c.id) {
      var pending := DescendantClassIds(model.relationships, c.id);
      ghost var descendants := pending;
      while pending != {}
        invariant pending <= descendants
        invariant forall x :: x in descendants && x !in pending ==> ClassById(model.classes, x).Some?
        invariant attributeId in allowed <==>
          || IsAttributeOf(c, attributeId)
          || exists x :: x in descendants && x !in pending && ClassById(model.classes, x).Some?
               && IsAttributeOf(ClassById(model.classes, x).value, attributeId)
      {
        var classId :| classId in pending;
        var descendant := ClassById(model.classes, classId);
        if descendant.None? {
          return Some(DanglingDescendant);
        }
        pending := pending - {classId};
        allowed := allowed + AttributeIds(descendant.value);
      }
    }
    return if attributeId in allowed then None else Some(SortAttributeElsewhere(attributeId));
  }
}
