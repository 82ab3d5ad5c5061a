/** The document after the removal stage of a reconciliation. */
module ReconcileTrim {
  import opened Text
  import opened Seqs
  import opened Uml
  import opened Calls
  import opened Translator
  import opened Reconcile
  import opened ReconcileMembers
  import opened ReconcileStages
  import opened ReconcileCalls
  import C = Commands
  import Runs = DocumentRuns

  // ---- which commands there are ----------------------------------------

  lemma {:induction false} DroppedAttributeMembers(normalize: Normalize, c: UmlClass, attributes: seq<UmlAttribute>, wanted: seq<Member>)
    ensures forall k :: k in DroppedAttributes(normalize, c, attributes, wanted) <==>
      exists a :: a in attributes && !IsKept(normalize, wanted, MemberOfAttribute(c, a)) && k == C.RemoveAttribute(c.id, a.id)
  {
    hide IsKept, MemberOfAttribute;
    if attributes != [] {
      LastIsMember(attributes);
      DroppedAttributeMembers(normalize, c, attributes[..|attributes| - 1], wanted);
    }
  }

  lemma {:induction false} DroppedOperationMembers(normalize: Normalize, c: UmlClass, operations: seq<UmlOperation>, wanted: seq<Member>)
    ensures forall k :: k in DroppedOperations(normalize, c, operations, wanted) <==>
      exists o :: o in operations && !IsKept(normalize, wanted, MemberOfOperation(c, o)) && k == C.RemoveOperation(c.id, o.id)
  {
    hide IsKept, MemberOfOperation;
    if operations != [] {
      LastIsMember(operations);
      DroppedOperationMembers(normalize, c, operations[..|operations| - 1], wanted);
    }
  }

  /** The member command stems from this desired class. */
  ghost predicate StemsFrom(normalize: Normalize, classes: seq<UmlClass>, d: Desired, k: C.Command) {
    ClassNamed(normalize, classes, d.name).Some? && k in MemberCommands(normalize, ClassNamed(normalize, classes, d.name).value, d)
  }

  lemma {:induction false} ClassRemovalMembers(normalize: Normalize, classes: seq<UmlClass>, desired: seq<Desired>)
    ensures forall k :: k in ClassRemovalCommands(normalize, classes, desired) <==>
      exists d :: d in desired && StemsFrom(normalize, classes, d, k)
  {
    hide ClassNamed, MemberCommands;
    if desired != [] {
      var d := desired[|desired| - 1];
      LastIsMember(desired);
      ClassRemovalMembers(normalize, classes, desired[..|desired| - 1]);
      var existing := ClassNamed(normalize, classes, d.name);
      var last := if existing.None? then [] else MemberCommands(normalize, existing.value, d);
      assert forall k :: k in last <==> StemsFrom(normalize, classes, d, k);
      assert ClassRemovalCommands(normalize, classes, desired) ==
        ClassRemovalCommands(normalize, classes, desired[..|desired| - 1]) + last;
      hide StemsFrom;
    }
  }

  ghost predicate IsUnmatched(normalize: Normalize, model: Model, links: seq<LinkArguments>, r: Relationship) {
    !IsMatched(normalize, model.classes, model.relationships, links, r.id)
  }

  lemma {:induction false} LinkRemovalMembers(normalize: Normalize, model: Model, links: seq<LinkArguments>, relationships: seq<Relationship>)
    ensures forall k :: k in LinkRemovalCommands(normalize, model, links, relationships) <==>
      exists r :: r in relationships && IsUnmatched(normalize, model, links, r) && k == C.RemoveRelationship(r.id)
  {
    hide IsMatched;
    if relationships != [] {
      LastIsMember(relationships);
      LinkRemovalMembers(normalize, model, links, relationships[..|relationships| - 1]);
    }
  }

  lemma MemberCommandKinds(normalize: Normalize, c: UmlClass, d: Desired, k: C.Command)
    requires k in MemberCommands(normalize, c, d)
    ensures k.RemoveAttribute? || k.RemoveOperation?
  {
    DroppedAttributeMembers(normalize, c, c.attributes, d.attributes);
    DroppedOperationMembers(normalize, c, c.operations, d.operations);
    hide DroppedAttributes, DroppedOperations;
  }

  /** The removal commands by kind. */
  lemma RemovalKinds(normalize: Normalize, model: Model, extracted: seq<Call>, k: C.Command)
    ensures var desired, links := DesiredClasses(normalize, extracted), DesiredLinks(extracted);
      k in RemovalCommands(normalize, model, extracted) <==>
        || (k.RemoveClass? && exists c :: c in model.classes && c.id == k.classId && DesiredNamed(normalize, desired, c.name).None?)
        || ((k.RemoveAttribute? || k.RemoveOperation?) && exists d :: d in desired && StemsFrom(normalize, model.classes, d, k))
        || (k.RemoveRelationship? && exists r ::
              r in model.relationships && IsUnmatched(normalize, model, links, r) && r.id == k.relationshipId)
  {
    var desired, links := DesiredClasses(normalize, extracted), DesiredLinks(extracted);
    RemoveClassMembers(normalize, model.classes, desired);
    ClassRemovalMembers(normalize, model.classes, desired);
    LinkRemovalMembers(normalize, model, links, model.relationships);
    hide RemoveClassCommands, ClassRemovalCommands, LinkRemovalCommands, DesiredClasses, DesiredLinks, DesiredNamed, IsMatched, MemberCommands,
         ClassNamed;
    forall d | d in desired && StemsFrom(normalize, model.classes, d, k) ensures k.RemoveAttribute? || k.RemoveOperation? {
      MemberCommandKinds(normalize, ClassNamed(normalize, model.classes, d.name).value, d, k);
    }
  }

  lemma RemovalsRemove(normalize: Normalize, model: Model, extracted: seq<Call>)
    ensures RemovesFrom(model, RemovalCommands(normalize, model, extracted))
  {
    forall k | k in RemovalCommands(normalize, model, extracted)
      ensures IsRemoval(k) && (k.RemoveClass? ==> IsClassId(model, k.classId))
    {
      RemovalKinds(normalize, model, extracted, k);
    }
    hide RemovalCommands;
  }

  // ---- classes ---------------------------------------------------------

  lemma SameClass(classes: seq<UmlClass>, c: UmlClass, x: UmlClass)
    requires ClassesDistinct(classes) && c in classes && x in classes && c.id == x.id
    ensures c == x
  {
    var i :| 0 <= i < |classes| && classes[i] == c;
    var j :| 0 <= j < |classes| && classes[j] == x;
  }

  /** Exactly the classes that are not extracted are removed. */
  lemma ClassGoes(normalize: Normalize, model: Model, extracted: seq<Call>, c: UmlClass)
    requires ClassesDistinct(model.classes) && c in model.classes
    ensures C.RemoveClass(c.id) in RemovalCommands(normalize, model, extracted) <==>
      DesiredNamed(normalize, DesiredClasses(normalize, extracted), c.name).None?
  {
    RemovalKinds(normalize, model, extracted, C.RemoveClass(c.id));
    hide RemovalCommands, DesiredClasses, DesiredNamed, ClassesDistinct;
    forall x | x in model.classes && x.id == c.id ensures x == c {
      SameClass(model.classes, x, c);
    }
  }

  /** The desired class that a member command for an existing class stems from. */
  lemma OneDesired(normalize: Normalize, model: Model, desired: seq<Desired>, c: UmlClass, d: Desired, x: Desired, k: C.Command)
    requires ClassesDistinct(model.classes) && ClassKeysDistinct(normalize, model.classes) && c in model.classes
    requires DesiredKeysDistinct(normalize, desired) && d in desired && normalize(d.name) == normalize(c.name)
    requires x in desired && StemsFrom(normalize, model.classes, x, k) && IsFor(k, c.id)
    ensures x == d
  {
    var y := ClassNamed(normalize, model.classes, x.name).value;
    DroppedAttributeMembers(normalize, y, y.attributes, x.attributes);
    DroppedOperationMembers(normalize, y, y.operations, x.operations);
    hide ClassNamed, DroppedAttributes, DroppedOperations, IsKept, MemberOfAttribute, MemberOfOperation, ClassesDistinct,
         ClassKeysDistinct, DesiredKeysDistinct;
    SameClass(model.classes, c, y);
    DesiredIsNamed(normalize, desired, d, c.name);
    DesiredIsNamed(normalize, desired, x, c.name);
  }

  predicate IsFor(k: C.Command, id: ElementId) {
    (k.RemoveAttribute? || k.RemoveOperation?) && k.classId == id
  }

  lemma SameAttribute(c: UmlClass, a: UmlAttribute, b: UmlAttribute)
    requires Runs.OwnAttributesDistinct(c) && a in c.attributes && b in c.attributes && a.id == b.id
    ensures a == b
  {
    var i :| 0 <= i < |c.attributes| && c.attributes[i] == a;
    var j :| 0 <= j < |c.attributes| && c.attributes[j] == b;
  }

  lemma SameOperation(c: UmlClass, a: UmlOperation, b: UmlOperation)
    requires OperationIdsDistinct(c) && a in c.operations && b in c.operations && a.id == b.id
    ensures a == b
  {
    var i :| 0 <= i < |c.operations| && c.operations[i] == a;
    var j :| 0 <= j < |c.operations| && c.operations[j] == b;
  }

  /** The member commands for an existing class are those of its desired class. */
  lemma MemberGoes(normalize: Normalize, model: Model, extracted: seq<Call>, c: UmlClass, d: Desired, k: C.Command)
    requires ClassesDistinct(model.classes) && ClassKeysDistinct(normalize, model.classes) && c in model.classes
    requires d in DesiredClasses(normalize, extracted) && normalize(d.name) == normalize(c.name) && IsFor(k, c.id)
    ensures k in RemovalCommands(normalize, model, extracted) <==> k in MemberCommands(normalize, c, d)
  {
    RemovalKinds(normalize, model, extracted, k);
    DesiredAreDistinct(normalize, extracted);
    ClassIsNamed(normalize, model.classes, c, d.name);
    var desired := DesiredClasses(normalize, extracted);
    hide RemovalCommands, DesiredClasses, ClassNamed, MemberCommands, ClassesDistinct, ClassKeysDistinct, DesiredKeysDistinct;
    assert StemsFrom(normalize, model.classes, d, k) <==> k in MemberCommands(normalize, c, d);
    forall x | x in desired && StemsFrom(normalize, model.classes, x, k) ensures x == d {
      OneDesired(normalize, model, desired, c, d, x, k);
    }
    hide StemsFrom;
  }

  lemma AttributeGoes(normalize: Normalize, c: UmlClass, d: Desired, a: UmlAttribute)
    requires Runs.OwnAttributesDistinct(c) && a in c.attributes
    ensures C.RemoveAttribute(c.id, a.id) in MemberCommands(normalize, c, d) <==>
      !IsKept(normalize, d.attributes, MemberOfAttribute(c, a))
  {
    DroppedAttributeMembers(normalize, c, c.attributes, d.attributes);
    DroppedOperationMembers(normalize, c, c.operations, d.operations);
    hide DroppedAttributes, DroppedOperations, IsKept, MemberOfAttribute, MemberOfOperation, Runs.OwnAttributesDistinct;
    forall b | b in c.attributes && b.id == a.id ensures b == a {
      SameAttribute(c, a, b);
    }
  }

  lemma OperationGoes(normalize: Normalize, c: UmlClass, d: Desired, o: UmlOperation)
    requires OperationIdsDistinct(c) && o in c.operations
    ensures C.RemoveOperation(c.id, o.id) in MemberCommands(normalize, c, d) <==>
      !IsKept(normalize, d.operations, MemberOfOperation(c, o))
  {
    DroppedAttributeMembers(normalize, c, c.attributes, d.attributes);
    DroppedOperationMembers(normalize, c, c.operations, d.operations);
    hide DroppedAttributes, DroppedOperations, IsKept, MemberOfAttribute, MemberOfOperation, OperationIdsDistinct;
    forall b | b in c.operations && b.id == o.id ensures b == o {
      SameOperation(c, o, b);
    }
  }

  lemma {:induction false} FilteredAttributes(
      normalize: Normalize, c: UmlClass, attributes: seq<UmlAttribute>, wanted: seq<Member>, keep: UmlAttribute -> bool)
    requires forall a :: a in attributes ==> keep(a) == IsKept(normalize, wanted, MemberOfAttribute(c, a))
    ensures MembersOfAttributes(c, C.Filter(attributes, keep)) == Kept(normalize, MembersOfAttributes(c, attributes), wanted)
  {
    hide IsKept, MemberOfAttribute;
    if attributes == [] {
      assert MembersOfAttributes(c, attributes) == [];
    } else {
      var n := |attributes| - 1;
      LastIsMember(attributes);
      FilteredAttributes(normalize, c, attributes[..n], wanted, keep);
      assert MembersOfAttributes(c, attributes)[..n] == MembersOfAttributes(c, attributes[..n]);
      var front := C.Filter(attributes[..n], keep);
      assert MembersOfAttributes(c, front + [attributes[n]]) == MembersOfAttributes(c, front) + [MemberOfAttribute(c, attributes[n])];
      assert front + [] == front;
    }
  }

  lemma {:induction false} FilteredOperations(
      normalize: Normalize, c: UmlClass, operations: seq<UmlOperation>, wanted: seq<Member>, keep: UmlOperation -> bool)
    requires forall o :: o in operations ==> keep(o) == IsKept(normalize, wanted, MemberOfOperation(c, o))
    ensures MembersOfOperations(c, C.Filter(operations, keep)) == Kept(normalize, MembersOfOperations(c, operations), wanted)
  {
    hide IsKept, MemberOfOperation;
    if operations == [] {
      assert MembersOfOperations(c, operations) == [];
    } else {
      var n := |operations| - 1;
      LastIsMember(operations);
      FilteredOperations(normalize, c, operations[..n], wanted, keep);
      assert MembersOfOperations(c, operations)[..n] == MembersOfOperations(c, operations[..n]);
      var front := C.Filter(operations[..n], keep);
      assert MembersOfOperations(c, front + [operations[n]]) == MembersOfOperations(c, front) + [MemberOfOperation(c, operations[n])];
      assert front + [] == front;
    }
  }

  lemma SameHeader(c: UmlClass, x: UmlClass, attributes: seq<UmlAttribute>, operations: seq<UmlOperation>)
    requires x.name == c.name
    ensures MembersOfAttributes(x, attributes) == MembersOfAttributes(c, attributes)
    ensures MembersOfOperations(x, operations) == MembersOfOperations(c, operations)
  {
    hide TypeText, ReturnText;
  }

  /** An extracted class keeps exactly the members that are wanted as they are. */
  lemma TrimmedMembers(normalize: Normalize, model: Model, extracted: seq<Call>, c: UmlClass, d: Desired)
    requires ModelIsReady(normalize, model) && c in model.classes
    requires d in DesiredClasses(normalize, extracted) && normalize(d.name) == normalize(c.name)
    ensures var x := TrimClass(c, RemovalCommands(normalize, model, extracted));
      && AttributeMembers(x) == Kept(normalize, AttributeMembers(c), d.attributes)
      && OperationMembers(x) == Kept(normalize, OperationMembers(c), d.operations)
  {
    var commands := RemovalCommands(normalize, model, extracted);
    var x := TrimClass(c, commands);
    hide RemovalCommands, DesiredClasses, MemberCommands, Kept, IsKept, MemberOfAttribute, MemberOfOperation, MembersOfAttributes,
         MembersOfOperations, AttributeMembers, OperationMembers, NoParallels, LinksDistinct, NoDanglingEnds, ClassKeysDistinct,
         ClassesDistinct, Runs.OwnAttributesDistinct, OperationIdsDistinct, DistinctKeys, C.Filter;
    assert ClassIsReady(normalize, c);
    forall a | a in c.attributes
      ensures C.RemoveAttribute(c.id, a.id) in commands <==> !IsKept(normalize, d.attributes, MemberOfAttribute(c, a))
    {
      MemberGoes(normalize, model, extracted, c, d, C.RemoveAttribute(c.id, a.id));
      AttributeGoes(normalize, c, d, a);
    }
    forall o | o in c.operations
      ensures C.RemoveOperation(c.id, o.id) in commands <==> !IsKept(normalize, d.operations, MemberOfOperation(c, o))
    {
      MemberGoes(normalize, model, extracted, c, d, C.RemoveOperation(c.id, o.id));
      OperationGoes(normalize, c, d, o);
    }
    MembersAre(c);
    MembersAre(x);
    SameHeader(c, x, x.attributes, x.operations);
    FilteredAttributes(normalize, c, c.attributes, d.attributes, (a: UmlAttribute) => C.RemoveAttribute(c.id, a.id) !in commands);
    FilteredOperations(normalize, c, c.operations, d.operations, (o: UmlOperation) => C.RemoveOperation(c.id, o.id) !in commands);
  }

  // ---- links -----------------------------------------------------------

  lemma SameKeyDesired(normalize: Normalize, desired: seq<Desired>, a: string, b: string)
    requires normalize(a) == normalize(b)
    ensures DesiredNamed(normalize, desired, a).Some? <==> DesiredNamed(normalize, desired, b).Some?
  {
  }

  /** A matched relationship joins two extracted classes of the document. */
  lemma MatchedEnds(normalize: Normalize, model: Model, extracted: seq<Call>, r: Relationship)
    requires ModelIsReady(normalize, model) && ExtractionIsReady(normalize, extracted) && r in model.relationships
    requires IsMatched(normalize, model.classes, model.relationships, DesiredLinks(extracted), r.id)
    ensures C.RemoveClass(r.source.classId) !in RemovalCommands(normalize, model, extracted)
    ensures C.RemoveClass(r.target.classId) !in RemovalCommands(normalize, model, extracted)
  {
    var links, desired := DesiredLinks(extracted), DesiredClasses(normalize, extracted);
    var link :| link in links && IsMatchedBy(normalize, model.classes, model.relationships, link, r.id);
    hide DesiredLinks, DesiredClasses, RemovalCommands, DesiredNamed, NoParallels, NoDanglingEnds, ClassKeysDistinct, ClassesDistinct,
         ParallelLinks, DesiredIsReady, ClassIsReady;
    assert LinkIsReady(normalize, desired, link);
    var source, target := ClassNamed(normalize, model.classes, link.sourceName).value, ClassNamed(normalize, model.classes, link.targetName).value;
    var current := CurrentOf(normalize, model.classes, model.relationships, link).value;
    SameRelationship(model.relationships, r, current);
    ClassGoes(normalize, model, extracted, source);
    ClassGoes(normalize, model, extracted, target);
    SameKeyDesired(normalize, desired, source.name, link.sourceName);
    SameKeyDesired(normalize, desired, target.name, link.targetName);
  }

  lemma SameRelationship(relationships: seq<Relationship>, a: Relationship, b: Relationship)
    requires LinksDistinct(relationships) && a in relationships && b in relationships && a.id == b.id
    ensures a == b
  {
    var i :| 0 <= i < |relationships| && relationships[i] == a;
    var j :| 0 <= j < |relationships| && relationships[j] == b;
  }

  /** Exactly the matched relationships stay. */
  lemma LinkStaysIfMatched(normalize: Normalize, model: Model, extracted: seq<Call>, r: Relationship)
    requires ModelIsReady(normalize, model) && ExtractionIsReady(normalize, extracted) && r in model.relationships
    ensures LinkStays(r, RemovalCommands(normalize, model, extracted)) <==>
      IsMatched(normalize, model.classes, model.relationships, DesiredLinks(extracted), r.id)
  {
    var links := DesiredLinks(extracted);
    RemovalKinds(normalize, model, extracted, C.RemoveRelationship(r.id));
    forall x | x in model.relationships && x.id == r.id ensures x == r {
      SameRelationship(model.relationships, x, r);
    }
    if IsMatched(normalize, model.classes, model.relationships, links, r.id) {
      MatchedEnds(normalize, model, extracted, r);
    }
    hide RemovalCommands, DesiredLinks, DesiredClasses, IsMatched, ExtractionIsReady, ModelIsReady;
  }
}
