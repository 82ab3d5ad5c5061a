/** What the XMI 1.1 reader finds in an exported document, element by element. */
module XmiReads {
  import opened Text
  import opened Seqs
  import opened Uml
  import opened Multiplicities
  import opened Schema
  import opened Documents
  import opened Xml
  import opened XmiNames
  import opened XmiExport
  import opened XmiImport

  // ---- what is read, as a function of the model ------------------------

  function RawAttributeOf(model: Model, render: Render, order: seq<PrimitiveType>, a: UmlAttribute): RawAttribute {
    RawAttribute(Clean(a.name), NonEmpty(Some(Clean(TypeName(model, a.typ)))), Some(TypeRef(render, order, a.typ)),
                 Some(VisibilityText(a.visibility)))
  }

  function RawAttributesOf(model: Model, render: Render, order: seq<PrimitiveType>, attributes: seq<UmlAttribute>): seq<RawAttribute> {
    seq(|attributes|, i requires 0 <= i < |attributes| => RawAttributeOf(model, render, order, attributes[i]))
  }

  function RawOperationsOf(operations: seq<UmlOperation>): seq<RawOperation> {
    seq(|operations|, i requires 0 <= i < |operations| =>
      RawOperation(Clean(operations[i].name), Some(VisibilityText(operations[i].visibility))))
  }

  function RawClassOf(model: Model, render: Render, order: seq<PrimitiveType>, c: UmlClass): RawClass {
    RawClass(EaId(render, c.id), Clean(c.name), RawAttributesOf(model, render, order, c.attributes),
             RawOperationsOf(c.operations), None, Some(VisibilityText(c.visibility)), false)
  }

  function CleanNames(literals: seq<EnumerationLiteral>): seq<string> {
    seq(|literals|, i requires 0 <= i < |literals| => Clean(literals[i].name))
  }

  function RawEnumOf(render: Render, e: Enumeration): RawClass {
    RawClass(EaId(render, e.id), Clean(e.name), [], [], Some(CleanNames(e.literals)), Some("public"), false)
  }

  function RawColumnsOf(tables: JoinTables, id: ElementId): seq<RawAttribute> {
    if id in tables then
      seq(|tables[id].columns|, i requires 0 <= i < |tables[id].columns| =>
        RawAttribute(Clean(tables[id].columns[i].name), Some(ColumnTypeText(tables[id].columns[i].typ)), None, Some("public")))
    else []
  }

  function RawJoinOf(render: Render, tables: JoinTables, r: Relationship, name: string): RawClass {
    RawClass(EaId(render, JoinKey(r)), Clean(name), RawColumnsOf(tables, r.id), [], None, Some("public"), true)
  }

  function RawEndOf(render: Render, end: RelationshipEnd, aggregation: string): RawEnd {
    RawEnd(Some(EaId(render, end.classId)), Some(FormatMultiplicity(end.multiplicity)), aggregation != "none",
           if aggregation == "composite" then Composition else Aggregation, NonEmpty(Some(Clean(TextOr(end.role, "")))))
  }

  function RawAssociationOf(render: Render, r: Relationship): RawAssociation {
    RawAssociation(
      NonEmpty(Some(Clean(TextOr(r.name, "")))),
      [RawEndOf(render, r.source, SourceAggregation(r.kind)), RawEndOf(render, r.target, "none")],
      if IsJoin(r) then Some(EaId(render, JoinKey(r))) else None)
  }

  function RawGeneralizationOf(render: Render, r: Relationship): RawGeneralization {
    RawGeneralization(Some(EaId(render, r.source.classId)), Some(EaId(render, r.target.classId)))
  }

  // ---- subtrees without a tag ------------------------------------------

  lemma FindLists(a: Node, b: Node, c: Node, tag: string)
    ensures FindAll([], tag) == []
    ensures FindAll([a], tag) == Find(a, tag)
    ensures FindAll([a, b], tag) == Find(a, tag) + Find(b, tag)
    ensures FindAll([a, b, c], tag) == Find(a, tag) + Find(b, tag) + Find(c, tag)
  {
    assert [a][..0] == [] && [a, b][..1] == [a] && [a, b, c][..2] == [a, b];
    hide Find;
  }

  lemma LeafAvoids(el: Node, tag: string)
    requires el.children == [] && el.tag != tag
    ensures Find(el, tag) == []
  {
  }

  lemma BranchAvoids(el: Node, tag: string)
    requires el.tag != tag && forall x :: x in el.children ==> Find(x, tag) == []
    ensures Find(el, tag) == []
  {
    FindNone(el.children, tag);
  }

  /** The tags that readers search for in whole subtrees. */
  predicate IsSought(tag: string) {
    tag in {"Stereotype", "Diagram", "DiagramElement"}
  }

  lemma TagsAvoid(tags: seq<(string, string)>, tag: string)
    requires IsSought(tag)
    ensures Find(Tags(tags), tag) == []
  {
    forall x | x in TagNodes(tags) ensures Find(x, tag) == [] {
      LeafAvoids(x, tag);
    }
    BranchAvoids(Tags(tags), tag);
  }

  lemma AttributeAvoids(model: Model, render: Render, order: seq<PrimitiveType>, a: UmlAttribute, tag: string)
    requires IsSought(tag)
    ensures Find(AttributeNode(model, render, order, a), tag) == []
  {
    var el := AttributeNode(model, render, order, a);
    TagsAvoid([("type", Clean(TypeName(model, a.typ)))], tag);
    hide Find, Tags;
    LeafAvoids(Node("Expression", map[], []), tag);
    BranchAvoids(el.children[1], tag);
    LeafAvoids(Node("Classifier", map["xmi.idref" := TypeRef(render, order, a.typ)], []), tag);
    BranchAvoids(el.children[2], tag);
    BranchAvoids(el, tag);
  }

  lemma ClassifierAvoids(name: string, xid: string, visibility: string, head: seq<Node>, features: seq<Node>, tag: string)
    requires IsSought(tag)
    requires forall x :: x in features ==> Find(x, tag) == []
    requires forall x :: x in head ==> Find(x, tag) == []
    ensures Find(ClassifierNode(name, xid, visibility, head, features), tag) == []
  {
    hide Find;
    var holder := Node("Classifier.feature", map[], features);
    BranchAvoids(holder, tag);
    var el := ClassifierNode(name, xid, visibility, head, features);
    forall x | x in el.children ensures Find(x, tag) == [] {
      assert x in head || x == holder;
    }
    BranchAvoids(el, tag);
  }

  lemma ClassAvoids(model: Model, render: Render, order: seq<PrimitiveType>, c: UmlClass, tag: string)
    requires IsSought(tag)
    ensures Find(ClassNode(model, render, order, c), tag) == []
  {
    hide Find, Tags, IsSought, AttributeNode;
    var features := AttributeNodes(model, render, order, c.attributes) + OperationNodes(c.operations);
    forall x | x in features ensures Find(x, tag) == [] {
      if x in AttributeNodes(model, render, order, c.attributes) {
        var i :| 0 <= i < |c.attributes| && x == AttributeNode(model, render, order, c.attributes[i]);
        AttributeAvoids(model, render, order, c.attributes[i], tag);
      } else {
        OperationAvoids(c.operations, x, tag);
      }
    }
    TagsAvoid([("ea_stype", "Class")], tag);
    ClassifierAvoids(Clean(c.name), EaId(render, c.id), VisibilityText(c.visibility), [Tags([("ea_stype", "Class")])], features, tag);
  }

  lemma OperationAvoids(operations: seq<UmlOperation>, x: Node, tag: string)
    requires x in OperationNodes(operations) && IsSought(tag)
    ensures Find(x, tag) == []
  {
    LeafAvoids(x, tag);
  }

  // ---- classes ---------------------------------------------------------

  lemma AttributeParts(model: Model, render: Render, order: seq<PrimitiveType>, a: UmlAttribute)
    ensures var el := AttributeNode(model, render, order, a);
      && Kid(el, "StructuralFeature.type") == Some(el.children[2])
      && Tagged(el) == map["type" := Clean(TypeName(model, a.typ))]
  {
    var el := AttributeNode(model, render, order, a);
    var tags := [("type", Clean(TypeName(model, a.typ)))];
    TaggedFirst(el, tags);
    PairMaps(tags[0], tags[0], tags[0]);
    assert KidIn(el.children[1..], "StructuralFeature.type") == KidIn(el.children[2..], "StructuralFeature.type");
    hide PairMap, Tagged;
  }

  lemma TypeRefIsText(render: Render, order: seq<PrimitiveType>, t: AttributeType)
    ensures TypeRef(render, order, t) != ""
  {
  }

  lemma AttributeReads(model: Model, render: Render, order: seq<PrimitiveType>, a: UmlAttribute)
    ensures ReadAttribute(AttributeNode(model, render, order, a)) == RawAttributeOf(model, render, order, a)
  {
    var el := AttributeNode(model, render, order, a);
    AttributeParts(model, render, order, a);
    TypeRefIsText(render, order, a.typ);
    var inner := Node("Classifier", map["xmi.idref" := TypeRef(render, order, a.typ)], []);
    assert el.children[2].children == [inner];
    assert IdrefBelow(inner) == Some(TypeRef(render, order, a.typ));
    assert IdrefBelowAll([inner]) == Some(TypeRef(render, order, a.typ)) by {
      assert [inner][..0] == [];
    }
    hide Kid, Tagged, TypeRef, Clean, VisibilityText;
  }

  lemma ReadAttributesConcat(a: seq<Node>, b: seq<Node>)
    requires forall x :: x in b ==> x.tag != "Attribute"
    ensures ReadAttributes(a + b) == ReadAttributes(a)
  {
    if b == [] {
      assert a + b == a;
    } else {
      var n := |b| - 1;
      assert (a + b)[..|a + b| - 1] == a + b[..n];
      ReadAttributesConcat(a, b[..n]);
    }
  }

  lemma ReadAttributesStep(front: seq<Node>, last: Node)
    ensures ReadAttributes(front + [last]) == ReadAttributes(front) + if last.tag == "Attribute" then [ReadAttribute(last)] else []
  {
    assert (front + [last])[..|front|] == front;
  }

  lemma AttributeTag(model: Model, render: Render, order: seq<PrimitiveType>, a: UmlAttribute)
    ensures AttributeNode(model, render, order, a).tag == "Attribute"
  {
  }

  lemma {:induction false} AttributesRead(model: Model, render: Render, order: seq<PrimitiveType>, attributes: seq<UmlAttribute>)
    ensures ReadAttributes(AttributeNodes(model, render, order, attributes)) == RawAttributesOf(model, render, order, attributes)
  {
    hide ReadAttribute, RawAttributeOf, AttributeNode;
    if attributes != [] {
      hide ReadAttributes;
      var n := |attributes| - 1;
      AttributesRead(model, render, order, attributes[..n]);
      var last := AttributeNode(model, render, order, attributes[n]);
      AttributeTag(model, render, order, attributes[n]);
      AttributeReads(model, render, order, attributes[n]);
      assert AttributeNodes(model, render, order, attributes) == AttributeNodes(model, render, order, attributes[..n]) + [last];
      ReadAttributesStep(AttributeNodes(model, render, order, attributes[..n]), last);
    }
  }

  lemma {:induction false} NoOperationsRead(front: seq<Node>)
    requires forall x :: x in front ==> x.tag != "Operation"
    ensures ReadOperations(front) == []
  {
    if front != [] {
      NoOperationsRead(front[..|front| - 1]);
    }
  }

  lemma OneOperationRead(front: seq<Node>, o: UmlOperation)
    ensures ReadOperations(front + [OperationNode(o)]) == ReadOperations(front) + RawOperationsOf([o])
  {
    assert (front + [OperationNode(o)])[..|front|] == front;
    assert [o][..0] == [];
  }

  lemma {:induction false} OperationsRead(front: seq<Node>, operations: seq<UmlOperation>)
    requires forall x :: x in front ==> x.tag != "Operation"
    ensures ReadOperations(front + OperationNodes(operations)) == RawOperationsOf(operations)
  {
    hide ReadOperations, OperationNode;
    if operations == [] {
      assert front + OperationNodes([]) == front;
      NoOperationsRead(front);
    } else {
      var n := |operations| - 1;
      OperationsRead(front, operations[..n]);
      OneOperationRead(front + OperationNodes(operations[..n]), operations[n]);
      assert front + OperationNodes(operations) == front + OperationNodes(operations[..n]) + [OperationNode(operations[n])];
      assert [operations[n]][..0] == [];
    }
  }

  lemma ClassifierAttributes(name: string, xid: string, visibility: string, head: seq<Node>, features: seq<Node>)
    ensures var el := ClassifierNode(name, xid, visibility, head, features);
      && GetOr(el, "name", "") == name && GetOr(el, "xmi.id", "") == xid
      && Get(el, "visibility") == Some(visibility) && Get(el, "isRoot") == Some("false")
  {
  }

  /** Where the parts of a classifier element are found. */
  lemma ClassifierParts(
      name: string, xid: string, visibility: string, tags: seq<(string, string)>, more: seq<Node>, features: seq<Node>)
    requires forall x :: x in more ==> x.tag == "ModelElement.stereotype"
    ensures var el := ClassifierNode(name, xid, visibility, [Tags(tags)] + more, features);
      Tagged(el) == PairMap(tags) && Features(el) == features
  {
    hide PairMap, TagNodes;
    var el := ClassifierNode(name, xid, visibility, [Tags(tags)] + more, features);
    var holder := Node("Classifier.feature", map[], features);
    TaggedFirst(el, tags);
    SkipKids([Tags(tags)] + more, holder);
    hide Tagged, KidIn;
  }

  lemma SkipKids(head: seq<Node>, holder: Node)
    requires forall x :: x in head ==> x.tag != holder.tag
    ensures KidIn(head + [holder], holder.tag) == Some(holder)
  {
    if head != [] {
      assert (head + [holder])[1..] == head[1..] + [holder];
      SkipKids(head[1..], holder);
    }
  }

  lemma ClassTags()
    ensures PairMap([("ea_stype", "Class")]) == map["ea_stype" := "Class"]
  {
    PairMaps(("ea_stype", "Class"), ("", ""), ("", ""));
    hide PairMap;
  }

  lemma FeaturesRead(model: Model, render: Render, order: seq<PrimitiveType>, c: UmlClass)
    ensures var features := AttributeNodes(model, render, order, c.attributes) + OperationNodes(c.operations);
      && ReadAttributes(features) == RawAttributesOf(model, render, order, c.attributes)
      && ReadOperations(features) == RawOperationsOf(c.operations)
  {
    ReadAttributesConcat(AttributeNodes(model, render, order, c.attributes), OperationNodes(c.operations));
    AttributesRead(model, render, order, c.attributes);
    OperationsRead(AttributeNodes(model, render, order, c.attributes), c.operations);
  }

  lemma ClassHeader(model: Model, render: Render, order: seq<PrimitiveType>, c: UmlClass)
    ensures var el := ClassNode(model, render, order, c);
      && Tagged(el) == map["ea_stype" := "Class"]
      && Features(el) == AttributeNodes(model, render, order, c.attributes) + OperationNodes(c.operations)
      && FirstStereotype(el) == ""
  {
    hide AttributeNodes, OperationNodes, Tagged, Features, PairMap, Find;
    var tags := [("ea_stype", "Class")];
    assert [Tags(tags)] + [] == [Tags(tags)];
    ClassifierParts(Clean(c.name), EaId(render, c.id), VisibilityText(c.visibility), tags, [],
                    AttributeNodes(model, render, order, c.attributes) + OperationNodes(c.operations));
    ClassTags();
    ClassAvoids(model, render, order, c, "Stereotype");
  }

  /** The tags and stereotype of an ordinary class. */
  lemma PlainClassIsNoEnumeration(el: Node)
    requires Tagged(el) == map["ea_stype" := "Class"] && FirstStereotype(el) == ""
    ensures !IsEnumerationClass(el) && TagOr(Tagged(el), "ea_stype") != Some("EAStub")
    ensures TagOr(Tagged(el), "modelia_synthetic").None?
  {
    hide Tagged, FirstStereotype;
    assert Lower("") == "";
    assert "modelia_synthetic" != "ea_stype" by { assert "modelia_synthetic"[0] == 'm' && "ea_stype"[0] == 'e'; }
  }

  /** A class comes back with its cleaned names and type references, unless it is named like the root class. */
  lemma ClassReads(model: Model, render: Render, order: seq<PrimitiveType>, c: UmlClass)
    ensures ReadClass(ClassNode(model, render, order, c)) ==
      if Clean(c.name) == ROOT_CLASS then None else Some(RawClassOf(model, render, order, c))
  {
    var el := ClassNode(model, render, order, c);
    ClassHeader(model, render, order, c);
    ClassifierAttributes(Clean(c.name), EaId(render, c.id), VisibilityText(c.visibility), [Tags([("ea_stype", "Class")])],
                         AttributeNodes(model, render, order, c.attributes) + OperationNodes(c.operations));
    FeaturesRead(model, render, order, c);
    hide AttributeNodes, OperationNodes, ReadAttributes, ReadOperations, Tagged, Features, Get, GetOr,
         VisibilityText, EaId, Clean, IsEnumerationClass, FirstStereotype, ClassifierNode, Tags;
    PlainClassIsNoEnumeration(el);
    hide TagOr;
  }

  // ---- enumerations ----------------------------------------------------

  lemma {:induction false} LiteralsRead(literals: seq<EnumerationLiteral>)
    ensures ReadLiterals(LiteralNodes(literals)) == CleanNames(literals)
    ensures ReadOperations(LiteralNodes(literals)) == []
  {
    hide Clean;
    if literals != [] {
      var n := |literals| - 1;
      LiteralsRead(literals[..n]);
      assert LiteralNodes(literals)[..n] == LiteralNodes(literals[..n]);
    }
  }

  lemma EnumerationHeader(render: Render, e: Enumeration)
    ensures var el := EnumerationNode(render, e);
      && Tagged(el) == map["ea_stype" := "Enumeration"] && Features(el) == LiteralNodes(e.literals)
      && GetOr(el, "name", "") == Clean(e.name) && GetOr(el, "xmi.id", "") == EaId(render, e.id)
      && Get(el, "visibility") == Some("public") && Get(el, "isRoot") == Some("false")
  {
    hide Clean, EaId, LiteralNodes, Tagged, Features, PairMap, Tags;
    var stereotype := Node("ModelElement.stereotype", map[], [Node("Stereotype", map["name" := "enumeration"], [])]);
    var tags := [("ea_stype", "Enumeration")];
    assert [Tags(tags)] + [stereotype] == [Tags(tags), stereotype];
    ClassifierParts(Clean(e.name), EaId(render, e.id), "public", tags, [stereotype], LiteralNodes(e.literals));
    ClassifierAttributes(Clean(e.name), EaId(render, e.id), "public", [Tags(tags), stereotype], LiteralNodes(e.literals));
    PairMaps(tags[0], tags[0], tags[0]);
    hide ClassifierNode, Get, GetOr;
  }

  lemma EnumerationReads(render: Render, e: Enumeration)
    ensures ReadClass(EnumerationNode(render, e)) ==
      if Clean(e.name) == ROOT_CLASS then None else Some(RawEnumOf(render, e))
  {
    hide EnumerationNode, Tagged, Features, Get, GetOr, Clean, EaId, LiteralNodes, CleanNames, ReadLiterals, ReadOperations, FirstStereotype;
    EnumerationHeader(render, e);
    LiteralsRead(e.literals);
    assert "modelia_synthetic" != "ea_stype" by { assert "modelia_synthetic"[0] == 'm' && "ea_stype"[0] == 'e'; }
  }

  // ---- join classes ----------------------------------------------------

  lemma ColumnReads(column: Column)
    ensures ReadAttribute(ColumnNode(column)) ==
      RawAttribute(Clean(column.name), Some(ColumnTypeText(column.typ)), None, Some("public"))
  {
    hide Clean;
    var tags := [("type", ColumnTypeText(column.typ))];
    TaggedFirst(ColumnNode(column), tags);
    PairMaps(tags[0], tags[0], tags[0]);
    hide PairMap, Tagged;
  }

  lemma {:induction false} ColumnListReads(columns: seq<Column>, nodes: seq<Node>, expected: seq<RawAttribute>)
    requires |nodes| == |columns| == |expected|
    requires forall i :: 0 <= i < |columns| ==> nodes[i] == ColumnNode(columns[i])
    requires forall i :: 0 <= i < |columns| ==>
      expected[i] == RawAttribute(Clean(columns[i].name), Some(ColumnTypeText(columns[i].typ)), None, Some("public"))
    ensures ReadAttributes(nodes) == expected && ReadOperations(nodes) == []
  {
    hide Clean, ColumnTypeText, ReadAttribute;
    if columns != [] {
      var n := |columns| - 1;
      ColumnListReads(columns[..n], nodes[..n], expected[..n]);
      ColumnReads(columns[n]);
      assert nodes[n].tag == "Attribute";
      assert expected == expected[..n] + [expected[n]];
    }
  }

  lemma ColumnsRead(tables: JoinTables, id: ElementId)
    ensures ReadAttributes(ColumnNodes(tables, id)) == RawColumnsOf(tables, id)
    ensures ReadOperations(ColumnNodes(tables, id)) == []
  {
    hide ReadAttributes, ReadOperations, ColumnNode;
    if id in tables {
      ColumnListReads(tables[id].columns, ColumnNodes(tables, id), RawColumnsOf(tables, id));
    } else {
      ColumnListReads([], [], []);
    }
  }

  lemma ColumnsAvoid(tables: JoinTables, id: ElementId, tag: string)
    requires IsSought(tag)
    ensures forall x :: x in ColumnNodes(tables, id) ==> Find(x, tag) == []
  {
    hide Find, Tags;
    forall x | x in ColumnNodes(tables, id) ensures Find(x, tag) == [] {
      var i :| 0 <= i < |tables[id].columns| && x == ColumnNode(tables[id].columns[i]);
      TagsAvoid([("type", ColumnTypeText(tables[id].columns[i].typ))], tag);
      BranchAvoids(x, tag);
    }
  }

  function JoinTags(render: Render, r: Relationship): seq<(string, string)> {
    [("ea_stype", "Class"), ("conID", EaId(render, r.id)), ("modelia_synthetic", "join_table")]
  }

  lemma JoinAvoids(render: Render, tables: JoinTables, r: Relationship, name: string, tag: string)
    requires IsSought(tag)
    ensures Find(JoinClassNode(render, tables, r, name), tag) == []
  {
    hide Find, Tags, EaId, Clean, ColumnNodes, IsSought;
    TagsAvoid(JoinTags(render, r), tag);
    ColumnsAvoid(tables, r.id, tag);
    ClassifierAvoids(Clean(name), EaId(render, JoinKey(r)), "public", [Tags(JoinTags(render, r))], ColumnNodes(tables, r.id), tag);
  }

  lemma JoinHeader(render: Render, tables: JoinTables, r: Relationship, name: string)
    ensures var el := JoinClassNode(render, tables, r, name);
      && TagOr(Tagged(el), "ea_stype") == Some("Class") && TagOr(Tagged(el), "modelia_synthetic") == Some("join_table")
      && Features(el) == ColumnNodes(tables, r.id)
      && GetOr(el, "name", "") == Clean(name) && GetOr(el, "xmi.id", "") == EaId(render, JoinKey(r))
      && Get(el, "visibility") == Some("public") && Get(el, "isRoot") == Some("false")
  {
    hide Clean, EaId, ColumnNodes, Tagged, Features, PairMap, Tags;
    var tags := JoinTags(render, r);
    assert [Tags(tags)] + [] == [Tags(tags)];
    ClassifierParts(Clean(name), EaId(render, JoinKey(r)), "public", tags, [], ColumnNodes(tables, r.id));
    ClassifierAttributes(Clean(name), EaId(render, JoinKey(r)), "public", [Tags(tags)], ColumnNodes(tables, r.id));
    PairMaps(tags[0], tags[1], tags[2]);
    hide ClassifierNode, Get, GetOr;
  }

  lemma JoinReads(render: Render, tables: JoinTables, r: Relationship, name: string)
    requires Clean(name) != ROOT_CLASS
    ensures ReadClass(JoinClassNode(render, tables, r, name)) == Some(RawJoinOf(render, tables, r, name))
  {
    hide JoinClassNode, Tagged, Features, Get, GetOr, Clean, EaId, ColumnNodes, ReadAttributes, ReadOperations, TagOr,
         RawColumnsOf, Find;
    JoinHeader(render, tables, r, name);
    JoinAvoids(render, tables, r, name, "Stereotype");
    ColumnsRead(tables, r.id);
    assert Lower("") == "";
  }

  // ---- relationships ---------------------------------------------------

  lemma EndReads(render: Render, end: RelationshipEnd, aggregation: string)
    requires aggregation in {"none", "shared", "composite"}
    ensures ReadEnd(EndNode(render, end, aggregation)) == RawEndOf(render, end, aggregation)
  {
    hide Clean, FormatMultiplicity;
    FormatIsStripped(end.multiplicity);
    var el := EndNode(render, end, aggregation);
    assert Get(el, "aggregation") == Some(aggregation) && Get(el, "type") == Some(EaId(render, end.classId));
    assert Get(el, "multiplicity") == Some(FormatMultiplicity(end.multiplicity));
    assert NonEmpty(Get(el, "name")) == NonEmpty(Some(Clean(TextOr(end.role, "")))) by {
      if TextOr(end.role, "") == "" { CleanOfEmpty(); }
    }
    assert Lower("none") == "none" && Lower("shared") == "shared" && Lower("composite") == "composite";
    hide EndNode, Get, Lower, EaId;
  }

  lemma CleanOfEmpty()
    ensures Clean("") == ""
  {
  }

  lemma TwoEnds(connection: Node, first: Node, second: Node)
    requires connection.children == [first, second] && first.tag == "AssociationEnd" && second.tag == "AssociationEnd"
    ensures Kids(connection, "AssociationEnd") == [first, second]
  {
    KidsInStep([], first, "AssociationEnd");
    KidsInStep([first], second, "AssociationEnd");
    assert [] + [first] == [first] && [first] + [second] == [first, second];
  }

  lemma SecondKid(el: Node, tags: seq<(string, string)>, second: Node)
    requires el.children == [Tags(tags), second] && second.tag != Tags(tags).tag
    ensures Tagged(el) == PairMap(tags) && Kid(el, second.tag) == Some(second)
  {
    TaggedFirst(el, tags);
    assert KidIn(el.children[1..], second.tag) == Some(second);
  }

  lemma AssociationParts(render: Render, r: Relationship)
    requires r.kind != Generalization
    ensures var el := RelationshipNode(render, r);
      && Tagged(el) == PairMap(AssociationTags(render, r)) && Kid(el, "Association.connection") == Some(el.children[1])
      && Kids(el.children[1], "AssociationEnd") ==
           [EndNode(render, r.source, SourceAggregation(r.kind)), EndNode(render, r.target, "none")]
      && Get(el, "name") == Some(Clean(TextOr(r.name, "")))
  {
    hide Clean, PairMap, Tagged, Kid, Kids, AssociationTags, FormatMultiplicity;
    var el := RelationshipNode(render, r);
    var first, second := EndNode(render, r.source, SourceAggregation(r.kind)), EndNode(render, r.target, "none");
    assert first.tag == "AssociationEnd" && second.tag == "AssociationEnd";
    hide EndNode;
    SecondKid(el, AssociationTags(render, r), el.children[1]);
    TwoEnds(el.children[1], first, second);
  }

  lemma AssociationClassReads(render: Render, r: Relationship)
    ensures NonEmpty(TagOr(PairMap(AssociationTags(render, r)), "associationclass")) ==
      if IsJoin(r) then Some(EaId(render, JoinKey(r))) else None
  {
    hide IsJoin, PairMap;
    var tags := AssociationTags(render, r);
    PairMaps(tags[0], if IsJoin(r) then tags[1] else tags[0], tags[0]);
    assert "associationclass" != "ea_type" by { assert "associationclass"[0] == 'a' && "ea_type"[0] == 'e'; }
    assert EaId(render, JoinKey(r)) != "";
  }

  lemma AssociationReads(render: Render, r: Relationship)
    requires r.kind != Generalization
    ensures ReadAssociation(RelationshipNode(render, r)) == RawAssociationOf(render, r)
  {
    hide RelationshipNode, Tagged, Kid, Kids, Get, PairMap, AssociationTags, EndNode, ReadEnd, RawEndOf, Clean, IsJoin, TagOr;
    AssociationParts(render, r);
    AssociationClassReads(render, r);
    EndReads(render, r.source, SourceAggregation(r.kind));
    EndReads(render, r.target, "none");
  }

  lemma GeneralizationReads(render: Render, r: Relationship)
    requires r.kind == Generalization
    ensures ReadGeneralization(RelationshipNode(render, r)) == RawGeneralizationOf(render, r)
  {
    var el := RelationshipNode(render, r);
    assert Get(el, "child").None? && Get(el, "parent").None?;
    assert Get(el, "subtype") == Some(EaId(render, r.source.classId)) && Get(el, "supertype") == Some(EaId(render, r.target.classId));
    assert EaId(render, r.source.classId) != "" && EaId(render, r.target.classId) != "";
    hide Get, EaId, RelationshipNode, IdrefBelowKid;
  }

  // ---- a whole namespace -----------------------------------------------

  function RawClassesOf(model: Model, render: Render, order: seq<PrimitiveType>, classes: seq<UmlClass>): seq<RawClass> {
    if classes == [] then []
    else
      var c := classes[|classes| - 1];
      RawClassesOf(model, render, order, classes[..|classes| - 1])
      + if Clean(c.name) == ROOT_CLASS then [] else [RawClassOf(model, render, order, c)]
  }

  function RawEnumsOf(render: Render, enumerations: seq<Enumeration>): seq<RawClass> {
    if enumerations == [] then []
    else
      var e := enumerations[|enumerations| - 1];
      RawEnumsOf(render, enumerations[..|enumerations| - 1])
      + if Clean(e.name) == ROOT_CLASS then [] else [RawEnumOf(render, e)]
  }

  function RawJoinsOf(model: Model, render: Render, tables: JoinTables, n: nat): seq<RawClass>
    requires n <= |model.relationships|
  {
    if n == 0 then []
    else
      var r := model.relationships[n - 1];
      RawJoinsOf(model, render, tables, n - 1)
      + if IsJoin(r) then [RawJoinOf(render, tables, r, JoinName(model, n - 1))] else []
  }

  function RawAssociationsOf(render: Render, relationships: seq<Relationship>): seq<RawAssociation> {
    if relationships == [] then []
    else
      var r := relationships[|relationships| - 1];
      RawAssociationsOf(render, relationships[..|relationships| - 1])
      + if r.kind != Generalization then [RawAssociationOf(render, r)] else []
  }

  function RawGeneralizationsOf(render: Render, relationships: seq<Relationship>): seq<RawGeneralization> {
    if relationships == [] then []
    else
      var r := relationships[|relationships| - 1];
      RawGeneralizationsOf(render, relationships[..|relationships| - 1])
      + if r.kind == Generalization then [RawGeneralizationOf(render, r)] else []
  }

  function DatatypesOf(order: seq<PrimitiveType>): map<string, string> {
    if order == [] then map[]
    else
      var n := |order| - 1;
      DatatypesOf(order[..n])[TypeXid(n) := EaTypeName(order[n])]
  }

  /** What `_read_v1` collects from an exported document. */
  function RawOf(project: Project, render: Render, tables: JoinTables): Raw {
    var model := project.model;
    var order := PrimitiveOrder(model.classes);
    Raw(
      RawClassesOf(model, render, order, model.classes) + RawEnumsOf(render, model.enumerations)
      + RawJoinsOf(model, render, tables, |model.relationships|),
      RawAssociationsOf(render, model.relationships),
      RawGeneralizationsOf(render, model.relationships),
      DatatypesOf(order),
      Some(Clean(project.name)))
  }

  lemma WalkStep(raw: Raw, front: seq<Node>, el: Node)
    requires el.tag != "Package"
    ensures WalkAll(raw, front + [el]) == ReadElement(WalkAll(raw, front), el)
  {
    assert (front + [el])[..|front|] == front;
    hide ReadElement, Walk;
  }

  lemma {:induction false} WalkConcat(raw: Raw, a: seq<Node>, b: seq<Node>)
    ensures WalkAll(raw, a + b) == WalkAll(WalkAll(raw, a), b)
  {
    hide ReadElement, Walk;
    if b == [] {
      assert a + b == a;
    } else {
      var n := |b| - 1;
      assert (a + b)[..|a + b| - 1] == a + b[..n];
      WalkConcat(raw, a, b[..n]);
    }
  }

  function WithClasses(raw: Raw, classes: seq<RawClass>): Raw {
    raw.(classes := raw.classes + classes)
  }

  lemma ClassElement(raw: Raw, el: Node)
    requires el.tag == "Class"
    ensures ReadElement(raw, el) == match ReadClass(el) case None => raw case Some(c) => WithClasses(raw, [c])
  {
    hide ReadClass;
  }

  lemma WithMoreClasses(raw: Raw, a: seq<RawClass>, b: seq<RawClass>)
    ensures WithClasses(WithClasses(raw, a), b) == WithClasses(raw, a + b)
    ensures WithClasses(raw, []) == raw
  {
    AppendAssociates(raw.classes, a, b);
    assert raw.classes + [] == raw.classes;
  }

  /** Walking over one more class element. */
  lemma ClassWalks(raw: Raw, before: seq<RawClass>, front: seq<Node>, el: Node, read: seq<RawClass>)
    requires el.tag == "Class" && WalkAll(raw, front) == WithClasses(raw, before)
    requires match ReadClass(el) case None => read == [] case Some(c) => read == [c]
    ensures WalkAll(raw, front + [el]) == WithClasses(raw, before + read)
  {
    hide WalkAll, ReadElement, ReadClass, WithClasses;
    WalkStep(raw, front, el);
    ClassElement(WithClasses(raw, before), el);
    WithMoreClasses(raw, before, read);
    assert before + [] == before;
  }

  lemma NothingWalks(raw: Raw)
    ensures WalkAll(raw, []) == raw && WithClasses(raw, []) == raw
  {
    WithMoreClasses(raw, [], []);
  }

  lemma ClassTag(model: Model, render: Render, order: seq<PrimitiveType>, c: UmlClass)
    ensures ClassNode(model, render, order, c).tag == "Class"
  {
  }

  lemma {:induction false} ClassesWalk(raw: Raw, model: Model, render: Render, order: seq<PrimitiveType>, classes: seq<UmlClass>)
    ensures WalkAll(raw, ClassNodes(model, render, order, classes)) ==
      WithClasses(raw, RawClassesOf(model, render, order, classes))
  {
    hide WalkAll, ReadClass, ClassNode, RawClassOf, WithClasses;
    NothingWalks(raw);
    if classes == [] {
      assert ClassNodes(model, render, order, classes) == [] && RawClassesOf(model, render, order, classes) == [];
    } else {
      var n := |classes| - 1;
      var el := ClassNode(model, render, order, classes[n]);
      ClassesWalk(raw, model, render, order, classes[..n]);
      assert ClassNodes(model, render, order, classes) == ClassNodes(model, render, order, classes[..n]) + [el];
      ClassTag(model, render, order, classes[n]);
      ClassReads(model, render, order, classes[n]);
      ClassWalks(raw, RawClassesOf(model, render, order, classes[..n]), ClassNodes(model, render, order, classes[..n]), el,
                 if Clean(classes[n].name) == ROOT_CLASS then [] else [RawClassOf(model, render, order, classes[n])]);
    }
  }

  lemma EnumerationTag(render: Render, e: Enumeration)
    ensures EnumerationNode(render, e).tag == "Class"
  {
  }

  lemma {:induction false} EnumerationsWalk(raw: Raw, render: Render, enumerations: seq<Enumeration>)
    ensures WalkAll(raw, EnumerationNodes(render, enumerations)) == WithClasses(raw, RawEnumsOf(render, enumerations))
  {
    hide WalkAll, ReadClass, EnumerationNode, RawEnumOf, WithClasses;
    NothingWalks(raw);
    if enumerations == [] {
      assert EnumerationNodes(render, enumerations) == [] && RawEnumsOf(render, enumerations) == [];
    } else {
      var n := |enumerations| - 1;
      var el := EnumerationNode(render, enumerations[n]);
      EnumerationsWalk(raw, render, enumerations[..n]);
      assert EnumerationNodes(render, enumerations) == EnumerationNodes(render, enumerations[..n]) + [el];
      EnumerationTag(render, enumerations[n]);
      EnumerationReads(render, enumerations[n]);
      ClassWalks(raw, RawEnumsOf(render, enumerations[..n]), EnumerationNodes(render, enumerations[..n]), el,
                 if Clean(enumerations[n].name) == ROOT_CLASS then [] else [RawEnumOf(render, enumerations[n])]);
    }
  }

  /** A planned join name contains an underscore, so it is never skipped or taken for a type. */
  lemma JoinNameHasUnderscore(model: Model, n: nat)
    requires n < |model.relationships|
    ensures '_' in Clean(JoinName(model, n))
  {
    var r := model.relationships[n];
    var base := JoinBase(model, r);
    assert '_' in base by {
      assert base[|ClassName(model, r.source.classId)|] == '_';
    }
    hide JoinBase, TakenBefore;
    CleanKeeps(JoinName(model, n), '_');
  }

  /** What the elements of the first n relationships add. */
  function WithRelationships(raw: Raw, model: Model, render: Render, tables: JoinTables, n: nat): Raw
    requires n <= |model.relationships|
  {
    raw.(classes := raw.classes + RawJoinsOf(model, render, tables, n),
         associations := raw.associations + RawAssociationsOf(render, model.relationships[..n]),
         generalizations := raw.generalizations + RawGeneralizationsOf(render, model.relationships[..n]))
  }

  lemma RelationshipElement(raw: Raw, render: Render, r: Relationship)
    ensures ReadElement(raw, RelationshipNode(render, r)) ==
      if r.kind == Generalization then raw.(generalizations := raw.generalizations + [RawGeneralizationOf(render, r)])
      else raw.(associations := raw.associations + [RawAssociationOf(render, r)])
    ensures RelationshipNode(render, r).tag != "Package"
  {
    var el := RelationshipNode(render, r);
    assert el.tag == if r.kind == Generalization then "Generalization" else "Association";
    if r.kind == Generalization {
      GeneralizationReads(render, r);
    } else {
      AssociationReads(render, r);
    }
    hide RelationshipNode, ReadAssociation, ReadGeneralization, RawAssociationOf, RawGeneralizationOf;
  }

  lemma JoinElement(raw: Raw, model: Model, render: Render, tables: JoinTables, n: nat)
    requires n < |model.relationships|
    ensures var r := model.relationships[n];
      var el := JoinClassNode(render, tables, r, JoinName(model, n));
      && el.tag == "Class"
      && ReadElement(raw, el) == WithClasses(raw, [RawJoinOf(render, tables, r, JoinName(model, n))])
  {
    var r := model.relationships[n];
    JoinNameHasUnderscore(model, n);
    UnderscoreIsNoTypeName(Clean(JoinName(model, n)), 0, String);
    hide JoinName, Clean;
    JoinReads(render, tables, r, JoinName(model, n));
    hide ReadClass, RawJoinOf;
    ClassElement(raw, JoinClassNode(render, tables, r, JoinName(model, n)));
  }

  lemma RelationshipAdds(raw: Raw, model: Model, render: Render, tables: JoinTables, n: nat)
    requires n < |model.relationships|
    ensures var r := model.relationships[n];
      var before := WithRelationships(raw, model, render, tables, n);
      var joined := if IsJoin(r) then WithClasses(before, [RawJoinOf(render, tables, r, JoinName(model, n))]) else before;
      WithRelationships(raw, model, render, tables, n + 1) ==
        if r.kind == Generalization then joined.(generalizations := joined.generalizations + [RawGeneralizationOf(render, r)])
        else joined.(associations := joined.associations + [RawAssociationOf(render, r)])
  {
    hide RawJoinOf, RawAssociationOf, RawGeneralizationOf, JoinName;
    var rels := model.relationships;
    PrefixStep(rels, n);
    assert rels[..n + 1][n] == rels[n];
    AppendAssociates(raw.classes, RawJoinsOf(model, render, tables, n), [RawJoinOf(render, tables, rels[n], JoinName(model, n))]);
    AppendAssociates(raw.associations, RawAssociationsOf(render, rels[..n]), [RawAssociationOf(render, rels[n])]);
    AppendAssociates(raw.generalizations, RawGeneralizationsOf(render, rels[..n]), [RawGeneralizationOf(render, rels[n])]);
    assert RawJoinsOf(model, render, tables, n) + [] == RawJoinsOf(model, render, tables, n);
    assert RawAssociationsOf(render, rels[..n]) + [] == RawAssociationsOf(render, rels[..n]);
    assert RawGeneralizationsOf(render, rels[..n]) + [] == RawGeneralizationsOf(render, rels[..n]);
  }

  /** Walking over the elements of one more relationship. */
  lemma RelationshipWalks(raw: Raw, model: Model, render: Render, tables: JoinTables, n: nat, front: seq<Node>)
    requires n < |model.relationships|
    requires WalkAll(raw, front) == WithRelationships(raw, model, render, tables, n)
    ensures var r := model.relationships[n];
      WalkAll(raw, front + (if IsJoin(r) then [JoinClassNode(render, tables, r, JoinName(model, n))] else []) + [RelationshipNode(render, r)])
      == WithRelationships(raw, model, render, tables, n + 1)
  {
    hide WalkAll, ReadElement, RelationshipNode, JoinClassNode, RawJoinOf, RawAssociationOf, RawGeneralizationOf,
         WithRelationships, WithClasses, JoinName, IsJoin;
    var r := model.relationships[n];
    var before := WithRelationships(raw, model, render, tables, n);
    RelationshipAdds(raw, model, render, tables, n);
    if IsJoin(r) {
      var el := JoinClassNode(render, tables, r, JoinName(model, n));
      JoinElement(before, model, render, tables, n);
      WalkStep(raw, front, el);
      RelationshipElement(WithClasses(before, [RawJoinOf(render, tables, r, JoinName(model, n))]), render, r);
      WalkStep(raw, front + [el], RelationshipNode(render, r));
    } else {
      RelationshipElement(before, render, r);
      assert front + [] == front;
      WalkStep(raw, front, RelationshipNode(render, r));
    }
  }

  lemma NoRelationshipsWalk(raw: Raw, model: Model, render: Render, tables: JoinTables)
    ensures WalkAll(raw, RelationshipNodes(model, render, tables, 0)) == WithRelationships(raw, model, render, tables, 0)
  {
    assert raw.classes + [] == raw.classes && raw.associations + [] == raw.associations;
    assert raw.generalizations + [] == raw.generalizations;
  }

  lemma {:induction false} RelationshipsWalk(raw: Raw, model: Model, render: Render, tables: JoinTables, n: nat)
    requires n <= |model.relationships|
    ensures WalkAll(raw, RelationshipNodes(model, render, tables, n)) == WithRelationships(raw, model, render, tables, n)
  {
    hide WalkAll, RelationshipNode, JoinClassNode, WithRelationships, JoinName, IsJoin;
    if n == 0 {
      NoRelationshipsWalk(raw, model, render, tables);
    } else {
      RelationshipsWalk(raw, model, render, tables, n - 1);
      RelationshipWalks(raw, model, render, tables, n - 1, RelationshipNodes(model, render, tables, n - 1));
    }
  }

  lemma {:induction false} DatatypesWalk(raw: Raw, order: seq<PrimitiveType>)
    requires raw.datatypes == map[]
    ensures WalkAll(raw, DatatypeNodes(order)) == raw.(datatypes := DatatypesOf(order))
  {
    if order == [] {
    } else {
      var n := |order| - 1;
      var el := DatatypeNode(n, order[n]);
      assert el.tag == "DataType" && GetOr(el, "xmi.id", "") == TypeXid(n) && GetOr(el, "name", "") == EaTypeName(order[n]);
      hide WalkAll, TypeXid, EaTypeName, DatatypeNode;
      DatatypesWalk(raw, order[..n]);
      assert DatatypeNodes(order) == DatatypeNodes(order[..n]) + [el];
      WalkStep(raw, DatatypeNodes(order[..n]), el);
    }
  }

  lemma PackageWalks(raw: Raw, project: Project, render: Render, tables: JoinTables)
    requires raw.classes == [] && raw.associations == [] && raw.generalizations == []
    ensures Walk(raw, PackageNode(project, render, tables)) == RawOf(project, render, tables).(
      datatypes := raw.datatypes, packageName := raw.packageName)
  {
    var model := project.model;
    var order := PrimitiveOrder(model.classes);
    var a, b := ClassNodes(model, render, order, model.classes), EnumerationNodes(render, model.enumerations);
    var c := RelationshipNodes(model, render, tables, |model.relationships|);
    hide WalkAll, ClassNodes, EnumerationNodes, RelationshipNodes, RawClassesOf, RawEnumsOf, RawJoinsOf, RawAssociationsOf,
         RawGeneralizationsOf, PrimitiveOrder, DatatypesOf;
    WalkConcat(raw, a + b, c);
    WalkConcat(raw, a, b);
    ClassesWalk(raw, model, render, order, model.classes);
    var first := WithClasses(raw, RawClassesOf(model, render, order, model.classes));
    EnumerationsWalk(first, render, model.enumerations);
    RelationshipsWalk(WithClasses(first, RawEnumsOf(render, model.enumerations)), model, render, tables, |model.relationships|);
    FullPrefix(model.relationships);
    assert [] + RawClassesOf(model, render, order, model.classes) == RawClassesOf(model, render, order, model.classes);
  }

  lemma RootClassIsSkipped(raw: Raw)
    ensures ReadElement(raw, RootClassNode()) == raw
  {
    assert Get(RootClassNode(), "isRoot") == Some("true");
  }

  /** The reader finds in an exported document exactly what `RawOf` says. */
  lemma ModelWalks(project: Project, render: Render, tables: JoinTables)
    ensures Walk(EMPTY_RAW, ModelNode(project, render, tables)) == RawOf(project, render, tables)
  {
    var package := PackageNode(project, render, tables);
    var datatypes := DatatypeNodes(PrimitiveOrder(project.model.classes));
    RootClassIsSkipped(EMPTY_RAW);
    var named := EMPTY_RAW.(packageName := Some(Clean(project.name)));
    PackageWalks(named, project, render, tables);
    assert GetOr(package, "name", "") == Clean(project.name);
    assert WalkAll(EMPTY_RAW, [RootClassNode(), package]) == Walk(named, package) by {
      assert [RootClassNode(), package][..1] == [RootClassNode()] && [RootClassNode()][..0] == [];
      assert WalkAll(EMPTY_RAW, []) == EMPTY_RAW;
      hide Walk, PackageNode, ReadElement;
    }
    DatatypesWalk(Walk(named, package), PrimitiveOrder(project.model.classes));
    WalkConcat(EMPTY_RAW, [RootClassNode(), package], datatypes);
    hide WalkAll, PackageNode, RawOf, DatatypeNodes;
  }
}
