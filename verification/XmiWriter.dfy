/** The loops of the exporter: each builds the part of the document that `XmiExport` describes. */
module XmiWriter {
  import opened Text
  import opened Seqs
  import opened Uml
  import opened Naming
  import opened Schema
  import opened Documents
  import opened Geometry
  import opened Xml
  import opened XmiNames
  import opened XmiExport

  // ---- type ids --------------------------------------------------------

  /** `datatype_ids`: ids are handed out in the order of first use. */
  class TypeIds {
    var order: seq<PrimitiveType>

    constructor ()
      ensures order == []
    {
      order := [];
    }

    method IdOf(p: PrimitiveType) returns (xid: string)
      modifies this
      ensures order == if p in old(order) then old(order) else old(order) + [p]
      ensures xid == TypeXid(IndexIn(order, p))
    {
      if p !in order {
        IndexOfNew(order, p);
        xid := TypeXid(|order|);
        order := order + [p];
      } else {
        xid := TypeXid(IndexIn(order, p));
      }
    }
  }

  lemma IndexOfNew<T>(s: seq<T>, x: T)
    requires x !in s
    ensures IndexIn(s + [x], x) == |s|
  {
    assert (s + [x])[|s|] == x;
    assert forall i :: 0 <= i < |s| ==> (s + [x])[i] == s[i];
  }

  /** Ids that were handed out stay valid. */
  lemma IndexIsStable<T>(s: seq<T>, more: seq<T>, x: T)
    requires s <= more && x in s
    ensures IndexIn(more, x) == IndexIn(s, x)
  {
    var i, k := IndexIn(s, x), IndexIn(more, x);
    assert more[i] == x;
  }

  lemma AttributeNodesAreStable(model: Model, render: Render, order: seq<PrimitiveType>, more: seq<PrimitiveType>, attributes: seq<UmlAttribute>)
    requires order <= more && forall a :: a in attributes && a.typ.Primitive? ==> a.typ.primitive in order
    ensures AttributeNodes(model, render, more, attributes) == AttributeNodes(model, render, order, attributes)
  {
    forall i | 0 <= i < |attributes|
      ensures TypeRef(render, more, attributes[i].typ) == TypeRef(render, order, attributes[i].typ)
    {
      if attributes[i].typ.Primitive? {
        IndexIsStable(order, more, attributes[i].typ.primitive);
      }
    }
    hide TypeRef, TypeName, Clean, Tags;
  }

  lemma ClassNodesAreStable(model: Model, render: Render, order: seq<PrimitiveType>, more: seq<PrimitiveType>, classes: seq<UmlClass>)
    requires order <= more
    requires forall c, a :: c in classes && a in c.attributes && a.typ.Primitive? ==> a.typ.primitive in order
    ensures ClassNodes(model, render, more, classes) == ClassNodes(model, render, order, classes)
  {
    forall i | 0 <= i < |classes|
      ensures ClassNode(model, render, more, classes[i]) == ClassNode(model, render, order, classes[i])
    {
      AttributeNodesAreStable(model, render, order, more, classes[i].attributes);
      hide AttributeNodes, OperationNodes, ClassifierNode, Clean, Tags;
    }
    hide ClassNode;
  }

  // ---- classes ---------------------------------------------------------

  method WriteAttributes(model: Model, render: Render, types: TypeIds, attributes: seq<UmlAttribute>) returns (nodes: seq<Node>)
    modifies types
    ensures types.order == UsedIn(old(types.order), attributes)
    ensures nodes == AttributeNodes(model, render, types.order, attributes)
  {
    hide AttributeNode, EaId, TypeXid, TypeRef;
    nodes := [];
    for i := 0 to |attributes|
      invariant types.order == UsedIn(old(types.order), attributes[..i])
      invariant nodes == AttributeNodes(model, render, types.order, attributes[..i])
    {
      var a := attributes[i];
      ghost var before := types.order;
      if a.typ.Primitive? {
        var _ := types.IdOf(a.typ.primitive);
      }
      OneMoreAttribute(old(types.order), attributes, i);
      AttributeNodesAreStable(model, render, before, types.order, attributes[..i]);
      nodes := nodes + [AttributeNode(model, render, types.order, a)];
      PrefixStep(attributes, i);
      hide UsedIn;
    }
    FullPrefix(attributes);
  }

  lemma OneMoreAttribute(order: seq<PrimitiveType>, attributes: seq<UmlAttribute>, i: nat)
    requires i < |attributes|
    ensures var before := UsedIn(order, attributes[..i]);
      var t := attributes[i].typ;
      UsedIn(order, attributes[..i + 1]) == if t.Primitive? && t.primitive !in before then before + [t.primitive] else before
  {
    PrefixStep(attributes, i);
    assert attributes[..i + 1][i] == attributes[i];
  }

  method WriteOperations(operations: seq<UmlOperation>) returns (nodes: seq<Node>)
    ensures nodes == OperationNodes(operations)
  {
    nodes := [];
    for i := 0 to |operations|
      invariant nodes == OperationNodes(operations[..i])
    {
      nodes := nodes + [OperationNode(operations[i])];
    }
  }

  /** `_write_class`: handing out type ids as its attributes need them. */
  method WriteClass(model: Model, render: Render, types: TypeIds, c: UmlClass) returns (node: Node)
    modifies types
    ensures types.order == UsedIn(old(types.order), c.attributes)
    ensures node == ClassNode(model, render, types.order, c)
  {
    var attributes := WriteAttributes(model, render, types, c.attributes);
    var operations := WriteOperations(c.operations);
    node := ClassifierNode(Clean(c.name), EaId(render, c.id), VisibilityText(c.visibility), [Tags([("ea_stype", "Class")])],
                           attributes + operations);
  }

  lemma {:induction false} TypesAreInOrder(classes: seq<UmlClass>)
    ensures forall c, a :: c in classes && a in c.attributes && a.typ.Primitive? ==> a.typ.primitive in PrimitiveOrder(classes)
  {
    if classes != [] {
      LastIsMember(classes);
      TypesAreInOrder(classes[..|classes| - 1]);
    }
  }

  lemma NoClassNodes(model: Model, render: Render)
    ensures PrimitiveOrder([]) == [] && ClassNodes(model, render, [], []) == []
  {
  }

  /** The nodes written so far stay as they are when a class needs more types. */
  lemma OneMoreClassNode(model: Model, render: Render, front: seq<UmlClass>, c: UmlClass)
    ensures var before, after := PrimitiveOrder(front), PrimitiveOrder(front + [c]);
      && after == UsedIn(before, c.attributes)
      && ClassNodes(model, render, after, front + [c]) == ClassNodes(model, render, before, front) + [ClassNode(model, render, after, c)]
  {
    hide ClassNode, UsedIn;
    var before, after := PrimitiveOrder(front), PrimitiveOrder(front + [c]);
    assert (front + [c])[..|front|] == front;
    TypesAreInOrder(front);
    ClassNodesAreStable(model, render, before, after, front);
    assert ClassNodes(model, render, after, front + [c]) == ClassNodes(model, render, after, front) + [ClassNode(model, render, after, c)];
  }

  method WriteClasses(model: Model, render: Render, types: TypeIds) returns (nodes: seq<Node>)
    requires types.order == []
    modifies types
    ensures types.order == PrimitiveOrder(model.classes)
    ensures nodes == ClassNodes(model, render, PrimitiveOrder(model.classes), model.classes)
  {
    hide ClassNode, UsedIn, ClassNodes, PrimitiveOrder;
    var classes := model.classes;
    nodes := [];
    NoClassNodes(model, render);
    for i := 0 to |classes|
      invariant types.order == PrimitiveOrder(classes[..i])
      invariant nodes == ClassNodes(model, render, types.order, classes[..i])
    {
      ghost var before := types.order;
      PrefixStep(classes, i);
      var node := WriteClass(model, render, types, classes[i]);
      OneMoreClassNode(model, render, classes[..i], classes[i]);
      nodes := nodes + [node];
    }
    FullPrefix(classes);
  }

  method WriteEnumerations(render: Render, enumerations: seq<Enumeration>) returns (nodes: seq<Node>)
    ensures nodes == EnumerationNodes(render, enumerations)
  {
    hide EnumerationNode;
    nodes := [];
    for i := 0 to |enumerations|
      invariant nodes == EnumerationNodes(render, enumerations[..i])
    {
      nodes := nodes + [EnumerationNode(render, enumerations[i])];
    }
  }

  method WriteDatatypes(order: seq<PrimitiveType>) returns (nodes: seq<Node>)
    ensures nodes == DatatypeNodes(order)
  {
    hide DatatypeNode;
    nodes := [];
    for i := 0 to |order|
      invariant nodes == DatatypeNodes(order[..i])
    {
      nodes := nodes + [DatatypeNode(i, order[i])];
    }
  }

  // ---- relationships ---------------------------------------------------

  /** The planned join names, one per relationship, `None` where there is no join class. */
  ghost predicate PlansNames(model: Model, n: nat, plans: seq<Option<string>>)
    requires n <= |model.relationships|
  {
    |plans| == n && forall i :: 0 <= i < n ==>
      plans[i] == if IsJoin(model.relationships[i]) then Some(JoinName(model, i)) else None
  }

  /** `_plan_join_relationships`: a growing set of taken names. */
  method PlanJoinRelationships(model: Model) returns (plans: seq<Option<string>>)
    ensures PlansNames(model, |model.relationships|, plans)
  {
    hide IsJoin, FreeJoinName;
    plans := [];
    var taken := Names(model);
    for i := 0 to |model.relationships|
      invariant PlansNames(model, i, plans) && taken == TakenBefore(model, i)
    {
      var r := model.relationships[i];
      if !IsJoin(r) {
        plans := plans + [None];
        continue;
      }
      var name := UniqueJoinName(taken, JoinBase(model, r));
      assert name == JoinName(model, i);
      taken := taken + {name};
      plans := plans + [Some(name)];
    }
  }

  method WriteRelationships(model: Model, render: Render, tables: JoinTables, plans: seq<Option<string>>) returns (nodes: seq<Node>)
    requires PlansNames(model, |model.relationships|, plans)
    ensures nodes == RelationshipNodes(model, render, tables, |model.relationships|)
  {
    hide IsJoin, JoinName, RelationshipNode, JoinClassNode;
    nodes := [];
    for i := 0 to |model.relationships|
      invariant nodes == RelationshipNodes(model, render, tables, i)
    {
      var r := model.relationships[i];
      if plans[i].Some? {
        nodes := nodes + [JoinClassNode(render, tables, r, plans[i].value)];
      }
      nodes := nodes + [RelationshipNode(render, r)];
    }
  }

  // ---- the diagram -----------------------------------------------------

  method WriteBoxes(project: Project, render: Render) returns (nodes: seq<Node>)
    ensures nodes == BoxNodes(project, render)
  {
    hide CentreAt, HeightAt, BoxText, EaId;
    nodes := [];
    var ids := NodeIds(project.model);
    for i := 0 to |ids|
      invariant |nodes| == i
      invariant forall k :: 0 <= k < i ==>
        nodes[k] == DiagramNode(BoxText(CentreAt(project, k), HeightAt(project.model, k)), EaId(render, ids[k]))
    {
      nodes := nodes + [DiagramNode(BoxText(CentreAt(project, i), HeightAt(project.model, i)), EaId(render, ids[i]))];
    }
    assert nodes == BoxNodes(project, render);
  }

  /** The box of a join class, halfway between the two classes and a bit off. */
  function JoinBox(project: Project, render: Render, r: Relationship): Node {
    var a, b := CentreOfClass(project, r.source.classId), CentreOfClass(project, r.target.classId);
    DiagramNode(
      BoxText(Position((a.x + b.x) / 2.0 + 40.0, (a.y + b.y) / 2.0 + 40.0), BoxHeight(0)), EaId(render, JoinKey(r)))
  }

  lemma JoinBoxStep(project: Project, render: Render, front: seq<Relationship>, r: Relationship)
    ensures JoinBoxNodes(project, render, front + [r]) ==
      JoinBoxNodes(project, render, front) + if IsJoin(r) then [JoinBox(project, render, r)] else []
  {
    hide BoxText, CentreOfClass, IsJoin, EaId, JoinKey, BoxHeight;
    assert (front + [r])[..|front|] == front;
  }

  method WriteJoinBoxes(project: Project, render: Render) returns (nodes: seq<Node>)
    ensures nodes == JoinBoxNodes(project, render, project.model.relationships)
  {
    hide JoinBox, IsJoin;
    var relationships := project.model.relationships;
    nodes := [];
    assert relationships[..0] == [];
    for i := 0 to |relationships|
      invariant nodes == JoinBoxNodes(project, render, relationships[..i])
    {
      PrefixStep(relationships, i);
      JoinBoxStep(project, render, relationships[..i], relationships[i]);
      if IsJoin(relationships[i]) {
        nodes := nodes + [JoinBox(project, render, relationships[i])];
      }
    }
    FullPrefix(relationships);
  }

  method WriteEdges(render: Render, relationships: seq<Relationship>) returns (nodes: seq<Node>)
    ensures nodes == EdgeNodes(render, relationships)
  {
    hide EaId;
    nodes := [];
    for i := 0 to |relationships|
      invariant nodes == EdgeNodes(render, relationships[..i])
    {
      nodes := nodes + [DiagramNode(EDGE_GEOMETRY, EaId(render, relationships[i].id))];
    }
  }

  // ---- the document ----------------------------------------------------

  method ExportXmi(project: Project, render: Render, tables: JoinTables) returns (r: Option<Node>)
    ensures r == Export(project, render, tables)
  {
    hide Exportable, ClassNodes, EnumerationNodes, RelationshipNodes, BoxNodes, JoinBoxNodes, EdgeNodes, PrimitiveOrder,
         DatatypeNodes, PlansNames, Tags, Clean;
    var model := project.model;
    if !Exportable(model) {
      return None;
    }
    var plans := PlanJoinRelationships(model);
    var types := new TypeIds();
    var classes := WriteClasses(model, render, types);
    var enumerations := WriteEnumerations(render, model.enumerations);
    var relationships := WriteRelationships(model, render, tables, plans);
    var datatypes := WriteDatatypes(types.order);
    var boxes := WriteBoxes(project, render);
    var joinBoxes := WriteJoinBoxes(project, render);
    var edges := WriteEdges(render, model.relationships);

    var package := Node("Package", map["name" := Clean(project.name), "isRoot" := "false"],
      [Node("Namespace.ownedElement", map[], classes + enumerations + relationships)]);
    var uml := Node("Model", map["name" := "EA Model"],
      [Node("Namespace.ownedElement", map[], [RootClassNode(), package] + datatypes)]);
    var diagram := Node("Diagram", map["name" := Clean(project.name), "diagramType" := "ClassDiagram"],
      [Tags([("type", "Logical")]), Node("Diagram.element", map[], boxes + joinBoxes + edges)]);
    return Some(Node("XMI", map["xmi.version" := "1.1"], [
      Node("XMI.header", map[], [Node("XMI.documentation", map[], [])]),
      Node("XMI.content", map[], [uml, diagram]),
      Node("XMI.difference", map[], []),
      Node("XMI.extensions", map[], [Node("EAModel.paramSub", map[], [])])
    ]));
  }
}
