/** The diagram of an exported document and the layout read back from it. */
module XmiDiagrams {
  import opened Text
  import opened Seqs
  import opened Uml
  import opened Schema
  import opened Documents
  import opened Geometry
  import opened Xml
  import opened XmiNames
  import opened XmiExport
  import opened XmiImport
  import opened XmiReads
  import opened XmiRoundTrip

  // ---- where the model and the diagram are -----------------------------

  lemma EnumerationAvoids(render: Render, e: Enumeration)
    ensures Find(EnumerationNode(render, e), "Diagram") == []
  {
    hide Find, Tags, Clean, EaId;
    var inner := Node("Stereotype", map["name" := "enumeration"], []);
    var stereotype := Node("ModelElement.stereotype", map[], [inner]);
    LeafAvoids(inner, "Diagram");
    BranchAvoids(stereotype, "Diagram");
    TagsAvoid([("ea_stype", "Enumeration")], "Diagram");
    forall x | x in LiteralNodes(e.literals) ensures Find(x, "Diagram") == [] {
      LeafAvoids(x, "Diagram");
    }
    ClassifierAvoids(Clean(e.name), EaId(render, e.id), "public", [Tags([("ea_stype", "Enumeration")]), stereotype],
                     LiteralNodes(e.literals), "Diagram");
  }

  lemma RelationshipAvoids(render: Render, r: Relationship)
    ensures Find(RelationshipNode(render, r), "Diagram") == []
  {
    hide Find, Tags, Clean, EaId, AssociationTags;
    var el := RelationshipNode(render, r);
    if r.kind == Generalization {
      TagsAvoid([("ea_type", "Generalization")], "Diagram");
    } else {
      TagsAvoid(AssociationTags(render, r), "Diagram");
      var connection := el.children[1];
      forall x | x in connection.children ensures Find(x, "Diagram") == [] {
        LeafAvoids(x, "Diagram");
      }
      BranchAvoids(connection, "Diagram");
    }
    BranchAvoids(el, "Diagram");
  }

  lemma {:induction false} RelationshipsAvoid(model: Model, render: Render, tables: JoinTables, n: nat)
    requires n <= |model.relationships|
    ensures forall x :: x in RelationshipNodes(model, render, tables, n) ==> Find(x, "Diagram") == []
  {
    hide Find, RelationshipNode, JoinClassNode, JoinName, IsJoin;
    if n > 0 {
      RelationshipsAvoid(model, render, tables, n - 1);
      RelationshipAvoids(render, model.relationships[n - 1]);
      JoinAvoids(render, tables, model.relationships[n - 1], JoinName(model, n - 1), "Diagram");
    }
  }

  lemma PackageAvoids(project: Project, render: Render, tables: JoinTables)
    ensures Find(PackageNode(project, render, tables), "Diagram") == []
  {
    hide Find, RelationshipNodes, ClassNode, EnumerationNode, PrimitiveOrder, Clean;
    var model := project.model;
    var order := PrimitiveOrder(model.classes);
    var elements := PackageElements(project, render, tables);
    RelationshipsAvoid(model, render, tables, |model.relationships|);
    forall x | x in elements ensures Find(x, "Diagram") == [] {
      if x in ClassNodes(model, render, order, model.classes) {
        var i :| 0 <= i < |model.classes| && x == ClassNode(model, render, order, model.classes[i]);
        ClassAvoids(model, render, order, model.classes[i], "Diagram");
      } else if x in EnumerationNodes(render, model.enumerations) {
        var i :| 0 <= i < |model.enumerations| && x == EnumerationNode(render, model.enumerations[i]);
        EnumerationAvoids(render, model.enumerations[i]);
      }
    }
    BranchAvoids(Node("Namespace.ownedElement", map[], elements), "Diagram");
    BranchAvoids(PackageNode(project, render, tables), "Diagram");
  }

  lemma ModelAvoids(project: Project, render: Render, tables: JoinTables)
    ensures Find(ModelNode(project, render, tables), "Diagram") == []
  {
    hide Find, PackageNode, PrimitiveOrder;
    PackageAvoids(project, render, tables);
    LeafAvoids(RootClassNode(), "Diagram");
    var datatypes := DatatypeNodes(PrimitiveOrder(project.model.classes));
    forall x | x in datatypes ensures Find(x, "Diagram") == [] {
      LeafAvoids(x, "Diagram");
    }
    var owned := [RootClassNode(), PackageNode(project, render, tables)] + datatypes;
    BranchAvoids(Node("Namespace.ownedElement", map[], owned), "Diagram");
    BranchAvoids(ModelNode(project, render, tables), "Diagram");
  }

  lemma {:induction false} FindLeaves(nodes: seq<Node>, tag: string)
    requires forall x :: x in nodes ==> x.children == [] && x.tag == tag
    ensures FindAll(nodes, tag) == nodes
  {
    if nodes != [] {
      var last := nodes[|nodes| - 1];
      assert last in nodes;
      FindLeaves(nodes[..|nodes| - 1], tag);
      assert Find(last, tag) == [last];
      assert nodes == nodes[..|nodes| - 1] + [last];
    }
  }

  lemma ElementsAreLeaves(project: Project, render: Render, x: Node)
    requires x in DiagramElements(project, render)
    ensures x.children == [] && x.tag == "DiagramElement"
  {
    hide BoxText, EaId, CentreOfClass, CentreAt, HeightAt, IsJoin;
    JoinBoxesAreLeaves(project, render, project.model.relationships);
  }

  lemma {:induction false} JoinBoxesAreLeaves(project: Project, render: Render, relationships: seq<Relationship>)
    ensures forall x :: x in JoinBoxNodes(project, render, relationships) ==> x.children == [] && x.tag == "DiagramElement"
  {
    hide BoxText, EaId, CentreOfClass, IsJoin;
    if relationships != [] {
      JoinBoxesAreLeaves(project, render, relationships[..|relationships| - 1]);
    }
  }

  /** The diagram element and its boxes and edges are found; nothing else is taken for one. */
  lemma DiagramIsFound(project: Project, render: Render, tables: JoinTables)
    ensures var content := Node("XMI.content", map[], [ModelNode(project, render, tables), DiagramTree(project, render)]);
      && Find(content, "Diagram") == [DiagramTree(project, render)]
      && Find(content, "Model") != [] && Find(content, "Model")[0] == ModelNode(project, render, tables)
    ensures Find(DiagramTree(project, render), "DiagramElement") == DiagramElements(project, render)
  {
    hide DiagramElements, Tags, Clean, Find;
    var model, diagram := ModelNode(project, render, tables), DiagramTree(project, render);
    var content := Node("XMI.content", map[], [model, diagram]);
    ModelAvoids(project, render, tables);
    var elements := Node("Diagram.element", map[], DiagramElements(project, render));
    forall x | x in DiagramElements(project, render)
      ensures x.children == [] && x.tag == "DiagramElement" && Find(x, "Diagram") == []
    {
      ElementsAreLeaves(project, render, x);
      LeafAvoids(x, "Diagram");
    }
    BranchAvoids(elements, "Diagram");
    TagsAvoid([("type", "Logical")], "Diagram");
    TagsAvoid([("type", "Logical")], "DiagramElement");
    FindLeaves(DiagramElements(project, render), "DiagramElement");
    FindLists(model, diagram, diagram, "Diagram");
    FindLists(model, diagram, diagram, "Model");
    FindLists(Tags([("type", "Logical")]), elements, elements, "Diagram");
    FindLists(Tags([("type", "Logical")]), elements, elements, "DiagramElement");
    FindUnfolds(content, "Diagram");
    FindUnfolds(content, "Model");
    FindUnfolds(model, "Model");
    FindUnfolds(diagram, "Diagram");
    FindUnfolds(diagram, "DiagramElement");
    FindUnfolds(elements, "DiagramElement");
    hide FindAll, ModelNode;
    assert model.tag == "Model";
  }

  lemma FindUnfolds(el: Node, tag: string)
    ensures Find(el, tag) == (if el.tag == tag then [el] else []) + FindAll(el.children, tag)
  {
  }

  // ---- the boxes -------------------------------------------------------

  /** Where the centre of the i-th box comes back. */
  function SnappedAt(project: Project, i: nat): Position
    requires i < |NodeIds(project.model)|
  {
    var centre := CentreAt(project, i);
    Position(Snap(centre.x, BOX_WIDTH), Snap(centre.y, HeightAt(project.model, i)))
  }

  lemma {:induction false} ReadBoxesConcat(positions: map<string, Position>, a: seq<Node>, b: seq<Node>)
    ensures ReadBoxes(positions, a + b) == ReadBoxes(ReadBoxes(positions, a), b)
  {
    hide ReadBox;
    if b == [] {
      assert a + b == a;
    } else {
      var n := |b| - 1;
      assert (a + b)[..|a + b| - 1] == a + b[..n];
      ReadBoxesConcat(positions, a, b[..n]);
    }
  }

  /** The first box of a subject counts. */
  lemma {:induction false} BoxesAreKept(positions: map<string, Position>, elements: seq<Node>, subject: string)
    requires subject in positions
    ensures subject in ReadBoxes(positions, elements) && ReadBoxes(positions, elements)[subject] == positions[subject]
  {
    if elements != [] {
      BoxesAreKept(positions, elements[..|elements| - 1], subject);
    }
    hide CentreOf;
  }

  lemma BoxIsRead(positions: map<string, Position>, centre: Position, height: int, subject: string)
    requires subject != "" && subject !in positions
    ensures ReadBox(positions, DiagramNode(BoxText(centre, height), subject)) ==
      positions[subject := Position(Snap(centre.x, BOX_WIDTH), Snap(centre.y, height))]
  {
    hide CentreOf, BoxText, Snap;
    BoxReadsBack(centre, height);
    var el := DiagramNode(BoxText(centre, height), subject);
    assert Get(el, "subject") == Some(subject) && GetOr(el, "geometry", "") == BoxText(centre, height);
    hide Get, GetOr;
  }

  /** The first n boxes give the first n subjects their snapped centres, and no others. */
  ghost predicate BoxesRead(project: Project, render: Render, n: nat, positions: map<string, Position>)
    requires n <= |NodeIds(project.model)|
  {
    && (forall x :: x in positions ==> exists i :: 0 <= i < n && x == EaId(render, NodeIds(project.model)[i]))
    && forall i :: 0 <= i < n ==>
         var x := EaId(render, NodeIds(project.model)[i]);
         x in positions && positions[x] == SnappedAt(project, i)
  }

  lemma NodesAreDistinct(render: Render, model: Model, i: nat, k: nat)
    requires DistinctXids(render, model) && i < k < |NodeIds(model)|
    ensures EaId(render, NodeIds(model)[i]) != EaId(render, NodeIds(model)[k])
  {
    hide NodeIds, JoinKeys, EaId;
    var keys := NodeIds(model) + JoinKeys(model.relationships);
    assert EaIds(render, keys)[i] != EaIds(render, keys)[k];
  }

  lemma NextBoxIsRead(project: Project, render: Render, n: nat, positions: map<string, Position>)
    requires DistinctXids(render, project.model) && n < |NodeIds(project.model)|
    requires BoxesRead(project, render, n, positions)
    ensures BoxesRead(project, render, n + 1, ReadBox(positions, BoxNodes(project, render)[n]))
  {
    hide NodeIds, EaId, CentreAt, HeightAt, Snap, BoxText, DistinctXids;
    var ids := NodeIds(project.model);
    forall i | 0 <= i < n ensures EaId(render, ids[i]) != EaId(render, ids[n]) {
      NodesAreDistinct(render, project.model, i, n);
    }
    EaIdIsNoTypeName(render, ids[n], 0, String);
    BoxIsRead(positions, CentreAt(project, n), HeightAt(project.model, n), EaId(render, ids[n]));
    hide ReadBox;
  }

  lemma BoxCount(project: Project, render: Render)
    ensures |BoxNodes(project, render)| == |NodeIds(project.model)|
  {
  }

  lemma ReadBoxesStep(positions: map<string, Position>, nodes: seq<Node>, n: nat)
    requires n < |nodes|
    ensures ReadBoxes(positions, nodes[..n + 1]) == ReadBox(ReadBoxes(positions, nodes[..n]), nodes[n])
    ensures ReadBoxes(positions, nodes[..0]) == positions
  {
    hide ReadBox;
    PrefixStep(nodes, n);
    assert nodes[..n + 1][n] == nodes[n];
  }

  lemma {:induction false} BoxNodesRead(project: Project, render: Render, n: nat)
    requires DistinctXids(render, project.model) && n <= |NodeIds(project.model)| && 0 < |NodeIds(project.model)|
    requires n <= |BoxNodes(project, render)|
    ensures BoxesRead(project, render, n, ReadBoxes(map[], BoxNodes(project, render)[..n]))
  {
    BoxCount(project, render);
    hide NodeIds, ReadBox, ReadBoxes, BoxNodes, DistinctXids, EaId, SnappedAt;
    var nodes := BoxNodes(project, render);
    if n == 0 {
      ReadBoxesStep(map[], nodes, 0);
    } else {
      hide BoxesRead;
      BoxNodesRead(project, render, n - 1);
      NextBoxIsRead(project, render, n - 1, ReadBoxes(map[], nodes[..n - 1]));
      ReadBoxesStep(map[], nodes, n - 1);
    }
  }

  /** Every class and enumeration is positioned at its snapped centre. */
  lemma BoxIsPlaced(project: Project, render: Render, i: nat)
    requires DistinctXids(render, project.model) && i < |NodeIds(project.model)|
    ensures var x := EaId(render, NodeIds(project.model)[i]);
      var positions := ReadBoxes(map[], DiagramElements(project, render));
      x in positions && positions[x] == SnappedAt(project, i)
  {
    hide ReadBoxes, NodeIds, EaId, SnappedAt, DistinctXids, JoinBoxNodes, EdgeNodes;
    var boxes := BoxNodes(project, render);
    BoxCount(project, render);
    BoxNodesRead(project, render, |boxes|);
    FullPrefix(boxes);
    var rest := JoinBoxNodes(project, render, project.model.relationships) + EdgeNodes(render, project.model.relationships);
    assert DiagramElements(project, render) == boxes + rest;
    ReadBoxesConcat(map[], boxes, rest);
    BoxesAreKept(ReadBoxes(map[], boxes), rest, EaId(render, NodeIds(project.model)[i]));
    hide BoxNodes;
  }

  lemma OneDiagram(project: Project, render: Render)
    ensures var d := DiagramTree(project, render);
      ReadDiagrams(ClassDiagramsFirst([d])) ==
        Diagrams(ReadBoxes(map[], Find(d, "DiagramElement")), NonEmpty(Some(Clean(project.name))))
  {
    var d := DiagramTree(project, render);
    assert Get(d, "diagramType") == Some("ClassDiagram") && Get(d, "name") == Some(Clean(project.name));
    hide DiagramTree, Get, ReadBoxes, Find, Clean;
    assert [d][..0] == [];
    assert Where([d], true) == [d] && Where([d], false) == [];
  }
}
