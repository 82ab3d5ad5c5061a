/** The XMI 1.1 / UML 1.3 document the exporter writes (`xmi_interop/exporter.py`), as a tree. */
module XmiExport {
  import opened Text
  import opened Uml
  import opened Multiplicities
  import opened Naming
  import opened Schema
  import Mapper
  import opened Documents
  import opened Geometry
  import opened Xml
  import opened XmiNames

  /** What is exported of a project document. */
  datatype Project = Project(name: string, model: Model, layout: Layout)

  /** The columns of the computed join table of a relationship, where there is one. */
  type JoinTables = map<ElementId, Table>

  // ---- join tables -----------------------------------------------------

  /** `_is_join_relationship`. */
  predicate IsJoin(r: Relationship) {
    r.kind != Generalization && Mapper.IsMany(r.source.multiplicity) && Mapper.IsMany(r.target.multiplicity)
  }

  function ClassName(model: Model, id: ElementId): string {
    match ClassById(model.classes, id)
    case None => ""
    case Some(c) => c.name
  }

  function Names(model: Model): set<string> {
    (set c | c in model.classes :: c.name) + (set e | e in model.enumerations :: e.name)
  }

  /** The names in use before the n-th relationship is planned. */
  function TakenBefore(model: Model, n: nat): set<string>
    requires n <= |model.relationships|
    decreases n, 0
  {
    if n == 0 then Names(model)
    else if IsJoin(model.relationships[n - 1]) then TakenBefore(model, n - 1) + {JoinName(model, n - 1)}
    else TakenBefore(model, n - 1)
  }

  function JoinBase(model: Model, r: Relationship): string {
    ClassName(model, r.source.classId) + "_" + ClassName(model, r.target.classId)
  }

  /** The display name planned for the join class of the n-th relationship. */
  function JoinName(model: Model, n: nat): string
    requires n < |model.relationships|
    decreases n, 1
  {
    FreeJoinName(TakenBefore(model, n), JoinBase(model, model.relationships[n]))
  }

  function JoinKey(r: Relationship): string {
    r.id + ":join"
  }

  // ---- classes ---------------------------------------------------------

  function IndexIn<T(==)>(s: seq<T>, x: T): (i: nat)
    ensures i <= |s| && (x in s ==> i < |s| && s[i] == x)
    ensures forall k :: 0 <= k < i ==> s[k] != x
  {
    if s == [] || s[0] == x then 0 else 1 + IndexIn(s[1..], x)
  }

  /** The primitive types in the order of their first use, `order` before. */
  function UsedIn(order: seq<PrimitiveType>, attributes: seq<UmlAttribute>): (r: seq<PrimitiveType>)
    ensures order <= r
    ensures forall a :: a in attributes && a.typ.Primitive? ==> a.typ.primitive in r
  {
    if attributes == [] then order
    else
      var n := |attributes| - 1;
      var before := UsedIn(order, attributes[..n]);
      var typ := attributes[n].typ;
      if typ.Primitive? && typ.primitive !in before then before + [typ.primitive] else before
  }

  function PrimitiveOrder(classes: seq<UmlClass>): seq<PrimitiveType> {
    if classes == [] then []
    else UsedIn(PrimitiveOrder(classes[..|classes| - 1]), classes[|classes| - 1].attributes)
  }

  function TypeRef(render: Render, order: seq<PrimitiveType>, t: AttributeType): string {
    match t
    case EnumerationRef(id) => EaId(render, id)
    case Primitive(p) => TypeXid(IndexIn(order, p))
  }

  function TypeName(model: Model, t: AttributeType): string {
    match t
    case Primitive(p) => EaTypeName(p)
    case EnumerationRef(id) =>
      match EnumerationById(model.enumerations, id)
      case None => ""
      case Some(e) => e.name
  }

  function AttributeNode(model: Model, render: Render, order: seq<PrimitiveType>, a: UmlAttribute): Node {
    Node("Attribute", map["name" := Clean(a.name), "visibility" := VisibilityText(a.visibility)], [
      Tags([("type", Clean(TypeName(model, a.typ)))]),
      Node("Attribute.initialValue", map[], [Node("Expression", map[], [])]),
      Node("StructuralFeature.type", map[], [
        Node("Classifier", map["xmi.idref" := TypeRef(render, order, a.typ)], [])
      ])
    ])
  }

  function OperationNode(o: UmlOperation): Node {
    Node("Operation", map["name" := Clean(o.name), "visibility" := VisibilityText(o.visibility)], [])
  }

  function AttributeNodes(model: Model, render: Render, order: seq<PrimitiveType>, attributes: seq<UmlAttribute>): seq<Node> {
    seq(|attributes|, i requires 0 <= i < |attributes| => AttributeNode(model, render, order, attributes[i]))
  }

  function OperationNodes(operations: seq<UmlOperation>): seq<Node> {
    seq(|operations|, i requires 0 <= i < |operations| => OperationNode(operations[i]))
  }

  /** The frame of every `UML:Class` element but the root class. */
  function ClassifierNode(name: string, xid: string, visibility: string, head: seq<Node>, features: seq<Node>): Node {
    Node("Class", map["name" := name, "xmi.id" := xid, "visibility" := visibility, "isRoot" := "false"],
      head + [Node("Classifier.feature", map[], features)])
  }

  function ClassNode(model: Model, render: Render, order: seq<PrimitiveType>, c: UmlClass): Node {
    ClassifierNode(Clean(c.name), EaId(render, c.id), VisibilityText(c.visibility), [Tags([("ea_stype", "Class")])],
      AttributeNodes(model, render, order, c.attributes) + OperationNodes(c.operations))
  }

  function ClassNodes(model: Model, render: Render, order: seq<PrimitiveType>, classes: seq<UmlClass>): seq<Node> {
    seq(|classes|, i requires 0 <= i < |classes| => ClassNode(model, render, order, classes[i]))
  }

  // ---- enumerations ----------------------------------------------------

  function LiteralNode(literal: EnumerationLiteral): Node {
    Node("Attribute", map["name" := Clean(literal.name), "visibility" := "public"], [])
  }

  function LiteralNodes(literals: seq<EnumerationLiteral>): seq<Node> {
    seq(|literals|, i requires 0 <= i < |literals| => LiteralNode(literals[i]))
  }

  function EnumerationNode(render: Render, e: Enumeration): Node {
    ClassifierNode(Clean(e.name), EaId(render, e.id), "public", [
        Tags([("ea_stype", "Enumeration")]),
        Node("ModelElement.stereotype", map[], [Node("Stereotype", map["name" := "enumeration"], [])])
      ], LiteralNodes(e.literals))
  }

  function EnumerationNodes(render: Render, enumerations: seq<Enumeration>): seq<Node> {
    seq(|enumerations|, i requires 0 <= i < |enumerations| => EnumerationNode(render, enumerations[i]))
  }

  // ---- relationships ---------------------------------------------------

  function ColumnNode(column: Column): Node {
    Node("Attribute", map["name" := Clean(column.name), "visibility" := "public"],
      [Tags([("type", ColumnTypeText(column.typ))])])
  }

  function ColumnNodes(tables: JoinTables, id: ElementId): seq<Node> {
    if id in tables then
      seq(|tables[id].columns|, i requires 0 <= i < |tables[id].columns| => ColumnNode(tables[id].columns[i]))
    else []
  }

  /** `_write_join_class`: marked as ours, pointing back at its association. */
  function JoinClassNode(render: Render, tables: JoinTables, r: Relationship, name: string): Node {
    ClassifierNode(Clean(name), EaId(render, JoinKey(r)), "public",
      [Tags([("ea_stype", "Class"), ("conID", EaId(render, r.id)), ("modelia_synthetic", "join_table")])],
      ColumnNodes(tables, r.id))
  }

  /** The diamond is written on the source end. */
  function SourceAggregation(kind: RelationshipKind): string {
    match kind
    case Aggregation => "shared"
    case Composition => "composite"
    case _ => "none"
  }

  function EndNode(render: Render, end: RelationshipEnd, aggregation: string): Node {
    var attributes := map[
      "multiplicity" := FormatMultiplicity(end.multiplicity), "aggregation" := aggregation,
      "type" := EaId(render, end.classId)];
    Node("AssociationEnd",
      if TextOr(end.role, "") != "" then attributes["name" := Clean(TextOr(end.role, ""))] else attributes, [])
  }

  function AssociationTags(render: Render, r: Relationship): seq<(string, string)> {
    var eaType := if r.kind == Association then "Association" else "Aggregation";
    if IsJoin(r) then [("ea_type", eaType), ("associationclass", EaId(render, JoinKey(r)))] else [("ea_type", eaType)]
  }

  function RelationshipNode(render: Render, r: Relationship): Node {
    if r.kind == Generalization then
      Node("Generalization",
        map["xmi.id" := EaId(render, r.id), "subtype" := EaId(render, r.source.classId), "supertype" := EaId(render, r.target.classId)],
        [Tags([("ea_type", "Generalization")])])
    else
      Node("Association", map["name" := Clean(TextOr(r.name, "")), "xmi.id" := EaId(render, r.id)], [
        Tags(AssociationTags(render, r)),
        Node("Association.connection", map[], [
          EndNode(render, r.source, SourceAggregation(r.kind)), EndNode(render, r.target, "none")
        ])
      ])
  }

  /** The elements of the first n relationships, each join class before its association. */
  function RelationshipNodes(model: Model, render: Render, tables: JoinTables, n: nat): seq<Node>
    requires n <= |model.relationships|
  {
    if n == 0 then []
    else
      var r := model.relationships[n - 1];
      RelationshipNodes(model, render, tables, n - 1)
      + (if IsJoin(r) then [JoinClassNode(render, tables, r, JoinName(model, n - 1))] else [])
      + [RelationshipNode(render, r)]
  }

  // ---- data types ------------------------------------------------------

  function DatatypeNode(k: nat, p: PrimitiveType): Node {
    Node("DataType", map["xmi.id" := TypeXid(k), "name" := EaTypeName(p)], [])
  }

  function DatatypeNodes(order: seq<PrimitiveType>): seq<Node> {
    seq(|order|, i requires 0 <= i < |order| => DatatypeNode(i, order[i]))
  }

  // ---- the diagram -----------------------------------------------------

  function EnumerationIds(enumerations: seq<Enumeration>): seq<ElementId> {
    seq(|enumerations|, i requires 0 <= i < |enumerations| => enumerations[i].id)
  }

  /** Classes, then enumerations: the boxes with a place in the layout or on the grid. */
  function NodeIds(model: Model): seq<ElementId> {
    ClassIds(model.classes) + EnumerationIds(model.enumerations)
  }

  function FeatureRows(model: Model, i: nat): nat
    requires i < |NodeIds(model)|
  {
    if i < |model.classes| then |model.classes[i].attributes| + |model.classes[i].operations|
    else |model.enumerations[i - |model.classes|].literals|
  }

  function HeightAt(model: Model, i: nat): int
    requires i < |NodeIds(model)|
  {
    BoxHeight(FeatureRows(model, i))
  }

  /** The stored position, or a place on a grid of four columns. */
  function CentreAt(project: Project, i: nat): Position
    requires i < |NodeIds(project.model)|
  {
    var id := NodeIds(project.model)[i];
    if id in project.layout then project.layout[id]
    else
      Position(100.0 + BOX_WIDTH as real / 2.0 + (i % 4 * 200) as real,
               100.0 + HeightAt(project.model, i) as real / 2.0 + (i / 4 * 150) as real)
  }

  function DiagramNode(geometry: string, subject: string): Node {
    Node("DiagramElement", map["geometry" := geometry, "subject" := subject], [])
  }

  function BoxNodes(project: Project, render: Render): seq<Node> {
    var ids := NodeIds(project.model);
    seq(|ids|, i requires 0 <= i < |ids| =>
      DiagramNode(BoxText(CentreAt(project, i), HeightAt(project.model, i)), EaId(render, ids[i])))
  }

  /** The centre of a class box, or the origin for an id without a box. */
  function CentreOfClass(project: Project, id: ElementId): Position {
    var i := IndexIn(NodeIds(project.model), id);
    if i < |NodeIds(project.model)| then CentreAt(project, i) else Position(0.0, 0.0)
  }

  /** A join class sits beside the middle of its two classes. */
  function JoinBoxNodes(project: Project, render: Render, relationships: seq<Relationship>): seq<Node> {
    if relationships == [] then []
    else
      var r := relationships[|relationships| - 1];
      var a, b := CentreOfClass(project, r.source.classId), CentreOfClass(project, r.target.classId);
      JoinBoxNodes(project, render, relationships[..|relationships| - 1])
      + if IsJoin(r) then
          [DiagramNode(BoxText(Position((a.x + b.x) / 2.0 + 40.0, (a.y + b.y) / 2.0 + 40.0), BoxHeight(0)),
                       EaId(render, JoinKey(r)))]
        else []
  }

  function EdgeNodes(render: Render, relationships: seq<Relationship>): seq<Node> {
    seq(|relationships|, i requires 0 <= i < |relationships| =>
      DiagramNode(EDGE_GEOMETRY, EaId(render, relationships[i].id)))
  }

  function DiagramElements(project: Project, render: Render): seq<Node> {
    BoxNodes(project, render) + JoinBoxNodes(project, render, project.model.relationships)
    + EdgeNodes(render, project.model.relationships)
  }

  // ---- the document ----------------------------------------------------

  function RootClassNode(): Node {
    Node("Class", map["name" := ROOT_CLASS, "xmi.id" := "EAID_11111111_5487_4080_A7F4_41526CB0AA00", "isRoot" := "true"], [])
  }

  function PackageElements(project: Project, render: Render, tables: JoinTables): seq<Node> {
    var model := project.model;
    ClassNodes(model, render, PrimitiveOrder(model.classes), model.classes)
    + EnumerationNodes(render, model.enumerations)
    + RelationshipNodes(model, render, tables, |model.relationships|)
  }

  function PackageNode(project: Project, render: Render, tables: JoinTables): Node {
    Node("Package", map["name" := Clean(project.name), "isRoot" := "false"],
      [Node("Namespace.ownedElement", map[], PackageElements(project, render, tables))])
  }

  function ModelNode(project: Project, render: Render, tables: JoinTables): Node {
    Node("Model", map["name" := "EA Model"], [
      Node("Namespace.ownedElement", map[],
        [RootClassNode(), PackageNode(project, render, tables)] + DatatypeNodes(PrimitiveOrder(project.model.classes)))
    ])
  }

  function DiagramTree(project: Project, render: Render): Node {
    Node("Diagram", map["name" := Clean(project.name), "diagramType" := "ClassDiagram"], [
      Tags([("type", "Logical")]),
      Node("Diagram.element", map[], DiagramElements(project, render))
    ])
  }

  /** Ends and enumeration references exist; the exporter fails on any other model. */
  predicate Exportable(model: Model) {
    && (forall r :: r in model.relationships ==> IsClassId(model, r.source.classId) && IsClassId(model, r.target.classId))
    && forall c, a :: c in model.classes && a in c.attributes && a.typ.EnumerationRef? ==>
         EnumerationById(model.enumerations, a.typ.enumerationId).Some?
  }

  /** `export_xmi` without the serialisation; `None` stands for the exception. */
  function Export(project: Project, render: Render, tables: JoinTables): Option<Node> {
    if !Exportable(project.model) then None
    else
      Some(Node("XMI", map["xmi.version" := "1.1"], [
        Node("XMI.header", map[], [Node("XMI.documentation", map[], [])]),
        Node("XMI.content", map[], [ModelNode(project, render, tables), DiagramTree(project, render)]),
        Node("XMI.difference", map[], []),
        Node("XMI.extensions", map[], [Node("EAModel.paramSub", map[], [])])
      ]))
  }
}
