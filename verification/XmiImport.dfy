/** The XMI 1.1 reader and the mapping to the canonical model (`xmi_interop/importer.py`).
    Warnings are not modelled. */
module XmiImport {
  import opened Text
  import opened Uml
  import opened Multiplicities
  import opened Documents
  import opened Geometry
  import opened Xml
  import opened XmiNames

  // ---- the neutral structure -------------------------------------------

  datatype RawAttribute = RawAttribute(name: string, typeName: Option<string>, typeRef: Option<string>, visibility: Option<string>)

  datatype RawOperation = RawOperation(name: string, visibility: Option<string>)

  /** `literals` is present exactly for an enumeration. */
  datatype RawClass = RawClass(
    xid: string,
    name: string,
    attributes: seq<RawAttribute>,
    operations: seq<RawOperation>,
    literals: Option<seq<string>>,
    visibility: Option<string>,
    synthetic: bool)

  datatype RawEnd = RawEnd(
    classRef: Option<string>, multiplicity: Option<string>, whole: bool, kind: RelationshipKind, role: Option<string>)

  datatype RawAssociation = RawAssociation(name: Option<string>, ends: seq<RawEnd>, associationClass: Option<string>)

  datatype RawGeneralization = RawGeneralization(child: Option<string>, parent: Option<string>)

  datatype Raw = Raw(
    classes: seq<RawClass>,
    associations: seq<RawAssociation>,
    generalizations: seq<RawGeneralization>,
    datatypes: map<string, string>,
    packageName: Option<string>)

  const EMPTY_RAW := Raw([], [], [], map[], None)

  // ---- readers ---------------------------------------------------------

  function TagOr(tags: map<string, string>, tag: string): Option<string> {
    if tag in tags then Some(tags[tag]) else None
  }

  function ReadAttribute(feature: Node): RawAttribute {
    var holder := Kid(feature, "StructuralFeature.type");
    RawAttribute(
      GetOr(feature, "name", ""),
      NonEmpty(TagOr(Tagged(feature), "type")),
      if holder.Some? then IdrefBelow(holder.value) else None,
      Get(feature, "visibility"))
  }

  function ReadAttributes(features: seq<Node>): seq<RawAttribute> {
    if features == [] then []
    else
      var last := features[|features| - 1];
      ReadAttributes(features[..|features| - 1]) + if last.tag == "Attribute" then [ReadAttribute(last)] else []
  }

  function ReadOperations(features: seq<Node>): seq<RawOperation> {
    if features == [] then []
    else
      var last := features[|features| - 1];
      ReadOperations(features[..|features| - 1])
      + if last.tag == "Operation" then [RawOperation(GetOr(last, "name", ""), Get(last, "visibility"))] else []
  }

  /** The attribute names of an enumeration are its literals. */
  function ReadLiterals(features: seq<Node>): seq<string> {
    if features == [] then []
    else
      var last := features[|features| - 1];
      ReadLiterals(features[..|features| - 1]) + if last.tag == "Attribute" then [GetOr(last, "name", "")] else []
  }

  function FirstStereotype(el: Node): string {
    var found := Find(el, "Stereotype");
    if found == [] then "" else GetOr(found[0], "name", "")
  }

  predicate IsRootClass(el: Node) {
    || Get(el, "isRoot") == Some("true") || GetOr(el, "name", "") == ROOT_CLASS
    || TagOr(Tagged(el), "ea_stype") == Some("EAStub")
  }

  predicate IsEnumerationClass(el: Node) {
    TagOr(Tagged(el), "ea_stype") == Some("Enumeration") || Lower(FirstStereotype(el)) == "enumeration"
  }

  function Features(el: Node): seq<Node> {
    var holder := Kid(el, "Classifier.feature");
    if holder.Some? then holder.value.children else []
  }

  /** `_read_class_v1`; `None` for the elements it skips. */
  function ReadClass(el: Node): Option<RawClass> {
    if IsRootClass(el) then None
    else
      var features := Features(el);
      Some(RawClass(
        GetOr(el, "xmi.id", ""), GetOr(el, "name", ""),
        if IsEnumerationClass(el) then [] else ReadAttributes(features),
        ReadOperations(features),
        if IsEnumerationClass(el) then Some(ReadLiterals(features)) else None,
        Get(el, "visibility"),
        TagOr(Tagged(el), "modelia_synthetic") == Some("join_table")))
  }

  /** `_read_association_v1`, one end. */
  function ReadEnd(end: Node): RawEnd {
    var aggregation := Lower(if NonEmpty(Get(end, "aggregation")).Some? then end.attributes["aggregation"] else "none");
    RawEnd(
      if NonEmpty(Get(end, "type")).Some? then Get(end, "type") else IdrefBelow(end),
      NonEmpty(Get(end, "multiplicity")),
      aggregation in {"aggregate", "shared", "composite"},
      if aggregation == "composite" then Composition else Aggregation,
      NonEmpty(Get(end, "name")))
  }

  function ReadEnds(ends: seq<Node>): seq<RawEnd> {
    seq(|ends|, i requires 0 <= i < |ends| => ReadEnd(ends[i]))
  }

  function ReadAssociation(el: Node): RawAssociation {
    var connection := Kid(el, "Association.connection");
    RawAssociation(
      NonEmpty(Get(el, "name")),
      if connection.Some? then ReadEnds(Kids(connection.value, "AssociationEnd")) else [],
      NonEmpty(TagOr(Tagged(el), "associationclass")))
  }

  function IdrefBelowKid(el: Node, tag: string): Option<string> {
    var holder := Kid(el, tag);
    if holder.Some? then IdrefBelow(holder.value) else None
  }

  function ReadGeneralization(el: Node): RawGeneralization {
    RawGeneralization(
      Or(Or(Get(el, "child"), Get(el, "subtype")), IdrefBelowKid(el, "Generalization.child")),
      Or(Or(Get(el, "parent"), Get(el, "supertype")), IdrefBelowKid(el, "Generalization.parent")))
  }

  function LiteralNames(literals: seq<Node>): seq<string> {
    seq(|literals|, i requires 0 <= i < |literals| => GetOr(literals[i], "name", ""))
  }

  /** One element of a namespace that is no package. */
  function ReadElement(raw: Raw, el: Node): Raw {
    if el.tag == "Class" then
      match ReadClass(el)
      case None => raw
      case Some(c) => raw.(classes := raw.classes + [c])
    else if el.tag == "Enumeration" then
      raw.(classes := raw.classes + [RawClass(
        GetOr(el, "xmi.id", ""), GetOr(el, "name", ""), [], [],
        Some(LiteralNames(Find(el, "EnumerationLiteral"))), None, false)])
    else if el.tag == "Association" then raw.(associations := raw.associations + [ReadAssociation(el)])
    else if el.tag == "Generalization" then raw.(generalizations := raw.generalizations + [ReadGeneralization(el)])
    else if el.tag == "DataType" then
      raw.(datatypes := raw.datatypes[GetOr(el, "xmi.id", "") := GetOr(el, "name", "")])
    else raw
  }

  /** `_walk_v1`. */
  function Walk(raw: Raw, container: Node): Raw
    decreases container
  {
    match Kid(container, "Namespace.ownedElement")
    case None => raw
    case Some(owned) => WalkAll(raw, owned.children)
  }

  function WalkAll(raw: Raw, elements: seq<Node>): Raw
    decreases elements
  {
    if elements == [] then raw
    else
      var before := WalkAll(raw, elements[..|elements| - 1]);
      var el := elements[|elements| - 1];
      if el.tag == "Package" then
        Walk(before.(packageName :=
          if NonEmpty(before.packageName).Some? then before.packageName else Some(GetOr(el, "name", ""))), el)
      else ReadElement(before, el)
  }

  // ---- diagrams --------------------------------------------------------

  datatype Diagrams = Diagrams(positions: map<string, Position>, name: Option<string>)

  /** One `DiagramElement`; the first box of a subject counts. */
  function ReadBox(positions: map<string, Position>, element: Node): map<string, Position> {
    var subject := NonEmpty(Get(element, "subject"));
    var centre := CentreOf(GetOr(element, "geometry", ""));
    if subject.Some? && centre.Some? && subject.value !in positions then positions[subject.value := centre.value]
    else positions
  }

  function ReadBoxes(positions: map<string, Position>, elements: seq<Node>): map<string, Position> {
    if elements == [] then positions
    else ReadBox(ReadBoxes(positions, elements[..|elements| - 1]), elements[|elements| - 1])
  }

  predicate IsClassDiagram(d: Node) {
    Get(d, "diagramType") == Some("ClassDiagram")
  }

  /** The stable sort that puts class diagrams first. */
  function ClassDiagramsFirst(diagrams: seq<Node>): seq<Node> {
    Where(diagrams, true) + Where(diagrams, false)
  }

  function Where(diagrams: seq<Node>, wanted: bool): seq<Node> {
    if diagrams == [] then []
    else
      var last := diagrams[|diagrams| - 1];
      Where(diagrams[..|diagrams| - 1], wanted) + if IsClassDiagram(last) == wanted then [last] else []
  }

  function ReadDiagrams(diagrams: seq<Node>): Diagrams {
    if diagrams == [] then Diagrams(map[], None)
    else
      var before := ReadDiagrams(diagrams[..|diagrams| - 1]);
      var d := diagrams[|diagrams| - 1];
      var named := before.name.None? && (Get(d, "diagramType").None? || IsClassDiagram(d));
      Diagrams(ReadBoxes(before.positions, Find(d, "DiagramElement")), if named then NonEmpty(Get(d, "name")) else before.name)
  }

  // ---- canonical mapping -----------------------------------------------

  /** Where `new_id()` is called. */
  datatype Site =
    | ClassSite(xid: string)
    | LiteralSite(xid: string, k: nat)
    | AttributeSite(xid: string, k: nat)
    | OperationSite(xid: string, k: nat)
    | GeneralizationSite(k: nat)
    | AssociationSite(k: nat)

  /** The new ids of one import. */
  type NewIds = Site -> ElementId

  ghost predicate AllNew(newId: NewIds) {
    forall a, b :: newId(a) == newId(b) ==> a == b
  }

  predicate IsEnum(c: RawClass) {
    c.literals.Some?
  }

  function XidsWhere(classes: seq<RawClass>, enums: bool): set<string> {
    set c | c in classes && IsEnum(c) == enums :: c.xid
  }

  /** `enum_names`: the last enumeration with a name wins. */
  function EnumXidNamed(classes: seq<RawClass>, name: string): Option<string> {
    if classes == [] then None
    else
      var last := classes[|classes| - 1];
      if IsEnum(last) && last.name == name then Some(last.xid)
      else EnumXidNamed(classes[..|classes| - 1], name)
  }

  /** `class_refs`: ids and names of the classes. */
  function ClassRefs(classes: seq<RawClass>): set<string> {
    XidsWhere(classes, false) + set c | c in classes && !IsEnum(c) :: c.name
  }

  /** `_resolve_type`; `None` drops the attribute. */
  function ResolveType(newId: NewIds, raw: Raw, a: RawAttribute): Option<AttributeType> {
    var refs := ClassRefs(raw.classes);
    if a.typeRef.Some? && a.typeRef.value in XidsWhere(raw.classes, true) then
      Some(EnumerationRef(newId(ClassSite(a.typeRef.value))))
    else if (a.typeRef.Some? && a.typeRef.value in refs) || (a.typeName.Some? && a.typeName.value in refs) then None
    else
      var name :=
        if a.typeRef.Some? && a.typeRef.value in raw.datatypes then Some(raw.datatypes[a.typeRef.value]) else a.typeName;
      var named := if name.Some? then EnumXidNamed(raw.classes, name.value) else None;
      if named.Some? then Some(EnumerationRef(newId(ClassSite(named.value))))
      else
        match PrimitiveNamed(Lower(Strip(TextOr(name, ""))))
        case None => Some(Primitive(String))
        case Some(p) => Some(Primitive(p))
  }

  function BuildAttributes(newId: NewIds, raw: Raw, xid: string, attributes: seq<RawAttribute>): seq<UmlAttribute> {
    if attributes == [] then []
    else
      var n := |attributes| - 1;
      var a := attributes[n];
      BuildAttributes(newId, raw, xid, attributes[..n])
      + match ResolveType(newId, raw, a)
        case None => []
        case Some(typ) =>
          [UmlAttribute(newId(AttributeSite(xid, n)), a.name, typ, VisibilityOr(a.visibility, Private))]
  }

  function VisibilityOr(text: Option<string>, default: Visibility): Visibility {
    match VisibilityNamed(text)
    case None => default
    case Some(v) => v
  }

  function BuildOperations(newId: NewIds, xid: string, operations: seq<RawOperation>): seq<UmlOperation> {
    seq(|operations|, i requires 0 <= i < |operations| =>
      UmlOperation(newId(OperationSite(xid, i)), operations[i].name, None, [], VisibilityOr(operations[i].visibility, Public)))
  }

  function BuildClass(newId: NewIds, raw: Raw, c: RawClass): UmlClass {
    UmlClass(newId(ClassSite(c.xid)), c.name, BuildAttributes(newId, raw, c.xid, c.attributes),
      BuildOperations(newId, c.xid, c.operations), VisibilityOr(c.visibility, Public))
  }

  /** `association_class_ids`: the classes an association is tagged with. */
  function AssociationClassXids(associations: seq<RawAssociation>): set<string> {
    set a | a in associations && a.associationClass.Some? :: a.associationClass.value
  }

  predicate IsEmptyClass(c: UmlClass) {
    c.attributes == [] && c.operations == []
  }

  /** `_hide_association_classes`. */
  predicate IsHidden(raw: Raw, c: RawClass, built: UmlClass) {
    c.xid in AssociationClassXids(raw.associations) && (c.synthetic || IsEmptyClass(built))
  }

  /** The classes of a prefix of the raw classes, built and not hidden. */
  function BuildClasses(newId: NewIds, raw: Raw, classes: seq<RawClass>): seq<UmlClass> {
    if classes == [] then []
    else
      var c := classes[|classes| - 1];
      BuildClasses(newId, raw, classes[..|classes| - 1])
      + if IsEnum(c) || IsHidden(raw, c, BuildClass(newId, raw, c)) then [] else [BuildClass(newId, raw, c)]
  }

  function BuildLiterals(newId: NewIds, xid: string, literals: seq<string>): seq<EnumerationLiteral> {
    seq(|literals|, i requires 0 <= i < |literals| => EnumerationLiteral(newId(LiteralSite(xid, i)), literals[i], None))
  }

  function BuildEnumerations(newId: NewIds, classes: seq<RawClass>): seq<Enumeration> {
    if classes == [] then []
    else
      var c := classes[|classes| - 1];
      BuildEnumerations(newId, classes[..|classes| - 1])
      + if IsEnum(c) then [Enumeration(newId(ClassSite(c.xid)), c.name, BuildLiterals(newId, c.xid, c.literals.value))] else []
  }

  /** `_multiplicity`. */
  function MultiplicityOf(text: Option<string>): Multiplicity {
    match ParseMultiplicity(Strip(TextOr(if NonEmpty(text).Some? then text else Some("0..*"), "")))
    case Some(m) => m
    case None => Multiplicity(0, None)
  }

  predicate IsClassRef(xids: set<string>, ref: Option<string>) {
    ref.Some? && ref.value in xids
  }

  function BuildGeneralizations(newId: NewIds, xids: set<string>, generalizations: seq<RawGeneralization>): seq<Relationship> {
    if generalizations == [] then []
    else
      var n := |generalizations| - 1;
      var g := generalizations[n];
      BuildGeneralizations(newId, xids, generalizations[..n])
      + if IsClassRef(xids, g.child) && IsClassRef(xids, g.parent) then
          [Relationship(newId(GeneralizationSite(n)), Generalization,
             RelationshipEnd(newId(ClassSite(g.child.value)), ONE, None),
             RelationshipEnd(newId(ClassSite(g.parent.value)), ONE, None), None)]
        else []
  }

  function BuildEnd(newId: NewIds, end: RawEnd): RelationshipEnd
    requires end.classRef.Some?
  {
    RelationshipEnd(newId(ClassSite(end.classRef.value)), MultiplicityOf(end.multiplicity), end.role)
  }

  /** The whole end becomes the source. */
  function BuildAssociation(newId: NewIds, id: ElementId, a: RawAssociation): Relationship
    requires |a.ends| == 2 && a.ends[0].classRef.Some? && a.ends[1].classRef.Some?
  {
    var first, second := a.ends[0], a.ends[1];
    var swapped := !first.whole && second.whole;
    var source, target := if swapped then second else first, if swapped then first else second;
    Relationship(id, if source.whole then source.kind else Association, BuildEnd(newId, source), BuildEnd(newId, target), a.name)
  }

  predicate ConnectsClasses(xids: set<string>, a: RawAssociation) {
    |a.ends| == 2 && IsClassRef(xids, a.ends[0].classRef) && IsClassRef(xids, a.ends[1].classRef)
  }

  function BuildAssociations(newId: NewIds, xids: set<string>, associations: seq<RawAssociation>): seq<Relationship> {
    if associations == [] then []
    else
      var n := |associations| - 1;
      BuildAssociations(newId, xids, associations[..n])
      + if ConnectsClasses(xids, associations[n])
        then [BuildAssociation(newId, newId(AssociationSite(n)), associations[n])] else []
  }

  /** `_build` without the layout. */
  function BuildModel(newId: NewIds, raw: Raw): Model {
    var xids := XidsWhere(raw.classes, false);
    Model(
      BuildClasses(newId, raw, raw.classes),
      BuildEnumerations(newId, raw.classes),
      BuildGeneralizations(newId, xids, raw.generalizations) + BuildAssociations(newId, xids, raw.associations),
      map[])
  }

  function KeptXids(newId: NewIds, raw: Raw): set<string> {
    set c | c in raw.classes && !IsEnum(c) && !IsHidden(raw, c, BuildClass(newId, raw, c)) :: c.xid
  }

  /** The positions of the classes that are kept, under their new ids. */
  function BuildLayout(newId: NewIds, raw: Raw, positions: map<string, Position>): Layout
    requires AllNew(newId)
  {
    map xid | xid in KeptXids(newId, raw) && xid in positions :: newId(ClassSite(xid)) := positions[xid]
  }

  datatype ImportError = NotXmi1 | NoModel | NoClasses

  datatype Imported = Imported(model: Model, layout: Layout, name: Option<string>)

  /** `import_xmi` for an XMI 1.1 document. */
  function Import(newId: NewIds, root: Node): Result<Imported, ImportError>
    requires AllNew(newId)
  {
    match Kid(root, "XMI.content")
    case None => Err(NotXmi1)
    case Some(content) =>
      if root.tag != "XMI" then Err(NotXmi1)
      else
        var models := Find(content, "Model");
        if models == [] then Err(NoModel)
        else
          var raw := Walk(EMPTY_RAW, models[0]);
          var diagrams := ReadDiagrams(ClassDiagramsFirst(Find(content, "Diagram")));
          var model := BuildModel(newId, raw);
          if model.classes == [] then Err(NoClasses)
          else
            Ok(Imported(model, BuildLayout(newId, raw, diagrams.positions),
                        if NonEmpty(diagrams.name).Some? then diagrams.name else raw.packageName))
  }
}
