/** Exporting a model and importing it again: exactly when, and to what normal form, the model comes back. */
module XmiRoundTrip {
  import opened Text
  import opened Seqs
  import opened Uml
  import opened Multiplicities
  import opened Schema
  import opened Documents
  import opened Xml
  import opened XmiNames
  import opened XmiExport
  import opened XmiImport
  import opened XmiReads

  // ---- the normal form -------------------------------------------------

  /** The new id of the class or enumeration that had this id. */
  function NewClassId(newId: NewIds, render: Render, id: ElementId): ElementId {
    newId(ClassSite(EaId(render, id)))
  }

  function NormalType(newId: NewIds, render: Render, t: AttributeType): AttributeType {
    match t
    case Primitive(p) => Primitive(p)
    case EnumerationRef(id) => EnumerationRef(NewClassId(newId, render, id))
  }

  function NormalAttributes(newId: NewIds, render: Render, xid: string, attributes: seq<UmlAttribute>): seq<UmlAttribute> {
    seq(|attributes|, i requires 0 <= i < |attributes| =>
      UmlAttribute(newId(AttributeSite(xid, i)), Clean(attributes[i].name), NormalType(newId, render, attributes[i].typ),
                   attributes[i].visibility))
  }

  /** Signatures are not imported. */
  function NormalOperations(newId: NewIds, xid: string, operations: seq<UmlOperation>): seq<UmlOperation> {
    seq(|operations|, i requires 0 <= i < |operations| =>
      UmlOperation(newId(OperationSite(xid, i)), Clean(operations[i].name), None, [], operations[i].visibility))
  }

  function NormalClass(newId: NewIds, render: Render, c: UmlClass): UmlClass {
    var xid := EaId(render, c.id);
    UmlClass(newId(ClassSite(xid)), Clean(c.name), NormalAttributes(newId, render, xid, c.attributes),
             NormalOperations(newId, xid, c.operations), c.visibility)
  }

  function NormalClasses(newId: NewIds, render: Render, classes: seq<UmlClass>): seq<UmlClass> {
    seq(|classes|, i requires 0 <= i < |classes| => NormalClass(newId, render, classes[i]))
  }

  /** Literal values are not written. */
  function NormalEnumeration(newId: NewIds, render: Render, e: Enumeration): Enumeration {
    var xid := EaId(render, e.id);
    Enumeration(newId(ClassSite(xid)), Clean(e.name),
      seq(|e.literals|, i requires 0 <= i < |e.literals| =>
        EnumerationLiteral(newId(LiteralSite(xid, i)), Clean(e.literals[i].name), None)))
  }

  function NormalEnumerations(newId: NewIds, render: Render, enumerations: seq<Enumeration>): seq<Enumeration> {
    seq(|enumerations|, i requires 0 <= i < |enumerations| => NormalEnumeration(newId, render, enumerations[i]))
  }

  function NormalEnd(newId: NewIds, render: Render, end: RelationshipEnd): RelationshipEnd {
    RelationshipEnd(NewClassId(newId, render, end.classId), end.multiplicity, NonEmpty(Some(Clean(TextOr(end.role, "")))))
  }

  function KindCount(relationships: seq<Relationship>, generalizations: bool): nat {
    if relationships == [] then 0
    else
      KindCount(relationships[..|relationships| - 1], generalizations)
      + if (relationships[|relationships| - 1].kind == Generalization) == generalizations then 1 else 0
  }

  /** The generalizations in order, their ends reset to 1..1 without role or name. */
  function NormalGeneralizations(newId: NewIds, render: Render, relationships: seq<Relationship>): seq<Relationship> {
    if relationships == [] then []
    else
      var n := |relationships| - 1;
      var r := relationships[n];
      NormalGeneralizations(newId, render, relationships[..n])
      + if r.kind == Generalization then
          [Relationship(newId(GeneralizationSite(KindCount(relationships[..n], true))), Generalization,
             RelationshipEnd(NewClassId(newId, render, r.source.classId), ONE, None),
             RelationshipEnd(NewClassId(newId, render, r.target.classId), ONE, None), None)]
        else []
  }

  /** The other relationships in order: kind, ends and multiplicities as they were, texts cleaned. */
  function NormalAssociations(newId: NewIds, render: Render, relationships: seq<Relationship>): seq<Relationship> {
    if relationships == [] then []
    else
      var n := |relationships| - 1;
      var r := relationships[n];
      NormalAssociations(newId, render, relationships[..n])
      + if r.kind != Generalization then
          [Relationship(newId(AssociationSite(KindCount(relationships[..n], false))), r.kind,
             NormalEnd(newId, render, r.source), NormalEnd(newId, render, r.target), NonEmpty(Some(Clean(TextOr(r.name, "")))))]
        else []
  }

  /** The model a round trip is meant to give back: new ids, clean names, no metadata,
      generalizations first. */
  function Normal(newId: NewIds, render: Render, model: Model): Model {
    Model(
      NormalClasses(newId, render, model.classes),
      NormalEnumerations(newId, render, model.enumerations),
      NormalGeneralizations(newId, render, model.relationships) + NormalAssociations(newId, render, model.relationships),
      map[])
  }

  // ---- which models come back ------------------------------------------

  function JoinKeys(relationships: seq<Relationship>): seq<string> {
    if relationships == [] then []
    else
      var r := relationships[|relationships| - 1];
      JoinKeys(relationships[..|relationships| - 1]) + if IsJoin(r) then [JoinKey(r)] else []
  }

  function EaIds(render: Render, ids: seq<string>): seq<string> {
    seq(|ids|, i requires 0 <= i < |ids| => EaId(render, ids[i]))
  }

  /** The ids the exporter writes for classes, enumerations and join classes are all different. */
  ghost predicate DistinctXids(render: Render, model: Model) {
    Distinct(EaIds(render, NodeIds(model) + JoinKeys(model.relationships)))
  }

  /** No class or enumeration is named like the root class of the dialect. */
  ghost predicate NoRootNames(model: Model) {
    && (forall c :: c in model.classes ==> Clean(c.name) != ROOT_CLASS)
    && (forall e :: e in model.enumerations ==> Clean(e.name) != ROOT_CLASS)
  }

  /** A class called `name` would swallow attributes of that type. */
  predicate ClassNamed(model: Model, name: string) {
    exists c :: c in model.classes && Clean(c.name) == name
  }

  predicate EnumerationNamed(model: Model, name: string) {
    exists e :: e in model.enumerations && Clean(e.name) == name
  }

  /** An attribute of this primitive type is read back as such. */
  predicate TypeIsSafe(model: Model, p: PrimitiveType) {
    && !ClassNamed(model, EaTypeName(p)) && !ClassNamed(model, TypeXid(IndexIn(PrimitiveOrder(model.classes), p)))
    && !EnumerationNamed(model, EaTypeName(p))
  }

  ghost predicate TypesAreSafe(model: Model) {
    forall c, a :: c in model.classes && a in c.attributes && a.typ.Primitive? ==> TypeIsSafe(model, a.typ.primitive)
  }

  /** The models that survive a round trip. */
  ghost predicate Portable(model: Model) {
    NoRootNames(model) && TypesAreSafe(model)
  }

  // ---- ids -------------------------------------------------------------

  lemma ClassIdIsNode(model: Model, c: UmlClass)
    requires c in model.classes
    ensures c.id in NodeIds(model)
  {
    var i :| 0 <= i < |model.classes| && model.classes[i] == c;
    assert NodeIds(model)[i] == c.id;
  }

  lemma {:induction false} JoinKeysMembers(relationships: seq<Relationship>, r: Relationship)
    requires r in relationships && IsJoin(r)
    ensures JoinKey(r) in JoinKeys(relationships)
  {
    hide IsJoin, JoinKey;
    var n := |relationships| - 1;
    if relationships[n] != r {
      assert r in relationships[..n];
      JoinKeysMembers(relationships[..n], r);
    }
  }

  /** No class or enumeration shares its written id with a join class. */
  lemma NodeIsNoJoin(render: Render, model: Model, id: ElementId, r: Relationship)
    requires DistinctXids(render, model) && id in NodeIds(model) && r in model.relationships && IsJoin(r)
    ensures EaId(render, id) != EaId(render, JoinKey(r))
  {
    JoinKeysMembers(model.relationships, r);
    hide NodeIds, JoinKeys, EaId, IsJoin, JoinKey;
    var keys := NodeIds(model) + JoinKeys(model.relationships);
    var i :| 0 <= i < |NodeIds(model)| && NodeIds(model)[i] == id;
    var k :| 0 <= k < |JoinKeys(model.relationships)| && JoinKeys(model.relationships)[k] == JoinKey(r);
    assert EaIds(render, keys)[i] == EaId(render, id);
    assert EaIds(render, keys)[|NodeIds(model)| + k] == EaId(render, JoinKey(r));
  }

  // ---- what is among the raw classes -----------------------------------

  lemma {:induction false} RawClassMembers(model: Model, render: Render, order: seq<PrimitiveType>, classes: seq<UmlClass>, x: RawClass)
    ensures x in RawClassesOf(model, render, order, classes) <==>
      exists c :: c in classes && Clean(c.name) != ROOT_CLASS && x == RawClassOf(model, render, order, c)
  {
    hide Clean, RawClassOf;
    if classes != [] {
      var n := |classes| - 1;
      RawClassMembers(model, render, order, classes[..n], x);
      LastIsMember(classes);
    }
  }

  lemma {:induction false} RawEnumMembers(render: Render, enumerations: seq<Enumeration>, x: RawClass)
    ensures x in RawEnumsOf(render, enumerations) <==>
      exists e :: e in enumerations && Clean(e.name) != ROOT_CLASS && x == RawEnumOf(render, e)
  {
    hide Clean, RawEnumOf;
    if enumerations != [] {
      var n := |enumerations| - 1;
      RawEnumMembers(render, enumerations[..n], x);
      LastIsMember(enumerations);
    }
  }

  /** Every raw join class is synthetic, has an underscore in its name, and an association tagged with it. */
  lemma {:induction false} RawJoinMembers(model: Model, render: Render, tables: JoinTables, n: nat, x: RawClass)
    requires n <= |model.relationships| && x in RawJoinsOf(model, render, tables, n)
    ensures exists r :: r in model.relationships && IsJoin(r) && x.xid == EaId(render, JoinKey(r))
    ensures !IsEnum(x) && x.synthetic && '_' in x.name
  {
    hide Clean, IsJoin, EaId, JoinKey;
    var r := model.relationships[n - 1];
    if x !in RawJoinsOf(model, render, tables, n - 1) {
      JoinNameHasUnderscore(model, n - 1);
    } else {
      RawJoinMembers(model, render, tables, n - 1, x);
    }
  }

  // ---- what a type text can refer to -----------------------------------

  /** The written names of primitive types. */
  ghost predicate IsTypeText(t: string) {
    (exists k: nat :: t == TypeXid(k)) || exists p :: t == EaTypeName(p)
  }

  lemma TypeTextIsNoId(render: Render, t: string, id: string)
    requires IsTypeText(t)
    ensures t != EaId(render, id) && t != ROOT_CLASS && '_' !in t
  {
    hide TypeXid, EaId, EaTypeName;
    if k: nat :| t == TypeXid(k) {
      EaIdIsNoTypeName(render, id, k, String);
      TypeXidIsPlain(k);
    } else {
      var p :| t == EaTypeName(p);
      EaIdIsNoTypeName(render, id, 0, p);
      TypeNameIsPlain(p);
    }
  }

  lemma TypeXidIsPlain(k: nat)
    ensures '_' !in TypeXid(k) && TypeXid(k) != ROOT_CLASS
  {
    NatTextHasNoUnderscore(k);
    assert TypeXid(k)[0] == 'e';
    hide NatText;
  }

  lemma TypeNameIsPlain(p: PrimitiveType)
    ensures '_' !in EaTypeName(p) && EaTypeName(p) != ROOT_CLASS
  {
  }

  /** A raw class is a class, an enumeration or a join class of the model. */
  lemma RawClassCases(project: Project, render: Render, tables: JoinTables, x: RawClass)
    requires x in RawOf(project, render, tables).classes
    ensures var model := project.model;
      || (exists c :: c in model.classes && Clean(c.name) != ROOT_CLASS
            && x == RawClassOf(model, render, PrimitiveOrder(model.classes), c))
      || (exists e :: e in model.enumerations && Clean(e.name) != ROOT_CLASS && x == RawEnumOf(render, e))
      || (!IsEnum(x) && x.synthetic && '_' in x.name
          && exists r :: r in model.relationships && IsJoin(r) && x.xid == EaId(render, JoinKey(r)))
  {
    var model := project.model;
    RawClassMembers(model, render, PrimitiveOrder(model.classes), model.classes, x);
    RawEnumMembers(render, model.enumerations, x);
    if x in RawJoinsOf(model, render, tables, |model.relationships|) {
      RawJoinMembers(model, render, tables, |model.relationships|, x);
    }
    hide RawClassesOf, RawEnumsOf, RawJoinsOf, RawClassOf, RawEnumOf, Clean;
  }

  /** A type text is the name of a raw class exactly when the model has a class of that name. */
  lemma TypeTextIsClassRef(project: Project, render: Render, tables: JoinTables, t: string)
    requires IsTypeText(t)
    ensures t in ClassRefs(RawOf(project, render, tables).classes) <==> ClassNamed(project.model, t)
  {
    var model := project.model;
    var raw := RawOf(project, render, tables);
    hide RawOf, Clean, EaId, IsTypeText, PrimitiveOrder;
    TypeTextIsNoId(render, t, "");
    if t in ClassRefs(raw.classes) {
      var x :| x in raw.classes && !IsEnum(x) && (x.xid == t || x.name == t);
      RawClassCases(project, render, tables, x);
      forall id: string { TypeTextIsNoId(render, t, id); }
    }
    if ClassNamed(model, t) {
      var c :| c in model.classes && Clean(c.name) == t;
      ClassIsRaw(project, render, tables, c);
    }
  }

  lemma ClassIsRaw(project: Project, render: Render, tables: JoinTables, c: UmlClass)
    requires c in project.model.classes && Clean(c.name) != ROOT_CLASS
    ensures RawClassOf(project.model, render, PrimitiveOrder(project.model.classes), c) in RawOf(project, render, tables).classes
  {
    var model := project.model;
    var order := PrimitiveOrder(model.classes);
    RawClassMembers(model, render, order, model.classes, RawClassOf(model, render, order, c));
    hide RawClassesOf, RawClassOf;
  }

  lemma EnumerationIsRaw(project: Project, render: Render, tables: JoinTables, e: Enumeration)
    requires e in project.model.enumerations && Clean(e.name) != ROOT_CLASS
    ensures RawEnumOf(render, e) in RawOf(project, render, tables).classes
  {
    RawEnumMembers(render, project.model.enumerations, RawEnumOf(render, e));
    hide RawEnumsOf, RawEnumOf;
  }

  lemma {:induction false} EnumXidFound(classes: seq<RawClass>, name: string)
    ensures EnumXidNamed(classes, name).Some? <==> exists x :: x in classes && IsEnum(x) && x.name == name
  {
    if classes != [] {
      EnumXidFound(classes[..|classes| - 1], name);
      LastIsMember(classes);
    }
  }

  lemma TypeTextIsEnumName(project: Project, render: Render, tables: JoinTables, t: string)
    requires IsTypeText(t)
    ensures EnumXidNamed(RawOf(project, render, tables).classes, t).Some? <==> EnumerationNamed(project.model, t)
  {
    var raw := RawOf(project, render, tables);
    hide RawOf, Clean, EaId, IsTypeText, PrimitiveOrder;
    EnumXidFound(raw.classes, t);
    TypeTextIsNoId(render, t, "");
    if EnumXidNamed(raw.classes, t).Some? {
      var x :| x in raw.classes && IsEnum(x) && x.name == t;
      RawClassCases(project, render, tables, x);
    }
    if EnumerationNamed(project.model, t) {
      var e :| e in project.model.enumerations && Clean(e.name) == t;
      EnumerationIsRaw(project, render, tables, e);
    }
    hide EnumXidNamed;
  }

  lemma TypeTextIsNoEnumXid(project: Project, render: Render, tables: JoinTables, t: string)
    requires IsTypeText(t)
    ensures t !in XidsWhere(RawOf(project, render, tables).classes, true)
  {
    var raw := RawOf(project, render, tables);
    hide RawOf, Clean, EaId, IsTypeText, PrimitiveOrder;
    if t in XidsWhere(raw.classes, true) {
      var x :| x in raw.classes && IsEnum(x) && x.xid == t;
      RawClassCases(project, render, tables, x);
      forall id: string { TypeTextIsNoId(render, t, id); }
    }
  }

  // ---- resolved types --------------------------------------------------

  lemma {:induction false} DatatypeIsFound(order: seq<PrimitiveType>, i: nat)
    requires i < |order|
    ensures TypeXid(i) in DatatypesOf(order) && DatatypesOf(order)[TypeXid(i)] == EaTypeName(order[i])
  {
    hide TypeXid, EaTypeName;
    var n := |order| - 1;
    if i < n {
      DatatypeIsFound(order[..n], i);
      if TypeXid(i) == TypeXid(n) {
        TypeXidInjective(i, n);
      }
    }
  }

  lemma {:induction false} TypeIsInOrder(classes: seq<UmlClass>, c: UmlClass, a: UmlAttribute)
    requires c in classes && a in c.attributes && a.typ.Primitive?
    ensures a.typ.primitive in PrimitiveOrder(classes)
  {
    var n := |classes| - 1;
    if c != classes[n] {
      assert c in classes[..n];
      TypeIsInOrder(classes[..n], c, a);
    }
  }

  /** What is written about the type of a primitive attribute. */
  lemma PrimitiveIsWritten(model: Model, render: Render, order: seq<PrimitiveType>, a: UmlAttribute)
    requires a.typ.Primitive? && a.typ.primitive in order
    ensures var raw, p := RawAttributeOf(model, render, order, a), a.typ.primitive;
      raw.typeRef == Some(TypeXid(IndexIn(order, p))) && raw.typeName == Some(EaTypeName(p))
  {
    EaNameIsClean(a.typ.primitive);
    EaNameIsStripped(a.typ.primitive);
    hide Clean, TypeXid, EaTypeName, IndexIn, Strip;
  }

  /** The branches of the resolution that a written primitive can take. */
  lemma WrittenPrimitiveResolves(newId: NewIds, raw: Raw, a: RawAttribute, ref: string, p: PrimitiveType)
    requires a.typeRef == Some(ref) && a.typeName == Some(EaTypeName(p))
    requires ref !in XidsWhere(raw.classes, true) && ref in raw.datatypes && raw.datatypes[ref] == EaTypeName(p)
    ensures ResolveType(newId, raw, a) == Some(Primitive(p)) <==>
      ref !in ClassRefs(raw.classes) && EaTypeName(p) !in ClassRefs(raw.classes) && EnumXidNamed(raw.classes, EaTypeName(p)).None?
  {
    EaNameReadsBack(p);
    hide ClassRefs, XidsWhere, EnumXidNamed, EaTypeName, PrimitiveNamed, Lower, Strip;
  }

  lemma TypesAreTexts(k: nat, p: PrimitiveType)
    ensures IsTypeText(TypeXid(k)) && IsTypeText(EaTypeName(p))
  {
    hide TypeXid, EaTypeName;
  }

  lemma RawDatatypes(project: Project, render: Render, tables: JoinTables)
    ensures RawOf(project, render, tables).datatypes == DatatypesOf(PrimitiveOrder(project.model.classes))
  {
    hide DatatypesOf, PrimitiveOrder;
  }

  lemma SafeParts(model: Model, p: PrimitiveType)
    ensures TypeIsSafe(model, p) <==>
      && !ClassNamed(model, EaTypeName(p)) && !ClassNamed(model, TypeXid(IndexIn(PrimitiveOrder(model.classes), p)))
      && !EnumerationNamed(model, EaTypeName(p))
  {
    hide ClassNamed, EnumerationNamed, EaTypeName, TypeXid, IndexIn, PrimitiveOrder;
  }

  /** A primitive attribute comes back with its type exactly when its type is safe. */
  lemma PrimitiveResolves(
      project: Project, render: Render, tables: JoinTables, newId: NewIds, c: UmlClass, a: UmlAttribute)
    requires c in project.model.classes && a in c.attributes && a.typ.Primitive?
    ensures ResolveType(newId, RawOf(project, render, tables),
                        RawAttributeOf(project.model, render, PrimitiveOrder(project.model.classes), a)) == Some(a.typ)
      <==> TypeIsSafe(project.model, a.typ.primitive)
  {
    hide *;
    var model, p := project.model, a.typ.primitive;
    var order, raw := PrimitiveOrder(model.classes), RawOf(project, render, tables);
    var k := IndexIn(order, p);
    TypeIsInOrder(model.classes, c, a);
    PrimitiveIsWritten(model, render, order, a);
    DatatypeIsFound(order, k);
    RawDatatypes(project, render, tables);
    TypesAreTexts(k, p);
    TypeTextIsNoEnumXid(project, render, tables, TypeXid(k));
    WrittenPrimitiveResolves(newId, raw, RawAttributeOf(model, render, order, a), TypeXid(k), p);
    TypeTextIsClassRef(project, render, tables, TypeXid(k));
    TypeTextIsClassRef(project, render, tables, EaTypeName(p));
    TypeTextIsEnumName(project, render, tables, EaTypeName(p));
    SafeParts(model, p);
  }

  /** Without root names an enumeration reference always comes back. */
  lemma ReferenceResolves(
      project: Project, render: Render, tables: JoinTables, newId: NewIds, c: UmlClass, a: UmlAttribute)
    requires Exportable(project.model) && NoRootNames(project.model)
    requires c in project.model.classes && a in c.attributes && a.typ.EnumerationRef?
    ensures ResolveType(newId, RawOf(project, render, tables),
                        RawAttributeOf(project.model, render, PrimitiveOrder(project.model.classes), a))
      == Some(NormalType(newId, render, a.typ))
  {
    var e := EnumerationById(project.model.enumerations, a.typ.enumerationId).value;
    EnumerationIsRaw(project, render, tables, e);
    assert EaId(render, e.id) in XidsWhere(RawOf(project, render, tables).classes, true) by {
      assert IsEnum(RawEnumOf(render, e));
      hide RawOf;
    }
    hide RawOf, ClassRefs, PrimitiveOrder, Clean, EaId;
  }

  // ---- attributes and classes ------------------------------------------

  /** The attribute keeps its type. */
  ghost predicate Resolves(newId: NewIds, render: Render, raw: Raw, model: Model, order: seq<PrimitiveType>, a: UmlAttribute) {
    ResolveType(newId, raw, RawAttributeOf(model, render, order, a)) == Some(NormalType(newId, render, a.typ))
  }

  lemma VisibilityIsKept(v: Visibility, default: Visibility)
    ensures VisibilityOr(Some(VisibilityText(v)), default) == v
  {
    VisibilityReadsBack(v);
    hide VisibilityText, VisibilityNamed;
  }

  /** One attribute: dropped, or kept under its clean name and visibility. */
  function BuiltAttribute(
      newId: NewIds, render: Render, raw: Raw, model: Model, order: seq<PrimitiveType>, xid: string, n: nat, a: UmlAttribute)
      : seq<UmlAttribute>
  {
    match ResolveType(newId, raw, RawAttributeOf(model, render, order, a))
    case None => []
    case Some(typ) => [UmlAttribute(newId(AttributeSite(xid, n)), Clean(a.name), typ, a.visibility)]
  }

  lemma BuildAttributesStep(newId: NewIds, raw: Raw, xid: string, front: seq<RawAttribute>, a: RawAttribute)
    ensures BuildAttributes(newId, raw, xid, front + [a]) ==
      BuildAttributes(newId, raw, xid, front)
      + match ResolveType(newId, raw, a)
        case None => []
        case Some(typ) =>
          [UmlAttribute(newId(AttributeSite(xid, |front|)), a.name, typ, VisibilityOr(a.visibility, Private))]
  {
    assert (front + [a])[..|front|] == front;
    hide ResolveType, VisibilityOr;
  }

  lemma AttributeBuilds(
      newId: NewIds, render: Render, raw: Raw, model: Model, order: seq<PrimitiveType>, xid: string, attributes: seq<UmlAttribute>)
    requires attributes != []
    ensures var n := |attributes| - 1;
      BuildAttributes(newId, raw, xid, RawAttributesOf(model, render, order, attributes)) ==
        BuildAttributes(newId, raw, xid, RawAttributesOf(model, render, order, attributes[..n]))
        + BuiltAttribute(newId, render, raw, model, order, xid, n, attributes[n])
  {
    hide ResolveType, Clean, VisibilityOr, VisibilityText, TypeRef, TypeName, BuildAttributes;
    var n := |attributes| - 1;
    var a := attributes[n];
    VisibilityIsKept(a.visibility, Private);
    var front := RawAttributesOf(model, render, order, attributes[..n]);
    assert RawAttributesOf(model, render, order, attributes) == front + [RawAttributeOf(model, render, order, a)];
    BuildAttributesStep(newId, raw, xid, front, RawAttributeOf(model, render, order, a));
  }

  lemma NormalAttributesStep(newId: NewIds, render: Render, xid: string, attributes: seq<UmlAttribute>)
    requires attributes != []
    ensures var n := |attributes| - 1;
      var a := attributes[n];
      NormalAttributes(newId, render, xid, attributes) == NormalAttributes(newId, render, xid, attributes[..n])
        + [UmlAttribute(newId(AttributeSite(xid, n)), Clean(a.name), NormalType(newId, render, a.typ), a.visibility)]
  {
    hide Clean, NormalType;
  }

  lemma AppendEqual<T>(a: seq<T>, x: seq<T>, b: seq<T>, y: T)
    requires |a| <= |b| && |x| <= 1
    ensures a + x == b + [y] <==> a == b && x == [y]
  {
    if a + x == b + [y] {
      assert |a| == |b|;
      assert a == (a + x)[..|a|] == (b + [y])[..|b|] == b;
      assert (a + x)[|a|] == y;
    }
  }

  /** All attributes come back exactly when every one keeps its type. */
  lemma {:induction false} AttributesBuild(
      newId: NewIds, render: Render, raw: Raw, model: Model, order: seq<PrimitiveType>, xid: string, attributes: seq<UmlAttribute>)
    ensures |BuildAttributes(newId, raw, xid, RawAttributesOf(model, render, order, attributes))| <= |attributes|
    ensures BuildAttributes(newId, raw, xid, RawAttributesOf(model, render, order, attributes))
        == NormalAttributes(newId, render, xid, attributes)
      <==> forall a :: a in attributes ==> Resolves(newId, render, raw, model, order, a)
  {
    hide ResolveType, RawAttributeOf, Clean, NormalType;
    if attributes == [] {
      assert RawAttributesOf(model, render, order, attributes) == [] && NormalAttributes(newId, render, xid, attributes) == [];
    } else {
      hide BuildAttributes, NormalAttributes, RawAttributesOf;
      var n := |attributes| - 1;
      AttributesBuild(newId, render, raw, model, order, xid, attributes[..n]);
      AttributeBuilds(newId, render, raw, model, order, xid, attributes);
      NormalAttributesStep(newId, render, xid, attributes);
      LastIsMember(attributes);
      var a := attributes[n];
      NormalLength(newId, render, xid, attributes[..n]);
      AppendEqual(BuildAttributes(newId, raw, xid, RawAttributesOf(model, render, order, attributes[..n])),
                  BuiltAttribute(newId, render, raw, model, order, xid, n, a),
                  NormalAttributes(newId, render, xid, attributes[..n]),
                  UmlAttribute(newId(AttributeSite(xid, n)), Clean(a.name), NormalType(newId, render, a.typ), a.visibility));
      assert BuiltAttribute(newId, render, raw, model, order, xid, n, a) ==
          [UmlAttribute(newId(AttributeSite(xid, n)), Clean(a.name), NormalType(newId, render, a.typ), a.visibility)]
        <==> Resolves(newId, render, raw, model, order, a);
    }
  }

  lemma NormalLength(newId: NewIds, render: Render, xid: string, attributes: seq<UmlAttribute>)
    ensures |NormalAttributes(newId, render, xid, attributes)| == |attributes|
  {
  }

  lemma OperationsBuild(newId: NewIds, xid: string, operations: seq<UmlOperation>)
    ensures BuildOperations(newId, xid, RawOperationsOf(operations)) == NormalOperations(newId, xid, operations)
  {
    forall i | 0 <= i < |operations|
      ensures VisibilityOr(Some(VisibilityText(operations[i].visibility)), Public) == operations[i].visibility
    {
      VisibilityIsKept(operations[i].visibility, Public);
    }
    hide Clean, VisibilityText, VisibilityOr;
    assert |BuildOperations(newId, xid, RawOperationsOf(operations))| == |operations|;
  }

  lemma ClassBuilds(newId: NewIds, render: Render, raw: Raw, model: Model, order: seq<PrimitiveType>, c: UmlClass)
    ensures BuildClass(newId, raw, RawClassOf(model, render, order, c)) == NormalClass(newId, render, c)
      <==> forall a :: a in c.attributes ==> Resolves(newId, render, raw, model, order, a)
  {
    AttributesBuild(newId, render, raw, model, order, EaId(render, c.id), c.attributes);
    OperationsBuild(newId, EaId(render, c.id), c.operations);
    VisibilityIsKept(c.visibility, Public);
    hide BuildAttributes, NormalAttributes, RawAttributesOf, RawOperationsOf, BuildOperations, NormalOperations, Resolves,
         Clean, VisibilityOr, VisibilityText, EaId;
  }

  // ---- which classes are hidden ----------------------------------------

  lemma {:induction false} AssociationClassesAreJoins(render: Render, relationships: seq<Relationship>, x: string)
    ensures x in AssociationClassXids(RawAssociationsOf(render, relationships)) <==>
      exists r :: r in relationships && IsJoin(r) && x == EaId(render, JoinKey(r))
  {
    hide EaId, JoinKey, Clean, FormatMultiplicity;
    if relationships != [] {
      var n := |relationships| - 1;
      AssociationClassesAreJoins(render, relationships[..n], x);
      LastIsMember(relationships);
      var front := RawAssociationsOf(render, relationships[..n]);
      var r := relationships[n];
      assert r.kind != Generalization ==> RawAssociationsOf(render, relationships)[|front|] == RawAssociationOf(render, r);
    }
  }

  lemma ClassIsVisible(project: Project, render: Render, tables: JoinTables, c: UmlClass, built: UmlClass)
    requires DistinctXids(render, project.model) && c in project.model.classes
    ensures !IsHidden(RawOf(project, render, tables),
                      RawClassOf(project.model, render, PrimitiveOrder(project.model.classes), c), built)
  {
    var model := project.model;
    AssociationClassesAreJoins(render, model.relationships, EaId(render, c.id));
    ClassIdIsNode(model, c);
    hide DistinctXids, EaId, IsJoin, AssociationClassXids, JoinKey, PrimitiveOrder;
    forall r | r in model.relationships && IsJoin(r) ensures EaId(render, c.id) != EaId(render, JoinKey(r)) {
      NodeIsNoJoin(render, model, c.id, r);
    }
  }

  lemma JoinIsHidden(project: Project, render: Render, tables: JoinTables, x: RawClass, built: UmlClass)
    requires x in RawJoinsOf(project.model, render, tables, |project.model.relationships|)
    ensures IsHidden(RawOf(project, render, tables), x, built)
  {
    RawJoinMembers(project.model, render, tables, |project.model.relationships|, x);
    AssociationClassesAreJoins(render, project.model.relationships, x.xid);
    hide RawJoinsOf, IsJoin, EaId, JoinKey, AssociationClassXids, RawAssociationsOf;
  }

  // ---- the classes of the model ----------------------------------------

  lemma {:induction false} BuildClassesConcat(newId: NewIds, raw: Raw, a: seq<RawClass>, b: seq<RawClass>)
    ensures BuildClasses(newId, raw, a + b) == BuildClasses(newId, raw, a) + BuildClasses(newId, raw, b)
  {
    hide BuildClass, IsHidden;
    if b == [] {
      assert a + b == a;
    } else {
      var n := |b| - 1;
      assert (a + b)[..|a + b| - 1] == a + b[..n];
      BuildClassesConcat(newId, raw, a, b[..n]);
    }
  }

  lemma {:induction false} NothingBuilt(newId: NewIds, raw: Raw, classes: seq<RawClass>)
    requires forall x :: x in classes ==> IsEnum(x) || IsHidden(raw, x, BuildClass(newId, raw, x))
    ensures BuildClasses(newId, raw, classes) == []
  {
    hide BuildClass, IsHidden;
    if classes != [] {
      assert classes[|classes| - 1] in classes;
      NothingBuilt(newId, raw, classes[..|classes| - 1]);
    }
  }

  /** One class comes back unchanged but for its ids and texts. */
  ghost predicate ClassSurvives(newId: NewIds, render: Render, raw: Raw, model: Model, order: seq<PrimitiveType>, c: UmlClass) {
    Clean(c.name) != ROOT_CLASS && BuildClass(newId, raw, RawClassOf(model, render, order, c)) == NormalClass(newId, render, c)
  }

  lemma BuildOneMore(newId: NewIds, raw: Raw, front: seq<RawClass>, x: RawClass)
    requires !IsEnum(x) && !IsHidden(raw, x, BuildClass(newId, raw, x))
    ensures BuildClasses(newId, raw, front + [x]) == BuildClasses(newId, raw, front) + [BuildClass(newId, raw, x)]
  {
    assert (front + [x])[..|front|] == front;
    hide BuildClass, IsHidden;
  }

  /** What a class of the model is built to: nothing if it is named like the root class. */
  function BuiltFrom(newId: NewIds, render: Render, raw: Raw, model: Model, order: seq<PrimitiveType>, c: UmlClass): seq<UmlClass> {
    if Clean(c.name) == ROOT_CLASS then [] else [BuildClass(newId, raw, RawClassOf(model, render, order, c))]
  }

  ghost predicate IsVisible(newId: NewIds, render: Render, raw: Raw, model: Model, order: seq<PrimitiveType>, c: UmlClass) {
    var x := RawClassOf(model, render, order, c);
    !IsHidden(raw, x, BuildClass(newId, raw, x))
  }

  lemma ClassesBuildStep(
      newId: NewIds, render: Render, raw: Raw, model: Model, order: seq<PrimitiveType>, front: seq<UmlClass>, c: UmlClass)
    requires IsVisible(newId, render, raw, model, order, c)
    ensures BuildClasses(newId, raw, RawClassesOf(model, render, order, front + [c])) ==
      BuildClasses(newId, raw, RawClassesOf(model, render, order, front)) + BuiltFrom(newId, render, raw, model, order, c)
  {
    hide BuildClass, IsHidden, BuildClasses, RawAttributesOf, RawOperationsOf, Clean;
    assert (front + [c])[..|front|] == front;
    if Clean(c.name) == ROOT_CLASS {
      assert RawClassesOf(model, render, order, front + [c]) == RawClassesOf(model, render, order, front);
      assert BuildClasses(newId, raw, RawClassesOf(model, render, order, front)) + [] ==
        BuildClasses(newId, raw, RawClassesOf(model, render, order, front));
    } else {
      BuildOneMore(newId, raw, RawClassesOf(model, render, order, front), RawClassOf(model, render, order, c));
    }
  }

  lemma NormalClassesStep(newId: NewIds, render: Render, front: seq<UmlClass>, c: UmlClass)
    ensures NormalClasses(newId, render, front + [c]) == NormalClasses(newId, render, front) + [NormalClass(newId, render, c)]
  {
    hide NormalClass;
  }

  lemma SurvivesIfBuilt(newId: NewIds, render: Render, raw: Raw, model: Model, order: seq<PrimitiveType>, c: UmlClass)
    ensures BuiltFrom(newId, render, raw, model, order, c) == [NormalClass(newId, render, c)] <==>
      ClassSurvives(newId, render, raw, model, order, c)
    ensures |BuiltFrom(newId, render, raw, model, order, c)| <= 1
  {
    hide BuildClass, NormalClass, Clean;
  }

  /** The classes come back exactly when each one does. */
  lemma {:induction false} ClassesBuild(
      newId: NewIds, render: Render, raw: Raw, model: Model, order: seq<PrimitiveType>, classes: seq<UmlClass>)
    requires forall c :: c in classes ==> IsVisible(newId, render, raw, model, order, c)
    ensures |BuildClasses(newId, raw, RawClassesOf(model, render, order, classes))| <= |NormalClasses(newId, render, classes)| == |classes|
    ensures BuildClasses(newId, raw, RawClassesOf(model, render, order, classes)) == NormalClasses(newId, render, classes)
      <==> forall c :: c in classes ==> ClassSurvives(newId, render, raw, model, order, c)
  {
    if classes == [] {
      assert NormalClasses(newId, render, classes) == [];
      assert RawClassesOf(model, render, order, classes) == [];
    } else {
      hide *;
      var n := |classes| - 1;
      var front, c := classes[..n], classes[n];
      LastIsMember(classes);
      assert classes == front + [c];
      ClassesBuild(newId, render, raw, model, order, front);
      ClassesBuildStep(newId, render, raw, model, order, front, c);
      NormalClassesStep(newId, render, front, c);
      SurvivesIfBuilt(newId, render, raw, model, order, c);
      AppendEqual(BuildClasses(newId, raw, RawClassesOf(model, render, order, front)),
                  BuiltFrom(newId, render, raw, model, order, c), NormalClasses(newId, render, front), NormalClass(newId, render, c));
    }
  }
}
