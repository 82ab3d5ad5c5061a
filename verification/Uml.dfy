/** The canonical UML model every input channel of the editor normalises to
    (`uml_modeling/domain`). */
module Uml {
  import opened Text

  type ElementId = string

  datatype PrimitiveType = String | Text | Integer | Long | Decimal | Boolean | Date | DateTime

  /** An attribute is typed by a primitive or by an enumeration, never by a class. */
  datatype AttributeType = Primitive(primitive: PrimitiveType) | EnumerationRef(enumerationId: ElementId)

  datatype Visibility = Public | Private | Protected | Package

  /** A range that is deliberately not validated; `upper == None` is `*`. */
  datatype Multiplicity = Multiplicity(lower: int, upper: Option<int>)

  datatype UmlAttribute = UmlAttribute(id: ElementId, name: string, typ: AttributeType, visibility: Visibility)

  datatype UmlParameter = UmlParameter(name: string, typ: AttributeType)

  datatype UmlOperation = UmlOperation(
    id: ElementId,
    name: string,
    returnType: Option<AttributeType>,
    parameters: seq<UmlParameter>,
    visibility: Visibility)

  datatype UmlClass = UmlClass(
    id: ElementId,
    name: string,
    attributes: seq<UmlAttribute>,
    operations: seq<UmlOperation>,
    visibility: Visibility)

  datatype EnumerationLiteral = EnumerationLiteral(id: ElementId, name: string, value: Option<string>)

  datatype Enumeration = Enumeration(id: ElementId, name: string, literals: seq<EnumerationLiteral>)

  datatype RelationshipKind = Association | Aggregation | Composition | Generalization

  datatype RelationshipEnd = RelationshipEnd(classId: ElementId, multiplicity: Multiplicity, role: Option<string>)

  /** Directed. For a generalization the source is the child and the target the parent. */
  datatype Relationship = Relationship(
    id: ElementId,
    kind: RelationshipKind,
    source: RelationshipEnd,
    target: RelationshipEnd,
    name: Option<string>)

  /** A decoded JSON value. An object is a finite map: the order of its keys is not modelled. */
  datatype Json =
    | JNull
    | JBool(b: bool)
    | JNumber(n: int)
    | JString(s: string)
    | JArray(items: seq<Json>)
    | JObject(fields: map<string, Json>)

  /** One `generation_metadata` entry: a mapping from keys to opaque values. */
  type Entry = map<string, Json>

  type Metadata = map<ElementId, Entry>

  datatype Model = Model(
    classes: seq<UmlClass>,
    enumerations: seq<Enumeration>,
    relationships: seq<Relationship>,
    metadata: Metadata)

  const EMPTY_MODEL := Model([], [], [], map[])

  /** The multiplicity of the ends of a generalization. */
  const ONE := Multiplicity(1, Some(1))

  // ---- lookups ---------------------------------------------------------

  /** `class_by_id`: the first class with this id. */
  function ClassById(classes: seq<UmlClass>, id: ElementId): (r: Option<UmlClass>)
    ensures r.Some? ==> r.value in classes && r.value.id == id
    ensures r.None? <==> forall c :: c in classes ==> c.id != id
  {
    if classes == [] then None
    else if classes[0].id == id then Some(classes[0])
    else ClassById(classes[1..], id)
  }

  /** `enumeration_by_id`: the first enumeration with this id. */
  function EnumerationById(enumerations: seq<Enumeration>, id: ElementId): (r: Option<Enumeration>)
    ensures r.Some? ==> r.value in enumerations && r.value.id == id
    ensures r.None? <==> forall e :: e in enumerations ==> e.id != id
  {
    if enumerations == [] then None
    else if enumerations[0].id == id then Some(enumerations[0])
    else EnumerationById(enumerations[1..], id)
  }

  function ClassIds(classes: seq<UmlClass>): seq<ElementId> {
    seq(|classes|, i requires 0 <= i < |classes| => classes[i].id)
  }

  predicate IsClassId(model: Model, id: ElementId) {
    exists c :: c in model.classes && c.id == id
  }

  predicate IsAttributeOf(c: UmlClass, id: ElementId) {
    exists a :: a in c.attributes && a.id == id
  }

  predicate IsAttributeId(model: Model, id: ElementId) {
    exists c :: c in model.classes && IsAttributeOf(c, id)
  }

  predicate Distinct<T(==)>(s: seq<T>) {
    forall i, j :: 0 <= i < j < |s| ==> s[i] != s[j]
  }

  // ---- well-formedness of ids ------------------------------------------

  /** Class ids are pairwise distinct (ids are random, so equal ids mean the same element). */
  ghost predicate DistinctClassIds(model: Model) {
    ClassesDistinct(model.classes)
  }

  ghost predicate ClassesDistinct(classes: seq<UmlClass>) {
    forall i, j :: 0 <= i < j < |classes| ==> classes[i].id != classes[j].id
  }

  /** Attribute ids are pairwise distinct, within a class and across classes. */
  ghost predicate DistinctAttributeIds(model: Model) {
    && (forall i, k, l ::
          0 <= i < |model.classes| && 0 <= k < l < |model.classes[i].attributes| ==>
            model.classes[i].attributes[k].id != model.classes[i].attributes[l].id)
    && (forall i, j, id ::
          0 <= i < j < |model.classes| && IsAttributeOf(model.classes[i], id) ==>
            !IsAttributeOf(model.classes[j], id))
  }

  ghost predicate DistinctRelationshipIds(relationships: seq<Relationship>) {
    forall i, j :: 0 <= i < j < |relationships| ==> relationships[i].id != relationships[j].id
  }

  /** No relationship end names a class that is not in the model. */
  ghost predicate NoDanglingEnds(model: Model) {
    forall r :: r in model.relationships ==>
      IsClassId(model, r.source.classId) && IsClassId(model, r.target.classId)
  }

  lemma ClassByIdUnique(classes: seq<UmlClass>, c: UmlClass)
    requires c in classes
    requires forall i, j :: 0 <= i < j < |classes| ==> classes[i].id != classes[j].id
    ensures ClassById(classes, c.id) == Some(c)
  {
    var r := ClassById(classes, c.id);
    var i :| 0 <= i < |classes| && classes[i] == c;
    var j :| 0 <= j < |classes| && classes[j] == r.value;
  }
}
