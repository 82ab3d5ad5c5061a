/** The name-based diff between a document and an image extraction (`ai_assistant/service.py`). */
module Reconcile {
  import opened Text
  import opened Uml
  import opened Calls
  import opened Translator

  // ---- dictionaries by normalized name ---------------------------------

  /** An attribute or operation as the diff sees it: its name and its type text. */
  datatype Member = Member(className: string, name: string, text: string)

  /** `{key(item): item for item in items}`: the order of first keys, the values of last keys. */
  function KeyedMembers(normalize: Normalize, members: seq<Member>): seq<Member> {
    if members == [] then []
    else PutMember(normalize, KeyedMembers(normalize, members[..|members| - 1]), members[|members| - 1])
  }

  function PutMember(normalize: Normalize, members: seq<Member>, m: Member): seq<Member> {
    if members == [] then [m]
    else if normalize(members[0].name) == normalize(m.name) then [m] + members[1..]
    else [members[0]] + PutMember(normalize, members[1..], m)
  }

  function MemberNamed(normalize: Normalize, members: seq<Member>, name: string): (r: Option<Member>)
    ensures r.Some? ==> r.value in members && normalize(r.value.name) == normalize(name)
    ensures r.None? <==> forall m :: m in members ==> normalize(m.name) != normalize(name)
  {
    if members == [] then None
    else if normalize(members[0].name) == normalize(name) then Some(members[0])
    else MemberNamed(normalize, members[1..], name)
  }

  function KeyedClasses(normalize: Normalize, classes: seq<UmlClass>): seq<UmlClass> {
    if classes == [] then []
    else PutClass(normalize, KeyedClasses(normalize, classes[..|classes| - 1]), classes[|classes| - 1])
  }

  function PutClass(normalize: Normalize, classes: seq<UmlClass>, c: UmlClass): seq<UmlClass> {
    if classes == [] then [c]
    else if normalize(classes[0].name) == normalize(c.name) then [c] + classes[1..]
    else [classes[0]] + PutClass(normalize, classes[1..], c)
  }

  function ClassNamed(normalize: Normalize, classes: seq<UmlClass>, name: string): (r: Option<UmlClass>)
    ensures r.Some? ==> r.value in classes && normalize(r.value.name) == normalize(name)
    ensures r.None? <==> forall c :: c in classes ==> normalize(c.name) != normalize(name)
  {
    if classes == [] then None
    else if normalize(classes[0].name) == normalize(name) then Some(classes[0])
    else ClassNamed(normalize, classes[1..], name)
  }

  // ---- what the image shows --------------------------------------------

  datatype Desired = Desired(name: string, attributes: seq<Member>, operations: seq<Member>)

  /** The first name of each class, in order. */
  function DesiredNames(normalize: Normalize, calls: seq<Call>): seq<string> {
    if calls == [] then []
    else
      var front := DesiredNames(normalize, calls[..|calls| - 1]);
      var last := calls[|calls| - 1];
      if last.AddClassCall? && !HasKey(normalize, front, last.name) then front + [last.name] else front
  }

  predicate HasKey(normalize: Normalize, names: seq<string>, name: string) {
    exists n :: n in names && normalize(n) == normalize(name)
  }

  function AttributesFor(normalize: Normalize, calls: seq<Call>, name: string): seq<Member> {
    if calls == [] then []
    else
      var last := calls[|calls| - 1];
      AttributesFor(normalize, calls[..|calls| - 1], name)
      + if last.AddAttributeCall? && normalize(last.className) == normalize(name)
        then [Member(last.className, last.attributeName, last.attributeType)] else []
  }

  function OperationsFor(normalize: Normalize, calls: seq<Call>, name: string): seq<Member> {
    if calls == [] then []
    else
      var last := calls[|calls| - 1];
      OperationsFor(normalize, calls[..|calls| - 1], name)
      + if last.AddOperationCall? && normalize(last.className) == normalize(name)
        then [Member(last.className, last.operationName, TextOr(last.returnType, ""))] else []
  }

  /** `desired_classes`: members of classes that are not extracted are ignored. */
  function DesiredClasses(normalize: Normalize, calls: seq<Call>): seq<Desired> {
    var names := DesiredNames(normalize, calls);
    seq(|names|, i requires 0 <= i < |names| =>
      Desired(names[i], AttributesFor(normalize, calls, names[i]), OperationsFor(normalize, calls, names[i])))
  }

  function DesiredLinks(calls: seq<Call>): seq<LinkArguments> {
    if calls == [] then []
    else
      var last := calls[|calls| - 1];
      DesiredLinks(calls[..|calls| - 1]) + if last.AddRelationshipCall? then [last.link] else []
  }

  function DesiredNamed(normalize: Normalize, desired: seq<Desired>, name: string): (r: Option<Desired>)
    ensures r.Some? ==> r.value in desired && normalize(r.value.name) == normalize(name)
    ensures r.None? <==> forall d :: d in desired ==> normalize(d.name) != normalize(name)
  {
    if desired == [] then None
    else if normalize(desired[0].name) == normalize(name) then Some(desired[0])
    else DesiredNamed(normalize, desired[1..], name)
  }

  // ---- members ---------------------------------------------------------

  /** `str(attribute.type)`. */
  function TypeText(t: AttributeType): string {
    match t
    case Primitive(p) => PrimitiveText(p)
    case EnumerationRef(id) => "EnumerationRef(enumeration_id='" + id + "')"
  }

  function ReturnText(t: Option<AttributeType>): string {
    if t.None? then "" else TypeText(t.value)
  }

  function AttributeMembers(c: UmlClass): seq<Member> {
    seq(|c.attributes|, i requires 0 <= i < |c.attributes| => Member(c.name, c.attributes[i].name, TypeText(c.attributes[i].typ)))
  }

  function OperationMembers(c: UmlClass): seq<Member> {
    seq(|c.operations|, i requires 0 <= i < |c.operations| =>
      Member(c.name, c.operations[i].name, ReturnText(c.operations[i].returnType)))
  }

  /** The existing member is wanted as it is. */
  predicate IsKept(normalize: Normalize, wanted: seq<Member>, m: Member) {
    var w := MemberNamed(normalize, wanted, m.name);
    w.Some? && w.value.text == m.text
  }

  /** The wanted member is missing, or there with another type. */
  predicate IsMissing(normalize: Normalize, existing: seq<Member>, w: Member) {
    var m := MemberNamed(normalize, existing, w.name);
    m.None? || m.value.text != w.text
  }

  function Dropped(normalize: Normalize, existing: seq<Member>, wanted: seq<Member>): seq<Member> {
    if existing == [] then []
    else
      var m := existing[|existing| - 1];
      Dropped(normalize, existing[..|existing| - 1], wanted) + if IsKept(normalize, wanted, m) then [] else [m]
  }

  function Missing(normalize: Normalize, existing: seq<Member>, wanted: seq<Member>): seq<Member> {
    if wanted == [] then []
    else
      var w := wanted[|wanted| - 1];
      Missing(normalize, existing, wanted[..|wanted| - 1]) + if IsMissing(normalize, existing, w) then [w] else []
  }

  // ---- calls -----------------------------------------------------------

  function RemoveAttributeCalls(className: string, members: seq<Member>): seq<Call> {
    seq(|members|, i requires 0 <= i < |members| => RemoveAttributeCall(className, members[i].name))
  }

  function RemoveOperationCalls(className: string, members: seq<Member>): seq<Call> {
    seq(|members|, i requires 0 <= i < |members| => RemoveOperationCall(className, members[i].name))
  }

  function AddAttributeCalls(members: seq<Member>): seq<Call> {
    seq(|members|, i requires 0 <= i < |members| => AddAttributeCall(members[i].className, members[i].name, members[i].text))
  }

  function AddOperationCalls(members: seq<Member>): seq<Call> {
    seq(|members|, i requires 0 <= i < |members| =>
      AddOperationCall(members[i].className, members[i].name, if members[i].text == "" then None else Some(members[i].text)))
  }

  function RemoveClassCalls(normalize: Normalize, existing: seq<UmlClass>, desired: seq<Desired>): seq<Call> {
    if existing == [] then []
    else
      var c := existing[|existing| - 1];
      RemoveClassCalls(normalize, existing[..|existing| - 1], desired)
      + if DesiredNamed(normalize, desired, c.name).None? then [RemoveClassCall(c.name)] else []
  }

  /** What goes from a class that is on both sides. */
  function MemberRemovals(normalize: Normalize, existing: UmlClass, d: Desired): seq<Call> {
    RemoveAttributeCalls(existing.name, Dropped(normalize, AttributeMembers(existing), KeyedMembers(normalize, d.attributes)))
    + RemoveOperationCalls(existing.name, Dropped(normalize, OperationMembers(existing), KeyedMembers(normalize, d.operations)))
  }

  function ClassRemovals(normalize: Normalize, classes: seq<UmlClass>, desired: seq<Desired>): seq<Call> {
    if desired == [] then []
    else
      var d := desired[|desired| - 1];
      var existing := ClassNamed(normalize, classes, d.name);
      ClassRemovals(normalize, classes, desired[..|desired| - 1])
      + if existing.None? then [] else MemberRemovals(normalize, existing.value, d)
  }

  /** What comes to a class: all of a new one, the missing members of an existing one. */
  function Section(normalize: Normalize, classes: seq<UmlClass>, d: Desired): seq<Call> {
    match ClassNamed(normalize, classes, d.name)
    case None => [AddClassCall(d.name)] + (AddAttributeCalls(d.attributes) + AddOperationCalls(d.operations))
    case Some(c) =>
      AddAttributeCalls(Missing(normalize, AttributeMembers(c), KeyedMembers(normalize, d.attributes)))
      + AddOperationCalls(Missing(normalize, OperationMembers(c), KeyedMembers(normalize, d.operations)))
  }

  function Sections(normalize: Normalize, classes: seq<UmlClass>, desired: seq<Desired>): seq<Call> {
    if desired == [] then []
    else
      Sections(normalize, classes, desired[..|desired| - 1]) + Section(normalize, classes, desired[|desired| - 1])
  }

  // ---- links -----------------------------------------------------------

  /** `str(multiplicity)`: the record, not its notation. */
  function MultiplicityRepr(m: Multiplicity): string {
    "Multiplicity(lower=" + IntText(m.lower) + ", upper=" + (if m.upper.None? then "None" else IntText(m.upper.value)) + ")"
  }

  /** The first relationship of the document that the extracted link stands for. */
  function CurrentOf(normalize: Normalize, classes: seq<UmlClass>, relationships: seq<Relationship>, link: LinkArguments)
      : (r: Option<Relationship>)
    ensures r.Some? ==> r.value in relationships
  {
    var source, target := ClassNamed(normalize, classes, link.sourceName), ClassNamed(normalize, classes, link.targetName);
    if source.None? || target.None? then None
    else FirstBetween(relationships, source.value.id, target.value.id, link.kind)
  }

  function FirstBetween(relationships: seq<Relationship>, source: ElementId, target: ElementId, kind: string): (r: Option<Relationship>)
    ensures r.Some? ==> r.value in relationships && IsBetween(r.value, source, target, Some(kind))
    ensures r.None? <==> forall x :: x in relationships ==> !IsBetween(x, source, target, Some(kind))
  {
    if relationships == [] then None
    else if IsBetween(relationships[0], source, target, Some(kind)) then Some(relationships[0])
    else FirstBetween(relationships[1..], source, target, kind)
  }

  /** Only the fields that differ are passed on. */
  function ChangedName(link: LinkArguments, current: Relationship): Option<Option<string>> {
    if TextOr(link.name, "") != TextOr(current.name, "") then Some(link.name) else None
  }

  function ChangedEnd(text: string, m: Multiplicity): Option<string> {
    if text != MultiplicityRepr(m) then Some(text) else None
  }

  function UpdateCall(link: LinkArguments, current: Relationship): Call {
    UpdateRelationshipCall(link.sourceName, link.targetName, Some(link.kind), ChangedName(link, current),
      ChangedEnd(TextOr(link.source, "0..1"), current.source.multiplicity),
      ChangedEnd(TextOr(link.target, "0..*"), current.target.multiplicity))
  }

  predicate IsChange(call: Call)
    requires call.UpdateRelationshipCall?
  {
    call.newLinkName.Some? || call.newSource.Some? || call.newTarget.Some?
  }

  function LinkCall(normalize: Normalize, classes: seq<UmlClass>, relationships: seq<Relationship>, link: LinkArguments): seq<Call> {
    match CurrentOf(normalize, classes, relationships, link)
    case None => [AddRelationshipCall(link)]
    case Some(current) => if IsChange(UpdateCall(link, current)) then [UpdateCall(link, current)] else []
  }

  function LinkCalls(normalize: Normalize, classes: seq<UmlClass>, relationships: seq<Relationship>, links: seq<LinkArguments>)
      : seq<Call>
  {
    if links == [] then []
    else
      LinkCalls(normalize, classes, relationships, links[..|links| - 1])
      + LinkCall(normalize, classes, relationships, links[|links| - 1])
  }

  predicate IsMatched(normalize: Normalize, classes: seq<UmlClass>, relationships: seq<Relationship>, links: seq<LinkArguments>, id: ElementId) {
    exists link :: link in links && IsMatchedBy(normalize, classes, relationships, link, id)
  }

  predicate IsMatchedBy(normalize: Normalize, classes: seq<UmlClass>, relationships: seq<Relationship>, link: LinkArguments, id: ElementId) {
    var current := CurrentOf(normalize, classes, relationships, link);
    current.Some? && current.value.id == id
  }

  /** Unmatched relationships between classes of the document go. */
  function LinkRemovals(
      normalize: Normalize, model: Model, classes: seq<UmlClass>, links: seq<LinkArguments>, relationships: seq<Relationship>)
      : seq<Call>
  {
    if relationships == [] then []
    else
      var r := relationships[|relationships| - 1];
      var source, target := ClassById(model.classes, r.source.classId), ClassById(model.classes, r.target.classId);
      LinkRemovals(normalize, model, classes, links, relationships[..|relationships| - 1])
      + if !IsMatched(normalize, classes, model.relationships, links, r.id) && source.Some? && target.Some?
        then [RemoveRelationshipCall(source.value.name, target.value.name, Some(KindText(r.kind)))] else []
  }

  // ---- the diff --------------------------------------------------------

  const EXTRACT := "extract_uml_diagram"

  function Removals(normalize: Normalize, model: Model, extracted: seq<Call>): seq<Call> {
    var classes := KeyedClasses(normalize, model.classes);
    var desired := DesiredClasses(normalize, extracted);
    RemoveClassCalls(normalize, classes, desired) + ClassRemovals(normalize, classes, desired)
    + LinkRemovals(normalize, model, classes, DesiredLinks(extracted), model.relationships)
  }

  function Additions(normalize: Normalize, model: Model, extracted: seq<Call>): seq<Call> {
    var classes := KeyedClasses(normalize, model.classes);
    Sections(normalize, classes, DesiredClasses(normalize, extracted))
    + LinkCalls(normalize, classes, model.relationships, DesiredLinks(extracted))
  }

  /** `_reconcile_image_calls`; an extraction that could not be expanded is passed through. */
  function Reconciliation(normalize: Normalize, model: Model, extracted: seq<Call>): seq<Call> {
    if UnsupportedCall(EXTRACT) in extracted then extracted
    else Removals(normalize, model, extracted) + Additions(normalize, model, extracted)
  }
}
