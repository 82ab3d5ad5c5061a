/** From name-based calls to model commands (`ai_assistant/translator.py` and
    `command_from_payload` in `uml_documents/services.py`). */
module Translator {
  import opened Text
  import opened Seqs
  import opened Uml
  import opened Multiplicities
  import opened Calls
  import C = Commands

  /** `strip().casefold()`, left abstract. */
  type Normalize = string -> string

  // ---- texts -----------------------------------------------------------

  function PrimitiveText(p: PrimitiveType): string {
    match p
    case String => "String"
    case Text => "Text"
    case Integer => "Integer"
    case Long => "Long"
    case Decimal => "Decimal"
    case Boolean => "Boolean"
    case Date => "Date"
    case DateTime => "DateTime"
  }

  function PrimitiveOf(text: string): (r: Option<PrimitiveType>)
    ensures r.Some? ==> PrimitiveText(r.value) == text
    ensures forall p :: PrimitiveText(p) == text ==> r == Some(p)
  {
    if text == "String" then Some(String)
    else if text == "Text" then Some(PrimitiveType.Text)
    else if text == "Integer" then Some(Integer)
    else if text == "Long" then Some(Long)
    else if text == "Decimal" then Some(Decimal)
    else if text == "Boolean" then Some(Boolean)
    else if text == "Date" then Some(Date)
    else if text == "DateTime" then Some(DateTime)
    else None
  }

  function KindText(kind: RelationshipKind): string {
    match kind
    case Association => "association"
    case Aggregation => "aggregation"
    case Composition => "composition"
    case Generalization => "generalization"
  }

  function KindOf(text: string): (r: Option<RelationshipKind>)
    ensures r.Some? ==> KindText(r.value) == text
    ensures forall k :: KindText(k) == text ==> r == Some(k)
  {
    if text == "association" then Some(Association)
    else if text == "aggregation" then Some(Aggregation)
    else if text == "composition" then Some(Composition)
    else if text == "generalization" then Some(Generalization)
    else None
  }

  lemma KindTextInjective(a: RelationshipKind, b: RelationshipKind)
    requires KindText(a) == KindText(b)
    ensures a == b
  {
    assert |"association"| == 11 && |"aggregation"| == 11 && "association"[1] != "aggregation"[1];
    assert |"composition"| == 11 && "composition"[0] == 'c' && |"generalization"| == 14;
  }

  // ---- the registry ----------------------------------------------------

  /** Normalized class names; the last class with a name wins. */
  type Registry = map<string, ElementId>

  function RegistryOf(normalize: Normalize, classes: seq<UmlClass>): Registry {
    if classes == [] then map[]
    else
      var last := classes[|classes| - 1];
      RegistryOf(normalize, classes[..|classes| - 1])[normalize(last.name) := last.id]
  }

  datatype TranslationError =
    | UnsupportedFunction(name: string)
    | UnknownClass(name: string)
    | UnknownMember(className: string, name: string)
    | NoRelationship
    | AmbiguousRelationship
    | MalformedPayload

  function Resolve(normalize: Normalize, registry: Registry, name: string): Result<ElementId, TranslationError> {
    if normalize(name) in registry then Ok(registry[normalize(name)]) else Err(UnknownClass(name))
  }

  /** The relationships of the document between two classes, of one kind if asked for. */
  function Matching(relationships: seq<Relationship>, source: ElementId, target: ElementId, kind: Option<string>): seq<Relationship> {
    if relationships == [] then []
    else
      var r := relationships[|relationships| - 1];
      Matching(relationships[..|relationships| - 1], source, target, kind)
      + if IsBetween(r, source, target, kind) then [r] else []
  }

  predicate IsBetween(r: Relationship, source: ElementId, target: ElementId, kind: Option<string>) {
    r.source.classId == source && r.target.classId == target && (kind.None? || KindText(r.kind) == kind.value)
  }

  /** `_find_relationship`: exactly one match, in the document as it was at the start. */
  function FindRelationship(
      normalize: Normalize, model: Model, registry: Registry, sourceName: string, targetName: string, kind: Option<string>)
      : Result<Relationship, TranslationError>
  {
    match Resolve(normalize, registry, sourceName)
    case Err(e) => Err(e)
    case Ok(source) =>
      match Resolve(normalize, registry, targetName)
      case Err(e) => Err(e)
      case Ok(target) =>
        var matches := Matching(model.relationships, source, target, kind);
        if matches == [] then Err(NoRelationship)
        else if |matches| > 1 then Err(AmbiguousRelationship)
        else Ok(matches[0])
  }

  function AttributeNamed(normalize: Normalize, attributes: seq<UmlAttribute>, name: string): (r: Option<UmlAttribute>)
    ensures r.Some? ==> r.value in attributes && normalize(r.value.name) == normalize(name)
    ensures r.None? <==> forall a :: a in attributes ==> normalize(a.name) != normalize(name)
  {
    if attributes == [] then None
    else if normalize(attributes[0].name) == normalize(name) then Some(attributes[0])
    else AttributeNamed(normalize, attributes[1..], name)
  }

  function OperationNamed(normalize: Normalize, operations: seq<UmlOperation>, name: string): (r: Option<UmlOperation>)
    ensures r.Some? ==> r.value in operations && normalize(r.value.name) == normalize(name)
    ensures r.None? <==> forall o :: o in operations ==> normalize(o.name) != normalize(name)
  {
    if operations == [] then None
    else if normalize(operations[0].name) == normalize(name) then Some(operations[0])
    else OperationNamed(normalize, operations[1..], name)
  }

  // ---- one call --------------------------------------------------------

  function ParseType(text: string): Result<AttributeType, TranslationError> {
    match PrimitiveOf(text)
    case None => Err(MalformedPayload)
    case Some(p) => Ok(Primitive(p))
  }

  /** An empty return type means none. */
  function ParseReturn(text: Option<string>): Result<Option<AttributeType>, TranslationError> {
    if TextOr(text, "") == "" then Ok(None)
    else
      match ParseType(text.value)
      case Err(e) => Err(e)
      case Ok(t) => Ok(Some(t))
  }

  function AddLink(normalize: Normalize, registry: Registry, link: LinkArguments, id: ElementId): Result<C.Command, TranslationError> {
    match Resolve(normalize, registry, link.sourceName)
    case Err(e) => Err(e)
    case Ok(source) =>
      match Resolve(normalize, registry, link.targetName)
      case Err(e) => Err(e)
      case Ok(target) =>
        match (KindOf(link.kind), ParseMultiplicity(TextOr(link.source, "0..1")), ParseMultiplicity(TextOr(link.target, "0..*")))
        case (Some(kind), Some(a), Some(b)) =>
          Ok(C.AddRelationship(Relationship(id, kind, RelationshipEnd(source, a, None), RelationshipEnd(target, b, None), link.name)))
        case _ => Err(MalformedPayload)
  }

  /** An absent multiplicity stays as it is. */
  function ParseOptional(text: Option<string>): Result<Option<Multiplicity>, TranslationError> {
    match text
    case None => Ok(None)
    case Some(t) =>
      match ParseMultiplicity(t)
      case None => Err(MalformedPayload)
      case Some(m) => Ok(Some(m))
  }

  function UpdateLink(r: Relationship, name: Option<Option<string>>, source: Option<string>, target: Option<string>)
      : Result<C.Command, TranslationError>
  {
    match (ParseOptional(source), ParseOptional(target))
    case (Ok(a), Ok(b)) =>
      Ok(C.UpdateRelationship(r.id, if name.None? then C.Unset else C.SetTo(name.value), a, b))
    case _ => Err(MalformedPayload)
  }

  /** The command of a call; `id` is the new id it may use. Only `AddClassCall` extends the registry. */
  function Translate(normalize: Normalize, model: Model, registry: Registry, call: Call, id: ElementId)
      : Result<C.Command, TranslationError>
  {
    match call
    case AddClassCall(name) => Ok(C.AddClass(id, name))
    case RemoveClassCall(className) =>
      (match Resolve(normalize, registry, className)
       case Err(e) => Err(e)
       case Ok(c) => Ok(C.RemoveClass(c)))
    case RenameClassCall(className, newName) =>
      (match Resolve(normalize, registry, className)
       case Err(e) => Err(e)
       case Ok(c) => Ok(C.RenameClass(c, newName)))
    case AddAttributeCall(className, name, typeText) =>
      (match Resolve(normalize, registry, className)
       case Err(e) => Err(e)
       case Ok(c) =>
         match ParseType(typeText)
         case Err(e) => Err(e)
         case Ok(t) => Ok(C.AddAttribute(c, UmlAttribute(id, name, t, Private))))
    case RemoveAttributeCall(className, name) =>
      (match Resolve(normalize, registry, className)
       case Err(e) => Err(e)
       case Ok(c) =>
         match ClassById(model.classes, c)
         case None => Err(UnknownMember(className, name))
         case Some(umlClass) =>
           match AttributeNamed(normalize, umlClass.attributes, name)
           case None => Err(UnknownMember(className, name))
           case Some(a) => Ok(C.RemoveAttribute(c, a.id)))
    case AddOperationCall(className, name, returnType) =>
      (match Resolve(normalize, registry, className)
       case Err(e) => Err(e)
       case Ok(c) =>
         match ParseReturn(returnType)
         case Err(e) => Err(e)
         case Ok(t) => Ok(C.AddOperation(c, UmlOperation(id, name, t, [], Public))))
    case RemoveOperationCall(className, name) =>
      (match Resolve(normalize, registry, className)
       case Err(e) => Err(e)
       case Ok(c) =>
         match ClassById(model.classes, c)
         case None => Err(UnknownMember(className, name))
         case Some(umlClass) =>
           match OperationNamed(normalize, umlClass.operations, name)
           case None => Err(UnknownMember(className, name))
           case Some(o) => Ok(C.RemoveOperation(c, o.id)))
    case AddRelationshipCall(link) => AddLink(normalize, registry, link, id)
    case RemoveRelationshipCall(sourceName, targetName, kind) =>
      (match FindRelationship(normalize, model, registry, sourceName, targetName, kind)
       case Err(e) => Err(e)
       case Ok(r) => Ok(C.RemoveRelationship(r.id)))
    case UpdateRelationshipCall(sourceName, targetName, kind, name, source, target) =>
      (match FindRelationship(normalize, model, registry, sourceName, targetName, kind)
       case Err(e) => Err(e)
       case Ok(r) => UpdateLink(r, name, source, target))
    case UnsupportedCall(name) => Err(UnsupportedFunction(name))
  }

  function Registered(normalize: Normalize, registry: Registry, call: Call, id: ElementId): Registry {
    if call.AddClassCall? then registry[normalize(call.name) := id] else registry
  }

  // ---- a batch of calls ------------------------------------------------

  /** New ids by position of the call that asks for one. */
  type NewIds = nat -> ElementId

  datatype Batch = Batch(registry: Registry, commands: seq<C.Command>)

  function TranslateOne(normalize: Normalize, model: Model, newId: NewIds, batch: Batch, call: Call): Result<Batch, TranslationError> {
    var id := newId(|batch.commands|);
    match Translate(normalize, model, batch.registry, call, id)
    case Err(e) => Err(e)
    case Ok(command) => Ok(Batch(Registered(normalize, batch.registry, call, id), batch.commands + [command]))
  }

  function TranslateAll(normalize: Normalize, model: Model, newId: NewIds, batch: Batch, calls: seq<Call>)
      : Result<Batch, TranslationError>
  {
    if calls == [] then Ok(batch)
    else
      match TranslateAll(normalize, model, newId, batch, calls[..|calls| - 1])
      case Err(e) => Err(e)
      case Ok(before) => TranslateOne(normalize, model, newId, before, calls[|calls| - 1])
  }

  function StartBatch(normalize: Normalize, model: Model): Batch {
    Batch(RegistryOf(normalize, model.classes), [])
  }

  lemma {:induction false} TranslateConcat(normalize: Normalize, model: Model, newId: NewIds, batch: Batch, a: seq<Call>, b: seq<Call>)
    requires TranslateAll(normalize, model, newId, batch, a).Ok?
    ensures TranslateAll(normalize, model, newId, batch, a + b) ==
      TranslateAll(normalize, model, newId, TranslateAll(normalize, model, newId, batch, a).value, b)
  {
    hide TranslateOne;
    if b == [] {
      assert a + b == a;
    } else {
      var n := |b| - 1;
      assert (a + b)[..|a + b| - 1] == a + b[..n];
      TranslateConcat(normalize, model, newId, batch, a, b[..n]);
    }
  }

  /** One command per call. */
  lemma {:induction false} TranslateCounts(normalize: Normalize, model: Model, newId: NewIds, batch: Batch, calls: seq<Call>)
    requires TranslateAll(normalize, model, newId, batch, calls).Ok?
    ensures |TranslateAll(normalize, model, newId, batch, calls).value.commands| == |batch.commands| + |calls|
  {
    hide Translate;
    if calls != [] {
      TranslateCounts(normalize, model, newId, batch, calls[..|calls| - 1]);
    }
  }

  /** The translator of one utterance: the registry grows as classes are created. */
  class Session {
    const normalize: Normalize
    const model: Model
    var registry: Registry
    var commands: seq<C.Command>

    constructor (normalize: Normalize, model: Model)
      ensures this.normalize == normalize && this.model == model
      ensures Batch(registry, commands) == StartBatch(normalize, model)
    {
      this.normalize, this.model, commands := normalize, model, [];
      this.registry := map[];
      new;
      for i := 0 to |model.classes|
        invariant registry == RegistryOf(normalize, model.classes[..i]) && commands == []
      {
        PrefixStep(model.classes, i);
        assert model.classes[..i + 1][i] == model.classes[i];
        registry := registry[normalize(model.classes[i].name) := model.classes[i].id];
      }
      FullPrefix(model.classes);
    }

    method TranslateCall(newId: NewIds, call: Call) returns (r: Result<(), TranslationError>)
      modifies this
      ensures match TranslateOne(normalize, model, newId, old(Batch(registry, commands)), call)
        case Ok(batch) => r.Ok? && Batch(registry, commands) == batch
        case Err(e) => r == Err(e) && Batch(registry, commands) == old(Batch(registry, commands))
    {
      hide Translate;
      var id := newId(|commands|);
      var command := Translate(normalize, model, registry, call, id);
      if command.Err? {
        return Err(command.error);
      }
      if call.AddClassCall? {
        registry := registry[normalize(call.name) := id];
      }
      commands := commands + [command.value];
      return Ok(());
    }

    /** All calls of a plan, or the first error. */
    method TranslateCalls(newId: NewIds, calls: seq<Call>) returns (r: Result<(), TranslationError>)
      modifies this
      ensures match TranslateAll(normalize, model, newId, old(Batch(registry, commands)), calls)
        case Ok(batch) => r.Ok? && Batch(registry, commands) == batch
        case Err(e) => r == Err(e)
    {
      hide TranslateOne;
      for i := 0 to |calls|
        invariant TranslateAll(normalize, model, newId, old(Batch(registry, commands)), calls[..i]) == Ok(Batch(registry, commands))
      {
        PrefixStep(calls, i);
        assert calls[..i + 1][i] == calls[i];
        var outcome := TranslateCall(newId, calls[i]);
        if outcome.Err? {
          TranslationErrorStands(normalize, model, newId, old(Batch(registry, commands)), calls, i + 1);
          return outcome;
        }
      }
      FullPrefix(calls);
      return Ok(());
    }
  }

  lemma {:induction false} TranslationErrorStands(
      normalize: Normalize, model: Model, newId: NewIds, batch: Batch, calls: seq<Call>, i: nat)
    requires i <= |calls| && TranslateAll(normalize, model, newId, batch, calls[..i]).Err?
    ensures TranslateAll(normalize, model, newId, batch, calls) == TranslateAll(normalize, model, newId, batch, calls[..i])
  {
    hide TranslateOne;
    if i < |calls| {
      assert calls[..|calls| - 1][..i] == calls[..i];
      TranslationErrorStands(normalize, model, newId, batch, calls[..|calls| - 1], i);
    } else {
      assert calls[..i] == calls;
    }
  }
}
