/** What the calls of a reconciliation are translated to. */
module ReconcileCalls {
  import opened Text
  import opened Seqs
  import opened Uml
  import opened Multiplicities
  import opened Calls
  import opened Translator
  import opened Reconcile
  import opened ReconcileMembers
  import opened ReconcileStages
  import C = Commands
  import Runs = DocumentRuns

  // ---- what the theorem is about ---------------------------------------

  ghost predicate ClassKeysDistinct(normalize: Normalize, classes: seq<UmlClass>) {
    forall i, j :: 0 <= i < j < |classes| ==> normalize(classes[i].name) != normalize(classes[j].name)
  }

  ghost predicate OperationIdsDistinct(c: UmlClass) {
    forall i, j :: 0 <= i < j < |c.operations| ==> c.operations[i].id != c.operations[j].id
  }

  ghost predicate ClassIsReady(normalize: Normalize, c: UmlClass) {
    && DistinctKeys(normalize, AttributeMembers(c)) && DistinctKeys(normalize, OperationMembers(c))
    && Runs.OwnAttributesDistinct(c) && OperationIdsDistinct(c)
  }

  predicate SameLink(r: Relationship, x: Relationship) {
    r.kind == x.kind && r.source.classId == x.source.classId && r.target.classId == x.target.classId
  }

  ghost predicate NoParallels(relationships: seq<Relationship>) {
    forall i, j :: 0 <= i < j < |relationships| ==> !SameLink(relationships[i], relationships[j])
  }

  /** Ids and names are unique, ends are live, and no two relationships of a kind share their ends. */
  ghost predicate ModelIsReady(normalize: Normalize, model: Model) {
    && ClassesDistinct(model.classes) && ClassKeysDistinct(normalize, model.classes)
    && (forall c :: c in model.classes ==> ClassIsReady(normalize, c))
    && LinksDistinct(model.relationships) && NoParallels(model.relationships) && NoDanglingEnds(model)
  }

  predicate AttributeIsReady(m: Member) {
    PrimitiveOf(m.text).Some?
  }

  predicate OperationIsReady(m: Member) {
    m.text == "" || PrimitiveOf(m.text).Some?
  }

  ghost predicate DesiredIsReady(normalize: Normalize, d: Desired) {
    && DistinctKeys(normalize, d.attributes) && DistinctKeys(normalize, d.operations)
    && (forall m :: m in d.attributes ==> AttributeIsReady(m))
    && (forall m :: m in d.operations ==> OperationIsReady(m))
  }

  predicate LinkIsReady(normalize: Normalize, desired: seq<Desired>, link: LinkArguments) {
    && DesiredNamed(normalize, desired, link.sourceName).Some? && DesiredNamed(normalize, desired, link.targetName).Some?
    && KindOf(link.kind).Some?
    && ParseMultiplicity(TextOr(link.source, "0..1")).Some? && ParseMultiplicity(TextOr(link.target, "0..*")).Some?
  }

  predicate ParallelLinks(normalize: Normalize, a: LinkArguments, b: LinkArguments) {
    a.kind == b.kind && normalize(a.sourceName) == normalize(b.sourceName) && normalize(a.targetName) == normalize(b.targetName)
  }

  /** Members are unique by name and well typed; links join extracted classes, in known
      kinds and multiplicities, and no two of a kind share their ends. */
  ghost predicate ExtractionIsReady(normalize: Normalize, extracted: seq<Call>) {
    var desired, links := DesiredClasses(normalize, extracted), DesiredLinks(extracted);
    && UnsupportedCall(EXTRACT) !in extracted
    && (forall d :: d in desired ==> DesiredIsReady(normalize, d))
    && (forall link :: link in links ==> LinkIsReady(normalize, desired, link))
    && forall i, j :: 0 <= i < j < |links| ==> !ParallelLinks(normalize, links[i], links[j])
  }

  /** New ids differ from each other and from those of the document. */
  ghost predicate IdsAreNew(model: Model, newId: NewIds) {
    && (forall i, j :: newId(i) == newId(j) ==> i == j)
    && (forall i, c :: c in model.classes ==> c.id != newId(i))
    && (forall i, r :: r in model.relationships ==> r.id != newId(i))
  }

  // ---- names -----------------------------------------------------------

  lemma {:induction false} PutNewClass(normalize: Normalize, classes: seq<UmlClass>, c: UmlClass)
    requires forall x :: x in classes ==> normalize(x.name) != normalize(c.name)
    ensures PutClass(normalize, classes, c) == classes + [c]
  {
    if classes != [] {
      PutNewClass(normalize, classes[1..], c);
    }
  }

  /** With distinct names the dictionary of classes is the list itself. */
  lemma {:induction false} KeyedClassesAreSame(normalize: Normalize, classes: seq<UmlClass>)
    requires ClassKeysDistinct(normalize, classes)
    ensures KeyedClasses(normalize, classes) == classes
  {
    if classes != [] {
      var n := |classes| - 1;
      KeyedClassesAreSame(normalize, classes[..n]);
      PutNewClass(normalize, classes[..n], classes[n]);
      assert classes == classes[..n] + [classes[n]];
    }
  }

  lemma ClassIsNamed(normalize: Normalize, classes: seq<UmlClass>, c: UmlClass, name: string)
    requires ClassKeysDistinct(normalize, classes) && c in classes && normalize(c.name) == normalize(name)
    ensures ClassNamed(normalize, classes, name) == Some(c)
  {
    var found := ClassNamed(normalize, classes, name).value;
    var i :| 0 <= i < |classes| && classes[i] == c;
    var j :| 0 <= j < |classes| && classes[j] == found;
  }

  /** The registry knows exactly the classes, each under its name. */
  lemma {:induction false} RegistryKnows(normalize: Normalize, classes: seq<UmlClass>)
    requires ClassKeysDistinct(normalize, classes)
    ensures forall c :: c in classes ==>
      normalize(c.name) in RegistryOf(normalize, classes) && RegistryOf(normalize, classes)[normalize(c.name)] == c.id
    ensures forall key :: key in RegistryOf(normalize, classes) ==> exists c :: c in classes && normalize(c.name) == key
  {
    if classes != [] {
      var n := |classes| - 1;
      LastIsMember(classes);
      RegistryKnows(normalize, classes[..n]);
      forall c | c in classes[..n] ensures normalize(c.name) != normalize(classes[n].name) {
        var i :| 0 <= i < n && classes[..n][i] == c;
      }
    }
  }

  lemma NameIsRegistered(normalize: Normalize, classes: seq<UmlClass>, c: UmlClass)
    requires ClassKeysDistinct(normalize, classes) && c in classes
    ensures normalize(c.name) in RegistryOf(normalize, classes) && RegistryOf(normalize, classes)[normalize(c.name)] == c.id
  {
    hide RegistryOf, ClassKeysDistinct;
    RegistryKnows(normalize, classes);
  }

  lemma {:induction false} DesiredNamesDistinct(normalize: Normalize, calls: seq<Call>)
    ensures forall i, j :: 0 <= i < j < |DesiredNames(normalize, calls)| ==>
      normalize(DesiredNames(normalize, calls)[i]) != normalize(DesiredNames(normalize, calls)[j])
  {
    if calls != [] {
      DesiredNamesDistinct(normalize, calls[..|calls| - 1]);
    }
  }

  ghost predicate DesiredKeysDistinct(normalize: Normalize, desired: seq<Desired>) {
    forall i, j :: 0 <= i < j < |desired| ==> normalize(desired[i].name) != normalize(desired[j].name)
  }

  lemma DesiredAreDistinct(normalize: Normalize, calls: seq<Call>)
    ensures DesiredKeysDistinct(normalize, DesiredClasses(normalize, calls))
  {
    DesiredNamesDistinct(normalize, calls);
    hide DesiredNames, AttributesFor, OperationsFor;
  }

  lemma DesiredIsNamed(normalize: Normalize, desired: seq<Desired>, d: Desired, name: string)
    requires DesiredKeysDistinct(normalize, desired) && d in desired && normalize(d.name) == normalize(name)
    ensures DesiredNamed(normalize, desired, name) == Some(d)
  {
    var found := DesiredNamed(normalize, desired, name).value;
    var i :| 0 <= i < |desired| && desired[i] == d;
    var j :| 0 <= j < |desired| && desired[j] == found;
  }

  /** Members of a desired class carry a name of that class. */
  lemma {:induction false} MembersNameTheirClass(normalize: Normalize, calls: seq<Call>, name: string)
    ensures forall m :: m in AttributesFor(normalize, calls, name) ==> normalize(m.className) == normalize(name)
    ensures forall m :: m in OperationsFor(normalize, calls, name) ==> normalize(m.className) == normalize(name)
  {
    if calls != [] {
      MembersNameTheirClass(normalize, calls[..|calls| - 1], name);
    }
  }

  // ---- calls that create no class --------------------------------------

  ghost predicate TranslatesTo(normalize: Normalize, model: Model, registry: Registry, call: Call, id: ElementId, k: C.Command) {
    !call.AddClassCall? && Translate(normalize, model, registry, call, id) == Ok(k)
  }

  lemma PlainCall(normalize: Normalize, model: Model, newId: NewIds, batch: Batch, call: Call, k: C.Command)
    requires TranslatesTo(normalize, model, batch.registry, call, newId(|batch.commands|), k)
    ensures TranslateOne(normalize, model, newId, batch, call) == Ok(Batch(batch.registry, batch.commands + [k]))
  {
    hide Translate;
  }

  lemma NoCalls(normalize: Normalize, model: Model, newId: NewIds, batch: Batch)
    ensures TranslateAll(normalize, model, newId, batch, []) == Ok(batch)
  {
  }

  lemma TranslateStep(normalize: Normalize, model: Model, newId: NewIds, batch: Batch, front: seq<Call>, call: Call, before: Batch)
    requires TranslateAll(normalize, model, newId, batch, front) == Ok(before)
    ensures TranslateAll(normalize, model, newId, batch, front + [call]) == TranslateOne(normalize, model, newId, before, call)
  {
    assert (front + [call])[..|front|] == front;
    hide TranslateOne;
  }

  /** Calls that create no class are translated one by one, with the registry as it is. */
  lemma {:induction false} PlainCalls(
      normalize: Normalize, model: Model, newId: NewIds, batch: Batch, calls: seq<Call>, commands: seq<C.Command>)
    requires |commands| == |calls|
    requires forall i :: 0 <= i < |calls| ==>
      TranslatesTo(normalize, model, batch.registry, calls[i], newId(|batch.commands| + i), commands[i])
    ensures TranslateAll(normalize, model, newId, batch, calls) == Ok(Batch(batch.registry, batch.commands + commands))
  {
    hide TranslateAll, TranslatesTo, TranslateOne;
    if calls == [] {
      NoCalls(normalize, model, newId, batch);
      assert batch.commands + commands == batch.commands;
    } else {
      var n := |calls| - 1;
      PlainCalls(normalize, model, newId, batch, calls[..n], commands[..n]);
      assert calls == calls[..n] + [calls[n]] && commands == commands[..n] + [commands[n]];
      var before := Batch(batch.registry, batch.commands + commands[..n]);
      TranslateStep(normalize, model, newId, batch, calls[..n], calls[n], before);
      PlainCall(normalize, model, newId, before, calls[n], commands[n]);
      AppendAssociates(batch.commands, commands[..n], [commands[n]]);
    }
  }

  // ---- removals --------------------------------------------------------

  /** Two lists of removal calls, one after the other. */
  ghost predicate RemovesBy(normalize: Normalize, model: Model, calls: seq<Call>, commands: seq<C.Command>) {
    |commands| == |calls|
    && forall i :: 0 <= i < |calls| ==> forall id :: TranslatesTo(normalize, model, RegistryOf(normalize, model.classes), calls[i], id, commands[i])
  }

  lemma RemovesConcat(normalize: Normalize, model: Model, a: seq<Call>, b: seq<Call>, x: seq<C.Command>, y: seq<C.Command>)
    requires RemovesBy(normalize, model, a, x) && RemovesBy(normalize, model, b, y)
    ensures RemovesBy(normalize, model, a + b, x + y)
  {
    hide TranslatesTo;
  }

  /** The class commands of the removal stage. */
  function RemoveClassCommands(normalize: Normalize, classes: seq<UmlClass>, desired: seq<Desired>): seq<C.Command> {
    if classes == [] then []
    else
      var c := classes[|classes| - 1];
      RemoveClassCommands(normalize, classes[..|classes| - 1], desired)
      + if DesiredNamed(normalize, desired, c.name).None? then [C.RemoveClass(c.id)] else []
  }

  lemma OneRemoval(normalize: Normalize, model: Model, call: Call, k: C.Command)
    requires forall id :: TranslatesTo(normalize, model, RegistryOf(normalize, model.classes), call, id, k)
    ensures RemovesBy(normalize, model, [call], [k])
    ensures RemovesBy(normalize, model, [], [])
  {
    hide TranslatesTo;
  }

  lemma NoRemoval(normalize: Normalize, model: Model)
    ensures RemovesBy(normalize, model, [], [])
  {
  }

  lemma ClassRemovalTranslates(normalize: Normalize, model: Model, c: UmlClass)
    requires ClassKeysDistinct(normalize, model.classes) && c in model.classes
    ensures forall id :: TranslatesTo(normalize, model, RegistryOf(normalize, model.classes), RemoveClassCall(c.name), id, C.RemoveClass(c.id))
  {
    RegistryKnows(normalize, model.classes);
    hide RegistryOf, ClassKeysDistinct;
  }

  lemma {:induction false} ClassRemovalsTranslate(normalize: Normalize, model: Model, classes: seq<UmlClass>, desired: seq<Desired>)
    requires ClassKeysDistinct(normalize, model.classes) && forall c :: c in classes ==> c in model.classes
    ensures RemovesBy(normalize, model, RemoveClassCalls(normalize, classes, desired), RemoveClassCommands(normalize, classes, desired))
  {
    hide TranslatesTo, RemovesBy, ClassKeysDistinct;
    NoRemoval(normalize, model);
    if classes != [] {
      var n := |classes| - 1;
      LastIsMember(classes);
      ClassRemovalsTranslate(normalize, model, classes[..n], desired);
      ClassRemovalTranslates(normalize, model, classes[n]);
      OneRemoval(normalize, model, RemoveClassCall(classes[n].name), C.RemoveClass(classes[n].id));
      var undesired := DesiredNamed(normalize, desired, classes[n].name).None?;
      RemovesConcat(normalize, model, RemoveClassCalls(normalize, classes[..n], desired),
                    if undesired then [RemoveClassCall(classes[n].name)] else [],
                    RemoveClassCommands(normalize, classes[..n], desired),
                    if undesired then [C.RemoveClass(classes[n].id)] else []);
    }
  }

  lemma {:induction false} RemoveClassMembers(normalize: Normalize, classes: seq<UmlClass>, desired: seq<Desired>)
    ensures forall k :: k in RemoveClassCommands(normalize, classes, desired) <==>
      k.RemoveClass? && exists c :: c in classes && c.id == k.classId && DesiredNamed(normalize, desired, c.name).None?
  {
    hide DesiredNamed;
    if classes != [] {
      LastIsMember(classes);
      RemoveClassMembers(normalize, classes[..|classes| - 1], desired);
    }
  }

  // ---- removed members -------------------------------------------------

  function MemberOfAttribute(c: UmlClass, a: UmlAttribute): Member {
    Member(c.name, a.name, TypeText(a.typ))
  }

  function MemberOfOperation(c: UmlClass, o: UmlOperation): Member {
    Member(c.name, o.name, ReturnText(o.returnType))
  }

  /** The attributes of the class that are not wanted, in order. */
  function DroppedAttributes(normalize: Normalize, c: UmlClass, attributes: seq<UmlAttribute>, wanted: seq<Member>): seq<C.Command> {
    if attributes == [] then []
    else
      var a := attributes[|attributes| - 1];
      DroppedAttributes(normalize, c, attributes[..|attributes| - 1], wanted)
      + if IsKept(normalize, wanted, MemberOfAttribute(c, a)) then [] else [C.RemoveAttribute(c.id, a.id)]
  }

  function DroppedOperations(normalize: Normalize, c: UmlClass, operations: seq<UmlOperation>, wanted: seq<Member>): seq<C.Command> {
    if operations == [] then []
    else
      var o := operations[|operations| - 1];
      DroppedOperations(normalize, c, operations[..|operations| - 1], wanted)
      + if IsKept(normalize, wanted, MemberOfOperation(c, o)) then [] else [C.RemoveOperation(c.id, o.id)]
  }

  lemma AttributeIsNamed(normalize: Normalize, c: UmlClass, a: UmlAttribute)
    requires DistinctKeys(normalize, AttributeMembers(c)) && a in c.attributes
    ensures AttributeNamed(normalize, c.attributes, a.name) == Some(a)
  {
    var found := AttributeNamed(normalize, c.attributes, a.name).value;
    var i :| 0 <= i < |c.attributes| && c.attributes[i] == a;
    var j :| 0 <= j < |c.attributes| && c.attributes[j] == found;
    assert AttributeMembers(c)[i].name == a.name && AttributeMembers(c)[j].name == found.name;
  }

  lemma OperationIsNamed(normalize: Normalize, c: UmlClass, o: UmlOperation)
    requires DistinctKeys(normalize, OperationMembers(c)) && o in c.operations
    ensures OperationNamed(normalize, c.operations, o.name) == Some(o)
  {
    var found := OperationNamed(normalize, c.operations, o.name).value;
    var i :| 0 <= i < |c.operations| && c.operations[i] == o;
    var j :| 0 <= j < |c.operations| && c.operations[j] == found;
    assert OperationMembers(c)[i].name == o.name && OperationMembers(c)[j].name == found.name;
  }

  lemma AttributeRemovalTranslates(normalize: Normalize, model: Model, c: UmlClass, a: UmlAttribute)
    requires ClassesDistinct(model.classes) && ClassKeysDistinct(normalize, model.classes) && c in model.classes
    requires DistinctKeys(normalize, AttributeMembers(c)) && a in c.attributes
    ensures forall id :: TranslatesTo(normalize, model, RegistryOf(normalize, model.classes),
                                      RemoveAttributeCall(c.name, a.name), id, C.RemoveAttribute(c.id, a.id))
  {
    hide RegistryOf, ClassKeysDistinct, AttributeNamed, ClassById, DistinctKeys, AttributeMembers;
    NameIsRegistered(normalize, model.classes, c);
    ClassByIdUnique(model.classes, c);
    AttributeIsNamed(normalize, c, a);
    hide ClassesDistinct;
  }

  lemma OperationRemovalTranslates(normalize: Normalize, model: Model, c: UmlClass, o: UmlOperation)
    requires ClassesDistinct(model.classes) && ClassKeysDistinct(normalize, model.classes) && c in model.classes
    requires DistinctKeys(normalize, OperationMembers(c)) && o in c.operations
    ensures forall id :: TranslatesTo(normalize, model, RegistryOf(normalize, model.classes),
                                      RemoveOperationCall(c.name, o.name), id, C.RemoveOperation(c.id, o.id))
  {
    hide RegistryOf, ClassKeysDistinct, OperationNamed, ClassById, DistinctKeys, OperationMembers;
    NameIsRegistered(normalize, model.classes, c);
    ClassByIdUnique(model.classes, c);
    OperationIsNamed(normalize, c, o);
    hide ClassesDistinct;
  }

  lemma DroppedStep(normalize: Normalize, existing: seq<Member>, m: Member, wanted: seq<Member>)
    ensures Dropped(normalize, existing + [m], wanted) ==
      Dropped(normalize, existing, wanted) + if IsKept(normalize, wanted, m) then [] else [m]
  {
    assert (existing + [m])[..|existing|] == existing;
    hide IsKept;
  }

  function MembersOfAttributes(c: UmlClass, attributes: seq<UmlAttribute>): seq<Member> {
    seq(|attributes|, i requires 0 <= i < |attributes| => MemberOfAttribute(c, attributes[i]))
  }

  function MembersOfOperations(c: UmlClass, operations: seq<UmlOperation>): seq<Member> {
    seq(|operations|, i requires 0 <= i < |operations| => MemberOfOperation(c, operations[i]))
  }

  lemma RemoveCallsAppend(className: string, front: seq<Member>, m: Member)
    ensures RemoveAttributeCalls(className, front + [m]) == RemoveAttributeCalls(className, front) + [RemoveAttributeCall(className, m.name)]
    ensures RemoveOperationCalls(className, front + [m]) == RemoveOperationCalls(className, front) + [RemoveOperationCall(className, m.name)]
  {
  }

  lemma {:induction false} DroppedAttributesTranslate(
      normalize: Normalize, model: Model, c: UmlClass, attributes: seq<UmlAttribute>, wanted: seq<Member>)
    requires ClassesDistinct(model.classes) && ClassKeysDistinct(normalize, model.classes) && c in model.classes
    requires DistinctKeys(normalize, AttributeMembers(c)) && forall a :: a in attributes ==> a in c.attributes
    ensures RemovesBy(normalize, model, RemoveAttributeCalls(c.name, Dropped(normalize, MembersOfAttributes(c, attributes), wanted)),
                      DroppedAttributes(normalize, c, attributes, wanted))
  {
    hide TranslatesTo, RemovesBy, ClassKeysDistinct, ClassesDistinct, DistinctKeys, IsKept;
    NoRemoval(normalize, model);
    if attributes == [] {
      assert MembersOfAttributes(c, attributes) == [] && RemoveAttributeCalls(c.name, []) == [];
    } else {
      hide Dropped, RemoveAttributeCalls;
      var n := |attributes| - 1;
      var a := attributes[n];
      LastIsMember(attributes);
      DroppedAttributesTranslate(normalize, model, c, attributes[..n], wanted);
      var m := MemberOfAttribute(c, a);
      assert MembersOfAttributes(c, attributes) == MembersOfAttributes(c, attributes[..n]) + [m];
      DroppedStep(normalize, MembersOfAttributes(c, attributes[..n]), m, wanted);
      var front := Dropped(normalize, MembersOfAttributes(c, attributes[..n]), wanted);
      assert front + [] == front;
      if !IsKept(normalize, wanted, m) {
        RemoveCallsAppend(c.name, front, m);
        AttributeRemovalTranslates(normalize, model, c, a);
        OneRemoval(normalize, model, RemoveAttributeCall(c.name, a.name), C.RemoveAttribute(c.id, a.id));
        RemovesConcat(normalize, model, RemoveAttributeCalls(c.name, front), [RemoveAttributeCall(c.name, a.name)],
                      DroppedAttributes(normalize, c, attributes[..n], wanted), [C.RemoveAttribute(c.id, a.id)]);
      } else {
        assert DroppedAttributes(normalize, c, attributes[..n], wanted) + [] == DroppedAttributes(normalize, c, attributes[..n], wanted);
      }
    }
  }

  lemma {:induction false} DroppedOperationsTranslate(
      normalize: Normalize, model: Model, c: UmlClass, operations: seq<UmlOperation>, wanted: seq<Member>)
    requires ClassesDistinct(model.classes) && ClassKeysDistinct(normalize, model.classes) && c in model.classes
    requires DistinctKeys(normalize, OperationMembers(c)) && forall o :: o in operations ==> o in c.operations
    ensures RemovesBy(normalize, model, RemoveOperationCalls(c.name, Dropped(normalize, MembersOfOperations(c, operations), wanted)),
                      DroppedOperations(normalize, c, operations, wanted))
  {
    hide TranslatesTo, RemovesBy, ClassKeysDistinct, ClassesDistinct, DistinctKeys, IsKept;
    NoRemoval(normalize, model);
    if operations == [] {
      assert MembersOfOperations(c, operations) == [] && RemoveOperationCalls(c.name, []) == [];
    } else {
      hide Dropped, RemoveOperationCalls;
      var n := |operations| - 1;
      var o := operations[n];
      LastIsMember(operations);
      DroppedOperationsTranslate(normalize, model, c, operations[..n], wanted);
      var m := MemberOfOperation(c, o);
      assert MembersOfOperations(c, operations) == MembersOfOperations(c, operations[..n]) + [m];
      DroppedStep(normalize, MembersOfOperations(c, operations[..n]), m, wanted);
      var front := Dropped(normalize, MembersOfOperations(c, operations[..n]), wanted);
      assert front + [] == front;
      if !IsKept(normalize, wanted, m) {
        RemoveCallsAppend(c.name, front, m);
        OperationRemovalTranslates(normalize, model, c, o);
        OneRemoval(normalize, model, RemoveOperationCall(c.name, o.name), C.RemoveOperation(c.id, o.id));
        RemovesConcat(normalize, model, RemoveOperationCalls(c.name, front), [RemoveOperationCall(c.name, o.name)],
                      DroppedOperations(normalize, c, operations[..n], wanted), [C.RemoveOperation(c.id, o.id)]);
      } else {
        assert DroppedOperations(normalize, c, operations[..n], wanted) + [] == DroppedOperations(normalize, c, operations[..n], wanted);
      }
    }
  }

  /** The member commands of the removal stage for one class that is on both sides. */
  function MemberCommands(normalize: Normalize, c: UmlClass, d: Desired): seq<C.Command> {
    DroppedAttributes(normalize, c, c.attributes, d.attributes) + DroppedOperations(normalize, c, c.operations, d.operations)
  }

  function ClassRemovalCommands(normalize: Normalize, classes: seq<UmlClass>, desired: seq<Desired>): seq<C.Command> {
    if desired == [] then []
    else
      var d := desired[|desired| - 1];
      var existing := ClassNamed(normalize, classes, d.name);
      ClassRemovalCommands(normalize, classes, desired[..|desired| - 1])
      + if existing.None? then [] else MemberCommands(normalize, existing.value, d)
  }

  lemma MembersAre(c: UmlClass)
    ensures AttributeMembers(c) == MembersOfAttributes(c, c.attributes)
    ensures OperationMembers(c) == MembersOfOperations(c, c.operations)
  {
    hide TypeText, ReturnText;
  }

  lemma MemberRemovalsTranslate(normalize: Normalize, model: Model, c: UmlClass, d: Desired)
    requires ClassesDistinct(model.classes) && ClassKeysDistinct(normalize, model.classes) && c in model.classes
    requires ClassIsReady(normalize, c) && DesiredIsReady(normalize, d)
    ensures RemovesBy(normalize, model, MemberRemovals(normalize, c, d), MemberCommands(normalize, c, d))
  {
    KeyedIsSame(normalize, d.attributes);
    KeyedIsSame(normalize, d.operations);
    MembersAre(c);
    hide TranslatesTo, RemovesBy, ClassesDistinct, ClassKeysDistinct, DistinctKeys, Dropped, DroppedAttributes, DroppedOperations,
         RemoveAttributeCalls, RemoveOperationCalls, KeyedMembers, AttributeMembers, OperationMembers, MembersOfAttributes, MembersOfOperations;
    DroppedAttributesTranslate(normalize, model, c, c.attributes, d.attributes);
    DroppedOperationsTranslate(normalize, model, c, c.operations, d.operations);
    RemovesConcat(normalize, model,
      RemoveAttributeCalls(c.name, Dropped(normalize, AttributeMembers(c), d.attributes)),
      RemoveOperationCalls(c.name, Dropped(normalize, OperationMembers(c), d.operations)),
      DroppedAttributes(normalize, c, c.attributes, d.attributes), DroppedOperations(normalize, c, c.operations, d.operations));
  }

  ghost predicate ClassesAreReady(normalize: Normalize, classes: seq<UmlClass>) {
    && ClassesDistinct(classes) && ClassKeysDistinct(normalize, classes)
    && forall c :: c in classes ==> ClassIsReady(normalize, c)
  }

  lemma {:induction false} MemberRemovalListsTranslate(normalize: Normalize, model: Model, desired: seq<Desired>)
    requires ClassesAreReady(normalize, model.classes) && forall d :: d in desired ==> DesiredIsReady(normalize, d)
    ensures RemovesBy(normalize, model, ClassRemovals(normalize, model.classes, desired),
                      ClassRemovalCommands(normalize, model.classes, desired))
  {
    hide TranslatesTo, RemovesBy, ClassesDistinct, ClassKeysDistinct, ClassIsReady, DesiredIsReady, MemberRemovals, MemberCommands;
    NoRemoval(normalize, model);
    if desired != [] {
      var n := |desired| - 1;
      LastIsMember(desired);
      MemberRemovalListsTranslate(normalize, model, desired[..n]);
      var existing := ClassNamed(normalize, model.classes, desired[n].name);
      if existing.Some? {
        MemberRemovalsTranslate(normalize, model, existing.value, desired[n]);
      }
      RemovesConcat(normalize, model, ClassRemovals(normalize, model.classes, desired[..n]),
                    if existing.None? then [] else MemberRemovals(normalize, existing.value, desired[n]),
                    ClassRemovalCommands(normalize, model.classes, desired[..n]),
                    if existing.None? then [] else MemberCommands(normalize, existing.value, desired[n]));
    }
  }

  // ---- removed links ---------------------------------------------------

  function LinkRemovalCommands(
      normalize: Normalize, model: Model, links: seq<LinkArguments>, relationships: seq<Relationship>): seq<C.Command>
  {
    if relationships == [] then []
    else
      var r := relationships[|relationships| - 1];
      LinkRemovalCommands(normalize, model, links, relationships[..|relationships| - 1])
      + if IsMatched(normalize, model.classes, model.relationships, links, r.id) then [] else [C.RemoveRelationship(r.id)]
  }

  lemma {:induction false} OnlyMatch(relationships: seq<Relationship>, r: Relationship)
    requires NoParallels(relationships) && r in relationships
    ensures Matching(relationships, r.source.classId, r.target.classId, Some(KindText(r.kind))) == [r]
  {
    var n := |relationships| - 1;
    if relationships[n] == r {
      forall x | x in relationships[..n] ensures !IsBetween(x, r.source.classId, r.target.classId, Some(KindText(r.kind))) {
        var i :| 0 <= i < n && relationships[i] == x;
        assert !SameLink(relationships[i], relationships[n]);
        if KindText(x.kind) == KindText(r.kind) {
          KindTextInjective(x.kind, r.kind);
        }
      }
      NoMatch(relationships[..n], r.source.classId, r.target.classId, Some(KindText(r.kind)));
    } else {
      assert r in relationships[..n];
      OnlyMatch(relationships[..n], r);
      var i :| 0 <= i < n && relationships[i] == r;
      assert !SameLink(relationships[i], relationships[n]);
      if KindText(relationships[n].kind) == KindText(r.kind) {
        KindTextInjective(relationships[n].kind, r.kind);
      }
    }
  }

  lemma {:induction false} NoMatch(relationships: seq<Relationship>, source: ElementId, target: ElementId, kind: Option<string>)
    requires forall x :: x in relationships ==> !IsBetween(x, source, target, kind)
    ensures Matching(relationships, source, target, kind) == []
  {
    if relationships != [] {
      LastIsMember(relationships);
      NoMatch(relationships[..|relationships| - 1], source, target, kind);
    }
  }

  /** By the names of its classes and its kind a relationship of the document is found. */
  lemma LinkIsFound(
      normalize: Normalize, model: Model, registry: Registry, r: Relationship, sourceName: string, targetName: string)
    requires NoParallels(model.relationships) && r in model.relationships
    requires normalize(sourceName) in registry && registry[normalize(sourceName)] == r.source.classId
    requires normalize(targetName) in registry && registry[normalize(targetName)] == r.target.classId
    ensures FindRelationship(normalize, model, registry, sourceName, targetName, Some(KindText(r.kind))) == Ok(r)
  {
    OnlyMatch(model.relationships, r);
    hide Matching, NoParallels;
  }

  lemma LinkRemovalTranslates(normalize: Normalize, model: Model, r: Relationship, source: UmlClass, target: UmlClass)
    requires ClassKeysDistinct(normalize, model.classes) && NoParallels(model.relationships) && r in model.relationships
    requires source in model.classes && source.id == r.source.classId && target in model.classes && target.id == r.target.classId
    ensures forall id :: TranslatesTo(normalize, model, RegistryOf(normalize, model.classes),
                                      RemoveRelationshipCall(source.name, target.name, Some(KindText(r.kind))), id, C.RemoveRelationship(r.id))
  {
    RegistryKnows(normalize, model.classes);
    hide RegistryOf, ClassKeysDistinct, NoParallels, FindRelationship, KindText;
    LinkIsFound(normalize, model, RegistryOf(normalize, model.classes), r, source.name, target.name);
  }

  lemma LiveEnd(model: Model, id: ElementId)
    requires IsClassId(model, id)
    ensures ClassById(model.classes, id).Some?
  {
  }

  lemma {:induction false} LinkRemovalsTranslate(normalize: Normalize, model: Model, links: seq<LinkArguments>, relationships: seq<Relationship>)
    requires ClassKeysDistinct(normalize, model.classes) && NoParallels(model.relationships) && NoDanglingEnds(model)
    requires forall r :: r in relationships ==> r in model.relationships
    ensures RemovesBy(normalize, model, LinkRemovals(normalize, model, model.classes, links, relationships),
                      LinkRemovalCommands(normalize, model, links, relationships))
  {
    hide TranslatesTo, RemovesBy, ClassKeysDistinct, NoParallels, IsMatched, KindText;
    NoRemoval(normalize, model);
    if relationships != [] {
      var n := |relationships| - 1;
      var r := relationships[n];
      LastIsMember(relationships);
      LinkRemovalsTranslate(normalize, model, links, relationships[..n]);
      LiveEnd(model, r.source.classId);
      LiveEnd(model, r.target.classId);
      var source, target := ClassById(model.classes, r.source.classId).value, ClassById(model.classes, r.target.classId).value;
      hide NoDanglingEnds, ClassById;
      LinkRemovalTranslates(normalize, model, r, source, target);
      var call := RemoveRelationshipCall(source.name, target.name, Some(KindText(r.kind)));
      OneRemoval(normalize, model, call, C.RemoveRelationship(r.id));
      var gone := !IsMatched(normalize, model.classes, model.relationships, links, r.id);
      RemovesConcat(normalize, model, LinkRemovals(normalize, model, model.classes, links, relationships[..n]), if gone then [call] else [],
                    LinkRemovalCommands(normalize, model, links, relationships[..n]), if gone then [C.RemoveRelationship(r.id)] else []);
    }
  }

  // ---- the removal stage -----------------------------------------------

  function RemovalCommands(normalize: Normalize, model: Model, extracted: seq<Call>): seq<C.Command> {
    var desired := DesiredClasses(normalize, extracted);
    RemoveClassCommands(normalize, model.classes, desired) + ClassRemovalCommands(normalize, model.classes, desired)
    + LinkRemovalCommands(normalize, model, DesiredLinks(extracted), model.relationships)
  }

  lemma RemovesAreTranslated(normalize: Normalize, model: Model, newId: NewIds, calls: seq<Call>, commands: seq<C.Command>)
    requires RemovesBy(normalize, model, calls, commands)
    ensures TranslateAll(normalize, model, newId, StartBatch(normalize, model), calls) ==
      Ok(Batch(RegistryOf(normalize, model.classes), commands))
  {
    var start := StartBatch(normalize, model);
    hide TranslatesTo, RegistryOf, TranslateAll;
    PlainCalls(normalize, model, newId, start, calls, commands);
    assert [] + commands == commands;
  }

  /** The removals are translated to `RemovalCommands`, the registry staying that of the document. */
  lemma RemovalsTranslate(normalize: Normalize, model: Model, newId: NewIds, extracted: seq<Call>)
    requires ModelIsReady(normalize, model) && ExtractionIsReady(normalize, extracted)
    ensures TranslateAll(normalize, model, newId, StartBatch(normalize, model), Removals(normalize, model, extracted)) ==
      Ok(Batch(RegistryOf(normalize, model.classes), RemovalCommands(normalize, model, extracted)))
  {
    KeyedClassesAreSame(normalize, model.classes);
    hide RemovesBy, ClassKeysDistinct, ClassesDistinct, ClassIsReady, DesiredIsReady, NoParallels, NoDanglingEnds, LinksDistinct,
         DesiredClasses, DesiredLinks, RemoveClassCalls, ClassRemovals, LinkRemovals, RemoveClassCommands, ClassRemovalCommands,
         LinkRemovalCommands, TranslateAll, StartBatch, RegistryOf, LinkIsReady, ParallelLinks, KeyedClasses;
    var desired, links := DesiredClasses(normalize, extracted), DesiredLinks(extracted);
    ClassRemovalsTranslate(normalize, model, model.classes, desired);
    MemberRemovalListsTranslate(normalize, model, desired);
    LinkRemovalsTranslate(normalize, model, links, model.relationships);
    RemovesConcat(normalize, model, RemoveClassCalls(normalize, model.classes, desired), ClassRemovals(normalize, model.classes, desired),
                  RemoveClassCommands(normalize, model.classes, desired), ClassRemovalCommands(normalize, model.classes, desired));
    RemovesConcat(normalize, model,
                  RemoveClassCalls(normalize, model.classes, desired) + ClassRemovals(normalize, model.classes, desired),
                  LinkRemovals(normalize, model, model.classes, links, model.relationships),
                  RemoveClassCommands(normalize, model.classes, desired) + ClassRemovalCommands(normalize, model.classes, desired),
                  LinkRemovalCommands(normalize, model, links, model.relationships));
    RemovesAreTranslated(normalize, model, newId, Removals(normalize, model, extracted), RemovalCommands(normalize, model, extracted));
  }
}
