/** The addition stage of a reconciliation: its commands and what they create. */
module ReconcileGrow {
  import opened Text
  import opened Seqs
  import opened Uml
  import opened Calls
  import opened Translator
  import opened Reconcile
  import opened ReconcileMembers
  import opened ReconcileStages
  import opened ReconcileCalls
  import C = Commands

  // ---- added members ---------------------------------------------------

  /** The type a text stands for; unreadable texts never get this far. */
  function TypeOf(text: string): AttributeType {
    match PrimitiveOf(text)
    case None => Primitive(String)
    case Some(p) => Primitive(p)
  }

  function BuiltAttributes(newId: NewIds, n: nat, members: seq<Member>): seq<UmlAttribute> {
    seq(|members|, i requires 0 <= i < |members| =>
      UmlAttribute(newId(n + i), members[i].name, TypeOf(members[i].text), Private))
  }

  function BuiltOperations(newId: NewIds, n: nat, members: seq<Member>): seq<UmlOperation> {
    seq(|members|, i requires 0 <= i < |members| =>
      UmlOperation(newId(n + i), members[i].name, if members[i].text == "" then None else Some(TypeOf(members[i].text)), [], Public))
  }

  function AttributeCommands(id: ElementId, attributes: seq<UmlAttribute>): seq<C.Command> {
    seq(|attributes|, i requires 0 <= i < |attributes| => C.AddAttribute(id, attributes[i]))
  }

  function OperationCommands(id: ElementId, operations: seq<UmlOperation>): seq<C.Command> {
    seq(|operations|, i requires 0 <= i < |operations| => C.AddOperation(id, operations[i]))
  }

  /** The members name a class that the registry knows under this id. */
  ghost predicate NameClass(normalize: Normalize, registry: Registry, members: seq<Member>, id: ElementId) {
    forall m :: m in members ==> normalize(m.className) in registry && registry[normalize(m.className)] == id
  }

  lemma AddAttributeTranslates(normalize: Normalize, model: Model, registry: Registry, m: Member, cid: ElementId, id: ElementId)
    requires normalize(m.className) in registry && registry[normalize(m.className)] == cid && AttributeIsReady(m)
    ensures TranslatesTo(normalize, model, registry, AddAttributeCall(m.className, m.name, m.text), id,
                         C.AddAttribute(cid, UmlAttribute(id, m.name, TypeOf(m.text), Private)))
  {
    hide PrimitiveOf;
  }

  lemma AddOperationTranslates(normalize: Normalize, model: Model, registry: Registry, m: Member, cid: ElementId, id: ElementId)
    requires normalize(m.className) in registry && registry[normalize(m.className)] == cid && OperationIsReady(m)
    ensures TranslatesTo(normalize, model, registry,
                         AddOperationCall(m.className, m.name, if m.text == "" then None else Some(m.text)), id,
                         C.AddOperation(cid, UmlOperation(id, m.name, if m.text == "" then None else Some(TypeOf(m.text)), [], Public)))
  {
    hide PrimitiveOf;
  }

  lemma AddAttributesTranslate(normalize: Normalize, model: Model, newId: NewIds, batch: Batch, members: seq<Member>, cid: ElementId)
    requires NameClass(normalize, batch.registry, members, cid) && forall m :: m in members ==> AttributeIsReady(m)
    ensures TranslateAll(normalize, model, newId, batch, AddAttributeCalls(members)) ==
      Ok(Batch(batch.registry, batch.commands + AttributeCommands(cid, BuiltAttributes(newId, |batch.commands|, members))))
  {
    hide TranslatesTo, TypeOf, AttributeIsReady, TranslateAll;
    var commands := AttributeCommands(cid, BuiltAttributes(newId, |batch.commands|, members));
    forall i | 0 <= i < |members|
      ensures TranslatesTo(normalize, model, batch.registry, AddAttributeCalls(members)[i], newId(|batch.commands| + i), commands[i])
    {
      AddAttributeTranslates(normalize, model, batch.registry, members[i], cid, newId(|batch.commands| + i));
    }
    PlainCalls(normalize, model, newId, batch, AddAttributeCalls(members), commands);
  }

  lemma AddOperationsTranslate(normalize: Normalize, model: Model, newId: NewIds, batch: Batch, members: seq<Member>, cid: ElementId)
    requires NameClass(normalize, batch.registry, members, cid) && forall m :: m in members ==> OperationIsReady(m)
    ensures TranslateAll(normalize, model, newId, batch, AddOperationCalls(members)) ==
      Ok(Batch(batch.registry, batch.commands + OperationCommands(cid, BuiltOperations(newId, |batch.commands|, members))))
  {
    hide TranslatesTo, TypeOf, OperationIsReady, TranslateAll;
    var commands := OperationCommands(cid, BuiltOperations(newId, |batch.commands|, members));
    forall i | 0 <= i < |members|
      ensures TranslatesTo(normalize, model, batch.registry, AddOperationCalls(members)[i], newId(|batch.commands| + i), commands[i])
    {
      AddOperationTranslates(normalize, model, batch.registry, members[i], cid, newId(|batch.commands| + i));
    }
    PlainCalls(normalize, model, newId, batch, AddOperationCalls(members), commands);
  }

  /** Attributes, then operations of one class. */
  function MemberAdditions(newId: NewIds, n: nat, id: ElementId, attributes: seq<Member>, operations: seq<Member>): seq<C.Command> {
    AttributeCommands(id, BuiltAttributes(newId, n, attributes))
    + OperationCommands(id, BuiltOperations(newId, n + |attributes|, operations))
  }

  lemma CommandCount(newId: NewIds, n: nat, cid: ElementId, attributes: seq<Member>)
    ensures |AttributeCommands(cid, BuiltAttributes(newId, n, attributes))| == |attributes|
  {
  }

  lemma MembersTranslate(
      normalize: Normalize, model: Model, newId: NewIds, batch: Batch, attributes: seq<Member>, operations: seq<Member>, cid: ElementId)
    requires NameClass(normalize, batch.registry, attributes, cid) && NameClass(normalize, batch.registry, operations, cid)
    requires forall m :: m in attributes ==> AttributeIsReady(m)
    requires forall m :: m in operations ==> OperationIsReady(m)
    ensures TranslateAll(normalize, model, newId, batch, AddAttributeCalls(attributes) + AddOperationCalls(operations)) ==
      Ok(Batch(batch.registry, batch.commands + MemberAdditions(newId, |batch.commands|, cid, attributes, operations)))
  {
    hide *;
    CommandCount(newId, |batch.commands|, cid, attributes);
    AddAttributesTranslate(normalize, model, newId, batch, attributes, cid);
    var first := AttributeCommands(cid, BuiltAttributes(newId, |batch.commands|, attributes));
    var before := Batch(batch.registry, batch.commands + first);
    assert |before.commands| == |batch.commands| + |attributes|;
    AddOperationsTranslate(normalize, model, newId, before, operations, cid);
    var second := OperationCommands(cid, BuiltOperations(newId, |batch.commands| + |attributes|, operations));
    TwoRuns(normalize, model, newId, batch, AddAttributeCalls(attributes), AddOperationCalls(operations), before,
            Batch(batch.registry, before.commands + second));
    AppendAssociates(batch.commands, first, second);
    MemberAdditionsAre(newId, |batch.commands|, cid, attributes, operations);
  }

  lemma MemberAdditionsAre(newId: NewIds, n: nat, id: ElementId, attributes: seq<Member>, operations: seq<Member>)
    ensures MemberAdditions(newId, n, id, attributes, operations) ==
      AttributeCommands(id, BuiltAttributes(newId, n, attributes))
      + OperationCommands(id, BuiltOperations(newId, n + |attributes|, operations))
  {
  }

  lemma TwoRuns(
      normalize: Normalize, model: Model, newId: NewIds, batch: Batch, a: seq<Call>, b: seq<Call>, mid: Batch, end: Batch)
    requires TranslateAll(normalize, model, newId, batch, a) == Ok(mid)
    requires TranslateAll(normalize, model, newId, mid, b) == Ok(end)
    ensures TranslateAll(normalize, model, newId, batch, a + b) == Ok(end)
  {
    TranslateConcat(normalize, model, newId, batch, a, b);
  }

  // ---- sections --------------------------------------------------------

  /** The commands of a section that starts as command number n. */
  function SectionCommands(normalize: Normalize, newId: NewIds, n: nat, classes: seq<UmlClass>, d: Desired): seq<C.Command> {
    match ClassNamed(normalize, classes, d.name)
    case None => [C.AddClass(newId(n), d.name)] + MemberAdditions(newId, n + 1, newId(n), d.attributes, d.operations)
    case Some(c) =>
      MemberAdditions(newId, n, c.id, Missing(normalize, AttributeMembers(c), d.attributes), Missing(normalize, OperationMembers(c), d.operations))
  }

  function SectionRegistry(normalize: Normalize, newId: NewIds, n: nat, classes: seq<UmlClass>, d: Desired, registry: Registry): Registry {
    if ClassNamed(normalize, classes, d.name).None? then registry[normalize(d.name) := newId(n)] else registry
  }

  function AllSections(normalize: Normalize, newId: NewIds, n: nat, classes: seq<UmlClass>, desired: seq<Desired>): seq<C.Command> {
    if desired == [] then []
    else
      var front := AllSections(normalize, newId, n, classes, desired[..|desired| - 1]);
      front + SectionCommands(normalize, newId, n + |front|, classes, desired[|desired| - 1])
  }

  function AllRegistry(normalize: Normalize, newId: NewIds, n: nat, classes: seq<UmlClass>, desired: seq<Desired>, registry: Registry): Registry {
    if desired == [] then registry
    else
      var front := AllSections(normalize, newId, n, classes, desired[..|desired| - 1]);
      SectionRegistry(normalize, newId, n + |front|, classes, desired[|desired| - 1],
                      AllRegistry(normalize, newId, n, classes, desired[..|desired| - 1], registry))
  }

  /** The registry knows the classes of the document. */
  ghost predicate Knows(normalize: Normalize, registry: Registry, classes: seq<UmlClass>) {
    forall c :: c in classes ==> normalize(c.name) in registry && registry[normalize(c.name)] == c.id
  }

  /** The members of a desired class carry its name. */
  ghost predicate NamesItself(normalize: Normalize, d: Desired) {
    && (forall m :: m in d.attributes ==> normalize(m.className) == normalize(d.name))
    && forall m :: m in d.operations ==> normalize(m.className) == normalize(d.name)
  }

  lemma NewSectionTranslates(normalize: Normalize, model: Model, newId: NewIds, batch: Batch, d: Desired)
    requires DesiredIsReady(normalize, d) && NamesItself(normalize, d)
    ensures var id := newId(|batch.commands|);
      TranslateAll(normalize, model, newId, batch, [AddClassCall(d.name)] + (AddAttributeCalls(d.attributes) + AddOperationCalls(d.operations)))
      == Ok(Batch(batch.registry[normalize(d.name) := id],
                  batch.commands + ([C.AddClass(id, d.name)] + MemberAdditions(newId, |batch.commands| + 1, id, d.attributes, d.operations))))
  {
    var id := newId(|batch.commands|);
    hide TranslateAll, AddAttributeCalls, AddOperationCalls, MemberAdditions, DistinctKeys, AttributeIsReady, OperationIsReady;
    var created := Batch(batch.registry[normalize(d.name) := id], batch.commands + [C.AddClass(id, d.name)]);
    NoCalls(normalize, model, newId, batch);
    TranslateStep(normalize, model, newId, batch, [], AddClassCall(d.name), batch);
    assert [] + [AddClassCall(d.name)] == [AddClassCall(d.name)];
    TranslateConcat(normalize, model, newId, batch, [AddClassCall(d.name)], AddAttributeCalls(d.attributes) + AddOperationCalls(d.operations));
    MembersTranslate(normalize, model, newId, created, d.attributes, d.operations, id);
    AppendAssociates(batch.commands, [C.AddClass(id, d.name)], MemberAdditions(newId, |batch.commands| + 1, id, d.attributes, d.operations));
  }

  lemma SectionTranslates(normalize: Normalize, model: Model, newId: NewIds, batch: Batch, classes: seq<UmlClass>, d: Desired)
    requires DesiredIsReady(normalize, d) && NamesItself(normalize, d) && Knows(normalize, batch.registry, classes)
    ensures TranslateAll(normalize, model, newId, batch, Section(normalize, classes, d)) ==
      Ok(Batch(SectionRegistry(normalize, newId, |batch.commands|, classes, d, batch.registry),
               batch.commands + SectionCommands(normalize, newId, |batch.commands|, classes, d)))
  {
    KeyedIsSame(normalize, d.attributes);
    KeyedIsSame(normalize, d.operations);
    hide TranslateAll, AddAttributeCalls, AddOperationCalls, MemberAdditions, DistinctKeys, AttributeIsReady, OperationIsReady, KeyedMembers;
    match ClassNamed(normalize, classes, d.name) {
      case None => NewSectionTranslates(normalize, model, newId, batch, d);
      case Some(c) =>
        MissingMembers(normalize, AttributeMembers(c), d.attributes);
        MissingMembers(normalize, OperationMembers(c), d.operations);
        hide Missing, IsMissing, AttributeMembers, OperationMembers;
        MembersTranslate(normalize, model, newId, batch, Missing(normalize, AttributeMembers(c), d.attributes),
                         Missing(normalize, OperationMembers(c), d.operations), c.id);
    }
  }

  lemma {:induction false} SectionsTranslate(
      normalize: Normalize, model: Model, newId: NewIds, batch: Batch, classes: seq<UmlClass>, desired: seq<Desired>)
    requires forall d :: d in desired ==> DesiredIsReady(normalize, d) && NamesItself(normalize, d)
    requires Knows(normalize, batch.registry, classes)
    ensures Knows(normalize, AllRegistry(normalize, newId, |batch.commands|, classes, desired, batch.registry), classes)
    ensures TranslateAll(normalize, model, newId, batch, Sections(normalize, classes, desired)) ==
      Ok(Batch(AllRegistry(normalize, newId, |batch.commands|, classes, desired, batch.registry),
               batch.commands + AllSections(normalize, newId, |batch.commands|, classes, desired)))
  {
    hide TranslateAll, SectionCommands, Section, DesiredIsReady, NamesItself;
    if desired == [] {
      NoCalls(normalize, model, newId, batch);
      assert batch.commands + [] == batch.commands;
    } else {
      var n := |desired| - 1;
      LastIsMember(desired);
      SectionsTranslate(normalize, model, newId, batch, classes, desired[..n]);
      var front := AllSections(normalize, newId, |batch.commands|, classes, desired[..n]);
      var before := Batch(AllRegistry(normalize, newId, |batch.commands|, classes, desired[..n], batch.registry), batch.commands + front);
      TranslateConcat(normalize, model, newId, batch, Sections(normalize, classes, desired[..n]), Section(normalize, classes, desired[n]));
      SectionTranslates(normalize, model, newId, before, classes, desired[n]);
      AppendAssociates(batch.commands, front, SectionCommands(normalize, newId, |batch.commands| + |front|, classes, desired[n]));
    }
  }

  // ---- the effect of member additions ----------------------------------

  function WithMembers(c: UmlClass, attributes: seq<UmlAttribute>, operations: seq<UmlOperation>): UmlClass {
    c.(attributes := c.attributes + attributes, operations := c.operations + operations)
  }

  lemma {:induction false} GrownConcat(c: UmlClass, a: seq<C.Command>, b: seq<C.Command>)
    ensures Grown(c, a + b) == Grown(Grown(c, a), b)
  {
    hide StepOne;
    if b == [] {
      assert a + b == a;
    } else {
      var n := |b| - 1;
      assert (a + b)[..|a + b| - 1] == a + b[..n];
      GrownConcat(c, a, b[..n]);
    }
  }

  lemma {:induction false} CreatedConcat(a: seq<C.Command>, b: seq<C.Command>)
    ensures Created(a + b) == GrownAll(Created(a), b) + Created(b)
  {
    if b == [] {
      assert a + b == a;
      NothingGrows(Created(a));
    } else {
      var n := |b| - 1;
      var k := b[n];
      assert a + b == (a + b[..n]) + [k] && b == b[..n] + [k];
      hide Created, GrownAll, StepAll, NewClass;
      CreatedConcat(a, b[..n]);
      CreatedStep(a + b[..n], k);
      CreatedStep(b[..n], k);
      GrownAllStep(Created(a), b[..n], k);
      StepAllConcat(GrownAll(Created(a), b[..n]), Created(b[..n]), k);
      AppendAssociates(StepAll(GrownAll(Created(a), b[..n]), k), StepAll(Created(b[..n]), k), NewClass(k));
    }
  }

  lemma NothingGrows(classes: seq<UmlClass>)
    ensures GrownAll(classes, []) + Created([]) == classes
  {
  }

  lemma {:induction false} GrownByAttributes(c: UmlClass, id: ElementId, attributes: seq<UmlAttribute>)
    ensures Grown(c, AttributeCommands(id, attributes)) == if c.id == id then WithMembers(c, attributes, []) else c
  {
    if attributes == [] {
      assert AttributeCommands(id, attributes) == [];
      assert c.attributes + [] == c.attributes && c.operations + [] == c.operations;
    } else {
      var n := |attributes| - 1;
      GrownByAttributes(c, id, attributes[..n]);
      var front, k := AttributeCommands(id, attributes[..n]), C.AddAttribute(id, attributes[n]);
      assert AttributeCommands(id, attributes) == front + [k];
      hide Grown;
      GrownStep(c, front, k);
      assert attributes == attributes[..n] + [attributes[n]];
      AppendAssociates(c.attributes, attributes[..n], [attributes[n]]);
    }
  }

  lemma {:induction false} GrownByOperations(c: UmlClass, id: ElementId, operations: seq<UmlOperation>)
    ensures Grown(c, OperationCommands(id, operations)) == if c.id == id then WithMembers(c, [], operations) else c
  {
    if operations == [] {
      assert OperationCommands(id, operations) == [];
      assert c.attributes + [] == c.attributes && c.operations + [] == c.operations;
    } else {
      var n := |operations| - 1;
      GrownByOperations(c, id, operations[..n]);
      var front, k := OperationCommands(id, operations[..n]), C.AddOperation(id, operations[n]);
      assert OperationCommands(id, operations) == front + [k];
      hide Grown;
      GrownStep(c, front, k);
      assert operations == operations[..n] + [operations[n]];
      AppendAssociates(c.operations, operations[..n], [operations[n]]);
    }
  }

  lemma GrownByMembers(c: UmlClass, newId: NewIds, n: nat, id: ElementId, attributes: seq<Member>, operations: seq<Member>)
    ensures Grown(c, MemberAdditions(newId, n, id, attributes, operations)) ==
      if c.id == id then WithMembers(c, BuiltAttributes(newId, n, attributes), BuiltOperations(newId, n + |attributes|, operations))
      else c
  {
    hide Grown, AttributeCommands, OperationCommands, BuiltAttributes, BuiltOperations;
    var a, b := BuiltAttributes(newId, n, attributes), BuiltOperations(newId, n + |attributes|, operations);
    GrownConcat(c, AttributeCommands(id, a), OperationCommands(id, b));
    GrownByAttributes(c, id, a);
    GrownByOperations(Grown(c, AttributeCommands(id, a)), id, b);
    assert c.operations + [] == c.operations && (c.attributes + a) + [] == c.attributes + a;
  }

  lemma {:induction false} MembersCreateNothing(commands: seq<C.Command>)
    requires forall k :: k in commands ==> !k.AddClass?
    ensures Created(commands) == []
  {
    hide StepOne;
    if commands != [] {
      LastIsMember(commands);
      MembersCreateNothing(commands[..|commands| - 1]);
    }
  }

  lemma MemberAdditionKinds(newId: NewIds, n: nat, id: ElementId, attributes: seq<Member>, operations: seq<Member>)
    ensures forall k :: k in MemberAdditions(newId, n, id, attributes, operations) ==> k.AddAttribute? || k.AddOperation?
  {
    hide BuiltAttributes, BuiltOperations;
  }

  // ---- the effect of a section -----------------------------------------

  /** The class a new section creates. */
  function NewClassOf(newId: NewIds, n: nat, d: Desired): UmlClass {
    UmlClass(newId(n), d.name, BuiltAttributes(newId, n + 1, d.attributes),
             BuiltOperations(newId, n + 1 + |d.attributes|, d.operations), Public)
  }

  /** A class after the section of a desired class. */
  function AfterSection(normalize: Normalize, newId: NewIds, n: nat, classes: seq<UmlClass>, d: Desired, x: UmlClass): UmlClass {
    match ClassNamed(normalize, classes, d.name)
    case None => x
    case Some(c) =>
      var attributes, operations := Missing(normalize, AttributeMembers(c), d.attributes), Missing(normalize, OperationMembers(c), d.operations);
      if c.id == x.id
      then WithMembers(x, BuiltAttributes(newId, n, attributes), BuiltOperations(newId, n + |attributes|, operations))
      else x
  }

  lemma AddClassGrowsNothing(c: UmlClass, id: ElementId, name: string)
    ensures Grown(c, [C.AddClass(id, name)]) == c
    ensures Created([C.AddClass(id, name)]) == [UmlClass(id, name, [], [], Public)]
  {
    assert [C.AddClass(id, name)][..0] == [];
  }

  /** A section grows the class it names, and no class with another id. */
  lemma SectionGrows(normalize: Normalize, newId: NewIds, n: nat, classes: seq<UmlClass>, d: Desired, x: UmlClass)
    requires ClassNamed(normalize, classes, d.name).None? ==> x.id != newId(n)
    ensures Grown(x, SectionCommands(normalize, newId, n, classes, d)) == AfterSection(normalize, newId, n, classes, d, x)
  {
    hide Grown, MemberAdditions, BuiltAttributes, BuiltOperations, Missing, AttributeMembers, OperationMembers;
    match ClassNamed(normalize, classes, d.name) {
      case None =>
        GrownConcat(x, [C.AddClass(newId(n), d.name)], MemberAdditions(newId, n + 1, newId(n), d.attributes, d.operations));
        AddClassGrowsNothing(x, newId(n), d.name);
        GrownByMembers(x, newId, n + 1, newId(n), d.attributes, d.operations);
      case Some(c) =>
        GrownByMembers(x, newId, n, c.id, Missing(normalize, AttributeMembers(c), d.attributes),
                       Missing(normalize, OperationMembers(c), d.operations));
    }
  }

  lemma SectionCreates(normalize: Normalize, newId: NewIds, n: nat, classes: seq<UmlClass>, d: Desired)
    ensures Created(SectionCommands(normalize, newId, n, classes, d)) ==
      if ClassNamed(normalize, classes, d.name).None? then [NewClassOf(newId, n, d)] else []
  {
    hide Created, MemberAdditions, BuiltAttributes, BuiltOperations, Missing, AttributeMembers, OperationMembers;
    match ClassNamed(normalize, classes, d.name) {
      case None =>
        var id := newId(n);
        var members := MemberAdditions(newId, n + 1, id, d.attributes, d.operations);
        var bare := UmlClass(id, d.name, [], [], Public);
        CreatedConcat([C.AddClass(id, d.name)], members);
        AddClassGrowsNothing(bare, id, d.name);
        MemberAdditionKinds(newId, n + 1, id, d.attributes, d.operations);
        MembersCreateNothing(members);
        GrownByMembers(bare, newId, n + 1, id, d.attributes, d.operations);
        assert GrownAll([bare], members) == [Grown(bare, members)];
        BareGrows(newId, n, d, bare);
      case Some(c) =>
        MemberAdditionKinds(newId, n, c.id, Missing(normalize, AttributeMembers(c), d.attributes),
                            Missing(normalize, OperationMembers(c), d.operations));
        MembersCreateNothing(SectionCommands(normalize, newId, n, classes, d));
    }
  }

  lemma BareGrows(newId: NewIds, n: nat, d: Desired, bare: UmlClass)
    requires bare == UmlClass(newId(n), d.name, [], [], Public)
    ensures WithMembers(bare, BuiltAttributes(newId, n + 1, d.attributes), BuiltOperations(newId, n + 1 + |d.attributes|, d.operations))
      == NewClassOf(newId, n, d)
  {
    hide BuiltAttributes, BuiltOperations;
    var a, b := BuiltAttributes(newId, n + 1, d.attributes), BuiltOperations(newId, n + 1 + |d.attributes|, d.operations);
    assert [] + a == a && [] + b == b;
  }

  // ---- the effect of all sections --------------------------------------

  function AfterSections(normalize: Normalize, newId: NewIds, n: nat, classes: seq<UmlClass>, desired: seq<Desired>, x: UmlClass): UmlClass {
    if desired == [] then x
    else
      var front := AllSections(normalize, newId, n, classes, desired[..|desired| - 1]);
      AfterSection(normalize, newId, n + |front|, classes, desired[|desired| - 1],
                   AfterSections(normalize, newId, n, classes, desired[..|desired| - 1], x))
  }

  function NewClasses(normalize: Normalize, newId: NewIds, n: nat, classes: seq<UmlClass>, desired: seq<Desired>): seq<UmlClass> {
    if desired == [] then []
    else
      var front := AllSections(normalize, newId, n, classes, desired[..|desired| - 1]);
      var d := desired[|desired| - 1];
      NewClasses(normalize, newId, n, classes, desired[..|desired| - 1])
      + if ClassNamed(normalize, classes, d.name).None? then [NewClassOf(newId, n + |front|, d)] else []
  }

  lemma AfterSectionKeepsId(normalize: Normalize, newId: NewIds, n: nat, classes: seq<UmlClass>, d: Desired, x: UmlClass)
    ensures AfterSection(normalize, newId, n, classes, d, x).id == x.id
    ensures AfterSection(normalize, newId, n, classes, d, x).name == x.name
  {
    hide BuiltAttributes, BuiltOperations, Missing;
  }

  lemma {:induction false} AfterSectionsKeepsId(
      normalize: Normalize, newId: NewIds, n: nat, classes: seq<UmlClass>, desired: seq<Desired>, x: UmlClass)
    ensures AfterSections(normalize, newId, n, classes, desired, x).id == x.id
    ensures AfterSections(normalize, newId, n, classes, desired, x).name == x.name
  {
    hide AfterSection, AllSections;
    if desired != [] {
      var m := |desired| - 1;
      AfterSectionsKeepsId(normalize, newId, n, classes, desired[..m], x);
      AfterSectionKeepsId(normalize, newId, n + |AllSections(normalize, newId, n, classes, desired[..m])|, classes, desired[m],
                          AfterSections(normalize, newId, n, classes, desired[..m], x));
    }
  }

  lemma GrownByNothing(x: UmlClass)
    ensures Grown(x, []) == x
  {
  }

  /** All sections together, on a class of the document. */
  lemma {:induction false} SectionsGrow(
      normalize: Normalize, newId: NewIds, n: nat, classes: seq<UmlClass>, desired: seq<Desired>, x: UmlClass)
    requires forall i :: newId(i) != x.id
    ensures Grown(x, AllSections(normalize, newId, n, classes, desired)) == AfterSections(normalize, newId, n, classes, desired, x)
  {
    hide SectionCommands, AfterSection, Grown;
    if desired == [] {
      GrownByNothing(x);
    } else {
      var m := |desired| - 1;
      var front := AllSections(normalize, newId, n, classes, desired[..m]);
      SectionsGrow(normalize, newId, n, classes, desired[..m], x);
      AfterSectionsKeepsId(normalize, newId, n, classes, desired[..m], x);
      GrownConcat(x, front, SectionCommands(normalize, newId, n + |front|, classes, desired[m]));
      SectionGrows(normalize, newId, n + |front|, classes, desired[m], AfterSections(normalize, newId, n, classes, desired[..m], x));
    }
  }

  /** New classes have new ids below the next free number. */
  lemma {:induction false} NewClassIds(normalize: Normalize, newId: NewIds, n: nat, classes: seq<UmlClass>, desired: seq<Desired>)
    requires forall i, j :: newId(i) == newId(j) ==> i == j
    ensures forall x :: x in NewClasses(normalize, newId, n, classes, desired) ==>
      exists i :: n <= i < n + |AllSections(normalize, newId, n, classes, desired)| && x.id == newId(i)
    ensures ClassesDistinct(NewClasses(normalize, newId, n, classes, desired))
  {
    hide BuiltAttributes, BuiltOperations, MemberAdditions, ClassNamed;
    if desired != [] {
      var m := |desired| - 1;
      NewClassIds(normalize, newId, n, classes, desired[..m]);
      SectionIsNotEmpty(normalize, newId, n + |AllSections(normalize, newId, n, classes, desired[..m])|, classes, desired[m]);
      hide SectionCommands;
    }
  }

  lemma SectionIsNotEmpty(normalize: Normalize, newId: NewIds, n: nat, classes: seq<UmlClass>, d: Desired)
    ensures ClassNamed(normalize, classes, d.name).None? ==> SectionCommands(normalize, newId, n, classes, d) != []
  {
    hide MemberAdditions, ClassNamed;
  }

  /** A section leaves classes with other ids alone. */
  lemma OthersStay(normalize: Normalize, newId: NewIds, n: nat, classes: seq<UmlClass>, d: Desired, others: seq<UmlClass>)
    requires forall x, c :: x in others && c in classes ==> x.id != c.id
    requires forall x :: x in others ==> x.id != newId(n)
    ensures GrownAll(others, SectionCommands(normalize, newId, n, classes, d)) == others
  {
    hide Grown, SectionCommands;
    forall i | 0 <= i < |others|
      ensures Grown(others[i], SectionCommands(normalize, newId, n, classes, d)) == others[i]
    {
      assert others[i] in others;
      SectionGrows(normalize, newId, n, classes, d, others[i]);
    }
  }

  /** The classes created so far are neither classes of the document nor the next new class. */
  lemma NewClassesElsewhere(normalize: Normalize, newId: NewIds, n: nat, classes: seq<UmlClass>, desired: seq<Desired>)
    requires forall i, j :: newId(i) == newId(j) ==> i == j
    requires forall i, c :: c in classes ==> c.id != newId(i)
    ensures var news := NewClasses(normalize, newId, n, classes, desired);
      && (forall x, c :: x in news && c in classes ==> x.id != c.id)
      && forall x :: x in news ==> x.id != newId(n + |AllSections(normalize, newId, n, classes, desired)|)
  {
    hide AllSections, NewClasses, ClassesDistinct;
    NewClassIds(normalize, newId, n, classes, desired);
  }

  /** All sections together create the new classes. */
  lemma {:induction false} SectionsCreate(normalize: Normalize, newId: NewIds, n: nat, classes: seq<UmlClass>, desired: seq<Desired>)
    requires forall i, j :: newId(i) == newId(j) ==> i == j
    requires forall i, c :: c in classes ==> c.id != newId(i)
    ensures Created(AllSections(normalize, newId, n, classes, desired)) == NewClasses(normalize, newId, n, classes, desired)
  {
    hide SectionCommands, NewClassOf, ClassNamed, GrownAll, Created;
    if desired == [] {
      MembersCreateNothing([]);
    } else {
      var m := |desired| - 1;
      var front := AllSections(normalize, newId, n, classes, desired[..m]);
      var section := SectionCommands(normalize, newId, n + |front|, classes, desired[m]);
      SectionsCreate(normalize, newId, n, classes, desired[..m]);
      CreatedConcat(front, section);
      SectionCreates(normalize, newId, n + |front|, classes, desired[m]);
      NewClassesElsewhere(normalize, newId, n, classes, desired[..m]);
      OthersStay(normalize, newId, n + |front|, classes, desired[m], NewClasses(normalize, newId, n, classes, desired[..m]));
    }
  }
}
