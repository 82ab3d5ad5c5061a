/** The effect of a batch of commands that first removes and then adds. */
module ReconcileStages {
  import opened Text
  import opened Seqs
  import opened Uml
  import opened Commands
  import opened Documents
  import opened DocumentRows

  /** The model after all handlers, one after the other. */
  function AfterAll(model: Model, commands: seq<Command>): Model {
    if commands == [] then model
    else Handle(AfterAll(model, commands[..|commands| - 1]), commands[|commands| - 1])
  }

  lemma {:induction false} AfterConcat(model: Model, a: seq<Command>, b: seq<Command>)
    ensures AfterAll(model, a + b) == AfterAll(AfterAll(model, a), b)
  {
    hide Handle;
    if b == [] {
      assert a + b == a;
    } else {
      var n := |b| - 1;
      assert (a + b)[..|a + b| - 1] == a + b[..n];
      AfterConcat(model, a, b[..n]);
    }
  }

  // ---- filtering -------------------------------------------------------

  lemma {:induction false} FilterAgrees<T(!new)>(s: seq<T>, p: T -> bool, q: T -> bool)
    requires forall x :: x in s ==> p(x) == q(x)
    ensures Filter(s, p) == Filter(s, q)
  {
    if s != [] {
      LastIsMember(s);
      FilterAgrees(s[..|s| - 1], p, q);
    }
  }

  lemma FilterLast<T(!new)>(s: seq<T>, p: T -> bool)
    requires s != []
    ensures Filter(s, p) == Filter(s[..|s| - 1], p) + if p(s[|s| - 1]) then [s[|s| - 1]] else []
  {
  }

  lemma {:induction false} FilterAllAt<T(!new)>(s: seq<T>, p: T -> bool)
    requires forall i :: 0 <= i < |s| ==> p(s[i])
    ensures Filter(s, p) == s
  {
    if s != [] {
      hide Filter;
      FilterAllAt(s[..|s| - 1], p);
      FilterLast(s, p);
      LastSplits(s);
    }
  }

  lemma FilterAll<T(!new)>(s: seq<T>, p: T -> bool)
    requires forall x :: x in s ==> p(x)
    ensures Filter(s, p) == s
  {
    hide Filter;
    forall i | 0 <= i < |s| ensures p(s[i]) {
      assert s[i] in s;
    }
    FilterAllAt(s, p);
  }

  lemma FilterAppend<T(!new)>(s: seq<T>, x: T, p: T -> bool)
    ensures Filter(s + [x], p) == Filter(s, p) + if p(x) then [x] else []
  {
    assert (s + [x])[..|s|] == s;
  }

  lemma {:induction false} FilterTwice<T(!new)>(s: seq<T>, p: T -> bool, q: T -> bool, both: T -> bool)
    requires forall x :: x in s ==> both(x) == (p(x) && q(x))
    ensures Filter(Filter(s, p), q) == Filter(s, both)
  {
    if s != [] {
      var n := |s| - 1;
      LastIsMember(s);
      FilterTwice(s[..n], p, q, both);
      FilterAppend(Filter(s[..n], p), s[n], q);
      assert Filter(s[..n], p) + [] == Filter(s[..n], p);
    }
  }

  // ---- one member command ----------------------------------------------

  lemma SameIdSameIndex(classes: seq<UmlClass>, i: nat, n: nat)
    requires ClassesDistinct(classes) && i < |classes| && n < |classes| && classes[i].id == classes[n].id
    ensures i == n
  {
  }

  ghost predicate LinksDistinct(relationships: seq<Relationship>) {
    forall i, j :: 0 <= i < j < |relationships| ==> relationships[i].id != relationships[j].id
  }

  predicate IsMemberCommand(k: Command) {
    k.AddAttribute? || k.RemoveAttribute? || k.AddOperation? || k.RemoveOperation?
  }

  /** What a member command does to one class. */
  function StepOne(c: UmlClass, k: Command): UmlClass {
    match k
    case AddAttribute(id, a) => if c.id == id then c.(attributes := c.attributes + [a]) else c
    case RemoveAttribute(id, x) =>
      if c.id == id then c.(attributes := Filter(c.attributes, (a: UmlAttribute) => a.id != x)) else c
    case AddOperation(id, o) => if c.id == id then c.(operations := c.operations + [o]) else c
    case RemoveOperation(id, x) =>
      if c.id == id then c.(operations := Filter(c.operations, (o: UmlOperation) => o.id != x)) else c
    case _ => c
  }

  function StepAll(classes: seq<UmlClass>, k: Command): seq<UmlClass> {
    seq(|classes|, i requires 0 <= i < |classes| => StepOne(classes[i], k))
  }

  lemma StepKeepsId(c: UmlClass, k: Command)
    ensures StepOne(c, k).id == c.id && StepOne(c, k).name == c.name
  {
  }

  /** Removing something that is not there changes nothing. */
  lemma StepWithoutTarget(c: UmlClass, k: Command)
    requires k.RemoveAttribute? ==> !IsAttributeOf(c, k.attributeId)
    requires k.RemoveOperation? ==> forall o :: o in c.operations ==> o.id != k.operationId
    requires k.RemoveAttribute? || k.RemoveOperation?
    ensures StepOne(c, k) == c
  {
    if k.RemoveAttribute? {
      FilterAll(c.attributes, (a: UmlAttribute) => a.id != k.attributeId);
    } else {
      FilterAll(c.operations, (o: UmlOperation) => o.id != k.operationId);
    }
  }

  lemma StepWithoutClass(classes: seq<UmlClass>, k: Command, id: ElementId)
    requires IsMemberCommand(k) && k.classId == id && forall c :: c in classes ==> c.id != id
    ensures StepAll(classes, k) == classes
  {
  }

  /** Replacing the class with the id is stepping every class. */
  lemma ReplaceIsStep(classes: seq<UmlClass>, k: Command, c: UmlClass)
    requires ClassesDistinct(classes) && IsMemberCommand(k) && c in classes && c.id == k.classId
    ensures ReplaceClass(classes, k.classId, StepOne(c, k)) == StepAll(classes, k)
  {
    var n :| 0 <= n < |classes| && classes[n] == c;
    forall i | 0 <= i < |classes|
      ensures ReplaceClass(classes, k.classId, StepOne(c, k))[i] == StepAll(classes, k)[i]
    {
      if classes[i].id == k.classId {
        SameIdSameIndex(classes, i, n);
      }
    }
    hide ReplaceClass;
  }

  lemma StepAllSame(classes: seq<UmlClass>, k: Command, c: UmlClass)
    requires ClassesDistinct(classes) && IsMemberCommand(k) && c in classes && c.id == k.classId && StepOne(c, k) == c
    ensures StepAll(classes, k) == classes
  {
    var n :| 0 <= n < |classes| && classes[n] == c;
    forall i | 0 <= i < |classes| ensures StepOne(classes[i], k) == classes[i] {
      if classes[i].id == k.classId {
        SameIdSameIndex(classes, i, n);
      }
    }
  }

  /** A member command steps the classes and leaves the relationships alone. */
  lemma HandleMember(model: Model, k: Command)
    requires ClassesDistinct(model.classes) && IsMemberCommand(k)
    ensures Handle(model, k).classes == StepAll(model.classes, k)
    ensures Handle(model, k).relationships == model.relationships
  {
    var found := ClassById(model.classes, k.classId);
    hide StepAll, ReplaceClass, Filter, ClassesDistinct, Prune;
    match found {
      case None => StepWithoutClass(model.classes, k, k.classId);
      case Some(c) =>
        ReplaceIsStep(model.classes, k, c);
        if (k.RemoveAttribute? && !IsAttributeOf(c, k.attributeId))
          || (k.RemoveOperation? && forall o :: o in c.operations ==> o.id != k.operationId)
        {
          StepWithoutTarget(c, k);
          StepAllSame(model.classes, k, c);
        }
    }
  }

  // ---- removing --------------------------------------------------------

  predicate IsRemoval(k: Command) {
    k.RemoveClass? || k.RemoveAttribute? || k.RemoveOperation? || k.RemoveRelationship?
  }

  /** The class without the members that the commands remove. */
  function TrimClass(c: UmlClass, commands: seq<Command>): UmlClass {
    c.(attributes := Filter(c.attributes, (a: UmlAttribute) => RemoveAttribute(c.id, a.id) !in commands),
       operations := Filter(c.operations, (o: UmlOperation) => RemoveOperation(c.id, o.id) !in commands))
  }

  function TrimClasses(classes: seq<UmlClass>, commands: seq<Command>): seq<UmlClass> {
    if classes == [] then []
    else
      var last := classes[|classes| - 1];
      TrimClasses(classes[..|classes| - 1], commands)
      + if RemoveClass(last.id) in commands then [] else [TrimClass(last, commands)]
  }

  predicate LinkStays(r: Relationship, commands: seq<Command>) {
    RemoveClass(r.source.classId) !in commands && RemoveClass(r.target.classId) !in commands && RemoveRelationship(r.id) !in commands
  }

  function TrimLinks(relationships: seq<Relationship>, commands: seq<Command>): seq<Relationship> {
    Filter(relationships, (r: Relationship) => LinkStays(r, commands))
  }

  lemma LastCommand(front: seq<Command>, k: Command)
    ensures forall x :: x in front + [k] <==> x in front || x == k
  {
  }

  /** One more member removal. */
  lemma TrimStep(c: UmlClass, front: seq<Command>, k: Command)
    requires k.RemoveAttribute? || k.RemoveOperation?
    ensures StepOne(TrimClass(c, front), k) == TrimClass(c, front + [k])
  {
    LastCommand(front, k);
    var keep := (a: UmlAttribute) => RemoveAttribute(c.id, a.id) !in front;
    var keepAfter := (a: UmlAttribute) => RemoveAttribute(c.id, a.id) !in front + [k];
    var stay := (o: UmlOperation) => RemoveOperation(c.id, o.id) !in front;
    var stayAfter := (o: UmlOperation) => RemoveOperation(c.id, o.id) !in front + [k];
    if k.classId != c.id {
      FilterAgrees(c.attributes, keep, keepAfter);
      FilterAgrees(c.operations, stay, stayAfter);
    } else if k.RemoveAttribute? {
      FilterTwice(c.attributes, keep, (a: UmlAttribute) => a.id != k.attributeId, keepAfter);
      FilterAgrees(c.operations, stay, stayAfter);
    } else {
      FilterAgrees(c.attributes, keep, keepAfter);
      FilterTwice(c.operations, stay, (o: UmlOperation) => o.id != k.operationId, stayAfter);
    }
    hide Filter;
  }

  lemma TrimUntouched(c: UmlClass, front: seq<Command>, k: Command)
    requires k.RemoveClass? || k.RemoveRelationship?
    ensures TrimClass(c, front) == TrimClass(c, front + [k])
  {
    LastCommand(front, k);
    FilterAgrees(c.attributes, (a: UmlAttribute) => RemoveAttribute(c.id, a.id) !in front,
                 (a: UmlAttribute) => RemoveAttribute(c.id, a.id) !in front + [k]);
    FilterAgrees(c.operations, (o: UmlOperation) => RemoveOperation(c.id, o.id) !in front,
                 (o: UmlOperation) => RemoveOperation(c.id, o.id) !in front + [k]);
    hide Filter;
  }

  lemma {:induction false} TrimAllStep(classes: seq<UmlClass>, front: seq<Command>, k: Command)
    requires k.RemoveAttribute? || k.RemoveOperation?
    ensures StepAll(TrimClasses(classes, front), k) == TrimClasses(classes, front + [k])
  {
    hide TrimClass, StepOne;
    if classes != [] {
      var n := |classes| - 1;
      TrimAllStep(classes[..n], front, k);
      LastCommand(front, k);
      TrimStep(classes[n], front, k);
      assert StepAll(TrimClasses(classes[..n], front) + [TrimClass(classes[n], front)], k) ==
        StepAll(TrimClasses(classes[..n], front), k) + [StepOne(TrimClass(classes[n], front), k)];
    }
  }

  lemma TrimClassesAppend(classes: seq<UmlClass>, c: UmlClass, commands: seq<Command>)
    ensures TrimClasses(classes + [c], commands) ==
      TrimClasses(classes, commands) + if RemoveClass(c.id) in commands then [] else [TrimClass(c, commands)]
  {
    assert (classes + [c])[..|classes|] == classes;
    hide TrimClass;
  }

  lemma {:induction false} TrimAllRemoved(classes: seq<UmlClass>, front: seq<Command>, k: Command)
    requires k.RemoveClass? || k.RemoveRelationship?
    ensures TrimClasses(classes, front + [k]) ==
      if k.RemoveClass? then Filter(TrimClasses(classes, front), (x: UmlClass) => x.id != k.classId) else TrimClasses(classes, front)
  {
    if classes != [] {
      hide TrimClass, TrimClasses, Filter;
      var n := |classes| - 1;
      var before, c := classes[..n], classes[n];
      LastSplits(classes);
      TrimAllRemoved(before, front, k);
      TrimClassesAppend(before, c, front);
      TrimClassesAppend(before, c, front + [k]);
      LastCommand(front, k);
      TrimUntouched(c, front, k);
      TrimKeepsId(c, front);
      AppendNothing(TrimClasses(before, front));
      if k.RemoveClass? {
        AppendNothing(Filter(TrimClasses(before, front), (x: UmlClass) => x.id != k.classId));
        FilterAppend(TrimClasses(before, front), TrimClass(c, front), (x: UmlClass) => x.id != k.classId);
      }
    }
  }

  lemma TrimKeepsId(c: UmlClass, commands: seq<Command>)
    ensures TrimClass(c, commands).id == c.id && TrimClass(c, commands).name == c.name
  {
  }

  lemma {:induction false} TrimmedIds(classes: seq<UmlClass>, commands: seq<Command>)
    requires ClassesDistinct(classes)
    ensures ClassesDistinct(TrimClasses(classes, commands))
    ensures forall c :: c in TrimClasses(classes, commands) <==>
      exists x :: x in classes && RemoveClass(x.id) !in commands && c == TrimClass(x, commands)
  {
    hide TrimClass;
    if classes != [] {
      var n := |classes| - 1;
      LastIsMember(classes);
      TrimmedIds(classes[..n], commands);
      forall c | c in classes { TrimKeepsId(c, commands); }
      var front := TrimClasses(classes[..n], commands);
      forall c | c in front ensures c.id != classes[n].id {
        var x :| x in classes[..n] && RemoveClass(x.id) !in commands && c == TrimClass(x, commands);
        var i :| 0 <= i < n && classes[i] == x;
      }
    }
  }

  lemma HandleRemoveClass(model: Model, id: ElementId)
    ensures Handle(model, RemoveClass(id)).classes == Filter(model.classes, (x: UmlClass) => x.id != id)
    ensures var touches := (r: Relationship) => r.source.classId != id && r.target.classId != id;
      IsClassId(model, id) ==> Handle(model, RemoveClass(id)).relationships == Filter(model.relationships, touches)
    ensures !IsClassId(model, id) ==> Handle(model, RemoveClass(id)).relationships == model.relationships
  {
    if ClassById(model.classes, id).None? {
      FilterAll(model.classes, (x: UmlClass) => x.id != id);
    }
    hide Filter, Prune;
  }

  lemma HandleRemoveLink(model: Model, id: ElementId)
    ensures Handle(model, RemoveRelationship(id)).classes == model.classes
    ensures Handle(model, RemoveRelationship(id)).relationships == Filter(model.relationships, (r: Relationship) => r.id != id)
  {
    if RelationshipById(model.relationships, id).None? {
      FilterAll(model.relationships, (r: Relationship) => r.id != id);
    }
    hide Filter;
  }

  lemma TrimLinksStep(relationships: seq<Relationship>, front: seq<Command>, k: Command)
    ensures TrimLinks(relationships, front + [k]) ==
      match k
      case RemoveClass(id) =>
        Filter(TrimLinks(relationships, front), (r: Relationship) => r.source.classId != id && r.target.classId != id)
      case RemoveRelationship(id) => Filter(TrimLinks(relationships, front), (r: Relationship) => r.id != id)
      case _ => TrimLinks(relationships, front)
  {
    LastCommand(front, k);
    var before := (r: Relationship) => LinkStays(r, front);
    var after := (r: Relationship) => LinkStays(r, front + [k]);
    match k {
      case RemoveClass(id) =>
        FilterTwice(relationships, before, (r: Relationship) => r.source.classId != id && r.target.classId != id, after);
      case RemoveRelationship(id) => FilterTwice(relationships, before, (r: Relationship) => r.id != id, after);
      case _ => FilterAgrees(relationships, before, after);
    }
    hide Filter;
  }

  /** The commands only remove, and remove only classes of the model. */
  ghost predicate RemovesFrom(model: Model, commands: seq<Command>) {
    forall k :: k in commands ==> IsRemoval(k) && (k.RemoveClass? ==> IsClassId(model, k.classId))
  }

  /** A run of removals leaves exactly what no command removes. */
  lemma {:induction false} RemovalsTrim(model: Model, commands: seq<Command>)
    requires ClassesDistinct(model.classes) && RemovesFrom(model, commands)
    ensures AfterAll(model, commands).classes == TrimClasses(model.classes, commands)
    ensures AfterAll(model, commands).relationships == TrimLinks(model.relationships, commands)
  {
    if commands == [] {
      NothingTrimmed(model);
    } else {
      var n := |commands| - 1;
      var front, k := commands[..n], commands[n];
      LastIsMember(commands);
      assert commands == front + [k];
      RemovalsTrim(model, front);
      hide Handle, TrimClasses, TrimLinks, ClassesDistinct;
      RemovalTrims(model, AfterAll(model, front), front, k);
    }
  }

  lemma NothingTrimmedIn(c: UmlClass)
    ensures TrimClass(c, []) == c
  {
    FilterAll(c.attributes, (a: UmlAttribute) => RemoveAttribute(c.id, a.id) !in []);
    FilterAll(c.operations, (o: UmlOperation) => RemoveOperation(c.id, o.id) !in []);
    hide Filter;
  }

  lemma {:induction false} NothingTrimmedFrom(classes: seq<UmlClass>)
    ensures TrimClasses(classes, []) == classes
  {
    hide TrimClass;
    if classes == [] {
    } else {
      var n := |classes| - 1;
      NothingTrimmedFrom(classes[..n]);
      NothingTrimmedIn(classes[n]);
      assert classes == classes[..n] + [classes[n]];
    }
  }

  lemma NothingTrimmed(model: Model)
    ensures TrimClasses(model.classes, []) == model.classes && TrimLinks(model.relationships, []) == model.relationships
  {
    NothingTrimmedFrom(model.classes);
    FilterAll(model.relationships, (r: Relationship) => LinkStays(r, []));
  }

  lemma RemovalTrims(model: Model, before: Model, front: seq<Command>, k: Command)
    requires ClassesDistinct(model.classes) && IsRemoval(k) && (k.RemoveClass? ==> IsClassId(model, k.classId))
    requires before.classes == TrimClasses(model.classes, front) && before.relationships == TrimLinks(model.relationships, front)
    ensures Handle(before, k).classes == TrimClasses(model.classes, front + [k])
    ensures Handle(before, k).relationships == TrimLinks(model.relationships, front + [k])
  {
    TrimmedIds(model.classes, front);
    TrimLinksStep(model.relationships, front, k);
    hide Handle, TrimClasses, TrimLinks, Filter, TrimClass;
    match k {
      case RemoveClass(id) =>
        HandleRemoveClass(before, id);
        TrimAllRemoved(model.classes, front, k);
        if !IsClassId(before, id) {
          AlreadyRemoved(model, before, front, id);
        }
      case RemoveRelationship(id) =>
        HandleRemoveLink(before, id);
        TrimAllRemoved(model.classes, front, k);
      case _ =>
        HandleMember(before, k);
        TrimAllStep(model.classes, front, k);
    }
  }

  /** A class that is gone was removed before, so its relationships are gone too. */
  lemma AlreadyRemoved(model: Model, before: Model, front: seq<Command>, id: ElementId)
    requires ClassesDistinct(model.classes) && IsClassId(model, id)
    requires before.classes == TrimClasses(model.classes, front) && !IsClassId(before, id)
    ensures RemoveClass(id) in front
    ensures TrimLinks(model.relationships, front + [RemoveClass(id)]) == TrimLinks(model.relationships, front)
  {
    TrimmedIds(model.classes, front);
    var c :| c in model.classes && c.id == id;
    TrimKeepsId(c, front);
    assert RemoveClass(id) !in front ==> TrimClass(c, front) in before.classes;
    LastCommand(front, RemoveClass(id));
    hide Filter;
    assert forall x :: x in front + [RemoveClass(id)] <==> x in front;
    FilterAgrees(model.relationships, (r: Relationship) => LinkStays(r, front), (r: Relationship) => LinkStays(r, front + [RemoveClass(id)]));
  }

  // ---- adding ----------------------------------------------------------

  predicate IsAddition(k: Command) {
    k.AddClass? || k.AddAttribute? || k.AddOperation? || k.AddRelationship? || k.UpdateRelationship?
  }

  /** A class after all member commands for it. */
  function Grown(c: UmlClass, commands: seq<Command>): UmlClass {
    if commands == [] then c else StepOne(Grown(c, commands[..|commands| - 1]), commands[|commands| - 1])
  }

  function GrownAll(classes: seq<UmlClass>, commands: seq<Command>): seq<UmlClass> {
    seq(|classes|, i requires 0 <= i < |classes| => Grown(classes[i], commands))
  }

  function NewClass(k: Command): seq<UmlClass> {
    if k.AddClass? then [UmlClass(k.classId, k.name, [], [], Public)] else []
  }

  /** The classes the commands create, with the members they add to them. */
  function Created(commands: seq<Command>): seq<UmlClass> {
    if commands == [] then []
    else StepAll(Created(commands[..|commands| - 1]), commands[|commands| - 1]) + NewClass(commands[|commands| - 1])
  }

  function StepLink(r: Relationship, k: Command): Relationship {
    if k.UpdateRelationship? && k.relationshipId == r.id
    then Updated(r, k.newLabel, k.sourceMultiplicity, k.targetMultiplicity) else r
  }

  function UpdatedLink(r: Relationship, commands: seq<Command>): Relationship {
    if commands == [] then r else StepLink(UpdatedLink(r, commands[..|commands| - 1]), commands[|commands| - 1])
  }

  function UpdatedLinks(relationships: seq<Relationship>, commands: seq<Command>): seq<Relationship> {
    seq(|relationships|, i requires 0 <= i < |relationships| => UpdatedLink(relationships[i], commands))
  }

  function AddedLinks(commands: seq<Command>): seq<Relationship> {
    if commands == [] then []
    else
      var k := commands[|commands| - 1];
      AddedLinks(commands[..|commands| - 1]) + if k.AddRelationship? then [k.relationship] else []
  }

  /** The commands only add; what they add is new, and what they update is already there. */
  ghost predicate AddsTo(model: Model, commands: seq<Command>) {
    && (forall k :: k in commands ==> IsAddition(k))
    && (forall k, r :: k in commands && k.UpdateRelationship? && r in AddedLinks(commands) ==> k.relationshipId != r.id)
    && ClassesDistinct(model.classes + Created(commands))
    && LinksDistinct(model.relationships)
  }

  lemma StepAllConcat(a: seq<UmlClass>, b: seq<UmlClass>, k: Command)
    ensures StepAll(a + b, k) == StepAll(a, k) + StepAll(b, k)
  {
    hide StepOne;
  }

  lemma GrownStep(c: UmlClass, front: seq<Command>, k: Command)
    ensures Grown(c, front + [k]) == StepOne(Grown(c, front), k)
  {
    assert (front + [k])[..|front|] == front;
    hide StepOne;
  }

  lemma GrownAllStep(classes: seq<UmlClass>, front: seq<Command>, k: Command)
    ensures GrownAll(classes, front + [k]) == StepAll(GrownAll(classes, front), k)
  {
    hide StepOne, Grown;
    forall i | 0 <= i < |classes| ensures GrownAll(classes, front + [k])[i] == StepAll(GrownAll(classes, front), k)[i] {
      GrownStep(classes[i], front, k);
    }
  }

  lemma CreatedStep(front: seq<Command>, k: Command)
    ensures Created(front + [k]) == StepAll(Created(front), k) + NewClass(k)
  {
    assert (front + [k])[..|front|] == front;
    hide StepAll;
  }

  lemma {:induction false} GrownKeepsId(c: UmlClass, commands: seq<Command>)
    ensures Grown(c, commands).id == c.id && Grown(c, commands).name == c.name
  {
    if commands != [] {
      GrownKeepsId(c, commands[..|commands| - 1]);
      StepKeepsId(Grown(c, commands[..|commands| - 1]), commands[|commands| - 1]);
    }
    hide StepOne;
  }

  lemma SameIdsDistinct(a: seq<UmlClass>, b: seq<UmlClass>)
    requires |a| == |b| && ClassesDistinct(a) && forall i :: 0 <= i < |a| ==> a[i].id == b[i].id
    ensures ClassesDistinct(b)
  {
  }

  lemma PrefixDistinct(a: seq<UmlClass>, b: seq<UmlClass>)
    requires ClassesDistinct(a + b)
    ensures ClassesDistinct(a)
  {
    assert forall i :: 0 <= i < |a| ==> (a + b)[i] == a[i];
  }

  /** Fewer commands create a prefix of the classes. */
  lemma FewerDistinct(classes: seq<UmlClass>, front: seq<Command>, k: Command)
    requires ClassesDistinct(classes + Created(front + [k]))
    ensures ClassesDistinct(classes + Created(front))
  {
    CreatedStep(front, k);
    hide Created, StepOne;
    assert classes + Created(front + [k]) == (classes + StepAll(Created(front), k)) + NewClass(k);
    PrefixDistinct(classes + StepAll(Created(front), k), NewClass(k));
    forall i | 0 <= i < |Created(front)| ensures StepAll(Created(front), k)[i].id == Created(front)[i].id {
      StepKeepsId(Created(front)[i], k);
    }
    var a, b := classes + StepAll(Created(front), k), classes + Created(front);
    forall i | 0 <= i < |a| ensures a[i].id == b[i].id {
    }
    SameIdsDistinct(a, b);
  }

  lemma GrownDistinct(classes: seq<UmlClass>, commands: seq<Command>)
    requires ClassesDistinct(classes + Created(commands))
    ensures ClassesDistinct(GrownAll(classes, commands) + Created(commands))
  {
    hide Created, Grown;
    forall i | 0 <= i < |classes| ensures GrownAll(classes, commands)[i].id == classes[i].id {
      GrownKeepsId(classes[i], commands);
    }
    SameIdsDistinct(classes + Created(commands), GrownAll(classes, commands) + Created(commands));
  }

  lemma StepAllOther(classes: seq<UmlClass>, k: Command)
    requires !IsMemberCommand(k)
    ensures StepAll(classes, k) == classes
  {
  }

  /** One more addition, on the classes. */
  lemma AdditionGrows(model: Model, before: Model, front: seq<Command>, k: Command)
    requires IsAddition(k) && ClassesDistinct(model.classes + Created(front + [k]))
    requires before.classes == GrownAll(model.classes, front) + Created(front)
    ensures Handle(before, k).classes == GrownAll(model.classes, front + [k]) + Created(front + [k])
  {
    CreatedStep(front, k);
    GrownAllStep(model.classes, front, k);
    FewerDistinct(model.classes, front, k);
    GrownDistinct(model.classes, front);
    hide StepAll, Created, GrownAll, ClassesDistinct;
    StepAllConcat(GrownAll(model.classes, front), Created(front), k);
    if IsMemberCommand(k) {
      HandleMember(before, k);
      hide Handle;
      assert StepAll(Created(front), k) + [] == StepAll(Created(front), k);
    } else {
      StepAllOther(Created(front), k);
      StepAllOther(GrownAll(model.classes, front), k);
      AppendAssociates(GrownAll(model.classes, front), Created(front), NewClass(k));
      OtherAdditionClasses(before, k);
      hide Handle;
      assert Created(front) + [] == Created(front);
    }
  }

  lemma OtherAdditionClasses(model: Model, k: Command)
    requires IsAddition(k) && !IsMemberCommand(k)
    ensures Handle(model, k).classes == model.classes + NewClass(k)
  {
    assert model.classes + [] == model.classes;
  }

  // ---- adding links ----------------------------------------------------

  lemma SameLinkSameIndex(relationships: seq<Relationship>, i: nat, n: nat)
    requires LinksDistinct(relationships) && i < |relationships| && n < |relationships| && relationships[i].id == relationships[n].id
    ensures i == n
  {
  }

  function StepLinks(relationships: seq<Relationship>, k: Command): seq<Relationship> {
    seq(|relationships|, i requires 0 <= i < |relationships| => StepLink(relationships[i], k))
  }

  /** An update replaces the one relationship with its id. */
  lemma HandleUpdate(model: Model, k: Command)
    requires k.UpdateRelationship? && LinksDistinct(model.relationships)
    ensures Handle(model, k).relationships == StepLinks(model.relationships, k)
  {
    var found := RelationshipById(model.relationships, k.relationshipId);
    if found.Some? {
      var n :| 0 <= n < |model.relationships| && model.relationships[n] == found.value;
      forall i | 0 <= i < |model.relationships|
        ensures Handle(model, k).relationships[i] == StepLinks(model.relationships, k)[i]
      {
        if model.relationships[i].id == k.relationshipId {
          SameLinkSameIndex(model.relationships, i, n);
        }
      }
    }
    hide Updated;
  }

  lemma UpdatedLinkStep(r: Relationship, front: seq<Command>, k: Command)
    ensures UpdatedLink(r, front + [k]) == StepLink(UpdatedLink(r, front), k)
  {
    assert (front + [k])[..|front|] == front;
    hide StepLink;
  }

  lemma UpdatedLinksStep(relationships: seq<Relationship>, front: seq<Command>, k: Command)
    ensures UpdatedLinks(relationships, front + [k]) == StepLinks(UpdatedLinks(relationships, front), k)
  {
    hide StepLink, UpdatedLink;
    forall i | 0 <= i < |relationships|
      ensures UpdatedLinks(relationships, front + [k])[i] == StepLinks(UpdatedLinks(relationships, front), k)[i]
    {
      UpdatedLinkStep(relationships[i], front, k);
    }
  }

  lemma AddedLinksStep(front: seq<Command>, k: Command)
    ensures AddedLinks(front + [k]) == AddedLinks(front) + if k.AddRelationship? then [k.relationship] else []
  {
    assert (front + [k])[..|front|] == front;
  }

  lemma {:induction false} UpdatedKeepsId(r: Relationship, commands: seq<Command>)
    ensures UpdatedLink(r, commands).id == r.id && UpdatedLink(r, commands).kind == r.kind
  {
    if commands != [] {
      UpdatedKeepsId(r, commands[..|commands| - 1]);
    }
  }

  lemma NoUpdateNoStep(relationships: seq<Relationship>, k: Command)
    requires k.UpdateRelationship? ==> forall r :: r in relationships ==> r.id != k.relationshipId
    ensures StepLinks(relationships, k) == relationships
  {
  }

  /** No added relationship has the id of another one. */
  ghost predicate NewLinks(relationships: seq<Relationship>, commands: seq<Command>) {
    LinksDistinct(relationships + AddedLinks(commands))
  }

  lemma LinksStayDistinct(relationships: seq<Relationship>, commands: seq<Command>)
    requires NewLinks(relationships, commands)
    ensures LinksDistinct(UpdatedLinks(relationships, commands) + AddedLinks(commands))
  {
    hide UpdatedLink, AddedLinks;
    var a, b := relationships + AddedLinks(commands), UpdatedLinks(relationships, commands) + AddedLinks(commands);
    forall i | 0 <= i < |a| ensures a[i].id == b[i].id {
      if i < |relationships| {
        UpdatedKeepsId(relationships[i], commands);
      }
    }
  }

  lemma FewerNewLinks(relationships: seq<Relationship>, front: seq<Command>, k: Command)
    requires NewLinks(relationships, front + [k])
    ensures NewLinks(relationships, front)
  {
    AddedLinksStep(front, k);
    hide AddedLinks;
    var a := relationships + AddedLinks(front);
    var b := relationships + AddedLinks(front + [k]);
    assert forall i :: 0 <= i < |a| ==> a[i] == b[i];
  }

  lemma AdditionLinks(model: Model, before: Model, front: seq<Command>, k: Command)
    requires IsAddition(k) && NewLinks(model.relationships, front + [k])
    requires k.UpdateRelationship? ==> forall r :: r in AddedLinks(front) ==> r.id != k.relationshipId
    requires before.relationships == UpdatedLinks(model.relationships, front) + AddedLinks(front)
    ensures Handle(before, k).relationships == UpdatedLinks(model.relationships, front + [k]) + AddedLinks(front + [k])
  {
    AddedLinksStep(front, k);
    UpdatedLinksStep(model.relationships, front, k);
    FewerNewLinks(model.relationships, front, k);
    LinksStayDistinct(model.relationships, front);
    var a, b := UpdatedLinks(model.relationships, front), AddedLinks(front);
    hide UpdatedLinks, AddedLinks, UpdatedLink, StepLink, NewLinks, LinksDistinct;
    if k.UpdateRelationship? {
      HandleUpdate(before, k);
      NoUpdateNoStep(b, k);
      assert StepLinks(a + b, k) == StepLinks(a, k) + StepLinks(b, k);
      assert b + [] == b;
    } else {
      NoUpdateNoStep(a, k);
      OtherAdditionLinks(before, k);
      AppendAssociates(a, b, if k.AddRelationship? then [k.relationship] else []);
    }
    hide Handle;
  }

  lemma OtherAdditionLinks(model: Model, k: Command)
    requires IsAddition(k) && !k.UpdateRelationship?
    ensures Handle(model, k).relationships == model.relationships + if k.AddRelationship? then [k.relationship] else []
  {
    assert model.relationships + [] == model.relationships;
  }

  /** A run of additions grows and creates classes, and updates and adds relationships. */
  lemma {:induction false} AdditionsGrow(model: Model, commands: seq<Command>)
    requires AddsTo(model, commands) && NewLinks(model.relationships, commands)
    ensures AfterAll(model, commands).classes == GrownAll(model.classes, commands) + Created(commands)
    ensures AfterAll(model, commands).relationships == UpdatedLinks(model.relationships, commands) + AddedLinks(commands)
  {
    if commands == [] {
      assert GrownAll(model.classes, []) == model.classes && UpdatedLinks(model.relationships, []) == model.relationships;
      assert model.classes + [] == model.classes && model.relationships + [] == model.relationships;
    } else {
      var n := |commands| - 1;
      var front, k := commands[..n], commands[n];
      LastIsMember(commands);
      assert commands == front + [k];
      FewerDistinct(model.classes, front, k);
      FewerNewLinks(model.relationships, front, k);
      AddedLinksStep(front, k);
      hide Handle, Created, GrownAll, UpdatedLinks, AddedLinks, ClassesDistinct, NewLinks, LinksDistinct, IsAddition;
      AdditionsGrow(model, front);
      AdditionGrows(model, AfterAll(model, front), front, k);
      AdditionLinks(model, AfterAll(model, front), front, k);
    }
  }

  // ---- the gates -------------------------------------------------------

  /** The gate passes for every command in the state its predecessors leave. */
  ghost predicate GatesPass(model: Model, commands: seq<Command>)
    decreases |commands|
  {
    commands == [] || (Gate(model, commands[0]).None? && GatesPass(Handle(model, commands[0]), commands[1..]))
  }

  lemma {:induction false} SubmitsAll(doc: Document, commands: seq<Command>)
    ensures SubmitEach(doc, commands).Ok? <==> GatesPass(doc.model, commands)
    ensures SubmitEach(doc, commands).Ok? ==> SubmitEach(doc, commands).value.model == AfterAll(doc.model, commands)
    decreases |commands|
  {
    hide Gate, Handle;
    if commands != [] {
      var c, rest := commands[0], commands[1..];
      assert commands == [c] + rest;
      AfterConcat(doc.model, [c], rest);
      assert [c][..0] == [] && AfterAll(doc.model, [c]) == Handle(doc.model, c);
      if Submit(doc, c).Ok? {
        SubmitsAll(Submit(doc, c).value, rest);
      }
    }
  }

  lemma {:induction false} GatesConcat(model: Model, a: seq<Command>, b: seq<Command>)
    ensures GatesPass(model, a + b) <==> GatesPass(model, a) && GatesPass(AfterAll(model, a), b)
    decreases |a|
  {
    hide Gate, Handle;
    if a == [] {
      assert a + b == b;
    } else {
      assert (a + b)[0] == a[0] && (a + b)[1..] == a[1..] + b;
      assert a == [a[0]] + a[1..];
      AfterConcat(model, [a[0]], a[1..]);
      assert [a[0]][..0] == [] && AfterAll(model, [a[0]]) == Handle(model, a[0]);
      GatesConcat(Handle(model, a[0]), a[1..], b);
    }
  }

  predicate IsGated(k: Command) {
    k.UpdateRelationship? || k.SetGenerationProfile?
  }

  lemma {:induction false} UngatedPass(model: Model, commands: seq<Command>)
    requires forall k :: k in commands ==> !IsGated(k)
    ensures GatesPass(model, commands)
    decreases |commands|
  {
    hide Handle;
    if commands != [] {
      assert commands[0] in commands;
      UngatedPass(Handle(model, commands[0]), commands[1..]);
    }
  }

  /** An update is of a relationship of the model, and sends a multiplicity. */
  predicate UpdatesKnown(model: Model, k: Command) {
    k.UpdateRelationship? ==>
      RelationshipById(model.relationships, k.relationshipId).Some? && (k.sourceMultiplicity.Some? || k.targetMultiplicity.Some?)
  }

  predicate UpdatesGeneralization(model: Model, k: Command)
    requires UpdatesKnown(model, k)
  {
    k.UpdateRelationship? && RelationshipById(model.relationships, k.relationshipId).value.kind == Generalization
  }

  lemma FrontAddsTo(model: Model, front: seq<Command>, k: Command)
    requires AddsTo(model, front + [k]) && NewLinks(model.relationships, front + [k])
    ensures AddsTo(model, front) && NewLinks(model.relationships, front) && IsAddition(k)
  {
    LastCommand(front, k);
    FewerDistinct(model.classes, front, k);
    FewerNewLinks(model.relationships, front, k);
    AddedLinksStep(front, k);
    hide Created, AddedLinks, ClassesDistinct, NewLinks, IsAddition, LinksDistinct;
  }

  /** Among additions the gate refuses the updates of generalizations. */
  lemma AdditionGate(model: Model, front: seq<Command>, k: Command)
    requires AddsTo(model, front) && NewLinks(model.relationships, front) && IsAddition(k) && UpdatesKnown(model, k)
    ensures Gate(AfterAll(model, front), k).None? <==> !UpdatesGeneralization(model, k)
  {
    AdditionsGrow(model, front);
    hide AfterAll, Created, GrownAll, UpdatedLinks, AddedLinks, ClassesDistinct, NewLinks, LinksDistinct, RelationshipById;
    if k.UpdateRelationship? {
      UpdatedIsFound(model, AfterAll(model, front), front, k.relationshipId);
    }
  }

  lemma OneGate(model: Model, k: Command)
    ensures GatesPass(model, [k]) <==> Gate(model, k).None?
  {
    assert [k][1..] == [];
    hide Gate, Handle;
  }

  /** Additions pass the gates exactly when they update no generalization. */
  lemma {:induction false} AdditionsPass(model: Model, commands: seq<Command>)
    requires AddsTo(model, commands) && NewLinks(model.relationships, commands)
    requires forall k :: k in commands ==> UpdatesKnown(model, k)
    ensures GatesPass(model, commands) <==> forall k :: k in commands ==> !UpdatesGeneralization(model, k)
  {
    hide AddsTo, NewLinks, Gate, UpdatesKnown, UpdatesGeneralization, IsAddition, AfterAll;
    if commands != [] {
      var n := |commands| - 1;
      var front, k := commands[..n], commands[n];
      LastIsMember(commands);
      assert commands == front + [k];
      FrontAddsTo(model, front, k);
      hide GatesPass;
      AdditionsPass(model, front);
      AdditionGate(model, front, k);
      GatesConcat(model, front, [k]);
      OneGate(AfterAll(model, front), k);
    }
  }

  /** The relationship to update is still there, with its kind. */
  lemma UpdatedIsFound(model: Model, after: Model, commands: seq<Command>, id: ElementId)
    requires LinksDistinct(model.relationships) && NewLinks(model.relationships, commands)
    requires after.relationships == UpdatedLinks(model.relationships, commands) + AddedLinks(commands)
    requires RelationshipById(model.relationships, id).Some?
    ensures RelationshipById(after.relationships, id).Some?
    ensures RelationshipById(after.relationships, id).value.kind == RelationshipById(model.relationships, id).value.kind
  {
    LinksStayDistinct(model.relationships, commands);
    hide AddedLinks, UpdatedLink;
    var r := RelationshipById(model.relationships, id).value;
    var i :| 0 <= i < |model.relationships| && model.relationships[i] == r;
    UpdatedKeepsId(r, commands);
    var u := after.relationships[i];
    assert u in after.relationships && u.id == id;
    var found := RelationshipById(after.relationships, id).value;
    var j :| 0 <= j < |after.relationships| && after.relationships[j] == found;
    SameLinkSameIndex(after.relationships, i, j);
  }
}
