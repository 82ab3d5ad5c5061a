/** A confirmed reconciliation leaves a document that shows the extraction. */
module ReconcileOutcome {
  import opened Text
  import opened Uml
  import opened Calls
  import opened Documents
  import opened Translator
  import opened Reconcile
  import opened ReconcileMembers
  import opened ReconcileStages
  import opened ReconcileCalls
  import opened ReconcileTrim
  import opened ReconcileGrow
  import opened ReconcileLinks
  import opened ReconcileTheorems
  import opened ReconcileShows
  import opened ReconcileFinal
  import C = Commands

  /** The model after the whole plan. */
  function FinalModel(normalize: Normalize, model: Model, newId: NewIds, extracted: seq<Call>): Model {
    AfterAll(model, AllCommands(normalize, model, newId, extracted))
  }

  function AddCommands(normalize: Normalize, model: Model, newId: NewIds, extracted: seq<Call>): seq<C.Command> {
    StageOf(normalize, model, newId, extracted).sections + StageOf(normalize, model, newId, extracted).links
  }

  lemma FinalIsTwoStages(normalize: Normalize, model: Model, newId: NewIds, extracted: seq<Call>)
    ensures FinalModel(normalize, model, newId, extracted) ==
      AfterAll(TrimmedModel(normalize, model, extracted), AddCommands(normalize, model, newId, extracted))
  {
    AfterConcat(model, RemovalCommands(normalize, model, extracted), AddCommands(normalize, model, newId, extracted));
    hide RemovalCommands, StageOf, AfterAll;
  }

  lemma FinalGrows(normalize: Normalize, model: Model, newId: NewIds, extracted: seq<Call>)
    requires ModelIsReady(normalize, model) && IdsAreNew(model, newId)
    ensures var adds := AddCommands(normalize, model, newId, extracted);
      var trimmed := TrimmedModel(normalize, model, extracted);
      var final := FinalModel(normalize, model, newId, extracted);
      && final.classes == GrownAll(trimmed.classes, adds) + Created(adds)
      && final.relationships == UpdatedLinks(trimmed.relationships, adds) + AddedLinks(adds)
      && ClassesDistinct(final.classes) && LinksDistinct(final.relationships)
  {
    var adds, trimmed := AddCommands(normalize, model, newId, extracted), TrimmedModel(normalize, model, extracted);
    FinalIsTwoStages(normalize, model, newId, extracted);
    AdditionsFit(normalize, model, newId, extracted);
    ClassesFit(normalize, model, newId, extracted);
    hide AfterAll, StageOf, RemovalCommands, ClassesDistinct, LinksDistinct, AddsTo, NewLinks, FinalModel;
    AdditionsGrow(trimmed, adds);
    GrownDistinct(trimmed.classes, adds);
    LinksStayDistinct(trimmed.relationships, adds);
  }

  // ---- classes ---------------------------------------------------------

  predicate IsExtracted(normalize: Normalize, extracted: seq<Call>, name: string) {
    DesiredNamed(normalize, DesiredClasses(normalize, extracted), name).Some?
  }

  /** What becomes of a class of the document. */
  function KeptClass(normalize: Normalize, model: Model, newId: NewIds, extracted: seq<Call>, c: UmlClass): UmlClass {
    AfterSections(normalize, newId, |RemovalCommands(normalize, model, extracted)|, model.classes, DesiredClasses(normalize, extracted),
                  TrimClass(c, RemovalCommands(normalize, model, extracted)))
  }

  lemma KeptClassId(normalize: Normalize, model: Model, newId: NewIds, extracted: seq<Call>, c: UmlClass)
    ensures KeptClass(normalize, model, newId, extracted, c).id == c.id
    ensures KeptClass(normalize, model, newId, extracted, c).name == c.name
  {
    hide RemovalCommands, DesiredClasses, AfterSections, TrimClass;
    TrimKeepsId(c, RemovalCommands(normalize, model, extracted));
    AfterSectionsKeepsId(normalize, newId, |RemovalCommands(normalize, model, extracted)|, model.classes,
                         DesiredClasses(normalize, extracted), TrimClass(c, RemovalCommands(normalize, model, extracted)));
  }

  lemma KeptGrows(normalize: Normalize, model: Model, newId: NewIds, extracted: seq<Call>, c: UmlClass)
    requires IdsAreNew(model, newId) && c in model.classes
    ensures Grown(TrimClass(c, RemovalCommands(normalize, model, extracted)), AddCommands(normalize, model, newId, extracted)) ==
      KeptClass(normalize, model, newId, extracted, c)
  {
    var stage := StageOf(normalize, model, newId, extracted);
    var x := TrimClass(c, RemovalCommands(normalize, model, extracted));
    hide RemovalCommands, DesiredClasses, AfterSections, TrimClass, StageOf, Grown, IsLinkCommand;
    StageParts(normalize, model, newId, extracted);
    StageKinds(normalize, model, newId, extracted);
    TrimKeepsId(c, RemovalCommands(normalize, model, extracted));
    GrownConcat(x, stage.sections, stage.links);
    SectionsGrow(normalize, newId, stage.start, model.classes, DesiredClasses(normalize, extracted), x);
    LinksGrowNothing(KeptClass(normalize, model, newId, extracted, c), stage.links);
  }

  ghost predicate IsKeptClass(normalize: Normalize, model: Model, newId: NewIds, extracted: seq<Call>, c: UmlClass, y: UmlClass) {
    c in model.classes && IsExtracted(normalize, extracted, c.name) && y == KeptClass(normalize, model, newId, extracted, c)
  }

  ghost predicate IsCreatedClass(normalize: Normalize, model: Model, newId: NewIds, extracted: seq<Call>, y: UmlClass) {
    IsNew(normalize, newId, |RemovalCommands(normalize, model, extracted)|, model.classes, DesiredClasses(normalize, extracted), y)
  }

  ghost predicate IsSurvivor(normalize: Normalize, model: Model, newId: NewIds, extracted: seq<Call>, y: UmlClass) {
    exists c :: IsKeptClass(normalize, model, newId, extracted, c, y)
  }

  lemma GrownMember(classes: seq<UmlClass>, commands: seq<C.Command>, y: UmlClass)
    ensures y in GrownAll(classes, commands) <==> exists x :: x in classes && y == Grown(x, commands)
  {
    hide Grown;
    if y in GrownAll(classes, commands) {
      var i :| 0 <= i < |classes| && GrownAll(classes, commands)[i] == y;
      assert classes[i] in classes;
    }
    forall x | x in classes ensures Grown(x, commands) in GrownAll(classes, commands) {
      var i :| 0 <= i < |classes| && classes[i] == x;
      assert GrownAll(classes, commands)[i] == Grown(x, commands);
    }
  }

  lemma TrimmedMember(normalize: Normalize, model: Model, extracted: seq<Call>, x: UmlClass)
    requires ModelIsReady(normalize, model)
    ensures x in TrimmedModel(normalize, model, extracted).classes <==>
      exists c :: c in model.classes && IsExtracted(normalize, extracted, c.name)
        && x == TrimClass(c, RemovalCommands(normalize, model, extracted))
  {
    Trimmed(normalize, model, extracted);
    hide RemovalCommands, TrimClass, AfterAll, DesiredClasses, DesiredNamed, LinksDistinct, NoParallels, LinkStays, TrimClasses, TrimLinks,
         NoDanglingEnds, ClassIsReady, ClassKeysDistinct, ClassesDistinct;
    forall c | c in model.classes
      ensures C.RemoveClass(c.id) !in RemovalCommands(normalize, model, extracted) <==> IsExtracted(normalize, extracted, c.name)
    {
      ClassGoes(normalize, model, extracted, c);
    }
    hide ModelIsReady;
  }

  lemma SurvivorIsGrown(normalize: Normalize, model: Model, newId: NewIds, extracted: seq<Call>, y: UmlClass)
    requires ModelIsReady(normalize, model) && IdsAreNew(model, newId)
    ensures y in GrownAll(TrimmedModel(normalize, model, extracted).classes, AddCommands(normalize, model, newId, extracted)) <==>
      IsSurvivor(normalize, model, newId, extracted, y)
  {
    var removals, adds := RemovalCommands(normalize, model, extracted), AddCommands(normalize, model, newId, extracted);
    var trimmed := TrimmedModel(normalize, model, extracted);
    hide RemovalCommands, TrimClass, TrimmedModel, AddCommands, GrownAll, Grown, KeptClass, ModelIsReady, IdsAreNew, IsExtracted;
    GrownMember(trimmed.classes, adds, y);
    if x :| x in trimmed.classes && y == Grown(x, adds) {
      TrimmedMember(normalize, model, extracted, x);
      var c :| c in model.classes && IsExtracted(normalize, extracted, c.name) && x == TrimClass(c, removals);
      KeptGrows(normalize, model, newId, extracted, c);
      assert IsKeptClass(normalize, model, newId, extracted, c, y);
    }
    if c :| IsKeptClass(normalize, model, newId, extracted, c, y) {
      TrimmedMember(normalize, model, extracted, TrimClass(c, removals));
      KeptGrows(normalize, model, newId, extracted, c);
    }
  }

  /** The final classes are the extracted classes of the document and the new ones. */
  lemma FinalClass(normalize: Normalize, model: Model, newId: NewIds, extracted: seq<Call>, y: UmlClass)
    requires ModelIsReady(normalize, model) && IdsAreNew(model, newId)
    ensures y in FinalModel(normalize, model, newId, extracted).classes <==>
      IsSurvivor(normalize, model, newId, extracted, y) || IsCreatedClass(normalize, model, newId, extracted, y)
  {
    hide *;
    FinalGrows(normalize, model, newId, extracted);
    SurvivorIsGrown(normalize, model, newId, extracted, y);
    CreatedByStage(normalize, model, newId, extracted, y);
  }

  lemma CreatedByStage(normalize: Normalize, model: Model, newId: NewIds, extracted: seq<Call>, y: UmlClass)
    requires IdsAreNew(model, newId)
    ensures y in Created(AddCommands(normalize, model, newId, extracted)) <==> IsCreatedClass(normalize, model, newId, extracted, y)
  {
    StageCreates(normalize, model, newId, extracted);
    StageParts(normalize, model, newId, extracted);
    hide StageOf, Created, RemovalCommands, DesiredClasses, IsNew, IdsAreNew, NewClasses, AllSections, AddedLinks;
    NewClassesAre(normalize, newId, |RemovalCommands(normalize, model, extracted)|, model.classes, DesiredClasses(normalize, extracted));
  }

  /** The class is the extracted class of its name. */
  ghost predicate IsShown(normalize: Normalize, extracted: seq<Call>, y: UmlClass, d: Desired) {
    d in DesiredClasses(normalize, extracted) && normalize(d.name) == normalize(y.name) && ClassMatches(normalize, y, d)
  }

  lemma MatchesFrom(normalize: Normalize, c: UmlClass, d: Desired)
    requires SameMembers(normalize, AttributeMembers(c), d.attributes) && SameMembers(normalize, OperationMembers(c), d.operations)
    ensures ClassMatches(normalize, c, d)
  {
    hide SameMembers, AttributeMembers, OperationMembers;
  }

  lemma GrownParts(normalize: Normalize, newId: NewIds, c: UmlClass, d: Desired, x: UmlClass, y: UmlClass, n: nat)
    requires IsGrownFor(normalize, newId, c, d, x, y, n)
    ensures var attributes, operations :=
        Missing(normalize, AttributeMembers(c), d.attributes), Missing(normalize, OperationMembers(c), d.operations);
      y == WithMembers(x, BuiltAttributes(newId, n, attributes), BuiltOperations(newId, n + |attributes|, operations))
  {
    hide Missing, AttributeMembers, OperationMembers, WithMembers, BuiltAttributes, BuiltOperations;
  }

  /** A class of the document that is extracted shows its extracted class. */
  lemma KeptIsShown(normalize: Normalize, model: Model, newId: NewIds, extracted: seq<Call>, c: UmlClass)
    requires ModelIsReady(normalize, model) && ExtractionIsReady(normalize, extracted)
    requires c in model.classes && IsExtracted(normalize, extracted, c.name)
    ensures exists d :: IsShown(normalize, extracted, KeptClass(normalize, model, newId, extracted, c), d)
  {
    var desired, removals := DesiredClasses(normalize, extracted), RemovalCommands(normalize, model, extracted);
    var d := DesiredNamed(normalize, desired, c.name).value;
    var x, y := TrimClass(c, removals), KeptClass(normalize, model, newId, extracted, c);
    assert ClassIsReady(normalize, c);
    hide RemovalCommands, DesiredClasses, TrimClass, AfterSections, AttributeMembers, OperationMembers, Kept, Missing, IsGrownFor, WithMembers,
         BuiltAttributes, BuiltOperations, ClassIsReady, DesiredIsReady, ClassMatches, SameMembers, ModelIsReady, ExtractionIsReady;
    ReadyParts(normalize, model, extracted);
    TrimmedMembers(normalize, model, extracted, c, d);
    TrimKeepsId(c, removals);
    var k := SectionsGrowOnce(normalize, newId, |removals|, model.classes, desired, c, d, x);
    GrownParts(normalize, newId, c, d, x, y, k);
    KeptClassMatches(normalize, c, d, x, y, newId, k);
    MatchesFrom(normalize, y, d);
    KeptClassId(normalize, model, newId, extracted, c);
    assert IsShown(normalize, extracted, y, d);
  }

  lemma CreatedIsShown(normalize: Normalize, model: Model, newId: NewIds, extracted: seq<Call>, y: UmlClass)
    requires ModelIsReady(normalize, model) && ExtractionIsReady(normalize, extracted)
    requires IsCreatedClass(normalize, model, newId, extracted, y)
    ensures exists d :: IsShown(normalize, extracted, y, d)
  {
    var desired, n := DesiredClasses(normalize, extracted), |RemovalCommands(normalize, model, extracted)|;
    ReadyParts(normalize, model, extracted);
    hide RemovalCommands, DesiredClasses, SectionStart, ClassMatches, ModelIsReady, ExtractionIsReady, ClassNamed, DesiredIsReady,
         BuiltAttributes, BuiltOperations, NoParallels, LinksDistinct, ClassKeysDistinct, ClassesDistinct, DesiredKeysDistinct, LinkIsReady;
    var j: nat :| IsNewAt(normalize, newId, n, model.classes, desired, j, y);
    var d := desired[j];
    assert d in desired;
    NewClassMatches(normalize, d, newId, SectionStart(normalize, newId, n, model.classes, desired, j));
    assert IsShown(normalize, extracted, y, d);
  }

  lemma EveryClassIsShown(normalize: Normalize, model: Model, newId: NewIds, extracted: seq<Call>, y: UmlClass)
    requires ModelIsReady(normalize, model) && ExtractionIsReady(normalize, extracted) && IdsAreNew(model, newId)
    requires y in FinalModel(normalize, model, newId, extracted).classes
    ensures exists d :: IsShown(normalize, extracted, y, d)
  {
    hide FinalModel, KeptClass, IsShown, ModelIsReady, ExtractionIsReady, IdsAreNew, IsCreatedClass, IsExtracted;
    FinalClass(normalize, model, newId, extracted, y);
    if c :| IsKeptClass(normalize, model, newId, extracted, c, y) {
      KeptIsShown(normalize, model, newId, extracted, c);
    } else {
      CreatedIsShown(normalize, model, newId, extracted, y);
    }
  }

  // ---- names of final classes ------------------------------------------

  /** Under the name of an extracted class the registry has a final class. */
  lemma NameIsFinal(normalize: Normalize, model: Model, newId: NewIds, extracted: seq<Call>, d: Desired)
    returns (y: UmlClass)
    requires ModelIsReady(normalize, model) && ExtractionIsReady(normalize, extracted) && IdsAreNew(model, newId)
    requires d in DesiredClasses(normalize, extracted)
    ensures y in FinalModel(normalize, model, newId, extracted).classes && normalize(y.name) == normalize(d.name)
    ensures y.id == IdOf(normalize, StageOf(normalize, model, newId, extracted).registry, d.name)
    ensures var c := ClassNamed(normalize, model.classes, d.name); c.Some? ==> y.id == c.value.id
  {
    hide FinalModel, KeptClass, ModelIsReady, ExtractionIsReady, IdsAreNew, IsCreatedClass, StageOf;
    match ClassNamed(normalize, model.classes, d.name) {
      case Some(c) =>
        y := KeptClass(normalize, model, newId, extracted, c);
        KeptClassId(normalize, model, newId, extracted, c);
        StageRegistryKnows(normalize, model, newId, extracted);
        assert IsKeptClass(normalize, model, newId, extracted, c, y);
        FinalClass(normalize, model, newId, extracted, y);
      case None =>
        y := NewIsCreated(normalize, model, newId, extracted, d);
        FinalClass(normalize, model, newId, extracted, y);
    }
  }

  lemma NewIsCreated(normalize: Normalize, model: Model, newId: NewIds, extracted: seq<Call>, d: Desired)
    returns (y: UmlClass)
    requires d in DesiredClasses(normalize, extracted) && ClassNamed(normalize, model.classes, d.name).None?
    ensures IsCreatedClass(normalize, model, newId, extracted, y) && y.name == d.name
    ensures y.id == IdOf(normalize, StageOf(normalize, model, newId, extracted).registry, d.name)
  {
    var desired, n := DesiredClasses(normalize, extracted), |RemovalCommands(normalize, model, extracted)|;
    DesiredAreDistinct(normalize, extracted);
    hide RemovalCommands, DesiredClasses, SectionStart, ClassNamed, DesiredKeysDistinct, BuiltAttributes, BuiltOperations, AllRegistry,
         RegistryOf, AllSections, LinkCommands;
    var j: nat :| j < |desired| && desired[j] == d;
    y := NewClassOf(newId, SectionStart(normalize, newId, n, model.classes, desired, j), d);
    assert IsNewAt(normalize, newId, n, model.classes, desired, j, y);
    RegistryKnowsNew(normalize, newId, n, model.classes, desired, RegistryOf(normalize, model.classes), j);
  }

  lemma CreatedHasNewName(normalize: Normalize, model: Model, newId: NewIds, extracted: seq<Call>, y: UmlClass)
    requires IsCreatedClass(normalize, model, newId, extracted, y)
    ensures ClassNamed(normalize, model.classes, y.name).None?
  {
    hide RemovalCommands, DesiredClasses, SectionStart, BuiltAttributes, BuiltOperations;
  }

  lemma CreatedByName(normalize: Normalize, model: Model, newId: NewIds, extracted: seq<Call>, y: UmlClass, z: UmlClass)
    requires IsCreatedClass(normalize, model, newId, extracted, y) && IsCreatedClass(normalize, model, newId, extracted, z)
    requires normalize(y.name) == normalize(z.name)
    ensures y == z
  {
    var desired, n := DesiredClasses(normalize, extracted), |RemovalCommands(normalize, model, extracted)|;
    DesiredAreDistinct(normalize, extracted);
    hide RemovalCommands, DesiredClasses, SectionStart, BuiltAttributes, BuiltOperations, ClassNamed;
    var i: nat :| IsNewAt(normalize, newId, n, model.classes, desired, i, y);
    var j: nat :| IsNewAt(normalize, newId, n, model.classes, desired, j, z);
    assert i == j;
  }

  lemma KeptByName(normalize: Normalize, model: Model, newId: NewIds, extracted: seq<Call>, y: UmlClass, z: UmlClass)
    requires ModelIsReady(normalize, model)
    requires IsSurvivor(normalize, model, newId, extracted, y) && IsSurvivor(normalize, model, newId, extracted, z)
    requires normalize(y.name) == normalize(z.name)
    ensures y == z
  {
    hide KeptClass, ClassNamed, ClassIsReady, NoParallels, LinksDistinct, NoDanglingEnds, ClassesDistinct, IsExtracted;
    var a :| IsKeptClass(normalize, model, newId, extracted, a, y);
    var b :| IsKeptClass(normalize, model, newId, extracted, b, z);
    KeptClassId(normalize, model, newId, extracted, a);
    KeptClassId(normalize, model, newId, extracted, b);
    ClassIsNamed(normalize, model.classes, a, y.name);
    ClassIsNamed(normalize, model.classes, b, y.name);
  }

  lemma SurvivorHasOldName(normalize: Normalize, model: Model, newId: NewIds, extracted: seq<Call>, y: UmlClass)
    requires IsSurvivor(normalize, model, newId, extracted, y)
    ensures exists c :: c in model.classes && c.name == y.name
  {
    hide KeptClass, IsExtracted;
    var a :| IsKeptClass(normalize, model, newId, extracted, a, y);
    KeptClassId(normalize, model, newId, extracted, a);
  }

  lemma OldNameIsNamed(normalize: Normalize, classes: seq<UmlClass>, a: string, b: string)
    requires (exists c :: c in classes && c.name == a) && normalize(a) == normalize(b)
    ensures ClassNamed(normalize, classes, b).Some?
  {
  }

  /** No two final classes have the same name. */
  lemma FinalByName(normalize: Normalize, model: Model, newId: NewIds, extracted: seq<Call>, y: UmlClass, z: UmlClass)
    requires ModelIsReady(normalize, model) && IdsAreNew(model, newId)
    requires y in FinalModel(normalize, model, newId, extracted).classes && z in FinalModel(normalize, model, newId, extracted).classes
    requires normalize(y.name) == normalize(z.name)
    ensures y == z
  {
    hide *;
    FinalClass(normalize, model, newId, extracted, y);
    FinalClass(normalize, model, newId, extracted, z);
    if IsSurvivor(normalize, model, newId, extracted, y) {
      SurvivorHasOldName(normalize, model, newId, extracted, y);
      OldNameIsNamed(normalize, model.classes, y.name, z.name);
      if IsCreatedClass(normalize, model, newId, extracted, z) {
        CreatedHasNewName(normalize, model, newId, extracted, z);
      } else {
        KeptByName(normalize, model, newId, extracted, y, z);
      }
    } else {
      CreatedHasNewName(normalize, model, newId, extracted, y);
      if IsSurvivor(normalize, model, newId, extracted, z) {
        SurvivorHasOldName(normalize, model, newId, extracted, z);
        OldNameIsNamed(normalize, model.classes, z.name, y.name);
      } else {
        CreatedByName(normalize, model, newId, extracted, y, z);
      }
    }
  }

  lemma FinalKeysDistinct(normalize: Normalize, model: Model, newId: NewIds, extracted: seq<Call>)
    requires ModelIsReady(normalize, model) && IdsAreNew(model, newId)
    ensures ClassKeysDistinct(normalize, FinalModel(normalize, model, newId, extracted).classes)
  {
    var classes := FinalModel(normalize, model, newId, extracted).classes;
    hide FinalModel, ModelIsReady, IdsAreNew;
    FinalGrows(normalize, model, newId, extracted);
    hide AddCommands, TrimmedModel, GrownAll, Created, UpdatedLinks, AddedLinks, LinksDistinct;
    forall i, j | 0 <= i < j < |classes| ensures normalize(classes[i].name) != normalize(classes[j].name) {
      if normalize(classes[i].name) == normalize(classes[j].name) {
        FinalByName(normalize, model, newId, extracted, classes[i], classes[j]);
      }
    }
  }
}
