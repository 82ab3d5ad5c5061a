/** Applying the reconciliation of a document against an image extraction yields exactly what
    the image shows, unless a generalization is on both sides. */
module ReconcileTheorems {
  import opened Text
  import opened Seqs
  import opened Uml
  import opened Multiplicities
  import opened Documents
  import opened Calls
  import opened Translator
  import opened Reconcile
  import opened ReconcileMembers
  import opened ReconcileStages
  import opened ReconcileCalls
  import opened ReconcileTrim
  import opened ReconcileGrow
  import opened ReconcileLinks
  import C = Commands

  // ---- what it means to show the extraction ----------------------------

  ghost predicate ClassMatches(normalize: Normalize, c: UmlClass, d: Desired) {
    && SameMembers(normalize, AttributeMembers(c), d.attributes)
    && SameMembers(normalize, OperationMembers(c), d.operations)
  }

  /** The end is a class of this normalized name. */
  predicate EndIs(normalize: Normalize, classes: seq<UmlClass>, id: ElementId, name: string) {
    exists c :: c in classes && c.id == id && normalize(c.name) == normalize(name)
  }

  /** Kind, ends and multiplicities agree; names agree up to blanks around them. */
  ghost predicate LinkMatches(normalize: Normalize, classes: seq<UmlClass>, r: Relationship, link: LinkArguments) {
    && KindText(r.kind) == link.kind
    && EndIs(normalize, classes, r.source.classId, link.sourceName) && EndIs(normalize, classes, r.target.classId, link.targetName)
    && ParseMultiplicity(TextOr(link.source, "0..1")) == Some(r.source.multiplicity)
    && ParseMultiplicity(TextOr(link.target, "0..*")) == Some(r.target.multiplicity)
    && Strip(TextOr(r.name, "")) == Strip(TextOr(link.name, ""))
  }

  /** The classes are exactly the extracted ones, each with its members. */
  ghost predicate ShowsClasses(normalize: Normalize, classes: seq<UmlClass>, desired: seq<Desired>) {
    && ClassKeysDistinct(normalize, classes)
    && (forall c :: c in classes ==> exists d :: d in desired && normalize(d.name) == normalize(c.name) && ClassMatches(normalize, c, d))
    && forall d :: d in desired ==> ClassNamed(normalize, classes, d.name).Some?
  }

  ghost predicate IsExtractedLink(normalize: Normalize, classes: seq<UmlClass>, r: Relationship, links: seq<LinkArguments>) {
    exists link :: link in links && LinkMatches(normalize, classes, r, link)
  }

  ghost predicate HasLink(
      normalize: Normalize, classes: seq<UmlClass>, relationships: seq<Relationship>, link: LinkArguments)
  {
    exists r :: r in relationships && LinkMatches(normalize, classes, r, link)
  }

  /** The relationships are exactly the extracted ones. */
  ghost predicate ShowsLinks(
      normalize: Normalize, classes: seq<UmlClass>, relationships: seq<Relationship>, links: seq<LinkArguments>)
  {
    && NoParallels(relationships)
    && (forall r :: r in relationships ==> IsExtractedLink(normalize, classes, r, links))
    && forall link :: link in links ==> HasLink(normalize, classes, relationships, link)
  }

  /** The model shows exactly the extracted classes, members and relationships. */
  ghost predicate Shows(normalize: Normalize, model: Model, extracted: seq<Call>) {
    && ShowsClasses(normalize, model.classes, DesiredClasses(normalize, extracted))
    && ShowsLinks(normalize, model.classes, model.relationships, DesiredLinks(extracted))
  }

  // ---- the whole translation -------------------------------------------

  /** The addition stage as it starts after the removals. */
  datatype Stage = Stage(start: nat, sections: seq<C.Command>, registry: Registry, links: seq<C.Command>)

  function StageOf(normalize: Normalize, model: Model, newId: NewIds, extracted: seq<Call>): Stage {
    var start := |RemovalCommands(normalize, model, extracted)|;
    var desired := DesiredClasses(normalize, extracted);
    var sections := AllSections(normalize, newId, start, model.classes, desired);
    var registry := AllRegistry(normalize, newId, start, model.classes, desired, RegistryOf(normalize, model.classes));
    Stage(start, sections, registry, LinkCommands(normalize, model, registry, newId, start + |sections|, DesiredLinks(extracted)))
  }

  function AllCommands(normalize: Normalize, model: Model, newId: NewIds, extracted: seq<Call>): seq<C.Command> {
    var stage := StageOf(normalize, model, newId, extracted);
    RemovalCommands(normalize, model, extracted) + (stage.sections + stage.links)
  }

  lemma DesiredNameThemselves(normalize: Normalize, extracted: seq<Call>)
    ensures forall d :: d in DesiredClasses(normalize, extracted) ==> NamesItself(normalize, d)
  {
    var names := DesiredNames(normalize, extracted);
    forall i | 0 <= i < |names| ensures NamesItself(normalize, DesiredClasses(normalize, extracted)[i]) {
      MembersNameTheirClass(normalize, extracted, names[i]);
    }
    hide NamesItself, DesiredNames;
  }

  /** The registry in the end knows every extracted class. */
  lemma {:induction false} RegistryKnowsDesired(
      normalize: Normalize, newId: NewIds, n: nat, classes: seq<UmlClass>, desired: seq<Desired>, registry: Registry)
    requires Knows(normalize, registry, classes)
    ensures Knows(normalize, AllRegistry(normalize, newId, n, classes, desired, registry), classes)
    ensures forall d :: d in desired ==> normalize(d.name) in AllRegistry(normalize, newId, n, classes, desired, registry)
  {
    hide AllSections;
    if desired != [] {
      LastIsMember(desired);
      RegistryKnowsDesired(normalize, newId, n, classes, desired[..|desired| - 1], registry);
    }
  }

  lemma EndsAreResolved(normalize: Normalize, model: Model, newId: NewIds, extracted: seq<Call>, link: LinkArguments)
    requires ModelIsReady(normalize, model) && ExtractionIsReady(normalize, extracted) && link in DesiredLinks(extracted)
    ensures EndsResolve(normalize, StageOf(normalize, model, newId, extracted).registry, link)
  {
    var desired := DesiredClasses(normalize, extracted);
    var start := |RemovalCommands(normalize, model, extracted)|;
    assert LinkIsReady(normalize, desired, link);
    hide RemovalCommands, AllSections, AllRegistry, RegistryOf, DesiredClasses, DesiredLinks, LinkCommands, ExtractionIsReady, NoParallels,
         NoDanglingEnds, ClassIsReady;
    RegistryKnows(normalize, model.classes);
    RegistryKnowsDesired(normalize, newId, start, model.classes, desired, RegistryOf(normalize, model.classes));
  }

  lemma StageRegistryKnows(normalize: Normalize, model: Model, newId: NewIds, extracted: seq<Call>)
    requires ModelIsReady(normalize, model)
    ensures Knows(normalize, StageOf(normalize, model, newId, extracted).registry, model.classes)
    ensures Knows(normalize, RegistryOf(normalize, model.classes), model.classes)
  {
    hide RemovalCommands, AllSections, AllRegistry, RegistryOf, DesiredClasses, DesiredLinks, LinkCommands, NoParallels, NoDanglingEnds, ClassIsReady;
    RegistryKnows(normalize, model.classes);
    RegistryKnowsDesired(normalize, newId, |RemovalCommands(normalize, model, extracted)|, model.classes,
                         DesiredClasses(normalize, extracted), RegistryOf(normalize, model.classes));
  }

  lemma AdditionsAre(normalize: Normalize, model: Model, extracted: seq<Call>)
    requires ModelIsReady(normalize, model)
    ensures Additions(normalize, model, extracted) ==
      Sections(normalize, model.classes, DesiredClasses(normalize, extracted))
      + LinkCalls(normalize, model.classes, model.relationships, DesiredLinks(extracted))
  {
    KeyedClassesAreSame(normalize, model.classes);
    hide KeyedClasses, Sections, LinkCalls, DesiredClasses, DesiredLinks;
  }

  lemma SectionsPart(normalize: Normalize, model: Model, newId: NewIds, extracted: seq<Call>)
    requires ModelIsReady(normalize, model) && ExtractionIsReady(normalize, extracted)
    ensures var stage := StageOf(normalize, model, newId, extracted);
      var removals := RemovalCommands(normalize, model, extracted);
      TranslateAll(normalize, model, newId, Batch(RegistryOf(normalize, model.classes), removals),
                   Sections(normalize, model.classes, DesiredClasses(normalize, extracted)))
      == Ok(Batch(stage.registry, removals + stage.sections))
  {
    hide RemovalCommands, AllSections, AllRegistry, RegistryOf, DesiredClasses, DesiredLinks, LinkCommands, TranslateAll, Sections,
         LinkIsReady, DesiredIsReady, NamesItself, Knows, ParallelLinks, ModelIsReady;
    DesiredNameThemselves(normalize, extracted);
    StageRegistryKnows(normalize, model, newId, extracted);
    SectionsTranslate(normalize, model, newId, Batch(RegistryOf(normalize, model.classes), RemovalCommands(normalize, model, extracted)),
                      model.classes, DesiredClasses(normalize, extracted));
  }

  lemma StageParts(normalize: Normalize, model: Model, newId: NewIds, extracted: seq<Call>)
    ensures var stage := StageOf(normalize, model, newId, extracted);
      && stage.start == |RemovalCommands(normalize, model, extracted)|
      && stage.sections == AllSections(normalize, newId, stage.start, model.classes, DesiredClasses(normalize, extracted))
      && stage.links ==
           LinkCommands(normalize, model, stage.registry, newId, stage.start + |stage.sections|, DesiredLinks(extracted))
  {
    hide RemovalCommands, AllSections, AllRegistry, RegistryOf, DesiredClasses, DesiredLinks, LinkCommands;
  }

  lemma ReadyParts(normalize: Normalize, model: Model, extracted: seq<Call>)
    requires ModelIsReady(normalize, model) && ExtractionIsReady(normalize, extracted)
    ensures NoParallels(model.relationships) && LinksDistinct(model.relationships)
    ensures ClassesDistinct(model.classes) && ClassKeysDistinct(normalize, model.classes)
    ensures forall link :: link in DesiredLinks(extracted) ==> LinkIsReady(normalize, DesiredClasses(normalize, extracted), link)
    ensures forall d :: d in DesiredClasses(normalize, extracted) ==> DesiredIsReady(normalize, d)
    ensures DesiredKeysDistinct(normalize, DesiredClasses(normalize, extracted))
  {
    DesiredAreDistinct(normalize, extracted);
    hide DesiredClasses, DesiredLinks, LinkIsReady, DesiredIsReady, DesiredKeysDistinct, NoParallels, LinksDistinct, ClassesDistinct,
         ClassKeysDistinct, ClassIsReady, NoDanglingEnds, ParallelLinks;
  }

  lemma LinksPart(normalize: Normalize, model: Model, newId: NewIds, extracted: seq<Call>)
    requires ModelIsReady(normalize, model) && ExtractionIsReady(normalize, extracted)
    ensures var stage := StageOf(normalize, model, newId, extracted);
      var before := Batch(stage.registry, RemovalCommands(normalize, model, extracted) + stage.sections);
      TranslateAll(normalize, model, newId, before, LinkCalls(normalize, model.classes, model.relationships, DesiredLinks(extracted)))
      == Ok(Batch(stage.registry, before.commands + stage.links))
  {
    hide *;
    var stage := StageOf(normalize, model, newId, extracted);
    var before := Batch(stage.registry, RemovalCommands(normalize, model, extracted) + stage.sections);
    StageParts(normalize, model, newId, extracted);
    ReadyParts(normalize, model, extracted);
    StageRegistryKnows(normalize, model, newId, extracted);
    forall link | link in DesiredLinks(extracted) ensures EndsResolve(normalize, stage.registry, link) {
      EndsAreResolved(normalize, model, newId, extracted, link);
    }
    LinksTranslate(normalize, model, newId, before, DesiredClasses(normalize, extracted), DesiredLinks(extracted));
  }

  lemma AdditionsTranslate(normalize: Normalize, model: Model, newId: NewIds, extracted: seq<Call>)
    requires ModelIsReady(normalize, model) && ExtractionIsReady(normalize, extracted)
    ensures var stage := StageOf(normalize, model, newId, extracted);
      TranslateAll(normalize, model, newId, Batch(RegistryOf(normalize, model.classes), RemovalCommands(normalize, model, extracted)),
                   Additions(normalize, model, extracted))
      == Ok(Batch(stage.registry, RemovalCommands(normalize, model, extracted) + (stage.sections + stage.links)))
  {
    hide *;
    var stage := StageOf(normalize, model, newId, extracted);
    var removals := RemovalCommands(normalize, model, extracted);
    AdditionsAre(normalize, model, extracted);
    SectionsPart(normalize, model, newId, extracted);
    LinksPart(normalize, model, newId, extracted);
    AppendAssociates(removals, stage.sections, stage.links);
    TwoRuns(normalize, model, newId, Batch(RegistryOf(normalize, model.classes), removals),
            Sections(normalize, model.classes, DesiredClasses(normalize, extracted)),
            LinkCalls(normalize, model.classes, model.relationships, DesiredLinks(extracted)),
            Batch(stage.registry, removals + stage.sections), Batch(stage.registry, (removals + stage.sections) + stage.links));
  }

  /** The plan translates, to these commands. */
  lemma PlanTranslates(normalize: Normalize, model: Model, newId: NewIds, extracted: seq<Call>)
    requires ModelIsReady(normalize, model) && ExtractionIsReady(normalize, extracted)
    ensures TranslateAll(normalize, model, newId, StartBatch(normalize, model), Reconciliation(normalize, model, extracted)) ==
      Ok(Batch(StageOf(normalize, model, newId, extracted).registry, AllCommands(normalize, model, newId, extracted)))
  {
    hide RemovalCommands, StageOf, DesiredClasses, DesiredLinks, TranslateAll, Removals, Additions, RegistryOf, StartBatch, ModelIsReady,
         LinkIsReady, DesiredIsReady, ParallelLinks;
    RemovalsTranslate(normalize, model, newId, extracted);
    AdditionsTranslate(normalize, model, newId, extracted);
    TwoRuns(normalize, model, newId, StartBatch(normalize, model), Removals(normalize, model, extracted), Additions(normalize, model, extracted),
            Batch(RegistryOf(normalize, model.classes), RemovalCommands(normalize, model, extracted)),
            Batch(StageOf(normalize, model, newId, extracted).registry, AllCommands(normalize, model, newId, extracted)));
  }

  // ---- the addition stage meets a trimmed document ---------------------

  lemma {:induction false} SectionKinds(normalize: Normalize, newId: NewIds, n: nat, classes: seq<UmlClass>, desired: seq<Desired>)
    ensures forall k :: k in AllSections(normalize, newId, n, classes, desired) ==> k.AddClass? || k.AddAttribute? || k.AddOperation?
  {
    hide SectionCommands;
    if desired != [] {
      var m := |desired| - 1;
      SectionKinds(normalize, newId, n, classes, desired[..m]);
      OneSectionKinds(normalize, newId, n + |AllSections(normalize, newId, n, classes, desired[..m])|, classes, desired[m]);
    }
  }

  lemma OneSectionKinds(normalize: Normalize, newId: NewIds, n: nat, classes: seq<UmlClass>, d: Desired)
    ensures forall k :: k in SectionCommands(normalize, newId, n, classes, d) ==> k.AddClass? || k.AddAttribute? || k.AddOperation?
  {
    hide MemberAdditions, Missing, AttributeMembers, OperationMembers;
    match ClassNamed(normalize, classes, d.name) {
      case None => MemberAdditionKinds(newId, n + 1, newId(n), d.attributes, d.operations);
      case Some(c) =>
        MemberAdditionKinds(newId, n, c.id, Missing(normalize, AttributeMembers(c), d.attributes),
                            Missing(normalize, OperationMembers(c), d.operations));
    }
  }

  lemma StageKinds(normalize: Normalize, model: Model, newId: NewIds, extracted: seq<Call>)
    ensures var stage := StageOf(normalize, model, newId, extracted);
      && (forall k :: k in stage.sections ==> k.AddClass? || k.AddAttribute? || k.AddOperation?)
      && (forall k :: k in stage.links ==> IsLinkCommand(k))
  {
    hide AllSections, LinkCommands, IsLinkCommand, RemovalCommands, DesiredClasses, DesiredLinks, AllRegistry, RegistryOf;
    var stage := StageOf(normalize, model, newId, extracted);
    SectionKinds(normalize, newId, stage.start, model.classes, DesiredClasses(normalize, extracted));
    LinkCommandKinds(normalize, model, stage.registry, newId, stage.start + |stage.sections|, DesiredLinks(extracted));
  }

  /** The additions create the new classes and add the unmatched links. */
  lemma StageCreates(normalize: Normalize, model: Model, newId: NewIds, extracted: seq<Call>)
    requires IdsAreNew(model, newId)
    ensures var stage := StageOf(normalize, model, newId, extracted);
      && Created(stage.sections + stage.links) ==
           NewClasses(normalize, newId, stage.start, model.classes, DesiredClasses(normalize, extracted))
      && AddedLinks(stage.sections + stage.links) == AddedLinks(stage.links)
  {
    var stage := StageOf(normalize, model, newId, extracted);
    StageKinds(normalize, model, newId, extracted);
    StageParts(normalize, model, newId, extracted);
    hide Created, AddedLinks, NewClasses, AllSections, LinkCommands, StageOf, GrownAll, RemovalCommands, DesiredClasses, DesiredLinks, IsLinkCommand;
    CreatedConcat(stage.sections, stage.links);
    SectionsCreate(normalize, newId, stage.start, model.classes, DesiredClasses(normalize, extracted));
    LinksGrowNoClass(Created(stage.sections), stage.links);
    LinkKindsAddNoClass(stage.links);
    AddedConcat(stage.sections, stage.links);
    NoneAdded(stage.sections);
  }

  lemma LinkKindsAddNoClass(commands: seq<C.Command>)
    requires forall k :: k in commands ==> IsLinkCommand(k)
    ensures Created(commands) == []
  {
    forall k | k in commands ensures !k.AddClass? {
      assert IsLinkCommand(k);
    }
    hide Created;
    MembersCreateNothing(commands);
  }

  lemma {:induction false} FilteredLinksDistinct(relationships: seq<Relationship>, keep: Relationship -> bool)
    requires LinksDistinct(relationships)
    ensures LinksDistinct(C.Filter(relationships, keep))
  {
    if relationships != [] {
      var n := |relationships| - 1;
      FilteredLinksDistinct(relationships[..n], keep);
      var front := C.Filter(relationships[..n], keep);
      forall r | r in front ensures r.id != relationships[n].id {
        assert r in relationships[..n];
        var j :| 0 <= j < n && relationships[j] == r;
      }
      LinksDistinctAppend(front, if keep(relationships[n]) then [relationships[n]] else []);
    }
  }

  lemma {:induction false} FilteredNoParallels(relationships: seq<Relationship>, keep: Relationship -> bool)
    requires NoParallels(relationships)
    ensures NoParallels(C.Filter(relationships, keep))
  {
    if relationships != [] {
      var n := |relationships| - 1;
      FilteredNoParallels(relationships[..n], keep);
      var front := C.Filter(relationships[..n], keep);
      forall r | r in front ensures !SameLink(r, relationships[n]) {
        assert r in relationships[..n];
        var j :| 0 <= j < n && relationships[j] == r;
      }
      NoParallelsAppend(front, if keep(relationships[n]) then [relationships[n]] else []);
    }
  }

  lemma NoParallelsAppend(front: seq<Relationship>, last: seq<Relationship>)
    requires NoParallels(front) && |last| <= 1 && forall r, x :: r in front && x in last ==> !SameLink(r, x)
    ensures NoParallels(front + last)
  {
    var whole := front + last;
    forall i, j | 0 <= i < j < |whole| ensures !SameLink(whole[i], whole[j]) {
      if j == |front| {
        assert whole[i] in front && whole[j] in last;
      }
    }
    hide SameLink;
  }

  lemma DistinctTogether(a: seq<UmlClass>, b: seq<UmlClass>)
    requires ClassesDistinct(a) && ClassesDistinct(b) && forall x, y :: x in a && y in b ==> x.id != y.id
    ensures ClassesDistinct(a + b)
  {
    var whole := a + b;
    forall i, j | 0 <= i < j < |whole| ensures whole[i].id != whole[j].id {
      if i < |a| <= j {
        assert whole[i] in a && whole[j] in b;
      }
    }
  }

  lemma LinksDistinctTogether(a: seq<Relationship>, b: seq<Relationship>)
    requires LinksDistinct(a) && LinksDistinct(b) && forall x, y :: x in a && y in b ==> x.id != y.id
    ensures LinksDistinct(a + b)
  {
    var whole := a + b;
    forall i, j | 0 <= i < j < |whole| ensures whole[i].id != whole[j].id {
      if i < |a| <= j {
        assert whole[i] in a && whole[j] in b;
      }
    }
  }

  /** What is left after the removals, class by class and relationship by relationship. */
  lemma Trimmed(normalize: Normalize, model: Model, extracted: seq<Call>)
    requires ModelIsReady(normalize, model)
    ensures var commands := RemovalCommands(normalize, model, extracted);
      var after := AfterAll(model, commands);
      && after.classes == TrimClasses(model.classes, commands) && after.relationships == TrimLinks(model.relationships, commands)
      && ClassesDistinct(after.classes) && LinksDistinct(after.relationships) && NoParallels(after.relationships)
      && (forall x :: x in after.classes <==>
            exists c :: c in model.classes && C.RemoveClass(c.id) !in commands && x == TrimClass(c, commands))
      && (forall r :: r in after.relationships <==> r in model.relationships && LinkStays(r, commands))
  {
    var commands := RemovalCommands(normalize, model, extracted);
    RemovalsRemove(normalize, model, extracted);
    hide RemovalCommands, AfterAll, TrimClasses, TrimClass, ClassesDistinct, LinksDistinct, NoParallels, LinkStays, NoDanglingEnds,
         ClassIsReady, ClassKeysDistinct, RemovesFrom;
    RemovalsTrim(model, commands);
    TrimmedIds(model.classes, commands);
    FilteredLinksDistinct(model.relationships, (r: Relationship) => LinkStays(r, commands));
    FilteredNoParallels(model.relationships, (r: Relationship) => LinkStays(r, commands));
  }

  lemma TrimmedClassId(normalize: Normalize, model: Model, extracted: seq<Call>, x: UmlClass)
    requires ModelIsReady(normalize, model)
    requires x in AfterAll(model, RemovalCommands(normalize, model, extracted)).classes
    ensures exists c :: c in model.classes && c.id == x.id && c.name == x.name
  {
    Trimmed(normalize, model, extracted);
    var commands := RemovalCommands(normalize, model, extracted);
    hide RemovalCommands, AfterAll, TrimClass, ModelIsReady;
    var c :| c in model.classes && C.RemoveClass(c.id) !in commands && x == TrimClass(c, commands);
    TrimKeepsId(c, commands);
  }

  /** The update of a matched link. */
  ghost predicate IsUpdateFor(normalize: Normalize, model: Model, link: LinkArguments, k: C.Command) {
    && k.UpdateRelationship? && k.sourceMultiplicity.Some?
    && CurrentOf(normalize, model.classes, model.relationships, link).Some?
    && CurrentOf(normalize, model.classes, model.relationships, link).value.id == k.relationshipId
  }

  lemma UpdatesAreOld(normalize: Normalize, model: Model, registry: Registry, newId: NewIds, n: nat, links: seq<LinkArguments>, k: C.Command)
    requires k in LinkCommands(normalize, model, registry, newId, n, links) && k.UpdateRelationship?
    ensures exists link :: link in links && IsUpdateFor(normalize, model, link, k)
  {
    hide CurrentOf, AddedLink, NameChange, SourceOf, TargetOf;
    var i :| 0 <= i < |links| && k == LinkCommand(normalize, model, registry, newId(n + i), links[i]);
    assert links[i] in links;
  }

  /** The updates among the additions are those of matched links. */
  lemma StageUpdate(normalize: Normalize, model: Model, newId: NewIds, extracted: seq<Call>, k: C.Command)
    requires var stage := StageOf(normalize, model, newId, extracted);
      k in stage.sections + stage.links && k.UpdateRelationship?
    ensures exists link :: link in DesiredLinks(extracted) && IsUpdateFor(normalize, model, link, k)
  {
    var stage := StageOf(normalize, model, newId, extracted);
    StageKinds(normalize, model, newId, extracted);
    StageParts(normalize, model, newId, extracted);
    hide StageOf, RemovalCommands, DesiredClasses, DesiredLinks, AllSections, LinkCommands, IsUpdateFor, IsLinkCommand;
    assert k in stage.links;
    UpdatesAreOld(normalize, model, stage.registry, newId, stage.start + |stage.sections|, DesiredLinks(extracted), k);
  }

  lemma ClassesFit(normalize: Normalize, model: Model, newId: NewIds, extracted: seq<Call>)
    requires ModelIsReady(normalize, model) && IdsAreNew(model, newId)
    ensures var stage := StageOf(normalize, model, newId, extracted);
      ClassesDistinct(AfterAll(model, RemovalCommands(normalize, model, extracted)).classes + Created(stage.sections + stage.links))
  {
    var stage := StageOf(normalize, model, newId, extracted);
    var desired := DesiredClasses(normalize, extracted);
    var after := AfterAll(model, RemovalCommands(normalize, model, extracted));
    StageParts(normalize, model, newId, extracted);
    StageCreates(normalize, model, newId, extracted);
    Trimmed(normalize, model, extracted);
    NewClassesElsewhere(normalize, newId, stage.start, model.classes, desired);
    NewClassIds(normalize, newId, stage.start, model.classes, desired);
    hide RemovalCommands, StageOf, AfterAll, DesiredClasses, NewClasses, AllSections, Created, AddedLinks, ClassesDistinct,
         LinksDistinct, NoParallels, TrimClasses, TrimLinks, TrimClass, LinkStays, ModelIsReady;
    forall x | x in after.classes ensures exists c :: c in model.classes && c.id == x.id {
      TrimmedClassId(normalize, model, extracted, x);
    }
    DistinctTogether(after.classes, Created(stage.sections + stage.links));
  }

  ghost predicate IsNewId(newId: NewIds, id: ElementId) {
    exists i :: id == newId(i)
  }

  /** What the additions add has new ids, each its own. */
  lemma StageAdded(normalize: Normalize, model: Model, newId: NewIds, extracted: seq<Call>)
    requires IdsAreNew(model, newId)
    ensures var added := AddedLinks(StageOf(normalize, model, newId, extracted).sections + StageOf(normalize, model, newId, extracted).links);
      LinksDistinct(added) && forall r :: r in added ==> IsNewId(newId, r.id)
  {
    hide StageOf, AddedLinks, LinkCommands, IsAdded, LinksDistinct, IsNewId, AllSections, RemovalCommands, DesiredLinks, DesiredClasses;
    var stage := StageOf(normalize, model, newId, extracted);
    StageParts(normalize, model, newId, extracted);
    StageCreates(normalize, model, newId, extracted);
    var links, n := DesiredLinks(extracted), stage.start + |stage.sections|;
    AddedAre(normalize, model, stage.registry, newId, n, links);
    forall r | r in AddedLinks(stage.links) ensures IsNewId(newId, r.id) {
      AddedHasNewId(normalize, model, stage.registry, newId, n, links, r);
    }
  }

  lemma OldIsNotNew(model: Model, newId: NewIds, r: Relationship, id: ElementId)
    requires IdsAreNew(model, newId) && r in model.relationships && IsNewId(newId, id)
    ensures r.id != id
  {
  }

  lemma LinksFit(normalize: Normalize, model: Model, newId: NewIds, extracted: seq<Call>)
    requires ModelIsReady(normalize, model) && IdsAreNew(model, newId)
    ensures var stage := StageOf(normalize, model, newId, extracted);
      NewLinks(AfterAll(model, RemovalCommands(normalize, model, extracted)).relationships, stage.sections + stage.links)
  {
    hide RemovalCommands, StageOf, AfterAll, AddedLinks, LinksDistinct, NoParallels, TrimClasses, TrimLinks, TrimClass, LinkStays,
         ModelIsReady, IsNewId, IdsAreNew, ClassesDistinct;
    var stage := StageOf(normalize, model, newId, extracted);
    var kept := AfterAll(model, RemovalCommands(normalize, model, extracted)).relationships;
    var added := AddedLinks(stage.sections + stage.links);
    StageAdded(normalize, model, newId, extracted);
    Trimmed(normalize, model, extracted);
    forall r, x | r in kept && x in added ensures r.id != x.id {
      OldIsNotNew(model, newId, r, x.id);
    }
    LinksDistinctTogether(kept, added);
  }

  /** No update touches an added relationship. */
  lemma UpdatesFit(normalize: Normalize, model: Model, newId: NewIds, extracted: seq<Call>, k: C.Command, r: Relationship)
    requires IdsAreNew(model, newId)
    requires var stage := StageOf(normalize, model, newId, extracted);
      k in stage.sections + stage.links && k.UpdateRelationship? && r in AddedLinks(stage.sections + stage.links)
    ensures k.relationshipId != r.id
  {
    hide StageOf, AddedLinks, LinksDistinct, IsNewId, IdsAreNew, CurrentOf, DesiredLinks;
    StageAdded(normalize, model, newId, extracted);
    StageUpdate(normalize, model, newId, extracted, k);
    var link :| link in DesiredLinks(extracted) && IsUpdateFor(normalize, model, link, k);
    OldIsNotNew(model, newId, CurrentOf(normalize, model.classes, model.relationships, link).value, r.id);
  }

  /** The additions add to the trimmed document: everything they add is new to it. */
  lemma AdditionsFit(normalize: Normalize, model: Model, newId: NewIds, extracted: seq<Call>)
    requires ModelIsReady(normalize, model) && IdsAreNew(model, newId)
    ensures var stage := StageOf(normalize, model, newId, extracted);
      var after := AfterAll(model, RemovalCommands(normalize, model, extracted));
      AddsTo(after, stage.sections + stage.links) && NewLinks(after.relationships, stage.sections + stage.links)
  {
    var stage := StageOf(normalize, model, newId, extracted);
    hide RemovalCommands, StageOf, AfterAll, Created, AddedLinks, ClassesDistinct, LinksDistinct, NoParallels, TrimClasses, TrimLinks,
         TrimClass, LinkStays, IsAddition, ModelIsReady, NewLinks, IdsAreNew, IsLinkCommand;
    ClassesFit(normalize, model, newId, extracted);
    LinksFit(normalize, model, newId, extracted);
    Trimmed(normalize, model, extracted);
    StageKinds(normalize, model, newId, extracted);
    AllAreAdditions(stage);
    forall k, r | k in stage.sections + stage.links && k.UpdateRelationship? && r in AddedLinks(stage.sections + stage.links)
      ensures k.relationshipId != r.id
    {
      UpdatesFit(normalize, model, newId, extracted, k, r);
    }
  }

  lemma AddedHasNewId(
      normalize: Normalize, model: Model, registry: Registry, newId: NewIds, n: nat, links: seq<LinkArguments>, r: Relationship)
    requires IsAdded(normalize, model, registry, newId, n, links, r)
    ensures IsNewId(newId, r.id)
  {
    hide CurrentOf, SourceOf, TargetOf, IdOf, KindOr;
    var i: nat :| IsAddedBy(normalize, model, registry, newId, n, links, i, r);
    assert r.id == newId(n + i);
  }

  lemma AllAreAdditions(stage: Stage)
    requires forall x :: x in stage.sections ==> x.AddClass? || x.AddAttribute? || x.AddOperation?
    requires forall x :: x in stage.links ==> IsLinkCommand(x)
    ensures forall x :: x in stage.sections + stage.links ==> IsAddition(x)
  {
    forall x | x in stage.sections + stage.links ensures IsAddition(x) {
      assert x in stage.links ==> IsLinkCommand(x);
    }
  }
}
