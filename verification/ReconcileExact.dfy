/** Confirming a reconciliation yields exactly the extracted classes, members and relationships,
    and fails exactly when an extracted generalization is already in the document. */
module ReconcileExact {
  import opened Text
  import opened Uml
  import opened Multiplicities
  import opened Calls
  import opened Documents
  import opened DocumentRows
  import opened Translator
  import opened Reconcile
  import opened ReconcileStages
  import opened ReconcileCalls
  import opened ReconcileTrim
  import opened ReconcileGrow
  import opened ReconcileLinks
  import opened ReconcileTheorems
  import opened ReconcileShows
  import opened ReconcileOutcome
  import C = Commands

  // ---- the final relationships -----------------------------------------

  /** The relationship that shows a link: the updated match, or the added one. */
  function FinalLink(normalize: Normalize, model: Model, newId: NewIds, extracted: seq<Call>, i: nat): Relationship
    requires i < |DesiredLinks(extracted)|
  {
    var stage := StageOf(normalize, model, newId, extracted);
    var link := DesiredLinks(extracted)[i];
    match CurrentOf(normalize, model.classes, model.relationships, link)
    case Some(r) => UpdatedBy(link, r)
    case None => AddedLink(normalize, stage.registry, newId(stage.start + |stage.sections| + i), link)
  }

  ghost predicate IsFinalLink(normalize: Normalize, model: Model, newId: NewIds, extracted: seq<Call>, i: nat, r: Relationship) {
    i < |DesiredLinks(extracted)| && r == FinalLink(normalize, model, newId, extracted, i)
  }

  /** A relationship is matched by one link at most. */
  lemma OneMatch(normalize: Normalize, model: Model, extracted: seq<Call>, i: nat, j: nat, r: Relationship)
    requires ModelIsReady(normalize, model) && ExtractionIsReady(normalize, extracted)
    requires i < |DesiredLinks(extracted)| && j < |DesiredLinks(extracted)|
    requires CurrentOf(normalize, model.classes, model.relationships, DesiredLinks(extracted)[i]) == Some(r)
    requires CurrentOf(normalize, model.classes, model.relationships, DesiredLinks(extracted)[j]) == Some(r)
    ensures i == j
  {
    var links := DesiredLinks(extracted);
    assert !ParallelLinks(normalize, links[i], links[j]) || i == j;
    hide ModelIsReady, ExtractionIsReady, DesiredLinks, NoParallels, LinksDistinct, ClassKeysDistinct, ClassesDistinct, FirstBetween,
         ClassNamed, LinkIsReady;
    ReadyParts(normalize, model, extracted);
    SameClass(model.classes, ClassNamed(normalize, model.classes, links[i].sourceName).value,
              ClassNamed(normalize, model.classes, links[j].sourceName).value);
    SameClass(model.classes, ClassNamed(normalize, model.classes, links[i].targetName).value,
              ClassNamed(normalize, model.classes, links[j].targetName).value);
  }

  /** What the additions make of a matched relationship. */
  lemma MatchedIsUpdatedOnce(
      normalize: Normalize, model: Model, newId: NewIds, extracted: seq<Call>, i: nat, r: Relationship)
    requires ModelIsReady(normalize, model) && ExtractionIsReady(normalize, extracted)
    requires i < |DesiredLinks(extracted)| && r in model.relationships
    requires CurrentOf(normalize, model.classes, model.relationships, DesiredLinks(extracted)[i]) == Some(r)
    ensures UpdatedLink(r, AddCommands(normalize, model, newId, extracted)) == FinalLink(normalize, model, newId, extracted, i)
  {
    var stage, links := StageOf(normalize, model, newId, extracted), DesiredLinks(extracted);
    hide StageOf, DesiredLinks, ModelIsReady, ExtractionIsReady, CurrentOf, UpdatedLink, UpdatedBy, LinkCommands, IsLinkCommand, AddedLink,
         RemovalCommands, AllSections, DesiredClasses;
    ReadyParts(normalize, model, extracted);
    hide NoParallels, LinksDistinct, ClassKeysDistinct, ClassesDistinct, LinkIsReady, DesiredIsReady, DesiredKeysDistinct;
    StageParts(normalize, model, newId, extracted);
    StageKinds(normalize, model, newId, extracted);
    UpdatedConcat(r, stage.sections, stage.links);
    NotUpdated(r, stage.sections);
    forall j | 0 <= j < |links| && j != i ensures CurrentOf(normalize, model.classes, model.relationships, links[j]) != Some(r) {
      if CurrentOf(normalize, model.classes, model.relationships, links[j]) == Some(r) {
        OneMatch(normalize, model, extracted, i, j, r);
      }
    }
    UpdatedOnce(normalize, model, stage.registry, newId, stage.start + |stage.sections|, links, r, i);
  }

  lemma MatchIndex(normalize: Normalize, model: Model, links: seq<LinkArguments>, r: Relationship)
    returns (i: nat)
    requires LinksDistinct(model.relationships) && r in model.relationships
    requires IsMatched(normalize, model.classes, model.relationships, links, r.id)
    ensures i < |links| && CurrentOf(normalize, model.classes, model.relationships, links[i]) == Some(r)
  {
    hide CurrentOf, LinksDistinct;
    var link :| link in links && IsMatchedBy(normalize, model.classes, model.relationships, link, r.id);
    i :| 0 <= i < |links| && links[i] == link;
    SameRelationship(model.relationships, CurrentOf(normalize, model.classes, model.relationships, link).value, r);
  }

  lemma TrimmedIsOld(normalize: Normalize, model: Model, extracted: seq<Call>, r: Relationship)
    requires ModelIsReady(normalize, model) && r in TrimmedModel(normalize, model, extracted).relationships
    ensures r in model.relationships && LinkStays(r, RemovalCommands(normalize, model, extracted))
  {
    Trimmed(normalize, model, extracted);
    hide ModelIsReady, RemovalCommands, AfterAll, LinkStays, TrimClass, TrimClasses, TrimLinks, ClassesDistinct, LinksDistinct, NoParallels;
  }

  /** The link that keeps a relationship of the document. */
  lemma MatchOf(normalize: Normalize, model: Model, extracted: seq<Call>, r: Relationship)
    returns (i: nat)
    requires ModelIsReady(normalize, model) && ExtractionIsReady(normalize, extracted)
    requires r in TrimmedModel(normalize, model, extracted).relationships
    ensures r in model.relationships && i < |DesiredLinks(extracted)|
    ensures CurrentOf(normalize, model.classes, model.relationships, DesiredLinks(extracted)[i]) == Some(r)
  {
    hide *;
    TrimmedIsOld(normalize, model, extracted, r);
    ReadyParts(normalize, model, extracted);
    LinkStaysIfMatched(normalize, model, extracted, r);
    i := MatchIndex(normalize, model, DesiredLinks(extracted), r);
  }

  lemma UpdatedMember(relationships: seq<Relationship>, commands: seq<C.Command>, x: Relationship)
    ensures x in UpdatedLinks(relationships, commands) <==> exists r :: r in relationships && x == UpdatedLink(r, commands)
  {
    hide UpdatedLink;
    if x in UpdatedLinks(relationships, commands) {
      var i :| 0 <= i < |relationships| && UpdatedLinks(relationships, commands)[i] == x;
      assert relationships[i] in relationships;
    }
    forall r | r in relationships ensures UpdatedLink(r, commands) in UpdatedLinks(relationships, commands) {
      var i :| 0 <= i < |relationships| && relationships[i] == r;
      assert UpdatedLinks(relationships, commands)[i] == UpdatedLink(r, commands);
    }
  }

  ghost predicate IsMatchedLink(normalize: Normalize, model: Model, extracted: seq<Call>, i: nat) {
    i < |DesiredLinks(extracted)| && CurrentOf(normalize, model.classes, model.relationships, DesiredLinks(extracted)[i]).Some?
  }

  /** Updated relationships are those of matched links. */
  lemma UpdatedIsMatched(normalize: Normalize, model: Model, newId: NewIds, extracted: seq<Call>, x: Relationship)
    requires ModelIsReady(normalize, model) && ExtractionIsReady(normalize, extracted)
    ensures x in UpdatedLinks(TrimmedModel(normalize, model, extracted).relationships, AddCommands(normalize, model, newId, extracted)) <==>
      exists i: nat :: IsMatchedLink(normalize, model, extracted, i) && IsFinalLink(normalize, model, newId, extracted, i, x)
  {
    var trimmed, adds := TrimmedModel(normalize, model, extracted).relationships, AddCommands(normalize, model, newId, extracted);
    hide TrimmedModel, AddCommands, ModelIsReady, ExtractionIsReady, CurrentOf, DesiredLinks, FinalLink, UpdatedLinks, UpdatedLink;
    UpdatedMember(trimmed, adds, x);
    if r :| r in trimmed && x == UpdatedLink(r, adds) {
      var i := MatchOf(normalize, model, extracted, r);
      MatchedIsUpdatedOnce(normalize, model, newId, extracted, i, r);
      assert IsMatchedLink(normalize, model, extracted, i) && IsFinalLink(normalize, model, newId, extracted, i, x);
    }
    if i: nat :| IsMatchedLink(normalize, model, extracted, i) && IsFinalLink(normalize, model, newId, extracted, i, x) {
      var link := DesiredLinks(extracted)[i];
      assert link in DesiredLinks(extracted);
      MatchedStays(normalize, model, extracted, link);
      MatchedIsUpdatedOnce(normalize, model, newId, extracted, i, CurrentOf(normalize, model.classes, model.relationships, link).value);
    }
  }

  lemma UnmatchedIsAdded(normalize: Normalize, model: Model, newId: NewIds, extracted: seq<Call>, i: nat, x: Relationship)
    ensures var stage := StageOf(normalize, model, newId, extracted);
      IsAddedBy(normalize, model, stage.registry, newId, stage.start + |stage.sections|, DesiredLinks(extracted), i, x) <==>
        !IsMatchedLink(normalize, model, extracted, i) && IsFinalLink(normalize, model, newId, extracted, i, x)
  {
    hide StageOf, DesiredLinks, CurrentOf, AddedLink, UpdatedBy;
  }

  lemma AddedIsUnmatched(normalize: Normalize, model: Model, newId: NewIds, extracted: seq<Call>, x: Relationship)
    requires IdsAreNew(model, newId)
    ensures x in AddedLinks(AddCommands(normalize, model, newId, extracted)) <==>
      exists i: nat :: !IsMatchedLink(normalize, model, extracted, i) && IsFinalLink(normalize, model, newId, extracted, i, x)
  {
    hide StageOf, DesiredLinks, AddedLinks, LinkCommands, LinksDistinct, Created, NewClasses, AllSections, RemovalCommands,
         DesiredClasses, IsAddedBy, IsMatchedLink, IsFinalLink;
    var stage, links := StageOf(normalize, model, newId, extracted), DesiredLinks(extracted);
    var n := stage.start + |stage.sections|;
    StageParts(normalize, model, newId, extracted);
    StageCreates(normalize, model, newId, extracted);
    AddedAre(normalize, model, stage.registry, newId, n, links);
    if IsAdded(normalize, model, stage.registry, newId, n, links, x) {
      var i: nat :| IsAddedBy(normalize, model, stage.registry, newId, n, links, i, x);
      UnmatchedIsAdded(normalize, model, newId, extracted, i, x);
    }
    if i: nat :| !IsMatchedLink(normalize, model, extracted, i) && IsFinalLink(normalize, model, newId, extracted, i, x) {
      UnmatchedIsAdded(normalize, model, newId, extracted, i, x);
    }
  }

  /** One final relationship for each link, and no other. */
  lemma FinalLinks(normalize: Normalize, model: Model, newId: NewIds, extracted: seq<Call>, x: Relationship)
    requires ModelIsReady(normalize, model) && ExtractionIsReady(normalize, extracted) && IdsAreNew(model, newId)
    ensures x in FinalModel(normalize, model, newId, extracted).relationships <==>
      exists i: nat :: IsFinalLink(normalize, model, newId, extracted, i, x)
  {
    hide *;
    FinalGrows(normalize, model, newId, extracted);
    UpdatedIsMatched(normalize, model, newId, extracted, x);
    AddedIsUnmatched(normalize, model, newId, extracted, x);
  }

  // ---- each final relationship shows its link --------------------------

  /** A changed name is stripped, so the names agree up to blanks. */
  lemma UpdatedNameAgrees(link: LinkArguments, r: Relationship)
    ensures Strip(TextOr(UpdatedBy(link, r).name, "")) == Strip(TextOr(link.name, ""))
  {
    if link.name.Some? {
      StripTwice(link.name.value);
    }
    assert Strip("") == "";
    hide StripLeft, StripRight, Strip, SourceOf, TargetOf;
  }

  lemma KeptEnd(normalize: Normalize, model: Model, newId: NewIds, extracted: seq<Call>, name: string)
    requires ModelIsReady(normalize, model) && ExtractionIsReady(normalize, extracted) && IdsAreNew(model, newId)
    requires IsExtracted(normalize, extracted, name)
    ensures EndIs(normalize, FinalModel(normalize, model, newId, extracted).classes,
                  IdOf(normalize, StageOf(normalize, model, newId, extracted).registry, name), name)
    ensures var c := ClassNamed(normalize, model.classes, name);
      c.Some? ==> EndIs(normalize, FinalModel(normalize, model, newId, extracted).classes, c.value.id, name)
  {
    var d := DesiredNamed(normalize, DesiredClasses(normalize, extracted), name).value;
    hide FinalModel, ModelIsReady, ExtractionIsReady, IdsAreNew, StageOf, DesiredClasses, DesiredNamed;
    var y := NameIsFinal(normalize, model, newId, extracted, d);
    SameNameSameClass(normalize, model.classes, d.name, name);
  }

  lemma {:induction false} SameNameSameClass(normalize: Normalize, classes: seq<UmlClass>, a: string, b: string)
    requires normalize(a) == normalize(b)
    ensures ClassNamed(normalize, classes, a) == ClassNamed(normalize, classes, b)
  {
    if classes != [] {
      SameNameSameClass(normalize, classes[1..], a, b);
    }
  }

  lemma LinkParts(normalize: Normalize, desired: seq<Desired>, link: LinkArguments)
    requires LinkIsReady(normalize, desired, link)
    ensures DesiredNamed(normalize, desired, link.sourceName).Some? && DesiredNamed(normalize, desired, link.targetName).Some?
    ensures KindText(KindOr(link.kind)) == link.kind
    ensures ParseMultiplicity(TextOr(link.source, "0..1")) == Some(SourceOf(link))
    ensures ParseMultiplicity(TextOr(link.target, "0..*")) == Some(TargetOf(link))
  {
    hide ParseMultiplicity, DesiredNamed, KindText;
  }

  /** The parts of a final relationship. */
  lemma MatchedParts(link: LinkArguments, r: Relationship)
    requires r.kind != Generalization
    ensures var u := UpdatedBy(link, r);
      u.kind == r.kind && u.source.classId == r.source.classId && u.target.classId == r.target.classId
      && u.source.multiplicity == SourceOf(link) && u.target.multiplicity == TargetOf(link)
  {
    hide SourceOf, TargetOf, NameChange, C.UpdatedName;
  }

  lemma CurrentParts(normalize: Normalize, model: Model, link: LinkArguments)
    requires CurrentOf(normalize, model.classes, model.relationships, link).Some?
    ensures var r := CurrentOf(normalize, model.classes, model.relationships, link).value;
      var source, target := ClassNamed(normalize, model.classes, link.sourceName), ClassNamed(normalize, model.classes, link.targetName);
      && source.Some? && source.value.id == r.source.classId && target.Some? && target.value.id == r.target.classId
      && KindText(r.kind) == link.kind
  {
    hide ClassNamed, FirstBetween, KindText;
  }

  lemma FinalLinkMatches(normalize: Normalize, model: Model, newId: NewIds, extracted: seq<Call>, i: nat)
    requires ModelIsReady(normalize, model) && ExtractionIsReady(normalize, extracted) && IdsAreNew(model, newId)
    requires !MatchesGeneralization(normalize, model, extracted) && i < |DesiredLinks(extracted)|
    ensures LinkMatches(normalize, FinalModel(normalize, model, newId, extracted).classes,
                        FinalLink(normalize, model, newId, extracted, i), DesiredLinks(extracted)[i])
  {
    var link := DesiredLinks(extracted)[i];
    assert link in DesiredLinks(extracted);
    hide FinalModel, ModelIsReady, ExtractionIsReady, IdsAreNew, StageOf, DesiredClasses, DesiredLinks, DesiredNamed, EndIs, LinkIsReady,
         CurrentOf, UpdatedBy, SourceOf, TargetOf, KindOr, IdOf, KindText, ParseMultiplicity, Strip, TextOr;
    ReadyParts(normalize, model, extracted);
    hide NoParallels, LinksDistinct, ClassKeysDistinct, ClassesDistinct, DesiredIsReady, DesiredKeysDistinct;
    LinkParts(normalize, DesiredClasses(normalize, extracted), link);
    KeptEnd(normalize, model, newId, extracted, link.sourceName);
    KeptEnd(normalize, model, newId, extracted, link.targetName);
    match CurrentOf(normalize, model.classes, model.relationships, link) {
      case Some(r) =>
        assert !IsMatchedGeneralization(normalize, model, link);
        CurrentParts(normalize, model, link);
        MatchedParts(link, r);
        UpdatedNameAgrees(link, r);
      case None =>
    }
  }

  // ---- no parallels ----------------------------------------------------

  lemma SameEnd(normalize: Normalize, classes: seq<UmlClass>, id: ElementId, a: string, b: string)
    requires ClassesDistinct(classes) && EndIs(normalize, classes, id, a) && EndIs(normalize, classes, id, b)
    ensures normalize(a) == normalize(b)
  {
    var x :| x in classes && x.id == id && normalize(x.name) == normalize(a);
    var y :| y in classes && y.id == id && normalize(y.name) == normalize(b);
    SameClass(classes, x, y);
  }

  /** Relationships that share kind and ends show parallel links. */
  lemma SameLinkParallel(
      normalize: Normalize, classes: seq<UmlClass>, r: Relationship, x: Relationship, a: LinkArguments, b: LinkArguments)
    requires ClassesDistinct(classes) && LinkMatches(normalize, classes, r, a) && LinkMatches(normalize, classes, x, b) && SameLink(r, x)
    ensures ParallelLinks(normalize, a, b)
  {
    hide EndIs, ClassesDistinct, KindText, ParseMultiplicity, Strip, TextOr;
    SameEnd(normalize, classes, r.source.classId, a.sourceName, b.sourceName);
    SameEnd(normalize, classes, r.target.classId, a.targetName, b.targetName);
  }

  lemma NotParallel(normalize: Normalize, extracted: seq<Call>, i: nat, j: nat)
    requires ExtractionIsReady(normalize, extracted)
    requires i < |DesiredLinks(extracted)| && j < |DesiredLinks(extracted)|
    requires ParallelLinks(normalize, DesiredLinks(extracted)[i], DesiredLinks(extracted)[j])
    ensures i == j
  {
    hide DesiredLinks, DesiredClasses, LinkIsReady, DesiredIsReady;
  }

  lemma FinalSameLink(normalize: Normalize, model: Model, newId: NewIds, extracted: seq<Call>, r: Relationship, x: Relationship)
    requires ModelIsReady(normalize, model) && ExtractionIsReady(normalize, extracted) && IdsAreNew(model, newId)
    requires !MatchesGeneralization(normalize, model, extracted)
    requires r in FinalModel(normalize, model, newId, extracted).relationships
    requires x in FinalModel(normalize, model, newId, extracted).relationships && SameLink(r, x)
    ensures r == x
  {
    hide FinalModel, ModelIsReady, ExtractionIsReady, IdsAreNew, MatchesGeneralization, DesiredLinks, FinalLink, LinkMatches, SameLink,
         ParallelLinks;
    FinalLinks(normalize, model, newId, extracted, r);
    FinalLinks(normalize, model, newId, extracted, x);
    var i: nat :| IsFinalLink(normalize, model, newId, extracted, i, r);
    var j: nat :| IsFinalLink(normalize, model, newId, extracted, j, x);
    FinalLinkMatches(normalize, model, newId, extracted, i);
    FinalLinkMatches(normalize, model, newId, extracted, j);
    FinalClassesDistinct(normalize, model, newId, extracted);
    SameLinkParallel(normalize, FinalModel(normalize, model, newId, extracted).classes, r, x, DesiredLinks(extracted)[i], DesiredLinks(extracted)[j]);
    NotParallel(normalize, extracted, i, j);
  }

  lemma FinalClassesDistinct(normalize: Normalize, model: Model, newId: NewIds, extracted: seq<Call>)
    requires ModelIsReady(normalize, model) && IdsAreNew(model, newId)
    ensures ClassesDistinct(FinalModel(normalize, model, newId, extracted).classes)
    ensures LinksDistinct(FinalModel(normalize, model, newId, extracted).relationships)
  {
    hide *;
    FinalGrows(normalize, model, newId, extracted);
  }

  lemma FinalHasNoParallels(normalize: Normalize, model: Model, newId: NewIds, extracted: seq<Call>)
    requires ModelIsReady(normalize, model) && ExtractionIsReady(normalize, extracted) && IdsAreNew(model, newId)
    requires !MatchesGeneralization(normalize, model, extracted)
    ensures NoParallels(FinalModel(normalize, model, newId, extracted).relationships)
  {
    hide FinalModel, ModelIsReady, ExtractionIsReady, IdsAreNew, MatchesGeneralization, SameLink, ClassesDistinct;
    var relationships := FinalModel(normalize, model, newId, extracted).relationships;
    FinalClassesDistinct(normalize, model, newId, extracted);
    forall i, j | 0 <= i < j < |relationships| ensures !SameLink(relationships[i], relationships[j]) {
      if SameLink(relationships[i], relationships[j]) {
        FinalSameLink(normalize, model, newId, extracted, relationships[i], relationships[j]);
      }
    }
  }

  // ---- the theorem -----------------------------------------------------

  lemma FinalShowsLinks(normalize: Normalize, model: Model, newId: NewIds, extracted: seq<Call>)
    requires ModelIsReady(normalize, model) && ExtractionIsReady(normalize, extracted) && IdsAreNew(model, newId)
    requires !MatchesGeneralization(normalize, model, extracted)
    ensures var final := FinalModel(normalize, model, newId, extracted);
      ShowsLinks(normalize, final.classes, final.relationships, DesiredLinks(extracted))
  {
    hide FinalModel, ModelIsReady, ExtractionIsReady, IdsAreNew, MatchesGeneralization, DesiredLinks, FinalLink, LinkMatches, NoParallels;
    var final, links := FinalModel(normalize, model, newId, extracted), DesiredLinks(extracted);
    FinalHasNoParallels(normalize, model, newId, extracted);
    forall r | r in final.relationships ensures IsExtractedLink(normalize, final.classes, r, links) {
      FinalLinks(normalize, model, newId, extracted, r);
      var i: nat :| IsFinalLink(normalize, model, newId, extracted, i, r);
      FinalLinkMatches(normalize, model, newId, extracted, i);
      assert links[i] in links;
    }
    forall link | link in links ensures HasLink(normalize, final.classes, final.relationships, link) {
      var i: nat :| i < |links| && links[i] == link;
      var r := FinalLink(normalize, model, newId, extracted, i);
      assert IsFinalLink(normalize, model, newId, extracted, i, r);
      FinalLinks(normalize, model, newId, extracted, r);
      FinalLinkMatches(normalize, model, newId, extracted, i);
    }
  }

  lemma FinalShowsClasses(normalize: Normalize, model: Model, newId: NewIds, extracted: seq<Call>)
    requires ModelIsReady(normalize, model) && ExtractionIsReady(normalize, extracted) && IdsAreNew(model, newId)
    ensures ShowsClasses(normalize, FinalModel(normalize, model, newId, extracted).classes, DesiredClasses(normalize, extracted))
  {
    hide FinalModel, ModelIsReady, ExtractionIsReady, IdsAreNew, ClassMatches, DesiredClasses, StageOf, IdOf, ClassKeysDistinct;
    var final, desired := FinalModel(normalize, model, newId, extracted), DesiredClasses(normalize, extracted);
    FinalKeysDistinct(normalize, model, newId, extracted);
    forall c | c in final.classes
      ensures exists d :: d in desired && normalize(d.name) == normalize(c.name) && ClassMatches(normalize, c, d)
    {
      EveryClassIsShown(normalize, model, newId, extracted, c);
      var d :| IsShown(normalize, extracted, c, d);
    }
    forall d | d in desired ensures ClassNamed(normalize, final.classes, d.name).Some? {
      var y := NameIsFinal(normalize, model, newId, extracted, d);
    }
  }

  lemma FinalShows(normalize: Normalize, model: Model, newId: NewIds, extracted: seq<Call>)
    requires ModelIsReady(normalize, model) && ExtractionIsReady(normalize, extracted) && IdsAreNew(model, newId)
    requires !MatchesGeneralization(normalize, model, extracted)
    ensures Shows(normalize, FinalModel(normalize, model, newId, extracted), extracted)
  {
    hide FinalModel, ModelIsReady, ExtractionIsReady, IdsAreNew, DesiredClasses, DesiredLinks, MatchesGeneralization, ShowsClasses, ShowsLinks;
    FinalShowsClasses(normalize, model, newId, extracted);
    FinalShowsLinks(normalize, model, newId, extracted);
  }

  /** Confirming the plan of an extraction: the calls translate; the batch is accepted exactly
      when no extracted generalization is already in the document; and then the document shows
      exactly the extraction. */
  lemma ConfirmedPlanShowsTheImage(normalize: Normalize, doc: Document, newId: NewIds, extracted: seq<Call>)
    requires ModelIsReady(normalize, doc.model) && ExtractionIsReady(normalize, extracted) && IdsAreNew(doc.model, newId)
    ensures var plan := TranslateAll(normalize, doc.model, newId, StartBatch(normalize, doc.model),
                                     Reconciliation(normalize, doc.model, extracted));
      && plan.Ok?
      && var outcome := SubmitEach(doc, plan.value.commands);
         && (outcome.Ok? <==> !MatchesGeneralization(normalize, doc.model, extracted))
         && (outcome.Ok? ==> Shows(normalize, outcome.value.model, extracted))
  {
    hide *;
    PlanTranslates(normalize, doc.model, newId, extracted);
    var commands := AllCommands(normalize, doc.model, newId, extracted);
    SubmitsAll(doc, commands);
    BatchPasses(normalize, doc.model, newId, extracted);
    FinalIsAfterAll(normalize, doc.model, newId, extracted);
    if !MatchesGeneralization(normalize, doc.model, extracted) {
      FinalShows(normalize, doc.model, newId, extracted);
    }
  }

  lemma FinalIsAfterAll(normalize: Normalize, model: Model, newId: NewIds, extracted: seq<Call>)
    ensures FinalModel(normalize, model, newId, extracted) == AfterAll(model, AllCommands(normalize, model, newId, extracted))
  {
    hide AfterAll, AllCommands;
  }
}
