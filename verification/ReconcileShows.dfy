/** The document after a whole reconciliation shows the extraction. */
module ReconcileShows {
  import opened Text
  import opened Uml
  import opened Documents
  import opened Calls
  import opened Translator
  import opened Reconcile
  import opened ReconcileStages
  import opened ReconcileCalls
  import opened ReconcileTrim
  import opened ReconcileGrow
  import opened ReconcileLinks
  import opened ReconcileTheorems
  import C = Commands

  // ---- the gates -------------------------------------------------------

  /** An extracted generalization that is already in the document. */
  predicate MatchesGeneralization(normalize: Normalize, model: Model, extracted: seq<Call>) {
    exists link :: link in DesiredLinks(extracted) && IsMatchedGeneralization(normalize, model, link)
  }

  predicate IsMatchedGeneralization(normalize: Normalize, model: Model, link: LinkArguments) {
    var current := CurrentOf(normalize, model.classes, model.relationships, link);
    current.Some? && current.value.kind == Generalization
  }

  /** The model after the removal stage. */
  function TrimmedModel(normalize: Normalize, model: Model, extracted: seq<Call>): Model {
    AfterAll(model, RemovalCommands(normalize, model, extracted))
  }

  lemma RelationshipIsFound(relationships: seq<Relationship>, r: Relationship)
    requires LinksDistinct(relationships) && r in relationships
    ensures C.RelationshipById(relationships, r.id) == Some(r)
  {
    var found := C.RelationshipById(relationships, r.id).value;
    SameRelationship(relationships, r, found);
  }

  /** The relationship of a matched link is there when its update comes. */
  lemma MatchedStays(normalize: Normalize, model: Model, extracted: seq<Call>, link: LinkArguments)
    requires ModelIsReady(normalize, model) && ExtractionIsReady(normalize, extracted) && link in DesiredLinks(extracted)
    requires CurrentOf(normalize, model.classes, model.relationships, link).Some?
    ensures var r := CurrentOf(normalize, model.classes, model.relationships, link).value;
      && r in model.relationships && r in TrimmedModel(normalize, model, extracted).relationships
      && C.RelationshipById(TrimmedModel(normalize, model, extracted).relationships, r.id) == Some(r)
  {
    hide RemovalCommands, DesiredLinks, AfterAll, LinkStays, TrimClasses, TrimLinks, ClassesDistinct, LinksDistinct, NoParallels, CurrentOf,
         ModelIsReady, ExtractionIsReady;
    var r := CurrentOf(normalize, model.classes, model.relationships, link).value;
    assert IsMatchedBy(normalize, model.classes, model.relationships, link, r.id);
    LinkStaysIfMatched(normalize, model, extracted, r);
    Trimmed(normalize, model, extracted);
    RelationshipIsFound(TrimmedModel(normalize, model, extracted).relationships, r);
  }

  lemma StageUpdateFound(normalize: Normalize, model: Model, newId: NewIds, extracted: seq<Call>, k: C.Command)
    requires ModelIsReady(normalize, model) && ExtractionIsReady(normalize, extracted)
    requires var stage := StageOf(normalize, model, newId, extracted);
      k in stage.sections + stage.links && k.UpdateRelationship?
    ensures C.RelationshipById(TrimmedModel(normalize, model, extracted).relationships, k.relationshipId).Some?
    ensures k.sourceMultiplicity.Some?
    ensures C.RelationshipById(TrimmedModel(normalize, model, extracted).relationships, k.relationshipId).value.kind == Generalization ==>
      MatchesGeneralization(normalize, model, extracted)
  {
    hide StageOf, DesiredLinks, CurrentOf, TrimmedModel, C.RelationshipById, ModelIsReady, ExtractionIsReady;
    StageUpdate(normalize, model, newId, extracted, k);
    var link :| link in DesiredLinks(extracted) && IsUpdateFor(normalize, model, link, k);
    MatchedStays(normalize, model, extracted, link);
  }

  /** Every matched link has its update among the additions. */
  lemma MatchedIsUpdated(normalize: Normalize, model: Model, newId: NewIds, extracted: seq<Call>, link: LinkArguments)
    requires link in DesiredLinks(extracted) && CurrentOf(normalize, model.classes, model.relationships, link).Some?
    ensures var stage := StageOf(normalize, model, newId, extracted);
      exists k :: k in stage.sections + stage.links && IsUpdateFor(normalize, model, link, k)
  {
    var stage := StageOf(normalize, model, newId, extracted);
    var links := DesiredLinks(extracted);
    StageParts(normalize, model, newId, extracted);
    hide StageOf, RemovalCommands, DesiredClasses, DesiredLinks, AllSections, CurrentOf, NameChange, SourceOf, TargetOf, AddedLink;
    var i :| 0 <= i < |links| && links[i] == link;
    var k := stage.links[i];
    assert k in stage.links;
    assert IsUpdateFor(normalize, model, link, k);
  }

  lemma UpdateOfGeneralization(normalize: Normalize, model: Model, newId: NewIds, extracted: seq<Call>)
    returns (k: C.Command)
    requires ModelIsReady(normalize, model) && ExtractionIsReady(normalize, extracted)
    requires MatchesGeneralization(normalize, model, extracted)
    ensures var stage := StageOf(normalize, model, newId, extracted);
      k in stage.sections + stage.links && k.UpdateRelationship?
    ensures C.RelationshipById(TrimmedModel(normalize, model, extracted).relationships, k.relationshipId).Some?
    ensures C.RelationshipById(TrimmedModel(normalize, model, extracted).relationships, k.relationshipId).value.kind == Generalization
  {
    hide StageOf, DesiredLinks, CurrentOf, TrimmedModel, C.RelationshipById, ModelIsReady, ExtractionIsReady;
    var link :| link in DesiredLinks(extracted) && IsMatchedGeneralization(normalize, model, link);
    MatchedStays(normalize, model, extracted, link);
    MatchedIsUpdated(normalize, model, newId, extracted, link);
    var stage := StageOf(normalize, model, newId, extracted);
    k :| k in stage.sections + stage.links && IsUpdateFor(normalize, model, link, k);
  }

  lemma RemovalsAreUngated(normalize: Normalize, model: Model, extracted: seq<Call>)
    ensures GatesPass(model, RemovalCommands(normalize, model, extracted))
  {
    hide RemovalCommands, GatesPass;
    RemovalsRemove(normalize, model, extracted);
    forall k | k in RemovalCommands(normalize, model, extracted) ensures !IsGated(k) {
      assert IsRemoval(k);
    }
    UngatedPass(model, RemovalCommands(normalize, model, extracted));
  }

  /** The whole batch passes the write gates exactly when no extracted generalization is
      already in the document. */
  lemma BatchPasses(normalize: Normalize, model: Model, newId: NewIds, extracted: seq<Call>)
    requires ModelIsReady(normalize, model) && ExtractionIsReady(normalize, extracted) && IdsAreNew(model, newId)
    ensures GatesPass(model, AllCommands(normalize, model, newId, extracted)) <==> !MatchesGeneralization(normalize, model, extracted)
  {
    hide RemovalCommands, StageOf, GatesPass, AfterAll, AddsTo, NewLinks, ModelIsReady, ExtractionIsReady, IdsAreNew, MatchesGeneralization,
         C.RelationshipById;
    var stage := StageOf(normalize, model, newId, extracted);
    var additions := stage.sections + stage.links;
    var trimmed := TrimmedModel(normalize, model, extracted);
    RemovalsAreUngated(normalize, model, extracted);
    GatesConcat(model, RemovalCommands(normalize, model, extracted), additions);
    AdditionsFit(normalize, model, newId, extracted);
    forall k | k in additions ensures UpdatesKnown(trimmed, k) {
      if k.UpdateRelationship? {
        StageUpdateFound(normalize, model, newId, extracted, k);
      }
    }
    forall k | k in additions && UpdatesGeneralization(trimmed, k) ensures MatchesGeneralization(normalize, model, extracted) {
      StageUpdateFound(normalize, model, newId, extracted, k);
    }
    AdditionsPass(trimmed, additions);
    if MatchesGeneralization(normalize, model, extracted) {
      var k := UpdateOfGeneralization(normalize, model, newId, extracted);
    }
  }
}
