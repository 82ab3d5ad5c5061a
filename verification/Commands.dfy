/** The closed set of model commands and their handlers (`uml_commands`). */
module Commands {
  import opened Text
  import opened Uml

  datatype NameUpdate = Unset | SetTo(name: Option<string>)

  datatype Command =
    | AddClass(classId: ElementId, name: string)
    | RemoveClass(classId: ElementId)
    | RenameClass(classId: ElementId, newName: string)
    | AddAttribute(classId: ElementId, attribute: UmlAttribute)
    | RemoveAttribute(classId: ElementId, attributeId: ElementId)
    | AddOperation(classId: ElementId, operation: UmlOperation)
    | RemoveOperation(classId: ElementId, operationId: ElementId)
    | AddRelationship(relationship: Relationship)
    | RemoveRelationship(relationshipId: ElementId)
    | UpdateRelationship(
        relationshipId: ElementId, newLabel: NameUpdate,
        sourceMultiplicity: Option<Multiplicity>, targetMultiplicity: Option<Multiplicity>)
    | SetGenerationProfile(elementId: ElementId, profile: Option<map<string, Json>>)

  // ---- tuples ----------------------------------------------------------

  function Filter<T(!new)>(s: seq<T>, keep: T -> bool): (r: seq<T>)
    ensures forall x :: x in r <==> x in s && keep(x)
  {
    if s == [] then []
    else Filter(s[..|s| - 1], keep) + if keep(s[|s| - 1]) then [s[|s| - 1]] else []
  }

  /** Every class with this id becomes `updated`. */
  function ReplaceClass(classes: seq<UmlClass>, id: ElementId, updated: UmlClass): (r: seq<UmlClass>)
    ensures |r| == |classes|
    ensures forall i :: 0 <= i < |r| ==> r[i] == if classes[i].id == id then updated else classes[i]
  {
    seq(|classes|, i requires 0 <= i < |classes| => if classes[i].id == id then updated else classes[i])
  }

  function ReplaceRelationship(relationships: seq<Relationship>, id: ElementId, updated: Relationship): (r: seq<Relationship>)
    ensures |r| == |relationships|
    ensures forall i :: 0 <= i < |r| ==> r[i] == if relationships[i].id == id then updated else relationships[i]
  {
    seq(|relationships|, i requires 0 <= i < |relationships| =>
      if relationships[i].id == id then updated else relationships[i])
  }

  function RelationshipById(relationships: seq<Relationship>, id: ElementId): (r: Option<Relationship>)
    ensures r.Some? ==> r.value in relationships && r.value.id == id
    ensures r.None? <==> forall x :: x in relationships ==> x.id != id
  {
    if relationships == [] then None
    else if relationships[0].id == id then Some(relationships[0])
    else RelationshipById(relationships[1..], id)
  }

  // ---- generation metadata ---------------------------------------------

  /** The attribute a `defaultSort` names, wherever the entry has that exact shape. */
  function SortTarget(entry: Entry): Option<ElementId> {
    if "profile" in entry && entry["profile"].JObject?
      && "defaultSort" in entry["profile"].fields && entry["profile"].fields["defaultSort"].JObject?
      && "attribute" in entry["profile"].fields["defaultSort"].fields
      && entry["profile"].fields["defaultSort"].fields["attribute"].JString?
    then Some(entry["profile"].fields["defaultSort"].fields["attribute"].s)
    else None
  }

  /** `_without_dangling_default_sort`. */
  function WithoutDanglingSort(entry: Entry, removed: set<ElementId>): Entry {
    var target := SortTarget(entry);
    if target.None? || target.value !in removed then entry
    else
      var remaining := entry["profile"].fields - {"defaultSort"};
      if remaining != map[] then entry["profile" := JObject(remaining)] else entry - {"profile"}
  }

  predicate EntrySurvives(entry: Entry, removed: set<ElementId>) {
    WithoutDanglingSort(entry, removed) == entry || WithoutDanglingSort(entry, removed) != map[]
  }

  /** `prune_generation_metadata`: what is left of the metadata when elements go. */
  function Prune(metadata: Metadata, removed: set<ElementId>): Metadata {
    map id | id in metadata && id !in removed && EntrySurvives(metadata[id], removed) ::
      WithoutDanglingSort(metadata[id], removed)
  }

  method PruneGenerationMetadata(metadata: Metadata, removed: set<ElementId>) returns (r: Metadata)
    ensures r == Prune(metadata, removed)
  {
    var pruned: Metadata := map[];
    var changed := false;
    var pending := metadata.Keys;
    while pending != {}
      invariant pending <= metadata.Keys
      invariant forall id :: id in pruned <==>
        id in metadata && id !in pending && id !in removed && EntrySurvives(metadata[id], removed)
      invariant forall id :: id in pruned ==> pruned[id] == WithoutDanglingSort(metadata[id], removed)
      invariant !changed ==> forall id :: id in metadata && id !in pending ==> id in pruned && pruned[id] == metadata[id]
    {
      var id :| id in pending;
      pending := pending - {id};
      if id in removed {
        changed := true;
        continue;
      }
      var updated := WithoutDanglingSort(metadata[id], removed);
      if updated == metadata[id] {
        pruned := pruned[id := metadata[id]];
        continue;
      }
      changed := true;
      if updated != map[] {
        pruned := pruned[id := updated];
      }
    }
    assert pruned == Prune(metadata, removed);
    return if changed then pruned else metadata;
  }

  /** `set_generation_profile` on the metadata: only the `"profile"` key of one entry changes. */
  function WithProfile(metadata: Metadata, id: ElementId, profile: Option<map<string, Json>>): Metadata {
    var entry: Entry := if id in metadata then metadata[id] else map[];
    var updated := if profile.Some? && profile.value != map[] then entry["profile" := JObject(profile.value)] else entry - {"profile"};
    if updated != map[] then metadata[id := updated] else metadata - {id}
  }

  // ---- handlers --------------------------------------------------------

  function AttributeIds(c: UmlClass): set<ElementId> {
    set a | a in c.attributes :: a.id
  }

  /** The new name of a relationship: `None` and blank both clear it. */
  function UpdatedName(update: NameUpdate, current: Option<string>): Option<string> {
    match update
    case Unset => current
    case SetTo(None) => None
    case SetTo(Some(text)) => if Strip(text) == "" then None else Some(Strip(text))
  }

  function Updated(r: Relationship, update: NameUpdate, source: Option<Multiplicity>, target: Option<Multiplicity>): Relationship {
    var named := r.(name := UpdatedName(update, r.name));
    if r.kind == Generalization then named
    else
      named.(
        source := if source.Some? then r.source.(multiplicity := source.value) else r.source,
        target := if target.Some? then r.target.(multiplicity := target.value) else r.target)
  }

  /** The handlers: pure transforms that leave the model alone when their target is missing. */
  function Handle(model: Model, command: Command): Model {
    match command
    case AddClass(id, name) =>
      model.(classes := model.classes + [UmlClass(id, name, [], [], Public)])
    case RemoveClass(id) =>
      (match ClassById(model.classes, id)
       case None => model
       case Some(c) =>
         model.(
           classes := Filter(model.classes, (x: UmlClass) => x.id != id),
           relationships := Filter(model.relationships, (r: Relationship) => r.source.classId != id && r.target.classId != id),
           metadata := Prune(model.metadata, {id} + AttributeIds(c))))
    case RenameClass(id, name) =>
      (match ClassById(model.classes, id)
       case None => model
       case Some(c) => model.(classes := ReplaceClass(model.classes, id, c.(name := name))))
    case AddAttribute(id, attribute) =>
      (match ClassById(model.classes, id)
       case None => model
       case Some(c) => model.(classes := ReplaceClass(model.classes, id, c.(attributes := c.attributes + [attribute]))))
    case RemoveAttribute(id, attributeId) =>
      (match ClassById(model.classes, id)
       case None => model
       case Some(c) =>
         if !IsAttributeOf(c, attributeId) then model
         else
           var remaining := Filter(c.attributes, (a: UmlAttribute) => a.id != attributeId);
           model.(
             classes := ReplaceClass(model.classes, id, c.(attributes := remaining)),
             metadata := Prune(model.metadata, {attributeId})))
    case AddOperation(id, operation) =>
      (match ClassById(model.classes, id)
       case None => model
       case Some(c) => model.(classes := ReplaceClass(model.classes, id, c.(operations := c.operations + [operation]))))
    case RemoveOperation(id, operationId) =>
      (match ClassById(model.classes, id)
       case None => model
       case Some(c) =>
         if forall o :: o in c.operations ==> o.id != operationId then model
         else
           var remaining := Filter(c.operations, (o: UmlOperation) => o.id != operationId);
           model.(classes := ReplaceClass(model.classes, id, c.(operations := remaining))))
    case AddRelationship(r) => model.(relationships := model.relationships + [r])
    case RemoveRelationship(id) =>
      if RelationshipById(model.relationships, id).None? then model
      else model.(relationships := Filter(model.relationships, (r: Relationship) => r.id != id))
    case UpdateRelationship(id, update, source, target) =>
      (match RelationshipById(model.relationships, id)
       case None => model
       case Some(r) =>
         model.(relationships := ReplaceRelationship(model.relationships, id, Updated(r, update, source, target))))
    case SetGenerationProfile(id, profile) =>
      if !IsClassId(model, id) && !IsAttributeId(model, id) then model
      else model.(metadata := WithProfile(model.metadata, id, profile))
  }
}
