/** What every run of accepted writes keeps: live, parsing generation metadata and no dangling ends. */
module DocumentRuns {
  import opened Text
  import opened Uml
  import opened Profiles
  import opened Mapper
  import opened Commands
  import opened Documents
  import opened DocumentRows

  // ---- ids -------------------------------------------------------------

  ghost predicate AttributeListDistinct(attributes: seq<UmlAttribute>) {
    forall k, l :: 0 <= k < l < |attributes| ==> attributes[k].id != attributes[l].id
  }

  ghost predicate OwnAttributesDistinct(c: UmlClass) {
    AttributeListDistinct(c.attributes)
  }

  /** An attribute id belongs to one attribute of one class. */
  ghost predicate AttributesDistinct(classes: seq<UmlClass>) {
    && (forall c :: c in classes ==> OwnAttributesDistinct(c))
    && (forall c, d, id :: c in classes && d in classes && IsAttributeOf(c, id) && IsAttributeOf(d, id) ==> c == d)
  }

  /** Ids of classes and attributes are distinct, and no id is both. */
  ghost predicate IdsDistinct(model: Model) {
    && ClassesDistinct(model.classes) && AttributesDistinct(model.classes)
    && forall id :: IsClassId(model, id) ==> !IsAttributeId(model, id)
  }

  /** Distinct ids in a document are distinct ids of a model to be mapped. */
  lemma IdsStayDistinctForMapping(model: Model)
    requires IdsDistinct(model)
    ensures DistinctClassIds(model) && DistinctAttributeIds(model)
  {
    forall i, k, l | 0 <= i < |model.classes| && 0 <= k < l < |model.classes[i].attributes|
      ensures model.classes[i].attributes[k].id != model.classes[i].attributes[l].id
    {
      assert OwnAttributesDistinct(model.classes[i]);
    }
  }

  /** The id a command introduces is new to the model. */
  ghost predicate IsFresh(model: Model, command: Command) {
    match command
    case AddClass(id, _) => !IsClassId(model, id) && !IsAttributeId(model, id)
    case AddAttribute(_, a) => !IsClassId(model, a.id) && !IsAttributeId(model, a.id)
    case _ => true
  }

  // ---- metadata --------------------------------------------------------

  /** The `defaultSort` of a class-level entry names an attribute of the model. */
  ghost predicate SortIsLive(model: Model, entry: Entry) {
    var parsed := ParseTableProfile(JObject(entry));
    parsed.Ok? && parsed.value.Some? && parsed.value.value.defaultSort.Some? ==>
      IsAttributeId(model, parsed.value.value.defaultSort.value.attributeId)
  }

  ghost predicate EntryIsGood(model: Model, id: ElementId, entry: Entry) {
    if IsClassId(model, id) then ParseTableProfile(JObject(entry)).Ok? && SortIsLive(model, entry)
    else IsAttributeId(model, id) && ParseColumnProfile(JObject(entry)).Ok?
  }

  /** Every key is a live element, its entry parses at its level, and its sort attribute is live. */
  ghost predicate MetadataIsGood(model: Model) {
    forall id :: id in model.metadata ==> EntryIsGood(model, id, model.metadata[id])
  }

  /** The parsers read nothing but the `"profile"` key. */
  lemma ParsersReadProfileOnly(a: Entry, b: Entry)
    requires "profile" in a <==> "profile" in b
    requires "profile" in a ==> a["profile"] == b["profile"]
    ensures ParseTableProfile(JObject(a)) == ParseTableProfile(JObject(b))
    ensures ParseColumnProfile(JObject(a)) == ParseColumnProfile(JObject(b))
  {
  }

  /** A parsed sort is found where the pruning step looks for it. */
  lemma SortTargetOfParsed(entry: Entry)
    ensures var parsed := ParseTableProfile(JObject(entry));
      parsed.Ok? && parsed.value.Some? && parsed.value.value.defaultSort.Some? ==>
        SortTarget(entry) == Some(parsed.value.value.defaultSort.value.attributeId)
    ensures ParseColumnProfile(JObject(entry)).Ok? ==> SortTarget(entry).None?
  {
    if "profile" in entry && entry["profile"].JObject? {
      var body := entry["profile"].fields;
      assert "defaultSort" !in COLUMN_KEYS;
      if "defaultSort" in body {
        assert ParseColumnProfile(JObject(entry)).Err?;
      }
    }
  }

  /** Clearing the sort of a parsing table profile leaves a parsing profile without a sort. */
  lemma UnsortedParses(entry: Entry, removed: set<ElementId>)
    requires ParseTableProfile(JObject(entry)).Ok?
    ensures var parsed := ParseTableProfile(JObject(WithoutDanglingSort(entry, removed)));
      && parsed.Ok?
      && (WithoutDanglingSort(entry, removed) != entry ==> parsed.value.None? || parsed.value.value.defaultSort.None?)
  {
    var target := SortTarget(entry);
    if target.Some? && target.value in removed {
      var body := entry["profile"].fields;
      var remaining := body - {"defaultSort"};
      var pruned := WithoutDanglingSort(entry, removed);
      if remaining != map[] {
        assert pruned["profile"] == JObject(remaining);
        ParseWithoutSort(body, remaining);
        assert ProfileBody(JObject(entry), TABLE_KEYS) == Ok(Some(body));
        assert ProfileBody(JObject(pruned), TABLE_KEYS) == Ok(Some(remaining));
      } else {
        assert "profile" !in pruned;
      }
    }
  }

  lemma ParseWithoutSort(body: map<string, Json>, remaining: map<string, Json>)
    requires remaining == body - {"defaultSort"}
    ensures ParseBoolean(remaining, "entity") == ParseBoolean(body, "entity")
    ensures ParseBoolean(remaining, "auditable") == ParseBoolean(body, "auditable")
    ensures ParseBoolean(remaining, "readOnly") == ParseBoolean(body, "readOnly")
    ensures ParseCrud(remaining) == ParseCrud(body)
    ensures ParseDefaultSort(remaining) == Ok(None)
  {
  }

  // ---- one command: ids ------------------------------------------------

  lemma {:induction false} FilterKeepsDistinct(classes: seq<UmlClass>, keep: UmlClass -> bool)
    requires ClassesDistinct(classes)
    ensures ClassesDistinct(Filter(classes, keep))
  {
    if classes != [] {
      var n := |classes| - 1;
      FilterKeepsDistinct(classes[..n], keep);
      var front := Filter(classes[..n], keep);
      forall i | 0 <= i < |front| ensures front[i].id != classes[n].id {
        assert front[i] in classes[..n];
        var j :| 0 <= j < n && classes[j] == front[i];
      }
    }
  }

  lemma {:induction false} FilterKeepsOwnDistinct(attributes: seq<UmlAttribute>, keep: UmlAttribute -> bool)
    requires AttributeListDistinct(attributes)
    ensures AttributeListDistinct(Filter(attributes, keep))
  {
    if attributes != [] {
      var n := |attributes| - 1;
      FilterKeepsOwnDistinct(attributes[..n], keep);
      var front := Filter(attributes[..n], keep);
      forall i | 0 <= i < |front| ensures front[i].id != attributes[n].id {
        assert front[i] in attributes[..n];
        var j :| 0 <= j < n && attributes[j] == front[i];
      }
    }
  }

  /** The classes after replacing the one with this id. */
  lemma ReplacedMembers(classes: seq<UmlClass>, id: ElementId, updated: UmlClass)
    requires updated.id == id && ClassById(classes, id).Some?
    ensures forall c :: c in ReplaceClass(classes, id, updated) <==> c == updated || (c in classes && c.id != id)
    ensures ClassesDistinct(classes) ==> ClassesDistinct(ReplaceClass(classes, id, updated))
  {
    var after := ReplaceClass(classes, id, updated);
    var old_ := ClassById(classes, id).value;
    var k :| 0 <= k < |classes| && classes[k] == old_;
    assert after[k] == updated;
    forall c | c in classes && c.id != id ensures c in after {
      var i :| 0 <= i < |classes| && classes[i] == c;
      assert after[i] == c;
    }
  }

  /** Replacing a class by one with the same attribute ids, or some of them, or one new id. */
  lemma ReplaceKeepsIds(model: Model, id: ElementId, c: UmlClass, updated: UmlClass, after: Model)
    requires IdsDistinct(model) && ClassById(model.classes, id) == Some(c) && updated.id == id
    requires OwnAttributesDistinct(updated) && after.classes == ReplaceClass(model.classes, id, updated)
    requires forall x :: IsAttributeOf(updated, x) ==> IsAttributeOf(c, x) || (!IsClassId(model, x) && !IsAttributeId(model, x))
    ensures IdsDistinct(after)
    ensures forall x :: IsClassId(after, x) <==> IsClassId(model, x)
    ensures forall x :: IsAttributeId(after, x) <==> (IsAttributeId(model, x) && !IsAttributeOf(c, x)) || IsAttributeOf(updated, x)
  {
    ReplacedMembers(model.classes, id, updated);
    assert c in model.classes;
    forall x ensures IsClassId(after, x) <==> IsClassId(model, x) {
      assert updated in after.classes;
      if IsClassId(model, x) && x != id {
        var d :| d in model.classes && d.id == x;
        assert d in after.classes;
      }
    }
    forall x ensures IsAttributeId(after, x) <==> (IsAttributeId(model, x) && !IsAttributeOf(c, x)) || IsAttributeOf(updated, x) {
      assert updated in after.classes;
      if IsAttributeId(model, x) && !IsAttributeOf(c, x) {
        var d :| d in model.classes && IsAttributeOf(d, x);
        ClassByIdUnique(model.classes, c);
        OnlyClass(model.classes, c, d);
        assert d in after.classes;
      }
      if IsAttributeId(after, x) && !IsAttributeOf(updated, x) {
        var d :| d in after.classes && IsAttributeOf(d, x);
        assert d in model.classes && d.id != id;
        assert IsAttributeOf(c, x) ==> c == d;
      }
    }
    AttributesStayDistinct(model, id, c, updated, after);
  }

  lemma OnlyClass(classes: seq<UmlClass>, c: UmlClass, d: UmlClass)
    requires ClassesDistinct(classes) && c in classes && d in classes
    ensures c.id == d.id ==> c == d
  {
    var i :| 0 <= i < |classes| && classes[i] == c;
    var j :| 0 <= j < |classes| && classes[j] == d;
  }

  lemma AttributesStayDistinct(model: Model, id: ElementId, c: UmlClass, updated: UmlClass, after: Model)
    requires IdsDistinct(model) && ClassById(model.classes, id) == Some(c) && updated.id == id
    requires OwnAttributesDistinct(updated) && after.classes == ReplaceClass(model.classes, id, updated)
    requires forall x :: IsAttributeOf(updated, x) ==> IsAttributeOf(c, x) || (!IsClassId(model, x) && !IsAttributeId(model, x))
    ensures AttributesDistinct(after.classes)
  {
    ReplacedMembers(model.classes, id, updated);
    forall d, e, x | d in after.classes && e in after.classes && IsAttributeOf(d, x) && IsAttributeOf(e, x)
      ensures d == e
    {
      if d == updated && e != updated {
        NoSharedAttribute(model, c, e, x);
      } else if e == updated && d != updated {
        NoSharedAttribute(model, c, d, x);
      }
    }
  }

  lemma NoSharedAttribute(model: Model, c: UmlClass, e: UmlClass, x: ElementId)
    requires IdsDistinct(model) && c in model.classes && e in model.classes && c.id != e.id && IsAttributeOf(e, x)
    ensures IsAttributeId(model, x) && !IsAttributeOf(c, x)
  {
  }

  /** Removing one class removes its id and its attributes' ids, and nothing else. */
  lemma RemoveKeepsIds(model: Model, c: UmlClass, after: Model)
    requires IdsDistinct(model) && ClassById(model.classes, c.id) == Some(c)
    requires after.classes == Filter(model.classes, (x: UmlClass) => x.id != c.id)
    ensures IdsDistinct(after)
    ensures forall x :: IsClassId(after, x) <==> IsClassId(model, x) && x != c.id
    ensures forall x :: IsAttributeId(after, x) <==> IsAttributeId(model, x) && !IsAttributeOf(c, x)
  {
    FilterKeepsDistinct(model.classes, (x: UmlClass) => x.id != c.id);
    assert c in model.classes;
    forall x ensures IsAttributeId(after, x) <==> IsAttributeId(model, x) && !IsAttributeOf(c, x) {
      if IsAttributeId(model, x) && !IsAttributeOf(c, x) {
        var d :| d in model.classes && IsAttributeOf(d, x);
        OnlyClass(model.classes, c, d);
        assert d in after.classes;
      }
      if IsAttributeId(after, x) {
        var d :| d in after.classes && IsAttributeOf(d, x);
        NoSharedAttribute(model, c, d, x);
      }
    }
    forall x ensures IsClassId(after, x) <==> IsClassId(model, x) && x != c.id {
      if IsClassId(model, x) && x != c.id {
        var d :| d in model.classes && d.id == x;
        assert d in after.classes;
      }
    }
  }

  lemma AddClassKeepsIds(model: Model, id: ElementId, name: string)
    requires IdsDistinct(model) && !IsClassId(model, id) && !IsAttributeId(model, id)
    ensures var after := Handle(model, AddClass(id, name));
      && IdsDistinct(after)
      && (forall x :: IsClassId(after, x) <==> IsClassId(model, x) || x == id)
      && (forall x :: IsAttributeId(after, x) <==> IsAttributeId(model, x))
  {
    var after := Handle(model, AddClass(id, name));
    var added := UmlClass(id, name, [], [], Public);
    assert forall c :: c in after.classes <==> c in model.classes || c == added;
    assert added in after.classes;
    forall x ensures IsClassId(after, x) <==> IsClassId(model, x) || x == id {
      if IsClassId(model, x) {
        var d :| d in model.classes && d.id == x;
        assert d in after.classes;
      }
    }
    forall x ensures IsAttributeId(after, x) <==> IsAttributeId(model, x) {
      if IsAttributeId(model, x) {
        var d :| d in model.classes && IsAttributeOf(d, x);
        assert d in after.classes;
      }
    }
  }

  // ---- one command: metadata -------------------------------------------

  /** Metadata stays good when its keys keep their level and no attribute disappears. */
  lemma MetadataFrame(model: Model, after: Model)
    requires MetadataIsGood(model) && after.metadata == model.metadata
    requires forall id :: id in model.metadata ==> (IsClassId(after, id) <==> IsClassId(model, id))
    requires forall id :: IsAttributeId(model, id) ==> IsAttributeId(after, id)
    ensures MetadataIsGood(after)
  {
    hide IsClassId, IsAttributeId, ParseTableProfile, ParseColumnProfile;
    forall id | id in after.metadata ensures EntryIsGood(after, id, after.metadata[id]) {
      assert EntryIsGood(model, id, model.metadata[id]);
    }
  }

  /** Pruning repairs the metadata when exactly the removed ids disappear. */
  lemma PruneKeepsGood(model: Model, after: Model, removed: set<ElementId>)
    requires MetadataIsGood(model) && after.metadata == Prune(model.metadata, removed)
    requires forall id :: id !in removed ==> (IsClassId(after, id) <==> IsClassId(model, id))
    requires forall id :: id !in removed ==> (IsAttributeId(after, id) <==> IsAttributeId(model, id))
    ensures MetadataIsGood(after)
  {
    hide IsClassId, IsAttributeId, ParseTableProfile, ParseColumnProfile, WithoutDanglingSort, SortTarget;
    forall id | id in after.metadata ensures EntryIsGood(after, id, after.metadata[id]) {
      var entry := model.metadata[id];
      assert EntryIsGood(model, id, entry);
      PrunedEntryIsGood(model, after, removed, id, entry);
    }
  }

  lemma PrunedEntryIsGood(model: Model, after: Model, removed: set<ElementId>, id: ElementId, entry: Entry)
    requires EntryIsGood(model, id, entry) && id !in removed
    requires IsClassId(after, id) <==> IsClassId(model, id)
    requires forall x :: x !in removed ==> (IsAttributeId(after, x) <==> IsAttributeId(model, x))
    ensures EntryIsGood(after, id, WithoutDanglingSort(entry, removed))
  {
    hide IsClassId, IsAttributeId, ParseTableProfile, ParseColumnProfile;
    SortTargetOfParsed(entry);
    if IsClassId(model, id) {
      UnsortedParses(entry, removed);
    }
  }

  /** The entry holds the given profile afterwards, or none when it was cleared; other entries stay. */
  lemma WithProfileEntries(metadata: Metadata, id: ElementId, profile: Option<map<string, Json>>)
    ensures var after := WithProfile(metadata, id, profile);
      && (id in after ==>
            ("profile" in after[id] <==> profile.Some? && profile.value != map[])
            && ("profile" in after[id] ==> after[id]["profile"] == JObject(profile.value)))
      && forall x :: x != id ==> (x in after <==> x in metadata) && (x in after ==> after[x] == metadata[x])
  {
  }

  lemma ParseOfCleared(entry: Entry)
    requires "profile" !in entry
    ensures ParseTableProfile(JObject(entry)) == Ok(None) && ParseColumnProfile(JObject(entry)) == Ok(None)
  {
  }

  /** A profile the gate accepts is good where the handler puts it. */
  lemma AcceptedEntryIsGood(model: Model, id: ElementId, profile: Option<map<string, Json>>, entry: Entry)
    requires ProfileGate(model, id, profile).None?
    requires "profile" in entry <==> profile.Some? && profile.value != map[]
    requires "profile" in entry ==> entry["profile"] == JObject(profile.value)
    ensures EntryIsGood(model, id, entry)
  {
    ClassIdIsLookup(model, id);
    if "profile" in entry {
      ParsersReadProfileOnly(entry, map["profile" := JObject(profile.value)]);
      if IsClassId(model, id) {
        AcceptedSortIsLive(model, id, profile.value);
      }
    } else {
      ParseOfCleared(entry);
    }
    hide ParseTableProfile, ParseColumnProfile, IsClassId, IsAttributeId;
  }

  lemma SetProfileKeepsGood(model: Model, id: ElementId, profile: Option<map<string, Json>>)
    requires MetadataIsGood(model) && ProfileGate(model, id, profile).None?
    ensures MetadataIsGood(Handle(model, SetGenerationProfile(id, profile)))
  {
    var after := Handle(model, SetGenerationProfile(id, profile));
    LevelsUnchanged(model, after);
    WithProfileEntries(model.metadata, id, profile);
    hide ParseTableProfile, ParseColumnProfile, IsClassId, IsAttributeId, WithProfile, ProfileGate;
    forall x | x in after.metadata ensures EntryIsGood(after, x, after.metadata[x]) {
      if x == id {
        AcceptedEntryIsGood(model, id, profile, after.metadata[id]);
      } else {
        assert EntryIsGood(model, x, model.metadata[x]);
      }
    }
  }

  lemma LevelsUnchanged(model: Model, after: Model)
    requires after.classes == model.classes
    ensures forall x :: IsClassId(after, x) <==> IsClassId(model, x)
    ensures forall x :: IsAttributeId(after, x) <==> IsAttributeId(model, x)
  {
  }

  lemma ClassIdIsLookup(model: Model, id: ElementId)
    ensures IsClassId(model, id) <==> ClassById(model.classes, id).Some?
  {
  }

  lemma AcceptedSortIsLive(model: Model, id: ElementId, profile: map<string, Json>)
    requires ProfileGate(model, id, Some(profile)).None? && profile != map[] && IsClassId(model, id)
    ensures ParseTableProfile(JObject(map["profile" := JObject(profile)])).Ok?
    ensures SortIsLive(model, map["profile" := JObject(profile)])
  {
    ClassIdIsLookup(model, id);
    hide ParseTableProfile;
    var c := ClassById(model.classes, id).value;
    var parsed := ParseTableProfile(JObject(map["profile" := JObject(profile)]));
    if parsed.Ok? && parsed.value.Some? && parsed.value.value.defaultSort.Some? {
      var attributeId := parsed.value.value.defaultSort.value.attributeId;
      assert SortAllowed(model, c, attributeId);
    }
  }

  // ---- every command ---------------------------------------------------

  ghost predicate IsGood(model: Model) {
    IdsDistinct(model) && MetadataIsGood(model)
  }

  lemma ReplacedClassKeepsGood(model: Model, c: UmlClass, updated: UmlClass)
    requires IsGood(model) && ClassById(model.classes, c.id) == Some(c) && updated.id == c.id
    requires OwnAttributesDistinct(updated)
    requires forall x :: IsAttributeOf(c, x) ==> IsAttributeOf(updated, x)
    requires forall x :: IsAttributeOf(updated, x) ==> IsAttributeOf(c, x) || (!IsClassId(model, x) && !IsAttributeId(model, x))
    ensures IsGood(model.(classes := ReplaceClass(model.classes, c.id, updated)))
  {
    var after := model.(classes := ReplaceClass(model.classes, c.id, updated));
    ReplaceKeepsIds(model, c.id, c, updated, after);
    hide IdsDistinct, MetadataIsGood, IsAttributeId, IsClassId;
    MetadataFrame(model, after);
  }

  lemma AddAttributeKeepsGood(model: Model, id: ElementId, attribute: UmlAttribute)
    requires IsGood(model) && IsFresh(model, AddAttribute(id, attribute))
    ensures IsGood(Handle(model, AddAttribute(id, attribute)))
  {
    if ClassById(model.classes, id).Some? {
      var c := ClassById(model.classes, id).value;
      var updated := c.(attributes := c.attributes + [attribute]);
      assert c in model.classes && OwnAttributesDistinct(c);
      forall x ensures IsAttributeOf(updated, x) <==> IsAttributeOf(c, x) || x == attribute.id {
        assert attribute in updated.attributes;
        if IsAttributeOf(c, x) {
          var a :| a in c.attributes && a.id == x;
          assert a in updated.attributes;
        }
      }
      forall k | 0 <= k < |c.attributes| ensures c.attributes[k].id != attribute.id {
        assert c.attributes[k] in c.attributes;
        assert IsAttributeOf(c, c.attributes[k].id);
      }
      ReplacedClassKeepsGood(model, c, updated);
    }
  }

  lemma RemoveAttributeKeepsGood(model: Model, id: ElementId, attributeId: ElementId)
    requires IsGood(model)
    ensures IsGood(Handle(model, RemoveAttribute(id, attributeId)))
  {
    if ClassById(model.classes, id).Some? && IsAttributeOf(ClassById(model.classes, id).value, attributeId) {
      var c := ClassById(model.classes, id).value;
      var remaining := Filter(c.attributes, (a: UmlAttribute) => a.id != attributeId);
      var updated := c.(attributes := remaining);
      var after := Handle(model, RemoveAttribute(id, attributeId));
      FilterKeepsOwnDistinct(c.attributes, (a: UmlAttribute) => a.id != attributeId);
      forall x ensures IsAttributeOf(updated, x) <==> IsAttributeOf(c, x) && x != attributeId {
        if IsAttributeOf(c, x) && x != attributeId {
          var a :| a in c.attributes && a.id == x;
          assert a in remaining;
        }
      }
      ReplaceKeepsIds(model, id, c, updated, after);
      hide IdsDistinct, MetadataIsGood, IsAttributeId, IsClassId, IsAttributeOf;
      PruneKeepsGood(model, after, {attributeId});
    }
  }

  lemma RemoveClassKeepsGood(model: Model, id: ElementId)
    requires IsGood(model)
    ensures IsGood(Handle(model, RemoveClass(id)))
  {
    if ClassById(model.classes, id).Some? {
      var c := ClassById(model.classes, id).value;
      var after := Handle(model, RemoveClass(id));
      RemoveKeepsIds(model, c, after);
      assert forall x :: x in AttributeIds(c) <==> IsAttributeOf(c, x);
      hide IdsDistinct, MetadataIsGood, IsAttributeId, IsClassId, IsAttributeOf;
      PruneKeepsGood(model, after, {id} + AttributeIds(c));
    }
  }

  /** Commands that leave classes and metadata alone, or only rename or touch operations. */
  lemma SameMembersKeepGood(model: Model, after: Model)
    requires IsGood(model) && after.classes == model.classes && after.metadata == model.metadata
    ensures IsGood(after)
  {
    LevelsUnchanged(model, after);
    hide MetadataIsGood, IsAttributeId, IsClassId, AttributesDistinct, ClassesDistinct;
    MetadataFrame(model, after);
  }

  lemma SameAttributesKeepGood(model: Model, id: ElementId, updated: UmlClass)
    requires IsGood(model) && ClassById(model.classes, id).Some? && updated.id == id
    requires updated.attributes == ClassById(model.classes, id).value.attributes
    ensures IsGood(model.(classes := ReplaceClass(model.classes, id, updated)))
  {
    var c := ClassById(model.classes, id).value;
    assert c in model.classes && OwnAttributesDistinct(c);
    assert forall x :: IsAttributeOf(updated, x) <==> IsAttributeOf(c, x);
    ReplacedClassKeepsGood(model, c, updated);
  }

  /** Every gated command with a fresh id keeps the metadata live and parsing. */
  lemma CommandKeepsGood(model: Model, command: Command)
    requires IsGood(model) && IsFresh(model, command) && Gate(model, command).None?
    ensures IsGood(Handle(model, command))
  {
    match command
    case AddClass(id, name) =>
      AddClassKeepsIds(model, id, name);
      var after := Handle(model, command);
      forall x | x in model.metadata ensures IsClassId(after, x) <==> IsClassId(model, x) {
        assert EntryIsGood(model, x, model.metadata[x]);
      }
      MetadataFrame(model, after);
    case RemoveClass(id) => RemoveClassKeepsGood(model, id);
    case RenameClass(id, name) =>
      if ClassById(model.classes, id).Some? {
        SameAttributesKeepGood(model, id, ClassById(model.classes, id).value.(name := name));
      }
    case AddAttribute(id, attribute) => AddAttributeKeepsGood(model, id, attribute);
    case RemoveAttribute(id, attributeId) => RemoveAttributeKeepsGood(model, id, attributeId);
    case AddOperation(id, operation) =>
      if ClassById(model.classes, id).Some? {
        var c := ClassById(model.classes, id).value;
        SameAttributesKeepGood(model, id, c.(operations := c.operations + [operation]));
      }
    case RemoveOperation(id, operationId) =>
      if ClassById(model.classes, id).Some? {
        var c := ClassById(model.classes, id).value;
        SameAttributesKeepGood(model, id, c.(operations := Filter(c.operations, (o: UmlOperation) => o.id != operationId)));
      }
    case AddRelationship(r) => SameMembersKeepGood(model, Handle(model, command));
    case RemoveRelationship(id) => SameMembersKeepGood(model, Handle(model, command));
    case UpdateRelationship(id, _, _, _) => SameMembersKeepGood(model, Handle(model, command));
    case SetGenerationProfile(id, profile) =>
      SetProfileKeepsGood(model, id, profile);
      LevelsUnchanged(model, Handle(model, command));
      hide MetadataIsGood, IsAttributeId, IsClassId;
  }

  // ---- runs ------------------------------------------------------------

  /** The writes a document row sees. A batch is a run of commands, or nothing. */
  datatype Event =
    | Command(command: Commands.Command)
    | Replace(model: Model, layout: Layout)
    | Move(classId: ElementId, position: Position)

  ghost function Step(doc: Document, event: Event): Document {
    match event
    case Command(c) => if Submit(doc, c).Ok? then Submit(doc, c).value else doc
    case Replace(model, layout) => Document(model, layout, doc.revision + 1)
    case Move(classId, position) => SavePosition(doc, classId, position)
  }

  ghost function Run(doc: Document, events: seq<Event>): Document
    decreases |events|
  {
    if events == [] then doc else Run(Step(doc, events[0]), events[1..])
  }

  /** New ids are fresh; imported content comes with fresh ids and without metadata. */
  ghost predicate EventIsFresh(doc: Document, event: Event) {
    match event
    case Command(c) => IsFresh(doc.model, c)
    case Replace(model, _) => IdsDistinct(model) && model.metadata == map[]
    case Move(_, _) => true
  }

  ghost predicate RunIsFresh(doc: Document, events: seq<Event>)
    decreases |events|
  {
    events == [] || (EventIsFresh(doc, events[0]) && RunIsFresh(Step(doc, events[0]), events[1..]))
  }

  lemma StepKeepsGood(doc: Document, event: Event)
    requires IsGood(doc.model) && EventIsFresh(doc, event)
    ensures IsGood(Step(doc, event).model)
  {
    hide IsGood, Gate;
    match event
    case Command(c) =>
      if Submit(doc, c).Ok? {
        CommandKeepsGood(doc.model, c);
      }
    case Replace(model, _) => EmptyMetadataIsGood(model);
    case Move(_, _) =>
  }

  lemma EmptyMetadataIsGood(model: Model)
    requires IdsDistinct(model) && model.metadata == map[]
    ensures IsGood(model)
  {
  }

  lemma {:induction false} RunKeepsGood(doc: Document, events: seq<Event>)
    requires IsGood(doc.model) && RunIsFresh(doc, events)
    ensures IsGood(Run(doc, events).model)
    decreases |events|
  {
    hide IsGood, EventIsFresh, Step;
    if events != [] {
      StepKeepsGood(doc, events[0]);
      RunKeepsGood(Step(doc, events[0]), events[1..]);
    }
  }

  lemma GoodMetadataParses(model: Model)
    requires IsGood(model)
    ensures ProfilesParse(model)
  {
    forall id | id in model.metadata ensures EntryParses(model, id) {
      assert EntryIsGood(model, id, model.metadata[id]);
    }
  }

  /** From an empty document, no run of writes makes the mapper raise a profile error:
      each key stays live, each entry parses at its level, each sort names a live attribute. */
  lemma ReachableMetadataIsGood(events: seq<Event>)
    requires RunIsFresh(Document(EMPTY_MODEL, map[], 1), events)
    ensures var model := Run(Document(EMPTY_MODEL, map[], 1), events).model;
      MetadataIsGood(model) && ProfilesOf(model).Ok?
  {
    var start := Document(EMPTY_MODEL, map[], 1);
    EmptyMetadataIsGood(EMPTY_MODEL);
    RunKeepsGood(start, events);
    GoodMetadataParses(Run(start, events).model);
  }

  // ---- ends ------------------------------------------------------------

  /** An added relationship names live classes; imported content has no dangling end. */
  ghost predicate EventHasLiveEnds(doc: Document, event: Event) {
    match event
    case Command(AddRelationship(r)) => IsClassId(doc.model, r.source.classId) && IsClassId(doc.model, r.target.classId)
    case Replace(model, _) => NoDanglingEnds(model)
    case _ => true
  }

  ghost predicate RunHasLiveEnds(doc: Document, events: seq<Event>)
    decreases |events|
  {
    events == [] || (EventHasLiveEnds(doc, events[0]) && RunHasLiveEnds(Step(doc, events[0]), events[1..]))
  }

  lemma ReplacedClassIds(model: Model, id: ElementId, updated: UmlClass, x: ElementId)
    requires updated.id == id
    ensures IsClassId(model.(classes := ReplaceClass(model.classes, id, updated)), x) <==> IsClassId(model, x)
  {
    var after := ReplaceClass(model.classes, id, updated);
    if IsClassId(model, x) {
      var c :| c in model.classes && c.id == x;
      var i :| 0 <= i < |model.classes| && model.classes[i] == c;
      assert after[i] in after;
    }
    if c :| c in after && c.id == x {
      var i :| 0 <= i < |after| && after[i] == c;
      assert model.classes[i] in model.classes;
    }
  }

  /** A class id survives unless its class is removed. */
  lemma ClassIdSurvives(model: Model, command: Commands.Command, x: ElementId)
    requires IsClassId(model, x)
    ensures IsClassId(Handle(model, command), x) || (command.RemoveClass? && command.classId == x)
  {
    var c :| c in model.classes && c.id == x;
    match command
    case AddClass(_, _) => assert c in Handle(model, command).classes;
    case RemoveClass(id) => assert x != id ==> c in Handle(model, command).classes;
    case RenameClass(id, name) =>
      if ClassById(model.classes, id).Some? {
        ReplacedClassIds(model, id, ClassById(model.classes, id).value.(name := name), x);
      }
    case AddAttribute(id, a) =>
      if ClassById(model.classes, id).Some? {
        var d := ClassById(model.classes, id).value;
        ReplacedClassIds(model, id, d.(attributes := d.attributes + [a]), x);
      }
    case RemoveAttribute(id, a) =>
      if ClassById(model.classes, id).Some? {
        var d := ClassById(model.classes, id).value;
        ReplacedClassIds(model, id, d.(attributes := Filter(d.attributes, (y: UmlAttribute) => y.id != a)), x);
      }
    case AddOperation(id, o) =>
      if ClassById(model.classes, id).Some? {
        var d := ClassById(model.classes, id).value;
        ReplacedClassIds(model, id, d.(operations := d.operations + [o]), x);
      }
    case RemoveOperation(id, o) =>
      if ClassById(model.classes, id).Some? {
        var d := ClassById(model.classes, id).value;
        ReplacedClassIds(model, id, d.(operations := Filter(d.operations, (y: UmlOperation) => y.id != o)), x);
      }
    case _ =>
  }

  /** The relationships after a command are old ones, updated old ones with the same ends, or the added one. */
  lemma EndsSurvive(model: Model, command: Commands.Command, r: Relationship)
    requires r in Handle(model, command).relationships
    ensures || command == AddRelationship(r)
            || exists q :: q in model.relationships
                 && q.source.classId == r.source.classId && q.target.classId == r.target.classId
                 && (command.RemoveClass? && IsClassId(model, command.classId) ==>
                       q.source.classId != command.classId && q.target.classId != command.classId)
  {
    if command.UpdateRelationship? && RelationshipById(model.relationships, command.relationshipId).Some? {
      var after := Handle(model, command).relationships;
      var i :| 0 <= i < |after| && after[i] == r;
      var q := RelationshipById(model.relationships, command.relationshipId).value;
      if model.relationships[i].id == command.relationshipId {
        assert q in model.relationships;
      } else {
        assert r == model.relationships[i];
      }
    } else if command.RemoveClass? {
      ClassIdIsLookup(model, command.classId);
    }
  }

  lemma CommandKeepsEnds(model: Model, command: Commands.Command)
    requires NoDanglingEnds(model)
    requires command.AddRelationship? ==>
      IsClassId(model, command.relationship.source.classId) && IsClassId(model, command.relationship.target.classId)
    ensures NoDanglingEnds(Handle(model, command))
  {
    var after := Handle(model, command);
    forall r | r in after.relationships
      ensures IsClassId(after, r.source.classId) && IsClassId(after, r.target.classId)
    {
      EndsSurvive(model, command, r);
      hide Handle, IsClassId;
      ClassIdSurvivesIfLive(model, command, r.source.classId);
      ClassIdSurvivesIfLive(model, command, r.target.classId);
    }
  }

  lemma ClassIdSurvivesIfLive(model: Model, command: Commands.Command, x: ElementId)
    ensures IsClassId(model, x) ==> IsClassId(Handle(model, command), x) || (command.RemoveClass? && command.classId == x)
  {
    if IsClassId(model, x) {
      ClassIdSurvives(model, command, x);
    }
  }

  /** Through all cascades and partial updates, no relationship of a reachable document dangles. */
  lemma {:induction false} RunKeepsEnds(doc: Document, events: seq<Event>)
    requires NoDanglingEnds(doc.model) && RunHasLiveEnds(doc, events)
    ensures NoDanglingEnds(Run(doc, events).model)
    decreases |events|
  {
    hide NoDanglingEnds, Gate;
    if events != [] {
      match events[0]
      case Command(c) =>
        if Submit(doc, c).Ok? {
          CommandKeepsEnds(doc.model, c);
        }
        RunKeepsEnds(Step(doc, events[0]), events[1..]);
      case _ => RunKeepsEnds(Step(doc, events[0]), events[1..]);
    }
  }
}
