/** A sort that was valid when it was declared can go stale: a run of accepted commands
    after which the resolver fails. */
module StaleSorts {
  import opened Text
  import opened Uml
  import opened Naming
  import opened Profiles
  import opened Schema
  import opened ParentMaps
  import opened Mapper
  import opened MapperAcceptance
  import opened Commands
  import opened Documents
  import opened DocumentRows
  import opened SortResolution

  const AGE := UmlAttribute("a", "age", Primitive(Integer), Public)
  const PARENT := UmlClass("p", "Person", [], [], Public)
  const BARE_CHILD := UmlClass("c", "Clerk", [], [], Public)
  const CHILD := UmlClass("c", "Clerk", [AGE], [], Public)
  const IS_A := Relationship("g", Generalization, RelationshipEnd("c", ONE, None), RelationshipEnd("p", ONE, None), None)
  const BY_AGE: map<string, Json> :=
    map["defaultSort" := JObject(map["attribute" := JString("a"), "direction" := JString("asc")])]

  const NEW_DOCUMENT := Document(EMPTY_MODEL, map[], 1)
  const BUILD: seq<Command> := [AddClass("p", "Person"), AddClass("c", "Clerk"), AddAttribute("c", AGE), AddRelationship(IS_A)]
  const DECLARE_SORT := SetGenerationProfile("p", Some(BY_AGE))
  const CUT := RemoveRelationship("g")

  const BUILT := Model([PARENT, CHILD], [], [IS_A], map[])
  const SORTED := Model([PARENT, CHILD], [], [IS_A], map["p" := map["profile" := JObject(BY_AGE)]])
  const STALE := Model([PARENT, CHILD], [], [], map["p" := map["profile" := JObject(BY_AGE)]])

  const WITH_PARENT := Model([PARENT], [], [], map[])
  const WITH_BOTH := Model([PARENT, BARE_CHILD], [], [], map[])
  const WITH_AGE := Model([PARENT, CHILD], [], [], map[])

  lemma AgeIsAdded()
    ensures Handle(WITH_BOTH, AddAttribute("c", AGE)) == WITH_AGE
  {
    assert ClassById(WITH_BOTH.classes[1..], "c") == Some(BARE_CHILD);
    assert BARE_CHILD.attributes + [AGE] == CHILD.attributes;
    assert ReplaceClass(WITH_BOTH.classes, "c", CHILD) == WITH_AGE.classes;
  }

  lemma ClassesAreAdded()
    ensures Handle(EMPTY_MODEL, AddClass("p", "Person")) == WITH_PARENT
    ensures Handle(WITH_PARENT, AddClass("c", "Clerk")) == WITH_BOTH
    ensures Handle(WITH_AGE, AddRelationship(IS_A)) == BUILT
  {
  }

  lemma BuildsModel(rest: seq<Command>)
    ensures SubmitEach(NEW_DOCUMENT, BUILD + rest) == SubmitEach(Document(BUILT, map[], 5), rest)
  {
    hide Handle, SubmitEach;
    ClassesAreAdded();
    AgeIsAdded();
    OneSubmission(NEW_DOCUMENT, BUILD[0], BUILD[1..] + rest, Document(WITH_PARENT, map[], 2));
    OneSubmission(Document(WITH_PARENT, map[], 2), BUILD[1], BUILD[2..] + rest, Document(WITH_BOTH, map[], 3));
    OneSubmission(Document(WITH_BOTH, map[], 3), BUILD[2], BUILD[3..] + rest, Document(WITH_AGE, map[], 4));
    OneSubmission(Document(WITH_AGE, map[], 4), BUILD[3], rest, Document(BUILT, map[], 5));
    assert BUILD + rest == [BUILD[0]] + (BUILD[1..] + rest) && BUILD[1..] + rest == [BUILD[1]] + (BUILD[2..] + rest)
      && BUILD[2..] + rest == [BUILD[2]] + (BUILD[3..] + rest) && BUILD[3..] + rest == [BUILD[3]] + rest;
  }

  lemma OneSubmission(doc: Document, command: Command, rest: seq<Command>, next: Document)
    requires Submit(doc, command) == Ok(next)
    ensures SubmitEach(doc, [command] + rest) == SubmitEach(next, rest)
  {
    assert ([command] + rest)[1..] == rest;
  }

  const AGE_ASCENDING := TableProfile(None, None, None, None, Some(DefaultSort("a", Asc)))

  lemma SortParses()
    ensures Parsed(BY_AGE) == Ok(Some(AGE_ASCENDING))
  {
    assert "profile" in map["profile" := JObject(BY_AGE)];
    var sort: map<string, Json> := map["attribute" := JString("a"), "direction" := JString("asc")];
    assert BY_AGE["defaultSort"] == JObject(sort);
    assert "attribute" in sort && "direction" in sort;
    assert ParseDefaultSort(BY_AGE) == Ok(Some(DefaultSort("a", Asc)));
    assert BY_AGE != map[] by { assert "defaultSort" in BY_AGE; }
  }

  lemma OnlyChildDescends(x: ElementId)
    ensures IsDescendant(BUILT.relationships, x, "p") <==> x == "c"
  {
    assert IS_A in BUILT.relationships;
    assert HasParent(BUILT.relationships, "c", "p");
    assert DescendsIn(BUILT.relationships, "p", "p", 0);
    assert DescendsIn(BUILT.relationships, "c", "p", 1);
    if n: nat :| 0 < n && DescendsIn(BUILT.relationships, x, "p", n) {
      assert exists y :: HasParent(BUILT.relationships, x, y);
    }
  }

  lemma SortIsAccepted()
    ensures ProfileGate(BUILT, "p", Some(BY_AGE)).None?
  {
    SortParses();
    assert PARENT in BUILT.classes;
    assert IsClassId(BUILT, "p");
    assert "defaultSort" in BY_AGE;
    assert ClassById(BUILT.classes, "p") == Some(PARENT);
    assert ClassById(BUILT.classes[1..], "c") == Some(CHILD);
    assert ClassById(BUILT.classes, "c") == Some(CHILD);
    forall x { OnlyChildDescends(x); }
    assert AGE in CHILD.attributes;
    hide ParseTableProfile, IsDescendant, ClassById;
    assert SortAllowed(BUILT, PARENT, "a") by {
      assert IsDescendant(BUILT.relationships, "c", PARENT.id);
    }
  }

  lemma SortIsDeclaredThenCut()
    ensures Handle(BUILT, DECLARE_SORT) == SORTED && Handle(SORTED, CUT) == STALE
  {
    assert PARENT in BUILT.classes;
    assert IsClassId(BUILT, "p");
    assert "defaultSort" in BY_AGE;
    var empty: Metadata := map[];
    var entry: Entry := map["profile" := JObject(BY_AGE)];
    assert "profile" in entry;
    assert WithProfile(empty, "p", Some(BY_AGE)) == map["p" := entry];
    assert Handle(BUILT, DECLARE_SORT) == SORTED;
    assert RelationshipById(SORTED.relationships, "g") == Some(IS_A);
    assert Filter(SORTED.relationships, (r: Relationship) => r.id != "g") == [];
    assert SORTED.relationships[0] == IS_A && SORTED.relationships[..0] == [];
  }

  lemma WholeRun()
    ensures SubmitEach(NEW_DOCUMENT, BUILD + [DECLARE_SORT, CUT]) == Ok(Document(STALE, map[], 7))
  {
    BuildsModel([DECLARE_SORT, CUT]);
    SortIsAccepted();
    SortIsDeclaredThenCut();
    hide Handle, ProfileGate, SubmitEach;
    OneSubmission(Document(BUILT, map[], 5), DECLARE_SORT, [CUT], Document(SORTED, map[], 6));
    OneSubmission(Document(SORTED, map[], 6), CUT, [], Document(STALE, map[], 7));
    NothingSubmitted(Document(STALE, map[], 7));
    assert [DECLARE_SORT, CUT] == [DECLARE_SORT] + [CUT] && [CUT] == [CUT] + [];
  }

  lemma NothingSubmitted(doc: Document)
    ensures SubmitEach(doc, []) == Ok(doc)
  {
  }

  lemma ConcreteIds(model: Model)
    requires model.classes == [PARENT, CHILD]
    ensures DistinctClassIds(model) && DistinctAttributeIds(model)
    ensures forall id :: IsClassId(model, id) <==> id == "p" || id == "c"
    ensures forall c :: c in model.classes && IsAttributeOf(c, "a") ==> c == CHILD
    ensures forall c, a :: c in model.classes && a in c.attributes ==> a == AGE
  {
    assert PARENT in model.classes && CHILD in model.classes;
  }

  lemma BuiltMaps(snake: SnakeCase)
    requires snake("Person").Some? && snake("Clerk").Some? && snake("age").Some?
    ensures DistinctClassIds(BUILT) && RunPipeline(snake, BUILT).Ok?
  {
    ConcreteIds(BUILT);
    assert IS_A in BUILT.relationships;
    assert forall c, p :: HasParent(BUILT.relationships, c, p) <==> c == "c" && p == "p";
    forall x, n: nat | 0 < n && IsClassId(BUILT, x)
      ensures !DescendsIn(BUILT.relationships, x, x, n)
    {
      if DescendsIn(BUILT.relationships, x, x, n) {
        var y :| HasParent(BUILT.relationships, x, y) && DescendsIn(BUILT.relationships, y, x, n - 1);
      }
    }
    hide IsClassId, HasParent, DescendsIn;
    AcceptsExactly(snake, BUILT);
  }

  lemma StaleMaps(snake: SnakeCase)
    requires snake("Person").Some? && snake("Clerk").Some? && snake("age").Some?
    ensures DistinctClassIds(STALE) && RunPipeline(snake, STALE).Ok? && HierarchyOf(STALE) == Ok(map[])
    ensures ProfilesParse(STALE) && TableProfileOf(STALE, "p") == Some(AGE_ASCENDING)
  {
    ConcreteIds(STALE);
    SortParses();
    assert EntryParses(STALE, "p");
    assert forall c, p :: !HasParent(STALE.relationships, c, p);
    assert Acyclic(STALE);
    hide IsClassId, HasParent, DescendsIn, ParseTableProfile, EntryParses;
    AcceptsExactly(snake, STALE);
    hide MapToRelational;
    HierarchyIsRelation(STALE);
    assert HierarchyOf(STALE).value == map[];
  }

  lemma BuiltIsRoot()
    ensures PARENT in BUILT.classes && IsInheritanceRoot(BUILT, "p")
  {
  }

  /** While the subclass is under the root, the sort is served. */
  lemma SortIsServedBefore(snake: SnakeCase)
    requires snake("Person").Some? && snake("Clerk").Some? && snake("age").Some?
    ensures DistinctClassIds(SORTED) && ServesSort(snake, SORTED, "p", AGE_ASCENDING)
  {
    hide Handle, ProfileGate, Parsed, ServesSort, IsInheritanceRoot;
    BuiltMaps(snake);
    ConcreteIds(BUILT);
    SortParses();
    SortIsAccepted();
    SortIsDeclaredThenCut();
    BuiltIsRoot();
    assert BY_AGE != map[] by { assert "defaultSort" in BY_AGE; }
    AcceptedSortResolves(snake, BUILT, PARENT, BY_AGE);
  }

  /** Without a parent map every class is its own root, and only the child has the attribute. */
  lemma NobodyUnderParent()
    ensures !OwnedUnder(STALE, map[], "p", "a")
  {
    ConcreteIds(STALE);
  }

  /** After the cut the table keeps the sort, and no column answers to it. */
  lemma SortIsStaleAfter(snake: SnakeCase)
    requires snake("Person").Some? && snake("Clerk").Some? && snake("age").Some?
    ensures DistinctClassIds(STALE) && RunPipeline(snake, STALE).Ok?
    ensures var m := RunPipeline(snake, STALE).value;
      && "p" in m.roots && m.drafts.tables["p"].profile == Some(AGE_ASCENDING)
      && !Answers(m.drafts.tables["p"], "a")
  {
    StaleMaps(snake);
    ConcreteIds(STALE);
    NobodyUnderParent();
    hide TableProfileOf, ProfilesParse, HierarchyOf, OwnedUnder, Answers;
    RootTableProfile(snake, STALE, "p");
    ResolverSucceedsExactly(snake, STALE, "p", "a");
  }

  /** Accepted commands build a hierarchy, declare a sort on its root by an attribute of the
      subclass, and cut the generalization. Before the cut the sort is served; afterwards the
      model still maps and the table keeps the sort, but no column answers to it. */
  lemma CutStrandsSort(snake: SnakeCase)
    requires snake("Person").Some? && snake("Clerk").Some? && snake("age").Some?
    ensures SubmitEach(NEW_DOCUMENT, BUILD + [DECLARE_SORT, CUT]) == Ok(Document(STALE, map[], 7))
    ensures DistinctClassIds(SORTED) && ServesSort(snake, SORTED, "p", AGE_ASCENDING)
    ensures DistinctClassIds(STALE) && RunPipeline(snake, STALE).Ok?
    ensures var m := RunPipeline(snake, STALE).value;
      && "p" in m.roots && m.drafts.tables["p"].profile == Some(AGE_ASCENDING)
      && !Answers(m.drafts.tables["p"], "a")
  {
    hide *;
    WholeRun();
    SortIsServedBefore(snake);
    SortIsStaleAfter(snake);
  }
}
