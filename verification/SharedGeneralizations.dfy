/** A generalization on both sides: a document and an extraction of it that cannot be confirmed. */
module SharedGeneralizations {
  import opened Text
  import opened Uml
  import opened Multiplicities
  import opened Calls
  import opened Documents
  import opened DocumentRows
  import opened Translator
  import opened Reconcile
  import opened ReconcileCalls
  import opened ReconcileShows
  import opened ReconcileExact
  import opened Shorthand
  import ImageTheorems

  const PARENT := UmlClass("p", "Person", [], [], Public)
  const CHILD := UmlClass("c", "Clerk", [], [], Public)
  const IS_A := Relationship("g", Generalization, RelationshipEnd("c", ONE, None), RelationshipEnd("p", ONE, None), None)
  const DRAWN := Model([PARENT, CHILD], [], [IS_A], map[])

  const LINK := LinkArguments("generalization", "Clerk", "Person", None, None, None)
  const SEEN: seq<Call> := [AddClassCall("Person"), AddClassCall("Clerk"), AddRelationshipCall(LINK)]

  lemma DrawnIsReady(normalize: Normalize)
    requires normalize("Person") != normalize("Clerk")
    ensures ModelIsReady(normalize, DRAWN)
  {
    assert PARENT in DRAWN.classes && CHILD in DRAWN.classes;
    assert AttributeMembers(PARENT) == [] && OperationMembers(PARENT) == [];
    assert AttributeMembers(CHILD) == [] && OperationMembers(CHILD) == [];
    assert ClassIsReady(normalize, PARENT) && ClassIsReady(normalize, CHILD);
  }

  /** The image shows the two classes, without members, and the generalization. */
  lemma SeenIs(normalize: Normalize)
    requires normalize("Person") != normalize("Clerk")
    ensures DesiredClasses(normalize, SEEN) == [Desired("Person", [], []), Desired("Clerk", [], [])]
    ensures DesiredLinks(SEEN) == [LINK]
  {
    assert SEEN[..2] == [AddClassCall("Person"), AddClassCall("Clerk")] && SEEN[..2][..1] == [AddClassCall("Person")]
      && [AddClassCall("Person")][..0] == [];
    assert DesiredNames(normalize, [AddClassCall("Person")]) == ["Person"];
    assert !HasKey(normalize, ["Person"], "Clerk");
    assert DesiredNames(normalize, SEEN[..2]) == ["Person", "Clerk"];
    assert DesiredNames(normalize, SEEN) == ["Person", "Clerk"];
    forall name ensures AttributesFor(normalize, SEEN, name) == [] && OperationsFor(normalize, SEEN, name) == [] {
      ImageTheorems.NothingWanted(normalize, SEEN, name);
    }
    assert DesiredLinks([AddClassCall("Person")]) == [] && DesiredLinks(SEEN[..2]) == [];
  }

  lemma DefaultsAreReadable()
    ensures ParseMultiplicity("0..1").Some? && ParseMultiplicity("0..*").Some?
  {
    ReplacementsAreReadable();
    ParseOfFormat(Multiplicity(0, Some(1)));
    assert NatText(0) == "0" && NatText(1) == "1";
    hide ParseMultiplicity;
  }

  lemma LinkIsFine(normalize: Normalize, desired: seq<Desired>)
    requires desired == [Desired("Person", [], []), Desired("Clerk", [], [])]
    ensures LinkIsReady(normalize, desired, LINK)
  {
    DefaultsAreReadable();
    assert desired[0] in desired && desired[1] in desired;
    assert KindText(Generalization) == "generalization";
    hide ParseMultiplicity, KindOf;
  }

  lemma SeenIsReady(normalize: Normalize)
    requires normalize("Person") != normalize("Clerk")
    ensures ExtractionIsReady(normalize, SEEN)
  {
    SeenIs(normalize);
    LinkIsFine(normalize, DesiredClasses(normalize, SEEN));
    hide DesiredClasses, DesiredLinks, LinkIsReady;
  }

  lemma SeenMatches(normalize: Normalize)
    requires normalize("Person") != normalize("Clerk")
    ensures MatchesGeneralization(normalize, DRAWN, SEEN)
  {
    SeenIs(normalize);
    assert ClassNamed(normalize, DRAWN.classes, "Person") == Some(PARENT);
    assert ClassNamed(normalize, DRAWN.classes[1..], "Clerk") == Some(CHILD);
    assert FirstBetween(DRAWN.relationships, "c", "p", "generalization") == Some(IS_A);
    assert IsMatchedGeneralization(normalize, DRAWN, LINK);
    assert LINK in DesiredLinks(SEEN);
    hide DesiredLinks;
  }

  /** The document and the extraction meet every requirement, the plan translates, and yet the
      gates refuse it, at any revision and with any new ids. */
  lemma UnchangedDrawingIsRefused(normalize: Normalize, doc: Document, newId: NewIds)
    requires normalize("Person") != normalize("Clerk")
    requires doc.model == DRAWN && IdsAreNew(DRAWN, newId)
    ensures ModelIsReady(normalize, DRAWN) && ExtractionIsReady(normalize, SEEN) && MatchesGeneralization(normalize, DRAWN, SEEN)
    ensures var plan := TranslateAll(normalize, DRAWN, newId, StartBatch(normalize, DRAWN), Reconciliation(normalize, DRAWN, SEEN));
      plan.Ok? && SubmitEach(doc, plan.value.commands).Err?
  {
    hide *;
    DrawnIsReady(normalize);
    SeenIsReady(normalize);
    SeenMatches(normalize);
    ConfirmedPlanShowsTheImage(normalize, doc, newId, SEEN);
  }
}
