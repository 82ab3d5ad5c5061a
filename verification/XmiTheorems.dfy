/** The round-trip theorems of the XMI printer and parser. */
module XmiTheorems {
  import opened Text
  import opened Seqs
  import opened Uml
  import opened Multiplicities
  import opened Schema
  import opened Documents
  import opened Xml
  import opened XmiNames
  import opened XmiExport
  import opened XmiImport
  import opened XmiReads
  import opened XmiRoundTrip
  import opened XmiDiagrams

  // ---- all classes -----------------------------------------------------

  lemma EnumsBuildNoClass(newId: NewIds, raw: Raw, render: Render, enumerations: seq<Enumeration>)
    ensures BuildClasses(newId, raw, RawEnumsOf(render, enumerations)) == []
  {
    hide BuildClasses, BuildClass, IsHidden, Clean;
    forall x | x in RawEnumsOf(render, enumerations) ensures IsEnum(x) {
      RawEnumMembers(render, enumerations, x);
    }
    hide RawEnumsOf;
    NothingBuilt(newId, raw, RawEnumsOf(render, enumerations));
  }

  lemma JoinsBuildNoClass(newId: NewIds, project: Project, render: Render, tables: JoinTables)
    ensures BuildClasses(newId, RawOf(project, render, tables),
                         RawJoinsOf(project.model, render, tables, |project.model.relationships|)) == []
  {
    hide BuildClasses, BuildClass, IsHidden, RawOf, RawJoinsOf;
    var raw := RawOf(project, render, tables);
    var joins := RawJoinsOf(project.model, render, tables, |project.model.relationships|);
    forall x | x in joins ensures IsHidden(raw, x, BuildClass(newId, raw, x)) {
      JoinIsHidden(project, render, tables, x, BuildClass(newId, raw, x));
    }
    NothingBuilt(newId, raw, joins);
  }

  /** Every join class disappears and no enumeration becomes a class. */
  lemma OnlyClassesBuilt(newId: NewIds, project: Project, render: Render, tables: JoinTables)
    ensures var raw := RawOf(project, render, tables);
      BuildClasses(newId, raw, raw.classes) ==
        BuildClasses(newId, raw, RawClassesOf(project.model, render, PrimitiveOrder(project.model.classes), project.model.classes))
  {
    hide BuildClasses, RawClassesOf, RawEnumsOf, RawJoinsOf, PrimitiveOrder;
    var model := project.model;
    var raw := RawOf(project, render, tables);
    var a := RawClassesOf(model, render, PrimitiveOrder(model.classes), model.classes);
    var b := RawEnumsOf(render, model.enumerations);
    var c := RawJoinsOf(model, render, tables, |model.relationships|);
    BuildClassesConcat(newId, raw, a + b, c);
    BuildClassesConcat(newId, raw, a, b);
    EnumsBuildNoClass(newId, raw, render, model.enumerations);
    JoinsBuildNoClass(newId, project, render, tables);
  }

  lemma ClassesAreVisible(newId: NewIds, project: Project, render: Render, tables: JoinTables)
    requires DistinctXids(render, project.model)
    ensures var raw := RawOf(project, render, tables);
      forall c :: c in project.model.classes ==>
        var x := RawClassOf(project.model, render, PrimitiveOrder(project.model.classes), c);
        !IsHidden(raw, x, BuildClass(newId, raw, x))
  {
    hide RawOf, RawClassOf, PrimitiveOrder, IsHidden, BuildClass, DistinctXids;
    var raw := RawOf(project, render, tables);
    forall c | c in project.model.classes
      ensures var x := RawClassOf(project.model, render, PrimitiveOrder(project.model.classes), c);
        !IsHidden(raw, x, BuildClass(newId, raw, x))
    {
      var x := RawClassOf(project.model, render, PrimitiveOrder(project.model.classes), c);
      ClassIsVisible(project, render, tables, c, BuildClass(newId, raw, x));
    }
  }

  /** The classes come back exactly when each one survives. */
  lemma ModelClassesBuild(newId: NewIds, project: Project, render: Render, tables: JoinTables)
    requires DistinctXids(render, project.model)
    ensures var raw := RawOf(project, render, tables);
      && |BuildClasses(newId, raw, raw.classes)| <= |project.model.classes|
      && (BuildClasses(newId, raw, raw.classes) == NormalClasses(newId, render, project.model.classes) <==>
            forall c :: c in project.model.classes ==>
              ClassSurvives(newId, render, raw, project.model, PrimitiveOrder(project.model.classes), c))
  {
    hide RawOf, RawClassesOf, RawClassOf, PrimitiveOrder, BuildClasses, BuildClass, IsHidden, NormalClasses, ClassSurvives, DistinctXids;
    var model := project.model;
    OnlyClassesBuilt(newId, project, render, tables);
    ClassesAreVisible(newId, project, render, tables);
    ClassesBuild(newId, render, RawOf(project, render, tables), model, PrimitiveOrder(model.classes), model.classes);
  }

  // ---- enumerations ----------------------------------------------------

  lemma {:induction false} BuildEnumerationsConcat(newId: NewIds, a: seq<RawClass>, b: seq<RawClass>)
    ensures BuildEnumerations(newId, a + b) == BuildEnumerations(newId, a) + BuildEnumerations(newId, b)
  {
    hide BuildLiterals;
    if b == [] {
      assert a + b == a;
    } else {
      var n := |b| - 1;
      assert (a + b)[..|a + b| - 1] == a + b[..n];
      BuildEnumerationsConcat(newId, a, b[..n]);
    }
  }

  lemma {:induction false} NoEnumerationBuilt(newId: NewIds, classes: seq<RawClass>)
    requires forall x :: x in classes ==> !IsEnum(x)
    ensures BuildEnumerations(newId, classes) == []
  {
    if classes != [] {
      assert classes[|classes| - 1] in classes;
      NoEnumerationBuilt(newId, classes[..|classes| - 1]);
    }
  }

  lemma EnumerationBuilds(newId: NewIds, render: Render, front: seq<RawClass>, e: Enumeration)
    ensures BuildEnumerations(newId, front + [RawEnumOf(render, e)]) ==
      BuildEnumerations(newId, front) + [NormalEnumeration(newId, render, e)]
  {
    assert (front + [RawEnumOf(render, e)])[..|front|] == front;
    assert BuildLiterals(newId, EaId(render, e.id), CleanNames(e.literals)) == NormalEnumeration(newId, render, e).literals;
    hide Clean, EaId, BuildLiterals, CleanNames;
  }

  lemma NormalEnumerationsStep(newId: NewIds, render: Render, enumerations: seq<Enumeration>)
    ensures enumerations == [] ==> NormalEnumerations(newId, render, enumerations) == []
    ensures enumerations != [] ==>
      var n := |enumerations| - 1;
      && NormalEnumerations(newId, render, enumerations) ==
           NormalEnumerations(newId, render, enumerations[..n]) + [NormalEnumeration(newId, render, enumerations[n])]
      && |NormalEnumerations(newId, render, enumerations[..n])| == n
  {
    hide NormalEnumeration;
  }

  lemma {:induction false} EnumerationsBuild(newId: NewIds, render: Render, enumerations: seq<Enumeration>)
    ensures |BuildEnumerations(newId, RawEnumsOf(render, enumerations))| <= |enumerations|
    ensures BuildEnumerations(newId, RawEnumsOf(render, enumerations)) == NormalEnumerations(newId, render, enumerations)
      <==> forall e :: e in enumerations ==> Clean(e.name) != ROOT_CLASS
  {
    hide RawEnumOf, NormalEnumeration, NormalEnumerations, Clean;
    NormalEnumerationsStep(newId, render, enumerations);
    if enumerations == [] {
      assert RawEnumsOf(render, enumerations) == [];
    } else {
      var n := |enumerations| - 1;
      var e := enumerations[n];
      LastIsMember(enumerations);
      EnumerationsBuild(newId, render, enumerations[..n]);
      EnumerationBuilds(newId, render, RawEnumsOf(render, enumerations[..n]), e);
      hide BuildEnumerations;
      var front := BuildEnumerations(newId, RawEnumsOf(render, enumerations[..n]));
      var added := if Clean(e.name) == ROOT_CLASS then [] else [NormalEnumeration(newId, render, e)];
      assert front + [] == front;
      assert BuildEnumerations(newId, RawEnumsOf(render, enumerations)) == front + added by {
        assert RawEnumsOf(render, enumerations[..n]) + [] == RawEnumsOf(render, enumerations[..n]);
      }
      AppendEqual(front, added, NormalEnumerations(newId, render, enumerations[..n]), NormalEnumeration(newId, render, e));
    }
  }

  lemma ModelEnumerationsBuild(newId: NewIds, project: Project, render: Render, tables: JoinTables)
    ensures var raw := RawOf(project, render, tables);
      BuildEnumerations(newId, raw.classes) == NormalEnumerations(newId, render, project.model.enumerations)
      <==> forall e :: e in project.model.enumerations ==> Clean(e.name) != ROOT_CLASS
  {
    hide RawClassesOf, RawEnumsOf, RawJoinsOf, PrimitiveOrder, BuildEnumerations, NormalEnumerations, Clean;
    var model := project.model;
    var a := RawClassesOf(model, render, PrimitiveOrder(model.classes), model.classes);
    var b := RawEnumsOf(render, model.enumerations);
    var c := RawJoinsOf(model, render, tables, |model.relationships|);
    forall x | x in a ensures !IsEnum(x) {
      RawClassMembers(model, render, PrimitiveOrder(model.classes), model.classes, x);
    }
    forall x | x in c ensures !IsEnum(x) {
      RawJoinMembers(model, render, tables, |model.relationships|, x);
    }
    BuildEnumerationsConcat(newId, a + b, c);
    BuildEnumerationsConcat(newId, a, b);
    NoEnumerationBuilt(newId, a);
    NoEnumerationBuilt(newId, c);
    EnumerationsBuild(newId, render, model.enumerations);
  }

  // ---- relationships ---------------------------------------------------

  /** Every end of the relationships is a class reference the reader accepts. */
  ghost predicate EndsKnown(xids: set<string>, render: Render, relationships: seq<Relationship>) {
    forall r :: r in relationships ==> EaId(render, r.source.classId) in xids && EaId(render, r.target.classId) in xids
  }

  lemma {:induction false} GeneralizationsBuild(newId: NewIds, render: Render, xids: set<string>, relationships: seq<Relationship>)
    requires EndsKnown(xids, render, relationships)
    ensures |RawGeneralizationsOf(render, relationships)| == KindCount(relationships, true)
    ensures BuildGeneralizations(newId, xids, RawGeneralizationsOf(render, relationships)) ==
      NormalGeneralizations(newId, render, relationships)
  {
    hide EaId;
    if relationships != [] {
      var n := |relationships| - 1;
      LastIsMember(relationships);
      GeneralizationsBuild(newId, render, xids, relationships[..n]);
      var front := RawGeneralizationsOf(render, relationships[..n]);
      var r := relationships[n];
      assert (front + [RawGeneralizationOf(render, r)])[..|front|] == front;
      assert front + [] == front;
    }
  }

  lemma MultiplicityIsKept(m: Multiplicity)
    ensures MultiplicityOf(Some(FormatMultiplicity(m))) == m
  {
    FormatIsStripped(m);
    ParseOfFormat(m);
    hide FormatMultiplicity, ParseMultiplicity, Strip;
  }

  lemma EndBuilds(newId: NewIds, render: Render, end: RelationshipEnd, aggregation: string)
    ensures BuildEnd(newId, RawEndOf(render, end, aggregation)) == NormalEnd(newId, render, end)
  {
    MultiplicityIsKept(end.multiplicity);
    hide MultiplicityOf, FormatMultiplicity, Clean, EaId;
  }

  /** An association comes back with its kind and its ends in place: the diamond stays on the source. */
  lemma AssociationBuilds(newId: NewIds, render: Render, r: Relationship, id: ElementId)
    requires r.kind != Generalization
    ensures BuildAssociation(newId, id, RawAssociationOf(render, r)) ==
      Relationship(id, r.kind, NormalEnd(newId, render, r.source), NormalEnd(newId, render, r.target),
                   NonEmpty(Some(Clean(TextOr(r.name, "")))))
  {
    EndBuilds(newId, render, r.source, SourceAggregation(r.kind));
    EndBuilds(newId, render, r.target, "none");
    hide BuildEnd, NormalEnd, Clean, FormatMultiplicity, EaId, IsJoin;
  }

  lemma {:induction false} AssociationsBuild(newId: NewIds, render: Render, xids: set<string>, relationships: seq<Relationship>)
    requires EndsKnown(xids, render, relationships)
    ensures |RawAssociationsOf(render, relationships)| == KindCount(relationships, false)
    ensures BuildAssociations(newId, xids, RawAssociationsOf(render, relationships)) ==
      NormalAssociations(newId, render, relationships)
  {
    hide EaId, BuildAssociation, Clean, NormalEnd, FormatMultiplicity, SourceAggregation, IsJoin;
    if relationships != [] {
      var n := |relationships| - 1;
      LastIsMember(relationships);
      AssociationsBuild(newId, render, xids, relationships[..n]);
      var front := RawAssociationsOf(render, relationships[..n]);
      var r := relationships[n];
      if r.kind != Generalization {
        AssociationBuilds(newId, render, r, newId(AssociationSite(|front|)));
      }
      assert (front + [RawAssociationOf(render, r)])[..|front|] == front;
      assert front + [] == front;
    }
  }

  lemma EndsAreKnown(project: Project, render: Render, tables: JoinTables)
    requires Exportable(project.model) && NoRootNames(project.model)
    ensures EndsKnown(XidsWhere(RawOf(project, render, tables).classes, false), render, project.model.relationships)
  {
    var model := project.model;
    forall id | IsClassId(model, id) ensures EaId(render, id) in XidsWhere(RawOf(project, render, tables).classes, false) {
      var c :| c in model.classes && c.id == id;
      ClassIsRaw(project, render, tables, c);
      assert !IsEnum(RawClassOf(model, render, PrimitiveOrder(model.classes), c));
      hide RawOf, PrimitiveOrder, RawAttributesOf, RawOperationsOf;
    }
  }

  // ---- exactly the portable models come back ---------------------------

  lemma SurvivalIsSafety(newId: NewIds, project: Project, render: Render, tables: JoinTables, c: UmlClass)
    requires Exportable(project.model) && NoRootNames(project.model) && c in project.model.classes
    ensures ClassSurvives(newId, render, RawOf(project, render, tables), project.model, PrimitiveOrder(project.model.classes), c)
      <==> forall a :: a in c.attributes && a.typ.Primitive? ==> TypeIsSafe(project.model, a.typ.primitive)
  {
    var raw, order := RawOf(project, render, tables), PrimitiveOrder(project.model.classes);
    hide RawOf, PrimitiveOrder, TypeIsSafe, Exportable, BuildClass, RawClassOf, NormalClass, ResolveType, RawAttributeOf;
    ClassBuilds(newId, render, raw, project.model, order, c);
    forall a | a in c.attributes
      ensures Resolves(newId, render, raw, project.model, order, a) <==> (a.typ.Primitive? ==> TypeIsSafe(project.model, a.typ.primitive))
    {
      if a.typ.Primitive? {
        PrimitiveResolves(project, render, tables, newId, c, a);
      } else {
        ReferenceResolves(project, render, tables, newId, c, a);
      }
    }
    hide Resolves, Clean;
  }

  lemma RelationshipsBuild(newId: NewIds, project: Project, render: Render, tables: JoinTables)
    requires Exportable(project.model) && NoRootNames(project.model)
    ensures BuildModel(newId, RawOf(project, render, tables)).relationships == Normal(newId, render, project.model).relationships
  {
    EndsAreKnown(project, render, tables);
    var xids := XidsWhere(RawOf(project, render, tables).classes, false);
    GeneralizationsBuild(newId, render, xids, project.model.relationships);
    AssociationsBuild(newId, render, xids, project.model.relationships);
    hide BuildClasses, BuildEnumerations, BuildGeneralizations, BuildAssociations, NormalGeneralizations, NormalAssociations,
         XidsWhere, EndsKnown, NormalClasses, NormalEnumerations;
  }

  /** The imported model is the normal form exactly when the exported one is portable. */
  lemma BuildsNormalForm(newId: NewIds, project: Project, render: Render, tables: JoinTables)
    requires Exportable(project.model) && DistinctXids(render, project.model)
    ensures BuildModel(newId, RawOf(project, render, tables)) == Normal(newId, render, project.model) <==> Portable(project.model)
  {
    hide RawOf, BuildClasses, BuildEnumerations, NormalClasses, NormalEnumerations, Exportable, DistinctXids, ClassSurvives,
         TypeIsSafe, Clean, PrimitiveOrder, BuildGeneralizations, BuildAssociations, NormalGeneralizations, NormalAssociations, XidsWhere;
    ModelClassesBuild(newId, project, render, tables);
    ModelEnumerationsBuild(newId, project, render, tables);
    if NoRootNames(project.model) {
      RelationshipsBuild(newId, project, render, tables);
      forall c | c in project.model.classes
        ensures ClassSurvives(newId, render, RawOf(project, render, tables), project.model, PrimitiveOrder(project.model.classes), c)
          <==> forall a :: a in c.attributes && a.typ.Primitive? ==> TypeIsSafe(project.model, a.typ.primitive)
      {
        SurvivalIsSafety(newId, project, render, tables, c);
      }
    } else {
      forall c | c in project.model.classes
        && ClassSurvives(newId, render, RawOf(project, render, tables), project.model, PrimitiveOrder(project.model.classes), c)
        ensures Clean(c.name) != ROOT_CLASS
      {
        SurvivorIsNoRoot(newId, render, RawOf(project, render, tables), project.model, PrimitiveOrder(project.model.classes), c);
      }
    }
  }

  lemma SurvivorIsNoRoot(newId: NewIds, render: Render, raw: Raw, model: Model, order: seq<PrimitiveType>, c: UmlClass)
    requires ClassSurvives(newId, render, raw, model, order, c)
    ensures Clean(c.name) != ROOT_CLASS
  {
  }

  // ---- import after export ---------------------------------------------

  lemma ExportParts(project: Project, render: Render, tables: JoinTables)
    requires Exportable(project.model)
    ensures Export(project, render, tables).Some?
    ensures var root := Export(project, render, tables).value;
      root.tag == "XMI" && Kid(root, "XMI.content") ==
        Some(Node("XMI.content", map[], [ModelNode(project, render, tables), DiagramTree(project, render)]))
  {
    hide ModelNode, DiagramTree, Exportable;
    var root := Export(project, render, tables).value;
    assert KidIn(root.children, "XMI.content") == KidIn(root.children[1..], "XMI.content");
  }

  /** What importing an exported model gives, for every exportable model. */
  lemma ImportOfExport(newId: NewIds, project: Project, render: Render, tables: JoinTables)
    requires AllNew(newId) && Exportable(project.model)
    ensures Export(project, render, tables).Some?
    ensures var raw := RawOf(project, render, tables);
      var model := BuildModel(newId, raw);
      Import(newId, Export(project, render, tables).value) ==
        if model.classes == [] then Err(NoClasses)
        else
          Ok(Imported(model, BuildLayout(newId, raw, ReadBoxes(map[], DiagramElements(project, render))), Some(Clean(project.name))))
  {
    hide Find, Walk, BuildModel, BuildLayout, ReadBoxes, ModelNode, DiagramTree, Exportable, DiagramElements, Clean, ReadDiagrams,
         ClassDiagramsFirst, Kid, RawClassesOf, RawEnumsOf, RawJoinsOf, RawAssociationsOf, RawGeneralizationsOf, DatatypesOf,
         PrimitiveOrder, Export;
    ExportParts(project, render, tables);
    DiagramIsFound(project, render, tables);
    ModelWalks(project, render, tables);
    OneDiagram(project, render);
    assert RawOf(project, render, tables).packageName == Some(Clean(project.name));
  }

  /** Exactly the portable models come back in their normal form, up to new ids; every
      synthetic join class disappears. A model without classes is refused. */
  lemma RoundTripExactly(newId: NewIds, project: Project, render: Render, tables: JoinTables)
    requires AllNew(newId) && Exportable(project.model) && DistinctXids(render, project.model)
    requires project.model.classes != []
    ensures Export(project, render, tables).Some?
    ensures var r := Import(newId, Export(project, render, tables).value);
      (r.Ok? && r.value.model == Normal(newId, render, project.model)) <==> Portable(project.model)
  {
    ImportOfExport(newId, project, render, tables);
    BuildsNormalForm(newId, project, render, tables);
    assert |Normal(newId, render, project.model).classes| == |project.model.classes|;
    hide Import, BuildModel, Normal, Export, Exportable, Portable, DistinctXids;
  }

  lemma NothingToImport(newId: NewIds, project: Project, render: Render, tables: JoinTables)
    requires AllNew(newId) && Exportable(project.model) && DistinctXids(render, project.model)
    requires project.model.classes == []
    ensures Import(newId, Export(project, render, tables).value) == Err(NoClasses)
  {
    ImportOfExport(newId, project, render, tables);
    ModelClassesBuild(newId, project, render, tables);
    hide Import, Export, Exportable, RawOf, BuildClasses;
  }

  // ---- a model that does not come back ---------------------------------

  /** A class called like the dialect's name of a type. */
  const SWALLOWING := Model(
    [UmlClass("1", "int", [], [], Public),
     UmlClass("2", "Person", [UmlAttribute("3", "age", Primitive(Integer), Private)], [], Public)],
    [], [], map[])

  lemma SwallowingIsNotPortable()
    ensures Exportable(SWALLOWING) && !Portable(SWALLOWING)
  {
    assert SWALLOWING.classes[0] in SWALLOWING.classes && SWALLOWING.classes[1] in SWALLOWING.classes;
    assert SWALLOWING.classes[1].attributes[0] in SWALLOWING.classes[1].attributes;
    EaNameIsClean(Integer);
    assert ClassNamed(SWALLOWING, EaTypeName(Integer));
    hide Clean, PrimitiveOrder, ClassNamed;
    assert !TypeIsSafe(SWALLOWING, Integer);
  }

  /** A class named `int` keeps the integer attribute of the other class from coming back. */
  lemma ClassNamedIntIsNotPortable(newId: NewIds, layout: Layout, render: Render)
    requires AllNew(newId) && DistinctXids(render, SWALLOWING)
    ensures Exportable(SWALLOWING)
    ensures var r := Import(newId, Export(Project("", SWALLOWING, layout), render, map[]).value);
      !(r.Ok? && r.value.model == Normal(newId, render, SWALLOWING))
  {
    hide Import, Export, DistinctXids, Normal, Exportable, Portable;
    SwallowingIsNotPortable();
    RoundTripExactly(newId, Project("", SWALLOWING, layout), render, map[]);
  }

  // ---- the layout ------------------------------------------------------

  /** The model's i-th class after the round trip. */
  function ClassAfter(newId: NewIds, render: Render, model: Model, i: nat): ElementId
    requires i < |model.classes|
  {
    NewClassId(newId, render, model.classes[i].id)
  }

  lemma ClassIsKept(newId: NewIds, project: Project, render: Render, tables: JoinTables, c: UmlClass)
    requires DistinctXids(render, project.model) && NoRootNames(project.model) && c in project.model.classes
    ensures EaId(render, c.id) in KeptXids(newId, RawOf(project, render, tables))
  {
    var model := project.model;
    var raw, x := RawOf(project, render, tables), RawClassOf(model, render, PrimitiveOrder(model.classes), c);
    ClassIsRaw(project, render, tables, c);
    ClassIsVisible(project, render, tables, c, BuildClass(newId, raw, x));
    hide RawOf, PrimitiveOrder, IsHidden, BuildClass, RawAttributesOf, RawOperationsOf, Clean;
    assert !IsEnum(x) && x.xid == EaId(render, c.id);
  }

  lemma KeptIsClass(newId: NewIds, project: Project, render: Render, tables: JoinTables, x: string)
    requires x in KeptXids(newId, RawOf(project, render, tables))
    ensures exists c :: c in project.model.classes && x == EaId(render, c.id)
  {
    var raw := RawOf(project, render, tables);
    var model := project.model;
    var y :| y in raw.classes && !IsEnum(y) && !IsHidden(raw, y, BuildClass(newId, raw, y)) && y.xid == x;
    RawClassCases(project, render, tables, y);
    if y in RawJoinsOf(model, render, tables, |model.relationships|) {
      JoinIsHidden(project, render, tables, y, BuildClass(newId, raw, y));
      assert false;
    }
    RawClassMembers(model, render, PrimitiveOrder(model.classes), model.classes, y);
    RawEnumMembers(render, model.enumerations, y);
    hide RawClassesOf, RawEnumsOf, RawJoinsOf, IsHidden, BuildClass, PrimitiveOrder, Clean, EaId;
  }

  /** Every class of a portable model is placed at its snapped centre, under its new id, and
      nothing else is placed. */
  lemma LayoutComesBack(newId: NewIds, project: Project, render: Render, tables: JoinTables)
    requires AllNew(newId) && Exportable(project.model) && DistinctXids(render, project.model)
    requires NoRootNames(project.model)
    ensures var layout := BuildLayout(newId, RawOf(project, render, tables), ReadBoxes(map[], DiagramElements(project, render)));
      && (forall i :: 0 <= i < |project.model.classes| ==>
            var id := ClassAfter(newId, render, project.model, i);
            id in layout && layout[id] == SnappedAt(project, i))
      && forall id :: id in layout ==>
           exists i :: 0 <= i < |project.model.classes| && id == ClassAfter(newId, render, project.model, i)
  {
    var raw, positions := RawOf(project, render, tables), ReadBoxes(map[], DiagramElements(project, render));
    var layout := BuildLayout(newId, raw, positions);
    hide RawOf, ReadBoxes, DiagramElements, KeptXids, SnappedAt, EaId, Exportable, NoRootNames, DistinctXids;
    forall i | 0 <= i < |project.model.classes|
      ensures var id := ClassAfter(newId, render, project.model, i);
        id in layout && layout[id] == SnappedAt(project, i)
    {
      ClassIsKept(newId, project, render, tables, project.model.classes[i]);
      assert NodeIds(project.model)[i] == project.model.classes[i].id;
      BoxIsPlaced(project, render, i);
      assert EaId(render, project.model.classes[i].id) in positions;
    }
    forall id | id in layout
      ensures exists i :: 0 <= i < |project.model.classes| && id == ClassAfter(newId, render, project.model, i)
    {
      var x :| x in KeptXids(newId, raw) && x in positions && newId(ClassSite(x)) == id;
      KeptIsClass(newId, project, render, tables, x);
      var c :| c in project.model.classes && x == EaId(render, c.id);
      var i :| 0 <= i < |project.model.classes| && project.model.classes[i] == c;
      assert id == ClassAfter(newId, render, project.model, i);
    }
  }
}
