/** The second round trip: the normal form is stable, and the layout does not move again. */
module XmiStability {
  import opened Text
  import opened Seqs
  import opened Uml
  import opened Schema
  import opened Documents
  import opened Geometry
  import opened Xml
  import opened XmiNames
  import opened XmiExport
  import opened XmiImport
  import opened XmiReads
  import opened XmiRoundTrip
  import opened XmiDiagrams
  import opened XmiTheorems

  // ---- a normal form is portable again ---------------------------------

  lemma UsedInStep(order: seq<PrimitiveType>, front: seq<UmlAttribute>, last: UmlAttribute)
    ensures UsedIn(order, front + [last]) ==
      var before := UsedIn(order, front);
      if last.typ.Primitive? && last.typ.primitive !in before then before + [last.typ.primitive] else before
  {
    assert (front + [last])[..|front|] == front;
  }

  lemma {:induction false} SameTypesSameOrder(
      newId: NewIds, render: Render, xid: string, order: seq<PrimitiveType>, attributes: seq<UmlAttribute>)
    ensures UsedIn(order, NormalAttributes(newId, render, xid, attributes)) == UsedIn(order, attributes)
  {
    if attributes == [] {
      assert NormalAttributes(newId, render, xid, attributes) == attributes;
    } else {
      hide Clean, EaId, UsedIn, NormalAttributes;
      var n := |attributes| - 1;
      var a := attributes[n];
      SameTypesSameOrder(newId, render, xid, order, attributes[..n]);
      NormalAttributesStep(newId, render, xid, attributes);
      UsedInStep(order, attributes[..n], a);
      assert attributes == attributes[..n] + [a];
      UsedInStep(order, NormalAttributes(newId, render, xid, attributes[..n]),
                 UmlAttribute(newId(AttributeSite(xid, n)), Clean(a.name), NormalType(newId, render, a.typ), a.visibility));
    }
  }

  lemma {:induction false} NormalOrder(newId: NewIds, render: Render, classes: seq<UmlClass>)
    ensures PrimitiveOrder(NormalClasses(newId, render, classes)) == PrimitiveOrder(classes)
  {
    hide UsedIn, NormalAttributes, NormalOperations, Clean, EaId;
    if classes != [] {
      var n := |classes| - 1;
      NormalOrder(newId, render, classes[..n]);
      assert NormalClasses(newId, render, classes)[..n] == NormalClasses(newId, render, classes[..n]);
      SameTypesSameOrder(newId, render, EaId(render, classes[n].id), PrimitiveOrder(classes[..n]), classes[n].attributes);
    }
  }

  /** The i-th class of the normal form stems from the i-th class of the model. */
  lemma NormalNames(newId: NewIds, render: Render, model: Model, name: string)
    ensures ClassNamed(Normal(newId, render, model), name) <==> ClassNamed(model, name)
    ensures EnumerationNamed(Normal(newId, render, model), name) <==> EnumerationNamed(model, name)
  {
    hide NormalAttributes, NormalOperations, NormalGeneralizations, NormalAssociations, EaId, Clean;
    var normal := Normal(newId, render, model);
    assert |normal.classes| == |model.classes| && |normal.enumerations| == |model.enumerations|;
    forall i | 0 <= i < |model.classes| ensures Clean(normal.classes[i].name) == Clean(model.classes[i].name) {
      CleanIsStable(model.classes[i].name);
    }
    forall i | 0 <= i < |model.enumerations| ensures Clean(normal.enumerations[i].name) == Clean(model.enumerations[i].name) {
      CleanIsStable(model.enumerations[i].name);
    }
    hide NormalClasses, NormalEnumerations;
    if ClassNamed(normal, name) {
      var i :| 0 <= i < |normal.classes| && Clean(normal.classes[i].name) == name;
      assert model.classes[i] in model.classes;
    }
    if ClassNamed(model, name) {
      var i :| 0 <= i < |model.classes| && Clean(model.classes[i].name) == name;
      assert normal.classes[i] in normal.classes;
    }
    if EnumerationNamed(normal, name) {
      var i :| 0 <= i < |normal.enumerations| && Clean(normal.enumerations[i].name) == name;
      assert model.enumerations[i] in model.enumerations;
    }
    if EnumerationNamed(model, name) {
      var i :| 0 <= i < |model.enumerations| && Clean(model.enumerations[i].name) == name;
      assert normal.enumerations[i] in normal.enumerations;
    }
  }

  /** Every attribute of the normal form stems from one of the model. */
  lemma NormalAttributeStems(newId: NewIds, render: Render, model: Model, d: UmlClass, b: UmlAttribute)
      returns (c: UmlClass, a: UmlAttribute)
    requires d in Normal(newId, render, model).classes && b in d.attributes
    ensures c in model.classes && a in c.attributes && b.typ == NormalType(newId, render, a.typ)
  {
    hide NormalGeneralizations, NormalAssociations, NormalEnumerations, NormalOperations, NormalType, Clean, EaId;
    var i :| 0 <= i < |model.classes| && NormalClass(newId, render, model.classes[i]) == d;
    c := model.classes[i];
    var k :| 0 <= k < |d.attributes| && d.attributes[k] == b;
    a := c.attributes[k];
  }

  lemma NormalTypesAreSafe(newId: NewIds, render: Render, model: Model)
    requires TypesAreSafe(model)
    ensures TypesAreSafe(Normal(newId, render, model))
  {
    var normal := Normal(newId, render, model);
    NormalOrder(newId, render, model.classes);
    assert PrimitiveOrder(normal.classes) == PrimitiveOrder(model.classes);
    forall name { NormalNames(newId, render, model, name); }
    hide ClassNamed, EnumerationNamed, Normal, PrimitiveOrder, EaTypeName, TypeXid, EaId;
    forall d, b | d in normal.classes && b in d.attributes && b.typ.Primitive?
      ensures TypeIsSafe(normal, b.typ.primitive)
    {
      var c, a := NormalAttributeStems(newId, render, model, d, b);
      assert TypeIsSafe(model, b.typ.primitive);
    }
  }

  /** The normal form of a portable model is portable. */
  lemma NormalIsPortable(newId: NewIds, render: Render, model: Model)
    requires Portable(model)
    ensures Portable(Normal(newId, render, model))
  {
    NormalTypesAreSafe(newId, render, model);
    NormalNames(newId, render, model, ROOT_CLASS);
    hide TypesAreSafe, Normal, Clean;
    assert !ClassNamed(model, ROOT_CLASS) && !EnumerationNamed(model, ROOT_CLASS);
    var normal := Normal(newId, render, model);
    assert forall c :: c in normal.classes && Clean(c.name) == ROOT_CLASS ==> ClassNamed(normal, ROOT_CLASS);
    assert forall e :: e in normal.enumerations && Clean(e.name) == ROOT_CLASS ==> EnumerationNamed(normal, ROOT_CLASS);
  }

  // ---- a normal form is exportable again -------------------------------

  lemma NormalClassIds(newId: NewIds, render: Render, model: Model, id: ElementId)
    requires IsClassId(model, id)
    ensures IsClassId(Normal(newId, render, model), NewClassId(newId, render, id))
  {
    hide NormalAttributes, NormalOperations, NormalGeneralizations, NormalAssociations, NormalEnumerations, EaId, Clean;
    var i :| 0 <= i < |model.classes| && model.classes[i].id == id;
    assert Normal(newId, render, model).classes[i] in Normal(newId, render, model).classes;
  }

  ghost predicate StemsFrom(newId: NewIds, render: Render, x: Relationship, r: Relationship) {
    && x.source.classId == NewClassId(newId, render, r.source.classId)
    && x.target.classId == NewClassId(newId, render, r.target.classId)
  }

  lemma {:induction false} NormalEnds(newId: NewIds, render: Render, relationships: seq<Relationship>, x: Relationship)
    requires x in NormalGeneralizations(newId, render, relationships) || x in NormalAssociations(newId, render, relationships)
    ensures exists r :: r in relationships && StemsFrom(newId, render, x, r)
  {
    hide NewClassId, Clean, KindCount;
    var n := |relationships| - 1;
    LastIsMember(relationships);
    if x in NormalGeneralizations(newId, render, relationships[..n]) || x in NormalAssociations(newId, render, relationships[..n]) {
      NormalEnds(newId, render, relationships[..n], x);
    } else {
      assert StemsFrom(newId, render, x, relationships[n]);
    }
  }

  lemma NormalReferences(newId: NewIds, render: Render, model: Model, id: ElementId)
    requires EnumerationById(model.enumerations, id).Some?
    ensures EnumerationById(Normal(newId, render, model).enumerations, NewClassId(newId, render, id)).Some?
  {
    hide NormalGeneralizations, NormalAssociations, NormalClasses, EaId, Clean;
    var e := EnumerationById(model.enumerations, id).value;
    var i :| 0 <= i < |model.enumerations| && model.enumerations[i] == e;
    var normal := Normal(newId, render, model);
    assert normal.enumerations[i] in normal.enumerations;
  }

  /** The normal form of an exportable model is exportable. */
  lemma NormalIsExportable(newId: NewIds, render: Render, model: Model)
    requires Exportable(model)
    ensures Exportable(Normal(newId, render, model))
  {
    var normal := Normal(newId, render, model);
    assert normal.relationships ==
      NormalGeneralizations(newId, render, model.relationships) + NormalAssociations(newId, render, model.relationships);
    hide IsClassId, EnumerationById, Clean, EaId, NewClassId, Normal, NormalGeneralizations, NormalAssociations;
    forall x | x in normal.relationships
      ensures IsClassId(normal, x.source.classId) && IsClassId(normal, x.target.classId)
    {
      NormalEnds(newId, render, model.relationships, x);
      var r :| r in model.relationships && StemsFrom(newId, render, x, r);
      NormalClassIds(newId, render, model, r.source.classId);
      NormalClassIds(newId, render, model, r.target.classId);
    }
    forall d, b | d in normal.classes && b in d.attributes && b.typ.EnumerationRef?
      ensures EnumerationById(normal.enumerations, b.typ.enumerationId).Some?
    {
      var c, a := NormalAttributeStems(newId, render, model, d, b);
      NormalReferences(newId, render, model, a.typ.enumerationId);
    }
  }

  // ---- the layout moves once at most -----------------------------------

  /** A positioned class moves by at most half a unit per axis. */
  lemma PositionMovesHalfAtMost(project: Project, i: nat)
    requires i < |project.model.classes| && project.model.classes[i].id in project.layout
    ensures var stored := project.layout[project.model.classes[i].id];
      && -0.5 <= SnappedAt(project, i).x - stored.x <= 0.5
      && -0.5 <= SnappedAt(project, i).y - stored.y <= 0.5
  {
    var centre := CentreAt(project, i);
    SnapMovesHalfAtMost(centre.x, BOX_WIDTH);
    SnapMovesHalfAtMost(centre.y, HeightAt(project.model, i));
    hide Snap, HeightAt;
  }

  lemma NormalBoxes(newId: NewIds, render: Render, model: Model, i: nat)
    requires i < |model.classes|
    ensures i < |NodeIds(model)| && i < |NodeIds(Normal(newId, render, model))|
    ensures NodeIds(Normal(newId, render, model))[i] == ClassAfter(newId, render, model, i)
    ensures HeightAt(Normal(newId, render, model), i) == HeightAt(model, i)
  {
    hide NormalGeneralizations, NormalAssociations, Clean, EaId, BoxHeight;
    var normal := Normal(newId, render, model);
    assert |normal.classes[i].attributes| == |model.classes[i].attributes|;
    assert |normal.classes[i].operations| == |model.classes[i].operations|;
  }

  /** Exporting the imported document again puts every class where it already is. */
  lemma SecondTripMovesNothing(newId: NewIds, render: Render, project: Project, again: Project, i: nat)
    requires again.model == Normal(newId, render, project.model) && i < |project.model.classes|
    requires ClassAfter(newId, render, project.model, i) in again.layout
    requires i < |NodeIds(project.model)| && again.layout[ClassAfter(newId, render, project.model, i)] == SnappedAt(project, i)
    ensures i < |NodeIds(again.model)| && SnappedAt(again, i) == SnappedAt(project, i)
  {
    NormalBoxes(newId, render, project.model, i);
    var centre := CentreAt(project, i);
    SnapTwiceIsSnap(centre.x, BOX_WIDTH);
    SnapTwiceIsSnap(centre.y, HeightAt(project.model, i));
    hide Snap, HeightAt, Normal, NodeIds, ClassAfter;
  }

  /** Two round trips of a portable model: both succeed, and the second leaves every class
      exactly where the first one put it. */
  lemma TwoTrips(newId: NewIds, nextId: NewIds, project: Project, render: Render, tables: JoinTables, nextTables: JoinTables)
    requires AllNew(newId) && AllNew(nextId)
    requires Exportable(project.model) && Portable(project.model) && project.model.classes != []
    requires DistinctXids(render, project.model) && DistinctXids(render, Normal(newId, render, project.model))
    ensures Export(project, render, tables).Some?
    ensures Import(newId, Export(project, render, tables).value).Ok?
    ensures var first := Import(newId, Export(project, render, tables).value).value;
      var again := Project(project.name, first.model, first.layout);
      && first.model == Normal(newId, render, project.model)
      && Export(again, render, nextTables).Some? && Import(nextId, Export(again, render, nextTables).value).Ok?
      && var second := Import(nextId, Export(again, render, nextTables).value).value;
         && second.model == Normal(nextId, render, first.model)
         && forall i :: 0 <= i < |project.model.classes| ==>
              && ClassAfter(newId, render, project.model, i) in first.layout
              && ClassAfter(nextId, render, first.model, i) in second.layout
              && second.layout[ClassAfter(nextId, render, first.model, i)] == first.layout[ClassAfter(newId, render, project.model, i)]
  {
    hide Export, Import, Exportable, DistinctXids, Normal, BuildModel, BuildLayout, RawOf, ReadBoxes, DiagramElements, SnappedAt;
    ImportOfExport(newId, project, render, tables);
    RoundTripExactly(newId, project, render, tables);
    LayoutComesBack(newId, project, render, tables);
    var first := Import(newId, Export(project, render, tables).value).value;
    var again := Project(project.name, first.model, first.layout);
    NormalIsExportable(newId, render, project.model);
    NormalIsPortable(newId, render, project.model);
    NormalCount(newId, render, project.model);
    ImportOfExport(nextId, again, render, nextTables);
    RoundTripExactly(nextId, again, render, nextTables);
    LayoutComesBack(nextId, again, render, nextTables);
    hide Portable, NodeIds, ClassAfter;
    forall i | 0 <= i < |project.model.classes|
      ensures i < |NodeIds(project.model)| && i < |NodeIds(again.model)| && SnappedAt(again, i) == SnappedAt(project, i)
    {
      NormalBoxes(newId, render, project.model, i);
      SecondTripMovesNothing(newId, render, project, again, i);
    }
  }

  lemma NormalCount(newId: NewIds, render: Render, model: Model)
    ensures |Normal(newId, render, model).classes| == |model.classes|
  {
  }
}
