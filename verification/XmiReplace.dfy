/** Imported content as a replacement for a document: which imports meet the invariants of document runs. */
module XmiReplace {
  import opened Text
  import opened Seqs
  import opened Uml
  import opened Xml
  import opened XmiNames
  import opened XmiImport
  import opened DocumentRuns

  // ---- what is kept of a file ------------------------------------------

  /** The type of the attribute is a class element and no enumeration, so the attribute is skipped. */
  predicate TypedByClass(raw: Raw, a: RawAttribute) {
    && !(a.typeRef.Some? && a.typeRef.value in XidsWhere(raw.classes, true))
    && ((a.typeRef.Some? && a.typeRef.value in ClassRefs(raw.classes)) || (a.typeName.Some? && a.typeName.value in ClassRefs(raw.classes)))
  }

  predicate HasNoFeatures(raw: Raw, x: RawClass) {
    x.operations == [] && forall a :: a in x.attributes ==> TypedByClass(raw, a)
  }

  /** An association is tagged with this class, which is marked as generated or has no features. */
  predicate IsMereAssociationClass(raw: Raw, x: RawClass) {
    (exists a :: a in raw.associations && a.associationClass == Some(x.xid)) && (x.synthetic || HasNoFeatures(raw, x))
  }

  /** Class elements that become classes of the model. */
  predicate IsKept(raw: Raw, x: RawClass) {
    !IsEnum(x) && !IsMereAssociationClass(raw, x)
  }

  lemma {:induction false} NoAttributesBuilt(newId: NewIds, raw: Raw, xid: string, attributes: seq<RawAttribute>)
    ensures BuildAttributes(newId, raw, xid, attributes) == [] <==> forall a :: a in attributes ==> TypedByClass(raw, a)
  {
    if attributes != [] {
      LastIsMember(attributes);
      NoAttributesBuilt(newId, raw, xid, attributes[..|attributes| - 1]);
      UnresolvedIsTypedByClass(newId, raw, attributes[|attributes| - 1]);
      hide ResolveType, TypedByClass, VisibilityOr;
    }
  }

  lemma UnresolvedIsTypedByClass(newId: NewIds, raw: Raw, a: RawAttribute)
    ensures ResolveType(newId, raw, a).None? <==> TypedByClass(raw, a)
  {
    hide ClassRefs, XidsWhere, EnumXidNamed, PrimitiveNamed, Lower, Strip;
  }

  /** The importer, which looks at the built class, hides exactly the mere association classes. */
  lemma HiddenIsMere(newId: NewIds, raw: Raw, x: RawClass)
    ensures IsHidden(raw, x, BuildClass(newId, raw, x)) <==> IsMereAssociationClass(raw, x)
  {
    NoAttributesBuilt(newId, raw, x.xid, x.attributes);
    assert BuildOperations(newId, x.xid, x.operations) == [] <==> x.operations == [];
    hide BuildAttributes, BuildOperations, TypedByClass;
  }

  /** The kept class elements of the file have different ids. */
  ghost predicate KeptDistinct(raw: Raw, classes: seq<RawClass>) {
    forall i, j :: 0 <= i < j < |classes| && IsKept(raw, classes[i]) && IsKept(raw, classes[j]) ==>
      classes[i].xid != classes[j].xid
  }

  /** Every built class stems from a kept element, and every kept element is built. */
  lemma {:induction false} BuiltClassesStem(newId: NewIds, raw: Raw, classes: seq<RawClass>, c: UmlClass)
    ensures c in BuildClasses(newId, raw, classes) <==>
      exists x :: x in classes && IsKept(raw, x) && c == BuildClass(newId, raw, x)
  {
    hide BuildClass, IsHidden, IsMereAssociationClass;
    if classes != [] {
      LastIsMember(classes);
      BuiltClassesStem(newId, raw, classes[..|classes| - 1], c);
      HiddenIsMere(newId, raw, classes[|classes| - 1]);
    }
  }

  lemma BuildClassesStep(newId: NewIds, raw: Raw, front: seq<RawClass>, x: RawClass)
    ensures BuildClasses(newId, raw, front + [x]) ==
      BuildClasses(newId, raw, front) + if IsKept(raw, x) then [BuildClass(newId, raw, x)] else []
  {
    assert (front + [x])[..|front|] == front;
    HiddenIsMere(newId, raw, x);
    hide IsHidden, BuildClass, IsMereAssociationClass;
  }

  lemma NoClassesDistinct(newId: NewIds, raw: Raw)
    ensures ClassesDistinct(BuildClasses(newId, raw, [])) && KeptDistinct(raw, [])
  {
  }

  /** Class ids are distinct exactly when the kept elements' ids are. */
  lemma {:induction false} BuiltClassesDistinct(newId: NewIds, raw: Raw, classes: seq<RawClass>)
    requires AllNew(newId)
    ensures ClassesDistinct(BuildClasses(newId, raw, classes)) <==> KeptDistinct(raw, classes)
  {
    hide IsKept, BuildClass, BuildClasses, ClassesDistinct, KeptDistinct, AllNew;
    if classes == [] {
      NoClassesDistinct(newId, raw);
    } else {
      var n := |classes| - 1;
      var front, x := classes[..n], classes[n];
      assert classes == front + [x];
      BuiltClassesDistinct(newId, raw, front);
      BuildClassesStep(newId, raw, front, x);
      NewcomerIsDistinct(newId, raw, front, x);
      DistinctAppend(BuildClasses(newId, raw, front), BuildClass(newId, raw, x));
      KeptAppend(newId, raw, front, x);
      assert BuildClasses(newId, raw, front) + [] == BuildClasses(newId, raw, front);
    }
  }

  lemma DistinctAppend(classes: seq<UmlClass>, c: UmlClass)
    ensures ClassesDistinct(classes + [c]) <==> ClassesDistinct(classes) && forall d :: d in classes ==> d.id != c.id
  {
    if ClassesDistinct(classes + [c]) {
      assert forall i :: 0 <= i < |classes| ==> (classes + [c])[i] == classes[i];
      assert (classes + [c])[|classes|] == c;
    }
  }

  lemma KeptAppend(newId: NewIds, raw: Raw, classes: seq<RawClass>, x: RawClass)
    ensures KeptDistinct(raw, classes + [x]) <==>
      && KeptDistinct(raw, classes)
      && (IsKept(raw, x) ==> forall y :: y in classes && IsKept(raw, y) ==> y.xid != x.xid)
  {
    hide IsKept;
    var whole := classes + [x];
    if KeptDistinct(raw, whole) {
      assert forall i :: 0 <= i < |classes| ==> whole[i] == classes[i];
      assert whole[|classes|] == x;
    }
  }

  lemma NewcomerIsDistinct(newId: NewIds, raw: Raw, classes: seq<RawClass>, x: RawClass)
    requires AllNew(newId)
    ensures (forall d :: d in BuildClasses(newId, raw, classes) ==> d.id != BuildClass(newId, raw, x).id) <==>
      forall y :: y in classes && IsKept(raw, y) ==> y.xid != x.xid
  {
    hide IsKept, BuildAttributes, BuildOperations, BuildClasses;
    forall d { BuiltClassesStem(newId, raw, classes, d); }
    assert forall y :: BuildClass(newId, raw, y).id == newId(ClassSite(y.xid));
    forall y | y in classes && IsKept(raw, y)
      ensures BuildClass(newId, raw, y) in BuildClasses(newId, raw, classes)
    {
    }
  }

  // ---- attributes ------------------------------------------------------

  /** Attribute ids come from distinct sites of their class element. */
  lemma {:induction false} BuiltAttributes(newId: NewIds, raw: Raw, xid: string, attributes: seq<RawAttribute>)
    requires AllNew(newId)
    ensures AttributeListDistinct(BuildAttributes(newId, raw, xid, attributes))
    ensures forall a :: a in BuildAttributes(newId, raw, xid, attributes) ==>
      exists k: nat :: k < |attributes| && a.id == newId(AttributeSite(xid, k))
  {
    hide ResolveType, VisibilityOr;
    if attributes != [] {
      var n := |attributes| - 1;
      BuiltAttributes(newId, raw, xid, attributes[..n]);
      var front := BuildAttributes(newId, raw, xid, attributes[..n]);
      forall a | a in front ensures a.id != newId(AttributeSite(xid, n)) {
        var k: nat :| k < n && a.id == newId(AttributeSite(xid, k));
        assert AttributeSite(xid, k) != AttributeSite(xid, n);
      }
    }
  }

  lemma BuiltClassAttributes(newId: NewIds, raw: Raw, x: RawClass, id: ElementId)
    requires AllNew(newId)
    ensures OwnAttributesDistinct(BuildClass(newId, raw, x))
    ensures IsAttributeOf(BuildClass(newId, raw, x), id) ==> exists k: nat :: id == newId(AttributeSite(x.xid, k))
  {
    BuiltAttributes(newId, raw, x.xid, x.attributes);
    hide BuildAttributes, BuildOperations;
  }

  lemma SharedAttributeSharedXid(newId: NewIds, raw: Raw, x: RawClass, y: RawClass, id: ElementId)
    requires AllNew(newId)
    requires IsAttributeOf(BuildClass(newId, raw, x), id) && IsAttributeOf(BuildClass(newId, raw, y), id)
    ensures x.xid == y.xid
  {
    BuiltClassAttributes(newId, raw, x, id);
    BuiltClassAttributes(newId, raw, y, id);
    var k: nat :| id == newId(AttributeSite(x.xid, k));
    var l: nat :| id == newId(AttributeSite(y.xid, l));
    assert AttributeSite(x.xid, k) == AttributeSite(y.xid, l);
    hide BuildClass;
  }

  lemma KeptXidDecides(newId: NewIds, raw: Raw, x: RawClass, y: RawClass)
    requires KeptDistinct(raw, raw.classes)
    requires x in raw.classes && IsKept(raw, x) && y in raw.classes && IsKept(raw, y) && x.xid == y.xid
    ensures x == y
  {
    hide IsKept;
    var i :| 0 <= i < |raw.classes| && raw.classes[i] == x;
    var j :| 0 <= j < |raw.classes| && raw.classes[j] == y;
  }

  /** An imported model has distinct ids, and no metadata, exactly when its class elements have distinct ids:
      then it may replace the content of a document. */
  lemma ImportIsFresh(newId: NewIds, raw: Raw)
    requires AllNew(newId)
    ensures IdsDistinct(BuildModel(newId, raw)) <==> KeptDistinct(raw, raw.classes)
    ensures BuildModel(newId, raw).metadata == map[]
  {
    var model := BuildModel(newId, raw);
    BuiltClassesDistinct(newId, raw, raw.classes);
    forall c { BuiltClassesStem(newId, raw, raw.classes, c); }
    assert model.classes == BuildClasses(newId, raw, raw.classes);
    hide BuildModel, BuildClasses, IsKept, OwnAttributesDistinct, KeptDistinct, ClassesDistinct;
    if KeptDistinct(raw, raw.classes) {
      forall c | c in model.classes ensures OwnAttributesDistinct(c) {
        var x :| x in raw.classes && IsKept(raw, x) && c == BuildClass(newId, raw, x);
        BuiltClassAttributes(newId, raw, x, "");
      }
      forall c, d, id | c in model.classes && d in model.classes && IsAttributeOf(c, id) && IsAttributeOf(d, id)
        ensures c == d
      {
        var x :| x in raw.classes && IsKept(raw, x) && c == BuildClass(newId, raw, x);
        var y :| y in raw.classes && IsKept(raw, y) && d == BuildClass(newId, raw, y);
        SharedAttributeSharedXid(newId, raw, x, y, id);
        KeptXidDecides(newId, raw, x, y);
      }
      forall id | IsClassId(model, id) ensures !IsAttributeId(model, id) {
        ClassIdIsNoAttributeId(newId, raw, model, id);
      }
    }
  }

  lemma ClassSiteIsNoAttribute(newId: NewIds, raw: Raw, xid: string, y: RawClass)
    requires AllNew(newId)
    ensures !IsAttributeOf(BuildClass(newId, raw, y), newId(ClassSite(xid)))
  {
    BuiltClassAttributes(newId, raw, y, newId(ClassSite(xid)));
    hide BuildClass;
    forall k: nat ensures newId(AttributeSite(y.xid, k)) != newId(ClassSite(xid)) {
      assert AttributeSite(y.xid, k) != ClassSite(xid);
    }
  }

  lemma ClassIdIsNoAttributeId(newId: NewIds, raw: Raw, model: Model, id: ElementId)
    requires AllNew(newId)
    requires forall c :: c in model.classes ==> exists x :: x in raw.classes && IsKept(raw, x) && c == BuildClass(newId, raw, x)
    requires IsClassId(model, id)
    ensures !IsAttributeId(model, id)
  {
    hide IsKept;
    var c :| c in model.classes && c.id == id;
    var x :| x in raw.classes && IsKept(raw, x) && c == BuildClass(newId, raw, x);
    assert id == newId(ClassSite(x.xid));
    hide BuildClass;
    forall d | d in model.classes ensures !IsAttributeOf(d, id) {
      var y :| y in raw.classes && IsKept(raw, y) && d == BuildClass(newId, raw, y);
      ClassSiteIsNoAttribute(newId, raw, x.xid, y);
    }
  }

  // ---- ends ------------------------------------------------------------

  /** A class element that an association is tagged with, and that is dropped. */
  ghost predicate IsDropped(raw: Raw, xid: string) {
    forall x :: x in raw.classes && x.xid == xid ==> !IsKept(raw, x)
  }

  /** The ends of a relationship the importer builds. */
  ghost predicate IsBuiltEnd(raw: Raw, xid: string) {
    var xids := XidsWhere(raw.classes, false);
    || (exists g :: g in raw.generalizations && IsClassRef(xids, g.child) && IsClassRef(xids, g.parent)
          && (g.child.value == xid || g.parent.value == xid))
    || (exists a :: a in raw.associations && ConnectsClasses(xids, a)
          && (a.ends[0].classRef.value == xid || a.ends[1].classRef.value == xid))
  }

  /** Some built relationship ends at the class with this element id. */
  ghost predicate EndsAt(newId: NewIds, relationships: seq<Relationship>, xid: string) {
    exists r :: r in relationships
      && (r.source.classId == newId(ClassSite(xid)) || r.target.classId == newId(ClassSite(xid)))
  }

  lemma {:induction false} GeneralizationEnds(newId: NewIds, xids: set<string>, generalizations: seq<RawGeneralization>, id: ElementId)
    ensures (exists r :: r in BuildGeneralizations(newId, xids, generalizations) && (r.source.classId == id || r.target.classId == id))
      <==> exists g :: g in generalizations && IsClassRef(xids, g.child) && IsClassRef(xids, g.parent)
             && (newId(ClassSite(g.child.value)) == id || newId(ClassSite(g.parent.value)) == id)
  {
    if generalizations != [] {
      var n := |generalizations| - 1;
      LastIsMember(generalizations);
      GeneralizationEnds(newId, xids, generalizations[..n], id);
      var front, whole := BuildGeneralizations(newId, xids, generalizations[..n]), BuildGeneralizations(newId, xids, generalizations);
      var g := generalizations[n];
      if IsClassRef(xids, g.child) && IsClassRef(xids, g.parent) {
        assert whole[|front|].source.classId == newId(ClassSite(g.child.value));
        assert whole[|front|].target.classId == newId(ClassSite(g.parent.value));
        assert whole == front + [whole[|front|]];
      } else {
        assert whole == front;
      }
    }
  }

  lemma {:induction false} AssociationEnds(newId: NewIds, xids: set<string>, associations: seq<RawAssociation>, id: ElementId)
    ensures (exists r :: r in BuildAssociations(newId, xids, associations) && (r.source.classId == id || r.target.classId == id))
      <==> exists a :: a in associations && ConnectsClasses(xids, a)
             && (newId(ClassSite(a.ends[0].classRef.value)) == id || newId(ClassSite(a.ends[1].classRef.value)) == id)
  {
    if associations != [] {
      var n := |associations| - 1;
      LastIsMember(associations);
      AssociationEnds(newId, xids, associations[..n], id);
      var front, whole := BuildAssociations(newId, xids, associations[..n]), BuildAssociations(newId, xids, associations);
      var a := associations[n];
      if ConnectsClasses(xids, a) {
        AssociationKeepsEnds(newId, newId(AssociationSite(n)), a);
        hide BuildAssociation;
        assert whole == front + [BuildAssociation(newId, newId(AssociationSite(n)), a)];
      } else {
        assert whole == front;
      }
    }
  }

  /** Reorienting an association keeps its two ends. */
  lemma AssociationKeepsEnds(newId: NewIds, id: ElementId, a: RawAssociation)
    requires |a.ends| == 2 && a.ends[0].classRef.Some? && a.ends[1].classRef.Some?
    ensures var r := BuildAssociation(newId, id, a);
      var first, second := newId(ClassSite(a.ends[0].classRef.value)), newId(ClassSite(a.ends[1].classRef.value));
      (r.source.classId == first && r.target.classId == second) || (r.source.classId == second && r.target.classId == first)
  {
  }

  lemma BuiltEnds(newId: NewIds, raw: Raw, xid: string)
    requires AllNew(newId)
    ensures EndsAt(newId, BuildModel(newId, raw).relationships, xid) <==> IsBuiltEnd(raw, xid)
  {
    var xids := XidsWhere(raw.classes, false);
    var id := newId(ClassSite(xid));
    GeneralizationEnds(newId, xids, raw.generalizations, id);
    AssociationEnds(newId, xids, raw.associations, id);
    var gs, bs := BuildGeneralizations(newId, xids, raw.generalizations), BuildAssociations(newId, xids, raw.associations);
    assert BuildModel(newId, raw).relationships == gs + bs;
    assert forall y :: newId(ClassSite(y)) == id ==> ClassSite(y) == ClassSite(xid);
    hide BuildModel, BuildGeneralizations, BuildAssociations, XidsWhere, IsClassRef, ConnectsClasses, AllNew;
  }

  /** The id of every built end is the new id of a built end's element. */
  lemma EndHasSite(newId: NewIds, raw: Raw, r: Relationship, id: ElementId)
    requires r in BuildModel(newId, raw).relationships && (r.source.classId == id || r.target.classId == id)
    ensures exists xid :: IsBuiltEnd(raw, xid) && id == newId(ClassSite(xid))
  {
    var xids := XidsWhere(raw.classes, false);
    GeneralizationEnds(newId, xids, raw.generalizations, id);
    AssociationEnds(newId, xids, raw.associations, id);
    var gs, bs := BuildGeneralizations(newId, xids, raw.generalizations), BuildAssociations(newId, xids, raw.associations);
    assert BuildModel(newId, raw).relationships == gs + bs;
    hide BuildModel, BuildGeneralizations, BuildAssociations, XidsWhere, ConnectsClasses;
    if r in gs {
      var g :| g in raw.generalizations && IsClassRef(xids, g.child) && IsClassRef(xids, g.parent)
        && (newId(ClassSite(g.child.value)) == id || newId(ClassSite(g.parent.value)) == id);
      assert IsBuiltEnd(raw, g.child.value) && IsBuiltEnd(raw, g.parent.value);
    } else {
      var a :| a in raw.associations && ConnectsClasses(xids, a)
        && (newId(ClassSite(a.ends[0].classRef.value)) == id || newId(ClassSite(a.ends[1].classRef.value)) == id);
      assert IsBuiltEnd(raw, a.ends[0].classRef.value) && IsBuiltEnd(raw, a.ends[1].classRef.value);
    }
  }

  lemma KeptIsLive(newId: NewIds, raw: Raw, xid: string)
    requires AllNew(newId)
    ensures IsClassId(BuildModel(newId, raw), newId(ClassSite(xid))) <==> !IsDropped(raw, xid)
  {
    var model := BuildModel(newId, raw);
    forall c { BuiltClassesStem(newId, raw, raw.classes, c); }
    assert model.classes == BuildClasses(newId, raw, raw.classes);
    hide BuildModel, BuildClasses, IsKept, BuildAttributes, BuildOperations;
    if IsClassId(model, newId(ClassSite(xid))) {
      var c :| c in model.classes && c.id == newId(ClassSite(xid));
      var x :| x in raw.classes && IsKept(raw, x) && c == BuildClass(newId, raw, x);
      assert ClassSite(x.xid) == ClassSite(xid);
    }
    if !IsDropped(raw, xid) {
      var x :| x in raw.classes && x.xid == xid && IsKept(raw, x);
      assert BuildClass(newId, raw, x) in model.classes;
    }
  }

  lemma DanglingIfDropped(newId: NewIds, raw: Raw, xid: string)
    requires AllNew(newId) && NoDanglingEnds(BuildModel(newId, raw)) && IsBuiltEnd(raw, xid)
    ensures !IsDropped(raw, xid)
  {
    BuiltEnds(newId, raw, xid);
    KeptIsLive(newId, raw, xid);
    hide BuildModel, IsBuiltEnd, IsDropped, IsClassId, AllNew;
  }

  lemma EndIsLive(newId: NewIds, raw: Raw, r: Relationship, id: ElementId)
    requires AllNew(newId) && forall xid :: IsBuiltEnd(raw, xid) ==> !IsDropped(raw, xid)
    requires r in BuildModel(newId, raw).relationships && (r.source.classId == id || r.target.classId == id)
    ensures IsClassId(BuildModel(newId, raw), id)
  {
    hide BuildModel, IsBuiltEnd, IsDropped, IsClassId, AllNew;
    EndHasSite(newId, raw, r, id);
    var xid :| IsBuiltEnd(raw, xid) && id == newId(ClassSite(xid));
    KeptIsLive(newId, raw, xid);
  }

  /** Hiding association classes can leave a relationship dangling. It does so exactly when a
      relationship of the file ends at a class element that is a mere association class. */
  lemma DanglingExactlyWhenDropped(newId: NewIds, raw: Raw)
    requires AllNew(newId)
    ensures NoDanglingEnds(BuildModel(newId, raw)) <==> forall xid :: IsBuiltEnd(raw, xid) ==> !IsDropped(raw, xid)
  {
    hide BuildModel, IsBuiltEnd, IsDropped, IsClassId, AllNew;
    var model := BuildModel(newId, raw);
    if NoDanglingEnds(model) {
      forall xid | IsBuiltEnd(raw, xid) ensures !IsDropped(raw, xid) {
        DanglingIfDropped(newId, raw, xid);
      }
    }
    if forall xid :: IsBuiltEnd(raw, xid) ==> !IsDropped(raw, xid) {
      forall r | r in model.relationships
        ensures IsClassId(model, r.source.classId) && IsClassId(model, r.target.classId)
      {
        EndIsLive(newId, raw, r, r.source.classId);
        EndIsLive(newId, raw, r, r.target.classId);
      }
    }
  }

  // ---- a file whose import dangles -------------------------------------

  const CLASS_A := Node("Class", map["xmi.id" := "1", "name" := "A"], [])
  const CLASS_B := Node("Class", map["xmi.id" := "2", "name" := "B"], [])
  const END_A := Node("AssociationEnd", map["type" := "1"], [])
  const END_B := Node("AssociationEnd", map["type" := "2"], [])

  /** An association from A to B that is tagged with B as its association class. */
  const TAGGED := Node("Association", map[], [
    Tags([("associationclass", "2")]), Node("Association.connection", map[], [END_A, END_B])])
  const LINKED_MODEL := Node("Model", map[], [Node("Namespace.ownedElement", map[], [CLASS_A, CLASS_B, TAGGED])])
  const LINKED_FILE := Node("XMI", map[], [Node("XMI.content", map[], [LINKED_MODEL])])

  const RAW_A := RawClass("1", "A", [], [], None, None, false)
  const RAW_B := RawClass("2", "B", [], [], None, None, false)
  const RAW_LINK := RawAssociation(
    None, [RawEnd(Some("1"), None, false, Aggregation, None), RawEnd(Some("2"), None, false, Aggregation, None)], Some("2"))
  const LINKED := Raw([RAW_A, RAW_B], [RAW_LINK], [], map[], None)

  lemma BareClassReads(el: Node)
    requires el == CLASS_A || el == CLASS_B
    ensures ReadClass(el) == Some(if el == CLASS_A then RAW_A else RAW_B)
  {
    assert Find(el, "Stereotype") == [];
    assert Lower("") == "";
  }

  lemma PlainEndReads(ref: string)
    requires ref != ""
    ensures ReadEnd(Node("AssociationEnd", map["type" := ref], [])) == RawEnd(Some(ref), None, false, Aggregation, None)
  {
    assert Lower("none") == "none";
    hide Lower;
  }

  lemma TagReads()
    ensures TagOr(Tagged(TAGGED), "associationclass") == Some("2")
  {
    var tags := [("associationclass", "2")];
    TaggedFirst(TAGGED, tags);
    assert tags[..0] == [];
    hide Tagged, Tags;
  }

  lemma ConnectionReads()
    ensures Kid(TAGGED, "Association.connection") == Some(TAGGED.children[1])
    ensures Kids(TAGGED.children[1], "AssociationEnd") == [END_A, END_B]
  {
    assert KidIn(TAGGED.children[1..], "Association.connection") == Some(TAGGED.children[1]);
    var kids := TAGGED.children[1].children;
    assert kids[..1] == [END_A] && kids[..1][..0] == [];
    assert KidsIn(kids[..1], "AssociationEnd") == [END_A];
    hide TagNodes;
  }

  lemma TaggedReads()
    ensures ReadAssociation(TAGGED) == RAW_LINK
  {
    TagReads();
    ConnectionReads();
    PlainEndReads("1");
    PlainEndReads("2");
    hide Tagged, Kid, Kids, ReadEnd, Tags, TagOr;
  }

  lemma WalkStep(raw: Raw, front: seq<Node>, el: Node)
    requires el.tag != "Package"
    ensures WalkAll(raw, front + [el]) == ReadElement(WalkAll(raw, front), el)
  {
    hide ReadElement;
    assert (front + [el])[..|front|] == front;
  }

  lemma ElementsRead()
    ensures ReadElement(EMPTY_RAW, CLASS_A) == EMPTY_RAW.(classes := [RAW_A])
    ensures ReadElement(EMPTY_RAW.(classes := [RAW_A]), CLASS_B) == EMPTY_RAW.(classes := [RAW_A, RAW_B])
    ensures ReadElement(EMPTY_RAW.(classes := [RAW_A, RAW_B]), TAGGED) == LINKED
  {
    BareClassReads(CLASS_A);
    BareClassReads(CLASS_B);
    TaggedReads();
    hide ReadClass, ReadAssociation;
  }

  lemma ElementsWalk(a: Node, b: Node, c: Node, first: Raw, second: Raw, third: Raw)
    requires a.tag != "Package" && b.tag != "Package" && c.tag != "Package"
    requires ReadElement(EMPTY_RAW, a) == first && ReadElement(first, b) == second && ReadElement(second, c) == third
    ensures WalkAll(EMPTY_RAW, [a, b, c]) == third
  {
    var none: seq<Node> := [];
    assert WalkAll(EMPTY_RAW, none) == EMPTY_RAW;
    assert [a, b, c] == none + [a] + [b] + [c];
    hide WalkAll, ReadElement;
    WalkStep(EMPTY_RAW, none, a);
    WalkStep(EMPTY_RAW, none + [a], b);
    WalkStep(EMPTY_RAW, none + [a] + [b], c);
  }

  /** The reader finds the two classes and the association. */
  lemma LinkedWalks()
    ensures Walk(EMPTY_RAW, LINKED_MODEL) == LINKED
  {
    ElementsRead();
    ElementsWalk(CLASS_A, CLASS_B, TAGGED, EMPTY_RAW.(classes := [RAW_A]), EMPTY_RAW.(classes := [RAW_A, RAW_B]), LINKED);
    hide ReadElement, WalkAll;
  }

  lemma LinkedDangles(newId: NewIds)
    requires AllNew(newId)
    ensures !NoDanglingEnds(BuildModel(newId, LINKED))
  {
    assert RAW_A in LINKED.classes && RAW_B in LINKED.classes && RAW_LINK in LINKED.associations;
    assert "1" in XidsWhere(LINKED.classes, false) && "2" in XidsWhere(LINKED.classes, false);
    assert IsBuiltEnd(LINKED, "2");
    assert IsMereAssociationClass(LINKED, RAW_B);
    assert IsDropped(LINKED, "2");
    hide BuildModel, IsBuiltEnd, IsDropped, AllNew;
    DanglingExactlyWhenDropped(newId, LINKED);
  }

  lemma ClassAIsBuilt(newId: NewIds)
    ensures BuildModel(newId, LINKED).classes != []
  {
    assert RAW_A in LINKED.classes && IsKept(LINKED, RAW_A);
    BuiltClassesStem(newId, LINKED, LINKED.classes, BuildClass(newId, LINKED, RAW_A));
    hide BuildClass, BuildClasses;
  }

  lemma OnlyChildIsFirst(el: Node, child: Node, tag: string)
    requires el.tag != tag && el.children == [child] && child.tag == tag
    ensures Find(el, tag) != [] && Find(el, tag)[0] == child
  {
    assert Find(child, tag)[0] == child;
    assert el.children[..0] == [];
    assert FindAll(el.children, tag) == [] + Find(child, tag);
  }

  lemma LinkedImports(newId: NewIds)
    requires AllNew(newId)
    ensures Import(newId, LINKED_FILE).Ok? && Import(newId, LINKED_FILE).value.model == BuildModel(newId, LINKED)
  {
    var content := LINKED_FILE.children[0];
    assert Kid(LINKED_FILE, "XMI.content") == Some(content);
    OnlyChildIsFirst(content, LINKED_MODEL, "Model");
    LinkedWalks();
    ClassAIsBuilt(newId);
    hide Walk, BuildModel, BuildLayout, ReadDiagrams, ClassDiagramsFirst, FindAll;
  }

  /** A file that the importer accepts, and whose import has a relationship to a class that is gone. */
  lemma LinkedImportDangles(newId: NewIds)
    requires AllNew(newId)
    ensures Import(newId, LINKED_FILE).Ok? && !NoDanglingEnds(Import(newId, LINKED_FILE).value.model)
  {
    hide *;
    LinkedImports(newId);
    LinkedDangles(newId);
  }
}
