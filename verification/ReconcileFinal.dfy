/** The classes and relationships of a reconciled document. */
module ReconcileFinal {
  import opened Text
  import opened Seqs
  import opened Uml
  import opened Calls
  import opened Documents
  import opened Translator
  import opened Reconcile
  import opened ReconcileMembers
  import opened ReconcileCalls
  import opened ReconcileTrim
  import opened ReconcileGrow
  import opened ReconcileTheorems

  // ---- members of the final classes ------------------------------------

  /** The same names and texts, whatever class they are noted under. */
  ghost predicate Agree(a: seq<Member>, b: seq<Member>) {
    |a| == |b| && forall i :: 0 <= i < |a| ==> a[i].name == b[i].name && a[i].text == b[i].text
  }

  lemma AgreeingViews(normalize: Normalize, a: seq<Member>, b: seq<Member>)
    requires Agree(a, b)
    ensures Views(normalize, a) == Views(normalize, b)
    ensures DistinctKeys(normalize, b) ==> DistinctKeys(normalize, a)
  {
    forall m | m in a ensures ViewOf(normalize, m) in Views(normalize, b) {
      var i :| 0 <= i < |a| && a[i] == m;
      assert b[i] in b && ViewOf(normalize, b[i]) == ViewOf(normalize, m);
    }
    forall m | m in b ensures ViewOf(normalize, m) in Views(normalize, a) {
      var i :| 0 <= i < |b| && b[i] == m;
      assert a[i] in a && ViewOf(normalize, a[i]) == ViewOf(normalize, m);
    }
  }

  lemma AgreeingSame(normalize: Normalize, a: seq<Member>, b: seq<Member>, wanted: seq<Member>)
    requires Agree(a, b) && SameMembers(normalize, b, wanted)
    ensures SameMembers(normalize, a, wanted)
  {
    AgreeingViews(normalize, a, b);
    hide Views, DistinctKeys;
  }

  /** Built attributes read back as the members they were built from. */
  lemma BuiltAttributesAgree(x: UmlClass, newId: NewIds, n: nat, members: seq<Member>)
    requires forall m :: m in members ==> AttributeIsReady(m)
    ensures Agree(MembersOfAttributes(x, BuiltAttributes(newId, n, members)), members)
  {
    forall i | 0 <= i < |members| ensures TypeText(TypeOf(members[i].text)) == members[i].text {
      assert AttributeIsReady(members[i]);
    }
    hide TypeText, TypeOf;
  }

  lemma BuiltOperationsAgree(x: UmlClass, newId: NewIds, n: nat, members: seq<Member>)
    requires forall m :: m in members ==> OperationIsReady(m)
    ensures Agree(MembersOfOperations(x, BuiltOperations(newId, n, members)), members)
  {
    forall i | 0 <= i < |members|
      ensures ReturnText(if members[i].text == "" then None else Some(TypeOf(members[i].text))) == members[i].text
    {
      assert OperationIsReady(members[i]);
    }
    hide ReturnText, TypeOf;
  }

  lemma AgreeAppend(front: seq<Member>, a: seq<Member>, b: seq<Member>)
    requires Agree(a, b)
    ensures Agree(front + a, front + b)
  {
  }

  lemma KeptAttributesMatch(
      normalize: Normalize, existing: seq<Member>, wanted: seq<Member>, y: UmlClass, newId: NewIds, n: nat)
    requires DistinctKeys(normalize, existing) && DistinctKeys(normalize, wanted)
    requires forall m :: m in wanted ==> AttributeIsReady(m)
    requires AttributeMembers(y) ==
      Kept(normalize, existing, wanted) + MembersOfAttributes(y, BuiltAttributes(newId, n, Missing(normalize, existing, wanted)))
    ensures SameMembers(normalize, AttributeMembers(y), wanted)
  {
    hide *;
    var kept, missing := Kept(normalize, existing, wanted), Missing(normalize, existing, wanted);
    MissingMembers(normalize, existing, wanted);
    BuiltAttributesAgree(y, newId, n, missing);
    AgreeAppend(kept, MembersOfAttributes(y, BuiltAttributes(newId, n, missing)), missing);
    DiffMeetsWanted(normalize, existing, wanted);
    AgreeingSame(normalize, AttributeMembers(y), kept + missing, wanted);
  }

  lemma KeptOperationsMatch(
      normalize: Normalize, existing: seq<Member>, wanted: seq<Member>, y: UmlClass, newId: NewIds, n: nat)
    requires DistinctKeys(normalize, existing) && DistinctKeys(normalize, wanted)
    requires forall m :: m in wanted ==> OperationIsReady(m)
    requires OperationMembers(y) ==
      Kept(normalize, existing, wanted) + MembersOfOperations(y, BuiltOperations(newId, n, Missing(normalize, existing, wanted)))
    ensures SameMembers(normalize, OperationMembers(y), wanted)
  {
    hide *;
    var kept, missing := Kept(normalize, existing, wanted), Missing(normalize, existing, wanted);
    MissingMembers(normalize, existing, wanted);
    BuiltOperationsAgree(y, newId, n, missing);
    AgreeAppend(kept, MembersOfOperations(y, BuiltOperations(newId, n, missing)), missing);
    DiffMeetsWanted(normalize, existing, wanted);
    AgreeingSame(normalize, OperationMembers(y), kept + missing, wanted);
  }

  lemma ReadyKeys(normalize: Normalize, c: UmlClass, d: Desired)
    requires ClassIsReady(normalize, c) && DesiredIsReady(normalize, d)
    ensures DistinctKeys(normalize, AttributeMembers(c)) && DistinctKeys(normalize, OperationMembers(c))
    ensures DistinctKeys(normalize, d.attributes) && DistinctKeys(normalize, d.operations)
    ensures (forall m :: m in d.attributes ==> AttributeIsReady(m)) && forall m :: m in d.operations ==> OperationIsReady(m)
  {
    hide DistinctKeys, AttributeMembers, OperationMembers, AttributeIsReady, OperationIsReady;
  }

  /** A class of the document that got the missing members of its desired class. */
  lemma KeptClassMatches(
      normalize: Normalize, c: UmlClass, d: Desired, x: UmlClass, y: UmlClass, newId: NewIds, n: nat)
    requires ClassIsReady(normalize, c) && DesiredIsReady(normalize, d)
    requires AttributeMembers(x) == Kept(normalize, AttributeMembers(c), d.attributes)
    requires OperationMembers(x) == Kept(normalize, OperationMembers(c), d.operations)
    requires var attributes, operations :=
        Missing(normalize, AttributeMembers(c), d.attributes), Missing(normalize, OperationMembers(c), d.operations);
      y == WithMembers(x, BuiltAttributes(newId, n, attributes), BuiltOperations(newId, n + |attributes|, operations))
    ensures SameMembers(normalize, AttributeMembers(y), d.attributes)
    ensures SameMembers(normalize, OperationMembers(y), d.operations)
  {
    hide *;
    var attributes, operations :=
      Missing(normalize, AttributeMembers(c), d.attributes), Missing(normalize, OperationMembers(c), d.operations);
    ReadyKeys(normalize, c, d);
    GrownMembers(x, y, BuiltAttributes(newId, n, attributes), BuiltOperations(newId, n + |attributes|, operations));
    KeptAttributesMatch(normalize, AttributeMembers(c), d.attributes, y, newId, n);
    KeptOperationsMatch(normalize, OperationMembers(c), d.operations, y, newId, n + |attributes|);
  }

  lemma GrownMembers(x: UmlClass, y: UmlClass, attributes: seq<UmlAttribute>, operations: seq<UmlOperation>)
    requires y == WithMembers(x, attributes, operations)
    ensures AttributeMembers(y) == AttributeMembers(x) + MembersOfAttributes(y, attributes)
    ensures OperationMembers(y) == OperationMembers(x) + MembersOfOperations(y, operations)
  {
    hide TypeText, ReturnText;
  }

  /** A class created for a desired class. */
  lemma NewClassMatches(normalize: Normalize, d: Desired, newId: NewIds, n: nat)
    requires DesiredIsReady(normalize, d)
    ensures ClassMatches(normalize, NewClassOf(newId, n, d), d)
  {
    var y := NewClassOf(newId, n, d);
    MembersAre(y);
    BuiltAttributesAgree(y, newId, n + 1, d.attributes);
    BuiltOperationsAgree(y, newId, n + 1 + |d.attributes|, d.operations);
    hide MembersOfAttributes, MembersOfOperations, BuiltAttributes, BuiltOperations, AttributeMembers, OperationMembers, AttributeIsReady,
         OperationIsReady, Views, DistinctKeys, Agree;
    AgreeingSame(normalize, AttributeMembers(y), d.attributes, d.attributes);
    AgreeingSame(normalize, OperationMembers(y), d.operations, d.operations);
  }

  // ---- the final classes -----------------------------------------------

  /** What the sections make of a class of the document. */
  ghost predicate IsGrownFor(normalize: Normalize, newId: NewIds, c: UmlClass, d: Desired, x: UmlClass, y: UmlClass, n: nat) {
    var attributes, operations :=
      Missing(normalize, AttributeMembers(c), d.attributes), Missing(normalize, OperationMembers(c), d.operations);
    y == WithMembers(x, BuiltAttributes(newId, n, attributes), BuiltOperations(newId, n + |attributes|, operations))
  }

  /** A section for another class leaves this class alone. */
  lemma OtherSection(normalize: Normalize, newId: NewIds, n: nat, classes: seq<UmlClass>, d: Desired, c: UmlClass, x: UmlClass)
    requires ClassesDistinct(classes) && c in classes && x.id == c.id && normalize(d.name) != normalize(c.name)
    ensures AfterSection(normalize, newId, n, classes, d, x) == x
  {
    var found := ClassNamed(normalize, classes, d.name);
    if found.Some? && found.value.id == x.id {
      SameClass(classes, found.value, c);
    }
    hide BuiltAttributes, BuiltOperations, Missing, AttributeMembers, OperationMembers;
  }

  lemma OwnSection(normalize: Normalize, newId: NewIds, n: nat, classes: seq<UmlClass>, d: Desired, c: UmlClass, x: UmlClass)
    requires ClassKeysDistinct(normalize, classes) && c in classes && x.id == c.id && normalize(d.name) == normalize(c.name)
    ensures IsGrownFor(normalize, newId, c, d, x, AfterSection(normalize, newId, n, classes, d, x), n)
  {
    ClassIsNamed(normalize, classes, c, d.name);
    hide BuiltAttributes, BuiltOperations, Missing, AttributeMembers, OperationMembers, WithMembers;
  }

  lemma {:induction false} NoSection(
      normalize: Normalize, newId: NewIds, n: nat, classes: seq<UmlClass>, desired: seq<Desired>, c: UmlClass, x: UmlClass)
    requires ClassesDistinct(classes) && c in classes && x.id == c.id
    requires forall d :: d in desired ==> normalize(d.name) != normalize(c.name)
    ensures AfterSections(normalize, newId, n, classes, desired, x) == x
  {
    hide AfterSection, AllSections, ClassesDistinct;
    if desired != [] {
      var m := |desired| - 1;
      LastIsMember(desired);
      NoSection(normalize, newId, n, classes, desired[..m], c, x);
      OtherSection(normalize, newId, n + |AllSections(normalize, newId, n, classes, desired[..m])|, classes, desired[m], c, x);
    }
  }

  /** Exactly one section grows an extracted class of the document. */
  lemma {:induction false} SectionsGrowOnce(
      normalize: Normalize, newId: NewIds, n: nat, classes: seq<UmlClass>, desired: seq<Desired>, c: UmlClass, d: Desired, x: UmlClass)
    returns (k: nat)
    requires ClassesDistinct(classes) && ClassKeysDistinct(normalize, classes) && c in classes && x.id == c.id
    requires DesiredKeysDistinct(normalize, desired) && d in desired && normalize(d.name) == normalize(c.name)
    ensures IsGrownFor(normalize, newId, c, d, x, AfterSections(normalize, newId, n, classes, desired, x), k)
  {
    hide AfterSection, AllSections, ClassesDistinct, ClassKeysDistinct, IsGrownFor;
    var m := |desired| - 1;
    var at := n + |AllSections(normalize, newId, n, classes, desired[..m])|;
    if desired[m] == d {
      k := at;
      forall e | e in desired[..m] ensures normalize(e.name) != normalize(c.name) {
        var i :| 0 <= i < m && desired[i] == e;
      }
      NoSection(normalize, newId, n, classes, desired[..m], c, x);
      OwnSection(normalize, newId, at, classes, d, c, x);
    } else {
      assert d in desired[..m];
      k := SectionsGrowOnce(normalize, newId, n, classes, desired[..m], c, d, x);
      AfterSectionsKeepsId(normalize, newId, n, classes, desired[..m], x);
      var i :| 0 <= i < m && desired[i] == d;
      assert normalize(desired[m].name) != normalize(c.name);
      OtherSection(normalize, newId, at, classes, desired[m], c, AfterSections(normalize, newId, n, classes, desired[..m], x));
    }
  }

  // ---- the new classes -------------------------------------------------

  /** The number of commands before the section of the j-th desired class. */
  function SectionStart(normalize: Normalize, newId: NewIds, n: nat, classes: seq<UmlClass>, desired: seq<Desired>, j: nat): nat
    requires j <= |desired|
  {
    n + |AllSections(normalize, newId, n, classes, desired[..j])|
  }

  /** The class the j-th section creates. */
  ghost predicate IsNewAt(
      normalize: Normalize, newId: NewIds, n: nat, classes: seq<UmlClass>, desired: seq<Desired>, j: nat, y: UmlClass)
  {
    j < |desired| && ClassNamed(normalize, classes, desired[j].name).None?
    && y == NewClassOf(newId, SectionStart(normalize, newId, n, classes, desired, j), desired[j])
  }

  ghost predicate IsNew(normalize: Normalize, newId: NewIds, n: nat, classes: seq<UmlClass>, desired: seq<Desired>, y: UmlClass) {
    exists j: nat :: IsNewAt(normalize, newId, n, classes, desired, j, y)
  }

  lemma SamePrefix<T>(s: seq<T>, m: nat, j: nat)
    requires j <= m <= |s|
    ensures s[..m][..j] == s[..j]
  {
  }

  lemma NewAtPrefix(
      normalize: Normalize, newId: NewIds, n: nat, classes: seq<UmlClass>, desired: seq<Desired>, j: nat, y: UmlClass)
    requires desired != [] && j < |desired| - 1
    ensures IsNewAt(normalize, newId, n, classes, desired[..|desired| - 1], j, y) <==>
      IsNewAt(normalize, newId, n, classes, desired, j, y)
  {
    hide AllSections, ClassNamed, NewClassOf;
    SamePrefix(desired, |desired| - 1, j);
    StartOfPrefix(normalize, newId, n, classes, desired, |desired| - 1, j);
  }

  lemma StartOfPrefix(normalize: Normalize, newId: NewIds, n: nat, classes: seq<UmlClass>, desired: seq<Desired>, m: nat, j: nat)
    requires j <= m <= |desired|
    ensures SectionStart(normalize, newId, n, classes, desired[..m], j) == SectionStart(normalize, newId, n, classes, desired, j)
  {
    hide AllSections;
    SamePrefix(desired, m, j);
  }

  lemma NewOneMore(normalize: Normalize, newId: NewIds, n: nat, classes: seq<UmlClass>, desired: seq<Desired>, y: UmlClass)
    requires desired != []
    ensures IsNew(normalize, newId, n, classes, desired, y) <==>
      IsNew(normalize, newId, n, classes, desired[..|desired| - 1], y)
      || IsNewAt(normalize, newId, n, classes, desired, |desired| - 1, y)
  {
    var m := |desired| - 1;
    if IsNew(normalize, newId, n, classes, desired, y) {
      var j: nat :| IsNewAt(normalize, newId, n, classes, desired, j, y);
      if j < m {
        NewAtPrefix(normalize, newId, n, classes, desired, j, y);
      }
    }
    if IsNew(normalize, newId, n, classes, desired[..m], y) {
      var j: nat :| IsNewAt(normalize, newId, n, classes, desired[..m], j, y);
      NewAtPrefix(normalize, newId, n, classes, desired, j, y);
    }
    hide AllSections, ClassNamed, NewClassOf, SectionStart;
  }

  /** The new classes are those of the desired classes that the document lacks. */
  lemma {:induction false} NewClassesAre(normalize: Normalize, newId: NewIds, n: nat, classes: seq<UmlClass>, desired: seq<Desired>)
    ensures forall y :: y in NewClasses(normalize, newId, n, classes, desired) <==> IsNew(normalize, newId, n, classes, desired, y)
  {
    hide AllSections, ClassNamed, NewClassOf, IsNew;
    if desired == [] {
      NoneIsNew(normalize, newId, n, classes);
    } else {
      var m := |desired| - 1;
      NewClassesAre(normalize, newId, n, classes, desired[..m]);
      forall y { NewOneMore(normalize, newId, n, classes, desired, y); }
    }
  }

  lemma NoneIsNew(normalize: Normalize, newId: NewIds, n: nat, classes: seq<UmlClass>)
    ensures forall y :: !IsNew(normalize, newId, n, classes, [], y)
  {
  }

  /** The registry knows a new class by its name. */
  lemma {:induction false} RegistryKnowsNew(
      normalize: Normalize, newId: NewIds, n: nat, classes: seq<UmlClass>, desired: seq<Desired>, registry: Registry, j: nat)
    requires DesiredKeysDistinct(normalize, desired) && j < |desired| && ClassNamed(normalize, classes, desired[j].name).None?
    ensures var all := AllRegistry(normalize, newId, n, classes, desired, registry);
      normalize(desired[j].name) in all
      && all[normalize(desired[j].name)] == newId(SectionStart(normalize, newId, n, classes, desired, j))
  {
    hide AllSections, ClassNamed;
    var m := |desired| - 1;
    if j < m {
      SamePrefix(desired, m, j);
      RegistryKnowsNew(normalize, newId, n, classes, desired[..m], registry, j);
      assert normalize(desired[j].name) != normalize(desired[m].name);
    }
  }
}
