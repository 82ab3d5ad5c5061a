/** The loops of the importer: the readers fill one mutable structure, then the canonical
    model is built from it. */
module XmiReader {
  import opened Text
  import opened Seqs
  import opened Uml
  import opened Documents
  import opened Geometry
  import opened Xml
  import opened XmiImport

  // ---- reading one class -----------------------------------------------

  lemma OneMoreFeature(features: seq<Node>, i: nat)
    requires i < |features|
    ensures var f := features[i];
      && ReadAttributes(features[..i + 1]) == ReadAttributes(features[..i]) + (if f.tag == "Attribute" then [ReadAttribute(f)] else [])
      && ReadOperations(features[..i + 1]) == ReadOperations(features[..i])
           + (if f.tag == "Operation" then [RawOperation(GetOr(f, "name", ""), Get(f, "visibility"))] else [])
      && ReadLiterals(features[..i + 1]) == ReadLiterals(features[..i]) + (if f.tag == "Attribute" then [GetOr(f, "name", "")] else [])
  {
    hide ReadAttribute, GetOr, Get;
    PrefixStep(features, i);
    assert features[..i + 1][i] == features[i];
  }

  /** `_read_class_v1`. */
  method ReadClassV1(el: Node) returns (r: Option<RawClass>)
    ensures r == ReadClass(el)
  {
    hide IsRootClass, IsEnumerationClass, ReadAttribute, Tagged, Features, ReadAttributes, ReadOperations, ReadLiterals, Get, GetOr;
    if IsRootClass(el) {
      return None;
    }
    var isEnum := IsEnumerationClass(el);
    var features := Features(el);
    var attributes: seq<RawAttribute>, operations: seq<RawOperation>, literals: seq<string> := [], [], [];
    NoFeatures();
    for i := 0 to |features|
      invariant attributes == if isEnum then [] else ReadAttributes(features[..i])
      invariant operations == ReadOperations(features[..i])
      invariant isEnum ==> literals == ReadLiterals(features[..i])
    {
      OneMoreFeature(features, i);
      var feature := features[i];
      if feature.tag == "Attribute" {
        if isEnum {
          literals := literals + [GetOr(feature, "name", "")];
          continue;
        }
        attributes := attributes + [ReadAttribute(feature)];
      } else if feature.tag == "Operation" {
        operations := operations + [RawOperation(GetOr(feature, "name", ""), Get(feature, "visibility"))];
      }
    }
    FullPrefix(features);
    return Some(RawClass(
      GetOr(el, "xmi.id", ""), GetOr(el, "name", ""), attributes, operations, if isEnum then Some(literals) else None,
      Get(el, "visibility"), TagOr(Tagged(el), "modelia_synthetic") == Some("join_table")));
  }

  lemma NoFeatures()
    ensures ReadAttributes([]) == [] && ReadOperations([]) == [] && ReadLiterals([]) == []
  {
  }

  // ---- the neutral structure -------------------------------------------

  class RawFile {
    var classes: seq<RawClass>
    var associations: seq<RawAssociation>
    var generalizations: seq<RawGeneralization>
    var datatypes: map<string, string>
    var packageName: Option<string>

    constructor ()
      ensures View() == EMPTY_RAW
    {
      classes, associations, generalizations, datatypes, packageName := [], [], [], map[], None;
    }

    function View(): Raw
      reads this
    {
      Raw(classes, associations, generalizations, datatypes, packageName)
    }

    method ReadOne(el: Node)
      modifies this
      ensures View() == ReadElement(old(View()), el)
    {
      hide ReadClass, ReadAssociation, ReadGeneralization, Find, GetOr, LiteralNames;
      if el.tag == "Class" {
        var c := ReadClassV1(el);
        if c.Some? {
          classes := classes + [c.value];
        }
      } else if el.tag == "Enumeration" {
        var literals := LiteralNames(Find(el, "EnumerationLiteral"));
        classes := classes + [RawClass(GetOr(el, "xmi.id", ""), GetOr(el, "name", ""), [], [], Some(literals), None, false)];
      } else if el.tag == "Association" {
        associations := associations + [ReadAssociation(el)];
      } else if el.tag == "Generalization" {
        generalizations := generalizations + [ReadGeneralization(el)];
      } else if el.tag == "DataType" {
        datatypes := datatypes[GetOr(el, "xmi.id", "") := GetOr(el, "name", "")];
      }
    }

    /** `_walk_v1`: packages are entered where they stand. */
    method WalkContainer(container: Node)
      modifies this
      ensures View() == Walk(old(View()), container)
      decreases container
    {
      hide ReadElement, Kid, GetOr;
      var owned := Kid(container, "Namespace.ownedElement");
      if owned.None? {
        return;
      }
      var elements := owned.value.children;
      NothingWalked(View());
      for i := 0 to |elements|
        invariant View() == WalkAll(old(View()), elements[..i])
      {
        var el := elements[i];
        OneMoreElement(old(View()), elements, i);
        hide WalkAll;
        if el.tag == "Package" {
          if NonEmpty(packageName).None? {
            packageName := Some(GetOr(el, "name", ""));
          }
          WalkContainer(el);
        } else {
          ReadOne(el);
        }
      }
      FullPrefix(elements);
    }
  }

  lemma NothingWalked(raw: Raw)
    ensures WalkAll(raw, []) == raw
  {
  }

  lemma OneMoreElement(raw: Raw, elements: seq<Node>, i: nat)
    requires i < |elements|
    ensures var el := elements[i];
      var before := WalkAll(raw, elements[..i]);
      WalkAll(raw, elements[..i + 1]) ==
        if el.tag == "Package" then
          Walk(before.(packageName :=
            if NonEmpty(before.packageName).Some? then before.packageName else Some(GetOr(el, "name", ""))), el)
        else ReadElement(before, el)
  {
    hide Walk, ReadElement, GetOr;
    PrefixStep(elements, i);
    assert elements[..i + 1][i] == elements[i];
  }

  // ---- diagrams --------------------------------------------------------

  method CollectBoxes(before: map<string, Position>, elements: seq<Node>) returns (positions: map<string, Position>)
    ensures positions == ReadBoxes(before, elements)
  {
    hide CentreOf, Get, GetOr;
    positions := before;
    for i := 0 to |elements|
      invariant positions == ReadBoxes(before, elements[..i])
    {
      PrefixStep(elements, i);
      assert elements[..i + 1][i] == elements[i];
      var subject := NonEmpty(Get(elements[i], "subject"));
      var centre := CentreOf(GetOr(elements[i], "geometry", ""));
      if subject.Some? && centre.Some? && subject.value !in positions {
        positions := positions[subject.value := centre.value];
      }
    }
    FullPrefix(elements);
  }

  /** `_read_v1_diagrams`, on the sorted diagrams. */
  method CollectDiagrams(diagrams: seq<Node>) returns (r: Diagrams)
    ensures r == ReadDiagrams(diagrams)
  {
    hide Find, Get, ReadBoxes;
    r := Diagrams(map[], None);
    for i := 0 to |diagrams|
      invariant r == ReadDiagrams(diagrams[..i])
    {
      PrefixStep(diagrams, i);
      assert diagrams[..i + 1][i] == diagrams[i];
      var d := diagrams[i];
      var name := r.name;
      if name.None? && (Get(d, "diagramType").None? || IsClassDiagram(d)) {
        name := NonEmpty(Get(d, "name"));
      }
      var positions := CollectBoxes(r.positions, Find(d, "DiagramElement"));
      r := Diagrams(positions, name);
    }
    FullPrefix(diagrams);
  }

  // ---- canonical mapping -----------------------------------------------

  method AttributesLoop(newId: NewIds, raw: Raw, xid: string, attributes: seq<RawAttribute>) returns (built: seq<UmlAttribute>)
    ensures built == BuildAttributes(newId, raw, xid, attributes)
  {
    hide ResolveType, VisibilityOr;
    built := [];
    for i := 0 to |attributes|
      invariant built == BuildAttributes(newId, raw, xid, attributes[..i])
    {
      PrefixStep(attributes, i);
      assert attributes[..i + 1][i] == attributes[i];
      var a := attributes[i];
      var typ := ResolveType(newId, raw, a);
      if typ.Some? {
        built := built + [UmlAttribute(newId(AttributeSite(xid, i)), a.name, typ.value, VisibilityOr(a.visibility, Private))];
      }
    }
    FullPrefix(attributes);
  }

  /** The classes are built first and the association classes hidden afterwards. */
  method ClassesLoop(newId: NewIds, raw: Raw) returns (built: seq<UmlClass>)
    ensures built == BuildClasses(newId, raw, raw.classes)
  {
    hide BuildAttributes, BuildOperations, VisibilityOr, IsHidden;
    built := [];
    for i := 0 to |raw.classes|
      invariant built == BuildClasses(newId, raw, raw.classes[..i])
    {
      PrefixStep(raw.classes, i);
      assert raw.classes[..i + 1][i] == raw.classes[i];
      var c := raw.classes[i];
      if IsEnum(c) {
        continue;
      }
      var attributes := AttributesLoop(newId, raw, c.xid, c.attributes);
      var umlClass := UmlClass(newId(ClassSite(c.xid)), c.name, attributes, BuildOperations(newId, c.xid, c.operations),
                               VisibilityOr(c.visibility, Public));
      if !IsHidden(raw, c, umlClass) {
        built := built + [umlClass];
      }
    }
    FullPrefix(raw.classes);
  }

  method EnumerationsLoop(newId: NewIds, classes: seq<RawClass>) returns (built: seq<Enumeration>)
    ensures built == BuildEnumerations(newId, classes)
  {
    hide BuildLiterals;
    built := [];
    for i := 0 to |classes|
      invariant built == BuildEnumerations(newId, classes[..i])
    {
      PrefixStep(classes, i);
      assert classes[..i + 1][i] == classes[i];
      var c := classes[i];
      if IsEnum(c) {
        built := built + [Enumeration(newId(ClassSite(c.xid)), c.name, BuildLiterals(newId, c.xid, c.literals.value))];
      }
    }
    FullPrefix(classes);
  }

  /** `_build_relationships`: generalizations, then associations with the whole end first. */
  method RelationshipsLoop(newId: NewIds, xids: set<string>, raw: Raw) returns (built: seq<Relationship>)
    ensures built == BuildGeneralizations(newId, xids, raw.generalizations) + BuildAssociations(newId, xids, raw.associations)
  {
    hide BuildEnd;
    built := [];
    for i := 0 to |raw.generalizations|
      invariant built == BuildGeneralizations(newId, xids, raw.generalizations[..i])
    {
      PrefixStep(raw.generalizations, i);
      assert raw.generalizations[..i + 1][i] == raw.generalizations[i];
      var g := raw.generalizations[i];
      if IsClassRef(xids, g.child) && IsClassRef(xids, g.parent) {
        built := built + [Relationship(newId(GeneralizationSite(i)), Generalization,
          RelationshipEnd(newId(ClassSite(g.child.value)), ONE, None),
          RelationshipEnd(newId(ClassSite(g.parent.value)), ONE, None), None)];
      }
    }
    FullPrefix(raw.generalizations);
    ghost var generalizations := built;
    for i := 0 to |raw.associations|
      invariant built == generalizations + BuildAssociations(newId, xids, raw.associations[..i])
    {
      PrefixStep(raw.associations, i);
      assert raw.associations[..i + 1][i] == raw.associations[i];
      var a := raw.associations[i];
      if !ConnectsClasses(xids, a) {
        continue;
      }
      var first, second := a.ends[0], a.ends[1];
      var source, target, kind := first, second, Association;
      if first.whole || second.whole {
        if !first.whole {
          source, target := second, first;
        }
        kind := source.kind;
      }
      built := built + [Relationship(newId(AssociationSite(i)), kind, BuildEnd(newId, source), BuildEnd(newId, target), a.name)];
    }
    FullPrefix(raw.associations);
  }

  /** `import_xmi`. */
  method ImportXmi(newId: NewIds, root: Node) returns (r: Result<Imported, ImportError>)
    requires AllNew(newId)
    ensures r == Import(newId, root)
  {
    hide Kid, Find, Walk, ReadDiagrams, ClassDiagramsFirst, BuildClasses, BuildEnumerations, BuildGeneralizations,
         BuildAssociations, XidsWhere, BuildLayout, AllNew;
    var content := Kid(root, "XMI.content");
    if content.None? || root.tag != "XMI" {
      return Err(NotXmi1);
    }
    var models := Find(content.value, "Model");
    if models == [] {
      return Err(NoModel);
    }
    var file := new RawFile();
    file.WalkContainer(models[0]);
    var raw := file.View();
    var diagrams := CollectDiagrams(ClassDiagramsFirst(Find(content.value, "Diagram")));
    var classes := ClassesLoop(newId, raw);
    var enumerations := EnumerationsLoop(newId, raw.classes);
    var relationships := RelationshipsLoop(newId, XidsWhere(raw.classes, false), raw);
    if classes == [] {
      return Err(NoClasses);
    }
    return Ok(Imported(Model(classes, enumerations, relationships, map[]), BuildLayout(newId, raw, diagrams.positions),
                       if NonEmpty(diagrams.name).Some? then diagrams.name else raw.packageName));
  }
}
