/** Every successful mapping is a well-formed schema. */
module MapperSound {
  import opened Text
  import opened Uml
  import opened Naming
  import opened Schema
  import opened Hierarchy
  import opened Trees
  import opened Mapper

  // ---- one table -------------------------------------------------------

  /** A column is the key, the discriminator, an attribute's or a foreign key's. */
  ghost predicate SoundColumn(enumNames: set<string>, t: Table, c: Column) {
    || c == ID_COLUMN
    || (c == TYPE_COLUMN && t.discriminatorColumn == Some(c.name))
    || (&& c.sourceElementId.Some? && c.owningClassId.Some? && c.owningClassId.value in t.sourceClassIds
        && (c.typ == ENUM ==> c.enumTypeName.Some? && c.enumTypeName.value in enumNames))
    || (&& c.sourceElementId.None? && c.owningClassId.None? && c.typ == UUID
        && exists fk :: fk in t.foreignKeys && fk.columnNames == [c.name])
  }

  /** The discriminator is there exactly when the table holds several classes. */
  ghost predicate SoundDiscriminator(t: Table) {
    if |t.sourceClassIds| >= 2 then
      && t.discriminatorColumn == Some("class_type") && TYPE_COLUMN in t.columns
      && forall id :: id in t.discriminatorValues <==> id in t.sourceClassIds
    else t.discriminatorColumn == None && t.discriminatorValues == map[]
  }

  ghost predicate SoundTable(enumNames: set<string>, t: Table) {
    && WellFormedTable(t)
    && ID_COLUMN in t.columns
    && SoundDiscriminator(t)
    && forall c :: c in t.columns ==> SoundColumn(enumNames, t, c)
  }

  /** Appending keeps what was there. */
  ghost predicate Grows(t: Table, u: Table) {
    && u.name == t.name && u.primaryKey == t.primaryKey && u.sourceClassIds == t.sourceClassIds
    && u.discriminatorColumn == t.discriminatorColumn && u.discriminatorValues == t.discriminatorValues
    && u.profile == t.profile
    && t.columns <= u.columns && t.foreignKeys <= u.foreignKeys
    && t.uniqueConstraints <= u.uniqueConstraints && t.indexes <= u.indexes
  }

  lemma AppendColumn(t: Table, u: Table, c: Column)
    requires WellFormedTable(t) && ID_COLUMN in t.columns
    requires c.name !in ColumnNames(t.columns) && u.columns == t.columns + [c]
    requires u.primaryKey == t.primaryKey
    ensures DistinctColumnNames(u) && HasIdKey(u) && ID_COLUMN in u.columns
    ensures ColumnNames(u.columns) == ColumnNames(t.columns) + {c.name}
    ensures forall fk :: fk in t.foreignKeys ==> IsSimpleForeignKey(u, fk)
    ensures forall names :: HasColumns(t, names) ==> HasColumns(u, names)
  {
    assert ID_COLUMN in u.columns;
    forall d | d in u.columns ensures d in t.columns || d == c {}
    forall fk | fk in t.foreignKeys ensures IsSimpleForeignKey(u, fk) {
      assert IsSimpleForeignKey(t, fk);
      var d :| d in t.columns && d.name == fk.columnNames[0] && d.typ == UUID && d.sourceElementId.None?;
      assert d in u.columns;
    }
  }

  lemma AppendKeepsWellFormed(t: Table, u: Table, c: Column)
    requires WellFormedTable(t) && ID_COLUMN in t.columns && u == t.(columns := t.columns + [c])
    requires c.name !in ColumnNames(t.columns)
    ensures WellFormedTable(u) && ID_COLUMN in u.columns
  {
    AppendColumn(t, u, c);
    hide HasIdKey, IsSimpleForeignKey, HasColumns, ColumnNames, DistinctColumnNames;
  }

  /** Appending a sound column changes nothing else. */
  lemma AppendSoundColumn(enumNames: set<string>, t: Table, u: Table, c: Column)
    requires SoundTable(enumNames, t) && u == t.(columns := t.columns + [c])
    requires c.name !in ColumnNames(t.columns) && SoundColumn(enumNames, u, c)
    ensures SoundTable(enumNames, u)
  {
    hide WellFormedTable, ColumnNames;
    AppendKeepsWellFormed(t, u, c);
    forall d | d in u.columns ensures SoundColumn(enumNames, u, d) {
      assert d in t.columns || d == c;
      assert d in t.columns ==> SoundColumn(enumNames, t, d);
    }
    assert forall d :: d in t.columns ==> d in u.columns;
    hide SoundColumn;
  }

  lemma AttributeKeepsSound(enumNames: set<string>, ctx: Context, t: Table, o: Owned)
    requires SoundTable(enumNames, t) && o.ownerId in t.sourceClassIds
    requires forall id :: id in ctx.enumNameById ==> ctx.enumNameById[id] in enumNames
    requires AddAttribute(ctx, t, o).Ok?
    ensures SoundTable(enumNames, AddAttribute(ctx, t, o).value)
  {
    var u := AddAttribute(ctx, t, o).value;
    var c := AttributeColumn(ctx, ColumnNames(t.columns), o).value;
    assert SoundColumn(enumNames, u, c);
    hide SoundTable, SoundColumn;
    AppendSoundColumn(enumNames, t, u, c);
  }

  lemma {:induction false} AttributesKeepSound(enumNames: set<string>, ctx: Context, t: Table, owned: seq<Owned>)
    requires SoundTable(enumNames, t) && forall o :: o in owned ==> o.ownerId in t.sourceClassIds
    requires forall id :: id in ctx.enumNameById ==> ctx.enumNameById[id] in enumNames
    requires AddAttributes(ctx, t, owned).Ok?
    ensures SoundTable(enumNames, AddAttributes(ctx, t, owned).value)
    ensures Grows(t, AddAttributes(ctx, t, owned).value)
    ensures AddAttributes(ctx, t, owned).value.foreignKeys == t.foreignKeys
  {
    if owned != [] {
      var n := |owned| - 1;
      AttributesKeepSound(enumNames, ctx, t, owned[..n]);
      AttributeKeepsSound(enumNames, ctx, AddAttributes(ctx, t, owned[..n]).value, owned[n]);
    }
  }

  /** Appending a foreign-key column with its key and constraints on that column only. */
  lemma AppendKey(enumNames: set<string>, t: Table, u: Table, c: Column, fk: ForeignKey)
    requires SoundTable(enumNames, t) && Grows(t, u)
    requires c.name !in ColumnNames(t.columns) && u.columns == t.columns + [c]
    requires c == PlainColumn(c.name, UUID, c.nullable, None)
    requires u.foreignKeys == t.foreignKeys + [fk] && fk.columnNames == [c.name] && fk.referencedColumnNames == ["id"]
    requires forall x :: x in u.uniqueConstraints ==> x in t.uniqueConstraints || x.columnNames == [c.name]
    requires forall x :: x in u.indexes ==> x in t.indexes || x.columnNames == [c.name]
    ensures SoundTable(enumNames, u)
  {
    AppendColumn(t, u, c);
    assert c in u.columns && fk in u.foreignKeys;
    assert WellFormedTable(u) by {
      assert IsSimpleForeignKey(u, fk);
      assert HasColumns(u, [c.name]);
    }
    hide WellFormedTable, HasIdKey;
    forall d | d in u.columns ensures SoundColumn(enumNames, u, d) {
      assert d in t.columns || d == c;
      if d in t.columns {
        ColumnStaysSound(enumNames, t, u, fk, d);
      }
    }
    hide SoundColumn;
    assert SoundDiscriminator(u);
  }

  lemma ColumnStaysSound(enumNames: set<string>, t: Table, u: Table, fk: ForeignKey, d: Column)
    requires SoundColumn(enumNames, t, d) && Grows(t, u) && u.foreignKeys == t.foreignKeys + [fk]
    ensures SoundColumn(enumNames, u, d)
  {
    if exists k :: k in t.foreignKeys && k.columnNames == [d.name] {
      var k :| k in t.foreignKeys && k.columnNames == [d.name];
      assert k in u.foreignKeys;
    }
  }

  lemma ForeignKeyKeepsSound(enumNames: set<string>, snake: SnakeCase, t: Table, r: Relationship, referenced: string)
    requires SoundTable(enumNames, t)
    requires AddForeignKey(snake, t, r, referenced).Ok?
    ensures var u := AddForeignKey(snake, t, r, referenced).value;
      && SoundTable(enumNames, u) && Grows(t, u)
      && forall fk :: fk in u.foreignKeys ==> fk in t.foreignKeys || fk.referencedTable == referenced
  {
    var u := AddForeignKey(snake, t, r, referenced).value;
    hide SoundTable;
    AppendKey(enumNames, t, u, u.columns[|t.columns|], u.foreignKeys[|t.foreignKeys|]);
  }

  lemma JoinTableIsSound(
      enumNames: set<string>, snake: SnakeCase, taken: set<string>, r: Relationship, source: string, target: string)
    requires BuildJoinTable(snake, taken, r, source, target).Ok?
    ensures var t := BuildJoinTable(snake, taken, r, source, target).value;
      && SoundTable(enumNames, t) && t.name !in taken
      && (forall fk :: fk in t.foreignKeys ==> fk.referencedTable in {source, target})
  {
    var t := BuildJoinTable(snake, taken, r, source, target).value;
    var a, b := t.columns[1], t.columns[2];
    assert t.columns == [ID_COLUMN, a, b];
    assert ID_COLUMN in t.columns && a in t.columns && b in t.columns;
    assert t.foreignKeys[0].columnNames == [a.name] && t.foreignKeys[1].columnNames == [b.name];
    assert forall fk :: fk in t.foreignKeys ==> IsSimpleForeignKey(t, fk);
  }

  lemma BareTableIsSound(enumNames: set<string>, ctx: Context, name: string, classes: seq<UmlClass>, tree: seq<ElementId>)
    requires tree != [] && AreClasses(classes, tree)
    ensures SoundTable(enumNames, BareTable(ctx, name, classes, tree))
  {
    var t := BareTable(ctx, name, classes, tree);
    assert ID_COLUMN == t.columns[0];
    if |tree| >= 2 {
      assert TYPE_COLUMN == t.columns[1];
    }
  }

  lemma {:induction false} OwnersAreInTree(classes: seq<UmlClass>, tree: seq<ElementId>)
    requires AreClasses(classes, tree)
    ensures forall o :: o in OwnedInTree(classes, tree) ==> o.ownerId in tree
  {
    if tree != [] {
      OwnersAreInTree(classes, tree[..|tree| - 1]);
    }
  }

  lemma TreeTableIsSound(
      enumNames: set<string>, ctx: Context, taken: set<string>, classes: seq<UmlClass>, tree: seq<ElementId>)
    requires tree != [] && AreClasses(classes, tree)
    requires forall id :: id in ctx.enumNameById ==> ctx.enumNameById[id] in enumNames
    requires TableForTree(ctx, taken, classes, tree).Ok?
    ensures var t := TableForTree(ctx, taken, classes, tree).value;
      SoundTable(enumNames, t) && t.name !in taken && t.foreignKeys == [] && t.sourceClassIds == tree
  {
    var preferred := ctx.snake(ClassById(classes, tree[0]).value.name).value;
    var name := FreeName(ctx.snake, taken, preferred, None).value;
    BareTableIsSound(enumNames, ctx, name, classes, tree);
    OwnersAreInTree(classes, tree);
    AttributesKeepSound(enumNames, ctx, BareTable(ctx, name, classes, tree), OwnedInTree(classes, tree));
  }

  // ---- all tables ------------------------------------------------------

  ghost predicate IsDraftName(d: Drafts, name: string) {
    exists id :: id in d.tables && d.tables[id].name == name
  }

  ghost predicate KnownReferences(d: Drafts, t: Table) {
    forall fk :: fk in t.foreignKeys ==> IsDraftName(d, fk.referencedTable)
  }

  ghost predicate DistinctTableNames(d: Drafts) {
    && (forall a, b :: a in d.tables && b in d.tables && a != b ==> d.tables[a].name != d.tables[b].name)
    && (forall i, j :: 0 <= i < j < |d.joins| ==> d.joins[i].name != d.joins[j].name)
    && (forall a, j :: a in d.tables && 0 <= j < |d.joins| ==> d.tables[a].name != d.joins[j].name)
    && (forall a :: a in d.tables ==> d.tables[a].name in d.taken)
    && (forall j :: 0 <= j < |d.joins| ==> d.joins[j].name in d.taken)
  }

  ghost predicate SoundDrafts(enumNames: set<string>, d: Drafts) {
    && DistinctTableNames(d)
    && (forall a :: a in d.tables ==> SoundTable(enumNames, d.tables[a]) && KnownReferences(d, d.tables[a]))
    && (forall j :: 0 <= j < |d.joins| ==> SoundTable(enumNames, d.joins[j]) && KnownReferences(d, d.joins[j]))
  }

  lemma {:induction false} RootTablesAreSound(
      enumNames: set<string>, ctx: Context, model: Model, parentOf: Parents, roots: seq<ElementId>)
    requires RootsInForest(ClassIds(model.classes), parentOf, roots) && Distinct(roots)
    requires forall id :: id in ctx.enumNameById ==> ctx.enumNameById[id] in enumNames
    requires RootTables(ctx, model, parentOf, roots).Ok?
    ensures var d := RootTables(ctx, model, parentOf, roots).value;
      SoundDrafts(enumNames, d) && d.joins == []
  {
    if roots != [] {
      var front, last := roots[..|roots| - 1], roots[|roots| - 1];
      assert last !in front;
      RootTablesAreSound(enumNames, ctx, model, parentOf, front);
      var d := RootTables(ctx, model, parentOf, front).value;
      TreeIsClasses(model, parentOf, last);
      TreeTableIsSound(enumNames, ctx, d.taken, model.classes, TreeOf(ClassIds(model.classes), parentOf, last));
      var t := TableForTree(ctx, d.taken, model.classes, TreeOf(ClassIds(model.classes), parentOf, last)).value;
      AddTable(enumNames, d, last, t);
    }
  }

  lemma KeepReferences(d: Drafts, next: Drafts, t: Table)
    requires KnownReferences(d, t)
    requires forall a :: a in d.tables ==> a in next.tables && next.tables[a].name == d.tables[a].name
    ensures KnownReferences(next, t)
  {
    forall fk | fk in t.foreignKeys ensures IsDraftName(next, fk.referencedTable) {
      var a :| a in d.tables && d.tables[a].name == fk.referencedTable;
      assert next.tables[a].name == fk.referencedTable;
    }
  }

  lemma AddTable(enumNames: set<string>, d: Drafts, id: ElementId, t: Table)
    requires SoundDrafts(enumNames, d) && d.joins == [] && id !in d.tables
    requires SoundTable(enumNames, t) && t.name !in d.taken && t.foreignKeys == []
    ensures SoundDrafts(enumNames, Drafts(d.tables[id := t], [], d.taken + {t.name}))
  {
    hide WellFormedTable, SoundTable, KnownReferences;
    var next := Drafts(d.tables[id := t], [], d.taken + {t.name});
    forall a | a in next.tables ensures KnownReferences(next, next.tables[a]) {
      if a != id {
        KeepReferences(d, next, d.tables[a]);
      } else {
        NoReferences(next, t);
      }
    }
  }

  lemma NoReferences(d: Drafts, t: Table)
    requires t.foreignKeys == []
    ensures KnownReferences(d, t)
  {
  }

  /** Replacing a table by a grown one keeps the names, so it keeps every reference. */
  lemma ReplaceTable(enumNames: set<string>, d: Drafts, id: ElementId, u: Table)
    requires SoundDrafts(enumNames, d) && id in d.tables
    requires SoundTable(enumNames, u) && u.name == d.tables[id].name && KnownReferences(d, u)
    ensures SoundDrafts(enumNames, d.(tables := d.tables[id := u]))
  {
    hide WellFormedTable, SoundTable, KnownReferences;
    var next := d.(tables := d.tables[id := u]);
    forall a | a in next.tables ensures KnownReferences(next, next.tables[a]) {
      KeepReferences(d, next, next.tables[a]);
    }
    forall j | 0 <= j < |d.joins| ensures KnownReferences(next, d.joins[j]) {
      KeepReferences(d, next, d.joins[j]);
    }
  }

  lemma AppendJoin(enumNames: set<string>, d: Drafts, t: Table)
    requires SoundDrafts(enumNames, d) && SoundTable(enumNames, t) && t.name !in d.taken
    requires KnownReferences(d, t)
    ensures SoundDrafts(enumNames, d.(joins := d.joins + [t], taken := d.taken + {t.name}))
  {
    hide WellFormedTable, SoundTable, KnownReferences;
    var next := d.(joins := d.joins + [t], taken := d.taken + {t.name});
    forall a | a in next.tables ensures KnownReferences(next, next.tables[a]) {
      KeepReferences(d, next, next.tables[a]);
    }
    forall j | 0 <= j < |next.joins| ensures KnownReferences(next, next.joins[j]) {
      KeepReferences(d, next, next.joins[j]);
    }
  }

  lemma JoinKeepsSound(enumNames: set<string>, snake: SnakeCase, d: Drafts, r: Relationship, source: ElementId, target: ElementId)
    requires SoundDrafts(enumNames, d) && source in d.tables && target in d.tables
    requires BuildJoinTable(snake, d.taken, r, d.tables[source].name, d.tables[target].name).Ok?
    ensures var t := BuildJoinTable(snake, d.taken, r, d.tables[source].name, d.tables[target].name).value;
      SoundDrafts(enumNames, d.(joins := d.joins + [t], taken := d.taken + {t.name}))
  {
    var sourceTable, targetTable := d.tables[source].name, d.tables[target].name;
    JoinTableIsSound(enumNames, snake, d.taken, r, sourceTable, targetTable);
    hide SoundDrafts, SoundTable, BuildJoinTable;
    assert IsDraftName(d, sourceTable) && IsDraftName(d, targetTable);
    AppendJoin(enumNames, d, BuildJoinTable(snake, d.taken, r, sourceTable, targetTable).value);
  }

  lemma KeyKeepsSound(enumNames: set<string>, snake: SnakeCase, d: Drafts, r: Relationship, holder: ElementId, referenced: ElementId)
    requires SoundDrafts(enumNames, d) && holder in d.tables && referenced in d.tables
    requires AddForeignKey(snake, d.tables[holder], r, d.tables[referenced].name).Ok?
    ensures var u := AddForeignKey(snake, d.tables[holder], r, d.tables[referenced].name).value;
      SoundDrafts(enumNames, d.(tables := d.tables[holder := u]))
  {
    var u := AddForeignKey(snake, d.tables[holder], r, d.tables[referenced].name).value;
    assert SoundTable(enumNames, d.tables[holder]) && KnownReferences(d, d.tables[holder]);
    hide SoundDrafts, SoundTable, AddForeignKey;
    ForeignKeyKeepsSound(enumNames, snake, d.tables[holder], r, d.tables[referenced].name);
    assert IsDraftName(d, d.tables[referenced].name);
    ReplaceTable(enumNames, d, holder, u);
  }

  lemma RelationshipKeepsSound(enumNames: set<string>, snake: SnakeCase, parentOf: Parents, d: Drafts, r: Relationship)
    requires HasEndTables(parentOf, d, r) && SoundDrafts(enumNames, d)
    requires MapRelationship(snake, parentOf, d, r).Ok?
    ensures SoundDrafts(enumNames, MapRelationship(snake, parentOf, d, r).value)
  {
    hide SoundDrafts, BuildJoinTable, AddForeignKey;
    if r.kind != Generalization {
      var source, target := RootOf(parentOf, r.source.classId), RootOf(parentOf, r.target.classId);
      if PlacementOf(r).JoinTable? {
        JoinKeepsSound(enumNames, snake, d, r, source, target);
      } else if PlacementOf(r).OnSource? {
        KeyKeepsSound(enumNames, snake, d, r, source, target);
      } else {
        KeyKeepsSound(enumNames, snake, d, r, target, source);
      }
    }
  }

  lemma {:induction false} RelationshipsKeepSound(
      enumNames: set<string>, snake: SnakeCase, parentOf: Parents, d: Drafts, relationships: seq<Relationship>)
    requires forall r :: r in relationships ==> HasEndTables(parentOf, d, r)
    requires SoundDrafts(enumNames, d)
    requires MapRelationships(snake, parentOf, d, relationships).Ok?
    ensures SoundDrafts(enumNames, MapRelationships(snake, parentOf, d, relationships).value)
  {
    hide SoundDrafts;
    if relationships != [] {
      var n := |relationships| - 1;
      RelationshipsKeepSound(enumNames, snake, parentOf, d, relationships[..n]);
      var before := MapRelationships(snake, parentOf, d, relationships[..n]).value;
      assert HasEndTables(parentOf, d, relationships[n]);
      RelationshipKeepsSound(enumNames, snake, parentOf, before, relationships[n]);
    }
  }
}
