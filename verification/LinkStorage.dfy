/** Where the schema stores each relationship, and under which constraints. */
module LinkStorage {
  import opened Text
  import opened Uml
  import opened Naming
  import opened Schema
  import opened Hierarchy
  import opened Trees
  import opened Mapper
  import opened MapperSound
  import opened MapperTheorems

  ghost predicate HasUnique(t: Table, names: seq<string>) {
    exists u :: u in t.uniqueConstraints && u.columnNames == names
  }

  /** No foreign key of the table belongs to this relationship. */
  ghost predicate Untouched(t: Table, id: ElementId) {
    forall fk :: fk in t.foreignKeys ==> fk.sourceRelationshipId != id
  }

  /** The column of a foreign key carries the nullability and uniqueness `r` calls for. */
  ghost predicate IsKeyColumn(t: Table, r: Relationship, referenced: string, fk: ForeignKey, c: Column) {
    && fk in t.foreignKeys && fk.sourceRelationshipId == r.id
    && fk.referencedTable == referenced && fk.columnNames == [c.name]
    && c in t.columns && c.nullable == IsNullable(r)
    && (HasUnique(t, [c.name]) <==> PlacementOf(r) == OnTarget(true))
  }

  /** The table has one foreign key for `r`. */
  ghost predicate HasKey(t: Table, r: Relationship, referenced: string) {
    && (exists fk, c :: IsKeyColumn(t, r, referenced, fk, c))
    && forall i, j :: 0 <= i < j < |t.foreignKeys| ==>
         t.foreignKeys[i].sourceRelationshipId != r.id || t.foreignKeys[j].sourceRelationshipId != r.id
  }

  /** The table is the join table of `r`. */
  ghost predicate IsJoin(t: Table, r: Relationship, source: string, target: string) {
    && |t.foreignKeys| == 2 && t.sourceClassIds == []
    && t.foreignKeys[0].sourceRelationshipId == r.id && t.foreignKeys[0].referencedTable == source
    && t.foreignKeys[1].sourceRelationshipId == r.id && t.foreignKeys[1].referencedTable == target
    && (exists a, b :: a in t.columns && b in t.columns && !a.nullable && !b.nullable && a.name != b.name
          && t.foreignKeys[0].columnNames == [a.name] && t.foreignKeys[1].columnNames == [b.name]
          && HasUnique(t, [a.name, b.name]))
  }

  function NameOfRoot(parentOf: Parents, d: Drafts, id: ElementId): string
    requires Ends(parentOf, id) && RootOf(parentOf, id) in d.tables
  {
    d.tables[RootOf(parentOf, id)].name
  }

  /** `r` is stored in one place, and nowhere else. */
  ghost predicate IsStored(parentOf: Parents, d: Drafts, r: Relationship)
    requires HasEndTables(parentOf, d, r)
  {
    if PlacementOf(r).JoinTable? then
      && (forall a :: a in d.tables ==> Untouched(d.tables[a], r.id))
      && exists j :: 0 <= j < |d.joins|
           && IsJoin(d.joins[j], r, NameOfRoot(parentOf, d, r.source.classId), NameOfRoot(parentOf, d, r.target.classId))
           && forall i :: 0 <= i < |d.joins| && i != j ==> Untouched(d.joins[i], r.id)
    else
      var holder := RootOf(parentOf, HoldingEnd(r).classId);
      && HasKey(d.tables[holder], r, NameOfRoot(parentOf, d, ReferencedEnd(r).classId))
      && (forall a :: a in d.tables && a != holder ==> Untouched(d.tables[a], r.id))
      && (forall j :: 0 <= j < |d.joins| ==> Untouched(d.joins[j], r.id))
  }

  ghost predicate AllUntouched(d: Drafts, id: ElementId) {
    && (forall a :: a in d.tables ==> Untouched(d.tables[a], id))
    && (forall j :: 0 <= j < |d.joins| ==> Untouched(d.joins[j], id))
  }

  // ---- one step --------------------------------------------------------

  /** The new key column is fresh, so no earlier constraint speaks about it. */
  lemma KeyIsAdded(enumNames: set<string>, snake: SnakeCase, t: Table, r: Relationship, referenced: string)
    requires SoundTable(enumNames, t) && Untouched(t, r.id)
    requires !PlacementOf(r).JoinTable? && AddForeignKey(snake, t, r, referenced).Ok?
    ensures HasKey(AddForeignKey(snake, t, r, referenced).value, r, referenced)
  {
    var u := AddForeignKey(snake, t, r, referenced).value;
    var c, fk := u.columns[|t.columns|], u.foreignKeys[|t.foreignKeys|];
    assert c.name !in ColumnNames(t.columns);
    forall x | x in t.uniqueConstraints ensures x.columnNames != [c.name] {
      assert HasColumns(t, x.columnNames);
      assert c.name in [c.name];
    }
    hide SoundTable;
    if PlacementOf(r) == OnTarget(true) {
      var x := u.uniqueConstraints[|t.uniqueConstraints|];
      assert x in u.uniqueConstraints && x.columnNames == [c.name];
    } else {
      assert u.uniqueConstraints == t.uniqueConstraints;
    }
    assert IsKeyColumn(u, r, referenced, fk, c);
    forall i, j | 0 <= i < j < |u.foreignKeys|
      ensures u.foreignKeys[i].sourceRelationshipId != r.id || u.foreignKeys[j].sourceRelationshipId != r.id
    {
      assert u.foreignKeys[i] == t.foreignKeys[i];
      assert t.foreignKeys[i] in t.foreignKeys;
    }
  }

  /** A later relationship adds its own column and leaves the key of `r` as it was. */
  lemma KeyIsKept(enumNames: set<string>, snake: SnakeCase, t: Table, q: Relationship, other: string, r: Relationship, referenced: string)
    requires SoundTable(enumNames, t) && HasKey(t, r, referenced) && q.id != r.id
    requires AddForeignKey(snake, t, q, other).Ok?
    ensures HasKey(AddForeignKey(snake, t, q, other).value, r, referenced)
  {
    var u := AddForeignKey(snake, t, q, other).value;
    var added := u.columns[|t.columns|];
    var fk, c :| IsKeyColumn(t, r, referenced, fk, c);
    hide SoundTable;
    assert c.name != added.name;
    assert HasUnique(u, [c.name]) <==> HasUnique(t, [c.name]) by {
      forall x | x in u.uniqueConstraints && x.columnNames == [c.name] ensures x in t.uniqueConstraints {
        assert [c.name][0] != [added.name][0];
      }
    }
    assert IsKeyColumn(u, r, referenced, fk, c);
  }

  lemma UntouchedByOther(snake: SnakeCase, t: Table, q: Relationship, other: string, id: ElementId)
    requires Untouched(t, id) && q.id != id
    requires AddForeignKey(snake, t, q, other).Ok?
    ensures Untouched(AddForeignKey(snake, t, q, other).value, id)
  {
  }

  lemma JoinIsBuilt(snake: SnakeCase, taken: set<string>, r: Relationship, source: string, target: string)
    requires BuildJoinTable(snake, taken, r, source, target).Ok?
    ensures IsJoin(BuildJoinTable(snake, taken, r, source, target).value, r, source, target)
    ensures forall id :: id != r.id ==> Untouched(BuildJoinTable(snake, taken, r, source, target).value, id)
  {
    var t := BuildJoinTable(snake, taken, r, source, target).value;
    var a, b := t.columns[1], t.columns[2];
    assert t.uniqueConstraints[0].columnNames == [a.name, b.name];
    assert a in t.columns && b in t.columns && t.uniqueConstraints[0] in t.uniqueConstraints;
  }

  lemma StepLeavesUntouched(snake: SnakeCase, parentOf: Parents, d: Drafts, q: Relationship, id: ElementId)
    requires HasEndTables(parentOf, d, q) && AllUntouched(d, id) && (q.id != id || q.kind == Generalization)
    requires MapRelationship(snake, parentOf, d, q).Ok?
    ensures AllUntouched(MapRelationship(snake, parentOf, d, q).value, id)
  {
    hide Untouched, BuildJoinTable, AddForeignKey;
    if q.kind != Generalization {
      var source, target := RootOf(parentOf, q.source.classId), RootOf(parentOf, q.target.classId);
      if PlacementOf(q).JoinTable? {
        JoinIsBuilt(snake, d.taken, q, d.tables[source].name, d.tables[target].name);
      } else if PlacementOf(q).OnSource? {
        UntouchedByOther(snake, d.tables[source], q, d.tables[target].name, id);
      } else {
        UntouchedByOther(snake, d.tables[target], q, d.tables[source].name, id);
      }
    }
  }

  lemma StepStores(enumNames: set<string>, snake: SnakeCase, parentOf: Parents, d: Drafts, r: Relationship)
    requires HasEndTables(parentOf, d, r) && SoundDrafts(enumNames, d) && AllUntouched(d, r.id)
    requires r.kind != Generalization && MapRelationship(snake, parentOf, d, r).Ok?
    ensures IsStored(parentOf, MapRelationship(snake, parentOf, d, r).value, r)
  {
    hide Untouched, BuildJoinTable, AddForeignKey, SoundTable, KnownReferences, IsJoin, HasKey;
    var next := MapRelationship(snake, parentOf, d, r).value;
    var source, target := RootOf(parentOf, r.source.classId), RootOf(parentOf, r.target.classId);
    if PlacementOf(r).JoinTable? {
      JoinIsBuilt(snake, d.taken, r, d.tables[source].name, d.tables[target].name);
      assert next.joins[|d.joins|] == BuildJoinTable(snake, d.taken, r, d.tables[source].name, d.tables[target].name).value;
    } else {
      var holder := RootOf(parentOf, HoldingEnd(r).classId);
      var referenced := NameOfRoot(parentOf, d, ReferencedEnd(r).classId);
      KeyIsAdded(enumNames, snake, d.tables[holder], r, referenced);
      KeyKeepsName(snake, d.tables[holder], r, referenced);
    }
  }

  lemma KeyTouches(t: Table, r: Relationship, referenced: string)
    ensures HasKey(t, r, referenced) ==> !Untouched(t, r.id)
  {
  }

  lemma KeyKeepsName(snake: SnakeCase, t: Table, q: Relationship, other: string)
    requires AddForeignKey(snake, t, q, other).Ok?
    ensures AddForeignKey(snake, t, q, other).value.name == t.name
  {
  }

  lemma StepKeeps(enumNames: set<string>, snake: SnakeCase, parentOf: Parents, d: Drafts, q: Relationship, r: Relationship)
    requires HasEndTables(parentOf, d, q) && HasEndTables(parentOf, d, r) && SoundDrafts(enumNames, d)
    requires IsStored(parentOf, d, r) && (q.id != r.id || q.kind == Generalization)
    requires MapRelationship(snake, parentOf, d, q).Ok?
    ensures IsStored(parentOf, MapRelationship(snake, parentOf, d, q).value, r)
  {
    hide Untouched, BuildJoinTable, AddForeignKey, SoundTable, KnownReferences, IsJoin, HasKey;
    if q.kind != Generalization {
      var source, target := RootOf(parentOf, q.source.classId), RootOf(parentOf, q.target.classId);
      if PlacementOf(q).JoinTable? {
        JoinIsBuilt(snake, d.taken, q, d.tables[source].name, d.tables[target].name);
        JoinStepKeeps(parentOf, d, BuildJoinTable(snake, d.taken, q, d.tables[source].name, d.tables[target].name).value, r);
      } else {
        var at := RootOf(parentOf, HoldingEnd(q).classId);
        var other := NameOfRoot(parentOf, d, ReferencedEnd(q).classId);
        KeyKeepsName(snake, d.tables[at], q, other);
        KeyTouches(d.tables[at], r, NameOfRoot(parentOf, d, ReferencedEnd(r).classId));
        if Untouched(d.tables[at], r.id) {
          UntouchedByOther(snake, d.tables[at], q, other, r.id);
        } else {
          KeyIsKept(enumNames, snake, d.tables[at], q, other, r, NameOfRoot(parentOf, d, ReferencedEnd(r).classId));
        }
        KeyStepKeeps(parentOf, d, at, AddForeignKey(snake, d.tables[at], q, other).value, r);
      }
    }
  }

  lemma JoinStepKeeps(parentOf: Parents, d: Drafts, t: Table, r: Relationship)
    requires HasEndTables(parentOf, d, r) && IsStored(parentOf, d, r) && Untouched(t, r.id)
    ensures IsStored(parentOf, d.(joins := d.joins + [t], taken := d.taken + {t.name}), r)
  {
    hide Untouched, IsJoin, HasKey;
    var next := d.(joins := d.joins + [t], taken := d.taken + {t.name});
    if PlacementOf(r).JoinTable? {
      var j :| 0 <= j < |d.joins|
        && IsJoin(d.joins[j], r, NameOfRoot(parentOf, d, r.source.classId), NameOfRoot(parentOf, d, r.target.classId))
        && forall i :: 0 <= i < |d.joins| && i != j ==> Untouched(d.joins[i], r.id);
      assert next.joins[j] == d.joins[j];
    }
  }

  lemma KeyStepKeeps(parentOf: Parents, d: Drafts, at: ElementId, u: Table, r: Relationship)
    requires HasEndTables(parentOf, d, r) && IsStored(parentOf, d, r) && at in d.tables
    requires u.name == d.tables[at].name
    requires Untouched(d.tables[at], r.id) ==> Untouched(u, r.id)
    requires !PlacementOf(r).JoinTable? && HasKey(d.tables[at], r, NameOfRoot(parentOf, d, ReferencedEnd(r).classId)) ==>
      HasKey(u, r, NameOfRoot(parentOf, d, ReferencedEnd(r).classId))
    ensures IsStored(parentOf, d.(tables := d.tables[at := u]), r)
  {
    hide Untouched, IsJoin, HasKey;
    var next := d.(tables := d.tables[at := u]);
    if PlacementOf(r).JoinTable? {
      var j :| 0 <= j < |d.joins|
        && IsJoin(d.joins[j], r, NameOfRoot(parentOf, d, r.source.classId), NameOfRoot(parentOf, d, r.target.classId))
        && forall i :: 0 <= i < |d.joins| && i != j ==> Untouched(d.joins[i], r.id);
      assert IsJoin(next.joins[j], r, NameOfRoot(parentOf, next, r.source.classId), NameOfRoot(parentOf, next, r.target.classId));
    }
  }

  // ---- all steps -------------------------------------------------------

  /** After all relationships, the one at position `k` is stored once; before its turn nothing carries its id. */
  lemma {:induction false} StoredAfterAll(
      enumNames: set<string>, snake: SnakeCase, parentOf: Parents, d: Drafts, relationships: seq<Relationship>,
      all: seq<Relationship>, k: nat)
    requires relationships <= all && k < |all| && DistinctRelationshipIds(all) && all[k].kind != Generalization
    requires forall r :: r in all ==> HasEndTables(parentOf, d, r)
    requires SoundDrafts(enumNames, d) && AllUntouched(d, all[k].id)
    requires MapRelationships(snake, parentOf, d, relationships).Ok?
    ensures var after := MapRelationships(snake, parentOf, d, relationships).value;
      && SoundDrafts(enumNames, after) && HasEndTables(parentOf, after, all[k])
      && (if k < |relationships| then IsStored(parentOf, after, all[k]) else AllUntouched(after, all[k].id))
    decreases |relationships|
  {
    hide SoundDrafts, IsStored, AllUntouched;
    var r := all[k];
    assert HasEndTables(parentOf, d, r);
    if relationships != [] {
      var n := |relationships| - 1;
      StoredAfterAll(enumNames, snake, parentOf, d, relationships[..n], all, k);
      var before := MapRelationships(snake, parentOf, d, relationships[..n]).value;
      var q := relationships[n];
      assert q == all[n];
      assert HasEndTables(parentOf, d, q);
      assert HasEndTables(parentOf, before, q);
      RelationshipKeepsSound(enumNames, snake, parentOf, before, q);
      if k == n {
        StepStores(enumNames, snake, parentOf, before, r);
      } else if k < n {
        assert all[k].id != all[n].id;
        StepKeeps(enumNames, snake, parentOf, before, q, r);
      } else {
        assert all[n].id != all[k].id;
        StepLeavesUntouched(snake, parentOf, before, q, r.id);
      }
    }
  }

  lemma {:induction false} BareTablesUntouched(
      ctx: Context, model: Model, parentOf: Parents, roots: seq<ElementId>, id: ElementId)
    requires RootsInForest(ClassIds(model.classes), parentOf, roots)
    requires RootTables(ctx, model, parentOf, roots).Ok?
    ensures AllUntouched(RootTables(ctx, model, parentOf, roots).value, id)
  {
    if roots != [] {
      var n := |roots| - 1;
      BareTablesUntouched(ctx, model, parentOf, roots[..n], id);
      var d := RootTables(ctx, model, parentOf, roots[..n]).value;
      TreeIsClasses(model, parentOf, roots[n]);
      TreeTableIsBare(ctx, d.taken, model.classes, TreeOf(ClassIds(model.classes), parentOf, roots[n]));
      hide TableForTree, IsForest;
    }
  }

  lemma TreeTableIsBare(ctx: Context, taken: set<string>, classes: seq<UmlClass>, tree: seq<ElementId>)
    requires tree != [] && AreClasses(classes, tree) && TableForTree(ctx, taken, classes, tree).Ok?
    ensures TableForTree(ctx, taken, classes, tree).value.foreignKeys == []
  {
    var preferred := ctx.snake(ClassById(classes, tree[0]).value.name).value;
    var name := FreeName(ctx.snake, taken, preferred, None).value;
    NoKeysYet(ctx, BareTable(ctx, name, classes, tree), OwnedInTree(classes, tree));
  }

  lemma {:induction false} NoKeysYet(ctx: Context, t: Table, owned: seq<Owned>)
    requires AddAttributes(ctx, t, owned).Ok?
    ensures AddAttributes(ctx, t, owned).value.foreignKeys == t.foreignKeys
  {
    if owned != [] {
      NoKeysYet(ctx, t, owned[..|owned| - 1]);
    }
  }

  lemma BareDraftsAreClean(snake: SnakeCase, model: Model, m: Mapped, id: ElementId)
    requires DistinctClassIds(model) && IsRun(snake, model, m)
    ensures SoundDrafts(EnumTypeNames(m.enums.types), m.bare) && AllUntouched(m.bare, id)
  {
    EnumsAreSound(snake, model.enumerations);
    RootTablesAreSound(EnumTypeNames(m.enums.types), m.ctx, model, m.parentOf, m.roots);
    BareTablesUntouched(m.ctx, model, m.parentOf, m.roots, id);
  }

  /** In an accepted model every relationship other than a generalization is stored in one place. */
  lemma RelationshipIsStored(snake: SnakeCase, model: Model, r: Relationship)
    requires DistinctClassIds(model) && DistinctRelationshipIds(model.relationships)
    requires RunPipeline(snake, model).Ok? && r in model.relationships && r.kind != Generalization
    ensures var m := RunPipeline(snake, model).value;
      HasEndTables(m.parentOf, m.drafts, r) && IsStored(m.parentOf, m.drafts, r)
  {
    var m := RunPipeline(snake, model).value;
    hide RunPipeline;
    BareDraftsAreClean(snake, model, m, r.id);
    hide SoundDrafts, IsStored, AllUntouched, IsForest;
    var k :| 0 <= k < |model.relationships| && model.relationships[k] == r;
    StoredAfterAll(EnumTypeNames(m.enums.types), snake, m.parentOf, m.bare, model.relationships, model.relationships, k);
  }
}
