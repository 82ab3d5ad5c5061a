/** Where the attributes of a model end up in its schema. */
module MapperColumns {
  import opened Text
  import opened Seqs
  import opened Uml
  import opened Schema
  import opened Mapper

  function ColumnTypeOf(t: AttributeType): ColumnType {
    match t
    case EnumerationRef(_) => ENUM
    case Primitive(String) => VARCHAR
    case Primitive(Text) => TEXT
    case Primitive(Integer) => INTEGER
    case Primitive(Long) => BIGINT
    case Primitive(Decimal) => NUMERIC
    case Primitive(Boolean) => BOOLEAN
    case Primitive(Date) => DATE
    case Primitive(DateTime) => TIMESTAMPTZ
  }

  /** The column stems from this attribute of this class. */
  predicate Represents(c: Column, o: Owned) {
    && c.sourceElementId == Some(o.attribute.id)
    && c.owningClassId == Some(o.ownerId)
    && c.nullable == o.nullable
    && c.typ == ColumnTypeOf(o.attribute.typ)
  }

  ghost predicate DistinctOwned(owned: seq<Owned>) {
    forall i, j :: 0 <= i < j < |owned| ==> owned[i].attribute.id != owned[j].attribute.id
  }

  ghost predicate DistinctSources(columns: seq<Column>) {
    forall i, j :: 0 <= i < j < |columns| && columns[i].sourceElementId.Some? ==>
      columns[i].sourceElementId != columns[j].sourceElementId
  }

  ghost predicate HasOwner(owned: seq<Owned>, c: Column) {
    exists o :: o in owned && Represents(c, o)
  }

  ghost predicate HasColumn(columns: seq<Column>, o: Owned) {
    exists c :: c in columns && Represents(c, o)
  }

  /** Every attribute column stems from `owned`. */
  ghost predicate Sourced(columns: seq<Column>, owned: seq<Owned>) {
    forall c :: c in columns && c.sourceElementId.Some? ==> HasOwner(owned, c)
  }

  /** Every attribute in `owned` has a column. */
  ghost predicate Covered(columns: seq<Column>, owned: seq<Owned>) {
    forall o :: o in owned ==> HasColumn(columns, o)
  }

  /** The attribute columns are exactly those of `owned`, each once. */
  ghost predicate HoldsOwned(columns: seq<Column>, owned: seq<Owned>) {
    Sourced(columns, owned) && Covered(columns, owned) && DistinctSources(columns)
  }

  lemma AppendCovered(columns: seq<Column>, owned: seq<Owned>, c: Column)
    requires Covered(columns, owned)
    ensures Covered(columns + [c], owned)
  {
    forall o | o in owned ensures HasColumn(columns + [c], o) {
      assert HasColumn(columns, o);
      var d :| d in columns && Represents(d, o);
      assert d in columns + [c];
    }
  }

  lemma AppendHeld(columns: seq<Column>, owned: seq<Owned>, c: Column, last: Owned)
    requires HoldsOwned(columns, owned) && DistinctOwned(owned + [last]) && Represents(c, last)
    ensures HoldsOwned(columns + [c], owned + [last])
  {
    AppendCovered(columns, owned, c);
    assert HasColumn(columns + [c], last) by {
      assert c in columns + [c];
    }
    hide HasColumn;
    forall d | d in columns + [c] && d.sourceElementId.Some?
      ensures HasOwner(owned + [last], d)
    {
      if d in columns {
        assert HasOwner(owned, d);
        var o :| o in owned && Represents(d, o);
        assert o in owned + [last];
      } else {
        assert last in owned + [last] && Represents(d, last);
      }
    }
    forall d | d in columns && d.sourceElementId.Some?
      ensures d.sourceElementId != c.sourceElementId
    {
      assert HasOwner(owned, d);
      var o :| o in owned && Represents(d, o);
      var k :| 0 <= k < |owned| && owned[k] == o;
      assert (owned + [last])[k] == o && (owned + [last])[|owned|] == last;
    }
  }

  lemma AttributeColumnRepresents(ctx: Context, t: Table, o: Owned)
    requires AddAttribute(ctx, t, o).Ok?
    ensures var columns := AddAttribute(ctx, t, o).value.columns;
      |columns| == |t.columns| + 1 && columns == t.columns + [columns[|t.columns|]]
      && Represents(columns[|t.columns|], o)
  {
  }

  lemma {:induction false} AttributesAreHeld(ctx: Context, t: Table, owned: seq<Owned>)
    requires DistinctOwned(owned) && AddAttributes(ctx, t, owned).Ok?
    requires forall c :: c in t.columns ==> c.sourceElementId.None?
    ensures HoldsOwned(AddAttributes(ctx, t, owned).value.columns, owned)
  {
    if owned != [] {
      var n := |owned| - 1;
      PrefixStep(owned, n);
      FullPrefix(owned);
      AttributesAreHeld(ctx, t, owned[..n]);
      var before := AddAttributes(ctx, t, owned[..n]).value;
      var after := AddAttribute(ctx, before, owned[n]).value;
      AttributeColumnRepresents(ctx, before, owned[n]);
      hide HoldsOwned, AddAttribute;
      AppendHeld(before.columns, owned[..n], after.columns[|before.columns|], owned[n]);
    }
  }

  /** A column of no attribute changes nothing. */
  lemma PlainColumnKeepsHeld(columns: seq<Column>, owned: seq<Owned>, c: Column)
    requires HoldsOwned(columns, owned) && c.sourceElementId.None?
    ensures HoldsOwned(columns + [c], owned)
  {
    AppendCovered(columns, owned, c);
    hide HasColumn, HasOwner;
  }

  // ---- which attributes a tree owns ------------------------------------

  /** `o` is an attribute of the class at position `k` of the tree. */
  ghost predicate IsOwnedAt(classes: seq<UmlClass>, tree: seq<ElementId>, o: Owned, k: nat)
    requires AreClasses(classes, tree) && k < |tree|
  {
    var c := ClassById(classes, tree[k]).value;
    o.attribute in c.attributes && o == Owned(o.attribute, c.id, c.name, k != 0)
  }

  ghost predicate IsOwnedIn(classes: seq<UmlClass>, tree: seq<ElementId>, o: Owned)
    requires AreClasses(classes, tree)
  {
    exists k :: 0 <= k < |tree| && IsOwnedAt(classes, tree, o, k)
  }

  lemma OwnedByMembers(c: UmlClass, nullable: bool, o: Owned)
    ensures o in OwnedBy(c, nullable) <==>
      o.attribute in c.attributes && o == Owned(o.attribute, c.id, c.name, nullable)
  {
    if o.attribute in c.attributes {
      var i :| 0 <= i < |c.attributes| && c.attributes[i] == o.attribute;
      assert OwnedBy(c, nullable)[i] == Owned(o.attribute, c.id, c.name, nullable);
    }
  }

  lemma {:induction false} OwnedMembers(classes: seq<UmlClass>, tree: seq<ElementId>, o: Owned)
    requires AreClasses(classes, tree)
    ensures o in OwnedInTree(classes, tree) <==> IsOwnedIn(classes, tree, o)
  {
    if tree != [] {
      var n := |tree| - 1;
      OwnedMembers(classes, tree[..n], o);
      var last := OwnedBy(ClassById(classes, tree[n]).value, n != 0);
      OwnedByMembers(ClassById(classes, tree[n]).value, n != 0, o);
      assert o in last <==> IsOwnedAt(classes, tree, o, n);
      if IsOwnedIn(classes, tree[..n], o) {
        var k :| 0 <= k < n && IsOwnedAt(classes, tree[..n], o, k);
        assert IsOwnedAt(classes, tree, o, k);
      }
      if IsOwnedIn(classes, tree, o) {
        var k :| 0 <= k < |tree| && IsOwnedAt(classes, tree, o, k);
        assert k < n ==> IsOwnedAt(classes, tree[..n], o, k);
      }
    }
  }

  ghost predicate Apart(front: seq<Owned>, back: seq<Owned>) {
    forall i, j :: 0 <= i < |front| && 0 <= j < |back| ==> front[i].attribute.id != back[j].attribute.id
  }

  lemma {:induction false} OwnedIsDistinct(model: Model, tree: seq<ElementId>)
    requires AreClasses(model.classes, tree) && Distinct(tree)
    requires DistinctClassIds(model) && DistinctAttributeIds(model)
    ensures DistinctOwned(OwnedInTree(model.classes, tree))
  {
    if tree != [] {
      var n := |tree| - 1;
      hide DistinctOwned, Apart;
      OwnedIsDistinct(model, tree[..n]);
      var front, back := OwnedInTree(model.classes, tree[..n]), OwnedBy(ClassById(model.classes, tree[n]).value, n != 0);
      OwnedElsewhere(model, tree);
      OwnedByIsDistinct(model, ClassById(model.classes, tree[n]).value, n != 0);
      hide OwnedBy;
      DistinctTogether(front, back);
    }
  }

  lemma DistinctTogether(front: seq<Owned>, back: seq<Owned>)
    requires DistinctOwned(front) && DistinctOwned(back)
    requires Apart(front, back)
    ensures DistinctOwned(front + back)
  {
  }

  lemma OwnedByIsDistinct(model: Model, c: UmlClass, nullable: bool)
    requires c in model.classes && DistinctAttributeIds(model)
    ensures DistinctOwned(OwnedBy(c, nullable))
  {
    var k :| 0 <= k < |model.classes| && model.classes[k] == c;
  }

  /** An attribute of an earlier class of the tree is no attribute of the last one. */
  lemma OwnedElsewhere(model: Model, tree: seq<ElementId>)
    requires tree != [] && AreClasses(model.classes, tree) && Distinct(tree)
    requires DistinctClassIds(model) && DistinctAttributeIds(model)
    ensures var n := |tree| - 1;
      var front, back := OwnedInTree(model.classes, tree[..n]), OwnedBy(ClassById(model.classes, tree[n]).value, n != 0);
      Apart(front, back)
  {
    var n := |tree| - 1;
    var front, back := OwnedInTree(model.classes, tree[..n]), OwnedBy(ClassById(model.classes, tree[n]).value, n != 0);
    forall i, j | 0 <= i < |front| && 0 <= j < |back|
      ensures front[i].attribute.id != back[j].attribute.id
    {
      OwnedMembers(model.classes, tree[..n], front[i]);
      var k :| 0 <= k < n && IsOwnedAt(model.classes, tree[..n], front[i], k);
      SameAttributeSameClass(model, front[i].ownerId, tree[n], front[i].attribute.id);
    }
  }

  /** Distinct attribute ids: an id belongs to the attributes of one class only. */
  lemma SameAttributeSameClass(model: Model, a: ElementId, b: ElementId, id: ElementId)
    requires DistinctClassIds(model) && DistinctAttributeIds(model)
    requires exists c :: c in model.classes && c.id == a && IsAttributeOf(c, id)
    requires ClassById(model.classes, b).Some?
    ensures IsAttributeOf(ClassById(model.classes, b).value, id) ==> a == b
  {
    var c :| c in model.classes && c.id == a && IsAttributeOf(c, id);
    var d := ClassById(model.classes, b).value;
    var i :| 0 <= i < |model.classes| && model.classes[i] == c;
    var j :| 0 <= j < |model.classes| && model.classes[j] == d;
  }
}
