/** What a stored relationship means: the link sets its foreign key or join table can hold. */
module Links {
  import opened Text
  import opened Uml
  import opened Schema
  import opened Mapper
  import opened LinkStorage

  type Obj = string
  type Link = (Obj, Obj)

  /** The objects of each class, subclasses not included. */
  type Population = map<ElementId, set<Obj>>

  /** One row per object of every class the table stands for. */
  function Rows(pop: Population, classIds: seq<ElementId>): set<Obj> {
    set c, o | c in classIds && c in pop && o in pop[c] :: o
  }

  function RowsNamed(pop: Population, tables: seq<Table>, name: string): set<Obj> {
    set t, o | t in tables && t.name == name && o in Rows(pop, t.sourceClassIds) :: o
  }

  // ---- the contents a schema admits ------------------------------------

  /** SQL's reading of a foreign-key column: references exist, NOT NULL and UNIQUE hold. */
  ghost predicate CellsObey(
      cells: map<Obj, Option<Obj>>, nullable: bool, unique: bool, holders: set<Obj>, referenced: set<Obj>)
  {
    && cells.Keys == holders
    && (forall x :: x in cells && cells[x].Some? ==> cells[x].value in referenced)
    && (!nullable ==> forall x :: x in cells ==> cells[x].Some?)
    && (unique ==> forall x, y :: x in cells && y in cells && cells[x].Some? && cells[x] == cells[y] ==> x == y)
  }

  ghost predicate PairsObey(rows: seq<Link>, unique: bool, sources: set<Obj>, targets: set<Obj>) {
    && (forall p :: p in rows ==> p.0 in sources && p.1 in targets)
    && (unique ==> Distinct(rows))
  }

  /** The links a key column stands for; on the source side the cell names the target. */
  function LinksOfCells(cells: map<Obj, Option<Obj>>, onSource: bool): set<Link> {
    set x | x in cells && cells[x].Some? :: if onSource then (x, cells[x].value) else (cells[x].value, x)
  }

  function LinksOfPairs(rows: seq<Link>): set<Link> {
    set p | p in rows
  }

  ghost predicate IsKeyOf(tables: seq<Table>, r: Relationship, t: Table, fk: ForeignKey, c: Column) {
    && t in tables && fk in t.foreignKeys && fk.sourceRelationshipId == r.id
    && c in t.columns && fk.columnNames == [c.name]
  }

  ghost predicate IsJoinOf(tables: seq<Table>, r: Relationship, t: Table) {
    && t in tables && |t.foreignKeys| == 2
    && (forall fk :: fk in t.foreignKeys ==> fk.sourceRelationshipId == r.id && |fk.columnNames| == 1)
  }

  /** Some contents of the schema's storage for `r` stand for exactly these links. */
  ghost predicate Storable(tables: seq<Table>, r: Relationship, pop: Population, links: set<Link>) {
    if PlacementOf(r).JoinTable? then
      exists t, rows :: IsJoinOf(tables, r, t) && JoinHolds(tables, pop, t, rows) && LinksOfPairs(rows) == links
    else
      exists t, fk, c, cells ::
        IsKeyOf(tables, r, t, fk, c) && KeyHolds(tables, pop, t, fk, c, cells)
        && LinksOfCells(cells, PlacementOf(r).OnSource?) == links
  }

  ghost predicate JoinHolds(tables: seq<Table>, pop: Population, t: Table, rows: seq<Link>)
    requires |t.foreignKeys| == 2 && forall fk :: fk in t.foreignKeys ==> |fk.columnNames| == 1
  {
    var first, second := t.foreignKeys[0], t.foreignKeys[1];
    PairsObey(rows, HasUnique(t, [first.columnNames[0], second.columnNames[0]]),
              RowsNamed(pop, tables, first.referencedTable), RowsNamed(pop, tables, second.referencedTable))
  }

  ghost predicate KeyHolds(tables: seq<Table>, pop: Population, t: Table, fk: ForeignKey, c: Column, cells: map<Obj, Option<Obj>>) {
    CellsObey(cells, c.nullable, HasUnique(t, [c.name]), Rows(pop, t.sourceClassIds), RowsNamed(pop, tables, fk.referencedTable))
  }

  // ---- the links the placed storage holds ------------------------------

  predicate HoldsOnSource(r: Relationship) {
    PlacementOf(r).OnSource?
  }

  /** One source per target where the source end is not many, one target per source where the
      target end is not. */
  ghost predicate OnePerEnd(r: Relationship, links: set<Link>) {
    && (!IsMany(r.source.multiplicity) ==> Functional(links, false))
    && (!IsMany(r.target.multiplicity) ==> Functional(links, true))
  }

  ghost predicate Covers(links: set<Link>, holders: set<Obj>, onSource: bool) {
    forall x :: x in holders ==> exists p :: p in links && (if onSource then p.0 else p.1) == x
  }

  /** What key column or join table can hold: links of existing objects, one partner where an end
      is not many, and one for every row where the key is NOT NULL. */
  ghost predicate Held(r: Relationship, sources: set<Obj>, targets: set<Obj>, links: set<Link>) {
    && (forall p :: p in links ==> p.0 in sources && p.1 in targets)
    && OnePerEnd(r, links)
    && (!PlacementOf(r).JoinTable? && !IsNullable(r) ==>
          Covers(links, if HoldsOnSource(r) then sources else targets, HoldsOnSource(r)))
  }

  // ---- encoding --------------------------------------------------------

  /** The partner of `x` in a link set, if any. */
  ghost function Partner(links: set<Link>, x: Obj, onSource: bool): (y: Option<Obj>)
    ensures y.Some? ==> (if onSource then (x, y.value) else (y.value, x)) in links
    ensures y.None? ==> forall p :: p in links ==> (if onSource then p.0 else p.1) != x
  {
    if p :| p in links && (if onSource then p.0 else p.1) == x then Some(if onSource then p.1 else p.0) else None
  }

  ghost function EncodeCells(links: set<Link>, holders: set<Obj>, onSource: bool): map<Obj, Option<Obj>> {
    map x | x in holders :: Partner(links, x, onSource)
  }

  /** Each holder occurs in at most one link. */
  ghost predicate Functional(links: set<Link>, onSource: bool) {
    forall p, q :: p in links && q in links && (if onSource then p.0 == q.0 else p.1 == q.1) ==> p == q
  }

  /** No two holders share a partner. */
  ghost predicate Injective(links: set<Link>, onSource: bool) {
    forall p, q :: p in links && q in links && (if onSource then p.1 == q.1 else p.0 == q.0) ==> p == q
  }

  /** Encoding then decoding a link set returns it. */
  lemma DecodeOfEncode(links: set<Link>, holders: set<Obj>, onSource: bool)
    requires Functional(links, onSource)
    requires forall p :: p in links ==> (if onSource then p.0 else p.1) in holders
    ensures LinksOfCells(EncodeCells(links, holders, onSource), onSource) == links
  {
    var cells := EncodeCells(links, holders, onSource);
    forall p | p in links ensures p in LinksOfCells(cells, onSource) {
      var x := if onSource then p.0 else p.1;
      assert cells[x].Some?;
    }
  }

  lemma EncodeObeys(links: set<Link>, nullable: bool, unique: bool, holders: set<Obj>, referenced: set<Obj>, onSource: bool)
    requires forall p :: p in links ==> (if onSource then p.1 else p.0) in referenced
    requires !nullable ==> Covers(links, holders, onSource)
    requires unique ==> Injective(links, onSource)
    ensures CellsObey(EncodeCells(links, holders, onSource), nullable, unique, holders, referenced)
  {
  }

  lemma DecodeIsWellBehaved(
      cells: map<Obj, Option<Obj>>, nullable: bool, unique: bool, holders: set<Obj>, referenced: set<Obj>, onSource: bool)
    requires CellsObey(cells, nullable, unique, holders, referenced)
    ensures var links := LinksOfCells(cells, onSource);
      && (forall p :: p in links ==> (if onSource then p.0 else p.1) in holders && (if onSource then p.1 else p.0) in referenced)
      && Functional(links, onSource)
      && (unique ==> Injective(links, onSource))
      && (!nullable ==> Covers(links, holders, onSource))
  {
    var links := LinksOfCells(cells, onSource);
    if !nullable {
      forall x | x in holders
        ensures exists p :: p in links && (if onSource then p.0 else p.1) == x
      {
        var p := if onSource then (x, cells[x].value) else (cells[x].value, x);
        assert p in links;
      }
    }
  }

  /** A key column can hold exactly the link sets that are functional on its holder,
      one-to-one if it is unique and total if it is NOT NULL. */
  lemma CellsHoldExactly(
      links: set<Link>, nullable: bool, unique: bool, holders: set<Obj>, referenced: set<Obj>, onSource: bool)
    ensures (exists cells :: CellsObey(cells, nullable, unique, holders, referenced) && LinksOfCells(cells, onSource) == links)
      <==>
      (&& (forall p :: p in links ==> (if onSource then p.0 else p.1) in holders && (if onSource then p.1 else p.0) in referenced)
       && Functional(links, onSource)
       && (unique ==> Injective(links, onSource))
       && (!nullable ==> Covers(links, holders, onSource)))
  {
    if cells :| CellsObey(cells, nullable, unique, holders, referenced) && LinksOfCells(cells, onSource) == links {
      DecodeIsWellBehaved(cells, nullable, unique, holders, referenced, onSource);
    }
    if && (forall p :: p in links ==> (if onSource then p.0 else p.1) in holders && (if onSource then p.1 else p.0) in referenced)
       && Functional(links, onSource)
       && (unique ==> Injective(links, onSource))
       && (!nullable ==> Covers(links, holders, onSource))
    {
      DecodeOfEncode(links, holders, onSource);
      EncodeObeys(links, nullable, unique, holders, referenced, onSource);
    }
  }

  ghost function Enumerate(links: set<Link>): (rows: seq<Link>)
    ensures Distinct(rows) && LinksOfPairs(rows) == links
  {
    if links == {} then []
    else
      var p :| p in links;
      var rest := Enumerate(links - {p});
      assert forall q :: q in rest ==> q in LinksOfPairs(rest);
      assert LinksOfPairs([p] + rest) == {p} + LinksOfPairs(rest);
      [p] + rest
  }

  /** A join table can hold every set of pairs of existing objects. */
  lemma PairsHoldExactly(links: set<Link>, unique: bool, sources: set<Obj>, targets: set<Obj>)
    ensures (exists rows :: PairsObey(rows, unique, sources, targets) && LinksOfPairs(rows) == links)
      <==> forall p :: p in links ==> p.0 in sources && p.1 in targets
  {
    if rows :| PairsObey(rows, unique, sources, targets) && LinksOfPairs(rows) == links {
      assert forall p :: p in links ==> p in rows;
    }
    if forall p :: p in links ==> p.0 in sources && p.1 in targets {
      var rows := Enumerate(links);
      assert forall p :: p in rows ==> p in LinksOfPairs(rows);
      assert PairsObey(rows, unique, sources, targets);
    }
  }

  /** The placement enforces one partner per object exactly where an end is not many. */
  lemma PlacementIsOnePerEnd(r: Relationship, links: set<Link>)
    ensures match PlacementOf(r)
      case JoinTable => OnePerEnd(r, links)
      case OnSource => Functional(links, true) <==> OnePerEnd(r, links)
      case OnTarget(unique) =>
        (Functional(links, false) && (unique ==> Injective(links, false))) <==> OnePerEnd(r, links)
  {
  }
}
