/** What a diagram says about links, and when the schema says the same. */
module DiagramLinks {
  import opened Text
  import opened Uml
  import opened Naming
  import opened Schema
  import opened ParentMaps
  import opened Mapper
  import opened MapperAcceptance
  import opened Links
  import opened LinkMeaning

  // ---- the diagram -----------------------------------------------------

  function LinksFrom(links: set<Link>, x: Obj): set<Link> {
    set p | p in links && p.0 == x
  }

  function LinksTo(links: set<Link>, y: Obj): set<Link> {
    set p | p in links && p.1 == y
  }

  predicate WithinUpper(n: nat, m: Multiplicity) {
    m.upper.Some? ==> n <= m.upper.value
  }

  predicate InRange(n: nat, m: Multiplicity) {
    m.lower <= n && WithinUpper(n, m)
  }

  /** Every target has as many sources as the source end says, every source as many targets as the
      target end says, and a composed part has a whole. */
  ghost predicate Allows(r: Relationship, sources: set<Obj>, targets: set<Obj>, links: set<Link>) {
    && (forall p :: p in links ==> p.0 in sources && p.1 in targets)
    && (forall y :: y in targets ==> InRange(|LinksTo(links, y)|, r.source.multiplicity))
    && (forall x :: x in sources ==> InRange(|LinksFrom(links, x)|, r.target.multiplicity))
    && (r.kind == Composition ==> forall y :: y in targets ==> |LinksTo(links, y)| >= 1)
  }

  predicate IsSelf(r: Relationship) {
    r.source.classId == r.target.classId
  }

  /** Objects the ends can have: a class has the same objects at both its ends. */
  predicate FitsEnds(r: Relationship, sources: set<Obj>, targets: set<Obj>) {
    IsSelf(r) ==> sources == targets
  }

  // ---- when both agree -------------------------------------------------

  /** The storage holds exactly the link sets the diagram allows, whatever objects there are. */
  ghost predicate StoredAsDrawn(r: Relationship) {
    forall sources, targets, links :: FitsEnds(r, sources, targets) ==>
      (Held(r, sources, targets, links) <==> Allows(r, sources, targets, links))
  }

  predicate OneOrUnbounded(m: Multiplicity) {
    m.upper == None || m.upper == Some(1)
  }

  /** The multiplicities and kinds that a key column or a join table can express: upper bounds 1 or
      none, a lower bound of 1 only at the end the key refers to. The exception is a class linked
      one-to-one to itself, where counting forces the other lower bound. */
  predicate Expressible(r: Relationship) {
    var s, t := r.source.multiplicity, r.target.multiplicity;
    && OneOrUnbounded(s) && OneOrUnbounded(t)
    && if s.upper == Some(1) then
         && s.lower <= 1 && !(r.kind == Composition && IsSelf(r))
         && (t.lower <= 0 || (IsSelf(r) && s.lower == 1 && t == Multiplicity(1, Some(1))))
       else
         && r.kind != Composition && s.lower <= 0
         && (t.lower <= 0 || t == Multiplicity(1, Some(1)))
  }

  // ---- counting --------------------------------------------------------

  lemma SoleMember<T>(s: set<T>)
    ensures |s| <= 1 <==> forall p, q :: p in s && q in s ==> p == q
  {
    if |s| <= 1 {
      forall p, q | p in s && q in s ensures p == q {
        assert |s - {p}| == |s| - 1;
        assert q != p ==> q in s - {p};
      }
    }
    if forall p, q :: p in s && q in s ==> p == q {
      if p :| p in s {
        assert s == {p};
      }
    }
  }

  lemma CountFrom(links: set<Link>)
    ensures Functional(links, true) <==> forall x :: |LinksFrom(links, x)| <= 1
  {
    forall x { SoleMember(LinksFrom(links, x)); }
    if forall x :: |LinksFrom(links, x)| <= 1 {
      forall p, q | p in links && q in links && p.0 == q.0 ensures p == q {
        assert p in LinksFrom(links, p.0) && q in LinksFrom(links, p.0);
      }
    }
  }

  lemma CountTo(links: set<Link>)
    ensures Functional(links, false) <==> forall y :: |LinksTo(links, y)| <= 1
  {
    forall y { SoleMember(LinksTo(links, y)); }
    if forall y :: |LinksTo(links, y)| <= 1 {
      forall p, q | p in links && q in links && p.1 == q.1 ensures p == q {
        assert p in LinksTo(links, p.1) && q in LinksTo(links, p.1);
      }
    }
  }

  lemma CoversFrom(links: set<Link>, holders: set<Obj>)
    ensures Covers(links, holders, true) <==> forall x :: x in holders ==> |LinksFrom(links, x)| >= 1
  {
    forall x ensures |LinksFrom(links, x)| >= 1 <==> exists p :: p in links && p.0 == x {
      if p :| p in links && p.0 == x {
        assert p in LinksFrom(links, x);
      }
      if |LinksFrom(links, x)| >= 1 {
        var p :| p in LinksFrom(links, x);
      }
    }
  }

  lemma CoversTo(links: set<Link>, holders: set<Obj>)
    ensures Covers(links, holders, false) <==> forall y :: y in holders ==> |LinksTo(links, y)| >= 1
  {
    forall y ensures |LinksTo(links, y)| >= 1 <==> exists p :: p in links && p.1 == y {
      if p :| p in links && p.1 == y {
        assert p in LinksTo(links, y);
      }
      if |LinksTo(links, y)| >= 1 {
        var p :| p in LinksTo(links, y);
      }
    }
  }

  lemma OutsideNothing(sources: set<Obj>, targets: set<Obj>, links: set<Link>)
    requires forall p :: p in links ==> p.0 in sources && p.1 in targets
    ensures forall x :: x !in sources ==> |LinksFrom(links, x)| == 0
    ensures forall y :: y !in targets ==> |LinksTo(links, y)| == 0
  {
    forall x | x !in sources ensures LinksFrom(links, x) == {} {
    }
    forall y | y !in targets ensures LinksTo(links, y) == {} {
    }
  }

  /** `Held` by counting links. */
  ghost predicate HeldByCount(r: Relationship, sources: set<Obj>, targets: set<Obj>, links: set<Link>) {
    && (forall p :: p in links ==> p.0 in sources && p.1 in targets)
    && (!IsMany(r.source.multiplicity) ==> forall y :: y in targets ==> |LinksTo(links, y)| <= 1)
    && (!IsMany(r.target.multiplicity) ==> forall x :: x in sources ==> |LinksFrom(links, x)| <= 1)
    && (!PlacementOf(r).JoinTable? && !IsNullable(r) ==>
          if HoldsOnSource(r) then forall x :: x in sources ==> |LinksFrom(links, x)| >= 1
          else forall y :: y in targets ==> |LinksTo(links, y)| >= 1)
  }

  lemma HeldIsCounted(r: Relationship, sources: set<Obj>, targets: set<Obj>, links: set<Link>)
    ensures Held(r, sources, targets, links) <==> HeldByCount(r, sources, targets, links)
  {
    CountFrom(links);
    CountTo(links);
    CoversFrom(links, sources);
    CoversTo(links, targets);
    if forall p :: p in links ==> p.0 in sources && p.1 in targets {
      OutsideNothing(sources, targets, links);
    }
    hide Functional, Covers, LinksFrom, LinksTo, IsNullable, IsMany;
  }

  // ---- expressible relationships are stored as drawn -------------------

  function Firsts(links: set<Link>): set<Obj> {
    set p | p in links :: p.0
  }

  function Seconds(links: set<Link>): set<Obj> {
    set p | p in links :: p.1
  }

  lemma {:induction false} FirstsCount(links: set<Link>)
    requires Functional(links, true)
    ensures |Firsts(links)| == |links|
  {
    if p :| p in links {
      var rest := links - {p};
      FirstsCount(rest);
      assert Firsts(links) == Firsts(rest) + {p.0};
      assert p.0 !in Firsts(rest);
    }
  }

  lemma {:induction false} SecondsCount(links: set<Link>)
    requires Functional(links, false)
    ensures |Seconds(links)| == |links|
  {
    if p :| p in links {
      var rest := links - {p};
      SecondsCount(rest);
      assert Seconds(links) == Seconds(rest) + {p.1};
      assert p.1 !in Seconds(rest);
    }
  }

  lemma CoveredSeconds(objects: set<Obj>, links: set<Link>)
    requires Covers(links, objects, false) && forall p :: p in links ==> p.1 in objects
    ensures Seconds(links) == objects
  {
    forall y | y in objects ensures y in Seconds(links) {
      var p :| p in links && p.1 == y;
    }
  }

  lemma AllFirstsCover(objects: set<Obj>, links: set<Link>)
    requires Firsts(links) == objects
    ensures Covers(links, objects, true)
  {
    forall x | x in objects ensures exists p :: p in links && p.0 == x {
      assert x in Firsts(links);
    }
  }

  lemma SameSize<T>(a: set<T>, b: set<T>)
    requires a <= b && |a| == |b|
    ensures a == b
  {
    assert |b - a| == |b| - |a|;
  }

  /** A one-to-one linking that reaches every object of a class starts from every object. */
  lemma OneToOneCovers(objects: set<Obj>, links: set<Link>)
    requires forall p :: p in links ==> p.0 in objects && p.1 in objects
    requires Functional(links, true) && Functional(links, false) && Covers(links, objects, false)
    ensures Covers(links, objects, true)
  {
    FirstsCount(links);
    SecondsCount(links);
    CoveredSeconds(objects, links);
    assert Firsts(links) <= objects;
    hide *;
    SameSize(Firsts(links), objects);
    AllFirstsCover(objects, links);
  }

  lemma SelfOneToOne(objects: set<Obj>, links: set<Link>)
    requires forall p :: p in links ==> p.0 in objects && p.1 in objects
    requires forall y :: y in objects ==> |LinksTo(links, y)| == 1
    requires forall x :: x in objects ==> |LinksFrom(links, x)| <= 1
    ensures forall x :: x in objects ==> |LinksFrom(links, x)| == 1
  {
    OutsideNothing(objects, objects, links);
    CountFrom(links);
    CountTo(links);
    CoversFrom(links, objects);
    CoversTo(links, objects);
    hide Functional, Covers, LinksFrom, LinksTo;
    OneToOneCovers(objects, links);
  }

  lemma ExpressibleIsStored(r: Relationship, sources: set<Obj>, targets: set<Obj>, links: set<Link>)
    requires Expressible(r) && FitsEnds(r, sources, targets)
    ensures HeldByCount(r, sources, targets, links) <==> Allows(r, sources, targets, links)
  {
    hide LinksFrom, LinksTo;
    if HeldByCount(r, sources, targets, links) && IsSelf(r) && r.target.multiplicity.lower == 1 && r.source.multiplicity.upper == Some(1) {
      SelfOneToOne(sources, links);
    }
  }

  // ---- the others are not ----------------------------------------------

  const A: set<Obj> := {"a"}
  const AB: set<Obj> := {"a", "b"}

  lemma CountOne(links: set<Link>, p: Link)
    ensures LinksFrom(links, p.0) == {p} ==> |LinksFrom(links, p.0)| == 1
    ensures LinksTo(links, p.1) == {p} ==> |LinksTo(links, p.1)| == 1
  {
  }

  lemma EmptyCounts(x: Obj)
    ensures |LinksFrom({}, x)| == 0 && |LinksTo({}, x)| == 0
  {
    assert LinksFrom({}, x) == {} && LinksTo({}, x) == {};
  }

  /** One object linked to itself is always held. */
  lemma LoopIsHeld(r: Relationship)
    ensures HeldByCount(r, A, A, {("a", "a")})
    ensures Allows(r, A, A, {("a", "a")}) <==> InRange(1, r.source.multiplicity) && InRange(1, r.target.multiplicity)
  {
    var links: set<Link> := {("a", "a")};
    assert LinksFrom(links, "a") == {("a", "a")} && LinksTo(links, "a") == {("a", "a")};
    CountOne(links, ("a", "a"));
    hide LinksFrom, LinksTo, IsNullable;
  }

  /** Without links, a NOT NULL key is the only thing that can be missing. */
  lemma EmptyIsHeld(r: Relationship)
    ensures HeldByCount(r, A, A, {}) <==> PlacementOf(r).JoinTable? || IsNullable(r)
    ensures Allows(r, A, A, {}) <==>
      InRange(0, r.source.multiplicity) && InRange(0, r.target.multiplicity) && r.kind != Composition
  {
    EmptyCounts("a");
    assert "a" in A;
    hide LinksFrom, LinksTo, IsNullable;
  }

  /** Sources without targets. */
  lemma LonelySource(r: Relationship)
    ensures !HoldsOnSource(r) ==> HeldByCount(r, A, {}, {})
    ensures Allows(r, A, {}, {}) <==> InRange(0, r.target.multiplicity)
  {
    EmptyCounts("a");
    assert "a" in A;
    hide LinksFrom, LinksTo, IsNullable;
  }

  const FROM_A: set<Link> := {("a", "a"), ("a", "b")}
  const TO_A: set<Link> := {("a", "a"), ("b", "a")}

  lemma ForkCounts()
    ensures |LinksTo(FROM_A, "a")| == |LinksTo(FROM_A, "b")| == 1 && |LinksFrom(FROM_A, "b")| == 0
    ensures |LinksFrom(TO_A, "a")| == |LinksFrom(TO_A, "b")| == 1 && |LinksTo(TO_A, "b")| == 0
  {
    assert LinksTo(FROM_A, "a") == {("a", "a")} && LinksTo(FROM_A, "b") == {("a", "b")} && LinksFrom(FROM_A, "b") == {};
    assert LinksFrom(TO_A, "a") == {("a", "a")} && LinksFrom(TO_A, "b") == {("b", "a")} && LinksTo(TO_A, "b") == {};
  }

  /** Two objects, both linked from one of them: the other one links to nothing. */
  lemma ForkFrom(r: Relationship)
    requires IsMany(r.target.multiplicity)
    ensures HeldByCount(r, AB, AB, FROM_A)
    ensures Allows(r, AB, AB, FROM_A) ==> r.target.multiplicity.lower <= 0
  {
    ForkCounts();
    assert "b" in AB;
    hide LinksFrom, LinksTo, IsNullable;
  }

  lemma ForkTo(r: Relationship)
    requires IsMany(r.source.multiplicity)
    ensures HeldByCount(r, AB, AB, TO_A)
    ensures Allows(r, AB, AB, TO_A) ==> r.source.multiplicity.lower <= 0 && r.kind != Composition
  {
    ForkCounts();
    assert "b" in AB;
    hide LinksFrom, LinksTo, IsNullable;
  }

  /** `n` different objects. */
  function Objects(n: nat): set<Obj> {
    set i: nat | i < n :: NatText(i)
  }

  lemma {:induction false} ObjectsCount(n: nat)
    ensures |Objects(n)| == n
  {
    if n > 0 {
      ObjectsCount(n - 1);
      forall i: nat | NatText(i) == NatText(n - 1) ensures i == n - 1 {
        NatTextInjective(i, n - 1);
      }
      assert Objects(n) == Objects(n - 1) + {NatText(n - 1)};
      assert NatText(n - 1) !in Objects(n - 1);
    }
  }

  function FanOut(hub: Obj, objects: set<Obj>): set<Link> {
    set o | o in objects :: (hub, o)
  }

  function FanIn(hub: Obj, objects: set<Obj>): set<Link> {
    set o | o in objects :: (o, hub)
  }

  lemma {:induction false} FanCounts(hub: Obj, objects: set<Obj>)
    ensures |FanOut(hub, objects)| == |objects| && |FanIn(hub, objects)| == |objects|
  {
    if o :| o in objects {
      FanCounts(hub, objects - {o});
      assert FanOut(hub, objects) == FanOut(hub, objects - {o}) + {(hub, o)};
      assert FanIn(hub, objects) == FanIn(hub, objects - {o}) + {(o, hub)};
    }
  }

  lemma FanDegrees(hub: Obj, objects: set<Obj>)
    ensures |LinksFrom(FanOut(hub, objects), hub)| == |objects| && |LinksTo(FanIn(hub, objects), hub)| == |objects|
    ensures forall o :: o in objects ==> |LinksTo(FanOut(hub, objects), o)| == 1 && |LinksFrom(FanIn(hub, objects), o)| == 1
  {
    FanCounts(hub, objects);
    assert LinksFrom(FanOut(hub, objects), hub) == FanOut(hub, objects);
    assert LinksTo(FanIn(hub, objects), hub) == FanIn(hub, objects);
    forall o | o in objects
      ensures |LinksTo(FanOut(hub, objects), o)| == 1 && |LinksFrom(FanIn(hub, objects), o)| == 1
    {
      assert LinksTo(FanOut(hub, objects), o) == {(hub, o)} && LinksFrom(FanIn(hub, objects), o) == {(o, hub)};
    }
  }

  /** More targets than a finite bound above one. */
  lemma FanOutIsHeld(r: Relationship, n: nat)
    requires IsMany(r.target.multiplicity) && n > 0
    ensures HeldByCount(r, Objects(n), Objects(n), FanOut(NatText(0), Objects(n)))
    ensures |LinksFrom(FanOut(NatText(0), Objects(n)), NatText(0))| == n && NatText(0) in Objects(n)
  {
    ObjectsCount(n);
    FanDegrees(NatText(0), Objects(n));
    assert NatText(0) in Objects(n);
    hide LinksFrom, LinksTo, IsNullable, Objects;
  }

  lemma FanInIsHeld(r: Relationship, n: nat)
    requires IsMany(r.source.multiplicity) && n > 0
    ensures HeldByCount(r, Objects(n), Objects(n), FanIn(NatText(0), Objects(n)))
    ensures |LinksTo(FanIn(NatText(0), Objects(n)), NatText(0))| == n && NatText(0) in Objects(n)
  {
    ObjectsCount(n);
    FanDegrees(NatText(0), Objects(n));
    assert NatText(0) in Objects(n);
    hide LinksFrom, LinksTo, IsNullable, Objects;
  }

  // ---- upper bounds ----------------------------------------------------

  ghost predicate WithinUppers(r: Relationship, sources: set<Obj>, targets: set<Obj>, links: set<Link>) {
    && (forall y :: y in targets ==> WithinUpper(|LinksTo(links, y)|, r.source.multiplicity))
    && (forall x :: x in sources ==> WithinUpper(|LinksFrom(links, x)|, r.target.multiplicity))
  }

  /** Nothing the storage holds exceeds an upper bound. */
  ghost predicate KeepsUppers(r: Relationship) {
    forall sources, targets, links :: FitsEnds(r, sources, targets) && Held(r, sources, targets, links) ==>
      WithinUppers(r, sources, targets, links)
  }

  lemma UppersNeedOneOrUnbounded(r: Relationship)
    requires KeepsUppers(r)
    ensures OneOrUnbounded(r.source.multiplicity) && OneOrUnbounded(r.target.multiplicity)
  {
    hide LinksFrom, LinksTo, Held, IsNullable;
    LoopIsHeld(r);
    HeldIsCounted(r, A, A, {("a", "a")});
    assert LinksFrom({("a", "a")}, "a") == {("a", "a")} && LinksTo({("a", "a")}, "a") == {("a", "a")} by { LoopLinks(); }
    assert WithinUppers(r, A, A, {("a", "a")}) && "a" in A;
    if IsMany(r.target.multiplicity) && r.target.multiplicity.upper.Some? {
      var n := r.target.multiplicity.upper.value + 1;
      FanOutIsHeld(r, n);
      HeldIsCounted(r, Objects(n), Objects(n), FanOut(NatText(0), Objects(n)));
    }
    if IsMany(r.source.multiplicity) && r.source.multiplicity.upper.Some? {
      var n := r.source.multiplicity.upper.value + 1;
      FanInIsHeld(r, n);
      HeldIsCounted(r, Objects(n), Objects(n), FanIn(NatText(0), Objects(n)));
    }
  }

  lemma LoopLinks()
    ensures LinksFrom({("a", "a")}, "a") == {("a", "a")} && LinksTo({("a", "a")}, "a") == {("a", "a")}
  {
  }

  /** The storage keeps the upper bounds of a relationship exactly when each is 1 or unbounded: an
      end with upper bound 0 can be linked, and a bound above 1 can be exceeded. */
  lemma UppersAreKept(r: Relationship)
    ensures KeepsUppers(r) <==> OneOrUnbounded(r.source.multiplicity) && OneOrUnbounded(r.target.multiplicity)
  {
    if KeepsUppers(r) {
      UppersNeedOneOrUnbounded(r);
    }
    if OneOrUnbounded(r.source.multiplicity) && OneOrUnbounded(r.target.multiplicity) {
      forall sources, targets, links | FitsEnds(r, sources, targets) && Held(r, sources, targets, links)
        ensures WithinUppers(r, sources, targets, links)
      {
        HeldIsCounted(r, sources, targets, links);
      }
    }
  }

  // ---- lower bounds ----------------------------------------------------

  /** One instance of the agreement, by counting. */
  lemma Agrees(r: Relationship, sources: set<Obj>, targets: set<Obj>, links: set<Link>)
    requires StoredAsDrawn(r) && FitsEnds(r, sources, targets)
    ensures HeldByCount(r, sources, targets, links) <==> Allows(r, sources, targets, links)
  {
    hide Held, HeldByCount, Allows;
    HeldIsCounted(r, sources, targets, links);
  }

  lemma StoredKeepsUppers(r: Relationship)
    requires StoredAsDrawn(r)
    ensures KeepsUppers(r)
  {
    hide Held, LinksFrom, LinksTo;
  }

  lemma DrawnIsExpressible(r: Relationship)
    requires StoredAsDrawn(r)
    ensures Expressible(r)
  {
    StoredKeepsUppers(r);
    UppersNeedOneOrUnbounded(r);
    LoopIsHeld(r);
    Agrees(r, A, A, {("a", "a")});
    EmptyIsHeld(r);
    Agrees(r, A, A, {});
    if !IsSelf(r) {
      LonelySource(r);
      Agrees(r, A, {}, {});
    }
    if IsMany(r.target.multiplicity) {
      ForkFrom(r);
      Agrees(r, AB, AB, FROM_A);
    }
    if IsMany(r.source.multiplicity) {
      ForkTo(r);
      Agrees(r, AB, AB, TO_A);
    }
    hide StoredAsDrawn, KeepsUppers, HeldByCount, Allows;
  }

  /** The storage of a relationship says exactly what its diagram says iff the relationship is
      expressible. */
  lemma StoredAsDrawnExactly(r: Relationship)
    ensures StoredAsDrawn(r) <==> Expressible(r)
  {
    if StoredAsDrawn(r) {
      DrawnIsExpressible(r);
    }
    if Expressible(r) {
      forall sources, targets, links | FitsEnds(r, sources, targets)
        ensures Held(r, sources, targets, links) <==> Allows(r, sources, targets, links)
      {
        HeldIsCounted(r, sources, targets, links);
        ExpressibleIsStored(r, sources, targets, links);
      }
    }
    hide Held, HeldByCount, Allows, Expressible;
  }

  // ---- in the schema of a model ----------------------------------------

  /** The tables store what the diagram says about `r`, whatever objects there are. */
  ghost predicate SaysTheSame(tables: seq<Table>, r: Relationship) {
    forall pop, links :: Storable(tables, r, pop, links) <==>
      Allows(r, Rows(pop, [r.source.classId]), Rows(pop, [r.target.classId]), links)
  }

  ghost predicate StoresHeld(tables: seq<Table>, r: Relationship) {
    forall pop, links :: Storable(tables, r, pop, links) <==>
      Held(r, Rows(pop, [r.source.classId]), Rows(pop, [r.target.classId]), links)
  }

  lemma RowsOfOne(pop: Population, id: ElementId)
    ensures Rows(pop, [id]) == if id in pop then pop[id] else {}
  {
  }

  /** Every pair of object sets the ends can have is that of a population. */
  lemma PopulationOf(r: Relationship, sources: set<Obj>, targets: set<Obj>) returns (pop: Population)
    requires FitsEnds(r, sources, targets)
    ensures Rows(pop, [r.source.classId]) == sources && Rows(pop, [r.target.classId]) == targets
  {
    pop := map[r.source.classId := sources, r.target.classId := targets];
    RowsOfOne(pop, r.source.classId);
    RowsOfOne(pop, r.target.classId);
  }

  lemma SameIsDrawn(tables: seq<Table>, r: Relationship)
    requires StoresHeld(tables, r)
    ensures SaysTheSame(tables, r) <==> StoredAsDrawn(r)
  {
    hide Storable, Held, Allows, Rows;
    if SaysTheSame(tables, r) {
      forall sources, targets, links | FitsEnds(r, sources, targets)
        ensures Held(r, sources, targets, links) <==> Allows(r, sources, targets, links)
      {
        var pop := PopulationOf(r, sources, targets);
        assert Storable(tables, r, pop, links) <==> Held(r, sources, targets, links);
      }
    }
    if StoredAsDrawn(r) {
      forall pop, links
        ensures Storable(tables, r, pop, links) <==>
          Allows(r, Rows(pop, [r.source.classId]), Rows(pop, [r.target.classId]), links)
      {
        assert FitsEnds(r, Rows(pop, [r.source.classId]), Rows(pop, [r.target.classId]));
      }
    }
  }

  lemma LoneStoresHeld(snake: SnakeCase, model: Model, r: Relationship)
    requires DistinctIds(model) && RunPipeline(snake, model).Ok?
    requires r in model.relationships && r.kind != Generalization
    requires IsLone(model, r.source.classId) && IsLone(model, r.target.classId)
    ensures StoresHeld(MapToRelational(snake, model).value.tables, r)
  {
    MapsIfRuns(snake, model);
    hide Storable, Held, MapToRelational, RunPipeline, Rows, IsLone;
    forall pop, links
      ensures Storable(MapToRelational(snake, model).value.tables, r, pop, links) <==>
        Held(r, Rows(pop, [r.source.classId]), Rows(pop, [r.target.classId]), links)
    {
      LoneLinksAreHeld(snake, model, r, pop, links);
    }
  }

  /** Between two classes outside any hierarchy of an accepted model, the schema stores exactly the
      link sets the diagram allows iff the multiplicities and the kind are expressible. */
  lemma LinksMeanWhatTheDiagramSays(snake: SnakeCase, model: Model, r: Relationship)
    requires DistinctIds(model) && RunPipeline(snake, model).Ok?
    requires r in model.relationships && r.kind != Generalization
    requires IsLone(model, r.source.classId) && IsLone(model, r.target.classId)
    ensures SaysTheSame(MapToRelational(snake, model).value.tables, r) <==> Expressible(r)
  {
    LoneStoresHeld(snake, model, r);
    StoredAsDrawnExactly(r);
    SameIsDrawn(MapToRelational(snake, model).value.tables, r);
    hide StoresHeld, SaysTheSame, StoredAsDrawn, Expressible, MapToRelational, RunPipeline;
  }

  // ---- a valid range that is not kept ----------------------------------

  const NONE := Multiplicity(0, Some(0))
  const LEFT := UmlClass("l", "Left", [], [], Public)
  const RIGHT := UmlClass("r", "Right", [], [], Public)
  const UNLINKED := Relationship("u", Association, RelationshipEnd("l", NONE, None), RelationshipEnd("r", NONE, None), None)
  const APART := Model([LEFT, RIGHT], [], [UNLINKED], map[])
  const ONE_EACH: Population := map["l" := {"a"}, "r" := {"b"}]

  lemma ApartIsSimple(snake: SnakeCase)
    requires snake("Left").Some? && snake("Right").Some?
    ensures DistinctIds(APART) && NamesConvert(snake, APART) && NoDanglingEnds(APART)
    ensures ProfilesParse(APART) && EnumReferencesKnown(APART)
    ensures forall c, p :: !HasParent(APART.relationships, c, p)
    ensures UNLINKED in APART.relationships && UNLINKED.kind == Association
    ensures UNLINKED.source.classId == "l" && UNLINKED.target.classId == "r"
  {
    assert LEFT in APART.classes && RIGHT in APART.classes;
  }

  lemma NoParentsNoCycles(model: Model)
    requires forall c, p :: !HasParent(model.relationships, c, p)
    ensures SingleParents(model) && Acyclic(model) && forall id :: IsLone(model, id)
  {
    hide HasParent;
  }

  lemma IdsOfClasses(model: Model)
    requires DistinctIds(model)
    ensures DistinctClassIds(model)
  {
  }

  lemma MapsIfRuns(snake: SnakeCase, model: Model)
    requires DistinctClassIds(model)
    ensures MapToRelational(snake, model).Ok? <==> RunPipeline(snake, model).Ok?
  {
    hide RunPipeline;
  }

  lemma ApartMaps(snake: SnakeCase)
    requires snake("Left").Some? && snake("Right").Some?
    ensures DistinctIds(APART) && DistinctClassIds(APART)
    ensures RunPipeline(snake, APART).Ok? && MapToRelational(snake, APART).Ok?
    ensures IsLone(APART, "l") && IsLone(APART, "r")
  {
    hide *;
    ApartIsSimple(snake);
    IdsOfClasses(APART);
    NoParentsNoCycles(APART);
    AcceptsExactly(snake, APART);
    MapsIfRuns(snake, APART);
  }

  lemma LinkIsHeld()
    ensures Held(UNLINKED, {"a"}, {"b"}, {("a", "b")}) && !Allows(UNLINKED, {"a"}, {"b"}, {("a", "b")})
  {
    var links: set<Link> := {("a", "b")};
    assert LinksFrom(links, "a") == links;
    assert "a" in A;
  }

  lemma ApartRows()
    ensures Rows(ONE_EACH, ["l"]) == {"a"} && Rows(ONE_EACH, ["r"]) == {"b"}
  {
    RowsOfOne(ONE_EACH, "l");
    RowsOfOne(ONE_EACH, "r");
  }

  /** An association that forbids every link, `0..0` at both ends, is mapped to a key that stores one. */
  lemma ForbiddenLinkIsStored(snake: SnakeCase)
    requires snake("Left").Some? && snake("Right").Some?
    ensures DistinctClassIds(APART) && MapToRelational(snake, APART).Ok?
    ensures Storable(MapToRelational(snake, APART).value.tables, UNLINKED, ONE_EACH, {("a", "b")})
    ensures !Allows(UNLINKED, {"a"}, {"b"}, {("a", "b")})
  {
    hide *;
    ApartMaps(snake);
    ApartRows();
    LinkIsHeld();
    ApartIsSimple(snake);
    LoneLinksAreHeld(snake, APART, UNLINKED, ONE_EACH, {("a", "b")});
  }
}
