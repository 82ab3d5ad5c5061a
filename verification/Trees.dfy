/** Generalization trees: `_build_hierarchy`'s parent map, the breadth-first
    descendant lists and `_root_of`. */
module Trees {
  import opened Text
  import opened Seqs
  import opened Uml
  import opened Hierarchy

  // ---- children and breadth-first levels -------------------------------

  /** The classes whose parent is `parent`, in model order (`children_of[parent]`). */
  function ChildrenOf(ids: seq<ElementId>, parentOf: Parents, parent: ElementId): (r: seq<ElementId>)
    ensures forall x :: x in r <==> x in ids && x in parentOf && parentOf[x] == parent
  {
    if ids == [] then []
    else
      var front := ChildrenOf(ids[..|ids| - 1], parentOf, parent);
      var last := ids[|ids| - 1];
      if last in parentOf && parentOf[last] == parent then front + [last] else front
  }

  /** The children of a whole level, level order first. */
  function NextLevel(ids: seq<ElementId>, parentOf: Parents, level: seq<ElementId>): (r: seq<ElementId>)
    ensures forall x :: x in r <==> x in ids && x in parentOf && parentOf[x] in level
  {
    if level == [] then []
    else NextLevel(ids, parentOf, level[..|level| - 1]) + ChildrenOf(ids, parentOf, level[|level| - 1])
  }

  /** Every chain ends, and parents are classes of the model. */
  ghost predicate IsForest(ids: seq<ElementId>, parentOf: Parents) {
    && Distinct(ids)
    && (forall x :: x in ids ==> Ends(parentOf, x))
    && (forall x {:trigger parentOf[x]} :: x in parentOf ==> x in ids && parentOf[x] in ids)
  }

  ghost function MaxHeight(ids: seq<ElementId>, parentOf: Parents): (m: nat)
    requires forall x :: x in ids ==> Ends(parentOf, x)
    ensures forall x :: x in ids ==> Height(parentOf, x) <= m
  {
    if ids == [] then 0
    else
      var rest := MaxHeight(ids[1..], parentOf);
      var first := Height(parentOf, ids[0]);
      if first > rest then first else rest
  }

  ghost predicate IsLevel(ids: seq<ElementId>, parentOf: Parents, level: seq<ElementId>, height: nat)
    requires IsForest(ids, parentOf)
  {
    && Distinct(level)
    && forall x :: x in level ==> x in ids && Height(parentOf, x) == height
  }

  lemma NextLevelIsLevel(ids: seq<ElementId>, parentOf: Parents, level: seq<ElementId>, height: nat)
    requires IsForest(ids, parentOf) && IsLevel(ids, parentOf, level, height)
    ensures IsLevel(ids, parentOf, NextLevel(ids, parentOf, level), height + 1)
  {
    NextLevelDistinct(ids, parentOf, level);
    forall x | x in NextLevel(ids, parentOf, level)
      ensures Height(parentOf, x) == height + 1
    {
      ParentHeight(parentOf, x);
    }
  }

  lemma {:induction false} ChildrenDistinct(ids: seq<ElementId>, parentOf: Parents, parent: ElementId)
    requires Distinct(ids)
    ensures Distinct(ChildrenOf(ids, parentOf, parent))
  {
    if ids != [] {
      var front := ids[..|ids| - 1];
      ChildrenDistinct(front, parentOf, parent);
      assert ids[|ids| - 1] !in front;
    }
  }

  lemma {:induction false} NextLevelDistinct(ids: seq<ElementId>, parentOf: Parents, level: seq<ElementId>)
    requires Distinct(ids) && Distinct(level)
    ensures Distinct(NextLevel(ids, parentOf, level))
  {
    if level != [] {
      var front, last := level[..|level| - 1], level[|level| - 1];
      NextLevelDistinct(ids, parentOf, front);
      ChildrenDistinct(ids, parentOf, last);
      assert last !in front;
      DistinctConcat(NextLevel(ids, parentOf, front), ChildrenOf(ids, parentOf, last));
    }
  }

  lemma DistinctConcat<T>(a: seq<T>, b: seq<T>)
    requires Distinct(a) && Distinct(b)
    requires forall x :: x in a ==> x !in b
    ensures Distinct(a + b)
  {
    forall i, j | 0 <= i < j < |a + b|
      ensures (a + b)[i] != (a + b)[j]
    {
      if i < |a| && |a| <= j {
        assert (a + b)[i] in a && (a + b)[j] in b;
      }
    }
  }

  /** The breadth-first order below and including `level`, whose classes have height `height`. */
  function BreadthFirst(ids: seq<ElementId>, parentOf: Parents, level: seq<ElementId>, ghost height: nat)
      : (r: seq<ElementId>)
    requires IsForest(ids, parentOf) && IsLevel(ids, parentOf, level, height)
    decreases if level == [] then 0 else 1 + MaxHeight(ids, parentOf) - height
  {
    if level == [] then []
    else
      assert level[0] in ids;
      NextLevelIsLevel(ids, parentOf, level, height);
      var next := NextLevel(ids, parentOf, level);
      assert next != [] ==> next[0] in ids && Height(parentOf, next[0]) == height + 1;
      level + BreadthFirst(ids, parentOf, next, height + 1)
  }

  lemma LevelUnfolds(ids: seq<ElementId>, parentOf: Parents, level: seq<ElementId>, height: nat)
    requires IsForest(ids, parentOf) && IsLevel(ids, parentOf, level, height) && level != []
    ensures var next := NextLevel(ids, parentOf, level);
      && IsLevel(ids, parentOf, next, height + 1)
      && BreadthFirst(ids, parentOf, level, height) == level + BreadthFirst(ids, parentOf, next, height + 1)
      && (next == [] || height + 1 <= MaxHeight(ids, parentOf))
    ensures height <= MaxHeight(ids, parentOf)
  {
    assert level[0] in ids;
    var next := NextLevel(ids, parentOf, level);
    NextLevelIsLevel(ids, parentOf, level, height);
    assert next != [] ==> next[0] in ids && Height(parentOf, next[0]) == height + 1;
  }

  /** The ancestor of `x` on the level of the given height, if its chain is that long. */
  ghost function AncestorAt(parentOf: Parents, x: ElementId, height: nat): Option<ElementId>
    requires Ends(parentOf, x)
  {
    if height <= Height(parentOf, x) then Climb(parentOf, x, Height(parentOf, x) - height) else None
  }

  ghost predicate HasAncestorIn(
      ids: seq<ElementId>, parentOf: Parents, level: seq<ElementId>, height: nat, x: ElementId)
    requires IsForest(ids, parentOf)
  {
    x in ids && AncestorAt(parentOf, x, height).Some? && AncestorAt(parentOf, x, height).value in level
  }

  lemma AncestorStep(ids: seq<ElementId>, parentOf: Parents, level: seq<ElementId>, x: ElementId, n: nat)
    requires IsForest(ids, parentOf) && x in ids
    ensures (Climb(parentOf, x, n + 1).Some? && Climb(parentOf, x, n + 1).value in level) <==>
      (Climb(parentOf, x, n).Some? && Climb(parentOf, x, n).value in NextLevel(ids, parentOf, level))
  {
    hide Ends, Distinct;
    ClimbOneMore(parentOf, x, n);
    ClimbInIds(ids, parentOf, x, n);
    var a := Climb(parentOf, x, n);
    if a.Some? && a.value in parentOf {
      assert Climb(parentOf, parentOf[a.value], 0) == Some(parentOf[a.value]);
      assert Climb(parentOf, a.value, 1) == Some(parentOf[a.value]);
    }
  }

  lemma AncestorOneUp(ids: seq<ElementId>, parentOf: Parents, level: seq<ElementId>, height: nat, x: ElementId)
    requires IsForest(ids, parentOf) && IsLevel(ids, parentOf, level, height) && x in ids
    ensures HasAncestorIn(ids, parentOf, level, height, x) <==>
      x in level || HasAncestorIn(ids, parentOf, NextLevel(ids, parentOf, level), height + 1, x)
  {
    hide Ends, Distinct;
    if height < Height(parentOf, x) {
      AncestorStep(ids, parentOf, level, x, Height(parentOf, x) - height - 1);
    }
  }

  /** `x` lies at or below `level` exactly when its ancestor of that height is in it. */
  lemma {:induction false} BreadthFirstMembers(
      ids: seq<ElementId>, parentOf: Parents, level: seq<ElementId>, height: nat, x: ElementId)
    requires IsForest(ids, parentOf) && IsLevel(ids, parentOf, level, height)
    ensures x in BreadthFirst(ids, parentOf, level, height) <==> HasAncestorIn(ids, parentOf, level, height, x)
    decreases if level == [] then 0 else 1 + MaxHeight(ids, parentOf) - height
  {
    if level != [] {
      LevelUnfolds(ids, parentOf, level, height);
      BreadthFirstMembers(ids, parentOf, NextLevel(ids, parentOf, level), height + 1, x);
      if x in ids {
        AncestorOneUp(ids, parentOf, level, height, x);
      }
    }
  }

  lemma {:induction false} ClimbOneMore(parentOf: Parents, x: ElementId, n: nat)
    ensures Climb(parentOf, x, n + 1) ==
      (var a := Climb(parentOf, x, n); if a.Some? then Climb(parentOf, a.value, 1) else None)
    decreases n
  {
    if n > 0 && x in parentOf {
      ClimbOneMore(parentOf, parentOf[x], n - 1);
    }
  }

  lemma {:induction false} ClimbInIds(ids: seq<ElementId>, parentOf: Parents, x: ElementId, n: nat)
    requires IsForest(ids, parentOf) && x in ids
    ensures Climb(parentOf, x, n).Some? ==> Climb(parentOf, x, n).value in ids
    decreases n
  {
    if n > 0 && x in parentOf {
      ClimbInIds(ids, parentOf, parentOf[x], n - 1);
    }
  }

  lemma LevelNotBelow(ids: seq<ElementId>, parentOf: Parents, level: seq<ElementId>, height: nat, x: ElementId)
    requires IsForest(ids, parentOf) && IsLevel(ids, parentOf, level, height) && level != [] && x in level
    ensures IsLevel(ids, parentOf, NextLevel(ids, parentOf, level), height + 1)
    ensures x !in BreadthFirst(ids, parentOf, NextLevel(ids, parentOf, level), height + 1)
  {
    hide Ends, Distinct;
    LevelUnfolds(ids, parentOf, level, height);
    BreadthFirstMembers(ids, parentOf, NextLevel(ids, parentOf, level), height + 1, x);
  }

  lemma {:induction false} BreadthFirstDistinct(
      ids: seq<ElementId>, parentOf: Parents, level: seq<ElementId>, height: nat)
    requires IsForest(ids, parentOf) && IsLevel(ids, parentOf, level, height)
    ensures Distinct(BreadthFirst(ids, parentOf, level, height))
    decreases if level == [] then 0 else 1 + MaxHeight(ids, parentOf) - height
  {
    if level != [] {
      assert Distinct(level);
      hide *;
      var next := NextLevel(ids, parentOf, level);
      LevelUnfolds(ids, parentOf, level, height);
      BreadthFirstDistinct(ids, parentOf, next, height + 1);
      forall x | x in level
        ensures x !in BreadthFirst(ids, parentOf, next, height + 1)
      {
        LevelNotBelow(ids, parentOf, level, height, x);
      }
      DistinctConcat(level, BreadthFirst(ids, parentOf, next, height + 1));
    }
  }

  // ---- roots and trees -------------------------------------------------

  function RootsOf(ids: seq<ElementId>, parentOf: Parents): (r: seq<ElementId>)
    ensures forall x :: x in r <==> x in ids && x !in parentOf
    ensures Distinct(ids) ==> Distinct(r)
  {
    if ids == [] then []
    else
      var front := RootsOf(ids[..|ids| - 1], parentOf);
      var last := ids[|ids| - 1];
      if last !in parentOf then front + [last] else front
  }

  /** `_root_of`. */
  function RootOf(parentOf: Parents, x: ElementId): (root: ElementId)
    requires Ends(parentOf, x)
    ensures root !in parentOf
    decreases Height(parentOf, x)
  {
    if x in parentOf then
      ParentHeight(parentOf, x);
      RootOf(parentOf, parentOf[x])
    else x
  }

  lemma {:induction false} RootIsTopOfChain(parentOf: Parents, x: ElementId)
    requires Ends(parentOf, x)
    ensures Climb(parentOf, x, Height(parentOf, x) - 1) == Some(RootOf(parentOf, x))
    decreases Height(parentOf, x)
  {
    ParentHeight(parentOf, x);
    if x in parentOf {
      RootIsTopOfChain(parentOf, parentOf[x]);
    }
  }

  /** `descendants_of[root]`, with the root put first: the classes of one table, in column order. */
  function TreeOf(ids: seq<ElementId>, parentOf: Parents, root: ElementId): (r: seq<ElementId>)
    requires IsForest(ids, parentOf) && root in ids && root !in parentOf
    ensures r != [] && r[0] == root
  {
    RootIsLevel(ids, parentOf, root);
    BreadthFirst(ids, parentOf, [root], 1)
  }

  lemma RootIsLevel(ids: seq<ElementId>, parentOf: Parents, root: ElementId)
    requires IsForest(ids, parentOf) && root in ids && root !in parentOf
    ensures IsLevel(ids, parentOf, [root], 1)
  {
    ParentHeight(parentOf, root);
  }

  /** A class lies in the tree of a root exactly when `_root_of` returns that root. */
  lemma TreeMembers(ids: seq<ElementId>, parentOf: Parents, root: ElementId, x: ElementId)
    requires IsForest(ids, parentOf) && root in ids && root !in parentOf
    ensures x in TreeOf(ids, parentOf, root) <==> x in ids && RootOf(parentOf, x) == root
  {
    RootIsLevel(ids, parentOf, root);
    BreadthFirstMembers(ids, parentOf, [root], 1, x);
    if x in ids {
      RootIsTopOfChain(parentOf, x);
    }
  }

  lemma TreeDistinct(ids: seq<ElementId>, parentOf: Parents, root: ElementId)
    requires IsForest(ids, parentOf) && root in ids && root !in parentOf
    ensures Distinct(TreeOf(ids, parentOf, root))
  {
    RootIsLevel(ids, parentOf, root);
    BreadthFirstDistinct(ids, parentOf, [root], 1);
  }

  /** The trees of the given roots, one after the other. */
  function AllTrees(ids: seq<ElementId>, parentOf: Parents, roots: seq<ElementId>): seq<ElementId>
    requires IsForest(ids, parentOf) && forall r :: r in roots ==> r in ids && r !in parentOf
  {
    if roots == [] then []
    else
      assert forall r :: r in roots[..|roots| - 1] ==> r in roots;
      AllTrees(ids, parentOf, roots[..|roots| - 1]) + TreeOf(ids, parentOf, roots[|roots| - 1])
  }

  lemma {:induction false} AllTreesMembers(
      ids: seq<ElementId>, parentOf: Parents, roots: seq<ElementId>, x: ElementId)
    requires IsForest(ids, parentOf) && Distinct(roots) && forall r :: r in roots ==> r in ids && r !in parentOf
    ensures Distinct(AllTrees(ids, parentOf, roots))
    ensures x in AllTrees(ids, parentOf, roots) <==> x in ids && RootOf(parentOf, x) in roots
  {
    if roots != [] {
      var front, last := roots[..|roots| - 1], roots[|roots| - 1];
      assert forall r :: r in front ==> r in roots;
      assert last !in front;
      AllTreesMembers(ids, parentOf, front, x);
      TreeMembers(ids, parentOf, last, x);
      TreeDistinct(ids, parentOf, last);
      forall y | y in AllTrees(ids, parentOf, front)
        ensures y !in TreeOf(ids, parentOf, last)
      {
        AllTreesMembers(ids, parentOf, front, y);
        TreeMembers(ids, parentOf, last, y);
      }
      DistinctConcat(AllTrees(ids, parentOf, front), TreeOf(ids, parentOf, last));
    }
  }

  lemma AllTreesHoldClass(ids: seq<ElementId>, parentOf: Parents, x: ElementId)
    requires IsForest(ids, parentOf)
    ensures Distinct(AllTrees(ids, parentOf, RootsOf(ids, parentOf)))
    ensures x in AllTrees(ids, parentOf, RootsOf(ids, parentOf)) <==> x in ids
  {
    AllTreesMembers(ids, parentOf, RootsOf(ids, parentOf), x);
    hide *;
    if x in ids {
      RootInIds(ids, parentOf, x);
    }
  }

  lemma RootInIds(ids: seq<ElementId>, parentOf: Parents, x: ElementId)
    requires IsForest(ids, parentOf) && x in ids
    ensures RootOf(parentOf, x) in ids
  {
    hide Distinct;
    RootIsTopOfChain(parentOf, x);
    ClimbInIds(ids, parentOf, x, Height(parentOf, x) - 1);
  }

  /** The trees of all roots together hold every class exactly once. */
  lemma TreesPartitionClasses(ids: seq<ElementId>, parentOf: Parents)
    requires IsForest(ids, parentOf)
    ensures var all := AllTrees(ids, parentOf, RootsOf(ids, parentOf));
      Distinct(all) && |all| == |ids| && multiset(all) == multiset(ids)
  {
    var all := AllTrees(ids, parentOf, RootsOf(ids, parentOf));
    assert Distinct(ids);
    hide *;
    AllTreesHoldClass(ids, parentOf, "");
    forall x ensures x in all <==> x in ids {
      AllTreesHoldClass(ids, parentOf, x);
    }
    SameElements(all, ids);
  }

  lemma {:induction false} CountInDistinct<T>(s: seq<T>, x: T)
    requires Distinct(s)
    ensures multiset(s)[x] == if x in s then 1 else 0
  {
    if s != [] {
      var front, last := s[..|s| - 1], s[|s| - 1];
      assert s == front + [last];
      assert last !in front;
      CountInDistinct(front, x);
    }
  }

  lemma SameElements<T>(a: seq<T>, b: seq<T>)
    requires Distinct(a) && Distinct(b) && forall x :: x in a <==> x in b
    ensures multiset(a) == multiset(b) && |a| == |b|
  {
    forall x ensures multiset(a)[x] == multiset(b)[x] {
      CountInDistinct(a, x);
      CountInDistinct(b, x);
    }
    assert |a| == |multiset(a)| && |b| == |multiset(b)|;
  }

  // ---- the loops -------------------------------------------------------

  /** A `children_of` dictionary: an absent key stands for no children. */
  ghost predicate IsChildMap(ids: seq<ElementId>, parentOf: Parents, childrenOf: map<ElementId, seq<ElementId>>) {
    forall x :: (if x in childrenOf then childrenOf[x] else []) == ChildrenOf(ids, parentOf, x)
  }

  method BuildChildMap(ids: seq<ElementId>, parentOf: Parents) returns (childrenOf: map<ElementId, seq<ElementId>>)
    ensures IsChildMap(ids, parentOf, childrenOf)
  {
    childrenOf := map[];
    for i := 0 to |ids|
      invariant IsChildMap(ids[..i], parentOf, childrenOf)
    {
      assert ids[..i + 1][..i] == ids[..i];
      if ids[i] in parentOf {
        var parent := parentOf[ids[i]];
        childrenOf := childrenOf[parent := (if parent in childrenOf then childrenOf[parent] else []) + [ids[i]]];
      }
    }
    assert ids[..|ids|] == ids;
  }

  /** One level of the queue loop: every node is emitted and its children are queued. */
  method ScanLevel(
      ghost ids: seq<ElementId>, ghost parentOf: Parents,
      queue: seq<ElementId>, childrenOf: map<ElementId, seq<ElementId>>)
      returns (nextLevel: seq<ElementId>)
    requires IsChildMap(ids, parentOf, childrenOf)
    ensures nextLevel == NextLevel(ids, parentOf, queue)
  {
    nextLevel := [];
    for i := 0 to |queue|
      invariant nextLevel == NextLevel(ids, parentOf, queue[..i])
    {
      assert queue[..i + 1][..i] == queue[..i];
      nextLevel := nextLevel + if queue[i] in childrenOf then childrenOf[queue[i]] else [];
    }
    assert queue[..|queue|] == queue;
  }

  /** What the queue loop has emitted, followed by what the queue still stands for. */
  ghost predicate TreeIsSplit(
      ids: seq<ElementId>, parentOf: Parents, root: ElementId,
      emitted: seq<ElementId>, queue: seq<ElementId>, height: nat)
    requires IsForest(ids, parentOf) && root in ids && root !in parentOf
  {
    && IsLevel(ids, parentOf, queue, height)
    && TreeOf(ids, parentOf, root) == emitted + BreadthFirst(ids, parentOf, queue, height)
  }

  lemma TreeSplitStep(
      ids: seq<ElementId>, parentOf: Parents, root: ElementId,
      emitted: seq<ElementId>, queue: seq<ElementId>, height: nat)
    requires IsForest(ids, parentOf) && root in ids && root !in parentOf
    requires TreeIsSplit(ids, parentOf, root, emitted, queue, height)
    ensures queue == [] ==> TreeOf(ids, parentOf, root) == emitted
    ensures queue != [] ==>
      && TreeIsSplit(ids, parentOf, root, emitted + queue, NextLevel(ids, parentOf, queue), height + 1)
      && height <= MaxHeight(ids, parentOf)
      && (NextLevel(ids, parentOf, queue) == [] || height + 1 <= MaxHeight(ids, parentOf))
  {
    hide Ends, Distinct, TreeOf;
    if queue != [] {
      LevelUnfolds(ids, parentOf, queue, height);
    }
  }

  lemma TreeSplitStart(ids: seq<ElementId>, parentOf: Parents, root: ElementId)
    requires IsForest(ids, parentOf) && root in ids && root !in parentOf
    ensures TreeIsSplit(ids, parentOf, root, [root], NextLevel(ids, parentOf, [root]), 2)
    ensures NextLevel(ids, parentOf, [root]) == [] || 2 <= MaxHeight(ids, parentOf)
  {
    RootIsLevel(ids, parentOf, root);
    TreeSplitStep(ids, parentOf, root, [], [root], 1);
    assert [] + [root] == [root];
  }

  /** `_descendants_breadth_first`. */
  method DescendantsBreadthFirst(
      ghost ids: seq<ElementId>, ghost parentOf: Parents,
      root: ElementId, childrenOf: map<ElementId, seq<ElementId>>)
      returns (result: seq<ElementId>)
    requires IsForest(ids, parentOf) && root in ids && root !in parentOf
    requires IsChildMap(ids, parentOf, childrenOf)
    ensures [root] + result == TreeOf(ids, parentOf, root)
  {
    ghost var bound := MaxHeight(ids, parentOf);
    hide *;
    result := [];
    TreeSplitStart(ids, parentOf, root);
    var queue := ScanLevel(ids, parentOf, [root], childrenOf);
    ghost var emitted, height := [root], 2;
    while queue != []
      invariant TreeIsSplit(ids, parentOf, root, emitted, queue, height)
      invariant emitted == [root] + result
      invariant queue == [] || height <= bound
      decreases if queue == [] then 0 else 1 + bound - height
    {
      TreeSplitStep(ids, parentOf, root, emitted, queue, height);
      AppendAssociates([root], result, queue);
      emitted, result := emitted + queue, result + queue;
      queue := ScanLevel(ids, parentOf, queue, childrenOf);
      height := height + 1;
    }
    TreeSplitStep(ids, parentOf, root, emitted, queue, height);
  }

  method FindRoot(parentOf: Parents, x: ElementId) returns (node: ElementId)
    requires Ends(parentOf, x)
    ensures node == RootOf(parentOf, x)
  {
    node := x;
    while node in parentOf
      invariant Ends(parentOf, node) && RootOf(parentOf, node) == RootOf(parentOf, x)
      decreases Height(parentOf, node)
    {
      ParentHeight(parentOf, node);
      node := parentOf[node];
    }
  }
}
