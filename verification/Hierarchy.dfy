/** Stage 1 of the relational mapping: generalization parents, cycle detection,
    roots and breadth-first descendants (`mapping/mapper.py`). */
module Hierarchy {
  import opened Text
  import opened Uml

  type Parents = map<ElementId, ElementId>

  // ---- the parent chain of a class -------------------------------------

  /** The ancestor `n` steps above `x`; `None` when the chain is shorter. */
  ghost function Climb(parentOf: Parents, x: ElementId, n: nat): Option<ElementId>
    decreases n
  {
    if n == 0 then Some(x)
    else if x in parentOf then Climb(parentOf, parentOf[x], n - 1)
    else None
  }

  /** The chain of `x` reaches a class without a parent. */
  ghost predicate Ends(parentOf: Parents, x: ElementId) {
    exists n: nat :: Climb(parentOf, x, n).None?
  }

  lemma {:induction false} ClimbStaysNone(parentOf: Parents, x: ElementId, m: nat, n: nat)
    requires m <= n && Climb(parentOf, x, m).None?
    ensures Climb(parentOf, x, n).None?
    decreases m
  {
    if m > 0 && x in parentOf {
      ClimbStaysNone(parentOf, parentOf[x], m - 1, n - 1);
    }
  }

  ghost function LeastNone(parentOf: Parents, x: ElementId, n: nat): (least: nat)
    requires Climb(parentOf, x, n).None?
    ensures Climb(parentOf, x, least).None? && 0 < least
    ensures Climb(parentOf, x, least - 1).Some?
  {
    if Climb(parentOf, x, n - 1).None? then LeastNone(parentOf, x, n - 1) else n
  }

  /** The number of classes on the chain of `x`, itself included. */
  ghost function Height(parentOf: Parents, x: ElementId): (h: nat)
    requires Ends(parentOf, x)
    ensures 0 < h && Climb(parentOf, x, h).None? && Climb(parentOf, x, h - 1).Some?
  {
    var n: nat :| Climb(parentOf, x, n).None?;
    LeastNone(parentOf, x, n)
  }

  lemma HeightIs(parentOf: Parents, x: ElementId, n: nat)
    requires 0 < n && Climb(parentOf, x, n).None? && Climb(parentOf, x, n - 1).Some?
    ensures Ends(parentOf, x) && Height(parentOf, x) == n
  {
    var h := Height(parentOf, x);
    if h < n {
      ClimbStaysNone(parentOf, x, h, n - 1);
    } else if n < h {
      ClimbStaysNone(parentOf, x, n, h - 1);
    }
  }

  lemma ParentHeight(parentOf: Parents, x: ElementId)
    requires Ends(parentOf, x)
    ensures x !in parentOf ==> Height(parentOf, x) == 1
    ensures x in parentOf ==>
      Ends(parentOf, parentOf[x]) && Height(parentOf, parentOf[x]) == Height(parentOf, x) - 1
  {
    if x in parentOf {
      assert Climb(parentOf, x, 1).Some?;
      HeightIs(parentOf, parentOf[x], Height(parentOf, x) - 1);
    } else {
      HeightIs(parentOf, x, 1);
    }
  }

  lemma EndsFromParent(parentOf: Parents, x: ElementId)
    requires x in parentOf ==> Ends(parentOf, parentOf[x])
    ensures Ends(parentOf, x)
  {
    if x in parentOf {
      var n: nat :| Climb(parentOf, parentOf[x], n).None?;
      assert Climb(parentOf, x, n + 1).None?;
    } else {
      assert Climb(parentOf, x, 1).None?;
    }
  }

  lemma EndsWithParent(parentOf: Parents, x: ElementId)
    requires x in parentOf
    ensures Ends(parentOf, x) <==> Ends(parentOf, parentOf[x])
  {
    if Ends(parentOf, x) {
      ParentHeight(parentOf, x);
    } else if Ends(parentOf, parentOf[x]) {
      EndsFromParent(parentOf, x);
    }
  }

  // ---- cycles ----------------------------------------------------------

  /** A non-empty loop of parents without repetition. */
  ghost predicate IsParentCycle(parentOf: Parents, cycle: seq<ElementId>) {
    && cycle != [] && Distinct(cycle)
    && (forall i :: 0 <= i < |cycle| ==> cycle[i] in parentOf)
    && (forall i :: 0 <= i < |cycle| - 1 ==> parentOf[cycle[i]] == cycle[i + 1])
    && parentOf[cycle[|cycle| - 1]] == cycle[0]
  }

  function IndexOf(s: seq<ElementId>, x: ElementId): (i: nat)
    requires x in s
    ensures i < |s| && s[i] == x && x !in s[..i]
  {
    if s[0] == x then 0 else 1 + IndexOf(s[1..], x)
  }

  /** Classes walked so far: each is the parent of the one before, `node` of the last. */
  ghost predicate IsPath(parentOf: Parents, path: seq<ElementId>, node: ElementId) {
    && Distinct(path)
    && (forall i :: 0 <= i < |path| ==> path[i] in parentOf)
    && (forall i :: 0 <= i < |path| - 1 ==> parentOf[path[i]] == path[i + 1])
    && (path != [] ==> parentOf[path[|path| - 1]] == node)
  }

  /** The walk up from `node`, ignoring what earlier walks visited. */
  function Walk(parentOf: Parents, path: seq<ElementId>, node: ElementId): (r: Option<seq<ElementId>>)
    requires IsPath(parentOf, path, node)
    ensures r.Some? ==> IsParentCycle(parentOf, r.value)
    ensures r.None? <==> Ends(parentOf, node)
    decreases parentOf.Keys - set x | x in path
  {
    if node in path then
      var i := IndexOf(path, node);
      CycleNeverEnds(parentOf, path[i..], 0);
      Some(path[i..])
    else if node in parentOf then
      assert (set x | x in path + [node]) == (set x | x in path) + {node};
      var r := Walk(parentOf, path + [node], parentOf[node]);
      EndsWithParent(parentOf, node);
      r
    else
      EndsFromParent(parentOf, node);
      None
  }

  lemma {:induction false} ClimbOnCycle(parentOf: Parents, cycle: seq<ElementId>, i: nat, n: nat)
    requires IsParentCycle(parentOf, cycle) && i < |cycle|
    ensures Climb(parentOf, cycle[i], n).Some?
    decreases n
  {
    if n > 0 {
      ClimbOnCycle(parentOf, cycle, if i == |cycle| - 1 then 0 else i + 1, n - 1);
    }
  }

  lemma CycleNeverEnds(parentOf: Parents, cycle: seq<ElementId>, i: nat)
    requires IsParentCycle(parentOf, cycle) && i < |cycle|
    ensures !Ends(parentOf, cycle[i])
  {
    forall n: nat ensures Climb(parentOf, cycle[i], n).Some? {
      ClimbOnCycle(parentOf, cycle, i, n);
    }
  }

  /** What `_find_generalization_cycle` returns, stated without its `visited` set:
      the cycle above the first class whose chain does not end. */
  function FirstCycle(ids: seq<ElementId>, parentOf: Parents): (r: Option<seq<ElementId>>)
    ensures r.None? <==> forall x :: x in ids ==> Ends(parentOf, x)
    ensures r.Some? ==> IsParentCycle(parentOf, r.value)
  {
    if ids == [] then None
    else
      var first := Walk(parentOf, [], ids[0]);
      if first.Some? then first else FirstCycle(ids[1..], parentOf)
  }

  lemma {:induction false} FirstCycleSkips(ids: seq<ElementId>, parentOf: Parents, i: nat)
    requires i <= |ids| && forall x :: x in ids[..i] ==> Ends(parentOf, x)
    ensures FirstCycle(ids, parentOf) == FirstCycle(ids[i..], parentOf)
  {
    if i > 0 {
      assert ids[0] in ids[..i];
      assert forall x :: x in ids[1..][..i - 1] ==> x in ids[..i];
      FirstCycleSkips(ids[1..], parentOf, i - 1);
      assert ids[1..][i - 1..] == ids[i..];
    }
  }

  /** The shared `visited` set only stops walks that would end anyway. */
  method FindGeneralizationCycle(ids: seq<ElementId>, parentOf: Parents) returns (r: Option<seq<ElementId>>)
    ensures r == FirstCycle(ids, parentOf)
  {
    var visited: set<ElementId> := {};
    for i := 0 to |ids|
      invariant forall x :: x in visited ==> Ends(parentOf, x)
      invariant forall x :: x in ids[..i] ==> x in visited
    {
      var start := ids[i];
      assert ids[i..][1..] == ids[i + 1..];
      if start in visited {
        continue;
      }
      var path: seq<ElementId> := [];
      var inPath: set<ElementId> := {};
      var node := Some(start);
      while node.Some?
        invariant inPath == set x | x in path
        invariant node.Some? ==> IsPath(parentOf, path, node.value)
        invariant node.Some? ==> Walk(parentOf, [], start) == Walk(parentOf, path, node.value)
        invariant node.None? ==> Ends(parentOf, start)
        invariant Ends(parentOf, start) ==> forall x :: x in path ==> Ends(parentOf, x)
        invariant Ends(parentOf, start) && node.Some? ==> Ends(parentOf, node.value)
        invariant path != [] ==> path[0] == start
        invariant node == Some(start) || start in path
        invariant i < |ids| && start == ids[i]
        decreases parentOf.Keys - inPath, if node.Some? then 1 else 0
      {
        var current := node.value;
        if current in inPath {
          FirstCycleSkips(ids, parentOf, i);
          return Some(path[IndexOf(path, current)..]);
        }
        if current in visited {
          break;
        }
        if Ends(parentOf, current) {
          ParentHeight(parentOf, current);
        }
        inPath := inPath + {current};
        path := path + [current];
        node := if current in parentOf then Some(parentOf[current]) else None;
      }
      assert Ends(parentOf, start);
      visited := visited + set x | x in path;
    }
    FirstCycleSkips(ids, parentOf, |ids|);
    return None;
  }
}
