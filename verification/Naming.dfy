/** Collision-free names: `relational_mapping/mapping/naming.py`, and the same
    scheme as the XMI exporter applies it to display names. */
module Naming {
  import opened Text

  /** `snake_case`, left abstract: `None` is its `InvalidElementNameError`. */
  type SnakeCase = string -> Option<string>

  function Numbered(base: string, suffix: nat): string {
    base + "_" + NatText(suffix)
  }

  lemma NumberedInjective(base: string, a: nat, b: nat)
    requires Numbered(base, a) == Numbered(base, b)
    ensures a == b
  {
    assert Numbered(base, a)[|base| + 1..] == NatText(a);
    assert Numbered(base, b)[|base| + 1..] == NatText(b);
    NatTextInjective(a, b);
  }

  /** The taken names that a search starting at `from` can still run into. */
  ghost function Obstacles(taken: set<string>, base: string, from: nat): set<string> {
    set name | name in taken && exists k: nat :: from <= k && name == Numbered(base, k)
  }

  lemma ObstaclesShrink(taken: set<string>, base: string, from: nat)
    requires Numbered(base, from) in taken
    ensures Obstacles(taken, base, from + 1) < Obstacles(taken, base, from)
    ensures Numbered(base, from) !in Obstacles(taken, base, from + 1)
  {
    assert Numbered(base, from) in Obstacles(taken, base, from);
    if Numbered(base, from) in Obstacles(taken, base, from + 1) {
      var k: nat :| from + 1 <= k && Numbered(base, from) == Numbered(base, k);
      NumberedInjective(base, from, k);
    }
  }

  /** The least suffix from `from` on whose numbered name is free. */
  function FirstFree(taken: set<string>, base: string, from: nat): (suffix: nat)
    ensures from <= suffix && Numbered(base, suffix) !in taken
    ensures forall k :: from <= k < suffix ==> Numbered(base, k) in taken
    decreases Obstacles(taken, base, from)
  {
    if Numbered(base, from) !in taken then from
    else
      ObstaclesShrink(taken, base, from);
      FirstFree(taken, base, from + 1)
  }

  /** Pigeonhole: the search makes at most |taken| + 1 probes. */
  lemma {:induction false} ProbesAreBounded(taken: set<string>, base: string, from: nat)
    ensures FirstFree(taken, base, from) - from <= |Obstacles(taken, base, from)| <= |taken|
    decreases Obstacles(taken, base, from)
  {
    SubsetSize(Obstacles(taken, base, from), taken);
    if Numbered(base, from) in taken {
      ObstaclesShrink(taken, base, from);
      ProbesAreBounded(taken, base, from + 1);
      var rest := Obstacles(taken, base, from + 1);
      SubsetSize(rest + {Numbered(base, from)}, Obstacles(taken, base, from));
    }
  }

  lemma {:induction false} SubsetSize<T>(small: set<T>, big: set<T>)
    requires small <= big
    ensures |small| <= |big|
  {
    if small != {} {
      var x :| x in small;
      SubsetSize(small - {x}, big - {x});
    }
  }

  /** What `unique_name` returns. `Err` carries the name `snake_case` rejected. */
  function FreeName(snake: SnakeCase, taken: set<string>, preferred: string, owner: Option<string>)
      : (r: Result<string, string>)
    ensures r.Ok? ==> r.value !in taken
    ensures r.Err? ==> owner.Some? && snake(owner.value).None? && r.error == owner.value
    ensures preferred !in taken ==> r == Ok(preferred)
  {
    if preferred !in taken then Ok(preferred)
    else
      match owner
      case None => Ok(Numbered(preferred, FirstFree(taken, preferred, 2)))
      case Some(name) =>
        match snake(name)
        case None => Err(name)
        case Some(prefix) =>
          var candidate := prefix + "_" + preferred;
          if candidate !in taken then Ok(candidate)
          else Ok(Numbered(candidate, FirstFree(taken, candidate, 2)))
  }

  /** The probing loop shared by `unique_name` and `_unique_join_name`. */
  method Probe(taken: set<string>, base: string) returns (name: string, ghost probes: nat)
    ensures name == Numbered(base, FirstFree(taken, base, 2))
    ensures name !in taken && probes <= |taken| + 1
  {
    var suffix: nat := 2;
    while Numbered(base, suffix) in taken
      invariant 2 <= suffix && FirstFree(taken, base, suffix) == FirstFree(taken, base, 2)
      decreases Obstacles(taken, base, suffix)
    {
      ObstaclesShrink(taken, base, suffix);
      suffix := suffix + 1;
    }
    ProbesAreBounded(taken, base, 2);
    name, probes := Numbered(base, suffix), suffix - 1;
  }

  method UniqueName(snake: SnakeCase, taken: set<string>, preferred: string, owner: Option<string>)
      returns (r: Result<string, string>)
    ensures r == FreeName(snake, taken, preferred, owner)
  {
    if preferred !in taken {
      return Ok(preferred);
    }
    var candidate := preferred;
    if owner.Some? {
      match snake(owner.value) {
        case None => return Err(owner.value);
        case Some(prefix) => candidate := prefix + "_" + preferred;
      }
      if candidate !in taken {
        return Ok(candidate);
      }
    }
    var name, _ := Probe(taken, candidate);
    return Ok(name);
  }

  /** `_unique_join_name` of the exporter. */
  function FreeJoinName(taken: set<string>, base: string): (name: string)
    ensures name !in taken
  {
    if base !in taken then base else Numbered(base, FirstFree(taken, base, 2))
  }

  method UniqueJoinName(taken: set<string>, base: string) returns (name: string)
    ensures name == FreeJoinName(taken, base)
  {
    if base !in taken {
      return base;
    }
    var found, _ := Probe(taken, base);
    return found;
  }
}
