/** Keeping what is wanted and adding what is missing gives what is wanted. */
module ReconcileMembers {
  import opened Text
  import opened Seqs
  import opened Translator
  import opened Reconcile

  ghost predicate DistinctKeys(normalize: Normalize, members: seq<Member>) {
    forall i, j :: 0 <= i < j < |members| ==> normalize(members[i].name) != normalize(members[j].name)
  }

  /** A member up to spelling of its name. */
  function ViewOf(normalize: Normalize, m: Member): (string, string) {
    (normalize(m.name), m.text)
  }

  function Views(normalize: Normalize, members: seq<Member>): set<(string, string)> {
    set m | m in members :: ViewOf(normalize, m)
  }

  /** The same members by normalized name and type, none of them twice. */
  ghost predicate SameMembers(normalize: Normalize, a: seq<Member>, b: seq<Member>) {
    DistinctKeys(normalize, a) && |a| == |b| && Views(normalize, a) == Views(normalize, b)
  }

  function Kept(normalize: Normalize, existing: seq<Member>, wanted: seq<Member>): seq<Member> {
    if existing == [] then []
    else
      var m := existing[|existing| - 1];
      Kept(normalize, existing[..|existing| - 1], wanted) + if IsKept(normalize, wanted, m) then [m] else []
  }

  // ---- dictionaries ----------------------------------------------------

  lemma {:induction false} PutNew(normalize: Normalize, members: seq<Member>, m: Member)
    requires forall x :: x in members ==> normalize(x.name) != normalize(m.name)
    ensures PutMember(normalize, members, m) == members + [m]
  {
    if members != [] {
      PutNew(normalize, members[1..], m);
    }
  }

  /** A dictionary over distinct keys is the list itself. */
  lemma {:induction false} KeyedIsSame(normalize: Normalize, members: seq<Member>)
    requires DistinctKeys(normalize, members)
    ensures KeyedMembers(normalize, members) == members
  {
    if members != [] {
      var n := |members| - 1;
      KeyedIsSame(normalize, members[..n]);
      PutNew(normalize, members[..n], members[n]);
      assert members == members[..n] + [members[n]];
    }
  }

  lemma MemberIsNamed(normalize: Normalize, members: seq<Member>, m: Member)
    requires DistinctKeys(normalize, members) && m in members
    ensures MemberNamed(normalize, members, m.name) == Some(m)
  {
    var found := MemberNamed(normalize, members, m.name).value;
    var i :| 0 <= i < |members| && members[i] == m;
    var j :| 0 <= j < |members| && members[j] == found;
  }

  // ---- the diff of one list --------------------------------------------

  lemma {:induction false} KeptMembers(normalize: Normalize, existing: seq<Member>, wanted: seq<Member>)
    ensures forall m :: m in Kept(normalize, existing, wanted) <==> m in existing && IsKept(normalize, wanted, m)
    ensures DistinctKeys(normalize, existing) ==> DistinctKeys(normalize, Kept(normalize, existing, wanted))
  {
    hide IsKept;
    if existing != [] {
      LastIsMember(existing);
      KeptMembers(normalize, existing[..|existing| - 1], wanted);
      if DistinctKeys(normalize, existing) {
        DistinctAppend(normalize, existing[..|existing| - 1], existing[|existing| - 1]);
        assert existing == existing[..|existing| - 1] + [existing[|existing| - 1]];
        DistinctAppend(normalize, Kept(normalize, existing[..|existing| - 1], wanted), existing[|existing| - 1]);
      }
    }
  }

  lemma DistinctAppend(normalize: Normalize, members: seq<Member>, m: Member)
    ensures DistinctKeys(normalize, members + [m]) <==>
      DistinctKeys(normalize, members) && forall x :: x in members ==> normalize(x.name) != normalize(m.name)
  {
    if DistinctKeys(normalize, members + [m]) {
      assert forall i :: 0 <= i < |members| ==> (members + [m])[i] == members[i];
      assert (members + [m])[|members|] == m;
    }
  }

  lemma {:induction false} MissingMembers(normalize: Normalize, existing: seq<Member>, wanted: seq<Member>)
    ensures forall w :: w in Missing(normalize, existing, wanted) <==> w in wanted && IsMissing(normalize, existing, w)
    ensures DistinctKeys(normalize, wanted) ==> DistinctKeys(normalize, Missing(normalize, existing, wanted))
  {
    hide IsMissing;
    if wanted != [] {
      LastIsMember(wanted);
      MissingMembers(normalize, existing, wanted[..|wanted| - 1]);
      if DistinctKeys(normalize, wanted) {
        assert wanted == wanted[..|wanted| - 1] + [wanted[|wanted| - 1]];
        DistinctAppend(normalize, wanted[..|wanted| - 1], wanted[|wanted| - 1]);
        DistinctAppend(normalize, Missing(normalize, existing, wanted[..|wanted| - 1]), wanted[|wanted| - 1]);
      }
    }
  }

  lemma {:induction false} DistinctConcat(normalize: Normalize, a: seq<Member>, b: seq<Member>)
    requires DistinctKeys(normalize, a) && DistinctKeys(normalize, b)
    requires forall x, y :: x in a && y in b ==> normalize(x.name) != normalize(y.name)
    ensures DistinctKeys(normalize, a + b)
  {
    var whole := a + b;
    forall i, j | 0 <= i < j < |whole| ensures normalize(whole[i].name) != normalize(whole[j].name) {
      if i < |a| && |a| <= j {
        assert whole[i] == a[i] && whole[j] == b[j - |a|];
      }
    }
  }

  /** A kept member and a missing one never have the same key. */
  lemma KeptIsNotMissing(normalize: Normalize, existing: seq<Member>, wanted: seq<Member>, m: Member, w: Member)
    requires DistinctKeys(normalize, existing) && DistinctKeys(normalize, wanted)
    requires m in existing && IsKept(normalize, wanted, m) && w in wanted && IsMissing(normalize, existing, w)
    ensures normalize(m.name) != normalize(w.name)
  {
    MemberIsNamed(normalize, existing, m);
    MemberIsNamed(normalize, wanted, w);
    if normalize(m.name) == normalize(w.name) {
      SameKeySameMember(normalize, existing, w.name, m.name);
      SameKeySameMember(normalize, wanted, m.name, w.name);
    }
  }

  lemma {:induction false} SameKeySameMember(normalize: Normalize, members: seq<Member>, a: string, b: string)
    requires normalize(a) == normalize(b)
    ensures MemberNamed(normalize, members, a) == MemberNamed(normalize, members, b)
  {
    if members != [] {
      SameKeySameMember(normalize, members[1..], a, b);
    }
  }

  lemma ViewsMatch(normalize: Normalize, existing: seq<Member>, wanted: seq<Member>)
    requires DistinctKeys(normalize, existing) && DistinctKeys(normalize, wanted)
    ensures Views(normalize, Kept(normalize, existing, wanted) + Missing(normalize, existing, wanted)) == Views(normalize, wanted)
  {
    KeptMembers(normalize, existing, wanted);
    MissingMembers(normalize, existing, wanted);
    var kept, missing := Kept(normalize, existing, wanted), Missing(normalize, existing, wanted);
    forall m | m in kept ensures ViewOf(normalize, m) in Views(normalize, wanted) {
      assert MemberNamed(normalize, wanted, m.name).value in wanted;
    }
    forall w | w in wanted ensures ViewOf(normalize, w) in Views(normalize, kept + missing) {
      if w in missing {
        assert w in kept + missing;
      } else {
        var m := MemberNamed(normalize, existing, w.name).value;
        MemberIsNamed(normalize, wanted, w);
        SameKeySameMember(normalize, wanted, m.name, w.name);
        assert m in kept + missing && ViewOf(normalize, m) == ViewOf(normalize, w);
      }
    }
    hide Kept, Missing, IsKept, IsMissing;
  }

  function KeySet(normalize: Normalize, members: seq<Member>): set<string> {
    set m | m in members :: normalize(m.name)
  }

  lemma {:induction false} DistinctKeysCount(normalize: Normalize, members: seq<Member>)
    requires DistinctKeys(normalize, members)
    ensures |KeySet(normalize, members)| == |members|
  {
    if members != [] {
      var n := |members| - 1;
      LastIsMember(members);
      DistinctKeysCount(normalize, members[..n]);
      assert KeySet(normalize, members) == KeySet(normalize, members[..n]) + {normalize(members[n].name)};
      assert normalize(members[n].name) !in KeySet(normalize, members[..n]);
    }
  }

  lemma SameViewsSameKeys(normalize: Normalize, a: seq<Member>, b: seq<Member>)
    requires Views(normalize, a) == Views(normalize, b)
    ensures KeySet(normalize, a) == KeySet(normalize, b)
  {
    forall m | m in a ensures normalize(m.name) in KeySet(normalize, b) {
      assert ViewOf(normalize, m) in Views(normalize, b);
    }
    forall m | m in b ensures normalize(m.name) in KeySet(normalize, a) {
      assert ViewOf(normalize, m) in Views(normalize, a);
    }
  }

  /** What is kept and what is added are together exactly the wanted members. */
  lemma DiffMeetsWanted(normalize: Normalize, existing: seq<Member>, wanted: seq<Member>)
    requires DistinctKeys(normalize, existing) && DistinctKeys(normalize, wanted)
    ensures SameMembers(normalize, Kept(normalize, existing, wanted) + Missing(normalize, existing, wanted), wanted)
  {
    var kept, missing := Kept(normalize, existing, wanted), Missing(normalize, existing, wanted);
    KeptMembers(normalize, existing, wanted);
    MissingMembers(normalize, existing, wanted);
    hide Kept, Missing, IsKept, IsMissing;
    forall m, w | m in kept && w in missing ensures normalize(m.name) != normalize(w.name) {
      KeptIsNotMissing(normalize, existing, wanted, m, w);
    }
    DistinctConcat(normalize, kept, missing);
    ViewsMatch(normalize, existing, wanted);
    SameViewsSameKeys(normalize, kept + missing, wanted);
    DistinctKeysCount(normalize, kept + missing);
    DistinctKeysCount(normalize, wanted);
  }
}
