/** The loops of `_reconcile_image_calls` compute the diff `Reconciliation`. */
module ReconcileLoops {
  import opened Text
  import opened Seqs
  import opened Uml
  import opened Calls
  import opened Translator
  import opened Reconcile
  import opened ReconcileCalls

  // ---- what the image shows --------------------------------------------

  /** The first entry with the key, as `dict.get` finds it. */
  method FindDesired(normalize: Normalize, desired: seq<Desired>, name: string) returns (at: Option<nat>)
    ensures at.Some? ==> at.value < |desired| && normalize(desired[at.value].name) == normalize(name)
    ensures at.None? <==> forall k :: 0 <= k < |desired| ==> normalize(desired[k].name) != normalize(name)
  {
    for i := 0 to |desired|
      invariant forall k :: 0 <= k < i ==> normalize(desired[k].name) != normalize(name)
    {
      if normalize(desired[i].name) == normalize(name) {
        return Some(i);
      }
    }
    return None;
  }

  function EmptyDesired(names: seq<string>): seq<Desired> {
    seq(|names|, i requires 0 <= i < |names| => Desired(names[i], [], []))
  }

  method CollectClasses(normalize: Normalize, extracted: seq<Call>) returns (desired: seq<Desired>)
    ensures desired == EmptyDesired(DesiredNames(normalize, extracted))
  {
    desired := [];
    for i := 0 to |extracted|
      invariant desired == EmptyDesired(DesiredNames(normalize, extracted[..i]))
    {
      PrefixStep(extracted, i);
      var call := extracted[i];
      ghost var names := DesiredNames(normalize, extracted[..i]);
      if call.AddClassCall? {
        var at := FindDesired(normalize, desired, call.name);
        assert at.None? <==> !HasKey(normalize, names, call.name) by {
          forall k | 0 <= k < |names| ensures desired[k].name == names[k] && names[k] in names {
          }
        }
        if at.None? {
          desired := desired + [Desired(call.name, [], [])];
        }
      }
    }
    FullPrefix(extracted);
  }

  /** The entries with the members of the calls so far. */
  function Filled(normalize: Normalize, calls: seq<Call>, names: seq<string>): seq<Desired> {
    seq(|names|, i requires 0 <= i < |names| =>
      Desired(names[i], AttributesFor(normalize, calls, names[i]), OperationsFor(normalize, calls, names[i])))
  }

  lemma FilledStep(normalize: Normalize, front: seq<Call>, call: Call, names: seq<string>)
    requires forall i, j :: 0 <= i < j < |names| ==> normalize(names[i]) != normalize(names[j])
    ensures var before, after := Filled(normalize, front, names), Filled(normalize, front + [call], names);
      && |before| == |after| == |names|
      && forall k :: 0 <= k < |names| ==>
        after[k] ==
          match call
          case AddAttributeCall(className, name, text) =>
            if normalize(className) == normalize(names[k])
            then before[k].(attributes := before[k].attributes + [Member(className, name, text)]) else before[k]
          case AddOperationCall(className, name, returnType) =>
            if normalize(className) == normalize(names[k])
            then before[k].(operations := before[k].operations + [Member(className, name, TextOr(returnType, ""))]) else before[k]
          case _ => before[k]
  {
    assert (front + [call])[..|front|] == front;
    forall k | 0 <= k < |names|
      ensures AttributesFor(normalize, front, names[k]) + [] == AttributesFor(normalize, front, names[k])
      ensures OperationsFor(normalize, front, names[k]) + [] == OperationsFor(normalize, front, names[k])
    {
    }
  }

  lemma NothingFilled(normalize: Normalize, names: seq<string>)
    ensures Filled(normalize, [], names) == EmptyDesired(names)
  {
  }

  lemma FilledIsDesired(normalize: Normalize, extracted: seq<Call>)
    ensures Filled(normalize, extracted, DesiredNames(normalize, extracted)) == DesiredClasses(normalize, extracted)
  {
    hide DesiredNames, AttributesFor, OperationsFor;
  }

  /** One entry gets one more member; entries with other keys stay. */
  method AddMember(normalize: Normalize, ghost front: seq<Call>, ghost names: seq<string>, call: Call, desired: seq<Desired>)
    returns (r: seq<Desired>)
    requires forall i, j :: 0 <= i < j < |names| ==> normalize(names[i]) != normalize(names[j])
    requires desired == Filled(normalize, front, names) && (call.AddAttributeCall? || call.AddOperationCall?)
    ensures r == Filled(normalize, front + [call], names)
  {
    hide AttributesFor, OperationsFor;
    FilledStep(normalize, front, call, names);
    var at := FindDesired(normalize, desired, call.className);
    match at {
      case None => r := desired;
      case Some(k) =>
        var entry := desired[k];
        r := desired[k := if call.AddAttributeCall?
          then entry.(attributes := entry.attributes + [Member(call.className, call.attributeName, call.attributeType)])
          else entry.(operations := entry.operations + [Member(call.className, call.operationName, TextOr(call.returnType, ""))])];
    }
  }

  method CollectMembers(normalize: Normalize, extracted: seq<Call>, start: seq<Desired>)
    returns (desired: seq<Desired>, links: seq<LinkArguments>)
    requires start == EmptyDesired(DesiredNames(normalize, extracted))
    ensures desired == DesiredClasses(normalize, extracted) && links == DesiredLinks(extracted)
  {
    ghost var names := DesiredNames(normalize, extracted);
    DesiredNamesDistinct(normalize, extracted);
    NothingFilled(normalize, names);
    hide DesiredNames, Filled;
    desired, links := start, [];
    for i := 0 to |extracted|
      invariant desired == Filled(normalize, extracted[..i], names)
      invariant links == DesiredLinks(extracted[..i])
    {
      PrefixStep(extracted, i);
      var call := extracted[i];
      if call.AddAttributeCall? || call.AddOperationCall? {
        desired := AddMember(normalize, extracted[..i], names, call, desired);
      } else {
        FilledSame(normalize, extracted[..i], call, names);
        if call.AddRelationshipCall? {
          links := links + [call.link];
        }
      }
    }
    FullPrefix(extracted);
    FilledIsDesired(normalize, extracted);
  }

  lemma FilledSame(normalize: Normalize, front: seq<Call>, call: Call, names: seq<string>)
    requires forall i, j :: 0 <= i < j < |names| ==> normalize(names[i]) != normalize(names[j])
    requires !call.AddAttributeCall? && !call.AddOperationCall?
    ensures Filled(normalize, front + [call], names) == Filled(normalize, front, names)
  {
    FilledStep(normalize, front, call, names);
    hide AttributesFor, OperationsFor;
  }

  // ---- dictionaries ----------------------------------------------------

  method ClassDictionary(normalize: Normalize, classes: seq<UmlClass>) returns (r: seq<UmlClass>)
    ensures r == KeyedClasses(normalize, classes)
  {
    r := [];
    for i := 0 to |classes|
      invariant r == KeyedClasses(normalize, classes[..i])
    {
      PrefixStep(classes, i);
      r := PutClass(normalize, r, classes[i]);
    }
    FullPrefix(classes);
  }

  method MemberDictionary(normalize: Normalize, members: seq<Member>) returns (r: seq<Member>)
    ensures r == KeyedMembers(normalize, members)
  {
    r := [];
    for i := 0 to |members|
      invariant r == KeyedMembers(normalize, members[..i])
    {
      PrefixStep(members, i);
      r := PutMember(normalize, r, members[i]);
    }
    FullPrefix(members);
  }

  // ---- classes ---------------------------------------------------------

  method RemoveClasses(normalize: Normalize, existing: seq<UmlClass>, desired: seq<Desired>) returns (removals: seq<Call>)
    ensures removals == RemoveClassCalls(normalize, existing, desired)
  {
    hide RemovalOf;
    removals := [];
    for i := 0 to |existing|
      invariant removals == RemoveClassCalls(normalize, existing[..i], desired)
    {
      PrefixStep(existing, i);
      RemoveClassStep(normalize, existing[..i], existing[i], desired);
      removals := removals + RemovalOf(normalize, existing[i], desired);
    }
    FullPrefix(existing);
  }

  function RemovalOf(normalize: Normalize, c: UmlClass, desired: seq<Desired>): seq<Call> {
    if DesiredNamed(normalize, desired, c.name).None? then [RemoveClassCall(c.name)] else []
  }

  lemma RemoveClassStep(normalize: Normalize, front: seq<UmlClass>, c: UmlClass, desired: seq<Desired>)
    ensures RemoveClassCalls(normalize, front + [c], desired) ==
      RemoveClassCalls(normalize, front, desired) + RemovalOf(normalize, c, desired)
  {
    assert (front + [c])[..|front|] == front;
    hide DesiredNamed;
  }

  method SplitMembers(normalize: Normalize, existing: seq<Member>, wanted: seq<Member>)
    returns (dropped: seq<Member>, missing: seq<Member>)
    ensures dropped == Dropped(normalize, existing, wanted) && missing == Missing(normalize, existing, wanted)
  {
    hide IsKept, IsMissing;
    dropped, missing := [], [];
    for i := 0 to |existing|
      invariant dropped == Dropped(normalize, existing[..i], wanted)
    {
      PrefixStep(existing, i);
      if !IsKept(normalize, wanted, existing[i]) {
        dropped := dropped + [existing[i]];
      }
    }
    FullPrefix(existing);
    for i := 0 to |wanted|
      invariant missing == Missing(normalize, existing, wanted[..i])
    {
      PrefixStep(wanted, i);
      if IsMissing(normalize, existing, wanted[i]) {
        missing := missing + [wanted[i]];
      }
    }
    FullPrefix(wanted);
  }

  /** What one desired class removes and adds. */
  method DiffClass(normalize: Normalize, classes: seq<UmlClass>, d: Desired) returns (removals: seq<Call>, additions: seq<Call>)
    ensures additions == Section(normalize, classes, d)
    ensures var existing := ClassNamed(normalize, classes, d.name);
      removals == if existing.None? then [] else MemberRemovals(normalize, existing.value, d)
  {
    hide KeyedMembers, Dropped, Missing, AttributeMembers, OperationMembers, AddAttributeCalls, AddOperationCalls, RemoveAttributeCalls,
         RemoveOperationCalls, ClassNamed;
    match ClassNamed(normalize, classes, d.name) {
      case None =>
        removals := [];
        additions := [AddClassCall(d.name)] + (AddAttributeCalls(d.attributes) + AddOperationCalls(d.operations));
      case Some(existing) =>
        var wantedAttributes := MemberDictionary(normalize, d.attributes);
        var wantedOperations := MemberDictionary(normalize, d.operations);
        var goneAttributes, newAttributes := SplitMembers(normalize, AttributeMembers(existing), wantedAttributes);
        var goneOperations, newOperations := SplitMembers(normalize, OperationMembers(existing), wantedOperations);
        removals := RemoveAttributeCalls(existing.name, goneAttributes) + RemoveOperationCalls(existing.name, goneOperations);
        additions := AddAttributeCalls(newAttributes) + AddOperationCalls(newOperations);
    }
  }

  method DiffClasses(normalize: Normalize, classes: seq<UmlClass>, desired: seq<Desired>) returns (removals: seq<Call>, additions: seq<Call>)
    ensures removals == ClassRemovals(normalize, classes, desired) && additions == Sections(normalize, classes, desired)
  {
    hide Section, MemberRemovals, ClassNamed;
    removals, additions := [], [];
    for i := 0 to |desired|
      invariant removals == ClassRemovals(normalize, classes, desired[..i])
      invariant additions == Sections(normalize, classes, desired[..i])
    {
      PrefixStep(desired, i);
      var gone, more := DiffClass(normalize, classes, desired[i]);
      removals, additions := removals + gone, additions + more;
    }
    FullPrefix(desired);
  }

  // ---- relationships ---------------------------------------------------

  lemma MatchedByOneMore(
      normalize: Normalize, classes: seq<UmlClass>, relationships: seq<Relationship>, front: seq<LinkArguments>, link: LinkArguments, id: ElementId)
    ensures IsMatched(normalize, classes, relationships, front + [link], id) <==>
      IsMatched(normalize, classes, relationships, front, id) || IsMatchedBy(normalize, classes, relationships, link, id)
  {
    assert link in front + [link];
    hide IsMatchedBy;
  }

  method DiffLinks(normalize: Normalize, classes: seq<UmlClass>, relationships: seq<Relationship>, links: seq<LinkArguments>)
    returns (additions: seq<Call>, matched: set<ElementId>)
    ensures additions == LinkCalls(normalize, classes, relationships, links)
    ensures forall id :: id in matched <==> IsMatched(normalize, classes, relationships, links, id)
  {
    hide CurrentOf, IsMatched, ChangedName, ChangedEnd;
    additions, matched := [], {};
    NoneMatched(normalize, classes, relationships);
    for i := 0 to |links|
      invariant additions == LinkCalls(normalize, classes, relationships, links[..i])
      invariant forall id :: id in matched <==> IsMatched(normalize, classes, relationships, links[..i], id)
    {
      PrefixStep(links, i);
      forall id { MatchedByOneMore(normalize, classes, relationships, links[..i], links[i], id); }
      match CurrentOf(normalize, classes, relationships, links[i]) {
        case None => additions := additions + [AddRelationshipCall(links[i])];
        case Some(current) =>
          matched := matched + {current.id};
          var changes := UpdateCall(links[i], current);
          if IsChange(changes) {
            additions := additions + [changes];
          }
      }
    }
    FullPrefix(links);
  }

  lemma NoneMatched(normalize: Normalize, classes: seq<UmlClass>, relationships: seq<Relationship>)
    ensures forall id :: !IsMatched(normalize, classes, relationships, [], id)
  {
  }

  method RemoveLinks(
      normalize: Normalize, model: Model, classes: seq<UmlClass>, ghost links: seq<LinkArguments>, matched: set<ElementId>)
    returns (removals: seq<Call>)
    requires forall id :: id in matched <==> IsMatched(normalize, classes, model.relationships, links, id)
    ensures removals == LinkRemovals(normalize, model, classes, links, model.relationships)
  {
    hide IsMatched, ClassById;
    removals := [];
    for i := 0 to |model.relationships|
      invariant removals == LinkRemovals(normalize, model, classes, links, model.relationships[..i])
    {
      PrefixStep(model.relationships, i);
      var r := model.relationships[i];
      if r.id !in matched {
        var source, target := ClassById(model.classes, r.source.classId), ClassById(model.classes, r.target.classId);
        if source.Some? && target.Some? {
          removals := removals + [RemoveRelationshipCall(source.value.name, target.value.name, Some(KindText(r.kind)))];
        }
      }
    }
    FullPrefix(model.relationships);
  }

  // ---- the diff --------------------------------------------------------

  /** `_reconcile_image_calls`: removals of classes, members and relationships, then additions. */
  method ReconcileImageCalls(normalize: Normalize, model: Model, extracted: seq<Call>) returns (calls: seq<Call>)
    ensures calls == Reconciliation(normalize, model, extracted)
  {
    hide DesiredClasses, DesiredLinks, KeyedClasses, RemoveClassCalls, ClassRemovals, LinkRemovals, Sections, LinkCalls, EmptyDesired,
         DesiredNames, IsMatched;
    if UnsupportedCall(EXTRACT) in extracted {
      return extracted;
    }
    var desired := CollectClasses(normalize, extracted);
    var links;
    desired, links := CollectMembers(normalize, extracted, desired);
    var existing := ClassDictionary(normalize, model.classes);
    var removals := RemoveClasses(normalize, existing, desired);
    var gone, additions := DiffClasses(normalize, existing, desired);
    var linkAdditions, matched := DiffLinks(normalize, existing, model.relationships, links);
    var linkRemovals := RemoveLinks(normalize, model, existing, links, matched);
    return ((removals + gone) + linkRemovals) + (additions + linkAdditions);
  }
}
