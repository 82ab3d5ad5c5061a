/** An uploaded image: what its answer describes is what the confirmed document shows. */
module ImageTheorems {
  import opened Text
  import opened Seqs
  import opened Uml
  import opened Multiplicities
  import opened Calls
  import opened Documents
  import opened DocumentRows
  import opened Translator
  import opened Reconcile
  import opened ReconcileCalls
  import opened ReconcileTheorems
  import opened ReconcileShows
  import opened ReconcileExact
  import opened Shorthand
  import opened ImageExtraction
  import C = Commands
  import Plans

  // ---- what an answer describes ----------------------------------------

  ghost predicate DescribesAttribute(item: Json, m: Member) {
    TextField(item, "name") == Some(m.name) && TextField(item, "type") == Some(m.text)
  }

  ghost predicate DescribesOperation(item: Json, m: Member) {
    TextField(item, "name") == Some(m.name) && TextOr(TextField(item, "return_type"), "") == m.text
  }

  ghost predicate DescribesAttributes(items: seq<Json>, members: seq<Member>) {
    |items| == |members| && forall i :: 0 <= i < |items| ==> DescribesAttribute(items[i], members[i])
  }

  ghost predicate DescribesOperations(items: seq<Json>, members: seq<Member>) {
    |items| == |members| && forall i :: 0 <= i < |items| ==> DescribesOperation(items[i], members[i])
  }

  /** The item is this class; it may hold more than that. */
  ghost predicate DescribesClass(item: Json, d: Desired) {
    && TextField(item, "name") == Some(d.name)
    && ItemsOf(item.fields, "attributes").Ok? && DescribesAttributes(ItemsOf(item.fields, "attributes").value, d.attributes)
    && ItemsOf(item.fields, "operations").Ok? && DescribesOperations(ItemsOf(item.fields, "operations").value, d.operations)
  }

  ghost predicate DescribesClasses(items: seq<Json>, desired: seq<Desired>) {
    |items| == |desired| && forall i :: 0 <= i < |items| ==> DescribesClass(items[i], desired[i])
  }

  ghost predicate DescribesLink(item: Json, link: LinkArguments) {
    && TextField(item, "kind") == Some(link.kind)
    && TextField(item, "source_class_name") == Some(link.sourceName) && TextField(item, "target_class_name") == Some(link.targetName)
    && TextField(item, "source_multiplicity") == link.source && TextField(item, "target_multiplicity") == link.target
    && TextField(item, "name") == link.name
  }

  ghost predicate DescribesLinks(items: seq<Json>, links: seq<LinkArguments>) {
    |items| == |links| && forall i :: 0 <= i < |items| ==> DescribesLink(items[i], links[i])
  }

  /** The answer describes a diagram of these classes and links. */
  ghost predicate Describes(args: map<string, Json>, desired: seq<Desired>, links: seq<LinkArguments>) {
    var classes, relationships := ListArgument(args, "classes"), ListArgument(args, "relationships");
    && classes.JArray? && relationships.JArray?
    && DescribesClasses(classes.items, desired) && DescribesLinks(relationships.items, links)
  }

  ghost predicate Named(members: seq<Member>, className: string) {
    forall m :: m in members ==> m.className == className
  }

  /** Members are noted under the name of their class. */
  ghost predicate OwnsMembers(d: Desired) {
    Named(d.attributes, d.name) && Named(d.operations, d.name)
  }

  // ---- lists of calls, one after the other -----------------------------

  lemma {:induction false} NamesConcat(normalize: Normalize, a: seq<Call>, b: seq<Call>)
    requires forall c :: c in b ==> !c.AddClassCall?
    ensures DesiredNames(normalize, a + b) == DesiredNames(normalize, a)
  {
    if b == [] {
      assert a + b == a;
    } else {
      LastIsMember(b);
      assert (a + b)[..|a + b| - 1] == a + b[..|b| - 1];
      NamesConcat(normalize, a, b[..|b| - 1]);
    }
  }

  lemma {:induction false} AttributesConcat(normalize: Normalize, a: seq<Call>, b: seq<Call>, name: string)
    ensures AttributesFor(normalize, a + b, name) == AttributesFor(normalize, a, name) + AttributesFor(normalize, b, name)
  {
    if b == [] {
      assert a + b == a;
    } else {
      assert (a + b)[..|a + b| - 1] == a + b[..|b| - 1];
      AttributesConcat(normalize, a, b[..|b| - 1], name);
    }
  }

  lemma {:induction false} OperationsConcat(normalize: Normalize, a: seq<Call>, b: seq<Call>, name: string)
    ensures OperationsFor(normalize, a + b, name) == OperationsFor(normalize, a, name) + OperationsFor(normalize, b, name)
  {
    if b == [] {
      assert a + b == a;
    } else {
      assert (a + b)[..|a + b| - 1] == a + b[..|b| - 1];
      OperationsConcat(normalize, a, b[..|b| - 1], name);
    }
  }

  lemma {:induction false} LinksConcat(a: seq<Call>, b: seq<Call>)
    ensures DesiredLinks(a + b) == DesiredLinks(a) + DesiredLinks(b)
  {
    if b == [] {
      assert a + b == a;
    } else {
      assert (a + b)[..|a + b| - 1] == a + b[..|b| - 1];
      LinksConcat(a, b[..|b| - 1]);
    }
  }

  lemma {:induction false} NothingWanted(normalize: Normalize, calls: seq<Call>, name: string)
    requires forall c :: c in calls ==> !c.AddAttributeCall? && !c.AddOperationCall?
    ensures AttributesFor(normalize, calls, name) == [] && OperationsFor(normalize, calls, name) == []
  {
    if calls != [] {
      LastIsMember(calls);
      NothingWanted(normalize, calls[..|calls| - 1], name);
    }
  }

  lemma {:induction false} NoLinks(calls: seq<Call>)
    requires forall c :: c in calls ==> !c.AddRelationshipCall?
    ensures DesiredLinks(calls) == []
  {
    if calls != [] {
      LastIsMember(calls);
      NoLinks(calls[..|calls| - 1]);
    }
  }

  // ---- kinds -----------------------------------------------------------

  predicate IsMemberCall(c: Call) {
    c.AddAttributeCall? || c.AddOperationCall?
  }

  lemma {:induction false} ClassCallKinds(items: seq<Json>)
    ensures forall c :: c in ClassCalls(items) ==> c.AddClassCall?
  {
    if items != [] {
      ClassCallKinds(items[..|items| - 1]);
    }
    hide TextField;
  }

  lemma {:induction false} LinkCallKinds(items: seq<Json>)
    ensures forall c :: c in ExtractedLinkCalls(items) ==> c.AddRelationshipCall?
  {
    if items != [] {
      LinkCallKinds(items[..|items| - 1]);
    }
    hide TextField, NormalizedText;
  }

  // ---- classes ---------------------------------------------------------

  function NamesOf(desired: seq<Desired>): seq<string> {
    seq(|desired|, i requires 0 <= i < |desired| => desired[i].name)
  }

  lemma NamesStep(normalize: Normalize, front: seq<Call>, name: string)
    requires forall x :: x in DesiredNames(normalize, front) ==> normalize(x) != normalize(name)
    ensures DesiredNames(normalize, front + [AddClassCall(name)]) == DesiredNames(normalize, front) + [name]
  {
    assert (front + [AddClassCall(name)])[..|front|] == front;
  }

  lemma ClassCallsStep(items: seq<Json>, n: nat, name: string)
    requires |items| == n + 1 && TextField(items[n], "name") == Some(name)
    ensures ClassCalls(items) == ClassCalls(items[..n]) + [AddClassCall(name)]
  {
    hide TextField;
  }

  lemma NamesOfStep(normalize: Normalize, desired: seq<Desired>, n: nat)
    requires |desired| == n + 1 && DesiredKeysDistinct(normalize, desired)
    ensures DesiredKeysDistinct(normalize, desired[..n])
    ensures NamesOf(desired) == NamesOf(desired[..n]) + [desired[n].name]
    ensures forall x :: x in NamesOf(desired[..n]) ==> normalize(x) != normalize(desired[n].name)
  {
    var names := NamesOf(desired[..n]);
    forall x | x in names ensures normalize(x) != normalize(desired[n].name) {
      var i :| 0 <= i < n && names[i] == x;
      assert desired[..n][i] == desired[i];
    }
  }

  lemma {:induction false} ClassesRead(normalize: Normalize, items: seq<Json>, desired: seq<Desired>)
    requires DescribesClasses(items, desired) && DesiredKeysDistinct(normalize, desired)
    ensures DesiredNames(normalize, ClassCalls(items)) == NamesOf(desired)
  {
    if items != [] {
      var n := |items| - 1;
      assert DescribesClass(items[n], desired[n]);
      hide DescribesAttributes, DescribesOperations, TextField, DesiredKeysDistinct, NamesOf, ClassCalls, DesiredNames;
      NamesOfStep(normalize, desired, n);
      ClassesRead(normalize, items[..n], desired[..n]);
      ClassCallsStep(items, n, desired[n].name);
      NamesStep(normalize, ClassCalls(items[..n]), desired[n].name);
    }
  }

  // ---- members ---------------------------------------------------------

  lemma AttributeStep(normalize: Normalize, front: seq<Call>, call: Call, name: string)
    requires call.AddAttributeCall?
    ensures AttributesFor(normalize, front + [call], name) == AttributesFor(normalize, front, name)
      + if normalize(call.className) == normalize(name) then [Member(call.className, call.attributeName, call.attributeType)] else []
    ensures OperationsFor(normalize, front + [call], name) == OperationsFor(normalize, front, name)
  {
    assert (front + [call])[..|front|] == front;
  }

  lemma AttributeCallsStep(className: string, items: seq<Json>, n: nat, m: Member)
    requires |items| == n + 1 && DescribesAttribute(items[n], m)
    ensures AttributeCalls(className, items) == AttributeCalls(className, items[..n]) + [AddAttributeCall(className, m.name, m.text)]
  {
    hide TextField;
  }

  lemma NamedPrefix(members: seq<Member>, n: nat, className: string)
    requires Named(members, className) && |members| == n + 1
    ensures Named(members[..n], className) && members[n].className == className
  {
    assert members[n] in members && forall m :: m in members[..n] ==> m in members;
  }

  /** The calls give a class these attributes and nothing else. */
  ghost predicate GivesAttributes(normalize: Normalize, calls: seq<Call>, className: string, members: seq<Member>, name: string) {
    && (forall c :: c in calls ==> c.AddAttributeCall?)
    && AttributesFor(normalize, calls, name) == (if normalize(className) == normalize(name) then members else [])
    && OperationsFor(normalize, calls, name) == []
  }

  lemma GivesAttributesStep(normalize: Normalize, front: seq<Call>, call: Call, className: string, members: seq<Member>, m: Member, name: string)
    requires GivesAttributes(normalize, front, className, members, name) && call.AddAttributeCall? && call.className == className
    requires m == Member(className, call.attributeName, call.attributeType)
    ensures GivesAttributes(normalize, front + [call], className, members + [m], name)
  {
    hide AttributesFor, OperationsFor, TextOr;
    AttributeStep(normalize, front, call, name);
  }

  lemma AttributesPrefix(items: seq<Json>, members: seq<Member>, n: nat)
    requires DescribesAttributes(items, members) && |items| == n + 1
    ensures |members| == n + 1 && members == members[..n] + [members[n]]
    ensures DescribesAttributes(items[..n], members[..n]) && DescribesAttribute(items[n], members[n])
  {
    hide DescribesAttribute;
  }

  lemma {:induction false} AttributesRead(normalize: Normalize, items: seq<Json>, members: seq<Member>, className: string, name: string)
    requires DescribesAttributes(items, members) && Named(members, className)
    ensures GivesAttributes(normalize, AttributeCalls(className, items), className, members, name)
  {
    if items == [] {
      assert members == [];
    } else {
      hide TextField, AttributeCalls, TextOr, GivesAttributes, DescribesAttributes, Named;
      var n := |items| - 1;
      AttributesPrefix(items, members, n);
      NamedPrefix(members, n, className);
      AttributesRead(normalize, items[..n], members[..n], className, name);
      AttributeCallsStep(className, items, n, members[n]);
      GivesAttributesStep(normalize, AttributeCalls(className, items[..n]), AddAttributeCall(className, members[n].name, members[n].text),
                    className, members[..n], members[n], name);
    }
  }

  lemma OperationStep(normalize: Normalize, front: seq<Call>, call: Call, name: string)
    requires call.AddOperationCall?
    ensures OperationsFor(normalize, front + [call], name) == OperationsFor(normalize, front, name)
      + if normalize(call.className) == normalize(name) then [Member(call.className, call.operationName, TextOr(call.returnType, ""))] else []
    ensures AttributesFor(normalize, front + [call], name) == AttributesFor(normalize, front, name)
  {
    assert (front + [call])[..|front|] == front;
  }

  lemma OperationCallsStep(className: string, items: seq<Json>, n: nat, m: Member)
    requires |items| == n + 1 && DescribesOperation(items[n], m)
    ensures OperationCalls(className, items) == OperationCalls(className, items[..n]) + [AddOperationCall(className, m.name, TextField(items[n], "return_type"))]
  {
    hide TextField;
  }

  /** The calls give a class these operations and nothing else. */
  ghost predicate GivesOperations(normalize: Normalize, calls: seq<Call>, className: string, members: seq<Member>, name: string) {
    && (forall c :: c in calls ==> c.AddOperationCall?)
    && OperationsFor(normalize, calls, name) == (if normalize(className) == normalize(name) then members else [])
    && AttributesFor(normalize, calls, name) == []
  }

  lemma GivesOperationsStep(normalize: Normalize, front: seq<Call>, call: Call, className: string, members: seq<Member>, m: Member, name: string)
    requires GivesOperations(normalize, front, className, members, name) && call.AddOperationCall? && call.className == className
    requires m == Member(className, call.operationName, TextOr(call.returnType, ""))
    ensures GivesOperations(normalize, front + [call], className, members + [m], name)
  {
    hide AttributesFor, OperationsFor, TextOr;
    OperationStep(normalize, front, call, name);
  }

  lemma OperationsPrefix(items: seq<Json>, members: seq<Member>, n: nat)
    requires DescribesOperations(items, members) && |items| == n + 1
    ensures |members| == n + 1 && members == members[..n] + [members[n]]
    ensures DescribesOperations(items[..n], members[..n]) && DescribesOperation(items[n], members[n])
  {
    hide DescribesOperation;
  }

  lemma {:induction false} OperationsRead(normalize: Normalize, items: seq<Json>, members: seq<Member>, className: string, name: string)
    requires DescribesOperations(items, members) && Named(members, className)
    ensures GivesOperations(normalize, OperationCalls(className, items), className, members, name)
  {
    if items == [] {
      assert members == [];
    } else {
      hide TextField, OperationCalls, TextOr, GivesOperations, DescribesOperations, Named;
      var n := |items| - 1;
      OperationsPrefix(items, members, n);
      NamedPrefix(members, n, className);
      OperationsRead(normalize, items[..n], members[..n], className, name);
      OperationCallsStep(className, items, n, members[n]);
      GivesOperationsStep(normalize, OperationCalls(className, items[..n]), AddOperationCall(className, members[n].name, TextField(items[n], "return_type")),
                    className, members[..n], members[n], name);
    }
  }

  lemma GivesBoth(normalize: Normalize, a: seq<Call>, b: seq<Call>, d: Desired, name: string)
    requires GivesAttributes(normalize, a, d.name, d.attributes, name) && GivesOperations(normalize, b, d.name, d.operations, name)
    ensures forall c :: c in a + b ==> IsMemberCall(c)
    ensures AttributesFor(normalize, a + b, name) == if normalize(d.name) == normalize(name) then d.attributes else []
    ensures OperationsFor(normalize, a + b, name) == if normalize(d.name) == normalize(name) then d.operations else []
  {
    hide AttributesFor, OperationsFor;
    AttributesConcat(normalize, a, b, name);
    OperationsConcat(normalize, a, b, name);
    assert d.attributes + [] == d.attributes && [] + d.operations == d.operations;
  }

  lemma MembersRead(normalize: Normalize, item: Json, d: Desired, name: string)
    requires DescribesClass(item, d) && OwnsMembers(d)
    ensures MemberCalls(item).Ok?
    ensures var calls := MemberCalls(item).value;
      && (forall c :: c in calls ==> IsMemberCall(c))
      && AttributesFor(normalize, calls, name) == (if normalize(d.name) == normalize(name) then d.attributes else [])
      && OperationsFor(normalize, calls, name) == (if normalize(d.name) == normalize(name) then d.operations else [])
  {
    hide TextField, ItemsOf, AttributeCalls, OperationCalls, AttributesFor, OperationsFor, DescribesAttributes, DescribesOperations,
         GivesAttributes, GivesOperations, Named, IsMemberCall;
    var attributes, operations := ItemsOf(item.fields, "attributes").value, ItemsOf(item.fields, "operations").value;
    AttributesRead(normalize, attributes, d.attributes, d.name, name);
    OperationsRead(normalize, operations, d.operations, d.name, name);
    GivesBoth(normalize, AttributeCalls(d.name, attributes), OperationCalls(d.name, operations), d, name);
  }

  /** The members wanted for a name are those of its class. */
  function MembersNamed(normalize: Normalize, desired: seq<Desired>, name: string): (seq<Member>, seq<Member>) {
    match DesiredNamed(normalize, desired, name)
    case None => ([], [])
    case Some(d) => (d.attributes, d.operations)
  }

  ghost predicate FillsNamed(normalize: Normalize, members: seq<Call>, desired: seq<Desired>, name: string) {
    (AttributesFor(normalize, members, name), OperationsFor(normalize, members, name)) == MembersNamed(normalize, desired, name)
  }

  lemma OneMoreNamed(normalize: Normalize, front: seq<Desired>, d: Desired, name: string)
    requires forall x :: x in front ==> normalize(x.name) != normalize(d.name)
    ensures MembersNamed(normalize, front + [d], name) ==
      if normalize(d.name) == normalize(name) then (d.attributes, d.operations) else MembersNamed(normalize, front, name)
  {
    if normalize(d.name) == normalize(name) {
      NamedLast(normalize, front, d, name);
    } else {
      NamedBefore(normalize, front, d, name);
    }
  }

  lemma {:induction false} NamedLast(normalize: Normalize, front: seq<Desired>, d: Desired, name: string)
    requires normalize(d.name) == normalize(name) && forall x :: x in front ==> normalize(x.name) != normalize(name)
    ensures DesiredNamed(normalize, front + [d], name) == Some(d)
  {
    if front != [] {
      assert front[0] in front && (front + [d])[1..] == front[1..] + [d];
      NamedLast(normalize, front[1..], d, name);
    }
  }

  lemma {:induction false} NamedBefore(normalize: Normalize, front: seq<Desired>, d: Desired, name: string)
    requires normalize(d.name) != normalize(name)
    ensures DesiredNamed(normalize, front + [d], name) == DesiredNamed(normalize, front, name)
  {
    if front == [] {
      assert ([] + [d])[1..] == [];
    } else {
      assert (front + [d])[1..] == front[1..] + [d];
      NamedBefore(normalize, front[1..], d, name);
    }
  }

  /** The members of one more class. */
  lemma FillsOneMore(normalize: Normalize, front: seq<Call>, last: seq<Call>, desired: seq<Desired>, d: Desired, name: string)
    requires FillsNamed(normalize, front, desired, name)
    requires AttributesFor(normalize, last, name) == (if normalize(d.name) == normalize(name) then d.attributes else [])
    requires OperationsFor(normalize, last, name) == (if normalize(d.name) == normalize(name) then d.operations else [])
    requires forall x :: x in desired ==> normalize(x.name) != normalize(d.name)
    ensures FillsNamed(normalize, front + last, desired + [d], name)
  {
    hide AttributesFor, OperationsFor, MembersNamed;
    AttributesConcat(normalize, front, last, name);
    OperationsConcat(normalize, front, last, name);
    OneMoreNamed(normalize, desired, d, name);
    NamedOrNothing(normalize, desired, d, name);
    var a, o := AttributesFor(normalize, front, name), OperationsFor(normalize, front, name);
    assert a + [] == a && o + [] == o && [] + d.attributes == d.attributes && [] + d.operations == d.operations;
  }

  lemma EarlierKeysDiffer(normalize: Normalize, desired: seq<Desired>, n: nat)
    requires |desired| == n + 1 && DesiredKeysDistinct(normalize, desired)
    ensures DesiredKeysDistinct(normalize, desired[..n])
    ensures forall x :: x in desired[..n] ==> normalize(x.name) != normalize(desired[n].name)
  {
    forall x | x in desired[..n] ensures normalize(x.name) != normalize(desired[n].name) {
      var i :| 0 <= i < n && desired[i] == x;
    }
  }

  lemma {:induction false} AllMembersRead(normalize: Normalize, items: seq<Json>, desired: seq<Desired>, name: string)
    requires DescribesClasses(items, desired) && DesiredKeysDistinct(normalize, desired) && forall d :: d in desired ==> OwnsMembers(d)
    ensures AllMemberCalls(items).Ok?
    ensures forall c :: c in AllMemberCalls(items).value ==> IsMemberCall(c)
    ensures FillsNamed(normalize, AllMemberCalls(items).value, desired, name)
  {
    hide MemberCalls, DescribesClass, OwnsMembers, MembersNamed, IsMemberCall, AttributesFor, OperationsFor, FillsNamed, DesiredKeysDistinct;
    if items == [] {
      NoneNamed(normalize, name);
    } else {
      var n := |items| - 1;
      LastIsMember(desired);
      EarlierKeysDiffer(normalize, desired, n);
      AllMembersRead(normalize, items[..n], desired[..n], name);
      MembersRead(normalize, items[n], desired[n], name);
      FillsOneMore(normalize, AllMemberCalls(items[..n]).value, MemberCalls(items[n]).value, desired[..n], desired[n], name);
      assert desired == desired[..n] + [desired[n]];
    }
  }

  lemma NoneNamed(normalize: Normalize, name: string)
    ensures FillsNamed(normalize, [], [], name)
  {
  }

  lemma NamedOrNothing(normalize: Normalize, front: seq<Desired>, d: Desired, name: string)
    requires forall x :: x in front ==> normalize(x.name) != normalize(d.name)
    ensures normalize(d.name) == normalize(name) ==> MembersNamed(normalize, front, name) == ([], [])
  {
  }

  // ---- links -----------------------------------------------------------

  function NormalizedLink(link: LinkArguments): LinkArguments {
    link.(source := NormalizedText(link.source), target := NormalizedText(link.target))
  }

  function NormalizedLinks(links: seq<LinkArguments>): seq<LinkArguments> {
    seq(|links|, i requires 0 <= i < |links| => NormalizedLink(links[i]))
  }

  lemma LinksPrefix(items: seq<Json>, links: seq<LinkArguments>, n: nat)
    requires DescribesLinks(items, links) && |items| == n + 1
    ensures |links| == n + 1 && DescribesLinks(items[..n], links[..n]) && DescribesLink(items[n], links[n])
    ensures NormalizedLinks(links) == NormalizedLinks(links[..n]) + [NormalizedLink(links[n])]
  {
    hide DescribesLink, NormalizedLink;
  }

  lemma LinkCallsStep(items: seq<Json>, n: nat, link: LinkArguments)
    requires |items| == n + 1 && DescribesLink(items[n], link)
    ensures ExtractedLinkCalls(items) == ExtractedLinkCalls(items[..n]) + [AddRelationshipCall(NormalizedLink(link))]
  {
    hide TextField, NormalizedText;
  }

  lemma OneMoreLink(front: seq<Call>, link: LinkArguments)
    ensures DesiredLinks(front + [AddRelationshipCall(link)]) == DesiredLinks(front) + [link]
  {
    assert (front + [AddRelationshipCall(link)])[..|front|] == front;
  }

  lemma {:induction false} LinksRead(items: seq<Json>, links: seq<LinkArguments>)
    requires DescribesLinks(items, links)
    ensures DesiredLinks(ExtractedLinkCalls(items)) == NormalizedLinks(links)
  {
    if items != [] {
      hide DescribesLinks, DescribesLink, ExtractedLinkCalls, NormalizedLinks, NormalizedLink, DesiredLinks;
      var n := |items| - 1;
      LinksPrefix(items, links, n);
      LinkCallsStep(items, n, links[n]);
      LinksRead(items[..n], links[..n]);
      OneMoreLink(ExtractedLinkCalls(items[..n]), NormalizedLink(links[n]));
    }
  }

  // ---- the whole answer ------------------------------------------------

  ghost predicate DiagramIsNamed(normalize: Normalize, desired: seq<Desired>) {
    DesiredKeysDistinct(normalize, desired) && forall d :: d in desired ==> OwnsMembers(d)
  }

  /** The parts of an expanded answer. */
  lemma ExpandedParts(normalize: Normalize, args: map<string, Json>, desired: seq<Desired>, links: seq<LinkArguments>)
    returns (classes: seq<Call>, members: seq<Call>, last: seq<Call>)
    requires Describes(args, desired, links) && DiagramIsNamed(normalize, desired)
    ensures Expand(args) == Ok((classes + members) + last)
    ensures DesiredNames(normalize, classes) == NamesOf(desired) && DesiredLinks(last) == NormalizedLinks(links)
    ensures forall c :: c in classes ==> c.AddClassCall?
    ensures forall c :: c in members ==> IsMemberCall(c)
    ensures forall c :: c in last ==> c.AddRelationshipCall?
    ensures forall name :: FillsNamed(normalize, members, desired, name)
  {
    var items, relationships := ListArgument(args, "classes").items, ListArgument(args, "relationships").items;
    hide ListArgument, DescribesClasses, DescribesLinks, DesiredKeysDistinct, OwnsMembers, AllMemberCalls, ClassCalls, ExtractedLinkCalls,
         DesiredNames, DesiredLinks, MembersNamed, AttributesFor, OperationsFor, IsMemberCall;
    AllMembersRead(normalize, items, desired, "");
    classes, members, last := ClassCalls(items), AllMemberCalls(items).value, ExtractedLinkCalls(relationships);
    ClassCallKinds(items);
    LinkCallKinds(relationships);
    ClassesRead(normalize, items, desired);
    LinksRead(relationships, links);
    forall name { AllMembersRead(normalize, items, desired, name); }
  }

  lemma NamesOfWhole(normalize: Normalize, classes: seq<Call>, members: seq<Call>, last: seq<Call>)
    requires forall c :: c in members ==> IsMemberCall(c)
    requires forall c :: c in last ==> c.AddRelationshipCall?
    ensures DesiredNames(normalize, (classes + members) + last) == DesiredNames(normalize, classes)
  {
    forall c | c in members ensures !c.AddClassCall? {
      assert IsMemberCall(c);
    }
    NamesConcat(normalize, classes + members, last);
    NamesConcat(normalize, classes, members);
  }

  lemma MembersOfWhole(normalize: Normalize, classes: seq<Call>, members: seq<Call>, last: seq<Call>, name: string)
    requires forall c :: c in classes ==> c.AddClassCall?
    requires forall c :: c in last ==> c.AddRelationshipCall?
    ensures AttributesFor(normalize, (classes + members) + last, name) == AttributesFor(normalize, members, name)
    ensures OperationsFor(normalize, (classes + members) + last, name) == OperationsFor(normalize, members, name)
  {
    hide AttributesFor, OperationsFor;
    AttributesConcat(normalize, classes + members, last, name);
    AttributesConcat(normalize, classes, members, name);
    OperationsConcat(normalize, classes + members, last, name);
    OperationsConcat(normalize, classes, members, name);
    NothingWanted(normalize, classes, name);
    NothingWanted(normalize, last, name);
    var a, o := AttributesFor(normalize, members, name), OperationsFor(normalize, members, name);
    assert ([] + a) + [] == a && ([] + o) + [] == o;
  }

  lemma LinksOfWhole(classes: seq<Call>, members: seq<Call>, last: seq<Call>)
    requires forall c :: c in classes ==> c.AddClassCall?
    requires forall c :: c in members ==> IsMemberCall(c)
    ensures DesiredLinks((classes + members) + last) == DesiredLinks(last)
  {
    forall c | c in members ensures !c.AddRelationshipCall? {
      assert IsMemberCall(c);
    }
    hide DesiredLinks;
    LinksConcat(classes + members, last);
    NoLinks(classes + members);
    assert [] + DesiredLinks(last) == DesiredLinks(last);
  }

  /** Whatever diagram an answer describes, its expansion is read as: the same classes with
      the same members, the same links with their multiplicities normalized. */
  lemma AnswerIsRead(normalize: Normalize, args: map<string, Json>, desired: seq<Desired>, links: seq<LinkArguments>)
    requires Describes(args, desired, links) && DiagramIsNamed(normalize, desired)
    ensures Expand(args).Ok? && UnsupportedCall(EXTRACT) !in Expand(args).value
    ensures DesiredClasses(normalize, Expand(args).value) == desired
    ensures DesiredLinks(Expand(args).value) == NormalizedLinks(links)
  {
    var classes, members, last := ExpandedParts(normalize, args, desired, links);
    hide Describes, Expand, DesiredNames, DesiredLinks, MembersNamed, AttributesFor, OperationsFor, OwnsMembers, DesiredKeysDistinct;
    NamesOfWhole(normalize, classes, members, last);
    LinksOfWhole(classes, members, last);
    forall i | 0 <= i < |desired| ensures DesiredClasses(normalize, (classes + members) + last)[i] == desired[i] {
      MembersOfWhole(normalize, classes, members, last, desired[i].name);
      OwnMembersNamed(normalize, desired, i);
      assert FillsNamed(normalize, members, desired, desired[i].name);
    }
    forall c: Call | c in (classes + members) + last ensures !c.UnsupportedCall? {
      assert c in members ==> IsMemberCall(c);
    }
  }

  lemma OwnMembersNamed(normalize: Normalize, desired: seq<Desired>, i: nat)
    requires DesiredKeysDistinct(normalize, desired) && i < |desired|
    ensures MembersNamed(normalize, desired, desired[i].name) == (desired[i].attributes, desired[i].operations)
  {
    hide DesiredKeysDistinct;
    DesiredIsNamed(normalize, desired, desired[i], desired[i].name);
  }

  // ---- normalized multiplicities ---------------------------------------

  lemma NormalizedTextMeans(text: Option<string>, default: string)
    requires ParseMultiplicity(TextOr(text, default)).Some?
    ensures ParseMultiplicity(TextOr(NormalizedText(text), default)) == ParseMultiplicity(TextOr(text, default))
  {
    EmptyIsUnreadable();
    if text.Some? && text.value != "" {
      NormalizingKeepsMeaning(text.value);
    } else if text.Some? {
      EmptyStaysEmpty();
    }
    hide ParseMultiplicity, NormalizeMultiplicity;
  }

  lemma EmptyIsUnreadable()
    ensures ParseMultiplicity("").None?
  {
    assert Strip("") == "";
  }

  lemma EmptyStaysEmpty()
    ensures NormalizeMultiplicity("") == ""
  {
    assert Strip("") == "" && WithoutBlanks("") == "" && Lower("") == "";
  }

  lemma NormalizedLinkIsReady(normalize: Normalize, desired: seq<Desired>, link: LinkArguments)
    requires LinkIsReady(normalize, desired, link)
    ensures LinkIsReady(normalize, desired, NormalizedLink(link))
  {
    NormalizedTextMeans(link.source, "0..1");
    NormalizedTextMeans(link.target, "0..*");
    hide ParseMultiplicity, NormalizedText, TextOr, DesiredNamed, KindOf;
  }

  lemma NormalizedMatches(
      normalize: Normalize, desired: seq<Desired>, link: LinkArguments, classes: seq<UmlClass>, r: Relationship)
    requires LinkIsReady(normalize, desired, link)
    ensures LinkMatches(normalize, classes, r, NormalizedLink(link)) <==> LinkMatches(normalize, classes, r, link)
  {
    NormalizedTextMeans(link.source, "0..1");
    NormalizedTextMeans(link.target, "0..*");
    hide ParseMultiplicity, NormalizedText, TextOr, DesiredNamed, EndIs, KindText, KindOf, Strip;
  }

  // ---- the theorem -----------------------------------------------------

  /** A diagram the editor can hold: unique names, known types, kinds and multiplicities, links
      between its classes, no two of a kind with the same ends. */
  ghost predicate DiagramIsReady(normalize: Normalize, desired: seq<Desired>, links: seq<LinkArguments>) {
    && DiagramIsNamed(normalize, desired)
    && (forall d :: d in desired ==> DesiredIsReady(normalize, d))
    && (forall link :: link in links ==> LinkIsReady(normalize, desired, link))
    && forall i, j :: 0 <= i < j < |links| ==> !ParallelLinks(normalize, links[i], links[j])
  }

  lemma AnswerIsReady(normalize: Normalize, args: map<string, Json>, desired: seq<Desired>, links: seq<LinkArguments>)
    requires Describes(args, desired, links) && DiagramIsReady(normalize, desired, links)
    ensures Expand(args).Ok? && ExtractionIsReady(normalize, Expand(args).value)
  {
    hide Describes, Expand, DesiredClasses, DesiredLinks, DiagramIsNamed, DesiredIsReady, LinkIsReady, NormalizedText;
    AnswerIsRead(normalize, args, desired, links);
    var normalized := NormalizedLinks(links);
    forall link | link in normalized ensures LinkIsReady(normalize, desired, link) {
      var i :| 0 <= i < |links| && normalized[i] == link;
      assert links[i] in links;
      NormalizedLinkIsReady(normalize, desired, links[i]);
    }
    forall i, j | 0 <= i < j < |links| ensures !ParallelLinks(normalize, normalized[i], normalized[j]) {
      assert !ParallelLinks(normalize, links[i], links[j]);
    }
  }

  lemma ExtractedAsWritten(
      normalize: Normalize, desired: seq<Desired>, classes: seq<UmlClass>, r: Relationship, links: seq<LinkArguments>)
    requires forall link :: link in links ==> LinkIsReady(normalize, desired, link)
    requires IsExtractedLink(normalize, classes, r, NormalizedLinks(links))
    ensures IsExtractedLink(normalize, classes, r, links)
  {
    hide LinkIsReady, LinkMatches, NormalizedLink;
    var normalized := NormalizedLinks(links);
    var link :| link in normalized && LinkMatches(normalize, classes, r, link);
    var i :| 0 <= i < |links| && normalized[i] == link;
    assert links[i] in links;
    NormalizedMatches(normalize, desired, links[i], classes, r);
  }

  lemma HasAsWritten(
      normalize: Normalize, desired: seq<Desired>, classes: seq<UmlClass>, relationships: seq<Relationship>, link: LinkArguments)
    requires LinkIsReady(normalize, desired, link) && HasLink(normalize, classes, relationships, NormalizedLink(link))
    ensures HasLink(normalize, classes, relationships, link)
  {
    hide LinkIsReady, LinkMatches, NormalizedLink;
    var r :| r in relationships && LinkMatches(normalize, classes, r, NormalizedLink(link));
    NormalizedMatches(normalize, desired, link, classes, r);
  }

  lemma ShownAsWritten(
      normalize: Normalize, desired: seq<Desired>, classes: seq<UmlClass>, relationships: seq<Relationship>, links: seq<LinkArguments>)
    requires forall link :: link in links ==> LinkIsReady(normalize, desired, link)
    requires ShowsLinks(normalize, classes, relationships, NormalizedLinks(links))
    ensures ShowsLinks(normalize, classes, relationships, links)
  {
    hide LinkIsReady, NoParallels, NormalizedLink, IsExtractedLink, HasLink;
    forall r | r in relationships ensures IsExtractedLink(normalize, classes, r, links) {
      ExtractedAsWritten(normalize, desired, classes, r, links);
    }
    forall link | link in links ensures HasLink(normalize, classes, relationships, link) {
      var i :| 0 <= i < |links| && links[i] == link;
      assert NormalizedLinks(links)[i] in NormalizedLinks(links);
      HasAsWritten(normalize, desired, classes, relationships, link);
    }
  }

  /** Uploading an image and confirming its preview: whatever diagram the answer describes, the
      plan translates; it is accepted exactly when no extracted generalization is already in the
      document; and then the document shows exactly that diagram. */
  lemma UploadedImageIsShown(
      normalize: Normalize, doc: Document, newId: NewIds, args: map<string, Json>, desired: seq<Desired>, links: seq<LinkArguments>)
    requires ModelIsReady(normalize, doc.model) && IdsAreNew(doc.model, newId)
    requires Describes(args, desired, links) && DiagramIsReady(normalize, desired, links)
    ensures Expand(args).Ok?
    ensures var extracted := Expand(args).value;
      var plan := TranslateAll(normalize, doc.model, newId, StartBatch(normalize, doc.model), Reconciliation(normalize, doc.model, extracted));
      && plan.Ok?
      && var outcome := SubmitEach(doc, plan.value.commands);
         && (outcome.Ok? <==> !MatchesGeneralization(normalize, doc.model, extracted))
         && (outcome.Ok? ==>
               && ShowsClasses(normalize, outcome.value.model.classes, desired)
               && ShowsLinks(normalize, outcome.value.model.classes, outcome.value.model.relationships, links))
  {
    hide *;
    DiagramParts(normalize, desired, links);
    AnswerIsReady(normalize, args, desired, links);
    AnswerIsRead(normalize, args, desired, links);
    var extracted := Expand(args).value;
    ConfirmedPlanShowsTheImage(normalize, doc, newId, extracted);
    var plan := TranslateAll(normalize, doc.model, newId, StartBatch(normalize, doc.model), Reconciliation(normalize, doc.model, extracted));
    var outcome := SubmitEach(doc, plan.value.commands);
    if outcome.Ok? {
      ShownParts(normalize, outcome.value.model, extracted);
      ShownAsWritten(normalize, desired, outcome.value.model.classes, outcome.value.model.relationships, links);
    }
  }

  /** What the translator makes of the calls of a plan, `None` standing for its error. */
  function Translated(normalize: Normalize, model: Model, newId: NewIds, calls: seq<Call>): Option<seq<C.Command>> {
    match TranslateAll(normalize, model, newId, StartBatch(normalize, model), calls)
    case Err(_) => None
    case Ok(batch) => Some(batch.commands)
  }

  /** A batch with the current revision is its commands one after the other; an empty plan does nothing. */
  lemma ConfirmationSubmits(plan: Plans.Plan, normalize: Normalize, newId: NewIds)
    requires plan.baseRevision == plan.previewed.revision
    requires TranslateAll(normalize, plan.previewed.model, newId, StartBatch(normalize, plan.previewed.model), plan.calls).Ok?
    ensures var commands := Translated(normalize, plan.previewed.model, newId, plan.calls);
      var outcome, submitted := Plans.Outcome(plan, plan.previewed, commands), SubmitEach(plan.previewed, commands.value);
      (outcome.Ok? <==> submitted.Ok?) && (outcome.Ok? ==> outcome.value == submitted.value)
  {
    hide TranslateAll, StartBatch;
    TranslateCounts(normalize, plan.previewed.model, newId, StartBatch(normalize, plan.previewed.model), plan.calls);
    StartsEmpty(normalize, plan.previewed.model);
  }

  lemma StartsEmpty(normalize: Normalize, model: Model)
    ensures StartBatch(normalize, model).commands == []
  {
  }

  /** Confirming the cached plan of an uploaded image while the document is as it was previewed
      succeeds exactly when no extracted generalization is already in the document, and leaves a
      document that shows exactly the diagram of the image. */
  lemma ConfirmedUploadShowsTheDiagram(
      normalize: Normalize, plan: Plans.Plan, newId: NewIds, args: map<string, Json>, desired: seq<Desired>, links: seq<LinkArguments>)
    requires ModelIsReady(normalize, plan.previewed.model) && IdsAreNew(plan.previewed.model, newId)
    requires Describes(args, desired, links) && DiagramIsReady(normalize, desired, links)
    requires plan.baseRevision == plan.previewed.revision
    requires Expand(args).Ok? && plan.calls == Reconciliation(normalize, plan.previewed.model, Expand(args).value)
    ensures var doc := plan.previewed;
      var outcome := Plans.Outcome(plan, doc, Translated(normalize, doc.model, newId, plan.calls));
      && (outcome.Ok? <==> !MatchesGeneralization(normalize, doc.model, Expand(args).value))
      && (outcome.Ok? ==>
            && ShowsClasses(normalize, outcome.value.model.classes, desired)
            && ShowsLinks(normalize, outcome.value.model.classes, outcome.value.model.relationships, links))
  {
    hide *;
    UploadedImageIsShown(normalize, plan.previewed, newId, args, desired, links);
    ConfirmationSubmits(plan, normalize, newId);
    TranslatedIs(normalize, plan.previewed.model, newId, plan.calls);
  }

  lemma TranslatedIs(normalize: Normalize, model: Model, newId: NewIds, calls: seq<Call>)
    ensures var batch := TranslateAll(normalize, model, newId, StartBatch(normalize, model), calls);
      batch.Ok? ==> Translated(normalize, model, newId, calls) == Some(batch.value.commands)
  {
    hide TranslateAll, StartBatch;
  }

  lemma DiagramParts(normalize: Normalize, desired: seq<Desired>, links: seq<LinkArguments>)
    requires DiagramIsReady(normalize, desired, links)
    ensures DiagramIsNamed(normalize, desired) && forall link :: link in links ==> LinkIsReady(normalize, desired, link)
  {
    hide DiagramIsNamed, LinkIsReady, DesiredIsReady;
  }

  lemma ShownParts(normalize: Normalize, model: Model, extracted: seq<Call>)
    requires Shows(normalize, model, extracted)
    ensures ShowsClasses(normalize, model.classes, DesiredClasses(normalize, extracted))
    ensures ShowsLinks(normalize, model.classes, model.relationships, DesiredLinks(extracted))
  {
    hide ShowsClasses, ShowsLinks, DesiredClasses, DesiredLinks;
  }
}
