/** The relationship calls of a reconciliation: their commands and what they change. */
module ReconcileLinks {
  import opened Text
  import opened Seqs
  import opened Uml
  import opened Multiplicities
  import opened Calls
  import opened Translator
  import opened Reconcile
  import opened ReconcileStages
  import opened ReconcileCalls
  import opened ReconcileGrow
  import C = Commands

  // ---- a matched relationship always gets an update --------------------

  lemma IntTextHasNoDots(i: int)
    ensures '.' !in IntText(i)
  {
    IntTextHasNoSpaces(i);
  }

  /** The printed record is no multiplicity notation. */
  lemma ReprIsUnreadable(m: Multiplicity)
    ensures ParseMultiplicity(MultiplicityRepr(m)).None?
  {
    var upper := if m.upper.None? then "None" else IntText(m.upper.value);
    IntTextHasNoDots(m.lower);
    if m.upper.Some? {
      IntTextHasNoDots(m.upper.value);
    }
    var text := MultiplicityRepr(m);
    assert '.' !in text by {
      hide IntText;
      assert text == "Multiplicity(lower=" + IntText(m.lower) + ", upper=" + upper + ")";
    }
    FindDotsNone(text);
    assert text[0] == 'M' && text[|text| - 1] == ')';
    hide IntText, FindDots, MultiplicityRepr;
    StripKeepsSpaceless(text);
    assert ParseInt(text).None?;
  }

  /** So the comparison with it always sees a difference, and both multiplicities are sent. */
  lemma UpdateIsAlwaysSent(normalize: Normalize, desired: seq<Desired>, link: LinkArguments, r: Relationship)
    requires LinkIsReady(normalize, desired, link)
    ensures IsChange(UpdateCall(link, r))
    ensures UpdateCall(link, r).newSource == Some(TextOr(link.source, "0..1"))
    ensures UpdateCall(link, r).newTarget == Some(TextOr(link.target, "0..*"))
  {
    ReprIsUnreadable(r.source.multiplicity);
    ReprIsUnreadable(r.target.multiplicity);
    hide ParseMultiplicity, MultiplicityRepr, KindOf;
  }

  // ---- commands --------------------------------------------------------

  function SourceOf(link: LinkArguments): Multiplicity {
    MultiplicityOf(TextOr(link.source, "0..1"))
  }

  function TargetOf(link: LinkArguments): Multiplicity {
    MultiplicityOf(TextOr(link.target, "0..*"))
  }

  function MultiplicityOf(text: string): Multiplicity {
    match ParseMultiplicity(text)
    case None => Multiplicity(0, None)
    case Some(m) => m
  }

  function IdOf(normalize: Normalize, registry: Registry, name: string): ElementId {
    if normalize(name) in registry then registry[normalize(name)] else ""
  }

  function KindOr(text: string): RelationshipKind {
    match KindOf(text)
    case None => Association
    case Some(kind) => kind
  }

  /** The relationship an unmatched link adds. */
  function AddedLink(normalize: Normalize, registry: Registry, id: ElementId, link: LinkArguments): Relationship {
    Relationship(id, KindOr(link.kind), RelationshipEnd(IdOf(normalize, registry, link.sourceName), SourceOf(link), None),
                 RelationshipEnd(IdOf(normalize, registry, link.targetName), TargetOf(link), None), link.name)
  }

  function NameChange(link: LinkArguments, r: Relationship): C.NameUpdate {
    if ChangedName(link, r).None? then C.Unset else C.SetTo(link.name)
  }

  function LinkCommand(normalize: Normalize, model: Model, registry: Registry, id: ElementId, link: LinkArguments): C.Command {
    match CurrentOf(normalize, model.classes, model.relationships, link)
    case None => C.AddRelationship(AddedLink(normalize, registry, id, link))
    case Some(r) => C.UpdateRelationship(r.id, NameChange(link, r), Some(SourceOf(link)), Some(TargetOf(link)))
  }

  function LinkCommands(normalize: Normalize, model: Model, registry: Registry, newId: NewIds, n: nat, links: seq<LinkArguments>): seq<C.Command> {
    seq(|links|, i requires 0 <= i < |links| => LinkCommand(normalize, model, registry, newId(n + i), links[i]))
  }

  function TheCall(normalize: Normalize, model: Model, link: LinkArguments): Call {
    match CurrentOf(normalize, model.classes, model.relationships, link)
    case None => AddRelationshipCall(link)
    case Some(r) => UpdateCall(link, r)
  }

  /** Both ends are known to the registry. */
  ghost predicate EndsResolve(normalize: Normalize, registry: Registry, link: LinkArguments) {
    normalize(link.sourceName) in registry && normalize(link.targetName) in registry
  }

  lemma {:induction false} OneCallEach(normalize: Normalize, model: Model, desired: seq<Desired>, links: seq<LinkArguments>)
    requires forall link :: link in links ==> LinkIsReady(normalize, desired, link)
    ensures LinkCalls(normalize, model.classes, model.relationships, links) ==
      seq(|links|, i requires 0 <= i < |links| => TheCall(normalize, model, links[i]))
  {
    hide CurrentOf, UpdateCall, LinkIsReady, IsChange;
    if links != [] {
      var n := |links| - 1;
      LastIsMember(links);
      OneCallEach(normalize, model, desired, links[..n]);
      var current := CurrentOf(normalize, model.classes, model.relationships, links[n]);
      if current.Some? {
        UpdateIsAlwaysSent(normalize, desired, links[n], current.value);
      }
    }
  }

  lemma AddedLinkTranslates(normalize: Normalize, model: Model, registry: Registry, desired: seq<Desired>, link: LinkArguments, id: ElementId)
    requires LinkIsReady(normalize, desired, link) && EndsResolve(normalize, registry, link)
    ensures TranslatesTo(normalize, model, registry, AddRelationshipCall(link), id, C.AddRelationship(AddedLink(normalize, registry, id, link)))
  {
    hide ParseMultiplicity, KindOf, DesiredNamed;
  }

  lemma UpdateTranslates(
      normalize: Normalize, model: Model, registry: Registry, desired: seq<Desired>, link: LinkArguments, r: Relationship, id: ElementId)
    requires LinkIsReady(normalize, desired, link)
    requires FindRelationship(normalize, model, registry, link.sourceName, link.targetName, Some(link.kind)) == Ok(r)
    ensures TranslatesTo(normalize, model, registry, UpdateCall(link, r), id,
                         C.UpdateRelationship(r.id, NameChange(link, r), Some(SourceOf(link)), Some(TargetOf(link))))
  {
    hide ParseMultiplicity, KindOf, DesiredNamed, FindRelationship, MultiplicityRepr, IsChange, TextOr;
    UpdateIsAlwaysSent(normalize, desired, link, r);
  }

  /** The matched relationship is the one the translator finds by name. */
  lemma CurrentIsFound(normalize: Normalize, model: Model, registry: Registry, link: LinkArguments)
    requires NoParallels(model.relationships) && Knows(normalize, registry, model.classes)
    requires CurrentOf(normalize, model.classes, model.relationships, link).Some?
    ensures FindRelationship(normalize, model, registry, link.sourceName, link.targetName, Some(link.kind)) ==
      Ok(CurrentOf(normalize, model.classes, model.relationships, link).value)
  {
    var source, target := ClassNamed(normalize, model.classes, link.sourceName).value, ClassNamed(normalize, model.classes, link.targetName).value;
    var r := CurrentOf(normalize, model.classes, model.relationships, link).value;
    hide ClassNamed, NoParallels, FindRelationship, FirstBetween;
    assert KindText(r.kind) == link.kind;
    LinkIsFound(normalize, model, registry, r, link.sourceName, link.targetName);
  }

  lemma LinkTranslates(normalize: Normalize, model: Model, registry: Registry, desired: seq<Desired>, link: LinkArguments, id: ElementId)
    requires NoParallels(model.relationships) && Knows(normalize, registry, model.classes)
    requires LinkIsReady(normalize, desired, link) && EndsResolve(normalize, registry, link)
    ensures TranslatesTo(normalize, model, registry, TheCall(normalize, model, link), id, LinkCommand(normalize, model, registry, id, link))
  {
    hide TranslatesTo, LinkIsReady, EndsResolve, NoParallels, Knows, FindRelationship, AddedLink, UpdateCall, CurrentOf, NameChange;
    match CurrentOf(normalize, model.classes, model.relationships, link) {
      case None => AddedLinkTranslates(normalize, model, registry, desired, link, id);
      case Some(r) =>
        CurrentIsFound(normalize, model, registry, link);
        UpdateTranslates(normalize, model, registry, desired, link, r, id);
    }
  }

  /** Each link is one call and one command. */
  lemma LinksTranslate(normalize: Normalize, model: Model, newId: NewIds, batch: Batch, desired: seq<Desired>, links: seq<LinkArguments>)
    requires NoParallels(model.relationships) && Knows(normalize, batch.registry, model.classes)
    requires forall link :: link in links ==> LinkIsReady(normalize, desired, link) && EndsResolve(normalize, batch.registry, link)
    ensures TranslateAll(normalize, model, newId, batch, LinkCalls(normalize, model.classes, model.relationships, links)) ==
      Ok(Batch(batch.registry, batch.commands + LinkCommands(normalize, model, batch.registry, newId, |batch.commands|, links)))
  {
    hide TranslatesTo, LinkIsReady, EndsResolve, NoParallels, Knows, TranslateAll, TheCall, LinkCommand, LinkCalls;
    OneCallEach(normalize, model, desired, links);
    var calls := LinkCalls(normalize, model.classes, model.relationships, links);
    var commands := LinkCommands(normalize, model, batch.registry, newId, |batch.commands|, links);
    forall i | 0 <= i < |calls|
      ensures TranslatesTo(normalize, model, batch.registry, calls[i], newId(|batch.commands| + i), commands[i])
    {
      assert links[i] in links;
      LinkTranslates(normalize, model, batch.registry, desired, links[i], newId(|batch.commands| + i));
    }
    PlainCalls(normalize, model, newId, batch, calls, commands);
  }

  // ---- effects ---------------------------------------------------------

  predicate IsLinkCommand(k: C.Command) {
    k.AddRelationship? || k.UpdateRelationship?
  }

  lemma LinkCommandKinds(normalize: Normalize, model: Model, registry: Registry, newId: NewIds, n: nat, links: seq<LinkArguments>)
    ensures forall k :: k in LinkCommands(normalize, model, registry, newId, n, links) ==> IsLinkCommand(k)
  {
    hide CurrentOf, AddedLink, NameChange, SourceOf, TargetOf;
  }

  /** Relationship commands touch no class. */
  lemma {:induction false} LinksGrowNothing(c: UmlClass, commands: seq<C.Command>)
    requires forall k :: k in commands ==> IsLinkCommand(k)
    ensures Grown(c, commands) == c
  {
    if commands != [] {
      LastIsMember(commands);
      assert IsLinkCommand(commands[|commands| - 1]);
      LinksGrowNothing(c, commands[..|commands| - 1]);
    }
  }

  lemma LinksGrowNoClass(classes: seq<UmlClass>, commands: seq<C.Command>)
    requires forall k :: k in commands ==> IsLinkCommand(k)
    ensures GrownAll(classes, commands) == classes
  {
    hide Grown;
    forall i | 0 <= i < |classes| ensures Grown(classes[i], commands) == classes[i] {
      LinksGrowNothing(classes[i], commands);
    }
    assert |GrownAll(classes, commands)| == |classes|;
    assert forall i :: 0 <= i < |classes| ==> GrownAll(classes, commands)[i] == classes[i];
  }

  lemma {:induction false} AddedConcat(a: seq<C.Command>, b: seq<C.Command>)
    ensures AddedLinks(a + b) == AddedLinks(a) + AddedLinks(b)
  {
    if b == [] {
      assert a + b == a;
    } else {
      var n := |b| - 1;
      assert (a + b)[..|a + b| - 1] == a + b[..n];
      AddedConcat(a, b[..n]);
    }
  }

  lemma {:induction false} NoneAdded(commands: seq<C.Command>)
    requires forall k :: k in commands ==> !k.AddRelationship?
    ensures AddedLinks(commands) == []
  {
    if commands != [] {
      LastIsMember(commands);
      NoneAdded(commands[..|commands| - 1]);
    }
  }

  lemma {:induction false} UpdatedConcat(r: Relationship, a: seq<C.Command>, b: seq<C.Command>)
    ensures UpdatedLink(r, a + b) == UpdatedLink(UpdatedLink(r, a), b)
  {
    hide StepLink;
    if b == [] {
      assert a + b == a;
    } else {
      var n := |b| - 1;
      assert (a + b)[..|a + b| - 1] == a + b[..n];
      UpdatedConcat(r, a, b[..n]);
    }
  }

  lemma {:induction false} NotUpdated(r: Relationship, commands: seq<C.Command>)
    requires forall k :: k in commands && k.UpdateRelationship? ==> k.relationshipId != r.id
    ensures UpdatedLink(r, commands) == r
  {
    if commands != [] {
      LastIsMember(commands);
      NotUpdated(r, commands[..|commands| - 1]);
    }
  }

  /** The added relationship of the i-th link, if it adds one. */
  ghost predicate IsAddedBy(
      normalize: Normalize, model: Model, registry: Registry, newId: NewIds, n: nat, links: seq<LinkArguments>, i: nat, r: Relationship)
  {
    i < |links| && CurrentOf(normalize, model.classes, model.relationships, links[i]).None?
    && r == AddedLink(normalize, registry, newId(n + i), links[i])
  }

  lemma LinkCommandsPrefix(normalize: Normalize, model: Model, registry: Registry, newId: NewIds, n: nat, links: seq<LinkArguments>)
    requires links != []
    ensures var m := |links| - 1;
      LinkCommands(normalize, model, registry, newId, n, links) ==
        LinkCommands(normalize, model, registry, newId, n, links[..m]) + [LinkCommand(normalize, model, registry, newId(n + m), links[m])]
  {
    hide LinkCommand;
  }

  /** The relationship stems from one of the links. */
  ghost predicate IsAdded(
      normalize: Normalize, model: Model, registry: Registry, newId: NewIds, n: nat, links: seq<LinkArguments>, r: Relationship)
  {
    exists i: nat :: IsAddedBy(normalize, model, registry, newId, n, links, i, r)
  }

  lemma AddedByOneMore(
      normalize: Normalize, model: Model, registry: Registry, newId: NewIds, n: nat, links: seq<LinkArguments>, r: Relationship)
    requires links != []
    ensures var m := |links| - 1;
      var k := LinkCommand(normalize, model, registry, newId(n + m), links[m]);
      IsAdded(normalize, model, registry, newId, n, links, r) <==>
        IsAdded(normalize, model, registry, newId, n, links[..m], r) || (k.AddRelationship? && r == k.relationship)
  {
    hide CurrentOf, AddedLink, SourceOf, TargetOf, NameChange;
    var m := |links| - 1;
    if IsAdded(normalize, model, registry, newId, n, links, r) {
      var i: nat :| IsAddedBy(normalize, model, registry, newId, n, links, i, r);
      assert i < m ==> IsAddedBy(normalize, model, registry, newId, n, links[..m], i, r);
    }
    if IsAdded(normalize, model, registry, newId, n, links[..m], r) {
      var i: nat :| IsAddedBy(normalize, model, registry, newId, n, links[..m], i, r);
      assert IsAddedBy(normalize, model, registry, newId, n, links, i, r);
    }
    var k := LinkCommand(normalize, model, registry, newId(n + m), links[m]);
    if k.AddRelationship? && r == k.relationship {
      assert IsAddedBy(normalize, model, registry, newId, n, links, m, r);
    }
  }

  /** Added relationships have new ids, so a later one differs from the earlier ones. */
  lemma AddedIds(
      normalize: Normalize, model: Model, registry: Registry, newId: NewIds, n: nat, links: seq<LinkArguments>, r: Relationship, m: nat)
    requires forall i, j :: newId(i) == newId(j) ==> i == j
    requires IsAdded(normalize, model, registry, newId, n, links, r) && |links| <= m
    ensures r.id != newId(n + m)
  {
    hide CurrentOf, SourceOf, TargetOf, IdOf, KindOr;
  }

  /** The added relationships are those of the unmatched links, under different ids. */
  lemma {:induction false} AddedAre(normalize: Normalize, model: Model, registry: Registry, newId: NewIds, n: nat, links: seq<LinkArguments>)
    requires forall i, j :: newId(i) == newId(j) ==> i == j
    ensures var added := AddedLinks(LinkCommands(normalize, model, registry, newId, n, links));
      && (forall r :: r in added <==> IsAdded(normalize, model, registry, newId, n, links, r))
      && LinksDistinct(added)
  {
    if links == [] {
      hide CurrentOf;
      assert LinkCommands(normalize, model, registry, newId, n, links) == [];
    } else {
      hide IsAdded, AddedLinks, LinksDistinct, LinkCommands, AddedLink, CurrentOf;
      var m := |links| - 1;
      AddedAre(normalize, model, registry, newId, n, links[..m]);
      LinkCommandsPrefix(normalize, model, registry, newId, n, links);
      var front := AddedLinks(LinkCommands(normalize, model, registry, newId, n, links[..m]));
      var k := LinkCommand(normalize, model, registry, newId(n + m), links[m]);
      AddedLinksStep(LinkCommands(normalize, model, registry, newId, n, links[..m]), k);
      forall r | r in front ensures r.id != newId(n + m) {
        AddedIds(normalize, model, registry, newId, n, links[..m], r, m);
      }
      forall r { AddedByOneMore(normalize, model, registry, newId, n, links, r); }
      AddedCommandId(normalize, model, registry, newId(n + m), links[m]);
      hide LinkCommand;
      LinksDistinctAppend(front, if k.AddRelationship? then [k.relationship] else []);
    }
  }

  lemma AddedCommandId(normalize: Normalize, model: Model, registry: Registry, id: ElementId, link: LinkArguments)
    ensures var k := LinkCommand(normalize, model, registry, id, link);
      k.AddRelationship? ==> k.relationship.id == id
  {
    hide CurrentOf, SourceOf, TargetOf, NameChange;
  }

  lemma LinksDistinctAppend(front: seq<Relationship>, last: seq<Relationship>)
    requires LinksDistinct(front) && |last| <= 1 && forall r, x :: r in front && x in last ==> r.id != x.id
    ensures LinksDistinct(front + last)
  {
    var whole := front + last;
    forall i, j | 0 <= i < j < |whole| ensures whole[i].id != whole[j].id {
      if j == |front| {
        assert whole[i] in front && whole[j] in last;
      }
    }
  }

  /** The relationship after the update its link sends. */
  function UpdatedBy(link: LinkArguments, r: Relationship): Relationship {
    C.Updated(r, NameChange(link, r), Some(SourceOf(link)), Some(TargetOf(link)))
  }

  /** A relationship matched by exactly one link is updated once, by that link. */
  lemma {:induction false} UpdatedOnce(
      normalize: Normalize, model: Model, registry: Registry, newId: NewIds, n: nat, links: seq<LinkArguments>, r: Relationship, i: nat)
    requires LinksDistinct(model.relationships) && r in model.relationships && i < |links|
    requires CurrentOf(normalize, model.classes, model.relationships, links[i]) == Some(r)
    requires forall j :: 0 <= j < |links| && j != i ==> CurrentOf(normalize, model.classes, model.relationships, links[j]) != Some(r)
    ensures UpdatedLink(r, LinkCommands(normalize, model, registry, newId, n, links)) == UpdatedBy(links[i], r)
  {
    hide CurrentOf, LinkCommands, LinkCommand, UpdatedLink, StepLink, UpdatedBy, LinksDistinct;
    var m := |links| - 1;
    LinkCommandsPrefix(normalize, model, registry, newId, n, links);
    var front, k := LinkCommands(normalize, model, registry, newId, n, links[..m]), LinkCommand(normalize, model, registry, newId(n + m), links[m]);
    UpdatedLinkStep(r, front, k);
    if i == m {
      NoLinkUpdates(normalize, model, registry, newId, n, links[..m], r);
      NotUpdated(r, front);
      MatchedCommand(normalize, model, registry, newId(n + m), links[m], r);
    } else {
      UpdatedOnce(normalize, model, registry, newId, n, links[..m], r, i);
      OtherLink(normalize, model, registry, newId(n + m), links[m], r);
      UpdatedKeepsId(r, front);
      OtherStep(UpdatedLink(r, front), k);
    }
  }

  lemma OtherStep(r: Relationship, k: C.Command)
    requires k.UpdateRelationship? ==> k.relationshipId != r.id
    ensures StepLink(r, k) == r
  {
  }

  lemma MatchedCommand(normalize: Normalize, model: Model, registry: Registry, id: ElementId, link: LinkArguments, r: Relationship)
    requires CurrentOf(normalize, model.classes, model.relationships, link) == Some(r)
    ensures StepLink(r, LinkCommand(normalize, model, registry, id, link)) == UpdatedBy(link, r)
  {
    hide CurrentOf, SourceOf, TargetOf, NameChange, C.Updated, AddedLink;
  }

  lemma NoLinkUpdates(
      normalize: Normalize, model: Model, registry: Registry, newId: NewIds, n: nat, links: seq<LinkArguments>, r: Relationship)
    requires LinksDistinct(model.relationships) && r in model.relationships
    requires forall j :: 0 <= j < |links| ==> CurrentOf(normalize, model.classes, model.relationships, links[j]) != Some(r)
    ensures forall x :: x in LinkCommands(normalize, model, registry, newId, n, links) && x.UpdateRelationship? ==> x.relationshipId != r.id
  {
    hide CurrentOf, LinkCommand, LinksDistinct;
    forall j | 0 <= j < |links|
      ensures var k := LinkCommand(normalize, model, registry, newId(n + j), links[j]);
        k.UpdateRelationship? ==> k.relationshipId != r.id
    {
      OtherLink(normalize, model, registry, newId(n + j), links[j], r);
    }
  }

  lemma OtherLink(normalize: Normalize, model: Model, registry: Registry, id: ElementId, link: LinkArguments, r: Relationship)
    requires LinksDistinct(model.relationships) && r in model.relationships
    requires CurrentOf(normalize, model.classes, model.relationships, link) != Some(r)
    ensures var k := LinkCommand(normalize, model, registry, id, link);
      k.UpdateRelationship? ==> k.relationshipId != r.id
  {
    var current := CurrentOf(normalize, model.classes, model.relationships, link);
    if current.Some? {
      var i :| 0 <= i < |model.relationships| && model.relationships[i] == current.value;
      var j :| 0 <= j < |model.relationships| && model.relationships[j] == r;
    }
    hide CurrentOf, AddedLink, SourceOf, TargetOf, NameChange;
  }
}
