/** `PlanCache.Confirm` as a run: left alone, the steps of one confirmation have its effect. */
module ConfirmRuns {
  import opened Text
  import opened Uml
  import opened Calls
  import opened Commands
  import opened Documents
  import opened DocumentRows
  import opened Plans

  /** What is left of the run after the plan was dropped. */
  function RestOf(request: RequestId, commands: Option<seq<Command>>): seq<Action> {
    if commands.Some? then [Translate(request, commands.value), SubmitPlan(request)] else [Abort(request)]
  }

  /** The steps of one confirmation; the last ones are not enabled once it has ended. */
  function ConfirmSteps(
      request: RequestId, planId: PlanId, kind: Kind, docId: DocId, org: Org, commands: Option<seq<Command>>): seq<Action> {
    [LoadPlan(request, planId, kind, docId, org), CheckRevision(request), DropPlan(request)]
    + RestOf(request, commands)
  }

  ghost predicate IsNew(s: State, request: RequestId) {
    request !in s.confirmations && request !in s.previews
  }

  /** The plan is in the cache, and its document is as the preview read it. */
  ghost predicate IsCurrent(s: State, planId: PlanId, kind: Kind, docId: DocId, org: Org) {
    && PlanApplies(s.plans, planId, kind, docId, org) && Visible(s, docId, org)
    && s.rows[docId].content.revision == s.plans[planId].baseRevision
  }

  /** What the confirmation leaves: no plan, the row of its outcome, and one commit if it wrote. */
  ghost function Confirmed(s: State, planId: PlanId, docId: DocId, commands: Option<seq<Command>>): State
    requires planId in s.plans && docId in s.rows
  {
    var plan, content := s.plans[planId], s.rows[docId].content;
    var dropped := s.(plans := s.plans - {planId});
    match Outcome(plan, content, commands)
    case Err(_) => dropped
    case Ok(after) =>
      if plan.calls == [] then dropped
      else
        WithRow(dropped, docId, after).(commits := s.commits + [Commit(planId, plan, content, commands.value, after)])
  }

  function InFlight(s: State, request: RequestId, planId: PlanId, plan: Plan, stage: Stage): State {
    s.(confirmations := s.confirmations[request := Confirmation(planId, plan, stage)])
  }

  lemma StageChanges(s: State, request: RequestId, planId: PlanId, plan: Plan, stage: Stage, next: Stage)
    ensures AtStage(InFlight(s, request, planId, plan, stage), request, next) == InFlight(s, request, planId, plan, next)
    ensures request !in s.confirmations ==> Finished(InFlight(s, request, planId, plan, stage), request) == s
  {
    var c := Confirmation(planId, plan, stage);
    assert s.confirmations[request := c][request := c.(stage := next)] == s.confirmations[request := c.(stage := next)];
    if request !in s.confirmations {
      assert s.confirmations[request := c] - {request} == s.confirmations;
    }
  }

  lemma NothingHappens(translates: Translation, s: State, request: RequestId, action: Action)
    requires IsNew(s, request)
    requires action in [CheckRevision(request), DropPlan(request), SubmitPlan(request), Abort(request)]
      || (action.Translate? && action.request == request)
    ensures Apply(translates, s, action) == s
  {
    assert s.confirmations - {request} == s.confirmations;
    assert s.previews - {request} == s.previews;
  }

  lemma LoadAndCheck(s: State, request: RequestId, planId: PlanId, kind: Kind, docId: DocId, org: Org)
    requires IsNew(s, request)
    ensures CheckStep(LoadStep(s, request, planId, kind, docId, org), request) ==
      if IsCurrent(s, planId, kind, docId, org)
      then InFlight(s, request, planId, s.plans[planId], Checked(s.rows[docId].content))
      else s
  {
    if PlanApplies(s.plans, planId, kind, docId, org) {
      var plan := s.plans[planId];
      assert LoadStep(s, request, planId, kind, docId, org) == InFlight(s, request, planId, plan, Loaded);
      StageChanges(s, request, planId, plan, Loaded,
        if Visible(s, docId, org) then Checked(s.rows[docId].content) else Loaded);
    }
  }

  lemma DropFrom(s: State, request: RequestId, planId: PlanId, plan: Plan, content: Document)
    requires IsNew(s, request)
    ensures DropStep(InFlight(s, request, planId, plan, Checked(content)), request) ==
      var dropped := s.(plans := s.plans - {planId});
      if plan.calls == [] then dropped else InFlight(dropped, request, planId, plan, Dropped(content))
  {
    var dropped := s.(plans := s.plans - {planId});
    StageChanges(dropped, request, planId, plan, Checked(content), Dropped(content));
  }

  lemma AbortFrom(translates: Translation, s: State, request: RequestId, planId: PlanId, plan: Plan, stage: Stage)
    requires IsNew(s, request)
    ensures Apply(translates, InFlight(s, request, planId, plan, stage), Abort(request)) == s
  {
    StageChanges(s, request, planId, plan, stage, stage);
    assert s.previews - {request} == s.previews;
  }

  lemma TranslateAndSubmit(
      translates: Translation, s: State, request: RequestId, planId: PlanId, plan: Plan, content: Document,
      commands: seq<Command>)
    requires IsNew(s, request) && Visible(s, plan.docId, plan.org) && s.rows[plan.docId].content == content
    requires translates(content.model, plan.calls, commands)
    ensures
      var translated := TranslateStep(translates, InFlight(s, request, planId, plan, Dropped(content)), request, commands);
      && IsAt(translated, request, (x: Stage) => x.Translated?)
      && Apply(translates, translated, SubmitPlan(request)) ==
           match SubmitBatch(content, commands, Some(plan.baseRevision))
           case Err(_) => s
           case Ok(after) =>
             WithRow(s, plan.docId, after).(commits := s.commits + [Commit(planId, plan, content, commands, after)])
  {
    hide SubmitBatch;
    StageChanges(s, request, planId, plan, Dropped(content), Translated(content, commands));
    StageChanges(s, request, planId, plan, Translated(content, commands), Loaded);
  }

  lemma FirstStep(translates: Translation, s: State, a: Action, rest: seq<Action>)
    ensures RunActions(translates, s, [a] + rest) == RunActions(translates, Apply(translates, s, a), rest)
  {
    hide Apply;
    assert ([a] + rest)[0] == a && ([a] + rest)[1..] == rest;
  }

  lemma FirstThree(translates: Translation, s: State, a: Action, b: Action, c: Action, rest: seq<Action>)
    ensures RunActions(translates, s, [a, b, c] + rest) ==
      RunActions(translates, Apply(translates, Apply(translates, Apply(translates, s, a), b), c), rest)
  {
    hide Apply, RunActions;
    FirstStep(translates, s, a, [b] + ([c] + rest));
    FirstStep(translates, Apply(translates, s, a), b, [c] + rest);
    FirstStep(translates, Apply(translates, Apply(translates, s, a), b), c, rest);
    assert [a, b, c] + rest == [a] + ([b] + ([c] + rest));
  }

  lemma OneAndTwo(translates: Translation, s: State, a: Action, b: Action)
    ensures RunActions(translates, s, [a]) == Apply(translates, s, a)
    ensures RunActions(translates, s, [a, b]) == Apply(translates, Apply(translates, s, a), b)
  {
    hide Apply;
    FirstStep(translates, s, a, [b]);
    FirstStep(translates, s, a, []);
    FirstStep(translates, Apply(translates, s, a), b, []);
    assert [a] + [] == [a] && [b] + [] == [b] && [a] + [b] == [a, b];
  }

  /** Without interference the steps of a confirmation end where `Confirm` ends; a plan that is
      gone, foreign or stale changes nothing. */
  lemma ConfirmRun(
      translates: Translation, s: State, request: RequestId, planId: PlanId, kind: Kind, docId: DocId, org: Org,
      commands: Option<seq<Command>>)
    requires IsNew(s, request)
    requires commands.Some? && IsCurrent(s, planId, kind, docId, org) ==>
      translates(s.rows[docId].content.model, s.plans[planId].calls, commands.value)
    ensures RunActions(translates, s, ConfirmSteps(request, planId, kind, docId, org, commands)) ==
      if IsCurrent(s, planId, kind, docId, org) then Confirmed(s, planId, docId, commands) else s
  {
    var rest := RestOf(request, commands);
    FirstThree(translates, s, LoadPlan(request, planId, kind, docId, org), CheckRevision(request), DropPlan(request), rest);
    LoadAndCheck(s, request, planId, kind, docId, org);
    if IsCurrent(s, planId, kind, docId, org) {
      CurrentRun(translates, s, request, planId, kind, docId, org, commands);
    } else {
      NothingHappens(translates, s, request, DropPlan(request));
      RestIsIdle(translates, s, request, commands);
    }
    hide RunActions, LoadStep, CheckStep, DropStep, IsCurrent, Confirmed;
  }

  lemma RestIsIdle(translates: Translation, s: State, request: RequestId, commands: Option<seq<Command>>)
    requires IsNew(s, request)
    ensures RunActions(translates, s, RestOf(request, commands)) == s
  {
    if commands.Some? {
      NothingHappens(translates, s, request, Translate(request, commands.value));
      NothingHappens(translates, s, request, SubmitPlan(request));
      OneAndTwo(translates, s, Translate(request, commands.value), SubmitPlan(request));
    } else {
      NothingHappens(translates, s, request, Abort(request));
      OneAndTwo(translates, s, Abort(request), Abort(request));
    }
  }

  lemma CurrentRun(
      translates: Translation, s: State, request: RequestId, planId: PlanId, kind: Kind, docId: DocId, org: Org,
      commands: Option<seq<Command>>)
    requires IsNew(s, request) && IsCurrent(s, planId, kind, docId, org)
    requires commands.Some? ==> translates(s.rows[docId].content.model, s.plans[planId].calls, commands.value)
    ensures
      RunActions(
        translates,
        DropStep(InFlight(s, request, planId, s.plans[planId], Checked(s.rows[docId].content)), request),
        RestOf(request, commands)) == Confirmed(s, planId, docId, commands)
  {
    var plan, content := s.plans[planId], s.rows[docId].content;
    var dropped := s.(plans := s.plans - {planId});
    var flight := InFlight(dropped, request, planId, plan, Dropped(content));
    DropFrom(s, request, planId, plan, content);
    if plan.calls == [] {
      RestIsIdle(translates, dropped, request, commands);
      assert Confirmed(s, planId, docId, commands) == dropped;
    } else if commands.None? {
      AbortFrom(translates, dropped, request, planId, plan, Dropped(content));
      OneAndTwo(translates, flight, Abort(request), Abort(request));
      assert Confirmed(s, planId, docId, commands) == dropped;
    } else {
      TranslateAndSubmit(translates, dropped, request, planId, plan, content, commands.value);
      OneAndTwo(translates, flight, Translate(request, commands.value), SubmitPlan(request));
      SubmittedIsConfirmed(s, planId, docId, commands);
    }
    hide *;
  }

  lemma SubmittedIsConfirmed(s: State, planId: PlanId, docId: DocId, commands: Option<seq<Command>>)
    requires planId in s.plans && docId in s.rows && commands.Some?
    requires s.plans[planId].calls != [] && s.rows[docId].content.revision == s.plans[planId].baseRevision
    ensures var plan, content := s.plans[planId], s.rows[docId].content;
            var dropped := s.(plans := s.plans - {planId});
      Confirmed(s, planId, docId, commands) ==
        match SubmitBatch(content, commands.value, Some(plan.baseRevision))
        case Err(_) => dropped
        case Ok(after) =>
          WithRow(dropped, docId, after).(commits := s.commits + [Commit(planId, plan, content, commands.value, after)])
  {
    hide SubmitBatch;
  }

  // ---- the object ------------------------------------------------------

  /** The cache, and the row if this organization sees it, are those of the state. */
  ghost predicate Mirrors(s: State, cache: PlanCache, docId: DocId, org: Org, row: Option<DocumentRow>)
    reads cache, if row.Some? then {row.value} else {}
  {
    && cache.plans == s.plans
    && (row.Some? <==> Visible(s, docId, org))
    && (row.Some? ==> row.value.content == s.rows[docId].content)
  }

  /** The translations of one translator. */
  ghost function TranslationOf(translate: (Model, seq<Call>) -> Option<seq<Command>>): Translation {
    (model, calls, commands) => translate(model, calls) == Some(commands)
  }

  ghost function CommandsFor(
      s: State, planId: PlanId, docId: DocId, translate: (Model, seq<Call>) -> Option<seq<Command>>): Option<seq<Command>> {
    if planId in s.plans && docId in s.rows then translate(s.rows[docId].content.model, s.plans[planId].calls) else None
  }

  /** `Confirm` ends where the run of its steps ends, and succeeds iff its outcome does. */
  method ConfirmAsRun(
      cache: PlanCache, planId: PlanId, kind: Kind, docId: DocId, org: Org, row: Option<DocumentRow>,
      translate: (Model, seq<Call>) -> Option<seq<Command>>, ghost s: State, ghost request: RequestId)
      returns (r: Result<Document, ConfirmError>, ghost after: State)
    requires IsNew(s, request) && Mirrors(s, cache, docId, org, row)
    modifies cache, if row.Some? then {row.value} else {}
    ensures after ==
      RunActions(TranslationOf(translate), s,
                 ConfirmSteps(request, planId, kind, docId, org, CommandsFor(s, planId, docId, translate)))
    ensures Mirrors(after, cache, docId, org, row)
    ensures after.commits != s.commits ==> r.Ok?
    ensures r.Ok? ==> IsCurrent(s, planId, kind, docId, org)
  {
    var commands := CommandsFor(s, planId, docId, translate);
    ConfirmRun(TranslationOf(translate), s, request, planId, kind, docId, org, commands);
    after := RunActions(TranslationOf(translate), s, ConfirmSteps(request, planId, kind, docId, org, commands));
    hide RunActions, SubmitBatch;
    r := cache.Confirm(planId, kind, docId, org, row, translate);
  }

  /** The two steps of a preview without interference: its plan is current right after. */
  lemma PreviewRun(
      translates: Translation, s: State, request: RequestId, planId: PlanId, kind: Kind, docId: DocId, org: Org,
      calls: seq<Call>)
    requires IsNew(s, request) && planId !in s.issued && Visible(s, docId, org)
    ensures var plan := Plan(kind, docId, org, s.rows[docId].content.revision, calls, s.rows[docId].content);
            var after := s.(plans := s.plans[planId := plan], issued := s.issued[planId := plan]);
      && RunActions(translates, s, [ReadForPreview(request, kind, docId, org), StorePreview(request, planId, calls)]) == after
      && IsCurrent(after, planId, kind, docId, org)
  {
    var p := Preview(kind, docId, org, s.rows[docId].content);
    assert s.previews[request := p] - {request} == s.previews;
    OneAndTwo(translates, s, ReadForPreview(request, kind, docId, org), StorePreview(request, planId, calls));
    hide RunActions;
  }

  /** Storing a plan ends where those steps end. */
  method StoreAsRun(
      cache: PlanCache, planId: PlanId, kind: Kind, docId: DocId, org: Org, row: DocumentRow, calls: seq<Call>,
      ghost translates: Translation, ghost s: State, ghost request: RequestId)
      returns (ghost after: State)
    requires IsNew(s, request) && Mirrors(s, cache, docId, org, Some(row)) && planId !in s.issued
    modifies cache
    ensures after ==
      RunActions(translates, s, [ReadForPreview(request, kind, docId, org), StorePreview(request, planId, calls)])
    ensures Mirrors(after, cache, docId, org, Some(row)) && IsCurrent(after, planId, kind, docId, org)
  {
    PreviewRun(translates, s, request, planId, kind, docId, org, calls);
    after :=
      RunActions(translates, s, [ReadForPreview(request, kind, docId, org), StorePreview(request, planId, calls)]);
    hide RunActions;
    cache.StorePlan(planId, kind, docId, org, row.content, calls);
  }
}
