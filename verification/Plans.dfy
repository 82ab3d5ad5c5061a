/** Preview and confirm under concurrency (`ai_assistant/service.py`): every interleaving of
    previews, confirmations and other writers of the documents. */
module Plans {
  import opened Text
  import opened Uml
  import opened Calls
  import opened Commands
  import opened Documents
  import opened DocumentRows
  import opened DocumentRuns

  type DocId = string
  type Org = string
  type PlanId = string
  type RequestId = string

  /** Voice and image plans live under different cache keys. */
  datatype Kind = Voice | Image

  /** A cached plan. `previewed` records what the preview read; the program keeps only its revision. */
  datatype Plan = Plan(kind: Kind, docId: DocId, org: Org, baseRevision: nat, calls: seq<Call>, previewed: Document)

  /** How far a confirmation request has come. */
  datatype Stage =
    | Loaded
    | Checked(document: Document)
    | Dropped(document: Document)
    | Translated(document: Document, commands: seq<Command>)

  datatype Confirmation = Confirmation(planId: PlanId, plan: Plan, stage: Stage)

  /** A preview request between its read of the document and the cache write. */
  datatype Preview = Preview(kind: Kind, docId: DocId, org: Org, read: Document)

  datatype Row = Row(org: Org, content: Document)

  /** A batch a confirmation committed, with the row before and after it. */
  datatype Commit = Commit(planId: PlanId, plan: Plan, before: Document, commands: seq<Command>, after: Document)

  /** Rows and cache are shared; previews and confirmations are requests in flight.
      `usedIds`, `issued` and `commits` only record history. */
  datatype State = State(
    rows: map<DocId, Row>,
    usedIds: set<DocId>,
    plans: map<PlanId, Plan>,
    issued: map<PlanId, Plan>,
    previews: map<RequestId, Preview>,
    confirmations: map<RequestId, Confirmation>,
    commits: seq<Commit>)

  const INITIAL := State(map[], {}, map[], map[], map[], map[], [])

  /** One atomic step of one party. */
  datatype Action =
    | Create(docId: DocId, org: Org, content: Document)
    | Delete(docId: DocId)
    | Write(docId: DocId, event: Event)
    | WriteBatch(docId: DocId, commands: seq<Command>)
    | ReadForPreview(request: RequestId, kind: Kind, docId: DocId, org: Org)
    | StorePreview(request: RequestId, planId: PlanId, calls: seq<Call>)
    | Expire(planId: PlanId)
    | LoadPlan(request: RequestId, planId: PlanId, kind: Kind, docId: DocId, org: Org)
    | CheckRevision(request: RequestId)
    | DropPlan(request: RequestId)
    | Translate(request: RequestId, commands: seq<Command>)
    | SubmitPlan(request: RequestId)
    | Abort(request: RequestId)

  /** Which command sequences the translator may produce; its new ids make it a relation. */
  type Translation = (Model, seq<Call>, seq<Command>) -> bool

  ghost function WithRow(s: State, docId: DocId, content: Document): State
    requires docId in s.rows
  {
    s.(rows := s.rows[docId := s.rows[docId].(content := content)])
  }

  function AtStage(s: State, request: RequestId, stage: Stage): State
    requires request in s.confirmations
  {
    s.(confirmations := s.confirmations[request := s.confirmations[request].(stage := stage)])
  }

  function Finished(s: State, request: RequestId): State {
    s.(confirmations := s.confirmations - {request})
  }

  /** The row a request of this organization sees. */
  predicate Visible(s: State, docId: DocId, org: Org) {
    docId in s.rows && s.rows[docId].org == org
  }

  predicate IsAt(s: State, request: RequestId, isStage: Stage -> bool) {
    request in s.confirmations && isStage(s.confirmations[request].stage)
  }

  /** The plan is read from the cache if it is there, of this kind and for this document. */
  function LoadStep(s: State, request: RequestId, planId: PlanId, kind: Kind, docId: DocId, org: Org): State {
    if request in s.confirmations || planId !in s.plans then s
    else
      var plan := s.plans[planId];
      if plan.kind != kind || plan.docId != docId || plan.org != org then s
      else s.(confirmations := s.confirmations[request := Confirmation(planId, plan, Loaded)])
  }

  /** The unlocked read of the document and the first revision check. */
  function CheckStep(s: State, request: RequestId): State {
    if !IsAt(s, request, (x: Stage) => x.Loaded?) then s
    else
      var plan := s.confirmations[request].plan;
      if !Visible(s, plan.docId, plan.org) || s.rows[plan.docId].content.revision != plan.baseRevision
      then Finished(s, request)
      else AtStage(s, request, Checked(s.rows[plan.docId].content))
  }

  /** `cache.delete`; an empty plan is done then. */
  function DropStep(s: State, request: RequestId): State {
    if !IsAt(s, request, (x: Stage) => x.Checked?) then s
    else
      var c := s.confirmations[request];
      var dropped := s.(plans := s.plans - {c.planId});
      if c.plan.calls == [] then Finished(dropped, request)
      else AtStage(dropped, request, Dropped(c.stage.document))
  }

  function TranslateStep(translates: Translation, s: State, request: RequestId, commands: seq<Command>): State {
    if !IsAt(s, request, (x: Stage) => x.Dropped?) then s
    else
      var c := s.confirmations[request];
      if translates(c.stage.document.model, c.plan.calls, commands)
      then AtStage(s, request, Translated(c.stage.document, commands))
      else s
  }

  /** `submit_commands` under the row lock, with the revision rechecked there. */
  ghost function SubmitStep(s: State, request: RequestId): State
    requires request in s.confirmations && s.confirmations[request].stage.Translated?
  {
    var c := s.confirmations[request];
    if !Visible(s, c.plan.docId, c.plan.org) then Finished(s, request)
    else
      var before := s.rows[c.plan.docId].content;
      match SubmitBatch(before, c.stage.commands, Some(c.plan.baseRevision))
      case Err(_) => Finished(s, request)
      case Ok(after) =>
        Finished(WithRow(s, c.plan.docId, after), request).(
          commits := s.commits + [Commit(c.planId, c.plan, before, c.stage.commands, after)])
  }

  /** A step that is not enabled changes nothing. */
  ghost function Apply(translates: Translation, s: State, action: Action): State {
    match action
    case Create(docId, org, content) =>
      if docId in s.usedIds then s
      else s.(rows := s.rows[docId := Row(org, content)], usedIds := s.usedIds + {docId})
    case Delete(docId) => s.(rows := s.rows - {docId})
    case Write(docId, event) =>
      if docId !in s.rows then s else WithRow(s, docId, Step(s.rows[docId].content, event))
    case WriteBatch(docId, commands) =>
      if docId !in s.rows || SubmitBatch(s.rows[docId].content, commands, None).Err? then s
      else WithRow(s, docId, SubmitBatch(s.rows[docId].content, commands, None).value)
    case ReadForPreview(request, kind, docId, org) =>
      if !Visible(s, docId, org) then s
      else s.(previews := s.previews[request := Preview(kind, docId, org, s.rows[docId].content)])
    case StorePreview(request, planId, calls) =>
      if request !in s.previews || planId in s.issued then s
      else
        var p := s.previews[request];
        var plan := Plan(p.kind, p.docId, p.org, p.read.revision, calls, p.read);
        s.(plans := s.plans[planId := plan], issued := s.issued[planId := plan], previews := s.previews - {request})
    case Expire(planId) => s.(plans := s.plans - {planId})
    case LoadPlan(request, planId, kind, docId, org) => LoadStep(s, request, planId, kind, docId, org)
    case CheckRevision(request) => CheckStep(s, request)
    case DropPlan(request) => DropStep(s, request)
    case Translate(request, commands) => TranslateStep(translates, s, request, commands)
    case SubmitPlan(request) =>
      if request !in s.confirmations || !s.confirmations[request].stage.Translated? then s
      else SubmitStep(s, request)
    case Abort(request) => Finished(s, request).(previews := s.previews - {request})
  }

  ghost function RunActions(translates: Translation, s: State, actions: seq<Action>): State
    decreases |actions|
  {
    if actions == [] then s else RunActions(translates, Apply(translates, s, actions[0]), actions[1..])
  }

  // ---- every write raises the revision ---------------------------------

  lemma WriteRaises(doc: Document, event: Event)
    ensures Step(doc, event) == doc || Step(doc, event).revision > doc.revision
  {
  }

  ghost predicate Submap<K, V>(a: map<K, V>, b: map<K, V>) {
    forall k :: k in a ==> k in b && a[k] == b[k]
  }

  ghost predicate OthersKept<K, V>(a: map<K, V>, b: map<K, V>, key: K) {
    forall k :: k in a && k != key ==> k in b && a[k] == b[k]
  }

  // ---- the invariant ---------------------------------------------------

  /** The document has moved on since it was read as `read`, or is still exactly that. */
  ghost predicate ReadFits(s: State, docId: DocId, read: Document) {
    && docId in s.usedIds
    && (docId in s.rows ==>
          s.rows[docId].content == read || s.rows[docId].content.revision > read.revision)
  }

  ghost predicate PlanFits(s: State, plan: Plan) {
    plan.baseRevision == plan.previewed.revision && ReadFits(s, plan.docId, plan.previewed)
  }

  ghost predicate ConfirmationFits(translates: Translation, s: State, c: Confirmation) {
    && c.planId in s.issued && c.plan == s.issued[c.planId]
    && (!c.stage.Loaded? ==> c.stage.document == c.plan.previewed)
    && (c.stage.Translated? ==> translates(c.plan.previewed.model, c.plan.calls, c.stage.commands))
  }

  /** A commit applied its plan to the previewed content, and the row has moved on since. */
  ghost predicate CommitFits(translates: Translation, s: State, c: Commit) {
    && c.planId in s.issued && c.plan == s.issued[c.planId]
    && c.before == c.plan.previewed
    && translates(c.before.model, c.plan.calls, c.commands)
    && SubmitEach(c.before, c.commands) == Ok(c.after) && c.commands != []
    && (c.plan.docId in s.rows ==> s.rows[c.plan.docId].content.revision > c.plan.baseRevision)
  }

  /** Commits on one document have strictly rising base revisions. */
  ghost predicate CommitsRise(commits: seq<Commit>) {
    forall i, j :: 0 <= i < j < |commits| && commits[i].plan.docId == commits[j].plan.docId ==>
      commits[i].plan.baseRevision < commits[j].plan.baseRevision
  }

  ghost predicate PreviewsFit(s: State) {
    forall r :: r in s.previews ==> ReadFits(s, s.previews[r].docId, s.previews[r].read)
  }

  ghost predicate PlansFit(s: State) {
    && (forall p :: p in s.issued ==> PlanFits(s, s.issued[p]))
    && Submap(s.plans, s.issued)
  }

  ghost predicate ConfirmationsFit(translates: Translation, s: State) {
    forall r :: r in s.confirmations ==> ConfirmationFits(translates, s, s.confirmations[r])
  }

  ghost predicate CommitsFit(translates: Translation, s: State) {
    CommitsRise(s.commits) && forall c :: c in s.commits ==> CommitFits(translates, s, c)
  }

  ghost predicate Inv(translates: Translation, s: State) {
    && s.rows.Keys <= s.usedIds
    && PreviewsFit(s) && PlansFit(s) && ConfirmationsFit(translates, s) && CommitsFit(translates, s)
  }

  /** What any step does to the rows: contents stay or their revision rises, ids are not reused. */
  ghost predicate RowsAdvance(s: State, after: State) {
    && s.usedIds <= after.usedIds
    && forall d :: d in after.rows ==>
         d !in s.usedIds
         || (d in s.rows
             && (after.rows[d].content == s.rows[d].content
                 || after.rows[d].content.revision > s.rows[d].content.revision))
  }

  lemma AdvanceKeepsFits(translates: Translation, s: State, after: State)
    requires Inv(translates, s) && RowsAdvance(s, after)
    requires after.issued == s.issued
    ensures forall d, read :: ReadFits(s, d, read) ==> ReadFits(after, d, read)
    ensures forall p :: PlanFits(s, p) ==> PlanFits(after, p)
    ensures forall c :: ConfirmationFits(translates, s, c) ==> ConfirmationFits(translates, after, c)
    ensures forall c :: c in s.commits ==> CommitFits(translates, after, c)
  {
    hide SubmitEach;
    forall c | c in s.commits ensures CommitFits(translates, after, c) {
      assert CommitFits(translates, s, c);
      assert PlanFits(s, s.issued[c.planId]);
    }
  }

  lemma BatchRaises(doc: Document, commands: seq<Command>, expected: Option<nat>)
    requires SubmitBatch(doc, commands, expected).Ok?
    ensures SubmitBatch(doc, commands, expected).value.revision > doc.revision
  {
    EachRaisesRevision(doc, commands);
  }

  lemma StepAdvances(translates: Translation, s: State, action: Action)
    requires Inv(translates, s)
    ensures RowsAdvance(s, Apply(translates, s, action))
  {
    hide SubmitBatch, Step, Inv, SubmitEach;
    assert s.rows.Keys <= s.usedIds by { RowsAreUsed(translates, s); }
    match action
    case Write(docId, event) =>
      if docId in s.rows {
        WriteRaises(s.rows[docId].content, event);
      }
    case WriteBatch(docId, commands) =>
      if docId in s.rows && SubmitBatch(s.rows[docId].content, commands, None).Ok? {
        BatchRaises(s.rows[docId].content, commands, None);
      }
    case SubmitPlan(request) =>
      if request in s.confirmations && s.confirmations[request].stage.Translated? {
        var c := s.confirmations[request];
        if c.plan.docId in s.rows {
          var before := s.rows[c.plan.docId].content;
          if SubmitBatch(before, c.stage.commands, Some(c.plan.baseRevision)).Ok? {
            BatchRaises(before, c.stage.commands, Some(c.plan.baseRevision));
          }
        }
      }
    case _ =>
  }

  lemma RowsAreUsed(translates: Translation, s: State)
    requires Inv(translates, s)
    ensures s.rows.Keys <= s.usedIds
  {
  }

  /** A commit happens on exactly the previewed content. */
  lemma SubmitIsOnPreview(translates: Translation, s: State, request: RequestId)
    requires Inv(translates, s) && request in s.confirmations && s.confirmations[request].stage.Translated?
    requires SubmitStep(s, request).commits != s.commits
    ensures var c := s.confirmations[request];
      && c.plan.docId in s.rows && s.rows[c.plan.docId].content == c.plan.previewed
      && c.stage.commands != []
      && SubmitEach(c.plan.previewed, c.stage.commands).Ok?
      && SubmitStep(s, request).commits ==
           s.commits + [Commit(c.planId, c.plan, c.plan.previewed, c.stage.commands,
                               SubmitEach(c.plan.previewed, c.stage.commands).value)]
      && SubmitStep(s, request).rows ==
           s.rows[c.plan.docId := s.rows[c.plan.docId].(content := SubmitEach(c.plan.previewed, c.stage.commands).value)]
  {
    var c := s.confirmations[request];
    assert ConfirmationFits(translates, s, c);
    assert PlanFits(s, c.plan);
  }

  lemma SubmitKeepsCommits(translates: Translation, s: State, request: RequestId)
    requires Inv(translates, s) && request in s.confirmations && s.confirmations[request].stage.Translated?
    ensures CommitsFit(translates, SubmitStep(s, request))
  {
    var after := SubmitStep(s, request);
    StepAdvances(translates, s, SubmitPlan(request));
    assert after == Apply(translates, s, SubmitPlan(request));
    AdvanceKeepsFits(translates, s, after);
    if after.commits != s.commits {
      var c := s.confirmations[request];
      SubmitIsOnPreview(translates, s, request);
      EachRaisesRevision(c.plan.previewed, c.stage.commands);
      assert ConfirmationFits(translates, s, c);
      assert PlanFits(s, c.plan);
      hide SubmitStep, SubmitEach, Apply;
      assert CommitFits(translates, after, after.commits[|s.commits|]);
      forall k | 0 <= k < |s.commits| && s.commits[k].plan.docId == c.plan.docId
        ensures s.commits[k].plan.baseRevision < c.plan.baseRevision
      {
        assert CommitFits(translates, s, s.commits[k]);
      }
    }
  }

  /** Rows advance; previews and plans only go; at most the given confirmation is new or changed, and it fits. */
  lemma FrameKeepsRequests(translates: Translation, s: State, after: State, request: RequestId)
    requires Inv(translates, s) && RowsAdvance(s, after) && after.issued == s.issued
    requires Submap(after.plans, s.plans) && Submap(after.previews, s.previews)
    requires OthersKept(after.confirmations, s.confirmations, request)
    requires request in after.confirmations ==> ConfirmationFits(translates, after, after.confirmations[request])
    ensures PreviewsFit(after) && PlansFit(after) && ConfirmationsFit(translates, after)
    ensures after.commits == s.commits ==> CommitsFit(translates, after)
  {
    AdvanceKeepsFits(translates, s, after);
    hide ReadFits, PlanFits, ConfirmationFits, CommitFits, CommitsRise, RowsAdvance;
  }

  lemma ReadKeepsInv(translates: Translation, s: State, request: RequestId, p: Preview)
    requires Inv(translates, s) && Visible(s, p.docId, p.org) && p.read == s.rows[p.docId].content
    ensures Inv(translates, s.(previews := s.previews[request := p]))
  {
    var after := s.(previews := s.previews[request := p]);
    AdvanceKeepsFits(translates, s, after);
    assert ReadFits(after, p.docId, p.read);
    hide PlanFits, ConfirmationFits, CommitFits, CommitsRise, RowsAdvance, ReadFits;
  }

  lemma StoreKeepsFits(translates: Translation, s: State, planId: PlanId, plan: Plan)
    requires Inv(translates, s) && planId !in s.issued && PlanFits(s, plan)
    ensures var after := s.(plans := s.plans[planId := plan], issued := s.issued[planId := plan]);
      PreviewsFit(after) && PlansFit(after) && ConfirmationsFit(translates, after) && CommitsFit(translates, after)
  {
    var after := s.(plans := s.plans[planId := plan], issued := s.issued[planId := plan]);
    hide SubmitEach;
    assert forall d, read :: ReadFits(s, d, read) ==> ReadFits(after, d, read);
    assert forall p :: PlanFits(s, p) ==> PlanFits(after, p);
    forall c | c in s.commits ensures CommitFits(translates, after, c) {
      assert CommitFits(translates, s, c);
    }
    forall r | r in s.confirmations ensures ConfirmationFits(translates, after, s.confirmations[r]) {
      assert ConfirmationFits(translates, s, s.confirmations[r]);
    }
    hide CommitFits, ReadFits, PlanFits, ConfirmationFits, CommitsRise;
  }

  lemma StoreKeepsInv(translates: Translation, s: State, request: RequestId, planId: PlanId, calls: seq<Call>)
    requires Inv(translates, s)
    ensures Inv(translates, Apply(translates, s, StorePreview(request, planId, calls)))
  {
    if request in s.previews && planId !in s.issued {
      var p := s.previews[request];
      var plan := Plan(p.kind, p.docId, p.org, p.read.revision, calls, p.read);
      assert PlanFits(s, plan);
      StoreKeepsFits(translates, s, planId, plan);
      var stored := s.(plans := s.plans[planId := plan], issued := s.issued[planId := plan]);
      hide PlansFit, ConfirmationsFit, CommitsFit, PreviewsFit;
      RequestGoes(translates, stored, request);
    }
  }

  lemma RequestGoes(translates: Translation, s: State, request: RequestId)
    requires Inv(translates, s)
    ensures Inv(translates, s.(previews := s.previews - {request}))
  {
    var after := s.(previews := s.previews - {request});
    AdvanceKeepsFits(translates, s, after);
    hide PlanFits, ConfirmationFits, CommitFits, CommitsRise, RowsAdvance, ReadFits;
  }

  /** At most one confirmation changes, and it fits; plans only go. */
  ghost predicate Quiet(translates: Translation, s: State, after: State, request: RequestId) {
    && after == s.(plans := after.plans, confirmations := after.confirmations)
    && Submap(after.plans, s.plans) && OthersKept(after.confirmations, s.confirmations, request)
    && (request in after.confirmations ==> ConfirmationFits(translates, after, after.confirmations[request]))
  }

  lemma QuietKeepsInv(translates: Translation, s: State, after: State, request: RequestId)
    requires Inv(translates, s) && Quiet(translates, s, after, request)
    ensures Inv(translates, after)
  {
    hide PreviewsFit, PlansFit, ConfirmationsFit, CommitsFit, ConfirmationFits;
    FrameKeepsRequests(translates, s, after, request);
  }

  lemma RequestFits(translates: Translation, s: State, request: RequestId)
    requires Inv(translates, s) && request in s.confirmations
    ensures ConfirmationFits(translates, s, s.confirmations[request]) && PlanFits(s, s.confirmations[request].plan)
  {
    hide CommitsFit, PreviewsFit, PlanFits;
  }

  lemma LoadKeepsInv(translates: Translation, s: State, request: RequestId, planId: PlanId, kind: Kind, docId: DocId, org: Org)
    requires Inv(translates, s)
    ensures Inv(translates, LoadStep(s, request, planId, kind, docId, org))
  {
    if request in s.confirmations {
      RequestFits(translates, s, request);
    }
    assert Submap(s.plans, s.issued) by { hide PlanFits, PreviewsFit, ConfirmationsFit, CommitsFit; }
    hide Inv, PlanFits;
    QuietKeepsInv(translates, s, LoadStep(s, request, planId, kind, docId, org), request);
  }

  lemma CheckKeepsInv(translates: Translation, s: State, request: RequestId)
    requires Inv(translates, s)
    ensures Inv(translates, CheckStep(s, request))
  {
    hide Inv;
    if request in s.confirmations {
      RequestFits(translates, s, request);
    }
    QuietKeepsInv(translates, s, CheckStep(s, request), request);
  }

  lemma DropKeepsInv(translates: Translation, s: State, request: RequestId)
    requires Inv(translates, s)
    ensures Inv(translates, DropStep(s, request))
  {
    hide Inv, PlanFits;
    if request in s.confirmations {
      RequestFits(translates, s, request);
    }
    QuietKeepsInv(translates, s, DropStep(s, request), request);
  }

  lemma TranslateKeepsInv(translates: Translation, s: State, request: RequestId, commands: seq<Command>)
    requires Inv(translates, s)
    ensures Inv(translates, TranslateStep(translates, s, request, commands))
  {
    hide Inv, PlanFits;
    if request in s.confirmations {
      RequestFits(translates, s, request);
    }
    QuietKeepsInv(translates, s, TranslateStep(translates, s, request, commands), request);
  }

  lemma SubmitStepFrame(translates: Translation, s: State, request: RequestId)
    requires request in s.confirmations && s.confirmations[request].stage.Translated?
    ensures var after := SubmitStep(s, request);
      && after == Apply(translates, s, SubmitPlan(request))
      && after.rows.Keys == s.rows.Keys && after.usedIds == s.usedIds && after.issued == s.issued
      && after.previews == s.previews && after.plans == s.plans && after.confirmations == s.confirmations - {request}
  {
    hide SubmitBatch;
  }

  lemma SubmitKeepsInv(translates: Translation, s: State, request: RequestId)
    requires Inv(translates, s) && request in s.confirmations && s.confirmations[request].stage.Translated?
    ensures Inv(translates, Apply(translates, s, SubmitPlan(request)))
  {
    StepAdvances(translates, s, SubmitPlan(request));
    SubmitStepFrame(translates, s, request);
    SubmitKeepsCommits(translates, s, request);
    hide Apply, SubmitStep, PreviewsFit, PlansFit, ConfirmationsFit, CommitsFit, ConfirmationFits, RowsAdvance;
    FrameKeepsRequests(translates, s, SubmitStep(s, request), request);
  }

  lemma AbortKeepsInv(translates: Translation, s: State, request: RequestId)
    requires Inv(translates, s)
    ensures Inv(translates, Apply(translates, s, Abort(request)))
  {
    hide PreviewsFit, PlansFit, ConfirmationsFit, CommitsFit, ConfirmationFits;
    FrameKeepsRequests(translates, s, Apply(translates, s, Abort(request)), request);
  }

  lemma RowsKeepInv(translates: Translation, s: State, after: State)
    requires Inv(translates, s) && RowsAdvance(s, after) && after.rows.Keys <= after.usedIds
    requires after.issued == s.issued && after.commits == s.commits
    requires Submap(after.plans, s.plans) && after.previews == s.previews && after.confirmations == s.confirmations
    ensures Inv(translates, after)
  {
    AdvanceKeepsFits(translates, s, after);
    hide ReadFits, PlanFits, ConfirmationFits, CommitFits, CommitsRise, RowsAdvance;
  }

  predicate IsRowAction(action: Action) {
    action.Create? || action.Delete? || action.Write? || action.WriteBatch? || action.Expire?
  }

  /** Such an action touches neither requests nor commits, and reuses no id. */
  lemma RowActionFrame(translates: Translation, s: State, action: Action)
    requires IsRowAction(action) && s.rows.Keys <= s.usedIds
    ensures var after := Apply(translates, s, action);
      && after.issued == s.issued && after.commits == s.commits && after.previews == s.previews
      && after.confirmations == s.confirmations && Submap(after.plans, s.plans) && after.rows.Keys <= after.usedIds
  {
    hide SubmitBatch, Step;
  }

  lemma RowActionKeepsInv(translates: Translation, s: State, action: Action)
    requires Inv(translates, s) && IsRowAction(action)
    ensures Inv(translates, Apply(translates, s, action))
  {
    StepAdvances(translates, s, action);
    RowsAreUsed(translates, s);
    RowActionFrame(translates, s, action);
    hide *;
    RowsKeepInv(translates, s, Apply(translates, s, action));
  }

  lemma StepKeepsInv(translates: Translation, s: State, action: Action)
    requires Inv(translates, s)
    ensures Inv(translates, Apply(translates, s, action))
  {
    hide Inv, LoadStep, CheckStep, DropStep, TranslateStep;
    match action
    case SubmitPlan(request) =>
      if request in s.confirmations && s.confirmations[request].stage.Translated? {
        SubmitKeepsInv(translates, s, request);
      }
    case StorePreview(request, planId, calls) => StoreKeepsInv(translates, s, request, planId, calls);
    case ReadForPreview(request, kind, docId, org) =>
      if Visible(s, docId, org) {
        ReadKeepsInv(translates, s, request, Preview(kind, docId, org, s.rows[docId].content));
      }
    case LoadPlan(request, planId, kind, docId, org) => LoadKeepsInv(translates, s, request, planId, kind, docId, org);
    case CheckRevision(request) => CheckKeepsInv(translates, s, request);
    case DropPlan(request) => DropKeepsInv(translates, s, request);
    case Translate(request, commands) => TranslateKeepsInv(translates, s, request, commands);
    case Abort(request) => AbortKeepsInv(translates, s, request);
    case _ => RowActionKeepsInv(translates, s, action);
  }

  lemma {:induction false} RunKeepsInv(translates: Translation, s: State, actions: seq<Action>)
    requires Inv(translates, s)
    ensures Inv(translates, RunActions(translates, s, actions))
    decreases |actions|
  {
    hide Inv, Apply;
    if actions != [] {
      StepKeepsInv(translates, s, actions[0]);
      RunKeepsInv(translates, Apply(translates, s, actions[0]), actions[1..]);
    }
  }

  // ---- safety over every interleaving ----------------------------------

  /** In every interleaving, each commit turned exactly the previewed content into the
      result of a translation of its plan against that content. */
  lemma CommitsMatchPreviews(translates: Translation, actions: seq<Action>)
    ensures forall c :: c in RunActions(translates, INITIAL, actions).commits ==>
      && c.before == c.plan.previewed && c.before.revision == c.plan.baseRevision
      && translates(c.plan.previewed.model, c.plan.calls, c.commands)
      && SubmitEach(c.plan.previewed, c.commands) == Ok(c.after)
      && c.after.revision == c.plan.baseRevision + |c.commands|
  {
    RunKeepsInv(translates, INITIAL, actions);
    var s := RunActions(translates, INITIAL, actions);
    forall c | c in s.commits
      ensures c.before.revision == c.plan.baseRevision && c.after.revision == c.plan.baseRevision + |c.commands|
    {
      assert CommitFits(translates, s, c);
      assert PlanFits(s, c.plan);
      EachRaisesRevision(c.before, c.commands);
    }
  }

  /** In every interleaving, no plan commits twice, and no two plans commit on the same
      revision of one document, however many confirmations run at once. */
  lemma PlansCommitAtMostOnce(translates: Translation, actions: seq<Action>)
    ensures var commits := RunActions(translates, INITIAL, actions).commits;
      forall i, j :: 0 <= i < j < |commits| ==>
        && commits[i].planId != commits[j].planId
        && (commits[i].plan.docId == commits[j].plan.docId ==>
              commits[i].plan.baseRevision < commits[j].plan.baseRevision)
  {
    RunKeepsInv(translates, INITIAL, actions);
    var s := RunActions(translates, INITIAL, actions);
    forall i, j | 0 <= i < j < |s.commits|
      ensures s.commits[i].planId != s.commits[j].planId
    {
      assert CommitFits(translates, s, s.commits[i]) && CommitFits(translates, s, s.commits[j]);
    }
  }

  // ---- one confirmation without interference ---------------------------

  datatype ConfirmError = PlanExpired | DocumentMissing | DiagramChanged | Untranslatable | Refused(reason: SubmitError)

  predicate PlanApplies(plans: map<PlanId, Plan>, planId: PlanId, kind: Kind, docId: DocId, org: Org) {
    planId in plans && plans[planId].kind == kind && plans[planId].docId == docId && plans[planId].org == org
  }

  /** The outcome of a confirmation whose plan is cached and whose document has this content. */
  ghost function Outcome(plan: Plan, content: Document, commands: Option<seq<Command>>): Result<Document, ConfirmError> {
    if content.revision != plan.baseRevision then Err(DiagramChanged)
    else if plan.calls == [] then Ok(content)
    else if commands.None? then Err(Untranslatable)
    else
      match SubmitBatch(content, commands.value, Some(plan.baseRevision))
      case Err(e) => Err(Refused(e))
      case Ok(after) => Ok(after)
  }

  class PlanCache {
    var plans: map<PlanId, Plan>

    constructor ()
      ensures plans == map[]
    {
      plans := map[];
    }

    method StorePlan(planId: PlanId, kind: Kind, docId: DocId, org: Org, read: Document, calls: seq<Call>)
      modifies this
      ensures plans == old(plans)[planId := Plan(kind, docId, org, read.revision, calls, read)]
    {
      plans := plans[planId := Plan(kind, docId, org, read.revision, calls, read)];
    }

    /** `confirm_voice_command` and `confirm_image_import`: the plan is dropped as soon as the
        revision matches, whatever happens to its calls; the row changes only on success. */
    method Confirm(
        planId: PlanId, kind: Kind, docId: DocId, org: Org, row: Option<DocumentRow>,
        translate: (Model, seq<Call>) -> Option<seq<Command>>)
        returns (r: Result<Document, ConfirmError>)
      modifies this, if row.Some? then {row.value} else {}
      ensures !PlanApplies(old(plans), planId, kind, docId, org) ==> r == Err(PlanExpired)
      ensures PlanApplies(old(plans), planId, kind, docId, org) && row.None? ==> r == Err(DocumentMissing)
      ensures PlanApplies(old(plans), planId, kind, docId, org) && row.Some? ==>
        var plan := old(plans)[planId];
        r == Outcome(plan, old(row.value.content), translate(old(row.value.content).model, plan.calls))
      ensures plans ==
        if PlanApplies(old(plans), planId, kind, docId, org) && row.Some?
           && old(row.value.content).revision == old(plans)[planId].baseRevision
        then old(plans) - {planId} else old(plans)
      ensures row.Some? ==> row.value.content == if r.Ok? then r.value else old(row.value.content)
    {
      if !PlanApplies(plans, planId, kind, docId, org) {
        return Err(PlanExpired);
      }
      if row.None? {
        return Err(DocumentMissing);
      }
      var plan, document := plans[planId], row.value.content;
      if document.revision != plan.baseRevision {
        return Err(DiagramChanged);
      }
      plans := plans - {planId};
      if plan.calls == [] {
        return Ok(document);
      }
      var translated := translate(document.model, plan.calls);
      if translated.None? {
        return Err(Untranslatable);
      }
      var submitted := row.value.SubmitCommands(translated.value, Some(plan.baseRevision));
      match submitted {
        case Ok(after) => r := Ok(after);
        case Err(e) => r := Err(Refused(e));
      }
    }
  }
}
