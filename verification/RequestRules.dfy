/** What a request answers and what it leaves behind, from what the tables held before it
    (app/api/projects.py, approvals.py, requirements.py, documents.py). */
module RequestRules {
  import opened Vocabulary
  import opened Engine
  import opened WorkflowRules
  import opened Consultations
  import opened Workflow
  import Reminders
  import D = Decisions
  import R = RequirementStores
  import W = Drafting
  import X = Expansions
  import C = Capabilities

  datatype Action =
    | RunAnalysis(a: W.Analysis, sorting: Sorting)
    | AnswerQuestion(key: string, text: string, a: W.Analysis)
    | DecideRequirements(decision: ApprovalDecision, a: W.Analysis)
    | DecideReducedScope(decision: ApprovalDecision, scope: string, a: W.Analysis)
    | DecideExpansion(decision: ApprovalDecision)
    | AnswerConsultation(answer: Answer, a: W.Analysis)
    | EditIdea
    | Upload(docType: DocumentType)
    | AskExpert
    | CheckTimeout

  /** What the agents return: unknown requirements come with questions, and a block with its reasons. */
  ghost predicate FromAgents(action: Action) {
    match action
    case RunAnalysis(a, sorting) => W.Paired(a) && BlocksWithReason(sorting)
    case AnswerQuestion(_, _, a) => W.Paired(a)
    case DecideRequirements(_, a) => W.Paired(a)
    case DecideReducedScope(_, _, a) => W.Paired(a)
    case AnswerConsultation(_, a) => W.Paired(a)
    case _ => true
  }

  datatype Request = Request(project: ProjectId, action: Action)

  /** The configuration of a server. */
  datatype Setup = Setup(cfg: Config, plans: X.Plans, servers: map<string, X.Server>,
                         capabilities: seq<C.CapabilitySpec>, clash: W.Clash)

  /** The content of every table. */
  datatype Image = Image(
    db: Db,
    clock: int,
    stores: map<ProjectId, R.Store>,
    logs: map<ProjectId, seq<D.Decision>>,
    packages: map<ProjectId, seq<Consultation>>,
    market: Market)
  {
    function Project(q: ProjectId): Dossier {
      Dossier(ViewOf(db, ProjectSubject(q)), RowsOf(db, q),
              if q in stores then stores[q] else R.NOTHING,
              if q in logs then logs[q] else [],
              if q in packages then packages[q] else [])
    }
  }

  // ---------------------------------------------------------------- the answer

  predicate HasOpen(questions: seq<Question>) {
    exists q :: q in questions && q.answer.None?
  }

  /** A round of drafting would violate a unique constraint. */
  ghost predicate Collides(u: Setup, s: Dossier, table: seq<Question>, log: seq<D.Decision>, a: W.Analysis) {
    DraftCollides(s.store, table, log, a, u.clash)
  }

  ghost function Unless(collides: bool): Response {
    if collides then KeyCollision else Done
  }

  /** The answer to a request, from the project's earlier state. */
  ghost function ResponseTo(u: Setup, s: Dossier, action: Action): Response {
    var status, table := s.view.status, s.rows.questions;
    match action
    case RunAnalysis(a, sorting) =>
      if status != IdeaReceived && status != AutoBlockedByPolicy then WrongState
      else if !HasInput(s.rows) then GuardRefused
      else
        var drafts := sorting.gate == Proceed || (sorting.gate == NeedsExpert && Confirmed(s.rows));
        Unless(drafts && Collides(u, s, table, s.log, a))
    case AnswerQuestion(key, text, a) =>
      if status != WaitingRequirementInput || !IsOpenQuestion(table, key) then WrongState
      else
        var answered := WithAnswer(table, key, text);
        Unless(!HasOpen(answered) && Collides(u, s, answered, WithDecision(s, key, text), a))
    case DecideRequirements(decision, a) =>
      if status != WaitingRequirementApproval then WrongState
      else Unless(decision != Approved && Collides(u, s, table, s.log, a))
    case DecideReducedScope(decision, scope, a) =>
      if status != WaitingApproval then WrongState
      else Unless(decision == Approved && Collides(u, s, table, D.Add(s.log, "위험 기능을 제외한 축소 범위로 진행", scope), a))
    case DecideExpansion(_) => if status != WaitingExpansionApproval then WrongState else Done
    case AnswerConsultation(answer, a) =>
      if status != WaitingExpertConfirmation || answer.resolution.OtherDirection? then WrongState
      else
        var drafts := answer.resolution.AdjustScope? ||
                      (answer.resolution.Unblock? && Last(s.view.checkpoints) == Some(Classifying));
        Unless(drafts && Collides(u, s, table, s.log, a))
    case Upload(docType) => if docType == Idea || docType == Reference then Done else WrongState
    case EditIdea => Done
    case AskExpert => Done
    case CheckTimeout => Done
  }

  // ---------------------------------------------------------------- the effect

  /** The project stops in a state: its rows, its events and the packages it asked for. */
  ghost predicate Stops(s: Dossier, rows: ProjectRows, events: seq<Event>, status: State, asked: seq<Consultation>,
                        t: Dossier) {
    && t.rows == rows && t.store == s.store && t.log == s.log
    && t.view.status == status && EventsOf(t.view) == events
    && t.consultations == s.consultations + asked
  }

  /** The project has gone through a round of drafting: the requirements and questions that the round
      stores, and then the user's input or approval, whichever the open questions call for. */
  ghost predicate Redrafted(s: Dossier, rows: ProjectRows, events: seq<Event>, a: W.Analysis, clash: W.Clash,
                            t: Dossier) {
    && Stored(s.store, rows.questions, t.log, a, clash, t.store, t.rows.questions)
    && t.rows == rows.(questions := t.rows.questions) && t.consultations == s.consultations
    && if HasOpen(t.rows.questions) then
         t.view.status == WaitingRequirementInput && EventsOf(t.view) == events + [DraftHasUnknowns]
       else
         t.view.status == WaitingRequirementApproval && EventsOf(t.view) == events + [DraftCompleted]
  }

  function WithApproval(s: Dossier, kind: ApprovalType, decision: ApprovalDecision): ProjectRows {
    s.rows.(approvals := s.rows.approvals + [Approval(kind, decision)])
  }

  function WithDocuments(rows: ProjectRows, documents: seq<DocumentType>): ProjectRows {
    rows.(documents := rows.documents +
      seq(|documents|, i requires 0 <= i < |documents| => Document(Generated, documents[i])))
  }

  const PACKAGE := Consultation(ByPolicy, AnswerPending, [])

  /** An analysis: the classification is added, and its gate decides where the project stops. */
  ghost predicate Analyzed(s: Dossier, a: W.Analysis, sorting: Sorting, clash: W.Clash, t: Dossier) {
    var entry := if s.view.status == IdeaReceived then AnalysisStarted else AlternativeAccepted;
    var begun := EventsOf(s.view) + [entry, AnalysisCompleted];
    var added := Classification(sorting.gate, sorting.prohibited, Confirmed(s.rows));
    var rows := s.rows.(classifications := s.rows.classifications + [added]);
    && t.log == s.log
    && match sorting.gate
       case Proceed => Redrafted(s, rows, begun + [ClassifiedSelfService], a, clash, t)
       case NeedsExpert =>
         if Confirmed(s.rows) then Redrafted(s, rows, begun + [ExpertConfirmedProceed], a, clash, t)
         else Stops(s, rows, begun + [ClassifiedExpertReview], WaitingExpertConfirmation, [PACKAGE], t)
       case NeedsApproval => Stops(s, rows, begun + [ClassifiedAiAssisted], WaitingApproval, [], t)
       case GateBlocked => Stops(s, rows, begun + [ProhibitedScopeDetected], AutoBlockedByPolicy, [], t)
       case Unsupported => Stops(s, rows, begun + [ClassifiedUnsupported], Cancelled, [], t)
  }

  /** An approval of the requirements: the PRD, and then the backlog or what the decision on the missing
      capabilities calls for. */
  ghost predicate ApprovedToEnd(s: Dossier, missing: seq<string>, decision: PolicyDecision, t: Dossier) {
    var begun := EventsOf(s.view) + [RequirementsApproved, SpecCompleted];
    var approved := WithApproval(s, Requirements, Approved);
    var specified, ready := WithDocuments(approved, [Prd]), WithDocuments(approved, [Prd, Backlog]);
    if missing == [] then Stops(s, ready, begun + [NoGapFound, BacklogReadyExisting], ReadyForDevelopment, [], t)
    else
      match decision
      case AutoApprove =>
        var events := begun + [GapFound, ProposalAutoApproved, BacklogReadyExisting];
        Stops(s, ready, events, ReadyForDevelopment, [], t)
      case UserApproval =>
        Stops(s, specified, begun + [GapFound, ProposalNeedsUser], WaitingExpansionApproval, [], t)
      case ExpertRequired =>
        Stops(s, specified, begun + [GapFound, ProposalNeedsExpert], WaitingExpertConfirmation, [PACKAGE], t)
      case AutoBlocked =>
        Stops(s, specified, begun + [GapFound, ProposalBlocked], AutoBlockedByPolicy, [], t)
  }

  /** An expert's answer: it is recorded on the newest package, which is then applied, and its direction
      decides where the project goes. */
  ghost predicate Followed(p: ProjectId, s: Dossier, x: Market, answer: Answer, a: W.Analysis, clash: W.Clash,
                           t: Dossier, y: Market) {
    var n := |s.consultations|;
    && t.log == s.log && n > 0
    && var newest := s.consultations[n - 1];
    && var applied := Consultation(newest.trigger, AnswerApplied, newest.answers + [answer]);
    && var from := s.(consultations := s.consultations[n - 1 := applied]);
    && var events, confirmed := EventsOf(s.view), WithConfirmation(s.rows);
    && match answer.resolution
       case Stop => y == x && Stops(from, s.rows, events + [ExpertAnswerStops], Cancelled, [], t)
       case AdjustScope => y == x && Redrafted(from, s.rows, events + [ExpertAnswerAdjustsScope], a, clash, t)
       case Unblock =>
         && OnlyConfirmed(s.rows, confirmed)
         && if Last(s.view.checkpoints) == Some(Classifying) then
              y == x &&
              Redrafted(from, confirmed, events + [ExpertAnswerUnblocks, ExpertConfirmedProceed], a, clash, t)
            else
              && Last(s.view.checkpoints) == Some(ExpansionProposing) && Approves(p, x, y)
              && Stops(from, WithDocuments(confirmed, [Backlog]),
                       events + [ExpertAnswerUnblocks, ProposalAutoApproved, BacklogReadyExisting],
                       ReadyForDevelopment, [], t)
       case OtherDirection(_) => false
  }

  /** A timeout check: one reminder when the stay is overdue and has none yet. */
  ghost predicate Checked(u: Setup, p: ProjectId, s: Dossier, now: int, t: Dossier) {
    var v := s.view;
    var overdue :=
      && v.status in u.cfg.timeouts && v.log != []
      && now - v.log[|v.log| - 1].at > u.cfg.timeouts[v.status]
      && !Reminders.RemindedInStay(v.audit);
    var reminder := AuditRow(TimeoutNotified, ProjectSubject(p), None, v.status, Some(v.status), now);
    t == s.(view := v.(audit := v.audit + if overdue then [reminder] else []))
  }

  /** What a request that is done leaves of its project and of the market. */
  ghost predicate Shows(u: Setup, p: ProjectId, s: Dossier, x: Market, now: int, action: Action, t: Dossier,
                        y: Market) {
    var events := EventsOf(s.view);
    match action
    case RunAnalysis(a, sorting) => y == x && Analyzed(s, a, sorting, u.clash, t)
    case AnswerQuestion(key, text, a) =>
      var rows := s.rows.(questions := WithAnswer(s.rows.questions, key, text));
      && y == x && t.log == WithDecision(s, key, text)
      && if HasOpen(rows.questions) then t == s.(rows := rows, log := t.log)
         else Redrafted(s, rows, events + [UserAnswered], a, u.clash, t)
    case DecideRequirements(decision, a) =>
      if decision == Approved then
        var missing := GapOf(x, u.capabilities, a.capabilities);
        && ApprovedToEnd(s, missing, DecisionOn(u.plans, SeededServers(x.assets.servers, u.servers), missing), t)
        && y == Proposed(u.plans, u.servers, u.capabilities, p, x, a.capabilities)
        && (t.view.status == ReadyForDevelopment && "" !in y.assets.servers ==>
              C.Missing(y.assets.registry, a.capabilities) == [])
      else
        && y == x && t.log == s.log
        && Redrafted(s, WithApproval(s, Requirements, decision), events + [ChangesRequested], a, u.clash, t)
    case DecideReducedScope(decision, scope, a) =>
      var rows := WithApproval(s, ReducedScope, decision);
      && y == x
      && if decision == Approved then
           && t.log == D.Add(s.log, "위험 기능을 제외한 축소 범위로 진행", scope)
           && Redrafted(s, rows, events + [ApprovalGranted], a, u.clash, t)
         else Stops(s, rows, events + [ApprovalDenied], Cancelled, [], t)
    case DecideExpansion(decision) =>
      var rows := WithApproval(s, Expansion, decision);
      if decision == Approved then
        var done := events + [ExpansionApproved, BacklogReadyExisting];
        Approves(p, x, y) && Stops(s, WithDocuments(rows, [Backlog]), done, ReadyForDevelopment, [], t)
      else y == x && Stops(s, rows, events + [ExpansionDenied], ExpansionRejected, [], t)
    case AnswerConsultation(answer, a) => Followed(p, s, x, answer, a, u.clash, t, y)
    case EditIdea => y == x && t == s.(rows := s.rows.(hasIdea := true))
    case Upload(docType) =>
      y == x && t == s.(rows := s.rows.(documents := s.rows.documents + [Document(Uploaded, docType)]))
    case AskExpert => y == x && t == s.(consultations := s.consultations + [Consultation(ByUser, AnswerPending, [])])
    case CheckTimeout => y == x && Checked(u, p, s, now, t)
  }

  /** One served request: the answer follows from the earlier tables; a request that is done shows its
      effect on its project and leaves the others alone; any other changes nothing at all. */
  ghost predicate Served(u: Setup, b: Image, request: Request, r: Response, n: Image) {
    var p := request.project;
    && r == ResponseTo(u, b.Project(p), request.action)
    && if r == Done then
         && Shows(u, p, b.Project(p), b.market, b.clock, request.action, n.Project(p), n.market)
         && forall q :: q != p ==> n.Project(q) == b.Project(q)
       else n == b
  }

  // ---------------------------------------------------------------- from the workflow's contracts

  lemma DraftedShows(s: Dossier, rows: ProjectRows, events: seq<Event>, a: W.Analysis, clash: W.Clash, t: Dossier)
    requires Drafted(s.store, rows, events, a, clash, t) && t.consultations == s.consultations
    ensures Redrafted(s, rows, events, a, clash, t)
  {
    hide EventsOf, Stored;
    OpenMeansHasOpen(t.rows.questions);
  }

  lemma OpenMeansHasOpen(questions: seq<Question>)
    ensures HasOpen(questions) <==> AnyOpen(questions)
  {
    forall q: Question ensures q.answer.None? <==> IsOpen(q) {
    }
  }

  lemma SortedShows(s: Dossier, a: W.Analysis, sorting: Sorting, clash: W.Clash, t: Dossier)
    requires Sorted(s, EventsOf(s.view) + [EntryEvent(s.view.status), AnalysisCompleted], sorting.gate,
                    sorting.prohibited, a, clash, t)
    ensures Analyzed(s, a, sorting, clash, t)
  {
    hide EventsOf, Drafted, Redrafted, Confirmed;
    var confirmed := Confirmed(s.rows);
    if GoesOn(sorting.gate, confirmed) {
      var begun := EventsOf(s.view) + [EntryEvent(s.view.status), AnalysisCompleted];
      var rows := WithClassification(s.rows, sorting.gate, sorting.prohibited);
      DraftedShows(s, rows, begun + [GateEvent(sorting.gate, confirmed)], a, clash, t);
    }
  }

  lemma SpecifiedShows(s: Dossier, missing: seq<string>, decision: PolicyDecision, t: Dossier)
    requires
      var d := Decided(s, Requirements, Approved);
      Specified(d, EventsOf(d.view) + [RequirementsApproved], missing, decision, t)
    ensures ApprovedToEnd(s, missing, decision, t)
  {
    hide EventsOf;
    var approved := WithApproval(s, Requirements, Approved);
    assert approved == Decided(s, Requirements, Approved).rows;
    DocumentsAdded(approved);
    assert s.consultations + [] == s.consultations;
  }

  lemma DocumentsAdded(rows: ProjectRows)
    ensures WithDocuments(rows, [Prd]).documents == rows.documents + [Document(Generated, Prd)]
    ensures WithDocuments(rows, [Backlog]).documents == rows.documents + [Document(Generated, Backlog)]
    ensures WithDocuments(rows, [Prd, Backlog]).documents ==
            rows.documents + [Document(Generated, Prd)] + [Document(Generated, Backlog)]
  {}

  lemma WaitingParts(s: Dossier)
    requires Settled(s) && s.view.status == WaitingExpertConfirmation
    ensures s.consultations != [] && s.rows.classifications != []
  {
    hide Grounded, AnyOpen;
  }

  lemma FollowedShows(p: ProjectId, s: Dossier, x: Market, answer: Answer, a: W.Analysis, clash: W.Clash, t: Dossier,
                      y: Market)
    requires s.consultations != [] && !answer.resolution.OtherDirection? && s.rows.classifications != []
    requires AnswerFollowed(s, answer.resolution, a, clash, t) && t.log == s.log
    requires t.consultations == Answered(s.consultations, answer)
    requires answer.resolution.Unblock? && Last(s.view.checkpoints) == Some(ExpansionProposing) ==> Approves(p, x, y)
    requires !(answer.resolution.Unblock? && Last(s.view.checkpoints) == Some(ExpansionProposing)) ==> y == x
    ensures Followed(p, s, x, answer, a, clash, t, y)
  {
    hide EventsOf, Drafted, Redrafted, Approves;
    var from := s.(consultations := t.consultations);
    var confirmed := WithConfirmation(s.rows);
    assert from.consultations + [] == from.consultations;
    DocumentsAdded(confirmed);
    if answer.resolution.AdjustScope? {
      DraftedShows(from, s.rows, EventsOf(s.view) + [ExpertAnswerAdjustsScope], a, clash, t);
    } else if answer.resolution.Unblock? && Last(s.view.checkpoints) == Some(Classifying) {
      var events := EventsOf(s.view) + [ExpertAnswerUnblocks, ExpertConfirmedProceed];
      DraftedShows(from, confirmed, events, a, clash, t);
    }
  }

  lemma ExpansionShows(u: Setup, p: ProjectId, s: Dossier, x: Market, now: int, decision: ApprovalDecision, t: Dossier,
                       y: Market)
    requires
      var d := Decided(s, Expansion, decision);
      if decision == Approved then
        && Approves(p, x, y)
        && t == d.(view := t.view, rows := d.rows.(documents := d.rows.documents + [Document(Generated, Backlog)]))
        && t.view.status == ReadyForDevelopment
        && EventsOf(t.view) == EventsOf(d.view) + [ExpansionApproved, BacklogReadyExisting]
      else y == x && OnlyMoved(d, ExpansionDenied, ExpansionRejected, t)
    ensures Shows(u, p, s, x, now, DecideExpansion(decision), t, y) && Forward(s, t)
  {
    hide EventsOf, Approves;
    var d := Decided(s, Expansion, decision);
    DecidedForward(s, Expansion, decision);
    DocumentsAdded(d.rows);
    assert s.consultations + [] == s.consultations;
    if decision != Approved {
      OnlyMovedForward(d, ExpansionDenied, ExpansionRejected, t);
    }
    ForwardTransitive(s, d, t);
  }

  lemma ReducedScopeShows(u: Setup, p: ProjectId, s: Dossier, x: Market, now: int, decision: ApprovalDecision,
                          scope: string, a: W.Analysis, t: Dossier)
    requires
      var d := Decided(s, ReducedScope, decision);
      if decision == Approved then
        && Drafted(d.store, d.rows, EventsOf(d.view) + [ApprovalGranted], a, u.clash, t)
        && t.log == D.Add(d.log, REDUCED_SCOPE_TITLE, scope) && t.consultations == d.consultations
      else OnlyMoved(d, ApprovalDenied, Cancelled, t)
    ensures Shows(u, p, s, x, now, DecideReducedScope(decision, scope, a), t, x) && Forward(s, t)
  {
    hide EventsOf, Drafted, Redrafted, D.Add, Forward;
    var d := Decided(s, ReducedScope, decision);
    DecidedForward(s, ReducedScope, decision);
    if decision == Approved {
      LogGrows(s.log, REDUCED_SCOPE_TITLE, scope);
      DraftedForward(d, d.rows, EventsOf(d.view) + [ApprovalGranted], a, u.clash, t);
      DraftedShows(s, d.rows, EventsOf(s.view) + [ApprovalGranted], a, u.clash, t);
    } else {
      OnlyMovedForward(d, ApprovalDenied, Cancelled, t);
      assert s.consultations + [] == s.consultations;
    }
    ForwardTransitive(s, d, t);
  }

  lemma LogGrows(log: seq<D.Decision>, title: string, decision: string)
    ensures log <= D.Add(log, title, decision)
  {
    hide D.DecisionKey, D.Titled;
  }
}
