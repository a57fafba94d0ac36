/** What the product workflow keeps about a project between its operations, and the transitions it
    relies on (app/product/workflow.py). */
module WorkflowRules {
  import opened Vocabulary
  import opened Transitions
  import opened Engine
  import opened EngineRuns
  import opened Consultations
  import D = Decisions
  import R = RequirementStores
  import W = Drafting
  import Text

  /** Everything the tables hold about one project. */
  datatype Dossier = Dossier(
    view: View,
    rows: ProjectRows,
    store: R.Store,
    log: seq<D.Decision>,
    consultations: seq<Consultation>)

  function EventsOf(v: View): seq<Event> {
    seq(|v.log|, i requires 0 <= i < |v.log| => v.log[i].event)
  }

  /** The states in which a project waits for a user, an expert or a change, or has ended. */
  predicate AtRest(x: State) {
    x.IdeaReceived? || x.WaitingRequirementInput? || x.WaitingRequirementApproval? || x.WaitingApproval? ||
    x.WaitingExpertConfirmation? || x.WaitingExpansionApproval? || x.AutoBlockedByPolicy? ||
    x.ExpansionRejected? || x.Cancelled? || x.ReadyForDevelopment?
  }

  predicate NoActiveUnknown(store: R.Store) {
    forall k :: k in store.rows && store.rows[k].active ==> !store.rows[k].status.UnknownRequirement?
  }

  predicate GateIsBlocked(rows: ProjectRows) {
    LatestClassification(rows).Some? && LatestClassification(rows).value.gate == GateBlocked
  }

  /** Classified, and not blocked. */
  predicate Classified(rows: ProjectRows) {
    LatestClassification(rows).Some? && LatestClassification(rows).value.gate != GateBlocked
  }

  /** No expert review is asked for once an expert's answer has unblocked the project. */
  ghost predicate NoReviewAfterUnblock(events: seq<Event>) {
    forall i, j :: 0 <= i < j < |events| && events[i].ExpertAnswerUnblocks? ==> !events[j].ClassifiedExpertReview?
  }

  ghost predicate Unblocked(events: seq<Event>) {
    exists i :: 0 <= i < |events| && events[i].ExpertAnswerUnblocks?
  }

  /** What holds even between the events of one operation. */
  ghost predicate Grounded(d: Dossier) {
    && W.UniqueQuestions(d.rows.questions)
    && R.StoreOk(d.store)
    && D.Numbered(d.log)
    && NoReviewAfterUnblock(EventsOf(d.view))
    && (Unblocked(EventsOf(d.view)) ==> Confirmed(d.rows))
  }

  /** An expert's answer can be applied: there is a package to record it on, and a state to return to
      from which the workflow goes on. */
  predicate ExpertReady(d: Dossier) {
    && d.consultations != []
    && (Last(d.view.checkpoints) == Some(Classifying) || Last(d.view.checkpoints) == Some(ExpansionProposing))
  }

  /** What holds of every project between the operations of the workflow. */
  ghost predicate Settled(d: Dossier) {
    var status := d.view.status;
    && Grounded(d)
    && AtRest(status)
    && (AnyOpen(d.rows.questions) <==> status.WaitingRequirementInput?)
    && (status.WaitingRequirementApproval? ==> NoActiveUnknown(d.store))
    && (status.WaitingExpertConfirmation? ==> ExpertReady(d))
    && (!status.IdeaReceived? ==> LatestClassification(d.rows).Some?)
    && (GateIsBlocked(d.rows) ==> status.AutoBlockedByPolicy?)
  }

  const NEW_PROJECT := Dossier(View(IdeaReceived, [], [], []), NO_ROWS, R.NOTHING, [], [])

  lemma NewProjectIsSettled()
    ensures Settled(NEW_PROJECT)
  {}

  // ---------------------------------------------------------------- one event

  /** An event was applied to a project: its status, its log and perhaps its checkpoints changed. */
  ghost predicate Moved(s: Dossier, event: Event, to: State, t: Dossier) {
    && t == s.(view := t.view)
    && t.view.status == to
    && EventsOf(t.view) == EventsOf(s.view) + [event]
    && Last(t.view.checkpoints) ==
         if SavesCheckpoint(Product, s.view.status, to) then Some(s.view.status) else Last(s.view.checkpoints)
  }

  /** The event keeps the confirmations and reviews in order. */
  ghost predicate InOrder(s: Dossier, event: Event) {
    && (event.ExpertAnswerUnblocks? ==> Confirmed(s.rows))
    && (event.ClassifiedExpertReview? ==> !Unblocked(EventsOf(s.view)))
  }

  lemma ViewMoves(s: Dossier, c: Command, o: Outcome)
    requires c.subject.ProjectSubject? && o.Applied? && o.from == s.view.status
    ensures Moved(s, c.event, o.to, s.(view := NextView(s.view, c, o)))
  {
    hide SavesCheckpoint;
  }

  lemma MovedStaysGrounded(s: Dossier, event: Event, to: State, t: Dossier)
    requires Grounded(s) && InOrder(s, event) && Moved(s, event, to, t)
    ensures Grounded(t)
  {
    hide R.StoreOk, W.UniqueQuestions, SavesCheckpoint, EventsOf;
    var es := EventsOf(s.view);
    EventsStayInOrder(es, event);
  }

  lemma EventsStayInOrder(events: seq<Event>, event: Event)
    requires NoReviewAfterUnblock(events)
    requires event.ClassifiedExpertReview? ==> !Unblocked(events)
    ensures NoReviewAfterUnblock(events + [event])
    ensures Unblocked(events + [event]) <==> Unblocked(events) || event.ExpertAnswerUnblocks?
  {
    var next := events + [event];
    assert forall i :: 0 <= i < |events| ==> next[i] == events[i];
    assert next[|events|] == event;
  }

  // The transitions the workflow relies on: each event, fired where the workflow fires it, is applied.

  /** The engine's verdict on an event without context. */
  function Verdict(cfg: Config, d: Dossier, event: Event): Outcome {
    Judge(cfg, Product, d.view, d.rows, event, NO_CONTEXT)
  }

  lemma StartApplies(cfg: Config, d: Dossier, event: Event)
    requires
      || (d.view.status == IdeaReceived && event == AnalysisStarted)
      || (d.view.status == AutoBlockedByPolicy && event == AlternativeAccepted)
    ensures Verdict(cfg, d, event) ==
      if d.rows.hasIdea || HasUpload(d.rows) then Applied(d.view.status, DocumentAnalyzing)
      else Refused(d.view.status, DocumentAnalyzing)
  {
    hide WellPlaced, GatesHold, Entered, IsStateOf, HasUpload;
  }

  lemma AnalysisApplies(cfg: Config, d: Dossier)
    requires d.view.status == DocumentAnalyzing
    ensures Verdict(cfg, d, AnalysisCompleted) == Applied(DocumentAnalyzing, Classifying)
  {
    hide WellPlaced, GatesHold, Entered, IsStateOf;
  }

  function GateEvent(gate: Gate, confirmed: bool): Event {
    match gate
    case GateBlocked => ProhibitedScopeDetected
    case Unsupported => ClassifiedUnsupported
    case NeedsExpert => if confirmed then ExpertConfirmedProceed else ClassifiedExpertReview
    case NeedsApproval => ClassifiedAiAssisted
    case Proceed => ClassifiedSelfService
  }

  function GateEnd(gate: Gate, confirmed: bool): State {
    match gate
    case GateBlocked => AutoBlockedByPolicy
    case Unsupported => Cancelled
    case NeedsExpert => if confirmed then RequirementDrafting else WaitingExpertConfirmation
    case NeedsApproval => WaitingApproval
    case Proceed => RequirementDrafting
  }

  lemma GateApplies(cfg: Config, d: Dossier, gate: Gate)
    requires d.view.status == Classifying && LatestClassification(d.rows).Some?
    requires gate == GateBlocked ==> LatestClassification(d.rows).value.prohibited != []
    ensures Verdict(cfg, d, GateEvent(gate, Confirmed(d.rows))) ==
      Applied(Classifying, GateEnd(gate, Confirmed(d.rows)))
  {
    hide WellPlaced, GatesHold, Entered, IsStateOf;
  }

  lemma ProceedApplies(cfg: Config, d: Dossier)
    requires d.view.status == Classifying && Confirmed(d.rows)
    ensures Verdict(cfg, d, ExpertConfirmedProceed) == Applied(Classifying, RequirementDrafting)
  {
    hide WellPlaced, GatesHold, Entered, IsStateOf;
  }

  function DraftEvent(rows: ProjectRows): Event {
    if AnyOpen(rows.questions) then DraftHasUnknowns else DraftCompleted
  }

  function DraftEnd(rows: ProjectRows): State {
    if AnyOpen(rows.questions) then WaitingRequirementInput else WaitingRequirementApproval
  }

  lemma DraftApplies(cfg: Config, d: Dossier)
    requires d.view.status == RequirementDrafting
    ensures Verdict(cfg, d, DraftEvent(d.rows)) == Applied(RequirementDrafting, DraftEnd(d.rows))
  {
    hide WellPlaced, GatesHold, Entered, IsStateOf, AnyOpen;
  }

  lemma AnswerApplies(cfg: Config, d: Dossier)
    requires d.view.status == WaitingRequirementInput && AnyAnswered(d.rows.questions)
    ensures Verdict(cfg, d, UserAnswered) == Applied(WaitingRequirementInput, RequirementDrafting)
  {
    hide WellPlaced, GatesHold, Entered, IsStateOf, AnyAnswered;
  }

  lemma RequirementsDecisionApplies(cfg: Config, d: Dossier, decision: ApprovalDecision)
    requires d.view.status == WaitingRequirementApproval && Approval(Requirements, decision) in d.rows.approvals
    ensures Verdict(cfg, d, if decision == Approved then RequirementsApproved else ChangesRequested) ==
      Applied(WaitingRequirementApproval, if decision == Approved then SpecificationGenerating else RequirementDrafting)
  {
    hide WellPlaced, GatesHold, Entered, IsStateOf;
  }

  lemma ReducedScopeDecisionApplies(cfg: Config, d: Dossier, decision: ApprovalDecision)
    requires d.view.status == WaitingApproval && Approval(ReducedScope, decision) in d.rows.approvals
    ensures Verdict(cfg, d, if decision == Approved then ApprovalGranted else ApprovalDenied) ==
      Applied(WaitingApproval, if decision == Approved then RequirementDrafting else Cancelled)
  {
    hide WellPlaced, GatesHold, Entered, IsStateOf;
  }

  lemma ExpansionDecisionApplies(cfg: Config, d: Dossier, decision: ApprovalDecision)
    requires d.view.status == WaitingExpansionApproval && Approval(Expansion, decision) in d.rows.approvals
    ensures Verdict(cfg, d, if decision == Approved then ExpansionApproved else ExpansionDenied) ==
      Applied(WaitingExpansionApproval, if decision == Approved then BacklogGenerating else ExpansionRejected)
  {
    hide WellPlaced, GatesHold, Entered, IsStateOf;
  }

  lemma SpecificationApplies(cfg: Config, d: Dossier)
    requires d.view.status == SpecificationGenerating && HasGenerated(d.rows, Prd)
    ensures Verdict(cfg, d, SpecCompleted) == Applied(SpecificationGenerating, CapabilityAnalyzing)
  {
    hide WellPlaced, GatesHold, Entered, IsStateOf, HasGenerated;
  }

  lemma GapApplies(cfg: Config, d: Dossier, missing: seq<string>)
    requires d.view.status == CapabilityAnalyzing
    ensures
      var event := if missing == [] then NoGapFound else GapFound;
      Judge(cfg, Product, d.view, d.rows, event, Context(Some(missing), None)) ==
      Applied(CapabilityAnalyzing, if missing == [] then BacklogGenerating else ExpansionProposing)
  {
    hide WellPlaced, GatesHold, Entered, IsStateOf;
  }

  lemma BacklogApplies(cfg: Config, d: Dossier)
    requires d.view.status == BacklogGenerating && HasGenerated(d.rows, Backlog)
    ensures Verdict(cfg, d, BacklogReadyExisting) == Applied(BacklogGenerating, ReadyForDevelopment)
  {
    hide WellPlaced, GatesHold, Entered, IsStateOf, HasGenerated;
  }

  function ProposalEvent(decision: PolicyDecision): Event {
    match decision
    case AutoApprove => ProposalAutoApproved
    case UserApproval => ProposalNeedsUser
    case ExpertRequired => ProposalNeedsExpert
    case AutoBlocked => ProposalBlocked
  }

  function ProposalEnd(decision: PolicyDecision): State {
    match decision
    case AutoApprove => BacklogGenerating
    case UserApproval => WaitingExpansionApproval
    case ExpertRequired => WaitingExpertConfirmation
    case AutoBlocked => AutoBlockedByPolicy
  }

  lemma ProposalApplies(cfg: Config, d: Dossier, decision: PolicyDecision)
    requires d.view.status == ExpansionProposing
    ensures Judge(cfg, Product, d.view, d.rows, ProposalEvent(decision), Context(None, Some(decision))) ==
      Applied(ExpansionProposing, ProposalEnd(decision))
  {
    hide WellPlaced, GatesHold, Entered, IsStateOf;
  }

  /** An expert's answer is applied whatever it decides; unblocking needs the confirmation and leads
      back to the latest checkpoint. */
  lemma ExpertAnswerApplies(cfg: Config, d: Dossier, event: Event)
    requires d.view.status == WaitingExpertConfirmation
    ensures event == ExpertAnswerStops ==> Verdict(cfg, d, event) == Applied(WaitingExpertConfirmation, Cancelled)
    ensures event == ExpertAnswerAdjustsScope ==>
      Verdict(cfg, d, event) == Applied(WaitingExpertConfirmation, RequirementDrafting)
    ensures event == ExpertAnswerUnblocks && Confirmed(d.rows) && Last(d.view.checkpoints).Some? ==>
      Verdict(cfg, d, event) == Applied(WaitingExpertConfirmation, Last(d.view.checkpoints).value)
  {
    hide WellPlaced, GatesHold, Entered, IsStateOf;
  }

  // ---------------------------------------------------------------- drafting

  /** The conflicts that the detector finds between the active decisions and the drafts of a round. */
  function Detected(log: seq<D.Decision>, table: seq<Question>, a: W.Analysis, clash: W.Clash): seq<W.Conflict> {
    W.FindConflicts(D.ListActive(log), W.DraftsFor(a, table), clash)
  }

  /** The unique constraints refuse the drafts or the conflict questions. */
  ghost predicate DraftCollides(store: R.Store, table: seq<Question>, log: seq<D.Decision>, a: W.Analysis,
                                clash: W.Clash) {
    || R.NewKeyTwice(store.rows.Keys, W.DraftsFor(a, table))
    || W.Asked(a, table, Detected(log, table, a, clash)).None?
  }

  /** From a store, a question table and a decision log, the requirements follow the refined analysis
      and the new questions are stored. */
  ghost predicate Stored(store: R.Store, table: seq<Question>, log: seq<D.Decision>, a: W.Analysis, clash: W.Clash,
                         newStore: R.Store, newTable: seq<Question>) {
    && R.Synced(store, W.DraftsFor(a, table), newStore)
    && W.Asked(a, table, Detected(log, table, a, clash)) == Some(newTable)
  }

  /** One round of drafting on a store and rows, against the decisions logged so far: what it stores,
      and the event after which the project waits for answers exactly when a question is open. */
  ghost predicate Drafted(store: R.Store, rows: ProjectRows, events: seq<Event>, a: W.Analysis, clash: W.Clash,
                          t: Dossier) {
    && Stored(store, rows.questions, t.log, a, clash, t.store, t.rows.questions)
    && t.rows == rows.(questions := t.rows.questions)
    && t.view.status == DraftEnd(t.rows)
    && EventsOf(t.view) == events + [DraftEvent(t.rows)]
  }

  lemma GroundedParts(d: Dossier)
    requires Grounded(d)
    ensures W.UniqueQuestions(d.rows.questions) && R.StoreOk(d.store) && D.Numbered(d.log)
    ensures Unblocked(EventsOf(d.view)) ==> Confirmed(d.rows)
  {
    hide W.UniqueQuestions, R.StoreOk, D.Numbered;
  }

  /** The question table with the cards of a round. */
  function WithCards(table: seq<Question>, a: W.Analysis): seq<Question> {
    W.Upserted(table, W.Cards(W.StillOpen(a.questions, W.AnswersOf(table))))
  }

  lemma CollisionParts(store: R.Store, table: seq<Question>, log: seq<D.Decision>, a: W.Analysis, clash: W.Clash)
    ensures
      var drafts := W.Refined(a, W.AnswersOf(table));
      DraftCollides(store, table, log, a, clash) <==>
        || R.NewKeyTwice(store.rows.Keys, drafts)
        || W.WithConflicts(WithCards(table, a), W.FindConflicts(D.ListActive(log), drafts, clash)).None?
  {
    hide R.NewKeyTwice, W.WithConflicts, W.Upserted, W.Cards, W.StillOpen, W.AnswersOf, W.Refined, W.FindConflicts,
         D.ListActive;
  }

  lemma CardsStayUnique(table: seq<Question>, a: W.Analysis)
    requires W.UniqueQuestions(table)
    ensures W.UniqueQuestions(WithCards(table, a))
  {
    hide W.UniqueQuestions, W.Upserted, W.Cards, W.StillOpen, W.AnswersOf, W.CardsUnique, W.HasQuestion;
    var open := W.StillOpen(a.questions, W.AnswersOf(table));
    W.CardsAreUnique(open);
    W.UpsertAdds(table, W.Cards(open));
  }

  lemma OnlyConflictsCollide(store: R.Store, table: seq<Question>, log: seq<D.Decision>, a: W.Analysis, clash: W.Clash)
    requires R.DistinctKeys(a.requirements)
    ensures DraftCollides(store, table, log, a, clash) <==>
      W.WithConflicts(WithCards(table, a), Detected(log, table, a, clash)).None?
  {
    hide W.Refined, W.WithConflicts, WithCards, W.AnswersOf, W.FindConflicts, D.ListActive;
    CollisionParts(store, table, log, a, clash);
    W.RefinedKeys(a, W.AnswersOf(table));
  }

  /** With distinct requirement keys, as the core agent numbers them, a round of drafting fails exactly
      when, under a question key that is not stored, two pairs of an active decision and a draft clash. */
  lemma RoundCollidesExactly(store: R.Store, table: seq<Question>, log: seq<D.Decision>, a: W.Analysis, clash: W.Clash)
    requires R.DistinctKeys(a.requirements) && W.UniqueQuestions(table)
    ensures DraftCollides(store, table, log, a, clash) <==>
      exists key :: !W.HasQuestion(WithCards(table, a), key) &&
                    W.ClashingUnder(D.ListActive(log), W.DraftsFor(a, table), clash, key) >= 2
  {
    hide WithCards, W.WithConflicts, W.ClashingUnder, W.DraftsFor, W.FindConflicts, W.HasQuestion,
         W.UniqueQuestions, D.ListActive, DraftCollides;
    OnlyConflictsCollide(store, table, log, a, clash);
    CardsStayUnique(table, a);
    W.DetectedCollideExactly(WithCards(table, a), D.ListActive(log), W.DraftsFor(a, table), clash);
  }

  /** While decision numbers have at most seventeen digits, so that question keys are not cut, that is
      exactly when some active decision without a stored question clashes with two drafts. */
  lemma RoundCollidesOnOneDecision(store: R.Store, table: seq<Question>, log: seq<D.Decision>, a: W.Analysis,
                                   clash: W.Clash)
    requires R.DistinctKeys(a.requirements) && W.UniqueQuestions(table)
    requires D.Numbered(log) && |log| < Text.Pow10(17)
    ensures DraftCollides(store, table, log, a, clash) <==>
      exists d :: d in log && d.active && !W.HasQuestion(WithCards(table, a), W.QuestionKeyFor(d.key)) &&
                  W.ClashTwice(d, W.DraftsFor(a, table), clash)
  {
    hide WithCards, W.WithConflicts, W.ClashTwice, W.DraftsFor, W.FindConflicts, W.HasQuestion, W.UniqueQuestions,
         D.ListActive, D.Numbered, DraftCollides, W.QuestionKeyFor, W.KeysApart, Text.Pow10;
    OnlyConflictsCollide(store, table, log, a, clash);
    CardsStayUnique(table, a);
    W.ListedKeysApart(log);
    W.DecisionClashesTwice(WithCards(table, a), D.ListActive(log), W.DraftsFor(a, table), clash);
    forall d ensures d in D.ListActive(log) <==> d in log && d.active {
      D.ListedFromLog(log, d);
    }
  }

  const TWO_DRAFTS := W.Analysis(
    [R.Draft("FR-001", "the report is stored", R.ConfirmedRequirement, R.Functional, None),
     R.Draft("FR-002", "the stored report is sent", R.ConfirmedRequirement, R.Functional, None)], [], [])

  const ANY_CLASH: W.Clash := (d, r) => true

  /** Such a round arises from one logged decision and an analysis of two requirements without any
      question, when the detector finds that both overlap with the decision. */
  lemma CollisionArises(title: string, decision: string)
    ensures DraftCollides(R.NOTHING, [], D.Add([], title, decision), TWO_DRAFTS, ANY_CLASH)
  {
    hide D.DecisionKey, D.Titled, Text.Pow10, W.QuestionKeyFor, W.AnswerFor, W.Supplements, DraftCollides;
    var log := D.Add([], title, decision);
    var drafts := W.DraftsFor(TWO_DRAFTS, []);
    var promoted := W.PromotedAll(TWO_DRAFTS, W.AnswersOf([]));
    assert |promoted| == 2 && drafts[0] == promoted[0] && drafts[1] == promoted[1];
    assert W.ClashTwice(log[0], drafts, ANY_CLASH);
    assert WithCards([], TWO_DRAFTS) == [];
    Text.Seventeen();
    RoundCollidesOnOneDecision(R.NOTHING, [], log, TWO_DRAFTS, ANY_CLASH);
    assert log[0] in log;
  }

  lemma StoredStaysGrounded(s: Dossier, a: W.Analysis, clash: W.Clash, store: R.Store, asked: seq<Question>)
    requires Grounded(s) && R.Synced(s.store, W.Refined(a, W.AnswersOf(s.rows.questions)), store)
    requires
      var table := s.rows.questions;
      var drafts := W.Refined(a, W.AnswersOf(table));
      W.WithConflicts(WithCards(table, a), W.FindConflicts(D.ListActive(s.log), drafts, clash)) == Some(asked)
    ensures Stored(s.store, s.rows.questions, s.log, a, clash, store, asked)
    ensures Grounded(s.(store := store, rows := s.rows.(questions := asked)))
  {
    hide W.WithConflicts, W.Upserted, W.Cards, W.StillOpen, W.AnswersOf, W.Refined, W.UniqueQuestions, R.StoreOk,
         R.Synced, EventsOf, NoReviewAfterUnblock, Unblocked, W.FindConflicts, D.ListActive, D.Numbered;
    R.SyncMirrorsDrafts(s.store, W.DraftsFor(a, s.rows.questions), store);
    W.AskedKeepsQuestions(a, s.rows.questions, Detected(s.log, s.rows.questions, a, clash));
  }

  /** When a round of drafting leaves no question open, no active requirement is UNKNOWN. */
  lemma DraftLeavesNoUnknown(store: R.Store, table: seq<Question>, log: seq<D.Decision>, a: W.Analysis, clash: W.Clash,
                             newStore: R.Store, newTable: seq<Question>)
    requires W.Paired(a) && R.StoreOk(store) && W.UniqueQuestions(table)
    requires Stored(store, table, log, a, clash, newStore, newTable) && !AnyOpen(newTable)
    ensures NoActiveUnknown(newStore)
  {
    hide W.Paired, W.UniqueQuestions, R.StoreOk, W.Asked, R.Synced, W.DraftsFor, R.LastDraft, Detected;
    var drafts := W.DraftsFor(a, table);
    R.SyncMirrorsDrafts(store, drafts, newStore);
    W.NoOpenQuestionNoUnknown(a, table, Detected(log, table, a, clash));
    forall k | k in newStore.rows && newStore.rows[k].active ensures !newStore.rows[k].status.UnknownRequirement? {
      R.LastDraftInKeys(drafts, k);
    }
  }

  /** What a round of drafting stores for a requirement of the analysis: CONFIRMED, with the user's answer
      after the analysis' description, when the answered questions about it all say `x`; as the analysis
      has it when no question about it is answered. Everything else about it is the analysis'. */
  lemma RequirementStored(store: R.Store, table: seq<Question>, log: seq<D.Decision>, a: W.Analysis, clash: W.Clash,
                          newStore: R.Store, newTable: seq<Question>, r: R.Draft)
    requires R.StoreOk(store) && W.UniqueQuestions(table)
    requires R.DistinctKeys(a.requirements) && r in a.requirements
    requires Stored(store, table, log, a, clash, newStore, newTable)
    ensures
      && r.key in newStore.rows
      && var row := newStore.rows[r.key];
      && row.active && row.category == r.category && row.priority == r.priority
      && (forall x :: W.IsOnlyAnswer(a, table, r.key, x) ==>
            row.status == R.ConfirmedRequirement && row.description == r.description + " — 사용자 답변: " + x)
      && (W.IsUnanswered(a, table, r.key) ==> row.status == r.status && row.description == r.description)
  {
    hide R.StoreOk, W.UniqueQuestions, R.Synced, W.Asked, Detected, W.Refined, W.AnswersOf, W.AnswerFor, W.Promoted,
         W.IsOnlyAnswer, W.IsUnanswered, R.LastDraft, R.DistinctKeys;
    var drafts := W.DraftsFor(a, table);
    var p := W.Promoted(r, W.AnswerFor(a.questions, W.AnswersOf(table), r.key));
    W.PromotedWithTheAnswer(a, table, r);
    W.RefinedKeys(a, W.AnswersOf(table));
    R.SyncMirrorsDrafts(store, drafts, newStore);
    var i :| 0 <= i < |drafts| && drafts[i] == p;
    R.LastDraftOfDistinct(drafts, i);
    assert p.key in R.Keys(drafts);
  }

  /** And for a standard supplement whose key the analysis does not use: an INFERRED requirement with the
      supplement's description. */
  lemma SupplementStored(store: R.Store, table: seq<Question>, log: seq<D.Decision>, a: W.Analysis, clash: W.Clash,
                         newStore: R.Store, newTable: seq<Question>, d: R.Draft)
    requires R.StoreOk(store) && R.DistinctKeys(a.requirements)
    requires Stored(store, table, log, a, clash, newStore, newTable)
    requires d in W.SUPPLEMENTS && d.key !in R.Keys(a.requirements)
    ensures
      && d.key in newStore.rows
      && var row := newStore.rows[d.key];
      && row.active && row.status == R.InferredRequirement && row.priority == Some("MEDIUM")
      && row.description == d.description && row.category == d.category
  {
    hide R.StoreOk, R.Synced, W.Asked, Detected, W.Refined, W.AnswersOf, R.LastDraft, R.DistinctKeys, W.PromotedAll;
    var drafts, answers := W.DraftsFor(a, table), W.AnswersOf(table);
    W.RefinedKeys(a, answers);
    W.SupplementRefined(a, answers, d);
    W.SupplementKeys();
    R.SyncMirrorsDrafts(store, drafts, newStore);
    var i :| 0 <= i < |drafts| && drafts[i] == d;
    R.LastDraftOfDistinct(drafts, i);
    assert d.key in R.Keys(drafts);
  }

  /** After its event a stored draft is at rest. */
  lemma {:induction false} DraftSettles(s: Dossier, a: W.Analysis, clash: W.Clash, mid: Dossier, t: Dossier)
    requires W.Paired(a) && Grounded(s) && Classified(s.rows)
    requires Stored(s.store, s.rows.questions, s.log, a, clash, mid.store, mid.rows.questions) && Grounded(t)
    requires mid == s.(store := mid.store, rows := s.rows.(questions := mid.rows.questions))
    requires Moved(mid, DraftEvent(mid.rows), DraftEnd(mid.rows), t)
    ensures Drafted(s.store, s.rows, EventsOf(s.view), a, clash, t) && Settled(t)
  {
    hide W.Paired, Grounded, Stored, EventsOf, AnyOpen;
    GroundedParts(s);
    if !AnyOpen(mid.rows.questions) {
      DraftLeavesNoUnknown(s.store, s.rows.questions, s.log, a, clash, mid.store, mid.rows.questions);
    }
  }

  // ---------------------------------------------------------------- analysis

  /** Drafting follows the gate at once. */
  predicate GoesOn(gate: Gate, confirmed: bool) {
    gate == Proceed || (gate == NeedsExpert && confirmed)
  }

  function WithClassification(rows: ProjectRows, gate: Gate, prohibited: seq<string>): ProjectRows {
    rows.(classifications := rows.classifications + [Classification(gate, prohibited, Confirmed(rows))])
  }

  /** A new classification inherits the expert's confirmation. */
  lemma ClassificationInherits(rows: ProjectRows, gate: Gate, prohibited: seq<string>)
    ensures
      var next := WithClassification(rows, gate, prohibited);
      && LatestClassification(next) == Some(Classification(gate, prohibited, Confirmed(rows)))
      && Confirmed(next) == Confirmed(rows)
      && GateIsBlocked(next) == (gate == GateBlocked)
  {}

  /** What an analysis leaves behind: the classification, and then either one round of drafting or
      the state the gate leads to, with a consultation when it asks for an expert. */
  ghost predicate Sorted(s: Dossier, events: seq<Event>, gate: Gate, prohibited: seq<string>, a: W.Analysis,
                         clash: W.Clash, t: Dossier) {
    var confirmed := Confirmed(s.rows);
    var rows := WithClassification(s.rows, gate, prohibited);
    && t.log == s.log
    && if GoesOn(gate, confirmed) then
         t.consultations == s.consultations &&
         Drafted(s.store, rows, events + [GateEvent(gate, confirmed)], a, clash, t)
       else
         && t.rows == rows && t.store == s.store
         && t.view.status == GateEnd(gate, confirmed)
         && EventsOf(t.view) == events + [GateEvent(gate, confirmed)]
         && t.consultations == s.consultations +
              if gate == NeedsExpert then [Consultation(ByPolicy, AnswerPending, [])] else []
  }

  lemma ClassifyingKeeps(s: Dossier, gate: Gate, prohibited: seq<string>)
    requires Grounded(s)
    ensures Grounded(s.(rows := WithClassification(s.rows, gate, prohibited)))
    ensures KeepsRecords(s.rows, WithClassification(s.rows, gate, prohibited))
  {
    hide R.StoreOk, W.UniqueQuestions, EventsOf, NoReviewAfterUnblock, Unblocked;
    ClassificationInherits(s.rows, gate, prohibited);
  }

  lemma ConsultingKeeps(s: Dossier, consultations: seq<Consultation>)
    requires Grounded(s)
    ensures Grounded(s.(consultations := consultations))
  {
    hide R.StoreOk, W.UniqueQuestions, EventsOf, NoReviewAfterUnblock, Unblocked;
  }

  /** Where the gate stops a project, it is at rest. */
  lemma GateSettles(s: Dossier, gate: Gate, prohibited: seq<string>, consultations: seq<Consultation>, t: Dossier)
    requires Grounded(t) && !AnyOpen(s.rows.questions) && !GoesOn(gate, Confirmed(s.rows))
    requires s.view.status == Classifying && (gate == NeedsExpert ==> consultations != [])
    requires
      var rows := WithClassification(s.rows, gate, prohibited);
      Moved(s.(rows := rows, consultations := consultations), GateEvent(gate, Confirmed(s.rows)),
            GateEnd(gate, Confirmed(s.rows)), t)
    ensures Settled(t)
  {
    hide Grounded, AnyOpen, EventsOf;
    ClassificationInherits(s.rows, gate, prohibited);
  }

  function EntryEvent(status: State): Event {
    if status == IdeaReceived then AnalysisStarted else AlternativeAccepted
  }

  // ---------------------------------------------------------------- answers

  /** The question of a key, answered. */
  function WithAnswer(table: seq<Question>, key: string, answer: string): seq<Question> {
    seq(|table|, i requires 0 <= i < |table| =>
      if table[i].key == key then table[i].(answer := Some(answer)) else table[i])
  }

  lemma AnsweringKeeps(d: Dossier, i: nat, answer: string)
    requires Grounded(d) && i < |d.rows.questions|
    ensures
      var table := d.rows.questions;
      var next := table[i := table[i].(answer := Some(answer))];
      && next == WithAnswer(table, table[i].key, answer)
      && AnyAnswered(next)
      && Grounded(d.(rows := d.rows.(questions := next)))
  {
    hide R.StoreOk, EventsOf, NoReviewAfterUnblock, Unblocked;
    var table := d.rows.questions;
    var next := table[i := table[i].(answer := Some(answer))];
    assert next[i] in next && !IsOpen(next[i]);
  }

  // ---------------------------------------------------------------- specification and expansion

  /** Nothing is asked of the user and the classification lets the project go on. */
  predicate Calm(d: Dossier) {
    !AnyOpen(d.rows.questions) && Classified(d.rows)
  }

  lemma RecordingKeeps(d: Dossier, documents: seq<Document>, approvals: seq<Approval>)
    requires Grounded(d) && d.rows.documents <= documents && d.rows.approvals <= approvals
    ensures
      var rows := d.rows.(documents := documents, approvals := approvals);
      Grounded(d.(rows := rows)) && KeepsRecords(d.rows, rows)
  {
    hide R.StoreOk, W.UniqueQuestions, EventsOf, NoReviewAfterUnblock, Unblocked;
  }

  lemma LoggingKeeps(d: Dossier, title: string, decision: string)
    requires Grounded(d)
    ensures Grounded(d.(log := D.Add(d.log, title, decision)))
  {
    hide D.DecisionKey, R.StoreOk, W.UniqueQuestions, EventsOf, NoReviewAfterUnblock, Unblocked;
  }

  /** Wherever a calm project stops other than for requirements, it is at rest. */
  lemma CalmSettles(d: Dossier)
    requires Grounded(d) && Calm(d) && AtRest(d.view.status)
    requires !d.view.status.WaitingRequirementInput? && !d.view.status.WaitingRequirementApproval?
    requires d.view.status.WaitingExpertConfirmation? ==> ExpertReady(d)
    ensures Settled(d)
  {
    hide Grounded, AnyOpen;
  }

  lemma SettledParts(d: Dossier)
    requires Settled(d)
    ensures Grounded(d)
    ensures AnyOpen(d.rows.questions) <==> d.view.status.WaitingRequirementInput?
    ensures d.view.status.WaitingExpertConfirmation? ==> ExpertReady(d)
    ensures !d.view.status.IdeaReceived? && !d.view.status.AutoBlockedByPolicy? ==> Classified(d.rows)
  {
    hide Grounded, AnyOpen;
  }

  function ProposalChain(decision: PolicyDecision): seq<Event> {
    [ProposalEvent(decision)] + if decision == AutoApprove then [BacklogReadyExisting] else []
  }

  function SpecificationChain(missing: seq<string>, decision: PolicyDecision): seq<Event> {
    [SpecCompleted] + if missing == [] then [NoGapFound, BacklogReadyExisting] else [GapFound] + ProposalChain(decision)
  }

  /** Where a decision on the missing capabilities leads in the end. */
  function DecisionEnd(decision: PolicyDecision): State {
    if decision == AutoApprove then ReadyForDevelopment else ProposalEnd(decision)
  }

  /** What a decision on the missing capabilities leaves behind. */
  ghost predicate Resolved(s: Dossier, events: seq<Event>, decision: PolicyDecision, t: Dossier) {
    && t.view.status == DecisionEnd(decision)
    && EventsOf(t.view) == events + ProposalChain(decision)
    && t.rows == s.rows.(documents := s.rows.documents + if decision == AutoApprove then [Document(Generated,
        Backlog)] else [])
    && t.store == s.store && t.log == s.log
    && t.consultations == s.consultations +
         if decision == ExpertRequired then [Consultation(ByPolicy, AnswerPending, [])] else []
  }

  /** What the specification leaves behind: a PRD, then the backlog when no capability is missing, and
      otherwise what the decision on the missing ones says. */
  ghost predicate Specified(s: Dossier, events: seq<Event>, missing: seq<string>, decision: PolicyDecision,
      t: Dossier) {
    var withPrd := s.rows.(documents := s.rows.documents + [Document(Generated, Prd)]);
    if missing == [] then
      && t.view.status == ReadyForDevelopment
      && EventsOf(t.view) == events + SpecificationChain(missing, decision)
      && t == s.(view := t.view, rows := withPrd.(documents := withPrd.documents + [Document(Generated, Backlog)]))
    else
      Resolved(s.(rows := withPrd), events + [SpecCompleted, GapFound], decision, t)
  }

  lemma AutoResolves(s: Dossier, mid: Dossier, t: Dossier)
    requires Moved(s, ProposalAutoApproved, BacklogGenerating, mid)
    requires
      var documents := mid.rows.documents + [Document(Generated, Backlog)];
      t == mid.(view := t.view, rows := mid.rows.(documents := documents))
    requires t.view.status == ReadyForDevelopment && EventsOf(t.view) == EventsOf(mid.view) + [BacklogReadyExisting]
    ensures Resolved(s, EventsOf(s.view), AutoApprove, t)
  {
    hide EventsOf;
    assert EventsOf(t.view) == EventsOf(s.view) + ProposalChain(AutoApprove);
  }

  lemma OtherResolves(s: Dossier, decision: PolicyDecision, mid: Dossier, t: Dossier)
    requires decision != AutoApprove && s.view.status == ExpansionProposing && Calm(s) && Grounded(t)
    requires mid.consultations == s.consultations +
      if decision == ExpertRequired then [Consultation(ByPolicy, AnswerPending, [])] else []
    requires mid == s.(consultations := mid.consultations)
    requires Moved(mid, ProposalEvent(decision), ProposalEnd(decision), t)
    ensures Resolved(s, EventsOf(s.view), decision, t) && Settled(t)
  {
    hide EventsOf, Settled, Grounded, AnyOpen;
    assert ProposalChain(decision) == [ProposalEvent(decision)];
    assert s.rows.documents + [] == s.rows.documents;
    CalmSettles(t);
  }

  /** The project with its PRD written and the specification completed. */
  ghost predicate PrdWritten(s: Dossier, t: Dossier) {
    && t == s.(view := t.view, rows := s.rows.(documents := s.rows.documents + [Document(Generated, Prd)]))
    && t.view.status == CapabilityAnalyzing
    && EventsOf(t.view) == EventsOf(s.view) + [SpecCompleted]
  }

  lemma GapSpecifies(s: Dossier, prd: Dossier, mid: Dossier, missing: seq<string>, decision: PolicyDecision, t: Dossier)
    requires PrdWritten(s, prd) && Moved(prd, GapFound, ExpansionProposing, mid) && missing != []
    requires Resolved(mid, EventsOf(mid.view), decision, t)
    ensures Specified(s, EventsOf(s.view), missing, decision, t)
  {
    hide EventsOf;
    assert EventsOf(mid.view) == EventsOf(s.view) + [SpecCompleted, GapFound];
  }

  lemma NoGapSpecifies(s: Dossier, prd: Dossier, mid: Dossier, decision: PolicyDecision, t: Dossier)
    requires PrdWritten(s, prd) && Moved(prd, NoGapFound, BacklogGenerating, mid)
    requires
      var documents := mid.rows.documents + [Document(Generated, Backlog)];
      t == mid.(view := t.view, rows := mid.rows.(documents := documents))
    requires t.view.status == ReadyForDevelopment && EventsOf(t.view) == EventsOf(mid.view) + [BacklogReadyExisting]
    ensures Specified(s, EventsOf(s.view), [], decision, t)
  {
    hide EventsOf;
    assert EventsOf(t.view) == EventsOf(s.view) + SpecificationChain([], decision);
  }

  lemma MovedParts(s: Dossier, event: Event, to: State, t: Dossier)
    requires Moved(s, event, to, t)
    ensures t == s.(view := t.view) && t.view.status == to && EventsOf(t.view) == EventsOf(s.view) + [event]
  {
    hide EventsOf, SavesCheckpoint;
  }

  lemma PrdParts(s: Dossier, t: Dossier)
    requires PrdWritten(s, t)
    ensures t.view.status == CapabilityAnalyzing && (Calm(s) ==> Calm(t))
  {
    hide EventsOf, AnyOpen;
  }

  lemma SpecifiedEnd(s: Dossier, events: seq<Event>, missing: seq<string>, decision: PolicyDecision, t: Dossier)
    requires Specified(s, events, missing, decision, t)
    ensures t.view.status == if missing == [] then ReadyForDevelopment else DecisionEnd(decision)
  {
    hide EventsOf;
  }

  // ---------------------------------------------------------------- decisions of the user

  /** The project with one more approval record. */
  function Decided(s: Dossier, kind: ApprovalType, decision: ApprovalDecision): Dossier {
    s.(rows := s.rows.(approvals := s.rows.approvals + [Approval(kind, decision)]))
  }

  lemma DecidedParts(s: Dossier, kind: ApprovalType, decision: ApprovalDecision)
    ensures Approval(kind, decision) in Decided(s, kind, decision).rows.approvals
    ensures Decided(s, kind, decision).rows.questions == s.rows.questions
    ensures Calm(s) ==> Calm(Decided(s, kind, decision))
  {
    hide AnyOpen;
  }

  /** Only the records count for what a specification leaves behind, not the view it starts from. */
  lemma SpecifiedFromAnyView(s: Dossier, view: View, events: seq<Event>, missing: seq<string>,
      decision: PolicyDecision, t: Dossier)
    requires Specified(s.(view := view), events, missing, decision, t)
    ensures Specified(s, events, missing, decision, t)
  {
    hide EventsOf;
  }

  /** Nothing but the status, by one event. */
  ghost predicate OnlyMoved(s: Dossier, event: Event, to: State, t: Dossier) {
    t == s.(view := t.view) && t.view.status == to && EventsOf(t.view) == EventsOf(s.view) + [event]
  }

  lemma CalmEventSettles(s: Dossier, event: Event, to: State, t: Dossier)
    requires Calm(s) && Grounded(t) && Moved(s, event, to, t)
    requires to == Cancelled || to == ExpansionRejected
    ensures OnlyMoved(s, event, to, t) && Settled(t)
  {
    hide EventsOf, Grounded, AnyOpen;
    CalmSettles(t);
  }

  // ---------------------------------------------------------------- expert answers

  /** The newest classification marked as confirmed by an expert. */
  function WithConfirmation(rows: ProjectRows): ProjectRows {
    if rows.classifications == [] then rows
    else
      var n := |rows.classifications| - 1;
      rows.(classifications := rows.classifications[n := rows.classifications[n].(expertConfirmed := true)])
  }

  /** The newest classification is confirmed; its gate, its prohibited features, every earlier one and
      all other rows are as they were. */
  predicate OnlyConfirmed(was: ProjectRows, rows: ProjectRows) {
    var n := |was.classifications|;
    && rows == was.(classifications := rows.classifications)
    && |rows.classifications| == n > 0
    && (forall i :: 0 <= i < n - 1 ==> rows.classifications[i] == was.classifications[i])
    && rows.classifications[n - 1] ==
         Classification(was.classifications[n - 1].gate, was.classifications[n - 1].prohibited, true)
  }

  lemma ConfirmingKeeps(s: Dossier)
    requires Grounded(s) && Classified(s.rows)
    ensures
      var rows := WithConfirmation(s.rows);
      && Confirmed(rows) && Classified(rows) && KeepsRecords(s.rows, rows)
      && OnlyConfirmed(s.rows, rows)
      && Grounded(s.(rows := rows))
  {
    hide R.StoreOk, W.UniqueQuestions, EventsOf, NoReviewAfterUnblock, Unblocked;
  }

  lemma NewConsultationsSettle(s: Dossier, consultations: seq<Consultation>)
    requires Settled(s) && (consultations != [] || s.consultations == [])
    ensures Settled(s.(consultations := consultations))
  {
    hide R.StoreOk, W.UniqueQuestions, EventsOf, NoReviewAfterUnblock, Unblocked, AnyOpen;
  }

  /** More input in any state leaves a project at rest. */
  lemma MoreInputSettles(s: Dossier, hasIdea: bool, documents: seq<Document>)
    requires Settled(s)
    ensures
      var rows := s.rows.(hasIdea := hasIdea, documents := s.rows.documents + documents);
      Settled(s.(rows := rows)) && KeepsRecords(s.rows, rows)
  {
    hide R.StoreOk, W.UniqueQuestions, EventsOf, NoReviewAfterUnblock, Unblocked, AnyOpen;
  }

  // ---------------------------------------------------------------- nothing is lost

  /** An operation only adds: an expert's confirmation stays, and events, approvals, documents and
      decisions are appended to. */
  ghost predicate Forward(s: Dossier, t: Dossier) {
    && (Confirmed(s.rows) ==> Confirmed(t.rows))
    && EventsOf(s.view) <= EventsOf(t.view)
    && s.rows.approvals <= t.rows.approvals
    && s.rows.documents <= t.rows.documents
    && s.log <= t.log
  }

  lemma ForwardTransitive(s: Dossier, t: Dossier, u: Dossier)
    requires Forward(s, t) && Forward(t, u)
    ensures Forward(s, u)
  {
    hide EventsOf, Confirmed;
  }

  lemma DraftedForward(s: Dossier, rows: ProjectRows, events: seq<Event>, a: W.Analysis,
      clash: W.Clash, t: Dossier)
    requires Drafted(s.store, rows, events, a, clash, t)
    requires (Confirmed(s.rows) ==> Confirmed(rows)) && EventsOf(s.view) <= events
    requires s.rows.approvals <= rows.approvals && s.rows.documents <= rows.documents && s.log <= t.log
    ensures Forward(s, t)
  {
    hide EventsOf, Stored, DraftEnd, DraftEvent;
    assert events <= EventsOf(t.view);
  }

  lemma SortedForward(s: Dossier, entry: Event, gate: Gate, prohibited: seq<string>, a: W.Analysis,
                      clash: W.Clash, t: Dossier)
    requires Sorted(s, EventsOf(s.view) + [entry, AnalysisCompleted], gate, prohibited, a, clash, t)
    ensures Forward(s, t)
  {
    hide EventsOf, Drafted, GateEvent, GateEnd;
    ClassificationInherits(s.rows, gate, prohibited);
    var rows := WithClassification(s.rows, gate, prohibited);
    var events := EventsOf(s.view) + [entry, AnalysisCompleted];
    if GoesOn(gate, Confirmed(s.rows)) {
      DraftedForward(s, rows, events + [GateEvent(gate, Confirmed(s.rows))], a, clash, t);
    } else {
      assert events <= EventsOf(t.view);
    }
  }

  lemma SpecifiedForward(s: Dossier, events: seq<Event>, missing: seq<string>, decision: PolicyDecision, t: Dossier)
    requires Specified(s, events, missing, decision, t) && EventsOf(s.view) <= events
    ensures Forward(s, t)
  {
    hide EventsOf, ProposalChain, SpecificationChain, DecisionEnd;
    assert events <= EventsOf(t.view);
  }

  lemma DecidedForward(s: Dossier, kind: ApprovalType, decision: ApprovalDecision)
    ensures Forward(s, Decided(s, kind, decision))
  {
    hide EventsOf;
  }

  lemma OnlyMovedForward(s: Dossier, event: Event, to: State, t: Dossier)
    requires OnlyMoved(s, event, to, t)
    ensures Forward(s, t)
  {
    hide EventsOf;
  }

  lemma ConfirmationForward(rows: ProjectRows)
    ensures
      var next := WithConfirmation(rows);
      (Confirmed(rows) ==> Confirmed(next)) && next.approvals == rows.approvals && next.documents == rows.documents
  {}

  /** The audit rows of a timeout check leave a project as it is. */
  lemma ReminderSettles(s: Dossier, audit: seq<AuditRow>)
    requires Settled(s)
    ensures Settled(s.(view := s.view.(audit := audit))) && Forward(s, s.(view := s.view.(audit := audit)))
  {
    hide R.StoreOk, W.UniqueQuestions, NoReviewAfterUnblock, Unblocked, AnyOpen;
    assert EventsOf(s.view.(audit := audit)) == EventsOf(s.view);
  }
}
