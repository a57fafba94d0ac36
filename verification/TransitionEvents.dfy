/** The tables read by event (app/orchestrator/transitions.py). */
module TransitionEvents {
  import opened Vocabulary
  import opened Transitions
  import opened Engine

  // ---------------------------------------------------------------- one row for each event

  /** The row that an event has in a machine: one in the exception states, one in all others. */
  function RowOf(m: Machine, x: State, event: Event): Option<Row> {
    match m
    case Product => if IsException(m, x) then ProductRecoveryRow(event) else ProductWorkRow(event)
    case Development => if IsException(m, x) then DevelopmentRecoveryRow(event) else DevelopmentWorkRow(event)
  }

  function ProductWorkRow(event: Event): Option<Row> {
    if event.AnalysisStarted? then Some(Row(To(DocumentAnalyzing), HasPlanningInput))
    else if event.AnalysisCompleted? then Some(Row(To(Classifying), Deferred))
    else if event.AgentOutputInvalid? then Some(Row(To(AgentValidationFailed), Deferred))
    else if event.AnalysisFailed? then Some(Row(To(Failed), Deferred))
    else if event.BudgetExhausted? then Some(Row(To(TokenBudgetExceeded), Deferred))
    else if event.ClassifiedSelfService? then Some(Row(To(RequirementDrafting), ClassificationSaved))
    else if event.ClassifiedAiAssisted? then Some(Row(To(WaitingApproval), ClassificationSaved))
    else if event.ClassifiedExpertReview? then Some(Row(To(WaitingExpertConfirmation), ExpertNotConfirmed))
    else if event.ExpertConfirmedProceed? then Some(Row(To(RequirementDrafting), ExpertConfirmed))
    else if event.ClassifiedUnsupported? then Some(Row(To(Cancelled), ClassificationSaved))
    else if event.ProhibitedScopeDetected? then Some(Row(To(AutoBlockedByPolicy), ProhibitedDetected))
    else if event.DraftHasUnknowns? then Some(Row(To(WaitingRequirementInput), OpenQuestionsExist))
    else if event.DraftCompleted? then Some(Row(To(WaitingRequirementApproval), NoOpenQuestions))
    else if event.UserAnswered? then Some(Row(To(RequirementDrafting), AnsweredQuestionExists))
    else if event.RequirementsApproved? then Some(Row(To(SpecificationGenerating), RequirementsApprovalExists))
    else if event.ChangesRequested? then Some(Row(To(RequirementDrafting), RequirementsChangeRequestExists))
    else if event.SpecCompleted? then Some(Row(To(CapabilityAnalyzing), PrdDocumentExists))
    else if event.NoGapFound? then Some(Row(To(BacklogGenerating), CapabilityNoGap))
    else if event.GapFound? then Some(Row(To(ExpansionProposing), CapabilityGapExists))
    else if event.ProposalAutoApproved? then Some(Row(To(BacklogGenerating), PolicyDecided(AutoApprove)))
    else if event.ProposalNeedsUser? then Some(Row(To(WaitingExpansionApproval), PolicyDecided(UserApproval)))
    else if event.ProposalNeedsExpert? then Some(Row(To(WaitingExpertConfirmation), PolicyDecided(ExpertRequired)))
    else if event.ProposalBlocked? then Some(Row(To(AutoBlockedByPolicy), PolicyDecided(AutoBlocked)))
    else if event.ExpansionApproved? then Some(Row(To(BacklogGenerating), ExpansionApprovalExists))
    else if event.ExpansionDenied? then Some(Row(To(ExpansionRejected), NoGuard))
    else if event.BacklogReadyNewRepo? then Some(Row(To(Bootstrapping), Deferred))
    else if event.BacklogReadyExisting? then Some(Row(To(ReadyForDevelopment), BacklogDocumentExists))
    else if event.BootstrapCompleted? then Some(Row(To(ReadyForDevelopment), Deferred))
    else if event.BootstrapFailed? then Some(Row(To(Failed), Deferred))
    else None
  }

  function ProductRecoveryRow(event: Event): Option<Row> {
    if event.ApprovalGranted? then Some(Row(To(RequirementDrafting), ReducedScopeApprovalExists))
    else if event.ApprovalDenied? then Some(Row(To(Cancelled), NoGuard))
    else if event.ExpertAnswerUnblocks? then Some(Row(Checkpoint, ExpertConfirmedWithCheckpoint))
    else if event.ExpertAnswerAdjustsScope? then Some(Row(To(RequirementDrafting), NoGuard))
    else if event.ExpertAnswerStops? then Some(Row(To(Cancelled), NoGuard))
    else if event.BlockResolved? then Some(Row(Checkpoint, CheckpointExists))
    else if event.RetryScheduled? then Some(Row(Checkpoint, CanRetry))
    else if event.RetryExhaustedScopeDown? then Some(Row(To(RequirementDrafting), NoGuard))
    else if event.RetryExhaustedConsult? then Some(Row(To(WaitingExpertConfirmation), NoGuard))
    else if event.RetryExhaustedStop? then Some(Row(To(Cancelled), NoGuard))
    else if event.BudgetIncreaseApproved? then Some(Row(Checkpoint, CheckpointExists))
    else if event.BudgetIncreaseDenied? then Some(Row(To(RequirementDrafting), NoGuard))
    else if event.BudgetDeniedStop? then Some(Row(To(Cancelled), NoGuard))
    else if event.ScopeReducedRetry? then Some(Row(To(BacklogGenerating), NoGuard))
    else if event.RejectAcceptedStop? then Some(Row(To(Cancelled), NoGuard))
    else if event.McpRetrySucceeded? then Some(Row(Checkpoint, CheckpointExists))
    else if event.McpAlternativeSelected? then Some(Row(To(ExpansionProposing), NoGuard))
    else if event.McpRetryExhausted? then Some(Row(To(WaitingExpertConfirmation), NoGuard))
    else if event.CorrectionSucceeded? then Some(Row(Checkpoint, CheckpointExists))
    else if event.CorrectionExhausted? then Some(Row(To(Failed), NoGuard))
    else if event.AlternativeAccepted? then Some(Row(To(DocumentAnalyzing), HasPlanningInput))
    else if event.BlockAcknowledgedStop? then Some(Row(To(Cancelled), NoGuard))
    else None
  }

  function DevelopmentWorkRow(event: Event): Option<Row> {
    if event.AgentOutputInvalid? then Some(Row(To(AgentValidationFailed), Deferred))
    else if event.BudgetExhausted? then Some(Row(To(TokenBudgetExceeded), Deferred))
    else if event.TaskAccepted? then Some(Row(To(Validating), Deferred))
    else if event.ValidationPassed? then Some(Row(To(ContextBuilding), Deferred))
    else if event.ValidationFailed? then Some(Row(To(Failed), NoGuard))
    else if event.DependencyUnmet? then Some(Row(To(WaitingDependency), Deferred))
    else if event.ContextReady? then Some(Row(To(Supervising), Deferred))
    else if event.InfoMissing? then Some(Row(To(WaitingInformation), NoGuard))
    else if event.PlanAutoApproved? then Some(Row(To(WorkspaceCreating), PolicyDecided(AutoApprove)))
    else if event.PlanNeedsUser? then Some(Row(To(WaitingPlanApproval), NoGuard))
    else if event.PlanNeedsExpert? then Some(Row(To(WaitingExpertConfirmation), NoGuard))
    else if event.PlanBlocked? then Some(Row(To(AutoBlockedByPolicy), NoGuard))
    else if event.PlanApproved? then Some(Row(To(WorkspaceCreating), PlanApprovalExists))
    else if event.PlanRejected? then Some(Row(To(Supervising), Deferred))
    else if event.WorkspaceReady? then Some(Row(To(Implementing), Deferred))
    else if event.LockConflict? then Some(Row(To(Conflicted), NoGuard))
    else if event.CodeCompleted? then Some(Row(To(LocalValidating), Deferred))
    else if event.ImplementFailed? then Some(Row(To(Failed), NoGuard))
    else if event.QualityGatePassed? then Some(Row(To(Committing), Deferred))
    else if event.QualityGateFailed? then Some(Row(To(Repairing), Deferred))
    else if event.RepairLimitExceeded? then Some(Row(To(WaitingUserReview), NoGuard))
    else if event.Pushed? then Some(Row(To(PrCreating), Deferred))
    else if event.BaseDriftDetected? then Some(Row(To(Conflicted), NoGuard))
    else if event.PrCreated? then Some(Row(To(CiRunning), Deferred))
    else if event.PrCreateFailed? then Some(Row(To(Failed), NoGuard))
    else if event.CiPassed? then Some(Row(To(Reviewing), Deferred))
    else if event.CiFailed? then Some(Row(To(Repairing), Deferred))
    else if event.ReviewApproved? then Some(Row(To(Packaging), Deferred))
    else if event.ReviewChangesRequested? then Some(Row(To(Repairing), Deferred))
    else if event.RepairCompleted? then Some(Row(To(LocalValidating), Deferred))
    else if event.PackageReady? then Some(Row(To(WaitingUserReview), Deferred))
    else if event.PackagingFailed? then Some(Row(To(Repairing), Deferred))
    else if event.UserApproved? then Some(Row(To(ReadyForMerge), ResultApprovalExists))
    else if event.UserFeedback? then Some(Row(To(Repairing), Deferred))
    else if event.UserCancelled? then Some(Row(To(Cancelled), NoGuard))
    else if event.MergeCompleted? then Some(Row(To(Merged), ResultApprovalExists))
    else if event.MergeConflict? then Some(Row(To(Conflicted), NoGuard))
    else if event.DeliveredToUser? then Some(Row(To(Delivered), Deferred))
    else if event.MemoryUpdated? then Some(Row(To(Cleanup), Deferred))
    else if event.CleanupCompleted? then Some(Row(To(Completed), Deferred))
    else None
  }

  function DevelopmentRecoveryRow(event: Event): Option<Row> {
    if event.ExpertAnswerUnblocks? then Some(Row(Checkpoint, CheckpointExists))
    else if event.ExpertAnswerAdjustsScope? then Some(Row(To(Supervising), NoGuard))
    else if event.ExpertAnswerStops? then Some(Row(To(Cancelled), NoGuard))
    else if event.BlockResolved? then Some(Row(Checkpoint, CheckpointExists))
    else if event.RetryScheduled? then Some(Row(Checkpoint, CanRetry))
    else if event.RetryExhaustedScopeDown? then Some(Row(To(Supervising), NoGuard))
    else if event.RetryExhaustedConsult? then Some(Row(To(WaitingExpertConfirmation), NoGuard))
    else if event.RetryExhaustedStop? then Some(Row(To(Cancelled), NoGuard))
    else if event.BudgetIncreaseApproved? then Some(Row(Checkpoint, CheckpointExists))
    else if event.BudgetIncreaseDenied? then Some(Row(To(Supervising), NoGuard))
    else if event.BudgetDeniedStop? then Some(Row(To(Cancelled), NoGuard))
    else if event.McpRetrySucceeded? then Some(Row(Checkpoint, CheckpointExists))
    else if event.McpAlternativeSelected? then Some(Row(To(Supervising), NoGuard))
    else if event.McpRetryExhausted? then Some(Row(To(WaitingExpertConfirmation), NoGuard))
    else if event.CorrectionSucceeded? then Some(Row(Checkpoint, CheckpointExists))
    else if event.CorrectionExhausted? then Some(Row(To(Failed), NoGuard))
    else if event.AlternativeAccepted? then Some(Row(To(Supervising), NoGuard))
    else if event.BlockAcknowledgedStop? then Some(Row(To(Cancelled), NoGuard))
    else if event.InfoProvided? then Some(Row(Checkpoint, CheckpointExists))
    else if event.DependencyResolved? then Some(Row(Checkpoint, CheckpointExists))
    else if event.RebaseSucceeded? then Some(Row(To(LocalValidating), Deferred))
    else if event.RebaseFailed? then Some(Row(To(Supervising), NoGuard))
    else if event.RequirementChangeNeeded? then Some(Row(To(Cancelled), NoGuard))
    else None
  }

  lemma WaitingByEvent(x: State, event: Event)
    requires x.WaitingInformation? || x.WaitingDependency? || x.WaitingExpertConfirmation? || x.Blocked? ||
             x.Conflicted?
    ensures DevelopmentRecovery(x, event).Some? ==> DevelopmentRecovery(x, event) == DevelopmentRecoveryRow(event)
  {
    hide GatesHold, Entered;
  }

  lemma FailedByEvent(x: State, event: Event)
    requires x.Failed? || x.TokenBudgetExceeded? || x.McpConnectionFailed? || x.AgentValidationFailed? ||
             x.AutoBlockedByPolicy?
    ensures DevelopmentRecovery(x, event).Some? ==> DevelopmentRecovery(x, event) == DevelopmentRecoveryRow(event)
  {
    hide GatesHold, Entered;
  }

  lemma DevelopmentRecoveryByEvent(x: State, event: Event)
    ensures DevelopmentRecovery(x, event).Some? ==> DevelopmentRecovery(x, event) == DevelopmentRecoveryRow(event)
  {
    hide GatesHold, Entered, DevelopmentRecoveryRow;
    if x.WaitingInformation? || x.WaitingDependency? || x.WaitingExpertConfirmation? || x.Blocked? || x.Conflicted? {
      WaitingByEvent(x, event);
    } else if DevelopmentRecovery(x, event).Some? {
      FailedByEvent(x, event);
    }
  }

  lemma DevelopmentHandoverByEvent(x: State, event: Event)
    ensures DevelopmentHandover(x, event).Some? ==> DevelopmentHandover(x, event) == DevelopmentWorkRow(event)
  {
    hide GatesHold, Entered;
  }

  lemma DevelopmentDeliveryByEvent(x: State, event: Event)
    ensures DevelopmentDelivery(x, event).Some? ==> DevelopmentDelivery(x, event) == DevelopmentWorkRow(event)
  {
    hide GatesHold, Entered, DevelopmentHandover;
    DevelopmentHandoverByEvent(x, event);
  }

  lemma DevelopmentWorkByEvent(x: State, event: Event)
    ensures DevelopmentWork(x, event).Some? ==> DevelopmentWork(x, event) == DevelopmentWorkRow(event)
  {
    hide GatesHold, Entered, DevelopmentDelivery;
    DevelopmentDeliveryByEvent(x, event);
  }

  lemma DevelopmentMainByEvent(x: State, event: Event)
    ensures DevelopmentMain(x, event).Some? ==> DevelopmentMain(x, event) == DevelopmentWorkRow(event)
  {
    hide GatesHold, Entered, DevelopmentWork;
    DevelopmentWorkByEvent(x, event);
  }

  lemma ProductRecoveryByEvent(x: State, event: Event)
    ensures ProductRecovery(x, event).Some? ==> ProductRecovery(x, event) == ProductRecoveryRow(event)
  {
    hide GatesHold, Entered;
  }

  lemma ProductDeliveryByEvent(x: State, event: Event)
    ensures ProductDelivery(x, event).Some? ==> ProductDelivery(x, event) == ProductWorkRow(event)
  {
    hide GatesHold, Entered;
  }

  lemma ProductMainByEvent(x: State, event: Event)
    ensures ProductMain(x, event).Some? ==> ProductMain(x, event) == ProductWorkRow(event)
  {
    hide GatesHold, Entered, ProductDelivery;
    ProductDeliveryByEvent(x, event);
  }

  lemma RowByEvent(m: Machine, x: State, event: Event)
    ensures RowFor(m, x, event).Some? ==> RowFor(m, x, event) == RowOf(m, x, event)
  {
    hide WellPlaced, IsException, ProductMain, ProductRecovery, DevelopmentMain, DevelopmentRecovery, ProductWorkRow,
         DevelopmentWorkRow, ProductRecoveryRow, DevelopmentRecoveryRow;
    ProductMainByEvent(x, event);
    ProductRecoveryByEvent(x, event);
    DevelopmentMainByEvent(x, event);
    DevelopmentRecoveryByEvent(x, event);
  }

  /** In one machine an event has the same destination and the same guard in all exception states that
      have a row for it, and in all other states that have one. */
  lemma EventDecidesRow(m: Machine, x: State, y: State, event: Event)
    requires RowFor(m, x, event).Some? && RowFor(m, y, event).Some?
    requires IsException(m, x) <==> IsException(m, y)
    ensures RowFor(m, x, event) == RowFor(m, y, event)
  {
    hide RowFor, IsException, ProductWorkRow, DevelopmentWorkRow, ProductRecoveryRow, DevelopmentRecoveryRow;
    RowByEvent(m, x, event);
    RowByEvent(m, y, event);
  }

  // ---------------------------------------------------------------- the events of each state

  /** The events that have a row in a state. */
  predicate Defined(m: Machine, x: State, event: Event) {
    match m
    case Product => if IsException(Product, x) then DefinedInProjectRecovery(x, event) else DefinedInPlanning(x, event)
    case Development =>
      if IsException(Development, x) then DefinedInTaskRecovery(x, event) else DefinedInPreparation(x, event)
  }

  predicate DefinedInPlanning(x: State, event: Event) {
    if x.IdeaReceived? then event.AnalysisStarted?
    else if x.DocumentAnalyzing? then
      event.AnalysisCompleted? || event.AgentOutputInvalid? || event.AnalysisFailed? || event.BudgetExhausted?
    else if x.Classifying? then
      event.ClassifiedSelfService? || event.ClassifiedAiAssisted? || event.ClassifiedExpertReview? ||
      event.ExpertConfirmedProceed? || event.ClassifiedUnsupported? || event.ProhibitedScopeDetected? ||
      event.BudgetExhausted?
    else if x.RequirementDrafting? then
      event.DraftHasUnknowns? || event.DraftCompleted? || event.AgentOutputInvalid? || event.BudgetExhausted?
    else if x.WaitingRequirementInput? then event.UserAnswered?
    else DefinedInDelivery(x, event)
  }

  predicate DefinedInDelivery(x: State, event: Event) {
    if x.WaitingRequirementApproval? then event.RequirementsApproved? || event.ChangesRequested?
    else if x.SpecificationGenerating? then
      event.SpecCompleted? || event.AgentOutputInvalid? || event.BudgetExhausted?
    else if x.CapabilityAnalyzing? then event.NoGapFound? || event.GapFound? || event.BudgetExhausted?
    else if x.ExpansionProposing? then
      event.ProposalAutoApproved? || event.ProposalNeedsUser? || event.ProposalNeedsExpert? ||
      event.ProposalBlocked? || event.BudgetExhausted?
    else if x.WaitingExpansionApproval? then event.ExpansionApproved? || event.ExpansionDenied?
    else if x.BacklogGenerating? then
      event.BacklogReadyNewRepo? || event.BacklogReadyExisting? || event.BudgetExhausted?
    else if x.Bootstrapping? then event.BootstrapCompleted? || event.BootstrapFailed?
    else false
  }

  predicate DefinedInProjectRecovery(x: State, event: Event) {
    if x.WaitingApproval? then event.ApprovalGranted? || event.ApprovalDenied?
    else if x.WaitingExpertConfirmation? then
      event.ExpertAnswerUnblocks? || event.ExpertAnswerAdjustsScope? || event.ExpertAnswerStops?
    else if x.Blocked? then event.BlockResolved?
    else if x.Failed? then
      event.RetryScheduled? || event.RetryExhaustedScopeDown? || event.RetryExhaustedConsult? ||
      event.RetryExhaustedStop?
    else if x.TokenBudgetExceeded? then
      event.BudgetIncreaseApproved? || event.BudgetIncreaseDenied? || event.BudgetDeniedStop?
    else if x.ExpansionRejected? then event.ScopeReducedRetry? || event.RejectAcceptedStop?
    else if x.McpConnectionFailed? then
      event.McpRetrySucceeded? || event.McpAlternativeSelected? || event.McpRetryExhausted?
    else if x.AgentValidationFailed? then event.CorrectionSucceeded? || event.CorrectionExhausted?
    else if x.AutoBlockedByPolicy? then event.AlternativeAccepted? || event.BlockAcknowledgedStop?
    else false
  }

  predicate DefinedInPreparation(x: State, event: Event) {
    if x.Received? then event.TaskAccepted?
    else if x.Validating? then event.ValidationPassed? || event.ValidationFailed? || event.DependencyUnmet?
    else if x.ContextBuilding? then event.ContextReady? || event.InfoMissing?
    else if x.Supervising? then
      event.PlanAutoApproved? || event.PlanNeedsUser? || event.PlanNeedsExpert? || event.PlanBlocked? ||
      event.AgentOutputInvalid?
    else if x.WaitingPlanApproval? then event.PlanApproved? || event.PlanRejected?
    else DefinedInWork(x, event)
  }

  predicate DefinedInWork(x: State, event: Event) {
    if x.WorkspaceCreating? then event.WorkspaceReady? || event.LockConflict?
    else if x.Implementing? then
      event.CodeCompleted? || event.BudgetExhausted? || event.AgentOutputInvalid? || event.ImplementFailed?
    else if x.LocalValidating? then
      event.QualityGatePassed? || event.QualityGateFailed? || event.RepairLimitExceeded?
    else if x.Committing? then event.Pushed? || event.BaseDriftDetected?
    else DefinedInReview(x, event)
  }

  predicate DefinedInReview(x: State, event: Event) {
    if x.PrCreating? then event.PrCreated? || event.PrCreateFailed?
    else if x.CiRunning? then event.CiPassed? || event.CiFailed?
    else if x.Reviewing? then event.ReviewApproved? || event.ReviewChangesRequested? || event.AgentOutputInvalid?
    else if x.Repairing? then event.RepairCompleted? || event.RepairLimitExceeded? || event.BudgetExhausted?
    else if x.Packaging? then event.PackageReady? || event.PackagingFailed?
    else DefinedInHandover(x, event)
  }

  predicate DefinedInHandover(x: State, event: Event) {
    if x.WaitingUserReview? then event.UserApproved? || event.UserFeedback? || event.UserCancelled?
    else if x.ReadyForMerge? then event.MergeCompleted? || event.MergeConflict?
    else if x.Merged? then event.DeliveredToUser?
    else if x.Delivered? then event.MemoryUpdated?
    else if x.Cleanup? then event.CleanupCompleted?
    else false
  }

  predicate DefinedInTaskRecovery(x: State, event: Event) {
    if x.WaitingInformation? then event.InfoProvided?
    else if x.WaitingDependency? then event.DependencyResolved?
    else if x.WaitingExpertConfirmation? then
      event.ExpertAnswerUnblocks? || event.ExpertAnswerAdjustsScope? || event.ExpertAnswerStops?
    else if x.Blocked? then event.BlockResolved?
    else if x.Conflicted? then event.RebaseSucceeded? || event.RebaseFailed?
    else if x.Failed? then
      event.RetryScheduled? || event.RetryExhaustedScopeDown? || event.RetryExhaustedConsult? ||
      event.RetryExhaustedStop?
    else if x.TokenBudgetExceeded? then
      event.BudgetIncreaseApproved? || event.BudgetIncreaseDenied? || event.BudgetDeniedStop?
    else if x.McpConnectionFailed? then
      event.McpRetrySucceeded? || event.McpAlternativeSelected? || event.McpRetryExhausted?
    else if x.AgentValidationFailed? then event.CorrectionSucceeded? || event.CorrectionExhausted?
    else if x.AutoBlockedByPolicy? then
      event.AlternativeAccepted? || event.RequirementChangeNeeded? || event.BlockAcknowledgedStop?
    else false
  }

  lemma ProductDeliveryDefined(x: State, event: Event)
    ensures ProductDelivery(x, event).Some? <==> DefinedInDelivery(x, event)
  {
    hide GatesHold, Entered, IsStateOf;
  }

  lemma ProductMainDefined(x: State, event: Event)
    ensures ProductMain(x, event).Some? <==> DefinedInPlanning(x, event)
  {
    hide GatesHold, Entered, IsStateOf, ProductDelivery, DefinedInDelivery;
    ProductDeliveryDefined(x, event);
  }

  lemma ProductRecoveryDefined(x: State, event: Event)
    ensures ProductRecovery(x, event).Some? <==> DefinedInProjectRecovery(x, event)
  {
    hide GatesHold, Entered, IsStateOf;
  }

  lemma DevelopmentHandoverDefined(x: State, event: Event)
    ensures DevelopmentHandover(x, event).Some? <==> DefinedInHandover(x, event)
  {
    hide GatesHold, Entered, IsStateOf;
  }

  lemma DevelopmentDeliveryDefined(x: State, event: Event)
    ensures DevelopmentDelivery(x, event).Some? <==> DefinedInReview(x, event)
  {
    hide GatesHold, Entered, IsStateOf, DevelopmentHandover, DefinedInHandover;
    DevelopmentHandoverDefined(x, event);
  }

  lemma DevelopmentWorkDefined(x: State, event: Event)
    ensures DevelopmentWork(x, event).Some? <==> DefinedInWork(x, event)
  {
    hide GatesHold, Entered, IsStateOf, DevelopmentDelivery, DefinedInReview;
    DevelopmentDeliveryDefined(x, event);
  }

  lemma DevelopmentMainDefined(x: State, event: Event)
    ensures DevelopmentMain(x, event).Some? <==> DefinedInPreparation(x, event)
  {
    hide GatesHold, Entered, IsStateOf, DevelopmentWork, DefinedInWork;
    DevelopmentWorkDefined(x, event);
  }

  lemma DevelopmentRecoveryDefined(x: State, event: Event)
    ensures DevelopmentRecovery(x, event).Some? <==> DefinedInTaskRecovery(x, event)
  {
    hide GatesHold, Entered, IsStateOf;
  }

  lemma RowDefined(m: Machine, x: State, event: Event)
    ensures RowFor(m, x, event).Some? <==> Defined(m, x, event)
  {
    hide WellPlaced, IsException, ProductMain, ProductRecovery, DevelopmentMain, DevelopmentRecovery,
         DefinedInPlanning, DefinedInProjectRecovery, DefinedInPreparation, DefinedInTaskRecovery;
    ProductMainDefined(x, event);
    ProductRecoveryDefined(x, event);
    DevelopmentMainDefined(x, event);
    DevelopmentRecoveryDefined(x, event);
  }

  /** The tables are no more than this: an event has a row exactly in the states that define it, and there
      it has the event's row. */
  lemma TableExactly(m: Machine, x: State, event: Event)
    ensures RowFor(m, x, event).Some? <==> Defined(m, x, event)
    ensures RowFor(m, x, event).Some? ==> RowFor(m, x, event) == RowOf(m, x, event)
  {
    hide RowFor, Defined, RowOf;
    RowByEvent(m, x, event);
    RowDefined(m, x, event);
  }

  // ---------------------------------------------------------------- what an event rests on

  /** The places of an event in a log. */
  function Places(log: seq<EventRow>, event: Event): set<nat> {
    set i | 0 <= i < |log| && log[i].event == event
  }

  lemma LastPlace(log: seq<EventRow>, event: Event)
    requires log != []
    ensures
      var n := |log| - 1;
      var before := Places(log[..n], event);
      n !in before && Places(log, event) == if log[n].event == event then before + {n} else before
  {}

  lemma {:induction false} CountedOnce(log: seq<EventRow>, event: Event)
    ensures CountEvents(log, event) == |Places(log, event)|
  {
    hide Places;
    if log != [] {
      CountedOnce(log[..|log| - 1], event);
      LastPlace(log, event);
    } else {
      NoPlaces(event);
    }
  }

  lemma NoPlaces(event: Event)
    ensures Places([], event) == {}
  {}

  /** The newest classification. */
  predicate IsNewest(rows: ProjectRows, c: Classification) {
    var n := |rows.classifications|;
    n > 0 && rows.classifications[n - 1] == c
  }

  lemma NewestMeans(rows: ProjectRows)
    ensures Confirmed(rows) <==> exists c :: IsNewest(rows, c) && c.expertConfirmed
    ensures LatestClassification(rows).Some? && !LatestClassification(rows).value.expertConfirmed <==>
            exists c :: IsNewest(rows, c) && !c.expertConfirmed
    ensures LatestClassification(rows).Some? && LatestClassification(rows).value.prohibited != [] <==>
            exists c :: IsNewest(rows, c) && c.prohibited != []
    ensures LatestClassification(rows).Some? <==> rows.classifications != []
  {
    if rows.classifications != [] {
      assert IsNewest(rows, rows.classifications[|rows.classifications| - 1]);
    }
  }

  lemma ChangesMean(rows: ProjectRows)
    ensures HasChangeRequest(rows) <==>
      Approval(Requirements, Rejected) in rows.approvals ||
      Approval(Requirements, ApprovalChangesRequested) in rows.approvals
  {
    if HasChangeRequest(rows) {
      var a :| a in rows.approvals && a.kind == Requirements && a.decision != Approved;
      assert a == Approval(Requirements, Rejected) || a == Approval(Requirements, ApprovalChangesRequested);
    }
  }

  /** What a guard asks for, in terms of the rows on record: the project's own for a guard on its
      records, the subject's log and checkpoints for a retry or a return, and the caller's findings for
      a gap or a policy decision. */
  ghost predicate Asks(cfg: Config, v: View, rows: ProjectRows, ctx: Context, g: Guard) {
    match g
    case NoGuard => true
    case Deferred => true
    case HasPlanningInput => rows.hasIdea || exists d :: d in rows.documents && d.kind == Uploaded
    case ClassificationSaved => rows.classifications != []
    case ProhibitedDetected => exists c :: IsNewest(rows, c) && c.prohibited != []
    case ExpertNotConfirmed => exists c :: IsNewest(rows, c) && !c.expertConfirmed
    case ExpertConfirmed => exists c :: IsNewest(rows, c) && c.expertConfirmed
    case ExpertConfirmedWithCheckpoint => v.checkpoints != [] && exists c :: IsNewest(rows, c) && c.expertConfirmed
    case OpenQuestionsExist => exists q :: q in rows.questions && q.answer.None?
    case NoOpenQuestions => forall q :: q in rows.questions ==> q.answer.Some?
    case AnsweredQuestionExists => exists q :: q in rows.questions && q.answer.Some?
    case RequirementsApprovalExists => Approval(Requirements, Approved) in rows.approvals
    case RequirementsChangeRequestExists =>
      Approval(Requirements, Rejected) in rows.approvals ||
      Approval(Requirements, ApprovalChangesRequested) in rows.approvals
    case ReducedScopeApprovalExists => Approval(ReducedScope, Approved) in rows.approvals
    case ExpansionApprovalExists => Approval(Expansion, Approved) in rows.approvals
    case PlanApprovalExists => Approval(Plan, Approved) in rows.approvals
    case ResultApprovalExists => Approval(Result, Approved) in rows.approvals
    case PrdDocumentExists => Document(Generated, Prd) in rows.documents
    case BacklogDocumentExists => Document(Generated, Backlog) in rows.documents
    case CapabilityNoGap => ctx.missing == Some([])
    case CapabilityGapExists => ctx.missing.Some? && ctx.missing != Some([])
    case CheckpointExists => v.checkpoints != []
    case CanRetry => v.checkpoints != [] && |Places(v.log, RetryScheduled)| < cfg.maxRetries
    case PolicyDecided(expected) => ctx.decision == Some(expected)
  }

  lemma GuardMeans(cfg: Config, v: View, rows: ProjectRows, ctx: Context, g: Guard)
    ensures GuardHolds(cfg, v, rows, ctx, g) <==> Asks(cfg, v, rows, ctx, g)
  {
    hide IsNewest, HasChangeRequest, LatestClassification, CountEvents, Places;
    NewestMeans(rows);
    ChangesMean(rows);
    CountedOnce(v.log, RetryScheduled);
  }
}
