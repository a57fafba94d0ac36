/** The transition tables of the two machines (app/orchestrator/transitions.py).

    A table is a function from a source state and an event to the row defined for the pair,
    so that no pair can have two rows. Rows keep the source's order within each source state. */
module Transitions {
  import opened Vocabulary

  /** A row's destination: a state, or the state of the subject's latest checkpoint. */
  datatype Target = To(state: State) | Checkpoint

  datatype Row = Row(target: Target, guard: Guard)

  function InitialState(m: Machine): State {
    match m
    case Product => IdeaReceived
    case Development => Received
  }

  /** The states whose entry saves a checkpoint. */
  predicate IsException(m: Machine, x: State) {
    match m
    case Product =>
      x.WaitingApproval? || x.WaitingExpertConfirmation? || x.Blocked? || x.Failed? ||
      x.Cancelled? || x.TokenBudgetExceeded? || x.ExpansionRejected? ||
      x.McpConnectionFailed? || x.AgentValidationFailed? || x.AutoBlockedByPolicy?
    case Development =>
      x.WaitingInformation? || x.WaitingDependency? || x.WaitingExpertConfirmation? ||
      x.Blocked? || x.Conflicted? || x.Failed? || x.Cancelled? || x.TokenBudgetExceeded? ||
      x.McpConnectionFailed? || x.AgentValidationFailed? || x.AutoBlockedByPolicy?
  }

  /** The states of a machine's own state enumeration. */
  predicate IsStateOf(m: Machine, x: State) {
    match m
    case Product => IsProductOnly(x) || IsShared(x)
    case Development => !IsProductOnly(x)
  }

  predicate IsProductOnly(x: State) {
    x.IdeaReceived? || x.DocumentAnalyzing? || x.Classifying? || x.RequirementDrafting? ||
    x.WaitingRequirementInput? || x.WaitingRequirementApproval? || x.SpecificationGenerating? ||
    x.CapabilityAnalyzing? || x.ExpansionProposing? || x.WaitingExpansionApproval? ||
    x.BacklogGenerating? || x.Bootstrapping? || x.ReadyForDevelopment? ||
    x.WaitingApproval? || x.ExpansionRejected?
  }

  predicate IsShared(x: State) {
    x.WaitingExpertConfirmation? || x.Blocked? || x.Failed? || x.Cancelled? || x.TokenBudgetExceeded? ||
    x.McpConnectionFailed? || x.AgentValidationFailed? || x.AutoBlockedByPolicy?
  }

  /** The states some row leads to: no row of either table leads to `Blocked` or
      `McpConnectionFailed`, although both have rows out of them. */
  predicate Entered(m: Machine, x: State) {
    IsStateOf(m, x) && !x.Blocked? && !x.McpConnectionFailed? && x != InitialState(m)
  }

  // The states that lie behind an approval of the requirements, a generated PRD and an approval
  // of the result.

  predicate BehindRequirementsApproval(x: State) {
    x.SpecificationGenerating? || BehindPrd(x)
  }

  predicate BehindPrd(x: State) {
    x.CapabilityAnalyzing? || x.ExpansionProposing? || x.WaitingExpansionApproval? ||
    x.BacklogGenerating? || x.ExpansionRejected? || x.Bootstrapping? || x.ReadyForDevelopment?
  }

  predicate BehindResultApproval(x: State) {
    x.ReadyForMerge? || x.Merged? || x.Delivered? || x.Cleanup? || x.Completed?
  }

  /** A row enters the region behind a record only from inside it or under the guard that checks
      the record. */
  predicate GatesHold(source: State, row: Row)
    requires row.target.To?
  {
    var to := row.target.state;
    (BehindRequirementsApproval(to) ==> BehindRequirementsApproval(source) || row.guard.RequirementsApprovalExists?) &&
    (BehindPrd(to) ==> BehindPrd(source) || row.guard.PrdDocumentExists?) &&
    (BehindResultApproval(to) ==> BehindResultApproval(source) || row.guard.ResultApprovalExists?)
  }

  /** Checkpoint rows start in exception states; every other row leads to a state that can be
      entered, and enters no gated region past its gate. */
  predicate WellPlaced(m: Machine, source: State, row: Row) {
    if row.target.Checkpoint? then IsException(m, source)
    else Entered(m, row.target.state) && (source.McpConnectionFailed? || GatesHold(source, row))
  }

  function RowFor(m: Machine, source: State, event: Event): (r: Option<Row>)
    ensures r.Some? ==> WellPlaced(m, source, r.value)
    ensures r.Some? && event.RetryScheduled? ==> r.value == Row(Checkpoint, CanRetry)
  {
    match m
    case Product => if IsException(Product, source) then ProductRecovery(source, event) else ProductMain(source, event)
    case Development =>
      if IsException(Development, source) then DevelopmentRecovery(source, event) else DevelopmentMain(source, event)
  }

  function ProductMain(source: State, event: Event): (r: Option<Row>)
    ensures r.Some? ==> r.value.target.To? && Entered(Product, r.value.target.state)
    ensures r.Some? ==> GatesHold(source, r.value) && !event.RetryScheduled?
  {
    if source.IdeaReceived? then (
      if event.AnalysisStarted? then Some(Row(To(DocumentAnalyzing), HasPlanningInput))
      else None
    ) else if source.DocumentAnalyzing? then (
      if event.AnalysisCompleted? then Some(Row(To(Classifying), Deferred))
      else if event.AgentOutputInvalid? then Some(Row(To(AgentValidationFailed), Deferred))
      else if event.AnalysisFailed? then Some(Row(To(Failed), Deferred))
      else if event.BudgetExhausted? then Some(Row(To(TokenBudgetExceeded), Deferred))
      else None
    ) else if source.Classifying? then (
      if event.ClassifiedSelfService? then Some(Row(To(RequirementDrafting), ClassificationSaved))
      else if event.ClassifiedAiAssisted? then Some(Row(To(WaitingApproval), ClassificationSaved))
      else if event.ClassifiedExpertReview? then Some(Row(To(WaitingExpertConfirmation), ExpertNotConfirmed))
      else if event.ExpertConfirmedProceed? then Some(Row(To(RequirementDrafting), ExpertConfirmed))
      else if event.ClassifiedUnsupported? then Some(Row(To(Cancelled), ClassificationSaved))
      else if event.ProhibitedScopeDetected? then Some(Row(To(AutoBlockedByPolicy), ProhibitedDetected))
      else if event.BudgetExhausted? then Some(Row(To(TokenBudgetExceeded), Deferred))
      else None
    ) else if source.RequirementDrafting? then (
      if event.DraftHasUnknowns? then Some(Row(To(WaitingRequirementInput), OpenQuestionsExist))
      else if event.DraftCompleted? then Some(Row(To(WaitingRequirementApproval), NoOpenQuestions))
      else if event.AgentOutputInvalid? then Some(Row(To(AgentValidationFailed), Deferred))
      else if event.BudgetExhausted? then Some(Row(To(TokenBudgetExceeded), Deferred))
      else None
    ) else if source.WaitingRequirementInput? then (
      if event.UserAnswered? then Some(Row(To(RequirementDrafting), AnsweredQuestionExists))
      else None
    ) else ProductDelivery(source, event)
  }

  function ProductDelivery(source: State, event: Event): (r: Option<Row>)
    ensures r.Some? ==> r.value.target.To? && Entered(Product, r.value.target.state)
    ensures r.Some? ==> GatesHold(source, r.value) && !event.RetryScheduled?
  {
    if source.WaitingRequirementApproval? then (
      if event.RequirementsApproved? then Some(Row(To(SpecificationGenerating), RequirementsApprovalExists))
      else if event.ChangesRequested? then Some(Row(To(RequirementDrafting), RequirementsChangeRequestExists))
      else None
    ) else if source.SpecificationGenerating? then (
      if event.SpecCompleted? then Some(Row(To(CapabilityAnalyzing), PrdDocumentExists))
      else if event.AgentOutputInvalid? then Some(Row(To(AgentValidationFailed), Deferred))
      else if event.BudgetExhausted? then Some(Row(To(TokenBudgetExceeded), Deferred))
      else None
    ) else if source.CapabilityAnalyzing? then (
      if event.NoGapFound? then Some(Row(To(BacklogGenerating), CapabilityNoGap))
      else if event.GapFound? then Some(Row(To(ExpansionProposing), CapabilityGapExists))
      else if event.BudgetExhausted? then Some(Row(To(TokenBudgetExceeded), Deferred))
      else None
    ) else if source.ExpansionProposing? then (
      if event.ProposalAutoApproved? then Some(Row(To(BacklogGenerating), PolicyDecided(AutoApprove)))
      else if event.ProposalNeedsUser? then Some(Row(To(WaitingExpansionApproval), PolicyDecided(UserApproval)))
      else if event.ProposalNeedsExpert? then Some(Row(To(WaitingExpertConfirmation), PolicyDecided(ExpertRequired)))
      else if event.ProposalBlocked? then Some(Row(To(AutoBlockedByPolicy), PolicyDecided(AutoBlocked)))
      else if event.BudgetExhausted? then Some(Row(To(TokenBudgetExceeded), Deferred))
      else None
    ) else if source.WaitingExpansionApproval? then (
      if event.ExpansionApproved? then Some(Row(To(BacklogGenerating), ExpansionApprovalExists))
      else if event.ExpansionDenied? then Some(Row(To(ExpansionRejected), NoGuard))
      else None
    ) else if source.BacklogGenerating? then (
      if event.BacklogReadyNewRepo? then Some(Row(To(Bootstrapping), Deferred))
      else if event.BacklogReadyExisting? then Some(Row(To(ReadyForDevelopment), BacklogDocumentExists))
      else if event.BudgetExhausted? then Some(Row(To(TokenBudgetExceeded), Deferred))
      else None
    ) else if source.Bootstrapping? then (
      if event.BootstrapCompleted? then Some(Row(To(ReadyForDevelopment), Deferred))
      else if event.BootstrapFailed? then Some(Row(To(Failed), Deferred))
      else None
    ) else None
  }

  function ProductRecovery(source: State, event: Event): (r: Option<Row>)
    ensures r.Some? && r.value.target.To? ==> Entered(Product, r.value.target.state)
    ensures r.Some? && r.value.target.To? && !source.McpConnectionFailed? ==> GatesHold(source, r.value)
    ensures r.Some? && event.RetryScheduled? ==> r.value == Row(Checkpoint, CanRetry)
  {
    if source.WaitingApproval? then (
      if event.ApprovalGranted? then Some(Row(To(RequirementDrafting), ReducedScopeApprovalExists))
      else if event.ApprovalDenied? then Some(Row(To(Cancelled), NoGuard))
      else None
    ) else if source.WaitingExpertConfirmation? then (
      if event.ExpertAnswerUnblocks? then Some(Row(Checkpoint, ExpertConfirmedWithCheckpoint))
      else if event.ExpertAnswerAdjustsScope? then Some(Row(To(RequirementDrafting), NoGuard))
      else if event.ExpertAnswerStops? then Some(Row(To(Cancelled), NoGuard))
      else None
    ) else if source.Blocked? then (
      if event.BlockResolved? then Some(Row(Checkpoint, CheckpointExists))
      else None
    ) else if source.Failed? then (
      if event.RetryScheduled? then Some(Row(Checkpoint, CanRetry))
      else if event.RetryExhaustedScopeDown? then Some(Row(To(RequirementDrafting), NoGuard))
      else if event.RetryExhaustedConsult? then Some(Row(To(WaitingExpertConfirmation), NoGuard))
      else if event.RetryExhaustedStop? then Some(Row(To(Cancelled), NoGuard))
      else None
    ) else if source.TokenBudgetExceeded? then (
      if event.BudgetIncreaseApproved? then Some(Row(Checkpoint, CheckpointExists))
      else if event.BudgetIncreaseDenied? then Some(Row(To(RequirementDrafting), NoGuard))
      else if event.BudgetDeniedStop? then Some(Row(To(Cancelled), NoGuard))
      else None
    ) else if source.ExpansionRejected? then (
      if event.ScopeReducedRetry? then Some(Row(To(BacklogGenerating), NoGuard))
      else if event.RejectAcceptedStop? then Some(Row(To(Cancelled), NoGuard))
      else None
    ) else if source.McpConnectionFailed? then (
      if event.McpRetrySucceeded? then Some(Row(Checkpoint, CheckpointExists))
      else if event.McpAlternativeSelected? then Some(Row(To(ExpansionProposing), NoGuard))
      else if event.McpRetryExhausted? then Some(Row(To(WaitingExpertConfirmation), NoGuard))
      else None
    ) else if source.AgentValidationFailed? then (
      if event.CorrectionSucceeded? then Some(Row(Checkpoint, CheckpointExists))
      else if event.CorrectionExhausted? then Some(Row(To(Failed), NoGuard))
      else None
    ) else if source.AutoBlockedByPolicy? then (
      if event.AlternativeAccepted? then Some(Row(To(DocumentAnalyzing), HasPlanningInput))
      else if event.BlockAcknowledgedStop? then Some(Row(To(Cancelled), NoGuard))
      else None
    ) else None
  }

  function DevelopmentMain(source: State, event: Event): (r: Option<Row>)
    ensures r.Some? ==> r.value.target.To? && Entered(Development, r.value.target.state)
    ensures r.Some? ==> GatesHold(source, r.value) && !event.RetryScheduled?
  {
    if source.Received? then (
      if event.TaskAccepted? then Some(Row(To(Validating), Deferred))
      else None
    ) else if source.Validating? then (
      if event.ValidationPassed? then Some(Row(To(ContextBuilding), Deferred))
      else if event.ValidationFailed? then Some(Row(To(Failed), NoGuard))
      else if event.DependencyUnmet? then Some(Row(To(WaitingDependency), Deferred))
      else None
    ) else if source.ContextBuilding? then (
      if event.ContextReady? then Some(Row(To(Supervising), Deferred))
      else if event.InfoMissing? then Some(Row(To(WaitingInformation), NoGuard))
      else None
    ) else if source.Supervising? then (
      if event.PlanAutoApproved? then Some(Row(To(WorkspaceCreating), PolicyDecided(AutoApprove)))
      else if event.PlanNeedsUser? then Some(Row(To(WaitingPlanApproval), NoGuard))
      else if event.PlanNeedsExpert? then Some(Row(To(WaitingExpertConfirmation), NoGuard))
      else if event.PlanBlocked? then Some(Row(To(AutoBlockedByPolicy), NoGuard))
      else if event.AgentOutputInvalid? then Some(Row(To(AgentValidationFailed), Deferred))
      else None
    ) else if source.WaitingPlanApproval? then (
      if event.PlanApproved? then Some(Row(To(WorkspaceCreating), PlanApprovalExists))
      else if event.PlanRejected? then Some(Row(To(Supervising), Deferred))
      else None
    ) else DevelopmentWork(source, event)
  }

  function DevelopmentWork(source: State, event: Event): (r: Option<Row>)
    ensures r.Some? ==> r.value.target.To? && Entered(Development, r.value.target.state)
    ensures r.Some? ==> GatesHold(source, r.value) && !event.RetryScheduled?
  {
    if source.WorkspaceCreating? then (
      if event.WorkspaceReady? then Some(Row(To(Implementing), Deferred))
      else if event.LockConflict? then Some(Row(To(Conflicted), NoGuard))
      else None
    ) else if source.Implementing? then (
      if event.CodeCompleted? then Some(Row(To(LocalValidating), Deferred))
      else if event.BudgetExhausted? then Some(Row(To(TokenBudgetExceeded), Deferred))
      else if event.AgentOutputInvalid? then Some(Row(To(AgentValidationFailed), Deferred))
      else if event.ImplementFailed? then Some(Row(To(Failed), NoGuard))
      else None
    ) else if source.LocalValidating? then (
      if event.QualityGatePassed? then Some(Row(To(Committing), Deferred))
      else if event.QualityGateFailed? then Some(Row(To(Repairing), Deferred))
      else if event.RepairLimitExceeded? then Some(Row(To(WaitingUserReview), NoGuard))
      else None
    ) else if source.Committing? then (
      if event.Pushed? then Some(Row(To(PrCreating), Deferred))
      else if event.BaseDriftDetected? then Some(Row(To(Conflicted), NoGuard))
      else None
    ) else DevelopmentDelivery(source, event)
  }

  function DevelopmentDelivery(source: State, event: Event): (r: Option<Row>)
    ensures r.Some? ==> r.value.target.To? && Entered(Development, r.value.target.state)
    ensures r.Some? ==> GatesHold(source, r.value) && !event.RetryScheduled?
  {
    if source.PrCreating? then (
      if event.PrCreated? then Some(Row(To(CiRunning), Deferred))
      else if event.PrCreateFailed? then Some(Row(To(Failed), NoGuard))
      else None
    ) else if source.CiRunning? then (
      if event.CiPassed? then Some(Row(To(Reviewing), Deferred))
      else if event.CiFailed? then Some(Row(To(Repairing), Deferred))
      else None
    ) else if source.Reviewing? then (
      if event.ReviewApproved? then Some(Row(To(Packaging), Deferred))
      else if event.ReviewChangesRequested? then Some(Row(To(Repairing), Deferred))
      else if event.AgentOutputInvalid? then Some(Row(To(AgentValidationFailed), Deferred))
      else None
    ) else if source.Repairing? then (
      if event.RepairCompleted? then Some(Row(To(LocalValidating), Deferred))
      else if event.RepairLimitExceeded? then Some(Row(To(WaitingUserReview), NoGuard))
      else if event.BudgetExhausted? then Some(Row(To(TokenBudgetExceeded), Deferred))
      else None
    ) else if source.Packaging? then (
      if event.PackageReady? then Some(Row(To(WaitingUserReview), Deferred))
      else if event.PackagingFailed? then Some(Row(To(Repairing), Deferred))
      else None
    ) else DevelopmentHandover(source, event)
  }

  function DevelopmentHandover(source: State, event: Event): (r: Option<Row>)
    ensures r.Some? ==> r.value.target.To? && Entered(Development, r.value.target.state)
    ensures r.Some? ==> GatesHold(source, r.value) && !event.RetryScheduled?
  {
    if source.WaitingUserReview? then (
      if event.UserApproved? then Some(Row(To(ReadyForMerge), ResultApprovalExists))
      else if event.UserFeedback? then Some(Row(To(Repairing), Deferred))
      else if event.UserCancelled? then Some(Row(To(Cancelled), NoGuard))
      else None
    ) else if source.ReadyForMerge? then (
      if event.MergeCompleted? then Some(Row(To(Merged), ResultApprovalExists))
      else if event.MergeConflict? then Some(Row(To(Conflicted), NoGuard))
      else None
    ) else if source.Merged? then (
      if event.DeliveredToUser? then Some(Row(To(Delivered), Deferred))
      else None
    ) else if source.Delivered? then (
      if event.MemoryUpdated? then Some(Row(To(Cleanup), Deferred))
      else None
    ) else if source.Cleanup? then (
      if event.CleanupCompleted? then Some(Row(To(Completed), Deferred))
      else None
    ) else None
  }

  function DevelopmentRecovery(source: State, event: Event): (r: Option<Row>)
    ensures r.Some? && r.value.target.To? ==> Entered(Development, r.value.target.state)
    ensures r.Some? && r.value.target.To? && !source.McpConnectionFailed? ==> GatesHold(source, r.value)
    ensures r.Some? && event.RetryScheduled? ==> r.value == Row(Checkpoint, CanRetry)
  {
    if source.WaitingInformation? then (
      if event.InfoProvided? then Some(Row(Checkpoint, CheckpointExists))
      else None
    ) else if source.WaitingDependency? then (
      if event.DependencyResolved? then Some(Row(Checkpoint, CheckpointExists))
      else None
    ) else if source.WaitingExpertConfirmation? then (
      if event.ExpertAnswerUnblocks? then Some(Row(Checkpoint, CheckpointExists))
      else if event.ExpertAnswerAdjustsScope? then Some(Row(To(Supervising), NoGuard))
      else if event.ExpertAnswerStops? then Some(Row(To(Cancelled), NoGuard))
      else None
    ) else if source.Blocked? then (
      if event.BlockResolved? then Some(Row(Checkpoint, CheckpointExists))
      else None
    ) else if source.Conflicted? then (
      if event.RebaseSucceeded? then Some(Row(To(LocalValidating), Deferred))
      else if event.RebaseFailed? then Some(Row(To(Supervising), NoGuard))
      else None
    ) else if source.Failed? then (
      if event.RetryScheduled? then Some(Row(Checkpoint, CanRetry))
      else if event.RetryExhaustedScopeDown? then Some(Row(To(Supervising), NoGuard))
      else if event.RetryExhaustedConsult? then Some(Row(To(WaitingExpertConfirmation), NoGuard))
      else if event.RetryExhaustedStop? then Some(Row(To(Cancelled), NoGuard))
      else None
    ) else if source.TokenBudgetExceeded? then (
      if event.BudgetIncreaseApproved? then Some(Row(Checkpoint, CheckpointExists))
      else if event.BudgetIncreaseDenied? then Some(Row(To(Supervising), NoGuard))
      else if event.BudgetDeniedStop? then Some(Row(To(Cancelled), NoGuard))
      else None
    ) else if source.McpConnectionFailed? then (
      if event.McpRetrySucceeded? then Some(Row(Checkpoint, CheckpointExists))
      else if event.McpAlternativeSelected? then Some(Row(To(Supervising), NoGuard))
      else if event.McpRetryExhausted? then Some(Row(To(WaitingExpertConfirmation), NoGuard))
      else None
    ) else if source.AgentValidationFailed? then (
      if event.CorrectionSucceeded? then Some(Row(Checkpoint, CheckpointExists))
      else if event.CorrectionExhausted? then Some(Row(To(Failed), NoGuard))
      else None
    ) else if source.AutoBlockedByPolicy? then (
      if event.AlternativeAccepted? then Some(Row(To(Supervising), NoGuard))
      else if event.RequirementChangeNeeded? then Some(Row(To(Cancelled), NoGuard))
      else if event.BlockAcknowledgedStop? then Some(Row(To(Cancelled), NoGuard))
      else None
    ) else None
  }
}
