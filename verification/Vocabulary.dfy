/** The enumerations shared by every component: states, events, guards and the
    vocabularies of the guard tables (app/core/enums.py). */
module Vocabulary {

  datatype Option<+T> = None | Some(value: T)

  datatype Machine = Product | Development

  /** The states of both machines. The exception states the machines have in common are shared. */
  datatype State =
    // Product Definition
    | IdeaReceived
    | DocumentAnalyzing
    | Classifying
    | RequirementDrafting
    | WaitingRequirementInput
    | WaitingRequirementApproval
    | SpecificationGenerating
    | CapabilityAnalyzing
    | ExpansionProposing
    | WaitingExpansionApproval
    | BacklogGenerating
    | Bootstrapping
    | ReadyForDevelopment
    // Product exception states
    | WaitingApproval
    | ExpansionRejected
    // exception states of both machines
    | WaitingExpertConfirmation
    | Blocked
    | Failed
    | Cancelled
    | TokenBudgetExceeded
    | McpConnectionFailed
    | AgentValidationFailed
    | AutoBlockedByPolicy
    // Development
    | Received
    | Validating
    | ContextBuilding
    | Supervising
    | WaitingPlanApproval
    | WorkspaceCreating
    | Implementing
    | LocalValidating
    | Committing
    | PrCreating
    | CiRunning
    | Reviewing
    | Repairing
    | Packaging
    | WaitingUserReview
    | ReadyForMerge
    | Merged
    | Delivered
    | Cleanup
    | Completed
    // Development exception states
    | WaitingInformation
    | WaitingDependency
    | Conflicted

  /** Every event some row of a table names; `OtherEvent` stands for any name that no row has. */
  datatype Event =
    | AnalysisStarted | AnalysisCompleted | AnalysisFailed | AgentOutputInvalid
    | ClassifiedSelfService | ClassifiedAiAssisted | ClassifiedExpertReview | ExpertConfirmedProceed
    | ClassifiedUnsupported | ProhibitedScopeDetected
    | DraftHasUnknowns | DraftCompleted | UserAnswered
    | RequirementsApproved | ChangesRequested
    | SpecCompleted | NoGapFound | GapFound
    | ProposalAutoApproved | ProposalNeedsUser | ProposalNeedsExpert | ProposalBlocked
    | ExpansionApproved | ExpansionDenied
    | BacklogReadyNewRepo | BacklogReadyExisting | BootstrapCompleted | BootstrapFailed
    | BudgetExhausted
    | ApprovalGranted | ApprovalDenied
    | ExpertAnswerUnblocks | ExpertAnswerAdjustsScope | ExpertAnswerStops
    | BlockResolved
    | RetryScheduled | RetryExhaustedScopeDown | RetryExhaustedConsult | RetryExhaustedStop
    | BudgetIncreaseApproved | BudgetIncreaseDenied | BudgetDeniedStop
    | ScopeReducedRetry | RejectAcceptedStop
    | McpRetrySucceeded | McpAlternativeSelected | McpRetryExhausted
    | CorrectionSucceeded | CorrectionExhausted
    | AlternativeAccepted | BlockAcknowledgedStop
    // Development
    | TaskAccepted | ValidationPassed | ValidationFailed | DependencyUnmet
    | ContextReady | InfoMissing
    | PlanAutoApproved | PlanNeedsUser | PlanNeedsExpert | PlanBlocked | PlanApproved | PlanRejected
    | WorkspaceReady | LockConflict
    | CodeCompleted | ImplementFailed
    | QualityGatePassed | QualityGateFailed | RepairLimitExceeded
    | Pushed | BaseDriftDetected
    | PrCreated | PrCreateFailed
    | CiPassed | CiFailed
    | ReviewApproved | ReviewChangesRequested
    | RepairCompleted
    | PackageReady | PackagingFailed
    | UserApproved | UserFeedback | UserCancelled
    | MergeCompleted | MergeConflict
    | DeliveredToUser | MemoryUpdated | CleanupCompleted
    | InfoProvided | DependencyResolved
    | RebaseSucceeded | RebaseFailed
    | RequirementChangeNeeded
    | OtherEvent(name: string)

  /** The guards of the registry. `Deferred` stands for every `deferred:` name; `NoGuard` for none. */
  datatype Guard =
    | NoGuard
    | Deferred
    | HasPlanningInput
    | ClassificationSaved
    | ProhibitedDetected
    | ExpertNotConfirmed
    | ExpertConfirmed
    | ExpertConfirmedWithCheckpoint
    | OpenQuestionsExist
    | NoOpenQuestions
    | AnsweredQuestionExists
    | RequirementsApprovalExists
    | RequirementsChangeRequestExists
    | ReducedScopeApprovalExists
    | ExpansionApprovalExists
    | PlanApprovalExists
    | ResultApprovalExists
    | PrdDocumentExists
    | BacklogDocumentExists
    | CapabilityNoGap
    | CapabilityGapExists
    | CheckpointExists
    | CanRetry
    | PolicyDecided(expected: PolicyDecision)

  datatype PolicyDecision = AutoApprove | UserApproval | ExpertRequired | AutoBlocked

  datatype ApprovalType = Requirements | ReducedScope | Expansion | Plan | Result
  datatype ApprovalDecision = Approved | Rejected | ApprovalChangesRequested

  datatype DocumentKind = Uploaded | Generated
  datatype DocumentType = Idea | Reference | Prd | Backlog

  datatype Gate = Proceed | NeedsApproval | NeedsExpert | GateBlocked | Unsupported
}
