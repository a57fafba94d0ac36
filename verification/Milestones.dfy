/** Which events must lie behind a project or a task before it can be in a state: what the transition
    tables promise about the order of the work (app/orchestrator/transitions.py). */
module Milestones {
  import opened Vocabulary
  import opened Transitions
  import opened Engine
  import opened EngineRuns
  import opened Guarantees

  /** A subject in state `x` has `e` in its log. */
  predicate Behind(m: Machine, x: State, e: Event) {
    match m
    case Product => BehindProduct(x, e)
    case Development => BehindDevelopment(x, e)
  }

  predicate BehindProduct(x: State, e: Event) {
    || (e.AnalysisStarted? && !x.IdeaReceived?)
    || (e.AnalysisCompleted? && (x.Classifying? || x.WaitingApproval?))
    || (e.ClassifiedAiAssisted? && x.WaitingApproval?)
    || (e.DraftHasUnknowns? && x.WaitingRequirementInput?)
    || (e.DraftCompleted? && (x.WaitingRequirementApproval? || x.SpecificationGenerating? || IsSpecified(x)))
    || (e.RequirementsApproved? && (x.SpecificationGenerating? || IsSpecified(x)))
    || (e.SpecCompleted? && IsSpecified(x))
    || (e.GapFound? && (x.ExpansionProposing? || x.WaitingExpansionApproval? || x.ExpansionRejected?))
    || (e.ProposalNeedsUser? && (x.WaitingExpansionApproval? || x.ExpansionRejected?))
    || (e.ExpansionDenied? && x.ExpansionRejected?)
    || (e.BacklogReadyNewRepo? && x.Bootstrapping?)
    || (e.BudgetExhausted? && x.TokenBudgetExceeded?)
    || (e.AgentOutputInvalid? && x.AgentValidationFailed?)
  }

  predicate IsSpecified(x: State) {
    x.CapabilityAnalyzing? || x.ExpansionProposing? || x.WaitingExpansionApproval? || x.ExpansionRejected? ||
    x.BacklogGenerating? || x.Bootstrapping? || x.ReadyForDevelopment?
  }

  predicate BehindDevelopment(x: State, e: Event) {
    || (e.TaskAccepted? && !x.Received?)
    || (e.ValidationPassed? && (x.ContextBuilding? || x.WaitingInformation?))
    || (e.InfoMissing? && x.WaitingInformation?)
    || (e.DependencyUnmet? && x.WaitingDependency?)
    || (e.PlanNeedsUser? && x.WaitingPlanApproval?)
    || (e.PlanBlocked? && x.AutoBlockedByPolicy?)
    || (e.WorkspaceReady? && x.Implementing?)
    || (e.QualityGatePassed? && (x.Committing? || x.PrCreating? || x.CiRunning? || x.Reviewing? || x.Packaging?))
    || (e.Pushed? && (x.PrCreating? || x.CiRunning? || x.Reviewing? || x.Packaging?))
    || (e.PrCreated? && (x.CiRunning? || x.Reviewing? || x.Packaging?))
    || (e.CiPassed? && (x.Reviewing? || x.Packaging?))
    || (e.ReviewApproved? && x.Packaging?)
    || (e.UserApproved? && (x.ReadyForMerge? || x.Merged? || x.Delivered? || x.Cleanup? || x.Completed?))
    || (e.MergeCompleted? && (x.Merged? || x.Delivered? || x.Cleanup? || x.Completed?))
    || (e.DeliveredToUser? && (x.Delivered? || x.Cleanup? || x.Completed?))
    || (e.MemoryUpdated? && (x.Cleanup? || x.Completed?))
    || (e.CleanupCompleted? && x.Completed?)
    || (e.BudgetExhausted? && x.TokenBudgetExceeded?)
    || (e.AgentOutputInvalid? && x.AgentValidationFailed?)
  }

  /** What lies behind the target of a row lies behind its source, or is the event itself. */
  predicate Carries(m: Machine, x: State, event: Event, r: Option<Row>, e: Event) {
    r.Some? && r.value.target.To? && Behind(m, r.value.target.state, e) ==> Behind(m, x, e) || e == event
  }

  lemma PlanningCarries(x: State, event: Event, e: Event)
    requires x.IdeaReceived? || x.DocumentAnalyzing? || x.Classifying?
    ensures Carries(Product, x, event, ProductMain(x, event), e)
  {
    hide GatesHold, Entered, BehindDevelopment, ProductDelivery;
  }

  lemma RequirementsCarries(x: State, event: Event, e: Event)
    requires x.RequirementDrafting? || x.WaitingRequirementInput?
    ensures Carries(Product, x, event, ProductMain(x, event), e)
  {
    hide GatesHold, Entered, BehindDevelopment, ProductDelivery;
  }

  lemma SpecificationCarries(x: State, event: Event, e: Event)
    requires x.WaitingRequirementApproval? || x.SpecificationGenerating?
    ensures Carries(Product, x, event, ProductDelivery(x, event), e)
  {
    hide GatesHold, Entered, BehindDevelopment;
  }

  lemma ExpansionCarries(x: State, event: Event, e: Event)
    requires x.CapabilityAnalyzing? || x.ExpansionProposing?
    ensures Carries(Product, x, event, ProductDelivery(x, event), e)
  {
    hide GatesHold, Entered, BehindDevelopment;
  }

  lemma BacklogCarries(x: State, event: Event, e: Event)
    requires x.WaitingExpansionApproval? || x.BacklogGenerating? || x.Bootstrapping?
    ensures Carries(Product, x, event, ProductDelivery(x, event), e)
  {
    hide GatesHold, Entered, BehindDevelopment;
  }

  lemma ProductWaitingCarries(x: State, event: Event, e: Event)
    requires x.WaitingApproval? || x.WaitingExpertConfirmation? || x.Failed?
    ensures Carries(Product, x, event, ProductRecovery(x, event), e)
  {
    hide GatesHold, Entered, BehindDevelopment;
  }

  lemma ProductRefusalCarries(x: State, event: Event, e: Event)
    requires x.TokenBudgetExceeded? || x.ExpansionRejected? || x.AgentValidationFailed? || x.AutoBlockedByPolicy?
    ensures Carries(Product, x, event, ProductRecovery(x, event), e)
  {
    hide GatesHold, Entered, BehindDevelopment;
  }

  lemma PreparationCarries(x: State, event: Event, e: Event)
    requires x.Received? || x.Validating? || x.ContextBuilding?
    ensures Carries(Development, x, event, DevelopmentMain(x, event), e)
  {
    hide GatesHold, Entered, BehindProduct, DevelopmentWork;
  }

  lemma SupervisionCarries(x: State, event: Event, e: Event)
    requires x.Supervising? || x.WaitingPlanApproval?
    ensures Carries(Development, x, event, DevelopmentMain(x, event), e)
  {
    hide GatesHold, Entered, BehindProduct, DevelopmentWork;
  }

  lemma ImplementationCarries(x: State, event: Event, e: Event)
    requires x.WorkspaceCreating? || x.Implementing?
    ensures Carries(Development, x, event, DevelopmentWork(x, event), e)
  {
    hide GatesHold, Entered, BehindProduct, DevelopmentDelivery;
  }

  lemma ValidationCarries(x: State, event: Event, e: Event)
    requires x.LocalValidating? || x.Committing?
    ensures Carries(Development, x, event, DevelopmentWork(x, event), e)
  {
    hide GatesHold, Entered, BehindProduct, DevelopmentDelivery;
  }

  lemma IntegrationCarries(x: State, event: Event, e: Event)
    requires x.PrCreating? || x.CiRunning?
    ensures Carries(Development, x, event, DevelopmentDelivery(x, event), e)
  {
    hide GatesHold, Entered, BehindProduct, DevelopmentHandover;
  }

  lemma ReviewCarries(x: State, event: Event, e: Event)
    requires x.Reviewing? || x.Packaging?
    ensures Carries(Development, x, event, DevelopmentDelivery(x, event), e)
  {
    hide GatesHold, Entered, BehindProduct, DevelopmentHandover;
  }

  lemma RepairCarries(x: State, event: Event, e: Event)
    requires x.Repairing?
    ensures Carries(Development, x, event, DevelopmentDelivery(x, event), e)
  {
    hide GatesHold, Entered, BehindProduct, DevelopmentHandover;
  }

  lemma HandoverCarries(x: State, event: Event, e: Event)
    requires x.WaitingUserReview? || x.ReadyForMerge? || x.Merged? || x.Delivered? || x.Cleanup?
    ensures Carries(Development, x, event, DevelopmentHandover(x, event), e)
  {
    hide GatesHold, Entered, BehindProduct;
  }

  lemma TaskWaitingCarries(x: State, event: Event, e: Event)
    requires x.WaitingExpertConfirmation? || x.Conflicted? || x.Failed?
    ensures Carries(Development, x, event, DevelopmentRecovery(x, event), e)
  {
    hide GatesHold, Entered, BehindProduct;
  }

  lemma TaskRefusalCarries(x: State, event: Event, e: Event)
    requires x.TokenBudgetExceeded? || x.AgentValidationFailed? || x.AutoBlockedByPolicy?
    ensures Carries(Development, x, event, DevelopmentRecovery(x, event), e)
  {
    hide GatesHold, Entered, BehindProduct;
  }

  lemma ProductDeliveryCarries(x: State, event: Event, e: Event)
    ensures Carries(Product, x, event, ProductDelivery(x, event), e)
  {
    hide GatesHold, Entered, Behind;
    if x.WaitingRequirementApproval? || x.SpecificationGenerating? {
      SpecificationCarries(x, event, e);
    } else if x.CapabilityAnalyzing? || x.ExpansionProposing? {
      ExpansionCarries(x, event, e);
    } else if x.WaitingExpansionApproval? || x.BacklogGenerating? || x.Bootstrapping? {
      BacklogCarries(x, event, e);
    }
  }

  lemma ProductMainCarries(x: State, event: Event, e: Event)
    ensures Carries(Product, x, event, ProductMain(x, event), e)
  {
    hide GatesHold, Entered, Behind, ProductDelivery;
    if x.IdeaReceived? || x.DocumentAnalyzing? || x.Classifying? {
      PlanningCarries(x, event, e);
    } else if x.RequirementDrafting? || x.WaitingRequirementInput? {
      RequirementsCarries(x, event, e);
    } else {
      ProductDeliveryCarries(x, event, e);
    }
  }

  lemma ProductRecoveryCarries(x: State, event: Event, e: Event)
    requires !x.McpConnectionFailed?
    ensures Carries(Product, x, event, ProductRecovery(x, event), e)
  {
    hide GatesHold, Entered, Behind;
    if x.WaitingApproval? || x.WaitingExpertConfirmation? || x.Failed? {
      ProductWaitingCarries(x, event, e);
    } else if x.TokenBudgetExceeded? || x.ExpansionRejected? || x.AgentValidationFailed? || x.AutoBlockedByPolicy? {
      ProductRefusalCarries(x, event, e);
    }
  }

  lemma DevelopmentHandoverCarries(x: State, event: Event, e: Event)
    ensures Carries(Development, x, event, DevelopmentHandover(x, event), e)
  {
    hide GatesHold, Entered, Behind;
    if x.WaitingUserReview? || x.ReadyForMerge? || x.Merged? || x.Delivered? || x.Cleanup? {
      HandoverCarries(x, event, e);
    }
  }

  lemma DevelopmentDeliveryCarries(x: State, event: Event, e: Event)
    ensures Carries(Development, x, event, DevelopmentDelivery(x, event), e)
  {
    hide GatesHold, Entered, Behind, DevelopmentHandover;
    if x.PrCreating? || x.CiRunning? {
      IntegrationCarries(x, event, e);
    } else if x.Reviewing? || x.Packaging? {
      ReviewCarries(x, event, e);
    } else if x.Repairing? {
      RepairCarries(x, event, e);
    } else {
      DevelopmentHandoverCarries(x, event, e);
    }
  }

  lemma DevelopmentWorkCarries(x: State, event: Event, e: Event)
    ensures Carries(Development, x, event, DevelopmentWork(x, event), e)
  {
    hide GatesHold, Entered, Behind, DevelopmentDelivery;
    if x.WorkspaceCreating? || x.Implementing? {
      ImplementationCarries(x, event, e);
    } else if x.LocalValidating? || x.Committing? {
      ValidationCarries(x, event, e);
    } else {
      DevelopmentDeliveryCarries(x, event, e);
    }
  }

  lemma DevelopmentMainCarries(x: State, event: Event, e: Event)
    ensures Carries(Development, x, event, DevelopmentMain(x, event), e)
  {
    hide GatesHold, Entered, Behind, DevelopmentWork;
    if x.Received? || x.Validating? || x.ContextBuilding? {
      PreparationCarries(x, event, e);
    } else if x.Supervising? || x.WaitingPlanApproval? {
      SupervisionCarries(x, event, e);
    } else {
      DevelopmentWorkCarries(x, event, e);
    }
  }

  lemma DevelopmentRecoveryCarries(x: State, event: Event, e: Event)
    requires !x.McpConnectionFailed?
    ensures Carries(Development, x, event, DevelopmentRecovery(x, event), e)
  {
    hide GatesHold, Entered, Behind;
    if x.WaitingExpertConfirmation? || x.Conflicted? || x.Failed? {
      TaskWaitingCarries(x, event, e);
    } else if x.TokenBudgetExceeded? || x.AgentValidationFailed? || x.AutoBlockedByPolicy? {
      TaskRefusalCarries(x, event, e);
    }
  }

  lemma RowCarries(m: Machine, x: State, event: Event, e: Event)
    requires !x.McpConnectionFailed?
    ensures Carries(m, x, event, RowFor(m, x, event), e)
  {
    hide WellPlaced, GatesHold, Entered, Behind, IsException, ProductMain, ProductRecovery, DevelopmentMain,
         DevelopmentRecovery;
    ProductMainCarries(x, event, e);
    ProductRecoveryCarries(x, event, e);
    DevelopmentMainCarries(x, event, e);
    DevelopmentRecoveryCarries(x, event, e);
  }

  // ---------------------------------------------------------------- in every run

  ghost predicate Happened(log: seq<EventRow>, e: Event) {
    exists i :: 0 <= i < |log| && log[i].event == e
  }

  /** Everything that lies behind the status or a checkpoint has happened. */
  ghost predicate Earned(m: Machine, v: View) {
    forall x, e :: Behind(m, x, e) && (x == v.status || x in v.checkpoints) ==> Happened(v.log, e)
  }

  lemma HappenedStays(log: seq<EventRow>, row: EventRow, e: Event)
    requires Happened(log, e) || row.event == e
    ensures Happened(log + [row], e)
  {
    if row.event == e {
      assert (log + [row])[|log|].event == e;
    } else {
      var i :| 0 <= i < |log| && log[i].event == e;
      assert (log + [row])[i].event == e;
    }
  }

  lemma AppliedKeepsEarned(cfg: Config, rows: ProjectRows, v: View, c: Command)
    requires Earned(c.subject.Machine(), v) && !v.status.McpConnectionFailed?
    requires Judge(cfg, c.subject.Machine(), v, rows, c.event, c.ctx).Applied?
    ensures Earned(c.subject.Machine(), NextView(v, c, Judge(cfg, c.subject.Machine(), v, rows, c.event, c.ctx)))
  {
    hide RowFor, GuardHolds, Behind, SavesCheckpoint, Happened, AuditRowFor;
    var m := c.subject.Machine();
    var o := Judge(cfg, m, v, rows, c.event, c.ctx);
    var next := NextView(v, c, o);
    var row := EventRow(c.subject, c.event, o.from, o.to, c.key, c.at);
    forall x, e | Behind(m, x, e) && (x == next.status || x in next.checkpoints) ensures Happened(next.log, e) {
      if x in v.checkpoints || x == v.status {
        HappenedStays(v.log, row, e);
      } else {
        RowCarries(m, v.status, c.event, e);
        HappenedStays(v.log, row, e);
      }
    }
  }

  lemma {:induction false} RunKeepsEarned(cfg: Config, steps: seq<Step>, s: Subject)
    ensures Earned(s.Machine(), ViewOf(After(cfg, steps), s))
  {
    hide Judge, ViewOf, Happened, Behind, MustNotify;
    if steps == [] {
      NothingEarned(s);
    } else {
      var n := |steps| - 1;
      var db := After(cfg, steps[..n]);
      RunKeepsEarned(cfg, steps[..n], s);
      match steps[n]
      case Fire(c) =>
        var o := Decide(cfg, db, c);
        EffectOnViews(db, c, o, s);
        if s == c.subject && o.Applied? {
          StaysInMachine(cfg, steps[..n], s);
          StatusInView(db, s);
          AppliedKeepsEarned(cfg, RowsOf(db, s.Project()), ViewOf(db, s), c);
        }
      case Check(t, now) => CheckOnViews(cfg, db, t, now, s);
      case Write(p, rows) => WriteKeepsViews(cfg, db, p, rows, s);
    }
  }

  lemma StatusInView(db: Db, s: Subject)
    ensures ViewOf(db, s).status == StatusOf(db, s)
  {}

  lemma NothingEarned(s: Subject)
    ensures Earned(s.Machine(), ViewOf(EMPTY, s))
  {}

  /** After every run a subject has gone through everything that lies behind its state and behind the
      states it could still resume. */
  lemma MilestonesHappened(cfg: Config, steps: seq<Step>, s: Subject, x: State, e: Event)
    requires x == StatusOf(After(cfg, steps), s) || x in CheckpointsOf(After(cfg, steps).checkpoints, s)
    requires Behind(s.Machine(), x, e)
    ensures Happened(LogOf(After(cfg, steps).events, s), e)
  {
    hide After, Happened, Behind;
    RunKeepsEarned(cfg, steps, s);
  }

  /** A task is reviewed only after its gate passed and its pull request was built, packaged only after
      a review approved it, and ready for merge only after the user approved it. */
  lemma ReviewedPackagedMerged(cfg: Config, steps: seq<Step>, s: Subject)
    requires s.TaskSubject?
    ensures
      var x, log := StatusOf(After(cfg, steps), s), LogOf(After(cfg, steps).events, s);
      && (x == Reviewing || x == Packaging ==>
            Happened(log, QualityGatePassed) && Happened(log, Pushed) && Happened(log, PrCreated) &&
            Happened(log, CiPassed))
      && (x == Packaging ==> Happened(log, ReviewApproved))
      && (x == ReadyForMerge || x == Merged || x == Completed ==> Happened(log, UserApproved))
      && (x == Merged || x == Completed ==> Happened(log, MergeCompleted))
  {
    hide After, Happened, Earned, LogOf, CheckpointsOf, AuditOf;
    var x := StatusOf(After(cfg, steps), s);
    forall e | Behind(Development, x, e) ensures Happened(LogOf(After(cfg, steps).events, s), e) {
      MilestonesHappened(cfg, steps, s, x, e);
    }
    if x == Reviewing || x == Packaging {
      assert Behind(Development, x, QualityGatePassed) && Behind(Development, x, Pushed);
      assert Behind(Development, x, PrCreated) && Behind(Development, x, CiPassed);
    }
    assert x == Packaging ==> Behind(Development, x, ReviewApproved);
    assert x == ReadyForMerge || x == Merged || x == Completed ==> Behind(Development, x, UserApproved);
    assert x == Merged || x == Completed ==> Behind(Development, x, MergeCompleted);
  }

  /** A project is ready for development only after an analysis, a draft without open questions, an
      approval of it and a specification. */
  lemma ReadyAfterSpecification(cfg: Config, steps: seq<Step>, s: Subject)
    requires s.ProjectSubject? && StatusOf(After(cfg, steps), s) == ReadyForDevelopment
    ensures
      var log := LogOf(After(cfg, steps).events, s);
      Happened(log, AnalysisStarted) && Happened(log, DraftCompleted) && Happened(log, RequirementsApproved) &&
      Happened(log, SpecCompleted)
  {
    hide After, Happened, Earned, LogOf, CheckpointsOf, AuditOf;
    MilestonesHappened(cfg, steps, s, ReadyForDevelopment, AnalysisStarted);
    MilestonesHappened(cfg, steps, s, ReadyForDevelopment, DraftCompleted);
    MilestonesHappened(cfg, steps, s, ReadyForDevelopment, RequirementsApproved);
    MilestonesHappened(cfg, steps, s, ReadyForDevelopment, SpecCompleted);
  }
}
