/** Runs that reach the ends of both machines, and one that reaches READY_FOR_MERGE without any CI
    (app/orchestrator/transitions.py). */
module Routes {
  import opened Vocabulary
  import opened Transitions
  import opened Engine
  import opened EngineRuns
  import opened Guarantees

  /** An event fired with a context, and the state it should lead to. */
  datatype Leg = Leg(event: Event, ctx: Context, to: State)

  function End(m: Machine, route: seq<Leg>): State {
    if route == [] then InitialState(m) else route[|route| - 1].to
  }

  /** The row of an event in a state. */
  predicate Leads(m: Machine, x: State, event: Event, to: State, g: Guard) {
    RowFor(m, x, event) == Some(Row(To(to), g))
  }

  predicate IsCheck(event: Event) {
    event.QualityGatePassed? || event.CiPassed? || event.ReviewApproved?
  }

  predicate Unchecked(route: seq<Leg>) {
    forall i :: 0 <= i < |route| ==> !IsCheck(route[i].event)
  }

  /** From a state, on a project's rows, the leg follows a row that names its target and whose guard
      holds and does not depend on the subject's log or checkpoints. */
  predicate Follows(cfg: Config, m: Machine, rows: ProjectRows, x: State, leg: Leg) {
    var r := RowFor(m, x, leg.event);
    && r.Some? && r.value.target == To(leg.to)
    && !r.value.guard.CanRetry?
    && GuardHolds(cfg, View(x, [], [], []), rows, leg.ctx, r.value.guard)
  }

  ghost predicate IsRoute(cfg: Config, m: Machine, rows: ProjectRows, route: seq<Leg>) {
    forall i :: 0 <= i < |route| ==> Follows(cfg, m, rows, End(m, route[..i]), route[i])
  }

  lemma ByRow(cfg: Config, m: Machine, rows: ProjectRows, x: State, leg: Leg, g: Guard)
    requires Leads(m, x, leg.event, leg.to, g) && !g.CanRetry?
    requires GuardHolds(cfg, View(x, [], [], []), rows, leg.ctx, g)
    ensures Follows(cfg, m, rows, x, leg)
  {
    hide RowFor, GuardHolds;
  }

  lemma Guarded(cfg: Config, m: Machine, rows: ProjectRows, route: seq<Leg>, from: State, leg: Leg, g: Guard)
    returns (next: seq<Leg>)
    requires IsRoute(cfg, m, rows, route) && End(m, route) == from
    requires Leads(m, from, leg.event, leg.to, g) && !g.CanRetry?
    requires GuardHolds(cfg, View(from, [], [], []), rows, leg.ctx, g)
    ensures IsRoute(cfg, m, rows, next) && End(m, next) == leg.to
    ensures Unchecked(route) && !IsCheck(leg.event) ==> Unchecked(next)
  {
    hide Follows, RowFor, GuardHolds;
    ByRow(cfg, m, rows, from, leg, g);
    next := route + [leg];
    forall i | 0 <= i < |next| ensures Follows(cfg, m, rows, End(m, next[..i]), next[i]) {
      if i < |route| {
        assert next[..i] == route[..i];
      } else {
        assert next[..i] == route;
      }
    }
  }

  /** A leg whose row asks for nothing. */
  lemma Freely(cfg: Config, m: Machine, rows: ProjectRows, route: seq<Leg>, from: State, event: Event, to: State)
    returns (next: seq<Leg>)
    requires IsRoute(cfg, m, rows, route) && End(m, route) == from
    requires Leads(m, from, event, to, Deferred) || Leads(m, from, event, to, NoGuard)
    ensures IsRoute(cfg, m, rows, next) && End(m, next) == to
    ensures Unchecked(route) && !IsCheck(event) ==> Unchecked(next)
  {
    hide RowFor, IsRoute, Unchecked, End;
    next := Guarded(cfg, m, rows, route, from, Leg(event, NO_CONTEXT, to), RowFor(m, from, event).value.guard);
  }

  /** The run that writes the rows and then fires the legs one after the other. */
  function RunOf(s: Subject, rows: ProjectRows, route: seq<Leg>): seq<Step> {
    [Write(s.Project(), rows)] +
    seq(|route|, i requires 0 <= i < |route| => Fire(Command(s, route[i].event, None, route[i].ctx, i)))
  }

  ghost predicate Logs(log: seq<EventRow>, route: seq<Leg>) {
    |log| == |route| && forall i :: 0 <= i < |log| ==> log[i].event == route[i].event
  }

  lemma GuardIgnoresView(cfg: Config, v: View, w: View, rows: ProjectRows, ctx: Context, g: Guard)
    requires GuardHolds(cfg, v, rows, ctx, g) && !g.CanRetry? && v.checkpoints == []
    ensures GuardHolds(cfg, w, rows, ctx, g)
  {}

  lemma LegRuns(cfg: Config, db: Db, s: Subject, leg: Leg, at: int)
    requires Follows(cfg, s.Machine(), RowsOf(db, s.Project()), StatusOf(db, s), leg)
    ensures
      var next := Do(cfg, db, Fire(Command(s, leg.event, None, leg.ctx, at)));
      && StatusOf(next, s) == leg.to && RowsOf(next, s.Project()) == RowsOf(db, s.Project())
      && LogOf(next.events, s) ==
           LogOf(db.events, s) + [EventRow(s, leg.event, StatusOf(db, s), leg.to, None, at)]
  {
    hide RowFor, GuardHolds, LogOf, CheckpointsOf, AuditOf, SavesCheckpoint;
    var c := Command(s, leg.event, None, leg.ctx, at);
    var row := RowFor(s.Machine(), StatusOf(db, s), leg.event).value;
    var rows := RowsOf(db, s.Project());
    GuardIgnoresView(cfg, View(StatusOf(db, s), [], [], []), ViewOf(db, s), rows, leg.ctx, row.guard);
    LogOfAppend(db.events, EventRow(s, leg.event, StatusOf(db, s), leg.to, None, at), s);
  }

  lemma OneMoreLeg(s: Subject, rows: ProjectRows, route: seq<Leg>)
    requires route != []
    ensures
      var n := |route| - 1;
      var c := Command(s, route[n].event, None, route[n].ctx, n);
      RunOf(s, rows, route) == RunOf(s, rows, route[..n]) + [Fire(c)]
  {}

  lemma Shorter(cfg: Config, m: Machine, rows: ProjectRows, route: seq<Leg>)
    requires IsRoute(cfg, m, rows, route) && route != []
    ensures
      var n := |route| - 1;
      IsRoute(cfg, m, rows, route[..n]) && Follows(cfg, m, rows, End(m, route[..n]), route[n])
  {
    hide Follows;
    var n := |route| - 1;
    assert forall i :: 0 <= i <= n ==> route[..n][..i] == route[..i];
  }

  lemma {:induction false} RouteRuns(cfg: Config, s: Subject, rows: ProjectRows, route: seq<Leg>)
    requires IsRoute(cfg, s.Machine(), rows, route)
    ensures
      var db := After(cfg, RunOf(s, rows, route));
      && StatusOf(db, s) == End(s.Machine(), route) && RowsOf(db, s.Project()) == rows
      && Logs(LogOf(db.events, s), route)
  {
    hide Follows, IsRoute, After, LogOf, RunOf, Do, StatusOf, RowsOf;
    if route == [] {
      NothingRun(cfg, s, rows);
    } else {
      var n := |route| - 1;
      var db := After(cfg, RunOf(s, rows, route[..n]));
      Shorter(cfg, s.Machine(), rows, route);
      RouteRuns(cfg, s, rows, route[..n]);
      OneMoreLeg(s, rows, route);
      RunStep(cfg, RunOf(s, rows, route[..n]), Fire(Command(s, route[n].event, None, route[n].ctx, n)));
      LegRuns(cfg, db, s, route[n], n);
    }
  }

  lemma UncheckedLog(log: seq<EventRow>, route: seq<Leg>)
    requires Logs(log, route) && Unchecked(route)
    ensures forall e :: e in log ==> !IsCheck(e.event)
  {
    hide IsCheck;
  }

  lemma NothingRun(cfg: Config, s: Subject, rows: ProjectRows)
    ensures
      var db := After(cfg, RunOf(s, rows, []));
      StatusOf(db, s) == InitialState(s.Machine()) && RowsOf(db, s.Project()) == rows && LogOf(db.events, s) == []
  {
    assert RunOf(s, rows, []) == [] + [Write(s.Project(), rows)];
    RunStep(cfg, [], Write(s.Project(), rows));
  }

  // ---------------------------------------------------------------- the routes

  const RESULT_APPROVED := NO_ROWS.(approvals := [Approval(Result, Approved)])

  const AUTO := Context(None, Some(AutoApprove))

  const SPECIFIED := ProjectRows(true, [Document(Generated, Prd), Document(Generated, Backlog)],
                                 [Classification(Proceed, [], false)], [], [Approval(Requirements, Approved)])

  lemma Start(cfg: Config, m: Machine, rows: ProjectRows) returns (route: seq<Leg>)
    ensures route == [] && IsRoute(cfg, m, rows, route) && End(m, route) == InitialState(m) && Unchecked(route)
  {
    route := [];
  }

  lemma PreparationRows()
    ensures Leads(Development, Received, TaskAccepted, Validating, Deferred)
    ensures Leads(Development, Validating, ValidationPassed, ContextBuilding, Deferred)
    ensures Leads(Development, ContextBuilding, ContextReady, Supervising, Deferred)
    ensures Leads(Development, Supervising, PlanAutoApproved, WorkspaceCreating, PolicyDecided(AutoApprove))
  {
    hide WellPlaced, GatesHold, Entered, IsStateOf;
  }

  lemma ImplementationRows()
    ensures Leads(Development, WorkspaceCreating, WorkspaceReady, Implementing, Deferred)
    ensures Leads(Development, Implementing, CodeCompleted, LocalValidating, Deferred)
    ensures Leads(Development, LocalValidating, RepairLimitExceeded, WaitingUserReview, NoGuard)
  {
    hide WellPlaced, GatesHold, Entered, IsStateOf;
  }

  lemma IntegrationRows()
    ensures Leads(Development, LocalValidating, QualityGatePassed, Committing, Deferred)
    ensures Leads(Development, Committing, Pushed, PrCreating, Deferred)
    ensures Leads(Development, PrCreating, PrCreated, CiRunning, Deferred)
  {
    hide WellPlaced, GatesHold, Entered, IsStateOf;
  }

  lemma ReviewRows()
    ensures Leads(Development, CiRunning, CiPassed, Reviewing, Deferred)
    ensures Leads(Development, Reviewing, ReviewApproved, Packaging, Deferred)
    ensures Leads(Development, Packaging, PackageReady, WaitingUserReview, Deferred)
  {
    hide WellPlaced, GatesHold, Entered, IsStateOf;
  }

  lemma HandoverRows()
    ensures Leads(Development, WaitingUserReview, UserApproved, ReadyForMerge, ResultApprovalExists)
    ensures Leads(Development, ReadyForMerge, MergeCompleted, Merged, ResultApprovalExists)
  {
    hide WellPlaced, GatesHold, Entered, IsStateOf;
  }

  lemma ClosingRows()
    ensures Leads(Development, Merged, DeliveredToUser, Delivered, Deferred)
    ensures Leads(Development, Delivered, MemoryUpdated, Cleanup, Deferred)
    ensures Leads(Development, Cleanup, CleanupCompleted, Completed, Deferred)
  {
    hide WellPlaced, GatesHold, Entered, IsStateOf;
  }

  lemma PlanningRows()
    ensures Leads(Product, IdeaReceived, AnalysisStarted, DocumentAnalyzing, HasPlanningInput)
    ensures Leads(Product, DocumentAnalyzing, AnalysisCompleted, Classifying, Deferred)
    ensures Leads(Product, Classifying, ClassifiedSelfService, RequirementDrafting, ClassificationSaved)
    ensures Leads(Product, RequirementDrafting, DraftCompleted, WaitingRequirementApproval, NoOpenQuestions)
    ensures Leads(Product, WaitingRequirementApproval, RequirementsApproved, SpecificationGenerating,
                  RequirementsApprovalExists)
  {
    hide WellPlaced, GatesHold, Entered, IsStateOf;
  }

  lemma SpecificationRows()
    ensures Leads(Product, SpecificationGenerating, SpecCompleted, CapabilityAnalyzing, PrdDocumentExists)
    ensures Leads(Product, CapabilityAnalyzing, NoGapFound, BacklogGenerating, CapabilityNoGap)
    ensures Leads(Product, BacklogGenerating, BacklogReadyExisting, ReadyForDevelopment, BacklogDocumentExists)
  {
    hide WellPlaced, GatesHold, Entered, IsStateOf;
  }

  /** The guards that ask for something are met. */
  lemma TaskGuards(cfg: Config, x: State)
    ensures GuardHolds(cfg, View(x, [], [], []), RESULT_APPROVED, AUTO, PolicyDecided(AutoApprove))
    ensures GuardHolds(cfg, View(x, [], [], []), RESULT_APPROVED, NO_CONTEXT, ResultApprovalExists)
  {}

  /** The guards that ask for something are met. */
  lemma ProjectGuards(cfg: Config, x: State)
    ensures GuardHolds(cfg, View(x, [], [], []), SPECIFIED, NO_CONTEXT, HasPlanningInput)
    ensures GuardHolds(cfg, View(x, [], [], []), SPECIFIED, NO_CONTEXT, ClassificationSaved)
    ensures GuardHolds(cfg, View(x, [], [], []), SPECIFIED, NO_CONTEXT, NoOpenQuestions)
    ensures GuardHolds(cfg, View(x, [], [], []), SPECIFIED, NO_CONTEXT, RequirementsApprovalExists)
    ensures GuardHolds(cfg, View(x, [], [], []), SPECIFIED, NO_CONTEXT, PrdDocumentExists)
    ensures GuardHolds(cfg, View(x, [], [], []), SPECIFIED, Context(Some([]), None), CapabilityNoGap)
    ensures GuardHolds(cfg, View(x, [], [], []), SPECIFIED, NO_CONTEXT, BacklogDocumentExists)
  {}

  /** A task whose result is approved can be completed. */
  lemma TaskCanComplete(cfg: Config, s: Subject) returns (steps: seq<Step>)
    requires s.TaskSubject?
    ensures StatusOf(After(cfg, steps), s) == Completed
  {
    hide Leads, RowFor, IsCheck, After, LogOf, IsRoute, End, RunOf, StatusOf, Unchecked, Follows, GuardHolds;
    PreparationRows();
    ImplementationRows();
    IntegrationRows();
    ReviewRows();
    HandoverRows();
    ClosingRows();
    var route := Start(cfg, Development, RESULT_APPROVED);
    route := Freely(cfg, Development, RESULT_APPROVED, route, Received, TaskAccepted, Validating);
    route := Freely(cfg, Development, RESULT_APPROVED, route, Validating, ValidationPassed, ContextBuilding);
    route := Freely(cfg, Development, RESULT_APPROVED, route, ContextBuilding, ContextReady, Supervising);
    TaskGuards(cfg, Supervising);
    route := Guarded(cfg, Development, RESULT_APPROVED, route, Supervising,
                     Leg(PlanAutoApproved, AUTO, WorkspaceCreating), PolicyDecided(AutoApprove));
    route := Freely(cfg, Development, RESULT_APPROVED, route, WorkspaceCreating, WorkspaceReady, Implementing);
    route := Freely(cfg, Development, RESULT_APPROVED, route, Implementing, CodeCompleted, LocalValidating);
    route := Freely(cfg, Development, RESULT_APPROVED, route, LocalValidating, QualityGatePassed, Committing);
    route := Freely(cfg, Development, RESULT_APPROVED, route, Committing, Pushed, PrCreating);
    route := Freely(cfg, Development, RESULT_APPROVED, route, PrCreating, PrCreated, CiRunning);
    route := Freely(cfg, Development, RESULT_APPROVED, route, CiRunning, CiPassed, Reviewing);
    route := Freely(cfg, Development, RESULT_APPROVED, route, Reviewing, ReviewApproved, Packaging);
    route := Freely(cfg, Development, RESULT_APPROVED, route, Packaging, PackageReady, WaitingUserReview);
    TaskGuards(cfg, WaitingUserReview);
    route := Guarded(cfg, Development, RESULT_APPROVED, route, WaitingUserReview,
                     Leg(UserApproved, NO_CONTEXT, ReadyForMerge), ResultApprovalExists);
    TaskGuards(cfg, ReadyForMerge);
    route := Guarded(cfg, Development, RESULT_APPROVED, route, ReadyForMerge,
                     Leg(MergeCompleted, NO_CONTEXT, Merged), ResultApprovalExists);
    route := Freely(cfg, Development, RESULT_APPROVED, route, Merged, DeliveredToUser, Delivered);
    route := Freely(cfg, Development, RESULT_APPROVED, route, Delivered, MemoryUpdated, Cleanup);
    route := Freely(cfg, Development, RESULT_APPROVED, route, Cleanup, CleanupCompleted, Completed);
    RouteRuns(cfg, s, RESULT_APPROVED, route);
    steps := RunOf(s, RESULT_APPROVED, route);
  }

  /** A project whose requirements are approved can become ready for development. */
  lemma ProjectCanBecomeReady(cfg: Config, s: Subject) returns (steps: seq<Step>)
    requires s.ProjectSubject?
    ensures StatusOf(After(cfg, steps), s) == ReadyForDevelopment
  {
    hide Leads, RowFor, IsCheck, After, LogOf, IsRoute, End, RunOf, StatusOf, Unchecked, Follows, GuardHolds;
    PlanningRows();
    SpecificationRows();
    var route := Start(cfg, Product, SPECIFIED);
    ProjectGuards(cfg, IdeaReceived);
    route := Guarded(cfg, Product, SPECIFIED, route, IdeaReceived,
                     Leg(AnalysisStarted, NO_CONTEXT, DocumentAnalyzing), HasPlanningInput);
    route := Freely(cfg, Product, SPECIFIED, route, DocumentAnalyzing, AnalysisCompleted, Classifying);
    ProjectGuards(cfg, Classifying);
    route := Guarded(cfg, Product, SPECIFIED, route, Classifying,
                     Leg(ClassifiedSelfService, NO_CONTEXT, RequirementDrafting), ClassificationSaved);
    ProjectGuards(cfg, RequirementDrafting);
    route := Guarded(cfg, Product, SPECIFIED, route, RequirementDrafting,
                     Leg(DraftCompleted, NO_CONTEXT, WaitingRequirementApproval), NoOpenQuestions);
    ProjectGuards(cfg, WaitingRequirementApproval);
    route := Guarded(cfg, Product, SPECIFIED, route, WaitingRequirementApproval,
                     Leg(RequirementsApproved, NO_CONTEXT, SpecificationGenerating), RequirementsApprovalExists);
    ProjectGuards(cfg, SpecificationGenerating);
    route := Guarded(cfg, Product, SPECIFIED, route, SpecificationGenerating,
                     Leg(SpecCompleted, NO_CONTEXT, CapabilityAnalyzing), PrdDocumentExists);
    ProjectGuards(cfg, CapabilityAnalyzing);
    route := Guarded(cfg, Product, SPECIFIED, route, CapabilityAnalyzing,
                     Leg(NoGapFound, Context(Some([]), None), BacklogGenerating), CapabilityNoGap);
    ProjectGuards(cfg, BacklogGenerating);
    route := Guarded(cfg, Product, SPECIFIED, route, BacklogGenerating,
                     Leg(BacklogReadyExisting, NO_CONTEXT, ReadyForDevelopment), BacklogDocumentExists);
    RouteRuns(cfg, s, SPECIFIED, route);
    steps := RunOf(s, SPECIFIED, route);
  }

  lemma UncheckedRoute(cfg: Config) returns (route: seq<Leg>)
    ensures IsRoute(cfg, Development, RESULT_APPROVED, route) && End(Development, route) == ReadyForMerge
    ensures Unchecked(route)
  {
    hide Leads, RowFor, IsRoute, End, Unchecked, Follows, GuardHolds;
    PreparationRows();
    ImplementationRows();
    HandoverRows();
    route := Start(cfg, Development, RESULT_APPROVED);
    route := Freely(cfg, Development, RESULT_APPROVED, route, Received, TaskAccepted, Validating);
    route := Freely(cfg, Development, RESULT_APPROVED, route, Validating, ValidationPassed, ContextBuilding);
    route := Freely(cfg, Development, RESULT_APPROVED, route, ContextBuilding, ContextReady, Supervising);
    TaskGuards(cfg, Supervising);
    route := Guarded(cfg, Development, RESULT_APPROVED, route, Supervising,
                     Leg(PlanAutoApproved, AUTO, WorkspaceCreating), PolicyDecided(AutoApprove));
    route := Freely(cfg, Development, RESULT_APPROVED, route, WorkspaceCreating, WorkspaceReady, Implementing);
    route := Freely(cfg, Development, RESULT_APPROVED, route, Implementing, CodeCompleted, LocalValidating);
    route := Freely(cfg, Development, RESULT_APPROVED, route, LocalValidating, RepairLimitExceeded, WaitingUserReview);
    TaskGuards(cfg, WaitingUserReview);
    route := Guarded(cfg, Development, RESULT_APPROVED, route, WaitingUserReview,
                     Leg(UserApproved, NO_CONTEXT, ReadyForMerge), ResultApprovalExists);
  }

  /** A task can be ready for merge without a passed gate, a CI run or a review: exceeding the repair limit
      leads to the user's review at once, and the user may approve. */
  lemma MergeWithoutCi(cfg: Config, s: Subject) returns (steps: seq<Step>)
    requires s.TaskSubject?
    ensures StatusOf(After(cfg, steps), s) == ReadyForMerge
    ensures forall e :: e in LogOf(After(cfg, steps).events, s) ==> !IsCheck(e.event)
  {
    hide After, LogOf, IsRoute, End, RunOf, StatusOf, Unchecked, Logs, IsCheck;
    var route := UncheckedRoute(cfg);
    RouteRuns(cfg, s, RESULT_APPROVED, route);
    steps := RunOf(s, RESULT_APPROVED, route);
    UncheckedLog(LogOf(After(cfg, steps).events, s), route);
  }
}
