/** The requests users send, one after another and for any projects. A request that ends in an
    exception is never committed (app/api/projects.py, approvals.py, requirements.py, documents.py). */
module Requests {
  import opened Vocabulary
  import opened Transitions
  import opened Engine
  import opened EngineRuns
  import opened WorkflowRules
  import opened StateMachines
  import opened Consultations
  import opened Workflow
  import opened RequestRules
  import Guarantees
  import Reminders
  import D = Decisions
  import R = RequirementStores
  import W = Drafting
  import X = Expansions
  import C = Capabilities

  class Api {
    const workflow: ProductDefinitionWorkflow

    constructor (workflow: ProductDefinitionWorkflow)
      ensures this.workflow == workflow
    {
      this.workflow := workflow;
    }

    ghost function Tables(): set<object> {
      {workflow.session, workflow.requirements, workflow.decisions, workflow.consultations, workflow.expansion,
       workflow.expansion.registry}
    }

    ghost predicate Valid()
      reads Tables()
    {
      workflow.Valid() && forall p :: Settled(workflow.Of(p))
    }

    function Setup(): Setup {
      var x := workflow.expansion;
      RequestRules.Setup(workflow.session.cfg, x.plans, x.serverSeeds, workflow.capabilitySeeds, workflow.clash)
    }

    /** The workflow's part of a request. */
    method Dispatch(p: ProjectId, action: Action) returns (r: Response)
      requires workflow.Valid() && Settled(workflow.Of(p)) && FromAgents(action)
      modifies Tables()
      ensures workflow.Valid()
      ensures r == ResponseTo(Setup(), old(workflow.Of(p)), action)
      ensures r == Done ==>
        && Settled(workflow.Of(p)) && Forward(old(workflow.Of(p)), workflow.Of(p))
        && Shows(Setup(), p, old(workflow.Of(p)), old(workflow.Current()), old(workflow.session.clock), action,
                 workflow.Of(p), workflow.Current())
      ensures forall q :: q != p ==> workflow.Of(q) == old(workflow.Of(q))
    {
      hide Settled, Forward, Session.Valid, BlocksWithReason, W.Paired, ViewOf, Shows, ResponseTo;
      match action
      case RunAnalysis(a, sorting) => r := Analyze(p, a, sorting);
      case AnswerQuestion(key, text, a) => r := Answer(p, key, text, a);
      case DecideRequirements(decision, a) => r := OnRequirements(p, decision, a);
      case DecideReducedScope(decision, scope, a) => r := OnReducedScope(p, decision, scope, a);
      case DecideExpansion(decision) => r := OnExpansion(p, decision);
      case AnswerConsultation(answer, a) => r := OnAnswer(p, answer, a);
      case EditIdea => r := SetIdea(p);
      case Upload(docType) => r := UploadDocument(p, docType);
      case AskExpert => r := ManualConsultation(p);
      case CheckTimeout => r := Remind(p);
    }

    method Analyze(p: ProjectId, a: W.Analysis, sorting: Sorting) returns (r: Response)
      requires workflow.Valid() && Settled(workflow.Of(p)) && W.Paired(a) && BlocksWithReason(sorting)
      modifies workflow.session, workflow.requirements, workflow.consultations
      ensures workflow.Valid()
      ensures r == ResponseTo(Setup(), old(workflow.Of(p)), RunAnalysis(a, sorting))
      ensures r == Done ==>
        && Settled(workflow.Of(p)) && Forward(old(workflow.Of(p)), workflow.Of(p))
        && Shows(Setup(), p, old(workflow.Of(p)), old(workflow.Current()), old(workflow.session.clock),
                 RunAnalysis(a, sorting), workflow.Of(p), workflow.Current())
      ensures forall q :: q != p ==> workflow.Of(q) == old(workflow.Of(q))
    {
      hide Settled, Forward, Session.Valid, BlocksWithReason, W.Paired, ViewOf, Sorted, EventsOf, DraftCollides,
           Analyzed, HasUpload, Confirmed;
      ghost var s := workflow.Of(p);
      r := workflow.RunAnalysis(p, a, sorting);
      if r == Done {
        var entry := EntryEvent(s.view.status);
        SortedForward(s, entry, sorting.gate, sorting.prohibited, a, workflow.clash, workflow.Of(p));
        SortedShows(s, a, sorting, workflow.clash, workflow.Of(p));
      }
    }

    method Answer(p: ProjectId, key: string, text: string, a: W.Analysis)
      returns (r: Response)
      requires workflow.Valid() && Settled(workflow.Of(p)) && W.Paired(a)
      modifies workflow.session, workflow.requirements, workflow.decisions
      ensures workflow.Valid()
      ensures r == ResponseTo(Setup(), old(workflow.Of(p)), AnswerQuestion(key, text, a))
      ensures r == Done ==>
        && Settled(workflow.Of(p)) && Forward(old(workflow.Of(p)), workflow.Of(p))
        && Shows(Setup(), p, old(workflow.Of(p)), old(workflow.Current()), old(workflow.session.clock),
                 AnswerQuestion(key, text, a), workflow.Of(p), workflow.Current())
      ensures forall q :: q != p ==> workflow.Of(q) == old(workflow.Of(q))
    {
      hide Settled, Session.Valid, W.Paired, ViewOf, EventsOf, DraftCollides, Drafted, WithAnswer, AnyOpen, Redrafted,
           D.Add, TextOf, HasOpen, IsOpenQuestion;
      ghost var s := workflow.Of(p);
      ghost var rows := s.rows.(questions := WithAnswer(s.rows.questions, key, text));
      OpenMeansHasOpen(rows.questions);
      r := workflow.AnswerQuestion(p, key, text, a);
      if r == Done {
        LogGrows(s.log, TextOf(s.rows.questions, key), text);
        if !AnyOpen(rows.questions) {
          DraftedForward(s, rows, EventsOf(s.view) + [UserAnswered], a, workflow.clash, workflow.Of(p));
          DraftedShows(s, rows, EventsOf(s.view) + [UserAnswered], a, workflow.clash, workflow.Of(p));
        }
      }
    }

    method OnRequirements(p: ProjectId, decision: ApprovalDecision, a: W.Analysis)
      returns (r: Response)
      requires workflow.Valid() && Settled(workflow.Of(p)) && W.Paired(a)
      modifies workflow.session, workflow.requirements, workflow.consultations, workflow.expansion,
          workflow.expansion.registry
      ensures workflow.Valid()
      ensures r == ResponseTo(Setup(), old(workflow.Of(p)), DecideRequirements(decision, a))
      ensures r == Done ==>
        && Settled(workflow.Of(p)) && Forward(old(workflow.Of(p)), workflow.Of(p))
        && Shows(Setup(), p, old(workflow.Of(p)), old(workflow.Current()), old(workflow.session.clock),
                 DecideRequirements(decision, a), workflow.Of(p), workflow.Current())
      ensures forall q :: q != p ==> workflow.Of(q) == old(workflow.Of(q))
    {
      hide Settled, Session.Valid, W.Paired, ViewOf, EventsOf, DraftCollides, Drafted, Specified, DecisionOn,
           SeededServers, C.Missing, C.Seeded, Forward, Redrafted, ApprovedToEnd, Proposed;
      ghost var s := workflow.Of(p);
      ghost var d := Decided(s, Requirements, decision);
      ghost var missing := GapOf(workflow.Current(), workflow.capabilitySeeds, a.capabilities);
      ghost var servers := SeededServers(workflow.expansion.servers, workflow.expansion.serverSeeds);
      ghost var outcome := DecisionOn(workflow.expansion.plans, servers, missing);
      r := workflow.DecideRequirements(p, decision, a);
      if r == Done {
        DecidedForward(s, Requirements, decision);
        if decision == Approved {
          SpecifiedForward(d, EventsOf(d.view) + [RequirementsApproved], missing, outcome, workflow.Of(p));
          SpecifiedShows(s, missing, outcome, workflow.Of(p));
        } else {
          DraftedForward(d, d.rows, EventsOf(d.view) + [ChangesRequested], a, workflow.clash, workflow.Of(p));
          DraftedShows(s, d.rows, EventsOf(s.view) + [ChangesRequested], a, workflow.clash, workflow.Of(p));
        }
        ForwardTransitive(s, d, workflow.Of(p));
      }
    }

    method OnReducedScope(p: ProjectId, decision: ApprovalDecision, scope: string, a: W.Analysis)
      returns (r: Response)
      requires workflow.Valid() && Settled(workflow.Of(p)) && W.Paired(a)
      modifies workflow.session, workflow.requirements, workflow.decisions
      ensures workflow.Valid()
      ensures r == ResponseTo(Setup(), old(workflow.Of(p)), DecideReducedScope(decision, scope, a))
      ensures r == Done ==>
        && Settled(workflow.Of(p)) && Forward(old(workflow.Of(p)), workflow.Of(p))
        && Shows(Setup(), p, old(workflow.Of(p)), old(workflow.Current()), old(workflow.session.clock),
                 DecideReducedScope(decision, scope, a), workflow.Of(p), workflow.Current())
      ensures forall q :: q != p ==> workflow.Of(q) == old(workflow.Of(q))
    {
      hide Settled, Session.Valid, W.Paired, ViewOf, EventsOf, DraftCollides, Drafted, Forward, Shows, D.Add,
           ProductDefinitionWorkflow.Of;
      ghost var s, x, now := workflow.Of(p), workflow.Current(), workflow.session.clock;
      r := workflow.DecideReducedScope(p, decision, scope, a);
      if r == Done {
        ReducedScopeShows(Setup(), p, s, x, now, decision, scope, a, workflow.Of(p));
      }
    }

    method OnExpansion(p: ProjectId, decision: ApprovalDecision) returns (r: Response)
      requires workflow.Valid() && Settled(workflow.Of(p))
      modifies workflow.session, workflow.expansion, workflow.expansion.registry
      ensures workflow.Valid()
      ensures r == ResponseTo(Setup(), old(workflow.Of(p)), DecideExpansion(decision))
      ensures r == Done ==>
        && Settled(workflow.Of(p)) && Forward(old(workflow.Of(p)), workflow.Of(p))
        && Shows(Setup(), p, old(workflow.Of(p)), old(workflow.Current()), old(workflow.session.clock),
                 DecideExpansion(decision), workflow.Of(p), workflow.Current())
      ensures forall q :: q != p ==> workflow.Of(q) == old(workflow.Of(q))
    {
      hide Settled, Session.Valid, ViewOf, EventsOf, Approves, Shows, Forward, ProductDefinitionWorkflow.Of;
      ghost var s, x, now := workflow.Of(p), workflow.Current(), workflow.session.clock;
      r := workflow.DecideExpansion(p, decision);
      if r == Done {
        ExpansionShows(Setup(), p, s, x, now, decision, workflow.Of(p), workflow.Current());
      }
    }

    method OnAnswer(p: ProjectId, answer: Consultations.Answer, a: W.Analysis)
      returns (r: Response)
      requires workflow.Valid() && Settled(workflow.Of(p)) && W.Paired(a)
      modifies workflow.session, workflow.requirements, workflow.consultations, workflow.expansion,
          workflow.expansion.registry
      ensures workflow.Valid()
      ensures r == ResponseTo(Setup(), old(workflow.Of(p)), AnswerConsultation(answer, a))
      ensures r == Done ==>
        && Settled(workflow.Of(p)) && Forward(old(workflow.Of(p)), workflow.Of(p))
        && Shows(Setup(), p, old(workflow.Of(p)), old(workflow.Current()), old(workflow.session.clock),
                 AnswerConsultation(answer, a), workflow.Of(p), workflow.Current())
      ensures forall q :: q != p ==> workflow.Of(q) == old(workflow.Of(q))
    {
      hide Settled, Session.Valid, W.Paired, ViewOf, EventsOf, DraftCollides, Forward, AnswerFollowed, Followed,
           Approves, Answered;
      ghost var s, x := workflow.Of(p), workflow.Current();
      r := workflow.ApplyConsultationAnswer(p, answer, a);
      if r == Done {
        WaitingParts(s);
        AnswerForward(s, answer.resolution, a, workflow.clash, workflow.Of(p));
        FollowedShows(p, s, x, answer, a, workflow.clash, workflow.Of(p), workflow.Current());
      }
    }

    /** A new idea text or an uploaded document; both are accepted in any state, and afterwards an
        analysis is no longer refused for want of input. */
    method AddInput(p: ProjectId, idea: bool, documents: seq<Document>) returns (r: Response)
      requires workflow.Valid() && Settled(workflow.Of(p))
      requires idea || exists d :: d in documents && d.kind == Uploaded
      modifies workflow.session
      ensures workflow.Valid() && r == Done
      ensures Settled(workflow.Of(p)) && Forward(old(workflow.Of(p)), workflow.Of(p))
      ensures HasInput(workflow.Of(p).rows)
      ensures
        var s := old(workflow.Of(p));
        var rows := s.rows.(hasIdea := s.rows.hasIdea || idea, documents := s.rows.documents + documents);
        workflow.Of(p) == s.(rows := rows)
      ensures forall q :: q != p ==> workflow.Of(q) == old(workflow.Of(q))
    {
      hide Settled, Session.Valid, ViewOf, EventsOf, KeepsRecords;
      ghost var s := workflow.Of(p);
      var rows := workflow.Rows(p);
      MoreInputSettles(s, rows.hasIdea || idea, documents);
      workflow.Update(p, rows.(hasIdea := rows.hasIdea || idea, documents := rows.documents + documents));
      r := Done;
    }

    method SetIdea(p: ProjectId) returns (r: Response)
      requires workflow.Valid() && Settled(workflow.Of(p))
      modifies workflow.session
      ensures workflow.Valid()
      ensures r == ResponseTo(Setup(), old(workflow.Of(p)), EditIdea)
      ensures r == Done ==>
        && Settled(workflow.Of(p)) && Forward(old(workflow.Of(p)), workflow.Of(p))
        && Shows(Setup(), p, old(workflow.Of(p)), old(workflow.Current()), old(workflow.session.clock), EditIdea,
                 workflow.Of(p), workflow.Current())
      ensures forall q :: q != p ==> workflow.Of(q) == old(workflow.Of(q))
    {
      hide Settled, Forward, Session.Valid, ViewOf;
      ghost var s := workflow.Of(p);
      r := AddInput(p, true, []);
      assert s.rows.documents + [] == s.rows.documents;
    }

    method UploadDocument(p: ProjectId, docType: DocumentType) returns (r: Response)
      requires workflow.Valid() && Settled(workflow.Of(p))
      modifies workflow.session
      ensures workflow.Valid()
      ensures r == ResponseTo(Setup(), old(workflow.Of(p)), Upload(docType))
      ensures r == Done ==>
        && Settled(workflow.Of(p)) && Forward(old(workflow.Of(p)), workflow.Of(p))
        && Shows(Setup(), p, old(workflow.Of(p)), old(workflow.Current()), old(workflow.session.clock), Upload(docType),
                 workflow.Of(p), workflow.Current())
      ensures forall q :: q != p ==> workflow.Of(q) == old(workflow.Of(q))
    {
      hide Settled, Forward, Session.Valid, ViewOf;
      if docType == Idea || docType == Reference {
        assert Document(Uploaded, docType) in [Document(Uploaded, docType)];
        r := AddInput(p, false, [Document(Uploaded, docType)]);
      } else {
        r := WrongState;
      }
    }

    /** create_manual_consultation: a package for the user's own questions, in any state. */
    method ManualConsultation(p: ProjectId) returns (r: Response)
      requires workflow.Valid() && Settled(workflow.Of(p))
      modifies workflow.consultations
      ensures workflow.Valid() && r == Done
      ensures r == ResponseTo(Setup(), old(workflow.Of(p)), AskExpert)
      ensures Settled(workflow.Of(p)) && Forward(old(workflow.Of(p)), workflow.Of(p))
      ensures
        var s := old(workflow.Of(p));
        workflow.Of(p) == s.(consultations := s.consultations + [Consultation(ByUser, AnswerPending, [])])
      ensures Shows(Setup(), p, old(workflow.Of(p)), old(workflow.Current()), old(workflow.session.clock), AskExpert,
                    workflow.Of(p), workflow.Current())
      ensures forall q :: q != p ==> workflow.Of(q) == old(workflow.Of(q))
    {
      hide Settled, Session.Valid, ViewOf, EventsOf;
      ghost var s := workflow.Of(p);
      workflow.Consult(p, ByUser);
      NewConsultationsSettle(s, workflow.Of(p).consultations);
      r := Done;
    }

    method Remind(p: ProjectId) returns (r: Response)
      requires workflow.Valid() && Settled(workflow.Of(p))
      modifies workflow.session
      ensures workflow.Valid() && r == Done
      ensures r == ResponseTo(Setup(), old(workflow.Of(p)), CheckTimeout)
      ensures Settled(workflow.Of(p)) && Forward(old(workflow.Of(p)), workflow.Of(p))
      ensures Shows(Setup(), p, old(workflow.Of(p)), old(workflow.Current()), old(workflow.session.clock), CheckTimeout,
                    workflow.Of(p), workflow.Current())
      ensures forall q :: q != p ==> workflow.Of(q) == old(workflow.Of(q))
    {
      hide Settled, Forward, Session.Valid, ViewOf, StatusOf, Reminders.RemindedInStay, Do;
      ghost var s, db, at := workflow.Of(p), workflow.session.Tables(), workflow.session.clock;
      ghost var state := StatusOf(db, ProjectSubject(p));
      ghost var row := AuditRow(TimeoutNotified, ProjectSubject(p), None, state, Some(state), at);
      var checker := new TimeoutChecker(workflow.session);
      var notified := checker.Check(ProjectSubject(p));
      forall q ensures workflow.Of(q) == if q == p then s.(view := workflow.Of(p).view) else old(workflow.Of(q)) {
        AuditSeen(db, row, notified, ProjectSubject(q));
      }
      AuditSeen(db, row, notified, ProjectSubject(p));
      ReminderSettles(s, workflow.Of(p).view.audit);
      r := Done;
    }

    // -------------------------------------------------------------- commit or roll back

    function Content(): Image
      reads Tables()
    {
      Image(workflow.session.Tables(), workflow.session.clock, workflow.requirements.tables, workflow.decisions.logs,
            workflow.consultations.tables, workflow.Current())
    }

    lemma ContentDecidesAll()
      ensures forall q :: workflow.Of(q) == Content().Project(q)
    {
      hide ViewOf;
    }

    /** Rollback: every table is what it was. */
    method Restore(saved: Image, ghost trace: seq<Step>)
      modifies Tables()
      ensures Content() == saved && workflow.session.trace == trace
    {
      var w := workflow;
      w.session.status, w.session.events := saved.db.status, saved.db.events;
      w.session.checkpoints := saved.db.checkpoints;
      w.session.audit, w.session.rows, w.session.clock := saved.db.audit, saved.db.rows, saved.clock;
      w.session.trace := trace;
      w.requirements.tables, w.decisions.logs, w.consultations.tables := saved.stores, saved.logs, saved.packages;
      w.expansion.servers, w.expansion.proposals := saved.market.assets.servers, saved.market.proposals;
      w.expansion.registry.capabilities := saved.market.assets.registry.capabilities;
      w.expansion.registry.providers := saved.market.assets.registry.providers;
    }

    /** One request: committed when it is done, and otherwise as if it had never been made. */
    method Handle(request: Request) returns (r: Response)
      requires Valid() && FromAgents(request.action)
      modifies Tables()
      ensures Valid()
      ensures forall q :: Forward(old(workflow.Of(q)), workflow.Of(q))
      ensures Served(Setup(), old(Content()), request, r, Content())
    {
      hide Settled, Forward, Session.Valid, FromAgents, ViewOf, C.RowsUnique, C.WellFormed, Image.Project, Shows,
           ResponseTo;
      var saved := Content();
      ghost var trace := workflow.session.trace;
      ContentDecidesAll();
      r := Dispatch(request.project, request.action);
      if r != Done {
        Restore(saved, trace);
        SameTablesStayValid(workflow.session);
      }
      ContentDecidesAll();
      forall q ensures Forward(old(workflow.Of(q)), workflow.Of(q)) && Settled(workflow.Of(q)) {
        ForwardReflexive(old(workflow.Of(q)));
      }
    }

    /** Any sequence of requests, for any projects: after each one every project is at rest, with its
        questions, requirements, checkpoint and classification as its status demands; nothing recorded
        is lost; and development is ready only behind an approval and a PRD. */
    method Serve(requests: seq<Request>) returns (responses: seq<Response>, ghost images: seq<Image>)
      requires Valid() && forall i :: 0 <= i < |requests| ==> FromAgents(requests[i].action)
      modifies Tables()
      ensures Valid() && |responses| == |requests| && |images| == |requests| + 1
      ensures images[0] == old(Content()) && images[|requests|] == Content()
      ensures forall i :: 0 <= i < |requests| ==>
        Served(Setup(), images[i], requests[i], responses[i], images[i + 1])
      ensures forall q :: Forward(old(workflow.Of(q)), workflow.Of(q))
      ensures forall q :: Supported(workflow.Of(q))
    {
      hide Settled, Forward, Session.Valid, FromAgents, ViewOf, C.RowsUnique, C.WellFormed, Supported,
           Image.Project, Served;
      responses, images := [], [Content()];
      forall q ensures Forward(workflow.Of(q), workflow.Of(q)) {
        ForwardReflexive(workflow.Of(q));
      }
      for i := 0 to |requests|
        invariant Valid() && |responses| == i && |images| == i + 1
        invariant images[0] == old(Content()) && images[i] == Content()
        invariant forall k :: 0 <= k < i ==> Served(Setup(), images[k], requests[k], responses[k], images[k + 1])
        invariant forall q :: Forward(old(workflow.Of(q)), workflow.Of(q))
      {
        ghost var before := Content();
        ContentDecidesAll();
        var r := Handle(requests[i]);
        forall q ensures Forward(old(workflow.Of(q)), workflow.Of(q)) {
          ForwardTransitive(old(workflow.Of(q)), before.Project(q), workflow.Of(q));
        }
        responses, images := responses + [r], images + [Content()];
      }
      AllSupported();
    }

    lemma AllSupported()
      requires workflow.Valid()
      ensures forall q :: Supported(workflow.Of(q))
    {
      hide Supported, Session.Valid, ViewOf;
      forall q ensures Supported(workflow.Of(q)) {
        EngineSupports(workflow.session, q, workflow.Of(q));
      }
    }
  }

  lemma AuditSeen(db: Db, row: AuditRow, added: bool, s: Subject)
    ensures
      var v := ViewOf(db, s);
      ViewOf(db.(audit := db.audit + if added then [row] else []), s) ==
        v.(audit := v.audit + if added && row.subject == s then [row] else [])
    ensures ViewOf(db, row.subject).status == StatusOf(db, row.subject)
  {
    hide LogOf, CheckpointsOf, AuditOf;
    AuditOfAppend(db.audit, row, s);
    assert db.audit + [] == db.audit;
  }

  lemma AnswerForward(s: Dossier, resolution: Resolution, a: W.Analysis, clash: W.Clash, t: Dossier)
    requires AnswerFollowed(s, resolution, a, clash, t) && t.log == s.log
    ensures Forward(s, t)
  {
    hide EventsOf, Drafted, Confirmed, WithConfirmation;
    ConfirmationForward(s.rows);
    if resolution.Stop? {
      assert EventsOf(s.view) <= EventsOf(t.view);
    } else if resolution.AdjustScope? {
      DraftedForward(s, s.rows, EventsOf(s.view) + [ExpertAnswerAdjustsScope], a, clash, t);
    } else if Last(s.view.checkpoints) == Some(Classifying) {
      var events := EventsOf(s.view) + [ExpertAnswerUnblocks, ExpertConfirmedProceed];
      DraftedForward(s, WithConfirmation(s.rows), events, a, clash, t);
    } else {
      assert EventsOf(s.view) <= EventsOf(t.view);
      ConfirmationSurvivesDocuments(s.rows, t.rows.documents);
    }
  }

  lemma ConfirmationSurvivesDocuments(rows: ProjectRows, documents: seq<Document>)
    ensures Confirmed(WithConfirmation(rows).(documents := documents)) == Confirmed(WithConfirmation(rows))
  {}

  lemma ForwardReflexive(s: Dossier)
    ensures Forward(s, s)
  {}

  twostate lemma SameTablesStayValid(session: Session)
    requires old(session.Valid())
    requires session.Tables() == old(session.Tables())
    requires session.trace == old(session.trace) && session.clock == old(session.clock)
    ensures session.Valid()
  {}

  /** A project that is ready for development, or waits on the expansion, has an approval of its
      requirements and a generated PRD; its log is an unbroken chain to its status; and it was
      reminded at most once in each stay. */
  ghost predicate Supported(d: Dossier) {
    && (BehindPrd(d.view.status) ==> HasApproval(d.rows, Requirements) && HasGenerated(d.rows, Prd))
    && IsChain(Product, d.view.log) && d.view.status == EndOf(Product, d.view.log)
    && Reminders.OncePerStay(d.view.audit)
  }

  /** What the engine promises of every run holds of the workflow's runs too. */
  lemma EngineSupports(session: Session, p: ProjectId, d: Dossier)
    requires session.Valid()
    requires d.view == ViewOf(session.Tables(), ProjectSubject(p)) && d.rows == RowsOf(session.Tables(), p)
    ensures Supported(d)
  {
    hide Run, BehindPrd, IsChain, Reminders.OncePerStay, HasGenerated, HasApproval, LogOf, CheckpointsOf, AuditOf;
    var cfg, trace, s := session.cfg, session.trace, ProjectSubject(p);
    Guarantees.RecordsPrecedeStates(cfg, trace, s, StatusOf(session.Tables(), s));
    Guarantees.LogExplainsStatus(cfg, trace, s);
    Reminders.OneReminderPerStay(cfg, trace, s);
    PrdIsApproved(StatusOf(session.Tables(), s));
  }

  lemma PrdIsApproved(x: State)
    ensures BehindPrd(x) ==> BehindRequirementsApproval(x)
  {}

  /** A new server over empty tables starts with every project at rest. */
  method Open(cfg: Config, plans: X.Plans, servers: map<string, X.Server>, capabilities: seq<C.CapabilitySpec>,
              clash: W.Clash)
    returns (api: Api)
    requires C.WellFormed(capabilities)
    ensures fresh(api.Tables()) && api.Valid()
    ensures
      var untouched :=
        Dossier(View(IdeaReceived, [], [], []), ProjectRows(false, [], [], [], []), R.Store(map[], []), [], []);
      forall q :: api.workflow.Of(q) == untouched
  {
    hide Settled, Session.Valid, ViewOf, C.RowsUnique, C.WellFormed;
    var workflow := new ProductDefinitionWorkflow(cfg, plans, servers, capabilities, clash);
    api := new Api(workflow);
    NewProjectIsSettled();
  }
}
