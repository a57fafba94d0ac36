/** The operations of the product workflow, each a chain of events on one project
    (app/product/workflow.py). What the core agent, the classifier and the conflict detector return is
    a parameter of the operation that calls them. */
module Workflow {
  import opened Vocabulary
  import opened Transitions
  import opened Engine
  import opened EngineRuns
  import opened WorkflowRules
  import opened StateMachines
  import opened Consultations
  import D = Decisions
  import R = RequirementStores
  import W = Drafting
  import X = Expansions
  import C = Capabilities
  import P = Policy

  /** Done, or the exception an operation ends with: a request the state does not allow, a guard that
      refuses, or a unique constraint that is violated. */
  datatype Response = Done | WrongState | GuardRefused | KeyCollision

  /** The classifier's result; it blocks only with a list of prohibited features. */
  datatype Sorting = Sorting(gate: Gate, prohibited: seq<string>)

  predicate BlocksWithReason(v: Sorting) {
    v.gate == GateBlocked ==> v.prohibited != []
  }

  predicate HasInput(rows: ProjectRows) {
    rows.hasIdea || HasUpload(rows)
  }

  ghost predicate IsOpenQuestion(table: seq<Question>, key: string) {
    exists q :: q in table && q.key == key && q.answer.None?
  }

  lemma OpenQuestionFound(table: seq<Question>, key: string, found: Option<nat>)
    requires W.UniqueQuestions(table)
    requires found.Some? ==> found.value < |table| && table[found.value].key == key
    requires found.None? <==> !W.HasQuestion(table, key)
    ensures IsOpenQuestion(table, key) <==> found.Some? && table[found.value].answer.None?
  {
    if found.Some? {
      assert table[found.value] in table;
      forall q | q in table && q.key == key ensures q == table[found.value] {
        var i :| 0 <= i < |table| && table[i] == q;
      }
    }
  }

  /** The text of the question with a key. */
  function TextOf(table: seq<Question>, key: string): string {
    if table == [] then ""
    else if table[|table| - 1].key == key then table[|table| - 1].text
    else TextOf(table[..|table| - 1], key)
  }

  lemma {:induction false} TextOfQuestion(table: seq<Question>, i: nat)
    requires W.UniqueQuestions(table) && i < |table|
    ensures TextOf(table, table[i].key) == table[i].text
  {
    if i < |table| - 1 {
      TextOfQuestion(table[..|table| - 1], i);
    }
  }

  /** The decision log with the answer to a question. */
  function WithDecision(s: Dossier, key: string, answer: string): seq<D.Decision> {
    D.Add(s.log, TextOf(s.rows.questions, key), answer)
  }

  /** While questions stay open the project keeps waiting for answers. */
  lemma StillWaiting(s: Dossier, t: Dossier)
    requires Settled(s) && s.view.status == WaitingRequirementInput && Grounded(t)
    requires t.view == s.view && t.rows == s.rows.(questions := t.rows.questions)
    requires t.store == s.store && t.consultations == s.consultations && AnyOpen(t.rows.questions)
    ensures Settled(t)
  {
    hide Grounded, AnyOpen;
  }

  function SeededServers(servers: map<string, X.Server>, seeds: map<string, X.Server>): map<string, X.Server> {
    if servers == map[] then seeds else servers
  }

  /** The answer starts a new round of drafting. */
  predicate Redrafts(s: Dossier, resolution: Resolution) {
    resolution.AdjustScope? || (resolution.Unblock? && Last(s.view.checkpoints) == Some(Classifying))
  }

  /** The newest package with the answer, applied. */
  function Answered(packages: seq<Consultation>, answer: Answer): seq<Consultation> {
    if packages == [] then []
    else
      var n := |packages| - 1;
      packages[n := Consultation(packages[n].trigger, AnswerApplied, packages[n].answers + [answer])]
  }

  /** Where an answer of each direction leads: to the end of the project, to a new draft, or back to
      the checkpoint and on from there, with the confirmation kept. */
  ghost predicate AnswerFollowed(s: Dossier, resolution: Resolution, a: W.Analysis, clash: W.Clash,
      t: Dossier) {
    if resolution.Stop? then
      t.view.status == Cancelled && t.rows == s.rows && t.store == s.store &&
      EventsOf(t.view) == EventsOf(s.view) + [ExpertAnswerStops]
    else if resolution.AdjustScope? then
      Drafted(s.store, s.rows, EventsOf(s.view) + [ExpertAnswerAdjustsScope], a, clash, t)
    else if Last(s.view.checkpoints) == Some(Classifying) then
      Drafted(s.store, WithConfirmation(s.rows), EventsOf(s.view) + [ExpertAnswerUnblocks, ExpertConfirmedProceed],
              a, clash, t)
    else
      && Last(s.view.checkpoints) == Some(ExpansionProposing)
      && t.view.status == ReadyForDevelopment && t.store == s.store
      && t.rows == WithConfirmation(s.rows).(documents := s.rows.documents + [Document(Generated, Backlog)])
      && EventsOf(t.view) == EventsOf(s.view) + [ExpertAnswerUnblocks, ProposalAutoApproved, BacklogReadyExisting]
  }

  lemma AnswerFollowedAnyway(s: Dossier, recorded: seq<Consultation>, resolution: Resolution, a: W.Analysis,
                             clash: W.Clash, t: Dossier, applied: seq<Consultation>)
    requires AnswerFollowed(s.(consultations := recorded), resolution, a, clash, t)
    ensures AnswerFollowed(s, resolution, a, clash, t.(consultations := applied))
  {
    hide EventsOf, WithConfirmation, Stored, DraftEvent, DraftEnd;
  }

  const REDUCED_SCOPE_TITLE := "위험 기능을 제외한 축소 범위로 진행"

  /** What an automatic decision activates. */
  function Activated(assets: X.Assets, judged: seq<X.Judged>, decision: PolicyDecision): X.Assets {
    if decision == AutoApprove then X.ActivateAll(assets, judged) else assets
  }

  /** The servers, the capability registry and the proposal rows of all projects. */
  datatype Market = Market(assets: X.Assets, proposals: seq<X.ProposalRow>)

  /** What is missing of a required list, once the registry is filled. */
  function GapOf(x: Market, seeds: seq<C.CapabilitySpec>, required: seq<string>): seq<string> {
    C.Missing(C.Seeded(x.assets.registry, seeds), required)
  }

  /** The market after a gap analysis: the registry is filled, and what is missing is planned, judged and
      recorded for the project, and activated when all of it is automatic. */
  function Proposed(plans: X.Plans, servers: map<string, X.Server>, seeds: seq<C.CapabilitySpec>, p: ProjectId,
                    x: Market, required: seq<string>): Market {
    var registry := C.Seeded(x.assets.registry, seeds);
    var missing := GapOf(x, seeds, required);
    if missing == [] then x.(assets := X.Assets(x.assets.servers, registry))
    else
      var known := SeededServers(x.assets.servers, servers);
      var judged := X.JudgeAll(plans, known, missing);
      Market(Activated(X.Assets(known, registry), judged, P.Aggregate(X.DecisionsOf(judged))),
             x.proposals + X.RecordsOf(p, judged))
  }

  /** Every pending row of the project was approved and its capability registered; a capability is
      matched afterwards exactly when it was before or such a row connects it. */
  ghost predicate Approves(p: ProjectId, x: Market, y: Market) {
    && |y.proposals| == |x.proposals|
    && (forall i :: 0 <= i < |x.proposals| ==>
          var was := x.proposals[i];
          y.proposals[i] == if was.project == p && (was.status == X.PendingUser || was.status == X.PendingExpert)
                            then was.(status := X.ApprovedExpansion) else was)
    && y.assets == X.ApproveAll(x.assets, p, x.proposals)
    && (forall c :: C.Matched(y.assets.registry, c) <==>
          C.Matched(x.assets.registry, c) || X.Connected(x.proposals, p, c))
  }

  function DecisionOn(plans: X.Plans, servers: map<string, X.Server>, missing: seq<string>): PolicyDecision {
    P.Aggregate(X.DecisionsOf(X.JudgeAll(plans, servers, missing)))
  }

  lemma ProposedParts(plans: X.Plans, servers: map<string, X.Server>, seeds: seq<C.CapabilitySpec>, p: ProjectId,
                      x: Market, required: seq<string>)
    ensures
      var registry := C.Seeded(x.assets.registry, seeds);
      var missing := C.Missing(registry, required);
      var known := SeededServers(x.assets.servers, servers);
      var judged := X.JudgeAll(plans, known, missing);
      Proposed(plans, servers, seeds, p, x, required) ==
        if missing == [] then Market(X.Assets(x.assets.servers, registry), x.proposals + [])
        else Market(Activated(X.Assets(known, registry), judged, DecisionOn(plans, known, missing)),
                    x.proposals + X.RecordsOf(p, judged))
  {
    hide C.Seeded, C.Missing, SeededServers, X.JudgeAll, Activated, X.RecordsOf, P.Aggregate, X.DecisionsOf;
    assert x.proposals + [] == x.proposals;
  }

  lemma NothingToDecide(plans: X.Plans, servers: map<string, X.Server>)
    ensures DecisionOn(plans, servers, []) == AutoApprove
  {}

  lemma GapIsClosed(plans: X.Plans, before: X.Assets, required: seq<string>, after: X.Assets)
    requires C.RowsUnique(before.registry.providers)
    requires DecisionOn(plans, before.servers, C.Missing(before.registry, required)) == AutoApprove
    requires after ==
      Activated(before, X.JudgeAll(plans, before.servers, C.Missing(before.registry, required)), AutoApprove)
    ensures "" !in after.servers ==> C.Missing(after.registry, required) == []
  {
    hide C.Missing, X.JudgeAll, X.ActivateAll, C.RowsUnique, P.Aggregate, X.DecisionsOf;
    X.ActivationKeepsServers(plans, before, C.Missing(before.registry, required));
    if "" !in before.servers {
      X.AutoExpansionSatisfies(plans, before, required);
    }
  }

  class ProductDefinitionWorkflow {
    const session: Session
    const machine: StateMachine
    const requirements: R.RequirementStore
    const decisions: D.DecisionLog
    const consultations: ConsultationService
    const expansion: X.ExpansionService
    const capabilitySeeds: seq<C.CapabilitySpec>
    const clash: W.Clash

    constructor (cfg: Config, plans: X.Plans, serverSeeds: map<string, X.Server>,
        capabilitySeeds: seq<C.CapabilitySpec>,
                 clash: W.Clash)
      requires C.WellFormed(capabilitySeeds)
      ensures Valid() && session.cfg == cfg && expansion.plans == plans
      ensures fresh({session, requirements, decisions, consultations, expansion, expansion.registry})
      ensures forall p :: Of(p) == NEW_PROJECT
    {
      var tables := new Session(cfg);
      session := tables;
      machine := new StateMachine(tables);
      requirements := new R.RequirementStore();
      decisions := new D.DecisionLog();
      consultations := new ConsultationService();
      var registry := new C.CapabilityRegistry();
      expansion := new X.ExpansionService(plans, serverSeeds, registry);
      this.capabilitySeeds, this.clash := capabilitySeeds, clash;
    }

    ghost predicate Valid()
      reads session, expansion.registry
    {
      && machine.session == session && machine.Valid()
      && C.RowsUnique(expansion.registry.providers)
      && C.WellFormed(capabilitySeeds)
    }

    /** What the tables hold about a project. */
    ghost function Of(p: ProjectId): Dossier
      reads session, requirements, decisions, consultations
    {
      Dossier(ViewOf(session.Tables(), ProjectSubject(p)), RowsOf(session.Tables(), p),
              requirements.Of(p), decisions.Of(p), consultations.Of(p))
    }

    function Rows(p: ProjectId): ProjectRows
      reads session
    {
      RowsOf(session.Tables(), p)
    }

    function Status(p: ProjectId): (x: State)
      reads session
      ensures x == ViewOf(session.Tables(), ProjectSubject(p)).status
    {
      StatusOf(session.Tables(), ProjectSubject(p))
    }

    function Current(): Market
      reads expansion, expansion.registry
    {
      Market(expansion.Current(), expansion.proposals)
    }

    lemma Look(p: ProjectId)
      ensures Rows(p) == Of(p).rows && Status(p) == Of(p).view.status
    {
      hide ViewOf;
    }

    // -------------------------------------------------------------- single steps

    /** _fire: the outcome is the engine's verdict on the project, and other projects do not notice. */
    method Emit(p: ProjectId, event: Event, ctx: Context) returns (o: Outcome)
      requires Valid() && Grounded(Of(p)) && InOrder(Of(p), event)
      modifies session
      ensures Valid() && session.rows == old(session.rows)
      ensures o == Judge(session.cfg, Product, old(Of(p)).view, old(Of(p)).rows, event, ctx)
      ensures Of(p) == old(Of(p)).(view := Of(p).view)
      ensures o.Applied? ==> Moved(old(Of(p)), event, o.to, Of(p)) && Grounded(Of(p))
      ensures !o.Applied? ==> Of(p).view.status == old(Of(p)).view.status
      ensures forall q :: q != p ==> Of(q) == old(Of(q))
    {
      hide Judge, Grounded, InOrder, Moved, ViewOf, SavesCheckpoint;
      ghost var before, db, at := Of(p), session.Tables(), session.clock;
      o := machine.Fire(ProjectSubject(p), event, None, ctx);
      ghost var c := Command(ProjectSubject(p), event, None, ctx, at);
      EffectOnViews(db, c, o, ProjectSubject(p));
      if o.Applied? {
        AppliedFromStatus(session.cfg, db, c);
        ViewMoves(before, c, o);
        MovedStaysGrounded(before, event, o.to, Of(p));
      }
      forall q | q != p ensures Of(q) == old(Of(q)) {
        EffectOnViews(db, c, o, ProjectSubject(q));
      }
    }

    /** A change of the project's rows by the workflow. */
    method Update(p: ProjectId, rows: ProjectRows)
      requires Valid() && KeepsRecords(Of(p).rows, rows)
      modifies session
      ensures Valid()
      ensures Of(p) == old(Of(p)).(rows := rows)
      ensures forall q :: q != p ==> Of(q) == old(Of(q))
    {
      hide LogOf, CheckpointsOf, AuditOf, KeepsRecords;
      session.UpdateRows(p, rows);
    }

    method LogDecision(p: ProjectId, title: string, decision: string)
      requires Valid()
      modifies decisions
      ensures Valid()
      ensures Of(p) == old(Of(p)).(log := D.Add(old(Of(p)).log, title, decision))
      ensures forall q :: q != p ==> Of(q) == old(Of(q))
    {
      hide ViewOf, Session.Valid, D.Add;
      var _ := decisions.Append(p, title, decision);
    }

    method Consult(p: ProjectId, trigger: Trigger)
      requires Valid()
      modifies consultations
      ensures Valid()
      ensures
        var s := old(Of(p));
        Of(p) == s.(consultations := s.consultations + [Consultation(trigger, AnswerPending, [])])
      ensures forall q :: q != p ==> Of(q) == old(Of(q))
    {
      hide ViewOf, Session.Valid;
      consultations.Create(p, trigger);
    }

    // -------------------------------------------------------------- drafting

    /** The part of _draft_requirements before its event: refine, synchronise, ask. */
    method StoreDraft(p: ProjectId, a: W.Analysis) returns (ok: bool)
      requires Valid() && Grounded(Of(p))
      modifies session, requirements
      ensures Valid()
      ensures ok <==> !DraftCollides(old(Of(p)).store, old(Of(p)).rows.questions, old(Of(p)).log, a, clash)
      ensures ok ==>
        var s, t := old(Of(p)), Of(p);
        && Stored(s.store, s.rows.questions, s.log, a, clash, t.store, t.rows.questions)
        && t == s.(store := t.store, rows := s.rows.(questions := t.rows.questions))
        && Grounded(t)
      ensures forall q :: q != p ==> Of(q) == old(Of(q))
    {
      hide ViewOf, Grounded, Stored, DraftCollides;
      ghost var s := Of(p);
      GroundedParts(s);
      var table := Rows(p).questions;
      var drafts, open := W.Refine(a, W.AnswersOf(table));
      var conflicts := W.DetectConflicts(D.ListActive(decisions.Of(p)), drafts, clash);
      CollisionParts(s.store, table, s.log, a, clash);
      var synced := requirements.Sync(p, drafts);
      if !synced {
        return false;
      }
      var cards := W.BuildCards(open);
      var upserted := W.UpsertQuestions(table, cards);
      var asked := W.AskAboutConflicts(upserted, conflicts);
      if asked.None? {
        return false;
      }
      ghost var store := requirements.Of(p);
      Update(p, Rows(p).(questions := asked.value));
      StoredStaysGrounded(s, a, clash, store, asked.value);
      return true;
    }

    /** _draft_requirements: after the draft is stored, wait for answers or for approval. */
    method DraftRequirements(p: ProjectId, a: W.Analysis) returns (r: Response)
      requires Valid() && Grounded(Of(p)) && W.Paired(a)
      requires Of(p).view.status == RequirementDrafting && Classified(Of(p).rows)
      modifies session, requirements
      ensures Valid()
      ensures r ==
        var s := old(Of(p));
        if DraftCollides(s.store, s.rows.questions, s.log, a, clash) then KeyCollision else Done
      ensures r == Done ==>
        var s, t := old(Of(p)), Of(p);
        && Drafted(s.store, s.rows, EventsOf(s.view), a, clash, t)
        && t.log == s.log && t.consultations == s.consultations
        && Settled(t)
      ensures forall q :: q != p ==> Of(q) == old(Of(q))
    {
      hide Judge, ViewOf, DraftCollides, Stored, Grounded, Drafted, Settled, AnyOpen, EventsOf, SavesCheckpoint;
      ghost var s := Of(p);
      var ok := StoreDraft(p, a);
      if !ok {
        return KeyCollision;
      }
      ghost var mid := Of(p);
      DraftApplies(session.cfg, mid);
      var event := if AnyOpen(Rows(p).questions) then DraftHasUnknowns else DraftCompleted;
      var o := Emit(p, event, NO_CONTEXT);
      assert o.Applied?;
      DraftSettles(s, a, clash, mid, Of(p));
      return Done;
    }

    // -------------------------------------------------------------- analysis

    /** The second half of run_analysis: store the classification and follow its gate. */
    method FollowGate(p: ProjectId, a: W.Analysis, sorting: Sorting) returns (r: Response)
      requires Valid() && Grounded(Of(p)) && W.Paired(a) && BlocksWithReason(sorting)
      requires Of(p).view.status == Classifying && !AnyOpen(Of(p).rows.questions)
      modifies session, requirements, consultations
      ensures Valid()
      ensures r ==
        var s := old(Of(p));
        if GoesOn(sorting.gate, Confirmed(s.rows)) && DraftCollides(s.store, s.rows.questions, s.log, a, clash)
        then KeyCollision else Done
      ensures r == Done ==>
        var s := old(Of(p));
        Sorted(s, EventsOf(s.view), sorting.gate, sorting.prohibited, a, clash, Of(p)) && Settled(Of(p))
      ensures forall q :: q != p ==> Of(q) == old(Of(q))
    {
      hide Of, Moved, Judge, ViewOf, DraftCollides, Grounded, Drafted, Settled, AnyOpen, EventsOf, Confirmed,
           Unblocked, LatestClassification, SavesCheckpoint, KeepsRecords, W.Paired, Session.Valid;
      ghost var s := Of(p);
      Look(p);
      var gate, confirmed := sorting.gate, Confirmed(Rows(p));
      GroundedParts(s);
      ClassificationInherits(s.rows, gate, sorting.prohibited);
      ClassifyingKeeps(s, gate, sorting.prohibited);
      var classified := Rows(p).classifications + [Classification(gate, sorting.prohibited, confirmed)];
      Update(p, Rows(p).(classifications := classified));
      if gate == NeedsExpert && !confirmed {
        Consult(p, ByPolicy);
      }
      ghost var mid := Of(p);
      ConsultingKeeps(s.(rows := mid.rows), mid.consultations);
      GateApplies(session.cfg, mid, gate);
      var o := Emit(p, GateEvent(gate, confirmed), NO_CONTEXT);
      assert o.Applied?;
      MovedParts(mid, GateEvent(gate, confirmed), o.to, Of(p));
      if GoesOn(gate, confirmed) {
        r := DraftRequirements(p, a);
      } else {
        GateSettles(s, gate, sorting.prohibited, mid.consultations, Of(p));
        r := Done;
      }
    }

    /** The first half of run_analysis: only a project without any planning input is refused. */
    method Start(p: ProjectId, entry: Event) returns (ok: bool)
      requires Valid() && Grounded(Of(p))
      requires
        || (Of(p).view.status == IdeaReceived && entry == AnalysisStarted)
        || (Of(p).view.status == AutoBlockedByPolicy && entry == AlternativeAccepted)
      modifies session
      ensures Valid()
      ensures ok <==> HasInput(old(Of(p)).rows)
      ensures ok ==>
        var s, t := old(Of(p)), Of(p);
        && t == s.(view := t.view) && t.view.status == Classifying && Grounded(t)
        && EventsOf(t.view) == EventsOf(s.view) + [entry, AnalysisCompleted]
      ensures forall q :: q != p ==> Of(q) == old(Of(q))
    {
      hide Of, Moved, Judge, ViewOf, Grounded, EventsOf, Confirmed, Unblocked, SavesCheckpoint, HasUpload,
           Session.Valid;
      ghost var s := Of(p);
      StartApplies(session.cfg, s, entry);
      var o := Emit(p, entry, NO_CONTEXT);
      if !o.Applied? {
        return false;
      }
      ghost var mid := Of(p);
      MovedParts(s, entry, o.to, mid);
      AnalysisApplies(session.cfg, mid);
      o := Emit(p, AnalysisCompleted, NO_CONTEXT);
      assert o.Applied?;
      MovedParts(mid, AnalysisCompleted, o.to, Of(p));
      assert EventsOf(Of(p).view) == EventsOf(s.view) + [entry, AnalysisCompleted];
      return true;
    }

    /** run_analysis: a first analysis, or one of a changed plan after a policy block. */
    method RunAnalysis(p: ProjectId, a: W.Analysis, sorting: Sorting) returns (r: Response)
      requires Valid() && Settled(Of(p)) && W.Paired(a) && BlocksWithReason(sorting)
      modifies session, requirements, consultations
      ensures Valid()
      ensures r ==
        var s := old(Of(p));
        if s.view.status != IdeaReceived && s.view.status != AutoBlockedByPolicy then WrongState
        else if !HasInput(s.rows) then GuardRefused
        else if GoesOn(sorting.gate, Confirmed(s.rows)) && DraftCollides(s.store, s.rows.questions, s.log, a, clash)
        then KeyCollision
        else Done
      ensures r == Done ==>
        var s := old(Of(p));
        Sorted(s, EventsOf(s.view) + [EntryEvent(s.view.status), AnalysisCompleted], sorting.gate, sorting.prohibited,
               a, clash, Of(p)) && Settled(Of(p))
      ensures forall q :: q != p ==> Of(q) == old(Of(q))
    {
      hide Of, Judge, ViewOf, DraftCollides, Grounded, Drafted, Settled, AnyOpen, EventsOf, Confirmed, Unblocked,
           LatestClassification, SavesCheckpoint, W.Paired, HasUpload, GoesOn, Session.Valid;
      ghost var s := Of(p);
      Look(p);
      SettledParts(s);
      var entry: Event;
      if Status(p) == IdeaReceived {
        entry := AnalysisStarted;
      } else if Status(p) == AutoBlockedByPolicy {
        entry := AlternativeAccepted;
      } else {
        return WrongState;
      }
      var started := Start(p, entry);
      if !started {
        return GuardRefused;
      }
      r := FollowGate(p, a, sorting);
    }

    /** redraft, after an event has led back to REQUIREMENT_DRAFTING. */
    method MoveAndDraft(p: ProjectId, event: Event, a: W.Analysis) returns (r: Response)
      requires Valid() && Grounded(Of(p)) && InOrder(Of(p), event) && W.Paired(a) && Classified(Of(p).rows)
      requires Verdict(session.cfg, Of(p), event) == Applied(Of(p).view.status, RequirementDrafting)
      modifies session, requirements
      ensures Valid()
      ensures r ==
        var s := old(Of(p));
        if DraftCollides(s.store, s.rows.questions, s.log, a, clash) then KeyCollision else Done
      ensures r == Done ==>
        var s, t := old(Of(p)), Of(p);
        && Drafted(s.store, s.rows, EventsOf(s.view) + [event], a, clash, t)
        && t.log == s.log && t.consultations == s.consultations
        && Settled(t)
      ensures forall q :: q != p ==> Of(q) == old(Of(q))
    {
      hide Of, Judge, ViewOf, DraftCollides, Grounded, Drafted, Settled, AnyOpen, EventsOf, LatestClassification,
           SavesCheckpoint, W.Paired, InOrder, Session.Valid;
      var o := Emit(p, event, NO_CONTEXT);
      assert o.Applied?;
      r := DraftRequirements(p, a);
    }

    // -------------------------------------------------------------- answers

    method FindQuestion(table: seq<Question>, key: string) returns (found: Option<nat>)
      ensures found.Some? ==> found.value < |table| && table[found.value].key == key
      ensures found.None? <==> !W.HasQuestion(table, key)
    {
      for i := 0 to |table|
        invariant forall k :: 0 <= k < i ==> table[k].key != key
      {
        if table[i].key == key {
          assert table[i] in table;
          return Some(i);
        }
      }
      return None;
    }

    /** answer_question: the answer is stored and logged as a decision; the last open question starts
        the next round of drafting. */
    method AnswerQuestion(p: ProjectId, key: string, answer: string, a: W.Analysis)
      returns (r: Response)
      requires Valid() && Settled(Of(p)) && W.Paired(a)
      modifies session, requirements, decisions
      ensures Valid()
      ensures r ==
        var s := old(Of(p));
        var table := WithAnswer(s.rows.questions, key, answer);
        if s.view.status != WaitingRequirementInput || !IsOpenQuestion(s.rows.questions, key) then WrongState
        else if !AnyOpen(table) && DraftCollides(s.store, table, WithDecision(s, key, answer), a, clash)
        then KeyCollision
        else Done
      ensures r == Done ==>
        var s, t := old(Of(p)), Of(p);
        var rows := s.rows.(questions := WithAnswer(s.rows.questions, key, answer));
        && Settled(t)
        && t.log == WithDecision(s, key, answer)
        && if AnyOpen(rows.questions) then t == s.(rows := rows, log := t.log)
           else Drafted(s.store, rows, EventsOf(s.view) + [UserAnswered], a, clash, t)
      ensures r == WrongState ==> Of(p) == old(Of(p))
      ensures forall q :: q != p ==> Of(q) == old(Of(q))
    {
      hide Of, Judge, ViewOf, DraftCollides, Grounded, Drafted, Settled, AnyOpen, AnyAnswered, EventsOf,
           IsOpenQuestion, SavesCheckpoint, W.Paired, WithAnswer, Session.Valid, D.Add, D.Titled, D.DecisionKey;
      ghost var s := Of(p);
      Look(p);
      SettledParts(s);
      GroundedParts(s);
      if Status(p) != WaitingRequirementInput {
        return WrongState;
      }
      var table := Rows(p).questions;
      var found := FindQuestion(table, key);
      OpenQuestionFound(table, key, found);
      if found.None? {
        return WrongState;
      }
      var q := table[found.value];
      if q.answer.Some? {
        return WrongState;
      }
      AnsweringKeeps(s, found.value, answer);
      Update(p, Rows(p).(questions := table[found.value := q.(answer := Some(answer))]));
      TextOfQuestion(table, found.value);
      LogDecision(p, q.text, answer);
      LoggingKeeps(s.(rows := Of(p).rows), q.text, answer);
      Look(p);
      if AnyOpen(Rows(p).questions) {
        StillWaiting(s, Of(p));
        r := Done;
      } else {
        AnswerApplies(session.cfg, Of(p));
        r := MoveAndDraft(p, UserAnswered, a);
      }
    }

    // -------------------------------------------------------------- specification and expansion

    /** Appends a generated document or an approval. */
    method Record(p: ProjectId, documents: seq<Document>, approvals: seq<Approval>)
      requires Valid() && Grounded(Of(p))
      modifies session
      ensures Valid() && Grounded(Of(p))
      ensures
        var s := old(Of(p));
        Of(p) == s.(rows := s.rows.(documents := s.rows.documents + documents,
            approvals := s.rows.approvals + approvals))
      ensures forall q :: q != p ==> Of(q) == old(Of(q))
    {
      hide ViewOf, Grounded, KeepsRecords, Session.Valid;
      ghost var s := Of(p);
      RecordingKeeps(s, s.rows.documents + documents, s.rows.approvals + approvals);
      Update(p, Rows(p).(documents := Rows(p).documents + documents, approvals := Rows(p).approvals + approvals));
    }

    /** _generate_backlog. */
    method GenerateBacklog(p: ProjectId)
      requires Valid() && Grounded(Of(p)) && Calm(Of(p)) && Of(p).view.status == BacklogGenerating
      modifies session
      ensures Valid() && Settled(Of(p))
      ensures
        var s, t := old(Of(p)), Of(p);
        && t == s.(view := t.view, rows := s.rows.(documents := s.rows.documents + [Document(Generated, Backlog)]))
        && t.view.status == ReadyForDevelopment
        && EventsOf(t.view) == EventsOf(s.view) + [BacklogReadyExisting]
      ensures forall q :: q != p ==> Of(q) == old(Of(q))
    {
      hide Of, Judge, ViewOf, Grounded, Settled, EventsOf, AnyOpen, SavesCheckpoint, Session.Valid;
      Record(p, [Document(Generated, Backlog)], []);
      BacklogApplies(session.cfg, Of(p));
      var o := Emit(p, BacklogReadyExisting, NO_CONTEXT);
      assert o.Applied?;
      CalmSettles(Of(p));
    }

    /** The first half of _resolve_expansion: plan, judge, and activate what is automatic. */
    method Propose(p: ProjectId, missing: seq<string>) returns (decision: PolicyDecision)
      requires Valid()
      modifies expansion, expansion.registry
      ensures Valid()
      ensures
        var servers := SeededServers(old(expansion.servers), expansion.serverSeeds);
        var judged := X.JudgeAll(expansion.plans, servers, missing);
        && decision == P.Aggregate(X.DecisionsOf(judged))
        && expansion.proposals == old(expansion.proposals) + X.RecordsOf(p, judged)
        && expansion.Current() == Activated(X.Assets(servers, old(expansion.registry.Reg())), judged, decision)
    {
      hide X.JudgeAll, X.ActivateAll, X.RecordsOf, P.Aggregate, X.DecisionsOf, Session.Valid;
      var judged: seq<X.Judged>;
      decision, judged := expansion.PlanAndJudge(p, missing);
      if decision == AutoApprove {
        var _ := expansion.Activate(judged);
      }
    }

    /** The second half: the event of the decision, with a consultation for an expert. */
    method FollowDecision(p: ProjectId, decision: PolicyDecision)
      requires Valid() && Grounded(Of(p)) && Calm(Of(p)) && Of(p).view.status == ExpansionProposing
      modifies session, consultations
      ensures Valid() && Settled(Of(p))
      ensures Resolved(old(Of(p)), EventsOf(old(Of(p)).view), decision, Of(p))
      ensures forall q :: q != p ==> Of(q) == old(Of(q))
    {
      hide Of, Judge, ViewOf, Grounded, Settled, EventsOf, AnyOpen, Resolved, Session.Valid;
      ghost var s := Of(p);
      if decision == ExpertRequired {
        Consult(p, ByPolicy);
        ConsultingKeeps(s, Of(p).consultations);
      }
      ghost var mid := Of(p);
      ProposalApplies(session.cfg, mid, decision);
      var o := Emit(p, ProposalEvent(decision), Context(None, Some(decision)));
      assert o.Applied?;
      if decision == AutoApprove {
        ghost var moved := Of(p);
        GenerateBacklog(p);
        AutoResolves(s, moved, Of(p));
      } else {
        assert s.consultations + [] == s.consultations;
        OtherResolves(s, decision, mid, Of(p));
      }
    }

    /** The PRD is written before SPEC_COMPLETED is fired. */
    method WritePrd(p: ProjectId)
      requires Valid() && Grounded(Of(p)) && Of(p).view.status == SpecificationGenerating
      modifies session
      ensures Valid() && Grounded(Of(p)) && PrdWritten(old(Of(p)), Of(p))
      ensures forall q :: q != p ==> Of(q) == old(Of(q))
    {
      hide Of, Judge, ViewOf, Grounded, EventsOf, Session.Valid;
      Record(p, [Document(Generated, Prd)], []);
      SpecificationApplies(session.cfg, Of(p));
      var o := Emit(p, SpecCompleted, NO_CONTEXT);
      assert o.Applied?;
    }

    /** What follows the gap analysis: the backlog, or the expansion of what is missing. */
    method FollowGap(p: ProjectId, missing: seq<string>) returns (decision: PolicyDecision)
      requires Valid() && Grounded(Of(p)) && Calm(Of(p)) && Of(p).view.status == CapabilityAnalyzing
      modifies session, consultations, expansion, expansion.registry
      ensures Valid() && Settled(Of(p))
      ensures
        var servers := SeededServers(old(expansion.servers), expansion.serverSeeds);
        var assets := X.Assets(servers, old(expansion.registry.Reg()));
        if missing == [] then decision == AutoApprove && expansion.Current() == old(expansion.Current())
        else
          && decision == DecisionOn(expansion.plans, servers, missing)
          && expansion.Current() == Activated(assets, X.JudgeAll(expansion.plans, servers, missing), decision)
      ensures expansion.proposals == old(expansion.proposals) +
        var servers := SeededServers(old(expansion.servers), expansion.serverSeeds);
        if missing == [] then [] else X.RecordsOf(p, X.JudgeAll(expansion.plans, servers, missing))
      ensures forall s :: PrdWritten(s, old(Of(p))) ==> Specified(s, EventsOf(s.view), missing, decision, Of(p))
      ensures forall q :: q != p ==> Of(q) == old(Of(q))
    {
      hide Of, Judge, ViewOf, Grounded, Settled, EventsOf, AnyOpen, X.JudgeAll, Activated, P.Aggregate,
           X.DecisionsOf, X.RecordsOf, Moved, Resolved, Specified, PrdWritten, Session.Valid;
      ghost var prd := Of(p);
      GapApplies(session.cfg, prd, missing);
      var o := Emit(p, if missing != [] then GapFound else NoGapFound, Context(Some(missing), None));
      assert o.Applied?;
      ghost var mid := Of(p);
      MovedParts(prd, if missing != [] then GapFound else NoGapFound, o.to, mid);
      if missing != [] {
        decision := Propose(p, missing);
        FollowDecision(p, decision);
        forall s | PrdWritten(s, prd) ensures Specified(s, EventsOf(s.view), missing, decision, Of(p)) {
          GapSpecifies(s, prd, mid, missing, decision, Of(p));
        }
      } else {
        decision := AutoApprove;
        GenerateBacklog(p);
        forall s | PrdWritten(s, prd) ensures Specified(s, EventsOf(s.view), missing, decision, Of(p)) {
          NoGapSpecifies(s, prd, mid, decision, Of(p));
        }
      }
    }

    /** _generate_specification: the PRD, the gap analysis, and then the backlog or the expansion. The
        state reached follows from the registry, the catalog and the servers alone; and where the
        backlog is reached at once, the gap analysis of the required capabilities has nothing missing
        any more (unless a server is registered under the empty id). */
    method GenerateSpecification(p: ProjectId, required: seq<string>)
      returns (missing: seq<string>, decision: PolicyDecision)
      requires Valid() && Grounded(Of(p)) && Calm(Of(p)) && Of(p).view.status == SpecificationGenerating
      modifies session, consultations, expansion, expansion.registry
      ensures Valid() && Settled(Of(p))
      ensures missing == C.Missing(C.Seeded(old(expansion.registry.Reg()), capabilitySeeds), required)
      ensures decision ==
        DecisionOn(expansion.plans, SeededServers(old(expansion.servers), expansion.serverSeeds), missing)
      ensures Specified(old(Of(p)), EventsOf(old(Of(p)).view), missing, decision, Of(p))
      ensures Current() ==
        Proposed(expansion.plans, expansion.serverSeeds, capabilitySeeds, p, old(Current()), required)
      ensures Of(p).view.status == ReadyForDevelopment && "" !in expansion.servers ==>
        C.Missing(expansion.registry.Reg(), required) == []
      ensures forall q :: q != p ==> Of(q) == old(Of(q))
    {
      hide Of, ViewOf, Grounded, Settled, EventsOf, AnyOpen, Session.Valid, C.Missing, C.Seeded, X.JudgeAll,
           Activated, DecisionOn, SeededServers, PrdWritten, Specified, Proposed, X.RecordsOf;
      ghost var s, servers := Of(p), SeededServers(expansion.servers, expansion.serverSeeds);
      ProposedParts(expansion.plans, expansion.serverSeeds, capabilitySeeds, p, Current(), required);
      WritePrd(p);
      PrdParts(s, Of(p));
      var seeded := expansion.registry.EnsureSeeded(capabilitySeeds);
      assert seeded;
      ghost var before := X.Assets(servers, expansion.registry.Reg());
      missing := C.Missing(expansion.registry.Reg(), required);
      NothingToDecide(expansion.plans, servers);
      decision := FollowGap(p, missing);
      SpecifiedEnd(s, EventsOf(s.view), missing, decision, Of(p));
      if Of(p).view.status == ReadyForDevelopment && missing != [] {
        GapIsClosed(expansion.plans, before, required, expansion.Current());
      }
    }

    // -------------------------------------------------------------- decisions of the user

    /** decide_requirements: an approval leads to the specification, anything else back to drafting. */
    method DecideRequirements(p: ProjectId, decision: ApprovalDecision, a: W.Analysis)
      returns (r: Response)
      requires Valid() && Settled(Of(p)) && W.Paired(a)
      modifies session, requirements, consultations, expansion, expansion.registry
      ensures Valid()
      ensures r ==
        var s := old(Of(p));
        if s.view.status != WaitingRequirementApproval then WrongState
        else if decision != Approved && DraftCollides(s.store, s.rows.questions, s.log, a, clash) then KeyCollision
        else Done
      ensures r == Done && decision == Approved ==>
        var s, t := Decided(old(Of(p)), Requirements, decision), Of(p);
        var missing := C.Missing(C.Seeded(old(expansion.registry.Reg()), capabilitySeeds), a.capabilities);
        var servers := SeededServers(old(expansion.servers), expansion.serverSeeds);
        && Settled(t)
        && Specified(s, EventsOf(s.view) + [RequirementsApproved], missing, DecisionOn(expansion.plans, servers,
            missing), t)
        && (t.view.status == ReadyForDevelopment && "" !in expansion.servers ==>
              C.Missing(expansion.registry.Reg(), a.capabilities) == [])
      ensures r == Done && decision == Approved ==>
        Current() ==
          Proposed(expansion.plans, expansion.serverSeeds, capabilitySeeds, p, old(Current()), a.capabilities)
      ensures r == Done && decision != Approved ==>
        var s, t := Decided(old(Of(p)), Requirements, decision), Of(p);
        && Current() == old(Current())
        && Settled(t)
        && Drafted(s.store, s.rows, EventsOf(s.view) + [ChangesRequested], a, clash, t)
        && t.log == s.log && t.consultations == s.consultations
      ensures r == WrongState ==> Of(p) == old(Of(p))
      ensures forall q :: q != p ==> Of(q) == old(Of(q))
    {
      hide Of, Judge, ViewOf, DraftCollides, Grounded, Drafted, Specified, Settled, AnyOpen, EventsOf,
           LatestClassification, SavesCheckpoint, W.Paired, C.Missing, C.Seeded, DecisionOn, SeededServers,
           Session.Valid;
      ghost var s := Of(p);
      Look(p);
      SettledParts(s);
      if Status(p) != WaitingRequirementApproval {
        return WrongState;
      }
      Record(p, [], [Approval(Requirements, decision)]);
      ghost var decided := Of(p);
      assert s.rows.documents + [] == s.rows.documents;
      DecidedParts(s, Requirements, decision);
      RequirementsDecisionApplies(session.cfg, decided, decision);
      if decision == Approved {
        var o := Emit(p, RequirementsApproved, NO_CONTEXT);
        assert o.Applied?;
        ghost var view := Of(p).view;
        var missing, outcome := GenerateSpecification(p, a.capabilities);
        SpecifiedFromAnyView(decided, view, EventsOf(view), missing, outcome, Of(p));
        r := Done;
      } else {
        r := MoveAndDraft(p, ChangesRequested, a);
      }
    }

    /** decide_reduced_scope: an approval is logged as a decision and starts the drafting. */
    method DecideReducedScope(p: ProjectId, decision: ApprovalDecision, scope: string, a: W.Analysis)
      returns (r: Response)
      requires Valid() && Settled(Of(p)) && W.Paired(a)
      modifies session, requirements, decisions
      ensures Valid()
      ensures r ==
        var s := old(Of(p));
        if s.view.status != WaitingApproval then WrongState
        else if decision == Approved &&
                DraftCollides(s.store, s.rows.questions, D.Add(s.log, REDUCED_SCOPE_TITLE, scope), a, clash)
        then KeyCollision
        else Done
      ensures r == Done ==>
        var s, t := Decided(old(Of(p)), ReducedScope, decision), Of(p);
        && Settled(t)
        && if decision == Approved then
             && Drafted(s.store, s.rows, EventsOf(s.view) + [ApprovalGranted], a, clash, t)
             && t.log == D.Add(s.log, REDUCED_SCOPE_TITLE, scope) && t.consultations == s.consultations
           else OnlyMoved(s, ApprovalDenied, Cancelled, t)
      ensures r == WrongState ==> Of(p) == old(Of(p))
      ensures forall q :: q != p ==> Of(q) == old(Of(q))
    {
      hide Of, Judge, ViewOf, DraftCollides, Grounded, Drafted, Settled, AnyOpen, EventsOf, LatestClassification,
           SavesCheckpoint, W.Paired, D.Add, Session.Valid;
      ghost var s := Of(p);
      Look(p);
      SettledParts(s);
      if Status(p) != WaitingApproval {
        return WrongState;
      }
      Record(p, [], [Approval(ReducedScope, decision)]);
      ghost var decided := Of(p);
      assert s.rows.documents + [] == s.rows.documents;
      DecidedParts(s, ReducedScope, decision);
      if decision == Approved {
        LogDecision(p, REDUCED_SCOPE_TITLE, scope);
        LoggingKeeps(decided, REDUCED_SCOPE_TITLE, scope);
        ReducedScopeDecisionApplies(session.cfg, Of(p), decision);
        r := MoveAndDraft(p, ApprovalGranted, a);
      } else {
        ReducedScopeDecisionApplies(session.cfg, decided, decision);
        var o := Emit(p, ApprovalDenied, NO_CONTEXT);
        assert o.Applied?;
        CalmEventSettles(decided, ApprovalDenied, Cancelled, Of(p));
        r := Done;
      }
    }

    twostate predicate PendingApproved(p: ProjectId)
      reads expansion, expansion.registry
    {
      Approves(p, old(Current()), Current())
    }

    method ApprovePending(p: ProjectId)
      requires Valid()
      modifies expansion, expansion.registry
      ensures Valid() && PendingApproved(p)
      ensures forall q :: Of(q) == old(Of(q))
    {
      hide Of, C.Matched, X.Connected, X.ApproveRow, X.ApproveAll, C.RowsUnique, Session.Valid;
      X.ApprovalMatchesExactly(expansion.Current(), p, expansion.proposals);
      var _ := expansion.ApprovePending(p);
    }

    /** Activates what is pending, fires the event that leaves the expansion, and writes the backlog. */
    method ApproveAndFinish(p: ProjectId, event: Event, ctx: Context)
      requires Valid() && Grounded(Of(p)) && Calm(Of(p)) && InOrder(Of(p), event)
      requires Judge(session.cfg, Product, Of(p).view, Of(p).rows, event, ctx) ==
        Applied(Of(p).view.status, BacklogGenerating)
      modifies session, expansion, expansion.registry
      ensures Valid() && Settled(Of(p)) && PendingApproved(p)
      ensures
        var s, t := old(Of(p)), Of(p);
        && t == s.(view := t.view, rows := s.rows.(documents := s.rows.documents + [Document(Generated, Backlog)]))
        && t.view.status == ReadyForDevelopment
        && EventsOf(t.view) == EventsOf(s.view) + [event, BacklogReadyExisting]
      ensures forall q :: q != p ==> Of(q) == old(Of(q))
    {
      hide Of, Approves, Judge, ViewOf, Grounded, InOrder, Settled, AnyOpen, EventsOf, SavesCheckpoint, C.RowsUnique,
           Session.Valid;
      ghost var s := Of(p);
      ApprovePending(p);
      var o := Emit(p, event, ctx);
      assert o.Applied?;
      GenerateBacklog(p);
      assert EventsOf(Of(p).view) == EventsOf(s.view) + [event, BacklogReadyExisting];
    }

    /** decide_expansion: an approval activates what is pending and completes the backlog. */
    method DecideExpansion(p: ProjectId, decision: ApprovalDecision) returns (r: Response)
      requires Valid() && Settled(Of(p))
      modifies session, expansion, expansion.registry
      ensures Valid()
      ensures r == if old(Of(p)).view.status != WaitingExpansionApproval then WrongState else Done
      ensures r == Done ==>
        var s, t := Decided(old(Of(p)), Expansion, decision), Of(p);
        && Settled(t)
        && if decision == Approved then
             && PendingApproved(p)
             && t == s.(view := t.view, rows := s.rows.(documents := s.rows.documents + [Document(Generated, Backlog)]))
             && t.view.status == ReadyForDevelopment
             && EventsOf(t.view) == EventsOf(s.view) + [ExpansionApproved, BacklogReadyExisting]
           else Current() == old(Current()) && OnlyMoved(s, ExpansionDenied, ExpansionRejected, t)
      ensures r == WrongState ==> Of(p) == old(Of(p))
      ensures forall q :: q != p ==> Of(q) == old(Of(q))
    {
      hide Of, Judge, ViewOf, Grounded, Settled, AnyOpen, EventsOf, LatestClassification, SavesCheckpoint,
           Approves, C.RowsUnique, Session.Valid;
      ghost var s := Of(p);
      Look(p);
      SettledParts(s);
      if Status(p) != WaitingExpansionApproval {
        return WrongState;
      }
      Record(p, [], [Approval(Expansion, decision)]);
      ghost var decided := Of(p);
      assert s.rows.documents + [] == s.rows.documents;
      DecidedParts(s, Expansion, decision);
      ExpansionDecisionApplies(session.cfg, decided, decision);
      if decision == Approved {
        ApproveAndFinish(p, ExpansionApproved, NO_CONTEXT);
      } else {
        var o := Emit(p, ExpansionDenied, NO_CONTEXT);
        assert o.Applied?;
        CalmEventSettles(decided, ExpansionDenied, ExpansionRejected, Of(p));
      }
      return Done;
    }

    // -------------------------------------------------------------- expert answers

    /** The answer on the newest package. */
    method RecordAnswer(p: ProjectId, answer: Answer)
      requires Valid() && Of(p).consultations != []
      modifies consultations
      ensures Valid()
      ensures
        var packages := old(Of(p)).consultations;
        var n := |packages| - 1;
        Of(p) == old(Of(p)).(consultations :=
          packages[n := Consultation(packages[n].trigger, AnswerRecorded, packages[n].answers + [answer])])
      ensures forall q :: q != p ==> Of(q) == old(Of(q))
    {
      hide ViewOf, Session.Valid;
      consultations.RecordAnswer(p, |consultations.Of(p)| - 1, answer);
    }

    method MarkApplied(p: ProjectId)
      requires Valid() && Of(p).consultations != []
      modifies consultations
      ensures Valid()
      ensures
        var packages := old(Of(p)).consultations;
        var n := |packages| - 1;
        Of(p) == old(Of(p)).(consultations := packages[n := packages[n].(progress := AnswerApplied)])
      ensures forall q :: q != p ==> Of(q) == old(Of(q))
    {
      hide ViewOf, Session.Valid;
      consultations.MarkApplied(p, |consultations.Of(p)| - 1);
    }

    /** _unblock_after_expert: confirm, return to the checkpoint, and go on from there. */
    method UnblockAfterExpert(p: ProjectId, a: W.Analysis) returns (r: Response)
      requires Valid() && Settled(Of(p)) && W.Paired(a) && Of(p).view.status == WaitingExpertConfirmation
      modifies session, requirements, expansion, expansion.registry
      ensures Valid()
      ensures r ==
        var s := old(Of(p));
        if Last(s.view.checkpoints) == Some(Classifying) && DraftCollides(s.store, s.rows.questions, s.log, a, clash)
        then KeyCollision else Done
      ensures r == Done ==>
        var s, t := old(Of(p)), Of(p);
        && Settled(t) && t.log == s.log && t.consultations == s.consultations
        && if Last(s.view.checkpoints) == Some(Classifying) then
             && Current() == old(Current())
             && Drafted(s.store, WithConfirmation(s.rows),
                        EventsOf(s.view) + [ExpertAnswerUnblocks, ExpertConfirmedProceed], a, clash, t)
           else
             && Last(s.view.checkpoints) == Some(ExpansionProposing) && PendingApproved(p)
             && t.view.status == ReadyForDevelopment && t.store == s.store
             && t.rows == WithConfirmation(s.rows).(documents := s.rows.documents + [Document(Generated, Backlog)])
             && EventsOf(t.view) == EventsOf(s.view) + [ExpertAnswerUnblocks, ProposalAutoApproved,
                 BacklogReadyExisting]
      ensures forall q :: q != p ==> Of(q) == old(Of(q))
    {
      hide Of, Judge, ViewOf, DraftCollides, Grounded, Drafted, Settled, AnyOpen, EventsOf, LatestClassification,
           Confirmed, W.Paired, Approves, C.RowsUnique, Session.Valid;
      ghost var s := Of(p);
      Resume(p);
      ghost var back := Of(p);
      Look(p);
      if Status(p) == Classifying {
        ProceedApplies(session.cfg, back);
        assert EventsOf(back.view) + [ExpertConfirmedProceed] ==
               EventsOf(s.view) + [ExpertAnswerUnblocks, ExpertConfirmedProceed];
        r := MoveAndDraft(p, ExpertConfirmedProceed, a);
      } else {
        ProposalApplies(session.cfg, back, AutoApprove);
        ApproveAndFinish(p, ProposalAutoApproved, Context(None, Some(AutoApprove)));
        r := Done;
      }
    }

    /** The confirmation and EXPERT_ANSWER_UNBLOCKS, which lands on CLASSIFYING or EXPANSION_PROPOSING. */
    method Resume(p: ProjectId)
      requires Valid() && Settled(Of(p)) && Of(p).view.status == WaitingExpertConfirmation
      modifies session
      ensures Valid() && Grounded(Of(p)) && Calm(Of(p)) && Confirmed(Of(p).rows)
      ensures
        var s, t := old(Of(p)), Of(p);
        && t == s.(view := t.view, rows := WithConfirmation(s.rows))
        && Some(t.view.status) == Last(s.view.checkpoints)
        && (t.view.status == Classifying || t.view.status == ExpansionProposing)
        && EventsOf(t.view) == EventsOf(s.view) + [ExpertAnswerUnblocks]
        && t.rows.questions == s.rows.questions && t.rows.documents == s.rows.documents
      ensures forall q :: q != p ==> Of(q) == old(Of(q))
    {
      hide Of, Judge, ViewOf, Grounded, Settled, AnyOpen, EventsOf, LatestClassification, Confirmed,
           SavesCheckpoint, Session.Valid;
      ghost var s := Of(p);
      Look(p);
      SettledParts(s);
      ConfirmingKeeps(s);
      var rows := Rows(p);
      var n := |rows.classifications|;
      if n > 0 {
        var confirmed := rows.classifications[n - 1].(expertConfirmed := true);
        rows := rows.(classifications := rows.classifications[n - 1 := confirmed]);
      }
      Update(p, rows);
      ExpertAnswerApplies(session.cfg, Of(p), ExpertAnswerUnblocks);
      var o := Emit(p, ExpertAnswerUnblocks, NO_CONTEXT);
      assert o.Applied?;
    }

    /** apply_consultation_answer. A waiting project always has a package to record the answer on, so
        only the state and the direction of the answer can be wrong. */
    method ApplyConsultationAnswer(p: ProjectId, answer: Answer, a: W.Analysis)
      returns (r: Response)
      requires Valid() && Settled(Of(p)) && W.Paired(a)
      modifies session, requirements, consultations, expansion, expansion.registry
      ensures Valid()
      ensures r ==
        var s := old(Of(p));
        if s.view.status != WaitingExpertConfirmation || answer.resolution.OtherDirection? then WrongState
        else if Redrafts(s, answer.resolution) && DraftCollides(s.store, s.rows.questions, s.log, a, clash)
        then KeyCollision
        else Done
      ensures r == Done ==>
        var s, t := old(Of(p)), Of(p);
        && Settled(t) && t.log == s.log
        && t.consultations == Answered(s.consultations, answer)
        && AnswerFollowed(s, answer.resolution, a, clash, t)
        && (if answer.resolution.Unblock? && Last(s.view.checkpoints) == Some(ExpansionProposing)
            then PendingApproved(p) else Current() == old(Current()))
      ensures r == WrongState ==> Of(p) == old(Of(p))
      ensures forall q :: q != p ==> Of(q) == old(Of(q))
    {
      hide Judge, ViewOf, DraftCollides, Grounded, Drafted, Settled, AnyOpen, EventsOf, LatestClassification,
           Confirmed, WithConfirmation, Approves, AnswerFollowed, W.Paired, Session.Valid;
      ghost var s := Of(p);
      if Status(p) != WaitingExpertConfirmation || answer.resolution.OtherDirection? {
        return WrongState;
      }
      var n := |consultations.Of(p)|;
      SettledParts(s);
      if n == 0 {
        return WrongState;
      }
      RecordAnswer(p, answer);
      ghost var recorded := Of(p);
      NewConsultationsSettle(s, recorded.consultations);
      r := FollowAnswer(p, answer.resolution, a);
      if r == Done {
        ghost var followed := Of(p);
        MarkApplied(p);
        NewConsultationsSettle(followed, Of(p).consultations);
        AnswerFollowedAnyway(s, recorded.consultations, answer.resolution, a, clash, followed, Of(p).consultations);
      }
    }

    method FollowAnswer(p: ProjectId, resolution: Resolution, a: W.Analysis)
      returns (r: Response)
      requires Valid() && Settled(Of(p)) && W.Paired(a)
      requires Of(p).view.status == WaitingExpertConfirmation && !resolution.OtherDirection?
      modifies session, requirements, expansion, expansion.registry
      ensures Valid()
      ensures r ==
        var s := old(Of(p));
        if Redrafts(s, resolution) && DraftCollides(s.store, s.rows.questions, s.log, a, clash)
        then KeyCollision else Done
      ensures r == Done ==>
        var s, t := old(Of(p)), Of(p);
        && Settled(t) && t.log == s.log && t.consultations == s.consultations
        && AnswerFollowed(s, resolution, a, clash, t)
        && (if resolution.Unblock? && Last(s.view.checkpoints) == Some(ExpansionProposing) then PendingApproved(p)
            else Current() == old(Current()))
      ensures forall q :: q != p ==> Of(q) == old(Of(q))
    {
      hide Of, Judge, ViewOf, DraftCollides, Grounded, Drafted, Settled, AnyOpen, EventsOf, LatestClassification,
           Confirmed, WithConfirmation, Approves, SavesCheckpoint, W.Paired, Session.Valid;
      ghost var s := Of(p);
      SettledParts(s);
      if resolution.Stop? {
        ExpertAnswerApplies(session.cfg, s, ExpertAnswerStops);
        var o := Emit(p, ExpertAnswerStops, NO_CONTEXT);
        assert o.Applied?;
        CalmEventSettles(s, ExpertAnswerStops, Cancelled, Of(p));
        r := Done;
      } else if resolution.AdjustScope? {
        ExpertAnswerApplies(session.cfg, s, ExpertAnswerAdjustsScope);
        r := MoveAndDraft(p, ExpertAnswerAdjustsScope, a);
      } else {
        r := UnblockAfterExpert(p, a);
      }
    }
  }

  lemma AppliedFromStatus(cfg: Config, db: Db, c: Command)
    requires c.key.None?
    ensures
      var v := ViewOf(db, c.subject);
      var o := Decide(cfg, db, c);
      && o == Judge(cfg, c.subject.Machine(), v, RowsOf(db, c.subject.Project()), c.event, c.ctx)
      && (o.Applied? ==> o.from == v.status)
      && (!o.Applied? ==> NextView(v, c, o).status == v.status)
  {
    hide LogOf, CheckpointsOf, AuditOf, RowFor, GuardHolds;
    NoKeyNoRow(db.events, c.key);
  }
}
