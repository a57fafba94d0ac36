/** The transition engine on values: the shared tables, the guards, and what one call of
    `fire` or of the timeout check does to them (app/orchestrator/state_machine.py,
    transition_guard.py, checkpoints.py, timeout_checker.py).

    Tables are sequences in order of insertion. Every query of the source that takes the newest
    row by `created_at` takes the last matching row here, since the clock is strictly increasing. */
module Engine {
  import opened Vocabulary
  import opened Transitions

  type ProjectId = nat

  /** What a machine is fired on: a project (Product machine) or a task (Development machine). */
  datatype Subject =
    | ProjectSubject(id: ProjectId)
    | TaskSubject(taskId: nat, projectId: ProjectId)
  {
    function Machine(): Machine {
      if ProjectSubject? then Product else Development
    }

    /** The project whose rows the guards read. */
    function Project(): ProjectId {
      if ProjectSubject? then id else projectId
    }
  }

  datatype EventRow = EventRow(subject: Subject, event: Event, from: State, to: State, key: Option<string>, at: int)

  datatype CheckpointRow = CheckpointRow(subject: Subject, state: State)

  datatype AuditKind = StateTransition | TransitionRejected | GuardRejected | IdempotentReplay | TimeoutNotified

  datatype AuditRow = AuditRow(kind: AuditKind, subject: Subject, event: Option<Event>,
                               from: State, to: Option<State>, at: int)

  // The rows of one project that guards read.

  datatype Document = Document(kind: DocumentKind, docType: DocumentType)
  datatype Classification = Classification(gate: Gate, prohibited: seq<string>, expertConfirmed: bool)
  datatype Question = Question(key: string, text: string, related: Option<string>, answer: Option<string>)
  datatype Approval = Approval(kind: ApprovalType, decision: ApprovalDecision)

  datatype ProjectRows = ProjectRows(
    hasIdea: bool,
    documents: seq<Document>,
    classifications: seq<Classification>,
    questions: seq<Question>,
    approvals: seq<Approval>)

  const NO_ROWS := ProjectRows(false, [], [], [], [])

  /** All shared tables. A subject without a status entry is in its machine's initial state. */
  datatype Db = Db(
    status: map<Subject, State>,
    events: seq<EventRow>,
    checkpoints: seq<CheckpointRow>,
    audit: seq<AuditRow>,
    rows: map<ProjectId, ProjectRows>)

  const EMPTY := Db(map[], [], [], [], map[])

  datatype Config = Config(maxRetries: int, timeouts: map<State, int>)

  /** The decision context a caller passes to `fire`. */
  datatype Context = Context(missing: Option<seq<string>>, decision: Option<PolicyDecision>)

  const NO_CONTEXT := Context(None, None)

  datatype Command = Command(subject: Subject, event: Event, key: Option<string>, ctx: Context, at: int)

  datatype Outcome =
    | Replayed(from: State, to: State)
    | Illegal(from: State)
    | NoCheckpoint(from: State)
    | Refused(from: State, to: State)
    | Applied(from: State, to: State)

  /** What the tables hold about one subject. */
  datatype View = View(status: State, log: seq<EventRow>, checkpoints: seq<State>, audit: seq<AuditRow>)

  function StatusOf(db: Db, s: Subject): State {
    if s in db.status then db.status[s] else InitialState(s.Machine())
  }

  function RowsOf(db: Db, p: ProjectId): ProjectRows {
    if p in db.rows then db.rows[p] else NO_ROWS
  }

  function LogOf(events: seq<EventRow>, s: Subject): seq<EventRow> {
    if events == [] then []
    else
      var n := |events| - 1;
      LogOf(events[..n], s) + (if events[n].subject == s then [events[n]] else [])
  }

  function CheckpointsOf(checkpoints: seq<CheckpointRow>, s: Subject): seq<State> {
    if checkpoints == [] then []
    else
      var n := |checkpoints| - 1;
      CheckpointsOf(checkpoints[..n], s) + (if checkpoints[n].subject == s then [checkpoints[n].state] else [])
  }

  function AuditOf(audit: seq<AuditRow>, s: Subject): seq<AuditRow> {
    if audit == [] then []
    else
      var n := |audit| - 1;
      AuditOf(audit[..n], s) + (if audit[n].subject == s then [audit[n]] else [])
  }

  function ViewOf(db: Db, s: Subject): View {
    View(StatusOf(db, s), LogOf(db.events, s), CheckpointsOf(db.checkpoints, s), AuditOf(db.audit, s))
  }

  function Last<T>(xs: seq<T>): Option<T> {
    if xs == [] then None else Some(xs[|xs| - 1])
  }

  /** The event row already stored under an idempotency key. */
  function KeyRow(events: seq<EventRow>, key: Option<string>): Option<EventRow> {
    if key.None? || events == [] then None
    else
      var n := |events| - 1;
      if events[n].key == key then Some(events[n]) else KeyRow(events[..n], key)
  }

  function CountEvents(log: seq<EventRow>, event: Event): nat {
    if log == [] then 0
    else
      var n := |log| - 1;
      CountEvents(log[..n], event) + (if log[n].event == event then 1 else 0)
  }

  predicate HasApproval(rows: ProjectRows, kind: ApprovalType) {
    Approval(kind, Approved) in rows.approvals
  }

  predicate HasChangeRequest(rows: ProjectRows) {
    exists a :: a in rows.approvals && a.kind == Requirements && a.decision != Approved
  }

  predicate HasGenerated(rows: ProjectRows, docType: DocumentType) {
    Document(Generated, docType) in rows.documents
  }

  predicate HasUpload(rows: ProjectRows) {
    exists d :: d in rows.documents && d.kind == Uploaded
  }

  predicate IsOpen(q: Question) { q.answer.None? }

  predicate AnyOpen(questions: seq<Question>) {
    exists q :: q in questions && IsOpen(q)
  }

  predicate AnyAnswered(questions: seq<Question>) {
    exists q :: q in questions && !IsOpen(q)
  }

  function LatestClassification(rows: ProjectRows): Option<Classification> {
    Last(rows.classifications)
  }

  predicate Confirmed(rows: ProjectRows) {
    LatestClassification(rows).Some? && LatestClassification(rows).value.expertConfirmed
  }

  /** GuardRegistry.evaluate on a subject's view and its project's rows. */
  predicate GuardHolds(cfg: Config, v: View, rows: ProjectRows, ctx: Context, g: Guard) {
    match g
    case NoGuard => true
    case Deferred => true
    case HasPlanningInput => rows.hasIdea || HasUpload(rows)
    case ClassificationSaved => LatestClassification(rows).Some?
    case ProhibitedDetected =>
      LatestClassification(rows).Some? && LatestClassification(rows).value.prohibited != []
    case ExpertNotConfirmed =>
      LatestClassification(rows).Some? && !LatestClassification(rows).value.expertConfirmed
    case ExpertConfirmed => Confirmed(rows)
    case ExpertConfirmedWithCheckpoint => Confirmed(rows) && v.checkpoints != []
    case OpenQuestionsExist => AnyOpen(rows.questions)
    case NoOpenQuestions => !AnyOpen(rows.questions)
    case AnsweredQuestionExists => AnyAnswered(rows.questions)
    case RequirementsApprovalExists => HasApproval(rows, Requirements)
    case RequirementsChangeRequestExists => HasChangeRequest(rows)
    case ReducedScopeApprovalExists => HasApproval(rows, ReducedScope)
    case ExpansionApprovalExists => HasApproval(rows, Expansion)
    case PlanApprovalExists => HasApproval(rows, Plan)
    case ResultApprovalExists => HasApproval(rows, Result)
    case PrdDocumentExists => HasGenerated(rows, Prd)
    case BacklogDocumentExists => HasGenerated(rows, Backlog)
    case CapabilityNoGap => ctx.missing == Some([])
    case CapabilityGapExists => ctx.missing.Some? && ctx.missing.value != []
    case CheckpointExists => v.checkpoints != []
    case CanRetry => v.checkpoints != [] && CountEvents(v.log, RetryScheduled) < cfg.maxRetries
    case PolicyDecided(expected) => ctx.decision == Some(expected)
  }

  /** A row's destination, resolved against the latest checkpoint. */
  function Resolve(v: View, target: Target): Option<State> {
    match target
    case To(state) => Some(state)
    case Checkpoint => Last(v.checkpoints)
  }

  /** The verdict of `fire` for a command whose key is new. */
  function Judge(cfg: Config, m: Machine, v: View, rows: ProjectRows, event: Event, ctx: Context): Outcome {
    match RowFor(m, v.status, event)
    case None => Illegal(v.status)
    case Some(row) =>
      match Resolve(v, row.target)
      case None => NoCheckpoint(v.status)
      case Some(to) =>
        if GuardHolds(cfg, v, rows, ctx, row.guard) then Applied(v.status, to) else Refused(v.status, to)
  }

  function Decide(cfg: Config, db: Db, c: Command): Outcome {
    match KeyRow(db.events, c.key)
    case Some(e) => Replayed(e.from, e.to)
    case None => Judge(cfg, c.subject.Machine(), ViewOf(db, c.subject), RowsOf(db, c.subject.Project()), c.event, c.ctx)
  }

  function AuditRowFor(c: Command, o: Outcome): AuditRow {
    match o
    case Replayed(from, to) => AuditRow(IdempotentReplay, c.subject, Some(c.event), from, Some(to), c.at)
    case Illegal(from) => AuditRow(TransitionRejected, c.subject, Some(c.event), from, None, c.at)
    case NoCheckpoint(from) => AuditRow(GuardRejected, c.subject, Some(c.event), from, None, c.at)
    case Refused(from, to) => AuditRow(GuardRejected, c.subject, Some(c.event), from, Some(to), c.at)
    case Applied(from, to) => AuditRow(StateTransition, c.subject, Some(c.event), from, Some(to), c.at)
  }

  /** Entering the exception states from outside saves the state left behind. */
  predicate SavesCheckpoint(m: Machine, from: State, to: State) {
    IsException(m, to) && !IsException(m, from)
  }

  function Effect(db: Db, c: Command, o: Outcome): Db {
    var audited := db.(audit := db.audit + [AuditRowFor(c, o)]);
    match o
    case Applied(from, to) =>
      audited.(
        status := db.status[c.subject := to],
        events := db.events + [EventRow(c.subject, c.event, from, to, c.key, c.at)],
        checkpoints := if SavesCheckpoint(c.subject.Machine(), from, to)
                       then db.checkpoints + [CheckpointRow(c.subject, from)]
                       else db.checkpoints)
    case _ => audited
  }

  // The timeout check.

  /** The time of the newest event that entered `state`. */
  function EnteredAt(log: seq<EventRow>, state: State): Option<int> {
    if log == [] then None
    else
      var n := |log| - 1;
      if log[n].to == state then Some(log[n].at) else EnteredAt(log[..n], state)
  }

  predicate AlreadyNotified(audit: seq<AuditRow>, state: State, since: int) {
    exists r :: r in audit && r.kind == TimeoutNotified && r.from == state && r.at >= since
  }

  predicate MustNotify(cfg: Config, v: View, state: State, now: int) {
    state in cfg.timeouts &&
    EnteredAt(v.log, state).Some? &&
    now - EnteredAt(v.log, state).value > cfg.timeouts[state] &&
    !AlreadyNotified(v.audit, state, EnteredAt(v.log, state).value)
  }

  function Notice(s: Subject, state: State, now: int): AuditRow {
    AuditRow(TimeoutNotified, s, None, state, Some(state), now)
  }

  /** One step of a run: a `fire`, a check of a subject in its current state, or a change
      that other components make to a project's rows. */
  datatype Step =
    | Fire(cmd: Command)
    | Check(subject: Subject, now: int)
    | Write(project: ProjectId, rows: ProjectRows)

  /** Approvals and documents are only ever appended: no code path deletes or edits them. */
  predicate KeepsRecords(old_: ProjectRows, new_: ProjectRows) {
    old_.approvals <= new_.approvals && old_.documents <= new_.documents
  }

  function Do(cfg: Config, db: Db, step: Step): Db {
    match step
    case Fire(c) => Effect(db, c, Decide(cfg, db, c))
    case Check(s, now) =>
      if MustNotify(cfg, ViewOf(db, s), StatusOf(db, s), now)
      then db.(audit := db.audit + [Notice(s, StatusOf(db, s), now)])
      else db
    case Write(p, rows) =>
      if KeepsRecords(RowsOf(db, p), rows) then db.(rows := db.rows[p := rows]) else db
  }

  function Run(cfg: Config, db: Db, steps: seq<Step>): Db {
    if steps == [] then db
    else Do(cfg, Run(cfg, db, steps[..|steps| - 1]), steps[|steps| - 1])
  }
}
