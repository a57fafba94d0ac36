/** What holds after every run of the engine from empty tables: any interleaving of `fire` calls,
    timeout checks and row changes, over any number of projects and tasks. */
module EngineRuns {
  import opened Vocabulary
  import opened Transitions
  import opened Engine

  // ---------------------------------------------------------------- frames

  /** A subject's view after one of its own commands. */
  function NextView(v: View, c: Command, o: Outcome): View {
    var audit := v.audit + [AuditRowFor(c, o)];
    match o
    case Applied(from, to) =>
      View(to,
           v.log + [EventRow(c.subject, c.event, from, to, c.key, c.at)],
           if SavesCheckpoint(c.subject.Machine(), from, to) then v.checkpoints + [from] else v.checkpoints,
           audit)
    case _ => v.(audit := audit)
  }

  lemma LogOfAppend(events: seq<EventRow>, e: EventRow, s: Subject)
    ensures LogOf(events + [e], s) == LogOf(events, s) + (if e.subject == s then [e] else [])
  {
    assert (events + [e])[..|events|] == events;
  }

  lemma CheckpointsOfAppend(checkpoints: seq<CheckpointRow>, c: CheckpointRow, s: Subject)
    ensures CheckpointsOf(checkpoints + [c], s) ==
            CheckpointsOf(checkpoints, s) + (if c.subject == s then [c.state] else [])
  {
    assert (checkpoints + [c])[..|checkpoints|] == checkpoints;
  }

  lemma AuditOfAppend(audit: seq<AuditRow>, r: AuditRow, s: Subject)
    ensures AuditOf(audit + [r], s) == AuditOf(audit, s) + (if r.subject == s then [r] else [])
  {
    assert (audit + [r])[..|audit|] == audit;
  }

  /** A command changes the view of its own subject only. */
  lemma EffectOnViews(db: Db, c: Command, o: Outcome, s: Subject)
    ensures ViewOf(Effect(db, c, o), s) == if s == c.subject then NextView(ViewOf(db, s), c, o) else ViewOf(db, s)
  {
    hide SavesCheckpoint, LogOf, CheckpointsOf, AuditOf, InitialState;
    AuditOfAppend(db.audit, AuditRowFor(c, o), s);
    assert AuditRowFor(c, o).subject == c.subject;
    if o.Applied? {
      LogOfAppend(db.events, EventRow(c.subject, c.event, o.from, o.to, c.key, c.at), s);
      CheckpointsOfAppend(db.checkpoints, CheckpointRow(c.subject, o.from), s);
    }
  }

  /** A timeout check adds at most a notice to the audit rows of the checked subject. */
  lemma CheckOnViews(cfg: Config, db: Db, t: Subject, now: int, s: Subject)
    ensures
      var v := ViewOf(db, s);
      ViewOf(Do(cfg, db, Check(t, now)), s) ==
      if s == t && MustNotify(cfg, v, v.status, now) then v.(audit := v.audit + [Notice(t, v.status, now)]) else v
  {
    hide MustNotify, LogOf, CheckpointsOf, AuditOf, InitialState;
    AuditOfAppend(db.audit, Notice(t, StatusOf(db, t), now), s);
  }

  /** A change of a project's rows leaves every view alone. */
  lemma WriteKeepsViews(cfg: Config, db: Db, p: ProjectId, rows: ProjectRows, s: Subject)
    ensures ViewOf(Do(cfg, db, Write(p, rows)), s) == ViewOf(db, s)
  {}

  // ---------------------------------------------------------------- the event log

  function EndOf(m: Machine, log: seq<EventRow>): State {
    if log == [] then InitialState(m) else log[|log| - 1].to
  }

  /** The event is a row of the table, and a row that names a state was followed to that state. */
  predicate FollowsTable(m: Machine, e: EventRow) {
    RowFor(m, e.from, e.event).Some? &&
    (RowFor(m, e.from, e.event).value.target.To? ==> RowFor(m, e.from, e.event).value.target.state == e.to)
  }

  /** An unbroken chain of table rows that starts in the initial state. */
  ghost predicate IsChain(m: Machine, log: seq<EventRow>) {
    && (log != [] ==> log[0].from == InitialState(m))
    && (forall i :: 0 < i < |log| ==> log[i].from == log[i - 1].to)
    && (forall i :: 0 <= i < |log| ==> FollowsTable(m, log[i]))
  }

  lemma ChainAppend(m: Machine, log: seq<EventRow>, e: EventRow)
    requires IsChain(m, log) && e.from == EndOf(m, log) && FollowsTable(m, e)
    ensures IsChain(m, log + [e])
  {
    hide RowFor;
  }

  /** The states left behind at each entry into the exception states, in order. */
  function Exits(m: Machine, log: seq<EventRow>): seq<State> {
    if log == [] then []
    else
      var e := log[|log| - 1];
      Exits(m, log[..|log| - 1]) + (if SavesCheckpoint(m, e.from, e.to) then [e.from] else [])
  }

  // ---------------------------------------------------------------- reachable states

  predicate Possible(m: Machine, x: State) {
    Entered(m, x) || x == InitialState(m)
  }

  /** The records that being in a state (or being able to resume it) rests on. */
  predicate Cleared(rows: ProjectRows, x: State) {
    (BehindRequirementsApproval(x) ==> HasApproval(rows, Requirements)) &&
    (BehindPrd(x) ==> HasGenerated(rows, Prd)) &&
    (BehindResultApproval(x) ==> HasApproval(rows, Result))
  }

  /** A state the machine can be in, with every record it rests on present. */
  predicate Sound(m: Machine, rows: ProjectRows, x: State) {
    Possible(m, x) && Cleared(rows, x)
  }

  /** From a sound state with sound checkpoints, a well placed row leads to a sound state only. */
  lemma RowKeepsSound(cfg: Config, m: Machine, v: View, rows: ProjectRows, ctx: Context, row: Row)
    requires Sound(m, rows, v.status) && WellPlaced(m, v.status, row)
    requires forall x :: x in v.checkpoints ==> Sound(m, rows, x)
    requires Resolve(v, row.target).Some? && GuardHolds(cfg, v, rows, ctx, row.guard)
    ensures Sound(m, rows, Resolve(v, row.target).value)
  {
    hide BehindPrd, BehindResultApproval;
  }

  // ---------------------------------------------------------------- the run invariant

  /** No subject ever used more retries than its machine allows. */
  predicate WithinBudget(cfg: Config, retries: nat) {
    retries == 0 || retries <= cfg.maxRetries
  }

  /** What every run keeps for one subject. */
  ghost predicate SubjectInv(cfg: Config, m: Machine, rows: ProjectRows, v: View) {
    && IsChain(m, v.log)
    && v.status == EndOf(m, v.log)
    && v.checkpoints == Exits(m, v.log)
    && (IsException(m, v.status) ==> v.checkpoints != [])
    && Sound(m, rows, v.status)
    && (forall x :: x in v.checkpoints ==> Sound(m, rows, x) && !IsException(m, x))
    && WithinBudget(cfg, CountEvents(v.log, RetryScheduled))
  }

  ghost predicate UniqueKeys(events: seq<EventRow>) {
    forall i, j :: 0 <= i < j < |events| && events[i].key.Some? ==> events[i].key != events[j].key
  }

  function TransitionsIn(audit: seq<AuditRow>): seq<AuditRow> {
    if audit == [] then []
    else
      var r := audit[|audit| - 1];
      TransitionsIn(audit[..|audit| - 1]) + (if r.kind == StateTransition then [r] else [])
  }

  function AsAudit(events: seq<EventRow>): seq<AuditRow> {
    seq(|events|, i requires 0 <= i < |events| =>
      var e := events[i];
      AuditRow(StateTransition, e.subject, Some(e.event), e.from, Some(e.to), e.at))
  }

  ghost predicate SubjectOk(cfg: Config, db: Db, s: Subject) {
    SubjectInv(cfg, s.Machine(), RowsOf(db, s.Project()), ViewOf(db, s))
  }

  ghost predicate Inv(cfg: Config, db: Db) {
    && (forall s: Subject :: SubjectOk(cfg, db, s))
    && UniqueKeys(db.events)
    && TransitionsIn(db.audit) == AsAudit(db.events)
  }

  lemma {:induction false} FreshKey(events: seq<EventRow>, key: Option<string>)
    ensures KeyRow(events, key).None? <==> key.None? || forall i :: 0 <= i < |events| ==> events[i].key != key
    ensures KeyRow(events, key).Some? ==> KeyRow(events, key).value in events && KeyRow(events, key).value.key == key
  {
    if key.Some? && events != [] && events[|events| - 1].key != key {
      FreshKey(events[..|events| - 1], key);
      assert events == events[..|events| - 1] + [events[|events| - 1]];
    }
  }

  lemma RetryNeedsBudget(cfg: Config, m: Machine, v: View, rows: ProjectRows, ctx: Context)
    requires Judge(cfg, m, v, rows, RetryScheduled, ctx).Applied?
    ensures CountEvents(v.log, RetryScheduled) < cfg.maxRetries
  {
    hide CountEvents;
  }

  lemma AppliedKeepsLog(cfg: Config, rows: ProjectRows, v: View, c: Command, o: Outcome)
    requires o == Judge(cfg, c.subject.Machine(), v, rows, c.event, c.ctx) && o.Applied?
    requires IsChain(c.subject.Machine(), v.log) && v.status == EndOf(c.subject.Machine(), v.log)
    requires v.checkpoints == Exits(c.subject.Machine(), v.log)
    ensures
      var next := NextView(v, c, o);
      && IsChain(c.subject.Machine(), next.log)
      && next.status == EndOf(c.subject.Machine(), next.log)
      && next.checkpoints == Exits(c.subject.Machine(), next.log)
  {
    hide RowFor, IsException, GuardHolds;
    var next := NextView(v, c, o);
    assert next.log[..|v.log|] == v.log;
    ChainAppend(c.subject.Machine(), v.log, next.log[|v.log|]);
  }

  lemma AppliedKeepsBudget(cfg: Config, rows: ProjectRows, v: View, c: Command, o: Outcome)
    requires o == Judge(cfg, c.subject.Machine(), v, rows, c.event, c.ctx) && o.Applied?
    requires WithinBudget(cfg, CountEvents(v.log, RetryScheduled))
    ensures WithinBudget(cfg, CountEvents(NextView(v, c, o).log, RetryScheduled))
  {
    hide Judge, AuditRowFor, SavesCheckpoint;
    assert NextView(v, c, o).log[..|v.log|] == v.log;
    if c.event.RetryScheduled? {
      RetryNeedsBudget(cfg, c.subject.Machine(), v, rows, c.ctx);
    }
  }

  /** One applied command keeps the invariant of its subject. */
  lemma AppliedKeepsSubject(cfg: Config, rows: ProjectRows, v: View, c: Command)
    requires SubjectInv(cfg, c.subject.Machine(), rows, v)
    requires Judge(cfg, c.subject.Machine(), v, rows, c.event, c.ctx).Applied?
    ensures
      var o := Judge(cfg, c.subject.Machine(), v, rows, c.event, c.ctx);
      SubjectInv(cfg, c.subject.Machine(), rows, NextView(v, c, o))
  {
    hide RowFor, IsException, Sound, GuardHolds, IsChain, Exits, EndOf, WithinBudget, CountEvents, WellPlaced;
    var m := c.subject.Machine();
    var o := Judge(cfg, m, v, rows, c.event, c.ctx);
    var next := NextView(v, c, o);
    AppliedKeepsLog(cfg, rows, v, c, o);
    AppliedKeepsBudget(cfg, rows, v, c, o);
    RowKeepsSound(cfg, m, v, rows, c.ctx, RowFor(m, v.status, c.event).value);
    forall x | x in next.checkpoints
      ensures Sound(m, rows, x) && !IsException(m, x)
    {
      assert x in v.checkpoints || (x == v.status && SavesCheckpoint(m, v.status, o.to));
    }
  }

  lemma AuditIsIrrelevant(cfg: Config, m: Machine, rows: ProjectRows, v: View, audit: seq<AuditRow>)
    requires SubjectInv(cfg, m, rows, v)
    ensures SubjectInv(cfg, m, rows, v.(audit := audit))
  {
    hide Sound;
  }

  lemma FireKeepsSubject(cfg: Config, db: Db, c: Command, s: Subject)
    requires SubjectOk(cfg, db, s)
    ensures SubjectOk(cfg, Do(cfg, db, Fire(c)), s)
  {
    hide Judge, SubjectInv, KeyRow, ViewOf;
    var o := Decide(cfg, db, c);
    var next := Effect(db, c, o);
    EffectOnViews(db, c, o, s);
    assert RowsOf(next, s.Project()) == RowsOf(db, s.Project());
    if s == c.subject {
      if o.Applied? {
        AppliedKeepsSubject(cfg, RowsOf(db, s.Project()), ViewOf(db, s), c);
      } else {
        AuditIsIrrelevant(cfg, s.Machine(), RowsOf(db, s.Project()), ViewOf(db, s), ViewOf(next, s).audit);
      }
    }
  }

  lemma FireKeepsInv(cfg: Config, db: Db, c: Command)
    requires Inv(cfg, db)
    ensures Inv(cfg, Do(cfg, db, Fire(c)))
  {
    hide Judge, SubjectOk;
    var next := Do(cfg, db, Fire(c));
    forall s: Subject ensures SubjectOk(cfg, next, s) {
      FireKeepsSubject(cfg, db, c, s);
    }
    FreshKey(db.events, c.key);
    assert next.audit[..|db.audit|] == db.audit;
  }

  lemma CheckKeepsInv(cfg: Config, db: Db, t: Subject, now: int)
    requires Inv(cfg, db)
    ensures Inv(cfg, Do(cfg, db, Check(t, now)))
  {
    hide SubjectInv, MustNotify;
    var next := Do(cfg, db, Check(t, now));
    forall s: Subject ensures SubjectOk(cfg, next, s) {
      CheckOnViews(cfg, db, t, now, s);
      assert SubjectOk(cfg, db, s);
      AuditIsIrrelevant(cfg, s.Machine(), RowsOf(db, s.Project()), ViewOf(db, s), ViewOf(next, s).audit);
    }
    if next.audit != db.audit {
      assert next.audit[..|db.audit|] == db.audit;
    }
  }

  lemma RecordsKeepSubject(cfg: Config, m: Machine, rows: ProjectRows, more: ProjectRows, v: View)
    requires SubjectInv(cfg, m, rows, v) && KeepsRecords(rows, more)
    ensures SubjectInv(cfg, m, more, v)
  {
    hide IsChain, Exits, CountEvents, BehindRequirementsApproval, BehindPrd, BehindResultApproval, IsException,
         Possible;
  }

  lemma WriteKeepsInv(cfg: Config, db: Db, p: ProjectId, rows: ProjectRows)
    requires Inv(cfg, db)
    ensures Inv(cfg, Do(cfg, db, Write(p, rows)))
  {
    hide SubjectInv;
    var next := Do(cfg, db, Write(p, rows));
    if next != db {
      forall s: Subject ensures SubjectOk(cfg, next, s) {
        assert ViewOf(next, s) == ViewOf(db, s);
        assert SubjectOk(cfg, db, s);
        if s.Project() == p {
          RecordsKeepSubject(cfg, s.Machine(), RowsOf(db, p), rows, ViewOf(db, s));
        }
      }
    }
  }

  lemma EmptyInv(cfg: Config)
    ensures Inv(cfg, EMPTY)
  {
    forall s: Subject ensures SubjectOk(cfg, EMPTY, s) {
    }
  }

  /** The invariant holds after every run. */
  lemma {:induction false} RunKeepsInv(cfg: Config, steps: seq<Step>)
    ensures Inv(cfg, Run(cfg, EMPTY, steps))
  {
    if steps == [] {
      EmptyInv(cfg);
    } else {
      var prefix := steps[..|steps| - 1];
      var db := Run(cfg, EMPTY, prefix);
      RunKeepsInv(cfg, prefix);
      match steps[|steps| - 1]
      case Fire(c) => FireKeepsInv(cfg, db, c);
      case Check(t, now) => CheckKeepsInv(cfg, db, t, now);
      case Write(p, rows) => WriteKeepsInv(cfg, db, p, rows);
    }
  }
}
