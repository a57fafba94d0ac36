/** The engine over the shared tables, step by step: `fire`, the checkpoint store, the timeout checker
    and the writes of other components, each proved to do one step of the value model
    (app/orchestrator/state_machine.py, checkpoints.py, timeout_checker.py, audit.py). */
module StateMachines {
  import opened Vocabulary
  import opened Transitions
  import opened Engine
  import opened EngineRuns
  import opened Guarantees
  import Reminders

  /** The shared tables of one database session, and the clock that stamps their rows. The trace of
      steps that led to them exists for specification only. */
  class Session {
    const cfg: Config
    var status: map<Subject, State>
    var events: seq<EventRow>
    var checkpoints: seq<CheckpointRow>
    var audit: seq<AuditRow>
    var rows: map<ProjectId, ProjectRows>
    var clock: int
    ghost var trace: seq<Step>

    constructor (cfg: Config)
      ensures this.cfg == cfg && Tables() == EMPTY && Valid()
    {
      this.cfg := cfg;
      status, events, checkpoints, audit, rows, clock, trace := map[], [], [], [], map[], 0, [];
    }

    function Tables(): Db
      reads this
    {
      Db(status, events, checkpoints, audit, rows)
    }

    /** The tables are what the run of the trace leaves behind, and every step lies before now. */
    ghost predicate Valid()
      reads this
    {
      && Tables() == After(cfg, trace)
      && Reminders.Clocked(trace)
      && Reminders.AllEarlier(trace, clock)
    }

    /** The next time stamp; stamps are strictly increasing. */
    method Tick() returns (now: int)
      modifies this`clock
      ensures now == old(clock) && clock == now + 1
    {
      now := clock;
      clock := clock + 1;
    }

    ghost method Trace(step: Step)
      requires Tables() == Do(cfg, After(cfg, trace), step)
      requires Reminders.Clocked(trace) && Reminders.AllEarlier(trace, clock - 1)
      requires Reminders.TimeOf(step).Some? ==> Reminders.TimeOf(step).value == clock - 1
      modifies this`trace
      ensures trace == old(trace) + [step] && Valid()
    {
      hide Do, After;
      RunStep(cfg, trace, step);
      trace := trace + [step];
    }

    /** A change of one project's rows that keeps its approvals and documents. */
    method UpdateRows(project: ProjectId, changed: ProjectRows)
      requires Valid() && KeepsRecords(RowsOf(Tables(), project), changed)
      modifies this`rows, this`clock, this`trace
      ensures Valid()
      ensures rows == old(rows)[project := changed]
    {
      var _ := Tick();
      rows := rows[project := changed];
      Trace(Write(project, changed));
    }
  }

  class CheckpointStore {
    const session: Session

    constructor (session: Session)
      ensures this.session == session
    {
      this.session := session;
    }

    method Save(subject: Subject, state: State)
      modifies session`checkpoints
      ensures session.checkpoints == old(session.checkpoints) + [CheckpointRow(subject, state)]
    {
      session.checkpoints := session.checkpoints + [CheckpointRow(subject, state)];
    }

    /** The newest checkpoint of a subject. */
    method Latest(subject: Subject) returns (found: Option<State>)
      ensures found == Last(CheckpointsOf(session.checkpoints, subject))
    {
      var table := session.checkpoints;
      var n := |table|;
      assert table[..n] == table;
      while n > 0
        invariant 0 <= n <= |table|
        invariant Last(CheckpointsOf(table, subject)) == Last(CheckpointsOf(table[..n], subject))
      {
        n := n - 1;
        assert table[..n + 1][..n] == table[..n];
        if table[n].subject == subject {
          return Some(table[n].state);
        }
      }
      return None;
    }
  }

  class StateMachine {
    const session: Session
    const checkpoints: CheckpointStore

    constructor (session: Session)
      ensures this.session == session && checkpoints.session == session && fresh(checkpoints)
    {
      this.session := session;
      checkpoints := new CheckpointStore(session);
    }

    ghost predicate Valid()
      reads session
    {
      checkpoints.session == session && session.Valid()
    }

    method Record(row: AuditRow)
      modifies session`audit
      ensures session.audit == old(session.audit) + [row]
    {
      session.audit := session.audit + [row];
    }

    /** The event row stored under a key. */
    method FindKey(key: string) returns (found: Option<EventRow>)
      ensures found == KeyRow(session.events, Some(key))
    {
      var table := session.events;
      var n := |table|;
      assert table[..n] == table;
      while n > 0
        invariant 0 <= n <= |table|
        invariant KeyRow(table, Some(key)) == KeyRow(table[..n], Some(key))
      {
        n := n - 1;
        assert table[..n + 1][..n] == table[..n];
        if table[n].key == Some(key) {
          return Some(table[n]);
        }
      }
      return None;
    }

    /** The effect of one `fire` on the tables, before the trace records it. */
    method Step(c: Command) returns (o: Outcome)
      requires checkpoints.session == session
      modifies session`status, session`events, session`checkpoints, session`audit
      ensures o == Decide(session.cfg, old(session.Tables()), c)
      ensures session.Tables() == Effect(old(session.Tables()), c, o)
    {
      hide RowFor, IsException, GuardHolds, KeyRow, LogOf, CheckpointsOf, AuditOf, InitialState;
      var m := c.subject.Machine();
      if c.key.Some? {
        var existing := FindKey(c.key.value);
        if existing.Some? {
          o := Replayed(existing.value.from, existing.value.to);
          Record(AuditRow(IdempotentReplay, c.subject, Some(c.event), o.from, Some(o.to), c.at));
          return;
        }
      }
      assert KeyRow(session.events, c.key).None? by {
        if c.key.None? { NoKeyNoRow(session.events, c.key); }
      }
      var view := ViewOf(session.Tables(), c.subject);
      var from := StatusOf(session.Tables(), c.subject);
      var found := RowFor(m, from, c.event);
      if found.None? {
        Record(AuditRow(TransitionRejected, c.subject, Some(c.event), from, None, c.at));
        return Illegal(from);
      }
      var target: State;
      if found.value.target.Checkpoint? {
        var checkpoint := checkpoints.Latest(c.subject);
        if checkpoint.None? {
          Record(AuditRow(GuardRejected, c.subject, Some(c.event), from, None, c.at));
          return NoCheckpoint(from);
        }
        target := checkpoint.value;
      } else {
        target := found.value.target.state;
      }
      if !GuardHolds(session.cfg, view, RowsOf(session.Tables(), c.subject.Project()), c.ctx, found.value.guard) {
        Record(AuditRow(GuardRejected, c.subject, Some(c.event), from, Some(target), c.at));
        return Refused(from, target);
      }
      if IsException(m, target) && !IsException(m, from) {
        checkpoints.Save(c.subject, from);
      }
      session.status := session.status[c.subject := target];
      session.events := session.events + [EventRow(c.subject, c.event, from, target, c.key, c.at)];
      Record(AuditRow(StateTransition, c.subject, Some(c.event), from, Some(target), c.at));
      return Applied(from, target);
    }

    /** StateMachine.fire: one step of the run. */
    method Fire(subject: Subject, event: Event, key: Option<string>, ctx: Context) returns (o: Outcome)
      requires Valid()
      modifies session`status, session`events, session`checkpoints, session`audit, session`clock, session`trace
      ensures Valid()
      ensures
        var c := Command(subject, event, key, ctx, old(session.clock));
        && o == Decide(session.cfg, old(session.Tables()), c)
        && session.Tables() == Effect(old(session.Tables()), c, o)
        && session.trace == old(session.trace) + [Engine.Fire(c)]
      ensures !o.NoCheckpoint?
    {
      hide Decide, Effect, After, Run;
      ghost var before := session.trace;
      var at := session.Tick();
      var c := Command(subject, event, key, ctx, at);
      NoCheckpointUnreachable(session.cfg, before, c);
      o := Step(c);
      session.Trace(Engine.Fire(c));
    }
  }

  lemma NoKeyNoRow(events: seq<EventRow>, key: Option<string>)
    requires key.None?
    ensures KeyRow(events, key).None?
  {}

  class TimeoutChecker {
    const session: Session

    constructor (session: Session)
      ensures this.session == session
    {
      this.session := session;
    }

    /** TimeoutChecker.check on a subject in its current state: no status changes, and at most one
        reminder is recorded. */
    method Check(subject: Subject) returns (notified: bool)
      requires session.Valid()
      modifies session`audit, session`clock, session`trace
      ensures session.Valid()
      ensures session.trace == old(session.trace) + [Engine.Check(subject, old(session.clock))]
      ensures session.Tables() == Do(session.cfg, old(session.Tables()), Engine.Check(subject, old(session.clock)))
      ensures
        var v := old(ViewOf(session.Tables(), subject));
        notified <==>
          && v.status in session.cfg.timeouts
          && v.log != []
          && old(session.clock) - v.log[|v.log| - 1].at > session.cfg.timeouts[v.status]
          && !Reminders.RemindedInStay(v.audit)
      ensures session.Tables() == old(session.Tables()).(audit := session.audit)
      ensures
        var state, now := old(StatusOf(session.Tables(), subject)), old(session.clock);
        session.audit == old(session.audit) +
          if notified then [AuditRow(TimeoutNotified, subject, None, state, Some(state), now)] else []
    {
      hide MustNotify, After, Reminders.RemindedInStay, LogOf, CheckpointsOf, AuditOf;
      ghost var before := session.trace;
      var now := session.Tick();
      var state := StatusOf(session.Tables(), subject);
      notified := MustNotify(session.cfg, ViewOf(session.Tables(), subject), state, now);
      Reminders.CheckRemindsWhenOverdue(session.cfg, before, subject, now);
      if notified {
        session.audit := session.audit + [AuditRow(TimeoutNotified, subject, None, state, Some(state), now)];
      }
      session.Trace(Engine.Check(subject, now));
    }
  }

  // ---------------------------------------------------------------- the index of a table

  datatype TransitionDef = TransitionDef(source: State, event: Event, row: Row)

  ghost predicate SamePairTwice(defs: seq<TransitionDef>) {
    exists i, j :: 0 <= i < j < |defs| && defs[i].source == defs[j].source && defs[i].event == defs[j].event
  }

  /** StateMachine.__init__: the index maps each pair of a source and an event to its one row, and
      is refused exactly when two definitions share a pair. */
  method BuildIndex(defs: seq<TransitionDef>) returns (index: Option<map<(State, Event), Row>>)
    ensures index.None? <==> SamePairTwice(defs)
    ensures index.Some? ==>
      && (forall i :: 0 <= i < |defs| ==>
            (defs[i].source, defs[i].event) in index.value &&
            index.value[(defs[i].source, defs[i].event)] == defs[i].row)
      && (forall pair :: pair in index.value ==>
            exists i :: 0 <= i < |defs| && pair == (defs[i].source, defs[i].event))
  {
    var m: map<(State, Event), Row> := map[];
    for i := 0 to |defs|
      invariant forall k :: 0 <= k < i ==>
        (defs[k].source, defs[k].event) in m && m[(defs[k].source, defs[k].event)] == defs[k].row
      invariant forall pair :: pair in m ==> exists k :: 0 <= k < i && pair == (defs[k].source, defs[k].event)
      invariant forall a, b :: 0 <= a < b < i ==> !(defs[a].source == defs[b].source && defs[a].event == defs[b].event)
    {
      var pair := (defs[i].source, defs[i].event);
      if pair in m {
        return None;
      }
      m := m[pair := defs[i].row];
    }
    return Some(m);
  }
}
