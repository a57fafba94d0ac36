/** The engine's promises, for every run from empty tables. */
module Guarantees {
  import opened Vocabulary
  import opened Transitions
  import opened Engine
  import opened EngineRuns

  function After(cfg: Config, steps: seq<Step>): Db {
    Run(cfg, EMPTY, steps)
  }

  lemma RunStep(cfg: Config, steps: seq<Step>, step: Step)
    ensures After(cfg, steps + [step]) == Do(cfg, After(cfg, steps), step)
  {
    hide Do;
    assert (steps + [step])[..|steps|] == steps;
  }

  // ---------------------------------------------------------------- checkpoints

  function ExceptionStates(m: Machine): set<State> {
    match m
    case Product =>
      {WaitingApproval, WaitingExpertConfirmation, Blocked, Failed, Cancelled, TokenBudgetExceeded, ExpansionRejected,
       McpConnectionFailed, AgentValidationFailed, AutoBlockedByPolicy}
    case Development =>
      {WaitingInformation, WaitingDependency, WaitingExpertConfirmation, Blocked, Conflicted, Failed, Cancelled,
       TokenBudgetExceeded, McpConnectionFailed, AgentValidationFailed, AutoBlockedByPolicy}
  }

  lemma ExceptionsListed(m: Machine, x: State)
    ensures x in ExceptionStates(m) <==> IsException(m, x)
  {
    match m
    case Product =>
    case Development =>
  }

  /** From outside the exception states into them. */
  predicate Enters(m: Machine, from: State, to: State) {
    from !in ExceptionStates(m) && to in ExceptionStates(m)
  }

  /** A command adds the state it leaves to the checkpoints of its own subject exactly when it is applied
      and enters the exception states; it changes no other checkpoint. */
  lemma CheckpointSavedExactly(cfg: Config, db: Db, c: Command, s: Subject)
    ensures
      var o := Decide(cfg, db, c);
      CheckpointsOf(Do(cfg, db, Fire(c)).checkpoints, s) == CheckpointsOf(db.checkpoints, s) +
        if s == c.subject && o.Applied? && Enters(s.Machine(), StatusOf(db, s), o.to) then [StatusOf(db, s)] else []
  {
    hide IsException, ExceptionStates, RowFor, GuardHolds, LogOf, CheckpointsOf, AuditOf, KeyRow;
    var o := Decide(cfg, db, c);
    if o.Applied? {
      CheckpointsOfAppend(db.checkpoints, CheckpointRow(c.subject, o.from), s);
      ExceptionsListed(c.subject.Machine(), o.from);
      ExceptionsListed(c.subject.Machine(), o.to);
    }
  }

  /** The events at the places `at`, in order, are exactly those that enter the exception states, and
      the checkpoints are the states they left. */
  ghost predicate AreEntries(m: Machine, log: seq<EventRow>, checkpoints: seq<State>, at: seq<nat>) {
    && |at| == |checkpoints|
    && (forall j, k :: 0 <= j < k < |at| ==> at[j] < at[k])
    && (forall k :: 0 <= k < |at| ==> at[k] < |log| && checkpoints[k] == log[at[k]].from)
    && (forall i :: 0 <= i < |log| ==> (i in at <==> Enters(m, log[i].from, log[i].to)))
  }

  lemma EntriesGrow(m: Machine, log: seq<EventRow>, e: EventRow, checkpoints: seq<State>, at: seq<nat>)
    requires AreEntries(m, log, checkpoints, at)
    ensures
      if Enters(m, e.from, e.to) then AreEntries(m, log + [e], checkpoints + [e.from], at + [|log|])
      else AreEntries(m, log + [e], checkpoints, at)
  {
    hide Enters;
    var next := log + [e];
    assert next[|log|] == e && forall i :: 0 <= i < |log| ==> next[i] == log[i];
    assert forall k :: 0 <= k < |at| ==> at[k] < |log|;
  }

  lemma {:induction false} ExitsAreEntries(m: Machine, log: seq<EventRow>) returns (at: seq<nat>)
    ensures AreEntries(m, log, Exits(m, log), at)
  {
    hide IsException, ExceptionStates, AreEntries;
    at := [];
    if log == [] {
      NoEntries(m);
    } else {
      var n := |log| - 1;
      at := ExitsAreEntries(m, log[..n]);
      assert log == log[..n] + [log[n]];
      EntriesGrow(m, log[..n], log[n], Exits(m, log[..n]), at);
      ExceptionsListed(m, log[n].from);
      ExceptionsListed(m, log[n].to);
      if Enters(m, log[n].from, log[n].to) {
        at := at + [n];
      } else {
        assert Exits(m, log[..n]) + [] == Exits(m, log[..n]);
      }
    }
  }

  lemma NoEntries(m: Machine)
    ensures AreEntries(m, [], [], [])
  {}

  /** After every run the checkpoints of a subject are the states that it left at the events which
      entered the exception states, one for each such event and in their order. */
  lemma CheckpointsAreEntries(cfg: Config, steps: seq<Step>, s: Subject) returns (at: seq<nat>)
    ensures
      var v := ViewOf(After(cfg, steps), s);
      AreEntries(s.Machine(), v.log, v.checkpoints, at)
  {
    hide IsException, Sound, IsChain, Run, AreEntries, Exits;
    RunKeepsInv(cfg, steps);
    assert SubjectOk(cfg, After(cfg, steps), s);
    at := ExitsAreEntries(s.Machine(), ViewOf(After(cfg, steps), s).log);
  }

  // ---------------------------------------------------------------- resume

  /** Event `i` is where the log last entered the exception states: it left a state outside them,
      and every later event stayed inside. */
  ghost predicate IsLastExit(m: Machine, log: seq<EventRow>, i: nat) {
    && i < |log|
    && !IsException(m, log[i].from) && IsException(m, log[i].to)
    && forall j :: i < j < |log| ==> IsException(m, log[j].from) && IsException(m, log[j].to)
  }

  lemma {:induction false} LastExitExists(m: Machine, log: seq<EventRow>) returns (i: nat)
    requires IsChain(m, log) && IsException(m, EndOf(m, log))
    ensures IsLastExit(m, log, i)
    ensures Last(Exits(m, log)) == Some(log[i].from)
  {
    hide FollowsTable;
    var n := |log| - 1;
    if IsException(m, log[n].from) {
      var before := log[..n];
      assert forall k :: 0 <= k < n ==> before[k] == log[k];
      i := LastExitExists(m, before);
    } else {
      i := n;
    }
  }

  /** While a subject is in an exception state its latest checkpoint exists and is the state, outside
      the exception states, that its log left when it last entered them. */
  lemma CheckpointIsLastExit(cfg: Config, steps: seq<Step>, s: Subject) returns (i: nat)
    requires IsException(s.Machine(), StatusOf(After(cfg, steps), s))
    ensures
      var v := ViewOf(After(cfg, steps), s);
      && IsLastExit(s.Machine(), v.log, i)
      && Last(v.checkpoints) == Some(v.log[i].from)
  {
    hide IsException, Sound, IsLastExit, IsChain, Run;
    RunKeepsInv(cfg, steps);
    assert SubjectOk(cfg, After(cfg, steps), s);
    i := LastExitExists(s.Machine(), LogOf(After(cfg, steps).events, s));
  }

  /** An event whose row names the checkpoint is never rejected for want of one, and when it is
      applied it lands exactly where the subject last entered the exception states. */
  lemma {:induction false} CheckpointEventResumes(cfg: Config, steps: seq<Step>, c: Command) returns (i: nat)
    requires
      var db := After(cfg, steps);
      && KeyRow(db.events, c.key).None?
      && RowFor(c.subject.Machine(), StatusOf(db, c.subject), c.event).Some?
      && RowFor(c.subject.Machine(), StatusOf(db, c.subject), c.event).value.target.Checkpoint?
    ensures
      var db := After(cfg, steps);
      var log := ViewOf(db, c.subject).log;
      && IsLastExit(c.subject.Machine(), log, i)
      && (Decide(cfg, db, c) == Applied(StatusOf(db, c.subject), log[i].from) ||
          Decide(cfg, db, c) == Refused(StatusOf(db, c.subject), log[i].from))
  {
    hide RowFor, IsException, IsLastExit, GuardHolds, LogOf, CheckpointsOf, AuditOf, Run, GatesHold;
    i := CheckpointIsLastExit(cfg, steps, c.subject);
  }

  /** The rejection "no checkpoint to return to" cannot happen to a subject that started in its
      initial state. */
  lemma NoCheckpointUnreachable(cfg: Config, steps: seq<Step>, c: Command)
    ensures !Decide(cfg, After(cfg, steps), c).NoCheckpoint?
  {
    hide RowFor, GuardHolds, Run, IsException;
    var db := After(cfg, steps);
    if Decide(cfg, db, c).NoCheckpoint? {
      var _ := CheckpointEventResumes(cfg, steps, c);
    }
  }

  // ---------------------------------------------------------------- gates

  /** A project in or past SPECIFICATION_GENERATING has an approval of its requirements, one past it
      also has a PRD, and a task from READY_FOR_MERGE on has an approval of the result; the same
      holds of every state a stored checkpoint could return to. */
  lemma RecordsPrecedeStates(cfg: Config, steps: seq<Step>, s: Subject, x: State)
    requires x == StatusOf(After(cfg, steps), s) || x in CheckpointsOf(After(cfg, steps).checkpoints, s)
    ensures
      var rows := RowsOf(After(cfg, steps), s.Project());
      && (BehindRequirementsApproval(x) ==> HasApproval(rows, Requirements))
      && (BehindPrd(x) ==> HasGenerated(rows, Prd))
      && (BehindResultApproval(x) ==> HasApproval(rows, Result))
  {
    hide IsException, Run, Possible, BehindRequirementsApproval, BehindPrd, BehindResultApproval, IsChain, Exits;
    RunKeepsInv(cfg, steps);
    assert SubjectOk(cfg, After(cfg, steps), s);
  }

  /** Each subject stays among its own machine's states, and two of them are never entered. */
  lemma StaysInMachine(cfg: Config, steps: seq<Step>, s: Subject)
    ensures
      var x := StatusOf(After(cfg, steps), s);
      IsStateOf(s.Machine(), x) && x != Blocked && x != McpConnectionFailed
  {
    hide IsException, Run, Cleared, IsChain, Exits;
    RunKeepsInv(cfg, steps);
    assert SubjectOk(cfg, After(cfg, steps), s);
  }

  // ---------------------------------------------------------------- logs

  /** A subject's events form an unbroken chain of table rows from its initial state to its current
      status, and the audit rows of kind STATE_TRANSITION are the event log in order. */
  lemma LogExplainsStatus(cfg: Config, steps: seq<Step>, s: Subject)
    ensures
      var db := After(cfg, steps);
      var log := ViewOf(db, s).log;
      && IsChain(s.Machine(), log)
      && StatusOf(db, s) == EndOf(s.Machine(), log)
      && TransitionsIn(db.audit) == AsAudit(db.events)
  {
    hide IsException, Run, Sound, IsChain, Exits;
    RunKeepsInv(cfg, steps);
    assert SubjectOk(cfg, After(cfg, steps), s);
  }

  /** An audit row of the command, of the one kind that fits the outcome. */
  predicate ReportsOutcome(row: AuditRow, c: Command, o: Outcome) {
    && row.subject == c.subject && row.event == Some(c.event) && row.from == o.from && row.at == c.at
    && (row.kind.StateTransition? <==> o.Applied?)
    && (row.kind.IdempotentReplay? <==> o.Replayed?)
    && (row.kind.TransitionRejected? <==> o.Illegal?)
    && (row.kind.GuardRejected? <==> o.NoCheckpoint? || o.Refused?)
    && row.to == (if o.Applied? || o.Refused? || o.Replayed? then Some(o.to) else None)
  }

  /** The outcome of a command, from the tables: a key that is stored answers with the states of a row
      stored under it; otherwise the command is illegal exactly when the table has no row for it in the
      subject's state, and is applied exactly when there is a destination, which is the row's state or
      the newest checkpoint, and the guard holds. */
  lemma OutcomeExactly(cfg: Config, db: Db, c: Command)
    ensures
      var o := Decide(cfg, db, c);
      var v := ViewOf(db, c.subject);
      var rows := RowsOf(db, match c.subject case ProjectSubject(id) => id case TaskSubject(_, project) => project);
      var row := RowFor(if c.subject.ProjectSubject? then Product else Development, v.status, c.event);
      var n := |v.checkpoints|;
      if c.key.Some? && exists e :: e in db.events && e.key == c.key then
        exists e :: e in db.events && e.key == c.key && o == Replayed(e.from, e.to)
      else if row.None? then o == Illegal(v.status)
      else if row.value.target.Checkpoint? && n == 0 then o == NoCheckpoint(v.status)
      else
        var to := if row.value.target.Checkpoint? then v.checkpoints[n - 1] else row.value.target.state;
        if GuardHolds(cfg, v, rows, c.ctx, row.value.guard) then o == Applied(v.status, to)
        else o == Refused(v.status, to)
  {
    hide RowFor, GuardHolds, LogOf, CheckpointsOf, AuditOf, KeyRow;
    FreshKey(db.events, c.key);
    if c.key.Some? && KeyRow(db.events, c.key).None? {
      forall e | e in db.events ensures e.key != c.key {
        var i :| 0 <= i < |db.events| && db.events[i] == e;
      }
    }
  }

  /** Every command appends exactly one audit row, of the kind its outcome has. A rejected or replayed
      command changes nothing else and does not use up its key; an applied one is recorded under its
      key, so that the key answers every later use. */
  lemma CommandIsAtomic(cfg: Config, db: Db, c: Command)
    ensures
      var o := Decide(cfg, db, c);
      var next := Do(cfg, db, Fire(c));
      && |next.audit| == |db.audit| + 1 && db.audit <= next.audit
      && ReportsOutcome(next.audit[|db.audit|], c, o)
      && (!o.Applied? ==> next == db.(audit := next.audit))
      && (o.Applied? ==>
            && next.rows == db.rows && next.status == db.status[c.subject := o.to]
            && next.events == db.events + [EventRow(c.subject, c.event, o.from, o.to, c.key, c.at)])
      && (!o.Applied? && !o.Replayed? ==> KeyRow(next.events, c.key) == KeyRow(db.events, c.key) == None)
      && (o.Applied? && c.key.Some? ==>
            forall again: Command :: again.key == c.key ==> Decide(cfg, next, again) == Replayed(o.from, o.to))
  {
    hide Judge;
  }

  /** Each idempotency key is applied at most once in a run. */
  lemma KeysAppliedOnce(cfg: Config, steps: seq<Step>, i: nat, j: nat)
    requires i < |After(cfg, steps).events| && j < |After(cfg, steps).events|
    requires After(cfg, steps).events[i].key.Some? && After(cfg, steps).events[i].key == After(cfg, steps).events[j].key
    ensures i == j
  {
    hide Run;
    RunKeepsInv(cfg, steps);
  }

  // ---------------------------------------------------------------- retries

  /** In FAILED, with a fresh key, the k-th RETRY_SCHEDULED of the subject's lifetime is accepted
      exactly when k is within the limit (k - 1 are in the log), and it returns to the last exit. */
  lemma RetryAcceptedWithinLimit(cfg: Config, steps: seq<Step>, c: Command) returns (i: nat)
    requires StatusOf(After(cfg, steps), c.subject).Failed? && c.event.RetryScheduled?
    requires KeyRow(After(cfg, steps).events, c.key).None?
    ensures
      var db := After(cfg, steps);
      var log := ViewOf(db, c.subject).log;
      && IsLastExit(c.subject.Machine(), log, i)
      && Decide(cfg, db, c) == (if CountEvents(log, RetryScheduled) + 1 <= cfg.maxRetries
                                then Applied(Failed, log[i].from) else Refused(Failed, log[i].from))
  {
    hide Run, IsLastExit, LogOf, CheckpointsOf, AuditOf, CountEvents;
    i := CheckpointIsLastExit(cfg, steps, c.subject);
  }

  /** Over a whole run no subject retries more often than the limit. */
  lemma RetriesBounded(cfg: Config, steps: seq<Step>, s: Subject)
    ensures
      var used := CountEvents(ViewOf(After(cfg, steps), s).log, RetryScheduled);
      used == 0 || used <= cfg.maxRetries
  {
    hide Run, Sound, IsChain, Exits, IsException, CountEvents;
    RunKeepsInv(cfg, steps);
    assert SubjectOk(cfg, After(cfg, steps), s);
  }

  /** The three choices left to the user in FAILED are accepted whatever the count is. */
  lemma ExhaustedChoicesAlwaysOpen(cfg: Config, db: Db, c: Command)
    requires StatusOf(db, c.subject).Failed? && KeyRow(db.events, c.key).None?
    requires c.event.RetryExhaustedScopeDown? || c.event.RetryExhaustedConsult? || c.event.RetryExhaustedStop?
    ensures
      Decide(cfg, db, c) == Applied(Failed,
        match c.event
        case RetryExhaustedConsult => WaitingExpertConfirmation
        case RetryExhaustedStop => Cancelled
        case _ => if c.subject.Machine().Product? then RequirementDrafting else Supervising)
  {
    hide LogOf, CheckpointsOf, AuditOf, KeyRow;
  }
}
