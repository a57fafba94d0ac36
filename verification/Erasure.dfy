/** Duplicate deliveries are harmless: leaving every replayed command out of a run changes nothing
    but the audit rows that report the replays. */
module Erasure {
  import opened Vocabulary
  import Transitions
  import opened Engine
  import opened EngineRuns
  import opened Guarantees

  predicate IsReplay(cfg: Config, db: Db, step: Step) {
    step.Fire? && Decide(cfg, db, step.cmd).Replayed?
  }

  /** The run without the commands that were replays when they arrived. */
  function Erase(cfg: Config, steps: seq<Step>): seq<Step> {
    if steps == [] then []
    else
      var n := |steps| - 1;
      Erase(cfg, steps[..n]) + (if IsReplay(cfg, After(cfg, steps[..n]), steps[n]) then [] else [steps[n]])
  }

  function NonReplay(audit: seq<AuditRow>): seq<AuditRow> {
    if audit == [] then []
    else
      var r := audit[|audit| - 1];
      NonReplay(audit[..|audit| - 1]) + (if r.kind == IdempotentReplay then [] else [r])
  }

  ghost predicate SameButReplays(a: Db, b: Db) {
    && a.status == b.status && a.events == b.events && a.checkpoints == b.checkpoints && a.rows == b.rows
    && NonReplay(a.audit) == NonReplay(b.audit)
  }

  lemma NonReplayAppend(audit: seq<AuditRow>, r: AuditRow)
    ensures NonReplay(audit + [r]) == NonReplay(audit) + (if r.kind == IdempotentReplay then [] else [r])
  {
    assert (audit + [r])[..|audit|] == audit;
  }

  lemma {:induction false} NonReplayMembers(audit: seq<AuditRow>, r: AuditRow)
    requires r.kind != IdempotentReplay
    ensures r in NonReplay(audit) <==> r in audit
  {
    if audit != [] {
      var n := |audit| - 1;
      NonReplayMembers(audit[..n], r);
      assert audit == audit[..n] + [audit[n]];
    }
  }

  lemma {:induction false} AuditOfMembers(audit: seq<AuditRow>, s: Subject, r: AuditRow)
    ensures r in AuditOf(audit, s) <==> r in audit && r.subject == s
  {
    if audit != [] {
      var n := |audit| - 1;
      AuditOfMembers(audit[..n], s, r);
      assert audit == audit[..n] + [audit[n]];
    }
  }

  /** Replay rows are invisible to the reminder lookup. */
  lemma ReplaysDontNotify(a: seq<AuditRow>, b: seq<AuditRow>, s: Subject, state: State, since: int)
    requires NonReplay(a) == NonReplay(b)
    ensures AlreadyNotified(AuditOf(a, s), state, since) ==> AlreadyNotified(AuditOf(b, s), state, since)
  {
    if AlreadyNotified(AuditOf(a, s), state, since) {
      var r :| r in AuditOf(a, s) && r.kind == TimeoutNotified && r.from == state && r.at >= since;
      AuditOfMembers(a, s, r);
      NonReplayMembers(a, r);
      NonReplayMembers(b, r);
      AuditOfMembers(b, s, r);
    }
  }

  lemma SameStepKeepsSame(cfg: Config, a: Db, b: Db, step: Step)
    requires SameButReplays(a, b)
    ensures SameButReplays(Do(cfg, a, step), Do(cfg, b, step))
  {
    hide NonReplay, Judge, LogOf, CheckpointsOf, AuditOf, SavesCheckpoint, AlreadyNotified;
    match step
    case Fire(c) =>
      var o := Decide(cfg, a, c);
      JudgeIgnoresAudit(cfg, a, b, c);
      NonReplayAppend(a.audit, AuditRowFor(c, o));
      NonReplayAppend(b.audit, AuditRowFor(c, o));
    case Check(s, now) =>
      var state := StatusOf(a, s);
      var entered := EnteredAt(LogOf(a.events, s), state);
      if entered.Some? {
        ReplaysDontNotify(a.audit, b.audit, s, state, entered.value);
        ReplaysDontNotify(b.audit, a.audit, s, state, entered.value);
      }
      NonReplayAppend(a.audit, Notice(s, state, now));
      NonReplayAppend(b.audit, Notice(s, state, now));
    case Write(p, rows) =>
  }

  lemma JudgeIgnoresAudit(cfg: Config, a: Db, b: Db, c: Command)
    requires a.status == b.status && a.events == b.events && a.checkpoints == b.checkpoints && a.rows == b.rows
    ensures Decide(cfg, a, c) == Decide(cfg, b, c)
  {
    hide LogOf, CheckpointsOf, AuditOf, Transitions.RowFor, KeyRow;
  }

  lemma ReplayKeepsSame(cfg: Config, db: Db, step: Step)
    requires IsReplay(cfg, db, step)
    ensures SameButReplays(Do(cfg, db, step), db)
  {
    hide NonReplay, Judge, KeyRow;
    NonReplayAppend(db.audit, AuditRowFor(step.cmd, Decide(cfg, db, step.cmd)));
  }

  lemma {:induction false} ErasedRunIsSame(cfg: Config, steps: seq<Step>)
    ensures SameButReplays(After(cfg, steps), After(cfg, Erase(cfg, steps)))
    ensures NonReplay(After(cfg, Erase(cfg, steps)).audit) == After(cfg, Erase(cfg, steps)).audit
  {
    hide Do, SameButReplays, NonReplay, IsReplay;
    if steps == [] {
      EmptyIsSame(cfg);
    } else {
      var n := |steps| - 1;
      var before := Erase(cfg, steps[..n]);
      var a, b := After(cfg, steps[..n]), After(cfg, before);
      ErasedRunIsSame(cfg, steps[..n]);
      if IsReplay(cfg, a, steps[n]) {
        assert Erase(cfg, steps) == before;
        ReplayKeepsSame(cfg, a, steps[n]);
        SameIsTransitive(Do(cfg, a, steps[n]), a, b);
      } else {
        assert (before + [steps[n]])[..|before|] == before;
        SameStepKeepsSame(cfg, a, b, steps[n]);
        FreshStepAddsNoReplay(cfg, a, b, steps[n]);
      }
    }
  }

  lemma EmptyIsSame(cfg: Config)
    ensures After(cfg, []) == EMPTY && SameButReplays(EMPTY, EMPTY) && NonReplay(EMPTY.audit) == []
  {}

  lemma SameIsTransitive(a: Db, b: Db, c: Db)
    requires SameButReplays(a, b) && SameButReplays(b, c)
    ensures SameButReplays(a, c)
  {}

  lemma FreshStepAddsNoReplay(cfg: Config, a: Db, b: Db, step: Step)
    requires SameButReplays(a, b) && !IsReplay(cfg, a, step)
    requires NonReplay(b.audit) == b.audit
    ensures NonReplay(Do(cfg, b, step).audit) == Do(cfg, b, step).audit
  {
    hide NonReplay, Judge, KeyRow, LogOf, CheckpointsOf, AuditOf, SavesCheckpoint, MustNotify;
    match step
    case Fire(c) =>
      JudgeIgnoresAudit(cfg, a, b, c);
      NonReplayAppend(b.audit, AuditRowFor(c, Decide(cfg, b, c)));
    case Check(s, now) => NonReplayAppend(b.audit, Notice(s, StatusOf(b, s), now));
    case Write(p, rows) =>
  }

  /** Duplicate-delivery erasure: without its replays a run reaches the same statuses, event log and
      checkpoints, and its audit log is the original one without the replay rows. */
  lemma ReplaysAreHarmless(cfg: Config, steps: seq<Step>)
    ensures
      var full, erased := After(cfg, steps), After(cfg, Erase(cfg, steps));
      && erased.status == full.status
      && erased.events == full.events
      && erased.checkpoints == full.checkpoints
      && erased.audit == NonReplay(full.audit)
  {
    hide Run, Erase, NonReplay;
    ErasedRunIsSame(cfg, steps);
  }
}
