/** The timeout check reminds at most once per stay in a state. */
module Reminders {
  import opened Vocabulary
  import opened Engine
  import opened EngineRuns
  import opened Guarantees

  function TimeOf(step: Step): Option<int> {
    match step
    case Fire(c) => Some(c.at)
    case Check(_, now) => Some(now)
    case Write(_, _) => None
  }

  predicate IsEarlier(step: Step, now: int) {
    TimeOf(step).Some? ==> TimeOf(step).value < now
  }

  predicate InTime(a: Step, b: Step) {
    TimeOf(b).Some? ==> IsEarlier(a, TimeOf(b).value)
  }

  /** The clock is strictly increasing. */
  ghost predicate Clocked(steps: seq<Step>) {
    forall i, j :: 0 <= i < j < |steps| ==> InTime(steps[i], steps[j])
  }

  ghost predicate AllEarlier(steps: seq<Step>, now: int) {
    forall i :: 0 <= i < |steps| ==> IsEarlier(steps[i], now)
  }

  /** Where the current stay begins in a subject's audit rows: after the last transition. */
  function StayStart(audit: seq<AuditRow>): (k: nat)
    ensures k <= |audit|
    ensures forall i :: k <= i < |audit| ==> audit[i].kind != StateTransition
    ensures k > 0 ==> audit[k - 1].kind == StateTransition
  {
    if audit == [] then 0
    else if audit[|audit| - 1].kind == StateTransition then |audit|
    else StayStart(audit[..|audit| - 1])
  }

  predicate IsReminder(r: AuditRow) { r.kind == TimeoutNotified }

  /** Between any two reminders of a subject there is a transition of it. */
  ghost predicate OncePerStay(audit: seq<AuditRow>) {
    forall i, j :: 0 <= i < j < |audit| && IsReminder(audit[i]) && IsReminder(audit[j]) ==>
      exists k :: i < k < j && audit[k].kind == StateTransition
  }

  ghost predicate RemindedInStay(audit: seq<AuditRow>) {
    exists i :: StayStart(audit) <= i < |audit| && IsReminder(audit[i])
  }

  /** How a subject's audit rows and log fit together in time. */
  ghost predicate StayInv(v: View) {
    var k := StayStart(v.audit);
    && OncePerStay(v.audit)
    && (v.log == [] ==> forall i :: 0 <= i < |v.audit| ==> !IsReminder(v.audit[i]))
    && (v.log != [] ==>
          var entered := v.log[|v.log| - 1];
          && entered.to == v.status
          && (forall i :: 0 <= i < k && IsReminder(v.audit[i]) ==> v.audit[i].at < entered.at)
          && (forall i :: k <= i < |v.audit| && IsReminder(v.audit[i]) ==>
                v.audit[i].from == v.status && v.audit[i].at >= entered.at))
  }

  ghost predicate AllBefore(v: View, now: int) {
    && (forall i :: 0 <= i < |v.audit| ==> v.audit[i].at < now)
    && (forall i :: 0 <= i < |v.log| ==> v.log[i].at < now)
  }

  /** The look-up of earlier reminders finds exactly those of the current stay. */
  lemma NotifiedIsRemindedInStay(v: View)
    requires StayInv(v) && v.log != []
    ensures EnteredAt(v.log, v.status) == Some(v.log[|v.log| - 1].at)
    ensures AlreadyNotified(v.audit, v.status, v.log[|v.log| - 1].at) <==> RemindedInStay(v.audit)
  {
    hide OncePerStay;
    var since := v.log[|v.log| - 1].at;
    if AlreadyNotified(v.audit, v.status, since) {
      var r :| r in v.audit && r.kind == TimeoutNotified && r.from == v.status && r.at >= since;
      var i :| 0 <= i < |v.audit| && v.audit[i] == r;
      assert IsReminder(v.audit[i]);
    }
    if RemindedInStay(v.audit) {
      var i :| StayStart(v.audit) <= i < |v.audit| && IsReminder(v.audit[i]);
      assert v.audit[i] in v.audit;
    }
  }

  lemma StayStartAppend(audit: seq<AuditRow>, r: AuditRow)
    ensures StayStart(audit + [r]) == if r.kind == StateTransition then |audit| + 1 else StayStart(audit)
  {
    assert (audit + [r])[..|audit|] == audit;
  }

  lemma OncePerStayAppend(audit: seq<AuditRow>, r: AuditRow)
    requires OncePerStay(audit)
    requires IsReminder(r) ==> !RemindedInStay(audit)
    ensures OncePerStay(audit + [r])
  {
    var next := audit + [r];
    forall i, j | 0 <= i < j < |next| && IsReminder(next[i]) && IsReminder(next[j])
      ensures exists k :: i < k < j && next[k].kind == StateTransition
    {
      if j < |audit| {
        var k :| i < k < j && audit[k].kind == StateTransition;
        assert next[k] == audit[k];
      } else {
        assert i < StayStart(audit);
        assert next[StayStart(audit) - 1] == audit[StayStart(audit) - 1];
        assert i != StayStart(audit) - 1;
      }
    }
  }

  lemma FireKeepsStay(v: View, c: Command, o: Outcome)
    requires StayInv(v) && AllBefore(v, c.at) && (o.Applied? ==> o.from == v.status)
    ensures StayInv(NextView(v, c, o))
  {
    hide OncePerStay, StayStart, SavesCheckpoint;
    var r := AuditRowFor(c, o);
    OncePerStayAppend(v.audit, r);
    StayStartAppend(v.audit, r);
  }

  lemma CheckKeepsStay(cfg: Config, v: View, s: Subject, now: int)
    requires StayInv(v) && AllBefore(v, now) && MustNotify(cfg, v, v.status, now)
    ensures StayInv(v.(audit := v.audit + [Notice(s, v.status, now)]))
  {
    hide OncePerStay, StayStart;
    var r := Notice(s, v.status, now);
    assert v.log != [];
    NotifiedIsRemindedInStay(v);
    OncePerStayAppend(v.audit, r);
    StayStartAppend(v.audit, r);
  }

  // ---------------------------------------------------------------- runs

  /** Rows written so far are older than a later time. */
  lemma {:induction false} RowsAreOlder(cfg: Config, steps: seq<Step>, s: Subject, now: int)
    requires AllEarlier(steps, now)
    ensures AllBefore(ViewOf(After(cfg, steps), s), now)
  {
    if steps != [] {
      var n := |steps| - 1;
      RowsAreOlder(cfg, steps[..n], s, now);
      assert IsEarlier(steps[n], now);
      StepStaysOlder(cfg, After(cfg, steps[..n]), steps[n], s, now);
    }
  }

  lemma StepStaysOlder(cfg: Config, db: Db, step: Step, s: Subject, now: int)
    requires AllBefore(ViewOf(db, s), now)
    requires TimeOf(step).Some? ==> TimeOf(step).value < now
    ensures AllBefore(ViewOf(Do(cfg, db, step), s), now)
  {
    hide Decide, ViewOf, MustNotify, SavesCheckpoint;
    match step
    case Fire(c) => EffectOnViews(db, c, Decide(cfg, db, c), s);
    case Check(t, at) => CheckOnViews(cfg, db, t, at, s);
    case Write(p, rows) => WriteKeepsViews(cfg, db, p, rows, s);
  }

  lemma StepKeepsStay(cfg: Config, db: Db, step: Step, s: Subject)
    requires StayInv(ViewOf(db, s))
    requires TimeOf(step).Some? ==> AllBefore(ViewOf(db, s), TimeOf(step).value)
    ensures StayInv(ViewOf(Do(cfg, db, step), s))
  {
    hide ViewOf, MustNotify, StayInv, AllBefore, KeyRow;
    match step
    case Fire(c) =>
      var o := Decide(cfg, db, c);
      EffectOnViews(db, c, o, s);
      if s == c.subject { FireKeepsStay(ViewOf(db, s), c, o); }
    case Check(t, now) =>
      CheckOnViews(cfg, db, t, now, s);
      if s == t && MustNotify(cfg, ViewOf(db, s), ViewOf(db, s).status, now) {
        CheckKeepsStay(cfg, ViewOf(db, s), t, now);
      }
    case Write(p, rows) => WriteKeepsViews(cfg, db, p, rows, s);
  }

  lemma {:induction false} RunKeepsStay(cfg: Config, steps: seq<Step>, s: Subject)
    requires Clocked(steps)
    ensures StayInv(ViewOf(After(cfg, steps), s))
  {
    hide Do, ViewOf, StayInv;
    if steps == [] {
      EmptyStay(cfg, s);
    } else {
      var n := |steps| - 1;
      RunKeepsStay(cfg, steps[..n], s);
      if TimeOf(steps[n]).Some? {
        RowsAreOlder(cfg, steps[..n], s, TimeOf(steps[n]).value);
      }
      StepKeepsStay(cfg, After(cfg, steps[..n]), steps[n], s);
    }
  }

  lemma EmptyStay(cfg: Config, s: Subject)
    ensures StayInv(ViewOf(After(cfg, []), s))
  {}

  /** One reminder per stay: in any run of fires and checks under a strictly increasing clock, a
      subject's audit rows never hold two reminders without a transition between them. */
  lemma OneReminderPerStay(cfg: Config, steps: seq<Step>, s: Subject)
    requires Clocked(steps)
    ensures OncePerStay(AuditOf(After(cfg, steps).audit, s))
  {
    hide OncePerStay, Run;
    RunKeepsStay(cfg, steps, s);
  }

  /** A check reminds exactly when the state is limited, its limit has passed since the subject
      entered it, and this stay has no reminder yet: so a stay that is checked past its limit is
      reminded of once, and a later stay in the same state can be reminded of again. */
  lemma CheckRemindsWhenOverdue(cfg: Config, steps: seq<Step>, s: Subject, now: int)
    requires Clocked(steps)
    ensures
      var v := ViewOf(After(cfg, steps), s);
      MustNotify(cfg, v, v.status, now) <==>
        && v.status in cfg.timeouts
        && v.log != []
        && now - v.log[|v.log| - 1].at > cfg.timeouts[v.status]
        && !RemindedInStay(v.audit)
  {
    hide Run, RemindedInStay, AlreadyNotified, ViewOf;
    RunKeepsStay(cfg, steps, s);
    var v := ViewOf(After(cfg, steps), s);
    if v.log != [] {
      NotifiedIsRemindedInStay(v);
    }
  }
}
