/** Subjects do not disturb each other: what the shared tables hold about one subject after any
    interleaved run is what running that subject's own commands alone leaves behind. */
module Interleaving {
  import opened Vocabulary
  import opened Transitions
  import opened Engine
  import opened EngineRuns
  import opened Guarantees

  /** No idempotency key is used for two subjects: `owner` names the one that uses each key. */
  ghost predicate KeysOwned(owner: map<string, Subject>, steps: seq<Step>) {
    forall i :: 0 <= i < |steps| && steps[i].Fire? && steps[i].cmd.key.Some? ==>
      steps[i].cmd.key.value in owner && owner[steps[i].cmd.key.value] == steps[i].cmd.subject
  }

  ghost predicate EventsOwned(owner: map<string, Subject>, events: seq<EventRow>) {
    forall i :: 0 <= i < |events| && events[i].key.Some? ==>
      events[i].key.value in owner && owner[events[i].key.value] == events[i].subject
  }

  predicate Concerns(step: Step, s: Subject) {
    match step
    case Fire(c) => c.subject == s
    case Check(t, _) => t == s
    case Write(_, _) => true
  }

  /** The commands of one subject, with every change of the guards' rows. */
  function Only(steps: seq<Step>, s: Subject): seq<Step> {
    if steps == [] then []
    else
      var last := steps[|steps| - 1];
      Only(steps[..|steps| - 1], s) + (if Concerns(last, s) then [last] else [])
  }

  /** Where no other subject's row is found under a key, the key is looked up in the subject's own log. */
  lemma {:induction false} KeyRowIsLocal(events: seq<EventRow>, key: Option<string>, s: Subject)
    requires KeyRow(events, key).Some? ==> KeyRow(events, key).value.subject == s
    ensures KeyRow(events, key) == KeyRow(LogOf(events, s), key)
  {
    if events != [] && key.Some? {
      var n := |events| - 1;
      var before := LogOf(events[..n], s);
      if events[n].key != key {
        KeyRowIsLocal(events[..n], key, s);
      }
      if events[n].subject == s {
        assert LogOf(events, s) == before + [events[n]];
        assert (before + [events[n]])[..|before|] == before;
      } else {
        assert LogOf(events, s) == before;
      }
    }
  }

  lemma DoKeepsOwned(cfg: Config, owner: map<string, Subject>, db: Db, step: Step)
    requires EventsOwned(owner, db.events) && KeysOwned(owner, [step])
    ensures EventsOwned(owner, Do(cfg, db, step).events)
  {
    hide Decide, MustNotify, SavesCheckpoint;
    assert [step][0] == step;
  }

  /** A step of another subject leaves the view alone. */
  lemma OthersPreserveView(cfg: Config, db: Db, step: Step, s: Subject)
    requires !Concerns(step, s)
    ensures ViewOf(Do(cfg, db, step), s) == ViewOf(db, s) && Do(cfg, db, step).rows == db.rows
  {
    hide Decide, MustNotify, ViewOf;
    match step
    case Fire(c) => EffectOnViews(db, c, Decide(cfg, db, c), s);
    case Check(t, now) => CheckOnViews(cfg, db, t, now, s);
  }

  /** A command of the subject whose key is already stored for another one: it is taken for a replay of
      a command that the subject never got. */
  predicate Foreign(db: Db, step: Step, s: Subject) {
    && step.Fire? && step.cmd.subject == s
    && KeyRow(db.events, step.cmd.key).Some?
    && KeyRow(db.events, step.cmd.key).value.subject != s
  }

  /** No command of the subject ever meets a foreign row. */
  ghost predicate Undisturbed(cfg: Config, steps: seq<Step>, s: Subject) {
    forall i :: 0 <= i < |steps| ==> !Foreign(After(cfg, steps[..i]), steps[i], s)
  }

  lemma UndisturbedStep(cfg: Config, steps: seq<Step>, s: Subject)
    requires steps != []
    ensures
      var n := |steps| - 1;
      Undisturbed(cfg, steps, s) <==> Undisturbed(cfg, steps[..n], s) && !Foreign(After(cfg, steps[..n]), steps[n], s)
  {
    hide Foreign, After;
    var n := |steps| - 1;
    assert forall i :: 0 <= i < n ==> steps[..n][..i] == steps[..i] && steps[..n][i] == steps[i];
  }

  /** Every event row is the subject's. */
  ghost predicate AllOf(events: seq<EventRow>, s: Subject) {
    forall i :: 0 <= i < |events| ==> events[i].subject == s
  }

  lemma {:induction false} FoundIsOwn(events: seq<EventRow>, key: Option<string>, s: Subject)
    requires AllOf(events, s)
    ensures KeyRow(events, key).Some? ==> KeyRow(events, key).value.subject == s
  {
    if events != [] && key.Some? && events[|events| - 1].key != key {
      FoundIsOwn(events[..|events| - 1], key, s);
    }
  }

  lemma OwnStepsStayOwn(cfg: Config, db: Db, step: Step, s: Subject)
    requires AllOf(db.events, s) && Concerns(step, s)
    ensures AllOf(Do(cfg, db, step).events, s)
  {
    hide Decide, MustNotify, SavesCheckpoint;
  }

  /** A step of the subject that meets no foreign row does the same to two databases that agree on the
      subject. */
  lemma OwnStepAgrees(cfg: Config, a: Db, b: Db, step: Step, s: Subject)
    requires Concerns(step, s) && !Foreign(a, step, s) && AllOf(b.events, s)
    requires ViewOf(a, s) == ViewOf(b, s) && a.rows == b.rows
    ensures ViewOf(Do(cfg, a, step), s) == ViewOf(Do(cfg, b, step), s)
    ensures Do(cfg, a, step).rows == Do(cfg, b, step).rows
  {
    hide Judge, MustNotify, KeyRow, LogOf, CheckpointsOf, AuditOf, AllOf;
    match step
    case Fire(c) =>
      FoundIsOwn(b.events, c.key, s);
      KeyRowIsLocal(a.events, c.key, s);
      KeyRowIsLocal(b.events, c.key, s);
      EffectOnViews(a, c, Decide(cfg, a, c), s);
      EffectOnViews(b, c, Decide(cfg, b, c), s);
    case Check(t, now) =>
      CheckOnViews(cfg, a, t, now, s);
      CheckOnViews(cfg, b, t, now, s);
    case Write(p, rows) =>
  }

  /** What other steps do to the rows that guards read is in both runs. */
  lemma {:induction false} RunsAgree(cfg: Config, steps: seq<Step>, s: Subject)
    requires Undisturbed(cfg, steps, s)
    ensures ViewOf(After(cfg, steps), s) == ViewOf(After(cfg, Only(steps, s)), s)
    ensures After(cfg, steps).rows == After(cfg, Only(steps, s)).rows
    ensures AllOf(After(cfg, Only(steps, s)).events, s)
  {
    hide Do, ViewOf, Concerns, Foreign, Undisturbed, AllOf;
    if steps == [] {
      EmptyIsOwn(cfg, s);
    } else {
      var n := |steps| - 1;
      var step := steps[n];
      var own := Only(steps[..n], s);
      UndisturbedStep(cfg, steps, s);
      RunsAgree(cfg, steps[..n], s);
      if Concerns(step, s) {
        assert (own + [step])[..|own|] == own;
        OwnStepsStayOwn(cfg, After(cfg, own), step, s);
        OwnStepAgrees(cfg, After(cfg, steps[..n]), After(cfg, own), step, s);
      } else {
        assert Only(steps, s) == own;
        OthersPreserveView(cfg, After(cfg, steps[..n]), step, s);
      }
    }
  }

  lemma EmptyIsOwn(cfg: Config, s: Subject)
    ensures After(cfg, []) == EMPTY && AllOf(EMPTY.events, s)
  {}

  // ---------------------------------------------------------------- a foreign row always shows

  /** Two audit sequences differ at a position that both have; appending to them keeps that so. */
  ghost predicate Diverged(a: seq<AuditRow>, b: seq<AuditRow>) {
    exists k :: 0 <= k < |a| && k < |b| && a[k] != b[k]
  }

  lemma DivergedStays(a: seq<AuditRow>, b: seq<AuditRow>, moreA: seq<AuditRow>, moreB: seq<AuditRow>)
    requires Diverged(a, b) && a <= moreA && b <= moreB
    ensures Diverged(moreA, moreB)
  {
    var k :| 0 <= k < |a| && k < |b| && a[k] != b[k];
    assert moreA[k] == a[k] && moreB[k] == b[k];
  }

  lemma AuditGrows(cfg: Config, db: Db, step: Step, s: Subject)
    ensures ViewOf(db, s).audit <= ViewOf(Do(cfg, db, step), s).audit
  {
    hide Decide, MustNotify, ViewOf, SavesCheckpoint;
    match step
    case Fire(c) => EffectOnViews(db, c, Decide(cfg, db, c), s);
    case Check(t, now) => CheckOnViews(cfg, db, t, now, s);
    case Write(p, rows) => WriteKeepsViews(cfg, db, p, rows, s);
  }

  /** A key that a foreign row holds is not in the subject's own log. */
  lemma ForeignKeyIsNotOwn(events: seq<EventRow>, key: Option<string>, s: Subject)
    requires UniqueKeys(events) && KeyRow(events, key).Some? && KeyRow(events, key).value.subject != s
    ensures KeyRow(LogOf(events, s), key).None?
  {
    FreshKey(events, key);
    FreshKey(LogOf(events, s), key);
    var row := KeyRow(events, key).value;
    var j :| 0 <= j < |events| && events[j] == row;
    forall i | 0 <= i < |LogOf(events, s)| ensures LogOf(events, s)[i].key != key {
      LogMembers(events, s, LogOf(events, s)[i]);
      var k :| 0 <= k < |events| && events[k] == LogOf(events, s)[i];
      assert k != j;
    }
  }

  lemma {:induction false} LogMembers(events: seq<EventRow>, s: Subject, e: EventRow)
    ensures e in LogOf(events, s) <==> e in events && e.subject == s
  {
    if events != [] {
      var n := |events| - 1;
      LogMembers(events[..n], s, e);
      assert events == events[..n] + [events[n]];
    }
  }

  /** The first foreign row is audited as a replay, while the subject alone gets a verdict. */
  lemma ForeignDiverges(cfg: Config, a: Db, b: Db, step: Step, s: Subject)
    requires Foreign(a, step, s) && UniqueKeys(a.events) && AllOf(b.events, s)
    requires ViewOf(a, s) == ViewOf(b, s)
    ensures Diverged(ViewOf(Do(cfg, a, step), s).audit, ViewOf(Do(cfg, b, step), s).audit)
  {
    hide Judge, KeyRow, LogOf, CheckpointsOf, AuditOf, AllOf, UniqueKeys, SavesCheckpoint;
    var c := step.cmd;
    ForeignKeyIsNotOwn(a.events, c.key, s);
    FoundIsOwn(b.events, c.key, s);
    KeyRowIsLocal(b.events, c.key, s);
    EffectOnViews(a, c, Decide(cfg, a, c), s);
    EffectOnViews(b, c, Decide(cfg, b, c), s);
    JudgeIsNoReplay(cfg, s.Machine(), ViewOf(b, s), RowsOf(b, s.Project()), c.event, c.ctx);
    var k := |ViewOf(a, s).audit|;
    assert ViewOf(Do(cfg, a, step), s).audit[k].kind == IdempotentReplay;
    assert ViewOf(Do(cfg, b, step), s).audit[k].kind != IdempotentReplay;
  }

  lemma JudgeIsNoReplay(cfg: Config, m: Machine, v: View, rows: ProjectRows, event: Event, ctx: Context)
    ensures !Judge(cfg, m, v, rows, event, ctx).Replayed?
  {
    hide RowFor, GuardHolds;
  }

  lemma {:induction false} DisturbedDiverges(cfg: Config, steps: seq<Step>, s: Subject)
    requires !Undisturbed(cfg, steps, s)
    ensures Diverged(ViewOf(After(cfg, steps), s).audit, ViewOf(After(cfg, Only(steps, s)), s).audit)
  {
    hide Do, ViewOf, Foreign, Undisturbed, Concerns, AllOf, Diverged, UniqueKeys, TransitionsIn, AsAudit, SubjectOk;
    if steps == [] {
      EmptyIsUndisturbed(cfg, s);
    } else {
      var n := |steps| - 1;
      var step := steps[n];
      var own := Only(steps[..n], s);
      var a, b := After(cfg, steps[..n]), After(cfg, own);
      UndisturbedStep(cfg, steps, s);
      assert (own + [step])[..|own|] == own;
      if Undisturbed(cfg, steps[..n], s) {
        RunsAgree(cfg, steps[..n], s);
        RunKeepsInv(cfg, steps[..n]);
        ForeignDiverges(cfg, a, b, step, s);
        ForeignConcerns(a, step, s);
      } else {
        DisturbedDiverges(cfg, steps[..n], s);
        AuditGrows(cfg, a, step, s);
        AuditGrows(cfg, b, step, s);
        var next := if Concerns(step, s) then Do(cfg, b, step) else b;
        assert Only(steps, s) == if Concerns(step, s) then own + [step] else own;
        assert After(cfg, Only(steps, s)) == next;
        DivergedStays(ViewOf(a, s).audit, ViewOf(b, s).audit, ViewOf(Do(cfg, a, step), s).audit, ViewOf(next, s).audit);
      }
    }
  }

  lemma EmptyIsUndisturbed(cfg: Config, s: Subject)
    ensures Undisturbed(cfg, [], s)
  {}

  lemma ForeignConcerns(db: Db, step: Step, s: Subject)
    requires Foreign(db, step, s)
    ensures Concerns(step, s)
  {}

  /** Interleaving independence, exactly: what a run leaves about a subject is what the subject's own
      commands alone leave if and only if none of them meets, under its key, a row of another subject. */
  lemma IndependentExactly(cfg: Config, steps: seq<Step>, s: Subject)
    ensures ViewOf(After(cfg, steps), s) == ViewOf(After(cfg, Only(steps, s)), s) <==>
      forall i :: 0 <= i < |steps| ==> !Foreign(After(cfg, steps[..i]), steps[i], s)
  {
    hide ViewOf, Foreign, After, Only;
    if Undisturbed(cfg, steps, s) {
      RunsAgree(cfg, steps, s);
    } else {
      DisturbedDiverges(cfg, steps, s);
    }
  }

  // ---------------------------------------------------------------- keys that are not shared

  lemma {:induction false} OwnedIsUndisturbed(cfg: Config, owner: map<string, Subject>, steps: seq<Step>, s: Subject)
    requires KeysOwned(owner, steps)
    ensures Undisturbed(cfg, steps, s) && EventsOwned(owner, After(cfg, steps).events)
  {
    hide Do, Foreign, Undisturbed;
    if steps == [] {
      EmptyIsUndisturbed(cfg, s);
    } else {
      var n := |steps| - 1;
      OwnedIsUndisturbed(cfg, owner, steps[..n], s);
      assert KeysOwned(owner, [steps[n]]);
      DoKeepsOwned(cfg, owner, After(cfg, steps[..n]), steps[n]);
      OwnedIsNotForeign(owner, After(cfg, steps[..n]), steps[n], s);
      UndisturbedStep(cfg, steps, s);
    }
  }

  lemma OwnedIsNotForeign(owner: map<string, Subject>, db: Db, step: Step, s: Subject)
    requires EventsOwned(owner, db.events) && KeysOwned(owner, [step])
    ensures !Foreign(db, step, s)
  {
    assert [step][0] == step;
    if step.Fire? {
      FreshKey(db.events, step.cmd.key);
    }
  }

  /** So subjects that share no key do not disturb each other. */
  lemma Independence(cfg: Config, owner: map<string, Subject>, steps: seq<Step>, s: Subject)
    requires KeysOwned(owner, steps)
    ensures ViewOf(After(cfg, steps), s) == ViewOf(After(cfg, Only(steps, s)), s)
  {
    hide ViewOf, After, Only;
    OwnedIsUndisturbed(cfg, owner, steps, s);
    IndependentExactly(cfg, steps, s);
  }

  // ---------------------------------------------------------------- a shared key

  function Starts(id: ProjectId, at: int): Command {
    Command(ProjectSubject(id), AnalysisStarted, Some("k"), NO_CONTEXT, at)
  }

  const WITH_IDEA := ProjectRows(true, [], [], [], [])

  const SHARED_KEY_RUN: seq<Step> :=
    [Write(1, WITH_IDEA), Write(2, WITH_IDEA), Fire(Starts(1, 1)), Fire(Starts(2, 2))]

  const IDEAS_WRITTEN := Db(map[], [], [], [], map[1 := WITH_IDEA, 2 := WITH_IDEA])

  lemma StartApplies(cfg: Config, id: ProjectId, at: int)
    requires id == 1 || id == 2
    ensures Decide(cfg, IDEAS_WRITTEN, Starts(id, at)) == Applied(IdeaReceived, DocumentAnalyzing)
  {
    hide LogOf, CheckpointsOf, AuditOf;
  }

  lemma SecondStartReplays(cfg: Config)
    ensures
      var db := Do(cfg, IDEAS_WRITTEN, Fire(Starts(1, 1)));
      Decide(cfg, db, Starts(2, 2)).Replayed? && StatusOf(db, ProjectSubject(2)) == IdeaReceived
  {
    hide Judge;
    StartApplies(cfg, 1, 1);
  }

  /** The condition on keys is needed: when two projects use one key, the second command is taken for
      a replay of the first, and the second project does not move as it would alone. */
  lemma {:induction false} SharedKeyDisturbs(cfg: Config)
    ensures StatusOf(After(cfg, SHARED_KEY_RUN), ProjectSubject(2)) == IdeaReceived
    ensures StatusOf(After(cfg, Only(SHARED_KEY_RUN, ProjectSubject(2))), ProjectSubject(2)) == DocumentAnalyzing
  {
    hide Decide, After, Only;
    var s2 := ProjectSubject(2);
    var ideas := [Write(1, WITH_IDEA), Write(2, WITH_IDEA)];
    var f1, f2 := Fire(Starts(1, 1)), Fire(Starts(2, 2));
    BothIdeasWritten(cfg);
    StartApplies(cfg, 2, 2);
    SecondStartReplays(cfg);
    RunStep(cfg, ideas, f1);
    RunStep(cfg, ideas + [f1], f2);
    RunStep(cfg, ideas, f2);
    OnlyIdeas(s2);
    OnlyStep(ideas, f1, s2);
    OnlyStep(ideas + [f1], f2, s2);
    assert ideas + [f1] + [f2] == SHARED_KEY_RUN;
    assert Only(SHARED_KEY_RUN, s2) == ideas + [f2];
  }

  lemma OnlyIdeas(s: Subject)
    ensures Only([Write(1, WITH_IDEA), Write(2, WITH_IDEA)], s) == [Write(1, WITH_IDEA), Write(2, WITH_IDEA)]
  {
    var w1, w2 := Write(1, WITH_IDEA), Write(2, WITH_IDEA);
    OnlyStep([], w1, s);
    OnlyStep([w1], w2, s);
    assert [] + [w1] == [w1] && [w1] + [w2] == [w1, w2];
  }

  lemma BothIdeasWritten(cfg: Config)
    ensures After(cfg, [Write(1, WITH_IDEA), Write(2, WITH_IDEA)]) ==
            IDEAS_WRITTEN
  {
    RunStep(cfg, [], Write(1, WITH_IDEA));
    RunStep(cfg, [Write(1, WITH_IDEA)], Write(2, WITH_IDEA));
    assert [] + [Write(1, WITH_IDEA)] == [Write(1, WITH_IDEA)];
    assert [Write(1, WITH_IDEA)] + [Write(2, WITH_IDEA)] == [Write(1, WITH_IDEA), Write(2, WITH_IDEA)];
  }

  lemma OnlyStep(steps: seq<Step>, step: Step, s: Subject)
    ensures Only(steps + [step], s) == Only(steps, s) + (if Concerns(step, s) then [step] else [])
  {
    assert (steps + [step])[..|steps|] == steps;
  }
}
