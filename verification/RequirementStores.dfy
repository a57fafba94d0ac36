/** Versioned requirements: synchronising the stored rows with a list of drafts, and the history that
    every change leaves (app/project_memory/requirement_store.py, version_store.py). */
module RequirementStores {
  import opened Vocabulary

  type ProjectId = nat

  datatype RequirementStatus = ConfirmedRequirement | InferredRequirement | UnknownRequirement
  datatype Category = Functional | NonFunctional | BusinessRule | ExceptionCase

  datatype Draft = Draft(key: string, description: string, status: RequirementStatus, category: Category,
                         priority: Option<string>)

  datatype Requirement = Requirement(description: string, status: RequirementStatus, category: Category,
                                     priority: Option<string>, version: nat, active: bool)

  datatype VersionRow = VersionRow(key: string, version: nat, description: string, status: RequirementStatus)

  /** The requirement rows of one project by key, and its version rows in order of insertion. */
  datatype Store = Store(rows: map<string, Requirement>, versions: seq<VersionRow>)

  const NOTHING := Store(map[], [])

  /** VersionStore.history: the version rows of one requirement. */
  function History(versions: seq<VersionRow>, key: string): seq<VersionRow> {
    if versions == [] then []
    else
      var n := |versions| - 1;
      History(versions[..n], key) + (if versions[n].key == key then [versions[n]] else [])
  }

  function RowOf(d: Draft, version: nat): Requirement {
    Requirement(d.description, d.status, d.category, d.priority, version, true)
  }

  function VersionOf(key: string, r: Requirement): VersionRow {
    VersionRow(key, r.version, r.description, r.status)
  }

  /** A row written together with its version row. */
  function Recorded(st: Store, key: string, r: Requirement): Store {
    Store(st.rows[key := r], st.versions + [VersionOf(key, r)])
  }

  /** An active row with the content of a draft. */
  predicate Mirrors(r: Requirement, d: Draft) {
    && r.active
    && r.description == d.description && r.status == d.status
    && r.category == d.category && r.priority == d.priority
  }

  /** One draft: a known row is updated when it differs, an unknown key gets a row of version 1, and
      a key that was created in the same call violates the unique constraint. */
  function SyncOne(known: set<string>, st: Store, d: Draft): Option<Store> {
    if d.key in known && d.key in st.rows then
      var current := st.rows[d.key];
      Some(if Mirrors(current, d) then st else Recorded(st, d.key, RowOf(d, current.version + 1)))
    else if d.key in st.rows then None
    else Some(Recorded(st, d.key, RowOf(d, 1)))
  }

  function SyncDrafts(known: set<string>, st: Store, drafts: seq<Draft>): Option<Store> {
    if drafts == [] then Some(st)
    else
      var before := SyncDrafts(known, st, drafts[..|drafts| - 1]);
      if before.None? then None else SyncOne(known, before.value, drafts[|drafts| - 1])
  }

  function Keys(drafts: seq<Draft>): set<string> {
    set d | d in drafts :: d.key
  }

  /** The rows that a synchronisation takes out of use. */
  function Dropped(st: Store, drafts: seq<Draft>): set<string> {
    set k | k in st.rows && st.rows[k].active && k !in Keys(drafts)
  }

  /** The same among the known keys, on any store. */
  function DroppedFrom(st: Store, known: set<string>, drafts: seq<Draft>): set<string> {
    set k | k in known && k in st.rows && st.rows[k].active && k !in Keys(drafts)
  }

  function Retired(r: Requirement): Requirement {
    r.(active := false, version := r.version + 1)
  }

  /** Exactly the dropped rows were retired and recorded, in whatever order the rows were read. */
  ghost predicate Retires(st: Store, dropped: set<string>, after: Store) {
    && after.rows == (map k | k in st.rows :: if k in dropped then Retired(st.rows[k]) else st.rows[k])
    && forall k :: History(after.versions, k) ==
         History(st.versions, k) + if k in dropped && k in st.rows then [VersionOf(k, Retired(st.rows[k]))] else []
  }

  /** What RequirementStore.sync may leave behind. */
  ghost predicate Synced(before: Store, drafts: seq<Draft>, after: Store) {
    var mid := SyncDrafts(before.rows.Keys, before, drafts);
    mid.Some? && Retires(mid.value, Dropped(before, drafts), after)
  }

  /** A key that is new to the store is listed twice. */
  ghost predicate NewKeyTwice(known: set<string>, drafts: seq<Draft>) {
    exists i, j :: 0 <= i < j < |drafts| && drafts[i].key == drafts[j].key && drafts[i].key !in known
  }

  // ---------------------------------------------------------------- invariant

  /** The versions 1..n of a row, the last of which carries the row's text and status. */
  predicate HistoryOf(history: seq<VersionRow>, key: string, r: Requirement) {
    && |history| == r.version > 0
    && (forall i :: 0 <= i < |history| ==> history[i].version == i + 1)
    && history[|history| - 1] == VersionOf(key, r)
  }

  ghost predicate StoreOk(st: Store) {
    && (forall k :: k in st.rows ==> HistoryOf(History(st.versions, k), k, st.rows[k]))
    && (forall k :: k !in st.rows ==> History(st.versions, k) == [])
  }

  lemma HistoryAppend(versions: seq<VersionRow>, v: VersionRow, key: string)
    ensures History(versions + [v], key) == History(versions, key) + (if v.key == key then [v] else [])
  {
    assert (versions + [v])[..|versions|] == versions;
  }

  lemma RecordKeepsOk(st: Store, key: string, r: Requirement)
    requires StoreOk(st)
    requires r.version == if key in st.rows then st.rows[key].version + 1 else 1
    ensures StoreOk(Recorded(st, key, r))
  {
    hide History, HistoryOf;
    var next := Recorded(st, key, r);
    HistoryOfGrows(History(st.versions, key), key, if key in st.rows then Some(st.rows[key]) else None, r);
    forall k ensures k in next.rows ==> HistoryOf(History(next.versions, k), k, next.rows[k]) {
      HistoryAppend(st.versions, VersionOf(key, r), k);
      assert History(st.versions, k) + [] == History(st.versions, k);
    }
    forall k | k !in next.rows ensures History(next.versions, k) == [] {
      HistoryAppend(st.versions, VersionOf(key, r), k);
    }
  }

  lemma HistoryOfGrows(history: seq<VersionRow>, key: string, was: Option<Requirement>, r: Requirement)
    requires if was.Some? then HistoryOf(history, key, was.value) else history == []
    requires r.version == if was.Some? then was.value.version + 1 else 1
    ensures HistoryOf(history + [VersionOf(key, r)], key, r)
  {}

  /** The last draft for a key. */
  function LastDraft(drafts: seq<Draft>, key: string): Option<Draft> {
    if drafts == [] then None
    else if drafts[|drafts| - 1].key == key then Some(drafts[|drafts| - 1])
    else LastDraft(drafts[..|drafts| - 1], key)
  }

  lemma {:induction false} LastDraftInKeys(drafts: seq<Draft>, key: string)
    ensures LastDraft(drafts, key).Some? <==> key in Keys(drafts)
    ensures LastDraft(drafts, key).Some? ==>
              LastDraft(drafts, key).value in drafts && LastDraft(drafts, key).value.key == key
  {
    if drafts != [] {
      var n := |drafts| - 1;
      LastDraftInKeys(drafts[..n], key);
      assert drafts == drafts[..n] + [drafts[n]];
    }
  }

  lemma TwiceInPrefix(known: set<string>, drafts: seq<Draft>)
    requires drafts != []
    ensures
      var n := |drafts| - 1;
      NewKeyTwice(known, drafts) <==>
        NewKeyTwice(known, drafts[..n]) || (drafts[n].key !in known && drafts[n].key in Keys(drafts[..n]))
  {
    var n := |drafts| - 1;
    var first := drafts[..n];
    if drafts[n].key !in known && drafts[n].key in Keys(first) {
      var d :| d in first && d.key == drafts[n].key;
      var i :| 0 <= i < n && first[i] == d;
      assert drafts[i].key == drafts[n].key;
    }
    if NewKeyTwice(known, first) {
      var i, j :| 0 <= i < j < n && first[i].key == first[j].key && first[i].key !in known;
      assert drafts[i].key == drafts[j].key;
    }
    if NewKeyTwice(known, drafts) {
      var i, j :| 0 <= i < j < |drafts| && drafts[i].key == drafts[j].key && drafts[i].key !in known;
      assert first[i] in first;
      assert j < n ==> first[i].key == first[j].key;
    }
  }

  /** The rows after the drafts were gone through: each draft's key holds its last draft, every other
      row is as before. It fails exactly when a new key is listed twice. */
  ghost predicate Follows(st: Store, drafts: seq<Draft>, mid: Store) {
    && StoreOk(mid)
    && mid.rows.Keys == st.rows.Keys + Keys(drafts)
    && forall k :: k in mid.rows ==>
         if LastDraft(drafts, k).Some? then Mirrors(mid.rows[k], LastDraft(drafts, k).value)
         else k in st.rows && mid.rows[k] == st.rows[k]
  }

  lemma {:induction false} DraftsAreFollowed(st: Store, drafts: seq<Draft>)
    requires StoreOk(st)
    ensures SyncDrafts(st.rows.Keys, st, drafts).None? <==> NewKeyTwice(st.rows.Keys, drafts)
    ensures SyncDrafts(st.rows.Keys, st, drafts).Some? ==>
              Follows(st, drafts, SyncDrafts(st.rows.Keys, st, drafts).value)
  {
    hide StoreOk, NewKeyTwice;
    if drafts != [] {
      var n := |drafts| - 1;
      var known := st.rows.Keys;
      DraftsAreFollowed(st, drafts[..n]);
      TwiceInPrefix(known, drafts);
      var before := SyncDrafts(known, st, drafts[..n]);
      if before.Some? {
        assert drafts == drafts[..n] + [drafts[n]];
        StepFollows(st, drafts, before.value);
      }
    } else {
      NothingTwice(st.rows.Keys);
    }
  }

  lemma NothingTwice(known: set<string>)
    ensures !NewKeyTwice(known, [])
  {}

  lemma KeysOfOneMore(drafts: seq<Draft>)
    requires drafts != []
    ensures Keys(drafts) == Keys(drafts[..|drafts| - 1]) + {drafts[|drafts| - 1].key}
  {
    assert drafts == drafts[..|drafts| - 1] + [drafts[|drafts| - 1]];
  }

  lemma SyncOneWrites(known: set<string>, st: Store, d: Draft)
    requires known <= st.rows.Keys
    ensures SyncOne(known, st, d).None? <==> d.key !in known && d.key in st.rows
    ensures SyncOne(known, st, d).Some? ==>
      var next := SyncOne(known, st, d).value;
      && next.rows == st.rows[d.key := next.rows[d.key]]
      && Mirrors(next.rows[d.key], d)
      && (StoreOk(st) ==> StoreOk(next))
  {
    hide StoreOk;
    var next := SyncOne(known, st, d);
    if next.Some? && next.value != st && StoreOk(st) {
      RecordKeepsOk(st, d.key, next.value.rows[d.key]);
    }
  }

  lemma StepFollows(st: Store, drafts: seq<Draft>, before: Store)
    requires drafts != [] && Follows(st, drafts[..|drafts| - 1], before)
    ensures
      var d := drafts[|drafts| - 1];
      var next := SyncOne(st.rows.Keys, before, d);
      && (next.None? <==> d.key !in st.rows.Keys && d.key in Keys(drafts[..|drafts| - 1]))
      && (next.Some? ==> Follows(st, drafts, next.value))
  {
    hide StoreOk, Mirrors, SyncOne, Keys;
    KeysOfOneMore(drafts);
    SyncOneWrites(st.rows.Keys, before, drafts[|drafts| - 1]);
  }

  lemma RetireKeepsOk(st: Store, dropped: set<string>, after: Store)
    requires StoreOk(st) && Retires(st, dropped, after)
    ensures StoreOk(after)
  {
    hide History;
  }

  // ---------------------------------------------------------------- the promises of one call

  /** The row of a requirement that no draft names: its content stays, and taking it out of use counts
      as one more version. */
  predicate IsKept(was: Requirement, r: Requirement) {
    && r.description == was.description && r.status == was.status
    && r.category == was.category && r.priority == was.priority
    && !r.active && r.version == was.version + (if was.active then 1 else 0)
  }

  /** After a synchronisation the active rows are exactly the drafts' keys, each equal field by field
      to the last draft of its key; no row is removed, and a row that the drafts do not name is
      kept, inactive. */
  lemma SyncMirrorsDrafts(before: Store, drafts: seq<Draft>, after: Store)
    requires StoreOk(before) && Synced(before, drafts, after)
    ensures StoreOk(after)
    ensures after.rows.Keys == before.rows.Keys + Keys(drafts)
    ensures forall k :: k in after.rows ==>
      && (after.rows[k].active <==> k in Keys(drafts))
      && (k in Keys(drafts) ==> LastDraft(drafts, k).Some? && Mirrors(after.rows[k], LastDraft(drafts, k).value))
      && (k !in Keys(drafts) ==> IsKept(before.rows[k], after.rows[k]))
  {
    hide StoreOk, SyncDrafts, LastDraft;
    var mid := SyncDrafts(before.rows.Keys, before, drafts).value;
    DraftsAreFollowed(before, drafts);
    RetireKeepsOk(mid, Dropped(before, drafts), after);
    forall k ensures LastDraft(drafts, k).Some? <==> k in Keys(drafts) {
      LastDraftInKeys(drafts, k);
    }
  }

  /** The newest history entry of each synchronised key carries the draft's description and status, and
      that of a key taken out of use the row's. */
  lemma SyncIsRecorded(before: Store, drafts: seq<Draft>, after: Store, key: string)
    requires StoreOk(before) && Synced(before, drafts, after) && key in after.rows
    ensures
      var history := History(after.versions, key);
      && history != []
      && var newest := history[|history| - 1];
      && newest.version == after.rows[key].version
      && if key in Keys(drafts) then
           && LastDraft(drafts, key).Some?
           && newest.description == LastDraft(drafts, key).value.description
           && newest.status == LastDraft(drafts, key).value.status
         else
           && key in before.rows
           && newest.description == before.rows[key].description && newest.status == before.rows[key].status
  {
    hide History, Synced, LastDraft;
    SyncMirrorsDrafts(before, drafts, after);
  }

  ghost predicate DistinctKeys(drafts: seq<Draft>) {
    forall i, j :: 0 <= i < j < |drafts| ==> drafts[i].key != drafts[j].key
  }

  lemma {:induction false} LastDraftOfDistinct(drafts: seq<Draft>, i: nat)
    requires DistinctKeys(drafts) && i < |drafts|
    ensures LastDraft(drafts, drafts[i].key) == Some(drafts[i])
  {
    if i < |drafts| - 1 {
      LastDraftOfDistinct(drafts[..|drafts| - 1], i);
    }
  }

  lemma {:induction false} NothingToDo(st: Store, drafts: seq<Draft>)
    requires forall d :: d in drafts ==> d.key in st.rows && Mirrors(st.rows[d.key], d)
    ensures SyncDrafts(st.rows.Keys, st, drafts) == Some(st)
  {
    if drafts != [] {
      var n := |drafts| - 1;
      NothingToDo(st, drafts[..n]);
      assert drafts == drafts[..n] + [drafts[n]];
    }
  }

  /** Repeating a synchronisation changes no row and adds no version. */
  lemma {:induction false} RepeatingAddsNothing(before: Store, drafts: seq<Draft>, once: Store, twice: Store)
    requires StoreOk(before) && DistinctKeys(drafts)
    requires Synced(before, drafts, once) && Synced(once, drafts, twice)
    ensures twice.rows == once.rows
    ensures forall k :: History(twice.versions, k) == History(once.versions, k)
  {
    hide StoreOk, SyncDrafts, LastDraft, History;
    SyncMirrorsDrafts(before, drafts, once);
    forall d | d in drafts ensures d.key in once.rows && Mirrors(once.rows[d.key], d) {
      var i :| 0 <= i < |drafts| && drafts[i] == d;
      LastDraftOfDistinct(drafts, i);
    }
    NothingToDo(once, drafts);
    assert Dropped(once, drafts) == {};
  }

  // ---------------------------------------------------------------- any sequence of calls

  /** The stores a project goes through: empty at first, then one successful synchronisation after
      another. */
  ghost predicate IsHistory(stores: seq<Store>, inputs: seq<seq<Draft>>) {
    && |stores| == |inputs| + 1
    && stores[0] == NOTHING
    && forall i :: 0 <= i < |inputs| ==> Synced(stores[i], inputs[i], stores[i + 1])
  }

  lemma {:induction false} HistoryStaysOk(stores: seq<Store>, inputs: seq<seq<Draft>>, i: nat)
    requires IsHistory(stores, inputs) && i <= |inputs|
    ensures StoreOk(stores[i])
  {
    hide Synced;
    if i > 0 {
      HistoryStaysOk(stores, inputs, i - 1);
      SyncMirrorsDrafts(stores[i - 1], inputs[i - 1], stores[i]);
    }
  }

  /** After any sequence of calls, the history of each requirement is exactly the versions
      1..version, and its last entry carries the row's description and status. */
  lemma HistoriesAreGapless(stores: seq<Store>, inputs: seq<seq<Draft>>, i: nat, key: string)
    requires IsHistory(stores, inputs) && i <= |inputs|
    ensures
      var history := History(stores[i].versions, key);
      if key in stores[i].rows then
        && |history| == stores[i].rows[key].version > 0
        && (forall v :: 0 <= v < |history| ==> history[v].version == v + 1)
        && history[|history| - 1].description == stores[i].rows[key].description
        && history[|history| - 1].status == stores[i].rows[key].status
      else history == []
  {
    hide IsHistory, History;
    HistoryStaysOk(stores, inputs, i);
  }

  /** No row is ever removed and no version row is ever rewritten: an earlier history is a prefix of
      every later one. */
  lemma {:induction false} RowsAndHistoriesLast(stores: seq<Store>, inputs: seq<seq<Draft>>, i: nat, j: nat,
      key: string)
    requires IsHistory(stores, inputs) && i <= j <= |inputs|
    ensures key in stores[i].rows ==> key in stores[j].rows
    ensures History(stores[i].versions, key) <= History(stores[j].versions, key)
    decreases j - i
  {
    hide StoreOk, Synced, History;
    if i < j {
      RowsAndHistoriesLast(stores, inputs, i, j - 1, key);
      HistoryStaysOk(stores, inputs, j - 1);
      SyncMirrorsDrafts(stores[j - 1], inputs[j - 1], stores[j]);
      SyncExtendsHistory(stores[j - 1], inputs[j - 1], stores[j], key);
    }
  }

  lemma SyncExtendsHistory(before: Store, drafts: seq<Draft>, after: Store, key: string)
    requires Synced(before, drafts, after)
    ensures History(before.versions, key) <= History(after.versions, key)
  {
    hide History, SyncDrafts;
    DraftsExtendHistory(before.rows.Keys, before, drafts, key);
  }

  lemma {:induction false} DraftsExtendHistory(known: set<string>, st: Store, drafts: seq<Draft>, key: string)
    requires SyncDrafts(known, st, drafts).Some?
    ensures History(st.versions, key) <= History(SyncDrafts(known, st, drafts).value.versions, key)
  {
    hide History;
    if drafts != [] {
      var n := |drafts| - 1;
      DraftsExtendHistory(known, st, drafts[..n], key);
      var before := SyncDrafts(known, st, drafts[..n]).value;
      var after := SyncDrafts(known, st, drafts).value;
      if after != before {
        HistoryAppend(before.versions, after.versions[|before.versions|], key);
      }
    }
  }

  // ---------------------------------------------------------------- the store

  class RequirementStore {
    var tables: map<ProjectId, Store>

    constructor ()
      ensures tables == map[]
    {
      tables := map[];
    }

    function Of(project: ProjectId): Store
      reads this
    {
      if project in tables then tables[project] else NOTHING
    }

    /** Writes a row and its version row. */
    method Record(project: ProjectId, key: string, r: Requirement)
      modifies this
      ensures tables == old(tables)[project := Recorded(old(Of(project)), key, r)]
    {
      var st := Of(project);
      var version := VersionRow(key, r.version, r.description, r.status);
      tables := tables[project := Store(st.rows[key := r], st.versions + [version])];
    }

    /** RequirementStore.sync. */
    method Sync(project: ProjectId, drafts: seq<Draft>) returns (ok: bool)
      requires StoreOk(Of(project))
      modifies this
      ensures ok <==> !NewKeyTwice(old(Of(project)).rows.Keys, drafts)
      ensures ok ==> Synced(old(Of(project)), drafts, Of(project))
      ensures forall q :: q != project ==> Of(q) == old(Of(q))
    {
      hide StoreOk, NewKeyTwice, Retires, SyncDrafts, Follows, Dropped, DroppedFrom;
      ghost var before := Of(project);
      var existing := Of(project).rows.Keys;
      ok := SyncAll(project, existing, drafts);
      DraftsAreFollowed(before, drafts);
      if ok {
        DroppedAfterDrafts(before, drafts, Of(project));
        RetireAll(project, existing, drafts);
      }
    }

    /** The first loop: create or update one row for each draft. */
    method SyncAll(project: ProjectId, existing: set<string>, drafts: seq<Draft>) returns (ok: bool)
      modifies this
      ensures ok <==> SyncDrafts(existing, old(Of(project)), drafts).Some?
      ensures ok ==> SyncDrafts(existing, old(Of(project)), drafts) == Some(Of(project))
      ensures forall q :: q != project ==> Of(q) == old(Of(q))
    {
      for i := 0 to |drafts|
        invariant SyncDrafts(existing, old(Of(project)), drafts[..i]) == Some(Of(project))
        invariant forall q :: q != project ==> Of(q) == old(Of(q))
      {
        var d := drafts[i];
        assert drafts[..i + 1][..i] == drafts[..i];
        if d.key in existing && d.key in Of(project).rows {
          var current := Of(project).rows[d.key];
          if current.description != d.description || current.status != d.status || current.category != d.category
             || current.priority != d.priority || !current.active {
            Record(project, d.key,
              Requirement(d.description, d.status, d.category, d.priority, current.version + 1, true));
          }
        } else if d.key in Of(project).rows {
          FailureIsFinal(existing, old(Of(project)), drafts, i + 1);
          return false;
        } else {
          Record(project, d.key, Requirement(d.description, d.status, d.category, d.priority, 1, true));
        }
      }
      assert drafts[..|drafts|] == drafts;
      return true;
    }

    /** The second loop: retire the active rows that no draft names, in any order. */
    method RetireAll(project: ProjectId, existing: set<string>, drafts: seq<Draft>)
      modifies this
      ensures Retires(old(Of(project)), DroppedFrom(old(Of(project)), existing, drafts), Of(project))
      ensures forall q :: q != project ==> Of(q) == old(Of(q))
    {
      hide History, Recorded, Retires, Keys;
      ghost var st := Of(project);
      var draftKeys := Keys(drafts);
      var todo := existing;
      NothingRetired(st);
      assert DroppedFrom(st, existing - todo, drafts) == {};
      while todo != {}
        invariant todo <= existing
        invariant Retires(st, DroppedFrom(st, existing - todo, drafts), Of(project))
        invariant forall q :: q != project ==> Of(q) == old(Of(q))
        decreases todo
      {
        var key :| key in todo;
        ghost var done := DroppedFrom(st, existing - todo, drafts);
        RowsWhileRetiring(st, done, Of(project), key);
        todo := todo - {key};
        if key !in draftKeys && key in Of(project).rows && Of(project).rows[key].active {
          RetireOne(st, done, Of(project), key);
          assert DroppedFrom(st, existing - todo, drafts) == done + {key};
          var row := Of(project).rows[key];
          Record(project, key, row.(active := false, version := row.version + 1));
        } else {
          assert DroppedFrom(st, existing - todo, drafts) == done;
        }
      }
      assert existing - {} == existing;
    }
  }

  lemma NothingRetired(st: Store)
    ensures Retires(st, {}, st)
  {
    hide History;
  }

  lemma RowsWhileRetiring(st: Store, dropped: set<string>, mid: Store, key: string)
    requires Retires(st, dropped, mid)
    ensures key in mid.rows <==> key in st.rows
    ensures key in mid.rows && key !in dropped ==> mid.rows[key] == st.rows[key]
  {
    hide History;
  }

  lemma RetireOne(st: Store, dropped: set<string>, mid: Store, key: string)
    requires Retires(st, dropped, mid) && key in st.rows && key !in dropped
    ensures mid.rows[key] == st.rows[key]
    ensures Retires(st, dropped + {key}, Recorded(mid, key, Retired(st.rows[key])))
  {
    hide History;
    var next := Recorded(mid, key, Retired(st.rows[key]));
    forall k ensures History(next.versions, k) ==
                     History(mid.versions, k) + if k == key then [VersionOf(k, Retired(st.rows[k]))] else []
    {
      HistoryAppend(mid.versions, VersionOf(key, Retired(st.rows[key])), k);
    }
  }

  lemma DroppedAfterDrafts(before: Store, drafts: seq<Draft>, mid: Store)
    requires Follows(before, drafts, mid)
    ensures DroppedFrom(mid, before.rows.Keys, drafts) == Dropped(before, drafts)
  {
    hide StoreOk, Mirrors;
    forall k ensures LastDraft(drafts, k).Some? <==> k in Keys(drafts) {
      LastDraftInKeys(drafts, k);
    }
  }

  lemma {:induction false} FailureIsFinal(known: set<string>, st: Store, drafts: seq<Draft>, i: nat)
    requires i <= |drafts| && SyncDrafts(known, st, drafts[..i]).None?
    ensures SyncDrafts(known, st, drafts).None?
    decreases |drafts|
  {
    if i < |drafts| {
      assert drafts[..|drafts| - 1][..i] == drafts[..i];
      FailureIsFinal(known, st, drafts[..|drafts| - 1], i);
    } else {
      assert drafts[..i] == drafts;
    }
  }
}
