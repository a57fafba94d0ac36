/** The decision log of a project (app/project_memory/decision_log.py). */
module Decisions {
  import opened Text

  datatype Decision = Decision(key: string, title: string, decision: string, active: bool)

  const DECISION_PREFIX := "DEC-"

  /** The key of the n-th decision of a project. */
  function DecisionKey(n: nat): string {
    DECISION_PREFIX + Pad3(n)
  }

  /** Titles are cut to 200 characters. */
  function Titled(title: string): string {
    if |title| <= 200 then title else title[..200]
  }

  /** Superseded decisions keep counting, so numbers are never reused. */
  function Add(log: seq<Decision>, title: string, decision: string): seq<Decision> {
    log + [Decision(DecisionKey(|log| + 1), Titled(title), decision, true)]
  }

  function Supersede(log: seq<Decision>, i: nat): seq<Decision>
    requires i < |log|
  {
    log[i := log[i].(active := false)]
  }

  function Active(log: seq<Decision>): seq<Decision> {
    if log == [] then []
    else (if log[0].active then [log[0]] else []) + Active(log[1..])
  }

  function InsertByKey(d: Decision, ds: seq<Decision>): seq<Decision> {
    if ds == [] || Less(d.key, ds[0].key) then [d] + ds
    else [ds[0]] + InsertByKey(d, ds[1..])
  }

  function SortByKey(ds: seq<Decision>): seq<Decision> {
    if ds == [] then [] else InsertByKey(ds[0], SortByKey(ds[1..]))
  }

  /** The active decisions, ordered by key. */
  function ListActive(log: seq<Decision>): seq<Decision> {
    SortByKey(Active(log))
  }

  // ---------------------------------------------------------------- histories

  datatype LogCall = AddCall(title: string, decision: string) | SupersedeCall(index: nat)

  function Replay(calls: seq<LogCall>): seq<Decision> {
    if calls == [] then []
    else
      var log := Replay(calls[..|calls| - 1]);
      match calls[|calls| - 1]
      case AddCall(title, decision) => Add(log, title, decision)
      case SupersedeCall(i) => if i < |log| then Supersede(log, i) else log
  }

  /** The i-th decision carries the i-th number. */
  ghost predicate Numbered(log: seq<Decision>) {
    forall i :: 0 <= i < |log| ==> log[i].key == DecisionKey(i + 1)
  }

  lemma {:induction false} ReplayNumbered(calls: seq<LogCall>)
    ensures Numbered(Replay(calls))
  {
    if calls != [] {
      ReplayNumbered(calls[..|calls| - 1]);
    }
  }

  lemma NumbersDiffer(m: nat, n: nat)
    ensures DecisionKey(m) == DecisionKey(n) <==> m == n
  {
    hide Pad3;
    var a, b := DecisionKey(m), DecisionKey(n);
    if a == b {
      assert a[|DECISION_PREFIX|..] == Pad3(m) && b[|DECISION_PREFIX|..] == Pad3(n);
      Pad3Injective(m, n);
    }
  }

  /** Decision keys of a project are pairwise distinct, whatever was superseded in between. */
  lemma KeysDistinct(calls: seq<LogCall>, i: nat, j: nat)
    requires i < |Replay(calls)| && j < |Replay(calls)|
    ensures Replay(calls)[i].key == Replay(calls)[j].key <==> i == j
  {
    hide Replay, DecisionKey;
    ReplayNumbered(calls);
    NumbersDiffer(i + 1, j + 1);
  }

  ghost predicate KeysAscend(ds: seq<Decision>) {
    forall i, j :: 0 <= i < j < |ds| ==> Less(ds[i].key, ds[j].key)
  }

  lemma {:induction false} SortedIsUnchanged(ds: seq<Decision>)
    requires KeysAscend(ds)
    ensures SortByKey(ds) == ds
  {
    if ds != [] {
      SortedIsUnchanged(ds[1..]);
      assert ds == [ds[0]] + ds[1..];
      if |ds| > 1 { assert Less(ds[0].key, ds[1].key); }
    }
  }

  lemma {:induction false} ActiveMembers(log: seq<Decision>, d: Decision)
    ensures d in Active(log) <==> d in log && d.active
  {
    if log != [] {
      ActiveMembers(log[1..], d);
      assert log == [log[0]] + log[1..];
    }
  }

  /** The active decisions are in the order of their keys. */
  ghost predicate ActiveAscend(log: seq<Decision>) {
    forall i, j :: 0 <= i < j < |log| && log[i].active && log[j].active ==> Less(log[i].key, log[j].key)
  }

  lemma {:induction false} ActiveAscends(log: seq<Decision>)
    requires ActiveAscend(log)
    ensures KeysAscend(Active(log))
  {
    if log != [] {
      ActiveAscends(log[1..]);
      var rest := Active(log[1..]);
      if log[0].active {
        forall k | 0 <= k < |rest| ensures Less(log[0].key, rest[k].key) {
          ActiveMembers(log[1..], rest[k]);
          var i :| 0 <= i < |log[1..]| && log[1..][i] == rest[k];
          assert log[i + 1] == rest[k];
        }
      }
    }
  }

  /** While at most 999 decisions were added, the listing by key is the order of insertion. */
  lemma ListedInInsertionOrder(calls: seq<LogCall>)
    requires |Replay(calls)| <= 999
    ensures ListActive(Replay(calls)) == Active(Replay(calls))
  {
    var log := Replay(calls);
    ReplayNumbered(calls);
    forall i, j | 0 <= i < j < |log| ensures Less(log[i].key, log[j].key) {
      Pad3Ordered(i + 1, j + 1);
      LessAfterPrefix(DECISION_PREFIX, Pad3(i + 1), Pad3(j + 1));
    }
    ActiveAscends(log);
    SortedIsUnchanged(Active(log));
  }

  // ---------------------------------------------------------------- past 999

  ghost predicate KeysSorted(ds: seq<Decision>) {
    forall i, j :: 0 <= i < j < |ds| ==> !Less(ds[j].key, ds[i].key)
  }

  lemma {:induction false} InsertKeepsSorted(d: Decision, ds: seq<Decision>)
    requires KeysSorted(ds)
    ensures KeysSorted(InsertByKey(d, ds))
    ensures forall x :: x in InsertByKey(d, ds) ==> x == d || x in ds
  {
    if ds != [] {
      LessTotal(d.key, ds[0].key);
      if Less(d.key, ds[0].key) {
        forall j | 0 <= j < |ds| ensures !Less(ds[j].key, d.key) {
          LessTotal(ds[j].key, ds[0].key);
          if Less(ds[j].key, d.key) { LessTransitive(ds[j].key, d.key, ds[0].key); }
        }
      } else {
        InsertKeepsSorted(d, ds[1..]);
        var rest := InsertByKey(d, ds[1..]);
        forall j | 0 <= j < |rest| ensures !Less(rest[j].key, ds[0].key) {
          assert rest[j] in rest;
          if rest[j] != d {
            var k :| 0 <= k < |ds[1..]| && ds[1..][k] == rest[j];
            assert ds[k + 1] == rest[j];
          }
        }
      }
    }
  }

  lemma {:induction false} SortByKeySorts(ds: seq<Decision>)
    ensures KeysSorted(SortByKey(ds))
  {
    if ds != [] {
      SortByKeySorts(ds[1..]);
      InsertKeepsSorted(ds[0], SortByKey(ds[1..]));
    }
  }

  lemma {:induction false} ActiveOfConcat(a: seq<Decision>, b: seq<Decision>)
    ensures Active(a + b) == Active(a) + Active(b)
  {
    if a == [] {
      assert a + b == b;
    } else {
      ActiveOfConcat(a[1..], b);
      assert (a + b)[1..] == a[1..] + b && (a + b)[0] == a[0];
      var head := if a[0].active then [a[0]] else [];
      assert Active(a + b) == head + (Active(a[1..]) + Active(b));
      assert Active(a) + Active(b) == head + Active(a[1..]) + Active(b);
    }
  }

  lemma ThousandSortsFirst()
    ensures Less(DecisionKey(1000), DecisionKey(999))
  {
    assert Pad3(1000) == Pad3(100) + ['0'];
    assert Pad3(1000)[0] == '1' && Pad3(999)[0] == '9';
    LessAfterPrefix(DECISION_PREFIX, Pad3(1000), Pad3(999));
  }

  lemma {:induction false} ActivePair(log: seq<Decision>, i: nat, j: nat) returns (p: nat, q: nat)
    requires i < j < |log| && log[i].active && log[j].active
    ensures p < q < |Active(log)| && Active(log)[p] == log[i] && Active(log)[q] == log[j]
  {
    var before, after := log[..j], log[j..];
    assert log == before + after;
    ActiveOfConcat(before, after);
    ActiveMembers(before, log[i]);
    assert before[i] == log[i];
    p :| 0 <= p < |Active(before)| && Active(before)[p] == log[i];
    q := |Active(before)|;
    assert after[0] == log[j];
  }

  /** Two active decisions whose numbers read, as text, the other way round than they count. */
  ghost predicate Reversed(log: seq<Decision>, i: int, j: int) {
    0 <= i < j < |log| && log[i].active && log[j].active && Less(DecisionKey(j + 1), DecisionKey(i + 1))
  }

  lemma InOrderAscends(calls: seq<LogCall>)
    requires forall i, j :: !Reversed(Replay(calls), i, j)
    ensures ActiveAscend(Replay(calls))
  {
    hide Pad3, Replay;
    var log := Replay(calls);
    ReplayNumbered(calls);
    forall i, j | 0 <= i < j < |log| && log[i].active && log[j].active ensures Less(log[i].key, log[j].key) {
      assert !Reversed(log, i, j);
      KeysDistinct(calls, i, j);
      LessTotal(log[i].key, log[j].key);
    }
  }

  /** For every sequence of additions and supersessions, the listing by key is the order of insertion
      exactly when no two active decisions are numbered so that the later one's key sorts first. */
  lemma ListedInOrderExactly(calls: seq<LogCall>)
    ensures ListActive(Replay(calls)) == Active(Replay(calls)) <==>
            forall i, j :: !Reversed(Replay(calls), i, j)
  {
    hide Pad3, Replay, DecisionKey;
    var log := Replay(calls);
    var act := Active(log);
    ReplayNumbered(calls);
    SortByKeySorts(act);
    if ListActive(log) == act {
      forall i, j ensures !Reversed(log, i, j) {
        if 0 <= i < j < |log| && log[i].active && log[j].active {
          var p, q := ActivePair(log, i, j);
          assert !Less(act[q].key, act[p].key);
        }
      }
    } else if forall i, j :: !Reversed(log, i, j) {
      InOrderAscends(calls);
      ActiveAscends(log);
      SortedIsUnchanged(act);
    }
  }

  /** Once decisions 999 and 1000 are both active, DEC-1000 sorts before DEC-999. */
  lemma OrderBreaksAtThousand(calls: seq<LogCall>)
    requires |Replay(calls)| >= 1000 && Replay(calls)[998].active && Replay(calls)[999].active
    ensures ListActive(Replay(calls)) != Active(Replay(calls))
  {
    hide Pad3, Replay, DecisionKey, Active, SortByKey;
    ThousandSortsFirst();
    assert Reversed(Replay(calls), 998, 999);
    ListedInOrderExactly(calls);
  }

  ghost predicate AllActive(log: seq<Decision>) {
    forall i :: 0 <= i < |log| ==> log[i].active
  }

  /** In particular, for a log of which nothing was superseded, the listing is the order of insertion
      exactly while there are at most 999 decisions. */
  lemma InsertionOrderExactly(calls: seq<LogCall>)
    requires AllActive(Replay(calls))
    ensures ListActive(Replay(calls)) == Active(Replay(calls)) <==> |Replay(calls)| <= 999
  {
    if |Replay(calls)| <= 999 {
      ListedInInsertionOrder(calls);
    } else {
      OrderBreaksAtThousand(calls);
    }
  }

  // ---------------------------------------------------------------- what is listed

  lemma {:induction false} SortByKeyMembers(ds: seq<Decision>)
    ensures multiset(SortByKey(ds)) == multiset(ds)
  {
    if ds != [] {
      SortByKeyMembers(ds[1..]);
      InsertMembers(ds[0], SortByKey(ds[1..]));
      assert ds == [ds[0]] + ds[1..];
    }
  }

  lemma {:induction false} InsertMembers(d: Decision, ds: seq<Decision>)
    ensures multiset(InsertByKey(d, ds)) == multiset(ds) + multiset{d}
  {
    if ds != [] && !Less(d.key, ds[0].key) {
      InsertMembers(d, ds[1..]);
      assert ds == [ds[0]] + ds[1..];
    }
  }

  lemma ListedFromLog(log: seq<Decision>, d: Decision)
    ensures d in ListActive(log) <==> d in log && d.active
  {
    SortByKeyMembers(Active(log));
    ActiveMembers(log, d);
    assert d in ListActive(log) <==> d in multiset(ListActive(log));
    assert d in Active(log) <==> d in multiset(Active(log));
  }

  ghost predicate KeysDiffer(ds: seq<Decision>) {
    forall i, j :: 0 <= i < j < |ds| ==> ds[i].key != ds[j].key
  }

  lemma {:induction false} OnceEach(ds: seq<Decision>, d: Decision)
    requires KeysDiffer(ds)
    ensures multiset(Active(ds))[d] <= 1
  {
    if ds != [] {
      OnceEach(ds[1..], d);
      if ds[0] == d {
        ActiveMembers(ds[1..], d);
        assert forall i :: 0 <= i < |ds[1..]| ==> ds[1..][i] == ds[i + 1];
        assert d !in multiset(Active(ds[1..]));
      }
    }
  }

  lemma TwiceInMultiset(ds: seq<Decision>, i: nat, j: nat)
    requires i < j < |ds| && ds[i] == ds[j]
    ensures multiset(ds)[ds[i]] >= 2
  {
    assert ds == ds[..j] + [ds[j]] + ds[j + 1..];
    assert ds[..j][i] == ds[i] && ds[i] in multiset(ds[..j]);
  }

  /** No decision is listed twice. */
  lemma ListedOnce(log: seq<Decision>, i: nat, j: nat)
    requires Numbered(log) && i < j < |ListActive(log)|
    ensures ListActive(log)[i] != ListActive(log)[j]
  {
    hide Active, SortByKey, Pad3;
    var listed := ListActive(log);
    SortByKeyMembers(Active(log));
    forall a, b | 0 <= a < b < |log| ensures log[a].key != log[b].key {
      NumbersDiffer(a + 1, b + 1);
    }
    OnceEach(log, listed[i]);
    if listed[i] == listed[j] {
      TwiceInMultiset(listed, i, j);
    }
  }

  lemma ActiveIsListed(log: seq<Decision>, d: Decision)
    requires d in log && d.active
    ensures d in ListActive(log)
  {
    ListedFromLog(log, d);
  }

  // ---------------------------------------------------------------- the log of every project

  type ProjectId = nat

  class DecisionLog {
    var logs: map<ProjectId, seq<Decision>>

    constructor ()
      ensures logs == map[]
    {
      logs := map[];
    }

    function Of(project: ProjectId): seq<Decision>
      reads this
    {
      if project in logs then logs[project] else []
    }

    /** DecisionLog.add: the number counts every decision of the project, superseded or not. */
    method Append(project: ProjectId, title: string, decision: string) returns (entry: Decision)
      modifies this
      ensures logs == old(logs)[project := Add(old(Of(project)), title, decision)]
      ensures Of(project) == old(Of(project)) + [entry]
      ensures entry.key == "DEC-" + Pad3(|old(Of(project))| + 1) && entry.active
      ensures entry.title == (if |title| <= 200 then title else title[..200]) && entry.decision == decision
    {
      hide Pad3;
      var count := |Of(project)|;
      entry := Decision(DecisionKey(count + 1), Titled(title), decision, true);
      logs := logs[project := Of(project) + [entry]];
    }

    /** DecisionLog.supersede. */
    method Retire(project: ProjectId, i: nat)
      requires i < |Of(project)|
      modifies this
      ensures logs == old(logs)[project := Supersede(old(Of(project)), i)]
    {
      logs := logs[project := Of(project)[i := Of(project)[i].(active := false)]];
    }
  }
}
