/** The capability registry, the choice of a provider and the gap analysis
    (app/capabilities/registry.py, matcher.py, gap_analyzer.py). */
module Capabilities {
  import opened Vocabulary
  import opened Text

  datatype ProviderType = AgentProvider | McpProvider | LibraryProvider

  const AVAILABLE := "available"

  datatype ProviderSpec = ProviderSpec(name: string, type_: ProviderType, priority: int, status: string)

  datatype ProviderRow = ProviderRow(capability: string, provider: ProviderSpec)

  /** The capability rows by name and the provider rows, in any order. */
  datatype Registry = Registry(capabilities: set<string>, providers: seq<ProviderRow>)

  function TypeRank(t: ProviderType): nat {
    match t case AgentProvider => 0 case McpProvider => 1 case LibraryProvider => 2
  }

  /** Lower priority number first, then agents before MCP servers before libraries, then by name. */
  predicate Before(a: ProviderSpec, b: ProviderSpec) {
    a.priority < b.priority ||
    (a.priority == b.priority &&
     (TypeRank(a.type_) < TypeRank(b.type_) ||
      (TypeRank(a.type_) == TypeRank(b.type_) && Less(a.name, b.name))))
  }

  /** The available providers of a capability. */
  function Candidates(rows: seq<ProviderRow>, capability: string): seq<ProviderSpec> {
    if rows == [] then []
    else
      (if rows[0].capability == capability && rows[0].provider.status == AVAILABLE then [rows[0].provider] else [])
      + Candidates(rows[1..], capability)
  }

  function Best(ps: seq<ProviderSpec>): ProviderSpec
    requires ps != []
  {
    if |ps| == 1 then ps[0]
    else
      var rest := Best(ps[1..]);
      if Before(rest, ps[0]) then rest else ps[0]
  }

  function MatchOne(reg: Registry, capability: string): Option<ProviderSpec> {
    var ps := Candidates(reg.providers, capability);
    if capability in reg.capabilities && ps != [] then Some(Best(ps)) else None
  }

  /** CapabilityMatcher.match: one entry for each required name. */
  method Match(reg: Registry, required: seq<string>) returns (m: map<string, Option<ProviderSpec>>)
    ensures m == map name | name in required :: MatchOne(reg, name)
  {
    m := map[];
    for i := 0 to |required|
      invariant m == map name | name in required[..i] :: MatchOne(reg, name)
    {
      m := m[required[i] := MatchOne(reg, required[i])];
      assert required[..i + 1] == required[..i] + [required[i]];
    }
    assert required[..|required|] == required;
  }

  function Unmatched(reg: Registry, required: seq<string>): seq<string> {
    if required == [] then []
    else (if MatchOne(reg, required[0]).None? then [required[0]] else []) + Unmatched(reg, required[1..])
  }

  /** GapAnalyzer.analyze: the distinct required names without a provider, sorted. */
  function Missing(reg: Registry, required: seq<string>): seq<string> {
    SortedNames(Unmatched(reg, required))
  }

  lemma {:induction false} UnmatchedMembers(reg: Registry, required: seq<string>, name: string)
    ensures name in Unmatched(reg, required) <==> name in required && MatchOne(reg, name).None?
  {
    hide MatchOne;
    if required != [] {
      UnmatchedMembers(reg, required[1..], name);
      assert required == [required[0]] + required[1..];
    }
  }

  /** The gap is exactly the required names without a match, each once and in order. */
  lemma MissingIsTheGap(reg: Registry, required: seq<string>)
    ensures Ascending(Missing(reg, required))
    ensures forall name :: name in Missing(reg, required) <==> name in required && MatchOne(reg, name).None?
  {
    hide MatchOne;
    SortedNamesAscending(Unmatched(reg, required));
    forall name ensures name in Unmatched(reg, required) <==> name in required && MatchOne(reg, name).None? {
      UnmatchedMembers(reg, required, name);
    }
  }

  // ---------------------------------------------------------------- the best provider

  ghost predicate Offers(reg: Registry, capability: string, p: ProviderSpec) {
    ProviderRow(capability, p) in reg.providers && p.status == AVAILABLE
  }

  lemma {:induction false} CandidateMembers(rows: seq<ProviderRow>, capability: string, p: ProviderSpec)
    ensures p in Candidates(rows, capability) <==> ProviderRow(capability, p) in rows && p.status == AVAILABLE
  {
    if rows != [] {
      CandidateMembers(rows[1..], capability, p);
      assert rows == [rows[0]] + rows[1..];
    }
  }

  lemma BeforeTotal(a: ProviderSpec, b: ProviderSpec)
    requires a.name != b.name
    ensures Before(a, b) <==> !Before(b, a)
  {
    LessTotal(a.name, b.name);
  }

  lemma NotBothBefore(a: ProviderSpec, b: ProviderSpec)
    ensures !(Before(a, b) && Before(b, a))
  {
    LessTotal(a.name, b.name);
  }

  lemma BeforeTransitive(a: ProviderSpec, b: ProviderSpec, c: ProviderSpec)
    requires Before(a, b) && Before(b, c)
    ensures Before(a, c)
  {
    if Less(a.name, b.name) && Less(b.name, c.name) {
      LessTransitive(a.name, b.name, c.name);
    }
  }

  ghost predicate IsLeast(ps: seq<ProviderSpec>, best: ProviderSpec) {
    best in ps && forall p :: p in ps && p != best ==> Before(best, p)
  }

  ghost predicate NamesDistinct(ps: seq<ProviderSpec>) {
    forall p, q :: p in ps && q in ps && p.name == q.name ==> p == q
  }

  lemma {:induction false} BestIsLeast(ps: seq<ProviderSpec>)
    requires ps != [] && NamesDistinct(ps)
    ensures IsLeast(ps, Best(ps))
  {
    hide Before;
    if |ps| > 1 {
      assert ps == [ps[0]] + ps[1..];
      BestIsLeast(ps[1..]);
      var rest := Best(ps[1..]);
      forall p | p in ps && p != Best(ps) ensures Before(Best(ps), p) {
        if Before(rest, ps[0]) {
        } else if rest != ps[0] {
          BeforeTotal(rest, ps[0]);
          if p != rest && p != ps[0] { BeforeTransitive(ps[0], rest, p); }
        }
      }
    }
  }

  /** No two provider rows share a capability and a name (the table's unique constraint). */
  ghost predicate RowsUnique(rows: seq<ProviderRow>) {
    forall i, j :: 0 <= i < j < |rows| ==> !SameKey(rows[i], rows[j])
  }

  predicate SameKey(a: ProviderRow, b: ProviderRow) {
    a.capability == b.capability && a.provider.name == b.provider.name
  }

  lemma SameKeySameRow(rows: seq<ProviderRow>, a: ProviderRow, b: ProviderRow)
    requires RowsUnique(rows) && a in rows && b in rows && SameKey(a, b)
    ensures a == b
  {
    var i :| 0 <= i < |rows| && rows[i] == a;
    var j :| 0 <= j < |rows| && rows[j] == b;
    assert SameKey(rows[i], rows[j]) && SameKey(rows[j], rows[i]);
  }

  /** The match is the first of the available providers under the order above, and is none exactly
      when the capability is unknown or has no available provider. */
  lemma MatchIsFirst(reg: Registry, capability: string)
    requires RowsUnique(reg.providers)
    ensures
      match MatchOne(reg, capability)
      case None => capability !in reg.capabilities || forall p :: !Offers(reg, capability, p)
      case Some(best) =>
        && capability in reg.capabilities
        && Offers(reg, capability, best)
        && (forall p :: Offers(reg, capability, p) && p != best ==> Before(best, p))
  {
    hide Before, Best, Candidates;
    var ps := Candidates(reg.providers, capability);
    forall p ensures p in ps <==> Offers(reg, capability, p) {
      CandidateMembers(reg.providers, capability, p);
    }
    if ps != [] {
      forall p, q | p in ps && q in ps && p.name == q.name ensures p == q {
        assert Offers(reg, capability, p) && Offers(reg, capability, q);
        SameKeySameRow(reg.providers, ProviderRow(capability, p), ProviderRow(capability, q));
      }
      BestIsLeast(ps);
    } else {
      forall p ensures !Offers(reg, capability, p) { assert p !in ps; }
    }
  }

  /** In numbers: no available provider has a smaller priority number; among those of equal priority none
      is of an earlier type (agents come before MCP servers, and these before libraries); among those of
      equal type none has a smaller name. */
  lemma MatchInNumbers(reg: Registry, capability: string, p: ProviderSpec)
    requires RowsUnique(reg.providers) && ProviderRow(capability, p) in reg.providers && p.status == "available"
    requires capability in reg.capabilities
    ensures
      && MatchOne(reg, capability).Some?
      && var best := MatchOne(reg, capability).value;
      && ProviderRow(capability, best) in reg.providers && best.status == "available"
      && best.priority <= p.priority
      && (best.priority == p.priority ==>
            && (p.type_ == AgentProvider ==> best.type_ == AgentProvider)
            && (best.type_ == LibraryProvider ==> p.type_ == LibraryProvider)
            && (best.type_ == p.type_ ==> best == p || Less(best.name, p.name)))
  {
    hide MatchOne, RowsUnique;
    assert Offers(reg, capability, p);
    MatchIsFirst(reg, capability);
  }

  lemma SameOffersSameMatch(a: Registry, b: Registry, capability: string)
    requires RowsUnique(a.providers) && RowsUnique(b.providers)
    requires capability in a.capabilities <==> capability in b.capabilities
    requires forall p :: Offers(a, capability, p) <==> Offers(b, capability, p)
    ensures MatchOne(a, capability) == MatchOne(b, capability)
  {
    hide Before, MatchOne;
    MatchIsFirst(a, capability);
    MatchIsFirst(b, capability);
    var p, q := MatchOne(a, capability), MatchOne(b, capability);
    if p.Some? {
      assert Offers(b, capability, p.value);
      assert q.Some?;
      if p != q { NotBothBefore(p.value, q.value); }
    }
  }

  /** The choice does not depend on the order in which the rows are read. */
  lemma MatchIgnoresRowOrder(a: Registry, b: Registry, capability: string)
    requires RowsUnique(a.providers) && RowsUnique(b.providers)
    requires a.capabilities == b.capabilities && (forall r :: r in a.providers <==> r in b.providers)
    ensures MatchOne(a, capability) == MatchOne(b, capability)
  {
    hide MatchOne;
    forall p ensures Offers(a, capability, p) <==> Offers(b, capability, p) {
      assert ProviderRow(capability, p) in a.providers <==> ProviderRow(capability, p) in b.providers;
    }
    SameOffersSameMatch(a, b, capability);
  }

  /** Nothing is missing exactly when every required name is matched. */
  lemma NothingMissing(reg: Registry, required: seq<string>)
    ensures Missing(reg, required) == [] <==> forall c :: c in required ==> Matched(reg, c)
  {
    hide MatchOne, Missing;
    MissingIsTheGap(reg, required);
    var gap := Missing(reg, required);
    if gap != [] {
      assert gap[0] in gap;
    }
  }

  // ---------------------------------------------------------------- registration

  function Put(rows: seq<ProviderRow>, row: ProviderRow): seq<ProviderRow> {
    if rows == [] then [row]
    else if SameKey(rows[0], row) then [row] + rows[1..]
    else [rows[0]] + Put(rows[1..], row)
  }

  function PutAll(rows: seq<ProviderRow>, capability: string, specs: seq<ProviderSpec>): seq<ProviderRow> {
    if specs == [] then rows
    else Put(PutAll(rows, capability, specs[..|specs| - 1]), ProviderRow(capability, specs[|specs| - 1]))
  }

  /** CapabilityRegistry.upsert: the capability exists afterwards, and each named provider is
      created or overwritten. */
  function Upserted(reg: Registry, capability: string, specs: seq<ProviderSpec>): Registry {
    Registry(reg.capabilities + {capability}, PutAll(reg.providers, capability, specs))
  }

  lemma {:induction false} PutRows(rows: seq<ProviderRow>, row: ProviderRow)
    requires RowsUnique(rows)
    ensures RowsUnique(Put(rows, row))
    ensures forall r :: r in Put(rows, row) <==> r == row || (r in rows && !SameKey(r, row))
  {
    if rows != [] {
      var rest := rows[1..];
      assert rows == [rows[0]] + rest;
      forall r | r in rest ensures !SameKey(rows[0], r) {
        var i :| 0 <= i < |rest| && rest[i] == r;
        assert rows[i + 1] == r;
      }
      if !SameKey(rows[0], row) {
        PutRows(rest, row);
        HeadStaysUnique(rows[0], Put(rest, row));
      } else {
        HeadStaysUnique(row, rest);
      }
    }
  }

  lemma HeadStaysUnique(head: ProviderRow, rest: seq<ProviderRow>)
    requires RowsUnique(rest) && forall r :: r in rest ==> !SameKey(head, r)
    ensures RowsUnique([head] + rest)
  {
    var rows := [head] + rest;
    forall i, j | 0 <= i < j < |rows| ensures !SameKey(rows[i], rows[j]) {
      assert rows[j] == rest[j - 1] && rest[j - 1] in rest;
      assert i > 0 ==> rows[i] == rest[i - 1];
    }
  }

  predicate Matched(reg: Registry, capability: string) {
    MatchOne(reg, capability).Some?
  }

  lemma MatchedMeansOffered(reg: Registry, capability: string)
    ensures Matched(reg, capability) <==> capability in reg.capabilities && exists p :: Offers(reg, capability, p)
  {
    hide Best, Candidates;
    var ps := Candidates(reg.providers, capability);
    forall p ensures p in ps <==> Offers(reg, capability, p) {
      CandidateMembers(reg.providers, capability, p);
    }
    if ps != [] { assert ps[0] in ps; }
  }

  /** Registering an available provider makes its capability matched, leaves the match of every other
      capability alone, and so never makes a matched capability missing. */
  lemma RegisteringMatches(reg: Registry, capability: string, spec: ProviderSpec, other: string)
    requires RowsUnique(reg.providers) && spec.status == AVAILABLE
    ensures
      var after := Upserted(reg, capability, [spec]);
      && RowsUnique(after.providers)
      && Matched(after, capability)
      && (other != capability ==> MatchOne(after, other) == MatchOne(reg, other))
  {
    hide MatchOne, Put;
    var after := Upserted(reg, capability, [spec]);
    var row := ProviderRow(capability, spec);
    PutAllSingle(reg.providers, capability, spec);
    PutRows(reg.providers, row);
    assert Offers(after, capability, spec);
    MatchedMeansOffered(after, capability);
    if other != capability {
      forall p ensures Offers(reg, other, p) <==> Offers(after, other, p) {
        assert ProviderRow(other, p) in after.providers <==> ProviderRow(other, p) in reg.providers;
      }
      SameOffersSameMatch(reg, after, other);
    }
  }

  lemma PutAllSingle(rows: seq<ProviderRow>, capability: string, spec: ProviderSpec)
    ensures PutAll(rows, capability, [spec]) == Put(rows, ProviderRow(capability, spec))
  {
    assert [spec][..0] == [];
  }

  // ---------------------------------------------------------------- the registry and its configuration

  /** One capability of the configuration file. */
  datatype CapabilitySpec = CapabilitySpec(name: string, providers: seq<ProviderSpec>)

  predicate HasKey(rows: seq<ProviderRow>, row: ProviderRow) {
    exists r :: r in rows && SameKey(r, row)
  }

  /** A provider that a spec names twice has a row already. */
  ghost predicate TwiceOnlyIfKnown(rows: seq<ProviderRow>, spec: CapabilitySpec) {
    forall i, j :: 0 <= i < j < |spec.providers| && spec.providers[i].name == spec.providers[j].name ==>
      HasKey(rows, ProviderRow(spec.name, spec.providers[j]))
  }

  lemma {:induction false} PutAbsent(rows: seq<ProviderRow>, row: ProviderRow)
    requires !HasKey(rows, row)
    ensures Put(rows, row) == rows + [row]
  {
    if rows != [] {
      assert rows[0] in rows;
      assert forall r :: r in rows[1..] ==> r in rows;
      PutAbsent(rows[1..], row);
      assert rows == [rows[0]] + rows[1..];
    }
  }

  lemma {:induction false} PutPresent(rows: seq<ProviderRow>, row: ProviderRow)
    requires RowsUnique(rows) && row in rows
    ensures Put(rows, row) == rows
  {
    assert rows == [rows[0]] + rows[1..];
    if SameKey(rows[0], row) {
      SameKeySameRow(rows, rows[0], row);
    } else {
      PutPresent(rows[1..], row);
    }
  }

  lemma {:induction false} PutAllKeys(rows: seq<ProviderRow>, capability: string, specs: seq<ProviderSpec>,
      row: ProviderRow)
    requires RowsUnique(rows)
    ensures RowsUnique(PutAll(rows, capability, specs))
    ensures HasKey(PutAll(rows, capability, specs), row) <==>
            HasKey(rows, row) || (row.capability == capability && exists p :: p in specs && p.name == row.provider.name)
  {
    hide Put;
    if specs != [] {
      var n := |specs| - 1;
      var before := PutAll(rows, capability, specs[..n]);
      var last := ProviderRow(capability, specs[n]);
      PutAllKeys(rows, capability, specs[..n], row);
      PutRows(before, last);
      assert specs == specs[..n] + [specs[n]];
      if SameKey(last, row) { assert last in Put(before, last); }
      if HasKey(before, row) && !SameKey(last, row) {
        var r :| r in before && SameKey(r, row);
        assert r in Put(before, last);
      }
    }
  }

  function FirstOf(spec: CapabilitySpec, n: nat): CapabilitySpec
    requires n <= |spec.providers|
  {
    spec.(providers := spec.providers[..n])
  }

  ghost predicate NamedBefore(ps: seq<ProviderSpec>, i: nat)
    requires i < |ps|
  {
    exists a :: 0 <= a < i && ps[a].name == ps[i].name
  }

  lemma OneMore(rows: seq<ProviderRow>, spec: CapabilitySpec, i: nat)
    requires i < |spec.providers| && TwiceOnlyIfKnown(rows, FirstOf(spec, i))
    ensures TwiceOnlyIfKnown(rows, FirstOf(spec, i + 1)) <==>
      (NamedBefore(spec.providers, i) ==> HasKey(rows, ProviderRow(spec.name, spec.providers[i])))
    ensures TwiceOnlyIfKnown(rows, spec) ==> TwiceOnlyIfKnown(rows, FirstOf(spec, i + 1))
  {
    hide HasKey;
    var ps, first, next := spec.providers, FirstOf(spec, i).providers, FirstOf(spec, i + 1).providers;
    assert forall a :: 0 <= a < i ==> first[a] == ps[a] == next[a];
    assert next[i] == ps[i];
  }

  lemma NothingTwice(rows: seq<ProviderRow>, spec: CapabilitySpec)
    ensures TwiceOnlyIfKnown(rows, FirstOf(spec, 0))
  {}

  lemma NamedBeforeInPrefix(ps: seq<ProviderSpec>, i: nat)
    requires i < |ps|
    ensures NamedBefore(ps, i) <==> exists p :: p in ps[..i] && p.name == ps[i].name
  {
    forall a | 0 <= a < i ensures ps[a] in ps[..i] {
      assert ps[..i][a] == ps[a];
    }
  }

  function KnownNames(rows: seq<ProviderRow>, capability: string): set<string> {
    set r | r in rows && r.capability == capability :: r.provider.name
  }

  lemma KnownNamesAreKeys(rows: seq<ProviderRow>, row: ProviderRow)
    ensures row.provider.name in KnownNames(rows, row.capability) <==> HasKey(rows, row)
  {
    if row.provider.name in KnownNames(rows, row.capability) {
      var r :| r in rows && r.capability == row.capability && r.provider.name == row.provider.name;
      assert SameKey(r, row);
    }
  }

  class CapabilityRegistry {
    var capabilities: set<string>
    var providers: seq<ProviderRow>

    function Reg(): Registry
      reads this
    {
      Registry(capabilities, providers)
    }

    constructor ()
      ensures Reg() == Registry({}, [])
    {
      capabilities, providers := {}, [];
    }

    /** Fails on the unique constraint exactly when the spec names a new provider twice; the rows
        that exist are read once, before the loop. */
    method Upsert(spec: CapabilitySpec) returns (ok: bool)
      requires RowsUnique(providers)
      modifies this
      ensures ok <==> TwiceOnlyIfKnown(old(providers), spec)
      ensures ok ==> Reg() == Upserted(old(Reg()), spec.name, spec.providers) && RowsUnique(providers)
    {
      hide Put, RowsUnique, SameKey, HasKey, TwiceOnlyIfKnown, NamedBefore;
      NothingTwice(providers, spec);
      capabilities := capabilities + {spec.name};
      ghost var rows := providers;
      var existing := KnownNames(providers, spec.name);
      for i := 0 to |spec.providers|
        invariant capabilities == old(capabilities) + {spec.name}
        invariant providers == PutAll(rows, spec.name, spec.providers[..i]) && RowsUnique(providers)
        invariant TwiceOnlyIfKnown(rows, FirstOf(spec, i))
      {
        var row := ProviderRow(spec.name, spec.providers[i]);
        assert spec.providers[..i + 1][..i] == spec.providers[..i];
        KnownNamesAreKeys(rows, row);
        PutAllKeys(rows, spec.name, spec.providers[..i], row);
        PutRows(providers, row);
        OneMore(rows, spec, i);
        NamedBeforeInPrefix(spec.providers, i);
        if row.provider.name in existing {
          providers := Put(providers, row);
        } else if HasKey(providers, row) {
          return false;
        } else {
          PutAbsent(providers, row);
          providers := providers + [row];
        }
      }
      assert spec.providers[..|spec.providers|] == spec.providers;
      assert FirstOf(spec, |spec.providers|) == spec;
      return true;
    }

    /** CapabilityRegistry.sync_from_config on the parsed file. */
    method Sync(specs: seq<CapabilitySpec>) returns (ok: bool)
      requires RowsUnique(providers)
      modifies this
      ensures WellFormed(specs) ==> ok
      ensures ok ==> Reg() == SyncAll(old(Reg()), specs) && RowsUnique(providers)
    {
      for i := 0 to |specs|
        invariant Reg() == SyncAll(old(Reg()), specs[..i]) && RowsUnique(providers)
      {
        ghost var rows := providers;
        ok := Upsert(specs[i]);
        if !ok {
          assert specs[i] in specs;
          return;
        }
        assert specs[..i + 1][..i] == specs[..i];
      }
      assert specs[..|specs|] == specs;
      return true;
    }

    /** An empty registry is filled from the configuration. */
    method EnsureSeeded(specs: seq<CapabilitySpec>) returns (ok: bool)
      requires RowsUnique(providers)
      modifies this
      ensures WellFormed(specs) ==> ok
      ensures ok ==> Reg() == Seeded(old(Reg()), specs) && RowsUnique(providers)
      ensures ok ==> Reg() == if old(capabilities) == {} then SyncAll(old(Reg()), specs) else old(Reg())
    {
      ok := true;
      if |capabilities| == 0 {
        ok := Sync(specs);
      }
    }
  }

  /** The file maps each capability name to one body, and no body names a provider twice. */
  ghost predicate WellFormed(specs: seq<CapabilitySpec>) {
    && (forall i, j :: 0 <= i < j < |specs| ==> specs[i].name != specs[j].name)
    && (forall s :: s in specs ==> NamedOnce(s.providers))
  }

  ghost predicate NamedOnce(ps: seq<ProviderSpec>) {
    forall i, j :: 0 <= i < j < |ps| ==> ps[i].name != ps[j].name
  }

  function SyncAll(reg: Registry, specs: seq<CapabilitySpec>): Registry {
    if specs == [] then reg
    else
      var last := specs[|specs| - 1];
      Upserted(SyncAll(reg, specs[..|specs| - 1]), last.name, last.providers)
  }

  function Seeded(reg: Registry, specs: seq<CapabilitySpec>): Registry {
    if |reg.capabilities| == 0 then SyncAll(reg, specs) else reg
  }

  lemma {:induction false} PutAllRows(rows: seq<ProviderRow>, capability: string, specs: seq<ProviderSpec>)
    requires RowsUnique(rows) && NamedOnce(specs)
    ensures RowsUnique(PutAll(rows, capability, specs))
    ensures forall p :: p in specs ==> ProviderRow(capability, p) in PutAll(rows, capability, specs)
    ensures forall r :: r in rows && r.capability != capability ==> r in PutAll(rows, capability, specs)
  {
    hide Put;
    if specs != [] {
      var n := |specs| - 1;
      PutAllRows(rows, capability, specs[..n]);
      PutRows(PutAll(rows, capability, specs[..n]), ProviderRow(capability, specs[n]));
      assert specs == specs[..n] + [specs[n]];
    }
  }

  ghost predicate Holds(reg: Registry, spec: CapabilitySpec) {
    spec.name in reg.capabilities && forall p :: p in spec.providers ==> ProviderRow(spec.name, p) in reg.providers
  }

  lemma {:induction false} SyncHolds(reg: Registry, specs: seq<CapabilitySpec>)
    requires RowsUnique(reg.providers) && WellFormed(specs)
    ensures RowsUnique(SyncAll(reg, specs).providers)
    ensures forall s :: s in specs ==> Holds(SyncAll(reg, specs), s)
  {
    hide PutAll;
    if specs != [] {
      var n := |specs| - 1;
      var before := SyncAll(reg, specs[..n]);
      assert specs == specs[..n] + [specs[n]];
      SyncHolds(reg, specs[..n]);
      PutAllRows(before.providers, specs[n].name, specs[n].providers);
      forall s | s in specs[..n] ensures Holds(SyncAll(reg, specs), s) {
        assert Holds(before, s);
        assert s.name != specs[n].name;
      }
    }
  }

  lemma {:induction false} PutAllPresent(rows: seq<ProviderRow>, capability: string, specs: seq<ProviderSpec>)
    requires RowsUnique(rows) && forall p :: p in specs ==> ProviderRow(capability, p) in rows
    ensures PutAll(rows, capability, specs) == rows
  {
    hide Put;
    if specs != [] {
      PutAllPresent(rows, capability, specs[..|specs| - 1]);
      PutPresent(rows, ProviderRow(capability, specs[|specs| - 1]));
    }
  }

  lemma {:induction false} SyncOfHeld(reg: Registry, specs: seq<CapabilitySpec>)
    requires RowsUnique(reg.providers) && forall s :: s in specs ==> Holds(reg, s)
    ensures SyncAll(reg, specs) == reg
  {
    hide PutAll;
    if specs != [] {
      var last := specs[|specs| - 1];
      SyncOfHeld(reg, specs[..|specs| - 1]);
      assert Holds(reg, last);
      PutAllPresent(reg.providers, last.name, last.providers);
      assert reg.capabilities + {last.name} == reg.capabilities;
    }
  }

  /** Synchronising from the configuration is idempotent. */
  lemma SyncIsIdempotent(reg: Registry, specs: seq<CapabilitySpec>)
    requires RowsUnique(reg.providers) && WellFormed(specs)
    ensures SyncAll(SyncAll(reg, specs), specs) == SyncAll(reg, specs)
  {
    hide SyncAll;
    SyncHolds(reg, specs);
    SyncOfHeld(SyncAll(reg, specs), specs);
  }
}
