/** The expansion pipeline: planning a proposal for each missing capability, judging it, recording
    it, and activating what was approved (app/expansion/planner.py, app/expansion/service.py,
    app/mcp/connection.py, app/mcp/registry.py). */
module Expansions {
  import opened Vocabulary
  import opened Policy
  import opened Capabilities

  type ProjectId = nat

  datatype ServerStatus = ApprovedServer | ProposedServer | BlockedServer | DisabledServer

  datatype Server = Server(status: ServerStatus, risk: RiskLevel, data: DataClass, externalNetwork: bool)

  datatype UsageType = ReadonlyActivate | WriteActivate | NewExternal | NewServer

  const MCP := "MCP_CONNECTION"

  /** One resolution of the expansion catalog. */
  datatype CatalogEntry = CatalogEntry(strategy: string, server: string, write: bool)

  datatype Planned = Planned(capability: string, proposal: Proposal, strategy: string,
                             usage: Option<UsageType>, server: Option<string>)

  datatype Judged = Judged(planned: Planned, judgment: Judgment)

  datatype ProposalStatus = AutoApproved | PendingUser | PendingExpert | ApprovedExpansion | BlockedExpansion

  datatype ProposalRow = ProposalRow(project: ProjectId, kind: ProposalType, name: string,
                                     judgment: Judgment, signals: Proposal, status: ProposalStatus)

  /** What planning looks up. */
  datatype Plans = Plans(catalog: map<string, CatalogEntry>, allowed: set<string>)

  // ---------------------------------------------------------------- planning

  function Usage(s: Server, isNew: bool, write: bool): UsageType {
    if isNew && s.externalNetwork then NewServer
    else if isNew then NewExternal
    else if write then WriteActivate
    else ReadonlyActivate
  }

  /** A proposal of this kind and name without any risk signal. */
  function Plain(kind: ProposalType, name: string): Proposal {
    Proposal(kind, name, false, true, false, false, false, false, false, false, false, false, false,
             false, false, false, false, false, false, Low, Internal)
  }

  function ConnectionProposal(id: string, s: Server, allowed: bool, write: bool): Proposal {
    var isNew := s.status != ApprovedServer;
    Plain(McpConnection, id).(
      writeAccess := write,
      inAllowlist := allowed,
      newExternalConnection := isNew,
      externalNetworkServer := isNew && s.externalNetwork,
      risk := s.risk,
      data := s.data)
  }

  function Unplanned(capability: string, strategy: string): Planned {
    Planned(capability, Plain(McpConnection, capability).(newExternalConnection := true), strategy, None, None)
  }

  function PlanFor(plans: Plans, servers: map<string, Server>, capability: string): Planned {
    if capability !in plans.catalog then Unplanned(capability, "UNKNOWN")
    else
      var entry := plans.catalog[capability];
      if entry.strategy != MCP then Unplanned(capability, entry.strategy)
      else if entry.server !in servers then Unplanned(capability, MCP)
      else
        var s := servers[entry.server];
        Planned(capability, ConnectionProposal(entry.server, s, entry.server in plans.allowed, entry.write), MCP,
                Some(Usage(s, s.status != ApprovedServer, entry.write)), Some(entry.server))
  }

  /** Every planned proposal is a fresh connection, so dropping its server from the allowlist, alone or
      with any raised signal, never lowers its decision. */
  lemma PlannedAreFresh(plans: Plans, servers: map<string, Server>, capability: string)
    ensures IsFreshConnection(PlanFor(plans, servers, capability).proposal)
    ensures forall q: Proposal :: RaisesOrLeaves(PlanFor(plans, servers, capability).proposal, q) ==>
              Severity(Judge(PlanFor(plans, servers, capability).proposal).decision) <= Severity(Judge(q).decision)
  {
    hide Judge, RaisesOrLeaves;
    var p := PlanFor(plans, servers, capability).proposal;
    forall q: Proposal | RaisesOrLeaves(p, q) ensures Severity(Judge(p).decision) <= Severity(Judge(q).decision) {
      LeavingNeverLowersConnections(p, q);
    }
  }

  predicate HasPlan(plans: Plans, servers: map<string, Server>, capability: string) {
    capability in plans.catalog && plans.catalog[capability].strategy == MCP &&
    plans.catalog[capability].server in servers
  }

  function DecisionFor(plans: Plans, servers: map<string, Server>, capability: string): PolicyDecision {
    Judge(PlanFor(plans, servers, capability).proposal).decision
  }

  /** The decision on a missing capability, from the catalog, the server and the allowlist alone. In
      particular a capability without a plan always needs an expert, and only a read-only, low-risk
      use of an approved and allowlisted server is automatic. */
  lemma PlanDecision(plans: Plans, servers: map<string, Server>, capability: string)
    ensures DecisionFor(plans, servers, capability) ==
      if !HasPlan(plans, servers, capability) then ExpertRequired
      else
        var entry := plans.catalog[capability];
        var s := servers[entry.server];
        var sensitive := s.data == Confidential || s.risk == High;
        if s.status != ApprovedServer then
          if s.externalNetwork then AutoBlocked
          else if entry.server in plans.allowed then UserApproval
          else if sensitive then AutoBlocked
          else ExpertRequired
        else if entry.server in plans.allowed && !entry.write && s.risk == Low && s.data != Confidential
        then AutoApprove
        else UserApproval
  {
    hide Judge;
    DecisionBySignals(PlanFor(plans, servers, capability).proposal);
  }

  /** What each usage type can be decided: a new server is always blocked, a new external connection
      passes to the user exactly when it is allowlisted, writing to an approved server is always the
      user's choice, and only reading from one can be automatic. */
  lemma UsageDecides(plans: Plans, servers: map<string, Server>, capability: string)
    requires HasPlan(plans, servers, capability)
    ensures
      var decision := DecisionFor(plans, servers, capability);
      match PlanFor(plans, servers, capability).usage
      case Some(NewServer) => decision == AutoBlocked
      case Some(NewExternal) =>
        decision != AutoApprove && (decision == UserApproval <==> plans.catalog[capability].server in plans.allowed)
      case Some(WriteActivate) => decision == UserApproval
      case Some(ReadonlyActivate) => decision == AutoApprove || decision == UserApproval
      case None => false
  {
    hide Judge;
    PlanDecision(plans, servers, capability);
  }

  function StatusFor(d: PolicyDecision): ProposalStatus {
    match d
    case AutoApprove => AutoApproved
    case UserApproval => PendingUser
    case ExpertRequired => PendingExpert
    case AutoBlocked => BlockedExpansion
  }

  function JudgeOne(plans: Plans, servers: map<string, Server>, capability: string): Judged {
    var planned := PlanFor(plans, servers, capability);
    Judged(planned, Judge(planned.proposal))
  }

  function JudgeAll(plans: Plans, servers: map<string, Server>, missing: seq<string>): seq<Judged> {
    seq(|missing|, i requires 0 <= i < |missing| => JudgeOne(plans, servers, missing[i]))
  }

  function RecordOf(project: ProjectId, j: Judged): ProposalRow {
    ProposalRow(project, j.planned.proposal.kind, j.planned.capability, j.judgment, j.planned.proposal,
                StatusFor(j.judgment.decision))
  }

  /** A proposal row of a project for a capability, with the status that follows from its decision. */
  predicate RecordedAs(r: ProposalRow, project: ProjectId, capability: string, decision: PolicyDecision) {
    && r.project == project && r.name == capability && r.kind == McpConnection
    && r.judgment.decision == decision
    && (r.status == AutoApproved <==> decision == AutoApprove)
    && (r.status == PendingUser <==> decision == UserApproval)
    && (r.status == PendingExpert <==> decision == ExpertRequired)
    && (r.status == BlockedExpansion <==> decision == AutoBlocked)
  }

  /** The i-th row that planning records belongs to the project, names the i-th missing capability, and
      its status follows from the catalog, the server and the allowlist alone. */
  lemma RecordedByPlan(plans: Plans, servers: map<string, Server>, project: ProjectId, missing: seq<string>, i: nat)
    requires i < |missing|
    ensures
      var r := RecordsOf(project, JudgeAll(plans, servers, missing))[i];
      var c := missing[i];
      && r.project == project && r.name == c && r.kind == McpConnection
      && r.judgment == Judge(r.signals)
      && r.status ==
           if !HasPlan(plans, servers, c) then PendingExpert
           else
             var entry := plans.catalog[c];
             var s := servers[entry.server];
             var sensitive := s.data == Confidential || s.risk == High;
             if s.status != ApprovedServer then
               if s.externalNetwork then BlockedExpansion
               else if entry.server in plans.allowed then PendingUser
               else if sensitive then BlockedExpansion
               else PendingExpert
             else if entry.server in plans.allowed && !entry.write && s.risk == Low && s.data != Confidential
             then AutoApproved
             else PendingUser
  {
    hide Judge;
    PlanDecision(plans, servers, missing[i]);
  }

  /** The signals that planning records: for an unplanned capability a new external connection of its
      own name without any other signal, and otherwise those of the planned server. */
  lemma RecordedSignals(plans: Plans, servers: map<string, Server>, project: ProjectId, missing: seq<string>, i: nat)
    requires i < |missing|
    ensures
      var c := missing[i];
      var p := RecordsOf(project, JudgeAll(plans, servers, missing))[i].signals;
      && p.kind == McpConnection && !p.reuseExisting && p.projectScoped
      && !p.accessesSecret && !p.bypassesPolicy && !p.modifiesCore && !p.modifiesSystemPrompt
      && !p.adminPrivilege && !p.mvpBlockedDomain && !p.createsCredentials && !p.permissionEscalation
      && !p.orgWideRegistration && !p.newModelAdapter && !p.largeArchitectureChange
      && if !HasPlan(plans, servers, c) then
           && p.name == c && !p.writeAccess && !p.inAllowlist && p.newExternalConnection && !p.externalNetworkServer
           && p.risk == Low && p.data == Internal
         else
           var entry := plans.catalog[c];
           var s := servers[entry.server];
           && p.name == entry.server && p.writeAccess == entry.write && p.inAllowlist == (entry.server in plans.allowed)
           && p.newExternalConnection == (s.status != ApprovedServer)
           && p.externalNetworkServer == (s.status != ApprovedServer && s.externalNetwork)
           && p.risk == s.risk && p.data == s.data
  {
    hide Judge;
  }

  /** A plan keeps its capability, names the catalog's strategy, and a server only when it found one. */
  lemma PlanLooksUp(plans: Plans, servers: map<string, Server>, capability: string)
    ensures
      var r := PlanFor(plans, servers, capability);
      && r.capability == capability
      && r.strategy == (if capability in plans.catalog then plans.catalog[capability].strategy else "UNKNOWN")
      && r.server == if HasPlan(plans, servers, capability) then Some(plans.catalog[capability].server) else None
  {}

  lemma RecordsFit(plans: Plans, servers: map<string, Server>, project: ProjectId, missing: seq<string>)
    ensures forall i :: 0 <= i < |missing| ==>
      RecordedAs(RecordsOf(project, JudgeAll(plans, servers, missing))[i], project, missing[i],
                 DecisionFor(plans, servers, missing[i]))
  {
    hide Judge;
  }

  function RecordsOf(project: ProjectId, judged: seq<Judged>): seq<ProposalRow> {
    seq(|judged|, i requires 0 <= i < |judged| => RecordOf(project, judged[i]))
  }

  lemma JudgeNone(plans: Plans, servers: map<string, Server>, missing: seq<string>)
    ensures JudgeAll(plans, servers, missing[..0]) == []
  {}

  lemma JudgeOneMore(plans: Plans, servers: map<string, Server>, missing: seq<string>, i: nat)
    requires i < |missing|
    ensures JudgeAll(plans, servers, missing[..i + 1]) ==
            JudgeAll(plans, servers, missing[..i]) + [JudgeOne(plans, servers, missing[i])]
  {
    hide JudgeOne;
  }

  function DecisionsOf(judged: seq<Judged>): seq<PolicyDecision> {
    seq(|judged|, i requires 0 <= i < |judged| => judged[i].judgment.decision)
  }

  /** The aggregate decision on a list of missing capabilities never drops when signals of the planned
      proposals are raised or their servers leave the allowlist. */
  lemma RaisingNeverLowersPlans(plans: Plans, servers: map<string, Server>, missing: seq<string>, qs: seq<Proposal>)
    requires |qs| == |missing|
    requires forall i :: 0 <= i < |missing| ==>
      RaisesOrLeaves(PlanFor(plans, servers, missing[i]).proposal, qs[i])
    ensures Severity(Aggregate(DecisionsOf(JudgeAll(plans, servers, missing)))) <= Severity(Aggregate(Decisions(qs)))
  {
    hide Judge, Aggregate, RaisesOrLeaves, PlanFor, IsFreshConnection;
    var ps := seq(|missing|, i requires 0 <= i < |missing| => PlanFor(plans, servers, missing[i]).proposal);
    forall i | 0 <= i < |ps| ensures IsFreshConnection(ps[i]) && RaisesOrLeaves(ps[i], qs[i]) {
      PlannedAreFresh(plans, servers, missing[i]);
    }
    assert Decisions(ps) == DecisionsOf(JudgeAll(plans, servers, missing));
    RaisingNeverLowersAggregate(ps, qs);
  }

  // ---------------------------------------------------------------- activation

  /** The MCP servers and the capability registry. */
  datatype Assets = Assets(servers: map<string, Server>, registry: Registry)

  /** A provider registered by an activation. */
  function ServerProvider(server: string): ProviderSpec {
    ProviderSpec(server, McpProvider, 50, AVAILABLE)
  }

  function ApproveServer(servers: map<string, Server>, id: string): map<string, Server> {
    if id in servers then servers[id := servers[id].(status := ApprovedServer)] else servers
  }

  function ActivateOne(a: Assets, capability: string, server: string): Assets {
    Assets(ApproveServer(a.servers, server), Upserted(a.registry, capability, [ServerProvider(server)]))
  }

  predicate Activates(j: Judged)
    ensures Activates(j) ==> j.planned.server.Some?
  {
    j.judgment.decision == AutoApprove && j.planned.strategy == MCP &&
    j.planned.server.Some? && j.planned.server.value != ""
  }

  function ActivateAll(a: Assets, judged: seq<Judged>): Assets {
    if judged == [] then a
    else
      var n := |judged| - 1;
      var before := ActivateAll(a, judged[..n]);
      if Activates(judged[n]) then ActivateOne(before, judged[n].planned.capability, judged[n].planned.server.value)
      else before
  }

  /** The capabilities that an activation reports. */
  function ActivatedNames(judged: seq<Judged>): seq<string> {
    if judged == [] then []
    else
      var n := |judged| - 1;
      ActivatedNames(judged[..n]) + (if Activates(judged[n]) then [judged[n].planned.capability] else [])
  }

  predicate IsPending(row: ProposalRow, project: ProjectId) {
    row.project == project && (row.status == PendingUser || row.status == PendingExpert)
  }

  predicate Connects(row: ProposalRow, project: ProjectId) {
    IsPending(row, project) && row.kind == McpConnection && row.signals.name != ""
  }

  function ApproveRow(row: ProposalRow, project: ProjectId): ProposalRow {
    if IsPending(row, project) then row.(status := ApprovedExpansion) else row
  }

  function ApproveAll(a: Assets, project: ProjectId, rows: seq<ProposalRow>): Assets {
    if rows == [] then a
    else
      var n := |rows| - 1;
      var before := ApproveAll(a, project, rows[..n]);
      if Connects(rows[n], project) then ActivateOne(before, rows[n].name, rows[n].signals.name) else before
  }

  function ConnectedNames(project: ProjectId, rows: seq<ProposalRow>): seq<string> {
    if rows == [] then []
    else
      var n := |rows| - 1;
      ConnectedNames(project, rows[..n]) + (if Connects(rows[n], project) then [rows[n].name] else [])
  }

  // ---------------------------------------------------------------- what activation achieves

  lemma ActivateOneMatches(a: Assets, capability: string, server: string)
    requires RowsUnique(a.registry.providers)
    ensures
      var after := ActivateOne(a, capability, server);
      && RowsUnique(after.registry.providers)
      && Matched(after.registry, capability)
      && (forall c :: c != capability ==> MatchOne(after.registry, c) == MatchOne(a.registry, c))
      && (forall c :: Matched(a.registry, c) ==> Matched(after.registry, c))
  {
    hide MatchOne, RowsUnique, Upserted;
    RegisteringMatches(a.registry, capability, ServerProvider(server), capability);
    forall c | c != capability
      ensures MatchOne(ActivateOne(a, capability, server).registry, c) == MatchOne(a.registry, c)
    {
      RegisteringMatches(a.registry, capability, ServerProvider(server), c);
    }
  }

  /** After the activation of judged proposals, a capability is matched exactly when it was before or
      some activated proposal is for it; the matches of all other capabilities stay what they were. */
  lemma {:induction false} ActivationMatches(a: Assets, judged: seq<Judged>)
    requires RowsUnique(a.registry.providers)
    ensures
      var after := ActivateAll(a, judged);
      && RowsUnique(after.registry.providers)
      && (forall c ::
            if exists j :: j in judged && Activates(j) && j.planned.capability == c
            then Matched(after.registry, c)
            else MatchOne(after.registry, c) == MatchOne(a.registry, c))
      && (forall c :: Matched(a.registry, c) ==> Matched(after.registry, c))
  {
    hide MatchOne, RowsUnique, ActivateOne, Activates;
    if judged != [] {
      var n := |judged| - 1;
      ActivationMatches(a, judged[..n]);
      assert judged == judged[..n] + [judged[n]];
      var before := ActivateAll(a, judged[..n]);
      if Activates(judged[n]) {
        ActivateOneMatches(before, judged[n].planned.capability, judged[n].planned.server.value);
      }
    }
  }

  lemma AllAutomatic(judged: seq<Judged>)
    requires Aggregate(DecisionsOf(judged)) == AutoApprove
    ensures forall j :: j in judged ==> j.judgment.decision == AutoApprove
  {
    hide Aggregate;
    var ds := DecisionsOf(judged);
    AggregateIsMaximum(ds);
    forall j | j in judged ensures j.judgment.decision == AutoApprove {
      var i :| 0 <= i < |judged| && judged[i] == j;
      assert ds[i] in ds;
    }
  }

  predicate PlannedOnNameless(plans: Plans, servers: map<string, Server>, capability: string) {
    HasPlan(plans, servers, capability) && plans.catalog[capability].server == ""
  }

  lemma OneJudgmentEach(plans: Plans, servers: map<string, Server>, missing: seq<string>, c: string)
    requires c in missing
    ensures JudgeOne(plans, servers, c) in JudgeAll(plans, servers, missing)
    ensures forall j :: j in JudgeAll(plans, servers, missing) && j.planned.capability == c ==>
        j == JudgeOne(plans, servers, c)
  {
    hide Judge;
    var judged := JudgeAll(plans, servers, missing);
    var i :| 0 <= i < |missing| && missing[i] == c;
    assert judged[i] in judged;
    forall j | j in judged && j.planned.capability == c ensures j == judged[i] {
      var k :| 0 <= k < |judged| && judged[k] == j;
      assert judged[k].planned.capability == missing[k];
    }
  }

  lemma AutomaticActivates(plans: Plans, servers: map<string, Server>, c: string)
    requires JudgeOne(plans, servers, c).judgment.decision == AutoApprove
    ensures JudgeOne(plans, servers, c).planned.capability == c
    ensures Activates(JudgeOne(plans, servers, c)) <==> !PlannedOnNameless(plans, servers, c)
  {
    hide Judge;
    PlanDecision(plans, servers, c);
  }

  /** Automatic expansion closes the gap. When the aggregate decision on a list of missing
      capabilities is AUTO_APPROVE, the gap analysis of the same list after the activation misses
      exactly those that the catalog resolves to a server registered under the empty id (the
      activation skips them). */
  lemma AutoExpansionClosesGap(plans: Plans, a: Assets, missing: seq<string>)
    requires RowsUnique(a.registry.providers)
    requires forall c :: c in missing ==> !Matched(a.registry, c)
    requires Aggregate(DecisionsOf(JudgeAll(plans, a.servers, missing))) == AutoApprove
    ensures
      var after := ActivateAll(a, JudgeAll(plans, a.servers, missing));
      && (forall c :: c in Missing(after.registry, missing) <==> c in missing && PlannedOnNameless(plans, a.servers, c))
      && ("" !in a.servers ==> Missing(after.registry, missing) == [])
  {
    hide JudgeOne, JudgeAll, Activates, HasPlan, PlannedOnNameless, MatchOne, RowsUnique, Missing, Aggregate,
         ActivateAll;
    var judged := JudgeAll(plans, a.servers, missing);
    var after := ActivateAll(a, judged);
    ActivationMatches(a, judged);
    AllAutomatic(judged);
    MissingIsTheGap(after.registry, missing);
    forall c | c in missing
      ensures (exists j :: j in judged && Activates(j) && j.planned.capability == c) <==>
              !PlannedOnNameless(plans, a.servers, c)
    {
      OneJudgmentEach(plans, a.servers, missing, c);
      assert JudgeOne(plans, a.servers, c).judgment.decision == AutoApprove;
      AutomaticActivates(plans, a.servers, c);
    }
    var gap := Missing(after.registry, missing);
    if gap != [] {
      assert gap[0] in gap;
      NamelessIsRegistered(plans, a.servers, gap[0]);
    }
  }

  /** The same for the whole list that was required: once the missing ones are activated
      automatically, nothing of the list is missing. */
  lemma AutoExpansionSatisfies(plans: Plans, a: Assets, required: seq<string>)
    requires RowsUnique(a.registry.providers) && "" !in a.servers
    requires Aggregate(DecisionsOf(JudgeAll(plans, a.servers, Missing(a.registry, required)))) == AutoApprove
    ensures
      var after := ActivateAll(a, JudgeAll(plans, a.servers, Missing(a.registry, required)));
      Missing(after.registry, required) == [] && after.servers == a.servers
  {
    hide Judge, MatchOne, RowsUnique, Missing, Aggregate, ActivateAll, JudgeAll, Activates;
    var missing := Missing(a.registry, required);
    var after := ActivateAll(a, JudgeAll(plans, a.servers, missing));
    MissingIsTheGap(a.registry, required);
    AutoExpansionClosesGap(plans, a, missing);
    ActivationKeepsServers(plans, a, missing);
    ActivationMatches(a, JudgeAll(plans, a.servers, missing));
    NothingMissing(after.registry, missing);
    NothingMissing(after.registry, required);
    forall c | c in required ensures Matched(after.registry, c) {
      assert Matched(a.registry, c) || c in missing;
    }
  }

  lemma NamelessIsRegistered(plans: Plans, servers: map<string, Server>, c: string)
    requires PlannedOnNameless(plans, servers, c)
    ensures "" in servers
  {}

  const NAMELESS_PLANS := Plans(map["read" := CatalogEntry(MCP, "", false)], {""})
  const NAMELESS_SERVERS := map["" := Server(ApprovedServer, Low, Internal, false)]

  /** Such a plan: a capability resolved to a server registered under the empty id is judged automatic,
      and the activation leaves it missing. */
  lemma NamelessStaysMissing()
    ensures
      var judged := JudgeAll(NAMELESS_PLANS, NAMELESS_SERVERS, ["read"]);
      var after := ActivateAll(Assets(NAMELESS_SERVERS, Registry({}, [])), judged);
      && Aggregate(DecisionsOf(judged)) == AutoApprove
      && "read" in Missing(after.registry, ["read"])
  {
    hide Judge, Missing, Aggregate, ActivateAll, MatchOne;
    var a := Assets(NAMELESS_SERVERS, Registry({}, []));
    var judged := JudgeAll(NAMELESS_PLANS, NAMELESS_SERVERS, ["read"]);
    PlanDecision(NAMELESS_PLANS, NAMELESS_SERVERS, "read");
    MatchedMeansOffered(a.registry, "read");
    AggregateIsMaximum(DecisionsOf(judged));
    assert DecisionsOf(judged) == [AutoApprove];
    AutoExpansionClosesGap(NAMELESS_PLANS, a, ["read"]);
  }

  /** An automatic activation only registers servers that are approved already, so no server's
      status changes. */
  lemma {:induction false} ActivationKeepsServers(plans: Plans, a: Assets, missing: seq<string>)
    ensures ActivateAll(a, JudgeAll(plans, a.servers, missing)).servers == a.servers
  {
    hide Judge, Upserted;
    if missing != [] {
      var n := |missing| - 1;
      var judged := JudgeAll(plans, a.servers, missing);
      ActivationKeepsServers(plans, a, missing[..n]);
      assert judged[..n] == JudgeAll(plans, a.servers, missing[..n]);
      PlanDecision(plans, a.servers, missing[n]);
    }
  }

  // ---------------------------------------------------------------- approval of what is pending

  /** Approving a project's pending rows makes every capability that one of them connects matched,
      leaves every other match as it was, and so makes no matched capability missing. */
  lemma {:induction false} ApprovalMatches(a: Assets, project: ProjectId, rows: seq<ProposalRow>)
    requires RowsUnique(a.registry.providers)
    ensures
      var after := ApproveAll(a, project, rows);
      && RowsUnique(after.registry.providers)
      && (forall c ::
            if exists r :: r in rows && Connects(r, project) && r.name == c
            then Matched(after.registry, c)
            else MatchOne(after.registry, c) == MatchOne(a.registry, c))
      && (forall c :: Matched(a.registry, c) ==> Matched(after.registry, c))
  {
    hide MatchOne, RowsUnique, ActivateOne, Connects;
    if rows != [] {
      var n := |rows| - 1;
      ApprovalMatches(a, project, rows[..n]);
      assert rows == rows[..n] + [rows[n]];
      var before := ApproveAll(a, project, rows[..n]);
      if Connects(rows[n], project) {
        ActivateOneMatches(before, rows[n].name, rows[n].signals.name);
      }
    }
  }

  /** The servers that become approved are exactly the registered ones that a connecting row names;
      nothing else about any server changes. */
  lemma {:induction false} ApprovalOfServers(a: Assets, project: ProjectId, rows: seq<ProposalRow>, id: string)
    ensures
      var after := ApproveAll(a, project, rows);
      && after.servers.Keys == a.servers.Keys
      && (id in a.servers ==>
            after.servers[id] ==
              if exists r :: r in rows && Connects(r, project) && r.signals.name == id
              then a.servers[id].(status := ApprovedServer)
              else a.servers[id])
  {
    hide Connects, Upserted;
    if rows != [] {
      var n := |rows| - 1;
      ApprovalOfServers(a, project, rows[..n], id);
      assert rows == rows[..n] + [rows[n]];
    }
  }

  /** The name that the proposal for a capability carries: its planned server, or itself. */
  function TargetName(plans: Plans, servers: map<string, Server>, capability: string): string {
    if HasPlan(plans, servers, capability) then plans.catalog[capability].server else capability
  }

  /** A row as plan_and_judge records it. */
  predicate FromPlanner(plans: Plans, servers: map<string, Server>, r: ProposalRow) {
    r.kind == McpConnection && r.signals.name == TargetName(plans, servers, r.name)
  }

  /** A recorded proposal names a registered server exactly when its capability has a plan or happens
      to be called like one. */
  lemma RecordsNameServersExactly(plans: Plans, servers: map<string, Server>, project: ProjectId, missing: seq<string>)
    ensures forall r :: r in RecordsOf(project, JudgeAll(plans, servers, missing)) ==>
      && FromPlanner(plans, servers, r)
      && (r.signals.name in servers <==> HasPlan(plans, servers, r.name) || r.name in servers)
  {
    hide JudgeOne, RecordOf, FromPlanner, HasPlan;
    var records := RecordsOf(project, JudgeAll(plans, servers, missing));
    forall r | r in records
      ensures FromPlanner(plans, servers, r)
      ensures r.signals.name in servers <==> HasPlan(plans, servers, r.name) || r.name in servers
    {
      var i :| 0 <= i < |records| && records[i] == r;
      RecordNamesTarget(plans, servers, project, missing[i]);
    }
  }

  lemma RecordNamesTarget(plans: Plans, servers: map<string, Server>, project: ProjectId, capability: string)
    ensures
      var r := RecordOf(project, JudgeOne(plans, servers, capability));
      && r.name == capability && FromPlanner(plans, servers, r)
      && (r.signals.name in servers <==> HasPlan(plans, servers, capability) || capability in servers)
  {
    hide Judge;
  }

  lemma ConnectingOffers(a: Assets, capability: string, server: string)
    requires RowsUnique(a.registry.providers)
    ensures
      var after := ActivateOne(a, capability, server);
      && ProviderRow(capability, ServerProvider(server)) in after.registry.providers
      && forall c, s :: ProviderRow(c, ServerProvider(s)) in a.registry.providers ==>
           ProviderRow(c, ServerProvider(s)) in after.registry.providers
  {
    hide Put, RowsUnique;
    PutAllSingle(a.registry.providers, capability, ServerProvider(server));
    PutRows(a.registry.providers, ProviderRow(capability, ServerProvider(server)));
  }

  lemma {:induction false} ApprovalOffers(a: Assets, project: ProjectId, rows: seq<ProposalRow>)
    requires RowsUnique(a.registry.providers)
    ensures forall r :: r in rows && Connects(r, project) ==>
      ProviderRow(r.name, ServerProvider(r.signals.name)) in ApproveAll(a, project, rows).registry.providers
  {
    hide ActivateOne, Connects, RowsUnique, ServerProvider, MatchOne;
    if rows != [] {
      var n := |rows| - 1;
      ApprovalOffers(a, project, rows[..n]);
      ApprovalMatches(a, project, rows[..n]);
      assert rows == rows[..n] + [rows[n]];
      if Connects(rows[n], project) {
        ConnectingOffers(ApproveAll(a, project, rows[..n]), rows[n].name, rows[n].signals.name);
      }
    }
  }

  /** What an approval registers, for all pending rows: each capability gets a provider with the name of
      its target, and that provider is a registered server exactly when the capability has a plan or is
      called like one; then the server is approved. */
  lemma ApprovalRegistersExactly(plans: Plans, a: Assets, project: ProjectId, rows: seq<ProposalRow>)
    requires RowsUnique(a.registry.providers)
    requires forall r :: r in rows && IsPending(r, project) ==> FromPlanner(plans, a.servers, r)
    ensures
      var after := ApproveAll(a, project, rows);
      forall r :: r in rows && IsPending(r, project) && TargetName(plans, a.servers, r.name) != "" ==>
        var target := TargetName(plans, a.servers, r.name);
        && Offers(after.registry, r.name, ProviderSpec(target, McpProvider, 50, "available"))
        && (target in after.servers <==> HasPlan(plans, a.servers, r.name) || r.name in a.servers)
        && (target in after.servers ==> after.servers[target].status == ApprovedServer)
  {
    hide Put, RowsUnique, ApproveAll, MatchOne;
    ApprovalOffers(a, project, rows);
    forall r | r in rows && IsPending(r, project) && TargetName(plans, a.servers, r.name) != ""
      ensures
        var target := TargetName(plans, a.servers, r.name);
        var after := ApproveAll(a, project, rows);
        && after.servers.Keys == a.servers.Keys
        && (target in after.servers ==> after.servers[target].status == ApprovedServer)
    {
      assert Connects(r, project);
      ApprovalOfServers(a, project, rows, TargetName(plans, a.servers, r.name));
    }
  }

  /** So an unplanned capability that an expert lets pass gets a provider of its own name: a server that
      does not exist, unless one is called like the capability, and that one is approved. */
  lemma UnplannedIsRegisteredUnderItsOwnName(plans: Plans, a: Assets, project: ProjectId, capability: string)
    requires RowsUnique(a.registry.providers) && !HasPlan(plans, a.servers, capability) && capability != ""
    ensures
      var row := RecordOf(project, JudgeOne(plans, a.servers, capability));
      var after := ApproveAll(a, project, [row]);
      && row.status == PendingExpert
      && Offers(after.registry, capability, ProviderSpec(capability, McpProvider, 50, "available"))
      && Matched(after.registry, capability)
      && (capability in after.servers <==> capability in a.servers)
      && (capability in a.servers ==> after.servers[capability].status == ApprovedServer)
  {
    hide Judge, MatchOne, RowsUnique, ApproveAll;
    var row := RecordOf(project, JudgeOne(plans, a.servers, capability));
    PlanDecision(plans, a.servers, capability);
    ApprovalRegistersExactly(plans, a, project, [row]);
    ApprovalMatches(a, project, [row]);
    ApprovalOfServers(a, project, [row], capability);
    assert row in [row] && Connects(row, project);
  }

  // ---------------------------------------------------------------- what is reported

  /** The reported capabilities are those of the automatic proposals that name a server. */
  lemma {:induction false} ReportedActivations(judged: seq<Judged>, c: string)
    ensures c in ActivatedNames(judged) <==>
      exists j :: j in judged && j.planned.capability == c && j.judgment.decision == AutoApprove &&
                  j.planned.strategy == "MCP_CONNECTION" && j.planned.server.Some? && j.planned.server.value != ""
  {
    if judged != [] {
      var n := |judged| - 1;
      ReportedActivations(judged[..n], c);
      assert judged == judged[..n] + [judged[n]];
    }
  }

  /** The reported capabilities are those that a pending row of the project connects. */
  lemma {:induction false} ReportedApprovals(project: ProjectId, rows: seq<ProposalRow>, c: string)
    ensures c in ConnectedNames(project, rows) <==>
      exists r :: r in rows && r.name == c && r.project == project && r.kind == McpConnection &&
                  (r.status == PendingUser || r.status == PendingExpert) && r.signals.name != ""
  {
    if rows != [] {
      var n := |rows| - 1;
      ReportedApprovals(project, rows[..n], c);
      assert rows == rows[..n] + [rows[n]];
    }
  }

  // ---------------------------------------------------------------- what an approval leaves missing

  /** Some row of the project connects the capability. */
  ghost predicate Connected(rows: seq<ProposalRow>, project: ProjectId, capability: string) {
    exists r :: r in rows && Connects(r, project) && r.name == capability
  }

  /** An approval leaves missing exactly what was missing and no pending row connects. */
  lemma ApprovalLeavesMissing(a: Assets, project: ProjectId, rows: seq<ProposalRow>, required: seq<string>, c: string)
    requires RowsUnique(a.registry.providers)
    ensures
      var after := ApproveAll(a, project, rows);
      && (Matched(after.registry, c) <==> Matched(a.registry, c) || Connected(rows, project, c))
      && (c in Missing(after.registry, required) <==>
            c in Missing(a.registry, required) && !Connected(rows, project, c))
  {
    hide MatchOne, RowsUnique, ApproveAll, Missing, Connects;
    ApprovalMatches(a, project, rows);
    MissingIsTheGap(a.registry, required);
    MissingIsTheGap(ApproveAll(a, project, rows).registry, required);
  }

  lemma ApprovalMatchesExactly(a: Assets, project: ProjectId, rows: seq<ProposalRow>)
    requires RowsUnique(a.registry.providers)
    ensures forall c :: Matched(ApproveAll(a, project, rows).registry, c) <==>
              Matched(a.registry, c) || Connected(rows, project, c)
  {
    hide Matched, RowsUnique, ApproveAll, Connected;
    forall c
      ensures Matched(ApproveAll(a, project, rows).registry, c) <==>
              Matched(a.registry, c) || Connected(rows, project, c)
    {
      ApprovalLeavesMissing(a, project, rows, [], c);
    }
  }

  /** The members of a mixed plan that an approval leaves missing: those that were judged automatic (an
      automatic member is activated only when the whole plan is), those that were blocked, and those
      without a name to connect. */
  lemma MixedPlanLeavesMissing(plans: Plans, servers: map<string, Server>, a: Assets, project: ProjectId,
      missing: seq<string>, c: string)
    requires RowsUnique(a.registry.providers) && c in missing && !Matched(a.registry, c)
    ensures
      var after := ApproveAll(a, project, RecordsOf(project, JudgeAll(plans, servers, missing)));
      c in Missing(after.registry, missing) <==>
        || DecisionFor(plans, servers, c) == AutoApprove
        || DecisionFor(plans, servers, c) == AutoBlocked
        || TargetName(plans, servers, c) == ""
  {
    hide MatchOne, RowsUnique, ApproveAll, Missing, Judge, TargetName, PlanFor;
    var judged := JudgeAll(plans, servers, missing);
    var rows := RecordsOf(project, judged);
    ApprovalLeavesMissing(a, project, rows, missing, c);
    MissingIsTheGap(a.registry, missing);
    RecordsNameServersExactly(plans, servers, project, missing);
    PlannedKeepsName(plans, servers, c);
    var i :| 0 <= i < |missing| && missing[i] == c;
    assert rows[i] in rows && rows[i].name == c by { PlannedKeepsName(plans, servers, missing[i]); }
    forall r | r in rows && r.name == c ensures r == rows[i] {
      var k :| 0 <= k < |rows| && rows[k] == r;
      PlannedKeepsName(plans, servers, missing[k]);
    }
    assert Connected(rows, project, c) <==> Connects(rows[i], project);
  }

  lemma PlannedKeepsName(plans: Plans, servers: map<string, Server>, c: string)
    ensures PlanFor(plans, servers, c).capability == c
  {}

  // ---------------------------------------------------------------- the service

  class ExpansionService {
    const plans: Plans
    const serverSeeds: map<string, Server>
    const registry: CapabilityRegistry
    var servers: map<string, Server>
    var proposals: seq<ProposalRow>

    constructor (plans: Plans, serverSeeds: map<string, Server>, registry: CapabilityRegistry)
      ensures this.plans == plans && this.serverSeeds == serverSeeds && this.registry == registry
      ensures servers == map[] && proposals == []
    {
      this.plans, this.serverSeeds, this.registry := plans, serverSeeds, registry;
      servers, proposals := map[], [];
    }

    function Current(): Assets
      reads this, registry
    {
      Assets(servers, registry.Reg())
    }

    /** An empty server table is filled from the configuration; then each capability is planned,
        judged and recorded, and the most severe decision is the answer. */
    method PlanAndJudge(project: ProjectId, missing: seq<string>)
      returns (decision: PolicyDecision, judged: seq<Judged>)
      modifies this
      ensures servers == if old(servers) == map[] then serverSeeds else old(servers)
      ensures judged == JudgeAll(plans, servers, missing)
      ensures decision == Aggregate(DecisionsOf(judged))
      ensures proposals == old(proposals) + RecordsOf(project, judged)
      ensures |proposals| == |old(proposals)| + |missing|
      ensures forall i :: 0 <= i < |missing| ==>
        RecordedAs(proposals[|old(proposals)| + i], project, missing[i], DecisionFor(plans, servers, missing[i]))
    {
      hide PlanFor, Judge, RecordOf, JudgeAll, RecordedAs;
      if servers == map[] {
        servers := serverSeeds;
      }
      judged := [];
      JudgeNone(plans, servers, missing);
      for i := 0 to |missing|
        invariant servers == if old(servers) == map[] then serverSeeds else old(servers)
        invariant judged == JudgeAll(plans, servers, missing[..i]) && |judged| == i
        invariant proposals == old(proposals) + RecordsOf(project, judged)
      {
        JudgeOneMore(plans, servers, missing, i);
        assert RecordsOf(project, judged + [JudgeOne(plans, servers, missing[i])]) ==
               RecordsOf(project, judged) + [RecordOf(project, JudgeOne(plans, servers, missing[i]))];
        var planned := PlanFor(plans, servers, missing[i]);
        var judgment := Decide(planned.proposal);
        var j := Judged(planned, judgment);
        proposals := proposals + [RecordOf(project, j)];
        judged := judged + [j];
      }
      assert missing[..|missing|] == missing;
      RecordsFit(plans, servers, project, missing);
      decision := Aggregate(DecisionsOf(judged));
    }

    /** ExpansionService.activate, which reports the capabilities it activated. */
    method Activate(judged: seq<Judged>) returns (activated: seq<string>)
      requires RowsUnique(registry.providers)
      modifies this`servers, registry
      ensures Current() == ActivateAll(old(Current()), judged) && activated == ActivatedNames(judged)
      ensures RowsUnique(registry.providers)
    {
      activated := [];
      for i := 0 to |judged|
        invariant Current() == ActivateAll(old(Current()), judged[..i]) && RowsUnique(registry.providers)
        invariant activated == ActivatedNames(judged[..i])
      {
        assert judged[..i + 1][..i] == judged[..i];
        if Activates(judged[i]) {
          Connect(judged[i].planned.capability, judged[i].planned.server.value);
          activated := activated + [judged[i].planned.capability];
        }
      }
      assert judged[..|judged|] == judged;
    }

    method Connect(capability: string, server: string)
      requires RowsUnique(registry.providers)
      modifies this`servers, registry
      ensures Current() == ActivateOne(old(Current()), capability, server)
      ensures RowsUnique(registry.providers)
    {
      if server in servers {
        servers := servers[server := servers[server].(status := ApprovedServer)];
      }
      var ok := registry.Upsert(CapabilitySpec(capability, [ServerProvider(server)]));
      assert ok;
    }

    /** ExpansionService.approve_pending: exactly the project's pending rows become approved,
        and the capabilities that were connected are reported. */
    method ApprovePending(project: ProjectId) returns (activated: seq<string>)
      requires RowsUnique(registry.providers)
      modifies this, registry
      ensures |proposals| == |old(proposals)|
      ensures forall i :: 0 <= i < |proposals| ==> proposals[i] == ApproveRow(old(proposals)[i], project)
      ensures forall i :: 0 <= i < |proposals| ==>
        var was := old(proposals)[i];
        if was.project == project && (was.status == PendingUser || was.status == PendingExpert)
        then proposals[i] == was.(status := ApprovedExpansion)
        else proposals[i] == was
      ensures Current() == ApproveAll(old(Current()), project, old(proposals))
      ensures activated == ConnectedNames(project, old(proposals))
      ensures RowsUnique(registry.providers)
    {
      hide ActivateOne;
      activated := [];
      for i := 0 to |proposals|
        invariant |proposals| == |old(proposals)|
        invariant forall k :: 0 <= k < i ==> proposals[k] == ApproveRow(old(proposals)[k], project)
        invariant forall k :: i <= k < |proposals| ==> proposals[k] == old(proposals)[k]
        invariant Current() == ApproveAll(old(Current()), project, old(proposals)[..i])
        invariant activated == ConnectedNames(project, old(proposals)[..i])
        invariant RowsUnique(registry.providers)
      {
        ghost var rows := old(proposals);
        assert rows[..i + 1][..i] == rows[..i] && rows[..i + 1][i] == rows[i];
        if IsPending(proposals[i], project) {
          if proposals[i].kind == McpConnection && proposals[i].signals.name != "" {
            Connect(proposals[i].name, proposals[i].signals.name);
            activated := activated + [proposals[i].name];
          }
          proposals := proposals[i := proposals[i].(status := ApprovedExpansion)];
        }
      }
      assert old(proposals)[..|old(proposals)|] == old(proposals);
    }
  }
}
