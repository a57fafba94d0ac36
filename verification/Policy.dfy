/** The policy engine: an ordered ladder of rules, the first match of which decides
    (app/policy/engine.py, app/policy/schemas.py), and the aggregate over several proposals. */
module Policy {
  import opened Vocabulary

  datatype ProposalType = AgentProposal | McpConnection
  datatype RiskLevel = Low | Medium | High
  datatype DataClass = Public | Internal | Confidential

  /** The risk signals of one expansion proposal. */
  datatype Proposal = Proposal(
    kind: ProposalType,
    name: string,
    reuseExisting: bool,
    projectScoped: bool,
    accessesSecret: bool,
    bypassesPolicy: bool,
    modifiesCore: bool,
    modifiesSystemPrompt: bool,
    adminPrivilege: bool,
    mvpBlockedDomain: bool,
    createsCredentials: bool,
    permissionEscalation: bool,
    orgWideRegistration: bool,
    newModelAdapter: bool,
    largeArchitectureChange: bool,
    writeAccess: bool,
    inAllowlist: bool,
    newExternalConnection: bool,
    externalNetworkServer: bool,
    risk: RiskLevel,
    data: DataClass)

  datatype Rule =
    | BlockPolicyBypass | BlockCore | BlockSystemPrompt | BlockAdminPrivilege | BlockSecretAccess
    | BlockExternalNetworkServer | BlockMvpDomain | BlockConfidentialExternal
    | ExpertNewCredentials | ExpertPermissionEscalation | ExpertOrgWideRegistration
    | ExpertNewModelAdapter | ExpertLargeArchitecture | ExpertExternalNotAllowlisted
    | UserAllowlistedWrite | UserAllowlistedExternal
    | AutoReuseExisting | AutoReadonlyLowRisk | AutoProjectScopedAgent

  const RULES: seq<Rule> :=
    [BlockPolicyBypass, BlockCore, BlockSystemPrompt, BlockAdminPrivilege, BlockSecretAccess,
     BlockExternalNetworkServer, BlockMvpDomain, BlockConfidentialExternal,
     ExpertNewCredentials, ExpertPermissionEscalation, ExpertOrgWideRegistration,
     ExpertNewModelAdapter, ExpertLargeArchitecture, ExpertExternalNotAllowlisted,
     UserAllowlistedWrite, UserAllowlistedExternal,
     AutoReuseExisting, AutoReadonlyLowRisk, AutoProjectScopedAgent]

  function DecisionOf(r: Rule): PolicyDecision {
    match r
    case BlockPolicyBypass | BlockCore | BlockSystemPrompt | BlockAdminPrivilege | BlockSecretAccess
       | BlockExternalNetworkServer | BlockMvpDomain | BlockConfidentialExternal => AutoBlocked
    case ExpertNewCredentials | ExpertPermissionEscalation | ExpertOrgWideRegistration
       | ExpertNewModelAdapter | ExpertLargeArchitecture | ExpertExternalNotAllowlisted => ExpertRequired
    case UserAllowlistedWrite | UserAllowlistedExternal => UserApproval
    case AutoReuseExisting | AutoReadonlyLowRisk | AutoProjectScopedAgent => AutoApprove
  }

  predicate Matches(r: Rule, p: Proposal) {
    match r
    case BlockPolicyBypass => p.bypassesPolicy
    case BlockCore => p.modifiesCore
    case BlockSystemPrompt => p.modifiesSystemPrompt
    case BlockAdminPrivilege => p.adminPrivilege
    case BlockSecretAccess => p.accessesSecret
    case BlockExternalNetworkServer => p.externalNetworkServer
    case BlockMvpDomain => p.mvpBlockedDomain
    case BlockConfidentialExternal =>
      p.newExternalConnection && !p.inAllowlist && (p.data == Confidential || p.risk == High)
    case ExpertNewCredentials => p.createsCredentials
    case ExpertPermissionEscalation => p.permissionEscalation
    case ExpertOrgWideRegistration => p.orgWideRegistration
    case ExpertNewModelAdapter => p.newModelAdapter
    case ExpertLargeArchitecture => p.largeArchitectureChange
    case ExpertExternalNotAllowlisted => p.newExternalConnection && !p.inAllowlist
    case UserAllowlistedWrite => p.writeAccess && p.inAllowlist
    case UserAllowlistedExternal => p.newExternalConnection && p.inAllowlist
    case AutoReuseExisting => p.reuseExisting
    case AutoReadonlyLowRisk =>
      !p.writeAccess && p.inAllowlist && !p.newExternalConnection && p.risk == Low && p.data != Confidential
    case AutoProjectScopedAgent =>
      p.kind == AgentProposal && p.projectScoped && !p.accessesSecret && !p.permissionEscalation
  }

  function Severity(d: PolicyDecision): nat {
    match d
    case AutoApprove => 0
    case UserApproval => 1
    case ExpertRequired => 2
    case AutoBlocked => 3
  }

  /** The decision, and the rule that made it; no rule means the fallback. */
  datatype Judgment = Judgment(decision: PolicyDecision, rule: Option<Rule>)

  const FALLBACK := Judgment(UserApproval, None)

  function FirstMatch(rules: seq<Rule>, p: Proposal): Judgment {
    if rules == [] then FALLBACK
    else if Matches(rules[0], p) then Judgment(DecisionOf(rules[0]), Some(rules[0]))
    else FirstMatch(rules[1..], p)
  }

  function Judge(p: Proposal): Judgment {
    FirstMatch(RULES, p)
  }

  /** PolicyEngine.decide: scan the ladder and return at the first match. */
  method Decide(p: Proposal) returns (j: Judgment)
    ensures j == Judge(p)
  {
    for i := 0 to |RULES|
      invariant Judge(p) == FirstMatch(RULES[i..], p)
    {
      if Matches(RULES[i], p) {
        return Judgment(DecisionOf(RULES[i]), Some(RULES[i]));
      }
      assert RULES[i..][1..] == RULES[i + 1..];
    }
    return FALLBACK;
  }

  // ---------------------------------------------------------------- the ladder is a maximum

  ghost predicate Descending(rules: seq<Rule>) {
    forall i, j :: 0 <= i < j < |rules| ==> Severity(DecisionOf(rules[j])) <= Severity(DecisionOf(rules[i]))
  }

  /** `j` is the most severe decision among the rules that match, or the fallback when none does. */
  ghost predicate MostSevere(rules: seq<Rule>, p: Proposal, j: Judgment) {
    && (forall r :: r in rules && Matches(r, p) ==> j.rule.Some? && Severity(DecisionOf(r)) <= Severity(j.decision))
    && (match j.rule
        case Some(r) => r in rules && Matches(r, p) && j.decision == DecisionOf(r)
        case None => j.decision == UserApproval)
  }

  lemma {:induction false} FirstMatchIsMostSevere(rules: seq<Rule>, p: Proposal)
    requires Descending(rules)
    ensures MostSevere(rules, p, FirstMatch(rules, p))
  {
    hide Matches, DecisionOf;
    if rules != [] {
      if Matches(rules[0], p) {
        forall r | r in rules ensures Severity(DecisionOf(r)) <= Severity(DecisionOf(rules[0])) {
          var i :| 0 <= i < |rules| && rules[i] == r;
        }
      } else {
        FirstMatchIsMostSevere(rules[1..], p);
        assert rules == [rules[0]] + rules[1..];
      }
    }
  }

  /** A rule's place in the ladder. */
  function Place(r: Rule): nat {
    match r
    case BlockPolicyBypass => 0 case BlockCore => 1 case BlockSystemPrompt => 2
    case BlockAdminPrivilege => 3 case BlockSecretAccess => 4 case BlockExternalNetworkServer => 5
    case BlockMvpDomain => 6 case BlockConfidentialExternal => 7
    case ExpertNewCredentials => 8 case ExpertPermissionEscalation => 9 case ExpertOrgWideRegistration => 10
    case ExpertNewModelAdapter => 11 case ExpertLargeArchitecture => 12 case ExpertExternalNotAllowlisted => 13
    case UserAllowlistedWrite => 14 case UserAllowlistedExternal => 15
    case AutoReuseExisting => 16 case AutoReadonlyLowRisk => 17 case AutoProjectScopedAgent => 18
  }

  lemma EveryRuleIsListed(r: Rule)
    ensures Place(r) < |RULES| && RULES[Place(r)] == r
  {}

  lemma RulesDescend()
    ensures Descending(RULES)
  {
    forall i, j | 0 <= i < j < |RULES|
      ensures Severity(DecisionOf(RULES[j])) <= Severity(DecisionOf(RULES[i]))
    {
      PlaceOfListed(i);
      PlaceOfListed(j);
    }
  }

  lemma PlaceOfListed(i: nat)
    requires i < |RULES|
    ensures Place(RULES[i]) == i
  {}

  /** First match wins is most severe wins: the ladder decides the maximum over all matching rules,
      and USER_APPROVAL when none matches. */
  lemma LadderIsMaximum(p: Proposal)
    ensures MostSevere(RULES, p, Judge(p))
    ensures forall r: Rule :: Matches(r, p) ==>
              Judge(p).rule.Some? && Severity(DecisionOf(r)) <= Severity(Judge(p).decision)
  {
    hide Matches, DecisionOf;
    RulesDescend();
    FirstMatchIsMostSevere(RULES, p);
    forall r: Rule ensures r in RULES {
      EveryRuleIsListed(r);
    }
  }

  // ---------------------------------------------------------------- signals

  predicate BlockSignal(p: Proposal) {
    p.bypassesPolicy || p.modifiesCore || p.modifiesSystemPrompt || p.adminPrivilege || p.accessesSecret ||
    p.externalNetworkServer || p.mvpBlockedDomain ||
    (p.newExternalConnection && !p.inAllowlist && (p.data == Confidential || p.risk == High))
  }

  predicate ExpertSignal(p: Proposal) {
    p.createsCredentials || p.permissionEscalation || p.orgWideRegistration || p.newModelAdapter ||
    p.largeArchitectureChange || (p.newExternalConnection && !p.inAllowlist)
  }

  predicate UserSignal(p: Proposal) {
    p.inAllowlist && (p.writeAccess || p.newExternalConnection)
  }

  predicate LowRiskEvidence(p: Proposal) {
    p.reuseExisting ||
    (!p.writeAccess && p.inAllowlist && !p.newExternalConnection && p.risk == Low && p.data != Confidential) ||
    (p.kind == AgentProposal && p.projectScoped && !p.accessesSecret && !p.permissionEscalation)
  }

  ghost predicate SomeRule(p: Proposal, d: PolicyDecision) {
    exists r: Rule :: Matches(r, p) && DecisionOf(r) == d
  }

  lemma BlockRules(p: Proposal)
    ensures BlockSignal(p) <==> SomeRule(p, AutoBlocked)
  {
    forall r: Rule | Matches(r, p) && DecisionOf(r) == AutoBlocked ensures BlockSignal(p) {}
    if BlockSignal(p) {
      var r :| Matches(r, p) && DecisionOf(r) == AutoBlocked;
    }
  }

  lemma ExpertRules(p: Proposal)
    ensures ExpertSignal(p) <==> SomeRule(p, ExpertRequired)
  {
    forall r: Rule | Matches(r, p) && DecisionOf(r) == ExpertRequired ensures ExpertSignal(p) {}
    if ExpertSignal(p) {
      var r :=
        if p.createsCredentials then ExpertNewCredentials
        else if p.permissionEscalation then ExpertPermissionEscalation
        else if p.orgWideRegistration then ExpertOrgWideRegistration
        else if p.newModelAdapter then ExpertNewModelAdapter
        else if p.largeArchitectureChange then ExpertLargeArchitecture
        else ExpertExternalNotAllowlisted;
      assert Matches(r, p) && DecisionOf(r) == ExpertRequired;
    }
  }

  lemma UserRules(p: Proposal)
    ensures UserSignal(p) <==> SomeRule(p, UserApproval)
  {
    forall r: Rule | Matches(r, p) && DecisionOf(r) == UserApproval ensures UserSignal(p) {}
    if UserSignal(p) {
      var r := if p.writeAccess then UserAllowlistedWrite else UserAllowlistedExternal;
      assert Matches(r, p) && DecisionOf(r) == UserApproval;
    }
  }

  lemma AutoRules(p: Proposal)
    ensures LowRiskEvidence(p) <==> SomeRule(p, AutoApprove)
  {
    forall r: Rule | Matches(r, p) && DecisionOf(r) == AutoApprove ensures LowRiskEvidence(p) {}
    if LowRiskEvidence(p) {
      var r :=
        if p.reuseExisting then AutoReuseExisting
        else if p.kind == AgentProposal && p.projectScoped && !p.accessesSecret && !p.permissionEscalation
        then AutoProjectScopedAgent
        else AutoReadonlyLowRisk;
      assert Matches(r, p) && DecisionOf(r) == AutoApprove;
    }
  }

  /** The decision in terms of the signals alone. */
  lemma DecisionBySignals(p: Proposal)
    ensures Judge(p).decision ==
      if BlockSignal(p) then AutoBlocked
      else if ExpertSignal(p) then ExpertRequired
      else if UserSignal(p) then UserApproval
      else if LowRiskEvidence(p) then AutoApprove
      else UserApproval
  {
    hide Judge, Matches, DecisionOf, BlockSignal, ExpertSignal, UserSignal, LowRiskEvidence;
    LadderIsMaximum(p);
    BlockRules(p);
    ExpertRules(p);
    UserRules(p);
    AutoRules(p);
    if Judge(p).rule.Some? {
      assert SomeRule(p, Judge(p).decision);
    }
    forall d | SomeRule(p, d) ensures Judge(p).rule.Some? && Severity(d) <= Severity(Judge(p).decision) {
      var r :| Matches(r, p) && DecisionOf(r) == d;
    }
  }

  function RiskRank(r: RiskLevel): nat {
    match r case Low => 0 case Medium => 1 case High => 2
  }

  function DataRank(d: DataClass): nat {
    match d case Public => 0 case Internal => 1 case Confidential => 2
  }

  /** `q` raises risk signals of `p` (or none), the allowlist entry aside. */
  predicate RaisesSignals(p: Proposal, q: Proposal) {
    && p.kind == q.kind
    && (q.reuseExisting ==> p.reuseExisting) && (q.projectScoped ==> p.projectScoped)
    && (p.accessesSecret ==> q.accessesSecret) && (p.bypassesPolicy ==> q.bypassesPolicy)
    && (p.modifiesCore ==> q.modifiesCore) && (p.modifiesSystemPrompt ==> q.modifiesSystemPrompt)
    && (p.adminPrivilege ==> q.adminPrivilege) && (p.mvpBlockedDomain ==> q.mvpBlockedDomain)
    && (p.createsCredentials ==> q.createsCredentials) && (p.permissionEscalation ==> q.permissionEscalation)
    && (p.orgWideRegistration ==> q.orgWideRegistration) && (p.newModelAdapter ==> q.newModelAdapter)
    && (p.largeArchitectureChange ==> q.largeArchitectureChange)
    && (p.writeAccess ==> q.writeAccess) && (p.newExternalConnection ==> q.newExternalConnection)
    && (p.externalNetworkServer ==> q.externalNetworkServer)
    && RiskRank(p.risk) <= RiskRank(q.risk) && DataRank(p.data) <= DataRank(q.data)
  }

  /** `q` raises risk signals of `p` (or none); the allowlist entry is not touched. */
  predicate Raises(p: Proposal, q: Proposal) {
    RaisesSignals(p, q) && p.inAllowlist == q.inAllowlist
  }

  /** `q` raises risk signals of `p` (or none) and may also have left the allowlist. */
  predicate RaisesOrLeaves(p: Proposal, q: Proposal) {
    RaisesSignals(p, q) && (q.inAllowlist ==> p.inAllowlist)
  }

  /** Raising any risk signal never lowers the decision. */
  lemma RaisingNeverLowers(p: Proposal, q: Proposal)
    requires Raises(p, q)
    ensures Severity(Judge(p).decision) <= Severity(Judge(q).decision)
  {
    hide Judge;
    DecisionBySignals(p);
    DecisionBySignals(q);
  }

  /** Dropping a proposal from the allowlist lowers its decision exactly when it only asks to write
      to a connected server and has other low-risk evidence: then the write rule no longer sees it. */
  lemma DroppingAllowlistLowersExactly(p: Proposal)
    requires p.inAllowlist
    ensures
      Severity(Judge(p.(inAllowlist := false)).decision) < Severity(Judge(p).decision) <==>
        && !BlockSignal(p) && !ExpertSignal(p)
        && p.writeAccess && !p.newExternalConnection
        && (p.reuseExisting || (p.kind == AgentProposal && p.projectScoped))
  {
    hide Judge;
    DecisionBySignals(p);
    DecisionBySignals(p.(inAllowlist := false));
  }

  const ALLOWED_REUSE := Proposal(McpConnection, "server", true, false, false, false, false, false, false, false,
                                  false, false, false, false, false, true, true, false, false, Low, Internal)

  /** Such a proposal: reusing an allowlisted server with write access needs the user, and without the
      allowlist entry nobody. */
  lemma DroppingAllowlistCanLower()
    ensures Judge(ALLOWED_REUSE).decision == UserApproval
    ensures Judge(ALLOWED_REUSE.(inAllowlist := false)).decision == AutoApprove
  {
    hide Judge;
    DecisionBySignals(ALLOWED_REUSE);
    DecisionBySignals(ALLOWED_REUSE.(inAllowlist := false));
  }

  /** A connection to a server that is not reused: the kind of proposal the planner builds. */
  predicate IsFreshConnection(p: Proposal) {
    p.kind == McpConnection && !p.reuseExisting
  }

  /** For fresh connections, leaving the allowlist never lowers the decision either, alone or together
      with any raised signals. */
  lemma LeavingNeverLowersConnections(p: Proposal, q: Proposal)
    requires IsFreshConnection(p) && RaisesOrLeaves(p, q)
    ensures Severity(Judge(p).decision) <= Severity(Judge(q).decision)
  {
    hide Judge;
    DecisionBySignals(p);
    DecisionBySignals(q);
  }

  // ---------------------------------------------------------------- aggregation

  function Aggregate(ds: seq<PolicyDecision>): PolicyDecision {
    if ds == [] then AutoApprove
    else
      var rest := Aggregate(ds[1..]);
      if Severity(rest) <= Severity(ds[0]) then ds[0] else rest
  }

  /** The aggregate is the most severe of its decisions, AUTO_APPROVE for none. */
  lemma {:induction false} AggregateIsMaximum(ds: seq<PolicyDecision>)
    ensures forall d :: d in ds ==> Severity(d) <= Severity(Aggregate(ds))
    ensures if ds == [] then Aggregate(ds) == AutoApprove else Aggregate(ds) in ds
  {
    if ds != [] {
      AggregateIsMaximum(ds[1..]);
      assert ds == [ds[0]] + ds[1..];
    }
  }

  /** The order and repetition of the proposals do not matter, and more proposals never lower it. */
  lemma AggregateGrows(ds: seq<PolicyDecision>, es: seq<PolicyDecision>)
    requires forall d :: d in ds ==> d in es
    ensures Severity(Aggregate(ds)) <= Severity(Aggregate(es))
    ensures (forall d :: d in es ==> d in ds) ==> Aggregate(ds) == Aggregate(es)
  {
    hide Aggregate;
    AggregateIsMaximum(ds);
    AggregateIsMaximum(es);
    assert forall a, b: PolicyDecision :: Severity(a) == Severity(b) ==> a == b;
  }

  /** Raising decisions of a list, place by place, never lowers the aggregate. */
  lemma {:induction false} AggregateMonotone(ds: seq<PolicyDecision>, es: seq<PolicyDecision>)
    requires |ds| == |es| && forall i :: 0 <= i < |ds| ==> Severity(ds[i]) <= Severity(es[i])
    ensures Severity(Aggregate(ds)) <= Severity(Aggregate(es))
  {
    if ds != [] {
      AggregateMonotone(ds[1..], es[1..]);
    }
  }

  function Decisions(ps: seq<Proposal>): seq<PolicyDecision> {
    seq(|ps|, i requires 0 <= i < |ps| => Judge(ps[i]).decision)
  }

  /** The aggregate over a list of proposals never drops when risk signals of any of them are raised,
      where leaving the allowlist counts for fresh connections. */
  lemma RaisingNeverLowersAggregate(ps: seq<Proposal>, qs: seq<Proposal>)
    requires |ps| == |qs|
    requires forall i :: 0 <= i < |ps| ==>
      Raises(ps[i], qs[i]) || (IsFreshConnection(ps[i]) && RaisesOrLeaves(ps[i], qs[i]))
    ensures Severity(Aggregate(Decisions(ps))) <= Severity(Aggregate(Decisions(qs)))
  {
    hide Judge, Raises, RaisesOrLeaves, IsFreshConnection, Aggregate;
    forall i | 0 <= i < |ps| ensures Severity(Judge(ps[i]).decision) <= Severity(Judge(qs[i]).decision) {
      if Raises(ps[i], qs[i]) {
        RaisingNeverLowers(ps[i], qs[i]);
      } else {
        LeavingNeverLowersConnections(ps[i], qs[i]);
      }
    }
    AggregateMonotone(Decisions(ps), Decisions(qs));
  }
}
