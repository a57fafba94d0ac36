/** From an analysis to requirements and questions: the core agent's pairing of unknown requirements
    with questions, the requirement agent, the question cards and the conflict questions
    (app/product/core_agent.py, requirement_agent.py, question_generator.py, workflow.py). */
module Drafting {
  import opened Vocabulary
  import opened RequirementStores
  import D = Decisions
  import Engine
  import Text

  type Question = Engine.Question

  datatype QuestionDraft = QuestionDraft(key: string, text: string, related: Option<string>)

  datatype Analysis = Analysis(requirements: seq<Draft>, questions: seq<QuestionDraft>, capabilities: seq<string>)

  /** Each UNKNOWN requirement is the related requirement of some question. */
  ghost predicate Paired(a: Analysis) {
    forall r :: r in a.requirements && r.status.UnknownRequirement? ==> r.key != "" && AsksAbout(a.questions, r.key)
  }

  ghost predicate AsksAbout(questions: seq<QuestionDraft>, key: string) {
    exists q :: q in questions && q.related == Some(key)
  }

  // ---------------------------------------------------------------- the core agent

  const MAX_FUNCTIONAL := 20

  /** The topics that are always unknown, with the question for each. */
  const UNKNOWN_TOPICS: seq<(string, string)> :=
    [("동시에 사용하는 인원 규모",
      "이 결과물을 혼자 사용하나요, 아니면 여러 사람이 함께 사용하나요?"),
     ("결과물 보관 기간",
      "만들어진 결과물을 언제까지 보관해야 하나요? (예: 1개월, 1년, 계속)")]

  function RequirementKey(n: nat): string {
    "FR-" + Text.Pad3(n)
  }

  function QuestionKey(n: nat): string {
    "Q-" + Text.Pad3(n)
  }

  /** The distinct sentences that ask for an action, in order of first appearance. */
  function Actions(sentences: seq<string>, isAction: string -> bool): seq<string> {
    if sentences == [] then []
    else
      var n := |sentences| - 1;
      var before := Actions(sentences[..n], isAction);
      if isAction(sentences[n]) && sentences[n] !in before then before + [sentences[n]] else before
  }

  function Capped(xs: seq<string>): seq<string> {
    if |xs| <= MAX_FUNCTIONAL then xs else xs[..MAX_FUNCTIONAL]
  }

  function GoalOf(sentences: seq<string>, projectName: string): string {
    if sentences == [] then projectName
    else if |sentences[0]| <= 200 then sentences[0] else sentences[0][..200]
  }

  function Confirmed(texts: seq<string>): seq<Draft> {
    seq(|texts|, i requires 0 <= i < |texts| =>
      Draft(RequirementKey(i + 1), texts[i], ConfirmedRequirement, Functional, Some("HIGH")))
  }

  lemma {:induction false} ActionsOfPrefix(sentences: seq<string>, isAction: string -> bool, i: nat)
    requires i <= |sentences|
    ensures Actions(sentences[..i], isAction) <= Actions(sentences, isAction)
    decreases |sentences| - i
  {
    if i < |sentences| {
      ActionsOfPrefix(sentences, isAction, i + 1);
      assert sentences[..i + 1][..i] == sentences[..i];
    } else {
      assert sentences[..i] == sentences;
    }
  }

  /** The texts of the confirmed requirements: the first twenty distinct action sentences, or the
      goal when there are none. */
  function ConfirmedTexts(sentences: seq<string>, projectName: string, isAction: string -> bool): (texts: seq<string>)
    ensures 1 <= |texts| <= 20
    ensures
      var actions := Actions(sentences, isAction);
      if actions == [] then
        texts == [if sentences == [] then projectName
                  else if |sentences[0]| <= 200 then sentences[0] else sentences[0][..200]]
      else texts == if |actions| <= 20 then actions else actions[..20]
  {
    var texts := Capped(Actions(sentences, isAction));
    if texts == [] then [GoalOf(sentences, projectName)] else texts
  }

  /** The loop over the sentences. */
  method CollectActions(sentences: seq<string>, projectName: string, isAction: string -> bool)
    returns (requirements: seq<Draft>)
    ensures requirements == Confirmed(ConfirmedTexts(sentences, projectName, isAction))
  {
    hide RequirementKey;
    ghost var actions := Actions(sentences, isAction);
    var texts: seq<string> := [];
    requirements := [];
    var i := 0;
    while i < |sentences| && |requirements| < MAX_FUNCTIONAL
      invariant i <= |sentences|
      invariant texts == Actions(sentences[..i], isAction) && |texts| <= MAX_FUNCTIONAL
      invariant requirements == Confirmed(texts)
    {
      assert sentences[..i + 1][..i] == sentences[..i];
      if isAction(sentences[i]) && sentences[i] !in texts {
        requirements := requirements +
          [Draft(RequirementKey(|requirements| + 1), sentences[i], ConfirmedRequirement, Functional, Some("HIGH"))];
        texts := texts + [sentences[i]];
      }
      i := i + 1;
    }
    ActionsOfPrefix(sentences, isAction, i);
    assert i == |sentences| ==> sentences[..i] == sentences;
    assert texts == Capped(actions);
    if requirements == [] {
      var goal := GoalOf(sentences, projectName);
      requirements := [Draft(RequirementKey(1), goal, ConfirmedRequirement, Functional, Some("HIGH"))];
    }
  }

  /** The drafts carry the numbers 1, 2, ... and the ones from `n` on are UNKNOWN. */
  ghost predicate Numbered(drafts: seq<Draft>, n: nat) {
    forall i :: 0 <= i < |drafts| ==>
      drafts[i].key == RequirementKey(i + 1) && (drafts[i].status.UnknownRequirement? <==> i >= n)
  }

  /** Question i asks about the i-th unknown. */
  ghost predicate AskedInOrder(questions: seq<QuestionDraft>, drafts: seq<Draft>, n: nat) {
    && |drafts| == n + |questions|
    && |questions| <= |UNKNOWN_TOPICS|
    && forall i :: 0 <= i < |questions| ==>
         && questions[i].key == QuestionKey(i + 1) && questions[i].related == Some(drafts[n + i].key)
         && drafts[n + i].description == UNKNOWN_TOPICS[i].0 && questions[i].text == UNKNOWN_TOPICS[i].1
  }

  /** MockCoreAgent.analyze. The requirements are numbered from FR-001 without a gap: the confirmed
      ones first, then the two standard unknowns, each with its own question. */
  method Analyze(sentences: seq<string>, projectName: string, isAction: string -> bool, capabilities: seq<string>)
    returns (a: Analysis)
    ensures
      var texts := ConfirmedTexts(sentences, projectName, isAction);
      && |a.questions| == 2
      && Confirmed(texts) <= a.requirements
      && Numbered(a.requirements, |texts|)
      && AskedInOrder(a.questions, a.requirements, |texts|)
    ensures forall i :: 0 <= i < |a.requirements| ==> a.requirements[i].key == "FR-" + Text.Pad3(i + 1)
    ensures forall i :: 0 <= i < |a.questions| ==> a.questions[i].key == "Q-" + Text.Pad3(i + 1)
    ensures Paired(a) && DistinctKeys(a.requirements)
    ensures a.capabilities == if capabilities == [] then ["general-automation"] else capabilities
  {
    hide RequirementKey, QuestionKey, ConfirmedTexts, Text.Pad3;
    var requirements := CollectActions(sentences, projectName, isAction);
    ghost var confirmed := requirements;
    var questions: seq<QuestionDraft> := [];
    for i := 0 to |UNKNOWN_TOPICS|
      invariant confirmed <= requirements && |questions| == i
      invariant Numbered(requirements, |confirmed|) && AskedInOrder(questions, requirements, |confirmed|)
    {
      var key := RequirementKey(|requirements| + 1);
      requirements := requirements + [Draft(key, UNKNOWN_TOPICS[i].0, UnknownRequirement, Functional, None)];
      questions := questions + [QuestionDraft(QuestionKey(i + 1), UNKNOWN_TOPICS[i].1, Some(key))];
    }
    a := Analysis(requirements, questions, if capabilities == [] then ["general-automation"] else capabilities);
    NumberedDrafts(requirements);
    NumberedIsPaired(a, |confirmed|);
    NumberedKeys(a, |confirmed|);
  }

  lemma NumberedKeys(a: Analysis, n: nat)
    requires Numbered(a.requirements, n) && AskedInOrder(a.questions, a.requirements, n)
    ensures forall i :: 0 <= i < |a.requirements| ==> a.requirements[i].key == "FR-" + Text.Pad3(i + 1)
    ensures forall i :: 0 <= i < |a.questions| ==> a.questions[i].key == "Q-" + Text.Pad3(i + 1)
  {
    hide Text.Pad3;
  }

  lemma NumberedIsPaired(a: Analysis, n: nat)
    requires Numbered(a.requirements, n) && AskedInOrder(a.questions, a.requirements, n)
    ensures Paired(a)
  {
    hide Text.Pad3;
    forall r | r in a.requirements && r.status.UnknownRequirement?
      ensures r.key != "" && AsksAbout(a.questions, r.key)
    {
      var i :| 0 <= i < |a.requirements| && a.requirements[i] == r;
      assert a.questions[i - n] in a.questions;
      assert |RequirementKey(i + 1)| >= 3;
    }
  }

  lemma NumberedDrafts(drafts: seq<Draft>)
    requires forall i :: 0 <= i < |drafts| ==> drafts[i].key == RequirementKey(i + 1)
    ensures DistinctKeys(drafts)
  {
    hide Text.Pad3;
    forall i, j | 0 <= i < j < |drafts| ensures drafts[i].key != drafts[j].key {
      assert RequirementKey(i + 1)[3..] == Text.Pad3(i + 1) && RequirementKey(j + 1)[3..] == Text.Pad3(j + 1);
      if drafts[i].key == drafts[j].key { Text.Pad3Injective(i + 1, j + 1); }
    }
  }

  // ---------------------------------------------------------------- the requirement agent

  function Standard(key: string, description: string, category: Category): Draft {
    Draft(key, description, InferredRequirement, category, Some("MEDIUM"))
  }

  const SUPPLEMENTS: seq<Draft> :=
    [Standard("NFR-001", "비개발자가 별도 설치 지식 없이 실행하거나 접속할 수 있어야 한다",
               NonFunctional),
     Standard("NFR-002", "오류가 발생하면 기술 용어 대신 사용자 언어로 안내한다",
               NonFunctional),
     Standard("BR-001", "기존 결과물을 덮어쓰지 않고 새 이름으로 저장한다",
               BusinessRule),
     Standard("EX-001", "입력 자료가 형식에 맞지 않으면 어떤 부분이 문제인지 알려준다",
               ExceptionCase)]

  const ANSWER_SUFFIX := " — 사용자 답변: "

  /** The answer to the last question about a requirement that was answered. */
  function AnswerFor(questions: seq<QuestionDraft>, answers: map<string, string>, key: string): Option<string> {
    if questions == [] then None
    else
      var q := questions[|questions| - 1];
      if q.key in answers && q.related == Some(key) && key != "" then Some(answers[q.key])
      else AnswerFor(questions[..|questions| - 1], answers, key)
  }

  /** An answered requirement becomes CONFIRMED and carries the answer. */
  function Promoted(r: Draft, answer: Option<string>): Draft {
    match answer
    case None => r
    case Some(text) => r.(status := ConfirmedRequirement, description := r.description + ANSWER_SUFFIX + text)
  }

  function PromotedAll(a: Analysis, answers: map<string, string>): seq<Draft> {
    seq(|a.requirements|, i requires 0 <= i < |a.requirements| =>
      Promoted(a.requirements[i], AnswerFor(a.questions, answers, a.requirements[i].key)))
  }

  function Supplements(known: set<string>, from: seq<Draft>): seq<Draft> {
    if from == [] then []
    else
      var n := |from| - 1;
      Supplements(known, from[..n]) + (if from[n].key in known then [] else [from[n]])
  }

  function Refined(a: Analysis, answers: map<string, string>): seq<Draft> {
    PromotedAll(a, answers) + Supplements(Keys(PromotedAll(a, answers)), SUPPLEMENTS)
  }

  function StillOpen(questions: seq<QuestionDraft>, answers: map<string, string>): seq<QuestionDraft> {
    if questions == [] then []
    else
      var n := |questions| - 1;
      StillOpen(questions[..n], answers) + (if questions[n].key in answers then [] else [questions[n]])
  }

  /** The mapping from requirement keys to answers that the agent builds from its questions. */
  method CollectAnswered(questions: seq<QuestionDraft>, answers: map<string, string>) returns (m: map<string, string>)
    ensures forall k :: (k in m <==> AnswerFor(questions, answers, k).Some?) &&
                        (k in m ==> Some(m[k]) == AnswerFor(questions, answers, k))
  {
    m := map[];
    for i := 0 to |questions|
      invariant forall k :: (k in m <==> AnswerFor(questions[..i], answers, k).Some?) &&
                            (k in m ==> Some(m[k]) == AnswerFor(questions[..i], answers, k))
    {
      assert questions[..i + 1][..i] == questions[..i];
      var q := questions[i];
      if q.key in answers && q.related.Some? && q.related.value != "" {
        m := m[q.related.value := answers[q.key]];
      }
    }
    assert questions[..|questions|] == questions;
  }

  /** Adds the supplements whose keys are not taken. */
  method Supplement(requirements: seq<Draft>, from: seq<Draft>) returns (all: seq<Draft>)
    ensures all == requirements + Supplements(Keys(requirements), from)
  {
    var known := Keys(requirements);
    all := requirements;
    for i := 0 to |from|
      invariant all == requirements + Supplements(known, from[..i])
    {
      assert from[..i + 1][..i] == from[..i];
      if from[i].key !in known {
        all := all + [from[i]];
      }
    }
    assert from[..|from|] == from;
  }

  /** MockRequirementAgent.refine. */
  method Refine(a: Analysis, answers: map<string, string>) returns (requirements: seq<Draft>, open: seq<QuestionDraft>)
    ensures requirements == Refined(a, answers)
    ensures open == StillOpen(a.questions, answers)
  {
    hide AnswerFor, Supplements;
    var answered := CollectAnswered(a.questions, answers);
    requirements := [];
    for i := 0 to |a.requirements|
      invariant requirements == PromotedAll(a, answers)[..i]
    {
      var r := a.requirements[i];
      if r.key in answered {
        r := r.(status := ConfirmedRequirement, description := r.description + ANSWER_SUFFIX + answered[r.key]);
      }
      requirements := requirements + [r];
    }
    assert requirements == PromotedAll(a, answers);
    requirements := Supplement(requirements, SUPPLEMENTS);
    open := [];
    for i := 0 to |a.questions|
      invariant open == StillOpen(a.questions[..i], answers)
    {
      assert a.questions[..i + 1][..i] == a.questions[..i];
      if a.questions[i].key !in answers {
        open := open + [a.questions[i]];
      }
    }
    assert a.questions[..|a.questions|] == a.questions;
  }

  lemma {:induction false} SupplementMembers(known: set<string>, from: seq<Draft>, d: Draft)
    ensures d in Supplements(known, from) <==> d in from && d.key !in known
  {
    if from != [] {
      SupplementMembers(known, from[..|from| - 1], d);
      assert from == from[..|from| - 1] + [from[|from| - 1]];
    }
  }

  lemma {:induction false} OpenMembers(questions: seq<QuestionDraft>, answers: map<string, string>, q: QuestionDraft)
    ensures q in StillOpen(questions, answers) <==> q in questions && q.key !in answers
  {
    if questions != [] {
      OpenMembers(questions[..|questions| - 1], answers, q);
      assert questions == questions[..|questions| - 1] + [questions[|questions| - 1]];
    }
  }

  lemma {:induction false} AnsweredQuestionAnswers(questions: seq<QuestionDraft>, answers: map<string, string>,
      q: QuestionDraft, key: string)
    requires q in questions && q.key in answers && q.related == Some(key) && key != ""
    ensures AnswerFor(questions, answers, key).Some?
  {
    var n := |questions| - 1;
    assert questions == questions[..n] + [questions[n]];
    if questions[n] != q {
      AnsweredQuestionAnswers(questions[..n], answers, q, key);
    }
  }

  /** What is still UNKNOWN after refining is an unknown requirement of the analysis about which no
      question was answered. */
  lemma {:induction false} UnknownsAreUnanswered(a: Analysis, answers: map<string, string>, r: Draft)
    requires r in Refined(a, answers) && r.status.UnknownRequirement?
    ensures r in a.requirements && AnswerFor(a.questions, answers, r.key).None?
  {
    hide AnswerFor, Supplements;
    var all := PromotedAll(a, answers);
    SupplementMembers(Keys(all), SUPPLEMENTS, r);
    SupplementsAreInferred(r);
    assert r in all;
    var i :| 0 <= i < |all| && all[i] == r;
    assert a.requirements[i] in a.requirements;
  }

  lemma SupplementsAreInferred(d: Draft)
    ensures d in SUPPLEMENTS ==> d.status.InferredRequirement?
  {}

  lemma {:induction false} SupplementsDistinct(known: set<string>, from: seq<Draft>)
    requires DistinctKeys(from)
    ensures DistinctKeys(Supplements(known, from))
  {
    if from != [] {
      var n := |from| - 1;
      SupplementsDistinct(known, from[..n]);
      var before := Supplements(known, from[..n]);
      forall i | 0 <= i < |before| ensures before[i].key != from[n].key {
        SupplementMembers(known, from[..n], before[i]);
        var k :| 0 <= k < n && from[..n][k] == before[i];
        assert from[k].key != from[n].key;
      }
    }
  }

  lemma SupplementKeys()
    ensures Keys(SUPPLEMENTS) == {"NFR-001", "NFR-002", "BR-001", "EX-001"}
    ensures forall d :: d in SUPPLEMENTS ==>
      && d.status == InferredRequirement && d.priority == Some("MEDIUM")
      && d.category == if d.key == "BR-001" then BusinessRule
                       else if d.key == "EX-001" then ExceptionCase else NonFunctional
  {
    var all := SUPPLEMENTS;
    assert all == [all[0], all[1], all[2], all[3]];
    assert all[0].key == "NFR-001" && all[1].key == "NFR-002" && all[2].key == "BR-001" && all[3].key == "EX-001";
    assert all[0] in all && all[1] in all && all[2] in all && all[3] in all;
  }

  lemma SupplementsHaveDistinctKeys()
    ensures DistinctKeys(SUPPLEMENTS)
  {
    assert "NFR-001"[6] != "NFR-002"[6];
    assert |"NFR-001"| != |"BR-001"| == |"EX-001"|;
    assert "BR-001"[0] != "EX-001"[0];
  }

  /** Refining keeps the keys of the analysis, adds those of the standard supplements, and repeats
      none when the analysis repeats none. */
  lemma RefinedKeys(a: Analysis, answers: map<string, string>)
    ensures Keys(Refined(a, answers)) == Keys(a.requirements) + Keys(SUPPLEMENTS)
    ensures DistinctKeys(a.requirements) ==> DistinctKeys(Refined(a, answers))
  {
    hide AnswerFor, Supplements, Standard;
    var all := PromotedAll(a, answers);
    var extra := Supplements(Keys(all), SUPPLEMENTS);
    SupplementsHaveDistinctKeys();
    SupplementsDistinct(Keys(all), SUPPLEMENTS);
    PromotedKeys(a, answers);
    forall d ensures d in extra <==> d in SUPPLEMENTS && d.key !in Keys(all) {
      SupplementMembers(Keys(all), SUPPLEMENTS, d);
    }
    KeysOfConcat(all, extra);
    if DistinctKeys(a.requirements) {
      assert DistinctKeys(all) by {
        assert forall i :: 0 <= i < |all| ==> all[i].key == a.requirements[i].key;
      }
      forall i, j | 0 <= i < |all| && 0 <= j < |extra| ensures all[i].key != extra[j].key {
        assert all[i] in all && extra[j] in extra;
      }
    }
  }

  lemma KeysOfConcat(xs: seq<Draft>, ys: seq<Draft>)
    ensures Keys(xs + ys) == Keys(xs) + Keys(ys)
  {}

  lemma PromotedKeys(a: Analysis, answers: map<string, string>)
    ensures Keys(PromotedAll(a, answers)) == Keys(a.requirements)
  {
    hide AnswerFor;
    var all := PromotedAll(a, answers);
    assert forall i :: 0 <= i < |all| ==> all[i].key == a.requirements[i].key;
    forall k ensures k in Keys(all) <==> k in Keys(a.requirements) {
      if d :| d in all && d.key == k {
        var i :| 0 <= i < |all| && all[i] == d;
        assert a.requirements[i] in a.requirements;
      }
      if d :| d in a.requirements && d.key == k {
        var i :| 0 <= i < |all| && a.requirements[i] == d;
        assert all[i] in all;
      }
    }
  }

  lemma SupplementRefined(a: Analysis, answers: map<string, string>, d: Draft)
    requires d in SUPPLEMENTS && d.key !in Keys(a.requirements)
    ensures d in Refined(a, answers)
  {
    hide AnswerFor, Supplements, Standard;
    PromotedKeys(a, answers);
    SupplementMembers(Keys(PromotedAll(a, answers)), SUPPLEMENTS, d);
  }

  // ---------------------------------------------------------------- the question table

  predicate HasQuestion(questions: seq<Question>, key: string) {
    exists q :: q in questions && q.key == key
  }

  predicate HasCard(cards: seq<QuestionDraft>, key: string) {
    exists q :: q in cards && q.key == key
  }

  /** One card for each key, the first one. */
  function Cards(questions: seq<QuestionDraft>): seq<QuestionDraft> {
    if questions == [] then []
    else
      var n := |questions| - 1;
      var before := Cards(questions[..n]);
      if HasCard(before, questions[n].key) then before else before + [questions[n]]
  }

  function Opened(q: QuestionDraft): Question {
    Engine.Question(q.key, q.text, q.related, None)
  }

  /** Cards whose key the table already has are skipped. */
  function Upserted(table: seq<Question>, cards: seq<QuestionDraft>): seq<Question> {
    if cards == [] then table
    else
      var n := |cards| - 1;
      Upserted(table, cards[..n]) + (if HasQuestion(table, cards[n].key) then [] else [Opened(cards[n])])
  }

  datatype Conflict = Conflict(requirementKey: string, decisionKey: string, message: string)

  /** Whether a draft and a decision overlap without agreeing; the detector compares their texts. */
  type Clash = (D.Decision, Draft) -> bool

  function ConflictBetween(d: D.Decision, r: Draft): Conflict {
    Conflict(r.key, d.key, "이번 요청(" + r.key + ")이 기존 결정 [" + d.key + "] '" + d.title +
                           "'와 겹칩니다. 기존 결정: " + d.decision + " 기존 정책을 유지할까요, 변경할까요?")
  }

  function ConflictsWith(d: D.Decision, drafts: seq<Draft>, clash: Clash): seq<Conflict> {
    if drafts == [] then []
    else
      var n := |drafts| - 1;
      ConflictsWith(d, drafts[..n], clash) + (if clash(d, drafts[n]) then [ConflictBetween(d, drafts[n])] else [])
  }

  /** find_conflicts: one conflict for each pair of an active decision and a draft that clash. */
  function FindConflicts(decisions: seq<D.Decision>, drafts: seq<Draft>, clash: Clash): seq<Conflict> {
    if decisions == [] then []
    else
      var n := |decisions| - 1;
      FindConflicts(decisions[..n], drafts, clash) + ConflictsWith(decisions[n], drafts, clash)
  }

  method DetectConflicts(decisions: seq<D.Decision>, drafts: seq<Draft>, clash: Clash)
    returns (conflicts: seq<Conflict>)
    ensures conflicts == FindConflicts(decisions, drafts, clash)
  {
    conflicts := [];
    for i := 0 to |decisions|
      invariant conflicts == FindConflicts(decisions[..i], drafts, clash)
    {
      assert decisions[..i + 1][..i] == decisions[..i];
      ghost var before := conflicts;
      for j := 0 to |drafts|
        invariant conflicts == before + ConflictsWith(decisions[i], drafts[..j], clash)
      {
        assert drafts[..j + 1][..j] == drafts[..j];
        if clash(decisions[i], drafts[j]) {
          var d, r := decisions[i], drafts[j];
          conflicts := conflicts +
            [Conflict(r.key, d.key, "이번 요청(" + r.key + ")이 기존 결정 [" + d.key + "] '" + d.title +
                                    "'와 겹칩니다. 기존 결정: " + d.decision + " 기존 정책을 유지할까요, 변경할까요?")];
        }
      }
      assert drafts[..|drafts|] == drafts;
    }
    assert decisions[..|decisions|] == decisions;
  }

  const CONFLICT_PREFIX := "Q-C"

  function WithoutPrefix(s: string, prefix: string): string {
    if prefix <= s then s[|prefix|..] else s
  }

  function Cut(s: string, n: nat): string {
    if |s| <= n then s else s[..n]
  }

  /** The key of the question about conflicts with a decision. */
  function QuestionKeyFor(decisionKey: string): string {
    Cut(CONFLICT_PREFIX + WithoutPrefix(decisionKey, D.DECISION_PREFIX), 20)
  }

  /** It is "Q-C" with what follows "DEC-" in the decision's key, at most seventeen characters of it. */
  lemma QuestionKeyIs(decisionKey: string, rest: string)
    requires decisionKey == "DEC-" + rest
    ensures QuestionKeyFor(decisionKey) == "Q-C" + if |rest| <= 17 then rest else rest[..17]
  {
    assert decisionKey[4..] == rest;
    assert |rest| > 17 ==> ("Q-C" + rest)[..20] == "Q-C" + rest[..17];
  }

  function ConflictKey(c: Conflict): string {
    QuestionKeyFor(c.decisionKey)
  }

  function ConflictQuestion(c: Conflict): Question {
    Engine.Question(ConflictKey(c), c.message, Some(c.requirementKey), None)
  }

  /** The keys in the table are read once, before the loop; a new key met twice therefore violates
      the unique constraint. */
  function WithConflicts(table: seq<Question>, conflicts: seq<Conflict>): Option<seq<Question>> {
    if conflicts == [] then Some(table)
    else
      var n := |conflicts| - 1;
      var key := ConflictKey(conflicts[n]);
      match WithConflicts(table, conflicts[..n])
      case None => None
      case Some(mid) =>
        if HasQuestion(table, key) then Some(mid)
        else if HasQuestion(mid, key) then None
        else Some(mid + [ConflictQuestion(conflicts[n])])
  }

  /** Two conflicts share a question key that the table does not have. */
  ghost predicate ConflictTwice(table: seq<Question>, conflicts: seq<Conflict>) {
    exists i, j :: 0 <= i < j < |conflicts| &&
      ConflictKey(conflicts[i]) == ConflictKey(conflicts[j]) && !HasQuestion(table, ConflictKey(conflicts[i]))
  }

  /** Question keys of a project are unique. */
  ghost predicate UniqueQuestions(questions: seq<Question>) {
    forall i, j :: 0 <= i < j < |questions| ==> questions[i].key != questions[j].key
  }

  lemma UniqueAppend(questions: seq<Question>, q: Question)
    requires UniqueQuestions(questions) && !HasQuestion(questions, q.key)
    ensures UniqueQuestions(questions + [q])
  {
    forall i | 0 <= i < |questions| ensures questions[i].key != q.key {
      assert questions[i] in questions;
    }
  }

  lemma {:induction false} CardKeys(questions: seq<QuestionDraft>, key: string)
    ensures HasCard(Cards(questions), key) <==> HasCard(questions, key)
    ensures forall c :: c in Cards(questions) ==> c in questions
  {
    if questions != [] {
      var n := |questions| - 1;
      CardKeys(questions[..n], key);
      assert questions == questions[..n] + [questions[n]];
      var before := Cards(questions[..n]);
      assert questions[n].key == key ==> HasCard(Cards(questions), key) by {
        if !HasCard(before, questions[n].key) { assert questions[n] in Cards(questions); }
      }
      if HasCard(before, key) {
        var c :| c in before && c.key == key;
        assert c in Cards(questions);
      }
    }
  }

  ghost predicate CardsUnique(cards: seq<QuestionDraft>) {
    forall i, j :: 0 <= i < j < |cards| ==> cards[i].key != cards[j].key
  }

  /** No two cards share a key. */
  lemma {:induction false} CardsAreUnique(questions: seq<QuestionDraft>)
    ensures CardsUnique(Cards(questions))
  {
    if questions != [] {
      var n := |questions| - 1;
      CardsAreUnique(questions[..n]);
      var before := Cards(questions[..n]);
      forall i | 0 <= i < |before| && before[i].key == questions[n].key ensures HasCard(before, questions[n].key) {
        assert before[i] in before;
      }
    }
  }

  /** Inserting the cards keeps the keys unique, keeps every stored question, and leaves a question
      under every card's key; what it adds is open. */
  lemma {:induction false} UpsertAdds(table: seq<Question>, cards: seq<QuestionDraft>)
    requires UniqueQuestions(table) && CardsUnique(cards)
    ensures
      var next := Upserted(table, cards);
      && UniqueQuestions(next) && table <= next
      && (forall key :: HasQuestion(next, key) <==> HasQuestion(table, key) || HasCard(cards, key))
      && (forall q :: q in next && q !in table ==>
            q.answer.None? && QuestionDraft(q.key, q.text, q.related) in cards)
  {
    if cards != [] {
      var n := |cards| - 1;
      var mid := Upserted(table, cards[..n]);
      UpsertAdds(table, cards[..n]);
      assert cards == cards[..n] + [cards[n]];
      assert !HasCard(cards[..n], cards[n].key);
      var next := Upserted(table, cards);
      if !HasQuestion(table, cards[n].key) {
        UniqueAppend(mid, Opened(cards[n]));
        assert Opened(cards[n]) in next;
      }
      forall key ensures HasQuestion(next, key) <==> HasQuestion(table, key) || HasCard(cards, key) {
        assert HasCard(cards, key) <==> HasCard(cards[..n], key) || cards[n].key == key;
        assert HasQuestion(next, key) <==>
               HasQuestion(mid, key) || (!HasQuestion(table, cards[n].key) && cards[n].key == key);
      }
    }
  }

  lemma ConflictTwiceInPrefix(table: seq<Question>, conflicts: seq<Conflict>)
    requires conflicts != []
    ensures
      var n := |conflicts| - 1;
      ConflictTwice(table, conflicts) <==>
        ConflictTwice(table, conflicts[..n]) ||
        (!HasQuestion(table, ConflictKey(conflicts[n])) && KeyBefore(conflicts, n, ConflictKey(conflicts[n])))
  {
    hide HasQuestion, ConflictKey;
    var n := |conflicts| - 1;
    var first := conflicts[..n];
    assert forall i :: 0 <= i < n ==> first[i] == conflicts[i];
  }

  ghost predicate KeyBefore(conflicts: seq<Conflict>, n: nat, key: string)
    requires n <= |conflicts|
  {
    exists i :: 0 <= i < n && ConflictKey(conflicts[i]) == key
  }

  /** A question that asks, in the words of a conflict, about its requirement. */
  ghost predicate FromConflict(conflicts: seq<Conflict>, q: Question) {
    exists c :: c in conflicts && q.key == ConflictKey(c) && q.text == c.message && q.related == Some(c.requirementKey)
  }

  /** The conflict questions cannot be stored exactly when two conflicts share a key that the table
      does not have; otherwise the keys stay unique, stored questions stay, each conflict has its
      question, and what is added is open. */
  lemma {:induction false} ConflictsAreAsked(table: seq<Question>, conflicts: seq<Conflict>)
    requires UniqueQuestions(table)
    ensures WithConflicts(table, conflicts).None? <==> ConflictTwice(table, conflicts)
    ensures WithConflicts(table, conflicts).Some? ==>
      var next := WithConflicts(table, conflicts).value;
      && UniqueQuestions(next) && table <= next
      && (forall key :: HasQuestion(next, key) <==> HasQuestion(table, key) || KeyBefore(conflicts, |conflicts|, key))
      && (forall q :: q in next && q !in table ==> q.answer.None? && FromConflict(conflicts, q))
  {
    hide ConflictKey, ConflictTwice, UniqueQuestions, HasQuestion;
    if conflicts == [] {
      NoConflictTwice(table);
    } else {
      var n := |conflicts| - 1;
      ConflictsAreAsked(table, conflicts[..n]);
      ConflictTwiceInPrefix(table, conflicts);
      var mid := WithConflicts(table, conflicts[..n]);
      forall key
        ensures KeyBefore(conflicts, n + 1, key) <==>
                KeyBefore(conflicts[..n], n, key) || ConflictKey(conflicts[n]) == key
      {
        KeyBeforeStep(conflicts, n, key);
      }
      assert KeyBefore(conflicts, n, ConflictKey(conflicts[n])) <==>
             KeyBefore(conflicts[..n], n, ConflictKey(conflicts[n]));
      if WithConflicts(table, conflicts).Some? && WithConflicts(table, conflicts) != mid {
        QuestionAdded(mid.value, ConflictQuestion(conflicts[n]));
      }
    }
  }

  lemma NoConflictTwice(table: seq<Question>)
    ensures !ConflictTwice(table, [])
  {}

  lemma KeyBeforeStep(conflicts: seq<Conflict>, n: nat, key: string)
    requires n < |conflicts|
    ensures KeyBefore(conflicts, n + 1, key) <==> KeyBefore(conflicts[..n], n, key) || ConflictKey(conflicts[n]) == key
  {
    hide ConflictKey;
    assert forall i :: 0 <= i < n ==> conflicts[..n][i] == conflicts[i];
  }

  lemma QuestionAdded(table: seq<Question>, q: Question)
    requires UniqueQuestions(table) && !HasQuestion(table, q.key)
    ensures UniqueQuestions(table + [q])
    ensures forall key :: HasQuestion(table + [q], key) <==> HasQuestion(table, key) || q.key == key
  {
    UniqueAppend(table, q);
    assert q in table + [q];
    forall key ensures HasQuestion(table + [q], key) <==> HasQuestion(table, key) || q.key == key {
      assert forall x :: x in table + [q] <==> x in table || x == q;
    }
  }

  // ---------------------------------------------------------------- when a round of conflicts collides

  /** How many conflicts have a question key. */
  function Occurs(conflicts: seq<Conflict>, key: string): nat {
    if conflicts == [] then 0
    else
      var n := |conflicts| - 1;
      Occurs(conflicts[..n], key) + (if ConflictKey(conflicts[n]) == key then 1 else 0)
  }

  lemma {:induction false} OccursOnce(conflicts: seq<Conflict>, key: string)
    ensures Occurs(conflicts, key) >= 1 <==> KeyBefore(conflicts, |conflicts|, key)
  {
    hide ConflictKey;
    if conflicts != [] {
      var n := |conflicts| - 1;
      OccursOnce(conflicts[..n], key);
      KeyBeforeStep(conflicts, n, key);
    }
  }

  lemma {:induction false} OccursTwice(table: seq<Question>, conflicts: seq<Conflict>)
    ensures ConflictTwice(table, conflicts) <==> exists key :: !HasQuestion(table, key) && Occurs(conflicts, key) >= 2
  {
    hide ConflictKey, HasQuestion, ConflictTwice, KeyBefore;
    if conflicts == [] {
      NoConflictTwice(table);
    } else {
      var n := |conflicts| - 1;
      var last := ConflictKey(conflicts[n]);
      OccursTwice(table, conflicts[..n]);
      ConflictTwiceInPrefix(table, conflicts);
      OccursOnce(conflicts[..n], last);
      KeyBeforeStep(conflicts, n, last);
      KeyBeforeOfPrefix(conflicts, n, last);
      if ConflictTwice(table, conflicts[..n]) {
        var key :| !HasQuestion(table, key) && Occurs(conflicts[..n], key) >= 2;
        assert Occurs(conflicts, key) >= 2;
      } else if ConflictTwice(table, conflicts) {
        assert Occurs(conflicts, last) >= 2;
      }
      forall key | !HasQuestion(table, key) && Occurs(conflicts, key) >= 2 ensures ConflictTwice(table, conflicts) {
        assert Occurs(conflicts[..n], key) >= 2 || key == last;
      }
    }
  }

  lemma KeyBeforeOfPrefix(conflicts: seq<Conflict>, n: nat, key: string)
    requires n <= |conflicts|
    ensures KeyBefore(conflicts, n, key) <==> KeyBefore(conflicts[..n], n, key)
  {
    hide ConflictKey;
    assert forall i :: 0 <= i < n ==> conflicts[..n][i] == conflicts[i];
  }

  lemma {:induction false} OccursConcat(a: seq<Conflict>, b: seq<Conflict>, key: string)
    ensures Occurs(a + b, key) == Occurs(a, key) + Occurs(b, key)
  {
    hide ConflictKey;
    if b == [] {
      assert a + b == a;
    } else {
      var n := |b| - 1;
      OccursConcat(a, b[..n], key);
      assert (a + b)[..|a + b| - 1] == a + b[..n];
    }
  }

  /** How many drafts clash with a decision. */
  function Clashing(d: D.Decision, drafts: seq<Draft>, clash: Clash): nat {
    if drafts == [] then 0
    else
      var n := |drafts| - 1;
      Clashing(d, drafts[..n], clash) + (if clash(d, drafts[n]) then 1 else 0)
  }

  /** How many pairs of a decision and a draft clash under one question key. */
  function ClashingUnder(decisions: seq<D.Decision>, drafts: seq<Draft>, clash: Clash, key: string): nat {
    if decisions == [] then 0
    else
      var n := |decisions| - 1;
      ClashingUnder(decisions[..n], drafts, clash, key) +
      (if QuestionKeyFor(decisions[n].key) == key then Clashing(decisions[n], drafts, clash) else 0)
  }

  lemma {:induction false} OccursWithOne(d: D.Decision, drafts: seq<Draft>, clash: Clash, key: string)
    ensures Occurs(ConflictsWith(d, drafts, clash), key) ==
            if QuestionKeyFor(d.key) == key then Clashing(d, drafts, clash) else 0
  {
    hide QuestionKeyFor;
    if drafts != [] {
      var n := |drafts| - 1;
      OccursWithOne(d, drafts[..n], clash, key);
      var before := ConflictsWith(d, drafts[..n], clash);
      var c := ConflictBetween(d, drafts[n]);
      if clash(d, drafts[n]) {
        assert (before + [c])[..|before|] == before;
      } else {
        assert ConflictsWith(d, drafts, clash) == before;
      }
    }
  }

  lemma {:induction false} OccursInFound(decisions: seq<D.Decision>, drafts: seq<Draft>, clash: Clash, key: string)
    ensures Occurs(FindConflicts(decisions, drafts, clash), key) == ClashingUnder(decisions, drafts, clash, key)
  {
    hide QuestionKeyFor, Occurs, ConflictsWith, Clashing;
    if decisions == [] {
      NothingOccurs(key);
    } else {
      var n := |decisions| - 1;
      OccursInFound(decisions[..n], drafts, clash, key);
      OccursConcat(FindConflicts(decisions[..n], drafts, clash), ConflictsWith(decisions[n], drafts, clash), key);
      OccursWithOne(decisions[n], drafts, clash, key);
    }
  }

  lemma NothingOccurs(key: string)
    ensures Occurs([], key) == 0
  {}

  /** Storing the questions about detected conflicts fails exactly when, under some question key that
      the table does not have, two pairs of a decision and a draft clash. */
  lemma DetectedCollideExactly(table: seq<Question>, decisions: seq<D.Decision>, drafts: seq<Draft>, clash: Clash)
    requires UniqueQuestions(table)
    ensures WithConflicts(table, FindConflicts(decisions, drafts, clash)).None? <==>
            exists key :: !HasQuestion(table, key) && ClashingUnder(decisions, drafts, clash, key) >= 2
  {
    hide HasQuestion, WithConflicts, FindConflicts, ClashingUnder, ConflictTwice, Occurs, UniqueQuestions;
    var conflicts := FindConflicts(decisions, drafts, clash);
    ConflictsAreAsked(table, conflicts);
    OccursTwice(table, conflicts);
    forall key ensures Occurs(conflicts, key) == ClashingUnder(decisions, drafts, clash, key) {
      OccursInFound(decisions, drafts, clash, key);
    }
  }

  /** Two drafts clash with a decision. */
  ghost predicate ClashTwice(d: D.Decision, drafts: seq<Draft>, clash: Clash) {
    exists i, j :: 0 <= i < j < |drafts| && clash(d, drafts[i]) && clash(d, drafts[j])
  }

  ghost predicate ClashOnce(d: D.Decision, drafts: seq<Draft>, clash: Clash) {
    exists i :: 0 <= i < |drafts| && clash(d, drafts[i])
  }

  lemma {:induction false} ClashingCounts(d: D.Decision, drafts: seq<Draft>, clash: Clash)
    ensures Clashing(d, drafts, clash) >= 1 <==> ClashOnce(d, drafts, clash)
    ensures Clashing(d, drafts, clash) >= 2 <==> ClashTwice(d, drafts, clash)
  {
    if drafts != [] {
      var n := |drafts| - 1;
      var first := drafts[..n];
      ClashingCounts(d, first, clash);
      assert forall i :: 0 <= i < n ==> first[i] == drafts[i];
    }
  }

  /** The decisions' questions have different keys. */
  ghost predicate KeysApart(decisions: seq<D.Decision>) {
    forall i, j :: 0 <= i < j < |decisions| ==> QuestionKeyFor(decisions[i].key) != QuestionKeyFor(decisions[j].key)
  }

  lemma {:induction false} UnderOneKey(decisions: seq<D.Decision>, drafts: seq<Draft>, clash: Clash, key: string)
    requires KeysApart(decisions)
    ensures forall d :: d in decisions && QuestionKeyFor(d.key) == key ==>
              ClashingUnder(decisions, drafts, clash, key) == Clashing(d, drafts, clash)
    ensures (forall d :: d in decisions ==> QuestionKeyFor(d.key) != key) ==>
              ClashingUnder(decisions, drafts, clash, key) == 0
  {
    hide QuestionKeyFor, Clashing;
    if decisions != [] {
      var n := |decisions| - 1;
      UnderOneKey(decisions[..n], drafts, clash, key);
      assert decisions == decisions[..n] + [decisions[n]];
      if QuestionKeyFor(decisions[n].key) == key {
        forall d | d in decisions[..n] ensures QuestionKeyFor(d.key) != key {
          var i :| 0 <= i < n && decisions[..n][i] == d;
          assert decisions[i] == d;
        }
      }
    }
  }

  /** For decisions whose question keys differ, it fails exactly when some decision without a stored
      question clashes with two drafts. */
  lemma DecisionClashesTwice(table: seq<Question>, decisions: seq<D.Decision>, drafts: seq<Draft>, clash: Clash)
    requires UniqueQuestions(table) && KeysApart(decisions)
    ensures WithConflicts(table, FindConflicts(decisions, drafts, clash)).None? <==>
            exists d :: d in decisions && !HasQuestion(table, QuestionKeyFor(d.key)) && ClashTwice(d, drafts, clash)
  {
    hide HasQuestion, WithConflicts, FindConflicts, ClashingUnder, Clashing, QuestionKeyFor, UniqueQuestions,
         KeysApart, ClashTwice;
    DetectedCollideExactly(table, decisions, drafts, clash);
    forall key
      ensures ClashingUnder(decisions, drafts, clash, key) >= 2 <==>
              exists d :: d in decisions && QuestionKeyFor(d.key) == key && ClashTwice(d, drafts, clash)
    {
      UnderOneKey(decisions, drafts, clash, key);
      forall d ensures Clashing(d, drafts, clash) >= 2 <==> ClashTwice(d, drafts, clash) {
        ClashingCounts(d, drafts, clash);
      }
    }
  }

  // ---------------------------------------------------------------- question keys of numbered decisions

  /** Twenty characters hold the prefix and seventeen digits. */
  lemma KeyOfNumber(n: nat)
    requires |Text.Pad3(n)| <= 17
    ensures QuestionKeyFor(D.DecisionKey(n)) == CONFLICT_PREFIX + Text.Pad3(n)
  {
    hide Text.Pad3;
    var key := D.DecisionKey(n);
    assert key[..|D.DECISION_PREFIX|] == D.DECISION_PREFIX && key[|D.DECISION_PREFIX|..] == Text.Pad3(n);
  }

  /** While they are not cut, the question keys of numbered decisions are distinct. */
  lemma KeysOfNumbersDiffer(m: nat, n: nat)
    requires |Text.Pad3(m)| <= 17 && |Text.Pad3(n)| <= 17
    ensures QuestionKeyFor(D.DecisionKey(m)) == QuestionKeyFor(D.DecisionKey(n)) <==> m == n
  {
    hide Text.Pad3, QuestionKeyFor;
    KeyOfNumber(m);
    KeyOfNumber(n);
    var a, b := CONFLICT_PREFIX + Text.Pad3(m), CONFLICT_PREFIX + Text.Pad3(n);
    if a == b {
      assert a[3..] == Text.Pad3(m) && b[3..] == Text.Pad3(n);
      Text.Pad3Injective(m, n);
    }
  }

  /** The decisions listed from a numbered log have different question keys, as long as no number has
      more than seventeen digits. */
  lemma ListedKeysApart(log: seq<D.Decision>)
    requires D.Numbered(log) && |log| < Text.Pow10(17)
    ensures KeysApart(D.ListActive(log))
  {
    hide Text.Pad3, Text.Pow10, QuestionKeyFor, D.DecisionKey;
    var listed := D.ListActive(log);
    forall i, j | 0 <= i < j < |listed| ensures QuestionKeyFor(listed[i].key) != QuestionKeyFor(listed[j].key) {
      D.ListedOnce(log, i, j);
      D.ListedFromLog(log, listed[i]);
      D.ListedFromLog(log, listed[j]);
      var m :| 0 <= m < |log| && log[m] == listed[i];
      var n :| 0 <= n < |log| && log[n] == listed[j];
      Text.Pad3Length(m + 1, 17);
      Text.Pad3Length(n + 1, 17);
      KeysOfNumbersDiffer(m + 1, n + 1);
    }
  }

  /** So two drafts that clash with one active decision are enough to fail. */
  lemma TwoDraftsOneDecision(table: seq<Question>, log: seq<D.Decision>, d: D.Decision, drafts: seq<Draft>,
                             clash: Clash)
    requires UniqueQuestions(table) && D.Numbered(log) && |log| < Text.Pow10(17)
    requires d in log && d.active && ClashTwice(d, drafts, clash) && !HasQuestion(table, QuestionKeyFor(d.key))
    ensures WithConflicts(table, FindConflicts(D.ListActive(log), drafts, clash)).None?
  {
    hide Text.Pow10, QuestionKeyFor, ClashTwice, WithConflicts, FindConflicts, D.Numbered, UniqueQuestions,
         HasQuestion;
    D.ActiveIsListed(log, d);
    ListedKeysApart(log);
    DecisionClashesTwice(table, D.ListActive(log), drafts, clash);
  }

  // ---------------------------------------------------------------- the loops over the question table

  /** build_question_cards. */
  method BuildCards(questions: seq<QuestionDraft>) returns (cards: seq<QuestionDraft>)
    ensures cards == Cards(questions)
  {
    cards := [];
    for i := 0 to |questions|
      invariant cards == Cards(questions[..i])
    {
      assert questions[..i + 1][..i] == questions[..i];
      if !HasCard(cards, questions[i].key) {
        cards := cards + [questions[i]];
      }
    }
    assert questions[..|questions|] == questions;
  }

  /** _upsert_questions. */
  method UpsertQuestions(table: seq<Question>, cards: seq<QuestionDraft>) returns (next: seq<Question>)
    ensures next == Upserted(table, cards)
  {
    next := table;
    for i := 0 to |cards|
      invariant next == Upserted(table, cards[..i])
    {
      assert cards[..i + 1][..i] == cards[..i];
      if !HasQuestion(table, cards[i].key) {
        next := next + [Engine.Question(cards[i].key, cards[i].text, cards[i].related, None)];
      }
    }
    assert cards[..|cards|] == cards;
  }

  /** _create_conflict_questions, with the unique constraint on the keys. */
  method AskAboutConflicts(table: seq<Question>, conflicts: seq<Conflict>) returns (next: Option<seq<Question>>)
    ensures next == WithConflicts(table, conflicts)
  {
    hide HasQuestion, ConflictKey;
    var now := table;
    for i := 0 to |conflicts|
      invariant WithConflicts(table, conflicts[..i]) == Some(now)
    {
      assert conflicts[..i + 1][..i] == conflicts[..i];
      var key := ConflictKey(conflicts[i]);
      if HasQuestion(table, key) {
        continue;
      }
      if HasQuestion(now, key) {
        CollisionIsFinal(table, conflicts, i + 1);
        return None;
      }
      now := now + [Engine.Question(key, conflicts[i].message, Some(conflicts[i].requirementKey), None)];
    }
    assert conflicts[..|conflicts|] == conflicts;
    return Some(now);
  }

  lemma {:induction false} CollisionIsFinal(table: seq<Question>, conflicts: seq<Conflict>, i: nat)
    requires i <= |conflicts| && WithConflicts(table, conflicts[..i]).None?
    ensures WithConflicts(table, conflicts).None?
  {
    if i < |conflicts| {
      assert conflicts[..|conflicts| - 1][..i] == conflicts[..i];
      CollisionIsFinal(table, conflicts[..|conflicts| - 1], i);
    } else {
      assert conflicts[..i] == conflicts;
    }
  }

  // ---------------------------------------------------------------- one draft

  /** _collect_answers: the answered questions. */
  function AnswersOf(table: seq<Question>): map<string, string> {
    if table == [] then map[]
    else
      var n := |table| - 1;
      var before := AnswersOf(table[..n]);
      if table[n].answer.Some? then before[table[n].key := table[n].answer.value] else before
  }

  lemma {:induction false} AnswerKeys(table: seq<Question>, key: string)
    ensures key in AnswersOf(table) <==> exists q :: q in table && q.key == key && q.answer.Some?
  {
    if table != [] {
      var n := |table| - 1;
      AnswerKeys(table[..n], key);
      assert table == table[..n] + [table[n]];
    }
  }

  /** What is collected for an answered question is the user's answer to it. */
  lemma {:induction false} AnswersAreTheUsers(table: seq<Question>, q: Question)
    requires UniqueQuestions(table) && q in table && q.answer.Some?
    ensures q.key in AnswersOf(table) && AnswersOf(table)[q.key] == q.answer.value
  {
    var n := |table| - 1;
    assert table == table[..n] + [table[n]];
    if q != table[n] {
      var i :| 0 <= i < n && table[..n][i] == q;
      assert table[i].key != table[n].key;
      AnswersAreTheUsers(table[..n], q);
    }
  }

  /** A question about the requirement is stored with the answer `x`. */
  ghost predicate AnswersTo(questions: seq<QuestionDraft>, table: seq<Question>, key: string, x: string) {
    exists q, t :: q in questions && t in table && q.related == Some(key) && t.key == q.key && t.answer == Some(x)
  }

  lemma {:induction false} AnswerForFinds(questions: seq<QuestionDraft>, answers: map<string, string>, key: string)
    ensures match AnswerFor(questions, answers, key)
            case Some(x) => key != "" && exists q :: q in questions && q.related == Some(key) && q.key in answers &&
                                                     answers[q.key] == x
            case None => key == "" || forall q :: q in questions && q.related == Some(key) ==> q.key !in answers
  {
    if questions != [] {
      var n := |questions| - 1;
      AnswerForFinds(questions[..n], answers, key);
      assert questions == questions[..n] + [questions[n]];
    }
  }

  /** The answer a requirement is promoted with is one the user gave to a question about it, and there
      is none exactly when no such question is answered. */
  lemma AnswerForIsTheUsers(questions: seq<QuestionDraft>, table: seq<Question>, key: string)
    requires UniqueQuestions(table)
    ensures match AnswerFor(questions, AnswersOf(table), key)
            case Some(x) => key != "" && AnswersTo(questions, table, key, x)
            case None => key == "" || forall x :: !AnswersTo(questions, table, key, x)
  {
    hide UniqueQuestions, AnswersOf, AnswerFor;
    var answers := AnswersOf(table);
    AnswerForFinds(questions, answers, key);
    match AnswerFor(questions, answers, key)
    case Some(x) =>
      var q :| q in questions && q.related == Some(key) && q.key in answers && answers[q.key] == x;
      AnswerKeys(table, q.key);
      var t :| t in table && t.key == q.key && t.answer.Some?;
      AnswersAreTheUsers(table, t);
    case None =>
      forall t | t in table && t.answer.Some? ensures t.key in answers {
        AnswersAreTheUsers(table, t);
      }
  }

  /** An analysis requirement as a round of drafting hands it on: one whose answered questions all say
      `x` becomes CONFIRMED and carries `x` after its description, one without an answered question is
      handed on as it is, and so is everything else about it. */
  lemma PromotedWithTheAnswer(a: Analysis, table: seq<Question>, r: Draft)
    requires UniqueQuestions(table) && r in a.requirements
    ensures
      var p := Promoted(r, AnswerFor(a.questions, AnswersOf(table), r.key));
      && p in Refined(a, AnswersOf(table))
      && p.key == r.key && p.category == r.category && p.priority == r.priority
      && (forall x :: IsOnlyAnswer(a, table, r.key, x) ==>
            p.status == ConfirmedRequirement && p.description == r.description + " — 사용자 답변: " + x)
      && (IsUnanswered(a, table, r.key) ==> p.status == r.status && p.description == r.description)
  {
    hide UniqueQuestions, AnswersOf, AnswerFor, AnswersTo, Supplements;
    AnswerForIsTheUsers(a.questions, table, r.key);
    var i :| 0 <= i < |a.requirements| && a.requirements[i] == r;
    var all := PromotedAll(a, AnswersOf(table));
    assert all[i] in all;
  }

  ghost predicate IsOnlyAnswer(a: Analysis, table: seq<Question>, key: string, x: string) {
    && key != "" && AnswersTo(a.questions, table, key, x)
    && forall y :: AnswersTo(a.questions, table, key, y) ==> y == x
  }

  ghost predicate IsUnanswered(a: Analysis, table: seq<Question>, key: string) {
    key == "" || forall y :: !AnswersTo(a.questions, table, key, y)
  }

  /** The drafts that one round of drafting stores. */
  function DraftsFor(a: Analysis, table: seq<Question>): seq<Draft> {
    Refined(a, AnswersOf(table))
  }

  /** The question table after one round of drafting, unless its keys collide. */
  function Asked(a: Analysis, table: seq<Question>, conflicts: seq<Conflict>): Option<seq<Question>> {
    WithConflicts(Upserted(table, Cards(StillOpen(a.questions, AnswersOf(table)))), conflicts)
  }

  /** A round of drafting keeps the stored questions and their answers, and adds open ones only. */
  lemma AskedKeepsQuestions(a: Analysis, table: seq<Question>, conflicts: seq<Conflict>)
    requires UniqueQuestions(table) && Asked(a, table, conflicts).Some?
    ensures
      var next := Asked(a, table, conflicts).value;
      && UniqueQuestions(next) && table <= next
      && (forall q :: q in next && q !in table ==> q.answer.None?)
      && (forall q :: q in StillOpen(a.questions, AnswersOf(table)) ==> HasQuestion(next, q.key))
  {
    hide UniqueQuestions, HasQuestion, CardsUnique, WithConflicts, Upserted, Cards, StillOpen, AnswersOf, KeyBefore;
    var open := StillOpen(a.questions, AnswersOf(table));
    var mid := Upserted(table, Cards(open));
    CardsAreUnique(open);
    UpsertAdds(table, Cards(open));
    ConflictsAreAsked(mid, conflicts);
    forall q | q in open ensures HasQuestion(Asked(a, table, conflicts).value, q.key) {
      CardKeys(open, q.key);
      assert HasCard(open, q.key);
    }
  }

  lemma ClosedIsAnswered(table: seq<Question>, q: Question)
    requires q in table && !Engine.AnyOpen(table)
    ensures q.answer.Some?
  {
    assert !Engine.IsOpen(q);
  }

  /** When a round of drafting leaves no question open, none of the drafts it stores is UNKNOWN. */
  lemma {:induction false} NoOpenQuestionNoUnknown(a: Analysis, table: seq<Question>, conflicts: seq<Conflict>)
    requires Paired(a) && UniqueQuestions(table)
    requires Asked(a, table, conflicts).Some? && !Engine.AnyOpen(Asked(a, table, conflicts).value)
    ensures forall r :: r in DraftsFor(a, table) ==> !r.status.UnknownRequirement?
  {
    hide UniqueQuestions, Asked, Refined, AnswersOf, StillOpen, AnswerFor;
    var answers := AnswersOf(table);
    var next := Asked(a, table, conflicts).value;
    AskedKeepsQuestions(a, table, conflicts);
    forall r | r in DraftsFor(a, table) ensures !r.status.UnknownRequirement? {
      if r.status.UnknownRequirement? {
        UnknownsAreUnanswered(a, answers, r);
        var q :| q in a.questions && q.related == Some(r.key);
        if q.key in answers {
          AnsweredQuestionAnswers(a.questions, answers, q, r.key);
          assert false;
        } else {
          OpenMembers(a.questions, answers, q);
          var stored :| stored in next && stored.key == q.key;
          AnswerKeys(table, q.key);
          ClosedIsAnswered(next, stored);
          assert false;
        }
      }
    }
  }
}
