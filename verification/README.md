# A model of the AI delivery orchestrator

The orchestrator turns a plan written by a non-developer into an approved specification and a backlog.
Two transition tables drive it, Product for projects and Development for tasks. Everything it knows
lives in shared, mostly append-only tables: statuses, workflow events, checkpoints, audit rows, the
project's documents, classifications, questions, approvals and requirements, and the capability and MCP
registries. This project models those tables and the code that changes them, and proves what holds
over whole runs.

## How the files fit together

| file | content |
|---|---|
| `Vocabulary.dfy`, `Transitions.dfy` | the enumerations and both transition tables, in full |
| `TransitionEvents.dfy`, `Milestones.dfy`, `Routes.dfy` | the tables read by event, the events that lie behind each state, and runs that reach the ends |
| `Engine.dfy` | one `fire`, one timeout check and one row change as functions on the tables, and runs of them |
| `EngineRuns.dfy`, `Guarantees.dfy` | the invariant of all runs, and the promises that follow: resume, gates, logs, keys, retries |
| `Erasure.dfy`, `Interleaving.dfy`, `Reminders.dfy` | duplicates, independence of subjects, one reminder per stay |
| `StateMachines.dfy` | the classes that change the tables step by step, proved against `Engine.dfy` |
| `Policy.dfy`, `Capabilities.dfy`, `Expansions.dfy` | the rule ladder, the choice of a provider, planning and activation |
| `RequirementStores.dfy`, `Decisions.dfy`, `Consultations.dfy`, `Text.dfy` | project memory, string order and numbering |
| `Drafting.dfy` | the mock core agent, the requirement agent, the conflict detector and the question table |
| `WorkflowRules.dfy`, `Workflow.dfy` | what holds of a project between operations, and every public operation of the workflow |
| `RequestRules.dfy`, `Requests.dfy` | what each request answers and leaves behind, and requests in any order for any projects, with commit and rollback |

A `Session` carries a ghost trace of engine steps, and its invariant says that its tables are the run of
that trace. So every theorem about engine runs also holds of the runs of the workflow
(`Requests.EngineSupports`).

Conventions: a table is a sequence in order of insertion; the newest row by `created_at` is the last one,
because the clock is strictly increasing. Flushes are immediate. What the core agent and the classifier
return is an arbitrary parameter of the operation that calls them, and the conflict detector compares a
decision with a draft by an arbitrary predicate, `clash`. There are two assumptions: each UNKNOWN requirement is the related requirement of some question (proved of the mock
core agent), and a BLOCKED gate comes with a non-empty list of prohibited features. Configuration files
are constants; the capability file names no provider twice under one capability. A guard named
`deferred:` always holds.

## What the code does that its documentation does not say

- Idempotency keys are looked up in one table for all subjects. A command whose key another subject's
  event already holds is taken for a replay and its subject does not move. Subjects are independent
  exactly when no command meets such a row (`Interleaving.IndependentExactly`);
  `Interleaving.SharedKeyDisturbs` is a run in which one does.
- Decisions are listed by key as text, and DEC-1000 sorts before DEC-999. The listing is the order of
  insertion exactly when no two active decisions read the other way round than they count
  (`Decisions.ListedInOrderExactly`).
- Dropping a proposal from the allowlist can lower its decision: the rule for writing to an allowlisted
  server then no longer matches (`Policy.DroppingAllowlistLowersExactly` gives the exact condition,
  `Policy.DroppingAllowlistCanLower` a proposal). It never does for the proposals the planner builds
  (`Expansions.PlannedAreFresh`).
- An automatic activation skips a server whose id is the empty string, and then its capability stays
  missing (`Expansions.AutoExpansionClosesGap` says exactly when, `Expansions.NamelessStaysMissing` is
  such a case).
- Approving a pending capability registers a provider under the name of its proposal. That is a registered
  server exactly when the capability has a plan or is itself called like a server
  (`Expansions.ApprovalRegistersExactly`); otherwise the provider is one that does not exist, and in the
  last case a server that nobody planned for becomes approved
  (`Expansions.UnplannedIsRegisteredUnderItsOwnName`).
- In a mixed plan the members judged automatic are not activated, and an approval of the pending ones
  leaves them missing (`Expansions.MixedPlanLeavesMissing`).
- The conflict questions of one round read the stored keys once. The round fails exactly when, under a key
  not stored yet, two pairs of an active decision and a draft clash (`WorkflowRules.RoundCollidesExactly`);
  below 10^17 decisions, exactly when one active decision without a stored question clashes with two
  drafts (`WorkflowRules.RoundCollidesOnOneDecision`). `WorkflowRules.CollisionArises` is such a round.
- A task can be ready for merge without a passed gate, a CI run or a review: exceeding the repair limit leads
  straight to the user's review (`Routes.MergeWithoutCi`). Only the user's approval always lies behind
  (`Milestones.ReviewedPackagedMerged`).
- No row of either table leads to BLOCKED or MCP_CONNECTION_FAILED, so neither state is ever entered
  (`Guarantees.StaysInMachine`).

## Model

| member | source | states |
|---|---|---|
| Transitions.RowFor | app/orchestrator/transitions.py:39-345 | every row leads to a state that can be entered and passes no gate without its guard; checkpoint rows leave exception states only; a retry always returns to the checkpoint under can_retry |
| TransitionEvents.TableExactly | app/orchestrator/transitions.py:39-345 | an event has a row exactly in the states that define it, and there always the event's own row |
| TransitionEvents.EventDecidesRow | app/orchestrator/transitions.py:39-345 | in one machine an event leads to the same place under the same guard from every ordinary state, and from every exception state |
| TransitionEvents.GuardMeans | app/orchestrator/transition_guard.py:51-297 | what each guard asks for, in terms of the documents, classifications, questions, approvals, events and checkpoints on record |
| EngineRuns.EffectOnViews | app/orchestrator/state_machine.py:86-230 | a command changes the status, log, checkpoints and audit rows of its own subject only |
| EngineRuns.RunKeepsInv | app/orchestrator/state_machine.py:86-230 | after every run of fires, timeout checks and row changes: unbroken chains, checkpoints are the exits into exception states, reachable and recorded states only, keys unique, transitions audited in order, retries within the limit |
| Guarantees.CheckpointSavedExactly | app/orchestrator/state_machine.py:188-193 | a command adds the state it leaves to the checkpoints of its own subject exactly when it is applied and goes from outside the exception states into them; no other checkpoint changes |
| Guarantees.CheckpointsAreEntries | app/orchestrator/state_machine.py:188-193 | after every run the checkpoints of a subject are the states left at the events that entered the exception states, one for each such event and in order |
| Guarantees.CheckpointIsLastExit | app/orchestrator/state_machine.py:188-193 | in an exception state the latest checkpoint exists and is the state from which the run last entered the exception states; hops inside them never overwrite it |
| Guarantees.CheckpointEventResumes | app/orchestrator/state_machine.py:151-168 | an event that returns to the checkpoint lands exactly there, or its guard refuses it |
| Guarantees.NoCheckpointUnreachable | app/orchestrator/state_machine.py:155-167 | the rejection for a missing checkpoint cannot occur |
| Guarantees.RecordsPrecedeStates | app/orchestrator/transition_guard.py:159-197 | states behind the requirements approval, the PRD and the result approval, and checkpoints that could return to them, imply the record |
| Guarantees.StaysInMachine | app/orchestrator/transitions.py:320-359 | each subject stays among the states of its machine and never enters BLOCKED or MCP_CONNECTION_FAILED |
| Milestones.MilestonesHappened | app/orchestrator/transitions.py:39-345 | in every run, what lies behind a subject's state, or behind a state it could resume, is in its log |
| Milestones.ReviewedPackagedMerged | app/orchestrator/transitions.py:211-262 | a task is reviewed only after its gate passed and its pull request was built by CI, packaged only after a review approved it, and ready for merge only after the user approved it |
| Milestones.ReadyAfterSpecification | app/orchestrator/transitions.py:39-168 | a project is ready for development only after an analysis, a completed draft, an approval of it and a specification |
| Routes.TaskCanComplete | app/orchestrator/transitions.py:171-262 | a task whose result is approved can be completed |
| Routes.ProjectCanBecomeReady | app/orchestrator/transitions.py:39-110 | a project whose requirements are approved can become ready for development |
| Routes.MergeWithoutCi | app/orchestrator/transitions.py:215-247 | a witness: a run to READY_FOR_MERGE whose log has no passed gate, CI or review |
| Guarantees.LogExplainsStatus | app/orchestrator/state_machine.py:195-222 | the log is an unbroken chain of table rows from the initial state to the status, and the STATE_TRANSITION rows are the event log in order |
| Guarantees.OutcomeExactly | app/orchestrator/state_machine.py:102-186 | the outcome from the tables: replayed exactly under a stored key, illegal exactly without a row, no checkpoint exactly when the row needs one, otherwise applied to the row's or the checkpoint's state exactly when the guard holds |
| Guarantees.CommandIsAtomic | app/orchestrator/state_machine.py:102-230 | each command appends one audit row with the kind, states and time of its outcome; a rejected or replayed one changes nothing else and keeps its key unused; an applied one appends its event, moves its subject, and its key answers every later use |
| Guarantees.KeysAppliedOnce | app/orchestrator/state_machine.py:102-129 | no idempotency key is applied twice in a run |
| Guarantees.RetryAcceptedWithinLimit | app/orchestrator/transition_guard.py:276-297 | in a reachable FAILED state the k-th retry is accepted exactly when k is within the limit |
| Guarantees.RetriesBounded | app/orchestrator/transition_guard.py:276-297 | no subject ever exceeds its retry limit |
| Guarantees.ExhaustedChoicesAlwaysOpen | app/orchestrator/transitions.py:134-141 | the three choices after exhausted retries are accepted at any count, with their destinations in both machines |
| Erasure.ReplaysAreHarmless | app/orchestrator/state_machine.py:102-129 | deleting every replayed command from a run leaves the same statuses, events and checkpoints, and the same audit log without the replay rows |
| Interleaving.IndependentExactly | app/orchestrator/state_machine.py:102-222 | what an interleaved run leaves about a subject is what its own commands alone leave if and only if none of them meets another subject's event under its key |
| Interleaving.Independence | app/orchestrator/state_machine.py:131-222 | so subjects that share no key are independent |
| Interleaving.SharedKeyDisturbs | app/orchestrator/state_machine.py:103-129 | a witness of the failing side of IndependentExactly: a second project that does not move because a first one used its key |
| Reminders.OneReminderPerStay | app/orchestrator/timeout_checker.py:49-112 | between two reminders of a subject there is a transition |
| Reminders.CheckRemindsWhenOverdue | app/orchestrator/timeout_checker.py:49-79 | a check reminds exactly when the state is limited, the limit has passed since it was entered, and this stay has no reminder yet |
| StateMachines.StateMachine.Fire | app/orchestrator/state_machine.py:86-230 | the step-by-step method has exactly the outcome and effect of the value model on the tables and is one more step of the traced run |
| StateMachines.StateMachine.FindKey | app/orchestrator/state_machine.py:103-107 | finds the event stored under a key, if any |
| StateMachines.BuildIndex | app/orchestrator/state_machine.py:75-80 | the index maps every pair of a definition to its row and is refused exactly when a pair is defined twice |
| StateMachines.CheckpointStore.Latest | app/orchestrator/checkpoints.py:33-45 | the newest checkpoint of the subject |
| StateMachines.CheckpointStore.Save | app/orchestrator/checkpoints.py:16-31 | appends one checkpoint |
| StateMachines.StateMachine.Record | app/orchestrator/audit.py:19-47 | appends one audit row |
| StateMachines.TimeoutChecker.Check | app/orchestrator/timeout_checker.py:49-79 | one check step of the traced run; it notifies exactly when the stay is overdue and not yet reminded of |
| Policy.Decide | app/policy/engine.py:180-204 | the scan returns the first match of the ladder or the fallback |
| Policy.LadderIsMaximum | app/policy/engine.py:40-174 | first match is the most severe decision among all matching rules, USER_APPROVAL when none matches |
| Policy.DecisionBySignals | app/policy/engine.py:40-174 | the decision in terms of the risk signals alone |
| Policy.RaisingNeverLowers | app/policy/engine.py:40-174 | raising any risk signal never lowers the decision |
| Policy.DroppingAllowlistLowersExactly | app/policy/engine.py:40-174 | the exact condition under which leaving the allowlist lowers the decision |
| Policy.DroppingAllowlistCanLower | app/policy/engine.py:40-174 | a proposal that meets the condition: user approval on the allowlist, automatic off it |
| Policy.LeavingNeverLowersConnections | app/policy/engine.py:40-174 | for connections that are not reused, leaving the allowlist with any raised signals never lowers the decision |
| Policy.RaisingNeverLowersAggregate | app/expansion/service.py:226-230 | the aggregate over a list never drops when signals of its proposals are raised or connections leave the allowlist |
| Policy.AggregateMonotone | app/expansion/service.py:226-230 | place by place more severe decisions never have a less severe aggregate |
| Policy.AggregateIsMaximum | app/expansion/service.py:226-230 | the aggregate is the most severe of its decisions, AUTO_APPROVE for none |
| Policy.AggregateGrows | app/expansion/service.py:226-230 | order and repetition do not matter, and more proposals never lower the aggregate |
| Capabilities.Match | app/capabilities/matcher.py:21-25 | one entry for each required name |
| Capabilities.MatchIsFirst | app/capabilities/matcher.py:27-51 | the match is the least available provider by priority, type and name, and is none exactly when there is no available provider of a known capability |
| Capabilities.MatchInNumbers | app/capabilities/matcher.py:39-46 | no available provider has a smaller priority number than the match, nor the same one and an earlier type, nor the same type and a smaller name |
| Capabilities.MatchIgnoresRowOrder | app/capabilities/matcher.py:27-51 | the match does not depend on the order in which rows are read |
| Capabilities.MissingIsTheGap | app/capabilities/gap_analyzer.py:16-27 | the missing names are exactly the unmatched required ones, ascending and without repetition |
| Capabilities.RegisteringMatches | app/capabilities/registry.py:54-84 | registering an available provider matches its capability and changes no other match |
| Capabilities.CapabilityRegistry.Upsert | app/capabilities/registry.py:54-84 | creates or overwrites each provider, and fails exactly when a new provider is named twice |
| Capabilities.CapabilityRegistry.Sync | app/capabilities/registry.py:86-92 | the fold of the upserts of the file; it cannot fail on a well-formed file |
| Capabilities.SyncIsIdempotent | app/capabilities/registry.py:86-92 | synchronising twice is synchronising once |
| Capabilities.CapabilityRegistry.EnsureSeeded | app/capabilities/registry.py:94-97 | fills an empty registry only |
| Expansions.PlanDecision | app/expansion/planner.py:48-93 | the decision on a missing capability from catalog, server and allowlist alone; without a plan it always needs an expert |
| Expansions.PlanLooksUp | app/expansion/planner.py:48-93 | a plan keeps its capability and the catalog's strategy, and names a server only when the catalog and the server table have one |
| Expansions.RecordedSignals | app/mcp/connection.py:32-61 | every signal of a recorded proposal, for planned and unplanned capabilities |
| Expansions.RecordedByPlan | app/expansion/service.py:46-51 | the i-th recorded row belongs to the project, names the i-th missing capability, and its status follows from catalog, server and allowlist alone |
| Expansions.UsageDecides | app/mcp/connection.py:20-61 | which decisions each usage type can get |
| Expansions.PlannedAreFresh | app/mcp/connection.py:32-61 | every planned proposal is a connection that is not reused, so leaving the allowlist never lowers it |
| Expansions.RaisingNeverLowersPlans | app/expansion/service.py:104-111 | the decision on a list of missing capabilities never drops when planned signals are raised or servers leave the allowlist |
| Expansions.ExpansionService.PlanAndJudge | app/expansion/service.py:98-115 | every missing capability is planned, judged and recorded in order, with the status that belongs to its decision, and the answer is the aggregate |
| Expansions.ExpansionService.Activate | app/expansion/service.py:117-127 | activates exactly the automatic proposals with a server and reports their capabilities |
| Expansions.AutoExpansionClosesGap | app/expansion/service.py:117-127 | after an automatic decision the gap analysis of the same list misses exactly the capabilities planned on a server without id, so none unless such a server exists |
| Expansions.AutoExpansionSatisfies | app/expansion/service.py:117-127 | the same for everything that was required |
| Expansions.ReportedActivations | app/expansion/service.py:117-127 | the reported capabilities are exactly those that an automatic proposal with a server activates |
| Expansions.ReportedApprovals | app/expansion/service.py:129-153 | the reported capabilities are exactly those that a pending row connects |
| Expansions.ActivationKeepsServers | app/expansion/service.py:117-127 | an automatic activation changes no server, since only approved servers are automatic |
| Expansions.ExpansionService.ApprovePending | app/expansion/service.py:129-153 | exactly the pending rows of the project become approved, all other rows stay, and the connected capabilities are reported |
| Expansions.ApprovalMatches | app/expansion/service.py:129-153 | every capability that a pending row connects becomes matched, and no other match changes |
| Expansions.ApprovalOfServers | app/mcp/registry.py:114-120 | exactly the registered servers that pending rows name become approved |
| Expansions.NamelessStaysMissing | app/expansion/service.py:120-126 | a witness: an automatic capability planned on the empty id stays missing |
| Expansions.RecordsNameServersExactly | app/expansion/service.py:188-205 | a recorded proposal names a registered server exactly when its capability has a plan or is called like one |
| Expansions.ApprovalRegistersExactly | app/expansion/service.py:144-151 | for all pending rows: the registered provider is the target of the row, a registered server exactly under that condition, and then approved |
| Expansions.UnplannedIsRegisteredUnderItsOwnName | app/expansion/planner.py:82-93 | an unplanned capability that passes gets a provider of its own name, a registered server exactly when one is called like it, which is then approved |
| Expansions.ApprovalLeavesMissing | app/expansion/service.py:129-153 | an approval leaves missing exactly what was missing and no pending row connects |
| Expansions.MixedPlanLeavesMissing | app/expansion/service.py:129-153 | of one plan, exactly the automatic and the blocked members stay missing (and those without a name) |
| RequirementStores.RequirementStore.Sync | app/project_memory/requirement_store.py:34-87 | fails exactly when a new key is listed twice, and otherwise leaves one of the stores the drafts allow, other projects untouched |
| RequirementStores.RequirementStore.Record | app/project_memory/version_store.py:15-27 | writes a row with its version row |
| RequirementStores.SyncMirrorsDrafts | app/project_memory/requirement_store.py:34-87 | the active rows are exactly the drafts' keys, each equal field by field to its last draft; no row is removed, and a row without a draft is kept, inactive |
| RequirementStores.SyncIsRecorded | app/project_memory/version_store.py:15-27 | the newest history entry of a key carries the description and status of its last draft, or of the row taken out of use |
| RequirementStores.DraftsAreFollowed | app/project_memory/requirement_store.py:47-79 | the first loop fails exactly when a new key is listed twice, and otherwise follows the drafts |
| RequirementStores.RepeatingAddsNothing | app/project_memory/requirement_store.py:64-78 | repeating a synchronisation changes no row and adds no version |
| RequirementStores.HistoriesAreGapless | app/project_memory/version_store.py:15-36 | after any sequence of calls each history is the versions 1..version, the last with the row's text and status |
| RequirementStores.RowsAndHistoriesLast | app/project_memory/requirement_store.py:81-87 | rows are never removed and histories only grow |
| Decisions.DecisionLog.Append | app/project_memory/decision_log.py:16-41 | appends a decision under the next number |
| Decisions.KeysDistinct | app/project_memory/decision_log.py:25-41 | keys are distinct over any sequence of additions and supersessions |
| Decisions.ListedInInsertionOrder | app/project_memory/decision_log.py:43-53 | up to 999 decisions are listed in order of insertion |
| Decisions.OrderBreaksAtThousand | app/project_memory/decision_log.py:43-53 | with decisions 999 and 1000 active the listing is not the order of insertion |
| Decisions.ListedInOrderExactly | app/project_memory/decision_log.py:43-57 | for every sequence of additions and supersessions, the listing is the order of insertion exactly when no later active decision's key sorts before an earlier one's |
| Text.Pad3Injective | app/project_memory/decision_log.py:33-35 | zero-padded numbers are distinct for distinct counts |
| Consultations.ConsultationService.RecordAnswer | app/consultation/service.py:77-106 | appends the answer to the package and marks it answered |
| Drafting.Analyze | app/product/core_agent.py:62-130 | gapless numbering, at most twenty confirmed action sentences, two unknowns each with its own question; so unknowns are paired and keys distinct |
| Drafting.Refine | app/product/requirement_agent.py:46-85 | the two loops compute the refined requirements and the questions still open |
| Drafting.UnknownsAreUnanswered | app/product/requirement_agent.py:46-66 | what stays UNKNOWN is an unknown requirement about which no question was answered |
| Drafting.AnswersAreTheUsers | app/product/workflow.py:720-726 | what is collected under an answered question's key is the user's answer to it |
| Drafting.AnswerForIsTheUsers | app/product/requirement_agent.py:47-51 | the answer a requirement is promoted with is one the user gave to a question about it, and there is none exactly when no such question is answered |
| Drafting.PromotedWithTheAnswer | app/product/requirement_agent.py:53-66 | a requirement whose answered questions say x is handed on as CONFIRMED with x after its description; one without an answered question as it is |
| WorkflowRules.RequirementStored | app/product/workflow.py:191-219 | after a round of drafting the stored row of a requirement is CONFIRMED with the user's answer, or exactly the analysis' when no question about it is answered |
| WorkflowRules.SupplementStored | app/product/requirement_agent.py:68-80 | a standard supplement whose key the analysis does not use is stored as INFERRED |
| Drafting.RefinedKeys | app/product/requirement_agent.py:69-80 | refining keeps the keys of the analysis, adds those of the standard supplements and repeats none |
| Drafting.DetectConflicts | app/project_memory/conflict_detector.py:45-72 | one conflict for each pair of a decision and a draft that clash, in the order of the double loop |
| Drafting.CardsAreUnique | app/product/question_generator.py:6-11 | no two cards share a key |
| Drafting.UpsertAdds | app/product/workflow.py:728-747 | stored questions stay, each card has its question afterwards, keys stay unique, and what is added is open |
| Drafting.AskAboutConflicts | app/product/workflow.py:749-771 | the loop with its stale key set computes the conflict questions or collides |
| Drafting.ConflictsAreAsked | app/product/workflow.py:749-771 | it collides exactly when two conflicts share a key the table does not have; otherwise every conflict is asked about |
| Drafting.DetectedCollideExactly | app/product/workflow.py:749-771 | the questions about detected conflicts collide exactly when two pairs of a decision and a draft clash under a key that is not stored |
| Drafting.KeysOfNumbersDiffer | app/product/workflow.py:759 | the question keys of numbered decisions are distinct while they are not cut to twenty characters |
| Drafting.QuestionKeyIs | app/product/workflow.py:759 | the key of a conflict question is Q-C with at most seventeen characters of the decision's number |
| Drafting.TwoDraftsOneDecision | app/project_memory/conflict_detector.py:45-72 | two drafts that clash with one active decision without a stored question collide |
| WorkflowRules.RoundCollidesExactly | app/product/workflow.py:200-205 | with distinct requirement keys, a round of drafting fails exactly when two pairs of an active decision and a draft clash under a key that is not stored |
| WorkflowRules.RoundCollidesOnOneDecision | app/product/workflow.py:200-205 | while question keys are not cut, exactly when some active decision without a stored question clashes with two drafts |
| WorkflowRules.CollisionArises | app/product/workflow.py:754-770 | a witness: one logged decision and an analysis of two requirements |
| Drafting.NoOpenQuestionNoUnknown | app/product/workflow.py:191-219 | when a round of drafting leaves no question open, none of its requirements is UNKNOWN |
| WorkflowRules.DraftSettles | app/product/workflow.py:191-219 | after its event a draft is at rest: input state exactly when a question is open, approval state only without active UNKNOWNs |
| Workflow.ProductDefinitionWorkflow.Emit | app/product/workflow.py:686-702 | the outcome is the engine's verdict on the project, and other projects do not change |
| Workflow.ProductDefinitionWorkflow.DraftRequirements | app/product/workflow.py:191-219 | always completes unless a key collides, with the conflicts detected against the decisions logged so far; then the requirements, questions, event and status are those of the draft |
| Workflow.ProductDefinitionWorkflow.RunAnalysis | app/product/workflow.py:118-187 | refused exactly in a wrong state or without planning input; otherwise the exact chain, classification and end state of each gate, the project at rest |
| Workflow.ProductDefinitionWorkflow.AnswerQuestion | app/product/workflow.py:230-260 | accepts exactly an open question in the input state; the last answer redrafts, any other leaves the project waiting |
| Workflow.ProductDefinitionWorkflow.DecideRequirements | app/product/workflow.py:264-295 | an approval leads through specification and gap analysis to the end its decision says, with nothing missing when development is ready; anything else redrafts |
| Workflow.ProductDefinitionWorkflow.DecideReducedScope | app/product/workflow.py:297-339 | an approval is logged and redrafts, anything else cancels |
| Workflow.ProductDefinitionWorkflow.DecideExpansion | app/product/workflow.py:341-378 | an approval approves what is pending, matches exactly the capabilities that pending rows connect, and completes the backlog; anything else rejects the expansion |
| Workflow.ProductDefinitionWorkflow.ApplyConsultationAnswer | app/product/workflow.py:382-424 | a waiting project always has a package; each direction has its exact chain and end |
| Workflow.ProductDefinitionWorkflow.UnblockAfterExpert | app/product/workflow.py:426-454 | unblocking resumes CLASSIFYING or EXPANSION_PROPOSING, never anything else, and goes on to rest |
| Workflow.ProductDefinitionWorkflow.GenerateSpecification | app/product/workflow.py:487-510 | PRD, gap analysis and the exact continuation; when development is ready nothing required is missing |
| Workflow.ProductDefinitionWorkflow.FollowDecision | app/product/workflow.py:543-578 | each of the four decisions has its event, its end and its consultation |
| Workflow.ProductDefinitionWorkflow.GenerateBacklog | app/product/workflow.py:512-528 | the backlog is written before the event that needs it |
| WorkflowRules.GateApplies | app/orchestrator/transitions.py:39-168 | every gate event is applied in CLASSIFYING, with the state it leads to |
| WorkflowRules.ExpertAnswerApplies | app/orchestrator/transitions.py:39-168 | every direction of an expert's answer is applied; unblocking leads to the checkpoint |
| WorkflowRules.EventsStayInOrder | app/orchestrator/transition_guard.py:98-118 | one more event keeps expert reviews before unblocking answers |
| WorkflowRules.ClassificationInherits | app/product/workflow.py:135-149 | a new classification inherits the expert's confirmation |
| WorkflowRules.ConfirmingKeeps | app/product/workflow.py:426-436 | an expert's confirmation changes that flag of the newest classification and nothing else |
| Requests.Api.Handle | app/api/projects.py:140-152 | the answer of each kind of request from the project's earlier state; when done, its whole effect: the approval record with the request's own decision, the answer, input or package, the events in order, the requirements, and the servers, providers and proposals; otherwise no table changes; other projects never do |
| Requests.Api.Serve | app/api/approvals.py:39-63 | any sequence of requests is a sequence of such steps from the first tables to the last; every project is at rest after it and nothing recorded is lost |
| Requests.Api.Remind | app/orchestrator/timeout_checker.py:49-79 | a timeout check leaves a project at rest and other projects alone |
| Requests.Api.AddInput | app/api/documents.py:43-79 | new input is accepted in any state and keeps the project at rest |
| Requests.Api.UploadDocument | app/api/documents.py:43-79 | idea and reference documents are stored in any state, other types are refused |
| Requests.Api.ManualConsultation | app/product/workflow.py:586-619 | a package on request, without any change of state |
| Requests.EngineSupports | app/orchestrator/transition_guard.py:192-197 | what the engine guarantees of every run holds of every project the workflow serves |

## Left out

- Transitions.RowFor: the tables are functions of a state and an event, so that the literal tuples hold no duplicate pair is not a theorem; `StateMachines.BuildIndex` states what the constructor does with any list of definitions.
- StateMachines.StateMachine.Fire: actor, reason, status_reason, checkpoint payload and the returned record are not modelled, and audit rows of other kinds (policy decisions, consultations) are not kept.
- StateMachines.CheckpointStore.Save: the payload of a checkpoint is not modelled.
- StateMachines.StateMachine.Record: actor, machine, reason and payload of an audit row are not modelled.
- StateMachines.TimeoutChecker.Check: a check looks at the subject's current state at the session's next time stamp; the original takes any state and time from its caller.
- Capabilities.CapabilityRegistry.Upsert: the description of a capability is not modelled.
- Expansions.ExpansionService.PlanAndJudge: the summary text, its alternatives and the audit rows of policy decisions are not modelled.
- Drafting.DetectConflicts: the comparison of the texts of a decision and a draft, by shared tokens and containment, is the parameter `clash`.
- Drafting.Analyze: the sentence split, the action keywords, the capability keywords and the deliverable type are parameters or left out.
- Workflow.ProductDefinitionWorkflow.RunAnalysis: a classification keeps its gate, prohibited features and confirmation; the automation class, risky features, reasons and messages are left out.
- Workflow.ProductDefinitionWorkflow.DecideReducedScope: the text of the logged decision, built from the risky features, is a parameter.
- Workflow.ProductDefinitionWorkflow.AnswerQuestion: time stamps, the reason and the source of a decision are not modelled.
- Workflow.ProductDefinitionWorkflow.DecideRequirements: the comment kept as feedback, the PRD and the backlog are not modelled as text; only that the documents exist.
- Requests.Api.Handle: authentication, ownership, response bodies and concurrent requests are not modelled; requests run one after another.
- Consultations.ConsultationService.RecordAnswer: packages have no text, masking or time stamps; the action text of an answer is its direction, and the audit row is not kept.
- Policy.Decide: reasons and alternatives are texts and are not modelled.
- Expansions.ExpansionService.ApprovePending: rows are taken in table order, where the original leaves the order to the database; permissions, tools and names of servers are not modelled.
- RequirementStores.RequirementStore.Sync: the change reason of a version is not modelled.
- RequirementStores.RequirementStore.Record: the change reason of a version is not modelled.
- Rendering of the PRD, the backlog and the consultation package, and the masking of secrets: text formatting.
- YAML loading, SQL, migrations, sessions and logging: plumbing.
- The agent factory, agent registry, MCP health check and feedback store: each is settled by reading one branch.
- The Development machine has no workflow above it in the original; only its engine runs are covered.
