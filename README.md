# pm-assistant planning engine in Dafny

The planner leads a user through five stages:
- define the outcome;
- strategic constraints;
- phases and milestones;
- tasks and subtasks;
- risk and governance.

After the fifth stage, the session is `complete`.

Each turn works like this:
- The user's message is logged.
- A reply is generated.
- A structured record is extracted from the conversation.
- The record goes to the stage's completeness gate, then to a cross-stage consistency check.
- If it passes both, it is committed under the current stage and the session moves one stage on.
- Otherwise, a conflict reply replaces the generated one.

When all five records are present, they are compiled into a nested project plan. The plan uses one of two layouts:
- general: milestone, then task, then subtask;
- program: pillar, then milestone, then task, then subtask.

The plan is rendered as Markdown.

This project models that engine:
- the stage order and the session object (`Sessions`);
- the stage record types (`StageData`) and the plan types (`Plan`);
- the prompt tables (`Prompts`);
- the stage gates and the extraction filter (`StageHandlers`);
- the consistency rules (`ContradictionDetector`);
- the turn controller (`StateMachine`);
- the plan compiler (`PlanCompiler`);
- the Markdown renderer (`MarkdownRenderer`);
- the in-memory session store (`MemoryStore`);
- the stage labels and progress percentage of the chat route (`Chat`).

`Text` holds ASCII models of the Python string built-ins the core uses:
- `strip`, `lower`, `upper` and `capitalize`;
- `in` and the first occurrence of a substring;
- `join`;
- integer formatting;
- sorting of strings.

`Wrappers` holds `Option`.

## How the model is built

Where the source changes state, the model is imperative:
- **`Session`** is a class with the source's fields, and `AdvanceStage` is a method that modifies it.
- **`process_message`** is the method `StateMachine.ProcessMessage`. It changes the session in place. It is proved equal to the pure specification `StateMachine.Turn`. The properties of a turn are lemmas about `Turn`.
- **The compiler's loops** are methods proved against spec functions:
  - the `setdefault`/`append` grouping;
  - the milestone loop;
  - the pillar dictionary with its insertion order.
- **The renderer** grows a `lines` sequence in loops. Each loop is proved equal to a pure line-list function. Further lemmas say which elements that list holds. They are statements about list elements. Milestone and pillar headings are elements that begin with "\n", so they start "## " lines of the document only once the list is joined.
- **The store** is a class over a `map` field.

The two language-model calls are inputs of the turn:
- the reply call returns a `GeneratedReply`;
- the extraction call returns an `ExtractionResponse`: no tool block, an exception, or the tool input as a typed record.

Clock values are parameters: `now` for message and `updated_at` timestamps, `generatedAt` for the plan.

The central invariant is `StateMachine.Valid`. It has four parts:
- the keys of `stage_data` are exactly the stages before `current_stage`;
- each stored record has its stage's shape and passed its gate;
- `is_complete` holds exactly at `Complete`;
- a stored task list is accepted by the consistency check.

A fresh session satisfies it, every turn keeps it, and at `Complete` all five records are present, so the plan compiler's precondition holds.

## Model

| member | source | states |
|---|---|---|
| Sessions.Index | app/models/session.py:52 | `STAGE_ORDER.index(s)`: the position at which the stage occurs in the order |
| Sessions.StageOrderShape | app/models/session.py:17-24 | the order lists six stages, each once, starting at DefineOutcome and ending at Complete, and it contains every stage |
| Sessions.ValueInjective | app/models/session.py:8-14 | distinct stages have distinct enum values, so keying stage data by value loses nothing |
| Sessions.Next | app/models/session.py:51-54 | on a non-terminal stage, the next stage is one position further in the order; at Complete, the stage stays Complete |
| Sessions.StagesBeforeNext | app/models/session.py:51-54 | advancing from a non-terminal stage adds exactly that stage to the set of stages already passed |
| Sessions.StagesBeforeComplete | app/models/session.py:17-24 | the stages before Complete are exactly the five active stages |
| Sessions.FreshSession | app/models/session.py:38-46 | a new session keeps its id, has no project type, is at DefineOutcome (index 0), and has no messages, no stage data and is_complete false |
| Sessions.Session.constructor | app/models/session.py:38-46 | the constructed object's fields are those of the fresh session |
| Sessions.Session.FromValue | app/storage/memory_store.py:21 | `Session(**data)` builds a new object whose fields are the stored snapshot |
| Sessions.Session.ClaudeMessages | app/models/session.py:48-49 | one role/content pair per message, same length and order |
| Sessions.Session.AdvanceStage | app/models/session.py:51-55 | current_stage becomes the next stage (unchanged at Complete) and updated_at is set; messages, stage_data and is_complete are untouched |
| StageData.DefaultConstraints | app/models/stage_data.py:13-19 | a constraints record with every field at its default has all optionals None and both lists empty |
| Prompts.GetStageTransitionMessage | app/agent/prompts.py:240-241 | the table entry when the stage has one, otherwise "Moving to the next stage." |
| Prompts.PromptTablesCoverActiveStages | app/agent/prompts.py:168-206 | system and extraction prompts exist for exactly the five non-terminal stages |
| Prompts.SystemPromptsStartWithMasterContext | app/agent/prompts.py:28-174 | every stage system prompt begins with the master context |
| Prompts.TransitionMessageForEveryAdvance | app/agent/prompts.py:212-241 | transition messages exist for exactly the stages an advance can reach, so an advance never uses the default; DefineOutcome gets the default |
| StageHandlers.AttemptExtraction | app/agent/stage_handlers.py:77-91 | a record is returned iff the response carried a tool input of the stage's shape that passes the stage's gate; it is then that record; no tool block or an exception gives None |
| StageHandlers.HandlersCoverActiveStages | app/agent/stage_handlers.py:160-166 | there is a handler for exactly the non-terminal stages, and no two stages share a record shape |
| StageHandlers.OutcomeHasRequiredFields | app/agent/stage_handlers.py:104-110 | the outcome gate (a definition); SentinelBlocksOutcome proves each case that closes it |
| StageHandlers.ConstraintsHasRequiredFields | app/agent/stage_handlers.py:120-121 | the constraints gate (a definition); DefaultConstraintsIncomplete proves that the defaults fail it and a deadline passes it |
| StageHandlers.PhasesHasRequiredFields | app/agent/stage_handlers.py:131-132 | the phases gate (a definition); PhasesGateBoundary proves its thresholds |
| StageHandlers.TasksHasRequiredFields | app/agent/stage_handlers.py:142-143 | the tasks gate (a definition); TasksGateAcceptsPlaceholderOwner proves that one owned task passes it and no owner or no task fails it |
| StageHandlers.RiskGovernanceHasRequiredFields | app/agent/stage_handlers.py:153-154 | the risk-and-governance gate (a definition); RiskGovernanceGateNeedsBoth proves that a risk and a stakeholder are each required |
| StageHandlers.SentinelBlocksOutcome | app/agent/stage_handlers.py:104-110 | any of the three required outcome strings empty or "MISSING", or a project type other than "general" and "program", keeps the outcome gate closed |
| StageHandlers.DefaultConstraintsIncomplete | app/agent/stage_handlers.py:120-121 | an all-default constraints record fails its gate; adding a non-empty deadline passes it |
| StageHandlers.PhasesGateBoundary | app/agent/stage_handlers.py:131-132 | two phases and one milestone pass; one phase, or no milestone, fails |
| StageHandlers.TasksGateAcceptsPlaceholderOwner | app/agent/stage_handlers.py:142-143 | a single task owned by "TBD" passes the tasks gate; with no owner, or with no tasks, the tasks gate fails |
| StageHandlers.RiskGovernanceGateNeedsBoth | app/agent/stage_handlers.py:153-154 | one risk and one stakeholder pass; removing either fails |
| ContradictionDetector.OwnerNames | app/agent/contradiction_detector.py:56-60 | the normalised owners task by task, repeats included, with exactly the members of the owner set |
| ContradictionDetector.SortedOwners | app/agent/contradiction_detector.py:62 | `sorted(unique_owners)`: strictly sorted, the same members as the owner set, and as many |
| ContradictionDetector.OwnerSetCons | app/agent/contradiction_detector.py:56-60 | the owner set of a task list is the first task's normalised owner (if it counts) plus the owner set of the rest |
| ContradictionDetector.DeadlineClause | app/agent/contradiction_detector.py:79 | the deadline clause is non-empty exactly when a non-empty deadline was recorded |
| ContradictionDetector.PriorConstraints | app/agent/contradiction_detector.py:43-51 | the recorded constraints when present with the constraints shape, else none |
| ContradictionDetector.CheckTasksVsConstraints | app/agent/contradiction_detector.py:34-91 | covers four cases: no prior constraints gives None; otherwise a contradiction iff the owner rule or the duration rule fires; the owner rule wins with its description and question; the duration rule applies only when the owner rule is silent |
| ContradictionDetector.Check | app/agent/contradiction_detector.py:24-32 | None for every stage other than tasks-and-subtasks; for that stage, the tasks-versus-constraints check |
| ContradictionDetector.NormalizeIgnoresCaseAndPadding | app/agent/contradiction_detector.py:57 | owners that differ only in case and surrounding whitespace normalise to the same key |
| ContradictionDetector.OwnerDescriptionMentions | app/agent/contradiction_detector.py:64-67 | the owner message mentions the team size and the owner count |
| ContradictionDetector.DurationDescriptionMentions | app/agent/contradiction_detector.py:81-84 | the duration message mentions the total number of days |
| ContradictionDetector.OwnerRuleSilentAtTeamSize | app/agent/contradiction_detector.py:61 | as many owners as the team size does not trigger the owner rule |
| ContradictionDetector.OwnerRuleFiresAboveTeamSize | app/agent/contradiction_detector.py:61-72 | one owner more than the team size triggers the owner rule, and its message names both numbers |
| ContradictionDetector.DurationThresholdBoundary | app/agent/contradiction_detector.py:75-89 | with the owner rule silent, a total of 400 days gives None and 401 gives the duration contradiction mentioning "401" |
| ContradictionDetector.FourHundredOne | app/agent/contradiction_detector.py:82 | 401 is formatted as "401" |
| ContradictionDetector.TbdNormalizes | app/agent/contradiction_detector.py:57 | "TBD" normalises to the skip label "tbd" |
| ContradictionDetector.PlaceholderOwnerNotCounted | app/agent/contradiction_detector.py:55-60 | a task owned by "TBD" has a non-empty owner yet adds nothing to the owner set |
| ContradictionDetector.TotalDaysAppend | app/agent/contradiction_detector.py:75-77 | appending a task adds its duration, or nothing when it has none |
| ContradictionDetector.OwnerSetAppend | app/agent/contradiction_detector.py:56-60 | appending a task adds its normalised owner when it counts, and nothing otherwise |
| ContradictionDetector.CheckIgnoresOtherStages | app/agent/contradiction_detector.py:43 | only the stored constraints record affects the verdict |
| ContradictionDetector.CheckReadsOwnersAndDays | app/agent/contradiction_detector.py:53-91 | the verdict depends on the tasks only through their sorted distinct owners and their total duration |
| ContradictionDetector.OwnerSetUnchanged | app/agent/contradiction_detector.py:56-60 | a task with no new owner leaves the owner set unchanged |
| ContradictionDetector.NoNewOwnerNoNewVerdict | app/agent/contradiction_detector.py:53-91 | a task with no new owner and no (or a zero) duration leaves the verdict unchanged |
| StateMachine.ConflictReply | app/agent/state_machine.py:73-76 | the conflict reply contains the contradiction's description and its clarification question |
| StateMachine.Decide | app/agent/state_machine.py:58-82 | commit iff a record was extracted and the check finds nothing; a committed record has the stage's shape and passed its gate; only the tasks stage can conflict |
| StateMachine.Resolve | app/agent/state_machine.py:58-90 | resolving the extraction keeps the message log, the id, the creation time and the project type |
| StateMachine.Turn | app/agent/state_machine.py:35-94 | a turn keeps id, creation time and project type, and only appends to the message log |
| StateMachine.CommitRecord | app/agent/state_machine.py:78-85 | the committed session (a definition); CommitRecordKeepsValid proves that it keeps the invariant, and CommitAdvances gives its effect on a turn |
| StateMachine.CommitAndAdvance | app/agent/state_machine.py:78-88 | stores the record under the current stage, advances, sets is_complete on reaching Complete, and returns the new stage's transition message |
| StateMachine.ProcessMessage | app/agent/state_machine.py:35-94 | the in-place turn leaves exactly the session and reply that `Turn` specifies |
| StateMachine.FreshSessionValid | app/models/session.py:38-46 | a fresh session satisfies the session invariant |
| StateMachine.CommitRecordKeepsValid | app/agent/state_machine.py:78-85 | committing a gated, unconflicted record at an active stage keeps the invariant |
| StateMachine.TurnKeepsValid | app/agent/state_machine.py:35-94 | every turn from a valid session leaves a valid session: stage-data keys are exactly the stages before the current one |
| StateMachine.TurnLogsMessages | app/agent/state_machine.py:43-48 | every completed turn appends exactly the user message and then the reply; an aborted turn logs only the user message |
| StateMachine.TurnAdvancesAtMostOneStage | app/agent/state_machine.py:78-82 | the stage stays or moves exactly one step on, and moves exactly when a reply was generated at an active stage and the decision is commit |
| StateMachine.CompleteIsAbsorbing | app/agent/state_machine.py:38-45 | at Complete, a turn appends only the user message and the fixed reply; nothing else changes |
| StateMachine.NoRecordNoChange | app/agent/state_machine.py:58-60 | without an accepted record, the reply is the generated text and only the two messages are added |
| StateMachine.ConflictBlocksCommit | app/agent/state_machine.py:62-76 | a contradiction replaces the reply with the conflict template, with nothing committed and no advance |
| StateMachine.CommitAdvances | app/agent/state_machine.py:78-90 | on commit: the record is stored under the old stage; the stage advances one step; is_complete becomes true on reaching Complete; the reply is text + "\n\n---\n" + the new stage's transition message |
| StateMachine.ConversationKeepsValid | app/agent/state_machine.py:35-94 | any sequence of turns from a valid session stays valid; the stage index never decreases and grows at most one per turn |
| StateMachine.CompleteHoldsEveryRecord | app/agent/state_machine.py:79-85 | a valid session at Complete is marked complete and holds a record of the right shape for each of the five stages |
| PlanCompiler.ToSubTask | app/agent/plan_compiler.py:119-125 | one compiled subtask (a definition); SubTaskRoundTrip proves that nothing but a zero duration is lost |
| PlanCompiler.ToTask | app/agent/plan_compiler.py:113-128 | one compiled task (a definition); TaskRoundTrip proves that it reads back to its definition |
| PlanCompiler.BuildTasks | app/agent/plan_compiler.py:111-130 | `_build_tasks` (a definition); MilestoneTasksAreItsPhase and GeneralMilestonesAttachByPhase prove that each milestone holds the compiled form of exactly its phase's tasks |
| PlanCompiler.Timeline | app/agent/plan_compiler.py:123 | a subtask timeline exists exactly when the duration is set and non-zero |
| PlanCompiler.TimelineRoundTrip | app/agent/plan_compiler.py:123 | reading "<n>d" back gives the duration; no timeline exactly for a missing or zero duration |
| PlanCompiler.SubTaskRoundTrip | app/agent/plan_compiler.py:118-126 | a compiled subtask keeps name, owner, deliverable and dependencies, and its duration is recoverable, with a zero duration read back as missing |
| PlanCompiler.TaskRoundTrip | app/agent/plan_compiler.py:111-130 | reading a compiled task back gives its definition, every subtask in order, with a zero subtask duration read back as missing |
| PlanCompiler.TasksInPhase | app/agent/plan_compiler.py:40-42 | the tasks declaring exactly the phase: every such task and no other |
| PlanCompiler.TasksInPhaseSnoc | app/agent/plan_compiler.py:41-42 | one more task extends exactly its own phase's group at the end |
| PlanCompiler.GroupByPhase | app/agent/plan_compiler.py:39-42 | the keys are exactly the phase strings some task uses; each group holds that phase's tasks, in input order |
| PlanCompiler.MilestoneTasksAreItsPhase | app/agent/plan_compiler.py:77 | a milestone holds the compiled form of exactly the tasks whose phase is its definition's name |
| PlanCompiler.BuildGeneralStructure | app/agent/plan_compiler.py:69-79 | the loop yields one milestone per definition, in order, built from its phase group |
| PlanCompiler.PillarAndTitle | app/agent/plan_compiler.py:90-95 | with " - " in the name, the name equals pillar + " - " + label with the first separator split; without it, the pillar is phases[0] or "Program" and the label is the whole name |
| PlanCompiler.SplitAtSeparator | app/agent/plan_compiler.py:90-91 | a pillar name without '-' followed by " - " and a label splits back into exactly that pillar and label |
| PlanCompiler.SplitExample | app/agent/plan_compiler.py:90-91 | "Technology - MVP" gives pillar "Technology" and milestone "MVP" |
| PlanCompiler.FallbackExample | app/agent/plan_compiler.py:92-95 | "MVP" falls under the first phase, or "Program" when there are no phases |
| PlanCompiler.PillarOrder | app/agent/plan_compiler.py:105-109 | pillar names are distinct and are exactly the pillars some milestone selects |
| PlanCompiler.PillarMilestones | app/agent/plan_compiler.py:105-107 | a pillar's milestones are exactly those of the definitions that select it |
| PlanCompiler.ProgramPillarsPlaceEveryMilestone | app/agent/plan_compiler.py:86-109 | pillar names are distinct; every definition's milestone is in the pillar it selects; every milestone in a pillar comes from a definition that selects it |
| PlanCompiler.PillarOrderFirstSeen | app/agent/plan_compiler.py:105-109 | pillars appear in the order in which milestones first select them |
| PlanCompiler.CountIn | app/agent/plan_compiler.py:105-107 | a pillar that receives any milestone is selected by some definition |
| PlanCompiler.PillarMilestonesCount | app/agent/plan_compiler.py:105-107 | a pillar holds one milestone per definition that selects it |
| PlanCompiler.CountAllStep | app/agent/plan_compiler.py:88-107 | one more definition adds one to the count over the pillars when its pillar is listed |
| PlanCompiler.CountAllOrder | app/agent/plan_compiler.py:88-109 | counted over the pillar order, every definition is counted once |
| PlanCompiler.PillarsForTotal | app/agent/plan_compiler.py:109 | the pillars read out hold as many milestones as the count |
| PlanCompiler.ProgramKeepsEveryMilestone | app/agent/plan_compiler.py:86-109 | the pillars together hold exactly one milestone per definition |
| PlanCompiler.PlaceStep | app/agent/plan_compiler.py:97-107 | one more definition adds its pillar at the end when new and appends its milestone to that pillar only |
| PlanCompiler.ReadOutInOrder | app/agent/plan_compiler.py:109 | `list(pillars.values())` in insertion order equals the specified pillar list |
| PlanCompiler.PlacedOrderStep | app/agent/plan_compiler.py:105-106 | the insertion order after one more definition is the pillar order of the longer prefix |
| PlanCompiler.PlacedValuesStep | app/agent/plan_compiler.py:105-107 | after the append, each pillar holds the milestones of the longer prefix |
| PlanCompiler.PlacedStep | app/agent/plan_compiler.py:105-107 | one loop step keeps the dictionary and its insertion order equal to their specification |
| PlanCompiler.PlaceMilestone | app/agent/plan_compiler.py:88-107 | one loop iteration moves the dictionary and the insertion order from one prefix's specification to the next |
| PlanCompiler.BuildProgramStructure | app/agent/plan_compiler.py:81-109 | the program loop yields exactly the specified pillars |
| PlanCompiler.GovernanceRoundTrip | app/agent/plan_compiler.py:49-65 | governance mirrors the risk record: stakeholders, vendors and cadence are copied; there is one KPI per definition (no measurement method) and one risk per definition |
| PlanCompiler.Compile | app/agent/plan_compiler.py:19-67 | compiling a session yields the specified plan |
| PlanCompiler.CompiledPlanShape | app/agent/plan_compiler.py:28-65 | covers four facts: header fields are copied verbatim and generated_at is set; a program gets pillars and no milestones, every definition placed once; any other type gets one milestone per definition, same names, no pillars; governance is set and mirrors the risk record |
| PlanCompiler.GeneralMilestonesAttachByPhase | app/agent/plan_compiler.py:69-79 | milestone i holds exactly the compiled tasks whose phase is definition i's name |
| PlanCompiler.CompleteSessionIsCompilable | app/agent/plan_compiler.py:15-26 | a valid session at Complete holds every record the compiler reads, with the right shapes |
| MarkdownRenderer.Hashes | app/utils/markdown_renderer.py:84 | `"#" * level`: level characters, all '#' |
| MarkdownRenderer.SubTaskText | app/utils/markdown_renderer.py:106-111 | builds the subtask line as specified |
| MarkdownRenderer.TaskText | app/utils/markdown_renderer.py:95-100 | builds the task line as specified |
| MarkdownRenderer.RenderSubTasks | app/utils/markdown_renderer.py:105-113 | appends exactly the subtask lines |
| MarkdownRenderer.RenderTask | app/utils/markdown_renderer.py:95-113 | appends exactly the task's lines |
| MarkdownRenderer.RenderTasks | app/utils/markdown_renderer.py:94-113 | appends exactly the lines of every task, in order |
| MarkdownRenderer.RenderMilestone | app/utils/markdown_renderer.py:83-115 | `_render_milestone` appends exactly the milestone's lines |
| MarkdownRenderer.RenderMilestones | app/utils/markdown_renderer.py:46-47 | appends every milestone's lines at the level, in order |
| MarkdownRenderer.RenderPillars | app/utils/markdown_renderer.py:40-43 | appends each pillar heading followed by its milestones at level 3 |
| MarkdownRenderer.AppendBullets | app/utils/markdown_renderer.py:56-57 | appends one "- x" line per item |
| MarkdownRenderer.AppendKPIs | app/utils/markdown_renderer.py:61-63 | appends one line per KPI |
| MarkdownRenderer.AppendRisks | app/utils/markdown_renderer.py:67-71 | appends each risk's line and its mitigation line |
| MarkdownRenderer.RenderGovernance | app/utils/markdown_renderer.py:49-79 | appends exactly the governance block |
| MarkdownRenderer.RenderHeader | app/utils/markdown_renderer.py:24-36 | appends exactly the header lines |
| MarkdownRenderer.PlanLines | app/utils/markdown_renderer.py:21-81 | the document's lines (a definition); RenderBeginsWithTitle, the Iff lemmas and the ShowsEvery lemmas state what it contains |
| MarkdownRenderer.Render | app/utils/markdown_renderer.py:21-81 | the document is the specified line list joined by "\n" |
| MarkdownRenderer.RenderBeginsWithTitle | app/utils/markdown_renderer.py:24-26 | the document begins with "# name", the capitalised type line and the success-definition line, each followed by a newline |
| MarkdownRenderer.HeaderLineForms | app/utils/markdown_renderer.py:24-36 | each header line is one of the fixed lines, or an optional line whose value is truthy |
| MarkdownRenderer.DeadlineLineIffTruthy | app/utils/markdown_renderer.py:27-28 | the deadline line appears iff the deadline is truthy, and it shows the deadline |
| MarkdownRenderer.BudgetLineIffTruthy | app/utils/markdown_renderer.py:29-30 | the budget line appears iff the budget is truthy, and it shows the budget |
| MarkdownRenderer.TeamSizeLineIffTruthy | app/utils/markdown_renderer.py:31-32 | the team-size line appears iff the team size is set and non-zero, and it shows the number |
| MarkdownRenderer.MethodologyLineIffTruthy | app/utils/markdown_renderer.py:33-34 | the methodology line appears iff the methodology is truthy, and it shows the methodology |
| MarkdownRenderer.SubTasksArePlain | app/utils/markdown_renderer.py:105-113 | no subtask line starts with '#' |
| MarkdownRenderer.TasksArePlain | app/utils/markdown_renderer.py:94-113 | no task line starts with '#' |
| MarkdownRenderer.MilestonesArePlain | app/utils/markdown_renderer.py:83-115 | no element of a milestone's line list starts with '#': its heading begins with "\n" |
| MarkdownRenderer.PillarsArePlain | app/utils/markdown_renderer.py:40-43 | no pillar line starts with '#' |
| MarkdownRenderer.BulletsShowEachItem | app/utils/markdown_renderer.py:56-57 | every item gets its "- x" line, and every bullet is a list item |
| MarkdownRenderer.KPIsShowEachKPI | app/utils/markdown_renderer.py:61-63 | every KPI gets its line, and every KPI line is a list item |
| MarkdownRenderer.RisksShowEachRisk | app/utils/markdown_renderer.py:67-71 | every risk gets its "- [SEVERITY] description" line, and its mitigation line when the mitigation is truthy |
| MarkdownRenderer.GovernanceLineForms | app/utils/markdown_renderer.py:49-79 | each governance line is: the rule; the title; a section heading whose list is non-empty; the cadence line when the cadence is truthy; or a list item |
| MarkdownRenderer.StakeholdersSectionIffNonEmpty | app/utils/markdown_renderer.py:54-57 | the stakeholders heading appears iff there are stakeholders |
| MarkdownRenderer.KPIsSectionIffNonEmpty | app/utils/markdown_renderer.py:59-63 | the KPIs heading appears iff there are KPIs |
| MarkdownRenderer.RisksSectionIffNonEmpty | app/utils/markdown_renderer.py:65-71 | the risks heading appears iff there are risks |
| MarkdownRenderer.VendorsSectionIffNonEmpty | app/utils/markdown_renderer.py:73-76 | the external-vendors heading appears iff there are vendors |
| MarkdownRenderer.CadenceSectionIffTruthy | app/utils/markdown_renderer.py:78-79 | the review-cadence section appears iff the cadence is truthy, and it shows the cadence |
| MarkdownRenderer.HeaderHasNoLevel2 | app/utils/markdown_renderer.py:24-36 | no element of the header's line list begins with "## " |
| MarkdownRenderer.GovernanceHasOneLevel2 | app/utils/markdown_renderer.py:51-79 | the only element of the governance block's line list that begins with "## " is "## Governance & Risk" |
| MarkdownRenderer.StructureHasOneLevel2 | app/utils/markdown_renderer.py:38-47 | the structure part's line list opens with its heading, and that is its only element beginning with "## " (milestone and pillar headings begin with "\n") |
| MarkdownRenderer.Level2Headings | app/utils/markdown_renderer.py:21-81 | the elements of the line list that begin with "## " are the structure heading and, when governance is set, "## Governance & Risk"; both occur. Milestone and pillar headings begin with "\n" and start "## " lines only in the joined text |
| MarkdownRenderer.Level2HeadingsIff | app/utils/markdown_renderer.py:38-52 | for a line list whose elements beginning with "## " are known, each of the three headings is an element exactly in its own case |
| MarkdownRenderer.StructureHeadingIffProgram | app/utils/markdown_renderer.py:38-47 | "## Program Structure" is an element of the line list iff the plan is a program with pillars, and "## Project Plan" iff not. A milestone named "Program Structure" gives the different element "\n## Program Structure" |
| MarkdownRenderer.GovernanceBlockIffSet | app/utils/markdown_renderer.py:49-52 | "## Governance & Risk" is an element of the line list iff governance is set |
| MarkdownRenderer.SubTasksShowEach | app/utils/markdown_renderer.py:105-113 | every subtask gets its line, and its deliverable line when truthy |
| MarkdownRenderer.TasksShowEach | app/utils/markdown_renderer.py:94-113 | every task gets its line and its dependencies line when it has dependencies; every subtask of every task gets its line |
| MarkdownRenderer.MilestonesShowEach | app/utils/markdown_renderer.py:83-115 | every milestone gets its heading at the level, and every task of it gets its line |
| MarkdownRenderer.PillarsShowEach | app/utils/markdown_renderer.py:40-43 | every pillar gets its "## Pillar:" heading, and every milestone of it gets a level-3 heading |
| MarkdownRenderer.PlanShowsEveryMilestone | app/utils/markdown_renderer.py:38-47 | the line list of a program with pillars holds every pillar heading and every milestone heading at level 3; otherwise it holds every milestone heading at level 2 (membership only, not position) |
| MarkdownRenderer.GovernanceShowsEveryItem | app/utils/markdown_renderer.py:54-76 | every stakeholder, KPI, risk (with its mitigation when truthy) and vendor gets its line |
| MarkdownRenderer.JoinAfterFirst | app/utils/markdown_renderer.py:100 | joining puts the separator before every part after the first |
| MarkdownRenderer.TaskLineSpelledOut | app/utils/markdown_renderer.py:95-100 | the task line is "\n- **name**", then " \| Owner: o" when the owner is truthy, then " \| Duration: Nd" when the duration is set and non-zero |
| MarkdownRenderer.SubTaskLineSpelledOut | app/utils/markdown_renderer.py:106-111 | the subtask line is "  - name", then " \| Owner: o" when the owner is truthy, then " \| Timeline: t" when the timeline is truthy |
| MemoryStore.Lookup | app/storage/memory_store.py:20 | the stored snapshot for a known id, none for an unknown one |
| MemoryStore.Saved | app/storage/memory_store.py:25 | saving adds the session's id to the keys |
| MemoryStore.Deleted | app/storage/memory_store.py:29 | deleting removes the id from the keys |
| MemoryStore.GetAfterSave | app/storage/memory_store.py:18-25 | after save, get of the same id returns the saved snapshot |
| MemoryStore.SaveOverwrites | app/storage/memory_store.py:25 | a second save under the same id replaces the first |
| MemoryStore.GetAfterDelete | app/storage/memory_store.py:27-29 | after delete, get of the id returns none |
| MemoryStore.DeleteUnknownIsNoOp | app/storage/memory_store.py:29 | deleting an unknown id leaves the store unchanged |
| MemoryStore.OtherIdsUnchanged | app/storage/memory_store.py:25-29 | save and delete leave every other id's entry as it was |
| MemoryStore.InMemorySessionStore.constructor | app/storage/memory_store.py:14-15 | a new store is empty |
| MemoryStore.InMemorySessionStore.Get | app/storage/memory_store.py:18-21 | a new session object holding the stored snapshot, or null exactly when the id is unknown |
| MemoryStore.InMemorySessionStore.Save | app/storage/memory_store.py:23-25 | the store becomes the old store with the session's snapshot under its id |
| MemoryStore.InMemorySessionStore.Delete | app/storage/memory_store.py:27-29 | the store becomes the old store without the id |
| Chat.StageValues | app/api/routes/chat.py:28 | the stage values, in stage order |
| Chat.IndexOf | app/api/routes/chat.py:29-32 | `list.index`: either the first position holding the value, or none when the value is absent |
| Chat.Progress | app/api/routes/chat.py:27-33 | progress lies between 0 and 100 |
| Chat.IndexOfStageValue | app/api/routes/chat.py:29-30 | each stage's value is found at the stage's own index |
| Chat.ProgressOfStage | app/api/routes/chat.py:27-33 | a stage's progress is 20 times its index: 0 at define_outcome and 100 at complete |
| Chat.UnknownStageIsComplete | app/api/routes/chat.py:31-32 | a value that names no stage gives 100 |
| Chat.ProgressMonotone | app/api/routes/chat.py:27-33 | progress never decreases along the stage order |
| Chat.EveryStageHasALabel | app/api/routes/chat.py:17-24 | there is a label for every stage value and no other key; complete is labelled "Complete" |
| Text.Strip | app/agent/contradiction_detector.py:57 | `str.strip()`: the result is a slice of the input with only whitespace before and after it, and it neither begins nor ends with whitespace |
| Text.StripIgnoresPadding | app/agent/contradiction_detector.py:57 | surrounding whitespace does not change the stripped text |
| Text.StripLowerCommute | app/agent/contradiction_detector.py:57 | stripping and lowercasing commute |
| Text.Lower | app/agent/contradiction_detector.py:57 | `str.lower()`: same length, each character lowercased |
| Text.Upper | app/utils/markdown_renderer.py:68 | `str.upper()`: same length, each character uppercased |
| Text.Capitalize | app/utils/markdown_renderer.py:25 | `str.capitalize()`: first character uppercased, the rest lowercased |
| Text.FindFirst | app/agent/plan_compiler.py:90-91 | the first position of the substring, or none exactly when it does not occur |
| Text.IntToString | app/utils/markdown_renderer.py:32 | decimal formatting: non-empty, with a leading '-' exactly for negatives |
| Text.ParseIntToString | app/utils/markdown_renderer.py:32 | decimal formatting reads back to the same integer |
| Text.SortDistinct | app/agent/contradiction_detector.py:62 | `sorted(set)`: strictly sorted, same members |
| Text.StrictlySortedUnique | app/agent/contradiction_detector.py:62 | two strictly sorted lists with the same members are equal, so the owner listing is determined by the owner set |

## Left out

- **Language-model calls** (the reply and extraction requests, and the JSON-schema tool plumbing): a foreign network client. Their results are inputs of `StateMachine.ProcessMessage`: `GeneratedReply` and `ExtractionResponse`.
- **Pydantic validation and serialisation**:
  - Records are typed Dafny datatypes. `stage_data` is a `map<Stage, StageRecord>` rather than a dict of dumped JSON.
  - A failed `model_validate` is an extraction response whose record has another stage's shape.
  - `model_dump`/`Session(**data)` in the store is a snapshot value (`SessionValue`) and `Session.FromValue`.
- **HTTP routes and app wiring**: the chat handler body, plan and session routes, configuration and dependency injection.
  - In the chat handler, a failed reply call ends the request without saving. This is modelled only as `GenerationFailed`: the turn returns no reply, and `StateMachine.Stored` keeps the previous session.
- **The store's asyncio lock**: the store is modelled as sequential.
- **Clocks**: `now` and `generatedAt` are parameters. One `now` is used for both messages of a turn and for `updated_at`.
- **Identifiers**: the uuid4 session id is a constructor parameter.
- **Logging and prompt wording**: prompt texts are opaque placeholder constants. Only their table structure and the master-context prefix are modelled.
- **Unicode**: `strip`, `lower`, `upper` and `capitalize` are modelled on ASCII only. Whitespace is what `str.isspace` accepts in ASCII: space, tab, newline, vertical tab, form feed, carriage return and the four separators U+001C to U+001F.
- **Progress arithmetic**: `Chat.Progress` uses the integer formula `idx * 100 / 5` instead of float division and truncation. The two agree for all six indices.
- **Dictionary order**: the pillar dictionary's insertion order is modelled as an explicit sequence beside the map.
- **Session project type**: the session's `project_type` field is carried unchanged. Nothing in the core writes it.
- PlanCompiler.SubTaskRoundTrip: the subtask timeline drops the zero duration. A zero duration and a missing one both compile to no timeline, so the round trip reads zero back as missing.

## Notes on the source

- The renderer's class comment shows program milestones as "### Milestone: Name" and task durations as "Duration: Y days". The code writes "### Name" and "Duration: Nd". The model follows the code.
- `TasksGateAcceptsPlaceholderOwner` and `PlaceholderOwnerNotCounted` together show two things:
  - the tasks gate accepts a placeholder owner such as "TBD";
  - the contradiction check does not count that owner.
