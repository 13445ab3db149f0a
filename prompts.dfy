/**
 * The stage-keyed text tables: the system prompt and the extraction
 * instruction for each active stage, and the notice shown when a stage is
 * entered. The wording is immaterial to the control logic, so each text is
 * an opaque constant; only which stages have an entry, and the shared
 * master context every system prompt starts with, are modelled.
 */
module Prompts {
  import opened Sessions

  const MasterContext: string := "<master planning context>"

  const Stage1System: string := MasterContext + "<stage 1: define outcome>"
  const Stage2System: string := MasterContext + "<stage 2: strategic constraints>"
  const Stage3System: string := MasterContext + "<stage 3: phases and milestones>"
  const Stage4System: string := MasterContext + "<stage 4: tasks and subtasks>"
  const Stage5System: string := MasterContext + "<stage 5: risk and governance>"

  /** `STAGE_SYSTEM_PROMPTS`. */
  const StageSystemPrompts: map<Stage, string> := map[
    DefineOutcome := Stage1System,
    StrategicConstraints := Stage2System,
    PhasesAndMilestones := Stage3System,
    TasksAndSubtasks := Stage4System,
    RiskAndGovernance := Stage5System]

  /** `STAGE_EXTRACTION_PROMPTS`. */
  const StageExtractionPrompts: map<Stage, string> := map[
    DefineOutcome := "<extract outcome>",
    StrategicConstraints := "<extract constraints>",
    PhasesAndMilestones := "<extract phases and milestones>",
    TasksAndSubtasks := "<extract tasks and subtasks>",
    RiskAndGovernance := "<extract risks and governance>"]

  /** `STAGE_TRANSITION_MESSAGES`, keyed by the stage being entered. */
  const StageTransitionMessages: map<Stage, string> := map[
    StrategicConstraints := "<stage 1 complete; stage 2 begins>",
    PhasesAndMilestones := "<stage 2 complete; stage 3 begins>",
    TasksAndSubtasks := "<stage 3 complete; stage 4 begins>",
    RiskAndGovernance := "<stage 4 complete; stage 5 begins>",
    Complete := "<all five stages complete>"]

  const DefaultTransitionMessage: string := "Moving to the next stage."

  /** `get_stage_transition_message(next_stage)`: the table entry, or the generic notice. */
  function GetStageTransitionMessage(next: Stage): (r: string)
    ensures next in StageTransitionMessages ==> r == StageTransitionMessages[next]
    ensures next !in StageTransitionMessages ==> r == DefaultTransitionMessage
  {
    if next in StageTransitionMessages then StageTransitionMessages[next] else DefaultTransitionMessage
  }

  /** Both prompt tables have an entry for exactly the five stages before Complete. */
  lemma PromptTablesCoverActiveStages()
    ensures forall s: Stage :: s in StageSystemPrompts <==> s != Complete
    ensures forall s: Stage :: s in StageExtractionPrompts <==> s != Complete
  {
  }

  /** Every stage's system prompt begins with the master context. */
  lemma SystemPromptsStartWithMasterContext()
    ensures forall s :: s in StageSystemPrompts ==> MasterContext <= StageSystemPrompts[s]
  {
  }

  /**
   * Every stage an advance can land on has its own notice; the first stage,
   * which no advance reaches, falls back to the generic one.
   */
  lemma TransitionMessageForEveryAdvance()
    ensures forall s: Stage :: s in StageTransitionMessages <==> s != DefineOutcome
    ensures forall s: Stage :: s != Complete ==> GetStageTransitionMessage(Next(s)) == StageTransitionMessages[Next(s)]
    ensures GetStageTransitionMessage(DefineOutcome) == DefaultTransitionMessage
  {
    forall s: Stage | s != Complete ensures Next(s) != DefineOutcome {
      assert Index(Next(s)) > 0;
    }
  }
}
