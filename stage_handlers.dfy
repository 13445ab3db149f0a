/**
 * The per-stage handlers: which record shape each active stage extracts,
 * the completeness gate each shape must pass before it may be committed,
 * and the filtering `attempt_extraction` applies to the extractor's answer.
 */
module StageHandlers {
  import opened Wrappers
  import opened StageData
  import opened Sessions

  /** The record shape a handler's `extraction_model` validates against. */
  datatype RecordKind = OutcomeKind | ConstraintsKind | PhasesKind | TasksKind | RiskGovernanceKind

  function KindOf(r: StageRecord): RecordKind {
    match r
    case Outcome(_) => OutcomeKind
    case Constraints(_) => ConstraintsKind
    case Phases(_) => PhasesKind
    case Tasks(_) => TasksKind
    case RiskGovernance(_) => RiskGovernanceKind
  }

  /** `STAGE_HANDLER_CLASSES`: each handler identified by the shape it extracts. */
  const StageHandlerClasses: map<Stage, RecordKind> := map[
    DefineOutcome := OutcomeKind,
    StrategicConstraints := ConstraintsKind,
    PhasesAndMilestones := PhasesKind,
    TasksAndSubtasks := TasksKind,
    RiskAndGovernance := RiskGovernanceKind]

  /** The sentinel the extractor writes into a required string it could not find. */
  const MissingSentinel: string := "MISSING"

  /** A required string was actually supplied: non-empty and not the sentinel. */
  predicate Supplied(s: string) {
    s != "" && s != MissingSentinel
  }

  /** Stage 1 gate: name, success definition and measurable result supplied; a recognised type. */
  predicate OutcomeHasRequiredFields(d: OutcomeData) {
    && Supplied(d.projectName)
    && Supplied(d.successDefinition)
    && Supplied(d.measurableResult)
    && (d.projectType == "general" || d.projectType == "program")
  }

  /** Stage 2 gate: a non-empty deadline, or at least one key constraint. */
  predicate ConstraintsHasRequiredFields(d: ConstraintsData) {
    (d.deadline.Some? && d.deadline.value != "") || |d.keyConstraints| > 0
  }

  /** Stage 3 gate: at least two phases and at least one milestone. */
  predicate PhasesHasRequiredFields(d: PhasesData) {
    |d.phases| >= 2 && |d.milestones| >= 1
  }

  /** Stage 4 gate: at least one task, and some task names a non-empty owner. */
  predicate TasksHasRequiredFields(d: TasksData) {
    |d.tasks| >= 1 && exists t :: t in d.tasks && t.owner.Some? && t.owner.value != ""
  }

  /** Stage 5 gate: at least one risk and at least one stakeholder. */
  predicate RiskGovernanceHasRequiredFields(d: RiskGovernanceData) {
    |d.risks| >= 1 && |d.stakeholders| >= 1
  }

  /** `_has_required_fields`, dispatched on the record's shape. */
  predicate HasRequiredFields(r: StageRecord) {
    match r
    case Outcome(d) => OutcomeHasRequiredFields(d)
    case Constraints(d) => ConstraintsHasRequiredFields(d)
    case Phases(d) => PhasesHasRequiredFields(d)
    case Tasks(d) => TasksHasRequiredFields(d)
    case RiskGovernance(d) => RiskGovernanceHasRequiredFields(d)
  }

  /** `r` has the shape the handler of `stage` validates against. */
  predicate IsRecordFor(stage: Stage, r: StageRecord) {
    stage in StageHandlerClasses && StageHandlerClasses[stage] == KindOf(r)
  }

  /**
   * What the extraction call came back with: no tool-use block, an exception
   * (network or parsing), or the tool input as a record. A record whose shape
   * is not the stage's own stands for a failed `model_validate`.
   */
  datatype ExtractionResponse =
    | NoToolUse
    | ExtractionRaised
    | ToolInput(record: StageRecord)

  /** The filtering at the end of `attempt_extraction`: a record only if it validates and passes the gate. */
  function AttemptExtraction(stage: Stage, response: ExtractionResponse): (r: Option<StageRecord>)
    requires stage in StageHandlerClasses
    ensures r.Some? <==> response.ToolInput? && IsRecordFor(stage, response.record) && HasRequiredFields(response.record)
    ensures r.Some? ==> r.value == response.record
  {
    match response
    case NoToolUse => None
    case ExtractionRaised => None
    case ToolInput(record) =>
      if KindOf(record) != StageHandlerClasses[stage] then None
      else if HasRequiredFields(record) then Some(record)
      else None
  }

  /** There is a handler for exactly the five stages before Complete, and each extracts its own shape. */
  lemma HandlersCoverActiveStages()
    ensures forall s: Stage :: s in StageHandlerClasses <==> s != Complete
    ensures forall s, t :: s in StageHandlerClasses && t in StageHandlerClasses && StageHandlerClasses[s] == StageHandlerClasses[t] ==> s == t
  {
  }

  /**
   * A required field that is empty or left at the sentinel, or a project
   * type other than "general" and "program", keeps the outcome stage open.
   */
  lemma SentinelBlocksOutcome(d: OutcomeData)
    requires || d.projectName == "" || d.projectName == MissingSentinel
             || d.successDefinition == "" || d.successDefinition == MissingSentinel
             || d.measurableResult == "" || d.measurableResult == MissingSentinel
             || (d.projectType != "general" && d.projectType != "program")
    ensures !HasRequiredFields(Outcome(d))
  {
  }

  /** A constraints record left entirely at its defaults never passes its gate; a deadline alone does. */
  lemma DefaultConstraintsIncomplete(deadline: string)
    requires deadline != ""
    ensures !HasRequiredFields(Constraints(DefaultConstraints()))
    ensures HasRequiredFields(Constraints(DefaultConstraints().(deadline := Some(deadline))))
  {
  }

  /** The phases gate needs two phases and one milestone: one phase, or no milestone, is not enough. */
  lemma PhasesGateBoundary(p1: string, p2: string, m: MilestoneDefinition)
    ensures HasRequiredFields(Phases(PhasesData([p1, p2], [m])))
    ensures !HasRequiredFields(Phases(PhasesData([p1], [m])))
    ensures !HasRequiredFields(Phases(PhasesData([p1, p2], [])))
  {
  }

  /** The tasks gate takes any non-empty owner string, a placeholder such as "TBD" included. */
  lemma TasksGateAcceptsPlaceholderOwner(t: TaskDefinition)
    requires t.owner == Some("TBD")
    ensures HasRequiredFields(Tasks(TasksData([t])))
    ensures !HasRequiredFields(Tasks(TasksData([t.(owner := None)])))
    ensures !HasRequiredFields(Tasks(TasksData([])))
  {
    assert t in [t];
  }

  /** The risk/governance gate needs both a risk and a stakeholder; KPIs and vendors do not matter. */
  lemma RiskGovernanceGateNeedsBoth(r: RiskDefinition, who: string, g: RiskGovernanceData)
    ensures HasRequiredFields(RiskGovernance(RiskGovernanceData([r], [who], [], [], None)))
    ensures !HasRequiredFields(RiskGovernance(g.(risks := [])))
    ensures !HasRequiredFields(RiskGovernance(g.(stakeholders := [])))
  {
  }
}
