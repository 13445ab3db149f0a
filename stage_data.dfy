/**
 * The typed records the extraction step produces, one shape per planning
 * stage. A required field is a plain value (the extractor writes the
 * sentinel "MISSING" when it has nothing); an optional field is an Option,
 * None meaning "not discussed". A list with a default is empty by default.
 */
module StageData {
  import opened Wrappers

  /** Stage 1. `projectType` is a free string; only the completeness gate restricts it. */
  datatype OutcomeData = OutcomeData(
    projectName: string,
    projectType: string,
    successDefinition: string,
    measurableResult: string,
    keyStakeholders: seq<string>)

  /** Stage 2. Every field is optional or defaults to an empty list. */
  datatype ConstraintsData = ConstraintsData(
    deadline: Option<string>,
    budget: Option<string>,
    teamSize: Option<int>,
    methodology: Option<string>,
    keyConstraints: seq<string>,
    assumptions: seq<string>)

  datatype MilestoneDefinition = MilestoneDefinition(
    name: string,
    deliverable: string,
    timeline: Option<string>,
    owner: Option<string>)

  /** Stage 3. Both lists are required. */
  datatype PhasesData = PhasesData(
    phases: seq<string>,
    milestones: seq<MilestoneDefinition>)

  datatype SubTaskDefinition = SubTaskDefinition(
    name: string,
    owner: Option<string>,
    durationDays: Option<int>,
    dependencies: seq<string>,
    deliverable: Option<string>)

  datatype TaskDefinition = TaskDefinition(
    name: string,
    phase: string,
    owner: Option<string>,
    durationDays: Option<int>,
    dependencies: seq<string>,
    subtasks: seq<SubTaskDefinition>)

  /** Stage 4. The task list is required. */
  datatype TasksData = TasksData(tasks: seq<TaskDefinition>)

  /** `severity` is an unconstrained string ("high", "medium", "low" by convention). */
  datatype RiskDefinition = RiskDefinition(
    description: string,
    severity: string,
    mitigation: Option<string>)

  datatype KPIDefinition = KPIDefinition(
    metric: string,
    target: Option<string>)

  /** Stage 5. Risks, stakeholders and KPIs are required; vendors default to empty. */
  datatype RiskGovernanceData = RiskGovernanceData(
    risks: seq<RiskDefinition>,
    stakeholders: seq<string>,
    kpis: seq<KPIDefinition>,
    externalVendors: seq<string>,
    reviewCadence: Option<string>)

  /** What a session stores per committed stage: one of the five record shapes. */
  datatype StageRecord =
    | Outcome(outcome: OutcomeData)
    | Constraints(constraints: ConstraintsData)
    | Phases(phases: PhasesData)
    | Tasks(tasks: TasksData)
    | RiskGovernance(riskGovernance: RiskGovernanceData)

  /** `ConstraintsData()` with every field left at its default. */
  function DefaultConstraints(): (c: ConstraintsData)
    ensures c.deadline.None? && c.budget.None? && c.teamSize.None? && c.methodology.None?
    ensures c.keyConstraints == [] && c.assumptions == []
  {
    ConstraintsData(None, None, None, None, [], [])
  }
}
