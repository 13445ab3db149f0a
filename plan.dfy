/**
 * The compiled plan document. A general project fills `milestones`
 * (milestone, task, subtask); a program fills `pillars` (pillar, milestone,
 * task, subtask). Both lists are empty by default.
 */
module Plan {
  import opened Wrappers

  datatype SubTask = SubTask(
    name: string,
    owner: Option<string>,
    timeline: Option<string>,
    deliverable: Option<string>,
    dependencies: seq<string>)

  datatype Task = Task(
    name: string,
    owner: Option<string>,
    timeline: Option<string>,
    durationDays: Option<int>,
    dependencies: seq<string>,
    subtasks: seq<SubTask>)

  datatype Milestone = Milestone(
    name: string,
    deliverable: Option<string>,
    timeline: Option<string>,
    owner: Option<string>,
    tasks: seq<Task>)

  datatype Pillar = Pillar(name: string, milestones: seq<Milestone>)

  datatype Risk = Risk(description: string, severity: string, mitigation: Option<string>)

  datatype KPI = KPI(metric: string, target: Option<string>, measurementMethod: Option<string>)

  datatype GovernanceInfo = GovernanceInfo(
    stakeholders: seq<string>,
    kpis: seq<KPI>,
    risks: seq<Risk>,
    externalVendors: seq<string>,
    reviewCadence: Option<string>)

  datatype ProjectPlan = ProjectPlan(
    projectName: string,
    projectType: string,
    successDefinition: string,
    deadline: Option<string>,
    budget: Option<string>,
    teamSize: Option<int>,
    methodology: Option<string>,
    milestones: seq<Milestone>,
    pillars: seq<Pillar>,
    governance: Option<GovernanceInfo>,
    generatedAt: Option<string>)
}
