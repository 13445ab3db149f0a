/**
 * The Markdown view of a compiled plan. The document is a list of lines
 * joined by "\n": a header, then either the program structure (pillars
 * with level-3 milestones) or the project plan (level-2 milestones), then
 * the governance block when the plan has one. Optional values appear only
 * when they are truthy in Python's sense: an optional string when it is set
 * and non-empty, an optional integer when it is set and non-zero, a list
 * when it is non-empty.
 */
module MarkdownRenderer {
  import opened Wrappers
  import opened Text
  import opened Plan

  /** `if value:` for an optional string. */
  predicate Truthy(o: Option<string>) {
    o.Some? && o.value != ""
  }

  /** `if value:` for an optional integer. */
  predicate TruthyInt(o: Option<int>) {
    o.Some? && o.value != 0
  }

  /** `"#" * level`. */
  function Hashes(level: nat): (r: string)
    ensures |r| == level && forall i :: 0 <= i < |r| ==> r[i] == '#'
  {
    if level == 0 then "" else Hashes(level - 1) + "#"
  }

  /** The line `prefix + value` when the value is truthy, else nothing. */
  function OptLine(o: Option<string>, prefix: string): seq<string> {
    if Truthy(o) then [prefix + o.value] else []
  }

  /** The line `prefix + value + "_"` (closing the italics) when the value is truthy, else nothing. */
  function OptItalic(o: Option<string>, prefix: string): seq<string> {
    if Truthy(o) then [prefix + o.value + "_"] else []
  }

  /** `s` begins with `prefix`. */
  predicate StartsWith(s: string, prefix: string) {
    |prefix| <= |s| && s[..|prefix|] == prefix
  }

  // ---------------------------------------------------------------------
  // The document, line by line
  // ---------------------------------------------------------------------

  function HeaderLines(plan: ProjectPlan): seq<string> {
    ["# " + plan.projectName,
     "**Type:** " + Capitalize(plan.projectType),
     "**Success Definition:** " + plan.successDefinition]
    + OptLine(plan.deadline, "**Deadline:** ")
    + OptLine(plan.budget, "**Budget:** ")
    + (if TruthyInt(plan.teamSize) then ["**Team Size:** " + IntToString(plan.teamSize.value)] else [])
    + OptLine(plan.methodology, "**Methodology:** ")
    + ["", "---"]
  }

  /** The `" | "`-joined parts of a task line. */
  function TaskParts(t: Task): seq<string> {
    ["**" + t.name + "**"]
    + (if Truthy(t.owner) then ["Owner: " + t.owner.value] else [])
    + (if TruthyInt(t.durationDays) then ["Duration: " + IntToString(t.durationDays.value) + "d"] else [])
  }

  /** The `" | "`-joined parts of a subtask line. */
  function SubTaskParts(st: SubTask): seq<string> {
    [st.name]
    + (if Truthy(st.owner) then ["Owner: " + st.owner.value] else [])
    + (if Truthy(st.timeline) then ["Timeline: " + st.timeline.value] else [])
  }

  function TaskLine(t: Task): string {
    "\n- " + Join(TaskParts(t), " | ")
  }

  function SubTaskLine(st: SubTask): string {
    "  - " + Join(SubTaskParts(st), " | ")
  }

  function DependenciesLine(deps: seq<string>): string {
    "  - _Dependencies: " + Join(deps, ", ") + "_"
  }

  function SubTaskLines(st: SubTask): seq<string> {
    [SubTaskLine(st)] + OptItalic(st.deliverable, "    - _Deliverable: ")
  }

  function SubTasksLines(sts: seq<SubTask>): seq<string> {
    if sts == [] then [] else SubTasksLines(sts[..|sts| - 1]) + SubTaskLines(sts[|sts| - 1])
  }

  /** The lines a task contributes before its subtasks. */
  function TaskHeadLines(t: Task): seq<string> {
    [TaskLine(t)] + (if t.dependencies != [] then [DependenciesLine(t.dependencies)] else [])
  }

  function TaskLines(t: Task): seq<string> {
    TaskHeadLines(t) + SubTasksLines(t.subtasks)
  }

  function TasksLines(ts: seq<Task>): seq<string> {
    if ts == [] then [] else TasksLines(ts[..|ts| - 1]) + TaskLines(ts[|ts| - 1])
  }

  function MilestoneHeading(m: Milestone, level: nat): string {
    "\n" + Hashes(level) + " " + m.name
  }

  /** The lines a milestone contributes before its tasks. */
  function MilestoneHeadLines(m: Milestone, level: nat): seq<string> {
    [MilestoneHeading(m, level)]
    + OptItalic(m.deliverable, "_Deliverable: ")
    + OptItalic(m.timeline, "_Timeline: ")
    + OptItalic(m.owner, "_Owner: ")
  }

  /** `_render_milestone(milestone, level)`. */
  function MilestoneLines(m: Milestone, level: nat): seq<string> {
    MilestoneHeadLines(m, level) + TasksLines(m.tasks)
  }

  function MilestonesLines(ms: seq<Milestone>, level: nat): seq<string> {
    if ms == [] then [] else MilestonesLines(ms[..|ms| - 1], level) + MilestoneLines(ms[|ms| - 1], level)
  }

  function PillarLines(p: Pillar): seq<string> {
    ["\n## Pillar: " + p.name] + MilestonesLines(p.milestones, 3)
  }

  function PillarsLines(ps: seq<Pillar>): seq<string> {
    if ps == [] then [] else PillarsLines(ps[..|ps| - 1]) + PillarLines(ps[|ps| - 1])
  }

  /** The program layout is used only for a program that has pillars. */
  predicate ShowsPillars(plan: ProjectPlan) {
    plan.projectType == "program" && plan.pillars != []
  }

  function StructureLines(plan: ProjectPlan): seq<string> {
    if ShowsPillars(plan) then ["## Program Structure"] + PillarsLines(plan.pillars)
    else ["## Project Plan"] + MilestonesLines(plan.milestones, 2)
  }

  /** `- item` per item. */
  function Bullets(xs: seq<string>): seq<string> {
    if xs == [] then [] else Bullets(xs[..|xs| - 1]) + ["- " + xs[|xs| - 1]]
  }

  function KPILine(k: KPI): string {
    "- **" + k.metric + "**" + (if Truthy(k.target) then " \U{2014} Target: " + k.target.value else "")
  }

  function KPIsLines(ks: seq<KPI>): seq<string> {
    if ks == [] then [] else KPIsLines(ks[..|ks| - 1]) + [KPILine(ks[|ks| - 1])]
  }

  /** `f"[{severity.upper()}]"`. */
  function Badge(severity: string): string {
    "[" + Upper(severity) + "]"
  }

  function RiskLine(r: Risk): string {
    "- " + Badge(r.severity) + " " + r.description
  }

  /** `"  - _Mitigation: m_"`. */
  function MitigationLine(m: string): string {
    "  - _Mitigation: " + m + "_"
  }

  /** The risk's line, then its mitigation line when the mitigation is truthy. */
  function RiskLines(r: Risk): seq<string> {
    [RiskLine(r)] + (if Truthy(r.mitigation) then [MitigationLine(r.mitigation.value)] else [])
  }

  function RisksLines(rs: seq<Risk>): seq<string> {
    if rs == [] then [] else RisksLines(rs[..|rs| - 1]) + RiskLines(rs[|rs| - 1])
  }

  const StakeholdersHeading := "\n### Stakeholders"
  const KPIsHeading := "\n### KPIs"
  const RisksHeading := "\n### Risks"
  const VendorsHeading := "\n### External Vendors / Dependencies"
  const CadencePrefix := "\n### Review Cadence\n"

  /** A titled list: the heading and the item lines when there are items, nothing otherwise. */
  function Section(nonEmpty: bool, heading: string, items: seq<string>): seq<string> {
    if nonEmpty then [heading] + items else []
  }

  function GovernanceLines(g: GovernanceInfo): seq<string> {
    ["\n---", "## Governance & Risk"]
    + Section(g.stakeholders != [], StakeholdersHeading, Bullets(g.stakeholders))
    + Section(g.kpis != [], KPIsHeading, KPIsLines(g.kpis))
    + Section(g.risks != [], RisksHeading, RisksLines(g.risks))
    + Section(g.externalVendors != [], VendorsHeading, Bullets(g.externalVendors))
    + OptLine(g.reviewCadence, CadencePrefix)
  }

  /** Every line of the document, in order. */
  function PlanLines(plan: ProjectPlan): seq<string> {
    HeaderLines(plan) + StructureLines(plan)
    + (if plan.governance.Some? then GovernanceLines(plan.governance.value) else [])
  }

  // ---------------------------------------------------------------------
  // One more item at the end of a list adds its lines at the end
  // ---------------------------------------------------------------------

  lemma SeqAssoc<T>(a: seq<T>, b: seq<T>, c: seq<T>)
    ensures (a + b) + c == a + (b + c)
  {
  }

  lemma SubTasksSnoc(sts: seq<SubTask>, i: nat)
    requires i < |sts|
    ensures SubTasksLines(sts[..i + 1]) == SubTasksLines(sts[..i]) + SubTaskLines(sts[i])
  {
    assert sts[..i + 1][..i] == sts[..i];
  }

  lemma TasksSnoc(ts: seq<Task>, i: nat)
    requires i < |ts|
    ensures TasksLines(ts[..i + 1]) == TasksLines(ts[..i]) + TaskLines(ts[i])
  {
    assert ts[..i + 1][..i] == ts[..i];
  }

  lemma MilestonesSnoc(ms: seq<Milestone>, i: nat, level: nat)
    requires i < |ms|
    ensures MilestonesLines(ms[..i + 1], level) == MilestonesLines(ms[..i], level) + MilestoneLines(ms[i], level)
  {
    assert ms[..i + 1][..i] == ms[..i];
  }

  lemma PillarsSnoc(ps: seq<Pillar>, i: nat)
    requires i < |ps|
    ensures PillarsLines(ps[..i + 1]) == PillarsLines(ps[..i]) + PillarLines(ps[i])
  {
    assert ps[..i + 1][..i] == ps[..i];
  }

  lemma BulletsSnoc(xs: seq<string>, i: nat)
    requires i < |xs|
    ensures Bullets(xs[..i + 1]) == Bullets(xs[..i]) + ["- " + xs[i]]
  {
    assert xs[..i + 1][..i] == xs[..i];
  }

  lemma KPIsSnoc(ks: seq<KPI>, i: nat)
    requires i < |ks|
    ensures KPIsLines(ks[..i + 1]) == KPIsLines(ks[..i]) + [KPILine(ks[i])]
  {
    assert ks[..i + 1][..i] == ks[..i];
  }

  lemma RisksSnoc(rs: seq<Risk>, i: nat)
    requires i < |rs|
    ensures RisksLines(rs[..i + 1]) == RisksLines(rs[..i]) + RiskLines(rs[i])
  {
    assert rs[..i + 1][..i] == rs[..i];
  }

  // ---------------------------------------------------------------------
  // The renderer
  // ---------------------------------------------------------------------

  /** `" | ".join(st_parts)` for a subtask, built part by part. */
  method SubTaskText(st: SubTask) returns (line: string)
    ensures line == SubTaskLine(st)
  {
    var stParts := [st.name];
    if Truthy(st.owner) {
      stParts := stParts + ["Owner: " + st.owner.value];
    }
    if Truthy(st.timeline) {
      stParts := stParts + ["Timeline: " + st.timeline.value];
    }
    assert stParts == SubTaskParts(st);
    line := "  - " + Join(stParts, " | ");
  }

  /** `" | ".join(parts)` for a task, built part by part. */
  method TaskText(t: Task) returns (line: string)
    ensures line == TaskLine(t)
  {
    var parts := ["**" + t.name + "**"];
    if Truthy(t.owner) {
      parts := parts + ["Owner: " + t.owner.value];
    }
    if TruthyInt(t.durationDays) {
      parts := parts + ["Duration: " + IntToString(t.durationDays.value) + "d"];
    }
    assert parts == TaskParts(t);
    line := "\n- " + Join(parts, " | ");
  }

  /** The subtask loop of `_render_milestone`: appends each subtask's lines to `lines`. */
  method RenderSubTasks(lines: seq<string>, subtasks: seq<SubTask>) returns (out: seq<string>)
    ensures out == lines + SubTasksLines(subtasks)
  {
    out := lines;
    var j := 0;
    while j < |subtasks|
      invariant 0 <= j <= |subtasks|
      invariant out == lines + SubTasksLines(subtasks[..j])
    {
      var st := subtasks[j];
      var line := SubTaskText(st);
      var stLines := [line];
      if Truthy(st.deliverable) {
        stLines := stLines + ["    - _Deliverable: " + st.deliverable.value + "_"];
      }
      assert stLines == SubTaskLines(st);
      SubTasksSnoc(subtasks, j);
      SeqAssoc(lines, SubTasksLines(subtasks[..j]), stLines);
      out := out + stLines;
      j := j + 1;
    }
    assert subtasks[..j] == subtasks;
  }

  /** One task of `_render_milestone`: its line, its dependencies line, its subtasks. */
  method RenderTask(lines: seq<string>, task: Task) returns (out: seq<string>)
    ensures out == lines + TaskLines(task)
  {
    var line := TaskText(task);
    var head := [line];
    if task.dependencies != [] {
      head := head + ["  - _Dependencies: " + Join(task.dependencies, ", ") + "_"];
    }
    assert head == TaskHeadLines(task);
    out := RenderSubTasks(lines + head, task.subtasks);
    SeqAssoc(lines, head, SubTasksLines(task.subtasks));
  }

  /** The task loop of `_render_milestone`. */
  method RenderTasks(lines: seq<string>, tasks: seq<Task>) returns (out: seq<string>)
    ensures out == lines + TasksLines(tasks)
  {
    out := lines;
    var i := 0;
    while i < |tasks|
      invariant 0 <= i <= |tasks|
      invariant out == lines + TasksLines(tasks[..i])
    {
      out := RenderTask(out, tasks[i]);
      TasksSnoc(tasks, i);
      SeqAssoc(lines, TasksLines(tasks[..i]), TaskLines(tasks[i]));
      i := i + 1;
    }
    assert tasks[..i] == tasks;
  }

  /** `_render_milestone`. */
  method RenderMilestone(milestone: Milestone, level: nat) returns (lines: seq<string>)
    ensures lines == MilestoneLines(milestone, level)
  {
    var hashes := Hashes(level);
    lines := ["\n" + hashes + " " + milestone.name];
    if Truthy(milestone.deliverable) {
      lines := lines + ["_Deliverable: " + milestone.deliverable.value + "_"];
    }
    if Truthy(milestone.timeline) {
      lines := lines + ["_Timeline: " + milestone.timeline.value + "_"];
    }
    if Truthy(milestone.owner) {
      lines := lines + ["_Owner: " + milestone.owner.value + "_"];
    }
    assert lines == MilestoneHeadLines(milestone, level);
    lines := RenderTasks(lines, milestone.tasks);
  }

  /** The milestone loop: appends each milestone rendered at `level`. */
  method RenderMilestones(lines: seq<string>, milestones: seq<Milestone>, level: nat) returns (out: seq<string>)
    ensures out == lines + MilestonesLines(milestones, level)
  {
    out := lines;
    var i := 0;
    while i < |milestones|
      invariant 0 <= i <= |milestones|
      invariant out == lines + MilestonesLines(milestones[..i], level)
    {
      var rendered := RenderMilestone(milestones[i], level);
      MilestonesSnoc(milestones, i, level);
      SeqAssoc(lines, MilestonesLines(milestones[..i], level), rendered);
      out := out + rendered;
      i := i + 1;
    }
    assert milestones[..i] == milestones;
  }

  /** The pillar loop of `render`. */
  method RenderPillars(lines: seq<string>, pillars: seq<Pillar>) returns (out: seq<string>)
    ensures out == lines + PillarsLines(pillars)
  {
    out := lines;
    var i := 0;
    while i < |pillars|
      invariant 0 <= i <= |pillars|
      invariant out == lines + PillarsLines(pillars[..i])
    {
      ghost var before := out;
      var heading := ["\n## Pillar: " + pillars[i].name];
      out := RenderMilestones(out + heading, pillars[i].milestones, 3);
      SeqAssoc(before, heading, MilestonesLines(pillars[i].milestones, 3));
      PillarsSnoc(pillars, i);
      SeqAssoc(lines, PillarsLines(pillars[..i]), PillarLines(pillars[i]));
      i := i + 1;
    }
    assert pillars[..i] == pillars;
  }

  /** `for item in items: lines.append(f"- {item}")`. */
  method AppendBullets(lines: seq<string>, items: seq<string>) returns (out: seq<string>)
    ensures out == lines + Bullets(items)
  {
    out := lines;
    var i := 0;
    while i < |items|
      invariant 0 <= i <= |items|
      invariant out == lines + Bullets(items[..i])
    {
      BulletsSnoc(items, i);
      SeqAssoc(lines, Bullets(items[..i]), ["- " + items[i]]);
      out := out + ["- " + items[i]];
      i := i + 1;
    }
    assert items[..i] == items;
  }

  /** The KPI loop of `render`. */
  method AppendKPIs(lines: seq<string>, kpis: seq<KPI>) returns (out: seq<string>)
    ensures out == lines + KPIsLines(kpis)
  {
    out := lines;
    var i := 0;
    while i < |kpis|
      invariant 0 <= i <= |kpis|
      invariant out == lines + KPIsLines(kpis[..i])
    {
      var kpi := kpis[i];
      var targetStr := if Truthy(kpi.target) then " \U{2014} Target: " + kpi.target.value else "";
      var line := "- **" + kpi.metric + "**" + targetStr;
      assert line == KPILine(kpi);
      KPIsSnoc(kpis, i);
      SeqAssoc(lines, KPIsLines(kpis[..i]), [line]);
      out := out + [line];
      i := i + 1;
    }
    assert kpis[..i] == kpis;
  }

  /** The risk loop of `render`. */
  method AppendRisks(lines: seq<string>, risks: seq<Risk>) returns (out: seq<string>)
    ensures out == lines + RisksLines(risks)
  {
    out := lines;
    var i := 0;
    while i < |risks|
      invariant 0 <= i <= |risks|
      invariant out == lines + RisksLines(risks[..i])
    {
      var risk := risks[i];
      var badge := "[" + Upper(risk.severity) + "]";
      var riskLines := ["- " + badge + " " + risk.description];
      if Truthy(risk.mitigation) {
        riskLines := riskLines + ["  - _Mitigation: " + risk.mitigation.value + "_"];
      }
      assert riskLines == RiskLines(risk);
      RisksSnoc(risks, i);
      SeqAssoc(lines, RisksLines(risks[..i]), riskLines);
      out := out + riskLines;
      i := i + 1;
    }
    assert risks[..i] == risks;
  }

  /** The governance part of `render`. */
  method RenderGovernance(lines: seq<string>, gov: GovernanceInfo) returns (out: seq<string>)
    ensures out == lines + GovernanceLines(gov)
  {
    var gl: seq<string> := ["\n---", "## Governance & Risk"];
    ghost var mark := gl;
    if gov.stakeholders != [] {
      gl := AppendBullets(gl + [StakeholdersHeading], gov.stakeholders);
      SeqAssoc(mark, [StakeholdersHeading], Bullets(gov.stakeholders));
    }
    assert gl == mark + Section(gov.stakeholders != [], StakeholdersHeading, Bullets(gov.stakeholders));
    mark := gl;
    if gov.kpis != [] {
      gl := AppendKPIs(gl + [KPIsHeading], gov.kpis);
      SeqAssoc(mark, [KPIsHeading], KPIsLines(gov.kpis));
    }
    assert gl == mark + Section(gov.kpis != [], KPIsHeading, KPIsLines(gov.kpis));
    mark := gl;
    if gov.risks != [] {
      gl := AppendRisks(gl + [RisksHeading], gov.risks);
      SeqAssoc(mark, [RisksHeading], RisksLines(gov.risks));
    }
    assert gl == mark + Section(gov.risks != [], RisksHeading, RisksLines(gov.risks));
    mark := gl;
    if gov.externalVendors != [] {
      gl := AppendBullets(gl + [VendorsHeading], gov.externalVendors);
      SeqAssoc(mark, [VendorsHeading], Bullets(gov.externalVendors));
    }
    assert gl == mark + Section(gov.externalVendors != [], VendorsHeading, Bullets(gov.externalVendors));
    mark := gl;
    if Truthy(gov.reviewCadence) {
      gl := gl + [CadencePrefix + gov.reviewCadence.value];
    }
    assert gl == mark + OptLine(gov.reviewCadence, CadencePrefix);
    assert gl == GovernanceLines(gov);
    out := lines + gl;
  }

  /** The header part of `render`. */
  method RenderHeader(plan: ProjectPlan) returns (lines: seq<string>)
    ensures lines == HeaderLines(plan)
  {
    lines := ["# " + plan.projectName];
    lines := lines + ["**Type:** " + Capitalize(plan.projectType)];
    lines := lines + ["**Success Definition:** " + plan.successDefinition];
    assert lines == ["# " + plan.projectName, "**Type:** " + Capitalize(plan.projectType),
                     "**Success Definition:** " + plan.successDefinition];
    ghost var mark := lines;
    if Truthy(plan.deadline) {
      lines := lines + ["**Deadline:** " + plan.deadline.value];
    }
    assert lines == mark + OptLine(plan.deadline, "**Deadline:** ");
    mark := lines;
    if Truthy(plan.budget) {
      lines := lines + ["**Budget:** " + plan.budget.value];
    }
    assert lines == mark + OptLine(plan.budget, "**Budget:** ");
    mark := lines;
    if TruthyInt(plan.teamSize) {
      lines := lines + ["**Team Size:** " + IntToString(plan.teamSize.value)];
    }
    assert lines == mark + (if TruthyInt(plan.teamSize) then ["**Team Size:** " + IntToString(plan.teamSize.value)] else []);
    mark := lines;
    if Truthy(plan.methodology) {
      lines := lines + ["**Methodology:** " + plan.methodology.value];
    }
    assert lines == mark + OptLine(plan.methodology, "**Methodology:** ");
    mark := lines;
    lines := lines + [""];
    lines := lines + ["---"];
    SeqAssoc(mark, [""], ["---"]);
    assert [""] + ["---"] == ["", "---"];
  }

  /** `MarkdownRenderer.render`. */
  method Render(plan: ProjectPlan) returns (md: string)
    ensures md == Join(PlanLines(plan), "\n")
  {
    var lines := RenderHeader(plan);
    ghost var header := lines;
    if plan.projectType == "program" && plan.pillars != [] {
      lines := RenderPillars(lines + ["## Program Structure"], plan.pillars);
      SeqAssoc(header, ["## Program Structure"], PillarsLines(plan.pillars));
    } else {
      lines := RenderMilestones(lines + ["## Project Plan"], plan.milestones, 2);
      SeqAssoc(header, ["## Project Plan"], MilestonesLines(plan.milestones, 2));
    }
    assert lines == header + StructureLines(plan);
    if plan.governance.Some? {
      lines := RenderGovernance(lines, plan.governance.value);
    }
    assert lines == PlanLines(plan);
    md := Join(lines, "\n");
  }

  // ---------------------------------------------------------------------
  // What the document promises
  // ---------------------------------------------------------------------

  lemma StartsWithConcat(p: string, q: string)
    ensures StartsWith(p + q, p)
  {
    assert (p + q)[..|p|] == p;
  }

  /** Two strings that differ at position `k` of their fixed prefixes. */
  lemma NotStartsWith(p: string, x: string, q: string, k: nat)
    requires k < |p| && k < |q| && p[k] != q[k]
    ensures !StartsWith(p + x, q)
  {
    assert (p + x)[k] == p[k];
  }

  /** Joining four or more lines starts with the first three, each followed by the separator. */
  lemma JoinStartsWithThree(ls: seq<string>, sep: string)
    requires |ls| >= 4
    ensures StartsWith(Join(ls, sep), ls[0] + sep + ls[1] + sep + ls[2] + sep)
  {
    var r := Join(ls[3..], sep);
    assert ls[1..][1..] == ls[2..];
    assert ls[2..][1..] == ls[3..];
    assert Join(ls[2..], sep) == ls[2] + sep + r;
    assert Join(ls[1..], sep) == ls[1] + sep + Join(ls[2..], sep);
    assert Join(ls, sep) == ls[0] + sep + (ls[1] + sep + (ls[2] + sep + r));
    assert ls[0] + sep + (ls[1] + sep + (ls[2] + sep + r)) == (ls[0] + sep + ls[1] + sep + ls[2] + sep) + r;
    StartsWithConcat(ls[0] + sep + ls[1] + sep + ls[2] + sep, r);
  }

  lemma HeaderPrefix(h: seq<string>, body: seq<string>)
    requires |h| >= 3
    ensures (h + body)[0] == h[0] && (h + body)[1] == h[1] && (h + body)[2] == h[2]
  {
  }

  /** The document opens with the title, type and success-definition lines, in that order. */
  lemma RenderBeginsWithTitle(plan: ProjectPlan)
    ensures StartsWith(Join(PlanLines(plan), "\n"),
                       ("# " + plan.projectName) + "\n"
                       + ("**Type:** " + Capitalize(plan.projectType)) + "\n"
                       + ("**Success Definition:** " + plan.successDefinition) + "\n")
  {
    var ls := PlanLines(plan);
    var h := HeaderLines(plan);
    assert |h| >= 5;
    assert h[0] == "# " + plan.projectName;
    assert h[1] == "**Type:** " + Capitalize(plan.projectType);
    assert h[2] == "**Success Definition:** " + plan.successDefinition;
    HeaderPrefix(h, StructureLines(plan) + (if plan.governance.Some? then GovernanceLines(plan.governance.value) else []));
    JoinStartsWithThree(ls, "\n");
  }

  /** The lines the header can hold. */
  lemma HeaderLineForms(plan: ProjectPlan, l: string)
    requires l in HeaderLines(plan)
    ensures || l == "# " + plan.projectName
            || l == "**Type:** " + Capitalize(plan.projectType)
            || l == "**Success Definition:** " + plan.successDefinition
            || (Truthy(plan.deadline) && l == "**Deadline:** " + plan.deadline.value)
            || (Truthy(plan.budget) && l == "**Budget:** " + plan.budget.value)
            || (TruthyInt(plan.teamSize) && l == "**Team Size:** " + IntToString(plan.teamSize.value))
            || (Truthy(plan.methodology) && l == "**Methodology:** " + plan.methodology.value)
            || l == "" || l == "---"
  {
  }

  /** No fixed header line starts with the prefix `q` of an optional field's line. */
  lemma FixedHeaderLinesAvoid(plan: ProjectPlan, q: string)
    requires |q| > 3 && q[0] == '*' && q[1] == '*' && q[2] != 'T' && q[2] != 'S'
    ensures !StartsWith("# " + plan.projectName, q)
    ensures !StartsWith("**Type:** " + Capitalize(plan.projectType), q)
    ensures !StartsWith("**Success Definition:** " + plan.successDefinition, q)
    ensures !StartsWith("", q) && !StartsWith("---", q)
  {
    NotStartsWith("# ", plan.projectName, q, 1);
    NotStartsWith("**Type:** ", Capitalize(plan.projectType), q, 2);
    NotStartsWith("**Success Definition:** ", plan.successDefinition, q, 2);
  }

  /** The deadline line is present exactly when the deadline is truthy, and it shows the deadline. */
  lemma DeadlineLineIffTruthy(plan: ProjectPlan)
    ensures Truthy(plan.deadline) ==> "**Deadline:** " + plan.deadline.value in HeaderLines(plan)
    ensures forall l :: l in HeaderLines(plan) && StartsWith(l, "**Deadline:** ") ==>
      Truthy(plan.deadline) && l == "**Deadline:** " + plan.deadline.value
  {
    var q := "**Deadline:** ";
    forall l | l in HeaderLines(plan) && StartsWith(l, q)
      ensures Truthy(plan.deadline) && l == q + plan.deadline.value
    {
      HeaderLineForms(plan, l);
      FixedHeaderLinesAvoid(plan, q);
      if Truthy(plan.budget) { NotStartsWith("**Budget:** ", plan.budget.value, q, 2); }
      if TruthyInt(plan.teamSize) { NotStartsWith("**Team Size:** ", IntToString(plan.teamSize.value), q, 2); }
      if Truthy(plan.methodology) { NotStartsWith("**Methodology:** ", plan.methodology.value, q, 2); }
    }
  }

  /** The budget line is present exactly when the budget is truthy, and it shows the budget. */
  lemma BudgetLineIffTruthy(plan: ProjectPlan)
    ensures Truthy(plan.budget) ==> "**Budget:** " + plan.budget.value in HeaderLines(plan)
    ensures forall l :: l in HeaderLines(plan) && StartsWith(l, "**Budget:** ") ==>
      Truthy(plan.budget) && l == "**Budget:** " + plan.budget.value
  {
    var q := "**Budget:** ";
    forall l | l in HeaderLines(plan) && StartsWith(l, q)
      ensures Truthy(plan.budget) && l == q + plan.budget.value
    {
      HeaderLineForms(plan, l);
      FixedHeaderLinesAvoid(plan, q);
      if Truthy(plan.deadline) { NotStartsWith("**Deadline:** ", plan.deadline.value, q, 2); }
      if TruthyInt(plan.teamSize) { NotStartsWith("**Team Size:** ", IntToString(plan.teamSize.value), q, 2); }
      if Truthy(plan.methodology) { NotStartsWith("**Methodology:** ", plan.methodology.value, q, 2); }
    }
  }

  /** The team-size line is present exactly when the team size is set and non-zero. */
  lemma TeamSizeLineIffTruthy(plan: ProjectPlan)
    ensures TruthyInt(plan.teamSize) ==> "**Team Size:** " + IntToString(plan.teamSize.value) in HeaderLines(plan)
    ensures forall l :: l in HeaderLines(plan) && StartsWith(l, "**Team Size:** ") ==>
      TruthyInt(plan.teamSize) && l == "**Team Size:** " + IntToString(plan.teamSize.value)
  {
    var q := "**Team Size:** ";
    forall l | l in HeaderLines(plan) && StartsWith(l, q)
      ensures TruthyInt(plan.teamSize) && l == q + IntToString(plan.teamSize.value)
    {
      HeaderLineForms(plan, l);
      NotStartsWith("# ", plan.projectName, q, 1);
      NotStartsWith("**Type:** ", Capitalize(plan.projectType), q, 3);
      NotStartsWith("**Success Definition:** ", plan.successDefinition, q, 2);
      if Truthy(plan.deadline) { NotStartsWith("**Deadline:** ", plan.deadline.value, q, 2); }
      if Truthy(plan.budget) { NotStartsWith("**Budget:** ", plan.budget.value, q, 2); }
      if Truthy(plan.methodology) { NotStartsWith("**Methodology:** ", plan.methodology.value, q, 2); }
    }
  }

  /** The methodology line is present exactly when the methodology is truthy. */
  lemma MethodologyLineIffTruthy(plan: ProjectPlan)
    ensures Truthy(plan.methodology) ==> "**Methodology:** " + plan.methodology.value in HeaderLines(plan)
    ensures forall l :: l in HeaderLines(plan) && StartsWith(l, "**Methodology:** ") ==>
      Truthy(plan.methodology) && l == "**Methodology:** " + plan.methodology.value
  {
    var q := "**Methodology:** ";
    forall l | l in HeaderLines(plan) && StartsWith(l, q)
      ensures Truthy(plan.methodology) && l == q + plan.methodology.value
    {
      HeaderLineForms(plan, l);
      FixedHeaderLinesAvoid(plan, q);
      if Truthy(plan.deadline) { NotStartsWith("**Deadline:** ", plan.deadline.value, q, 2); }
      if Truthy(plan.budget) { NotStartsWith("**Budget:** ", plan.budget.value, q, 2); }
      if TruthyInt(plan.teamSize) { NotStartsWith("**Team Size:** ", IntToString(plan.teamSize.value), q, 2); }
    }
  }

  // ---------------------------------------------------------------------
  // Which headings appear
  // ---------------------------------------------------------------------

  /**
   * An element of a line list that begins with `"## "`. Milestone and pillar
   * headings are elements that begin with `"\n"`, so they are not such
   * elements; they start `## ` lines of the document only once the list is
   * joined with `"\n"`.
   */
  predicate IsLevel2(l: string) {
    |l| >= 3 && l[0] == '#' && l[1] == '#' && l[2] == ' '
  }

  /** A line that does not start with `#`, so it is no heading of level 1 or 2. */
  predicate Plain(l: string) {
    |l| > 0 && l[0] != '#'
  }

  /** A list item line: it starts with `-` or with indentation. */
  predicate Item(l: string) {
    |l| > 0 && (l[0] == '-' || l[0] == ' ')
  }

  lemma {:induction false} SubTasksArePlain(sts: seq<SubTask>)
    ensures forall l :: l in SubTasksLines(sts) ==> Plain(l)
  {
    if sts != [] {
      SubTasksArePlain(sts[..|sts| - 1]);
      var st := sts[|sts| - 1];
      assert SubTaskLine(st)[0] == ' ';
      if Truthy(st.deliverable) {
        assert ("    - _Deliverable: " + st.deliverable.value + "_")[0] == ' ';
      }
    }
  }

  lemma {:induction false} TasksArePlain(ts: seq<Task>)
    ensures forall l :: l in TasksLines(ts) ==> Plain(l)
  {
    if ts != [] {
      TasksArePlain(ts[..|ts| - 1]);
      var t := ts[|ts| - 1];
      SubTasksArePlain(t.subtasks);
      assert TaskLine(t)[0] == '\n';
      assert DependenciesLine(t.dependencies)[0] == ' ';
    }
  }

  lemma {:induction false} MilestonesArePlain(ms: seq<Milestone>, level: nat)
    ensures forall l :: l in MilestonesLines(ms, level) ==> Plain(l)
  {
    if ms != [] {
      MilestonesArePlain(ms[..|ms| - 1], level);
      var m := ms[|ms| - 1];
      TasksArePlain(m.tasks);
      assert MilestoneHeading(m, level)[0] == '\n';
      if Truthy(m.deliverable) { assert ("_Deliverable: " + m.deliverable.value + "_")[0] == '_'; }
      if Truthy(m.timeline) { assert ("_Timeline: " + m.timeline.value + "_")[0] == '_'; }
      if Truthy(m.owner) { assert ("_Owner: " + m.owner.value + "_")[0] == '_'; }
    }
  }

  lemma {:induction false} PillarsArePlain(ps: seq<Pillar>)
    ensures forall l :: l in PillarsLines(ps) ==> Plain(l)
  {
    if ps != [] {
      PillarsArePlain(ps[..|ps| - 1]);
      var p := ps[|ps| - 1];
      MilestonesArePlain(p.milestones, 3);
      assert ("\n## Pillar: " + p.name)[0] == '\n';
    }
  }

  /** Every stakeholder or vendor gets its bullet, and every bullet is a list item. */
  lemma {:induction false} BulletsShowEachItem(xs: seq<string>)
    ensures forall x :: x in xs ==> "- " + x in Bullets(xs)
    ensures forall l :: l in Bullets(xs) ==> Item(l)
  {
    if xs != [] {
      var init := xs[..|xs| - 1];
      BulletsShowEachItem(init);
      assert xs == init + [xs[|xs| - 1]];
      assert ("- " + xs[|xs| - 1])[0] == '-';
    }
  }

  /** Every KPI gets its line, and every KPI line is a list item. */
  lemma {:induction false} KPIsShowEachKPI(ks: seq<KPI>)
    ensures forall k :: k in ks ==> KPILine(k) in KPIsLines(ks)
    ensures forall l :: l in KPIsLines(ks) ==> Item(l)
  {
    if ks != [] {
      var init := ks[..|ks| - 1];
      KPIsShowEachKPI(init);
      assert ks == init + [ks[|ks| - 1]];
      assert KPILine(ks[|ks| - 1])[0] == '-';
    }
  }

  /** Every risk gets its badge line, and its mitigation line when the mitigation is truthy. */
  lemma {:induction false} RisksShowEachRisk(rs: seq<Risk>)
    ensures forall r :: r in rs ==> RiskLine(r) in RisksLines(rs)
    ensures forall r :: r in rs && Truthy(r.mitigation) ==> MitigationLine(r.mitigation.value) in RisksLines(rs)
    ensures forall l :: l in RisksLines(rs) ==> Item(l)
  {
    if rs != [] {
      var init := rs[..|rs| - 1];
      var r := rs[|rs| - 1];
      RisksShowEachRisk(init);
      assert rs == init + [r];
      assert RiskLine(r)[0] == '-';
      if Truthy(r.mitigation) {
        assert MitigationLine(r.mitigation.value)[0] == ' ';
      }
    }
  }

  /** `p + x` and `q` differ because they differ inside the prefix `p`. */
  lemma PrefixDiffers(p: string, x: string, q: string, k: nat)
    requires k < |p| && k < |q| && p[k] != q[k]
    ensures p + x != q
  {
    assert (p + x)[k] == p[k];
  }

  /** The lines the governance block can hold. */
  lemma GovernanceLineForms(g: GovernanceInfo, l: string)
    requires l in GovernanceLines(g)
    ensures || l == "\n---" || l == "## Governance & Risk"
            || (g.stakeholders != [] && l == StakeholdersHeading)
            || (g.kpis != [] && l == KPIsHeading)
            || (g.risks != [] && l == RisksHeading)
            || (g.externalVendors != [] && l == VendorsHeading)
            || (Truthy(g.reviewCadence) && l == CadencePrefix + g.reviewCadence.value)
            || Item(l)
  {
    BulletsShowEachItem(g.stakeholders);
    KPIsShowEachKPI(g.kpis);
    RisksShowEachRisk(g.risks);
    BulletsShowEachItem(g.externalVendors);
  }

  /** The stakeholders heading appears exactly when there are stakeholders. */
  lemma StakeholdersSectionIffNonEmpty(g: GovernanceInfo)
    ensures StakeholdersHeading in GovernanceLines(g) <==> g.stakeholders != []
  {
    if StakeholdersHeading in GovernanceLines(g) {
      var v := if g.reviewCadence.Some? then g.reviewCadence.value else "";
      GovernanceLineForms(g, StakeholdersHeading);
      PrefixDiffers(CadencePrefix, v, StakeholdersHeading, 5);
      assert StakeholdersHeading[1] != "\n---"[1] && StakeholdersHeading[5] != KPIsHeading[5];
      assert StakeholdersHeading[5] != RisksHeading[5] && StakeholdersHeading[5] != VendorsHeading[5];
    }
  }

  /** The KPIs heading appears exactly when there are KPIs. */
  lemma KPIsSectionIffNonEmpty(g: GovernanceInfo)
    ensures KPIsHeading in GovernanceLines(g) <==> g.kpis != []
  {
    if KPIsHeading in GovernanceLines(g) {
      var v := if g.reviewCadence.Some? then g.reviewCadence.value else "";
      GovernanceLineForms(g, KPIsHeading);
      PrefixDiffers(CadencePrefix, v, KPIsHeading, 5);
      assert KPIsHeading[1] != "\n---"[1] && KPIsHeading[5] != StakeholdersHeading[5];
      assert KPIsHeading[5] != RisksHeading[5] && KPIsHeading[5] != VendorsHeading[5];
    }
  }

  /** The risks heading appears exactly when there are risks. */
  lemma RisksSectionIffNonEmpty(g: GovernanceInfo)
    ensures RisksHeading in GovernanceLines(g) <==> g.risks != []
  {
    if RisksHeading in GovernanceLines(g) {
      var v := if g.reviewCadence.Some? then g.reviewCadence.value else "";
      GovernanceLineForms(g, RisksHeading);
      PrefixDiffers(CadencePrefix, v, RisksHeading, 6);
      assert RisksHeading[1] != "\n---"[1] && RisksHeading[5] != StakeholdersHeading[5];
      assert RisksHeading[5] != KPIsHeading[5] && RisksHeading[5] != VendorsHeading[5];
    }
  }

  /** The external-vendors heading appears exactly when there are vendors. */
  lemma VendorsSectionIffNonEmpty(g: GovernanceInfo)
    ensures VendorsHeading in GovernanceLines(g) <==> g.externalVendors != []
  {
    var before := ["\n---", "## Governance & Risk"]
      + Section(g.stakeholders != [], StakeholdersHeading, Bullets(g.stakeholders))
      + Section(g.kpis != [], KPIsHeading, KPIsLines(g.kpis))
      + Section(g.risks != [], RisksHeading, RisksLines(g.risks));
    var vendors := Section(g.externalVendors != [], VendorsHeading, Bullets(g.externalVendors));
    assert GovernanceLines(g) == before + vendors + OptLine(g.reviewCadence, CadencePrefix);
    if g.externalVendors != [] {
      assert vendors[0] == VendorsHeading;
    }
    if VendorsHeading in GovernanceLines(g) {
      var v := if g.reviewCadence.Some? then g.reviewCadence.value else "";
      GovernanceLineForms(g, VendorsHeading);
      PrefixDiffers(CadencePrefix, v, VendorsHeading, 5);
      assert VendorsHeading[1] != "\n---"[1] && VendorsHeading[5] != StakeholdersHeading[5];
      assert VendorsHeading[5] != KPIsHeading[5] && VendorsHeading[5] != RisksHeading[5];
    }
  }

  /** The review-cadence section appears exactly when the cadence is truthy, and shows it. */
  lemma CadenceSectionIffTruthy(g: GovernanceInfo)
    ensures Truthy(g.reviewCadence) ==> CadencePrefix + g.reviewCadence.value in GovernanceLines(g)
    ensures forall l :: l in GovernanceLines(g) && StartsWith(l, CadencePrefix) ==>
      Truthy(g.reviewCadence) && l == CadencePrefix + g.reviewCadence.value
  {
    forall l | l in GovernanceLines(g) && StartsWith(l, CadencePrefix)
      ensures Truthy(g.reviewCadence) && l == CadencePrefix + g.reviewCadence.value
    {
      GovernanceLineForms(g, l);
      assert l[0] == CadencePrefix[0] && l[1] == CadencePrefix[1] && l[6] == CadencePrefix[6];
      assert l[0] != StakeholdersHeading[0] || l[5] != StakeholdersHeading[5] || |l| != |StakeholdersHeading|;
    }
  }

  /** No element of the header's line list begins with `"## "`. */
  lemma HeaderHasNoLevel2(plan: ProjectPlan)
    ensures forall l :: l in HeaderLines(plan) ==> !IsLevel2(l)
  {
    forall l | l in HeaderLines(plan)
      ensures !IsLevel2(l)
    {
      HeaderLineForms(plan, l);
      assert ("# " + plan.projectName)[1] == ' ';
      assert ("**Type:** " + Capitalize(plan.projectType))[0] == '*';
      assert ("**Success Definition:** " + plan.successDefinition)[0] == '*';
      if Truthy(plan.deadline) { assert ("**Deadline:** " + plan.deadline.value)[0] == '*'; }
      if Truthy(plan.budget) { assert ("**Budget:** " + plan.budget.value)[0] == '*'; }
      if TruthyInt(plan.teamSize) { assert ("**Team Size:** " + IntToString(plan.teamSize.value))[0] == '*'; }
      if Truthy(plan.methodology) { assert ("**Methodology:** " + plan.methodology.value)[0] == '*'; }
    }
  }

  /** The only element of the governance block's line list that begins with `"## "` is its title. */
  lemma GovernanceHasOneLevel2(g: GovernanceInfo)
    ensures forall l :: l in GovernanceLines(g) && IsLevel2(l) ==> l == "## Governance & Risk"
  {
    forall l | l in GovernanceLines(g)
      ensures IsLevel2(l) ==> l == "## Governance & Risk"
    {
      GovernanceLineForms(g, l);
      if Truthy(g.reviewCadence) { assert (CadencePrefix + g.reviewCadence.value)[0] == '\n'; }
    }
  }

  /**
   * The only element of the structure part's line list that begins with
   * `"## "` is its first one: milestone and pillar headings begin with `"\n"`.
   */
  lemma StructureHasOneLevel2(plan: ProjectPlan)
    ensures StructureLines(plan)[0] == (if ShowsPillars(plan) then "## Program Structure" else "## Project Plan")
    ensures forall l :: l in StructureLines(plan) && IsLevel2(l) ==> l == StructureLines(plan)[0]
  {
    if ShowsPillars(plan) {
      PillarsArePlain(plan.pillars);
    } else {
      MilestonesArePlain(plan.milestones, 2);
    }
  }

  /**
   * The elements of the document's line list that begin with `"## "` are the
   * structure heading and, when set, the governance heading. Milestone and
   * pillar headings begin with `"\n"`; in the joined text they also start
   * `## ` lines, which this lemma does not describe.
   */
  lemma Level2Headings(plan: ProjectPlan)
    ensures forall l :: l in PlanLines(plan) && IsLevel2(l) ==>
      || l == (if ShowsPillars(plan) then "## Program Structure" else "## Project Plan")
      || (plan.governance.Some? && l == "## Governance & Risk")
    ensures (if ShowsPillars(plan) then "## Program Structure" else "## Project Plan") in PlanLines(plan)
    ensures plan.governance.Some? ==> "## Governance & Risk" in PlanLines(plan)
  {
    var h := HeaderLines(plan);
    var st := StructureLines(plan);
    var gl := if plan.governance.Some? then GovernanceLines(plan.governance.value) else [];
    assert PlanLines(plan) == h + st + gl;
    HeaderHasNoLevel2(plan);
    StructureHasOneLevel2(plan);
    if plan.governance.Some? {
      GovernanceHasOneLevel2(plan.governance.value);
      assert gl[1] == "## Governance & Risk";
    }
    assert st[0] in PlanLines(plan);
  }

  /** Which of the three headings occur in a line list whose elements beginning with `"## "` are known. */
  lemma Level2HeadingsIff(ls: seq<string>, pillars: bool, governance: bool)
    requires forall l :: l in ls && IsLevel2(l) ==>
      || l == (if pillars then "## Program Structure" else "## Project Plan")
      || (governance && l == "## Governance & Risk")
    requires (if pillars then "## Program Structure" else "## Project Plan") in ls
    requires governance ==> "## Governance & Risk" in ls
    ensures "## Program Structure" in ls <==> pillars
    ensures "## Project Plan" in ls <==> !pillars
    ensures "## Governance & Risk" in ls <==> governance
  {
    assert IsLevel2("## Program Structure") && IsLevel2("## Project Plan") && IsLevel2("## Governance & Risk");
    assert "## Program Structure"[6] != "## Project Plan"[6];
    assert "## Program Structure"[3] != "## Governance & Risk"[3];
    assert "## Project Plan"[3] != "## Governance & Risk"[3];
  }

  /**
   * The line-list element "## Program Structure" is present exactly for a
   * program plan with pillars, and "## Project Plan" exactly otherwise. A
   * milestone named "Program Structure" gives the different element
   * "\n## Program Structure", which reads as the same line once joined.
   */
  lemma StructureHeadingIffProgram(plan: ProjectPlan)
    ensures "## Program Structure" in PlanLines(plan) <==> ShowsPillars(plan)
    ensures "## Project Plan" in PlanLines(plan) <==> !ShowsPillars(plan)
  {
    Level2Headings(plan);
    Level2HeadingsIff(PlanLines(plan), ShowsPillars(plan), plan.governance.Some?);
  }

  /** The line-list element "## Governance & Risk", the governance block's title, is present exactly when governance is set. */
  lemma GovernanceBlockIffSet(plan: ProjectPlan)
    ensures "## Governance & Risk" in PlanLines(plan) <==> plan.governance.Some?
  {
    Level2Headings(plan);
    Level2HeadingsIff(PlanLines(plan), ShowsPillars(plan), plan.governance.Some?);
  }

  // ---------------------------------------------------------------------
  // Nothing is dropped: every item of the plan gets its line
  // ---------------------------------------------------------------------

  lemma {:induction false} SubTasksShowEach(sts: seq<SubTask>)
    ensures forall st :: st in sts ==> SubTaskLine(st) in SubTasksLines(sts)
    ensures forall st :: st in sts && Truthy(st.deliverable) ==>
      "    - _Deliverable: " + st.deliverable.value + "_" in SubTasksLines(sts)
  {
    if sts != [] {
      var init := sts[..|sts| - 1];
      SubTasksShowEach(init);
      assert sts == init + [sts[|sts| - 1]];
    }
  }

  /** Every task gets its line, every subtask of a task gets its line, and a task's dependencies line follows it. */
  lemma {:induction false} TasksShowEach(ts: seq<Task>)
    ensures forall t :: t in ts ==> TaskLine(t) in TasksLines(ts)
    ensures forall t :: t in ts && t.dependencies != [] ==> DependenciesLine(t.dependencies) in TasksLines(ts)
    ensures forall t, st :: t in ts && st in t.subtasks ==> SubTaskLine(st) in TasksLines(ts)
  {
    if ts != [] {
      var init := ts[..|ts| - 1];
      var t := ts[|ts| - 1];
      TasksShowEach(init);
      SubTasksShowEach(t.subtasks);
      assert ts == init + [t];
    }
  }

  /** Every milestone gets its heading at `level`, and every task of a milestone gets its line. */
  lemma {:induction false} MilestonesShowEach(ms: seq<Milestone>, level: nat)
    ensures forall m :: m in ms ==> MilestoneHeading(m, level) in MilestonesLines(ms, level)
    ensures forall m, t :: m in ms && t in m.tasks ==> TaskLine(t) in MilestonesLines(ms, level)
  {
    if ms != [] {
      var init := ms[..|ms| - 1];
      var m := ms[|ms| - 1];
      MilestonesShowEach(init, level);
      TasksShowEach(m.tasks);
      assert ms == init + [m];
    }
  }

  /** Every pillar gets its heading, and every milestone of a pillar gets a level-3 heading. */
  lemma {:induction false} PillarsShowEach(ps: seq<Pillar>)
    ensures forall p :: p in ps ==> "\n## Pillar: " + p.name in PillarsLines(ps)
    ensures forall p, m :: p in ps && m in p.milestones ==> MilestoneHeading(m, 3) in PillarsLines(ps)
  {
    if ps != [] {
      var init := ps[..|ps| - 1];
      var p := ps[|ps| - 1];
      PillarsShowEach(init);
      MilestonesShowEach(p.milestones, 3);
      assert ps == init + [p];
    }
  }

  /**
   * The line list of a program plan with pillars holds every pillar heading and every
   * milestone heading at level 3; that of any other plan holds every milestone heading at
   * level 2. Only membership is stated, not where a heading stands in the list.
   */
  lemma PlanShowsEveryMilestone(plan: ProjectPlan)
    ensures ShowsPillars(plan) ==>
      (forall p :: p in plan.pillars ==> "\n## Pillar: " + p.name in PlanLines(plan))
      && (forall p, m :: p in plan.pillars && m in p.milestones ==> MilestoneHeading(m, 3) in PlanLines(plan))
    ensures !ShowsPillars(plan) ==>
      forall m :: m in plan.milestones ==> MilestoneHeading(m, 2) in PlanLines(plan)
  {
    var h := HeaderLines(plan);
    var st := StructureLines(plan);
    var gl := if plan.governance.Some? then GovernanceLines(plan.governance.value) else [];
    assert PlanLines(plan) == h + st + gl;
    if ShowsPillars(plan) {
      PillarsShowEach(plan.pillars);
    } else {
      MilestonesShowEach(plan.milestones, 2);
    }
  }

  /** Every stakeholder, KPI, risk (with its mitigation when truthy) and vendor of the governance block gets its line. */
  lemma GovernanceShowsEveryItem(g: GovernanceInfo)
    ensures forall x :: x in g.stakeholders ==> "- " + x in GovernanceLines(g)
    ensures forall k :: k in g.kpis ==> KPILine(k) in GovernanceLines(g)
    ensures forall r :: r in g.risks ==> RiskLine(r) in GovernanceLines(g)
    ensures forall r :: r in g.risks && Truthy(r.mitigation) ==> MitigationLine(r.mitigation.value) in GovernanceLines(g)
    ensures forall x :: x in g.externalVendors ==> "- " + x in GovernanceLines(g)
  {
    BulletsShowEachItem(g.stakeholders);
    KPIsShowEachKPI(g.kpis);
    RisksShowEachRisk(g.risks);
    BulletsShowEachItem(g.externalVendors);
  }

  // ---------------------------------------------------------------------
  // Task and subtask lines written out
  // ---------------------------------------------------------------------

  /** `sep + x` for each `x`, concatenated. */
  function PrefixEach(xs: seq<string>, sep: string): string {
    if xs == [] then "" else sep + xs[0] + PrefixEach(xs[1..], sep)
  }

  /** Joining a first part with the rest puts the separator before each later part. */
  lemma {:induction false} JoinAfterFirst(a: string, xs: seq<string>, sep: string)
    ensures Join([a] + xs, sep) == a + PrefixEach(xs, sep)
    decreases |xs|
  {
    if xs != [] {
      assert ([a] + xs)[1..] == xs;
      assert xs == [xs[0]] + xs[1..];
      JoinAfterFirst(xs[0], xs[1..], sep);
      assert Join(xs, sep) == xs[0] + PrefixEach(xs[1..], sep);
      SeqAssoc(a + sep, xs[0], PrefixEach(xs[1..], sep));
      SeqAssoc(a, sep, xs[0] + PrefixEach(xs[1..], sep));
      SeqAssoc(a, sep + xs[0], PrefixEach(xs[1..], sep));
    }
  }

  /** `PrefixEach` of at most two optional parts. */
  lemma PrefixEachTwo(xs: seq<string>, ys: seq<string>, sep: string)
    requires |xs| <= 1 && |ys| <= 1
    ensures PrefixEach(xs + ys, sep)
      == (if xs == [] then "" else sep + xs[0]) + (if ys == [] then "" else sep + ys[0])
  {
    if xs != [] {
      assert (xs + ys)[1..] == ys;
      if ys != [] {
        assert ys[1..] == [];
      }
    }
  }

  /**
   * A task line is `"\n- **name**"`, then `" | Owner: o"` when the owner is truthy, then
   * `" | Duration: Nd"` when the duration is set and non-zero.
   */
  lemma TaskLineSpelledOut(t: Task)
    ensures TaskLine(t) == "\n- " + ("**" + t.name + "**")
      + (if Truthy(t.owner) then " | " + ("Owner: " + t.owner.value) else "")
      + (if TruthyInt(t.durationDays) then " | " + ("Duration: " + IntToString(t.durationDays.value) + "d") else "")
  {
    var first := "**" + t.name + "**";
    var o := if Truthy(t.owner) then ["Owner: " + t.owner.value] else [];
    var d := if TruthyInt(t.durationDays) then ["Duration: " + IntToString(t.durationDays.value) + "d"] else [];
    assert TaskParts(t) == [first] + (o + d);
    JoinAfterFirst(first, o + d, " | ");
    PrefixEachTwo(o, d, " | ");
    var po := if o == [] then "" else " | " + o[0];
    var pd := if d == [] then "" else " | " + d[0];
    SeqAssoc(first, po, pd);
    SeqAssoc("\n- ", first + po, pd);
    SeqAssoc("\n- ", first, po);
  }

  /**
   * A subtask line is `"  - name"`, then `" | Owner: o"` when the owner is truthy, then
   * `" | Timeline: t"` when the timeline is truthy.
   */
  lemma SubTaskLineSpelledOut(st: SubTask)
    ensures SubTaskLine(st) == "  - " + st.name
      + (if Truthy(st.owner) then " | " + ("Owner: " + st.owner.value) else "")
      + (if Truthy(st.timeline) then " | " + ("Timeline: " + st.timeline.value) else "")
  {
    var o := if Truthy(st.owner) then ["Owner: " + st.owner.value] else [];
    var tl := if Truthy(st.timeline) then ["Timeline: " + st.timeline.value] else [];
    assert SubTaskParts(st) == [st.name] + (o + tl);
    JoinAfterFirst(st.name, o + tl, " | ");
    PrefixEachTwo(o, tl, " | ");
    var po := if o == [] then "" else " | " + o[0];
    var pt := if tl == [] then "" else " | " + tl[0];
    SeqAssoc(st.name, po, pt);
    SeqAssoc("  - ", st.name + po, pt);
    SeqAssoc("  - ", st.name, po);
  }
}
