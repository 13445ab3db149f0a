/**
 * The two pieces of the chat route that carry logic of their own: the
 * display label of each stage and the percentage shown for a stage.
 */
module Chat {
  import opened Wrappers
  import opened Sessions

  /** `STAGE_LABELS`, keyed by stage value. */
  const StageLabels: map<string, string> := map[
    "define_outcome" := "Stage 1: Define Outcome",
    "strategic_constraints" := "Stage 2: Strategic Constraints",
    "phases_and_milestones" := "Stage 3: Phases & Milestones",
    "tasks_and_subtasks" := "Stage 4: Tasks & Subtasks",
    "risk_and_governance" := "Stage 5: Risk & Governance",
    "complete" := "Complete"]

  /** The stage values in stage order: `[s.value for s in STAGE_ORDER]`. */
  function StageValues(): (vs: seq<string>)
    ensures |vs| == |StageOrder|
    ensures forall i :: 0 <= i < |vs| ==> vs[i] == StageValue(StageOrder[i])
  {
    seq(|StageOrder|, i requires 0 <= i < |StageOrder| => StageValue(StageOrder[i]))
  }

  /** `xs.index(x)`, or None where Python raises ValueError. */
  function IndexOf(xs: seq<string>, x: string): (r: Option<nat>)
    ensures r.Some? ==> r.value < |xs| && xs[r.value] == x && forall j :: 0 <= j < r.value ==> xs[j] != x
    ensures r.None? ==> x !in xs
  {
    if xs == [] then None
    else if xs[0] == x then Some(0)
    else match IndexOf(xs[1..], x)
      case None => None
      case Some(i) => Some(i + 1)
  }

  /** `_progress`: the stage's position as a whole percentage; an unknown value counts as the last stage. */
  function Progress(stageValue: string): (p: nat)
    ensures p <= 100
  {
    var stages := StageValues();
    var idx := match IndexOf(stages, stageValue)
      case Some(i) => i
      case None => |stages| - 1;
    idx * 100 / (|stages| - 1)
  }

  /** Each stage is found at its own position among the stage values. */
  lemma IndexOfStageValue(s: Stage)
    ensures IndexOf(StageValues(), StageValue(s)) == Some(Index(s))
  {
    var vs := StageValues();
    var r := IndexOf(vs, StageValue(s));
    assert vs[Index(s)] == StageValue(s);
    assert r.Some?;
    if r.value != Index(s) {
      ValueInjective(StageOrder[r.value], s);
      StageOrderShape();
      assert false;
    }
  }

  /** A stage's progress is 20 per completed step: 0, 20, 40, 60, 80 and 100. */
  lemma ProgressOfStage(s: Stage)
    ensures Progress(StageValue(s)) == 20 * Index(s)
    ensures s == DefineOutcome ==> Progress(StageValue(s)) == 0
    ensures s == Complete ==> Progress(StageValue(s)) == 100
  {
    IndexOfStageValue(s);
  }

  /** A value that names no stage is reported as complete. */
  lemma UnknownStageIsComplete(stageValue: string)
    requires forall s: Stage :: StageValue(s) != stageValue
    ensures Progress(stageValue) == 100
  {
    var vs := StageValues();
    forall i | 0 <= i < |vs| ensures vs[i] != stageValue {
      assert vs[i] == StageValue(StageOrder[i]);
    }
  }

  /** Progress never decreases along the stage order. */
  lemma ProgressMonotone(a: Stage, b: Stage)
    requires Index(a) <= Index(b)
    ensures Progress(StageValue(a)) <= Progress(StageValue(b))
  {
    ProgressOfStage(a);
    ProgressOfStage(b);
  }

  /** Every stage has a label, and every label belongs to a stage. */
  lemma EveryStageHasALabel()
    ensures forall s: Stage :: StageValue(s) in StageLabels
    ensures forall k :: k in StageLabels ==> exists s: Stage :: StageValue(s) == k
    ensures StageLabels[StageValue(Complete)] == "Complete"
  {
    forall k | k in StageLabels ensures exists s: Stage :: StageValue(s) == k {
      if k == "define_outcome" { assert StageValue(DefineOutcome) == k; }
      else if k == "strategic_constraints" { assert StageValue(StrategicConstraints) == k; }
      else if k == "phases_and_milestones" { assert StageValue(PhasesAndMilestones) == k; }
      else if k == "tasks_and_subtasks" { assert StageValue(TasksAndSubtasks) == k; }
      else if k == "risk_and_governance" { assert StageValue(RiskAndGovernance) == k; }
      else { assert StageValue(Complete) == k; }
    }
  }
}
