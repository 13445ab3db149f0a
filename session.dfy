/**
 * Planning stages, their fixed order, and the session a conversation
 * accumulates: its message log, its current stage, the records committed
 * for earlier stages and the completion flag.
 */
module Sessions {
  import opened Wrappers
  import opened StageData

  /** The six planning stages; `Complete` is terminal. */
  datatype Stage =
    | DefineOutcome
    | StrategicConstraints
    | PhasesAndMilestones
    | TasksAndSubtasks
    | RiskAndGovernance
    | Complete

  /** `STAGE_ORDER`. */
  const StageOrder: seq<Stage> :=
    [DefineOutcome, StrategicConstraints, PhasesAndMilestones, TasksAndSubtasks, RiskAndGovernance, Complete]

  /** `STAGE_ORDER.index(s)`. */
  function Index(s: Stage): (i: nat)
    ensures i < |StageOrder| && StageOrder[i] == s
  {
    match s
    case DefineOutcome => 0
    case StrategicConstraints => 1
    case PhasesAndMilestones => 2
    case TasksAndSubtasks => 3
    case RiskAndGovernance => 4
    case Complete => 5
  }

  /** The enum's string value, under which a stage is stored and reported. */
  function StageValue(s: Stage): string {
    match s
    case DefineOutcome => "define_outcome"
    case StrategicConstraints => "strategic_constraints"
    case PhasesAndMilestones => "phases_and_milestones"
    case TasksAndSubtasks => "tasks_and_subtasks"
    case RiskAndGovernance => "risk_and_governance"
    case Complete => "complete"
  }

  /** The stage order lists each stage once, starting at DefineOutcome and ending at Complete. */
  lemma StageOrderShape()
    ensures |StageOrder| == 6
    ensures StageOrder[0] == DefineOutcome && StageOrder[|StageOrder| - 1] == Complete
    ensures forall i, j :: 0 <= i < j < |StageOrder| ==> StageOrder[i] != StageOrder[j]
    ensures forall s: Stage :: s in StageOrder
  {
    forall s: Stage ensures s in StageOrder {
      assert StageOrder[Index(s)] == s;
    }
  }

  /** Distinct stages have distinct string values, so keying by value loses nothing. */
  lemma ValueInjective(a: Stage, b: Stage)
    requires StageValue(a) == StageValue(b)
    ensures a == b
  {
  }

  /** The stage that `advance_stage` moves to: the next entry of the order, or Complete itself. */
  function Next(s: Stage): (n: Stage)
    ensures s != Complete ==> Index(n) == Index(s) + 1
    ensures s == Complete ==> n == Complete
  {
    var idx := Index(s);
    if idx < |StageOrder| - 1 then StageOrder[idx + 1] else s
  }

  /** The stages strictly before `s` in the order. */
  function StagesBefore(s: Stage): set<Stage> {
    set i | 0 <= i < Index(s) :: StageOrder[i]
  }

  lemma StagesBeforeNext(s: Stage)
    requires s != Complete
    ensures s !in StagesBefore(s)
    ensures StagesBefore(Next(s)) == StagesBefore(s) + {s}
  {
    assert StageOrder[Index(s)] == s;
  }

  /** Every stage but Complete itself comes before Complete. */
  lemma StagesBeforeComplete()
    ensures forall s: Stage :: s in StagesBefore(Complete) <==> s != Complete
  {
    forall s: Stage | s != Complete ensures s in StagesBefore(Complete) {
      assert StageOrder[Index(s)] == s;
    }
  }

  /** Python's `ProjectType` enum. */
  datatype ProjectType = General | Program

  /** A clock reading; the source's `datetime.utcnow()`. */
  type Timestamp = int

  datatype Message = Message(role: string, content: string, timestamp: Timestamp)

  /** One entry of `get_claude_messages()`. */
  datatype RoleContent = RoleContent(role: string, content: string)

  /** A snapshot of every session field. */
  datatype SessionValue = SessionValue(
    sessionId: string,
    projectType: Option<ProjectType>,
    currentStage: Stage,
    messages: seq<Message>,
    stageData: map<Stage, StageRecord>,
    createdAt: Timestamp,
    updatedAt: Timestamp,
    isComplete: bool)

  /** The session a new conversation starts from. */
  function FreshSession(id: string, now: Timestamp): (v: SessionValue)
    ensures v.sessionId == id && v.projectType.None?
    ensures v.currentStage == DefineOutcome && Index(v.currentStage) == 0
    ensures v.messages == [] && v.stageData == map[] && !v.isComplete
  {
    SessionValue(id, None, DefineOutcome, [], map[], now, now, false)
  }

  class Session {
    var sessionId: string
    var projectType: Option<ProjectType>
    var currentStage: Stage
    var messages: seq<Message>
    var stageData: map<Stage, StageRecord>
    var createdAt: Timestamp
    var updatedAt: Timestamp
    var isComplete: bool

    /** `Session()`: the id and the clock stand for the uuid4 and utcnow defaults. */
    constructor (id: string, now: Timestamp)
      ensures Value() == FreshSession(id, now)
    {
      sessionId := id;
      projectType := None;
      currentStage := DefineOutcome;
      messages := [];
      stageData := map[];
      createdAt := now;
      updatedAt := now;
      isComplete := false;
    }

    /** `Session(**data)`: a new object holding a stored snapshot. */
    constructor FromValue(v: SessionValue)
      ensures Value() == v
    {
      sessionId := v.sessionId;
      projectType := v.projectType;
      currentStage := v.currentStage;
      messages := v.messages;
      stageData := v.stageData;
      createdAt := v.createdAt;
      updatedAt := v.updatedAt;
      isComplete := v.isComplete;
    }

    function Value(): SessionValue
      reads this
    {
      SessionValue(sessionId, projectType, currentStage, messages, stageData, createdAt, updatedAt, isComplete)
    }

    /** `get_claude_messages()`: role and content of each message, same length and order. */
    function ClaudeMessages(): (r: seq<RoleContent>)
      reads this
      ensures |r| == |messages|
      ensures forall i :: 0 <= i < |r| ==> r[i].role == messages[i].role && r[i].content == messages[i].content
    {
      seq(|messages|, i requires 0 <= i < |messages| reads this => RoleContent(messages[i].role, messages[i].content))
    }

    /** `advance_stage()`: one step along the order (none at Complete); only the stage and `updatedAt` change. */
    method AdvanceStage(now: Timestamp)
      modifies this
      ensures currentStage == Next(old(currentStage))
      ensures old(currentStage) != Complete ==> Index(currentStage) == Index(old(currentStage)) + 1
      ensures old(currentStage) == Complete ==> currentStage == Complete
      ensures updatedAt == now
      ensures Value() == old(Value()).(currentStage := currentStage, updatedAt := now)
    {
      var idx := Index(currentStage);
      if idx < |StageOrder| - 1 {
        currentStage := StageOrder[idx + 1];
      }
      updatedAt := now;
    }
  }
}
