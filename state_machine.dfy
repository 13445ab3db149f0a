/**
 * One conversational turn of the planner. The user's message is logged; at
 * an active stage the reply generator and the extractor are consulted; a
 * record that passes its gate and the consistency check is committed under
 * the current stage and the session moves one stage on; the assistant's
 * reply is logged last. The two model calls are inputs of the turn.
 */
module StateMachine {
  import opened Wrappers
  import opened Text
  import opened StageData
  import opened Sessions
  import opened Prompts
  import opened StageHandlers
  import opened ContradictionDetector

  /** What the reply call produced: the reply text, or an API error that aborts the turn. */
  datatype GeneratedReply = Generated(text: string) | GenerationFailed

  /** The reply handed back (none when the turn aborted) and the session as the turn left it. */
  datatype TurnOutcome = TurnOutcome(reply: Option<string>, after: SessionValue)

  /** The fixed reply at Complete; `{session_id}` is literal text, not a substitution. */
  const AlreadyCompleteReply: string :=
    "Your project plan is already complete! Use `GET /api/v1/session/{session_id}/plan` to retrieve it."

  /** Placed between the generated reply and the next stage's opening message. */
  const TransitionSeparator: string := "\n\n---\n"

  /** The reply that replaces the generated one when the check finds a conflict. */
  function ConflictReply(c: Contradiction): (r: string)
    ensures Contains(r, c.description) && Contains(r, c.clarificationQuestion)
  {
    var a := "I noticed a potential conflict: ";
    ContainsMiddle(a, c.description, "\n\n");
    ContainsExtend(a + c.description + "\n\n", c.clarificationQuestion, c.description);
    ContainsEnd(a + c.description + "\n\n", c.clarificationQuestion);
    a + c.description + "\n\n" + c.clarificationQuestion
  }

  function UserMessage(content: string, now: Timestamp): Message {
    Message("user", content, now)
  }

  function AssistantMessage(content: string, now: Timestamp): Message {
    Message("assistant", content, now)
  }

  /** What the turn does with the extractor's answer at an active stage. */
  datatype Decision = NotExtracted | Conflict(contradiction: Contradiction) | Commit(record: StageRecord)

  function Decide(stage: Stage, stageData: map<Stage, StageRecord>, extraction: ExtractionResponse): (d: Decision)
    requires stage in StageHandlerClasses
    ensures d.Commit? <==> AttemptExtraction(stage, extraction).Some?
                           && Check(stage, AttemptExtraction(stage, extraction).value, stageData).None?
    ensures d.Commit? ==> IsRecordFor(stage, d.record) && HasRequiredFields(d.record)
                          && Check(stage, d.record, stageData).None?
    ensures d.Conflict? ==> stage == TasksAndSubtasks
  {
    var e := AttemptExtraction(stage, extraction);
    if e.None? then NotExtracted
    else
      var c := Check(stage, e.value, stageData);
      if c.Some? then Conflict(c.value) else Commit(e.value)
  }

  /** Stores `record` under the current stage and moves one stage on, marking completion on reaching Complete. */
  function CommitRecord(v: SessionValue, record: StageRecord, now: Timestamp): SessionValue {
    var next := Next(v.currentStage);
    v.(stageData := v.stageData[v.currentStage := record], currentStage := next, updatedAt := now,
       isComplete := if next == Complete then true else v.isComplete)
  }

  /**
   * The reply and the session, before the assistant message is logged, at an
   * active stage whose reply call produced `text`.
   */
  function Resolve(v: SessionValue, text: string, extraction: ExtractionResponse, now: Timestamp): (p: (string, SessionValue))
    requires v.currentStage in StageHandlerClasses
    ensures p.1.messages == v.messages && p.1.sessionId == v.sessionId
    ensures p.1.createdAt == v.createdAt && p.1.projectType == v.projectType
  {
    match Decide(v.currentStage, v.stageData, extraction)
    case NotExtracted => (text, v)
    case Conflict(c) => (ConflictReply(c), v)
    case Commit(r) =>
      var w := CommitRecord(v, r, now);
      (text + TransitionSeparator + GetStageTransitionMessage(w.currentStage), w)
  }

  /** `process_message` as a function of the session before the turn and the two model answers. */
  function Turn(v: SessionValue, userMessage: string, generated: GeneratedReply,
                extraction: ExtractionResponse, now: Timestamp): (t: TurnOutcome)
    ensures t.after.sessionId == v.sessionId && t.after.createdAt == v.createdAt
    ensures t.after.projectType == v.projectType
    ensures |t.after.messages| > |v.messages| && t.after.messages[..|v.messages|] == v.messages
  {
    var logged := v.(messages := v.messages + [UserMessage(userMessage, now)]);
    if v.currentStage == Complete then
      TurnOutcome(Some(AlreadyCompleteReply),
                  logged.(messages := logged.messages + [AssistantMessage(AlreadyCompleteReply, now)]))
    else
      match generated
      case GenerationFailed => TurnOutcome(None, logged)
      case Generated(text) =>
        HandlersCoverActiveStages();
        var (reply, w) := Resolve(logged, text, extraction, now);
        TurnOutcome(Some(reply), w.(messages := w.messages + [AssistantMessage(reply, now)]))
  }

  /** Step 5b: store the record under the current stage, advance, and pick the next stage's opening message. */
  method CommitAndAdvance(session: Session, record: StageRecord, now: Timestamp) returns (transition: string)
    modifies session
    ensures session.Value() == CommitRecord(old(session.Value()), record, now)
    ensures transition == GetStageTransitionMessage(session.currentStage)
  {
    session.stageData := session.stageData[session.currentStage := record];
    session.AdvanceStage(now);
    if session.currentStage == Complete {
      session.isComplete := true;
      transition := GetStageTransitionMessage(Complete);
    } else {
      transition := GetStageTransitionMessage(session.currentStage);
    }
  }

  /** `process_message`, updating the session in place in the order the source does. */
  method ProcessMessage(session: Session, userMessage: string, generated: GeneratedReply,
                        extraction: ExtractionResponse, now: Timestamp) returns (reply: Option<string>)
    modifies session
    ensures TurnOutcome(reply, session.Value()) == Turn(old(session.Value()), userMessage, generated, extraction, now)
  {
    if session.currentStage == Complete {
      session.messages := session.messages + [UserMessage(userMessage, now)];
      session.messages := session.messages + [AssistantMessage(AlreadyCompleteReply, now)];
      return Some(AlreadyCompleteReply);
    }
    session.messages := session.messages + [UserMessage(userMessage, now)];
    if generated.GenerationFailed? {
      return None;
    }
    HandlersCoverActiveStages();
    var text := generated.text;
    var stage := session.currentStage;
    var extracted := AttemptExtraction(stage, extraction);
    if extracted.Some? {
      var contradiction := Check(stage, extracted.value, session.stageData);
      if contradiction.Some? {
        text := ConflictReply(contradiction.value);
      } else {
        var transition := CommitAndAdvance(session, extracted.value, now);
        text := text + TransitionSeparator + transition;
      }
    }
    session.messages := session.messages + [AssistantMessage(text, now)];
    reply := Some(text);
  }

  // ---------------------------------------------------------------------
  // The session invariant and what a turn guarantees
  // ---------------------------------------------------------------------

  /**
   * A session the planner can be in: records stored for exactly the stages
   * already passed, each of its stage's shape and through its gate; the
   * completion flag set exactly at Complete; and a stored task list that
   * the consistency check accepts against the stored constraints.
   */
  predicate Valid(v: SessionValue) {
    && v.stageData.Keys == StagesBefore(v.currentStage)
    && (v.isComplete <==> v.currentStage == Complete)
    && (forall s | s in v.stageData :: IsRecordFor(s, v.stageData[s]) && HasRequiredFields(v.stageData[s]))
    && (TasksAndSubtasks in v.stageData && v.stageData[TasksAndSubtasks].Tasks? ==>
          CheckTasksVsConstraints(v.stageData[TasksAndSubtasks].tasks, v.stageData).None?)
  }

  lemma FreshSessionValid(id: string, now: Timestamp)
    ensures Valid(FreshSession(id, now))
  {
    assert StagesBefore(DefineOutcome) == {};
  }

  lemma CommitRecordKeepsValid(v: SessionValue, record: StageRecord, now: Timestamp)
    requires Valid(v) && v.currentStage != Complete
    requires IsRecordFor(v.currentStage, record) && HasRequiredFields(record)
    requires Check(v.currentStage, record, v.stageData).None?
    ensures Valid(CommitRecord(v, record, now))
  {
    var w := CommitRecord(v, record, now);
    StagesBeforeNext(v.currentStage);
    assert w.stageData.Keys == v.stageData.Keys + {v.currentStage};
    if TasksAndSubtasks in w.stageData && w.stageData[TasksAndSubtasks].Tasks? {
      var t := w.stageData[TasksAndSubtasks].tasks;
      CheckIgnoresOtherStages(t, v.stageData, v.currentStage, record);
    }
  }

  /** Every turn keeps the session invariant. */
  lemma TurnKeepsValid(v: SessionValue, userMessage: string, generated: GeneratedReply,
                       extraction: ExtractionResponse, now: Timestamp)
    requires Valid(v)
    ensures Valid(Turn(v, userMessage, generated, extraction, now).after)
  {
    if v.currentStage != Complete && generated.Generated? {
      HandlersCoverActiveStages();
      var logged := v.(messages := v.messages + [UserMessage(userMessage, now)]);
      var d := Decide(v.currentStage, v.stageData, extraction);
      if d.Commit? {
        CommitRecordKeepsValid(logged, d.record, now);
      }
    }
  }

  /**
   * The reply and the message log: every turn logs the user's message; a
   * turn whose reply call failed logs nothing more and hands back no reply;
   * every other turn logs exactly the reply it hands back.
   */
  lemma TurnLogsMessages(v: SessionValue, userMessage: string, generated: GeneratedReply,
                         extraction: ExtractionResponse, now: Timestamp)
    ensures var t := Turn(v, userMessage, generated, extraction, now);
      && (t.reply.None? <==> v.currentStage != Complete && generated.GenerationFailed?)
      && (t.reply.None? ==> t.after.messages == v.messages + [UserMessage(userMessage, now)])
      && (t.reply.Some? ==> t.after.messages == v.messages + [UserMessage(userMessage, now)]
                                                           + [AssistantMessage(t.reply.value, now)])
  {
    if v.currentStage != Complete && generated.Generated? {
      HandlersCoverActiveStages();
    }
  }

  /**
   * The stage moves at most one step per turn, never backwards, and it moves
   * exactly when a record is committed.
   */
  lemma TurnAdvancesAtMostOneStage(v: SessionValue, userMessage: string, generated: GeneratedReply,
                                   extraction: ExtractionResponse, now: Timestamp)
    ensures var t := Turn(v, userMessage, generated, extraction, now);
      && (t.after.currentStage == v.currentStage || Index(t.after.currentStage) == Index(v.currentStage) + 1)
      && (t.after.currentStage != v.currentStage <==>
            v.currentStage != Complete && generated.Generated?
            && Decide(v.currentStage, v.stageData, extraction).Commit?)
  {
    if v.currentStage != Complete && generated.Generated? {
      HandlersCoverActiveStages();
    }
  }

  /** At Complete a turn only logs the exchange and answers with the fixed reply. */
  lemma CompleteIsAbsorbing(v: SessionValue, userMessage: string, generated: GeneratedReply,
                            extraction: ExtractionResponse, now: Timestamp)
    requires v.currentStage == Complete
    ensures var t := Turn(v, userMessage, generated, extraction, now);
      && t.reply == Some(AlreadyCompleteReply)
      && t.after == v.(messages := v.messages + [UserMessage(userMessage, now)]
                                              + [AssistantMessage(AlreadyCompleteReply, now)])
  {
  }

  /** Without an accepted record the turn hands back the generated reply and changes nothing but the log. */
  lemma NoRecordNoChange(v: SessionValue, userMessage: string, text: string,
                         extraction: ExtractionResponse, now: Timestamp)
    requires v.currentStage != Complete
    requires forall r :: extraction != ToolInput(r) || !IsRecordFor(v.currentStage, r) || !HasRequiredFields(r)
    ensures var t := Turn(v, userMessage, Generated(text), extraction, now);
      && t.reply == Some(text)
      && t.after == v.(messages := v.messages + [UserMessage(userMessage, now)] + [AssistantMessage(text, now)])
  {
    HandlersCoverActiveStages();
    assert AttemptExtraction(v.currentStage, extraction).None?;
  }

  /**
   * A record the consistency check objects to is not stored: the stage
   * stays, and the clarification replaces the generated reply.
   */
  lemma ConflictBlocksCommit(v: SessionValue, userMessage: string, text: string,
                             record: StageRecord, now: Timestamp)
    requires v.currentStage != Complete
    requires IsRecordFor(v.currentStage, record) && HasRequiredFields(record)
    requires Check(v.currentStage, record, v.stageData).Some?
    ensures var t := Turn(v, userMessage, Generated(text), ToolInput(record), now);
      var c := Check(v.currentStage, record, v.stageData).value;
      && t.reply == Some(ConflictReply(c))
      && Contains(t.reply.value, c.clarificationQuestion)
      && t.after.currentStage == v.currentStage && t.after.stageData == v.stageData
      && t.after.isComplete == v.isComplete && t.after.updatedAt == v.updatedAt
  {
    HandlersCoverActiveStages();
  }

  /**
   * An accepted, consistent record is stored under the stage it was
   * extracted at, the session moves to the next stage, and the reply is the
   * generated text followed by the next stage's opening message.
   */
  lemma CommitAdvances(v: SessionValue, userMessage: string, text: string,
                       record: StageRecord, now: Timestamp)
    requires v.currentStage != Complete
    requires IsRecordFor(v.currentStage, record) && HasRequiredFields(record)
    requires Check(v.currentStage, record, v.stageData).None?
    ensures var t := Turn(v, userMessage, Generated(text), ToolInput(record), now);
      && t.after.stageData == v.stageData[v.currentStage := record]
      && t.after.currentStage == Next(v.currentStage)
      && Index(t.after.currentStage) == Index(v.currentStage) + 1
      && t.after.updatedAt == now
      && (t.after.isComplete <==> v.isComplete || t.after.currentStage == Complete)
      && t.reply == Some(text + TransitionSeparator + StageTransitionMessages[Next(v.currentStage)])
  {
    HandlersCoverActiveStages();
    TransitionMessageForEveryAdvance();
  }

  // ---------------------------------------------------------------------
  // A conversation: turns applied to the stored session
  // ---------------------------------------------------------------------

  /** One request to the chat endpoint, with the answers of both model calls. */
  datatype TurnInput = TurnInput(userMessage: string, generated: GeneratedReply,
                                 extraction: ExtractionResponse, now: Timestamp)

  /** The stored session after a turn: a turn that aborted is not saved. */
  function Stored(v: SessionValue, i: TurnInput): SessionValue {
    var t := Turn(v, i.userMessage, i.generated, i.extraction, i.now);
    if t.reply.Some? then t.after else v
  }

  /** The stored session after a sequence of requests. */
  function Conversation(v: SessionValue, inputs: seq<TurnInput>): SessionValue
    decreases |inputs|
  {
    if inputs == [] then v else Conversation(Stored(v, inputs[0]), inputs[1..])
  }

  /**
   * Every conversation from a valid session stays valid, and after n
   * requests the stage has moved forward by at most n steps.
   */
  lemma {:induction false} ConversationKeepsValid(v: SessionValue, inputs: seq<TurnInput>)
    requires Valid(v)
    ensures Valid(Conversation(v, inputs))
    ensures Index(v.currentStage) <= Index(Conversation(v, inputs).currentStage) <= Index(v.currentStage) + |inputs|
    decreases |inputs|
  {
    if inputs != [] {
      var i := inputs[0];
      TurnKeepsValid(v, i.userMessage, i.generated, i.extraction, i.now);
      TurnAdvancesAtMostOneStage(v, i.userMessage, i.generated, i.extraction, i.now);
      ConversationKeepsValid(Stored(v, i), inputs[1..]);
    }
  }

  /** A completed session holds a gated record of the right shape for each of the five active stages. */
  lemma CompleteHoldsEveryRecord(v: SessionValue)
    requires Valid(v) && v.currentStage == Complete
    ensures v.isComplete
    ensures forall s: Stage :: s != Complete ==> s in v.stageData && IsRecordFor(s, v.stageData[s])
    ensures v.stageData[DefineOutcome].Outcome? && v.stageData[StrategicConstraints].Constraints?
    ensures v.stageData[PhasesAndMilestones].Phases? && v.stageData[TasksAndSubtasks].Tasks?
    ensures v.stageData[RiskAndGovernance].RiskGovernance?
  {
    StagesBeforeComplete();
  }
}
