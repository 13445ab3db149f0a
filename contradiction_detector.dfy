/**
 * The cross-stage consistency check run after a record passes its gate.
 * Only the tasks stage has rules: the number of distinct task owners must
 * not exceed the team size recorded at the constraints stage, and the
 * summed task durations must not exceed 400 days. The owner rule is tried
 * first and the first rule that fires is the one reported.
 */
module ContradictionDetector {
  import opened Wrappers
  import opened Text
  import opened StageData
  import opened Sessions

  datatype Contradiction = Contradiction(description: string, clarificationQuestion: string)

  /** Owner labels that name nobody in particular. */
  const SkipLabels: set<string> := {"tbd", "unassigned", "n/a", "various", ""}

  /** Summed task durations above this many days are flagged. */
  const DurationThreshold: int := 400

  const OwnerQuestion: string :=
    "Should I update the team size, or are some of these the same person referenced by different names?"

  const DurationQuestion: string :=
    "Are these tasks meant to run in parallel, or should we revisit some of the duration estimates?"

  /** `owner.strip().lower()`. */
  function NormalizeOwner(owner: string): string {
    Lower(Strip(owner))
  }

  /** The task names a real owner: set, non-empty, and not a placeholder once normalised. */
  predicate CountsAsOwner(t: TaskDefinition) {
    t.owner.Some? && t.owner.value != "" && NormalizeOwner(t.owner.value) !in SkipLabels
  }

  /** The set comprehension `unique_owners`. */
  function OwnerSet(tasks: seq<TaskDefinition>): set<string> {
    set t | t in tasks && CountsAsOwner(t) :: NormalizeOwner(t.owner.value)
  }

  lemma OwnerSetCons(tasks: seq<TaskDefinition>)
    requires tasks != []
    ensures OwnerSet(tasks) == (if CountsAsOwner(tasks[0]) then {NormalizeOwner(tasks[0].owner.value)} else {})
                               + OwnerSet(tasks[1..])
  {
    forall t | t in tasks ensures t == tasks[0] || t in tasks[1..] {
    }
  }

  /** The normalised owners, task by task, repeats included. */
  function OwnerNames(tasks: seq<TaskDefinition>): (r: seq<string>)
    ensures forall x :: x in r <==> x in OwnerSet(tasks)
  {
    if tasks == [] then []
    else
      OwnerSetCons(tasks);
      (if CountsAsOwner(tasks[0]) then [NormalizeOwner(tasks[0].owner.value)] else []) + OwnerNames(tasks[1..])
  }

  /** `sorted(unique_owners)`: the distinct owners in ascending order, as many as there are distinct owners. */
  function SortedOwners(tasks: seq<TaskDefinition>): (r: seq<string>)
    ensures StrictlySorted(r)
    ensures forall x :: x in r <==> x in OwnerSet(tasks)
    ensures |r| == |OwnerSet(tasks)|
  {
    var r := SortDistinct(OwnerNames(tasks));
    StrictlySortedCard(r);
    assert (set y | y in r) == OwnerSet(tasks);
    r
  }

  /** `sum(t.duration_days for t in tasks if t.duration_days is not None)`. */
  function TotalDays(tasks: seq<TaskDefinition>): int {
    if tasks == [] then 0
    else (if tasks[0].durationDays.Some? then tasks[0].durationDays.value else 0) + TotalDays(tasks[1..])
  }

  predicate OwnerRuleFires(c: ConstraintsData, tasks: seq<TaskDefinition>) {
    c.teamSize.Some? && |OwnerSet(tasks)| > c.teamSize.value
  }

  predicate DurationRuleFires(tasks: seq<TaskDefinition>) {
    TotalDays(tasks) > DurationThreshold
  }

  function OwnerDescription(teamSize: int, owners: seq<string>): string {
    "You mentioned a team of " + IntToString(teamSize) + " in Stage 2, but I'm now seeing "
      + IntToString(|owners|) + " distinct task owners: " + Join(owners, ", ") + "."
  }

  /** The clause naming the deadline, present only when a non-empty deadline was recorded. */
  function DeadlineClause(deadline: Option<string>): (r: string)
    ensures r != "" <==> deadline.Some? && deadline.value != ""
  {
    if deadline.Some? && deadline.value != "" then " against your deadline of '" + deadline.value + "'" else ""
  }

  function DurationDescription(totalDays: int, deadline: Option<string>): string {
    "The sum of all task durations is approximately " + IntToString(totalDays) + " days"
      + DeadlineClause(deadline) + ". That seems longer than a typical project timeline."
  }

  /**
   * The constraints record committed for stage 2, as the check reads it back:
   * absent when the key is missing or the stored record does not parse as
   * constraints.
   */
  function PriorConstraints(existing: map<Stage, StageRecord>): (r: Option<ConstraintsData>)
    ensures r.Some? <==> StrategicConstraints in existing && existing[StrategicConstraints].Constraints?
    ensures r.Some? ==> r.value == existing[StrategicConstraints].constraints
  {
    if StrategicConstraints !in existing then None
    else match existing[StrategicConstraints]
      case Constraints(c) => Some(c)
      case _ => None
  }

  /** `_check_tasks_vs_constraints`: the owner rule, then the duration rule, first match reported. */
  function CheckTasksVsConstraints(tasks: TasksData, existing: map<Stage, StageRecord>): (r: Option<Contradiction>)
    ensures PriorConstraints(existing).None? ==> r.None?
    ensures PriorConstraints(existing).Some? ==>
      var c := PriorConstraints(existing).value;
      && (r.Some? <==> OwnerRuleFires(c, tasks.tasks) || DurationRuleFires(tasks.tasks))
      && (OwnerRuleFires(c, tasks.tasks) ==>
            r == Some(Contradiction(OwnerDescription(c.teamSize.value, SortedOwners(tasks.tasks)), OwnerQuestion)))
      && (!OwnerRuleFires(c, tasks.tasks) && DurationRuleFires(tasks.tasks) ==>
            r == Some(Contradiction(DurationDescription(TotalDays(tasks.tasks), c.deadline), DurationQuestion)))
  {
    match PriorConstraints(existing)
    case None => None
    case Some(c) =>
      if c.teamSize.Some? && |SortedOwners(tasks.tasks)| > c.teamSize.value then
        Some(Contradiction(OwnerDescription(c.teamSize.value, SortedOwners(tasks.tasks)), OwnerQuestion))
      else
        var total := TotalDays(tasks.tasks);
        if total > DurationThreshold then
          Some(Contradiction(DurationDescription(total, c.deadline), DurationQuestion))
        else None
  }

  /** `check(stage, new_data, existing_stage_data)`: only the tasks stage has rules. */
  function Check(stage: Stage, newData: StageRecord, existing: map<Stage, StageRecord>): (r: Option<Contradiction>)
    requires stage == TasksAndSubtasks ==> newData.Tasks?
    ensures stage != TasksAndSubtasks ==> r.None?
    ensures stage == TasksAndSubtasks ==> r == CheckTasksVsConstraints(newData.tasks, existing)
  {
    if stage == TasksAndSubtasks then CheckTasksVsConstraints(newData.tasks, existing) else None
  }

  // ---------------------------------------------------------------------
  // Properties of the rules
  // ---------------------------------------------------------------------

  /** Owners that differ only in letter case or surrounding whitespace are one owner. */
  lemma NormalizeIgnoresCaseAndPadding(p: string, x: string, q: string, y: string)
    requires AllSpace(p) && AllSpace(q) && Lower(x) == Lower(y)
    ensures NormalizeOwner(p + x + q) == NormalizeOwner(y)
  {
    StripIgnoresPadding(p, x, q);
    StripLowerCommute(x);
    StripLowerCommute(y);
  }

  /** The owner description names the team size and the owner count. */
  lemma OwnerDescriptionMentions(teamSize: int, owners: seq<string>)
    ensures Contains(OwnerDescription(teamSize, owners), IntToString(teamSize))
    ensures Contains(OwnerDescription(teamSize, owners), IntToString(|owners|))
  {
    var a := "You mentioned a team of ";
    var b := " in Stage 2, but I'm now seeing ";
    var c := " distinct task owners: ";
    var t := IntToString(teamSize);
    var k := IntToString(|owners|);
    var j := Join(owners, ", ");
    ContainsMiddle(a, t, b);
    ContainsExtend(a + t + b, k, t);
    ContainsExtend(a + t + b + k, c, t);
    ContainsExtend(a + t + b + k + c, j, t);
    ContainsExtend(a + t + b + k + c + j, ".", t);
    ContainsMiddle(a + t + b, k, c);
    ContainsExtend(a + t + b + k + c, j, k);
    ContainsExtend(a + t + b + k + c + j, ".", k);
  }

  /** The duration description names the total. */
  lemma DurationDescriptionMentions(totalDays: int, deadline: Option<string>)
    ensures Contains(DurationDescription(totalDays, deadline), IntToString(totalDays))
  {
    var a := "The sum of all task durations is approximately ";
    var t := IntToString(totalDays);
    var d := DeadlineClause(deadline);
    ContainsMiddle(a, t, " days");
    ContainsExtend(a + t + " days", d, t);
    ContainsExtend(a + t + " days" + d, ". That seems longer than a typical project timeline.", t);
  }

  /** Team size N: exactly N distinct owners never fires the owner rule. */
  lemma OwnerRuleSilentAtTeamSize(tasks: TasksData, existing: map<Stage, StageRecord>, n: int)
    requires PriorConstraints(existing).Some? && PriorConstraints(existing).value.teamSize == Some(n)
    requires |OwnerSet(tasks.tasks)| == n
    ensures var r := CheckTasksVsConstraints(tasks, existing);
      r.None? || r.value.clarificationQuestion == DurationQuestion
  {
    assert !OwnerRuleFires(PriorConstraints(existing).value, tasks.tasks);
  }

  /** Team size N: N + 1 distinct owners fires the owner rule, and the description names both numbers. */
  lemma OwnerRuleFiresAboveTeamSize(tasks: TasksData, existing: map<Stage, StageRecord>, n: int)
    requires PriorConstraints(existing).Some? && PriorConstraints(existing).value.teamSize == Some(n)
    requires |OwnerSet(tasks.tasks)| == n + 1
    ensures var r := CheckTasksVsConstraints(tasks, existing);
      r.Some? && r.value.clarificationQuestion == OwnerQuestion
      && Contains(r.value.description, IntToString(n + 1)) && Contains(r.value.description, IntToString(n))
  {
    var owners := SortedOwners(tasks.tasks);
    assert OwnerRuleFires(PriorConstraints(existing).value, tasks.tasks);
    assert CheckTasksVsConstraints(tasks, existing) == Some(Contradiction(OwnerDescription(n, owners), OwnerQuestion));
    assert |owners| == n + 1;
    OwnerDescriptionMentions(n, owners);
  }

  /**
   * With the owner rule silent, a total of exactly 400 days is accepted and
   * 401 is flagged with the total in the description.
   */
  lemma DurationThresholdBoundary(tasks: TasksData, existing: map<Stage, StageRecord>)
    requires PriorConstraints(existing).Some? && !OwnerRuleFires(PriorConstraints(existing).value, tasks.tasks)
    ensures TotalDays(tasks.tasks) == 400 ==> CheckTasksVsConstraints(tasks, existing).None?
    ensures TotalDays(tasks.tasks) == 401 ==>
      var r := CheckTasksVsConstraints(tasks, existing);
      r.Some? && r.value.clarificationQuestion == DurationQuestion && Contains(r.value.description, "401")
  {
    if TotalDays(tasks.tasks) == 401 {
      var c := PriorConstraints(existing).value;
      assert CheckTasksVsConstraints(tasks, existing) == Some(Contradiction(DurationDescription(401, c.deadline), DurationQuestion));
      DurationDescriptionMentions(401, c.deadline);
      FourHundredOne();
    }
  }

  lemma FourHundredOne()
    ensures IntToString(401) == "401"
  {
    assert NatToString(4) == "4";
    assert NatToString(40) == "40";
  }

  lemma TbdNormalizes()
    ensures NormalizeOwner("TBD") == "tbd"
  {
    assert TrimStart("TBD") == "TBD";
    assert TrimEnd("TBD") == "TBD";
  }

  /** A task whose owner is a placeholder passes the tasks gate but adds nobody to the owner count. */
  lemma PlaceholderOwnerNotCounted(name: string, phase: string)
    ensures var t := TaskDefinition(name, phase, Some("TBD"), None, [], []);
      t.owner.value != "" && OwnerSet([t]) == {}
  {
    TbdNormalizes();
  }

  lemma {:induction false} TotalDaysAppend(tasks: seq<TaskDefinition>, t: TaskDefinition)
    ensures TotalDays(tasks + [t]) == TotalDays(tasks) + (if t.durationDays.Some? then t.durationDays.value else 0)
  {
    if tasks != [] {
      assert (tasks + [t])[1..] == tasks[1..] + [t];
      TotalDaysAppend(tasks[1..], t);
    } else {
      assert [] + [t] == [t];
    }
  }

  lemma OwnerSetAppend(tasks: seq<TaskDefinition>, t: TaskDefinition)
    ensures OwnerSet(tasks + [t]) == OwnerSet(tasks) + (if CountsAsOwner(t) then {NormalizeOwner(t.owner.value)} else {})
  {
    forall u | u in tasks + [t] ensures u in tasks || u == t {
    }
  }

  /** The check reads the earlier stages only through the constraints record. */
  lemma CheckIgnoresOtherStages(tasks: TasksData, existing: map<Stage, StageRecord>, k: Stage, x: StageRecord)
    requires k != StrategicConstraints
    ensures CheckTasksVsConstraints(tasks, existing[k := x]) == CheckTasksVsConstraints(tasks, existing)
  {
    assert PriorConstraints(existing[k := x]) == PriorConstraints(existing);
  }

  /** The tasks check reads the tasks only through the sorted owners and the total duration. */
  lemma CheckReadsOwnersAndDays(a: seq<TaskDefinition>, b: seq<TaskDefinition>, existing: map<Stage, StageRecord>)
    requires SortedOwners(a) == SortedOwners(b) && TotalDays(a) == TotalDays(b)
    ensures CheckTasksVsConstraints(TasksData(a), existing) == CheckTasksVsConstraints(TasksData(b), existing)
  {
  }

  lemma OwnerSetUnchanged(tasks: seq<TaskDefinition>, t: TaskDefinition)
    requires !CountsAsOwner(t) || NormalizeOwner(t.owner.value) in OwnerSet(tasks)
    ensures OwnerSet(tasks + [t]) == OwnerSet(tasks)
  {
    OwnerSetAppend(tasks, t);
  }

  /**
   * A task that brings no new owner (a placeholder, a missing owner, or one
   * already counted under another spelling) and no days leaves the verdict of
   * the tasks check exactly as it was.
   */
  lemma NoNewOwnerNoNewVerdict(tasks: seq<TaskDefinition>, t: TaskDefinition, existing: map<Stage, StageRecord>)
    requires !CountsAsOwner(t) || NormalizeOwner(t.owner.value) in OwnerSet(tasks)
    requires t.durationDays.None? || t.durationDays == Some(0)
    ensures CheckTasksVsConstraints(TasksData(tasks + [t]), existing) == CheckTasksVsConstraints(TasksData(tasks), existing)
  {
    var ts := tasks + [t];
    OwnerSetUnchanged(tasks, t);
    TotalDaysAppend(tasks, t);
    StrictlySortedUnique(SortedOwners(ts), SortedOwners(tasks));
    CheckReadsOwnersAndDays(ts, tasks, existing);
  }
}
