/**
 * Plan assembly: the five committed records of a completed session become
 * one plan document. Tasks are grouped by the phase string they declare
 * and attached to the milestone of exactly that name. A general project
 * gets a flat milestone list; a program gets pillars, named by the part of
 * a milestone name before the first " - " and kept in first-seen order.
 */
module PlanCompiler {
  import opened Wrappers
  import opened Text
  import opened StageData
  import opened Plan
  import opened Sessions
  import StateMachine

  // ---------------------------------------------------------------------
  // _build_tasks
  // ---------------------------------------------------------------------

  /** A subtask's timeline: `f"{d}d"` when the duration is set and non-zero, otherwise none. */
  function Timeline(durationDays: Option<int>): (r: Option<string>)
    ensures r.Some? <==> durationDays.Some? && durationDays.value != 0
  {
    if durationDays.Some? && durationDays.value != 0 then Some(IntToString(durationDays.value) + "d") else None
  }

  /** Reads a `"<n>d"` timeline back as a number of days. */
  function ParseTimeline(t: string): Option<int> {
    if |t| > 0 && t[|t| - 1] == 'd' then ParseInt(t[..|t| - 1]) else None
  }

  /** The timeline text carries the duration exactly; only a zero duration is lost. */
  lemma TimelineRoundTrip(d: Option<int>)
    ensures Timeline(d).Some? ==> ParseTimeline(Timeline(d).value) == d
    ensures Timeline(d).None? <==> d.None? || d == Some(0)
  {
    if Timeline(d).Some? {
      var s := IntToString(d.value);
      assert (s + "d")[..|s|] == s;
      ParseIntToString(d.value);
    }
  }

  function ToSubTask(st: SubTaskDefinition): SubTask {
    SubTask(st.name, st.owner, Timeline(st.durationDays), st.deliverable, st.dependencies)
  }

  function ToTask(t: TaskDefinition): Task {
    Task(t.name, t.owner, None, t.durationDays, t.dependencies,
         seq(|t.subtasks|, i requires 0 <= i < |t.subtasks| => ToSubTask(t.subtasks[i])))
  }

  /** `_build_tasks`: one task per definition, in order. */
  function BuildTasks(defs: seq<TaskDefinition>): seq<Task> {
    seq(|defs|, i requires 0 <= i < |defs| => ToTask(defs[i]))
  }

  /** Reads a compiled subtask back as a definition. */
  function FromSubTask(s: SubTask): SubTaskDefinition {
    SubTaskDefinition(s.name, s.owner, if s.timeline.Some? then ParseTimeline(s.timeline.value) else None,
                      s.dependencies, s.deliverable)
  }

  /** Reads a compiled task back as a definition of the given phase. */
  function FromTask(t: Task, phase: string): TaskDefinition {
    TaskDefinition(t.name, phase, t.owner, t.durationDays, t.dependencies,
                   seq(|t.subtasks|, i requires 0 <= i < |t.subtasks| => FromSubTask(t.subtasks[i])))
  }

  /** A subtask definition with a zero duration read as a missing one. */
  function ZeroAsMissing(st: SubTaskDefinition): SubTaskDefinition {
    if st.durationDays == Some(0) then st.(durationDays := None) else st
  }

  lemma SubTaskRoundTrip(st: SubTaskDefinition)
    ensures FromSubTask(ToSubTask(st)) == ZeroAsMissing(st)
  {
    TimelineRoundTrip(st.durationDays);
  }

  /**
   * Compiling a task keeps everything its definition says except the phase
   * (which becomes the milestone it hangs under) and the difference between
   * a zero and a missing subtask duration.
   */
  lemma TaskRoundTrip(t: TaskDefinition)
    ensures FromTask(ToTask(t), t.phase)
         == t.(subtasks := seq(|t.subtasks|, i requires 0 <= i < |t.subtasks| => ZeroAsMissing(t.subtasks[i])))
  {
    forall i | 0 <= i < |t.subtasks| ensures FromSubTask(ToSubTask(t.subtasks[i])) == ZeroAsMissing(t.subtasks[i]) {
      SubTaskRoundTrip(t.subtasks[i]);
    }
  }

  // ---------------------------------------------------------------------
  // tasks_by_phase
  // ---------------------------------------------------------------------

  /** The tasks declaring exactly `phase`, in input order. */
  function TasksInPhase(tasks: seq<TaskDefinition>, phase: string): (r: seq<TaskDefinition>)
    ensures |r| <= |tasks|
    ensures forall t :: t in r ==> t in tasks && t.phase == phase
    ensures forall t :: t in tasks && t.phase == phase ==> t in r
  {
    if tasks == [] then []
    else
      var last := tasks[|tasks| - 1];
      TasksInPhase(tasks[..|tasks| - 1], phase) + (if last.phase == phase then [last] else [])
  }

  /** `tasks_by_phase.get(name, [])`. */
  function Get(byPhase: map<string, seq<TaskDefinition>>, name: string): seq<TaskDefinition> {
    if name in byPhase then byPhase[name] else []
  }

  lemma TasksInPhaseSnoc(tasks: seq<TaskDefinition>, i: nat, phase: string)
    requires i < |tasks|
    ensures TasksInPhase(tasks[..i + 1], phase)
      == TasksInPhase(tasks[..i], phase) + (if tasks[i].phase == phase then [tasks[i]] else [])
  {
    assert tasks[..i + 1][..i] == tasks[..i];
  }

  /** The `setdefault(...).append(...)` loop: every phase string maps to its tasks in input order. */
  method GroupByPhase(tasks: seq<TaskDefinition>) returns (byPhase: map<string, seq<TaskDefinition>>)
    ensures forall p :: p in byPhase <==> exists t :: t in tasks && t.phase == p
    ensures forall p :: Get(byPhase, p) == TasksInPhase(tasks, p)
  {
    byPhase := map[];
    var i := 0;
    while i < |tasks|
      invariant 0 <= i <= |tasks|
      invariant forall p :: p in byPhase <==> TasksInPhase(tasks[..i], p) != []
      invariant forall p :: Get(byPhase, p) == TasksInPhase(tasks[..i], p)
    {
      var t := tasks[i];
      var group := if t.phase in byPhase then byPhase[t.phase] else [];
      var next := byPhase[t.phase := group + [t]];
      forall p
        ensures (p in next <==> TasksInPhase(tasks[..i + 1], p) != [])
        ensures Get(next, p) == TasksInPhase(tasks[..i + 1], p)
      {
        TasksInPhaseSnoc(tasks, i, p);
      }
      byPhase := next;
      i := i + 1;
    }
    assert tasks[..|tasks|] == tasks;
    forall p ensures p in byPhase <==> exists t :: t in tasks && t.phase == p {
      var r := TasksInPhase(tasks, p);
      if r != [] {
        assert r[0] in r;
      }
    }
  }

  // ---------------------------------------------------------------------
  // Milestones
  // ---------------------------------------------------------------------

  /** The milestone built from a definition under `title`, with the tasks of the phase named like the definition. */
  function MilestoneFor(def: MilestoneDefinition, title: string, tasks: seq<TaskDefinition>): Milestone {
    Milestone(title, Some(def.deliverable), def.timeline, def.owner, BuildTasks(TasksInPhase(tasks, def.name)))
  }

  /**
   * A milestone holds the compiled form of exactly the tasks whose phase is
   * the definition's name, in input order: a task naming any other phase
   * is not attached.
   */
  lemma MilestoneTasksAreItsPhase(def: MilestoneDefinition, title: string, tasks: seq<TaskDefinition>)
    ensures |MilestoneFor(def, title, tasks).tasks| == |TasksInPhase(tasks, def.name)|
    ensures forall t :: t in tasks && t.phase == def.name ==> ToTask(t) in MilestoneFor(def, title, tasks).tasks
    ensures forall x :: x in MilestoneFor(def, title, tasks).tasks ==>
      exists t :: t in tasks && t.phase == def.name && x == ToTask(t)
  {
    var group := TasksInPhase(tasks, def.name);
    var built := BuildTasks(group);
    assert MilestoneFor(def, title, tasks).tasks == built;
    forall t | t in tasks && t.phase == def.name ensures ToTask(t) in built {
      var k :| 0 <= k < |group| && group[k] == t;
      assert built[k] == ToTask(t);
    }
    forall x | x in built ensures exists t :: t in tasks && t.phase == def.name && x == ToTask(t) {
      var k :| 0 <= k < |built| && built[k] == x;
      var t := group[k];
      assert t in group;
      assert t in tasks && t.phase == def.name && x == ToTask(t);
    }
  }

  /** The general topology: one milestone per definition, named like it. */
  function GeneralMilestones(defs: seq<MilestoneDefinition>, tasks: seq<TaskDefinition>): seq<Milestone> {
    seq(|defs|, i requires 0 <= i < |defs| => MilestoneFor(defs[i], defs[i].name, tasks))
  }

  /** `_build_general_structure`: the milestone list grown one definition at a time. */
  method BuildGeneralStructure(defs: seq<MilestoneDefinition>, byPhase: map<string, seq<TaskDefinition>>,
                               ghost tasks: seq<TaskDefinition>) returns (milestones: seq<Milestone>)
    requires forall p :: Get(byPhase, p) == TasksInPhase(tasks, p)
    ensures milestones == GeneralMilestones(defs, tasks)
  {
    milestones := [];
    var i := 0;
    while i < |defs|
      invariant 0 <= i <= |defs|
      invariant |milestones| == i
      invariant forall k :: 0 <= k < i ==> milestones[k] == MilestoneFor(defs[k], defs[k].name, tasks)
    {
      var def := defs[i];
      var milestone := Milestone(def.name, Some(def.deliverable), def.timeline, def.owner, BuildTasks(Get(byPhase, def.name)));
      assert milestone == MilestoneFor(def, def.name, tasks);
      milestones := milestones + [milestone];
      i := i + 1;
    }
  }

  // ---------------------------------------------------------------------
  // Program topology
  // ---------------------------------------------------------------------

  /** What separates a pillar name from a milestone title. */
  const Separator := " - "

  /** The pillar a milestone falls under when its name carries no separator. */
  function FallbackPillar(phases: seq<string>): string {
    if phases != [] then phases[0] else "Program"
  }

  /**
   * `name.split(" - ", 1)` when the separator occurs in the name: the part
   * before its first occurrence and the rest. Otherwise the fallback pillar
   * and the whole name.
   */
  function PillarAndTitle(name: string, phases: seq<string>): (r: (string, string))
    ensures Contains(name, Separator) ==>
      && r.0 + Separator + r.1 == name
      && (forall j: nat :: j < |r.0| ==> !IsAt(name, Separator, j))
    ensures !Contains(name, Separator) ==> r == (FallbackPillar(phases), name)
  {
    match FindFirst(name, Separator)
    case Some(i) =>
      assert name == name[..i] + Separator + name[i + |Separator|..];
      (name[..i], name[i + |Separator|..])
    case None => (FallbackPillar(phases), name)
  }

  /** A pillar name without a hyphen splits off exactly. */
  lemma SplitAtSeparator(pillar: string, title: string, phases: seq<string>)
    requires forall k :: 0 <= k < |pillar| ==> pillar[k] != '-'
    ensures PillarAndTitle(pillar + Separator + title, phases) == (pillar, title)
  {
    var name := pillar + Separator + title;
    assert IsAt(name, Separator, |pillar|) by {
      assert name[|pillar|..|pillar| + |Separator|] == Separator;
    }
    forall j: nat | j < |pillar| ensures !IsAt(name, Separator, j) {
      assert name[j + 1] == (if j + 1 < |pillar| then pillar[j + 1] else ' ');
    }
    var i := FindFirst(name, Separator).value;
    assert i == |pillar|;
    assert name[..i] == pillar;
    assert name[i + |Separator|..] == title;
  }

  /** "Technology - MVP" is the milestone "MVP" of the pillar "Technology". */
  lemma SplitExample()
    ensures PillarAndTitle("Technology - MVP", []) == ("Technology", "MVP")
  {
    assert "Technology" + Separator + "MVP" == "Technology - MVP";
    SplitAtSeparator("Technology", "MVP", []);
  }

  /** A name without the separator falls under the first phase, or under "Program" when there are no phases. */
  lemma FallbackExample()
    ensures PillarAndTitle("MVP", ["Discovery"]) == ("Discovery", "MVP")
    ensures PillarAndTitle("MVP", []) == ("Program", "MVP")
  {
    assert !Contains("MVP", Separator) by {
      forall i: nat | i <= 3 ensures !IsAt("MVP", Separator, i) {
        if i == 0 { assert "MVP"[1] != Separator[1]; }
      }
    }
  }

  function PillarOf(def: MilestoneDefinition, phases: seq<string>): string {
    PillarAndTitle(def.name, phases).0
  }

  /** In a program the milestone is titled by the part after the pillar; its tasks are still looked up by the full name. */
  function ProgramMilestone(def: MilestoneDefinition, phases: seq<string>, tasks: seq<TaskDefinition>): Milestone {
    MilestoneFor(def, PillarAndTitle(def.name, phases).1, tasks)
  }

  /** The pillar names in the order a dictionary first sees them. */
  function PillarOrder(defs: seq<MilestoneDefinition>, phases: seq<string>): (r: seq<string>)
    ensures forall i, j :: 0 <= i < j < |r| ==> r[i] != r[j]
    ensures forall p :: p in r <==> exists d :: d in defs && PillarOf(d, phases) == p
  {
    if defs == [] then []
    else
      var prev := PillarOrder(defs[..|defs| - 1], phases);
      var p := PillarOf(defs[|defs| - 1], phases);
      if p in prev then prev else prev + [p]
  }

  /** The milestones of one pillar, in definition order. */
  function PillarMilestones(defs: seq<MilestoneDefinition>, phases: seq<string>, tasks: seq<TaskDefinition>,
                            pillar: string): (r: seq<Milestone>)
    ensures forall m :: m in r <==> exists d :: d in defs && PillarOf(d, phases) == pillar && m == ProgramMilestone(d, phases, tasks)
  {
    if defs == [] then []
    else
      var last := defs[|defs| - 1];
      PillarMilestones(defs[..|defs| - 1], phases, tasks, pillar)
        + (if PillarOf(last, phases) == pillar then [ProgramMilestone(last, phases, tasks)] else [])
  }

  /** One pillar per name in `order`, each holding its milestones. */
  function PillarsFor(order: seq<string>, defs: seq<MilestoneDefinition>, phases: seq<string>,
                      tasks: seq<TaskDefinition>): seq<Pillar> {
    seq(|order|, k requires 0 <= k < |order| => Pillar(order[k], PillarMilestones(defs, phases, tasks, order[k])))
  }

  /** The program topology: `list(pillars.values())` after all definitions are placed. */
  function ProgramPillars(defs: seq<MilestoneDefinition>, phases: seq<string>, tasks: seq<TaskDefinition>): seq<Pillar> {
    PillarsFor(PillarOrder(defs, phases), defs, phases, tasks)
  }

  /**
   * Every definition's milestone sits in the pillar its name selects, pillar
   * names are distinct, and a pillar holds only milestones whose
   * definitions select it.
   */
  lemma ProgramPillarsPlaceEveryMilestone(defs: seq<MilestoneDefinition>, phases: seq<string>, tasks: seq<TaskDefinition>)
    ensures var ps := ProgramPillars(defs, phases, tasks);
      && (forall i, j :: 0 <= i < j < |ps| ==> ps[i].name != ps[j].name)
      && (forall d :: d in defs ==>
            exists k :: 0 <= k < |ps| && ps[k].name == PillarOf(d, phases) && ProgramMilestone(d, phases, tasks) in ps[k].milestones)
      && (forall k, m :: 0 <= k < |ps| && m in ps[k].milestones ==>
            exists d :: d in defs && PillarOf(d, phases) == ps[k].name && m == ProgramMilestone(d, phases, tasks))
  {
    var order := PillarOrder(defs, phases);
    var ps := ProgramPillars(defs, phases, tasks);
    assert |ps| == |order|;
    forall i, j | 0 <= i < j < |ps| ensures ps[i].name != ps[j].name {
      assert ps[i].name == order[i] && ps[j].name == order[j];
    }
    forall d | d in defs
      ensures exists k :: 0 <= k < |ps| && ps[k].name == PillarOf(d, phases) && ProgramMilestone(d, phases, tasks) in ps[k].milestones
    {
      assert PillarOf(d, phases) in order;
      var k :| 0 <= k < |order| && order[k] == PillarOf(d, phases);
      assert ps[k] == Pillar(order[k], PillarMilestones(defs, phases, tasks, order[k]));
    }
    forall k, m | 0 <= k < |ps| && m in ps[k].milestones
      ensures exists d :: d in defs && PillarOf(d, phases) == ps[k].name && m == ProgramMilestone(d, phases, tasks)
    {
      assert ps[k] == Pillar(order[k], PillarMilestones(defs, phases, tasks, order[k]));
    }
  }

  /** `p` is selected by some definition before any definition selects `q`. */
  ghost predicate SeenBefore(defs: seq<MilestoneDefinition>, phases: seq<string>, p: string, q: string) {
    exists a :: 0 <= a < |defs| && PillarOf(defs[a], phases) == p
      && forall b :: 0 <= b <= a ==> PillarOf(defs[b], phases) != q
  }

  /** Pillars come out in the order their names are first seen. */
  lemma {:induction false} PillarOrderFirstSeen(defs: seq<MilestoneDefinition>, phases: seq<string>)
    ensures forall i, j :: 0 <= i < j < |PillarOrder(defs, phases)| ==>
      SeenBefore(defs, phases, PillarOrder(defs, phases)[i], PillarOrder(defs, phases)[j])
  {
    if defs != [] {
      var init := defs[..|defs| - 1];
      var prev := PillarOrder(init, phases);
      var p := PillarOf(defs[|defs| - 1], phases);
      var r := PillarOrder(defs, phases);
      PillarOrderFirstSeen(init, phases);
      forall i, j | 0 <= i < j < |r| ensures SeenBefore(defs, phases, r[i], r[j]) {
        if j < |prev| {
          assert r[i] == prev[i] && r[j] == prev[j];
          assert SeenBefore(init, phases, prev[i], prev[j]);
          var a :| 0 <= a < |init| && PillarOf(init[a], phases) == prev[i]
            && forall b :: 0 <= b <= a ==> PillarOf(init[b], phases) != prev[j];
          assert defs[a] == init[a];
          forall b | 0 <= b <= a ensures PillarOf(defs[b], phases) != r[j] {
            assert defs[b] == init[b];
          }
        } else {
          assert r[j] == p && p !in prev;
          assert prev[i] in prev;
          var d :| d in init && PillarOf(d, phases) == prev[i];
          var a :| 0 <= a < |init| && init[a] == d;
          assert defs[a] == d;
          forall b | 0 <= b <= a ensures PillarOf(defs[b], phases) != r[j] {
            assert defs[b] == init[b];
            assert init[b] in init;
          }
        }
      }
    }
  }

  // ---------------------------------------------------------------------
  // Milestone count
  // ---------------------------------------------------------------------

  /** How many definitions select `pillar`. */
  function CountIn(defs: seq<MilestoneDefinition>, phases: seq<string>, pillar: string): (n: nat)
    ensures n > 0 ==> exists d :: d in defs && PillarOf(d, phases) == pillar
  {
    if defs == [] then 0
    else
      CountIn(defs[..|defs| - 1], phases, pillar) + (if PillarOf(defs[|defs| - 1], phases) == pillar then 1 else 0)
  }

  lemma {:induction false} PillarMilestonesCount(defs: seq<MilestoneDefinition>, phases: seq<string>,
                                                tasks: seq<TaskDefinition>, pillar: string)
    ensures |PillarMilestones(defs, phases, tasks, pillar)| == CountIn(defs, phases, pillar)
  {
    if defs != [] {
      PillarMilestonesCount(defs[..|defs| - 1], phases, tasks, pillar);
    }
  }

  /** The counts of the pillars named in `order`, added up. */
  function CountAll(order: seq<string>, defs: seq<MilestoneDefinition>, phases: seq<string>): nat {
    if order == [] then 0
    else CountAll(order[..|order| - 1], defs, phases) + CountIn(defs, phases, order[|order| - 1])
  }

  /** Adding one definition adds one to the total exactly when its pillar is among those counted. */
  lemma {:induction false} CountAllStep(order: seq<string>, defs: seq<MilestoneDefinition>, d: MilestoneDefinition,
                                        phases: seq<string>)
    requires forall i, j :: 0 <= i < j < |order| ==> order[i] != order[j]
    ensures CountAll(order, defs + [d], phases)
         == CountAll(order, defs, phases) + (if PillarOf(d, phases) in order then 1 else 0)
  {
    if order != [] {
      var init := order[..|order| - 1];
      CountAllStep(init, defs, d, phases);
      assert (defs + [d])[..|defs|] == defs;
      var q := order[|order| - 1];
      assert q !in init by {
        forall i | 0 <= i < |init| ensures init[i] != q { assert order[i] == init[i]; }
      }
      assert PillarOf(d, phases) in order <==> PillarOf(d, phases) in init || PillarOf(d, phases) == q;
    }
  }

  lemma {:induction false} CountAllOrder(defs: seq<MilestoneDefinition>, phases: seq<string>)
    ensures CountAll(PillarOrder(defs, phases), defs, phases) == |defs|
  {
    if defs != [] {
      var init := defs[..|defs| - 1];
      var d := defs[|defs| - 1];
      assert defs == init + [d];
      var prev := PillarOrder(init, phases);
      var q := PillarOf(d, phases);
      CountAllOrder(init, phases);
      CountAllStep(prev, init, d, phases);
      if q !in prev {
        assert CountIn(init, phases, q) == 0;
        var order := prev + [q];
        assert order[..|order| - 1] == prev;
      }
    }
  }

  /** The milestones held by a list of pillars. */
  function MilestoneTotal(ps: seq<Pillar>): nat {
    if ps == [] then 0 else MilestoneTotal(ps[..|ps| - 1]) + |ps[|ps| - 1].milestones|
  }

  lemma {:induction false} PillarsForTotal(order: seq<string>, defs: seq<MilestoneDefinition>, phases: seq<string>,
                                           tasks: seq<TaskDefinition>)
    ensures MilestoneTotal(PillarsFor(order, defs, phases, tasks)) == CountAll(order, defs, phases)
  {
    if order != [] {
      var init := order[..|order| - 1];
      var ps := PillarsFor(order, defs, phases, tasks);
      assert ps[..|ps| - 1] == PillarsFor(init, defs, phases, tasks);
      PillarsForTotal(init, defs, phases, tasks);
      PillarMilestonesCount(defs, phases, tasks, order[|order| - 1]);
    }
  }

  /** A program's pillars hold exactly as many milestones as there are definitions. */
  lemma ProgramKeepsEveryMilestone(defs: seq<MilestoneDefinition>, phases: seq<string>, tasks: seq<TaskDefinition>)
    ensures MilestoneTotal(ProgramPillars(defs, phases, tasks)) == |defs|
  {
    PillarsForTotal(PillarOrder(defs, phases), defs, phases, tasks);
    CountAllOrder(defs, phases);
  }

  /** Placing definition `i`: its pillar is appended if new, and its milestone joins that pillar. */
  lemma PlaceStep(defs: seq<MilestoneDefinition>, i: nat, phases: seq<string>, tasks: seq<TaskDefinition>)
    requires i < |defs|
    ensures var q := PillarOf(defs[i], phases);
      var prev := PillarOrder(defs[..i], phases);
      && PillarOrder(defs[..i + 1], phases) == (if q in prev then prev else prev + [q])
      && (q !in prev ==> PillarMilestones(defs[..i], phases, tasks, q) == [])
      && PillarMilestones(defs[..i + 1], phases, tasks, q)
         == PillarMilestones(defs[..i], phases, tasks, q) + [ProgramMilestone(defs[i], phases, tasks)]
    ensures forall p :: p != PillarOf(defs[i], phases) ==>
      PillarMilestones(defs[..i + 1], phases, tasks, p) == PillarMilestones(defs[..i], phases, tasks, p)
  {
    assert defs[..i + 1][..i] == defs[..i];
    PillarMilestonesCount(defs[..i], phases, tasks, PillarOf(defs[i], phases));
  }

  /** Reading a complete pillar table out in insertion order gives the program topology. */
  lemma ReadOutInOrder(table: map<string, Pillar>, order: seq<string>, defs: seq<MilestoneDefinition>,
                       phases: seq<string>, tasks: seq<TaskDefinition>)
    requires order == PillarOrder(defs, phases)
    requires forall p :: p in table <==> p in order
    requires forall p :: p in table ==> table[p] == Pillar(p, PillarMilestones(defs, phases, tasks, p))
    ensures forall k :: 0 <= k < |order| ==> order[k] in table
    ensures seq(|order|, k requires 0 <= k < |order| => table[order[k]]) == ProgramPillars(defs, phases, tasks)
  {
  }

  /** Placing definition `i` adds its pillar to the insertion order exactly when the table lacks it. */
  lemma PlacedOrderStep(table: map<string, Pillar>, order: seq<string>, defs: seq<MilestoneDefinition>, i: nat,
                        phases: seq<string>)
    requires i < |defs|
    requires order == PillarOrder(defs[..i], phases)
    requires forall p :: p in table <==> p in order
    ensures var q := PillarOf(defs[i], phases);
      var order' := if q in table then order else order + [q];
      && order' == PillarOrder(defs[..i + 1], phases)
      && (forall p :: p in table || p == q <==> p in order')
  {
    assert defs[..i + 1][..i] == defs[..i];
  }

  /** Placing definition `i` appends its milestone to its pillar and leaves the other pillars alone. */
  lemma PlacedValuesStep(table: map<string, Pillar>, order: seq<string>, defs: seq<MilestoneDefinition>, i: nat,
                         phases: seq<string>, tasks: seq<TaskDefinition>)
    requires i < |defs|
    requires order == PillarOrder(defs[..i], phases)
    requires forall p :: p in table <==> p in order
    requires forall p :: p in table ==> table[p] == Pillar(p, PillarMilestones(defs[..i], phases, tasks, p))
    ensures var q := PillarOf(defs[i], phases);
      var pillar := if q in table then table[q] else Pillar(q, []);
      var table' := table[q := pillar.(milestones := pillar.milestones + [ProgramMilestone(defs[i], phases, tasks)])];
      forall p | p in table' :: table'[p] == Pillar(p, PillarMilestones(defs[..i + 1], phases, tasks, p))
  {
    var q := PillarOf(defs[i], phases);
    var m := ProgramMilestone(defs[i], phases, tasks);
    var pillar := if q in table then table[q] else Pillar(q, []);
    var table' := table[q := pillar.(milestones := pillar.milestones + [m])];
    PlaceStep(defs, i, phases, tasks);
    assert pillar == Pillar(q, PillarMilestones(defs[..i], phases, tasks, q));
    assert table'[q] == Pillar(q, PillarMilestones(defs[..i + 1], phases, tasks, q));
    forall p | p in table' ensures table'[p] == Pillar(p, PillarMilestones(defs[..i + 1], phases, tasks, p)) {
      if p != q {
        assert table'[p] == table[p];
      }
    }
  }

  /** Placing definition `i` into a table that holds the definitions before it. */
  lemma PlacedStep(table: map<string, Pillar>, order: seq<string>, defs: seq<MilestoneDefinition>, i: nat,
                   phases: seq<string>, tasks: seq<TaskDefinition>)
    requires i < |defs|
    requires order == PillarOrder(defs[..i], phases)
    requires forall p :: p in table <==> p in order
    requires forall p :: p in table ==> table[p] == Pillar(p, PillarMilestones(defs[..i], phases, tasks, p))
    ensures var q := PillarOf(defs[i], phases);
      var pillar := if q in table then table[q] else Pillar(q, []);
      var table' := table[q := pillar.(milestones := pillar.milestones + [ProgramMilestone(defs[i], phases, tasks)])];
      var order' := if q in table then order else order + [q];
      && order' == PillarOrder(defs[..i + 1], phases)
      && (forall p :: p in table' <==> p in order')
      && (forall p :: p in table' ==> table'[p] == Pillar(p, PillarMilestones(defs[..i + 1], phases, tasks, p)))
  {
    var q := PillarOf(defs[i], phases);
    var pillar := if q in table then table[q] else Pillar(q, []);
    var table' := table[q := pillar.(milestones := pillar.milestones + [ProgramMilestone(defs[i], phases, tasks)])];
    var order' := if q in table then order else order + [q];
    PlacedOrderStep(table, order, defs, i, phases);
    PlacedValuesStep(table, order, defs, i, phases, tasks);
    assert forall p :: p in table' <==> p in table || p == q;
  }

  /**
   * One iteration of the loop in `_build_program_structure`: split the
   * name, build the milestone, add the pillar if it is new, append the
   * milestone to it.
   */
  method PlaceMilestone(table: map<string, Pillar>, order: seq<string>, defs: seq<MilestoneDefinition>, i: nat,
                        phases: seq<string>, byPhase: map<string, seq<TaskDefinition>>, ghost tasks: seq<TaskDefinition>)
    returns (table': map<string, Pillar>, order': seq<string>)
    requires i < |defs|
    requires forall p :: Get(byPhase, p) == TasksInPhase(tasks, p)
    requires order == PillarOrder(defs[..i], phases)
    requires forall p :: p in table <==> p in order
    requires forall p :: p in table ==> table[p] == Pillar(p, PillarMilestones(defs[..i], phases, tasks, p))
    ensures order' == PillarOrder(defs[..i + 1], phases)
    ensures forall p :: p in table' <==> p in order'
    ensures forall p :: p in table' ==> table'[p] == Pillar(p, PillarMilestones(defs[..i + 1], phases, tasks, p))
  {
    var def := defs[i];
    var split := PillarAndTitle(def.name, phases);
    var pillarName, title := split.0, split.1;
    var milestone := Milestone(title, Some(def.deliverable), def.timeline, def.owner, BuildTasks(Get(byPhase, def.name)));
    assert milestone == ProgramMilestone(def, phases, tasks);
    var pillar := if pillarName in table then table[pillarName] else Pillar(pillarName, []);
    order' := if pillarName in table then order else order + [pillarName];
    table' := table[pillarName := pillar.(milestones := pillar.milestones + [milestone])];
    PlacedStep(table, order, defs, i, phases, tasks);
  }

  /** `_build_program_structure`: a dictionary of pillars filled in definition order, read out in insertion order. */
  method BuildProgramStructure(defs: seq<MilestoneDefinition>, phases: seq<string>,
                               byPhase: map<string, seq<TaskDefinition>>, ghost tasks: seq<TaskDefinition>)
    returns (pillars: seq<Pillar>)
    requires forall p :: Get(byPhase, p) == TasksInPhase(tasks, p)
    ensures pillars == ProgramPillars(defs, phases, tasks)
  {
    var table: map<string, Pillar> := map[];
    var order: seq<string> := [];
    var i := 0;
    while i < |defs|
      invariant 0 <= i <= |defs|
      invariant order == PillarOrder(defs[..i], phases)
      invariant forall p :: p in table <==> p in order
      invariant forall p :: p in table ==> table[p] == Pillar(p, PillarMilestones(defs[..i], phases, tasks, p))
    {
      table, order := PlaceMilestone(table, order, defs, i, phases, byPhase, tasks);
      i := i + 1;
    }
    assert defs[..i] == defs;
    ReadOutInOrder(table, order, defs, phases, tasks);
    pillars := seq(|order|, k requires 0 <= k < |order| => table[order[k]]);
  }

  // ---------------------------------------------------------------------
  // Governance
  // ---------------------------------------------------------------------

  function ToKPI(k: KPIDefinition): KPI {
    KPI(k.metric, k.target, None)
  }

  function ToRisk(r: RiskDefinition): Risk {
    Risk(r.description, r.severity, r.mitigation)
  }

  /** The governance block: lists copied, KPIs and risks converted one for one. */
  function ToGovernance(rg: RiskGovernanceData): GovernanceInfo {
    GovernanceInfo(rg.stakeholders,
                   seq(|rg.kpis|, i requires 0 <= i < |rg.kpis| => ToKPI(rg.kpis[i])),
                   seq(|rg.risks|, i requires 0 <= i < |rg.risks| => ToRisk(rg.risks[i])),
                   rg.externalVendors, rg.reviewCadence)
  }

  /** Reads a governance block back as the stage-5 record. */
  function FromGovernance(g: GovernanceInfo): RiskGovernanceData {
    RiskGovernanceData(
      seq(|g.risks|, i requires 0 <= i < |g.risks| => RiskDefinition(g.risks[i].description, g.risks[i].severity, g.risks[i].mitigation)),
      g.stakeholders,
      seq(|g.kpis|, i requires 0 <= i < |g.kpis| => KPIDefinition(g.kpis[i].metric, g.kpis[i].target)),
      g.externalVendors, g.reviewCadence)
  }

  /** The governance block loses nothing of the stage-5 record, and no KPI gets a measurement method. */
  lemma GovernanceRoundTrip(rg: RiskGovernanceData)
    ensures FromGovernance(ToGovernance(rg)) == rg
    ensures forall k :: k in ToGovernance(rg).kpis ==> k.measurementMethod.None?
  {
    var g := ToGovernance(rg);
    assert FromGovernance(g).risks == rg.risks;
    assert FromGovernance(g).kpis == rg.kpis;
  }

  // ---------------------------------------------------------------------
  // compile
  // ---------------------------------------------------------------------

  /** All five records are present, each in its own stage's shape. */
  predicate CompileReady(sd: map<Stage, StageRecord>) {
    && DefineOutcome in sd && sd[DefineOutcome].Outcome?
    && StrategicConstraints in sd && sd[StrategicConstraints].Constraints?
    && PhasesAndMilestones in sd && sd[PhasesAndMilestones].Phases?
    && TasksAndSubtasks in sd && sd[TasksAndSubtasks].Tasks?
    && RiskAndGovernance in sd && sd[RiskAndGovernance].RiskGovernance?
  }

  /** A program is exactly a project whose type is the string "program". */
  predicate IsProgram(o: OutcomeData) {
    o.projectType == "program"
  }

  /** The plan `compile` assembles from the five records, stamped with `generatedAt`. */
  function CompiledPlan(sd: map<Stage, StageRecord>, generatedAt: string): ProjectPlan
    requires CompileReady(sd)
  {
    var o := sd[DefineOutcome].outcome;
    var c := sd[StrategicConstraints].constraints;
    var ph := sd[PhasesAndMilestones].phases;
    var tasks := sd[TasksAndSubtasks].tasks.tasks;
    ProjectPlan(o.projectName, o.projectType, o.successDefinition,
                c.deadline, c.budget, c.teamSize, c.methodology,
                if IsProgram(o) then [] else GeneralMilestones(ph.milestones, tasks),
                if IsProgram(o) then ProgramPillars(ph.milestones, ph.phases, tasks) else [],
                Some(ToGovernance(sd[RiskAndGovernance].riskGovernance)),
                Some(generatedAt))
  }

  /** `PlanCompiler.compile`: the clock reading is a parameter. */
  method Compile(session: Session, generatedAt: string) returns (plan: ProjectPlan)
    requires CompileReady(session.stageData)
    ensures plan == CompiledPlan(session.stageData, generatedAt)
  {
    var sd := session.stageData;
    var outcome := sd[DefineOutcome].outcome;
    var constraints := sd[StrategicConstraints].constraints;
    var phasesData := sd[PhasesAndMilestones].phases;
    var tasksData := sd[TasksAndSubtasks].tasks;
    var riskData := sd[RiskAndGovernance].riskGovernance;
    plan := ProjectPlan(outcome.projectName, outcome.projectType, outcome.successDefinition,
                        constraints.deadline, constraints.budget, constraints.teamSize, constraints.methodology,
                        [], [], None, Some(generatedAt));
    var byPhase := GroupByPhase(tasksData.tasks);
    if outcome.projectType == "program" {
      var pillars := BuildProgramStructure(phasesData.milestones, phasesData.phases, byPhase, tasksData.tasks);
      plan := plan.(pillars := pillars);
    } else {
      var milestones := BuildGeneralStructure(phasesData.milestones, byPhase, tasksData.tasks);
      plan := plan.(milestones := milestones);
    }
    plan := plan.(governance := Some(ToGovernance(riskData)));
  }

  /**
   * The plan's header repeats stage 1 and stage 2, exactly one of the two
   * topologies is filled (both may be empty), every milestone definition
   * yields exactly one milestone, and governance is always present.
   */
  lemma CompiledPlanShape(sd: map<Stage, StageRecord>, generatedAt: string)
    requires CompileReady(sd)
    ensures var p := CompiledPlan(sd, generatedAt);
      var o := sd[DefineOutcome].outcome;
      var c := sd[StrategicConstraints].constraints;
      var ph := sd[PhasesAndMilestones].phases;
      var defs := ph.milestones;
      var tasks := sd[TasksAndSubtasks].tasks.tasks;
      && p.projectName == o.projectName && p.projectType == o.projectType && p.successDefinition == o.successDefinition
      && p.deadline == c.deadline && p.budget == c.budget && p.teamSize == c.teamSize && p.methodology == c.methodology
      && p.generatedAt == Some(generatedAt)
      && (IsProgram(o) ==> p.milestones == [] && p.pillars == ProgramPillars(defs, ph.phases, tasks)
                           && MilestoneTotal(p.pillars) == |defs|)
      && (!IsProgram(o) ==> p.pillars == [] && p.milestones == GeneralMilestones(defs, tasks) && |p.milestones| == |defs|
                            && (forall i :: 0 <= i < |defs| ==> p.milestones[i].name == defs[i].name))
      && p.governance.Some? && FromGovernance(p.governance.value) == sd[RiskAndGovernance].riskGovernance
  {
    var ph := sd[PhasesAndMilestones].phases;
    ProgramKeepsEveryMilestone(ph.milestones, ph.phases, sd[TasksAndSubtasks].tasks.tasks);
    GovernanceRoundTrip(sd[RiskAndGovernance].riskGovernance);
  }

  /**
   * In the general topology a task is attached to milestone `i` exactly
   * when its phase is that milestone's name.
   */
  lemma GeneralMilestonesAttachByPhase(defs: seq<MilestoneDefinition>, tasks: seq<TaskDefinition>)
    ensures |GeneralMilestones(defs, tasks)| == |defs|
    ensures forall i, t :: 0 <= i < |defs| && t in tasks && t.phase == defs[i].name ==>
      ToTask(t) in GeneralMilestones(defs, tasks)[i].tasks
    ensures forall i, x :: 0 <= i < |defs| && x in GeneralMilestones(defs, tasks)[i].tasks ==>
      exists t :: t in tasks && t.phase == defs[i].name && x == ToTask(t)
  {
    var ms := GeneralMilestones(defs, tasks);
    forall i, t | 0 <= i < |defs| && t in tasks && t.phase == defs[i].name ensures ToTask(t) in ms[i].tasks {
      assert ms[i] == MilestoneFor(defs[i], defs[i].name, tasks);
      MilestoneTasksAreItsPhase(defs[i], defs[i].name, tasks);
    }
    forall i, x | 0 <= i < |defs| && x in ms[i].tasks
      ensures exists t :: t in tasks && t.phase == defs[i].name && x == ToTask(t)
    {
      assert ms[i] == MilestoneFor(defs[i], defs[i].name, tasks);
      MilestoneTasksAreItsPhase(defs[i], defs[i].name, tasks);
    }
  }

  /** A session the state machine has driven to Complete holds everything `compile` reads. */
  lemma CompleteSessionIsCompilable(v: SessionValue)
    requires StateMachine.Valid(v) && v.currentStage == Complete
    ensures CompileReady(v.stageData)
  {
    StateMachine.CompleteHoldsEveryRecord(v);
  }
}
