/** Before/after build tasks of an external system, as the activator test
    drives them: trigger entries are registered per phase, a build runs the
    tasks of the compile phases and a rebuild those of the rebuild phases,
    and the test's task manager records every run in a trace buffer. The
    activator's own source is not part of this model; its dispatch is the
    one the test asserts (the phases in order, the entries of each phase in
    registration order, a phase without entries not dispatched). */
module TaskActivation {

  /** The phases the test registers tasks for. */
  datatype Phase = BeforeCompile | AfterCompile | BeforeRebuild | AfterRebuild

  /** `TaskActivationEntry(systemId, phase, projectPath, taskName)`. */
  datatype TaskActivationEntry = TaskActivationEntry(systemId: string, phase: Phase, projectPath: string, taskName: string)

  /** The id of the test's external system. */
  const TestSystemId: string := "TEST_EXTERNAL_SYSTEM_ID"

  /** The phases a build and a rebuild run, in order. */
  const BuildPhases: seq<Phase> := [BeforeCompile, AfterCompile]
  const RebuildPhases: seq<Phase> := [BeforeRebuild, AfterRebuild]

  /** `StringUtil.join(names, ",")`. */
  function Join(names: seq<string>): string {
    if names == [] then ""
    else if |names| == 1 then names[0]
    else names[0] + "," + Join(names[1..])
  }

  /** Joining two non-empty lists is joining each and putting a comma
      between them. */
  lemma {:induction false} JoinAppend(a: seq<string>, b: seq<string>)
    requires a != [] && b != []
    ensures Join(a + b) == Join(a) + "," + Join(b)
    decreases |a|
  {
    assert (a + b)[0] == a[0];
    assert (a + b)[1..] == a[1..] + b;
    if |a| > 1 {
      JoinAppend(a[1..], b);
    }
  }

  /** The joined names start with the first name. */
  lemma JoinStartsWithFirst(names: seq<string>)
    requires names != []
    ensures |Join(names)| >= |names[0]| && Join(names)[..|names[0]|] == names[0]
  {
  }

  /** Four names joined are the names with a comma between each two. */
  lemma JoinFour(a: string, b: string, c: string, d: string)
    ensures Join([a, b, c, d]) == a + "," + b + "," + c + "," + d
  {
    var names := [a, b, c, d];
    assert names[1..][1..] == [c, d];
    assert Join([c, d]) == c + "," + d;
    assert Join(names[1..]) == b + "," + (c + "," + d);
  }

  /** The trace after `executeTasks(names)`: a comma only when the trace
      already holds something, then the joined names. */
  function Appended(trace: string, names: seq<string>): string {
    (if |trace| != 0 then trace + "," else trace) + Join(names)
  }

  /** Two runs in a row leave the same trace as one run of both lists, as
      long as the trace is not empty after the first run. */
  lemma AppendedTwice(trace: string, a: seq<string>, b: seq<string>)
    requires a != [] && b != [] && (trace != "" || Join(a) != "")
    ensures Appended(Appended(trace, a), b) == Appended(trace, a + b)
  {
    JoinAppend(a, b);
  }

  /** The names of the entries registered for `phase`, in registration
      order. */
  function TasksFor(tasks: seq<TaskActivationEntry>, phase: Phase): (r: seq<string>)
    ensures |r| <= |tasks|
    ensures r == [] <==> forall k :: 0 <= k < |tasks| ==> tasks[k].phase != phase
    ensures forall n :: n in r ==> exists k :: 0 <= k < |tasks| && tasks[k].phase == phase && tasks[k].taskName == n
    decreases |tasks|
  {
    if tasks == [] then []
    else
      var rest := TasksFor(tasks[1..], phase);
      assert forall k :: 1 <= k < |tasks| ==> tasks[k] == tasks[1..][k - 1];
      if tasks[0].phase == phase then [tasks[0].taskName] + rest else rest
  }

  lemma {:induction false} TasksForAppend(a: seq<TaskActivationEntry>, b: seq<TaskActivationEntry>, phase: Phase)
    ensures TasksFor(a + b, phase) == TasksFor(a, phase) + TasksFor(b, phase)
    decreases |a|
  {
    if a != [] {
      assert (a + b)[0] == a[0];
      assert (a + b)[1..] == a[1..] + b;
      TasksForAppend(a[1..], b, phase);
    } else {
      assert a + b == b;
    }
  }

  /** The names of every phase in `phases`, phase after phase. */
  function PhaseTasks(tasks: seq<TaskActivationEntry>, phases: seq<Phase>): seq<string>
    decreases |phases|
  {
    if phases == [] then [] else TasksFor(tasks, phases[0]) + PhaseTasks(tasks, phases[1..])
  }

  /** The trace after the phases are dispatched in order, each phase with
      entries handing its names to `executeTasks`. */
  function Dispatched(trace: string, tasks: seq<TaskActivationEntry>, phases: seq<Phase>): string
    decreases |phases|
  {
    if phases == [] then trace
    else
      var names := TasksFor(tasks, phases[0]);
      Dispatched(if names == [] then trace else Appended(trace, names), tasks, phases[1..])
  }

  /** With no empty task name, dispatching phase by phase leaves the trace
      one run of all their names would, or untouched when there are none. */
  lemma {:induction false} DispatchedJoins(trace: string, tasks: seq<TaskActivationEntry>, phases: seq<Phase>)
    requires forall k :: 0 <= k < |tasks| ==> tasks[k].taskName != ""
    ensures Dispatched(trace, tasks, phases) ==
              (if PhaseTasks(tasks, phases) == [] then trace else Appended(trace, PhaseTasks(tasks, phases)))
    decreases |phases|
  {
    if phases != [] {
      var names := TasksFor(tasks, phases[0]);
      var next := if names == [] then trace else Appended(trace, names);
      DispatchedJoins(next, tasks, phases[1..]);
      var later := PhaseTasks(tasks, phases[1..]);
      assert PhaseTasks(tasks, phases) == names + later;
      if names == [] {
        assert names + later == later;
      } else if later == [] {
        assert names + later == names;
      } else {
        assert names[0] in names;
        JoinStartsWithFirst(names);
        AppendedTwice(trace, names, later);
      }
    }
  }

  /** From an empty trace, dispatching the phases traces exactly the names
      of all of them joined by commas, in phase order and then in
      registration order. */
  lemma DispatchedFromEmpty(tasks: seq<TaskActivationEntry>, phases: seq<Phase>)
    requires forall k :: 0 <= k < |tasks| ==> tasks[k].taskName != ""
    ensures Dispatched("", tasks, phases) == Join(PhaseTasks(tasks, phases))
  {
    DispatchedJoins("", tasks, phases);
    assert "" + Join(PhaseTasks(tasks, phases)) == Join(PhaseTasks(tasks, phases));
  }

  /** Dispatching depends on the registry only through the names each
      dispatched phase selects. */
  lemma {:induction false} DispatchedSameNames(trace: string, tasks1: seq<TaskActivationEntry>,
                                               tasks2: seq<TaskActivationEntry>, phases: seq<Phase>)
    requires forall p :: p in phases ==> TasksFor(tasks1, p) == TasksFor(tasks2, p)
    ensures Dispatched(trace, tasks1, phases) == Dispatched(trace, tasks2, phases)
    decreases |phases|
  {
    if phases != [] {
      assert phases[0] in phases;
      var names := TasksFor(tasks1, phases[0]);
      assert forall p :: p in phases[1..] ==> p in phases;
      DispatchedSameNames(if names == [] then trace else Appended(trace, names), tasks1, tasks2, phases[1..]);
    }
  }

  /** Entries of another phase select nothing, wherever they are registered. */
  lemma TasksForIgnoresOther(before: seq<TaskActivationEntry>, other: seq<TaskActivationEntry>,
                             after: seq<TaskActivationEntry>, phase: Phase)
    requires forall k :: 0 <= k < |other| ==> other[k].phase != phase
    ensures TasksFor(before + other + after, phase) == TasksFor(before + after, phase)
  {
    TasksForAppend(before + other, after, phase);
    TasksForAppend(before, other, phase);
    TasksForAppend(before, after, phase);
    assert TasksFor(before, phase) + [] == TasksFor(before, phase);
  }

  /** Entries of phases that are not dispatched change nothing, wherever
      they were registered: a build never runs rebuild entries and a
      rebuild never runs build entries. */
  lemma DispatchIgnoresOtherPhases(trace: string, before: seq<TaskActivationEntry>,
                                   other: seq<TaskActivationEntry>, after: seq<TaskActivationEntry>,
                                   phases: seq<Phase>)
    requires forall k :: 0 <= k < |other| ==> other[k].phase !in phases
    ensures Dispatched(trace, before + other + after, phases) == Dispatched(trace, before + after, phases)
  {
    forall p | p in phases
      ensures TasksFor(before + other + after, p) == TasksFor(before + after, p)
    {
      TasksForIgnoresOther(before, other, after, p);
    }
    DispatchedSameNames(trace, before + other + after, before + after, phases);
  }

  /** The `StringBuilder` kept under `TASKS_TRACE` for the project. */
  class TaskTrace {
    var text: string

    constructor ()
      ensures text == ""
    {
      text := "";
    }

    /** `setLength(0)` */
    method Clear()
      modifies this
      ensures text == ""
    {
      text := "";
    }
  }

  /** `TestTaskManager`: it runs no task, it writes the names to the trace. */
  class TestTaskManager {
    const trace: TaskTrace

    constructor (trace: TaskTrace)
      ensures this.trace == trace
    {
      this.trace := trace;
    }

    /** `executeTasks(id, taskNames, ...)`. */
    method ExecuteTasks(taskNames: seq<string>)
      modifies trace
      ensures trace.text == Appended(old(trace.text), taskNames)
      ensures old(trace.text) != "" ==> trace.text == old(trace.text) + "," + Join(taskNames)
      ensures old(trace.text) == "" ==> trace.text == Join(taskNames)
    {
      if |trace.text| != 0 {
        trace.text := trace.text + ",";
      }
      trace.text := trace.text + Join(taskNames);
    }

    /** `cancelTask(id, listener)`: a test task can never be cancelled. */
    function CancelTask(id: nat): (cancelled: bool)
      ensures !cancelled
    {
      false
    }
  }

  /** `TestProjectResolver.cancelTask`: resolving can never be cancelled. */
  function ResolverCancelTask(id: nat): (cancelled: bool)
    ensures !cancelled
  {
    false
  }

  /** The activator's registry of trigger entries. */
  class TaskActivator {
    var tasks: seq<TaskActivationEntry>

    constructor ()
      ensures tasks == []
    {
      tasks := [];
    }

    /** `addTask(entry)` */
    method AddTask(entry: TaskActivationEntry)
      modifies this
      ensures tasks == old(tasks) + [entry]
    {
      tasks := tasks + [entry];
    }

    /** Runs the tasks of each phase in turn; a phase without entries is
        not dispatched. */
    method RunPhases(manager: TestTaskManager, phases: seq<Phase>)
      modifies manager.trace
      ensures manager.trace.text == Dispatched(old(manager.trace.text), tasks, phases)
    {
      for i := 0 to |phases|
        invariant Dispatched(manager.trace.text, tasks, phases[i..]) == Dispatched(old(manager.trace.text), tasks, phases)
      {
        assert phases[i..][1..] == phases[i + 1..];
        var names := TasksFor(tasks, phases[i]);
        if names != [] {
          manager.ExecuteTasks(names);
        }
      }
    }

    /** A build: the before-compile tasks, then the after-compile tasks. */
    method Build(manager: TestTaskManager)
      modifies manager.trace
      ensures manager.trace.text == Dispatched(old(manager.trace.text), tasks, BuildPhases)
    {
      RunPhases(manager, BuildPhases);
    }

    /** A rebuild: the before-rebuild tasks, then the after-rebuild tasks. */
    method Rebuild(manager: TestTaskManager)
      modifies manager.trace
      ensures manager.trace.text == Dispatched(old(manager.trace.text), tasks, RebuildPhases)
    {
      RunPhases(manager, RebuildPhases);
    }
  }

  /** `addTaskTrigger(taskName, phase, module)`: the project path is the
      module's external project path, passed in here. */
  method AddTaskTrigger(activator: TaskActivator, taskName: string, phase: Phase, projectPath: string)
    modifies activator
    ensures activator.tasks == old(activator.tasks) + [TaskActivationEntry(TestSystemId, phase, projectPath, taskName)]
  {
    activator.AddTask(TaskActivationEntry(TestSystemId, phase, projectPath, taskName));
  }

  /** The registry `testBeforeAfterBuildTasks` builds: two tasks for each
      of the four phases, all for the module's project path. */
  function TestRegistry(projectPath: string): seq<TaskActivationEntry> {
    TestBuildEntries(projectPath) + TestRebuildEntries(projectPath)
  }

  function TestBuildEntries(projectPath: string): seq<TaskActivationEntry> {
    [ TaskActivationEntry(TestSystemId, BeforeCompile, projectPath, "beforeBuildTask1"),
      TaskActivationEntry(TestSystemId, BeforeCompile, projectPath, "beforeBuildTask2"),
      TaskActivationEntry(TestSystemId, AfterCompile, projectPath, "afterBuildTask1"),
      TaskActivationEntry(TestSystemId, AfterCompile, projectPath, "afterBuildTask2") ]
  }

  function TestRebuildEntries(projectPath: string): seq<TaskActivationEntry> {
    [ TaskActivationEntry(TestSystemId, BeforeRebuild, projectPath, "beforeReBuildTask1"),
      TaskActivationEntry(TestSystemId, BeforeRebuild, projectPath, "beforeReBuildTask2"),
      TaskActivationEntry(TestSystemId, AfterRebuild, projectPath, "afterReBuildTask1"),
      TaskActivationEntry(TestSystemId, AfterRebuild, projectPath, "afterReBuildTask2") ]
  }

  /** The names the build phases select from the test's build entries. */
  lemma TestBuildNames(projectPath: string)
    ensures PhaseTasks(TestBuildEntries(projectPath), BuildPhases) == ["beforeBuildTask1", "beforeBuildTask2", "afterBuildTask1", "afterBuildTask2"]
  {
    var entries := TestBuildEntries(projectPath);
    assert TasksFor(entries, BeforeCompile) == ["beforeBuildTask1", "beforeBuildTask2"];
    assert TasksFor(entries[2..], AfterCompile) == ["afterBuildTask1", "afterBuildTask2"];
    assert TasksFor(entries, AfterCompile) == TasksFor(entries[2..], AfterCompile);
  }

  /** The names the rebuild phases select from the test's rebuild entries. */
  lemma TestRebuildNames(projectPath: string)
    ensures PhaseTasks(TestRebuildEntries(projectPath), RebuildPhases)
            == ["beforeReBuildTask1", "beforeReBuildTask2", "afterReBuildTask1", "afterReBuildTask2"]
  {
    var entries := TestRebuildEntries(projectPath);
    assert TasksFor(entries, BeforeRebuild) == ["beforeReBuildTask1", "beforeReBuildTask2"];
    assert TasksFor(entries[2..], AfterRebuild) == ["afterReBuildTask1", "afterReBuildTask2"];
    assert TasksFor(entries, AfterRebuild) == TasksFor(entries[2..], AfterRebuild);
  }

  /** From an empty trace, registering entries of other phases before or
      after the dispatched ones leaves the trace the dispatched ones give. */
  lemma DispatchedFromEmptyBeside(tasks: seq<TaskActivationEntry>, other: seq<TaskActivationEntry>, phases: seq<Phase>)
    requires forall k :: 0 <= k < |tasks| ==> tasks[k].taskName != ""
    requires forall k :: 0 <= k < |other| ==> other[k].phase !in phases
    ensures Dispatched("", tasks + other, phases) == Join(PhaseTasks(tasks, phases))
    ensures Dispatched("", other + tasks, phases) == Join(PhaseTasks(tasks, phases))
  {
    DispatchIgnoresOtherPhases("", tasks, other, [], phases);
    DispatchIgnoresOtherPhases("", [], other, tasks, phases);
    assert tasks + other + [] == tasks + other && tasks + [] == tasks;
    assert [] + other + tasks == other + tasks && [] + tasks == tasks;
    DispatchedFromEmpty(tasks, phases);
  }

  /** A build over the test's registry traces the compile tasks only, in
      phase and registration order. */
  lemma TestBuildTrace(projectPath: string)
    ensures Dispatched("", TestRegistry(projectPath), BuildPhases)
            == "beforeBuildTask1" + "," + "beforeBuildTask2" + "," + "afterBuildTask1" + "," + "afterBuildTask2"
  {
    DispatchedFromEmptyBeside(TestBuildEntries(projectPath), TestRebuildEntries(projectPath), BuildPhases);
    TestBuildNames(projectPath);
    JoinFour("beforeBuildTask1", "beforeBuildTask2", "afterBuildTask1", "afterBuildTask2");
  }

  /** A rebuild over the test's registry traces the rebuild tasks only, in
      phase and registration order. */
  lemma TestRebuildTrace(projectPath: string)
    ensures Dispatched("", TestRegistry(projectPath), RebuildPhases)
            == "beforeReBuildTask1" + "," + "beforeReBuildTask2" + "," + "afterReBuildTask1" + "," + "afterReBuildTask2"
  {
    DispatchedFromEmptyBeside(TestRebuildEntries(projectPath), TestBuildEntries(projectPath), RebuildPhases);
    TestRebuildNames(projectPath);
    JoinFour("beforeReBuildTask1", "beforeReBuildTask2", "afterReBuildTask1", "afterReBuildTask2");
  }

  /** `testBeforeAfterBuildTasks`: a build traces the compile tasks, and
      after clearing, a rebuild traces the rebuild tasks. */
  method BeforeAfterBuildTasks(projectPath: string) returns (buildTrace: string, rebuildTrace: string)
    ensures buildTrace == "beforeBuildTask1" + "," + "beforeBuildTask2" + "," + "afterBuildTask1" + "," + "afterBuildTask2"
    ensures rebuildTrace == "beforeReBuildTask1" + "," + "beforeReBuildTask2" + "," + "afterReBuildTask1" + "," + "afterReBuildTask2"
  {
    var activator := new TaskActivator();
    var trace := new TaskTrace();
    var manager := new TestTaskManager(trace);
    AddTaskTrigger(activator, "beforeBuildTask1", BeforeCompile, projectPath);
    AddTaskTrigger(activator, "beforeBuildTask2", BeforeCompile, projectPath);
    AddTaskTrigger(activator, "afterBuildTask1", AfterCompile, projectPath);
    AddTaskTrigger(activator, "afterBuildTask2", AfterCompile, projectPath);
    AddTaskTrigger(activator, "beforeReBuildTask1", BeforeRebuild, projectPath);
    AddTaskTrigger(activator, "beforeReBuildTask2", BeforeRebuild, projectPath);
    AddTaskTrigger(activator, "afterReBuildTask1", AfterRebuild, projectPath);
    AddTaskTrigger(activator, "afterReBuildTask2", AfterRebuild, projectPath);
    assert activator.tasks == TestRegistry(projectPath);
    TestBuildTrace(projectPath);
    TestRebuildTrace(projectPath);

    activator.Build(manager);
    buildTrace := trace.text;
    trace.Clear();
    activator.Rebuild(manager);
    rebuildTrace := trace.text;
  }
}
