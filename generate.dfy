/**
 * The dependency-tree extraction of generate.py.
 *
 * The task graph is a JSON object mapping a task id to the task's
 * description; the only part of a description the walk looks at is its
 * optional "dependencies" object, which maps a label to the id of the task
 * depended upon. The walk produces a nested dictionary: `{}` when it stops,
 * otherwise `{task: {dep: <walk of dep>, ...}}`.
 */
module Generate {

  /** A task description, reduced to whether it carries "dependencies". */
  datatype TaskEntry =
    | WithDependencies(dependencies: map<string, string>)  // label -> task id
    | WithoutDependencies

  /** A nested dictionary keyed by task id, as the walk builds it. */
  datatype Hierarchy = Hierarchy(entries: map<string, Hierarchy>)

  const Empty := Hierarchy(map[])

  /** The tasks `id` depends on, as far as `task_dict[id]["dependencies"]` says. */
  predicate HasDependencies(taskDict: map<string, TaskEntry>, id: string) {
    id in taskDict && taskDict[id].WithDependencies?
  }

  /** Every nesting of the walk below `h` stops within `n` more levels. */
  ghost predicate LevelsAtMost(h: Hierarchy, n: nat)
    decreases h
  {
    h.entries == map[] ||
    (n > 0 &&
     forall p, c :: p in h.entries && c in h.entries[p].entries ==>
       LevelsAtMost(h.entries[p].entries[c], n - 1))
  }

  /**
   * extract_hierarchy(task_id, task_dict, depth, current_level): `{}` once the
   * depth is reached or the task is unknown or has no "dependencies";
   * otherwise a one-key dictionary whose inner keys are exactly the
   * dependency ids (labels are dropped, repeated ids collapse), each mapped
   * to the walk of that id one level further down.
   */
  function ExtractHierarchy(taskId: string, taskDict: map<string, TaskEntry>, depth: int, currentLevel: int): (r: Hierarchy)
    decreases depth - currentLevel
    ensures r == Empty <==> !(currentLevel < depth && HasDependencies(taskDict, taskId))
    ensures r != Empty ==>
      && r.entries.Keys == {taskId}
      && r.entries[taskId].entries.Keys == taskDict[taskId].dependencies.Values
  {
    if currentLevel < depth && HasDependencies(taskDict, taskId) then
      var dependencies := taskDict[taskId].dependencies;
      var inner := Hierarchy(
        map dep | dep in dependencies.Values :: ExtractHierarchy(dep, taskDict, depth, currentLevel + 1));
      assert inner.entries.Keys == dependencies.Values;
      var r := Hierarchy(map[taskId := inner]);
      assert taskId in r.entries && r.entries.Keys == {taskId};
      r
    else
      Empty
  }

  /** Each inner entry is the walk of that dependency one level down. */
  lemma ExtractHierarchyChildren(taskId: string, taskDict: map<string, TaskEntry>, depth: int, currentLevel: int, dep: string)
    requires ExtractHierarchy(taskId, taskDict, depth, currentLevel) != Empty
    requires dep in taskDict[taskId].dependencies.Values
    ensures currentLevel < depth
    ensures ExtractHierarchy(taskId, taskDict, depth, currentLevel).entries[taskId].entries[dep]
         == ExtractHierarchy(dep, taskDict, depth, currentLevel + 1)
  {
  }

  /**
   * The stop test is on the "dependencies" key, not on its contents: a task
   * whose dependencies map is empty gives `{task: {}}`, not `{}`.
   */
  lemma ExtractHierarchyEmptyDependencies(taskId: string, taskDict: map<string, TaskEntry>, depth: int, currentLevel: int)
    requires currentLevel < depth && taskId in taskDict && taskDict[taskId] == WithDependencies(map[])
    ensures ExtractHierarchy(taskId, taskDict, depth, currentLevel) == Hierarchy(map[taskId := Empty])
  {
    var r := ExtractHierarchy(taskId, taskDict, depth, currentLevel);
    assert r.entries[taskId].entries.Keys == {};
  }

  /** The walk nests at most `depth - current_level` task levels deep. */
  lemma {:induction false} ExtractHierarchyLevels(taskId: string, taskDict: map<string, TaskEntry>, depth: int, currentLevel: int)
    ensures LevelsAtMost(ExtractHierarchy(taskId, taskDict, depth, currentLevel),
                         if currentLevel < depth then depth - currentLevel else 0)
    decreases depth - currentLevel
  {
    var r := ExtractHierarchy(taskId, taskDict, depth, currentLevel);
    if r != Empty {
      var deps := taskDict[taskId].dependencies.Values;
      forall p, c | p in r.entries && c in r.entries[p].entries
        ensures LevelsAtMost(r.entries[p].entries[c], depth - currentLevel - 1)
      {
        ExtractHierarchyLevels(c, taskDict, depth, currentLevel + 1);
      }
    }
  }

  /** generate.py runs the walk from test-apk-fenix-debug with depth_limit = 3. */
  const SPECIFIC_TASK := "test-apk-fenix-debug"
  const DEPTH_LIMIT := 3

  /** The tree generate.py writes out has at most three task levels. */
  lemma HierarchyTreeLevels(taskDict: map<string, TaskEntry>)
    ensures LevelsAtMost(ExtractHierarchy(SPECIFIC_TASK, taskDict, DEPTH_LIMIT, 0), 3)
  {
    ExtractHierarchyLevels(SPECIFIC_TASK, taskDict, DEPTH_LIMIT, 0);
  }
}
