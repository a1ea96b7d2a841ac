/**
 * A worked run of the collector: one project "fenix" with one task
 * "build-arm64", a push listing that names push 5 before push 3, and one job
 * per push that ran from second 100 to second 700.
 */
module Scenario {
  import opened Durations

  const Repo := "fenix"
  const Task := TaskConfig("build-arm64", "Bf", "Ba", 1, "success")
  const Fenix := Project("fenix", Repo, [Task])

  /** A service that answers at once: pushes 5 and 3, and for push p the job 10 * p. */
  const Service := Server(
    (repo: string, f: Filter) => (n: nat) => Ok([Push(5), Push(3)]),
    (repo: string, id: int, f: Filter) => (n: nat) => Ok([Job(id * 10, 100, 700)]))

  function Expected(pushId: int): Record {
    Record("Bf", "Ba", 1, "success", pushId, pushId * 10, 10.0, Repo)
  }

  /** Each push's fetch_jobs gives one ten-minute record with the task's fields. */
  lemma JobsOfPush(pushId: int)
    ensures FetchedJobs(Service, Repo, pushId, Task.JobFilter()) == Returned([Expected(pushId)])
  {
    var filter := Task.JobFilter();
    var job := Job(pushId * 10, 100, 700);
    assert Service.jobs(Repo, pushId, filter)(0) == Ok([job]);
    assert Retry(Service.jobs(Repo, pushId, filter), 0).outcome == Fetched([job]);
    assert JobRecords(Repo, pushId, filter, [job]) == [JobRecord(Repo, pushId, filter, job)];
  }

  /** The job fetches go to push 3, then push 5. */
  lemma PushesSorted()
    ensures IssuedPushIds(Service, Repo, Task.JobFilter()) == [3, 5]
  {
    var pushes := [Push(5), Push(3)];
    assert Retry(Service.pushes(Repo, Task.JobFilter()), 0).outcome == Fetched(pushes);
    PairSorted(5, 3);
  }

  /** Two pushes listed in descending order are fetched in ascending order. */
  lemma PairSorted(x: int, y: int)
    requires y < x
    ensures SortedPushIds([Push(x), Push(y)]) == [y, x]
  {
    var ids := PushIds([Push(x), Push(y)]);
    assert ids == [x, y];
    assert multiset(ids) == multiset([y, x]);
    SortedPushIdsUnique([Push(x), Push(y)], [y, x]);
  }

  /** fetch_data returns push 3's record, then push 5's. */
  lemma DataInPushOrder()
    ensures FetchedData(Service, Repo, Task.JobFilter()) == Returned([Expected(3), Expected(5)])
  {
    var filter := Task.JobFilter();
    PushesSorted();
    JobsOfPush(3);
    JobsOfPush(5);
    var results := PushResults(Service, Repo, filter, [3, 5]);
    assert results[0] == Returned([Expected(3)]);
    assert results[1] == Returned([Expected(5)]);
    FanInPair(results);
    assert [Expected(3)] + [Expected(5)] == [Expected(3), Expected(5)];
    assert Retry(Service.pushes(Repo, filter), 0).outcome == Fetched([Push(5), Push(3)]);
  }

  lemma FanInPair(rs: seq<Completion<seq<Record>>>)
    requires |rs| == 2 && rs[0].Returned? && rs[1].Returned?
    ensures FanIn(rs) == rs[0].value + rs[1].value
  {
    var tail := rs[1..];
    assert tail[0] == rs[1] && tail[1..] == [];
    assert FanIn(tail) == rs[1].value + [];
  }

  /** A single build task's records fill the build bucket and nothing else. */
  lemma BucketsOfTask(data: seq<Record>)
    ensures Bucket([Task], [data], Build) == data
    ensures Bucket([Task], [data], UiTest) == [] && Bucket([Task], [data], TestApk) == []
  {
    ClassifyBuild();
    assert Classify(Task.name) == Build;
    SingleTaskBucket(Task, data, Build);
    SingleTaskBucket(Task, data, UiTest);
    SingleTaskBucket(Task, data, TestApk);
  }

  /** With one task, a bucket holds that task's records exactly when the task routes to it. */
  lemma SingleTaskBucket(task: TaskConfig, data: seq<Record>, c: Category)
    ensures Bucket([task], [data], c) == if Classify(task.name) == c then data else []
  {
    assert Categories([task]) == [Classify(task.name)];
    assert Gather([Classify(task.name)], [data], c)
        == Gather([], [], c) + (if Classify(task.name) == c then data else []);
  }

  /** The project's buckets. */
  lemma FenixBuckets()
    ensures ProjectResult(Service, Fenix) == Returned(ProjectDurations(Fenix, [], [Expected(3), Expected(5)], []))
  {
    var data := [Expected(3), Expected(5)];
    DataInPushOrder();
    PropagateReturned(TaskResults(Service, Repo, [Task]), [data]);
    BucketsOfTask(data);
  }

  lemma SingleProject(server: Server, project: Project, durations: ProjectDurations)
    requires ProjectResult(server, project) == Returned(durations)
    ensures Collected(server, [project]) == Returned([durations])
  {
    PropagateReturned(ProjectResults(server, [project]), [durations]);
  }

  /** The build bucket holds the two records, push 3 first; the other buckets are empty. */
  lemma TwoPushRun()
    ensures Collected(Service, [Fenix])
         == Returned([ProjectDurations(Fenix, [], [Expected(3), Expected(5)], [])])
  {
    FenixBuckets();
    SingleProject(Service, Fenix, ProjectDurations(Fenix, [], [Expected(3), Expected(5)], []));
  }
}
