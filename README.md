# fx-ci-task-durations, modelled in Dafny

This project models the sequential core of a small CI-duration collector.

**src/durations.py.** For every configured project and task, the collector lists the repository's pushes from
yesterday to today (at most 100). It sorts the pushes by id and lists the jobs of each push that match the task's filter. Each job
becomes a duration record. Each task's records go into one of three buckets (UI tests, builds, test APKs),
chosen by the first of the words "ui-test", "build", "test-apk" that occurs in the task's name, or are
dropped when the name contains none of them. Every call to
the CI-metadata service sits in a bounded retry loop:
- a read timeout (`ReadTimeout`) or an `HTTPError` costs a sleep and another attempt, up to `RETRY_LIMIT`
  attempts;
- any other exception leaves the loop, including a connect timeout (`ConnectTimeout`) and a connection
  error (`ConnectionError`);
- a loop that runs out of attempts yields an empty list.

**generate.py.** `extract_hierarchy` walks the task graph from one task down to a depth limit. It builds a
nested dictionary of dependency ids.

**visualize.py.** This file repeats that walk. Its `add_edges` turns the nested dictionary into the edges of a
directed graph.

The files are:
- `durations.dfy` (module `Durations`), for src/durations.py:
  - The service is a stub, `Server`, which gives for the arguments of each call the outcome of each attempt:
    `Ok(data)`, `Transient` (a `ReadTimeout` or an `HTTPError`) or `Fatal` (anything else, a connect timeout
    or a connection error included).
  - The retry loop is the method `RetryLoop`, proved against the function `Retry`. Sleeps and calls are
    counted, not taken.
  - `TreeherderClientWrapper` is a class whose methods `FetchData` and `FetchJobs` are proved equal to the
    functions `FetchedData` and `FetchedJobs`.
  - The routing loop of `main` is the method `CollectDurations`, proved equal to the function `Collected`.
  - A Python call that returns or raises is a `Completion`.
- `scenario.dfy` (module `Scenario`) is a worked run: one project and one build task. The service names
  push 5 before push 3, and each push has one ten-minute job.
- `generate.dfy` (module `Generate`) holds the walk, `ExtractHierarchy`, and its structural lemmas.
- `visualize.dfy` (module `Visualize`) holds:
  - the duplicate walk, with a lemma that it equals the one in `Generate`;
  - the class `DiGraph`, which holds node and edge sets;
  - `AddEdges`, proved to add exactly the edge set `TreeEdges` of the tree and exactly the endpoints of
    those edges as nodes.

Three points about the code worth stating:
- **Sleeps on exhaustion.** A loop that runs out of attempts has slept `RETRY_LIMIT` times, because the code
  also sleeps after the last failed attempt (src/durations.py:48-51).
- **The third word.** The third bucket word is "test-apk", not "test" (src/durations.py:146).
- **Fatal errors while listing pushes.** Such an exception is caught nowhere: it leaves `fetch_data`, then
  `main`. One such error ends the whole run; it does not stop only the one project and task
  (`Durations.ProjectThrew`). A fatal error while listing one push's jobs is only skipped by the gather
  (`Durations.FailureIsolated`).

## Model

| member | source | states |
|---|---|---|
| Durations.Retry | src/durations.py:39-55 | The loop stops at the first answer or at the first exception it does not retry. The sleeps are the transient failures before that, and every attempt before the last was one. It is exhausted exactly when it slept `RETRY_LIMIT` times. |
| Durations.RetryLoop | src/durations.py:39-55 | The `while retry_count < RETRY_LIMIT` loop ends with the outcome and sleep count that `Retry` gives, and the calls it counts are `Calls` of that result. |
| Durations.CallsBounded | src/durations.py:39-51 | The loop calls the service at most `RETRY_LIMIT` times (the count `RetryLoop` keeps). |
| Durations.SuccessOnCall | src/durations.py:39-51 | An answer on call k, after k-1 transient failures, is returned after exactly k-1 sleeps and k calls. |
| Durations.FatalNotRetried | src/durations.py:48-48 | An exception other than a `ReadTimeout` or an `HTTPError` stops the loop at that attempt, with no sleep after it. |
| Durations.ExhaustedAfterLimit | src/durations.py:48-55 | `RETRY_LIMIT` transient failures end the loop as exhausted after `RETRY_LIMIT` sleeps, so a sleep follows the last attempt as well. |
| Durations.Insert | src/durations.py:58-58 | Inserting into a sorted id list keeps it sorted and adds exactly that id. |
| Durations.SortIds | src/durations.py:58-58 | The result is sorted and a permutation of the ids. |
| Durations.SortedUnique | src/durations.py:58-58 | Two sorted lists with the same elements are equal, so the sorted order of the ids is unique. |
| Durations.SortedPushIds | src/durations.py:58-58 | `push_ids` is ascending and a permutation of the ids of the pushes. |
| Durations.SortedPushIdsUnique | src/durations.py:58-58 | Any ascending permutation of the push ids is `push_ids`. |
| Durations.JobRecord | src/durations.py:93-108 | The dictionary appended for one job: the task's symbol, group, tier and result, the push id, the job's id, its duration in minutes and the repository (its properties are stated by `JobRecords` and `JobRecordsAppend`). |
| Durations.JobRecords | src/durations.py:92-111 | One record per job, in job order. Task, group, tier, result, push id and repo are copied from the arguments; the job id comes from the job; the duration times 60 is end minus start. |
| Durations.JobRecordsAppend | src/durations.py:93-109 | One more job appends exactly its own record. |
| Durations.FanInAppend | src/durations.py:62-64 | The fan-in of two result lists joined is the two fan-ins joined. |
| Durations.FailureIsolated | src/durations.py:60-64 | A push whose fetch raised contributes nothing; the pushes before and after it contribute what they would without it. |
| Durations.IssuedPushIdsOrder | src/durations.py:53-59 | The ids sent on to fetch_jobs are ascending and a permutation of the listed push ids. When the push listing did not answer, none are sent. |
| Durations.NoPushesNoData | src/durations.py:53-66 | An exhausted push listing, or an empty one, yields `[]`. |
| Durations.JobsExhaustedEmpty | src/durations.py:69-90 | A job listing that fails transiently on every attempt yields `[]`, not an exception. |
| Durations.TreeherderClientWrapper.constructor | src/durations.py:31-33 | `__init__` builds a `TreeherderClient` from `server_url` and keeps the timeout. Here the `Server` stub it is given stands for that client, and the wrapper keeps the stub and the timeout. |
| Durations.TreeherderClientWrapper.FetchData | src/durations.py:35-66 | fetch_data returns `FetchedData`: `[]` when retries run out, the exception when one leaves the loop, otherwise the fan-in in ascending push-id order. The job fetches go out for `IssuedPushIds`. |
| Durations.TreeherderClientWrapper.GatherJobs | src/durations.py:59-60 | The gather holds one fetch_jobs result per push id, in id order. |
| Durations.TreeherderClientWrapper.FetchJobs | src/durations.py:68-111 | fetch_jobs returns `FetchedJobs`: `[]` when retries run out, the exception when one leaves the loop, otherwise `JobRecords` of the listed jobs. Jobs are taken to be well formed (see "## Left out"). |
| Durations.FetchedJobs | src/durations.py:68-111 | fetch_jobs as a function of the stub: the records of the listed jobs on an answer, `[]` when retries run out, an exception when one leaves the loop (its properties are stated by `JobsExhaustedEmpty`, `JobRecords` and `FetchJobs`). Jobs are taken to be well formed (see "## Left out"). |
| Durations.PushResults | src/durations.py:59-60 | The gather's result list: one fetch_jobs outcome per push id, in the order of the ids, an exception kept as such (its loop is `GatherJobs`; `FailureIsolated` states what an exception contributes). |
| Durations.FanIn | src/durations.py:62-64 | The fan-in: the lists among the gather's results, concatenated in order, exceptions skipped (its properties are stated by `FanInAppend`, `FailureIsolated` and `ExtendAll`). |
| Durations.IssuedPushIds | src/durations.py:53-59 | The push ids fetch_jobs is started for: `push_ids` when the push listing answered, none otherwise (its properties are stated by `IssuedPushIdsOrder` and `SortedPushIdsUnique`). |
| Durations.FetchedData | src/durations.py:35-66 | fetch_data as a function of the stub: `[]` when the push listing ran out of retries, an exception when one left the loop, otherwise the fan-in of one fetch_jobs per push in ascending id order (its properties are stated by `NoPushesNoData`, `IssuedPushIdsOrder` and `FetchData`). |
| Durations.ExtendAll | src/durations.py:62-64 | The dataset extended by every result that is a list is the fan-in of the results. |
| Durations.ContainsOccurs | src/durations.py:142-146 | The substring scan finds a word exactly when the word occurs at some index of the name. |
| Durations.Classify | src/durations.py:142-147 | The `if / elif / elif` on the task name as a function: the first of "ui-test", "build", "test-apk" the name contains, or none (its properties are stated by `ClassifyFirstMatch` and `UiTestWins`). |
| Durations.ClassifyFirstMatch | src/durations.py:142-147 | The bucket is the first of "ui-test", "build", "test-apk" that the name contains; a name containing none is dropped. |
| Durations.UiTestWins | src/durations.py:142-143 | A name containing "ui-test" is a UI test, whatever else it contains (so "test-apk-ui-test-build" is a UI test). |
| Durations.ClassifyBuild | src/durations.py:144-145 | "build-arm64" goes to the build bucket. |
| Durations.ClassifyPlainTest | src/durations.py:142-147 | "test" alone matches no word and is dropped. |
| Durations.Bucket | src/durations.py:126-147 | One bucket after a project's tasks ran: the results of the tasks whose name routes to that bucket, in task order (its properties are stated by `BucketStep`, `BucketOrder` and `BucketsPartition`). |
| Durations.BucketsPartition | src/durations.py:142-147 | Every task's records land in exactly one bucket or are dropped: the four sizes add up to all records. |
| Durations.BucketOrder | src/durations.py:132-147 | Buckets accumulate in task order: the bucket of two task runs in sequence is the first bucket followed by the second. |
| Durations.BucketStep | src/durations.py:138-147 | One more task extends exactly its own bucket by its records. |
| Durations.PropagateSpec | src/durations.py:138-140 | A sequence of calls raises exactly when one of them raised; otherwise it returns every value, in order. |
| Durations.TaskResults | src/durations.py:132-140 | The fetch_data outcome of each of a project's tasks, in configuration order (its properties are stated by `TaskThrew` and `TasksReturned`). |
| Durations.ProjectResult | src/durations.py:126-149 | One pass of main's project loop as a function: the exception when a fetch_data raised, otherwise the project with its three buckets (its properties are stated by `TaskThrew` and `TasksReturned`; its loop is `CollectProject`). |
| Durations.TaskThrew | src/durations.py:132-140 | An exception from any task's fetch_data ends the project. |
| Durations.TasksReturned | src/durations.py:132-149 | When every fetch_data returned, the project's buckets are built from those results. |
| Durations.ProjectThrew | src/durations.py:125-140 | An exception while collecting any project ends the whole run. |
| Durations.Collected | src/durations.py:124-149 | The list of per-project tuples main builds, or the exception that ended the run (its properties are stated by `ProjectThrew` and `PropagateSpec`; its loop is `CollectDurations`). |
| Durations.CollectDurations | src/durations.py:124-149 | main's collection loop returns `Collected`: the projects' buckets in configuration order, or the exception that ended the run. |
| Durations.CollectProject | src/durations.py:126-149 | One pass of the project loop returns the project's `ProjectResult`. |
| Durations.CollectTask | src/durations.py:132-147 | One pass of the task loop fetches that task's result. If it returned, the records extend the buckets as routing says; if it raised, the project's outcome is that exception. |
| Durations.RoutedStep | src/durations.py:142-147 | Routing one more task keeps the three buckets equal to `Bucket` of the tasks so far. |
| Durations.Route | src/durations.py:142-147 | The `if / elif / elif` extends exactly the bucket that `Classify` names, by the task's records, and leaves the other two. |
| Scenario.JobsOfPush | src/durations.py:92-111 | In the worked run, each push gives one ten-minute record with the task's fields. |
| Scenario.PairSorted | src/durations.py:58-58 | Two pushes listed in descending order are fetched in ascending order. |
| Scenario.PushesSorted | src/durations.py:57-59 | In the worked run, jobs are fetched for push 3, then push 5. |
| Scenario.DataInPushOrder | src/durations.py:57-66 | In the worked run, fetch_data returns push 3's record, then push 5's. |
| Scenario.SingleTaskBucket | src/durations.py:142-147 | With one task, a bucket holds its records exactly when the task routes to it. |
| Scenario.BucketsOfTask | src/durations.py:142-147 | The build task fills the build bucket and leaves the other two empty. |
| Scenario.FenixBuckets | src/durations.py:126-149 | The worked project's buckets: no UI tests, both records as builds, no test APKs. |
| Scenario.SingleProject | src/durations.py:124-149 | With one project whose collection returned, the run returns exactly that project's buckets. |
| Scenario.TwoPushRun | src/durations.py:114-149 | The worked run collects one project whose build bucket is push 3's record, then push 5's. |
| Generate.ExtractHierarchy | generate.py:13-26 | `{}` exactly when the level has reached the depth, the task is unknown, or it has no `"dependencies"` key (an empty dependencies map gives `{task: {}}`). Otherwise one key, the task, whose inner keys are exactly the dependency ids. |
| Generate.ExtractHierarchyChildren | generate.py:19-25 | Each inner entry is the walk of that dependency one level down. |
| Generate.ExtractHierarchyEmptyDependencies | generate.py:13-26 | The stop test looks only for the `"dependencies"` key: a task whose dependencies map is empty gives `{task: {}}`, not `{}`. |
| Generate.ExtractHierarchyLevels | generate.py:13-26 | The walk nests at most `depth - current_level` task levels. |
| Generate.HierarchyTreeLevels | generate.py:30-33 | The tree written for test-apk-fenix-debug with depth limit 3 has at most three levels. |
| Visualize.ExtractHierarchy | visualize.py:15-28 | visualize.py's own copy of the walk (its properties are those of `Generate.ExtractHierarchy`, by `SameAsGenerate`). |
| Visualize.SameAsGenerate | visualize.py:15-28 | visualize.py's copy of extract_hierarchy equals generate.py's on every input. |
| Visualize.DiGraph.constructor | visualize.py:47-47 | A new graph has no nodes and no edges. |
| Visualize.DiGraph.AddEdge | visualize.py:42-42 | add_edge adds both endpoints and the edge, and nothing else. |
| Visualize.AddEdges | visualize.py:39-43 | add_edges only adds: the edges after are the edges before together with every (parent, child) pair at every level of the tree, and the nodes after are the nodes before together with both endpoints of each of those edges. |
| Visualize.AddChildEdges | visualize.py:41-43 | The inner loop adds the edges to each child and below it, and their endpoints as nodes. |
| Visualize.TreeEdges | visualize.py:39-43 | The edge set add_edges adds for a tree: every (parent, child) pair at every level (its properties are stated by `EmptyTreeNoEdges`, `ExtractedTreeEdges`, `EdgesFollowDependencies` and `EdgeSourcesReached`; its loops are `AddEdges` and `AddChildEdges`). |
| Visualize.EmptyTreeNoEdges | visualize.py:39-43 | An empty tree adds no edges. |
| Visualize.ExtractedTreeEdges | visualize.py:21-43 | A walk's edges are the edges from its root to each dependency, plus the edges of each dependency's own walk. |
| Visualize.EdgesFollowDependencies | visualize.py:15-43 | Every edge (p, c) of a walk's graph has c among the dependency ids of p. |
| Visualize.EdgeSourcesReached | visualize.py:35-50 | Every edge of a walk's graph starts at the root or at the end of another edge. |
| Visualize.BuildDependencyGraph | visualize.py:35-50 | The script's graph is fresh and holds exactly the edges of the walk from test-apk-fenix-debug with depth limit 3; its nodes are exactly the endpoints of those edges. |

## Left out

- Network calls through `TreeherderClient` are not modelled: the `Server` stub gives each call's attempt outcomes as a parameter. The `count=100` argument of `get_pushes` and its date window (from `date.today()` minus one day to `date.today()`) are not modelled, since they only shape the stub's answer.
- Durations.Server: the stub keys each script by the call's arguments, so repeated calls with the same arguments are modelled as answering alike. In Python they are independent calls that each retry on their own: a push listing that names an id twice starts two fetch_jobs calls, and two tasks (or two projects) with the same repository and filter make two fetch_data calls.
- `asyncio.sleep` and its `RETRY_DELAY` of 5 seconds are not modelled: sleeps are counted, not timed.
- `asyncio.gather` scheduling is not modelled. The service calls block, and gather returns results in argument order, so the fan-out is a sequential map.
- YAML configuration loading is not modelled: projects and tasks are given already parsed. The `aiohttp` session is unused and left out.
- Plotting is not modelled: the matplotlib code of main, and plotly with `hierarchy_pos` in visualize.py (float layout).
- JSON reads and writes, and logging, are not modelled.
- Durations.FetchedJobs (and `Durations.TreeherderClientWrapper.FetchJobs`): jobs are assumed well formed, with an `id`, a `start_timestamp` and an `end_timestamp`, and timestamps within the range `datetime.fromtimestamp` accepts. Otherwise Python's fetch_jobs raises while building the records (`KeyError`, or `ValueError`, `OverflowError` or `OSError`, for example for `end_timestamp = 10**12`), the gather keeps that exception, and the whole push contributes nothing. The model returns the records of every answered job list instead. The valid timestamp range depends on the platform and the local time zone.
- Durations.JobRecords: the duration is the exact real `(end - start) / 60`. Python converts through local `datetime.fromtimestamp` values, which can differ across a daylight-saving change, and divides in floating point.
- Generate.ExtractHierarchy: dictionaries are maps, so key order (Python insertion order) is not modelled. A task description is reduced to whether it has a "dependencies" map, so other JSON shapes are not modelled.
- Generate.ExtractHierarchy: the task graph is passed by value, so not modifying it holds by construction and is not stated as a separate property.
- Visualize.AddEdges: the graph is a pair of sets, so networkx's node and edge insertion order is not modelled.
