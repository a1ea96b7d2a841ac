/**
 * The collector of src/durations.py: a bounded retry loop around each call to
 * the CI-metadata service, the push listing sorted by id and fanned out into
 * one job listing per push, the conversion of jobs into duration records,
 * and the routing of each configured task's records into one of three
 * buckets.
 *
 * The service is a stub: for every call the stub gives a script, the outcome
 * of the first, second, third ... attempt. An attempt either answers, fails
 * with a read timeout (ReadTimeout) or an HTTPError (Transient: the loop
 * retries), or raises anything else, a connect timeout or a connection error
 * included (Fatal: the exception leaves the loop).
 */
module Durations {

  /** Attempts made before giving up (RETRY_LIMIT). */
  const RETRY_LIMIT: nat := 3
  /** The request timeout main gives the client, in seconds. */
  const TIMEOUT: nat := 120

  /** The outcome of one attempt at a remote call. */
  datatype Outcome<T> = Ok(data: T) | Transient | Fatal

  /** The outcome of attempt 0, 1, 2, ... of one call. */
  type Script<T> = nat -> Outcome<T>

  /** How a Python call ends: it returns a value or raises. */
  datatype Completion<T> = Returned(value: T) | Threw

  /** How the retry loop ends: with the answer, with retries used up, or by an exception it does not catch. */
  datatype Retried<T> = Fetched(value: T) | Exhausted | Raised

  /** The retry loop's result together with the number of sleeps it took. */
  datatype Attempts<T> = Attempts(outcome: Retried<T>, sleeps: nat)

  datatype Push = Push(id: int)
  datatype Job = Job(id: int, startTimestamp: int, endTimestamp: int)

  /** The job filter of one configured task: symbol, group_symbol, tier, result. */
  datatype Filter = Filter(symbol: string, groupSymbol: string, tier: int, result: string)

  /** One record of the dataset (the dictionary built for each job). */
  datatype Record = Record(
    task: string, group: string, tier: int, result: string,
    pushId: int, jobId: int, duration: real, repo: string)

  /**
   * The stubbed service: the script of get_pushes for each (repo, task filter)
   * whose fetch_data asks, and of get_jobs for each (repo, push id, filter).
   */
  datatype Server = Server(
    pushes: (string, Filter) -> Script<seq<Push>>,
    jobs: (string, int, Filter) -> Script<seq<Job>>)

  // ---------------------------------------------------------------------
  // The retry loop
  // ---------------------------------------------------------------------

  /**
   * The retry loop from `retryCount` on: each transient failure costs one
   * sleep and another attempt, while fewer than RETRY_LIMIT have failed.
   * The loop stops at the first answer or fatal failure; the number of
   * sleeps is the number of transient failures before that, and all
   * RETRY_LIMIT of them when every attempt failed.
   */
  function Retry<T>(script: Script<T>, retryCount: nat): (r: Attempts<T>)
    requires retryCount <= RETRY_LIMIT
    decreases RETRY_LIMIT - retryCount
    ensures retryCount <= r.sleeps <= RETRY_LIMIT
    ensures forall k :: retryCount <= k < r.sleeps ==> script(k).Transient?
    ensures r.outcome.Exhausted? <==> r.sleeps == RETRY_LIMIT
    ensures r.outcome.Fetched? ==> script(r.sleeps) == Ok(r.outcome.value)
    ensures r.outcome.Raised? ==> script(r.sleeps).Fatal?
  {
    if retryCount == RETRY_LIMIT then Attempts(Exhausted, retryCount)
    else match script(retryCount)
      case Ok(data) => Attempts(Fetched(data), retryCount)
      case Fatal => Attempts(Raised, retryCount)
      case Transient => Retry(script, retryCount + 1)
  }

  /** The number of calls the loop makes: one per sleep, plus the last one unless retries ran out. */
  function Calls<T>(a: Attempts<T>): nat {
    if a.outcome.Exhausted? then a.sleeps else a.sleeps + 1
  }

  /** The loop makes at most RETRY_LIMIT calls. */
  lemma CallsBounded<T>(script: Script<T>)
    ensures Calls(Retry(script, 0)) <= RETRY_LIMIT
  {
  }

  /** An answer on call k, after k - 1 transient failures, comes after exactly k - 1 sleeps. */
  lemma SuccessOnCall<T>(script: Script<T>, k: nat)
    requires 1 <= k <= RETRY_LIMIT
    requires forall j :: 0 <= j < k - 1 ==> script(j).Transient?
    requires script(k - 1).Ok?
    ensures Retry(script, 0) == Attempts(Fetched(script(k - 1).data), k - 1)
    ensures Calls(Retry(script, 0)) == k
  {
  }

  /** A call that fails other than with a ReadTimeout or an HTTPError stops the loop at once, without a sleep after it. */
  lemma FatalNotRetried<T>(script: Script<T>, k: nat)
    requires k < RETRY_LIMIT
    requires forall j :: 0 <= j < k ==> script(j).Transient?
    requires script(k).Fatal?
    ensures Retry(script, 0) == Attempts(Raised, k)
  {
  }

  /** RETRY_LIMIT transient failures in a row exhaust the loop after RETRY_LIMIT sleeps. */
  lemma ExhaustedAfterLimit<T>(script: Script<T>)
    requires forall j :: 0 <= j < RETRY_LIMIT ==> script(j).Transient?
    ensures Retry(script, 0) == Attempts(Exhausted, RETRY_LIMIT)
  {
  }

  /**
   * The `while retry_count < RETRY_LIMIT` loop shared by fetch_data and
   * fetch_jobs, with the sleeps counted rather than taken.
   */
  method RetryLoop<T>(script: Script<T>) returns (outcome: Retried<T>, sleeps: nat, calls: nat)
    ensures Attempts(outcome, sleeps) == Retry(script, 0)
    ensures calls == Calls(Retry(script, 0))
  {
    var retryCount := 0;
    calls := 0;
    outcome := Exhausted;
    while retryCount < RETRY_LIMIT
      invariant retryCount <= RETRY_LIMIT && calls == retryCount
      invariant Retry(script, retryCount) == Retry(script, 0)
    {
      calls := calls + 1;
      match script(retryCount)
      case Ok(data) =>
        outcome := Fetched(data);
        break;
      case Fatal =>
        return Raised, retryCount, calls;
      case Transient =>
        retryCount := retryCount + 1;
    }
    if retryCount == RETRY_LIMIT {
      return Exhausted, retryCount, calls;
    }
    sleeps := retryCount;
  }

  // ---------------------------------------------------------------------
  // Sorting the pushes
  // ---------------------------------------------------------------------

  predicate Sorted(s: seq<int>) {
    forall i, j :: 0 <= i < j < |s| ==> s[i] <= s[j]
  }

  function PushIds(pushes: seq<Push>): (ids: seq<int>)
    ensures |ids| == |pushes| && forall i :: 0 <= i < |pushes| ==> ids[i] == pushes[i].id
  {
    seq(|pushes|, i requires 0 <= i < |pushes| => pushes[i].id)
  }

  function Insert(x: int, s: seq<int>): (r: seq<int>)
    requires Sorted(s)
    ensures Sorted(r) && multiset(r) == multiset(s) + multiset{x}
  {
    if s == [] || x <= s[0] then [x] + s
    else
      var rest := Insert(x, s[1..]);
      InsertBehindHead(x, s, rest);
      [s[0]] + rest
  }

  /** Putting the head of `s` back in front of `x` inserted into the tail keeps the order and the elements. */
  lemma InsertBehindHead(x: int, s: seq<int>, rest: seq<int>)
    requires Sorted(s) && s != [] && s[0] < x
    requires Sorted(rest) && multiset(rest) == multiset(s[1..]) + multiset{x}
    ensures Sorted([s[0]] + rest) && multiset([s[0]] + rest) == multiset(s) + multiset{x}
  {
    assert s == [s[0]] + s[1..];
    LowerBound(s[0], rest, multiset(s[1..]) + multiset{x});
    ConsSorted(s[0], rest);
    assert multiset([s[0]] + rest) == multiset{s[0]} + multiset(rest);
  }

  /** A value below every element of a multiset is below every element of a sequence holding it. */
  lemma LowerBound(low: int, s: seq<int>, m: multiset<int>)
    requires multiset(s) == m && forall v | v in m :: low <= v
    ensures forall i | 0 <= i < |s| :: low <= s[i]
  {
    forall i | 0 <= i < |s| ensures low <= s[i] {
      assert s[i] in multiset(s);
    }
  }

  lemma ConsSorted(x: int, s: seq<int>)
    requires Sorted(s) && forall i | 0 <= i < |s| :: x <= s[i]
    ensures Sorted([x] + s)
  {
  }

  function SortIds(ids: seq<int>): (r: seq<int>)
    ensures Sorted(r) && multiset(r) == multiset(ids)
  {
    if ids == [] then []
    else
      assert ids == [ids[0]] + ids[1..];
      Insert(ids[0], SortIds(ids[1..]))
  }

  /** A sorted sequence is fixed by its elements: every way of sorting gives the same ids. */
  lemma {:induction false} SortedUnique(a: seq<int>, b: seq<int>)
    requires Sorted(a) && Sorted(b) && multiset(a) == multiset(b)
    ensures a == b
  {
    if a != [] {
      SortedHeads(a, b);
      SortedUnique(a[1..], b[1..]);
      assert a == [a[0]] + a[1..];
      assert b == [b[0]] + b[1..];
    }
  }

  /** Two sorted sequences with the same elements start alike and continue with the same elements. */
  lemma SortedHeads(a: seq<int>, b: seq<int>)
    requires a != [] && Sorted(a) && Sorted(b) && multiset(a) == multiset(b)
    ensures b != [] && a[0] == b[0] && multiset(a[1..]) == multiset(b[1..])
    ensures Sorted(a[1..]) && Sorted(b[1..])
  {
    assert a[0] in multiset(b);
    SortedFirstIsLeast(b, a[0]);
    SortedFirstIsLeast(a, b[0]);
    TailMultiset(a);
    TailMultiset(b);
  }

  lemma SortedFirstIsLeast(s: seq<int>, v: int)
    requires Sorted(s) && v in multiset(s)
    ensures s != [] && s[0] <= v
  {
    var i :| 0 <= i < |s| && s[i] == v;
  }

  lemma TailMultiset(s: seq<int>)
    requires s != []
    ensures multiset(s[1..]) == multiset(s) - multiset{s[0]}
  {
    assert s == [s[0]] + s[1..];
  }

  /** push_ids: the ids of the pushes, in ascending order. */
  function SortedPushIds(pushes: seq<Push>): (ids: seq<int>)
    ensures Sorted(ids) && multiset(ids) == multiset(PushIds(pushes))
  {
    SortIds(PushIds(pushes))
  }

  /** push_ids is the one ascending arrangement of the push ids: any other sorted rearrangement equals it. */
  lemma SortedPushIdsUnique(pushes: seq<Push>, ids: seq<int>)
    requires Sorted(ids) && multiset(ids) == multiset(PushIds(pushes))
    ensures SortedPushIds(pushes) == ids
  {
    SortedUnique(SortedPushIds(pushes), ids);
  }

  // ---------------------------------------------------------------------
  // Records, the per-push fetch and the fan-in
  // ---------------------------------------------------------------------

  /** The record built for one job of push `pushId`; the duration is in minutes. */
  function JobRecord(repo: string, pushId: int, filter: Filter, job: Job): Record {
    Record(filter.symbol, filter.groupSymbol, filter.tier, filter.result,
           pushId, job.id, (job.endTimestamp - job.startTimestamp) as real / 60.0, repo)
  }

  /** One record per job, in job order, each with the task's fields, the push and the job's duration. */
  function JobRecords(repo: string, pushId: int, filter: Filter, jobs: seq<Job>): (r: seq<Record>)
    ensures |r| == |jobs|
    ensures forall i :: 0 <= i < |jobs| ==>
      && r[i].task == filter.symbol && r[i].group == filter.groupSymbol
      && r[i].tier == filter.tier && r[i].result == filter.result
      && r[i].pushId == pushId && r[i].repo == repo && r[i].jobId == jobs[i].id
      && r[i].duration * 60.0 == (jobs[i].endTimestamp - jobs[i].startTimestamp) as real
  {
    if jobs == [] then []
    else [JobRecord(repo, pushId, filter, jobs[0])] + JobRecords(repo, pushId, filter, jobs[1..])
  }

  /**
   * fetch_jobs: the records of the push's jobs; `[]` when retries run out
   * (`jobs` is still its initial empty list then); raises what the loop
   * does not catch.
   */
  function FetchedJobs(server: Server, repo: string, pushId: int, filter: Filter): (r: Completion<seq<Record>>)
  {
    match Retry(server.jobs(repo, pushId, filter), 0).outcome
    case Fetched(jobs) => Returned(JobRecords(repo, pushId, filter, jobs))
    case Exhausted => Returned([])
    case Raised => Threw
  }

  /** The result of one fetch_jobs per push id, in the order of the ids (what gather returns). */
  function PushResults(server: Server, repo: string, filter: Filter, pushIds: seq<int>): (rs: seq<Completion<seq<Record>>>)
    ensures |rs| == |pushIds|
    ensures forall i :: 0 <= i < |pushIds| ==> rs[i] == FetchedJobs(server, repo, pushIds[i], filter)
  {
    seq(|pushIds|, i requires 0 <= i < |pushIds| => FetchedJobs(server, repo, pushIds[i], filter))
  }

  /** The fan-in: the lists among the results, concatenated in order; exceptions are skipped. */
  function FanIn(results: seq<Completion<seq<Record>>>): (r: seq<Record>)
  {
    if results == [] then []
    else (if results[0].Returned? then results[0].value else []) + FanIn(results[1..])
  }

  /** Fan-in distributes over concatenation: each result contributes on its own. */
  lemma {:induction false} FanInAppend(a: seq<Completion<seq<Record>>>, b: seq<Completion<seq<Record>>>)
    ensures FanIn(a + b) == FanIn(a) + FanIn(b)
  {
    if a != [] {
      assert (a + b)[0] == a[0];
      assert (a + b)[1..] == a[1..] + b;
      FanInAppend(a[1..], b);
    } else {
      assert a + b == b;
    }
  }

  /**
   * A push whose fetch raised contributes nothing, and the pushes around it
   * contribute exactly what they would without it.
   */
  lemma FailureIsolated(before: seq<Completion<seq<Record>>>, after: seq<Completion<seq<Record>>>)
    ensures FanIn(before + [Threw] + after) == FanIn(before) + FanIn(after)
  {
    FanInAppend(before + [Threw], after);
    FanInAppend(before, [Threw]);
  }

  /** The push ids fetch_data passes on to fetch_jobs. */
  function IssuedPushIds(server: Server, repo: string, filter: Filter): (ids: seq<int>)
  {
    match Retry(server.pushes(repo, filter), 0).outcome
    case Fetched(pushes) => SortedPushIds(pushes)
    case _ => []
  }

  /**
   * fetch_data: `[]` when listing the pushes ran out of retries or found
   * none; otherwise the fan-in of one fetch_jobs per push, in ascending
   * push-id order. An exception the push loop does not catch propagates.
   */
  function FetchedData(server: Server, repo: string, filter: Filter): (r: Completion<seq<Record>>)
  {
    match Retry(server.pushes(repo, filter), 0).outcome
    case Exhausted => Returned([])
    case Raised => Threw
    case Fetched(pushes) =>
      Returned(FanIn(PushResults(server, repo, filter, IssuedPushIds(server, repo, filter))))
  }

  /** Job fetches go out for each push once, in ascending id order, and none when the push listing failed. */
  lemma IssuedPushIdsOrder(server: Server, repo: string, filter: Filter)
    ensures Sorted(IssuedPushIds(server, repo, filter))
    ensures match Retry(server.pushes(repo, filter), 0).outcome
      case Fetched(pushes) => multiset(IssuedPushIds(server, repo, filter)) == multiset(PushIds(pushes))
      case _ => IssuedPushIds(server, repo, filter) == []
  {
  }

  /** No pushes, or no answer to the push listing, gives an empty dataset. */
  lemma NoPushesNoData(server: Server, repo: string, filter: Filter)
    requires Retry(server.pushes(repo, filter), 0).outcome in {Exhausted, Fetched([])}
    ensures FetchedData(server, repo, filter) == Returned([])
  {
  }

  /** A job listing that fails transiently on every attempt gives `[]`, not an exception. */
  lemma JobsExhaustedEmpty(server: Server, repo: string, pushId: int, filter: Filter)
    requires forall j :: 0 <= j < RETRY_LIMIT ==> server.jobs(repo, pushId, filter)(j).Transient?
    ensures FetchedJobs(server, repo, pushId, filter) == Returned([])
  {
    ExhaustedAfterLimit(server.jobs(repo, pushId, filter));
  }

  /**
   * The client wrapper. Its fields are set once; fetch_data and fetch_jobs
   * only read them.
   */
  class TreeherderClientWrapper {
    const client: Server
    const timeout: nat

    constructor (client: Server, timeout: nat)
      ensures this.client == client && this.timeout == timeout
    {
      this.client := client;
      this.timeout := timeout;
    }

    /** fetch_data; also returns the push ids it started a fetch_jobs for, in order. */
    method FetchData(repo: string, filter: Filter) returns (r: Completion<seq<Record>>, issued: seq<int>)
      ensures r == FetchedData(client, repo, filter)
      ensures issued == IssuedPushIds(client, repo, filter)
    {
      var dataset: seq<Record> := [];
      var outcome, _, _ := RetryLoop(client.pushes(repo, filter));
      if outcome.Exhausted? {
        return Returned(dataset), [];
      }
      if outcome.Raised? {
        return Threw, [];
      }
      var pushes := outcome.value;
      issued := [];
      if pushes != [] {
        var pushIds := SortedPushIds(pushes);
        var results := GatherJobs(repo, filter, pushIds);
        issued := pushIds;
        dataset := ExtendAll(results);
      }
      r := Returned(dataset);
    }

    /** The gather in fetch_data: one fetch_jobs per push id, results kept in id order. */
    method GatherJobs(repo: string, filter: Filter, pushIds: seq<int>) returns (results: seq<Completion<seq<Record>>>)
      ensures results == PushResults(client, repo, filter, pushIds)
    {
      results := [];
      for i := 0 to |pushIds|
        invariant results == PushResults(client, repo, filter, pushIds[..i])
      {
        var result := FetchJobs(repo, pushIds[i], filter);
        results := results + [result];
      }
      assert pushIds[..|pushIds|] == pushIds;
    }

    /** fetch_jobs. */
    method FetchJobs(repo: string, pushId: int, filter: Filter) returns (r: Completion<seq<Record>>)
      ensures r == FetchedJobs(client, repo, pushId, filter)
    {
      var jobs: seq<Job> := [];
      var outcome, _, _ := RetryLoop(client.jobs(repo, pushId, filter));
      if outcome.Exhausted? {
        return Returned([]);
      }
      if outcome.Raised? {
        return Threw;
      }
      jobs := outcome.value;
      var dataset: seq<Record> := [];
      for i := 0 to |jobs|
        invariant dataset == JobRecords(repo, pushId, filter, jobs[..i])
      {
        dataset := dataset + [JobRecord(repo, pushId, filter, jobs[i])];
        JobRecordsAppend(repo, pushId, filter, jobs[..i], jobs[i]);
        assert jobs[..i + 1] == jobs[..i] + [jobs[i]];
      }
      assert jobs[..|jobs|] == jobs;
      r := Returned(dataset);
    }
  }

  /**
   * The loop after the gather in fetch_data: each result that is a list
   * extends the dataset; an exception is skipped.
   */
  method ExtendAll(results: seq<Completion<seq<Record>>>) returns (dataset: seq<Record>)
    ensures dataset == FanIn(results)
  {
    dataset := [];
    for i := 0 to |results|
      invariant dataset == FanIn(results[..i])
    {
      if results[i].Returned? {
        dataset := dataset + results[i].value;
      }
      assert results[..i + 1] == results[..i] + [results[i]];
      FanInAppend(results[..i], [results[i]]);
    }
    assert results[..|results|] == results;
  }

  lemma {:induction false} JobRecordsAppend(repo: string, pushId: int, filter: Filter, jobs: seq<Job>, job: Job)
    ensures JobRecords(repo, pushId, filter, jobs + [job])
         == JobRecords(repo, pushId, filter, jobs) + [JobRecord(repo, pushId, filter, job)]
  {
    if jobs != [] {
      assert (jobs + [job])[1..] == jobs[1..] + [job];
      JobRecordsAppend(repo, pushId, filter, jobs[1..], job);
    }
  }

  // ---------------------------------------------------------------------
  // main: one fetch_data per configured task, routed into three buckets
  // ---------------------------------------------------------------------

  /** One task of the configuration. */
  datatype TaskConfig = TaskConfig(name: string, symbol: string, groupSymbol: string, tier: int, result: string) {
    function JobFilter(): Filter {
      Filter(symbol, groupSymbol, tier, result)
    }
  }

  /** One project of the configuration; only its repository and tasks are used here. */
  datatype Project = Project(name: string, repository: string, tasks: seq<TaskConfig>)

  /** The bucket a task name is routed to, or none. */
  datatype Category = UiTest | Build | TestApk | Unclassified

  /** The per-project tuple main collects: the project and its three buckets. */
  datatype ProjectDurations = ProjectDurations(project: Project, uiTest: seq<Record>, build: seq<Record>, test: seq<Record>)

  /** `part` occurs in `s` starting at index `i`. */
  predicate OccursAt(s: string, part: string, i: nat) {
    i + |part| <= |s| && s[i..i + |part|] == part
  }

  /** Python's `part in s` on strings, scanning `s` from the left. */
  function Contains(s: string, part: string): bool
    decreases |s|
  {
    if |part| > |s| then false
    else if s[..|part|] == part then true
    else Contains(s[1..], part)
  }

  /** The scan finds `part` exactly when `part` occurs somewhere in `s`. */
  lemma {:induction false} ContainsOccurs(s: string, part: string)
    ensures Contains(s, part) <==> exists i: nat :: OccursAt(s, part, i)
    decreases |s|
  {
    if |part| > |s| {
    } else if s[..|part|] == part {
      assert OccursAt(s, part, 0);
    } else {
      ContainsShift(s, part);
      ContainsOccurs(s[1..], part);
    }
  }

  lemma ContainsShift(s: string, part: string)
    requires |part| <= |s| && s[..|part|] != part
    ensures (exists i: nat :: OccursAt(s, part, i)) <==> (exists i: nat :: OccursAt(s[1..], part, i))
  {
    if exists i: nat :: OccursAt(s, part, i) {
      var i: nat :| OccursAt(s, part, i);
      OccursLater(s, part, i);
    }
    if exists i: nat :: OccursAt(s[1..], part, i) {
      var i: nat :| OccursAt(s[1..], part, i);
      OccursInTail(s, part, i);
    }
  }

  lemma OccursLater(s: string, part: string, i: nat)
    requires |part| <= |s| && s[..|part|] != part && OccursAt(s, part, i)
    ensures i >= 1 && OccursAt(s[1..], part, i - 1)
  {
    assert s[1..][i - 1..i - 1 + |part|] == s[i..i + |part|];
  }

  lemma OccursInTail(s: string, part: string, i: nat)
    requires 1 <= |s| && OccursAt(s[1..], part, i)
    ensures OccursAt(s, part, i + 1)
  {
    assert s[i + 1..i + 1 + |part|] == s[1..][i..i + |part|];
  }

  /** The `if / elif / elif` of main: first match among "ui-test", "build", "test-apk". */
  const UI_TEST_WORD := "ui-test"
  const BUILD_WORD := "build"
  const TEST_APK_WORD := "test-apk"

  function Classify(name: string): Category {
    if Contains(name, UI_TEST_WORD) then UiTest
    else if Contains(name, BUILD_WORD) then Build
    else if Contains(name, TEST_APK_WORD) then TestApk
    else Unclassified
  }

  /** A string lacking one of the characters of `part` does not contain `part`. */
  lemma MissingCharacter(s: string, part: string, k: nat)
    requires k < |part| && part[k] !in s
    ensures !Contains(s, part)
  {
    ContainsOccurs(s, part);
    forall i: nat ensures !OccursAt(s, part, i) {
      if i + |part| <= |s| {
        assert s[i..i + |part|][k] == s[i + k];
        assert s[i + k] in s;
      }
    }
  }

  /** The buckets in priority order: a later word counts only when no earlier one matched. */
  lemma ClassifyFirstMatch(name: string)
    ensures Classify(name) == UiTest <==> Contains(name, UI_TEST_WORD)
    ensures Classify(name) == Build <==> !Contains(name, UI_TEST_WORD) && Contains(name, BUILD_WORD)
    ensures Classify(name) == TestApk
        <==> !Contains(name, UI_TEST_WORD) && !Contains(name, BUILD_WORD) && Contains(name, TEST_APK_WORD)
    ensures Classify(name) == Unclassified
        <==> !Contains(name, UI_TEST_WORD) && !Contains(name, BUILD_WORD) && !Contains(name, TEST_APK_WORD)
  {
  }

  /** First match decides: a name holding "ui-test" is a UI test, whatever else it holds. */
  lemma UiTestWins(prefix: string, suffix: string)
    ensures Classify(prefix + UI_TEST_WORD + suffix) == UiTest
  {
    FoundBetween(prefix, UI_TEST_WORD, suffix);
  }

  /** `part` is found in any string that has it between some prefix and suffix. */
  lemma FoundBetween(prefix: string, part: string, suffix: string)
    ensures Contains(prefix + part + suffix, part)
  {
    var s := prefix + part + suffix;
    assert s[|prefix|..|prefix| + |part|] == part;
    assert OccursAt(s, part, |prefix|);
    ContainsOccurs(s, part);
  }

  /** A build name goes to the build bucket. */
  lemma ClassifyBuild()
    ensures Classify("build-arm64") == Build
  {
    MissingCharacter("build-arm64", UI_TEST_WORD, 3);
    FoundBetween("", BUILD_WORD, "-arm64");
    assert "" + BUILD_WORD + "-arm64" == "build-arm64";
  }

  /** "test" alone matches none of the three words, so such a task is dropped. */
  lemma ClassifyPlainTest()
    ensures Classify("test") == Unclassified
  {
  }

  /** The category of each task's name, in configuration order. */
  function Categories(tasks: seq<TaskConfig>): (cs: seq<Category>)
    ensures |cs| == |tasks|
  {
    seq(|tasks|, i requires 0 <= i < |tasks| => Classify(tasks[i].name))
  }

  /** The results whose category is `c`, concatenated in order. */
  function Gather(cats: seq<Category>, data: seq<seq<Record>>, c: Category): seq<Record>
    requires |data| == |cats|
  {
    if cats == [] then []
    else
      var n := |cats| - 1;
      Gather(cats[..n], data[..n], c) + (if cats[n] == c then data[n] else [])
  }

  /**
   * The bucket for category `c` after the tasks ran with results `data`:
   * the results of the tasks whose name routes to `c`, in task order.
   */
  function Bucket(tasks: seq<TaskConfig>, data: seq<seq<Record>>, c: Category): seq<Record>
    requires |data| == |tasks|
  {
    Gather(Categories(tasks), data, c)
  }

  /** All task results, concatenated in task order. */
  function Flatten(data: seq<seq<Record>>): seq<Record> {
    if data == [] then [] else Flatten(data[..|data| - 1]) + data[|data| - 1]
  }

  /** Every task's records land in exactly one bucket (counting "dropped" as one). */
  lemma BucketsPartition(tasks: seq<TaskConfig>, data: seq<seq<Record>>)
    requires |data| == |tasks|
    ensures |Bucket(tasks, data, UiTest)| + |Bucket(tasks, data, Build)| + |Bucket(tasks, data, TestApk)|
          + |Bucket(tasks, data, Unclassified)| == |Flatten(data)|
  {
    GatherPartition(Categories(tasks), data);
  }

  lemma {:induction false} GatherPartition(cats: seq<Category>, data: seq<seq<Record>>)
    requires |data| == |cats|
    ensures |Gather(cats, data, UiTest)| + |Gather(cats, data, Build)| + |Gather(cats, data, TestApk)|
          + |Gather(cats, data, Unclassified)| == |Flatten(data)|
  {
    if cats != [] {
      var n := |cats| - 1;
      GatherPartition(cats[..n], data[..n]);
    }
  }

  /** Buckets accumulate in configuration order: later tasks append after earlier ones. */
  lemma BucketOrder(tasks1: seq<TaskConfig>, data1: seq<seq<Record>>,
                    tasks2: seq<TaskConfig>, data2: seq<seq<Record>>, c: Category)
    requires |data1| == |tasks1| && |data2| == |tasks2|
    ensures Bucket(tasks1 + tasks2, data1 + data2, c) == Bucket(tasks1, data1, c) + Bucket(tasks2, data2, c)
  {
    CategoriesAppend(tasks1, tasks2);
    GatherOrder(Categories(tasks1), data1, Categories(tasks2), data2, c);
  }

  lemma CategoriesAppend(tasks1: seq<TaskConfig>, tasks2: seq<TaskConfig>)
    ensures Categories(tasks1 + tasks2) == Categories(tasks1) + Categories(tasks2)
  {
    var cs, cs1, cs2 := Categories(tasks1 + tasks2), Categories(tasks1), Categories(tasks2);
    forall i | 0 <= i < |cs| ensures cs[i] == (cs1 + cs2)[i] {
      if i < |tasks1| {
        assert (tasks1 + tasks2)[i] == tasks1[i];
      } else {
        assert (tasks1 + tasks2)[i] == tasks2[i - |tasks1|];
      }
    }
  }

  lemma {:induction false} GatherOrder(cats1: seq<Category>, data1: seq<seq<Record>>,
                                       cats2: seq<Category>, data2: seq<seq<Record>>, c: Category)
    requires |data1| == |cats1| && |data2| == |cats2|
    ensures Gather(cats1 + cats2, data1 + data2, c) == Gather(cats1, data1, c) + Gather(cats2, data2, c)
    decreases |cats2|
  {
    if cats2 == [] {
      assert cats1 + cats2 == cats1 && data1 + data2 == data1;
    } else {
      var n := |cats2| - 1;
      var cats, data := cats1 + cats2, data1 + data2;
      var m := |cats| - 1;
      DropLastOfAppend(cats1, cats2);
      DropLastOfAppend(data1, data2);
      var last := if cats2[n] == c then data2[n] else [];
      calc {
        Gather(cats, data, c);
        Gather(cats[..m], data[..m], c) + last;
        { GatherOrder(cats1, data1, cats2[..n], data2[..n], c); }
        Gather(cats1, data1, c) + Gather(cats2[..n], data2[..n], c) + last;
        Gather(cats1, data1, c) + (Gather(cats2[..n], data2[..n], c) + last);
      }
    }
  }

  /** Dropping the last element of `a + b` drops it from `b`. */
  lemma DropLastOfAppend<T>(a: seq<T>, b: seq<T>)
    requires b != []
    ensures (a + b)[..|a + b| - 1] == a + b[..|b| - 1]
    ensures (a + b)[|a + b| - 1] == b[|b| - 1]
  {
  }

  /** Lists the results when every call returned; the first exception otherwise aborts. */
  function Propagate<T>(rs: seq<Completion<T>>): (r: Completion<seq<T>>)
    ensures r.Returned? ==> |r.value| == |rs|
  {
    if rs == [] then Returned([])
    else match (rs[0], Propagate(rs[1..]))
      case (Returned(v), Returned(vs)) => Returned([v] + vs)
      case _ => Threw
  }

  /**
   * The whole sequence raises exactly when one element raised; otherwise it
   * returns every element's value, in order.
   */
  lemma {:induction false} PropagateSpec<T>(rs: seq<Completion<T>>)
    ensures Propagate(rs).Threw? <==> exists i :: 0 <= i < |rs| && rs[i].Threw?
    ensures Propagate(rs).Returned? ==>
      |Propagate(rs).value| == |rs| && forall i :: 0 <= i < |rs| ==> rs[i] == Returned(Propagate(rs).value[i])
  {
    if rs != [] {
      var tail := rs[1..];
      PropagateSpec(tail);
      if Propagate(rs).Threw? && !rs[0].Threw? {
        var j :| 0 <= j < |tail| && tail[j].Threw?;
        assert rs[j + 1].Threw?;
      }
      if exists i :: 0 <= i < |rs| && rs[i].Threw? {
        var i :| 0 <= i < |rs| && rs[i].Threw?;
        if i > 0 {
          assert tail[i - 1].Threw?;
        }
      }
      if Propagate(rs).Returned? {
        var vs := Propagate(rs).value;
        forall i | 0 <= i < |rs| ensures rs[i] == Returned(vs[i]) {
          if i > 0 {
            assert rs[i] == tail[i - 1];
          }
        }
      }
    }
  }

  /** An exception at any position is the outcome of the whole. */
  lemma PropagateThrew<T>(rs: seq<Completion<T>>, i: nat)
    requires i < |rs| && rs[i].Threw?
    ensures Propagate(rs) == Threw
  {
    PropagateSpec(rs);
  }

  /** When every call returned, the results are exactly the returned values. */
  lemma PropagateReturned<T>(rs: seq<Completion<T>>, values: seq<T>)
    requires |rs| == |values| && forall i :: 0 <= i < |rs| ==> rs[i] == Returned(values[i])
    ensures Propagate(rs) == Returned(values)
  {
    PropagateSpec(rs);
    var r := Propagate(rs);
    assert r.Returned?;
    assert r.value == values;
  }

  /** One more task extends the bucket of its category by its records and leaves the others. */
  lemma BucketStep(tasks: seq<TaskConfig>, data: seq<seq<Record>>, t: nat, records: seq<Record>, c: Category)
    requires t < |tasks| && |data| == t
    ensures Bucket(tasks[..t + 1], data + [records], c)
         == Bucket(tasks[..t], data, c) + (if Classify(tasks[t].name) == c then records else [])
  {
    var cats := Categories(tasks[..t + 1]);
    assert cats[..t] == Categories(tasks[..t]);
    assert cats[t] == Classify(tasks[t].name);
    assert (data + [records])[..t] == data;
  }

  /** The fetch_data results of a project's tasks, in configuration order. */
  function TaskResults(server: Server, repo: string, tasks: seq<TaskConfig>): (rs: seq<Completion<seq<Record>>>)
    ensures |rs| == |tasks|
  {
    if tasks == [] then []
    else [FetchedData(server, repo, tasks[0].JobFilter())] + TaskResults(server, repo, tasks[1..])
  }

  /** Entry `i` is the fetch_data of task `i`. */
  lemma {:induction false} TaskResultAt(server: Server, repo: string, tasks: seq<TaskConfig>, i: nat)
    requires i < |tasks|
    ensures TaskResults(server, repo, tasks)[i] == FetchedData(server, repo, tasks[i].JobFilter())
  {
    if i > 0 {
      TaskResultAt(server, repo, tasks[1..], i - 1);
    }
  }

  /** One project's buckets, or the exception a fetch_data raised. */
  function ProjectResult(server: Server, project: Project): Completion<ProjectDurations> {
    match Propagate(TaskResults(server, project.repository, project.tasks))
    case Threw => Threw
    case Returned(data) =>
      Returned(ProjectDurations(project,
        Bucket(project.tasks, data, UiTest), Bucket(project.tasks, data, Build), Bucket(project.tasks, data, TestApk)))
  }

  function ProjectResults(server: Server, projects: seq<Project>): (rs: seq<Completion<ProjectDurations>>)
    ensures |rs| == |projects|
  {
    seq(|projects|, i requires 0 <= i < |projects| => ProjectResult(server, projects[i]))
  }

  /** An exception from one task's fetch_data aborts the project. */
  lemma TaskThrew(server: Server, project: Project, t: nat)
    requires t < |project.tasks| && FetchedData(server, project.repository, project.tasks[t].JobFilter()).Threw?
    ensures ProjectResult(server, project) == Threw
  {
    TaskResultAt(server, project.repository, project.tasks, t);
    PropagateThrew(TaskResults(server, project.repository, project.tasks), t);
  }

  /** When every task's fetch_data returned, the buckets are built from those results. */
  lemma TasksReturned(server: Server, project: Project, data: seq<seq<Record>>)
    requires |data| == |project.tasks|
    requires forall i :: 0 <= i < |data| ==> TaskResults(server, project.repository, project.tasks)[i] == Returned(data[i])
    ensures ProjectResult(server, project) == Returned(ProjectDurations(project,
      Bucket(project.tasks, data, UiTest), Bucket(project.tasks, data, Build), Bucket(project.tasks, data, TestApk)))
  {
    PropagateReturned(TaskResults(server, project.repository, project.tasks), data);
  }

  /** What main collects for the configured projects before plotting. */
  function Collected(server: Server, projects: seq<Project>): Completion<seq<ProjectDurations>> {
    Propagate(ProjectResults(server, projects))
  }

  /** An exception while collecting one project ends the whole run. */
  lemma ProjectThrew(server: Server, projects: seq<Project>, p: nat)
    requires p < |projects| && ProjectResult(server, projects[p]).Threw?
    ensures Collected(server, projects).Threw?
  {
    assert ProjectResults(server, projects)[p].Threw?;
    PropagateThrew(ProjectResults(server, projects), p);
  }

  /**
   * The collection loops of main: the projects in configuration order, each
   * collected by CollectProject. An exception from fetch_data ends the run.
   */
  method CollectDurations(server: Server, projects: seq<Project>) returns (r: Completion<seq<ProjectDurations>>)
    ensures r == Collected(server, projects)
  {
    var treeherderClient := new TreeherderClientWrapper(server, TIMEOUT);
    var collected: seq<ProjectDurations> := [];
    ghost var results := ProjectResults(server, projects);
    for p := 0 to |projects|
      invariant |collected| == p
      invariant forall i :: 0 <= i < p ==> results[i] == Returned(collected[i])
    {
      var result := CollectProject(treeherderClient, projects[p]);
      assert results[p] == result;
      if result.Threw? {
        ProjectThrew(server, projects, p);
        return Threw;
      }
      collected := collected + [result.value];
    }
    PropagateReturned(results, collected);
    r := Returned(collected);
  }

  /**
   * The body of main's project loop: each task in turn is fetched to
   * completion and its records are appended to the first bucket its name
   * matches ("ui-test", then "build", then "test-apk"); other names are
   * dropped.
   */
  method CollectProject(treeherderClient: TreeherderClientWrapper, project: Project) returns (r: Completion<ProjectDurations>)
    ensures r == ProjectResult(treeherderClient.client, project)
  {
    var server := treeherderClient.client;
    var uiTestDurations: seq<Record> := [];
    var buildDurations: seq<Record> := [];
    var testDurations: seq<Record> := [];
    var repo := project.repository;
    ghost var results := TaskResults(server, repo, project.tasks);
    ghost var data: seq<seq<Record>> := [];
    for t := 0 to |project.tasks|
      invariant |data| == t
      invariant forall i :: 0 <= i < t ==> results[i] == Returned(data[i])
      invariant Routed(project.tasks[..t], data, uiTestDurations, buildDurations, testDurations)
    {
      var taskData;
      taskData, uiTestDurations, buildDurations, testDurations :=
        CollectTask(treeherderClient, project, t, data, uiTestDurations, buildDurations, testDurations);
      if taskData.Threw? {
        return Threw;
      }
      data := data + [taskData.value];
    }
    assert project.tasks[..|project.tasks|] == project.tasks;
    TasksReturned(server, project, data);
    r := Returned(ProjectDurations(project, uiTestDurations, buildDurations, testDurations));
  }

  /**
   * One pass of main's task loop: fetch_data for task `t`, then its records
   * appended to the bucket the task's name selects.
   */
  method CollectTask(treeherderClient: TreeherderClientWrapper, project: Project, t: nat, ghost data: seq<seq<Record>>,
                     uiTest: seq<Record>, build: seq<Record>, test: seq<Record>)
    returns (taskData: Completion<seq<Record>>, uiTest': seq<Record>, build': seq<Record>, test': seq<Record>)
    requires t < |project.tasks| && |data| == t && Routed(project.tasks[..t], data, uiTest, build, test)
    ensures taskData == TaskResults(treeherderClient.client, project.repository, project.tasks)[t]
    ensures taskData.Threw? ==> ProjectResult(treeherderClient.client, project) == Threw
    ensures taskData.Returned? ==> Routed(project.tasks[..t + 1], data + [taskData.value], uiTest', build', test')
  {
    var task := project.tasks[t];
    var issued;
    taskData, issued := treeherderClient.FetchData(project.repository, task.JobFilter());
    TaskResultAt(treeherderClient.client, project.repository, project.tasks, t);
    uiTest', build', test' := uiTest, build, test;
    if taskData.Threw? {
      TaskThrew(treeherderClient.client, project, t);
    } else {
      RoutedStep(project.tasks, data, t, taskData.value, uiTest, build, test);
      uiTest', build', test' := Route(task.name, taskData.value, uiTest, build, test);
    }
  }

  /** The three buckets hold what the tasks so far routed to them. */
  ghost predicate Routed(tasks: seq<TaskConfig>, data: seq<seq<Record>>, uiTest: seq<Record>, build: seq<Record>, test: seq<Record>)
    requires |data| == |tasks|
  {
    && uiTest == Bucket(tasks, data, UiTest)
    && build == Bucket(tasks, data, Build)
    && test == Bucket(tasks, data, TestApk)
  }

  lemma RoutedStep(tasks: seq<TaskConfig>, data: seq<seq<Record>>, t: nat, records: seq<Record>,
                   uiTest: seq<Record>, build: seq<Record>, test: seq<Record>)
    requires t < |tasks| && |data| == t && Routed(tasks[..t], data, uiTest, build, test)
    ensures Routed(tasks[..t + 1], data + [records],
      uiTest + (if Classify(tasks[t].name) == UiTest then records else []),
      build + (if Classify(tasks[t].name) == Build then records else []),
      test + (if Classify(tasks[t].name) == TestApk then records else []))
  {
    BucketStep(tasks, data, t, records, UiTest);
    BucketStep(tasks, data, t, records, Build);
    BucketStep(tasks, data, t, records, TestApk);
  }

  /**
   * The `if / elif / elif` inside main's task loop: the records go to the
   * first bucket whose word the name contains, or nowhere.
   */
  method Route(name: string, records: seq<Record>, uiTest: seq<Record>, build: seq<Record>, test: seq<Record>)
    returns (uiTest': seq<Record>, build': seq<Record>, test': seq<Record>)
    ensures uiTest' == uiTest + (if Classify(name) == UiTest then records else [])
    ensures build' == build + (if Classify(name) == Build then records else [])
    ensures test' == test + (if Classify(name) == TestApk then records else [])
  {
    uiTest', build', test' := uiTest, build, test;
    if Contains(name, UI_TEST_WORD) {
      uiTest' := uiTest + records;
    } else if Contains(name, BUILD_WORD) {
      build' := build + records;
    } else if Contains(name, TEST_APK_WORD) {
      test' := test + records;
    }
  }
}
