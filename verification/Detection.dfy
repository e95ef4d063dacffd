/** The detection runner of a debugger pod: it registers, runs the tasks, reports failures and terminates. */
module Detection {
  import opened Api
  import opened GoStrings

  datatype Task = Task(script: string, args: string)

  type TaskMap = map<string, Task>

  /** A decoded task file: category to task names. */
  datatype Detection = Detection(timestamp: string, tasks: map<string, seq<string>>)

  datatype Configuration = Configuration(taskFile: string, nodeName: string)

  // ---------- one task ----------

  /** How a command ended. A command killed by a signal has exit code -1. */
  datatype Exit = Finished | Exited(code: int) | NotRun

  datatype Attempt = Attempt(deadlineExceeded: bool, exit: Exit)

  predicate Passes(a: Attempt) {
    !a.deadlineExceeded && a.exit.Finished?
  }

  /** runTask after the command ended: the exit code it returns, and whether it returns an error. */
  method RunTask(a: Attempt) returns (exitCode: int, failed: bool)
    ensures failed <==> !Passes(a)
    ensures exitCode == 0 <==> Passes(a)
    ensures exitCode == 100 <==> !a.deadlineExceeded && a.exit == Exited(100)
    ensures exitCode in {0, 1, 100}
  {
    if a.deadlineExceeded {
      return 1, true;
    }
    if !a.exit.Finished? {
      if a.exit.Exited? {
        if a.exit.code == 100 {
          return 100, true;
        } else {
          return 1, true;
        }
      }
      return 1, true;
    }
    return 0, false;
  }

  // ---------- what a runner does, as a trace ----------

  datatype ReportValue = Text(value: string) | Checks(detection: string, status: string)

  datatype Event =
    | Register(nodeName: string, jobCount: string, timestamp: string, ok: bool)
    | Run(category: string, name: string, task: Task, failed: bool)
    | Report(body: map<string, ReportValue>, ok: bool)
    | Terminate(nodeName: string, timestamp: string, ok: bool)

  const NODE_NAME := "NodeName"
  const TIMESTAMP := "Timestamp"

  /** BuildNodeReport for one failed task: the category is a key beside the two fixed ones. */
  function NodeReport(nodeName: string, timestamp: string, category: string, name: string): map<string, ReportValue> {
    map[NODE_NAME := Text(nodeName)][category := Checks(name, "false")][TIMESTAMP := Text(timestamp)]
  }

  /** A report names its task unless the category is spelt like the timestamp, and its node unless spelt like that. */
  lemma ReportNamesIff(nodeName: string, timestamp: string, category: string, name: string)
    ensures var body := NodeReport(nodeName, timestamp, category, name);
            && ((exists key :: key in body && body[key] == Checks(name, "false")) <==> category != TIMESTAMP)
            && (NODE_NAME in body && body[NODE_NAME] == Text(nodeName) <==> category != NODE_NAME)
            && TIMESTAMP in body && body[TIMESTAMP] == Text(timestamp)
  {
    var body := NodeReport(nodeName, timestamp, category, name);
    assert NODE_NAME[0] != TIMESTAMP[0];
    if category != TIMESTAMP {
      assert category in body && body[category] == Checks(name, "false");
    }
  }

  /** The answers a runner gets from outside: attempts and report replies are numbered by executed task. */
  datatype Answers = Answers(
    file: Option<Detection>,
    registerOk: bool,
    attempt: nat -> Attempt,
    reportOk: nat -> bool,
    terminateOk: bool)

  /** One execution to come: a listed name that the task map knows. */
  datatype Job = Job(category: string, name: string, task: Task)

  function JobsOf(taskMap: TaskMap, category: string, names: seq<string>): seq<Job> {
    if names == [] then []
    else
      (if names[0] in taskMap then [Job(category, names[0], taskMap[names[0]])] else [])
      + JobsOf(taskMap, category, names[1..])
  }

  /** The jobs in the order in which they run when the categories come in this order. */
  function Jobs(taskMap: TaskMap, tasks: map<string, seq<string>>, order: seq<string>): seq<Job>
    requires forall c :: c in order ==> c in tasks
  {
    if order == [] then [] else JobsOf(taskMap, order[0], tasks[order[0]]) + Jobs(taskMap, tasks, order[1..])
  }

  // ---------- which listed names become jobs ----------

  /** A name that the task map knows, by its category and its place in the list of the category. */
  ghost predicate KnownAt(taskMap: TaskMap, tasks: map<string, seq<string>>, c: string, i: nat) {
    c in tasks && i < |tasks[c]| && tasks[c][i] in taskMap
  }

  /** All such places: what there is to run, whatever the order. */
  ghost function KnownPlaces(taskMap: TaskMap, tasks: map<string, seq<string>>): set<(string, nat)> {
    set c, i: nat | c in tasks && i < |tasks[c]| && KnownAt(taskMap, tasks, c, i) :: (c, i)
  }

  /** From this place on: job number n is the name at place p[n], the places rise, and no known name is left out. */
  ghost predicate InOrder(
    taskMap: TaskMap, category: string, names: seq<string>, from: nat, jobs: seq<Job>, p: seq<nat>)
  {
    && |p| == |jobs|
    && (forall i: nat {:trigger i in p} :: i in p <==> from <= i < |names| && names[i] in taskMap)
    && (forall m, n :: 0 <= m < n < |p| ==> p[m] < p[n])
    && (forall n :: 0 <= n < |p| ==> p[n] in p && jobs[n] == Job(category, names[p[n]], taskMap[names[p[n]]]))
  }

  lemma {:induction false} JobsKeepOrderFrom(taskMap: TaskMap, category: string, names: seq<string>, from: nat)
    returns (p: seq<nat>)
    requires from <= |names|
    ensures InOrder(taskMap, category, names, from, JobsOf(taskMap, category, names[from..]), p)
    decreases |names| - from
  {
    if from == |names| {
      p := [];
    } else {
      var q := JobsKeepOrderFrom(taskMap, category, names, from + 1);
      assert names[from..][1..] == names[from + 1..] && names[from..][0] == names[from];
      p := if names[from] in taskMap then [from] + q else q;
      assert forall i: nat :: i in p <==> i in q || (i == from && names[from] in taskMap);
    }
  }

  /** The jobs of one category are its known names in the order of its list. */
  lemma JobsKeepOrder(taskMap: TaskMap, category: string, names: seq<string>) returns (p: seq<nat>)
    ensures InOrder(taskMap, category, names, 0, JobsOf(taskMap, category, names), p)
  {
    p := JobsKeepOrderFrom(taskMap, category, names, 0);
    assert names[0..] == names;
  }

  /** How often a job is met: as often as its category lists its name, and the task is the one that the map has. */
  lemma {:induction false} JobsOfCount(taskMap: TaskMap, category: string, names: seq<string>, job: Job)
    ensures multiset(JobsOf(taskMap, category, names))[job] ==
            if job.category == category && job.name in taskMap && taskMap[job.name] == job.task
            then multiset(names)[job.name] else 0
  {
    if names != [] {
      JobsOfCount(taskMap, category, names[1..], job);
      assert names == [names[0]] + names[1..];
    }
  }

  lemma {:induction false} JobsCountIn(
    taskMap: TaskMap, tasks: map<string, seq<string>>, order: seq<string>, job: Job)
    requires (forall c :: c in order ==> c in tasks) && Distinct(order)
    ensures multiset(Jobs(taskMap, tasks, order))[job] ==
            if job.category in order && job.name in taskMap && taskMap[job.name] == job.task
            then multiset(tasks[job.category])[job.name] else 0
  {
    if order != [] {
      assert order == [order[0]] + order[1..];
      assert order[0] !in order[1..];
      JobsCountIn(taskMap, tasks, order[1..], job);
      JobsOfCount(taskMap, order[0], tasks[order[0]], job);
      hide JobsOf;
    }
  }

  /** A runner meets a job exactly as often as the task file lists it, in any iteration order. */
  lemma JobsCount(taskMap: TaskMap, tasks: map<string, seq<string>>, order: seq<string>, job: Job)
    requires IsOrder(order, tasks)
    ensures multiset(Jobs(taskMap, tasks, order))[job] ==
            if job.category in tasks && job.name in taskMap && taskMap[job.name] == job.task
            then multiset(tasks[job.category])[job.name] else 0
  {
    JobsCountIn(taskMap, tasks, order, job);
    hide Jobs;
  }

  lemma {:induction false} JobsOfPlaces(taskMap: TaskMap, tasks: map<string, seq<string>>, c: string, n: nat)
    requires c in tasks && n <= |tasks[c]|
    ensures |JobsOf(taskMap, c, tasks[c][n..])| ==
            |set i: nat | n <= i < |tasks[c]| && KnownAt(taskMap, tasks, c, i) :: (c, i)|
    decreases |tasks[c]| - n
  {
    var here := set i: nat | n <= i < |tasks[c]| && KnownAt(taskMap, tasks, c, i) :: (c, i);
    if n < |tasks[c]| {
      JobsOfPlaces(taskMap, tasks, c, n + 1);
      var rest := set i: nat | n + 1 <= i < |tasks[c]| && KnownAt(taskMap, tasks, c, i) :: (c, i);
      assert tasks[c][n..][1..] == tasks[c][n + 1..];
      assert here == if tasks[c][n] in taskMap then rest + {(c, n)} else rest;
    } else {
      assert here == {};
    }
  }

  lemma {:induction false} JobsPlaces(taskMap: TaskMap, tasks: map<string, seq<string>>, order: seq<string>)
    requires (forall c :: c in order ==> c in tasks) && Distinct(order)
    ensures |Jobs(taskMap, tasks, order)| == |set p | p in KnownPlaces(taskMap, tasks) && p.0 in order|
  {
    var all := set p | p in KnownPlaces(taskMap, tasks) && p.0 in order;
    if order == [] {
      assert all == {};
    } else {
      var c := order[0];
      JobsPlaces(taskMap, tasks, order[1..]);
      JobsOfPlaces(taskMap, tasks, c, 0);
      assert tasks[c][0..] == tasks[c] && order == [c] + order[1..] && c !in order[1..];
      var here := set i: nat | 0 <= i < |tasks[c]| && KnownAt(taskMap, tasks, c, i) :: (c, i);
      var rest := set p | p in KnownPlaces(taskMap, tasks) && p.0 in order[1..];
      hide JobsOf;
      assert all == here + rest && here * rest == {};
    }
  }

  /** The number of jobs is the number of places where the task file has a known name. */
  lemma JobsAreKnownPlaces(taskMap: TaskMap, tasks: map<string, seq<string>>, order: seq<string>)
    requires IsOrder(order, tasks)
    ensures |Jobs(taskMap, tasks, order)| == |KnownPlaces(taskMap, tasks)|
  {
    JobsPlaces(taskMap, tasks, order);
    assert KnownPlaces(taskMap, tasks) == set p | p in KnownPlaces(taskMap, tasks) && p.0 in order;
  }

  ghost predicate Distinct(names: seq<string>) {
    forall i, j :: 0 <= i < j < |names| ==> names[i] != names[j]
  }

  /** One possible iteration order of a Go map. */
  ghost predicate IsOrder<V>(order: seq<string>, m: map<string, V>) {
    (forall c :: c in order <==> c in m) && Distinct(order)
  }

  /** The events of one task: it runs, and if it fails that is reported. */
  function RunOne(node: string, timestamp: string, job: Job, n: nat, a: Answers): seq<Event> {
    [Run(job.category, job.name, job.task, !Passes(a.attempt(n)))]
    + if Passes(a.attempt(n)) then [] else [Report(NodeReport(node, timestamp, job.category, job.name), a.reportOk(n))]
  }

  function RunAll(node: string, timestamp: string, jobs: seq<Job>, n: nat, a: Answers): seq<Event> {
    if jobs == [] then []
    else RunOne(node, timestamp, jobs[0], n, a) + RunAll(node, timestamp, jobs[1..], n + 1, a)
  }

  /** The failing attempts among count attempts from number n on. */
  function Failures(count: nat, n: nat, a: Answers): (f: nat)
    ensures f <= count
  {
    if count == 0 then 0 else (if Passes(a.attempt(n)) then 0 else 1) + Failures(count - 1, n + 1, a)
  }

  /** Everything a runner does once it knows its jobs. */
  function Session(node: string, timestamp: string, jobs: seq<Job>, a: Answers): seq<Event> {
    if jobs == [] then []
    else
      [Register(node, Itoa(|jobs|), timestamp, a.registerOk)]
      + if !a.registerOk then [] else RunAll(node, timestamp, jobs, 0, a) + [Terminate(node, timestamp, a.terminateOk)]
  }

  /** The figures of the closing log line. */
  datatype Summary = Summary(valid: nat, success: nat, failed: nat)

  /** What a runner has done so far. */
  datatype Tally = Tally(events: seq<Event>, success: nat, failed: nat)

  /** What it has done once these jobs ran too, from attempt number n on. */
  function After(node: string, timestamp: string, t: Tally, jobs: seq<Job>, n: nat, a: Answers): Tally {
    Tally(t.events + RunAll(node, timestamp, jobs, n, a),
          t.success + |jobs| - Failures(|jobs|, n, a),
          t.failed + Failures(|jobs|, n, a))
  }

  // ---------- the runner ----------

  method CountValidTasks(
    taskMap: TaskMap, tasks: map<string, seq<string>>, order: seq<string>) returns (validCount: nat)
    requires IsOrder(order, tasks)
    ensures validCount == |KnownPlaces(taskMap, tasks)|
  {
    JobsAreKnownPlaces(taskMap, tasks, order);
    validCount := 0;
    for i := 0 to |order|
      invariant validCount + |Jobs(taskMap, tasks, order[i..])| == |Jobs(taskMap, tasks, order)|
    {
      var names := tasks[order[i]];
      assert order[i..][1..] == order[i + 1..];
      ghost var before := validCount;
      for j := 0 to |names|
        invariant validCount + |JobsOf(taskMap, order[i], names[j..])| == before + |JobsOf(taskMap, order[i], names)|
      {
        assert names[j..][1..] == names[j + 1..];
        if names[j] in taskMap {
          validCount := validCount + 1;
        }
      }
    }
  }

  class Runner {
    var events: seq<Event>
    var successCount: nat
    var failCount: nat

    constructor ()
      ensures events == [] && successCount == 0 && failCount == 0
    {
      events, successCount, failCount := [], 0, 0;
    }

    ghost function Now(): Tally
      reads this
    {
      Tally(events, successCount, failCount)
    }

    /** The body of the inner loop for a known task. */
    method RunJob(node: string, timestamp: string, job: Job, n: nat, a: Answers)
      modifies this
      ensures Now() == After(node, timestamp, old(Now()), [job], n, a)
    {
      var exitCode, failed := RunTask(a.attempt(n));
      ghost var before := events;
      events := events + [Run(job.category, job.name, job.task, failed)];
      if failed {
        failCount := failCount + 1;
        events := events + [Report(NodeReport(node, timestamp, job.category, job.name), a.reportOk(n))];
      } else {
        successCount := successCount + 1;
      }
      AfterOne(node, timestamp, old(Now()), job, n, a);
    }

    /** The inner loop: one category, from attempt number n on. */
    method RunCategory(
      taskMap: TaskMap, node: string, timestamp: string, category: string, names: seq<string>, n: nat, a: Answers)
      returns (m: nat)
      modifies this
      ensures m == n + |JobsOf(taskMap, category, names)|
      ensures Now() == After(node, timestamp, old(Now()), JobsOf(taskMap, category, names), n, a)
    {
      m := n;
      ghost var jobs := JobsOf(taskMap, category, names);
      assert names[0..] == names;
      for j := 0 to |names|
        invariant m + |JobsOf(taskMap, category, names[j..])| == n + |jobs|
        invariant After(node, timestamp, Now(), JobsOf(taskMap, category, names[j..]), m, a) ==
                  After(node, timestamp, old(Now()), jobs, n, a)
      {
        assert names[j..][1..] == names[j + 1..];
        if names[j] in taskMap {
          var job := Job(category, names[j], taskMap[names[j]]);
          ghost var rest := JobsOf(taskMap, category, names[j + 1..]);
          assert JobsOf(taskMap, category, names[j..]) == [job] + rest;
          hide After, JobsOf;
          AfterConcat(node, timestamp, Now(), [job], rest, m, a);
          RunJob(node, timestamp, job, m, a);
          m := m + 1;
        } else {
          assert JobsOf(taskMap, category, names[j..]) == JobsOf(taskMap, category, names[j + 1..]);
        }
      }
      AfterNone(node, timestamp, Now(), m, a);
    }

    /** The outer loop. */
    method RunCategories(
      taskMap: TaskMap, node: string, timestamp: string, tasks: map<string, seq<string>>, order: seq<string>,
      a: Answers)
      requires IsOrder(order, tasks)
      modifies this
      ensures Now() == After(node, timestamp, old(Now()), Jobs(taskMap, tasks, order), 0, a)
    {
      var n: nat := 0;
      assert order[0..] == order;
      for i := 0 to |order|
        invariant After(node, timestamp, Now(), Jobs(taskMap, tasks, order[i..]), n, a) ==
                  After(node, timestamp, old(Now()), Jobs(taskMap, tasks, order), 0, a)
      {
        assert order[i..][1..] == order[i + 1..];
        ghost var here, rest := JobsOf(taskMap, order[i], tasks[order[i]]), Jobs(taskMap, tasks, order[i + 1..]);
        assert Jobs(taskMap, tasks, order[i..]) == here + rest;
        hide *;
        AfterConcat(node, timestamp, Now(), here, rest, n, a);
        n := RunCategory(taskMap, node, timestamp, order[i], tasks[order[i]], n, a);
      }
      AfterNone(node, timestamp, Now(), n, a);
    }

    method StartDebugger(taskMap: TaskMap, cfg: Configuration, a: Answers, counting: seq<string>, running: seq<string>)
      returns (summary: Option<Summary>)
      requires events == [] && successCount == 0 && failCount == 0
      requires a.file.Some? ==> IsOrder(counting, a.file.value.tasks) && IsOrder(running, a.file.value.tasks)
      modifies this
      ensures events == if !Startable(cfg, a) then []
                        else Session(cfg.nodeName, a.file.value.timestamp,
                                     Jobs(taskMap, a.file.value.tasks, running), a)
      ensures summary == if !Startable(cfg, a) then None else Closing(|KnownPlaces(taskMap, a.file.value.tasks)|, a)
    {
      if cfg.taskFile == "" {
        return None;
      }
      if cfg.nodeName == "" {
        return None;
      }
      if a.file.None? {
        return None;
      }
      var Detection(timestamp, tasks) := a.file.value;
      ghost var jobs := Jobs(taskMap, tasks, running);
      hide KnownPlaces, Jobs;
      var validCount := CountValidTasks(taskMap, tasks, counting);
      JobsAreKnownPlaces(taskMap, tasks, running);
      if validCount == 0 {
        return None;
      }
      events := events + [Register(cfg.nodeName, Itoa(validCount), timestamp, a.registerOk)];
      if !a.registerOk {
        return None;
      }
      RunCategories(taskMap, cfg.nodeName, timestamp, tasks, running, a);
      events := events + [Terminate(cfg.nodeName, timestamp, a.terminateOk)];
      if !a.terminateOk {
        return None;
      }
      return Some(Summary(validCount, successCount, failCount));
    }
  }

  /** The guards before the first post, except for the one on the number of tasks. */
  predicate Startable(cfg: Configuration, a: Answers) {
    cfg.taskFile != "" && cfg.nodeName != "" && a.file.Some?
  }

  /** The closing log line is written when every post that can stop the runner went through. */
  function Closing(count: nat, a: Answers): Option<Summary> {
    if count > 0 && a.registerOk && a.terminateOk then
      Some(Summary(count, count - Failures(count, 0, a), Failures(count, 0, a)))
    else None
  }

  lemma {:induction false} RunAllConcat(
    node: string, timestamp: string, some: seq<Job>, more: seq<Job>, n: nat, a: Answers)
    ensures RunAll(node, timestamp, some + more, n, a) ==
            RunAll(node, timestamp, some, n, a) + RunAll(node, timestamp, more, n + |some|, a)
    decreases |some|
  {
    hide RunOne;
    if some == [] {
      assert some + more == more;
    } else {
      RunAllConcat(node, timestamp, some[1..], more, n + 1, a);
      assert (some + more)[1..] == some[1..] + more;
    }
  }

  lemma {:induction false} FailuresConcat(some: nat, more: nat, n: nat, a: Answers)
    ensures Failures(some + more, n, a) == Failures(some, n, a) + Failures(more, n + some, a)
  {
    if some > 0 {
      FailuresConcat(some - 1, more, n + 1, a);
    }
  }

  lemma AfterNone(node: string, timestamp: string, t: Tally, n: nat, a: Answers)
    ensures After(node, timestamp, t, [], n, a) == t
  {
    assert t.events + RunAll(node, timestamp, [], n, a) == t.events;
  }

  lemma AfterOne(node: string, timestamp: string, t: Tally, job: Job, n: nat, a: Answers)
    ensures After(node, timestamp, t, [job], n, a).events == t.events + RunOne(node, timestamp, job, n, a)
    ensures Failures(1, n, a) == if Passes(a.attempt(n)) then 0 else 1
  {
    hide RunOne, Passes;
    assert RunAll(node, timestamp, [job][1..], n + 1, a) == [];
    assert RunAll(node, timestamp, [job], n, a) == RunOne(node, timestamp, job, n, a);
    assert Failures(0, n + 1, a) == 0;
  }

  lemma AfterConcat(node: string, timestamp: string, t: Tally, some: seq<Job>, more: seq<Job>, n: nat, a: Answers)
    ensures After(node, timestamp, t, some + more, n, a) ==
            After(node, timestamp, After(node, timestamp, t, some, n, a), more, n + |some|, a)
  {
    RunAllConcat(node, timestamp, some, more, n, a);
    FailuresConcat(|some|, |more|, n, a);
    hide RunAll, Failures;
  }

  // ---------- the order of a map does not matter ----------

  lemma {:induction false} JobsMove(
    taskMap: TaskMap, tasks: map<string, seq<string>>, before: seq<string>, c: string, after: seq<string>)
    requires forall k :: k in before + [c] + after ==> k in tasks
    ensures multiset(Jobs(taskMap, tasks, before + [c] + after)) ==
            multiset(JobsOf(taskMap, c, tasks[c])) + multiset(Jobs(taskMap, tasks, before + after))
    decreases |before|
  {
    hide JobsOf;
    if before == [] {
      assert [] + [c] + after == [c] + after;
      assert [] + after == after;
    } else {
      assert (before + [c] + after)[1..] == before[1..] + [c] + after;
      assert (before + after)[1..] == before[1..] + after;
      assert before[0] in before + [c] + after;
      forall k | k in before[1..] + [c] + after
        ensures k in tasks
      {
        assert k in before + [c] + after;
      }
      JobsMove(taskMap, tasks, before[1..], c, after);
    }
  }

  /** Two iterations over the same map meet the same jobs, each as often. */
  lemma {:induction false} SameJobs(
    taskMap: TaskMap, tasks: map<string, seq<string>>, some: seq<string>, other: seq<string>)
    requires IsOrder(some, tasks) && IsOrder(other, tasks)
    ensures multiset(Jobs(taskMap, tasks, some)) == multiset(Jobs(taskMap, tasks, other))
    decreases |some|
  {
    SameJobsOf(taskMap, tasks, some, other);
  }

  /** Without one of its elements, a list of distinct names stays distinct and no longer has it. */
  lemma DistinctRest(before: seq<string>, c: string, after: seq<string>)
    requires Distinct(before + [c] + after)
    ensures Distinct(before + after) && c !in before + after
  {
    var all, rest := before + [c] + after, before + after;
    assert all[|before|] == c;
    forall i, j | 0 <= i < j < |rest|
      ensures rest[i] != rest[j]
    {
      assert rest[i] == all[if i < |before| then i else i + 1];
      assert rest[j] == all[if j < |before| then j else j + 1];
    }
    forall i | 0 <= i < |rest|
      ensures rest[i] != c
    {
      assert rest[i] == all[if i < |before| then i else i + 1];
    }
  }

  lemma SameElements(some: seq<string>, c: string, someRest: seq<string>, other: seq<string>, otherRest: seq<string>)
    requires forall k :: k in some <==> k in other
    requires (forall k :: k in some <==> k == c || k in someRest) && c !in someRest
    requires (forall k :: k in other <==> k == c || k in otherRest) && c !in otherRest
    ensures forall k :: k in someRest <==> k in otherRest
  {
    forall k
      ensures k in someRest <==> k in otherRest
    {
      assert k in some <==> k in other;
    }
  }

  lemma HasElement(names: seq<string>)
    requires names != []
    ensures exists c :: c in names
  {
    assert names[0] in names;
  }

  /** The same for parts of the map: orders of the same categories. */
  lemma {:induction false} SameJobsOf(
    taskMap: TaskMap, tasks: map<string, seq<string>>, some: seq<string>, other: seq<string>)
    requires forall c :: c in some <==> c in other
    requires forall c :: c in some ==> c in tasks
    requires Distinct(some) && Distinct(other)
    ensures multiset(Jobs(taskMap, tasks, some)) == multiset(Jobs(taskMap, tasks, other))
    decreases |some|
  {
    hide JobsOf;
    if some == [] {
      if other != [] {
        HasElement(other);
        assert false;
      }
    } else {
      var rest := Without(some, other);
      assert Jobs(taskMap, tasks, some) == JobsOf(taskMap, some[0], tasks[some[0]]) + Jobs(taskMap, tasks, some[1..]);
      var i :| 0 <= i < |other| && other[i] == some[0] && rest == other[..i] + other[i + 1..];
      assert other == other[..i] + [some[0]] + other[i + 1..];
      hide Distinct, Jobs, JobsOf;
      JobsMove(taskMap, tasks, other[..i], some[0], other[i + 1..]);
      SameJobsOf(taskMap, tasks, some[1..], rest);
    }
  }

  /** Two orders of the same names, each without the first name of one of them. */
  lemma Without(some: seq<string>, other: seq<string>) returns (rest: seq<string>)
    requires some != [] && Distinct(some) && Distinct(other)
    requires forall c :: c in some <==> c in other
    ensures exists i :: 0 <= i < |other| && other[i] == some[0] && rest == other[..i] + other[i + 1..]
    ensures Distinct(some[1..]) && Distinct(rest)
    ensures forall c :: c in some[1..] <==> c in rest
  {
    var c := some[0];
    assert c in other;
    var i :| 0 <= i < |other| && other[i] == c;
    var before, after := other[..i], other[i + 1..];
    rest := before + after;
    assert other == before + [c] + after;
    DistinctRest(before, c, after);
    DistinctRest([], c, some[1..]);
    assert [] + [c] + some[1..] == some && [] + some[1..] == some[1..];
    hide Distinct;
    SameElements(some, c, some[1..], other, rest);
  }

  // ---------- what a trace may look like ----------

  /** A monitor that reads a trace event by event. */
  datatype Phase =
    | Idle
    | Refused
    | Running(passed: nat, reported: nat)
    | OwesReport(category: string, name: string, passed: nat, reported: nat)
    | Closed(passed: nat, reported: nat)
    | Wrong

  function Observe(node: string, timestamp: string, p: Phase, e: Event): Phase {
    match e
    case Register(n, _, t, ok) =>
      if !(p.Idle? && n == node && t == timestamp) then Wrong else if ok then Running(0, 0) else Refused
    case Run(category, name, _, failed) =>
      if !p.Running? then Wrong
      else if failed then OwesReport(category, name, p.passed, p.reported)
      else Running(p.passed + 1, p.reported)
    case Report(body, _) =>
      if p.OwesReport? && body == NodeReport(node, timestamp, p.category, p.name) then Running(p.passed, p.reported + 1)
      else Wrong
    case Terminate(n, t, _) =>
      if p.Running? && n == node && t == timestamp then Closed(p.passed, p.reported) else Wrong
  }

  function Monitor(node: string, timestamp: string, p: Phase, trace: seq<Event>): Phase
    decreases |trace|
  {
    if trace == [] then p else Monitor(node, timestamp, Observe(node, timestamp, p, trace[0]), trace[1..])
  }

  lemma {:induction false} MonitorConcat(node: string, timestamp: string, p: Phase, some: seq<Event>, more: seq<Event>)
    ensures Monitor(node, timestamp, p, some + more) ==
            Monitor(node, timestamp, Monitor(node, timestamp, p, some), more)
    decreases |some|
  {
    hide Observe;
    if some == [] {
      assert some + more == more;
    } else {
      assert (some + more)[1..] == some[1..] + more;
      MonitorConcat(node, timestamp, Observe(node, timestamp, p, some[0]), some[1..], more);
    }
  }

  lemma RunOneMonitored(node: string, timestamp: string, job: Job, n: nat, a: Answers, p: Phase)
    requires p.Running?
    ensures Monitor(node, timestamp, p, RunOne(node, timestamp, job, n, a)) ==
            if Passes(a.attempt(n)) then Running(p.passed + 1, p.reported) else Running(p.passed, p.reported + 1)
  {
    hide NodeReport;
    var one := RunOne(node, timestamp, job, n, a);
    var ran := Observe(node, timestamp, p, one[0]);
    if Passes(a.attempt(n)) {
      assert one == [one[0]];
      assert Monitor(node, timestamp, ran, one[1..]) == ran;
    } else {
      assert one[1..] == [one[1]];
      assert Monitor(node, timestamp, ran, [one[1]]) == Observe(node, timestamp, ran, one[1]) by {
        assert [one[1]][1..] == [];
      }
    }
  }

  lemma {:induction false} RunAllMonitored(
    node: string, timestamp: string, jobs: seq<Job>, n: nat, a: Answers, p: Phase)
    requires p.Running?
    ensures Monitor(node, timestamp, p, RunAll(node, timestamp, jobs, n, a)) ==
            Running(p.passed + |jobs| - Failures(|jobs|, n, a), p.reported + Failures(|jobs|, n, a))
    decreases |jobs|
  {
    if jobs != [] {
      var one := RunOne(node, timestamp, jobs[0], n, a);
      hide RunOne, Observe;
      MonitorConcat(node, timestamp, p, one, RunAll(node, timestamp, jobs[1..], n + 1, a));
      RunOneMonitored(node, timestamp, jobs[0], n, a, p);
      var next := Monitor(node, timestamp, p, one);
      RunAllMonitored(node, timestamp, jobs[1..], n + 1, a, next);
    }
  }

  /**
    A session is silent without jobs, a refused Register, or a Register, then the runs, each failed one
    followed at once by its report, then a Terminate; its passes and reports add up to the job count
    that was registered, and are the figures of the closing log line.
   */
  lemma SessionIsMonitored(node: string, timestamp: string, jobs: seq<Job>, a: Answers)
    ensures var trace := Session(node, timestamp, jobs, a);
            var last := Monitor(node, timestamp, Idle, trace);
            && (jobs == [] ==> trace == [])
            && (jobs != [] && !a.registerOk ==> |trace| == 1 && last == Refused)
            && (jobs != [] && a.registerOk ==>
                  && last.Closed?
                  && last.passed + last.reported == |jobs|
                  && trace[0] == Register(node, Itoa(last.passed + last.reported), timestamp, true)
                  && (a.terminateOk ==> Closing(|jobs|, a) == Some(Summary(|jobs|, last.passed, last.reported))))
  {
    hide Itoa;
    var trace := Session(node, timestamp, jobs, a);
    if jobs != [] && a.registerOk {
      var register, runs, terminate :=
        Register(node, Itoa(|jobs|), timestamp, true),
        RunAll(node, timestamp, jobs, 0, a),
        Terminate(node, timestamp, a.terminateOk);
      assert trace == [register] + runs + [terminate];
      RunAllMonitored(node, timestamp, jobs, 0, a, Running(0, 0));
      assert trace[1..] == runs + [terminate];
      MonitorConcat(node, timestamp, Running(0, 0), runs, [terminate]);
    }
  }

  function RunIn(e: Event): seq<Job> {
    if e.Run? then [Job(e.category, e.name, e.task)] else []
  }

  function Runs(trace: seq<Event>): seq<Job> {
    if trace == [] then [] else RunIn(trace[0]) + Runs(trace[1..])
  }

  lemma {:induction false} RunsConcat(some: seq<Event>, more: seq<Event>)
    ensures Runs(some + more) == Runs(some) + Runs(more)
    decreases |some|
  {
    hide RunIn;
    if some == [] {
      assert some + more == more;
    } else {
      assert (some + more)[1..] == some[1..] + more;
      RunsConcat(some[1..], more);
    }
  }

  lemma {:induction false} RunAllRuns(node: string, timestamp: string, jobs: seq<Job>, n: nat, a: Answers)
    ensures Runs(RunAll(node, timestamp, jobs, n, a)) == jobs
    decreases |jobs|
  {
    hide NodeReport;
    if jobs != [] {
      var one := RunOne(node, timestamp, jobs[0], n, a);
      RunsConcat(one, RunAll(node, timestamp, jobs[1..], n + 1, a));
      assert Runs(one) == [jobs[0]] by {
        if !Passes(a.attempt(n)) {
          assert one[1..] == [one[1]];
        }
      }
      RunAllRuns(node, timestamp, jobs[1..], n + 1, a);
    }
  }

  /** Exactly the jobs run, in their order, and none unless the runner could register. */
  lemma SessionRuns(node: string, timestamp: string, jobs: seq<Job>, a: Answers)
    ensures Runs(Session(node, timestamp, jobs, a)) == if a.registerOk then jobs else []
  {
    hide Itoa;
    if jobs != [] && a.registerOk {
      var runs, terminate := RunAll(node, timestamp, jobs, 0, a), [Terminate(node, timestamp, a.terminateOk)];
      assert Session(node, timestamp, jobs, a)[1..] == runs + terminate;
      RunsConcat(runs, terminate);
      RunAllRuns(node, timestamp, jobs, 0, a);
    }
  }

  /**
    Two runners with the same task file that register alike agree on the registered count and run the
    same jobs equally often, whatever order their maps iterate in and however the attempts end.
   */
  lemma RunnersAgree(
    taskMap: TaskMap, node: string, d: Detection, some: seq<string>, other: seq<string>, a: Answers, b: Answers)
    requires IsOrder(some, d.tasks) && IsOrder(other, d.tasks) && a.registerOk == b.registerOk
    ensures var s := Session(node, d.timestamp, Jobs(taskMap, d.tasks, some), a);
            var t := Session(node, d.timestamp, Jobs(taskMap, d.tasks, other), b);
            && multiset(Runs(s)) == multiset(Runs(t))
            && (s == [] <==> t == [])
            && (s != [] ==> s[0] == t[0])
  {
    SameJobs(taskMap, d.tasks, some, other);
    JobsAreKnownPlaces(taskMap, d.tasks, some);
    JobsAreKnownPlaces(taskMap, d.tasks, other);
    hide KnownPlaces;
    SessionRuns(node, d.timestamp, Jobs(taskMap, d.tasks, some), a);
    SessionRuns(node, d.timestamp, Jobs(taskMap, d.tasks, other), b);
    hide Itoa, Jobs, RunAll, Runs;
  }

  /**
    What the task file makes of a session: a runner that registers announces the number of known names, runs each of
    them as often as its category lists it, with the script and arguments of the task map, and runs nothing else.
   */
  lemma SessionRunsTheFile(
    taskMap: TaskMap, node: string, d: Detection, order: seq<string>, a: Answers, job: Job)
    requires IsOrder(order, d.tasks)
    ensures var known := |KnownPlaces(taskMap, d.tasks)|;
            var trace := Session(node, d.timestamp, Jobs(taskMap, d.tasks, order), a);
            && (trace == [] <==> known == 0)
            && (known > 0 ==> trace[0] == Register(node, Itoa(known), d.timestamp, a.registerOk))
            && multiset(Runs(trace))[job] ==
                 if a.registerOk && job.category in d.tasks && job.name in taskMap && taskMap[job.name] == job.task
                 then multiset(d.tasks[job.category])[job.name] else 0
  {
    JobsAreKnownPlaces(taskMap, d.tasks, order);
    JobsCount(taskMap, d.tasks, order, job);
    SessionRuns(node, d.timestamp, Jobs(taskMap, d.tasks, order), a);
    hide Itoa, Jobs, RunAll, Runs, KnownPlaces, IsOrder;
  }
}
