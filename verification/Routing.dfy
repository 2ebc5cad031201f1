/** Which service runs a job (internal/router/classifier.go) and how many tasks it gets
    (internal/navigator/builder.go): two readings of the same environment variables. */
module Routing {
  import opened Wrappers

  const MODE := "ENABLE_DISTRIBUTED_MODE"
  const TASK_COUNT := "JENNAH_TASK_COUNT"
  const PARALLELISM := "JENNAH_PARALLELISM"

  const MEDIUM_CPU_MILLIS_MAX := 4000
  const MEDIUM_MEMORY_MIB_MAX := 8192
  const MEDIUM_DURATION_SEC_MAX := 3600
  const DEFAULT_DISTRIBUTED_TASK_COUNT := 4

  type Environment = map<string, string>

  /** strings.TrimSpace, strings.ToLower, strings.EqualFold, and strconv.ParseInt with None for its errors. */
  datatype Library = Library(
    trim: string -> string,
    lower: string -> string,
    fold: (string, string) -> bool,
    parse: string -> Option<int>)

  /** What is used of them: no other character folds with a letter of "true", "" is no number, and
      trimming nothing does not give a "true". */
  ghost predicate Lawful(lib: Library) {
    && (forall s :: lib.fold(s, "true") ==> lib.lower(s) == "true")
    && lib.parse("") == None
    && !lib.fold(lib.trim(""), "true")
  }

  datatype ResourceOverride = ResourceOverride(cpuMillis: int, memoryMiB: int, durationSec: int)

  datatype Request = Request(env: Environment, machineType: string, resources: Option<ResourceOverride>)

  datatype Complexity = Simple | Complex

  datatype Service = CloudRunJob | CloudBatch

  datatype Decision = Decision(complexity: Complexity, service: Service)

  const ON_BATCH := Decision(Complex, CloudBatch)
  const ON_CLOUD_RUN := Decision(Simple, CloudRunJob)

  // ----- The classifier

  /** What a lookup may find: the exact key's value, else that of any key equal under case folding. */
  predicate Found(lib: Library, env: Environment, key: string, found: Option<string>) {
    if key in env then found == Some(env[key])
    else if found.Some? then exists k :: k in env && lib.fold(k, key) && env[k] == found.value
    else forall k :: k in env ==> !lib.fold(k, key)
  }

  /** The keys are visited in any order. */
  method LookupEnvVar(lib: Library, env: Environment, key: string) returns (found: Option<string>)
    ensures Found(lib, env, key, found)
    ensures key in env ==> found == Some(env[key])
    ensures key !in env && found.Some? ==> exists k :: k in env && lib.fold(k, key) && env[k] == found.value
    ensures found.None? <==> key !in env && forall k :: k in env ==> !lib.fold(k, key)
  {
    if key in env {
      return Some(env[key]);
    }
    var rest := env.Keys;
    while rest != {}
      invariant rest <= env.Keys
      invariant forall k :: k in env && k !in rest ==> !lib.fold(k, key)
      decreases rest
    {
      var k :| k in rest;
      if lib.fold(k, key) {
        return Some(env[k]);
      }
      rest := rest - {k};
    }
    return None;
  }

  /** What the lookups of one classification find. */
  datatype Lookups = Lookups(mode: Option<string>, tasks: Option<string>, parallelism: Option<string>)

  predicate AreLookups(lib: Library, env: Environment, l: Lookups) {
    && Found(lib, env, "ENABLE_DISTRIBUTED_MODE", l.mode)
    && Found(lib, env, "JENNAH_TASK_COUNT", l.tasks)
    && Found(lib, env, "JENNAH_PARALLELISM", l.parallelism)
  }

  function IsTruthy(lib: Library, v: string): bool {
    lib.lower(lib.trim(v)) in {"1", "true", "yes", "on"}
  }

  function ParsePositiveInt(lib: Library, v: string): Option<int> {
    var trimmed := lib.trim(v);
    if trimmed == "" then None
    else
      var n := lib.parse(trimmed);
      if n.None? || n.value <= 0 then None else n
  }

  function AsksForMany(lib: Library, found: Option<string>): bool {
    found.Some? && ParsePositiveInt(lib, found.value).Some? && ParsePositiveInt(lib, found.value).value > 1
  }

  function IsDistributedModeEnabled(lib: Library, env: Environment, l: Lookups): bool {
    if |env| == 0 then false
    else if l.mode.Some? && IsTruthy(lib, l.mode.value) then true
    else if AsksForMany(lib, l.tasks) then true
    else AsksForMany(lib, l.parallelism)
  }

  function ExceedsThreshold(value: int, max: int): bool {
    value > 0 && value > max
  }

  function ResourcesOf(req: Request): ResourceOverride {
    if req.resources.Some? then req.resources.value else ResourceOverride(0, 0, 0)
  }

  function EvaluateJobComplexity(lib: Library, req: Request, l: Lookups): Decision {
    var ro := ResourcesOf(req);
    if IsDistributedModeEnabled(lib, req.env, l) then ON_BATCH
    else if req.machineType != "" then ON_BATCH
    else if ExceedsThreshold(ro.cpuMillis, MEDIUM_CPU_MILLIS_MAX) then ON_BATCH
    else if ExceedsThreshold(ro.memoryMiB, MEDIUM_MEMORY_MIB_MAX) then ON_BATCH
    else if ExceedsThreshold(ro.durationSec, MEDIUM_DURATION_SEC_MAX) then ON_BATCH
    else ON_CLOUD_RUN
  }

  /** The same, with Gemini's answer, None for an error. A fallback looks the variables up again. */
  function EvaluateWithGemini(
    lib: Library, req: Request, l: Lookups, answer: Option<string>, again: Lookups): Decision
  {
    if IsDistributedModeEnabled(lib, req.env, l) then ON_BATCH
    else
      match answer
      case None => EvaluateJobComplexity(lib, req, again)
      case Some(tier) =>
        if tier == "SIMPLE" || tier == "MEDIUM" then ON_CLOUD_RUN
        else if tier == "COMPLEX" then ON_BATCH
        else EvaluateJobComplexity(lib, req, again)
  }

  // ----- The task group

  datatype TaskGroup = TaskGroup(taskCount: int, parallelism: int) {
    predicate Multiple() {
      taskCount > 1 || parallelism > 1
    }
  }

  /** The number that the exact key gives, if it is positive. */
  function Given(lib: Library, env: Environment, key: string): Option<int> {
    if key in env && lib.parse(lib.trim(env[key])).Some? && lib.parse(lib.trim(env[key])).value > 0
    then lib.parse(lib.trim(env[key]))
    else None
  }

  /** A missing key reads as the empty string. */
  function IsDistributedMode(lib: Library, env: Environment): bool {
    lib.fold(lib.trim(if MODE in env then env[MODE] else ""), "true")
  }

  function TaskGroupOf(lib: Library, env: Environment): TaskGroup {
    var count := match Given(lib, env, TASK_COUNT)
      case Some(n) => n
      case None => if IsDistributedMode(lib, env) then DEFAULT_DISTRIBUTED_TASK_COUNT else 1;
    var parallel := match Given(lib, env, PARALLELISM)
      case Some(n) => n
      case None => if IsDistributedMode(lib, env) then count else 0;
    TaskGroup(count, parallel)
  }

  /** The text, trimmed, is a number above zero. */
  predicate IsPositive(lib: Library, v: string) {
    lib.parse(lib.trim(v)).Some? && lib.parse(lib.trim(v)).value > 0
  }

  predicate Flagged(lib: Library, env: Environment) {
    var mode := if "ENABLE_DISTRIBUTED_MODE" in env then env["ENABLE_DISTRIBUTED_MODE"] else "";
    lib.fold(lib.trim(mode), "true")
  }

  method BuildTaskGroup(lib: Library, env: Environment) returns (taskGroup: TaskGroup)
    ensures taskGroup == TaskGroupOf(lib, env)
    ensures "JENNAH_TASK_COUNT" in env && IsPositive(lib, env["JENNAH_TASK_COUNT"]) ==>
      Some(taskGroup.taskCount) == lib.parse(lib.trim(env["JENNAH_TASK_COUNT"]))
    ensures !("JENNAH_TASK_COUNT" in env && IsPositive(lib, env["JENNAH_TASK_COUNT"])) ==>
      taskGroup.taskCount == if Flagged(lib, env) then 4 else 1
    ensures "JENNAH_PARALLELISM" in env && IsPositive(lib, env["JENNAH_PARALLELISM"]) ==>
      Some(taskGroup.parallelism) == lib.parse(lib.trim(env["JENNAH_PARALLELISM"]))
    ensures !("JENNAH_PARALLELISM" in env && IsPositive(lib, env["JENNAH_PARALLELISM"])) ==>
      taskGroup.parallelism == if Flagged(lib, env) then taskGroup.taskCount else 0
  {
    taskGroup := TaskGroup(1, 0);
    var mode := if MODE in env then env[MODE] else "";
    var isDistributedMode := lib.fold(lib.trim(mode), "true");
    var taskCountSet := false;
    if TASK_COUNT in env {
      var n := lib.parse(lib.trim(env[TASK_COUNT]));
      if n.Some? && n.value > 0 {
        taskGroup := taskGroup.(taskCount := n.value);
        taskCountSet := true;
      }
    }
    if !taskCountSet && isDistributedMode {
      taskGroup := taskGroup.(taskCount := DEFAULT_DISTRIBUTED_TASK_COUNT);
    }
    var parallelismSet := false;
    if PARALLELISM in env {
      var n := lib.parse(lib.trim(env[PARALLELISM]));
      if n.Some? && n.value > 0 {
        taskGroup := taskGroup.(parallelism := n.value);
        parallelismSet := true;
      }
    }
    if !parallelismSet && isDistributedMode {
      taskGroup := taskGroup.(parallelism := taskGroup.taskCount);
    }
  }

  // ----- Agreement

  lemma GivenIsFound(lib: Library, env: Environment, key: string, found: Option<string>)
    requires Lawful(lib) && Found(lib, env, key, found)
    ensures Given(lib, env, key).Some? && Given(lib, env, key).value > 1 ==> AsksForMany(lib, found)
    ensures key in env ==> found == Some(env[key]) && ParsePositiveInt(lib, found.value) == Given(lib, env, key)
  {
  }

  lemma ManyTasksAreSignalled(lib: Library, env: Environment, l: Lookups)
    requires Lawful(lib) && AreLookups(lib, env, l) && TaskGroupOf(lib, env).Multiple()
    ensures IsDistributedModeEnabled(lib, env, l)
  {
    GivenIsFound(lib, env, TASK_COUNT, l.tasks);
    GivenIsFound(lib, env, PARALLELISM, l.parallelism);
    if IsDistributedMode(lib, env) {
      assert MODE in env.Keys && IsTruthy(lib, env[MODE]);
    }
  }

  /** A job with more than one task, or more than one at a time, is routed to Cloud Batch: whatever
      order the variables are visited in, and whatever Gemini answers. */
  lemma MultipleTasksRunOnBatch(lib: Library, req: Request, l: Lookups, answer: Option<string>, again: Lookups)
    requires Lawful(lib) && AreLookups(lib, req.env, l) && AreLookups(lib, req.env, again)
    requires TaskGroupOf(lib, req.env).taskCount > 1 || TaskGroupOf(lib, req.env).parallelism > 1
    ensures var d := EvaluateJobComplexity(lib, req, l); d.service == CloudBatch && d.complexity == Complex
    ensures var d := EvaluateWithGemini(lib, req, l, answer, again);
      d.service == CloudBatch && d.complexity == Complex
  {
    ManyTasksAreSignalled(lib, req.env, l);
  }

  /** The exact variables give a single task, one at a time. */
  predicate SingleTask(lib: Library, env: Environment) {
    && Given(lib, env, TASK_COUNT) in {None, Some(1)}
    && Given(lib, env, PARALLELISM) in {None, Some(1)}
    && (IsDistributedMode(lib, env) ==> Given(lib, env, TASK_COUNT) == Some(1))
  }

  /** Only the classifier sees it: a flag that it takes for truthy, or a number under another spelling. */
  predicate SignalledOtherwise(lib: Library, env: Environment, l: Lookups) {
    || (l.mode.Some? && IsTruthy(lib, l.mode.value))
    || (TASK_COUNT !in env && AsksForMany(lib, l.tasks))
    || (PARALLELISM !in env && AsksForMany(lib, l.parallelism))
  }

  /** In any environment the two readers agree, a distributed job having multiple tasks and no other,
      exactly unless there is a single task and something else makes the classifier think otherwise. */
  lemma ReadersAgreeExactlyWhen(lib: Library, env: Environment, l: Lookups)
    requires Lawful(lib) && AreLookups(lib, env, l)
    ensures (IsDistributedModeEnabled(lib, env, l) <==> TaskGroupOf(lib, env).Multiple())
      <==> !(SingleTask(lib, env) && SignalledOtherwise(lib, env, l))
  {
    GivenIsFound(lib, env, TASK_COUNT, l.tasks);
    GivenIsFound(lib, env, PARALLELISM, l.parallelism);
    assert TaskGroupOf(lib, env).Multiple() <==> !SingleTask(lib, env);
    if TaskGroupOf(lib, env).Multiple() {
      ManyTasksAreSignalled(lib, env, l);
    } else {
      SignalsAreFound(lib, env, l);
    }
  }

  lemma SignalsAreFound(lib: Library, env: Environment, l: Lookups)
    requires Lawful(lib) && AreLookups(lib, env, l) && SingleTask(lib, env)
    ensures IsDistributedModeEnabled(lib, env, l) <==> SignalledOtherwise(lib, env, l)
  {
    GivenIsFound(lib, env, TASK_COUNT, l.tasks);
    GivenIsFound(lib, env, PARALLELISM, l.parallelism);
    if |env| == 0 {
      assert forall k :: k !in env.Keys;
    }
  }

  /** An instance in which they disagree: "yes" makes the classifier choose Batch for a single task. */
  lemma BatchForSingleTask(lib: Library)
    requires lib.trim("yes") == "yes" == lib.lower("yes") && !lib.fold("yes", "true")
    requires !lib.fold(MODE, TASK_COUNT) && !lib.fold(MODE, PARALLELISM)
    ensures var req, l := Request(map[MODE := "yes"], "", None), Lookups(Some("yes"), None, None);
      && AreLookups(lib, req.env, l)
      && EvaluateJobComplexity(lib, req, l) == ON_BATCH
      && TaskGroupOf(lib, req.env) == TaskGroup(1, 0)
  {
    KeysDiffer();
    assert MODE in map[MODE := "yes"].Keys;
  }

  // ----- Which service

  /** The text, trimmed, is a number above one. */
  predicate ReadsAsMany(lib: Library, v: string) {
    lib.parse(lib.trim(v)).Some? && lib.parse(lib.trim(v)).value > 1
  }

  /** A value that was found asks for distribution: a truthy flag, or several tasks or at a time. */
  predicate AsksForDistribution(lib: Library, l: Lookups) {
    || (l.mode.Some? && lib.lower(lib.trim(l.mode.value)) in {"1", "true", "yes", "on"})
    || (l.tasks.Some? && ReadsAsMany(lib, l.tasks.value))
    || (l.parallelism.Some? && ReadsAsMany(lib, l.parallelism.value))
  }

  /** Beyond Cloud Run: a machine type is named, or more is asked for than 4 CPUs, 8 GiB or an hour. */
  predicate NeedsBatch(req: Request) {
    || req.machineType != ""
    || ResourcesOf(req).cpuMillis > 4000 || ResourcesOf(req).memoryMiB > 8192 || ResourcesOf(req).durationSec > 3600
  }

  lemma DistributedExactlyWhenAsked(lib: Library, env: Environment, l: Lookups)
    requires lib.parse("") == None && AreLookups(lib, env, l)
    ensures IsDistributedModeEnabled(lib, env, l) <==> AsksForDistribution(lib, l)
  {
    if |env| == 0 {
      assert forall k :: k !in env.Keys;
    }
  }

  /** The deterministic classifier: a job runs on Cloud Batch, as a complex one, if and only if what is
      found asks for distribution or the request is beyond Cloud Run; else on Cloud Run, as a simple one. */
  lemma BatchExactlyWhenAsked(lib: Library, req: Request, l: Lookups)
    requires lib.parse("") == None && AreLookups(lib, req.env, l)
    ensures var d := EvaluateJobComplexity(lib, req, l);
      && (d.service == CloudBatch <==> AsksForDistribution(lib, l) || NeedsBatch(req))
      && (d.service == CloudRunJob <==> !AsksForDistribution(lib, l) && !NeedsBatch(req))
      && (d.complexity == Complex <==> d.service == CloudBatch)
  {
    DistributedExactlyWhenAsked(lib, req.env, l);
  }

  /** With Gemini: Cloud Batch if and only if distribution is asked for, or the answer is COMPLEX, or
      there is no usable answer and the second look or the request itself asks for Batch. */
  lemma BatchExactlyWhenAskedOrAnswered(
    lib: Library, req: Request, l: Lookups, answer: Option<string>, again: Lookups)
    requires lib.parse("") == None && AreLookups(lib, req.env, l) && AreLookups(lib, req.env, again)
    ensures var d := EvaluateWithGemini(lib, req, l, answer, again);
      && (d.service == CloudBatch <==>
            || AsksForDistribution(lib, l) || answer == Some("COMPLEX")
            || (answer !in {Some("SIMPLE"), Some("MEDIUM")} && (AsksForDistribution(lib, again) || NeedsBatch(req))))
      && (d.service == CloudRunJob || d.service == CloudBatch)
      && (d.complexity == Complex <==> d.service == CloudBatch)
  {
    DistributedExactlyWhenAsked(lib, req.env, l);
    DistributedExactlyWhenAsked(lib, req.env, again);
    assert "SIMPLE" != "COMPLEX" && "MEDIUM" != "COMPLEX" by {
      assert "SIMPLE"[0] != "COMPLEX"[0] && "MEDIUM"[0] != "COMPLEX"[0];
    }
  }

  // ----- The order of the variables

  /** Does a value of the variable, as looked up, make the job a distributed one? */
  predicate Signals(lib: Library, key: string, found: Option<string>) {
    if key == MODE then found.Some? && IsTruthy(lib, found.value) else AsksForMany(lib, found)
  }

  /** The variable signals whatever value a lookup finds. */
  ghost predicate AlwaysSignals(lib: Library, env: Environment, key: string) {
    forall found :: Found(lib, env, key, found) ==> Signals(lib, key, found)
  }

  ghost predicate NeverSignals(lib: Library, env: Environment, key: string) {
    forall found :: Found(lib, env, key, found) ==> !Signals(lib, key, found)
  }

  /** The variables settle whether the job is distributed, whatever order they are visited in. */
  ghost predicate Settled(lib: Library, env: Environment) {
    || AlwaysSignals(lib, env, MODE) || AlwaysSignals(lib, env, TASK_COUNT) || AlwaysSignals(lib, env, PARALLELISM)
    || (NeverSignals(lib, env, MODE) && NeverSignals(lib, env, TASK_COUNT) && NeverSignals(lib, env, PARALLELISM))
  }

  lemma DistributedMeansSignalled(lib: Library, env: Environment, l: Lookups)
    requires AreLookups(lib, env, l)
    ensures IsDistributedModeEnabled(lib, env, l) <==>
      Signals(lib, MODE, l.mode) || Signals(lib, TASK_COUNT, l.tasks) || Signals(lib, PARALLELISM, l.parallelism)
  {
    KeysDiffer();
    if |env| == 0 {
      assert forall k :: k !in env.Keys;
    }
  }

  lemma KeysDiffer()
    ensures MODE != TASK_COUNT && MODE != PARALLELISM && TASK_COUNT != PARALLELISM
  {
    assert |MODE| != |TASK_COUNT| && |PARALLELISM| != |MODE| && |PARALLELISM| != |TASK_COUNT|;
  }

  lemma SomethingIsFound(lib: Library, env: Environment, key: string) returns (found: Option<string>)
    ensures Found(lib, env, key, found)
  {
    if key in env {
      found := Some(env[key]);
    } else if k :| k in env && lib.fold(k, key) {
      found := Some(env[k]);
    } else {
      found := None;
    }
  }

  /** The value of the variable that signals least. */
  lemma WorstLookup(lib: Library, env: Environment, key: string) returns (found: Option<string>)
    ensures Found(lib, env, key, found) && (Signals(lib, key, found) <==> AlwaysSignals(lib, env, key))
  {
    if AlwaysSignals(lib, env, key) {
      found := SomethingIsFound(lib, env, key);
    } else {
      found :| Found(lib, env, key, found) && !Signals(lib, key, found);
    }
  }

  lemma BestLookup(lib: Library, env: Environment, key: string) returns (found: Option<string>)
    ensures Found(lib, env, key, found) && (!Signals(lib, key, found) <==> NeverSignals(lib, env, key))
  {
    if NeverSignals(lib, env, key) {
      found := SomethingIsFound(lib, env, key);
    } else {
      found :| Found(lib, env, key, found) && Signals(lib, key, found);
    }
  }

  /** Any two classifications of a request decide the same. */
  ghost predicate OneDecision(lib: Library, req: Request) {
    forall l, m :: AreLookups(lib, req.env, l) && AreLookups(lib, req.env, m) ==>
      EvaluateJobComplexity(lib, req, l) == EvaluateJobComplexity(lib, req, m)
  }

  /** If the variables do not settle it, the order can go either way. */
  lemma BestAndWorst(lib: Library, env: Environment) returns (worst: Lookups, best: Lookups)
    ensures AreLookups(lib, env, worst) && AreLookups(lib, env, best)
    ensures !Settled(lib, env) ==>
      !IsDistributedModeEnabled(lib, env, worst) && IsDistributedModeEnabled(lib, env, best)
  {
    var mode := WorstLookup(lib, env, MODE);
    var tasks := WorstLookup(lib, env, TASK_COUNT);
    var parallelism := WorstLookup(lib, env, PARALLELISM);
    worst := Lookups(mode, tasks, parallelism);
    mode := BestLookup(lib, env, MODE);
    tasks := BestLookup(lib, env, TASK_COUNT);
    parallelism := BestLookup(lib, env, PARALLELISM);
    best := Lookups(mode, tasks, parallelism);
    DistributedMeansSignalled(lib, env, worst);
    DistributedMeansSignalled(lib, env, best);
  }

  /** Any two looks at the variables agree on whether the job is distributed. */
  ghost predicate OneReading(lib: Library, env: Environment) {
    forall l, m :: AreLookups(lib, env, l) && AreLookups(lib, env, m) ==>
      IsDistributedModeEnabled(lib, env, l) == IsDistributedModeEnabled(lib, env, m)
  }

  /** In any environment, the order in which the variables are visited cannot matter exactly when some
      variable signals under every value that a lookup may find, or none signals under any. */
  lemma OneReadingExactlyWhenSettled(lib: Library, env: Environment)
    ensures OneReading(lib, env) <==> Settled(lib, env)
  {
    if Settled(lib, env) {
      forall l, m | AreLookups(lib, env, l) && AreLookups(lib, env, m)
        ensures IsDistributedModeEnabled(lib, env, l) == IsDistributedModeEnabled(lib, env, m)
      {
        DistributedMeansSignalled(lib, env, l);
        DistributedMeansSignalled(lib, env, m);
      }
    } else {
      var worst, best := BestAndWorst(lib, env);
    }
  }

  /** It cannot decide the service, either then or when the request needs Batch anyway. */
  lemma OrderNeverDecidesExactlyWhen(lib: Library, req: Request)
    ensures OneDecision(lib, req) <==> NeedsBatch(req) || Settled(lib, req.env)
  {
    OneReadingExactlyWhenSettled(lib, req.env);
    if !NeedsBatch(req) && !Settled(lib, req.env) {
      var worst, best := BestAndWorst(lib, req.env);
      assert EvaluateJobComplexity(lib, req, worst) != EvaluateJobComplexity(lib, req, best);
    }
  }

  predicate OnlyTaskCount(lib: Library, key: string) {
    !lib.fold(key, MODE) && !lib.fold(key, PARALLELISM) && key != MODE && key != PARALLELISM
  }

  /** An instance in which the order decides: a variable is set in two spellings and in neither as expected. */
  lemma OrderCanDecide(lib: Library, a: string, b: string)
    requires a != b && a != TASK_COUNT && b != TASK_COUNT && lib.fold(a, TASK_COUNT) && lib.fold(b, TASK_COUNT)
    requires OnlyTaskCount(lib, a) && OnlyTaskCount(lib, b)
    requires lib.trim("1") == "1" && lib.trim("4") == "4" && lib.parse("1") == Some(1) && lib.parse("4") == Some(4)
    ensures var req := Request(map[a := "1", b := "4"], "", None);
      var l, m := Lookups(None, Some("1"), None), Lookups(None, Some("4"), None);
      && AreLookups(lib, req.env, l) && AreLookups(lib, req.env, m)
      && EvaluateJobComplexity(lib, req, l) == ON_CLOUD_RUN
      && EvaluateJobComplexity(lib, req, m) == ON_BATCH
  {
    var env := map[a := "1", b := "4"];
    assert a in env && lib.fold(a, TASK_COUNT) && env[a] == "1";
    assert b in env && lib.fold(b, TASK_COUNT) && env[b] == "4";
    assert Found(lib, env, TASK_COUNT, Some("1"));
    assert Found(lib, env, TASK_COUNT, Some("4"));
    assert a in env.Keys;
  }

  // ----- Gemini

  predicate IsTier(answer: Option<string>) {
    answer.Some? && answer.value in {"SIMPLE", "MEDIUM", "COMPLEX"}
  }

  /** Gemini's answer replaces the thresholds and even an explicit machine type, and a fallback looks
      the variables up afresh: the decision is the deterministic one exactly when the job is found to
      be distributed at first; or the answered tier is the one its machine type and resources ask
      for; or the answer is unusable and they ask for Batch, or the second look finds nothing either. */
  lemma GeminiAgreesExactlyWhen(lib: Library, req: Request, l: Lookups, answer: Option<string>, again: Lookups)
    ensures EvaluateWithGemini(lib, req, l, answer, again) == EvaluateJobComplexity(lib, req, l) <==>
      || IsDistributedModeEnabled(lib, req.env, l)
      || if IsTier(answer) then answer == Some("COMPLEX") <==> NeedsBatch(req)
         else NeedsBatch(req) || !IsDistributedModeEnabled(lib, req.env, again)
  {
    assert "SIMPLE" != "COMPLEX" && "MEDIUM" != "COMPLEX" by {
      assert "SIMPLE"[0] != "COMPLEX"[0] && "MEDIUM"[0] != "COMPLEX"[0];
    }
  }

  /** Without an answer from Gemini the decision is the deterministic one, whatever the two looks find,
      exactly when the order of the variables can never decide. */
  lemma FallbackAgreesExactlyWhen(lib: Library, req: Request)
    ensures (forall l, again :: AreLookups(lib, req.env, l) && AreLookups(lib, req.env, again) ==>
               EvaluateWithGemini(lib, req, l, None, again) == EvaluateJobComplexity(lib, req, l))
      <==> NeedsBatch(req) || Settled(lib, req.env)
  {
    if NeedsBatch(req) || Settled(lib, req.env) {
      OrderNeverDecidesExactlyWhen(lib, req);
    } else {
      var worst, best := BestAndWorst(lib, req.env);
      assert EvaluateWithGemini(lib, req, worst, None, best) != EvaluateJobComplexity(lib, req, worst);
    }
  }
}
