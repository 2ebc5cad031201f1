/** The worker's SubmitJob and CancelJob handlers, cmd/worker/service/handlers.go, as one request
    sees them. Module Cluster has their steps. */
module Handlers {
  import opened Wrappers
  import opened Jobs
  import opened Pollers
  import opened Workers
  import opened Cluster

  datatype RequestError =
    | TenantRequired
    | ImageRequired
    | JobRequired
    | InsertFailed
    | SubmissionFailed
    | JobNotFound
    | NotCancellable
    | CancellationFailed

  // ----- Submission

  /** The row that a submission leaves. */
  function SubmittedRow(worker: WorkerId, now: int, ttl: int, outcome: SubmitOutcome): Row {
    var row := NewRow(worker, now, ttl);
    match outcome
    case Rejected => row.(status := Failed)
    case Accepted(path, initial, service) =>
      row.(status := StatusToSet(initial), path := Some(path), tier := TierOf(service), service := service)
  }

  function SubmissionLog(key: Key, outcome: SubmitOutcome): seq<Entry> {
    match outcome
    case Rejected => [Published(key, Failed)]
    case Accepted(_, initial, _) => [Submitted(key, StatusToSet(initial))]
  }

  /** Inserts a pending row and asks the provider; `outcome` is what planning and provider make of it.
      Afterwards the row is FAILED or has a path, and then the worker has a poller for it. */
  method SubmitJob(worker: WorkerService, db: JobsTable, key: Key, image: string, now: int, outcome: SubmitOutcome)
    returns (r: Result<Status, RequestError>, log: seq<Entry>)
    modifies worker, db
    ensures key.tenant == "" ==> r == Err(TenantRequired)
    ensures key.tenant != "" && image == "" ==> r == Err(ImageRequired)
    ensures key.tenant != "" && image != "" && key in old(db.rows) ==> r == Err(InsertFailed)
    ensures key.tenant == "" || image == "" || key in old(db.rows) ==>
      db.rows == old(db.rows) && worker.pollers == old(worker.pollers) && log == []
    ensures key.tenant != "" && image != "" && key !in old(db.rows) ==>
      && db.rows == old(db.rows)[key := SubmittedRow(worker.workerID, now, worker.leaseTTL, outcome)]
      && db.rows[key].owner == db.rows[key].preferred == Some(worker.workerID)
      && db.rows[key].leaseExpiresAt == Some(now + worker.leaseTTL) && db.rows[key].heartbeatAt == Some(now)
      && (outcome.Rejected? ==>
            db.rows[key].status == Failed && db.rows[key].path == None && log == [Published(key, Failed)])
      && (outcome.Accepted? ==>
            && db.rows[key].status == (match outcome.initial case Known(status) => status case Unknown => Running)
            && db.rows[key].path == Some(outcome.path) && db.rows[key].service == outcome.service
            && db.rows[key].tier == (if outcome.service == CloudRunJob then SimpleTier else ComplexTier)
            && log == [Submitted(key, db.rows[key].status)])
      && r == (if outcome.Rejected? then Err(SubmissionFailed) else Ok(db.rows[key].status))
      && (outcome.Rejected? || key in old(worker.pollers) ==> worker.pollers == old(worker.pollers))
      && (outcome.Accepted? && key !in old(worker.pollers) ==>
            && key in worker.pollers && worker.pollers == old(worker.pollers)[key := worker.pollers[key]]
            && fresh(worker.pollers[key]) && Some(worker.pollers[key].path) == db.rows[key].path
            && worker.pollers[key].State()
                 == PollerState(db.rows[key].status, 0, InferService(outcome.service, TierOf(outcome.service))))
  {
    log := [];
    if key.tenant == "" {
      return Err(TenantRequired), log;
    }
    if image == "" {
      return Err(ImageRequired), log;
    }
    var inserted := db.InsertJobFull(key, NewRow(worker.workerID, now, worker.leaseTTL));
    if inserted.Err? {
      return Err(InsertFailed), log;
    }
    if outcome.Rejected? {
      var failed := db.FailJob(key);
      return Err(SubmissionFailed), [Published(key, Failed)];
    }
    var statusToSet := StatusToSet(outcome.initial);
    var updated :=
      db.UpdateJobStatusAndGcpBatchJobPath(key, statusToSet, outcome.path, TierOf(outcome.service), outcome.service);
    log := [Submitted(key, statusToSet)];
    worker.StartJobPollerWithService(key, outcome.path, statusToSet, TierOf(outcome.service), outcome.service);
    return Ok(statusToSet), log;
  }

  ghost function SubmitActions(
    worker: WorkerId, key: Key, id: TaskId, outcome: SubmitOutcome, poller: TaskId): seq<Action>
  {
    if outcome.Rejected? then [SubmitInsert(worker, key, id), SubmitFinish(id, outcome)]
    else [SubmitInsert(worker, key, id), SubmitFinish(id, outcome), SubmitLaunch(id, poller)]
  }

  /** The steps of a submission, taken without interruption, leave the row, the log and the registered
      poller that the handler leaves. */
  lemma UninterruptedSubmission(
    s: State, worker: WorkerId, key: Key, id: TaskId, outcome: SubmitOutcome, poller: TaskId)
    requires worker in s.ttl && key !in s.jobs && id !in s.tasks && poller !in s.tasks && poller != id
    ensures var acts := SubmitActions(worker, key, id, outcome, poller);
      && CanRun(s, acts)
      && Final(s, acts).jobs == s.jobs[key := SubmittedRow(worker, s.clock, s.ttl[worker], outcome)]
      && Final(s, acts).log == s.log + SubmissionLog(key, outcome)
      && (outcome.Rejected? || Registration(worker, key) in s.registry ==>
            Final(s, acts).registry == s.registry && Final(s, acts).tasks == s.tasks)
      && (outcome.Accepted? && Registration(worker, key) !in s.registry ==>
            && Final(s, acts).registry == s.registry[Registration(worker, key) := poller]
            && var tier := if outcome.service == CloudRunJob then SimpleTier else ComplexTier;
            var state := PollerState(Final(s, acts).jobs[key].status, 0, InferService(outcome.service, tier));
            Final(s, acts).tasks == s.tasks[poller := Polling(worker, key, tier, state, Waiting, false)])
  {
    var inserted := Next(s, SubmitInsert(worker, key, id));
    RunTwo(s, SubmitInsert(worker, key, id), SubmitFinish(id, outcome));
    var two := [SubmitInsert(worker, key, id), SubmitFinish(id, outcome)];
    var finished := Next(inserted, SubmitFinish(id, outcome));
    assert finished.jobs == s.jobs[key := SubmittedRow(worker, s.clock, s.ttl[worker], outcome)];
    if outcome.Accepted? {
      RunSnoc(s, two, SubmitLaunch(id, poller));
      assert two + [SubmitLaunch(id, poller)] == SubmitActions(worker, key, id, outcome, poller);
    }
  }

  // ----- Cancellation

  /** Cancels a job that is not terminal. `cancels` is the answer of the service that runs it; a job
      without a path is not known to any. */
  method CancelJob(worker: WorkerService, db: JobsTable, key: Key, cancels: Service -> bool)
    returns (r: Result<Status, RequestError>, log: seq<Entry>)
    modifies worker, db, if key in worker.pollers then {worker.pollers[key]} else {}
    ensures r == CancelResult(old(db.rows), key, cancels)
    ensures key.tenant == "" ==> r == Err(TenantRequired)
    ensures key.tenant != "" && key.job == "" ==> r == Err(JobRequired)
    ensures key.tenant != "" && key.job != "" ==> (r == Err(JobNotFound) <==> key !in old(db.rows))
    ensures key.tenant != "" && key.job != "" && key in old(db.rows) ==>
      var job := old(db.rows)[key];
      var service := match job.service case CloudRunJob => CloudRunJob case _ => CloudBatch;
      && (r == Err(NotCancellable) <==> job.status in {Completed, Failed, Cancelled})
      && (r == Err(CancellationFailed) <==>
            job.status in {Pending, Scheduled, Running} && job.path != None && !cancels(service))
      && (r == Ok(Cancelled) <==>
            job.status in {Pending, Scheduled, Running} && (job.path == None || cancels(service)))
    ensures r.Err? ==> db.rows == old(db.rows) && worker.pollers == old(worker.pollers) && log == []
    ensures r.Ok? ==>
      && db.rows == old(db.rows)[key := old(db.rows)[key].(status := Cancelled)]
      && log == CancellationLog(key, old(db.rows)[key].status)
      && log == [Audited(key, Transition(old(db.rows)[key].status, Cancelled)), Published(key, Cancelled)]
      && worker.pollers == old(worker.pollers) - {key}
      && (key in old(worker.pollers) ==> old(worker.pollers[key]).done)
  {
    log := [];
    if key.tenant == "" {
      return Err(TenantRequired), log;
    }
    if key.job == "" {
      return Err(JobRequired), log;
    }
    if key !in db.rows {
      return Err(JobNotFound), log;
    }
    var job := db.rows[key];
    if !(job.status == Pending || job.status == Scheduled || job.status == Running) {
      return Err(NotCancellable), log;
    }
    if job.path.Some? {
      var assignedService := CloudBatch;
      if job.service.CloudRunJob? {
        assignedService := CloudRunJob;
      }
      if !cancels(assignedService) {
        return Err(CancellationFailed), log;
      }
    }
    var updated := db.UpdateJobStatus(key, Cancelled);
    log := [Audited(key, Transition(job.status, Cancelled)), Published(key, Cancelled)];
    worker.StopPollerForJob(key);
    return Ok(Cancelled), log;
  }

  function CancelResult(rows: map<Key, Row>, key: Key, cancels: Service -> bool): Result<Status, RequestError> {
    if key.tenant == "" then Err(TenantRequired)
    else if key.job == "" then Err(JobRequired)
    else if key !in rows then Err(JobNotFound)
    else if rows[key].status.Terminal() then Err(NotCancellable)
    else if rows[key].path.Some? && !cancels(if rows[key].service.CloudRunJob? then CloudRunJob else CloudBatch) then
      Err(CancellationFailed)
    else Ok(Cancelled)
  }

  function CancellationLog(key: Key, from: Status): seq<Entry> {
    [Audited(key, Transition(from, Cancelled)), Published(key, Cancelled)]
  }

  lemma CancellationReads(s: State, worker: WorkerId, key: Key, id: TaskId)
    requires worker in s.ttl && key in s.jobs && !s.jobs[key].status.Terminal() && id !in s.tasks
    ensures Next(s, CancelRead(worker, key, id))
         == s.(tasks := s.tasks[id := Cancelling(worker, key, s.jobs[key].status)])
  {
  }

  /** The goroutines once the poller registered at the given place has been told to stop. */
  ghost function StopTask(
    tasks: map<TaskId, Task>, registry: map<Registration, TaskId>, at: Registration): map<TaskId, Task>
  {
    if at in registry && registry[at] in tasks && tasks[registry[at]].Polling? then
      tasks[registry[at] := tasks[registry[at]].(stopped := true)]
    else tasks
  }

  /** The steps of a cancellation, taken without interruption, leave the row, the log and the registry
      that the handler leaves, and tell the registered poller, if it is live, to stop. */
  lemma UninterruptedCancellation(s: State, worker: WorkerId, key: Key, id: TaskId)
    requires worker in s.ttl && key in s.jobs && !s.jobs[key].status.Terminal() && id !in s.tasks
    ensures var acts := [CancelRead(worker, key, id), CancelWrite(id)];
      && CanRun(s, acts)
      && Final(s, acts).jobs == s.jobs[key := s.jobs[key].(status := Cancelled)]
      && Final(s, acts).log == s.log + CancellationLog(key, s.jobs[key].status)
      && Final(s, acts).registry == s.registry - {Registration(worker, key)}
      && Final(s, acts).tasks == StopTask(s.tasks, s.registry, Registration(worker, key))
  {
    CancellationReads(s, worker, key, id);
    RunTwo(s, CancelRead(worker, key, id), CancelWrite(id));
    assert s.tasks[id := Cancelling(worker, key, s.jobs[key].status)] - {id} == s.tasks;
  }
}
