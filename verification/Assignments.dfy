/** Where a job runs: what SubmitJob stores of the provider's answer stays as it is in every run of
    module Cluster, so that a later cancellation asks the right provider. */
module Assignments {
  import opened Wrappers
  import opened Jobs
  import opened Pollers
  import opened Cluster
  import opened Handlers
  import opened Availability
  import opened SerialPolling

  lemma {:induction false} RunKeepsSubmittedFirst(s: State, acts: seq<Action>, k: Key)
    requires CanRun(s, acts) && SubmittedFirst(s, k) && PollersHavePath(s, k)
    ensures SubmittedFirst(Final(s, acts), k)
    decreases |acts|
  {
    if acts != [] {
      StepKeepsSubmittedFirst(s, acts[0], k);
      StepKeepsPollersHavePath(s, acts[0], k);
      RunKeepsSubmittedFirst(Next(s, acts[0]), acts[1..], k);
    }
  }

  ghost predicate NotSubmitting(s: State, k: Key) {
    forall id :: !IsSubmission(s, id, k)
  }

  ghost predicate SameAssignment(r: Row, q: Row) {
    r.path == q.path && r.service == q.service && r.tier == q.tier
  }

  lemma PollersKeepAssignment(s: State, a: Action, k: Key)
    requires Enabled(s, a) && PollerStep(a) && k in s.jobs
    ensures k in Next(s, a).jobs && SameAssignment(Next(s, a).jobs[k], s.jobs[k])
  {
  }

  lemma StepKeepsAssignment(s: State, a: Action, k: Key)
    requires Enabled(s, a) && k in s.jobs && NotSubmitting(s, k)
    ensures k in Next(s, a).jobs && SameAssignment(Next(s, a).jobs[k], s.jobs[k])
    ensures NotSubmitting(Next(s, a), k)
  {
    if PollerStep(a) {
      PollersKeepAssignment(s, a, k);
    } else if a.SubmitFinish? {
      assert !IsSubmission(s, a.id, k);
    }
    forall id | IsSubmission(Next(s, a), id, k)
      ensures false
    {
      SubmissionBegins(s, a, id, k);
    }
  }

  lemma {:induction false} RunKeepsAssignment(s: State, acts: seq<Action>, k: Key)
    requires CanRun(s, acts) && k in s.jobs && NotSubmitting(s, k)
    ensures k in Final(s, acts).jobs && SameAssignment(Final(s, acts).jobs[k], s.jobs[k])
    decreases |acts|
  {
    if acts != [] {
      StepKeepsAssignment(s, acts[0], k);
      RunKeepsAssignment(Next(s, acts[0]), acts[1..], k);
    }
  }

  /** Whatever happens before and after a submission is accepted, the job keeps the path, the service and
      the tier of that submission, and a cancellation of it asks that very service: Cloud Run if it was
      submitted there, else Cloud Batch. */
  lemma CancellationAsksTheAssignedService(
    s: State, before: seq<Action>, id: TaskId, path: string, initial: ProviderStatus, service: Service,
    after: seq<Action>, cancels: Service -> bool)
    requires Init(s) && CanRun(s, before)
    requires Enabled(Final(s, before), SubmitFinish(id, Accepted(path, initial, service)))
    requires CanRun(Next(Final(s, before), SubmitFinish(id, Accepted(path, initial, service))), after)
    ensures var k := Final(s, before).tasks[id].key;
      var u := Final(Next(Final(s, before), SubmitFinish(id, Accepted(path, initial, service))), after);
      && k in u.jobs && u.jobs[k].path == Some(path) && u.jobs[k].service == service
      && u.jobs[k].tier == (if service == CloudRunJob then SimpleTier else ComplexTier)
      && (k.tenant != "" && k.job != "" && u.jobs[k].status in {Pending, Scheduled, Running} ==>
            CancelResult(u.jobs, k, cancels)
              == if cancels(if service == CloudRunJob then CloudRunJob else CloudBatch) then Ok(Cancelled)
                 else Err(CancellationFailed))
  {
    var t, a := Final(s, before), SubmitFinish(id, Accepted(path, initial, service));
    var k := t.tasks[id].key;
    RunKeepsSubmittedFirst(s, before, k);
    forall other | IsSubmission(Next(t, a), other, k)
      ensures IsSubmission(t, other, k) && other != id
    {
      SubmissionBegins(t, a, other, k);
    }
    assert IsSubmission(t, id, k);
    RunKeepsAssignment(Next(t, a), after, k);
  }
}
