/** No job is lost: which rows the reconciler can see, and what it does with an expired lease, over
    every run of module Cluster. */
module Availability {
  import opened Wrappers
  import opened Jobs
  import opened Pollers
  import opened Workers
  import opened Cluster

  ghost predicate SubmissionPending(s: State, k: Key) {
    exists id :: id in s.tasks && s.tasks[id].Submitting? && s.tasks[id].key == k
  }

  ghost predicate HasPath(s: State, k: Key) {
    k in s.jobs && s.jobs[k].path.Some?
  }

  /** A goroutine that polls job k, or will start to. */
  ghost predicate NeedsPath(t: Task, k: Key) {
    match t
    case Polling(_, key, _, _, _, _) => key == k
    case Launching(_, key, _, _) => key == k
    case Reconciling(_, pending) => exists i :: 0 <= i < |pending| && pending[i].key == k
    case _ => false
  }

  ghost predicate PollersHavePath(s: State, k: Key) {
    forall id :: id in s.tasks && NeedsPath(s.tasks[id], k) ==> HasPath(s, k)
  }

  /** A job that is neither terminal nor listed as active is still being submitted, or its submission
      was cut off by a crash. */
  ghost predicate Accounted(s: State, k: Key) {
    k in s.jobs ==> s.jobs[k].status.Terminal() || s.jobs[k].Active() || SubmissionPending(s, k) || k in s.abandoned
  }

  lemma PathIsKept(s: State, a: Action, k: Key)
    requires Enabled(s, a) && HasPath(s, k)
    ensures HasPath(Next(s, a), k)
  {
  }

  lemma PollerStepsKeepTasks(s: State, a: Action, id: TaskId)
    requires Enabled(s, a) && PollerStep(a) && id in Next(s, a).tasks
    ensures id in s.tasks
    ensures Next(s, a).tasks[id] == s.tasks[id] ||
      (s.tasks[id].Polling? && Next(s, a).tasks[id].Polling? && Next(s, a).tasks[id].key == s.tasks[id].key)
  {
    if a.TickClaim? {
      TickClaimKeepsTasks(s, a, id);
    } else if a.TickCheck? {
      TickCheckKeepsTasks(s, a, id);
    }
  }

  lemma TickClaimKeepsTasks(s: State, a: Action, id: TaskId)
    requires a.TickClaim? && Enabled(s, a) && id in Next(s, a).tasks
    ensures id in s.tasks
    ensures Next(s, a).tasks[id] == s.tasks[id] ||
      (s.tasks[id].Polling? && Next(s, a).tasks[id].Polling? && Next(s, a).tasks[id].key == s.tasks[id].key)
  {
  }

  lemma TickCheckKeepsTasks(s: State, a: Action, id: TaskId)
    requires a.TickCheck? && Enabled(s, a) && id in Next(s, a).tasks
    ensures id in s.tasks
    ensures Next(s, a).tasks[id] == s.tasks[id] ||
      (s.tasks[id].Polling? && Next(s, a).tasks[id].Polling? && Next(s, a).tasks[id].key == s.tasks[id].key)
  {
  }

  lemma PollerStepsAddNoPoller(s: State, a: Action, k: Key, id: TaskId)
    requires Enabled(s, a) && PollerStep(a) && id in Next(s, a).tasks && NeedsPath(Next(s, a).tasks[id], k)
    ensures id in s.tasks && NeedsPath(s.tasks[id], k)
  {
    PollerStepsKeepTasks(s, a, id);
  }

  lemma HandlersAddPollersWithPath(s: State, a: Action, k: Key, id: TaskId)
    requires Enabled(s, a) && !PollerStep(a) && id in Next(s, a).tasks && NeedsPath(Next(s, a).tasks[id], k)
    requires !(id in s.tasks && NeedsPath(s.tasks[id], k))
    ensures HasPath(Next(s, a), k) || exists from :: from in s.tasks && NeedsPath(s.tasks[from], k)
  {
    match a
    case SubmitFinish(_, _) =>
    case SubmitLaunch(from, _) => assert NeedsPath(s.tasks[from], k);
    case ReconcileList(_, _, listing) =>
      var i :| 0 <= i < |listing| && listing[i].key == k;
    case ReconcileClaim(from, _, _) => assert s.tasks[from].pending[0].key == k && NeedsPath(s.tasks[from], k);
    case _ => assert false;
  }

  /** A goroutine that needs the path of k comes from one that did, or k has a path. */
  lemma PollersComeFrom(s: State, a: Action, k: Key, id: TaskId)
    requires Enabled(s, a) && id in Next(s, a).tasks && NeedsPath(Next(s, a).tasks[id], k)
    ensures HasPath(Next(s, a), k) || exists from :: from in s.tasks && NeedsPath(s.tasks[from], k)
  {
    if PollerStep(a) {
      PollerStepsAddNoPoller(s, a, k, id);
    } else if !(id in s.tasks && NeedsPath(s.tasks[id], k)) {
      HandlersAddPollersWithPath(s, a, k, id);
    }
  }

  lemma StepKeepsPollersHavePath(s: State, a: Action, k: Key)
    requires Enabled(s, a) && PollersHavePath(s, k)
    ensures PollersHavePath(Next(s, a), k)
  {
    if HasPath(s, k) {
      PathIsKept(s, a, k);
    } else {
      forall id | id in Next(s, a).tasks && NeedsPath(Next(s, a).tasks[id], k)
        ensures HasPath(Next(s, a), k)
      {
        PollersComeFrom(s, a, k, id);
      }
    }
  }

  /** While k has no path, only its submission and cancellations write its status. */
  lemma StatusWithoutPath(s: State, a: Action, k: Key)
    requires Enabled(s, a) && PollersHavePath(s, k) && k in s.jobs && !HasPath(s, k)
    requires !(a.SubmitFinish? && s.tasks[a.id].key == k)
    ensures k in Next(s, a).jobs && !HasPath(Next(s, a), k)
    ensures Next(s, a).jobs[k].status in {s.jobs[k].status, Cancelled}
  {
    if a.TickWrite? {
      assert NeedsPath(s.tasks[a.id], s.tasks[a.id].key);
    }
  }

  lemma StepKeepsSubmission(s: State, a: Action, k: Key)
    requires Enabled(s, a) && SubmissionPending(s, k)
    ensures
      || SubmissionPending(Next(s, a), k)
      || k in Next(s, a).abandoned
      || (k in Next(s, a).jobs && (Next(s, a).jobs[k].status.Failed? || HasPath(Next(s, a), k)))
  {
    var id :| id in s.tasks && s.tasks[id].Submitting? && s.tasks[id].key == k;
    if a.Crash? && a.worker == s.tasks[id].worker {
      assert s.tasks[id].key in Next(s, a).abandoned;
    } else if !(a.SubmitFinish? && a.id == id) {
      SubmissionSurvives(s, a, id);
    }
  }

  lemma SubmissionSurvives(s: State, a: Action, id: TaskId)
    requires Enabled(s, a) && id in s.tasks && s.tasks[id].Submitting?
    requires !(a.SubmitFinish? && a.id == id) && !(a.Crash? && a.worker == s.tasks[id].worker)
    ensures id in Next(s, a).tasks && Next(s, a).tasks[id] == s.tasks[id]
  {
    if PollerStep(a) {
      PollersSpareSubmissions(s, a, id);
    } else {
      HandlersSpareSubmissions(s, a, id);
    }
  }

  lemma PollersSpareSubmissions(s: State, a: Action, id: TaskId)
    requires Enabled(s, a) && PollerStep(a) && id in s.tasks && s.tasks[id].Submitting?
    ensures id in Next(s, a).tasks && Next(s, a).tasks[id] == s.tasks[id]
  {
  }

  lemma HandlersSpareSubmissions(s: State, a: Action, id: TaskId)
    requires Enabled(s, a) && !PollerStep(a) && id in s.tasks && s.tasks[id].Submitting?
    requires !(a.SubmitFinish? && a.id == id) && !(a.Crash? && a.worker == s.tasks[id].worker)
    ensures id in Next(s, a).tasks && Next(s, a).tasks[id] == s.tasks[id]
  {
  }

  lemma StepKeepsAccounted(s: State, a: Action, k: Key)
    requires Enabled(s, a) && PollersHavePath(s, k) && Accounted(s, k)
    ensures Accounted(Next(s, a), k)
  {
    if SubmissionPending(s, k) {
      StepKeepsSubmission(s, a, k);
    } else if k !in s.jobs {
      if a.SubmitInsert? && a.key == k {
        assert Next(s, a).tasks[a.id] == Submitting(a.worker, k);
      } else {
        OnlySubmitInserts(s, a, k);
      }
    } else if HasPath(s, k) {
      PathIsKept(s, a, k);
    } else {
      assert a.SubmitFinish? ==> s.tasks[a.id].key != k;
      StatusWithoutPath(s, a, k);
    }
    AbandonedIsKept(s, a);
  }

  lemma OnlySubmitInserts(s: State, a: Action, k: Key)
    requires Enabled(s, a) && k !in s.jobs && !(a.SubmitInsert? && a.key == k)
    ensures k !in Next(s, a).jobs
  {
  }

  lemma AbandonedIsKept(s: State, a: Action)
    requires Enabled(s, a)
    ensures s.abandoned <= Next(s, a).abandoned
  {
  }

  /** In every reachable state, every job that is not terminal is listed by ListActiveJobs, unless its
      submission is still under way or a crash cut it off between the insert and the provider's answer. */
  lemma {:induction false} NoJobIsLost(s: State, acts: seq<Action>, k: Key)
    requires CanRun(s, acts) && (Init(s) || (PollersHavePath(s, k) && Accounted(s, k)))
    ensures PollersHavePath(Final(s, acts), k) && Accounted(Final(s, acts), k)
    decreases |acts|
  {
    if acts != [] {
      StepKeepsPollersHavePath(s, acts[0], k);
      StepKeepsAccounted(s, acts[0], k);
      NoJobIsLost(Next(s, acts[0]), acts[1..], k);
    }
  }

  // ----- Abandoned submissions

  ghost predicate Stranded(s: State, k: Key) {
    k in s.jobs && !HasPath(s, k) && !SubmissionPending(s, k) && PollersHavePath(s, k)
  }

  lemma StepKeepsStranded(s: State, a: Action, k: Key)
    requires Enabled(s, a) && Stranded(s, k)
    ensures Stranded(Next(s, a), k)
    ensures Next(s, a).jobs[k].status in {s.jobs[k].status, Cancelled}
  {
    StepKeepsPollersHavePath(s, a, k);
    assert a.SubmitFinish? ==> s.tasks[a.id].key != k;
    StatusWithoutPath(s, a, k);
    if SubmissionPending(Next(s, a), k) {
      SubmissionComesFrom(s, a, k);
    }
  }

  lemma SubmissionComesFrom(s: State, a: Action, k: Key)
    requires Enabled(s, a) && k in s.jobs && SubmissionPending(Next(s, a), k)
    ensures SubmissionPending(s, k)
  {
    var id :| id in Next(s, a).tasks && Next(s, a).tasks[id].Submitting? && Next(s, a).tasks[id].key == k;
    assert id in s.tasks && s.tasks[id] == Next(s, a).tasks[id];
  }

  lemma {:induction false} StrandedForGood(s: State, acts: seq<Action>, k: Key)
    requires CanRun(s, acts) && Stranded(s, k)
    ensures Stranded(Final(s, acts), k) && Final(s, acts).jobs[k].status in {s.jobs[k].status, Cancelled}
    decreases |acts|
  {
    if acts != [] {
      StepKeepsStranded(s, acts[0], k);
      StrandedForGood(Next(s, acts[0]), acts[1..], k);
    }
  }

  /** A job without a cloud path can ever become visible to the reconciler exactly when its
      submission is still under way: a worker that crashes in the middle of SubmitJob leaves a row
      that no worker picks up, and that only a cancellation can end. */
  lemma ListableExactlyWhileSubmitting(s: State, k: Key)
    requires PollersHavePath(s, k) && k in s.jobs && s.jobs[k].path == None
    ensures (exists acts :: CanRun(s, acts) && HasPath(Final(s, acts), k)) <==> SubmissionPending(s, k)
  {
    if SubmissionPending(s, k) {
      var id :| id in s.tasks && s.tasks[id].Submitting? && s.tasks[id].key == k;
      var acts := [SubmitFinish(id, Accepted("path", Unknown, CloudBatch))];
      RunOne(s, acts[0]);
      assert HasPath(Final(s, acts), k);
    } else {
      forall acts | CanRun(s, acts)
        ensures !HasPath(Final(s, acts), k)
      {
        StrandedForGood(s, acts, k);
      }
    }
  }

  // ----- Fail-over

  /** A registered poller is a live goroutine of that worker for that job that has not been told to stop. */
  ghost predicate LiveAt(s: State, at: Registration) {
    at in s.registry ==>
      var id := s.registry[at];
      && id in s.tasks && s.tasks[id].Polling? && !s.tasks[id].stopped
      && s.tasks[id].worker == at.worker && s.tasks[id].key == at.key
  }

  ghost predicate RegistryLive(s: State) {
    forall at :: at in s.registry ==> LiveAt(s, at)
  }

  lemma TickStepKeepsLiveAt(s: State, a: Action, at: Registration)
    requires Enabled(s, a) && LiveAt(s, at) && (a.TickClaim? || a.TickFault? || a.StopExit?)
    ensures LiveAt(Next(s, a), at)
  {
  }

  lemma CheckStepKeepsLiveAt(s: State, a: Action, at: Registration)
    requires Enabled(s, a) && LiveAt(s, at) && (a.TickCheck? || a.TickWrite?)
    ensures LiveAt(Next(s, a), at)
  {
  }

  lemma HandlerStepKeepsLiveAt(s: State, a: Action, at: Registration)
    requires Enabled(s, a) && LiveAt(s, at) && !PollerStep(a) && !a.CancelWrite?
    ensures LiveAt(Next(s, a), at)
  {
  }

  /** A cancellation stops and forgets the poller registered for its job; no other place has the same poller. */
  lemma CancelKeepsLiveAt(s: State, a: Action, at: Registration)
    requires Enabled(s, a) && RegistryLive(s) && a.CancelWrite?
    ensures LiveAt(Next(s, a), at)
  {
    var other := Registration(s.tasks[a.id].worker, s.tasks[a.id].key);
    assert LiveAt(s, at) && LiveAt(s, other);
  }

  lemma StepKeepsRegistryLive(s: State, a: Action)
    requires Enabled(s, a) && RegistryLive(s)
    ensures RegistryLive(Next(s, a))
  {
    forall at | at in Next(s, a).registry
      ensures LiveAt(Next(s, a), at)
    {
      assert LiveAt(s, at);
      if a.CancelWrite? {
        CancelKeepsLiveAt(s, a, at);
      } else if a.TickCheck? || a.TickWrite? {
        CheckStepKeepsLiveAt(s, a, at);
      } else if PollerStep(a) {
        TickStepKeepsLiveAt(s, a, at);
      } else {
        HandlerStepKeepsLiveAt(s, a, at);
      }
    }
  }

  lemma {:induction false} RunKeepsRegistryLive(s: State, acts: seq<Action>)
    requires CanRun(s, acts) && (Init(s) || RegistryLive(s))
    ensures RegistryLive(Final(s, acts))
    decreases |acts|
  {
    if acts != [] {
      StepKeepsRegistryLive(s, acts[0]);
      RunKeepsRegistryLive(Next(s, acts[0]), acts[1..]);
    }
  }

  lemma FreshId(s: State) returns (id: TaskId)
    ensures id !in s.tasks
  {
    var ids := s.tasks.Keys;
    id := 0;
    while ids != {}
      invariant ids <= s.tasks.Keys
      invariant forall i :: i in s.tasks && i !in ids ==> i < id
      decreases |ids|
    {
      var i: TaskId :| i in ids;
      ids := ids - {i};
      if id <= i {
        id := i + 1;
      }
    }
  }

  /** The steps of an uninterrupted pass over what is left of a listing: each claim is made, or fails. */
  ghost predicate ArePassSteps(acts: seq<Action>, id: TaskId) {
    forall i :: 0 <= i < |acts| ==> (acts[i].ReconcileClaim? || acts[i].ReconcileFault?) && acts[i].id == id
  }

  /** The goroutine that works through a listing. */
  ghost predicate Passing(s: State, id: TaskId, w: WorkerId, pending: seq<Listed>) {
    && id in s.tasks && s.tasks[id] == Reconciling(w, pending) && w in s.ttl
    && forall i :: 0 <= i < |pending| ==> pending[i].key in s.jobs
  }

  lemma PassStepGoesOn(s: State, a: Action, id: TaskId, w: WorkerId, pending: seq<Listed>)
    requires Enabled(s, a) && (a.ReconcileClaim? || a.ReconcileFault?) && a.id == id && Passing(s, id, w, pending)
    ensures Next(s, a).clock == s.clock && Next(s, a).ttl == s.ttl && Next(s, a).jobs.Keys == s.jobs.Keys
    ensures |pending| > 1 ==> Passing(Next(s, a), id, w, pending[1..])
  {
  }

  /** What one step of a pass does to one job. */
  lemma PassStepOnKey(s: State, a: Action, id: TaskId, w: WorkerId, pending: seq<Listed>, k: Key)
    requires Enabled(s, a) && (a.ReconcileClaim? || a.ReconcileFault?) && a.id == id && Passing(s, id, w, pending)
    requires pending != [] && k in s.jobs
    ensures var t, mine := Next(s, a), Registration(w, k);
      && k in t.jobs
      && if pending[0].key == k then
           && t.jobs[k] == ClaimOf(s, a, w, k).row
           && (mine in t.registry <==> mine in s.registry || ClaimOf(s, a, w, k).claimed)
         else t.jobs[k] == s.jobs[k] && (mine in t.registry <==> mine in s.registry)
  {
  }

  /** Unlisted jobs are left alone by the rest of a pass. */
  lemma {:induction false} PassSpares(
    s: State, acts: seq<Action>, id: TaskId, w: WorkerId, pending: seq<Listed>, k: Key)
    requires CanRun(s, acts) && ArePassSteps(acts, id) && |acts| == |pending|
    requires (pending != [] ==> Passing(s, id, w, pending)) && k in s.jobs && RegistryLive(s)
    requires forall i :: 0 <= i < |pending| ==> pending[i].key != k
    ensures var u := Final(s, acts);
      && k in u.jobs && RegistryLive(u) && u.jobs[k] == s.jobs[k]
      && (Registration(w, k) in u.registry <==> Registration(w, k) in s.registry)
    decreases |acts|
  {
    if acts != [] {
      PassStepGoesOn(s, acts[0], id, w, pending);
      PassStepOnKey(s, acts[0], id, w, pending, k);
      StepKeepsRegistryLive(s, acts[0]);
      PassSpares(Next(s, acts[0]), acts[1..], id, w, pending[1..], k);
    }
  }

  /** What a pass does to the job it comes to next. */
  lemma PassTakes(s: State, acts: seq<Action>, id: TaskId, w: WorkerId, pending: seq<Listed>, k: Key)
    requires CanRun(s, acts) && ArePassSteps(acts, id) && |acts| == |pending| > 0 && Passing(s, id, w, pending)
    requires k in s.jobs && RegistryLive(s)
    requires forall i :: 0 <= i < |pending| ==> (pending[i].key == k <==> i == 0)
    ensures var u, mine, attempt := Final(s, acts), Registration(w, k), ClaimOf(s, acts[0], w, k);
      && k in u.jobs && RegistryLive(u) && u.jobs[k] == attempt.row
      && (mine in u.registry <==> mine in s.registry || attempt.claimed)
  {
    PassStepGoesOn(s, acts[0], id, w, pending);
    PassStepOnKey(s, acts[0], id, w, pending, k);
    StepKeepsRegistryLive(s, acts[0]);
    PassSpares(Next(s, acts[0]), acts[1..], id, w, pending[1..], k);
  }

  /** What a pass does to the job that is listed at index `at`. */
  lemma {:induction false} PassReaches(
    s: State, acts: seq<Action>, id: TaskId, w: WorkerId, pending: seq<Listed>, k: Key, at: nat)
    requires CanRun(s, acts) && ArePassSteps(acts, id) && |acts| == |pending| && Passing(s, id, w, pending)
    requires k in s.jobs && RegistryLive(s) && at < |pending|
    requires forall i :: 0 <= i < |pending| ==> (pending[i].key == k <==> i == at)
    ensures var u, mine, attempt := Final(s, acts), Registration(w, k), ClaimOf(s, acts[at], w, k);
      && k in u.jobs && RegistryLive(u) && u.jobs[k] == attempt.row
      && (mine in u.registry <==> mine in s.registry || attempt.claimed)
    decreases |acts|
  {
    if at == 0 {
      PassTakes(s, acts, id, w, pending, k);
    } else {
      PassStepGoesOn(s, acts[0], id, w, pending);
      PassStepOnKey(s, acts[0], id, w, pending, k);
      StepKeepsRegistryLive(s, acts[0]);
      PassReaches(Next(s, acts[0]), acts[1..], id, w, pending[1..], k, at - 1);
    }
  }

  /** A claim of a pass for job k, or no attempt if it fails at the database. */
  ghost function ClaimOf(s: State, a: Action, w: WorkerId, k: Key): Attempt
    requires k in s.jobs && w in s.ttl
  {
    if a.ReconcileClaim? then Claim(s.jobs[k], w, s.clock, a.asked + s.ttl[w]) else Attempt(s.jobs[k], false)
  }

  /** Goroutine `id` of the worker can list the jobs and then take the given steps without interruption. */
  ghost predicate IsPass(s: State, worker: WorkerService, id: TaskId, listing: seq<Listed>, acts: seq<Action>) {
    && worker.workerID in s.ttl && s.ttl[worker.workerID] == worker.leaseTTL
    && Enabled(s, ReconcileList(worker.workerID, id, listing))
    && CanRun(Next(s, ReconcileList(worker.workerID, id, listing)), acts)
    && ArePassSteps(acts, id) && |acts| == |listing|
  }

  ghost function AfterPass(s: State, worker: WorkerService, id: TaskId, listing: seq<Listed>, acts: seq<Action>): State
    requires IsPass(s, worker, id, listing, acts)
  {
    Final(Next(s, ReconcileList(worker.workerID, id, listing)), acts)
  }

  lemma ListingStarts(s: State, w: WorkerId, id: TaskId, listing: seq<Listed>)
    requires Enabled(s, ReconcileList(w, id, listing)) && RegistryLive(s)
    ensures var t := Next(s, ReconcileList(w, id, listing));
      && Passing(t, id, w, listing) && RegistryLive(t)
      && t.jobs == s.jobs && t.registry == s.registry && t.clock == s.clock && t.ttl == s.ttl
  {
    StepKeepsRegistryLive(s, ReconcileList(w, id, listing));
  }

  lemma ListedJobIsClaimed(
    s: State, worker: WorkerService, id: TaskId, listing: seq<Listed>, acts: seq<Action>, k: Key, at: nat)
    requires RegistryLive(s) && IsPass(s, worker, id, listing, acts) && k in s.jobs && at < |listing|
    requires forall i :: 0 <= i < |listing| ==> (listing[i].key == k <==> i == at)
    ensures var u, mine := AfterPass(s, worker, id, listing, acts), Registration(worker.workerID, k);
      var attempt := ClaimOf(s, acts[at], worker.workerID, k);
      && RegistryLive(u) && k in u.jobs && u.jobs[k] == attempt.row
      && (mine in u.registry <==> mine in s.registry || attempt.claimed)
  {
    var w := worker.workerID;
    ListingStarts(s, w, id, listing);
    PassReaches(Next(s, ReconcileList(w, id, listing)), acts, id, w, listing, k, at);
  }

  lemma UnlistedJobIsSpared(
    s: State, worker: WorkerService, id: TaskId, listing: seq<Listed>, acts: seq<Action>, k: Key)
    requires RegistryLive(s) && IsPass(s, worker, id, listing, acts) && k in s.jobs
    requires forall i :: 0 <= i < |listing| ==> listing[i].key != k
    ensures var u, mine := AfterPass(s, worker, id, listing, acts), Registration(worker.workerID, k);
      && RegistryLive(u) && k in u.jobs && u.jobs[k] == s.jobs[k] && (mine in u.registry <==> mine in s.registry)
  {
    var w := worker.workerID;
    ListingStarts(s, w, id, listing);
    PassSpares(Next(s, ReconcileList(w, id, listing)), acts, id, w, listing, k);
  }

  /** An uninterrupted reconcile pass, from any reachable state and over any listing, does to every job
      what the worker's reconcile method does: the row is as after its claim, or as before if it was
      not listed or its claim failed, and the registered jobs are those of before and those claimed. */
  lemma UninterruptedPassReconciles(
    s: State, worker: WorkerService, id: TaskId, listing: seq<Listed>, acts: seq<Action>, k: Key, at: nat)
    requires RegistryLive(s) && IsPass(s, worker, id, listing, acts)
    requires k in s.jobs && forall i :: 0 <= i < |listing| ==> (listing[i].key == k <==> i == at)
    ensures var u, mine := AfterPass(s, worker, id, listing, acts), Registration(worker.workerID, k);
      && RegistryLive(u) && k in u.jobs
      && if at < |acts| && acts[at].ReconcileClaim? then
           var times := Times(acts[at].asked, s.clock);
           && u.jobs[k] == worker.RowAfter(s.jobs[k], times)
           && (mine in u.registry <==> mine in s.registry || worker.Takes(s.jobs[k], times))
         else u.jobs[k] == s.jobs[k] && (mine in u.registry <==> mine in s.registry)
  {
    if at < |listing| {
      ListedJobIsClaimed(s, worker, id, listing, acts, k, at);
      assert listing[at].key == k && s.jobs[k].Active();
    } else {
      UnlistedJobIsSpared(s, worker, id, listing, acts, k);
    }
  }

  /** The job is owned by w, with the given lease, and w has a live poller registered for it. */
  ghost predicate PolledBy(s: State, k: Key, w: WorkerId, leaseUntil: int) {
    && k in s.jobs && s.jobs[k].owner == Some(w) && s.jobs[k].leaseExpiresAt == Some(leaseUntil)
    && Registration(w, k) in s.registry && LiveAt(s, Registration(w, k))
  }

  /** Fail-over: whichever worker reconciles, in every uninterrupted pass in which the claim for an
      active job does not fail, it becomes the owner, with a live registered poller, exactly when the
      job is unowned, its lease has expired, or the worker is preferred or the owner already;
      otherwise the job stays as it was. */
  lemma ReconcileTakesOver(
    s: State, worker: WorkerService, id: TaskId, listing: seq<Listed>, acts: seq<Action>, k: Key, at: nat)
    requires RegistryLive(s) && IsPass(s, worker, id, listing, acts)
    requires k in s.jobs && s.jobs[k].Active()
    requires at < |listing| && listing[at].key == k && acts[at].ReconcileClaim?
    ensures var u := AfterPass(s, worker, id, listing, acts);
      if s.jobs[k].CanClaim(worker.workerID, s.clock) then
        PolledBy(u, k, worker.workerID, acts[at].asked + worker.leaseTTL)
      else k in u.jobs && u.jobs[k] == s.jobs[k]
  {
    UninterruptedPassReconciles(s, worker, id, listing, acts, k, at);
  }

  lemma {:induction false} PassCanRun(s: State, id: TaskId, w: WorkerId, pending: seq<Listed>)
    returns (acts: seq<Action>)
    requires Passing(s, id, w, pending) && pending != []
    ensures CanRun(s, acts) && ArePassSteps(acts, id) && |acts| == |pending|
    ensures forall i :: 0 <= i < |acts| ==> acts[i].ReconcileClaim? && acts[i].asked == s.clock
    decreases |pending|
  {
    var poller := FreshId(s);
    var a := ReconcileClaim(id, s.clock, poller);
    PassStepGoesOn(s, a, id, w, pending);
    var rest: seq<Action> := [];
    if |pending| > 1 {
      rest := PassCanRun(Next(s, a), id, w, pending[1..]);
    }
    acts := [a] + rest;
    assert acts[1..] == rest;
  }

  /** From every reachable state and for every listing, there is a pass in which no claim fails. */
  lemma PassExists(s: State, worker: WorkerService, listing: seq<Listed>) returns (id: TaskId, acts: seq<Action>)
    requires worker.workerID in s.ttl && s.ttl[worker.workerID] == worker.leaseTTL
    requires RegistryLive(s) && listing != [] && IsActiveListing(s.jobs, listing)
    ensures IsPass(s, worker, id, listing, acts)
    ensures forall i :: 0 <= i < |acts| ==> acts[i].ReconcileClaim? && acts[i].asked == s.clock
  {
    id := FreshId(s);
    ListingStarts(s, worker.workerID, id, listing);
    acts := PassCanRun(Next(s, ReconcileList(worker.workerID, id, listing)), id, worker.workerID, listing);
  }
}
