/** How far the code's own mechanisms, leases and poller registries, make the handling of a job
    serial, as module TerminalStatus asks for. */
module SerialPolling {
  import opened Wrappers
  import opened Jobs
  import opened Pollers
  import opened Cluster
  import opened TerminalStatus
  import opened Leases
  import opened Availability

  // ----- One poller per worker

  /** Every live poller of job k is the one its worker has registered. */
  ghost predicate OnlyRegistered(s: State, k: Key) {
    forall id :: id in s.tasks && s.tasks[id].Polling? && s.tasks[id].key == k ==>
      var at := Registration(s.tasks[id].worker, k);
      at in s.registry && s.registry[at] == id
  }

  /** A poller's step leaves other pollers alone; it keeps the poller's worker and key, or the poller
      and its registration end together. */
  lemma PollerStepKeepsRegistered(s: State, a: Action, k: Key)
    requires Enabled(s, a) && OnlyRegistered(s, k) && PollerStep(a)
    ensures OnlyRegistered(Next(s, a), k)
  {
    if a.TickClaim? {
      TickClaimKeepsRegistered(s, a, k);
    } else if a.TickCheck? {
      TickCheckKeepsRegistered(s, a, k);
    } else if a.TickWrite? {
      TickWriteKeepsRegistered(s, a, k);
    }
  }

  lemma TickClaimKeepsRegistered(s: State, a: Action, k: Key)
    requires Enabled(s, a) && OnlyRegistered(s, k) && a.TickClaim?
    ensures OnlyRegistered(Next(s, a), k)
  {
  }

  lemma TickCheckKeepsRegistered(s: State, a: Action, k: Key)
    requires Enabled(s, a) && OnlyRegistered(s, k) && a.TickCheck?
    ensures OnlyRegistered(Next(s, a), k)
  {
  }

  lemma TickWriteKeepsRegistered(s: State, a: Action, k: Key)
    requires Enabled(s, a) && OnlyRegistered(s, k) && a.TickWrite?
    ensures OnlyRegistered(Next(s, a), k)
  {
  }

  lemma HandlerStepKeepsRegistered(s: State, a: Action, k: Key)
    requires Enabled(s, a) && OnlyRegistered(s, k) && !PollerStep(a)
    requires a.CancelWrite? ==> s.tasks[a.id].key != k
    ensures OnlyRegistered(Next(s, a), k)
  {
  }

  // ----- Submissions come first

  ghost predicate IsSubmission(s: State, id: TaskId, k: Key) {
    id in s.tasks && s.tasks[id].Submitting? && s.tasks[id].key == k
  }

  /** While job k is being submitted, which happens once, it has no path, and so no poller. */
  ghost predicate SubmittedFirst(s: State, k: Key) {
    && (forall id :: IsSubmission(s, id, k) ==> k in s.jobs && !HasPath(s, k))
    && (forall i, j :: IsSubmission(s, i, k) && IsSubmission(s, j, k) ==> i == j)
  }

  lemma SubmissionBegins(s: State, a: Action, id: TaskId, k: Key)
    requires Enabled(s, a) && IsSubmission(Next(s, a), id, k)
    ensures IsSubmission(s, id, k) || (a.SubmitInsert? && a.id == id && a.key == k)
    ensures IsSubmission(s, id, k) ==> !(a.SubmitFinish? && a.id == id)
  {
    if PollerStep(a) {
      PollerStepsKeepTasks(s, a, id);
    } else {
      HandlersBeginSubmissions(s, a, id, k);
    }
  }

  lemma HandlersBeginSubmissions(s: State, a: Action, id: TaskId, k: Key)
    requires Enabled(s, a) && !PollerStep(a) && IsSubmission(Next(s, a), id, k)
    ensures IsSubmission(s, id, k) || (a.SubmitInsert? && a.id == id && a.key == k)
    ensures IsSubmission(s, id, k) ==> !(a.SubmitFinish? && a.id == id)
  {
  }

  lemma StepKeepsSubmittedFirst(s: State, a: Action, k: Key)
    requires Enabled(s, a) && SubmittedFirst(s, k) && PollersHavePath(s, k)
    ensures SubmittedFirst(Next(s, a), k)
  {
    var t := Next(s, a);
    forall id | IsSubmission(t, id, k)
      ensures k in t.jobs && !HasPath(t, k)
    {
      SubmissionBegins(s, a, id, k);
      if IsSubmission(s, id, k) {
        assert a.SubmitFinish? ==> IsSubmission(s, a.id, s.tasks[a.id].key);
        StatusWithoutPath(s, a, k);
      }
    }
    forall i, j | IsSubmission(t, i, k) && IsSubmission(t, j, k)
      ensures i == j
    {
      SubmissionBegins(s, a, i, k);
      SubmissionBegins(s, a, j, k);
    }
  }

  // ----- No cancellation

  ghost predicate NotCancelling(s: State, k: Key) {
    forall id :: id in s.tasks && s.tasks[id].Cancelling? ==> s.tasks[id].key != k
  }

  lemma StepKeepsNotCancelling(s: State, a: Action, k: Key)
    requires Enabled(s, a) && NotCancelling(s, k) && !(a.CancelRead? && a.key == k)
    ensures NotCancelling(Next(s, a), k)
  {
    forall id | id in Next(s, a).tasks && Next(s, a).tasks[id].Cancelling?
      ensures Next(s, a).tasks[id].key != k
    {
      if PollerStep(a) {
        PollerStepsKeepTasks(s, a, id);
      }
    }
  }

  /** Nobody asks for the cancellation of job k. */
  ghost predicate NoCancellation(acts: seq<Action>, k: Key) {
    forall i :: 0 <= i < |acts| && acts[i].CancelRead? ==> acts[i].key != k
  }

  // ----- Main results

  ghost predicate Orderly(s: State, k: Key) {
    && OnlyRegistered(s, k) && SubmittedFirst(s, k) && PollersHavePath(s, k) && NotCancelling(s, k)
    && TicksGuarded(s, k) && !Overlap(s, k)
  }

  lemma OrderlyIsSerial(s: State, k: Key)
    requires Orderly(s, k)
    ensures Serial(s, k)
  {
    forall id | InFlight(s, id, k)
      ensures if HasPath(s, k) then TickInFlight(s, id, k) else IsSubmission(s, id, k)
    {
      assert s.tasks[id].Polling? ==> NeedsPath(s.tasks[id], k);
      assert s.tasks[id].Submitting? ==> IsSubmission(s, id, k);
    }
  }

  lemma StepKeepsOrderly(s: State, a: Action, k: Key)
    requires Enabled(s, a) && Orderly(s, k) && TimelyStep(s, a, k)
    requires !(a.TickClaim? && TakesOver(s, a, k)) && !(a.CancelRead? && a.key == k)
    ensures Orderly(Next(s, a), k)
  {
    if PollerStep(a) {
      PollerStepKeepsRegistered(s, a, k);
    } else {
      HandlerStepKeepsRegistered(s, a, k);
    }
    StepKeepsSubmittedFirst(s, a, k);
    StepKeepsPollersHavePath(s, a, k);
    StepKeepsNotCancelling(s, a, k);
    StepKeepsTicksGuarded(s, a, k);
    OverlapExactlyOnTakeover(s, a, k);
  }

  /** The code's own mechanisms make the handling of a job serial, without any lock per job: over every
      timely run, if nobody cancels it and no tick begins by the preferred worker's claim in the
      middle of another worker's. */
  lemma {:induction false} UncancelledRunIsSerial(s: State, acts: seq<Action>, k: Key)
    requires CanRun(s, acts) && (Init(s) || Orderly(s, k))
    requires TimelyRun(s, acts, k) && NoTickTakesOver(s, acts, k) && NoCancellation(acts, k)
    ensures SerialRun(s, acts, k) && Orderly(Final(s, acts), k)
    decreases |acts|
  {
    OrderlyIsSerial(s, k);
    if acts != [] {
      StepKeepsOrderly(s, acts[0], k);
      UncancelledRunIsSerial(Next(s, acts[0]), acts[1..], k);
    }
  }

  /** So a job that becomes terminal in such a run has exactly one terminal event (none if the provider
      had called it terminal at submission), with the status that is stored, and whatever follows,
      cancellations and untimely steps included, changes neither. */
  lemma UncancelledJobEndsOnce(s: State, acts: seq<Action>, later: seq<Action>, k: Key)
    requires Init(s) && CanRun(s, acts) && CanRun(Final(s, acts), later)
    requires TimelyRun(s, acts, k) && NoTickTakesOver(s, acts, k) && NoCancellation(acts, k)
    requires k in Final(s, acts).jobs && Final(s, acts).jobs[k].status.Terminal()
    ensures var t, u := Final(s, acts), Final(Final(s, acts), later);
      && k in u.jobs && u.jobs[k].status == t.jobs[k].status
      && EventsOf(u.log, k) == if BornTerminal(t.log, k) then [] else [t.jobs[k].status]
  {
    UncancelledRunIsSerial(s, acts, k);
    TerminalOnceAndForAll(s, acts, later, k);
  }
}
