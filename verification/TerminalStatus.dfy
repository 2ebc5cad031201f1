/** What becomes of a job once its status is terminal: over every interleaving of the steps of
    module Cluster, exactly when it stays put, and how often it is announced. */
module TerminalStatus {
  import opened Wrappers
  import opened Jobs
  import opened Pollers
  import opened Cluster

  /** A goroutine is past its guard on job k and may still write the job's status. */
  ghost predicate InFlight(s: State, id: TaskId, k: Key) {
    && id in s.tasks
    && match s.tasks[id]
       case Polling(_, key, _, _, phase, _) => key == k && !phase.Waiting?
       case Submitting(_, key) => key == k
       case Cancelling(_, key, _) => key == k
       case _ => false
  }

  /** An in-flight goroutine that can write a status other than the one stored. */
  ghost predicate Threatens(s: State, id: TaskId, k: Key)
    requires k in s.jobs
  {
    && InFlight(s, id, k)
    && match s.tasks[id]
       case Polling(_, _, _, _, Writing(_, to), _) => to != s.jobs[k].status
       case Cancelling(_, _, _) => s.jobs[k].status != Cancelled
       case _ => true
  }

  ghost predicate Unthreatened(s: State, k: Key, status: Status) {
    && k in s.jobs && s.jobs[k].status == status
    && forall id :: id in s.tasks ==> !Threatens(s, id, k)
  }

  /** The three steps that write the status of job k; each is made by a goroutine in flight on k. */
  ghost predicate Writes(s: State, a: Action, k: Key)
    requires Enabled(s, a)
  {
    (a.SubmitFinish? || a.CancelWrite? || a.TickWrite?) && s.tasks[a.id].key == k
  }

  /** The three steps that read a guard on job k and can put their goroutine in flight. */
  ghost predicate ReadsGuard(s: State, a: Action, k: Key)
    requires Enabled(s, a)
  {
    || ((a.SubmitInsert? || a.CancelRead?) && a.key == k)
    || (a.TickClaim? && s.tasks[a.id].key == k)
  }

  /** A goroutine gets past its guard only by reading it, on a job that is not terminal. */
  lemma InFlightComesFrom(s: State, a: Action, id: TaskId, k: Key)
    requires Enabled(s, a) && InFlight(Next(s, a), id, k)
    ensures InFlight(s, id, k) ||
      (ReadsGuard(s, a, k) && a.id == id && k in Next(s, a).jobs && !Next(s, a).jobs[k].status.Terminal())
  {
    if PollerStep(a) {
      PollerInFlightComesFrom(s, a, id, k);
    } else {
      HandlerInFlightComesFrom(s, a, id, k);
    }
  }

  lemma PollerInFlightComesFrom(s: State, a: Action, id: TaskId, k: Key)
    requires Enabled(s, a) && PollerStep(a) && InFlight(Next(s, a), id, k)
    ensures InFlight(s, id, k) ||
      (ReadsGuard(s, a, k) && a.id == id && k in Next(s, a).jobs && !Next(s, a).jobs[k].status.Terminal())
  {
  }

  lemma HandlerInFlightComesFrom(s: State, a: Action, id: TaskId, k: Key)
    requires Enabled(s, a) && !PollerStep(a) && InFlight(Next(s, a), id, k)
    ensures InFlight(s, id, k) ||
      (ReadsGuard(s, a, k) && a.id == id && k in Next(s, a).jobs && !Next(s, a).jobs[k].status.Terminal())
  {
  }

  /** Between its guard and its write a goroutine is changed by nobody else, except that a
      cancellation may tell a poller to stop. */
  lemma InFlightStaysTheSame(s: State, a: Action, id: TaskId, k: Key)
    requires Enabled(s, a) && InFlight(Next(s, a), id, k) && InFlight(s, id, k) && !(a.TickCheck? && a.id == id)
    ensures Next(s, a).tasks[id] == s.tasks[id] ||
      (s.tasks[id].Polling? && Next(s, a).tasks[id] == s.tasks[id].(stopped := true))
  {
    if PollerStep(a) {
      PollersLeaveInFlight(s, a, id, k);
    } else {
      HandlersLeaveInFlight(s, a, id, k);
    }
  }

  lemma PollersLeaveInFlight(s: State, a: Action, id: TaskId, k: Key)
    requires Enabled(s, a) && PollerStep(a) && !(a.TickCheck? && a.id == id)
    requires InFlight(Next(s, a), id, k) && InFlight(s, id, k)
    ensures Next(s, a).tasks[id] == s.tasks[id]
  {
  }

  lemma HandlersLeaveInFlight(s: State, a: Action, id: TaskId, k: Key)
    requires Enabled(s, a) && !PollerStep(a) && InFlight(Next(s, a), id, k) && InFlight(s, id, k)
    ensures Next(s, a).tasks[id] == s.tasks[id] ||
      (s.tasks[id].Polling? && Next(s, a).tasks[id] == s.tasks[id].(stopped := true))
  {
  }

  lemma QuietStep(s: State, a: Action, k: Key)
    requires Enabled(s, a) && !Writes(s, a, k)
    ensures k in s.jobs ==> k in Next(s, a).jobs && Next(s, a).jobs[k].status == s.jobs[k].status
    ensures k !in s.jobs && k in Next(s, a).jobs ==> Next(s, a).jobs[k].status.Pending?
  {
  }

  lemma StepKeepsUnthreatened(s: State, a: Action, k: Key, status: Status)
    requires Enabled(s, a) && Unthreatened(s, k, status) && status.Terminal()
    ensures Unthreatened(Next(s, a), k, status)
  {
    if !Writes(s, a, k) {
      QuietStep(s, a, k);
    } else {
      assert InFlight(s, a.id, k) && !Threatens(s, a.id, k);
    }
    forall id | id in Next(s, a).tasks
      ensures !Threatens(Next(s, a), id, k)
    {
      if InFlight(Next(s, a), id, k) {
        InFlightComesFrom(s, a, id, k);
        assert !Threatens(s, id, k);
        if !(a.TickCheck? && a.id == id) {
          InFlightStaysTheSame(s, a, id, k);
        }
      }
    }
  }

  lemma {:induction false} UnthreatenedStays(s: State, acts: seq<Action>, k: Key, status: Status)
    requires CanRun(s, acts) && Unthreatened(s, k, status) && status.Terminal()
    ensures Unthreatened(Final(s, acts), k, status)
    decreases |acts|
  {
    if acts != [] {
      StepKeepsUnthreatened(s, acts[0], k, status);
      UnthreatenedStays(Next(s, acts[0]), acts[1..], k, status);
    }
  }

  /** A threat can be carried out: some run writes another status. */
  lemma ThreatCanStrike(s: State, id: TaskId, k: Key) returns (acts: seq<Action>)
    requires k in s.jobs && Threatens(s, id, k)
    ensures CanRun(s, acts) && k in Final(s, acts).jobs && Final(s, acts).jobs[k].status != s.jobs[k].status
  {
    var status := s.jobs[k].status;
    match s.tasks[id]
    case Submitting(_, _) =>
      acts := [SubmitFinish(id, if status.Failed? then Accepted("", Unknown, CloudBatch) else Rejected)];
      RunOne(s, acts[0]);
    case Cancelling(_, _, _) =>
      acts := [CancelWrite(id)];
      RunOne(s, acts[0]);
    case Polling(_, _, _, p, phase, _) =>
      if phase.Writing? {
        acts := [TickWrite(id)];
        RunOne(s, acts[0]);
      } else {
        var to :| to != status && to != p.current;
        acts := [TickCheck(id, Reported(Known(to)), None), TickWrite(id)];
        RunTwo(s, acts[0], acts[1]);
      }
  }

  /** No continuation ever changes the status. */
  ghost predicate Absorbed(s: State, k: Key) {
    && k in s.jobs
    && forall acts :: CanRun(s, acts) ==> k in Final(s, acts).jobs && Final(s, acts).jobs[k].status == s.jobs[k].status
  }

  /** A terminal status is final exactly when no goroutine is past its guard with another status to write. */
  lemma TerminalIsFinalExactlyWhenUnthreatened(s: State, k: Key)
    requires k in s.jobs && s.jobs[k].status.Terminal()
    ensures Absorbed(s, k) <==> forall id :: id in s.tasks ==> !Threatens(s, id, k)
  {
    if forall id :: id in s.tasks ==> !Threatens(s, id, k) {
      forall acts | CanRun(s, acts)
        ensures k in Final(s, acts).jobs && Final(s, acts).jobs[k].status == s.jobs[k].status
      {
        UnthreatenedStays(s, acts, k, s.jobs[k].status);
      }
    } else {
      var id :| id in s.tasks && Threatens(s, id, k);
      var acts := ThreatCanStrike(s, id, k);
    }
  }

  // ----- Terminal events

  /** The terminal events published for job k, in order. */
  ghost function EventsOf(log: seq<Entry>, k: Key): seq<Status> {
    if log == [] then []
    else
      var before := EventsOf(log[..|log| - 1], k);
      match log[|log| - 1]
      case Published(key, status) => if key == k then before + [status] else before
      case _ => before
  }

  /** The provider reported a terminal status for job k at submission, so no poller ever announces it. */
  ghost predicate BornTerminal(log: seq<Entry>, k: Key) {
    exists i :: 0 <= i < |log| && log[i].Submitted? && log[i].key == k && log[i].status.Terminal()
  }

  lemma LogAppended(log: seq<Entry>, e: Entry, k: Key)
    ensures EventsOf(log + [e], k)
         == if e.Published? && e.key == k then EventsOf(log, k) + [e.status] else EventsOf(log, k)
    ensures BornTerminal(log + [e], k) <==> BornTerminal(log, k) || (e.Submitted? && e.key == k && e.status.Terminal())
  {
    assert (log + [e])[..|log|] == log;
    if BornTerminal(log, k) {
      var i :| 0 <= i < |log| && log[i].Submitted? && log[i].key == k && log[i].status.Terminal();
      assert (log + [e])[i] == log[i];
    }
    assert (log + [e])[|log|] == e;
  }

  /** At most one goroutine is past its guard on job k. */
  ghost predicate Serial(s: State, k: Key) {
    forall i, j :: InFlight(s, i, k) && InFlight(s, j, k) ==> i == j
  }

  ghost predicate SerialRun(s: State, acts: seq<Action>, k: Key)
    requires CanRun(s, acts)
    decreases |acts|
  {
    Serial(s, k) && (acts == [] || SerialRun(Next(s, acts[0]), acts[1..], k))
  }

  /** Every guard on job k is read while nobody else is in flight on it, as under a lock per job. */
  ghost predicate LockPerJob(s: State, acts: seq<Action>, k: Key)
    requires CanRun(s, acts)
    decreases |acts|
  {
    acts == [] || (
      && (ReadsGuard(s, acts[0], k) ==> forall id :: !InFlight(s, id, k))
      && LockPerJob(Next(s, acts[0]), acts[1..], k))
  }

  lemma {:induction false} LockPerJobIsSerial(s: State, acts: seq<Action>, k: Key)
    requires CanRun(s, acts) && LockPerJob(s, acts, k) && Serial(s, k)
    ensures SerialRun(s, acts, k)
    decreases |acts|
  {
    if acts != [] {
      var t := Next(s, acts[0]);
      forall i, j | InFlight(t, i, k) && InFlight(t, j, k)
        ensures i == j
      {
        InFlightComesFrom(s, acts[0], i, k);
        InFlightComesFrom(s, acts[0], j, k);
      }
      LockPerJobIsSerial(t, acts[1..], k);
    }
  }

  /** Nothing is in flight on a terminal job, and it has been announced once with its stored status,
      unless it was born terminal; a job that is not terminal has not been announced. */
  ghost predicate AnnouncedOnce(s: State, k: Key) {
    && (k !in s.jobs ==> EventsOf(s.log, k) == [] && !BornTerminal(s.log, k) && forall id :: !InFlight(s, id, k))
    && (k in s.jobs && !s.jobs[k].status.Terminal() ==> EventsOf(s.log, k) == [] && !BornTerminal(s.log, k))
    && (k in s.jobs && s.jobs[k].status.Terminal() ==>
          && EventsOf(s.log, k) == (if BornTerminal(s.log, k) then [] else [s.jobs[k].status])
          && forall id :: !InFlight(s, id, k))
  }

  lemma QuietLog(s: State, a: Action, k: Key)
    requires Enabled(s, a) && !Writes(s, a, k)
    ensures EventsOf(Next(s, a).log, k) == EventsOf(s.log, k)
    ensures BornTerminal(Next(s, a).log, k) <==> BornTerminal(s.log, k)
  {
    match a
    case SubmitFinish(id, outcome) =>
      var entry := if outcome.Rejected? then Published(s.tasks[id].key, Failed)
                   else Submitted(s.tasks[id].key, StatusToSet(outcome.initial));
      LogAppended(s.log, entry, k);
    case CancelWrite(id) =>
      var t := s.tasks[id];
      var audited := Audited(t.key, Transition(t.from, Cancelled));
      LogAppended(s.log, audited, k);
      LogAppended(s.log + [audited], Published(t.key, Cancelled), k);
    case TickWrite(id) =>
      var t := s.tasks[id];
      var audited := Audited(t.key, Transition(t.phase.from, t.phase.to));
      LogAppended(s.log, audited, k);
      LogAppended(s.log + [audited], Published(t.key, t.phase.to), k);
    case _ =>
  }

  /** A write that makes the job terminal logs that status, as an event or as the provider's
      report, and takes its goroutine out of flight; any other write logs nothing of the kind. */
  lemma WritingLog(s: State, a: Action, k: Key)
    requires Enabled(s, a) && Writes(s, a, k)
    ensures var t := Next(s, a);
      && k in t.jobs
      && (!t.jobs[k].status.Terminal() ==>
            EventsOf(t.log, k) == EventsOf(s.log, k) && (BornTerminal(t.log, k) <==> BornTerminal(s.log, k)))
      && (t.jobs[k].status.Terminal() ==>
            && !InFlight(t, a.id, k)
            && if a.SubmitFinish? && a.outcome.Accepted? then
                 BornTerminal(t.log, k) && EventsOf(t.log, k) == EventsOf(s.log, k)
               else
                 && EventsOf(t.log, k) == EventsOf(s.log, k) + [t.jobs[k].status]
                 && (BornTerminal(t.log, k) <==> BornTerminal(s.log, k)))
  {
    match a
    case SubmitFinish(id, outcome) =>
      var entry := if outcome.Rejected? then Published(k, Failed) else Submitted(k, StatusToSet(outcome.initial));
      LogAppended(s.log, entry, k);
    case CancelWrite(id) =>
      var audited := Audited(k, Transition(s.tasks[id].from, Cancelled));
      LogAppended(s.log, audited, k);
      LogAppended(s.log + [audited], Published(k, Cancelled), k);
    case TickWrite(id) =>
      var phase := s.tasks[id].phase;
      var audited := Audited(k, Transition(phase.from, phase.to));
      LogAppended(s.log, audited, k);
      LogAppended(s.log + [audited], Published(k, phase.to), k);
  }

  lemma StepKeepsAnnouncedOnce(s: State, a: Action, k: Key)
    requires Enabled(s, a) && Serial(s, k) && AnnouncedOnce(s, k)
    ensures AnnouncedOnce(Next(s, a), k)
  {
    if Writes(s, a, k) {
      assert InFlight(s, a.id, k);
      WritingLog(s, a, k);
    } else {
      QuietStep(s, a, k);
      QuietLog(s, a, k);
    }
    var t := Next(s, a);
    if k !in t.jobs || t.jobs[k].status.Terminal() {
      forall id
        ensures !InFlight(t, id, k)
      {
        if InFlight(t, id, k) {
          InFlightComesFrom(s, a, id, k);
        }
      }
    }
  }

  lemma {:induction false} SerialRunAnnouncesOnce(s: State, acts: seq<Action>, k: Key)
    requires CanRun(s, acts) && SerialRun(s, acts, k) && AnnouncedOnce(s, k)
    ensures AnnouncedOnce(Final(s, acts), k)
    decreases |acts|
  {
    if acts != [] {
      StepKeepsAnnouncedOnce(s, acts[0], k);
      SerialRunAnnouncesOnce(Next(s, acts[0]), acts[1..], k);
    }
  }

  /** A terminal job with nothing in flight. */
  ghost predicate Settled(s: State, k: Key, status: Status, events: seq<Status>) {
    && k in s.jobs && s.jobs[k].status == status && status.Terminal()
    && EventsOf(s.log, k) == events
    && forall id :: !InFlight(s, id, k)
  }

  lemma StepKeepsSettled(s: State, a: Action, k: Key, status: Status, events: seq<Status>)
    requires Enabled(s, a) && Settled(s, k, status, events)
    ensures Settled(Next(s, a), k, status, events)
  {
    if Writes(s, a, k) {
      assert InFlight(s, a.id, k);
    }
    QuietStep(s, a, k);
    QuietLog(s, a, k);
    forall id
      ensures !InFlight(Next(s, a), id, k)
    {
      if InFlight(Next(s, a), id, k) {
        InFlightComesFrom(s, a, id, k);
      }
    }
  }

  lemma {:induction false} SettledForGood(s: State, acts: seq<Action>, k: Key, status: Status, events: seq<Status>)
    requires CanRun(s, acts) && Settled(s, k, status, events)
    ensures Settled(Final(s, acts), k, status, events)
    decreases |acts|
  {
    if acts != [] {
      StepKeepsSettled(s, acts[0], k, status, events);
      SettledForGood(Next(s, acts[0]), acts[1..], k, status, events);
    }
  }

  /** From an empty table, let any run in which the handlers and ticks of job k are serial bring it
      to a terminal status. Then, whatever follows, serial or not, the status never
      changes again, the job has exactly one terminal event (none if the provider had called it
      terminal at submission), and that event carries the status stored from then on. */
  lemma TerminalOnceAndForAll(s: State, acts: seq<Action>, later: seq<Action>, k: Key)
    requires Init(s) && CanRun(s, acts) && SerialRun(s, acts, k)
    requires k in Final(s, acts).jobs && Final(s, acts).jobs[k].status.Terminal()
    requires CanRun(Final(s, acts), later)
    ensures var t, u := Final(s, acts), Final(Final(s, acts), later);
      && k in u.jobs && u.jobs[k].status == t.jobs[k].status
      && EventsOf(u.log, k) == if BornTerminal(t.log, k) then [] else [t.jobs[k].status]
  {
    var t := Final(s, acts);
    SerialRunAnnouncesOnce(s, acts, k);
    SettledForGood(t, later, k, t.jobs[k].status, EventsOf(t.log, k));
  }

  // ----- When everything about a job is over

  /** A goroutine in flight on a terminal job can still change the status or announce it again, if
      only by writing the same status once more. */
  lemma InFlightCanStrike(s: State, id: TaskId, k: Key) returns (acts: seq<Action>)
    requires k in s.jobs && s.jobs[k].status.Terminal() && InFlight(s, id, k)
    ensures CanRun(s, acts) && k in Final(s, acts).jobs
    ensures Final(s, acts).jobs[k].status != s.jobs[k].status || EventsOf(Final(s, acts).log, k) != EventsOf(s.log, k)
  {
    match s.tasks[id]
    case Submitting(_, _) => acts := StrikeOnce(s, SubmitFinish(id, Rejected), k);
    case Cancelling(_, _, _) => acts := StrikeOnce(s, CancelWrite(id), k);
    case Polling(_, _, _, p, phase, _) =>
      if phase.Writing? {
        acts := StrikeOnce(s, TickWrite(id), k);
      } else {
        var to := if p.current.Failed? then Completed else Failed;
        var check := TickCheck(id, Reported(Known(to)), None);
        var t := Next(s, check);
        assert t.tasks[id].phase == Writing(p.current, to) && t.log == s.log;
        var rest := StrikeOnce(t, TickWrite(id), k);
        acts := [check] + rest;
        assert acts[1..] == rest;
      }
  }

  /** A write other than a submission's success announces a terminal status or stores another one. */
  lemma StrikeOnce(s: State, a: Action, k: Key) returns (acts: seq<Action>)
    requires Enabled(s, a) && Writes(s, a, k) && s.jobs[k].status.Terminal()
    requires !(a.SubmitFinish? && a.outcome.Accepted?)
    ensures CanRun(s, acts) && k in Final(s, acts).jobs
    ensures Final(s, acts).jobs[k].status != s.jobs[k].status || EventsOf(Final(s, acts).log, k) != EventsOf(s.log, k)
  {
    acts := [a];
    RunOne(s, a);
    WritingLog(s, a, k);
  }

  /** No continuation ever changes the status or publishes another event. */
  ghost predicate Over(s: State, k: Key) {
    && k in s.jobs
    && forall acts :: CanRun(s, acts) ==>
         && k in Final(s, acts).jobs && Final(s, acts).jobs[k].status == s.jobs[k].status
         && EventsOf(Final(s, acts).log, k) == EventsOf(s.log, k)
  }

  /** A terminal job's status and its terminal events are final exactly when nothing is in flight on
      it. That is more than its status being final: a poller about to write the very status that is
      stored leaves it alone and publishes it a second time. */
  lemma OverExactlyWhenNothingInFlight(s: State, k: Key)
    requires k in s.jobs && s.jobs[k].status.Terminal()
    ensures Over(s, k) <==> forall id :: !InFlight(s, id, k)
  {
    if forall id :: !InFlight(s, id, k) {
      forall acts | CanRun(s, acts)
        ensures && k in Final(s, acts).jobs && Final(s, acts).jobs[k].status == s.jobs[k].status
                && EventsOf(Final(s, acts).log, k) == EventsOf(s.log, k)
      {
        SettledForGood(s, acts, k, s.jobs[k].status, EventsOf(s.log, k));
      }
    } else {
      var id :| InFlight(s, id, k);
      var acts := InFlightCanStrike(s, id, k);
    }
  }

  /** Job k is terminal in no state of the run. */
  ghost predicate NeverTerminal(s: State, acts: seq<Action>, k: Key)
    requires CanRun(s, acts)
    decreases |acts|
  {
    && (k in s.jobs ==> !s.jobs[k].status.Terminal())
    && (acts == [] || NeverTerminal(Next(s, acts[0]), acts[1..], k))
  }

  lemma {:induction false} NotAnnouncedYet(s: State, acts: seq<Action>, k: Key)
    requires CanRun(s, acts) && NeverTerminal(s, acts, k)
    requires EventsOf(s.log, k) == [] && !BornTerminal(s.log, k)
    ensures k in Final(s, acts).jobs ==> !Final(s, acts).jobs[k].status.Terminal()
    ensures EventsOf(Final(s, acts).log, k) == [] && !BornTerminal(Final(s, acts).log, k)
    decreases |acts|
  {
    if acts != [] {
      var t := Next(s, acts[0]);
      if Writes(s, acts[0], k) {
        WritingLog(s, acts[0], k);
      } else {
        QuietLog(s, acts[0], k);
      }
      NotAnnouncedYet(t, acts[1..], k);
    }
  }

  /** A write leaves everybody else in flight where they are. */
  lemma OthersStayInFlight(s: State, a: Action, id: TaskId, k: Key)
    requires Enabled(s, a) && Writes(s, a, k) && id != a.id
    ensures InFlight(Next(s, a), id, k) <==> InFlight(s, id, k)
  {
    if InFlight(Next(s, a), id, k) {
      InFlightComesFrom(s, a, id, k);
    }
  }

  /** Over every run, serial or not: the step that first makes a job terminal announces it with the
      stored status (unless the provider had called it terminal at submission), and this is for good,
      status and events, exactly when nobody else is in flight on the job at that step. */
  lemma OnceForAllExactlyWhenAlone(s: State, acts: seq<Action>, a: Action, k: Key)
    requires Init(s) && CanRun(s, acts) && NeverTerminal(s, acts, k) && Enabled(Final(s, acts), a)
    requires k in Next(Final(s, acts), a).jobs && Next(Final(s, acts), a).jobs[k].status.Terminal()
    ensures var t, u := Final(s, acts), Next(Final(s, acts), a);
      && Writes(t, a, k)
      && EventsOf(u.log, k) == (if BornTerminal(u.log, k) then [] else [u.jobs[k].status])
      && (Over(u, k) <==> forall id :: InFlight(t, id, k) ==> id == a.id)
  {
    var t, u := Final(s, acts), Next(Final(s, acts), a);
    NotAnnouncedYet(s, acts, k);
    QuietUnlessWritten(t, a, k);
    WritingLog(t, a, k);
    OverExactlyWhenNothingInFlight(u, k);
    forall id
      ensures InFlight(u, id, k) <==> InFlight(t, id, k) && id != a.id
    {
      if id != a.id {
        OthersStayInFlight(t, a, id, k);
      }
    }
  }

  lemma QuietUnlessWritten(s: State, a: Action, k: Key)
    requires Enabled(s, a) && (k in s.jobs ==> !s.jobs[k].status.Terminal())
    requires k in Next(s, a).jobs && Next(s, a).jobs[k].status.Terminal()
    ensures Writes(s, a, k)
  {
    if !Writes(s, a, k) {
      QuietStep(s, a, k);
    }
  }

  // ----- Without serial handlers

  /** A job is being submitted. */
  ghost predicate UnderSubmission(s: State, k: Key) {
    && s.ttl == map["w" := 30] && s.registry == map[]
    && k in s.jobs && s.jobs[k].owner == Some("w")
  }

  lemma BeginSubmission(k: Key) returns (s: State)
    ensures Init(s) && Enabled(s, SubmitInsert("w", k, 0))
    ensures var t := Next(s, SubmitInsert("w", k, 0));
      UnderSubmission(t, k) && t.tasks == map[0 := Submitting("w", k)] && t.jobs[k].status == Pending && t.log == []
  {
    s := State(0, map["w" := 30], map[], map[], map[], [], {});
  }

  lemma ReadForCancellation(s: State, k: Key)
    requires UnderSubmission(s, k) && s.tasks == map[0 := Submitting("w", k)] && s.jobs[k].status == Pending
    ensures Enabled(s, CancelRead("w", k, 1))
    ensures var t := Next(s, CancelRead("w", k, 1));
      && UnderSubmission(t, k) && t.log == s.log
      && t.tasks == map[0 := Submitting("w", k), 1 := Cancelling("w", k, Pending)]
  {
  }

  lemma WriteCancellation(s: State, k: Key)
    requires UnderSubmission(s, k) && s.log == []
    requires s.tasks == map[0 := Submitting("w", k), 1 := Cancelling("w", k, Pending)]
    ensures Enabled(s, CancelWrite(1))
    ensures var t := Next(s, CancelWrite(1));
      && UnderSubmission(t, k) && t.tasks == map[0 := Submitting("w", k)]
      && t.jobs[k].status == Cancelled && EventsOf(t.log, k) == [Cancelled]
  {
    WritingLog(s, CancelWrite(1), k);
  }

  /** A cancellation reads and writes between a submission's insert and its status write. */
  lemma CancelDuringSubmission(k: Key) returns (s: State, acts: seq<Action>)
    ensures Init(s) && CanRun(s, acts)
    ensures var t := Final(s, acts);
      && UnderSubmission(t, k) && t.tasks == map[0 := Submitting("w", k)]
      && t.jobs[k].status == Cancelled && EventsOf(t.log, k) == [Cancelled]
  {
    s := BeginSubmission(k);
    var inserted := Next(s, SubmitInsert("w", k, 0));
    ReadForCancellation(inserted, k);
    RunTwo(s, SubmitInsert("w", k, 0), CancelRead("w", k, 1));
    acts := [SubmitInsert("w", k, 0), CancelRead("w", k, 1)];
    WriteCancellation(Final(s, acts), k);
    RunSnoc(s, acts, CancelWrite(1));
    acts := acts + [CancelWrite(1)];
  }

  /** Why the operations on one job have to be serial: a cancellation that lands between a
      submission's insert and its status write is undone by that write, and the job ends up
      completed after it was announced as cancelled. */
  lemma SubmissionOverwritesCancellation(k: Key) returns (s: State, acts: seq<Action>, more: seq<Action>)
    ensures Init(s) && CanRun(s, acts) && CanRun(Final(s, acts), more)
    ensures var t, u := Final(s, acts), Final(Final(s, acts), more);
      && k in t.jobs && t.jobs[k].status == Cancelled && EventsOf(t.log, k) == [Cancelled]
      && k in u.jobs && u.jobs[k].status == Completed && EventsOf(u.log, k) == [Cancelled, Completed]
  {
    s, acts := CancelDuringSubmission(k);
    more := FinishTheSubmission(Final(s, acts), k);
    var rest := CompleteTheSubmission(Final(Final(s, acts), more), k);
    RunsJoin(Final(s, acts), more, rest);
    more := more + rest;
  }

  /** A submission that is still in flight overwrites the status, terminal or not, and starts a poller. */
  lemma FinishTheSubmission(s: State, k: Key) returns (acts: seq<Action>)
    requires s.tasks == map[0 := Submitting("w", k)] && s.registry == map[] && k in s.jobs
    ensures CanRun(s, acts)
    ensures var t := Final(s, acts);
      && t.tasks == map[1 := Polling("w", k, ComplexTier, PollerState(Running, 0, CloudBatch), Waiting, false)]
      && k in t.jobs && t.jobs[k].owner == s.jobs[k].owner && t.jobs[k].status == Running && t.ttl == s.ttl
      && EventsOf(t.log, k) == EventsOf(s.log, k)
  {
    acts := [SubmitFinish(0, Accepted("path", Unknown, CloudBatch)), SubmitLaunch(0, 1)];
    RunTwo(s, acts[0], acts[1]);
    LogAppended(s.log, Submitted(k, Running), k);
  }

  /** The poller's next tick brings the job to completion. */
  lemma CompleteTheSubmission(s: State, k: Key) returns (acts: seq<Action>)
    requires s.tasks == map[1 := Polling("w", k, ComplexTier, PollerState(Running, 0, CloudBatch), Waiting, false)]
    requires k in s.jobs && s.jobs[k].owner == Some("w") && s.jobs[k].status == Running && "w" in s.ttl
    ensures CanRun(s, acts)
    ensures k in Final(s, acts).jobs && Final(s, acts).jobs[k].status == Completed
    ensures EventsOf(Final(s, acts).log, k) == EventsOf(s.log, k) + [Completed]
  {
    acts := [TickClaim(1, s.clock), TickCheck(1, Reported(Known(Completed)), None)];
    RunTwo(s, acts[0], acts[1]);
    var checked := Final(s, acts);
    assert checked.tasks[1].phase == Writing(Running, Completed) && checked.log == s.log;
    RunSnoc(s, acts, TickWrite(1));
    acts := acts + [TickWrite(1)];
    WritingLog(checked, TickWrite(1), k);
  }
}
