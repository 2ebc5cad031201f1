/** Any number of workers sharing one Jobs table, as a state machine over the database calls and
    provider calls that their goroutines make (cmd/worker/service/handlers.go and pollers.go).
    A handler or a poller tick is several steps, so other goroutines run in between: a guard is
    read in one step and the blind status write that it protects is made in a later one. */
module Cluster {
  import opened Wrappers
  import opened Jobs
  import opened Pollers

  type TaskId = nat

  /** Where a poller's tick stands: before the lease claim, before the status check, before the write. */
  datatype Phase = Waiting | HoldsLease | Writing(from: Status, to: Status)

  /** A live goroutine. */
  datatype Task =
    | Polling(worker: WorkerId, key: Key, tier: Tier, state: PollerState, phase: Phase, stopped: bool)
    | Submitting(worker: WorkerId, key: Key)
    | Launching(worker: WorkerId, key: Key, status: Status, service: Service)
    | Cancelling(worker: WorkerId, key: Key, from: Status)
    | Reconciling(worker: WorkerId, pending: seq<Listed>)

  datatype Entry =
    | Submitted(key: Key, status: Status)
    | Audited(key: Key, transition: Transition)
    | Published(key: Key, status: Status)

  datatype Registration = Registration(worker: WorkerId, key: Key)

  /** `ttl` gives each worker's lease duration; `abandoned` the jobs whose submission a crash cut off. */
  datatype State = State(
    clock: int,
    ttl: map<WorkerId, nat>,
    jobs: map<Key, Row>,
    tasks: map<TaskId, Task>,
    registry: map<Registration, TaskId>,
    log: seq<Entry>,
    abandoned: set<Key>)

  datatype SubmitOutcome = Rejected | Accepted(path: string, initial: ProviderStatus, service: Service)

  datatype Action =
    | Advance(to: int)
    | SubmitInsert(worker: WorkerId, key: Key, id: TaskId)
    | SubmitFinish(id: TaskId, outcome: SubmitOutcome)
    | SubmitLaunch(id: TaskId, poller: TaskId)
    | CancelRead(worker: WorkerId, key: Key, id: TaskId)
    | CancelRefused(id: TaskId)
    | CancelWrite(id: TaskId)
    | ReconcileList(worker: WorkerId, id: TaskId, listing: seq<Listed>)
    | ReconcileClaim(id: TaskId, asked: int, poller: TaskId)
    | ReconcileFault(id: TaskId)
    | TickClaim(id: TaskId, asked: int)
    | TickFault(id: TaskId)
    | TickCheck(id: TaskId, primary: Answer, fallback: Option<Answer>)
    | TickWrite(id: TaskId)
    | StopExit(id: TaskId)
    | Crash(worker: WorkerId)

  /** serviceTierFromPlan. */
  function TierOf(service: Service): Tier {
    if service.CloudRunJob? then SimpleTier else ComplexTier
  }

  /** The status SubmitJob stores; a provider that reports none or UNKNOWN counts as running. */
  function StatusToSet(initial: ProviderStatus): Status {
    if initial.Known? then initial.status else Running
  }

  // ----- Steps

  ghost predicate Enabled(s: State, a: Action) {
    match a
    case Advance(to) => s.clock <= to
    case SubmitInsert(w, k, id) => w in s.ttl && k !in s.jobs && id !in s.tasks
    case SubmitFinish(id, _) => id in s.tasks && s.tasks[id].Submitting? && s.tasks[id].key in s.jobs
    case SubmitLaunch(id, poller) => id in s.tasks && s.tasks[id].Launching? && poller !in s.tasks
    case CancelRead(w, k, id) => w in s.ttl && k in s.jobs && !s.jobs[k].status.Terminal() && id !in s.tasks
    case CancelRefused(id) => id in s.tasks && s.tasks[id].Cancelling?
    case CancelWrite(id) => id in s.tasks && s.tasks[id].Cancelling? && s.tasks[id].key in s.jobs
    case ReconcileList(w, id, listing) =>
      w in s.ttl && id !in s.tasks && listing != [] && IsActiveListing(s.jobs, listing)
    case ReconcileClaim(id, asked, poller) =>
      && id in s.tasks && s.tasks[id].Reconciling? && s.tasks[id].worker in s.ttl && asked <= s.clock
      && s.tasks[id].pending != [] && s.tasks[id].pending[0].key in s.jobs && poller !in s.tasks
    case TickClaim(id, asked) =>
      && id in s.tasks && s.tasks[id].Polling? && s.tasks[id].phase.Waiting? && s.tasks[id].worker in s.ttl
      && asked <= s.clock && s.tasks[id].key in s.jobs
    case ReconcileFault(id) => id in s.tasks && s.tasks[id].Reconciling? && s.tasks[id].pending != []
    case TickFault(id) => id in s.tasks && s.tasks[id].Polling? && s.tasks[id].phase.Waiting?
    case TickCheck(id, _, _) => id in s.tasks && s.tasks[id].Polling? && s.tasks[id].phase.HoldsLease?
    case TickWrite(id) =>
      id in s.tasks && s.tasks[id].Polling? && s.tasks[id].phase.Writing? && s.tasks[id].key in s.jobs
    case StopExit(id) => id in s.tasks && s.tasks[id].Polling? && s.tasks[id].phase.Waiting? && s.tasks[id].stopped
    case Crash(_) => true
  }

  ghost function SetStatus(s: State, k: Key, status: Status): State
    requires k in s.jobs
  {
    s.(jobs := s.jobs[k := s.jobs[k].(status := status)])
  }

  ghost function Log(s: State, entry: Entry): State {
    s.(log := s.log + [entry])
  }

  /** startJobPollerWithService: nothing happens when the worker has the key registered. */
  ghost function StartPoller(
    s: State, w: WorkerId, k: Key, status: Status, tier: Tier, service: Service, id: TaskId): State
  {
    if Registration(w, k) in s.registry then s
    else
      var poller := Polling(w, k, tier, PollerState(status, 0, InferService(service, tier)), Waiting, false);
      s.(tasks := s.tasks[id := poller], registry := s.registry[Registration(w, k) := id])
  }

  /** A poller returns; the deferred unregisterPoller deletes by key, whoever is registered there. */
  ghost function Leave(s: State, id: TaskId): State
    requires id in s.tasks && s.tasks[id].Polling?
  {
    s.(tasks := s.tasks - {id}, registry := s.registry - {Registration(s.tasks[id].worker, s.tasks[id].key)})
  }

  ghost function FinishSubmit(s: State, id: TaskId, outcome: SubmitOutcome): State
    requires Enabled(s, SubmitFinish(id, outcome))
  {
    var Submitting(w, k) := s.tasks[id];
    match outcome
    case Rejected => Log(SetStatus(s.(tasks := s.tasks - {id}), k, Failed), Published(k, Failed))
    case Accepted(path, initial, service) =>
      var status := StatusToSet(initial);
      var row := s.jobs[k].(status := status, path := Some(path), tier := TierOf(service), service := service);
      Log(s.(jobs := s.jobs[k := row], tasks := s.tasks[id := Launching(w, k, status, service)]), Submitted(k, status))
  }

  /** stopPollerForJob: the registered poller is told to stop and forgotten. */
  ghost function StopRegistered(s: State, at: Registration): State {
    if at !in s.registry then s
    else
      var id := s.registry[at];
      var tasks :=
        if id in s.tasks && s.tasks[id].Polling? then s.tasks[id := s.tasks[id].(stopped := true)] else s.tasks;
      s.(tasks := tasks, registry := s.registry - {at})
  }

  ghost function FinishCancel(s: State, id: TaskId): State
    requires Enabled(s, CancelWrite(id))
  {
    var Cancelling(w, k, from) := s.tasks[id];
    var written := SetStatus(s.(tasks := s.tasks - {id}), k, Cancelled);
    StopRegistered(
      Log(Log(written, Audited(k, Transition(from, Cancelled))), Published(k, Cancelled)), Registration(w, k))
  }

  /** A reconcile pass is done with the first job of what is left of its listing. */
  ghost function PassOn(s: State, id: TaskId): State
    requires id in s.tasks && s.tasks[id].Reconciling? && s.tasks[id].pending != []
  {
    var Reconciling(w, pending) := s.tasks[id];
    s.(tasks := if |pending| == 1 then s.tasks - {id} else s.tasks[id := Reconciling(w, pending[1..])])
  }

  ghost function ClaimNext(s: State, id: TaskId, asked: int, poller: TaskId): State
    requires Enabled(s, ReconcileClaim(id, asked, poller))
  {
    var Reconciling(w, pending) := s.tasks[id];
    var Listed(k, seen) := pending[0];
    var attempt := Claim(s.jobs[k], w, s.clock, asked + s.ttl[w]);
    var next := PassOn(s.(jobs := s.jobs[k := attempt.row]), id);
    if attempt.claimed then StartPoller(next, w, k, seen.status, seen.tier, Unspecified, poller) else next
  }

  ghost function ClaimTick(s: State, id: TaskId, asked: int): State
    requires Enabled(s, TickClaim(id, asked))
  {
    var t := s.tasks[id];
    var attempt := Claim(s.jobs[t.key], t.worker, s.clock, asked + s.ttl[t.worker]);
    if attempt.claimed then
      s.(jobs := s.jobs[t.key := attempt.row], tasks := s.tasks[id := t.(phase := HoldsLease)])
    else Leave(s, id)
  }

  ghost function CheckTick(s: State, id: TaskId, primary: Answer, fallback: Option<Answer>): State
    requires Enabled(s, TickCheck(id, primary, fallback))
  {
    var t := s.tasks[id];
    var checked := Check(t.state, t.tier, primary, fallback);
    match checked.result
    case GiveUp => Leave(s, id)
    case Changed(from, to) => s.(tasks := s.tasks[id := t.(state := checked.state, phase := Writing(from, to))])
    case _ => s.(tasks := s.tasks[id := t.(state := checked.state, phase := Waiting)])
  }

  ghost function WriteTick(s: State, id: TaskId): State
    requires Enabled(s, TickWrite(id))
  {
    var t := s.tasks[id];
    var Writing(from, to) := t.phase;
    var written := Log(SetStatus(s, t.key, to), Audited(t.key, Transition(from, to)));
    if to.Terminal() then Leave(Log(written, Published(t.key, to)), id)
    else written.(tasks := s.tasks[id := t.(phase := Waiting)])
  }

  ghost function CrashOf(s: State, w: WorkerId): State {
    s.(tasks := map id | id in s.tasks && s.tasks[id].worker != w :: s.tasks[id],
       registry := map r | r in s.registry && r.worker != w :: s.registry[r],
       abandoned := s.abandoned +
         set id | id in s.tasks && s.tasks[id].worker == w && s.tasks[id].Submitting? :: s.tasks[id].key)
  }

  ghost function Next(s: State, a: Action): State
    requires Enabled(s, a)
  {
    match a
    case Advance(to) => s.(clock := to)
    case SubmitInsert(w, k, id) =>
      s.(jobs := s.jobs[k := NewRow(w, s.clock, s.ttl[w])], tasks := s.tasks[id := Submitting(w, k)])
    case SubmitFinish(id, outcome) => FinishSubmit(s, id, outcome)
    case SubmitLaunch(id, poller) =>
      var Launching(w, k, status, service) := s.tasks[id];
      StartPoller(s.(tasks := s.tasks - {id}), w, k, status, TierOf(service), service, poller)
    case CancelRead(w, k, id) => s.(tasks := s.tasks[id := Cancelling(w, k, s.jobs[k].status)])
    case CancelRefused(id) => s.(tasks := s.tasks - {id})
    case CancelWrite(id) => FinishCancel(s, id)
    case ReconcileList(w, id, listing) => s.(tasks := s.tasks[id := Reconciling(w, listing)])
    case ReconcileClaim(id, asked, poller) => ClaimNext(s, id, asked, poller)
    case ReconcileFault(id) => PassOn(s, id)
    case TickClaim(id, asked) => ClaimTick(s, id, asked)
    case TickFault(id) => s
    case TickCheck(id, primary, fallback) => CheckTick(s, id, primary, fallback)
    case TickWrite(id) => WriteTick(s, id)
    case StopExit(id) => Leave(s, id)
    case Crash(w) => CrashOf(s, w)
  }

  /** The steps of poller goroutines, as against those of handlers, reconcilers and the environment. */
  predicate PollerStep(a: Action) {
    a.TickClaim? || a.TickFault? || a.TickCheck? || a.TickWrite? || a.StopExit?
  }

  // ----- Runs

  ghost predicate Init(s: State) {
    s.jobs == map[] && s.tasks == map[] && s.registry == map[] && s.log == [] && s.abandoned == {}
  }

  ghost predicate CanRun(s: State, acts: seq<Action>)
    decreases |acts|
  {
    acts == [] || (Enabled(s, acts[0]) && CanRun(Next(s, acts[0]), acts[1..]))
  }

  ghost function Final(s: State, acts: seq<Action>): State
    requires CanRun(s, acts)
    decreases |acts|
  {
    if acts == [] then s else Final(Next(s, acts[0]), acts[1..])
  }

  lemma RunOne(s: State, a: Action)
    requires Enabled(s, a)
    ensures CanRun(s, [a]) && Final(s, [a]) == Next(s, a)
  {
    assert [a][1..] == [];
  }

  lemma RunTwo(s: State, a: Action, b: Action)
    requires Enabled(s, a) && Enabled(Next(s, a), b)
    ensures CanRun(s, [a, b]) && Final(s, [a, b]) == Next(Next(s, a), b)
  {
    assert [a, b][1..] == [b];
    RunOne(Next(s, a), b);
  }

  lemma {:induction false} RunSnoc(s: State, acts: seq<Action>, a: Action)
    requires CanRun(s, acts) && Enabled(Final(s, acts), a)
    ensures CanRun(s, acts + [a]) && Final(s, acts + [a]) == Next(Final(s, acts), a)
    decreases |acts|
  {
    if acts == [] {
      assert [] + [a] == [a];
      RunOne(s, a);
    } else {
      assert (acts + [a])[1..] == acts[1..] + [a];
      RunSnoc(Next(s, acts[0]), acts[1..], a);
    }
  }

  lemma {:induction false} RunsJoin(s: State, acts: seq<Action>, more: seq<Action>)
    requires CanRun(s, acts) && CanRun(Final(s, acts), more)
    ensures CanRun(s, acts + more) && Final(s, acts + more) == Final(Final(s, acts), more)
    decreases |acts|
  {
    if acts == [] {
      assert [] + more == more;
    } else {
      assert (acts + more)[1..] == acts[1..] + more;
      RunsJoin(Next(s, acts[0]), acts[1..], more);
    }
  }

  // ----- An uninterrupted tick

  /** What the lease claim of a tick answers; a database error is a fault. */
  ghost function LeaseAnswerOf(s: State, id: TaskId, asked: int, fault: bool): LeaseAnswer
    requires Enabled(s, TickClaim(id, asked))
  {
    var t := s.tasks[id];
    if fault then LeaseError
    else if Claim(s.jobs[t.key], t.worker, s.clock, asked + s.ttl[t.worker]).claimed then Owned
    else Refused
  }

  /** The steps of a tick after its lease claim. */
  ghost function ChecksOf(
    p: PollerState, tier: Tier, id: TaskId, primary: Answer, fallback: Option<Answer>): seq<Action>
  {
    if Check(p, tier, primary, fallback).result.Changed? then [TickCheck(id, primary, fallback), TickWrite(id)]
    else [TickCheck(id, primary, fallback)]
  }

  ghost function TickActions(
    s: State, id: TaskId, asked: int, fault: bool, primary: Answer, fallback: Option<Answer>): seq<Action>
    requires Enabled(s, TickClaim(id, asked))
  {
    match LeaseAnswerOf(s, id, asked, fault)
    case LeaseError => [TickFault(id)]
    case Refused => [TickClaim(id, asked)]
    case Owned => [TickClaim(id, asked)] + ChecksOf(s.tasks[id].state, s.tasks[id].tier, id, primary, fallback)
  }

  ghost function LogOf(k: Key, life: Life): seq<Entry> {
    seq(|life.audit|, i requires 0 <= i < |life.audit| => Audited(k, life.audit[i]))
    + seq(|life.published|, i requires 0 <= i < |life.published| => Published(k, life.published[i]))
  }

  /** The whole state after one turn of poller `id`, which was `t` and whose row is `row` after its claim. */
  ghost predicate TurnTaken(s: State, u: State, id: TaskId, t: Task, row: Row, life: Life)
    requires t.Polling?
  {
    && u.log == s.log + LogOf(t.key, life)
    && u.jobs == s.jobs[t.key := if life.audit == [] then row else row.(status := life.state.current)]
    && u.tasks == (if life.exit.Live? then s.tasks[id := t.(state := life.state)] else s.tasks - {id})
    && u.registry == (if life.exit.Live? then s.registry else s.registry - {Registration(t.worker, t.key)})
    && u.clock == s.clock && u.ttl == s.ttl && u.abandoned == s.abandoned
  }

  lemma QuietCheck(s: State, id: TaskId, primary: Answer, fallback: Option<Answer>)
    requires id in s.tasks && s.tasks[id].Polling? && s.tasks[id].phase.HoldsLease? && s.tasks[id].key in s.jobs
    requires !Check(s.tasks[id].state, s.tasks[id].tier, primary, fallback).result.Changed?
    ensures var t := s.tasks[id].(phase := Waiting);
      TurnTaken(s, Next(s, TickCheck(id, primary, fallback)), id, t, s.jobs[t.key],
                TurnOf(t.state, t.tier, Tick(Owned, primary, fallback)))
  {
    var t := s.tasks[id];
    assert s.jobs[t.key := s.jobs[t.key]] == s.jobs;
  }

  /** The status changes, and the write that is still to be made is the poller's only trace of it. */
  lemma ChangedCheck(s: State, id: TaskId, primary: Answer, fallback: Option<Answer>)
    requires id in s.tasks && s.tasks[id].Polling? && s.tasks[id].phase.HoldsLease?
    requires Check(s.tasks[id].state, s.tasks[id].tier, primary, fallback).result.Changed?
    ensures var t, checked := s.tasks[id], Check(s.tasks[id].state, s.tasks[id].tier, primary, fallback);
      Next(s, TickCheck(id, primary, fallback)) == s.(
        tasks := s.tasks[id := t.(state := checked.state, phase := Writing(checked.result.from, checked.result.to))])
  {
  }

  lemma WriteIsATurn(s: State, id: TaskId, t: Task, from: Status, life: Life)
    requires t.Polling? && t.phase.Waiting? && t.key in s.jobs && id in s.tasks
    requires life.audit == [Transition(from, life.state.current)]
    requires life.published == if life.state.current.Terminal() then [life.state.current] else []
    requires life.exit.Live? <==> !life.state.current.Terminal()
    requires s.tasks[id] == t.(state := life.state, phase := Writing(from, life.state.current))
    ensures Enabled(s, TickWrite(id))
    ensures TurnTaken(s, Next(s, TickWrite(id)), id, t, s.jobs[t.key], life)
  {
  }

  lemma CheckThenWrite(s: State, id: TaskId, primary: Answer, fallback: Option<Answer>)
    requires id in s.tasks && s.tasks[id].Polling? && s.tasks[id].phase.HoldsLease? && s.tasks[id].key in s.jobs
    requires Check(s.tasks[id].state, s.tasks[id].tier, primary, fallback).result.Changed?
    ensures Enabled(Next(s, TickCheck(id, primary, fallback)), TickWrite(id))
    ensures var t := s.tasks[id].(phase := Waiting);
      TurnTaken(s, Next(Next(s, TickCheck(id, primary, fallback)), TickWrite(id)), id, t, s.jobs[t.key],
                TurnOf(t.state, t.tier, Tick(Owned, primary, fallback)))
  {
    var t := s.tasks[id].(phase := Waiting);
    ChangedCheck(s, id, primary, fallback);
    var m := Next(s, TickCheck(id, primary, fallback));
    WriteIsATurn(m, id, t, t.state.current, TurnOf(t.state, t.tier, Tick(Owned, primary, fallback)));
    assert m.tasks - {id} == s.tasks - {id};
  }

  lemma ChecksAreATurn(s: State, id: TaskId, primary: Answer, fallback: Option<Answer>)
    requires id in s.tasks && s.tasks[id].Polling? && s.tasks[id].phase.HoldsLease? && s.tasks[id].key in s.jobs
    ensures var t := s.tasks[id].(phase := Waiting);
      var acts := ChecksOf(t.state, t.tier, id, primary, fallback);
      && CanRun(s, acts)
      && TurnTaken(s, Final(s, acts), id, t, s.jobs[t.key], TurnOf(t.state, t.tier, Tick(Owned, primary, fallback)))
  {
    if Check(s.tasks[id].state, s.tasks[id].tier, primary, fallback).result.Changed? {
      CheckThenWrite(s, id, primary, fallback);
      RunTwo(s, TickCheck(id, primary, fallback), TickWrite(id));
    } else {
      QuietCheck(s, id, primary, fallback);
      RunOne(s, TickCheck(id, primary, fallback));
    }
  }

  /** What a turn does after the claim, it does from the state before the claim. */
  lemma ClaimThenTurn(s: State, id: TaskId, asked: int, u: State, life: Life)
    requires Enabled(s, TickClaim(id, asked)) && LeaseAnswerOf(s, id, asked, false).Owned?
    requires var m, t := Next(s, TickClaim(id, asked)), s.tasks[id]; TurnTaken(m, u, id, t, m.jobs[t.key], life)
    ensures var t := s.tasks[id];
      TurnTaken(s, u, id, t, Claim(s.jobs[t.key], t.worker, s.clock, asked + s.ttl[t.worker]).row, life)
  {
    var m, t := Next(s, TickClaim(id, asked)), s.tasks[id];
    assert m.tasks == s.tasks[id := t.(phase := HoldsLease)];
    assert m.tasks - {id} == s.tasks - {id};
  }

  lemma RefusedTick(s: State, id: TaskId, asked: int)
    requires Enabled(s, TickClaim(id, asked)) && LeaseAnswerOf(s, id, asked, false).Refused?
    ensures var t := s.tasks[id];
      TurnTaken(s, Next(s, TickClaim(id, asked)), id, t, s.jobs[t.key], Life(t.state, LostLease, [], []))
  {
    var t := s.tasks[id];
    assert s.jobs[t.key := s.jobs[t.key]] == s.jobs;
    assert s.log + [] == s.log;
  }

  lemma FaultyTick(s: State, id: TaskId, asked: int)
    requires Enabled(s, TickClaim(id, asked))
    ensures var t := s.tasks[id];
      TurnTaken(s, Next(s, TickFault(id)), id, t, s.jobs[t.key], Life(t.state, Live, [], []))
  {
    var t := s.tasks[id];
    assert s.jobs[t.key := s.jobs[t.key]] == s.jobs && s.tasks[id := t] == s.tasks;
    assert s.log + [] == s.log;
  }

  /** A tick that is not interrupted, from its lease claim on, does to the whole state, registry
      included, exactly what one turn of the poller's loop does: whether the claim succeeds, is
      refused or fails, and whatever the provider answers. */
  lemma UninterruptedTickIsATurn(
    s: State, id: TaskId, asked: int, fault: bool, primary: Answer, fallback: Option<Answer>)
    requires Enabled(s, TickClaim(id, asked))
    ensures var t, acts := s.tasks[id], TickActions(s, id, asked, fault, primary, fallback);
      var row := if fault then s.jobs[t.key] else Claim(s.jobs[t.key], t.worker, s.clock, asked + s.ttl[t.worker]).row;
      && CanRun(s, acts)
      && TurnTaken(s, Final(s, acts), id, t, row,
                   TurnOf(t.state, t.tier, Tick(LeaseAnswerOf(s, id, asked, fault), primary, fallback)))
  {
    match LeaseAnswerOf(s, id, asked, fault)
    case LeaseError =>
      FaultyTick(s, id, asked);
      RunOne(s, TickFault(id));
    case Refused =>
      RefusedTick(s, id, asked);
      RunOne(s, TickClaim(id, asked));
    case Owned =>
      var m, t := Next(s, TickClaim(id, asked)), s.tasks[id];
      var rest := ChecksOf(t.state, t.tier, id, primary, fallback);
      RunOne(s, TickClaim(id, asked));
      ChecksAreATurn(m, id, primary, fallback);
      RunsJoin(s, [TickClaim(id, asked)], rest);
      assert m.tasks[id].(phase := Waiting) == t;
      ClaimThenTurn(s, id, asked, Final(m, rest), TurnOf(t.state, t.tier, Tick(Owned, primary, fallback)));
  }
}
