/** One job's poller, cmd/worker/service/pollers.go: what a single tick does to
    the poller's fields, the loop over ticks, and what a whole life of ticks
    leaves in the audit trail and on the event stream. */
module Pollers {
  import opened Wrappers
  import opened Jobs

  const MAX_FAILED_ATTEMPTS := 10

  /** What a provider says of a job; UNKNOWN and every unlisted value is `Unknown`. */
  datatype ProviderStatus = Known(status: Status) | Unknown

  datatype Answer = Failure | Reported(status: ProviderStatus)

  /** mapBatchStatusToDBStatus. */
  function MapStatus(reported: ProviderStatus): Status {
    match reported
    case Known(status) => status
    case Unknown => Pending
  }

  /** The service a poller is created for (startJobPollerWithService). */
  function InferService(routed: Service, tier: Tier): Service {
    if routed != Unspecified then routed
    else if tier.ComplexTier? then CloudBatch
    else CloudRunJob
  }

  datatype PollerState = PollerState(current: Status, failed: nat, service: Service)

  datatype CheckResult =
    | Retry
    | GiveUp
    | Steady
    | Changed(from: Status, to: Status)

  datatype Checked = Checked(state: PollerState, result: CheckResult)

  /** May a failed check be repeated with the Cloud Batch provider? */
  predicate FallbackApplies(p: PollerState, tier: Tier) {
    tier.SimpleTier? && p.service.CloudRunJob?
  }

  function Process(p: PollerState, reported: ProviderStatus): Checked {
    var to := MapStatus(reported);
    if to == p.current then Checked(p.(failed := 0), Steady)
    else Checked(p.(failed := 0, current := to), Changed(p.current, to))
  }

  /** One status check. `fallback` is None when there is no dispatcher or no
      Cloud Batch provider in it. */
  function Check(p: PollerState, tier: Tier, primary: Answer, fallback: Option<Answer>): Checked {
    if primary.Reported? then Process(p, primary.status)
    else if FallbackApplies(p, tier) && fallback.Some? && fallback.value.Reported? then
      Process(p.(service := CloudBatch), fallback.value.status)
    else if p.failed + 1 >= MAX_FAILED_ATTEMPTS then Checked(p.(failed := p.failed + 1), GiveUp)
    else Checked(p.(failed := p.failed + 1), Retry)
  }

  datatype LeaseAnswer = LeaseError | Refused | Owned

  /** What one turn of the select loop sees: a stop, or a tick whose lease
      claim, provider and fallback answer as given. */
  datatype Turn = Stopped | Tick(lease: LeaseAnswer, primary: Answer, fallback: Option<Answer>)

  datatype Exit = Live | WasStopped | LostLease | GaveUp | Finished

  datatype Transition = Transition(from: Status, to: Status)

  /** A poller's life so far: its fields, how it left the loop (if it did), the
      audit records and status writes in order, and the terminal events. */
  datatype Life = Life(state: PollerState, exit: Exit, audit: seq<Transition>, published: seq<Status>)

  function TurnOf(p: PollerState, tier: Tier, turn: Turn): (next: Life) {
    match turn
    case Stopped => Life(p, WasStopped, [], [])
    case Tick(LeaseError, _, _) => Life(p, Live, [], [])
    case Tick(Refused, _, _) => Life(p, LostLease, [], [])
    case Tick(Owned, primary, fallback) =>
      var checked := Check(p, tier, primary, fallback);
      match checked.result
      case Retry => Life(checked.state, Live, [], [])
      case GiveUp => Life(checked.state, GaveUp, [], [])
      case Steady => Life(checked.state, Live, [], [])
      case Changed(from, to) =>
        if to.Terminal() then Life(checked.state, Finished, [Transition(from, to)], [to])
        else Life(checked.state, Live, [Transition(from, to)], [])
  }

  /** The life of a poller that starts at `p` and sees `turns`, one by one, until it leaves the loop. */
  function LifeOf(p: PollerState, tier: Tier, turns: seq<Turn>): Life
    decreases |turns|
  {
    if turns == [] then Life(p, Live, [], [])
    else
      var first := TurnOf(p, tier, turns[0]);
      if !first.exit.Live? then first else After(first.audit, first.published, LifeOf(first.state, tier, turns[1..]))
  }

  /** `life` with earlier records and events put before its own. */
  function After(audit: seq<Transition>, published: seq<Status>, life: Life): Life {
    life.(audit := audit + life.audit, published := published + life.published)
  }

  lemma AfterAfter(audit: seq<Transition>, published: seq<Status>, a: seq<Transition>, p: seq<Status>, life: Life)
    ensures After(audit, published, After(a, p, life)) == After(audit + a, published + p, life)
    ensures After([], [], life) == life
  {
    assert audit + (a + life.audit) == (audit + a) + life.audit;
    assert published + (p + life.published) == (published + p) + life.published;
    assert [] + life.audit == life.audit && [] + life.published == life.published;
  }

  class JobPoller {
    const tier: Tier
    const path: string
    var currentStatus: Status
    var failedAttempts: nat
    var assignedService: Service
    var done: bool

    constructor (path: string, initialStatus: Status, tier: Tier, routed: Service)
      ensures this.path == path && this.tier == tier && !done
      ensures State() == PollerState(initialStatus, 0, InferService(routed, tier))
    {
      this.path := path;
      this.tier := tier;
      this.currentStatus := initialStatus;
      this.failedAttempts := 0;
      this.assignedService := InferService(routed, tier);
      this.done := false;
    }

    function State(): PollerState
      reads this
    {
      PollerState(currentStatus, failedAttempts, assignedService)
    }

    method Stop()
      modifies this`done
      ensures done
    {
      done := true;
    }

    /** One turn of the select loop, with its effects in the order they are made. */
    method Step(turn: Turn) returns (exit: Exit, audit: seq<Transition>, published: seq<Status>)
      modifies this
      ensures Life(State(), exit, audit, published) == TurnOf(old(State()), tier, turn)
      ensures done == (old(done) || exit in {LostLease, GaveUp, Finished})
      ensures currentStatus ==
        if !(turn.Tick? && turn.lease.Owned?) then old(currentStatus)
        else if turn.primary.Reported? then
          match turn.primary.status { case Known(status) => status case Unknown => Pending }
        else if tier.SimpleTier? && old(assignedService).CloudRunJob?
          && turn.fallback.Some? && turn.fallback.value.Reported? then
          match turn.fallback.value.status { case Known(status) => status case Unknown => Pending }
        else old(currentStatus)
      ensures audit ==
        if currentStatus == old(currentStatus) then [] else [Transition(old(currentStatus), currentStatus)]
      ensures published ==
        if audit != [] && currentStatus in {Completed, Failed, Cancelled} then [currentStatus] else []
      ensures (exit.WasStopped? <==> turn.Stopped?) && (exit.LostLease? <==> turn.Tick? && turn.lease.Refused?)
      ensures (exit.Finished? <==> published != []) && (exit.GaveUp? ==> failedAttempts >= 10)
    {
      audit, published := [], [];
      if turn.Stopped? {
        return WasStopped, [], [];
      }
      if turn.lease.LeaseError? {
        return Live, [], [];
      }
      if turn.lease.Refused? {
        Stop();
        return LostLease, [], [];
      }
      var answer := turn.primary;
      if answer.Failure? {
        failedAttempts := failedAttempts + 1;
        var rescued := false;
        if tier.SimpleTier? && assignedService.CloudRunJob? {
          if turn.fallback.Some? && turn.fallback.value.Reported? {
            answer := turn.fallback.value;
            assignedService := CloudBatch;
            rescued := true;
          }
        }
        if !rescued {
          if failedAttempts >= MAX_FAILED_ATTEMPTS {
            Stop();
            return GaveUp, [], [];
          }
          return Live, [], [];
        }
      }
      failedAttempts := 0;
      var dbStatus := MapStatus(answer.status);
      if dbStatus != currentStatus {
        var oldStatus := currentStatus;
        currentStatus := dbStatus;
        audit := [Transition(oldStatus, dbStatus)];
        if dbStatus.Terminal() {
          published := [dbStatus];
          Stop();
          return Finished, audit, published;
        }
      }
      return Live, audit, published;
    }

    /** The select loop over every turn it is given. */
    method Poll(turns: seq<Turn>) returns (exit: Exit, audit: seq<Transition>, published: seq<Status>)
      modifies this
      ensures Life(State(), exit, audit, published) == LifeOf(old(State()), tier, turns)
    {
      exit, audit, published := Live, [], [];
      var i := 0;
      ghost var start := State();
      AfterAfter([], [], [], [], LifeOf(start, tier, turns));
      while i < |turns| && exit.Live?
        invariant 0 <= i <= |turns|
        invariant exit.Live? ==>
          LifeOf(start, tier, turns) == After(audit, published, LifeOf(State(), tier, turns[i..]))
        invariant !exit.Live? ==> LifeOf(start, tier, turns) == Life(State(), exit, audit, published)
        decreases |turns| - i, exit.Live?
      {
        assert turns[i..][1..] == turns[i + 1..];
        var e, a, p := Step(turns[i]);
        AfterAfter(audit, published, a, p, LifeOf(State(), tier, turns[i + 1..]));
        exit, audit, published := e, audit + a, published + p;
        i := i + 1;
      }
    }
  }

  // ----- The audit trail

  /** Each record starts where the one before ended, from != to, and only the last may be terminal. */
  ghost predicate Chain(from: Status, audit: seq<Transition>) {
    && (audit != [] ==> audit[0].from == from)
    && (forall i :: 0 < i < |audit| ==> audit[i].from == audit[i - 1].to)
    && (forall i :: 0 <= i < |audit| ==> audit[i].from != audit[i].to)
    && (forall i :: 0 <= i < |audit| - 1 ==> !audit[i].to.Terminal())
  }

  function LastStatus(from: Status, audit: seq<Transition>): Status {
    if audit == [] then from else audit[|audit| - 1].to
  }

  /** The whole promise about a life that starts at status `from`: its records chain from there to
      the final status, and a terminal event is published exactly when that status is terminal. */
  ghost predicate GoodTrail(from: Status, life: Life) {
    && Chain(from, life.audit)
    && life.state.current == LastStatus(from, life.audit)
    && life.published == (if life.state.current.Terminal() then [life.state.current] else [])
    && (life.exit.Finished? <==> life.state.current.Terminal())
  }

  lemma {:induction false} AuditTrailIsAChain(p: PollerState, tier: Tier, turns: seq<Turn>)
    requires !p.current.Terminal()
    ensures GoodTrail(p.current, LifeOf(p, tier, turns))
    decreases |turns|
  {
    if turns != [] {
      TrailOfTurn(p, tier, turns[0]);
      var first := TurnOf(p, tier, turns[0]);
      if first.exit.Live? {
        AuditTrailIsAChain(first.state, tier, turns[1..]);
        TrailAfter(p.current, first, LifeOf(first.state, tier, turns[1..]));
      }
    }
  }

  lemma TrailOfTurn(p: PollerState, tier: Tier, turn: Turn)
    requires !p.current.Terminal()
    ensures var life := TurnOf(p, tier, turn);
      if !life.exit.Live? then GoodTrail(p.current, life)
      else
        && !life.state.current.Terminal() && life.published == []
        && if life.audit == [] then life.state.current == p.current
           else life.audit == [Transition(p.current, life.state.current)] && p.current != life.state.current
  {
  }

  lemma TrailAfter(from: Status, first: Life, rest: Life)
    requires first.published == [] && GoodTrail(first.state.current, rest)
    requires
      if first.audit == [] then first.state.current == from
      else
        && first.audit == [Transition(from, first.state.current)]
        && from != first.state.current && !first.state.current.Terminal()
    ensures GoodTrail(from, After(first.audit, first.published, rest))
  {
    AfterAfter([], [], [], [], rest);
    if first.audit != [] {
      ChainCons(first.audit[0], rest.audit);
      assert [] + rest.published == rest.published;
    }
  }

  lemma ChainCons(t: Transition, audit: seq<Transition>)
    requires t.from != t.to && Chain(t.to, audit) && (t.to.Terminal() ==> audit == [])
    ensures Chain(t.from, [t] + audit) && LastStatus(t.from, [t] + audit) == LastStatus(t.to, audit)
  {
    var all := [t] + audit;
    forall i | 0 <= i < |all|
      ensures i > 0 ==> all[i].from == all[i - 1].to
      ensures all[i].from != all[i].to
      ensures i < |all| - 1 ==> !all[i].to.Terminal()
    {
      if i > 0 {
        assert all[i] == audit[i - 1];
        assert all[i - 1] == if i == 1 then t else audit[i - 2];
      }
    }
  }

  // ----- Failed attempts

  /** Does turn `i` make a status check, that is, is it a tick that holds the lease? */
  predicate MakesCheck(turn: Turn) {
    turn.Tick? && turn.lease.Owned?
  }

  predicate Rescuable(turn: Turn) {
    MakesCheck(turn) && turn.primary.Failure? && turn.fallback.Some? && turn.fallback.value.Reported?
  }

  /** The index of the turn whose fallback answers first, if the poller starts with `service`;
      |turns| when there is none. */
  function RescueTurn(service: Service, tier: Tier, turns: seq<Turn>): (i: nat)
    ensures i <= |turns|
    ensures i < |turns| <==>
      tier.SimpleTier? && service.CloudRunJob? && exists j :: 0 <= j < |turns| && Rescuable(turns[j])
    ensures i < |turns| ==> Rescuable(turns[i])
    ensures tier.SimpleTier? && service.CloudRunJob? ==> forall j :: 0 <= j < i ==> !Rescuable(turns[j])
  {
    if turns == [] || !tier.SimpleTier? || !service.CloudRunJob? then |turns|
    else if Rescuable(turns[0]) then 0
    else RescueTurn(service, tier, turns[1..]) + 1
  }

  /** Is turn `i` a status check that got no status, neither at first nor by the fallback? */
  predicate FailsCheck(service: Service, tier: Tier, turns: seq<Turn>, i: nat)
    requires i < |turns|
  {
    MakesCheck(turns[i]) && turns[i].primary.Failure? && i != RescueTurn(service, tier, turns)
  }

  /** The checks among the first `n` turns that failed since the last one that passed; `base`
      counts the failures before the first turn. Turns without a check neither count nor reset. */
  function FailuresSinceSuccess(base: nat, service: Service, tier: Tier, turns: seq<Turn>, n: nat): nat
    requires n <= |turns|
  {
    if n == 0 then base
    else if FailsCheck(service, tier, turns, n - 1) then FailuresSinceSuccess(base, service, tier, turns, n - 1) + 1
    else if MakesCheck(turns[n - 1]) then 0
    else FailuresSinceSuccess(base, service, tier, turns, n - 1)
  }

  /** A life is its life up to turn n - 1 followed by that turn. */
  lemma {:induction false} LifeSnoc(p: PollerState, tier: Tier, turns: seq<Turn>, turn: Turn)
    ensures var before := LifeOf(p, tier, turns);
      LifeOf(p, tier, turns + [turn]) ==
        if !before.exit.Live? then before
        else After(before.audit, before.published, TurnOf(before.state, tier, turn))
    decreases |turns|
  {
    var all := turns + [turn];
    if turns == [] {
      assert all[1..] == [];
      AfterAfter([], [], [], [], TurnOf(p, tier, turn));
      var last := TurnOf(p, tier, turn);
      assert last.audit + [] == last.audit && last.published + [] == last.published;
    } else {
      assert all[1..] == turns[1..] + [turn];
      var first := TurnOf(p, tier, turns[0]);
      if first.exit.Live? {
        LifeSnoc(first.state, tier, turns[1..], turn);
        var before := LifeOf(first.state, tier, turns[1..]);
        AfterAfter(first.audit, first.published, before.audit, before.published, TurnOf(before.state, tier, turn));
      }
    }
  }

  /** The poller is still looping before turn m - 1, and that turn is the failing check that makes the limit. */
  ghost predicate GivesUpAt(p: PollerState, tier: Tier, turns: seq<Turn>, m: nat)
    requires m <= |turns|
  {
    && 0 < m
    && LifeOf(p, tier, turns[..m - 1]).exit.Live?
    && FailsCheck(p.service, tier, turns, m - 1)
    && FailuresSinceSuccess(p.failed, p.service, tier, turns, m) == 10
  }

  /** At every loop head the counter is below the limit and is the number of checks failed since
      the last success, and the service has changed exactly when a rescue has happened, and then
      from Cloud Run to Cloud Batch. */
  lemma {:induction false} FailedAttemptsCounted(p: PollerState, tier: Tier, turns: seq<Turn>, n: nat)
    requires n <= |turns| && p.failed < 10
    requires LifeOf(p, tier, turns[..n]).exit.Live?
    ensures LifeOf(p, tier, turns[..n]).state.failed
         == FailuresSinceSuccess(p.failed, p.service, tier, turns, n) < 10
    ensures LifeOf(p, tier, turns[..n]).state.service
         == if RescueTurn(p.service, tier, turns) < n then CloudBatch else p.service
  {
    if n == 0 {
      assert turns[..0] == [];
    } else {
      assert turns[..n] == turns[..n - 1] + [turns[n - 1]];
      LifeSnoc(p, tier, turns[..n - 1], turns[n - 1]);
      FailedAttemptsCounted(p, tier, turns, n - 1);
      TurnIsClassified(p, LifeOf(p, tier, turns[..n - 1]).state, tier, turns, n - 1);
    }
  }

  /** How the turn at a loop head changes the counter and the service. */
  lemma TurnIsClassified(p: PollerState, q: PollerState, tier: Tier, turns: seq<Turn>, n: nat)
    requires n < |turns| && q.failed < MAX_FAILED_ATTEMPTS
    requires q.service == if RescueTurn(p.service, tier, turns) < n then CloudBatch else p.service
    ensures var next := TurnOf(q, tier, turns[n]);
      && next.state.failed == (if FailsCheck(p.service, tier, turns, n) then q.failed + 1
                               else if MakesCheck(turns[n]) then 0 else q.failed)
      && next.state.service == (if RescueTurn(p.service, tier, turns) == n then CloudBatch else q.service)
      && (next.exit.GaveUp? <==> FailsCheck(p.service, tier, turns, n) && q.failed + 1 == MAX_FAILED_ATTEMPTS)
  {
    var rescue := RescueTurn(p.service, tier, turns);
    assert rescue == n <==> FallbackApplies(q, tier) && Rescuable(turns[n]);
  }

  /** A poller gives up exactly at the failing check that makes the limit. */
  lemma {:induction false} GivesUpExactlyAtTheLimit(p: PollerState, tier: Tier, turns: seq<Turn>, n: nat)
    requires n <= |turns| && p.failed < 10
    ensures LifeOf(p, tier, turns[..n]).exit.GaveUp? <==> exists m :: 0 < m <= n && GivesUpAt(p, tier, turns, m)
  {
    if n == 0 {
      assert turns[..0] == [];
    } else {
      assert turns[..n] == turns[..n - 1] + [turns[n - 1]];
      LifeSnoc(p, tier, turns[..n - 1], turns[n - 1]);
      GivesUpExactlyAtTheLimit(p, tier, turns, n - 1);
      var before := LifeOf(p, tier, turns[..n - 1]);
      if before.exit.Live? {
        FailedAttemptsCounted(p, tier, turns, n - 1);
        TurnIsClassified(p, before.state, tier, turns, n - 1);
        assert LifeOf(p, tier, turns[..n]).exit.GaveUp? <==> GivesUpAt(p, tier, turns, n);
      }
    }
  }

  // ----- The recorded status

  /** The poller makes a check in turn `i` and gets a status, from its own service or by the rescue. */
  predicate PassesCheck(service: Service, tier: Tier, turns: seq<Turn>, i: nat)
    requires i < |turns|
    ensures PassesCheck(service, tier, turns, i) ==>
      && turns[i].Tick?
      && (turns[i].primary.Reported? || (turns[i].fallback.Some? && turns[i].fallback.value.Reported?))
  {
    MakesCheck(turns[i]) && !FailsCheck(service, tier, turns, i)
  }

  /** Turn `i` is the last of the first `n` whose check passed. */
  predicate LastPass(service: Service, tier: Tier, turns: seq<Turn>, n: nat, i: nat)
    requires i < n <= |turns|
  {
    PassesCheck(service, tier, turns, i) && forall j :: i < j < n ==> !PassesCheck(service, tier, turns, j)
  }

  /** What the last of the first `n` turns whose check passed was told, with PENDING for an unknown
      status, or `base` if there is none. */
  function Recorded(base: Status, service: Service, tier: Tier, turns: seq<Turn>, n: nat): Status
    requires n <= |turns|
  {
    if n == 0 then base
    else if !PassesCheck(service, tier, turns, n - 1) then Recorded(base, service, tier, turns, n - 1)
    else
      match if turns[n - 1].primary.Reported? then turns[n - 1].primary.status else turns[n - 1].fallback.value.status
      case Known(status) => status
      case Unknown => Pending
  }

  lemma {:induction false} RecordedByLastPass(base: Status, service: Service, tier: Tier, turns: seq<Turn>, n: nat)
    returns (last: Option<nat>)
    requires n <= |turns|
    ensures last.None? ==>
      && (forall i :: 0 <= i < n ==> !PassesCheck(service, tier, turns, i))
      && Recorded(base, service, tier, turns, n) == base
    ensures last.Some? ==>
      && last.value < n && LastPass(service, tier, turns, n, last.value)
      && var turn := turns[last.value];
      Recorded(base, service, tier, turns, n) ==
        match if turn.primary.Reported? then turn.primary.status else turn.fallback.value.status
        case Known(status) => status
        case Unknown => Pending
  {
    if n == 0 {
      last := None;
    } else if PassesCheck(service, tier, turns, n - 1) {
      last := Some(n - 1);
    } else {
      last := RecordedByLastPass(base, service, tier, turns, n - 1);
    }
  }

  /** At every loop head, and when it has just left, the poller's status is the one recorded last. */
  lemma {:induction false} CurrentIsRecorded(p: PollerState, tier: Tier, turns: seq<Turn>, n: nat)
    requires n <= |turns| && p.failed < 10
    requires n > 0 ==> LifeOf(p, tier, turns[..n - 1]).exit.Live?
    ensures LifeOf(p, tier, turns[..n]).state.current == Recorded(p.current, p.service, tier, turns, n)
  {
    if n == 0 {
      assert turns[..0] == [];
    } else {
      assert turns[..n] == turns[..n - 1] + [turns[n - 1]];
      LifeSnoc(p, tier, turns[..n - 1], turns[n - 1]);
      FailedAttemptsCounted(p, tier, turns, n - 1);
      TurnRecords(p, LifeOf(p, tier, turns[..n - 1]).state, tier, turns, n - 1);
      if n > 1 {
        EarlierTurnsWereLive(p, tier, turns, n - 1);
      }
      CurrentIsRecorded(p, tier, turns, n - 1);
    }
  }

  /** What a turn at a loop head does to the status. */
  lemma TurnRecords(p: PollerState, q: PollerState, tier: Tier, turns: seq<Turn>, n: nat)
    requires n < |turns|
    requires q.service == if RescueTurn(p.service, tier, turns) < n then CloudBatch else p.service
    ensures TurnOf(q, tier, turns[n]).state.current ==
      if !PassesCheck(p.service, tier, turns, n) then q.current
      else
        match if turns[n].primary.Reported? then turns[n].primary.status else turns[n].fallback.value.status
        case Known(status) => status
        case Unknown => Pending
  {
    var rescue := RescueTurn(p.service, tier, turns);
    assert rescue == n <==> FallbackApplies(q, tier) && Rescuable(turns[n]);
  }

  lemma EarlierTurnsWereLive(p: PollerState, tier: Tier, turns: seq<Turn>, n: nat)
    requires 0 < n <= |turns| && LifeOf(p, tier, turns[..n]).exit.Live?
    ensures LifeOf(p, tier, turns[..n - 1]).exit.Live?
  {
    assert turns[..n] == turns[..n - 1] + [turns[n - 1]];
    LifeSnoc(p, tier, turns[..n - 1], turns[n - 1]);
  }

  /** A poller that has left the loop stays as it was. */
  lemma {:induction false} LeftForGood(p: PollerState, tier: Tier, turns: seq<Turn>, n: nat)
    requires n <= |turns| && !LifeOf(p, tier, turns[..n]).exit.Live?
    ensures LifeOf(p, tier, turns) == LifeOf(p, tier, turns[..n])
    decreases |turns|
  {
    if n == |turns| {
      assert turns[..n] == turns;
    } else {
      var init := turns[..|turns| - 1];
      assert init[..n] == turns[..n] && init + [turns[|turns| - 1]] == turns;
      LeftForGood(p, tier, init, n);
      LifeSnoc(p, tier, init, turns[|turns| - 1]);
    }
  }

  /** Over a whole life: of the turns it takes before it leaves, the last one whose check passed says
      what its status is in the end. */
  lemma StatusIsLastReport(p: PollerState, tier: Tier, turns: seq<Turn>) returns (n: nat, last: Option<nat>)
    requires p.failed < 10
    ensures n <= |turns| && LifeOf(p, tier, turns) == LifeOf(p, tier, turns[..n])
    ensures n < |turns| ==> !LifeOf(p, tier, turns).exit.Live?
    ensures n > 0 ==> LifeOf(p, tier, turns[..n - 1]).exit.Live?
    ensures last.None? ==>
      && (forall i :: 0 <= i < n ==> !PassesCheck(p.service, tier, turns, i))
      && LifeOf(p, tier, turns).state.current == p.current
    ensures last.Some? ==>
      && last.value < n && PassesCheck(p.service, tier, turns, last.value)
      && (forall i :: last.value < i < n ==> !PassesCheck(p.service, tier, turns, i))
      && var turn := turns[last.value];
      LifeOf(p, tier, turns).state.current ==
        match if turn.primary.Reported? then turn.primary.status else turn.fallback.value.status
        case Known(status) => status
        case Unknown => Pending
  {
    n := 0;
    assert turns[..0] == [];
    while n < |turns| && LifeOf(p, tier, turns[..n]).exit.Live?
      invariant n <= |turns|
      invariant n > 0 ==> LifeOf(p, tier, turns[..n - 1]).exit.Live?
    {
      n := n + 1;
    }
    CurrentIsRecorded(p, tier, turns, n);
    last := RecordedByLastPass(p.current, p.service, tier, turns, n);
    if n < |turns| {
      LeftForGood(p, tier, turns, n);
    } else {
      assert turns[..n] == turns;
    }
  }

  // ----- Recovered pollers

  /** A poller that is recovered from the stored tier alone asks the service that the job was routed to,
      and may fall back to Cloud Batch exactly if that was Cloud Run. */
  lemma RecoveredPollerAsksTheSameService(routed: Service, current: Status)
    requires routed != Unspecified
    ensures var tier := if routed.CloudRunJob? then SimpleTier else ComplexTier;
      && InferService(Unspecified, tier) == routed == InferService(routed, tier)
      && (FallbackApplies(PollerState(current, 0, InferService(Unspecified, tier)), tier) <==> routed.CloudRunJob?)
  {
  }
}
