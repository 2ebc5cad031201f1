/** Short runs from an empty table, of the steps of module Cluster, in which leases or submissions do
    not give what one might expect. */
module LeaseRuns {
  import opened Wrappers
  import opened Jobs
  import opened Pollers
  import opened Cluster
  import opened Leases
  import opened Availability

  // ----- A submitted job

  const TTLS: map<WorkerId, nat> := map["a" := 30, "b" := 30]

  /** The row of a running job that worker "a" submitted. */
  function RowOf(owner: WorkerId, expiry: int, heartbeat: int): Row {
    Row(Running, Some("path"), Some(owner), Some("a"), Some(expiry), Some(heartbeat), ComplexTier, CloudBatch)
  }

  function PollerOf(w: WorkerId, k: Key, phase: Phase): Task {
    Polling(w, k, ComplexTier, PollerState(Running, 0, CloudBatch), phase, false)
  }

  ghost function Empty(): State {
    State(0, TTLS, map[], map[], map[], [], {})
  }

  ghost function Launched(k: Key): State {
    State(0, TTLS, map[k := RowOf("a", 30, 0)], map[1 := PollerOf("a", k, Waiting)], map[Registration("a", k) := 1],
          [Submitted(k, Running)], {})
  }

  /** The run goes on by a timely step. */
  lemma GoOn(s: State, acts: seq<Action>, now: State, a: Action, k: Key)
    requires CanRun(s, acts) && Final(s, acts) == now && TimelyRun(s, acts, k)
    requires Enabled(now, a) && TimelyStep(now, a, k)
    ensures CanRun(s, acts + [a]) && Final(s, acts + [a]) == Next(now, a) && TimelyRun(s, acts + [a], k)
  {
    RunSnoc(s, acts, a);
    TimelySnoc(s, acts, a, k);
  }

  lemma Insert(k: Key)
    ensures Init(Empty()) && Enabled(Empty(), SubmitInsert("a", k, 0))
    ensures Next(Empty(), SubmitInsert("a", k, 0))
         == State(0, TTLS, map[k := NewRow("a", 0, 30)], map[0 := Submitting("a", k)], map[], [], {})
  {
  }

  lemma Accept(s: State, k: Key)
    requires s == State(0, TTLS, map[k := NewRow("a", 0, 30)], map[0 := Submitting("a", k)], map[], [], {})
    ensures var a := SubmitFinish(0, Accepted("path", Unknown, CloudBatch));
      && Enabled(s, a)
      && Next(s, a) == State(
           0, TTLS, map[k := RowOf("a", 30, 0)], map[0 := Launching("a", k, Running, CloudBatch)], map[],
                             [Submitted(k, Running)], {})
  {
  }

  lemma Launch(s: State, k: Key)
    requires s == State(0, TTLS, map[k := RowOf("a", 30, 0)], map[0 := Launching("a", k, Running, CloudBatch)], map[],
                        [Submitted(k, Running)], {})
    ensures Enabled(s, SubmitLaunch(0, 1)) && Next(s, SubmitLaunch(0, 1)) == Launched(k)
  {
    assert s.tasks - {0} == map[];
  }

  lemma SubmissionRun(k: Key) returns (acts: seq<Action>)
    ensures Init(Empty()) && CanRun(Empty(), acts) && Final(Empty(), acts) == Launched(k) && TimelyRun(Empty(), acts, k)
  {
    var insert, accept := SubmitInsert("a", k, 0), SubmitFinish(0, Accepted("path", Unknown, CloudBatch));
    Insert(k);
    GoOn(Empty(), [], Empty(), insert, k);
    var inserted := Next(Empty(), insert);
    Accept(inserted, k);
    GoOn(Empty(), [] + [insert], inserted, accept, k);
    var accepted := Next(inserted, accept);
    Launch(accepted, k);
    GoOn(Empty(), [] + [insert] + [accept], accepted, SubmitLaunch(0, 1), k);
    acts := [] + [insert] + [accept] + [SubmitLaunch(0, 1)];
  }

  // ----- A takeover in the middle of a tick

  lemma Elapse(s: State, to: int, k: Key)
    requires s.clock <= to && forall id :: !TickInFlight(s, id, k)
    ensures Enabled(s, Advance(to)) && TimelyStep(s, Advance(to), k) && Next(s, Advance(to)) == s.(clock := to)
  {
  }

  lemma FailOverLists(k: Key)
    ensures var s, a := Launched(k).(clock := 31), ReconcileList("b", 2, [Listed(k, RowOf("a", 30, 0))]);
      && Enabled(s, a) && TimelyStep(s, a, k)
      && Next(s, a) == s.(
           tasks := map[1 := PollerOf("a", k, Waiting), 2 := Reconciling("b", [Listed(k, RowOf("a", 30, 0))])])
  {
    assert [Listed(k, RowOf("a", 30, 0))][0].key == k;
  }

  /** Worker "b" has taken the job over and polls it, "a" has not noticed. */
  ghost function TakenOver(k: Key, first: Phase, second: Phase): State {
    State(31, TTLS, map[k := RowOf("b", 61, 31)], map[1 := PollerOf("a", k, first), 3 := PollerOf("b", k, second)],
          map[Registration("a", k) := 1, Registration("b", k) := 3], [Submitted(k, Running)], {})
  }

  lemma FailOverClaims(k: Key)
    ensures var s := Launched(k).(
        clock := 31,
        tasks := map[1 := PollerOf("a", k, Waiting), 2 := Reconciling("b", [Listed(k, RowOf("a", 30, 0))])]);
      var a := ReconcileClaim(2, 31, 3);
      Enabled(s, a) && TimelyStep(s, a, k) && Next(s, a) == TakenOver(k, Waiting, Waiting)
  {
    var s := Launched(k).(
      clock := 31, tasks := map[1 := PollerOf("a", k, Waiting), 2 := Reconciling("b", [Listed(k, RowOf("a", 30, 0))])]);
    assert s.tasks - {2} == map[1 := PollerOf("a", k, Waiting)];
    assert Next(s, ReconcileClaim(2, 31, 3)).tasks == TakenOver(k, Waiting, Waiting).tasks;
  }

  lemma SecondTicks(k: Key)
    ensures var s, a := TakenOver(k, Waiting, Waiting), TickClaim(3, 31);
      Enabled(s, a) && TimelyStep(s, a, k) && Next(s, a) == TakenOver(k, Waiting, HoldsLease)
  {
    assert Next(TakenOver(k, Waiting, Waiting), TickClaim(3, 31)).tasks == TakenOver(k, Waiting, HoldsLease).tasks;
  }

  lemma FirstTicks(k: Key)
    ensures var s, a := TakenOver(k, Waiting, HoldsLease), TickClaim(1, 31);
      Enabled(s, a) && TimelyStep(s, a, k) && Overlap(Next(s, a), k)
  {
    var t := Next(TakenOver(k, Waiting, HoldsLease), TickClaim(1, 31));
    assert TickInFlight(t, 1, k) && TickInFlight(t, 3, k);
  }

  /** The one case in which leases do not serialise polling does occur: after a fail-over to "b", the
      preferred worker "a" begins a tick in the middle of one of "b", and every step is timely. */
  lemma TakeoverOverlaps(k: Key) returns (acts: seq<Action>)
    ensures Init(Empty()) && CanRun(Empty(), acts) && TimelyRun(Empty(), acts, k) && Overlap(Final(Empty(), acts), k)
  {
    acts := SubmissionRun(k);
    Elapse(Launched(k), 31, k);
    GoOn(Empty(), acts, Launched(k), Advance(31), k);
    acts := acts + [Advance(31)];
    var list := ReconcileList("b", 2, [Listed(k, RowOf("a", 30, 0))]);
    FailOverLists(k);
    var late := Launched(k).(clock := 31);
    GoOn(Empty(), acts, late, list, k);
    acts := acts + [list];
    FailOverClaims(k);
    GoOn(Empty(), acts, Next(late, list), ReconcileClaim(2, 31, 3), k);
    acts := acts + [ReconcileClaim(2, 31, 3)];
    SecondTicks(k);
    GoOn(Empty(), acts, TakenOver(k, Waiting, Waiting), TickClaim(3, 31), k);
    acts := acts + [TickClaim(3, 31)];
    FirstTicks(k);
    GoOn(Empty(), acts, TakenOver(k, Waiting, HoldsLease), TickClaim(1, 31), k);
    acts := acts + [TickClaim(1, 31)];
  }

  // ----- A stale renewal

  ghost function Listing(k: Key, expiry: int, clock: int, phase: Phase): State {
    State(clock, TTLS, map[k := RowOf("a", expiry, clock)],
          map[1 := PollerOf("a", k, phase), 2 := Reconciling("a", [Listed(k, RowOf("a", 30, 0))])],
          map[Registration("a", k) := 1], [Submitted(k, Running)], {})
  }

  lemma OwnerLists(k: Key)
    ensures var a := ReconcileList("a", 2, [Listed(k, RowOf("a", 30, 0))]);
      Enabled(Launched(k), a) && Next(Launched(k), a) == Listing(k, 30, 0, Waiting)
  {
    assert [Listed(k, RowOf("a", 30, 0))][0].key == k;
  }

  lemma OwnerRenews(k: Key)
    ensures var s, a := Listing(k, 30, 0, Waiting).(clock := 20), TickClaim(1, 20);
      Enabled(s, a) && Next(s, a) == Listing(k, 50, 20, HoldsLease)
  {
    var s := Listing(k, 30, 0, Waiting).(clock := 20);
    assert Next(s, TickClaim(1, 20)).tasks == Listing(k, 50, 20, HoldsLease).tasks;
  }

  lemma OwnerRenewsLate(k: Key)
    ensures var s, a := Listing(k, 50, 20, HoldsLease), ReconcileClaim(2, 0, 3);
      Enabled(s, a) && k in Next(s, a).jobs && Next(s, a).jobs[k] == RowOf("a", 30, 20) && Next(s, a).clock == 20
  {
  }

  /** A reconcile claim of the owner that read the clock at 0 commits after a tick that renewed the
      lease until 50. It brings the expiry forward to 30, and at 31 another worker would be let in. */
  lemma StaleRenewalShortensLease(k: Key) returns (acts: seq<Action>, more: seq<Action>)
    ensures Init(Empty()) && CanRun(Empty(), acts) && CanRun(Final(Empty(), acts), more)
    ensures var s, t := Final(Empty(), acts), Final(Final(Empty(), acts), more);
      && Owns(s, k, "a", 50) && t.clock == 31
      && forall leaseUntil :: WouldClaim(t, k, "b", leaseUntil)
  {
    acts := SubmissionRun(k);
    var list := ReconcileList("a", 2, [Listed(k, RowOf("a", 30, 0))]);
    OwnerLists(k);
    RunSnoc(Empty(), acts, list);
    acts := acts + [list];
    RunSnoc(Empty(), acts, Advance(20));
    acts := acts + [Advance(20)];
    OwnerRenews(k);
    RunSnoc(Empty(), acts, TickClaim(1, 20));
    acts := acts + [TickClaim(1, 20)];
    OwnerRenewsLate(k);
    var s := Listing(k, 50, 20, HoldsLease);
    RunTwo(s, ReconcileClaim(2, 0, 3), Advance(31));
    more := [ReconcileClaim(2, 0, 3), Advance(31)];
  }

  // ----- An abandoned submission

  /** A crash between the insert and the provider's answer strands the job. */
  lemma CrashStrands(k: Key) returns (acts: seq<Action>)
    ensures Init(Empty()) && CanRun(Empty(), acts) && Stranded(Final(Empty(), acts), k)
    ensures !Final(Empty(), acts).jobs[k].status.Terminal()
  {
    Insert(k);
    acts := [SubmitInsert("a", k, 0), Crash("a")];
    RunTwo(Empty(), acts[0], acts[1]);
    var s := Final(Empty(), acts);
    assert s.tasks == map[];
  }
}
