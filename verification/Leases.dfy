/** Who polls a job: lease exclusion, hand-back and fail-over, over every run of module Cluster. */
module Leases {
  import opened Wrappers
  import opened Jobs
  import opened Cluster

  /** A step that calls TryClaimOrRenewJobLease for job k. */
  ghost predicate Claims(s: State, a: Action, k: Key)
    requires Enabled(s, a)
  {
    || (a.TickClaim? && s.tasks[a.id].key == k)
    || (a.ReconcileClaim? && s.tasks[a.id].pending[0].key == k)
  }

  ghost function Claimant(s: State, a: Action): WorkerId
    requires Enabled(s, a) && (a.TickClaim? || a.ReconcileClaim?)
  {
    s.tasks[a.id].worker
  }

  /** The expiry a claim step asks for: the time it read before the transaction, plus its worker's TTL. */
  ghost function LeaseUntil(s: State, a: Action): int
    requires Enabled(s, a) && (a.TickClaim? || a.ReconcileClaim?)
  {
    a.asked + s.ttl[s.tasks[a.id].worker]
  }

  ghost predicate SameLease(r: Row, q: Row) {
    r.owner == q.owner && r.preferred == q.preferred && r.leaseExpiresAt == q.leaseExpiresAt
  }

  lemma PollerStepsKeepLeases(s: State, a: Action, k: Key)
    requires Enabled(s, a) && PollerStep(a) && k in s.jobs && !Claims(s, a, k)
    ensures k in Next(s, a).jobs && SameLease(Next(s, a).jobs[k], s.jobs[k])
  {
  }

  lemma HandlerStepsKeepLeases(s: State, a: Action, k: Key)
    requires Enabled(s, a) && !PollerStep(a) && k in s.jobs && !Claims(s, a, k)
    ensures k in Next(s, a).jobs && SameLease(Next(s, a).jobs[k], s.jobs[k])
  {
  }

  lemma ClaimStep(s: State, a: Action, k: Key)
    requires Enabled(s, a) && k in s.jobs && Claims(s, a, k)
    ensures k in Next(s, a).jobs
    ensures Next(s, a).jobs[k] == Claim(s.jobs[k], Claimant(s, a), s.clock, LeaseUntil(s, a)).row
  {
  }

  lemma ClockStep(s: State, a: Action)
    requires Enabled(s, a)
    ensures Next(s, a).ttl == s.ttl && Next(s, a).clock == if a.Advance? then a.to else s.clock
  {
  }

  /** Claims are the only steps that touch a stored row's owner, preferred worker or lease, and each
      does to the row exactly what its transaction does; TTLs are fixed and the clock never goes back. */
  lemma OnlyClaimsTouchLeases(s: State, a: Action, k: Key)
    requires Enabled(s, a) && k in s.jobs
    ensures k in Next(s, a).jobs && Next(s, a).ttl == s.ttl
    ensures Next(s, a).clock == (if a.Advance? then a.to else s.clock) >= s.clock
    ensures if Claims(s, a, k) then
              Next(s, a).jobs[k] == Claim(s.jobs[k], Claimant(s, a), s.clock, LeaseUntil(s, a)).row
            else SameLease(Next(s, a).jobs[k], s.jobs[k])
  {
    ClockStep(s, a);
    if Claims(s, a, k) {
      ClaimStep(s, a, k);
    } else if PollerStep(a) {
      PollerStepsKeepLeases(s, a, k);
    } else {
      HandlerStepsKeepLeases(s, a, k);
    }
  }

  lemma {:induction false} ClockMonotone(s: State, acts: seq<Action>)
    requires CanRun(s, acts)
    ensures Final(s, acts).clock >= s.clock
    decreases |acts|
  {
    if acts != [] {
      ClockMonotone(Next(s, acts[0]), acts[1..]);
    }
  }

  // ----- Exclusion

  /** Worker w holds job k's lease at least until `expiry`, and nobody else is the preferred worker. */
  ghost predicate Holds(s: State, k: Key, w: WorkerId, expiry: int) {
    && k in s.jobs && w != ""
    && s.jobs[k].owner == Some(w) && s.jobs[k].leaseExpiresAt.Some? && expiry <= s.jobs[k].leaseExpiresAt.value
    && (s.jobs[k].preferred == None || s.jobs[k].preferred == Some(w))
  }

  /** Throughout the run, worker w's own claims on k ask for no time earlier than `expiry`. */
  ghost predicate RenewalsInOrder(s: State, acts: seq<Action>, k: Key, w: WorkerId, expiry: int)
    requires CanRun(s, acts)
    decreases |acts|
  {
    acts == [] || (
      && (Claims(s, acts[0], k) && Claimant(s, acts[0]) == w ==> expiry <= LeaseUntil(s, acts[0]))
      && RenewalsInOrder(Next(s, acts[0]), acts[1..], k, w, expiry))
  }

  /** Up to `expiry` nobody else can take the job, through any interleaving of renewals and attempts. */
  lemma {:induction false} LeaseExcludesOthers(s: State, acts: seq<Action>, k: Key, w: WorkerId, expiry: int)
    requires CanRun(s, acts) && Holds(s, k, w, expiry) && RenewalsInOrder(s, acts, k, w, expiry)
    requires Final(s, acts).clock <= expiry
    ensures Holds(Final(s, acts), k, w, expiry)
    ensures forall other, leaseUntil :: other != w ==>
      !Claim(Final(s, acts).jobs[k], other, Final(s, acts).clock, leaseUntil).claimed
    decreases |acts|
  {
    if acts != [] {
      OnlyClaimsTouchLeases(s, acts[0], k);
      ClockMonotone(Next(s, acts[0]), acts[1..]);
      LeaseExcludesOthers(Next(s, acts[0]), acts[1..], k, w, expiry);
    }
  }

  /** Worker w, whoever is preferred, owns job k with a lease at least until `expiry`. */
  ghost predicate Owns(s: State, k: Key, w: WorkerId, expiry: int) {
    && k in s.jobs && w != "" && s.jobs[k].owner == Some(w)
    && s.jobs[k].leaseExpiresAt.Some? && expiry <= s.jobs[k].leaseExpiresAt.value
  }

  /** In the run, the job's preferred worker makes no claim on it, unless that is w. */
  ghost predicate PreferredStaysAway(s: State, acts: seq<Action>, k: Key, w: WorkerId)
    requires CanRun(s, acts)
    decreases |acts|
  {
    acts == [] || (
      && (Claims(s, acts[0], k) && k in s.jobs ==>
            Claimant(s, acts[0]) == w || s.jobs[k].preferred != Some(Claimant(s, acts[0])))
      && PreferredStaysAway(Next(s, acts[0]), acts[1..], k, w))
  }

  /** Any owner, one that took the job over included, shuts out every worker but the preferred one
      until its expiry, and keeps the job as long as that one makes no claim. */
  lemma {:induction false} OwnerExcludesOthers(s: State, acts: seq<Action>, k: Key, w: WorkerId, expiry: int)
    requires CanRun(s, acts) && Owns(s, k, w, expiry) && RenewalsInOrder(s, acts, k, w, expiry)
    requires PreferredStaysAway(s, acts, k, w) && Final(s, acts).clock <= expiry
    ensures Owns(Final(s, acts), k, w, expiry)
    ensures forall other, leaseUntil :: other != w && Final(s, acts).jobs[k].preferred != Some(other) ==>
      !Claim(Final(s, acts).jobs[k], other, Final(s, acts).clock, leaseUntil).claimed
    decreases |acts|
  {
    if acts != [] {
      OnlyClaimsTouchLeases(s, acts[0], k);
      ClockMonotone(Next(s, acts[0]), acts[1..]);
      OwnerExcludesOthers(Next(s, acts[0]), acts[1..], k, w, expiry);
    }
  }

  /** Every claim step asks for an expiry counted from the very time its transaction commits. */
  ghost predicate PromptClaims(s: State, acts: seq<Action>)
    requires CanRun(s, acts)
    decreases |acts|
  {
    acts == [] || (
      && (acts[0].TickClaim? || acts[0].ReconcileClaim? ==> acts[0].asked == s.clock)
      && PromptClaims(Next(s, acts[0]), acts[1..]))
  }

  lemma {:induction false} PromptRenewalsAreInOrder(s: State, acts: seq<Action>, k: Key, w: WorkerId, expiry: int)
    requires CanRun(s, acts) && PromptClaims(s, acts) && k in s.jobs && w in s.ttl && expiry <= s.clock + s.ttl[w]
    ensures RenewalsInOrder(s, acts, k, w, expiry)
    decreases |acts|
  {
    if acts != [] {
      OnlyClaimsTouchLeases(s, acts[0], k);
      PromptRenewalsAreInOrder(Next(s, acts[0]), acts[1..], k, w, expiry);
    }
  }

  /** A successful prompt claim by a worker that is preferred, or on a job that has no preferred
      worker, shuts every other worker out until the expiry it set. */
  lemma PromptClaimExcludesOthers(s: State, a: Action, acts: seq<Action>, k: Key)
    requires Enabled(s, a) && k in s.jobs && Claims(s, a, k) && a.asked == s.clock && Claimant(s, a) != ""
    requires Claim(s.jobs[k], Claimant(s, a), s.clock, LeaseUntil(s, a)).claimed
    requires s.jobs[k].preferred == None || s.jobs[k].preferred == Some(Claimant(s, a))
    requires CanRun(Next(s, a), acts) && PromptClaims(Next(s, a), acts)
    requires Final(Next(s, a), acts).clock <= LeaseUntil(s, a)
    ensures var t := Final(Next(s, a), acts);
      && k in t.jobs && t.jobs[k].owner == Some(Claimant(s, a))
      && forall other, leaseUntil :: other != Claimant(s, a) ==> !Claim(t.jobs[k], other, t.clock, leaseUntil).claimed
  {
    OnlyClaimsTouchLeases(s, a, k);
    PromptRenewalsAreInOrder(Next(s, a), acts, k, Claimant(s, a), LeaseUntil(s, a));
    LeaseExcludesOthers(Next(s, a), acts, k, Claimant(s, a), LeaseUntil(s, a));
  }

  // ----- A submission's lease

  /** The handler's insert leaves the job leased to the submitting worker for its TTL, counted from the
      insert, and not terminal. */
  lemma SubmissionHolds(s: State, w: WorkerId, k: Key, id: TaskId)
    requires Enabled(s, SubmitInsert(w, k, id)) && w != ""
    ensures var t := Next(s, SubmitInsert(w, k, id));
      && Holds(t, k, w, s.clock + s.ttl[w])
      && t.jobs[k].leaseExpiresAt == Some(s.clock + s.ttl[w]) && t.jobs[k].preferred == Some(w)
  {
  }

  /** Through any run of prompt claims, a fresh submission is its worker's own for that worker's TTL. */
  lemma SubmissionExcludesOthers(s: State, w: WorkerId, k: Key, id: TaskId, acts: seq<Action>)
    requires Enabled(s, SubmitInsert(w, k, id)) && w != ""
    requires var t := Next(s, SubmitInsert(w, k, id));
      CanRun(t, acts) && PromptClaims(t, acts) && Final(t, acts).clock <= s.clock + s.ttl[w]
    ensures var u := Final(Next(s, SubmitInsert(w, k, id)), acts);
      && k in u.jobs && u.jobs[k].owner == Some(w)
      && forall other, leaseUntil :: other != w ==> !Claim(u.jobs[k], other, u.clock, leaseUntil).claimed
  {
    var t := Next(s, SubmitInsert(w, k, id));
    SubmissionHolds(s, w, k, id);
    PromptRenewalsAreInOrder(t, acts, k, w, s.clock + s.ttl[w]);
    LeaseExcludesOthers(t, acts, k, w, s.clock + s.ttl[w]);
  }

  ghost predicate NeverClaimed(s: State, acts: seq<Action>, k: Key)
    requires CanRun(s, acts)
    decreases |acts|
  {
    acts == [] || (!Claims(s, acts[0], k) && NeverClaimed(Next(s, acts[0]), acts[1..], k))
  }

  lemma {:induction false} UnclaimedKeepsLease(s: State, acts: seq<Action>, k: Key)
    requires CanRun(s, acts) && NeverClaimed(s, acts, k) && k in s.jobs
    ensures k in Final(s, acts).jobs && SameLease(Final(s, acts).jobs[k], s.jobs[k])
    decreases |acts|
  {
    if acts != [] {
      OnlyClaimsTouchLeases(s, acts[0], k);
      UnclaimedKeepsLease(Next(s, acts[0]), acts[1..], k);
    }
  }

  /** A submission that nobody has claimed since, while it is not terminal, is open to another worker
      exactly when more than the submitting worker's TTL has gone by. */
  lemma SubmissionOpensExactlyAfterItsLease(
    s: State, w: WorkerId, k: Key, id: TaskId, acts: seq<Action>, other: WorkerId, leaseUntil: int)
    requires Enabled(s, SubmitInsert(w, k, id)) && w != "" && other != w
    requires var t := Next(s, SubmitInsert(w, k, id));
      CanRun(t, acts) && NeverClaimed(t, acts, k)
    ensures var u := Final(Next(s, SubmitInsert(w, k, id)), acts);
      && k in u.jobs
      && (!u.jobs[k].status.Terminal() ==>
            (Claim(u.jobs[k], other, u.clock, leaseUntil).claimed <==> s.clock + s.ttl[w] < u.clock))
  {
    SubmissionHolds(s, w, k, id);
    UnclaimedKeepsLease(Next(s, SubmitInsert(w, k, id)), acts, k);
  }

  // ----- No ping-pong

  /** No claim in the run finds job k unowned or its lease expired. */
  ghost predicate NeverFoundFree(s: State, acts: seq<Action>, k: Key)
    requires CanRun(s, acts) && k in s.jobs
    decreases |acts|
  {
    acts == [] || (
      && (Claims(s, acts[0], k) ==> !s.jobs[k].Unowned() && !s.jobs[k].LeaseExpired(s.clock))
      && (k in Next(s, acts[0]).jobs ==> NeverFoundFree(Next(s, acts[0]), acts[1..], k)))
  }

  ghost function OwnerChanges(s: State, acts: seq<Action>, k: Key): nat
    requires CanRun(s, acts)
    decreases |acts|
  {
    if acts == [] then 0
    else
      var t := Next(s, acts[0]);
      (if k in s.jobs && k in t.jobs && s.jobs[k].owner != t.jobs[k].owner then 1 else 0)
      + OwnerChanges(t, acts[1..], k)
  }

  /** While the lease is kept alive the owner changes at most once, and then to the preferred
      worker; an owner that is the preferred worker already keeps the job. */
  lemma {:induction false} NoPingPong(s: State, acts: seq<Action>, k: Key)
    requires CanRun(s, acts) && k in s.jobs && NeverFoundFree(s, acts, k)
    ensures k in Final(s, acts).jobs && Final(s, acts).jobs[k].preferred == s.jobs[k].preferred
    ensures OwnerChanges(s, acts, k) <= if s.jobs[k].owner == s.jobs[k].preferred then 0 else 1
    ensures Final(s, acts).jobs[k].owner
         == if OwnerChanges(s, acts, k) == 0 then s.jobs[k].owner else s.jobs[k].preferred
    decreases |acts|
  {
    if acts != [] {
      OnlyClaimsTouchLeases(s, acts[0], k);
      NoPingPong(Next(s, acts[0]), acts[1..], k);
    }
  }

  // ----- An owner that renews

  /** Worker w renews job k in time: the clock never passes the stored expiry, and w's own claims ask
      for no time that is past already. */
  ghost predicate RenewedInTime(s: State, acts: seq<Action>, k: Key, w: WorkerId)
    requires CanRun(s, acts)
    decreases |acts|
  {
    acts == [] || (
      && (acts[0].Advance? ==>
            k in s.jobs && s.jobs[k].leaseExpiresAt.Some? && acts[0].to <= s.jobs[k].leaseExpiresAt.value)
      && (Claims(s, acts[0], k) && Claimant(s, acts[0]) == w ==> s.clock <= LeaseUntil(s, acts[0]))
      && RenewedInTime(Next(s, acts[0]), acts[1..], k, w))
  }

  /** A preferred (or undisputed) owner that renews in time keeps the job for the whole run. */
  lemma {:induction false} RenewingOwnerKeepsJob(s: State, acts: seq<Action>, k: Key, w: WorkerId)
    requires CanRun(s, acts) && Holds(s, k, w, s.clock) && RenewedInTime(s, acts, k, w)
    ensures Holds(Final(s, acts), k, w, Final(s, acts).clock)
    ensures OwnerChanges(s, acts, k) == 0
    decreases |acts|
  {
    if acts != [] {
      OnlyClaimsTouchLeases(s, acts[0], k);
      RenewingOwnerKeepsJob(Next(s, acts[0]), acts[1..], k, w);
    }
  }

  ghost predicate Renews(s: State, a: Action, k: Key, w: WorkerId)
    requires Enabled(s, a)
  {
    && Claims(s, a, k) && Claimant(s, a) == w && k in s.jobs
    && Claim(s.jobs[k], w, s.clock, LeaseUntil(s, a)).claimed
  }

  /** The clock never passes `ttl` after w's last successful claim, which was at `since`. */
  ghost predicate RenewedWithin(s: State, acts: seq<Action>, k: Key, w: WorkerId, since: int, ttl: nat)
    requires CanRun(s, acts)
    decreases |acts|
  {
    acts == [] || (
      && (acts[0].Advance? ==> acts[0].to <= since + ttl)
      && RenewedWithin(Next(s, acts[0]), acts[1..], k, w, if Renews(s, acts[0], k, w) then s.clock else since, ttl))
  }

  lemma {:induction false} PromptRenewalsAreInTime(s: State, acts: seq<Action>, k: Key, w: WorkerId, since: int)
    requires CanRun(s, acts) && PromptClaims(s, acts) && w in s.ttl
    requires Holds(s, k, w, since + s.ttl[w]) && s.clock <= since + s.ttl[w]
    requires RenewedWithin(s, acts, k, w, since, s.ttl[w])
    ensures RenewedInTime(s, acts, k, w)
    decreases |acts|
  {
    if acts != [] {
      OnlyClaimsTouchLeases(s, acts[0], k);
      PromptRenewalsAreInTime(Next(s, acts[0]), acts[1..], k, w, if Renews(s, acts[0], k, w) then s.clock else since);
    }
  }

  /** With expiries counted from the commit, successful renewals at most a TTL apart are enough: no
      interleaving takes the job away, and nobody else's claim would succeed at the end. */
  lemma PromptOwnerKeepsJob(s: State, acts: seq<Action>, k: Key, w: WorkerId, since: int)
    requires CanRun(s, acts) && PromptClaims(s, acts) && w in s.ttl
    requires Holds(s, k, w, since + s.ttl[w]) && s.clock <= since + s.ttl[w]
    requires RenewedWithin(s, acts, k, w, since, s.ttl[w])
    ensures var t := Final(s, acts);
      && Holds(t, k, w, t.clock) && OwnerChanges(s, acts, k) == 0
      && forall other, leaseUntil :: other != w ==> !Claim(t.jobs[k], other, t.clock, leaseUntil).claimed
  {
    PromptRenewalsAreInTime(s, acts, k, w, since);
    RenewingOwnerKeepsJob(s, acts, k, w);
  }

  // ----- Hand-back and its cost

  /** The preferred worker's next claim always succeeds while the job is not terminal, even on a
      live lease of another worker; and only then, or when the job is free, does ownership move. A claim
      that succeeds leaves the job with the claimant until the time it asked for. */
  lemma OwnershipMoves(row: Row, w: WorkerId, now: int, leaseUntil: int)
    ensures !row.status.Terminal() && row.preferred == Some(w) ==> Claim(row, w, now, leaseUntil).claimed
    ensures Claim(row, w, now, leaseUntil).row.owner != row.owner <==>
      && row.owner != Some(w) && row.status in {Pending, Scheduled, Running}
      && (row.preferred == Some(w) || row.owner in {None, Some("")}
          || row.leaseExpiresAt == None || row.leaseExpiresAt.value < now)
    ensures Claim(row, w, now, leaseUntil).claimed <==>
      row.status in {Pending, Scheduled, Running} && Claim(row, w, now, leaseUntil).row.owner == Some(w)
    ensures Claim(row, w, now, leaseUntil).claimed ==>
      Claim(row, w, now, leaseUntil).row.leaseExpiresAt == Some(leaseUntil)
  {
  }

  /** A renewal by the owner keeps a worker that is not preferred out until `expiry` exactly when it
      asks for no earlier time, whatever expiry was stored before. */
  lemma RenewalExcludesExactlyWhen(w: WorkerId, other: WorkerId, row: Row, now: int, expiry: int, until: int)
    requires w != other && w != "" && !row.status.Terminal() && row.owner == Some(w)
    requires row.preferred != Some(other) && now <= expiry
    ensures (forall t, leaseUntil :: now <= t <= expiry ==>
               !Claim(Claim(row, w, now, until).row, other, t, leaseUntil).claimed)
      <==> expiry <= until
  {
    var renewed := Claim(row, w, now, until).row;
    if until < expiry {
      assert Claim(renewed, other, expiry, expiry).claimed;
    }
  }

  ghost predicate WouldClaim(s: State, k: Key, other: WorkerId, leaseUntil: int) {
    k in s.jobs && Claim(s.jobs[k], other, s.clock, leaseUntil).claimed
  }

  /** In every continuation in which w's claims keep to `expiry`, the other worker is refused until then. */
  ghost predicate ShutOut(s: State, k: Key, w: WorkerId, other: WorkerId, expiry: int) {
    forall acts, leaseUntil ::
      CanRun(s, acts) && RenewalsInOrder(s, acts, k, w, expiry) && Final(s, acts).clock <= expiry ==>
        !WouldClaim(Final(s, acts), k, other, leaseUntil)
  }

  /** Over runs: a renewal shuts another worker out until `expiry` exactly when it asks for no earlier
      time. If it asks for less, letting time pass is enough for the other worker to get in early. */
  lemma PromiseKeptExactlyWhen(s: State, a: Action, k: Key, other: WorkerId, expiry: int)
    requires Enabled(s, a) && k in s.jobs && Claims(s, a, k) && !s.jobs[k].status.Terminal()
    requires var w := Claimant(s, a);
      && w != "" && w != other && s.jobs[k].owner == Some(w) && s.jobs[k].preferred in {None, Some(w)}
    requires s.clock <= expiry
    ensures ShutOut(Next(s, a), k, Claimant(s, a), other, expiry) <==> expiry <= LeaseUntil(s, a)
  {
    var t, w := Next(s, a), Claimant(s, a);
    OnlyClaimsTouchLeases(s, a, k);
    if expiry <= LeaseUntil(s, a) {
      forall acts, leaseUntil |
        CanRun(t, acts) && RenewalsInOrder(t, acts, k, w, expiry) && Final(t, acts).clock <= expiry
        ensures !WouldClaim(Final(t, acts), k, other, leaseUntil)
      {
        LeaseExcludesOthers(t, acts, k, w, expiry);
      }
    } else {
      var wait := Advance(expiry);
      RunOne(t, wait);
      assert [wait][1..] == [];
      assert RenewalsInOrder(t, [wait], k, w, expiry);
      assert WouldClaim(Final(t, [wait]), k, other, expiry);
    }
  }

  // ----- Leases make polling serial

  /** A tick of poller `id` is between its lease claim and its end. */
  ghost predicate TickInFlight(s: State, id: TaskId, k: Key) {
    id in s.tasks && s.tasks[id].Polling? && s.tasks[id].key == k && !s.tasks[id].phase.Waiting?
  }

  /** Pollers of two different workers are in the middle of a tick on job k. */
  ghost predicate Overlap(s: State, k: Key) {
    exists i, j :: TickInFlight(s, i, k) && TickInFlight(s, j, k) && s.tasks[i].worker != s.tasks[j].worker
  }

  /** Time does not pass the stored expiry while a tick on job k is under way, and a claim on k, by a
      worker with a name, asks for no time that is past already. */
  ghost predicate TimelyStep(s: State, a: Action, k: Key)
    requires Enabled(s, a)
  {
    && (a.Advance? && (exists id :: TickInFlight(s, id, k)) ==>
          k in s.jobs && s.jobs[k].leaseExpiresAt.Some? && a.to <= s.jobs[k].leaseExpiresAt.value)
    && (Claims(s, a, k) ==> s.clock <= LeaseUntil(s, a) && Claimant(s, a) != "")
  }

  /** The preferred worker claims the job while a tick of another worker is under way on it. */
  ghost predicate TakesOver(s: State, a: Action, k: Key)
    requires Enabled(s, a)
  {
    && Claims(s, a, k) && k in s.jobs && !s.jobs[k].status.Terminal()
    && s.jobs[k].preferred == Some(Claimant(s, a))
    && exists id :: TickInFlight(s, id, k) && s.tasks[id].worker != Claimant(s, a)
  }

  /** While a tick is under way somebody owns the job, with a lease that has not expired; where that is
      not the worker of the tick, it is the preferred worker. */
  ghost predicate TicksGuarded(s: State, k: Key) {
    forall id :: TickInFlight(s, id, k) ==>
      && k in s.jobs && s.jobs[k].owner.Some? && Owns(s, k, s.jobs[k].owner.value, s.clock)
      && (s.tasks[id].worker == s.jobs[k].owner.value || s.jobs[k].preferred == s.jobs[k].owner)
  }

  lemma TickComesFrom(s: State, a: Action, id: TaskId, k: Key)
    requires Enabled(s, a) && TickInFlight(Next(s, a), id, k)
    ensures id in s.tasks && s.tasks[id].Polling? && s.tasks[id].key == k
    ensures Next(s, a).tasks[id].worker == s.tasks[id].worker
    ensures TickInFlight(s, id, k) || (a.TickClaim? && a.id == id && Renews(s, a, k, s.tasks[id].worker))
  {
    if PollerStep(a) {
      PollersTick(s, a, id, k);
    } else {
      HandlersDoNotTick(s, a, id, k);
    }
  }

  lemma PollersTick(s: State, a: Action, id: TaskId, k: Key)
    requires Enabled(s, a) && PollerStep(a) && TickInFlight(Next(s, a), id, k)
    ensures id in s.tasks && s.tasks[id].Polling? && s.tasks[id].key == k
    ensures Next(s, a).tasks[id].worker == s.tasks[id].worker
    ensures TickInFlight(s, id, k) || (a.TickClaim? && a.id == id && Renews(s, a, k, s.tasks[id].worker))
  {
  }

  lemma HandlersDoNotTick(s: State, a: Action, id: TaskId, k: Key)
    requires Enabled(s, a) && !PollerStep(a) && TickInFlight(Next(s, a), id, k)
    ensures id in s.tasks && s.tasks[id].Polling? && s.tasks[id].key == k
    ensures Next(s, a).tasks[id].worker == s.tasks[id].worker
    ensures TickInFlight(s, id, k)
  {
  }

  lemma TickClaimOverlaps(s: State, a: Action, id: TaskId, k: Key)
    requires Enabled(s, a) && a.TickClaim? && TakesOver(s, a, k)
    requires TickInFlight(s, id, k) && s.tasks[id].worker != Claimant(s, a)
    ensures TickInFlight(Next(s, a), id, k) && TickInFlight(Next(s, a), a.id, k)
    ensures Next(s, a).tasks[id].worker == s.tasks[id].worker && Next(s, a).tasks[a.id].worker == Claimant(s, a)
  {
  }

  /** In a guarded state without overlap, a timely step makes two workers' ticks overlap exactly when
      it is the lease claim of a tick by the preferred worker while another worker's tick is under way. */
  lemma OverlapExactlyOnTakeover(s: State, a: Action, k: Key)
    requires Enabled(s, a) && TicksGuarded(s, k) && !Overlap(s, k) && TimelyStep(s, a, k)
    ensures Overlap(Next(s, a), k) <==> a.TickClaim? && TakesOver(s, a, k)
  {
    if Overlap(Next(s, a), k) {
      var i, j :| TickInFlight(Next(s, a), i, k) && TickInFlight(Next(s, a), j, k)
        && Next(s, a).tasks[i].worker != Next(s, a).tasks[j].worker;
      TickComesFrom(s, a, i, k);
      TickComesFrom(s, a, j, k);
    }
    if a.TickClaim? && TakesOver(s, a, k) {
      var id :| TickInFlight(s, id, k) && s.tasks[id].worker != Claimant(s, a);
      TickClaimOverlaps(s, a, id, k);
    }
  }

  lemma StepKeepsTicksGuarded(s: State, a: Action, k: Key)
    requires Enabled(s, a) && TicksGuarded(s, k) && TimelyStep(s, a, k)
    ensures TicksGuarded(Next(s, a), k)
  {
    forall id | TickInFlight(Next(s, a), id, k)
      ensures var t := Next(s, a);
        && k in t.jobs && t.jobs[k].owner.Some? && Owns(t, k, t.jobs[k].owner.value, t.clock)
        && (t.tasks[id].worker == t.jobs[k].owner.value || t.jobs[k].preferred == t.jobs[k].owner)
    {
      TickComesFrom(s, a, id, k);
      assert k in s.jobs;
      OnlyClaimsTouchLeases(s, a, k);
    }
  }

  ghost predicate TimelyRun(s: State, acts: seq<Action>, k: Key)
    requires CanRun(s, acts)
    decreases |acts|
  {
    acts == [] || (TimelyStep(s, acts[0], k) && TimelyRun(Next(s, acts[0]), acts[1..], k))
  }

  lemma {:induction false} TimelySnoc(s: State, acts: seq<Action>, a: Action, k: Key)
    requires CanRun(s, acts) && TimelyRun(s, acts, k)
    requires Enabled(Final(s, acts), a) && TimelyStep(Final(s, acts), a, k)
    ensures CanRun(s, acts + [a]) && TimelyRun(s, acts + [a], k)
    decreases |acts|
  {
    RunSnoc(s, acts, a);
    if acts == [] {
      assert [] + [a] == [a] && [a][1..] == [];
    } else {
      assert (acts + [a])[1..] == acts[1..] + [a];
      TimelySnoc(Next(s, acts[0]), acts[1..], a, k);
    }
  }

  /** No tick of the run begins with such a takeover. */
  ghost predicate NoTickTakesOver(s: State, acts: seq<Action>, k: Key)
    requires CanRun(s, acts)
    decreases |acts|
  {
    acts == [] || (
      && !(acts[0].TickClaim? && TakesOver(s, acts[0], k))
      && NoTickTakesOver(Next(s, acts[0]), acts[1..], k))
  }

  ghost predicate NeverOverlaps(s: State, acts: seq<Action>, k: Key)
    requires CanRun(s, acts)
    decreases |acts|
  {
    !Overlap(s, k) && (acts == [] || NeverOverlaps(Next(s, acts[0]), acts[1..], k))
  }

  /** Leases serialise the polling of a job, across fail-overs too, and fail to in one case only: over
      every timely run, ticks of two workers never overlap if and only if no tick begins by the
      preferred worker's claim while another worker's tick is under way. */
  lemma {:induction false} SerialExactlyWithoutTakeover(s: State, acts: seq<Action>, k: Key)
    requires CanRun(s, acts) && TimelyRun(s, acts, k)
    requires Init(s) || (TicksGuarded(s, k) && !Overlap(s, k))
    ensures NeverOverlaps(s, acts, k) <==> NoTickTakesOver(s, acts, k)
    decreases |acts|
  {
    if acts != [] {
      var t := Next(s, acts[0]);
      StepKeepsTicksGuarded(s, acts[0], k);
      OverlapExactlyOnTakeover(s, acts[0], k);
      if !Overlap(t, k) {
        SerialExactlyWithoutTakeover(t, acts[1..], k);
      }
    }
  }
}
