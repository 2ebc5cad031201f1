/** One worker's poller registry and its lease reconciler, cmd/worker/service/pollers.go. */
module Workers {
  import opened Wrappers
  import opened Jobs
  import opened Pollers

  /** The two readings of the clock for one claim: the caller's, from which the expiry is counted, and
      the transaction's own. */
  datatype Times = Times(asked: int, now: int)

  datatype Pass = Pass(rows: map<Key, Row>, taken: set<Key>)

  class WorkerService {
    const workerID: WorkerId
    const leaseTTL: nat
    var pollers: map<Key, JobPoller>

    constructor (workerID: WorkerId, leaseTTL: nat)
      ensures this.workerID == workerID && this.leaseTTL == leaseTTL && pollers == map[]
    {
      this.workerID := workerID;
      this.leaseTTL := leaseTTL;
      pollers := map[];
    }

    /** Registers a poller for the key, unless one is registered already. */
    method StartJobPollerWithService(key: Key, path: string, initialStatus: Status, tier: Tier, routed: Service)
      modifies this
      ensures key in old(pollers) ==> pollers == old(pollers)
      ensures key !in old(pollers) ==>
        && key in pollers && pollers == old(pollers)[key := pollers[key]] && fresh(pollers[key])
        && pollers[key].path == path && pollers[key].tier == tier && !pollers[key].done
        && pollers[key].State() == PollerState(initialStatus, 0, InferService(routed, tier))
    {
      var poller := new JobPoller(path, initialStatus, tier, routed);
      if key in pollers {
        return;
      }
      pollers := pollers[key := poller];
    }

    method StopPollerForJob(key: Key)
      modifies this, if key in pollers then {pollers[key]} else {}
      ensures pollers == old(pollers) - {key}
      ensures key in old(pollers) ==>
        old(pollers[key]).done && old(pollers[key]).State() == old(pollers[key].State())
    {
      if key in pollers {
        pollers[key].Stop();
        pollers := pollers - {key};
      }
    }

    /** What a claim of a reconcile pass makes of a row. */
    function ClaimAt(row: Row, times: Times): Attempt {
      Claim(row, workerID, times.now, times.asked + leaseTTL)
    }

    /** Does a reconcile pass take the row's lease? */
    predicate Takes(row: Row, times: Times) {
      row.Active() && ClaimAt(row, times).claimed
    }

    function RowAfter(row: Row, times: Times): Row {
      if row.Active() then ClaimAt(row, times).row else row
    }

    /** Is this the poller that is started for a row found by a reconcile pass? */
    ghost predicate StartedFor(poller: JobPoller, row: Row)
      reads poller
    {
      && !poller.done && Some(poller.path) == row.path && poller.tier == row.tier
      && poller.State() == PollerState(row.status, 0, InferService(Unspecified, row.tier))
    }

    /** The table and the keys taken after the first n jobs of a listing. A job in `faulty` is one
        whose claim call returns a database error. */
    ghost function PassOver(
      rows: map<Key, Row>, listing: seq<Listed>, n: nat, clock: Key -> Times, faulty: set<Key>): Pass
      requires n <= |listing|
    {
      if n == 0 then Pass(rows, {})
      else
        var before := PassOver(rows, listing, n - 1, clock, faulty);
        var k := listing[n - 1].key;
        if k in faulty || k !in before.rows then before
        else
          var attempt := ClaimAt(before.rows[k], clock(k));
          Pass(before.rows[k := attempt.row], if attempt.claimed then before.taken + {k} else before.taken)
    }

    /** What the pass does to one key, which is listed at index `at`, or nowhere if `at` is past the end. */
    lemma {:induction false} PassOverAt(
      rows: map<Key, Row>, listing: seq<Listed>, n: nat, clock: Key -> Times, faulty: set<Key>, k: Key, at: nat)
      requires n <= |listing| && k in rows
      requires forall i :: 0 <= i < |listing| ==> (listing[i].key == k <==> i == at)
      ensures var pass, attempt := PassOver(rows, listing, n, clock, faulty), ClaimAt(rows[k], clock(k));
        && k in pass.rows
        && pass.rows[k] == (if at < n && k !in faulty then attempt.row else rows[k])
        && (k in pass.taken <==> at < n && k !in faulty && attempt.claimed)
    {
      if n > 0 {
        PassOverAt(rows, listing, n - 1, clock, faulty, k, at);
      }
    }

    lemma {:induction false} PassOverKeys(
      rows: map<Key, Row>, listing: seq<Listed>, n: nat, clock: Key -> Times, faulty: set<Key>)
      requires n <= |listing|
      ensures var pass := PassOver(rows, listing, n, clock, faulty);
        pass.rows.Keys == rows.Keys && pass.taken <= rows.Keys
    {
      if n > 0 {
        PassOverKeys(rows, listing, n - 1, clock, faulty);
      }
    }

    /** A pass over the whole listing treats every row of the table as it should, listed or not. */
    lemma PassOverAll(rows: map<Key, Row>, listing: seq<Listed>, clock: Key -> Times, faulty: set<Key>)
      requires IsActiveListing(rows, listing)
      ensures var pass := PassOver(rows, listing, |listing|, clock, faulty);
        && pass.rows == (map k | k in rows :: if k in faulty then rows[k] else RowAfter(rows[k], clock(k)))
        && pass.taken == set k | k in rows && k !in faulty && Takes(rows[k], clock(k))
    {
      PassOverKeys(rows, listing, |listing|, clock, faulty);
      var pass := PassOver(rows, listing, |listing|, clock, faulty);
      forall k | k in rows
        ensures pass.rows[k] == if k in faulty then rows[k] else RowAfter(rows[k], clock(k))
        ensures k in pass.taken <==> k !in faulty && Takes(rows[k], clock(k))
      {
        var at := IndexOf(rows, listing, k);
        PassOverAt(rows, listing, |listing|, clock, faulty, k, at);
      }
    }

    lemma IndexOf(rows: map<Key, Row>, listing: seq<Listed>, k: Key) returns (at: nat)
      requires IsActiveListing(rows, listing) && k in rows
      ensures forall i :: 0 <= i < |listing| ==> (listing[i].key == k <==> i == at)
      ensures at < |listing| <==> rows[k].Active()
    {
      if i :| 0 <= i < |listing| && listing[i].key == k {
        at := i;
      } else {
        at := |listing|;
      }
    }

    /** The reconcile loop's body for one listed job. */
    method ReconcileOne(db: JobsTable, key: Key, row: Row, times: Times, faulty: bool) returns (owned: bool)
      requires row.path.Some?
      modifies this, db
      ensures owned <==> !faulty && key in old(db.rows) && ClaimAt(old(db.rows)[key], times).claimed
      ensures db.rows == if faulty || key !in old(db.rows) then old(db.rows)
                         else old(db.rows)[key := ClaimAt(old(db.rows)[key], times).row]
      ensures !owned || key in old(pollers) ==> pollers == old(pollers)
      ensures owned && key !in old(pollers) ==>
        && key in pollers && pollers == old(pollers)[key := pollers[key]]
        && fresh(pollers[key]) && StartedFor(pollers[key], row)
    {
      owned := false;
      if faulty {
        return;
      }
      var claimed := db.TryClaimOrRenewJobLease(key, workerID, times.now, times.asked + leaseTTL);
      if claimed == Ok(true) {
        owned := true;
        StartJobPollerWithService(key, row.path.value, row.status, row.tier, Unspecified);
      }
    }

    /** The reconcile loop over a listing taken just before. */
    method ReconcileListed(db: JobsTable, listing: seq<Listed>, clock: Key -> Times, faulty: set<Key>)
      returns (ghost taken: set<Key>)
      requires forall i :: 0 <= i < |listing| ==>
        listing[i].key in db.rows && listing[i].row == db.rows[listing[i].key] && listing[i].row.path.Some?
      modifies this, db
      ensures Pass(db.rows, taken) == PassOver(old(db.rows), listing, |listing|, clock, faulty)
      ensures pollers.Keys == old(pollers).Keys + taken
      ensures forall k :: k in old(pollers) ==> pollers[k] == old(pollers)[k]
      ensures forall k :: k in pollers && k !in old(pollers) ==>
        k in old(db.rows) && fresh(pollers[k]) && StartedFor(pollers[k], old(db.rows)[k])
    {
      taken := {};
      var n := 0;
      while n < |listing|
        invariant 0 <= n <= |listing|
        invariant Pass(db.rows, taken) == PassOver(old(db.rows), listing, n, clock, faulty)
        invariant pollers.Keys == old(pollers).Keys + taken
        invariant forall k :: k in old(pollers) ==> pollers[k] == old(pollers)[k]
        invariant forall k :: k in pollers && k !in old(pollers) ==>
          k in old(db.rows) && fresh(pollers[k]) && StartedFor(pollers[k], old(db.rows)[k])
      {
        var Listed(key, row) := listing[n];
        var owned := ReconcileOne(db, key, row, clock(key), key in faulty);
        if owned {
          taken := taken + {key};
        }
        n := n + 1;
      }
    }

    /** Scans the active jobs, claims each lease, reading the clock anew for each, and starts a poller
        for each job claimed that has none; every other row and every registered poller stays as it was. */
    method ReconcileActiveJobLeases(db: JobsTable, clock: Key -> Times, faulty: set<Key>)
      modifies this, db
      ensures db.rows == map k | k in old(db.rows) ::
        if k in faulty then old(db.rows)[k] else RowAfter(old(db.rows)[k], clock(k))
      ensures forall k :: k in pollers <==>
        k in old(pollers) || (k in old(db.rows) && k !in faulty && Takes(old(db.rows)[k], clock(k)))
      ensures forall k :: k in old(pollers) ==> pollers[k] == old(pollers)[k]
      ensures forall k :: k in pollers && k !in old(pollers) ==>
        k in old(db.rows) && fresh(pollers[k]) &&
        var poller, row := pollers[k], old(db.rows)[k];
        && !poller.done && Some(poller.path) == row.path && poller.tier == row.tier
        && poller.State()
             == PollerState(row.status, 0, if row.tier == ComplexTier then CloudBatch else CloudRunJob)
    {
      var listing := db.ListActiveJobs();
      PassOverAll(db.rows, listing, clock, faulty);
      ghost var taken := ReconcileListed(db, listing, clock, faulty);
    }
  }

  /** What a reconcile pass takes: the active jobs that are the worker's own, unowned, expired, or prefer
      the worker; each is then leased for the worker's TTL, and every other row is left alone. */
  lemma ReconcileTakesExactly(worker: WorkerService, row: Row, times: Times)
    ensures worker.Takes(row, times) <==>
      && row.path != None && row.status in {Pending, Scheduled, Running}
      && (row.owner in {Some(worker.workerID), None, Some("")} || row.preferred == Some(worker.workerID)
          || row.leaseExpiresAt == None || row.leaseExpiresAt.value < times.now)
    ensures worker.RowAfter(row, times) ==
      if worker.Takes(row, times) then
        row.(owner := Some(worker.workerID), leaseExpiresAt := Some(times.asked + worker.leaseTTL),
             heartbeatAt := Some(times.now))
      else row
  {
  }

  /** Fail-over: a row whose lease has expired is taken by whichever worker reconciles next. */
  lemma ExpiredLeaseIsTaken(worker: WorkerService, row: Row, times: Times)
    requires row.Active() && row.LeaseExpired(times.now)
    ensures worker.Takes(row, times)
    ensures worker.RowAfter(row, times) == row.(
              owner := Some(worker.workerID), leaseExpiresAt := Some(times.asked + worker.leaseTTL),
              heartbeatAt := Some(times.now))
  {
  }
}
