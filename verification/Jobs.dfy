/** The Jobs table of internal/database/jobs.go: one row per job, with the
    lease columns that decide which worker polls it. Each table method is one
    committed transaction attempt. */
module Jobs {
  import opened Wrappers

  type WorkerId = string

  datatype Key = Key(tenant: string, job: string)

  datatype Status = Pending | Scheduled | Running | Completed | Failed | Cancelled {
    predicate Terminal() {
      Completed? || Failed? || Cancelled?
    }
  }

  datatype Tier = NoTier | SimpleTier | ComplexTier

  datatype Service = Unspecified | CloudRunJob | CloudBatch

  datatype Row = Row(
    status: Status,
    path: Option<string>,
    owner: Option<WorkerId>,
    preferred: Option<WorkerId>,
    leaseExpiresAt: Option<int>,
    heartbeatAt: Option<int>,
    tier: Tier,
    service: Service)
  {
    /** The WHERE clause of ListActiveJobs. */
    predicate Active() {
      !status.Terminal() && path.Some?
    }

    predicate LeaseExpired(now: int) {
      leaseExpiresAt.None? || leaseExpiresAt.value < now
    }

    predicate Unowned() {
      owner.None? || owner.value == ""
    }

    predicate CanClaim(worker: WorkerId, now: int) {
      var isOwner := owner == Some(worker);
      var preferredTakeover := preferred == Some(worker) && !isOwner;
      isOwner || LeaseExpired(now) || Unowned() || preferredTakeover
    }
  }

  datatype Attempt = Attempt(row: Row, claimed: bool)

  /** What one claim-or-renew transaction, committing at `now`, makes of a row. */
  function Claim(row: Row, worker: WorkerId, now: int, leaseUntil: int): Attempt {
    if row.status.Terminal() || !row.CanClaim(worker, now) then
      Attempt(row, false)
    else
      Attempt(row.(owner := Some(worker), leaseExpiresAt := Some(leaseUntil), heartbeatAt := Some(now)), true)
  }

  /** The row that SubmitJob inserts (cmd/worker/service/handlers.go). */
  function NewRow(worker: WorkerId, now: int, ttl: int): Row {
    Row(Pending, None, Some(worker), Some(worker), Some(now + ttl), Some(now), NoTier, Unspecified)
  }

  datatype DbError = NotFound | AlreadyExists

  /** What an attempt of the claim transaction reads, and when. */
  datatype Seen = Seen(row: Row, now: int)

  predicate AnyClaims(seen: seq<Seen>, worker: WorkerId, leaseUntil: int) {
    exists i :: 0 <= i < |seen| && Claim(seen[i].row, worker, seen[i].now, leaseUntil).claimed
  }

  /** A claim that is answered with true makes its worker the owner, for every row that it may find in
      the end, exactly unless an aborted attempt claimed: then another worker's row can be "claimed". */
  lemma ClaimedMeansOwnedExactlyWhen(worker: WorkerId, aborted: seq<Seen>, leaseUntil: int)
    ensures (forall row, now ::
               AnyClaims(aborted, worker, leaseUntil) || Claim(row, worker, now, leaseUntil).claimed ==>
                 Claim(row, worker, now, leaseUntil).row.owner == Some(worker))
      <==> !AnyClaims(aborted, worker, leaseUntil)
  {
    var other := Row(Running, Some("path"), Some(worker + "2"), None, Some(1), Some(0), NoTier, Unspecified);
    assert |worker + "2"| == |worker| + 1;
    assert !Claim(other, worker, 0, leaseUntil).claimed;
  }

  datatype Listed = Listed(key: Key, row: Row)

  /** A listing of the active jobs: exactly the active rows, each once, in some order. */
  ghost predicate IsActiveListing(rows: map<Key, Row>, listing: seq<Listed>) {
    && (forall i :: 0 <= i < |listing| ==>
          listing[i].key in rows && listing[i].row == rows[listing[i].key] && listing[i].row.Active())
    && (forall i, j :: 0 <= i < j < |listing| ==> listing[i].key != listing[j].key)
    && (forall k :: k in rows && rows[k].Active() ==> exists i :: 0 <= i < |listing| && listing[i].key == k)
  }

  class JobsTable {
    var rows: map<Key, Row>

    constructor ()
      ensures rows == map[]
    {
      rows := map[];
    }

    method InsertJobFull(key: Key, row: Row) returns (r: Result<(), DbError>)
      modifies this
      ensures key in old(rows) ==> r == Err(AlreadyExists) && rows == old(rows)
      ensures key !in old(rows) ==> r == Ok(()) && rows == old(rows)[key := row]
    {
      if key in rows {
        return Err(AlreadyExists);
      }
      rows := rows[key := row];
      return Ok(());
    }

    /** A blind write: no column is read, so a terminal status is overwritten too. */
    method UpdateJobStatus(key: Key, status: Status) returns (r: Result<(), DbError>)
      modifies this
      ensures key !in old(rows) ==> r == Err(NotFound) && rows == old(rows)
      ensures key in old(rows) ==> r == Ok(()) && rows == old(rows)[key := old(rows)[key].(status := status)]
    {
      if key !in rows {
        return Err(NotFound);
      }
      rows := rows[key := rows[key].(status := status)];
      return Ok(());
    }

    method UpdateJobStatusAndGcpBatchJobPath(
      key: Key, status: Status, path: string, tier: Tier, service: Service
    ) returns (r: Result<(), DbError>)
      modifies this
      ensures key !in old(rows) ==> r == Err(NotFound) && rows == old(rows)
      ensures key in old(rows) ==>
        && r == Ok(())
        && rows == old(rows)[
             key := old(rows)[key].(status := status, path := Some(path), tier := tier, service := service)]
    {
      if key !in rows {
        return Err(NotFound);
      }
      rows := rows[key := rows[key].(status := status, path := Some(path), tier := tier, service := service)];
      return Ok(());
    }

    method FailJob(key: Key) returns (r: Result<(), DbError>)
      modifies this
      ensures key !in old(rows) ==> r == Err(NotFound) && rows == old(rows)
      ensures key in old(rows) ==> r == Ok(()) && rows == old(rows)[key := old(rows)[key].(status := Failed)]
    {
      r := UpdateJobStatus(key, Failed);
    }

    method TryClaimOrRenewJobLease(key: Key, worker: WorkerId, now: int, leaseUntil: int)
      returns (r: Result<bool, DbError>)
      modifies this
      ensures key !in old(rows) ==> r == Err(NotFound) && rows == old(rows)
      ensures key in old(rows) ==>
        var row := old(rows)[key];
        var claimed :=
          && row.status in {Pending, Scheduled, Running}
          && (row.owner in {Some(worker), None, Some("")} || row.preferred == Some(worker)
              || row.leaseExpiresAt == None || row.leaseExpiresAt.value < now);
        && r == Ok(claimed)
        && rows == old(rows)[key :=
             if claimed then
               row.(owner := Some(worker), leaseExpiresAt := Some(leaseUntil), heartbeatAt := Some(now))
             else row]
        && Attempt(rows[key], claimed) == Claim(row, worker, now, leaseUntil)
    {
      if key !in rows {
        return Err(NotFound);
      }
      var row := rows[key];
      if row.status == Completed || row.status == Failed || row.status == Cancelled {
        return Ok(false);
      }
      var isOwner := row.owner == Some(worker);
      var leaseExpired := row.leaseExpiresAt.None? || row.leaseExpiresAt.value < now;
      var isUnowned := row.owner.None? || row.owner.value == "";
      var preferredTakeover := row.preferred == Some(worker) && !isOwner;
      if !(isOwner || leaseExpired || isUnowned || preferredTakeover) {
        return Ok(false);
      }
      rows := rows[key := row.(owner := Some(worker), leaseExpiresAt := Some(leaseUntil), heartbeatAt := Some(now))];
      return Ok(true);
    }

    /** The whole call: the transaction is run again as long as its commit is aborted, and `claimed`, declared
        outside, keeps a true of an aborted attempt. `aborted` is what those attempts read. */
    method TryClaimOrRenewUntilCommitted(
      key: Key, worker: WorkerId, aborted: seq<Seen>, now: int, leaseUntil: int) returns (r: Result<bool, DbError>)
      modifies this
      ensures key !in old(rows) ==> r == Err(NotFound) && rows == old(rows)
      ensures key in old(rows) ==>
        && r == Ok(AnyClaims(aborted, worker, leaseUntil) || Claim(old(rows)[key], worker, now, leaseUntil).claimed)
        && rows == old(rows)[key := Claim(old(rows)[key], worker, now, leaseUntil).row]
      ensures key in old(rows) && aborted == [] ==>
        r == Ok(Claim(old(rows)[key], worker, now, leaseUntil).claimed)
    {
      var claimed := false;
      for i := 0 to |aborted|
        invariant claimed == AnyClaims(aborted[..i], worker, leaseUntil)
      {
        assert aborted[..i + 1][..i] == aborted[..i];
        if Claim(aborted[i].row, worker, aborted[i].now, leaseUntil).claimed {
          claimed := true;
        }
      }
      assert aborted[..|aborted|] == aborted;
      var last := TryClaimOrRenewJobLease(key, worker, now, leaseUntil);
      if last.Err? {
        return last;
      }
      return Ok(claimed || last.value);
    }

    method ListActiveJobs() returns (listing: seq<Listed>)
      ensures IsActiveListing(rows, listing)
    {
      listing := [];
      var rest := rows.Keys;
      while rest != {}
        invariant rest <= rows.Keys
        invariant forall i :: 0 <= i < |listing| ==>
          && listing[i].key in rows && listing[i].key !in rest
          && listing[i].row == rows[listing[i].key] && listing[i].row.Active()
        invariant forall i, j :: 0 <= i < j < |listing| ==> listing[i].key != listing[j].key
        invariant forall k :: k in rows && k !in rest && rows[k].Active() ==>
          exists i :: 0 <= i < |listing| && listing[i].key == k
        decreases |rest|
      {
        var k :| k in rest;
        rest := rest - {k};
        if rows[k].Active() {
          ghost var before := listing;
          listing := listing + [Listed(k, rows[k])];
          assert listing[|before|].key == k;
          forall j | j in rows && j !in rest && rows[j].Active()
            ensures exists i :: 0 <= i < |listing| && listing[i].key == j
          {
            if j != k {
              var i :| 0 <= i < |before| && before[i].key == j;
              assert listing[i].key == j;
            }
          }
        }
      }
    }
  }
}
