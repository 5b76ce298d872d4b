/** An operator's reset of the short-run allowance: what it frees, and that a repeated request frees nothing more. */
module Allowance {
  import opened Contracts
  import opened JobStore
  import opened LaunchWindows
  import opened Tables
  import opened Scheduling
  import opened Lifecycle
  import opened Runs
  import opened Exclusion
  import opened Pacing
  import P = Preparation

  /** A queued short job that the daily allowance made wait. */
  predicate Held(job: Job) { job.status == Queued && job.stage in {Initial, Triage} && job.awaitsLaunch }

  ghost predicate IsHeld(rows: seq<Row>, k: JobId) { Find(rows, k).Some? && Held(Find(rows, k).value) }

  ghost predicate Current(rows: seq<Row>, jobs: seq<Job>)
  {
    forall i :: 0 <= i < |jobs| ==> Find(rows, jobs[i].id) == Some(jobs[i]) && jobs[i].status.Queued?
  }

  lemma ReleaseStores(rows: seq<Row>, job: Job)
    requires Sound(rows) && Find(rows, job.id) == Some(job) && job.status.Queued?
    ensures var next := Update(rows, job.id, Release);
            Sound(next) && forall k :: Find(next, k) == if k == job.id then Some(Release(job)) else Find(rows, k)
  {
    UpdateStores(rows, job.id, Release);
  }

  lemma {:induction false} ReleaseAllStores(rows: seq<Row>, jobs: seq<Job>, k: JobId)
    requires Sound(rows) && DistinctIds(jobs) && Current(rows, jobs)
    ensures Find(ReleaseAll(rows, jobs), k)
            == if Listed(jobs, k) && Releasable(Find(rows, k).value) then Some(Release(Find(rows, k).value)) else Find(rows, k)
    decreases |jobs|
  {
    if jobs != [] {
      var next := rows;
      if Releasable(jobs[0]) {
        ReleaseStores(rows, jobs[0]);
        next := Update(rows, jobs[0].id, Release);
      }
      forall i | 0 <= i < |jobs| - 1 ensures Find(next, jobs[1..][i].id) == Some(jobs[1..][i]) {
        assert jobs[1..][i] == jobs[i + 1];
      }
      ReleaseAllStores(next, jobs[1..], k);
      assert Listed(jobs, k) <==> jobs[0].id == k || Listed(jobs[1..], k) by {
        if Listed(jobs[1..], k) {
          var i :| 0 <= i < |jobs[1..]| && jobs[1..][i].id == k;
          assert jobs[i + 1].id == k;
        }
        if i :| 0 < i < |jobs| && jobs[i].id == k { assert jobs[1..][i - 1].id == k; }
      }
    }
  }

  /** A new reset frees exactly the short jobs that waited for the allowance, leaves every other job as it was, and
      starts an empty segment: any short job may launch at once, while the launches themselves stay on record. */
  lemma ResetFreesHeldJobs(db: Db, request: string, now: int, k: JobId, job: Job)
    requires Sound(db.jobs) && LaunchesInOrder(db.launches, now) && now >= 0 && request !in db.resets
    ensures var (next, receipt) := ResetInitialQuota(db, request, now);
            && Find(next.jobs, k) == (if IsHeld(db.jobs, k)
                                      then Some(Find(db.jobs, k).value.(nextAt := 0, awaitsLaunch := false)) else Find(db.jobs, k))
            && (Short(job) ==> JobLaunchAfter(next, job, now) == 0)
            && next.launches == db.launches && next.starts == db.starts
            && next.resets == db.resets[request := receipt]
  {
    var queued := WithStatus(db.jobs, {Queued});
    var statuses := {Queued};
    QueriesFind(db.jobs, statuses, None);
    SelectDistinct(db.jobs, (row: Row) => row.statusColumn in statuses);
    forall i | 0 <= i < |queued| ensures Find(db.jobs, queued[i].id) == Some(queued[i]) && queued[i].status.Queued? {
      assert queued[i] in queued;
    }
    ReleaseAllStores(db.jobs, queued, k);
    FindIsRow(db.jobs, k);
    assert Listed(queued, k) <==> Find(db.jobs, k).Some? && Find(db.jobs, k).value.status.Queued? by {
      if Find(db.jobs, k).Some? && Find(db.jobs, k).value.status.Queued? {
        assert Find(db.jobs, k).value in queued;
        var i :| 0 <= i < |queued| && queued[i] == Find(db.jobs, k).value;
      }
    }
    SegmentTimes(db.launches, LastLaunch(db.launches), LastLaunch(db.launches), now);
    assert Counted(ResetInitialQuota(db, request, now).0) == [];
  }

  lemma {:induction false} ReleasableAreCounted(jobs: seq<Job>) returns (freed: set<JobId>)
    requires DistinctIds(jobs)
    ensures |freed| == CountReleasable(jobs)
    ensures forall k :: k in freed <==> exists i :: 0 <= i < |jobs| && jobs[i].id == k && Releasable(jobs[i])
    decreases |jobs|
  {
    freed := {};
    if jobs != [] {
      var rest := ReleasableAreCounted(jobs[1..]);
      assert forall i :: 0 <= i < |jobs[1..]| ==> jobs[1..][i] == jobs[i + 1];
      assert jobs[0].id !in rest;
      freed := if Releasable(jobs[0]) then rest + {jobs[0].id} else rest;
      forall k | exists i :: 0 <= i < |jobs| && jobs[i].id == k && Releasable(jobs[i]) ensures k in freed {
        var i :| 0 <= i < |jobs| && jobs[i].id == k && Releasable(jobs[i]);
        if i > 0 { assert jobs[1..][i - 1].id == k; }
      }
    }
  }

  /** The receipt of a new reset: when, how many counted launches fell in the day before, the last launch it covers, and
      exactly how many jobs it frees. */
  lemma ReceiptCounts(db: Db, request: string, now: int) returns (freed: set<JobId>)
    requires Sound(db.jobs) && LaunchesInOrder(db.launches, now) && request !in db.resets
    ensures var receipt := ResetInitialQuota(db, request, now).1;
            && receipt.request == request && receipt.at == now && receipt.through == |db.launches|
            && receipt.previousCount == CountSince(Counted(db), now - DAY)
            && receipt.released == |freed|
            && ResetInitialQuota(db, request, now).0.reset == Some(receipt)
    ensures forall k :: k in freed <==> IsHeld(db.jobs, k)
  {
    var queued := WithStatus(db.jobs, {Queued});
    var statuses := {Queued};
    QueriesFind(db.jobs, statuses, None);
    SelectDistinct(db.jobs, (row: Row) => row.statusColumn in statuses);
    freed := ReleasableAreCounted(queued);
    forall k ensures k in freed <==> IsHeld(db.jobs, k) {
      FindIsRow(db.jobs, k);
      if IsHeld(db.jobs, k) {
        assert Find(db.jobs, k).value in queued;
        var i :| 0 <= i < |queued| && queued[i] == Find(db.jobs, k).value;
      }
      if k in freed {
        var i :| 0 <= i < |queued| && queued[i].id == k && Releasable(queued[i]);
        assert queued[i] in queued;
      }
    }
  }

  /** An accepted request keeps its receipt through any run. */
  lemma ResetsLast(w: World, op: Op, request: string)
    requires request in w.db.resets
    ensures var next := Step(w, op).db; request in next.resets && next.resets[request] == w.db.resets[request]
  {
    if op.StartRun? {
      PrepareKeepsResets(w.db, op.id, w.now);
    } else if !op.ResetShortQuota? && !op.Tick? {
      StepKeepsPaceTables(w, op);
    }
  }

  lemma PrepareKeepsResets(db: Db, id: JobId, now: int)
    ensures PrepareRun(db, id, now).0.resets == db.resets
  {
    AttemptKeepsResets(db, id, now);
    AttemptKeepsResets(db.(jobs := Update(db.jobs, id, WithContext())), id, now);
  }

  lemma AttemptKeepsResets(db: Db, id: JobId, now: int)
    ensures Attempt(db, id, now).0.resets == db.resets
  {
  }

  /** However late and after whatever else it is repeated, a request gives its first receipt and changes nothing. */
  lemma {:induction false} RepeatedResetChangesNothing(w: World, ops: seq<Op>, request: string)
    requires request in w.db.resets
    ensures var last := Run(w, ops);
            Step(last, ResetShortQuota(request)) == last
            && ResetInitialQuota(last.db, request, last.now) == (last.db, w.db.resets[request])
    decreases |ops|
  {
    if ops != [] {
      ResetsLast(w, ops[0], request);
      RepeatedResetChangesNothing(Step(w, ops[0]), ops[1..], request);
    }
  }
}
