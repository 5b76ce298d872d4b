/** What a restart does to every job, and why a stored result is published without another agent run. */
module Recovery {
  import opened Contracts
  import opened JobStore
  import opened Tables
  import opened Scheduling
  import opened Lifecycle
  import opened Leases
  import opened Runs
  import opened Exclusion
  import P = Preparation

  /** A run that was under way is charged and closed; a job between two writes goes on to its result or its queue. */
  function Resumed(job: Job, now: int): (next: Job)
  {
    if job.lease.Held? then Finished(job, 0, now).(status := if job.cancelled then Cancelled else Resumption(job))
    else if job.status.Processing? then job.(status := Resumption(job))
    else job
  }

  ghost predicate Lists(rows: seq<Row>, jobs: seq<Job>)
  {
    DistinctIds(jobs) && forall i :: 0 <= i < |jobs| ==> Find(rows, jobs[i].id) == Some(jobs[i])
  }

  /** One row changes, to `stored`. */
  ghost predicate Replaces(rows: seq<Row>, next: seq<Row>, stored: Job)
  {
    Sound(next) && forall k :: Find(next, k) == if k == stored.id then Some(stored) else Find(rows, k)
  }

  lemma RestListed(jobs: seq<Job>, k: JobId)
    requires jobs != []
    ensures Listed(jobs, k) <==> jobs[0].id == k || Listed(jobs[1..], k)
  {
    if Listed(jobs[1..], k) {
      var i :| 0 <= i < |jobs[1..]| && jobs[1..][i].id == k;
      assert jobs[i + 1].id == k;
    }
    if i :| 0 < i < |jobs| && jobs[i].id == k { assert jobs[1..][i - 1].id == k; }
  }

  lemma ReplacingKeepsList(rows: seq<Row>, next: seq<Row>, jobs: seq<Job>, stored: Job)
    requires jobs != [] && Lists(rows, jobs) && stored.id == jobs[0].id && Replaces(rows, next, stored)
    ensures Lists(next, jobs[1..])
  {
    forall i | 0 <= i < |jobs[1..]| ensures Find(next, jobs[1..][i].id) == Some(jobs[1..][i]) {
      assert jobs[1..][i] == jobs[i + 1];
    }
  }

  lemma SaveReplaces(rows: seq<Row>, job: Job)
    requires Sound(rows)
    ensures Replaces(rows, Save(rows, job), Settled(rows, job))
  {
    SaveStores(rows, job);
  }

  lemma ReplacesTwice(a: seq<Row>, b: seq<Row>, c: seq<Row>, first: Job, second: Job)
    requires Replaces(a, b, first) && Replaces(b, c, second) && first.id == second.id
    ensures Replaces(a, c, second)
  {
  }

  lemma LeaseEnds(rows: seq<Row>, job: Job, now: int)
    requires Sound(rows) && Find(rows, job.id) == Some(job) && job.lease.Held?
    ensures Replaces(rows, RecoverLease(rows, job, now), Resumed(job, now))
  {
    var closed := Finished(job, 0, now);
    var finished := Save(rows, closed);
    SaveReplaces(rows, closed);
    if !job.cancelled {
      SaveReplaces(finished, Resuming(job)(closed));
      ReplacesTwice(rows, finished, RecoverLease(rows, job, now), closed, Resumed(job, now));
    }
  }

  lemma {:induction false} LeasesEnd(rows: seq<Row>, held: seq<Job>, now: int, k: JobId)
    requires Sound(rows) && Lists(rows, held) && forall i :: 0 <= i < |held| ==> held[i].lease.Held?
    ensures Sound(RecoverLeases(rows, held, now))
    ensures Find(RecoverLeases(rows, held, now), k)
            == if Listed(held, k) then Some(Resumed(Find(rows, k).value, now)) else Find(rows, k)
    decreases |held|
  {
    if held != [] {
      LeaseEnds(rows, held[0], now);
      var next := RecoverLease(rows, held[0], now);
      ReplacingKeepsList(rows, next, held, Resumed(held[0], now));
      RestListed(held, k);
      LeasesEnd(next, held[1..], now, k);
      if held[0].id == k { NotListedAgain(held, k); }
    }
  }

  lemma NotListedAgain(jobs: seq<Job>, k: JobId)
    requires jobs != [] && DistinctIds(jobs) && jobs[0].id == k
    ensures !Listed(jobs[1..], k)
  {
    forall i | 0 <= i < |jobs[1..]| ensures jobs[1..][i].id != k { assert jobs[1..][i] == jobs[i + 1]; }
  }

  lemma {:induction false} ProcessingResumes(rows: seq<Row>, jobs: seq<Job>, k: JobId)
    requires Sound(rows) && Lists(rows, jobs) && forall i :: 0 <= i < |jobs| ==> jobs[i].status.Processing?
    ensures Sound(ResumeAll(rows, jobs))
    ensures Find(ResumeAll(rows, jobs), k)
            == if Listed(jobs, k) then Some(Find(rows, k).value.(status := Resumption(Find(rows, k).value))) else Find(rows, k)
    decreases |jobs|
  {
    if jobs != [] {
      var stored := Resuming(jobs[0])(jobs[0]);
      var next := Update(rows, jobs[0].id, Resuming(jobs[0]));
      SaveReplaces(rows, stored);
      assert Replaces(rows, next, stored);
      ReplacingKeepsList(rows, next, jobs, stored);
      RestListed(jobs, k);
      ProcessingResumes(next, jobs[1..], k);
      if jobs[0].id == k { NotListedAgain(jobs, k); }
    }
  }

  lemma QueryLists(rows: seq<Row>, keepRow: Row -> bool, keepJob: Job -> bool, k: JobId)
    requires Mirrored(rows)
    requires forall i :: 0 <= i < |rows| ==> keepRow(rows[i]) == keepJob(rows[i].data)
    ensures Lists(rows, Select(rows, keepRow))
    ensures forall i :: 0 <= i < |Select(rows, keepRow)| ==> keepJob(Select(rows, keepRow)[i])
    ensures Listed(Select(rows, keepRow), k) <==> Find(rows, k).Some? && keepJob(Find(rows, k).value)
  {
    var jobs := Select(rows, keepRow);
    SelectDistinct(rows, keepRow);
    SelectFinds(rows, keepRow, keepJob);
    forall i | 0 <= i < |jobs| ensures Find(rows, jobs[i].id) == Some(jobs[i]) && keepJob(jobs[i]) { assert jobs[i] in jobs; }
    FindIsRow(rows, k);
    if Find(rows, k).Some? && keepJob(Find(rows, k).value) {
      assert Find(rows, k).value in jobs;
      var i :| 0 <= i < |jobs| && jobs[i] == Find(rows, k).value;
    }
  }

  lemma HeldAreListed(rows: seq<Row>, k: JobId)
    requires Mirrored(rows)
    ensures Lists(rows, HeldJobs(rows)) && forall i :: 0 <= i < |HeldJobs(rows)| ==> HeldJobs(rows)[i].lease.Held?
    ensures Listed(HeldJobs(rows), k) <==> HoldsLease(rows, k)
  {
    QueryLists(rows, (row: Row) => row.data.lease.Held?, (job: Job) => job.lease.Held?, k);
  }

  lemma ProcessingAreListed(rows: seq<Row>, k: JobId)
    requires Mirrored(rows)
    ensures var jobs := WithStatus(rows, {Processing});
            && Lists(rows, jobs) && (forall i :: 0 <= i < |jobs| ==> jobs[i].status.Processing?)
            && (Listed(jobs, k) <==> Find(rows, k).Some? && Find(rows, k).value.status.Processing?)
  {
    var statuses := {Processing};
    QueryLists(rows, (row: Row) => row.statusColumn in statuses, (job: Job) => job.status in statuses, k);
  }

  /** Recovery resumes every job as its own document says, and changes nothing else. */
  lemma RecoverResumesEach(db: Db, now: int, k: JobId)
    requires Sound(db.jobs)
    ensures var next := Recover(db, now);
            && next == db.(jobs := next.jobs) && Sound(next.jobs)
            && Find(next.jobs, k) == if Find(db.jobs, k).Some? then Some(Resumed(Find(db.jobs, k).value, now)) else None
  {
    HeldAreListed(db.jobs, k);
    LeasesEnd(db.jobs, HeldJobs(db.jobs), now, k);
    var released := RecoverLeases(db.jobs, HeldJobs(db.jobs), now);
    ProcessingAreListed(released, k);
    ProcessingResumes(released, WithStatus(released, {Processing}), k);
  }

  /** A second recovery finds nothing to do: no lease, and no job between two writes, is left. */
  lemma RecoverTwice(db: Db, now: int, later: int, k: JobId)
    requires Sound(db.jobs)
    ensures Find(Recover(Recover(db, now), later).jobs, k) == Find(Recover(db, now).jobs, k)
  {
    RecoverResumesEach(db, now, k);
    RecoverResumesEach(Recover(db, now), later, k);
  }

  const WITH_RESULT := UNCHANGED.(hasResult := Some(true))

  /** Handed on to publication, with its run charged once. */
  predicate HandedOn(before: Job, after: Job, now: int)
    requires before.lease.Held?
  {
    && after.status.ResultReady? && after.hasResult && after.lease.Released?
    && after.activeSeconds == Min(StageLimit(before), before.activeSeconds + now - before.lease.since)
  }

  lemma StoredResultIsHandedOn(db: Db, id: JobId, before: Job, now: int)
    requires Sound(db.jobs) && Find(db.jobs, id) == Some(before) && !before.cancelled
    requires before.lease.Held? && before.lease.since <= now
    ensures var after := Find(Recover(P.EditedRows(db, id, WITH_RESULT), now).jobs, id);
            after.Some? && HandedOn(before, after.value, now)
  {
    var stored := P.EditedRows(db, id, WITH_RESULT);
    P.EditOfLive(db, id, before, WITH_RESULT);
    P.EditStores(db.jobs, id, WITH_RESULT);
    RecoverResumesEach(stored, now, id);
  }

  /** A crash between storing a result and ending its lease loses nothing: the restart charges the run once and hands the
      job on to publication, not back to the queue. */
  lemma StoredResultSurvivesCrash(w: World, id: JobId)
    requires Sane(w) && w.service == Up(Some(id)) && IsRunning(w.db.jobs, id)
    ensures var back := Step(Step(Step(w, EditJob(id, WITH_RESULT)), Crash), Restart);
            var after := Find(back.db.jobs, id);
            after.Some? && HandedOn(Find(w.db.jobs, id).value, after.value, w.now)
  {
    RestartRecovers(w, id);
    RunningIsLeased(w, id);
    StoredResultIsHandedOn(w.db, id, Find(w.db.jobs, id).value, w.now);
  }

  lemma RestartRecovers(w: World, id: JobId)
    ensures Step(Step(Step(w, EditJob(id, WITH_RESULT)), Crash), Restart).db == Recover(P.EditedRows(w.db, id, WITH_RESULT), w.now)
  {
  }

  lemma RunningIsLeased(w: World, id: JobId)
    requires Sane(w) && IsRunning(w.db.jobs, id)
    ensures Sound(w.db.jobs) && Find(w.db.jobs, id).Some?
    ensures var job := Find(w.db.jobs, id).value; !job.cancelled && job.lease.Held? && job.lease.since <= w.now
  {
    assert JobInOrder(Find(w.db.jobs, id).value, w.now);
  }

  // ---------------------------------------------------------------- crashes between the other writes

  /** What an interrupted recovery has made of a job: nothing, the first write of its lease's recovery, or all of it. */
  ghost predicate Partly(before: Job, after: Job, now: int)
  {
    after == before || (before.lease.Held? && after == Finished(before, 0, now)) || after == Resumed(before, now)
  }

  lemma SomeResume(rows: seq<Row>, jobs: seq<Job>, n: nat, k: JobId)
    requires Sound(rows) && Lists(rows, jobs) && n <= |jobs| && forall i :: 0 <= i < |jobs| ==> jobs[i].status.Processing?
    ensures Sound(ResumeAll(rows, jobs[..n]))
    ensures Find(ResumeAll(rows, jobs[..n]), k) == Find(rows, k)
            || (Find(rows, k).Some? && Find(rows, k).value.status.Processing?
                && Find(ResumeAll(rows, jobs[..n]), k) == Some(Find(rows, k).value.(status := Resumption(Find(rows, k).value))))
  {
    ProcessingResumes(rows, jobs[..n], k);
    if Listed(jobs[..n], k) {
      var i :| 0 <= i < |jobs[..n]| && jobs[..n][i].id == k;
      assert jobs[i].id == k;
    }
  }

  lemma ReleasedStores(db: Db, now: int, n: nat, k: JobId)
    requires Sound(db.jobs)
    requires n <= |WithStatus(RecoverLeases(db.jobs, HeldJobs(db.jobs), now), {Processing})|
    ensures var released := RecoverLeases(db.jobs, HeldJobs(db.jobs), now);
            var next := ResumeAll(released, WithStatus(released, {Processing})[..n]);
            && Sound(next)
            && (Find(db.jobs, k).None? ==> Find(next, k).None?)
            && (Find(db.jobs, k).Some? ==> Find(next, k).Some? && Partly(Find(db.jobs, k).value, Find(next, k).value, now))
            && (HoldsLease(db.jobs, k) ==> Find(next, k) == Some(Resumed(Find(db.jobs, k).value, now)))
  {
    HeldAreListed(db.jobs, k);
    LeasesEnd(db.jobs, HeldJobs(db.jobs), now, k);
    var released := RecoverLeases(db.jobs, HeldJobs(db.jobs), now);
    ProcessingAreListed(released, k);
    SomeResume(released, WithStatus(released, {Processing}), n, k);
  }

  /** Wherever recovery dies, each job is as it was, closed, or resumed; a lease's job is at least closed once anything was
      written. */
  lemma PartStores(db: Db, now: int, writes: nat, k: JobId)
    requires Accounted(db.jobs, now)
    ensures var next := RecoverPart(db, now, writes).jobs;
            && Sound(next)
            && (Find(db.jobs, k).None? ==> Find(next, k).None?)
            && (Find(db.jobs, k).Some? ==> Find(next, k).Some? && Partly(Find(db.jobs, k).value, Find(next, k).value, now))
            && (writes > 0 && HoldsLease(db.jobs, k) ==>
                  Find(next, k).value in {Finished(Find(db.jobs, k).value, 0, now), Resumed(Find(db.jobs, k).value, now)})
  {
    PartsOfRecovery(db, now, writes);
    OneLeaseIsHeld(db.jobs, now);
    var held, next := HeldJobs(db.jobs), RecoverPart(db, now, writes).jobs;
    if writes > 0 {
      if held != [] && next == FinishLease(db.jobs, held[0], now) {
        SaveReplaces(db.jobs, Finished(held[0], 0, now));
      } else {
        var n: nat :| ResumedFirst(db, now, next, n);
        ReleasedStores(db, now, n, k);
      }
    }
  }

  lemma ResumedTwice(before: Job, after: Job, now: int, later: int)
    requires Partly(before, after, now) && (before.cancelled ==> before.status == Cancelled)
    ensures Resumed(after, later) == Resumed(before, now) || Resumed(after, later) == Resumed(before, later)
  {
  }

  /** A crash inside recovery costs nothing: the next recovery leaves every job as one of the two would have alone, its run
      charged once. */
  lemma InterruptedRecoveryResumesEach(db: Db, now: int, writes: nat, later: int, k: JobId)
    requires Accounted(db.jobs, now) && Find(db.jobs, k).Some?
    ensures var job, after := Find(db.jobs, k).value, Find(Recover(RecoverPart(db, now, writes), later).jobs, k);
            after == Some(Resumed(job, now)) || after == Some(Resumed(job, later))
  {
    PartStores(db, now, writes, k);
    RecoverResumesEach(RecoverPart(db, now, writes), later, k);
    ResumedTwice(Find(db.jobs, k).value, Find(RecoverPart(db, now, writes).jobs, k).value, now, later);
  }

  /** Handed on to publication, charged as its run reported. */
  predicate HandedOnAs(before: Job, after: Job, active: int, now: int)
    requires before.lease.Held?
  {
    && after.status.ResultReady? && after.hasResult && after.lease.Released?
    && after.activeSeconds == Min(StageLimit(before), before.activeSeconds + Max(0, Max(now - before.lease.since, active)))
  }

  lemma StoredRunIsHandedOn(rows: seq<Row>, before: Job, active: int, now: int)
    requires Sound(rows) && Find(rows, before.id) == Some(before) && !before.cancelled && before.lease.Held?
    ensures Sound(StoreRows(rows, before, active, now))
    ensures Find(StoreRows(rows, before, active, now), before.id) == Some(Finished(before.(hasResult := true), active, now))
  {
    var stored := before.(hasResult := true);
    SaveReplaces(rows, stored);
    SaveReplaces(Save(rows, stored), Finished(stored, active, now));
  }

  /** A crash between ending the run and the last write of an accepted result loses nothing either: the restart hands the
      job on to publication, charged as its run reported. */
  lemma FinishedResultSurvivesCrash(w: World, id: JobId, active: int)
    requires Sane(w) && w.service == Up(Some(id)) && IsRunning(w.db.jobs, id)
    ensures var back := Step(Step(Step(w, EndRun(AcceptedInPart(active))), Crash), Restart);
            var before, after := Find(w.db.jobs, id).value, Find(back.db.jobs, id);
            before.lease.Held? && after.Some? && HandedOnAs(before, after.value, active, w.now)
  {
    RunningIsLeased(w, id);
    PartlyAcceptedRecovers(w, id, active);
    FinishedResultIsHandedOn(w.db, id, Find(w.db.jobs, id).value, active, w.now);
  }

  lemma PartlyAcceptedRecovers(w: World, id: JobId, active: int)
    requires w.service == Up(Some(id))
    ensures Step(Step(Step(w, EndRun(AcceptedInPart(active))), Crash), Restart).db
            == Recover(CompleteRun(w.db, id, AcceptedInPart(active), w.now), w.now)
  {
  }

  lemma FinishedResultIsHandedOn(db: Db, id: JobId, before: Job, active: int, now: int)
    requires Sound(db.jobs) && Find(db.jobs, id) == Some(before) && !before.cancelled && before.lease.Held?
    ensures var after := Find(Recover(CompleteRun(db, id, AcceptedInPart(active), now), now).jobs, id);
            after.Some? && HandedOnAs(before, after.value, active, now)
  {
    FindIsRow(db.jobs, id);
    StoredRunIsHandedOn(db.jobs, before, active, now);
    var next := CompleteRun(db, id, AcceptedInPart(active), now);
    assert next.jobs == StoreRows(db.jobs, before, active, now);
    RecoverResumesEach(next, now, id);
  }
}
