/** The transactional store: each method changes the tables in place, and a refused one rolls back. */
module State {
  import opened Contracts
  import opened JobStore
  import opened Tables
  import S = Scheduling
  import W = LaunchWindows
  import ProviderQuota
  import D = Dispatching
  import E = Events

  class State {
    var db: Db

    constructor ()
      ensures db == EMPTY
    {
      db := EMPTY;
    }

    // ---------------------------------------------------------------- jobs

    /** Keeps columns, keys and cancellations sound; the document comes last in the table, stays cancelled if it was, and
        disturbs no other. */
    method SaveJob(job: Job)
      modifies this
      ensures Sound(old(db.jobs)) ==> Absorbs(old(db.jobs), db.jobs, job)
      ensures db == Put(old(db), job)
    {
      SaveAbsorbs(db.jobs, job);
      var existing := Find(db.jobs, job.id);
      var stored := job;
      if job.cancelled || (existing.Some? && existing.value.cancelled) {
        stored := stored.(cancelled := true, status := Cancelled);
      }
      db := db.(jobs := Without(db.jobs, stored.id) + [Row(stored.id, stored.issue, stored.status, stored)]);
    }

    /** False for an unknown job, which is refused. */
    method UpdateJob(id: JobId, change: Job -> Job) returns (known: bool)
      modifies this
      ensures known == Find(old(db).jobs, id).Some?
      ensures db == old(db).(jobs := Update(old(db).jobs, id, change))
    {
      var found := Find(db.jobs, id);
      known := found.Some?;
      if known { SaveJob(change(found.value)); }
    }

    // ---------------------------------------------------------------- runs

    /** Seconds an issue's other repair jobs have used. */
    method SecondsOfOthers(issue: nat, id: JobId) returns (seconds: int)
      requires Mirrored(db.jobs)
      ensures seconds == Spent(Without(db.jobs, id), issue)
    {
      var jobs := IssueJobs(db.jobs, Some(issue));
      seconds := 0;
      var i := 0;
      while i < |jobs|
        invariant 0 <= i <= |jobs| && seconds == RepairSeconds(jobs[..i], id)
      {
        assert jobs[..i + 1][..i] == jobs[..i];
        if jobs[i].id != id && Repair(jobs[i]) { seconds := seconds + jobs[i].activeSeconds; }
        i := i + 1;
      }
      assert jobs[..i] == jobs;
      ListingSumsSpent(db.jobs, issue, id);
    }

    /** Time the job's next run would have before any of it is used. */
    method StageBudget(job: Job) returns (limit: int)
      requires Mirrored(db.jobs)
      ensures limit == S.Budget(db, job)
    {
      limit := if Short(job) then INITIAL_SECONDS else DEEP_SECONDS;
      if !Short(job) && job.issue.Some? {
        var others := SecondsOfOthers(job.issue.value, job.id);
        limit := limit - others;
      }
    }

    method RecordStart(job: Job, now: int)
      modifies this
      ensures db == S.Recorded(old(db), job, now)
    {
      if Short(job) && !job.quotaResume {
        db := db.(launches := db.launches + [Launch(S.LastLaunch(db.launches) + 1, job.id, now)]);
      }
      if !S.Started(db, job.id) {
        db := db.(starts := db.starts + [Start(job.id, if Short(job) then ShortStart else DeepStart, now)]);
      }
    }

    method Claim(id: JobId, now: int) returns (refused: Option<S.ClaimError>)
      requires Mirrored(db.jobs)
      modifies this
      ensures refused == S.ClaimRefusal(old(db), id, now)
      ensures refused.Some? ==> db == old(db)
      ensures refused.None? ==> S.Claim(old(db), id, now) == Ok(db)
    {
      var found := Find(db.jobs, id);
      if found.None? { return Some(S.UnknownJob); }
      FindIsRow(db.jobs, id);
      var job := found.value;
      if !db.enabled { return Some(S.Disabled); }
      if !ProviderAvailable(db, now) { return Some(S.WaitingForQuota); }
      if job.cancelled || job.status != Queued { return Some(S.CannotStart); }
      if WithStatus(db.jobs, {Running}) != [] { return Some(S.LeaseOwned); }
      var limit := StageBudget(job);
      if job.activeSeconds >= limit { return Some(S.BudgetExhausted); }
      if S.JobLaunchAfter(db, job, now) > now { return Some(S.AllowanceUsed); }
      RecordStart(job, now);
      SaveJob(job.(status := Running, lease := Held(now), remainingSeconds := limit - job.activeSeconds));
      refused := None;
    }

    method FinishRun(id: JobId, active: int, now: int) returns (refused: Option<S.FinishError>)
      modifies this
      ensures match S.Finish(old(db), id, active, now)
              case Ok(next) => refused == None && db == next
              case Err(e) => refused == Some(e) && db == old(db)
    {
      var found := Find(db.jobs, id);
      if found.None? { return Some(S.NoSuchJob); }
      var job := found.value;
      if job.lease.Released? { return Some(S.NoLease); }
      var leased := if job.lease.Held? then now - job.lease.since else 0;
      var elapsed := Max(0, Max(leased, active));
      SaveJob(job.(activeSeconds := Min(StageLimit(job), job.activeSeconds + elapsed), lease := Released,
                   status := if job.cancelled then Cancelled else Processing));
      refused := None;
    }

    /** Ends the run of one job that held a lease and requeues it, or passes its saved result on. */
    method EndLease(job: Job, now: int)
      modifies this
      ensures db == old(db).(jobs := S.RecoverLease(old(db).jobs, job, now))
    {
      var refused := FinishRun(job.id, 0, now);
      if refused.None? && !job.cancelled {
        var known := UpdateJob(job.id, S.Resuming(job));
      }
    }

    method EndLeases(now: int)
      modifies this
      ensures db == old(db).(jobs := S.RecoverLeases(old(db).jobs, S.HeldJobs(old(db).jobs), now))
    {
      var held := S.HeldJobs(db.jobs);
      var i := 0;
      while i < |held|
        invariant 0 <= i <= |held|
        invariant S.RecoverLeases(db.jobs, held[i..], now) == S.RecoverLeases(old(db).jobs, held, now)
        invariant db == old(db).(jobs := db.jobs)
      {
        assert held[i..][1..] == held[i + 1..];
        EndLease(held[i], now);
        i := i + 1;
      }
      assert held[i..] == [];
    }

    method ResumeProcessing()
      modifies this
      ensures db == old(db).(jobs := S.ResumeAll(old(db).jobs, WithStatus(old(db).jobs, {Processing})))
    {
      var processing := WithStatus(db.jobs, {Processing});
      var i := 0;
      while i < |processing|
        invariant 0 <= i <= |processing|
        invariant S.ResumeAll(db.jobs, processing[i..]) == S.ResumeAll(old(db).jobs, processing)
        invariant db == old(db).(jobs := db.jobs)
      {
        assert processing[i..][1..] == processing[i + 1..];
        var known := UpdateJob(processing[i].id, S.Resuming(processing[i]));
        i := i + 1;
      }
      assert processing[i..] == [];
    }

    method Recover(now: int)
      modifies this
      ensures db == S.Recover(old(db), now)
    {
      EndLeases(now);
      ResumeProcessing();
    }

    method ResetInitialQuota(request: string, now: int) returns (receipt: ResetReceipt)
      modifies this
      ensures (db, receipt) == S.ResetInitialQuota(old(db), request, now)
    {
      if request in db.resets { return db.resets[request]; }
      var counted := W.CountSince(S.Counted(db), now - DAY);
      var through := S.LastLaunch(db.launches);
      var released := 0;
      var queued := WithStatus(db.jobs, {Queued});
      ghost var freed := S.ReleaseAll(db.jobs, queued);
      var i := 0;
      while i < |queued|
        invariant 0 <= i <= |queued|
        invariant S.ReleaseAll(db.jobs, queued[i..]) == freed
        invariant released + S.CountReleasable(queued[i..]) == S.CountReleasable(queued)
        invariant db == old(db).(jobs := db.jobs)
      {
        if S.Releasable(queued[i]) {
          var known := UpdateJob(queued[i].id, S.Release);
          released := released + 1;
        }
        i := i + 1;
      }
      receipt := ResetReceipt(request, now, counted, through, released);
      db := db.(reset := Some(receipt), resets := db.resets[request := receipt]);
    }

    // ---------------------------------------------------------------- the provider's quota

    method DeferProvider(source: ProviderQuota.Source, delay: ProviderQuota.Delay, at: int) returns (quota: ProviderQuota.Quota)
      modifies this
      ensures quota == ProviderQuota.Defer(old(db).quota, source, delay, at)
      ensures db == old(db).(quota := Some(quota))
    {
      var failures, since, observedAt, until := 1, at, at, 0;
      if db.quota.Some? {
        var previous := db.quota.value;
        if previous.source == source { return previous; }
        failures := Min(16, previous.failures + 1);
        since, observedAt, until := previous.since, Max(previous.observedAt, at), previous.until;
      }
      var bounded := ProviderQuota.RetryAfter(delay);
      var wait := if bounded.Some? then bounded.value else ProviderQuota.Backoff(failures);
      quota := ProviderQuota.Quota(source, failures, since, observedAt, Max(until, at + wait), wait);
      db := db.(quota := Some(quota));
    }

    /** Work that started before the newest failure was observed proves nothing: the quota stays. */
    method ProviderRecovered(startedAt: Option<int>)
      modifies this
      ensures db.quota.Some? ==> db == old(db) && startedAt.Some? && startedAt.value < db.quota.value.observedAt
      ensures startedAt.Some? && old(db.quota).Some? && startedAt.value < old(db.quota).value.observedAt ==> db.quota.Some?
      ensures db == old(db).(quota := ProviderQuota.Recovered(old(db).quota, startedAt))
    {
      if startedAt.None? || startedAt.value >= (if db.quota.Some? then db.quota.value.observedAt else 0) {
        db := db.(quota := None);
      }
    }

    // ---------------------------------------------------------------- incident events

    method Ingest(batch: seq<E.Event>, cursor: Option<int>, debounce: int, now: int) returns (refused: Option<E.IngestError>)
      modifies this
      ensures match E.Ingest(old(db), batch, cursor, debounce, now)
              case Ok(next) => refused == None && db == next
              case Err(e) => refused == Some(e) && db == old(db)
    {
      var before := db;
      var i := 0;
      while i < |batch|
        invariant 0 <= i <= |batch|
        invariant E.RecordAll(before, batch[..i], now, debounce) == Ok(db)
        invariant before == old(db)
      {
        var e := batch[i];
        assert batch[..i + 1][..i] == batch[..i];
        if !E.WellFormed(e) {
          E.RecordAllStops(before, batch, i + 1, now, debounce);
          db := before;
          return Some(E.InvalidEvent);
        }
        if e.id.value in db.events {
          if db.events[e.id.value] != e.signature.value {
            E.RecordAllStops(before, batch, i + 1, now, debounce);
            db := before;
            return Some(E.ChangedEvent);
          }
        } else {
          var incident := E.Revised(db, e, now, debounce);
          db := db.(events := db.events[e.id.value := e.signature.value]);
          db := db.(incidents := db.incidents[e.signature.value := incident]);
        }
        i := i + 1;
      }
      assert batch[..i] == batch;
      E.RecordAllStores(before, batch, now, debounce);
      if cursor.None? || cursor.value < db.cursor || !E.CursorCovers(cursor.value, batch) {
        db := before;
        return Some(E.InvalidCursor);
      }
      db := db.(cursor := cursor.value);
      refused := None;
    }

    // ---------------------------------------------------------------- dispatches

    /** Lifts an owner's hold and cancels the issue's triage in flight. */
    method LiftHold(issue: nat)
      modifies this
      ensures db == D.LiftHold(old(db), issue)
    {
      var jobs := IssueJobs(db.jobs, Some(issue));
      ghost var cancelled := D.CancelTriage(db.jobs, jobs);
      var i := 0;
      while i < |jobs|
        invariant 0 <= i <= |jobs|
        invariant D.CancelTriage(db.jobs, jobs[i..]) == cancelled
        invariant db == old(db).(jobs := db.jobs)
      {
        if D.ActiveTriage(jobs[i]) {
          var known := UpdateJob(jobs[i].id, D.Cancelling());
        }
        i := i + 1;
      }
      db := db.(holds := db.holds - {issue});
    }

    /** Picks the issue's active repair job, requeueing it on an owner's rerun, or makes a new one. */
    method AssignJob(issue: nat, resume: bool, newId: JobId) returns (job: JobId)
      requires issue in db.origins
      modifies this
      ensures (db, job) == D.Assign(old(db), issue, resume, newId)
    {
      var active := D.FirstActiveRepair(IssueJobs(db.jobs, Some(issue)));
      if active.None? {
        job := newId;
        SaveJob(Fresh(newId, Deep, db.origins[issue].signature, db.origins[issue].incidentId, Some(issue), []));
      } else {
        job := active.value.id;
        if resume && active.value.status != Running {
          var known := UpdateJob(job, D.Requeueing(S.Started(db, job)));
        }
      }
    }

    method Enqueue(issue: nat, event: string, generation: Option<string>, newId: JobId)
      returns (answer: Result<JobId, D.EnqueueError>)
      modifies this
      ensures match D.Enqueue(old(db), issue, event, generation, newId)
              case Ok(r) => answer == Ok(r.1) && db == r.0
              case Err(e) => answer == Err(e) && db == old(db)
    {
      if event in db.dispatches {
        if db.dispatches[event].issue != issue { return Err(D.ReusedForAnotherIssue); }
        return Ok(db.dispatches[event].job);
      }
      if issue !in db.origins { return Err(D.NoOrigin); }
      if generation.Some? && (issue, generation.value) in db.reservations {
        var reserved := db.reservations[(issue, generation.value)];
        db := db.(dispatches := db.dispatches[event := Dispatch(issue, reserved)]);
        return Ok(reserved);
      }
      var resume := D.Resumes(db, issue, event);
      if resume { LiftHold(issue); }
      var job := AssignJob(issue, resume, newId);
      db := D.Reserve(db, issue, event, generation, job);
      answer := Ok(job);
    }
  }
}
