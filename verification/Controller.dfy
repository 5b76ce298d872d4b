/** The controller's own loops over the store: incidents, candidates for a run, and the end of a run. */
module Controller {
  import opened Contracts
  import opened JobStore
  import opened Tables
  import opened Lifecycle
  import opened Preparation
  import opened State
  import S = Scheduling
  import E = Events
  import ProviderQuota

  /** A stored job whose run can be ended. */
  predicate Ending(rows: seq<Row>, id: JobId)
  {
    Find(rows, id).Some? && !Find(rows, id).value.lease.Released? && Find(rows, id).value.id == id
  }

  class Controller {
    const state: State

    constructor (state: State)
      ensures this.state == state
    {
      this.state := state;
    }

    /** Schedules the due incidents; `newIds` are fresh job ids, one for each. */
    method ScheduleIncidents(due: seq<string>, newIds: seq<JobId>, now: int)
      requires |newIds| == |due|
      modifies state
      ensures state.db == E.ScheduleAll(old(state.db), due, newIds, now)
    {
      var i := 0;
      while i < |due|
        invariant 0 <= i <= |due|
        invariant E.ScheduleAll(state.db, due[i..], newIds[i..], now) == E.ScheduleAll(old(state.db), due, newIds, now)
      {
        assert due[i..][1..] == due[i + 1..] && newIds[i..][1..] == newIds[i + 1..];
        ghost var before := state.db;
        if due[i] in state.db.incidents {
          var incident := state.db.incidents[due[i]];
          if incident.status == Pending && incident.due <= now {
            if !E.Working(state.db.jobs, due[i]) {
              state.SaveJob(Fresh(newIds[i], Initial, due[i], incident.incidentId, None, []));
            }
            state.db := state.db.(incidents := state.db.incidents[due[i] := incident.(status := Diagnosing)]);
          }
        }
        assert state.db == E.Schedule(before, due[i], newIds[i], now);
        i := i + 1;
      }
      assert due[i..] == [] && newIds[i..] == [];
    }

    method NeedsHuman(id: JobId)
      modifies state
      ensures state.db == HandOver(old(state.db), id)
    {
      var found := Find(state.db.jobs, id);
      if found.None? || found.value.cancelled { return; }
      var known := state.UpdateJob(id, Editing(FOR_HUMAN));
      if found.value.signature in state.db.incidents {
        var incident := state.db.incidents[found.value.signature];
        state.db := state.db.(incidents := state.db.incidents[found.value.signature := incident.(status := Escalated)]);
      }
    }

    method RetryLater(id: JobId, retries: nat, now: int)
      modifies state
      ensures state.db == Retry(old(state.db), id, retries, now)
    {
      var known := state.UpdateJob(id, Editing(FULL_PRICE));
      var found := Find(state.db.jobs, id);
      if found.None? { return; }
      if Blocked(state.db, found.value) {
        known := state.UpdateJob(id, Editing(BackInLine(found.value)));
      } else if found.value.attempts + 1 >= retries {
        NeedsHuman(id);
      } else {
        known := state.UpdateJob(id, Editing(Later(found.value, now)));
      }
    }

    method Launch(id: JobId, now: int) returns (launched: bool)
      requires Mirrored(state.db.jobs)
      modifies state
      ensures (state.db, launched) == Attempt(old(state.db), id, now)
    {
      var refused := state.Claim(id, now);
      launched := refused.None?;
      if !launched { var known := state.UpdateJob(id, DelayedUntil(now + 60)); }
    }

    method ConsiderJob(job: Job, ready: Readiness, retries: nat, now: int) returns (turn: Turn)
      requires Mirrored(state.db.jobs)
      modifies state
      ensures (state.db, turn) == Consider(old(state.db), job, ready, retries, now)
    {
      turn := Skipped;
      if Blocked(state.db, job) || job.nextAt > now { return; }
      if OverBudget(state.db, job) { NeedsHuman(job.id); return; }
      var launchAfter := S.JobLaunchAfter(state.db, job, now);
      if launchAfter > now {
        var known := state.UpdateJob(job.id, Editing(AllowanceWait(launchAfter)));
        return;
      }
      match ready
      case Unavailable => RetryLater(job.id, retries, now);
      case OutOfScope => NeedsHuman(job.id);
      case AlreadyDone => var known := state.UpdateJob(job.id, Editing(FINISHED_ELSEWHERE));
      case Prepared =>
        ContextMirrors(state.db.jobs, job.id);
        var known := state.UpdateJob(job.id, WithContext());
        var launched := Launch(job.id, now);
        turn := if launched then Launched else GaveUp;
    }

    method PrepareRun(ready: JobId -> Readiness, retries: nat, now: int) returns (launched: Option<JobId>)
      requires Mirrored(state.db.jobs)
      modifies state
      ensures (state.db, launched) == Prepare(old(state.db), ready, retries, now)
    {
      if !state.db.enabled || !ProviderAvailable(state.db, now) { return None; }
      var jobs := Candidates(state.db.jobs);
      var i := 0;
      while i < |jobs|
        invariant 0 <= i <= |jobs| && Mirrored(state.db.jobs)
        invariant ConsiderAll(state.db, jobs[i..], ready, retries, now) == ConsiderAll(old(state.db), jobs, ready, retries, now)
      {
        assert jobs[i..][1..] == jobs[i + 1..];
        ghost var before := state.db;
        var turn := ConsiderJob(jobs[i], ready(jobs[i].id), retries, now);
        if turn == Launched { return Some(jobs[i].id); }
        if turn == GaveUp { return None; }
        ConsiderTouches(before, jobs[i], ready(jobs[i].id), retries, now);
        i := i + 1;
      }
      assert jobs[i..] == [];
      launched := None;
    }

    /** Stores a valid result before the lease ends, then passes it on unless the job was cancelled meanwhile. */
    method AcceptResult(id: JobId, active: int, now: int)
      requires Ending(state.db.jobs, id)
      modifies state
      ensures state.db == CompleteRun(old(state.db), id, Accepted(active), now)
    {
      var job := Find(state.db.jobs, id).value;
      ResultStays(state.db.jobs, id, job);
      state.SaveJob(job.(hasResult := true));
      var refused := state.FinishRun(id, active, now);
      state.ProviderRecovered(LeasedSince(job));
      if !job.cancelled { var known := state.UpdateJob(id, Publishable()); }
    }

    /** Ends a run and puts its job back in the queue until `until`, unless it was cancelled meanwhile. */
    method PauseJob(id: JobId, active: int, until: int, now: int)
      requires Ending(state.db.jobs, id)
      modifies state
      ensures state.db == PausedUntilOpen(old(state.db), id, active, until, now)
    {
      var cancelled := Find(state.db.jobs, id).value.cancelled;
      var refused := state.FinishRun(id, active, now);
      if !cancelled { var known := state.UpdateJob(id, PausedUntil(until)); }
    }

    /** Accounts the run and waits for the shared quota, all or nothing. */
    method DeferQuota(id: JobId, active: int, delay: ProviderQuota.Delay, now: int)
      requires Ending(state.db.jobs, id)
      modifies state
      ensures state.db == CompleteRun(old(state.db), id, QuotaHit(active, delay), now)
    {
      PauseIsCompletion(state.db, id, active, delay, now);
      var job := Find(state.db.jobs, id).value;
      var since := if job.lease.Held? then job.lease.since else 0;
      var quota := state.DeferProvider(ProviderQuota.WorkerRun(id, since), delay, now);
      PauseJob(id, active, quota.until, now);
    }
  }

  function PausedUntilOpen(db: Db, id: JobId, active: int, until: int, now: int): (next: Db)
    requires Ending(db.jobs, id)
  {
    db.(jobs := PauseRows(db.jobs, Find(db.jobs, id).value, active, until, now))
  }

  lemma PauseIsCompletion(db: Db, id: JobId, active: int, delay: ProviderQuota.Delay, now: int)
    requires Ending(db.jobs, id)
    ensures var job := Find(db.jobs, id).value;
            var since := if job.lease.Held? then job.lease.since else 0;
            var quota := ProviderQuota.Defer(db.quota, ProviderQuota.WorkerRun(id, since), delay, now);
            CompleteRun(db, id, QuotaHit(active, delay), now)
            == PausedUntilOpen(db.(quota := Some(quota)), id, active, quota.until, now)
  {
  }

  lemma ContextMirrors(rows: seq<Row>, id: JobId)
    requires Mirrored(rows)
    ensures Mirrored(Update(rows, id, WithContext()))
  {
    FindIsRow(rows, id);
    UpdateStores(rows, id, WithContext());
  }

  /** The lease being ended is the one whose result was just stored. */
  lemma ResultStays(rows: seq<Row>, id: JobId, job: Job)
    requires Find(rows, id) == Some(job) && job.id == id
    ensures Find(Save(rows, job.(hasResult := true)), id) == Some(Settled(rows, job.(hasResult := true)))
  {
    FindSaved(rows, job.(hasResult := true), id);
  }
}
