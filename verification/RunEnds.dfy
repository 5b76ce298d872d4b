/** What the end of an agent's run leaves: its job's document, the time charged and the provider's quota. */
module RunEnds {
  import opened Contracts
  import opened JobStore
  import opened Tables
  import opened Scheduling
  import opened Lifecycle
  import opened Leases
  import opened Runs
  import opened Exclusion
  import opened Recovery
  import Budgets
  import D = Dispatching
  import ProviderQuota

  /** Time used once a run is charged: the longer of the lease and what the agent reported, up to the stage's limit. */
  ghost function Charged(before: Job, active: int, now: int): (seconds: int)
  {
    Min(if before.stage.Initial? || before.stage.Triage? then 600 else 14400,
        before.activeSeconds + Max(0, Max(if before.lease.Held? then now - before.lease.since else 0, active)))
  }

  /** A job whose run is over and charged, on its way somewhere, or cancelled for good. */
  ghost function Over(before: Job, active: int, now: int, status: Status): (after: Job)
  {
    before.(lease := Released, activeSeconds := Charged(before, active, now),
            status := if before.cancelled then Cancelled else status)
  }

  /** Of all the tables only this job's document and the quota may have changed. */
  ghost predicate OnlyJobAndQuota(db: Db, next: Db, id: JobId)
  {
    && next == db.(jobs := next.jobs, quota := next.quota)
    && Sound(next.jobs)
    && forall k :: k != id ==> Find(next.jobs, k) == Find(db.jobs, k)
  }

  /** A stored job whose run can end. */
  ghost predicate Under(db: Db, id: JobId, before: Job)
  {
    Sound(db.jobs) && Find(db.jobs, id) == Some(before) && !before.lease.Released?
  }

  // ---------------------------------------------------------------- an accepted result

  lemma StoredRunIsOver(rows: seq<Row>, before: Job, active: int, now: int)
    requires Sound(rows) && Find(rows, before.id) == Some(before) && !before.lease.Released?
    ensures Replaces(rows, StoreRows(rows, before, active, now), Over(before.(hasResult := true), active, now, Processing))
  {
    var stored := before.(hasResult := true);
    SaveReplaces(rows, stored);
    assert Settled(rows, stored) == stored;
    SaveReplaces(Save(rows, stored), Finished(stored, active, now));
    ReplacesTwice(rows, Save(rows, stored), StoreRows(rows, before, active, now), stored, Finished(stored, active, now));
  }

  /** After an accepted run an uncancelled job is ready for publication with its result stored, charged, without a lease,
      and with its retries, wait and resumption mark cleared; a cancelled job stays cancelled. */
  lemma AcceptedRunIsPublished(db: Db, id: JobId, before: Job, active: int, now: int)
    requires Under(db, id, before)
    ensures var next := CompleteRun(db, id, Accepted(active), now);
            && OnlyJobAndQuota(db, next, id)
            && Find(next.jobs, id) == Some(
                 if before.cancelled then Over(before.(hasResult := true), active, now, Cancelled)
                 else Over(before.(hasResult := true, attempts := 0, nextAt := 0, quotaResume := false), active, now, ResultReady))
  {
    FindIsRow(db.jobs, id);
    CompleteFrame(db, id, Accepted(active), now);
    StoredRunIsOver(db.jobs, before, active, now);
    if !before.cancelled {
      var stored := StoreRows(db.jobs, before, active, now);
      SaveReplaces(stored, Publishable()(Find(stored, id).value));
    }
  }

  /** An accepted run clears the quota, unless the quota was observed after the lease began. */
  lemma AcceptedRunKeepsNewerQuota(db: Db, id: JobId, before: Job, active: int, now: int)
    requires Under(db, id, before)
    ensures var next := CompleteRun(db, id, Accepted(active), now);
            next.quota == if db.quota.Some? && before.lease.Held? && before.lease.since < db.quota.value.observedAt
                          then db.quota else None
  {
  }

  // ---------------------------------------------------------------- a quota failure

  /** The quota after a failure: a repeated source changes nothing; a new one is waited out from now, for the delay the
      provider gave, within a minute and a week, or else for ten minutes doubled at each failure up to an hour, and never for
      less than before. */
  ghost predicate Deferred(quota: Option<ProviderQuota.Quota>, next: ProviderQuota.Quota, source: ProviderQuota.Source,
                           delay: ProviderQuota.Delay, now: int)
  {
    if quota.Some? && quota.value.source == source then quota == Some(next)
    else
      && next.source == source
      && next.observedAt == Max(now, if quota.Some? then quota.value.observedAt else now)
      && next.since == (if quota.Some? then quota.value.since else now)
      && next.failures == (if quota.None? then 1 else Min(16, quota.value.failures + 1))
      && next.until == Max(if quota.Some? then quota.value.until else 0, now + next.delay)
      && (delay.Seconds? && 60.0 <= delay.seconds <= 604800.0 ==>
            delay.seconds <= next.delay as real < delay.seconds + 1.0)
      && (delay.Seconds? && delay.seconds < 60.0 ==> next.delay == 60)
      && (delay.Seconds? && delay.seconds > 604800.0 ==> next.delay == 604800)
      && (!delay.Seconds? ==> next.delay == match next.failures case 1 => 600 case 2 => 1200 case 3 => 2400 case _ => 3600)
  }

  lemma SilentWait(failures: nat)
    requires 1 <= failures
    ensures ProviderQuota.Backoff(failures) == match failures case 1 => 600 case 2 => 1200 case 3 => 2400 case _ => 3600
  {
    ProviderQuota.BackoffIsBounded(failures);
    assert ProviderQuota.Pow2(0) == 1 && ProviderQuota.Pow2(1) == 2 && ProviderQuota.Pow2(2) == 4;
  }

  lemma FailureIsDeferred(quota: Option<ProviderQuota.Quota>, source: ProviderQuota.Source, delay: ProviderQuota.Delay, now: int)
    ensures Deferred(quota, ProviderQuota.Defer(quota, source, delay, now), source, delay, now)
  {
    SilentWait(Min(16, (if quota.Some? then quota.value.failures else 0) + 1));
  }

  /** After a quota failure an uncancelled job is queued again until the quota opens, marked so that its next start is not
      counted; a cancelled job stays cancelled; the quota waits for this run's failure. */
  lemma QuotaFailureRequeues(db: Db, id: JobId, before: Job, active: int, delay: ProviderQuota.Delay, now: int)
    requires Under(db, id, before)
    ensures var next := CompleteRun(db, id, QuotaHit(active, delay), now);
            && OnlyJobAndQuota(db, next, id)
            && next.quota.Some?
            && Deferred(db.quota, next.quota.value,
                        ProviderQuota.WorkerRun(id, if before.lease.Held? then before.lease.since else 0), delay, now)
            && Find(next.jobs, id) == Some(
                 if before.cancelled then Over(before, active, now, Cancelled)
                 else Over(before.(nextAt := next.quota.value.until, quotaResume := true, awaitsLaunch := false),
                           active, now, Queued))
  {
    FindIsRow(db.jobs, id);
    CompleteFrame(db, id, QuotaHit(active, delay), now);
    FailureIsDeferred(db.quota, ProviderQuota.WorkerRun(id, if before.lease.Held? then before.lease.since else 0), delay, now);
    var until := PausedQuota(db, before, delay, now).until;
    PausedJob(db.jobs, before, active, until, now);
  }

  lemma PausedJob(rows: seq<Row>, before: Job, active: int, until: int, now: int)
    requires Sound(rows) && Find(rows, before.id) == Some(before) && !before.lease.Released?
    ensures Replaces(rows, PauseRows(rows, before, active, until, now),
                     if before.cancelled then Over(before, active, now, Cancelled)
                     else Over(before.(nextAt := until, quotaResume := true, awaitsLaunch := false), active, now, Queued))
  {
    var finished := Finished(before, active, now);
    SaveReplaces(rows, finished);
    if !before.cancelled {
      var paused := PausedUntil(until)(finished);
      SaveReplaces(Save(rows, finished), paused);
      ReplacesTwice(rows, Save(rows, finished), PauseRows(rows, before, active, until, now), finished, paused);
    }
  }

  // ---------------------------------------------------------------- other ends

  lemma ClosedRunIsOver(rows: seq<Row>, before: Job, active: int, now: int)
    requires Sound(rows) && Find(rows, before.id) == Some(before) && !before.lease.Released?
    ensures Replaces(rows, Save(rows, Finished(before, active, now)), Over(before, active, now, Processing))
  {
    SaveReplaces(rows, Finished(before, active, now));
  }

  /** A run that fails is charged what it reports, and one whose result is refused its lease alone; its job is left between
      two writes, and the quota stays. */
  lemma FailedRunWaits(db: Db, id: JobId, before: Job, active: int, now: int)
    requires Under(db, id, before)
    ensures CompleteRun(db, id, Refused, now) == CompleteRun(db, id, Failed(0), now)
    ensures var next := CompleteRun(db, id, Failed(active), now);
            && OnlyJobAndQuota(db, next, id) && next.quota == db.quota
            && Find(next.jobs, id) == Some(Over(before, active, now, Processing))
  {
    FindIsRow(db.jobs, id);
    ClosedRunIsOver(db.jobs, before, active, now);
    assert CompleteRun(db, id, Failed(active), now) == db.(jobs := Save(db.jobs, Finished(before, active, now)));
  }

  /** A run cut short before its job's last write leaves its result stored. */
  lemma InterruptedAcceptanceStores(db: Db, id: JobId, before: Job, active: int, now: int)
    requires Under(db, id, before)
    ensures var next := CompleteRun(db, id, AcceptedInPart(active), now);
            && OnlyJobAndQuota(db, next, id)
            && Find(next.jobs, id) == Some(Over(before.(hasResult := true), active, now, Processing))
  {
    FindIsRow(db.jobs, id);
    StoredRunIsOver(db.jobs, before, active, now);
  }

  // ---------------------------------------------------------------- in any reachable world

  /** Ready for publication, with the slot of agents free and the quota open unless it was observed while the agent ran. */
  ghost predicate Published(db: Db, next: Db, id: JobId)
  {
    var before, after := Find(db.jobs, id), Find(next.jobs, id);
    && before.Some? && before.value.lease.Held? && after.Some?
    && after.value.status.ResultReady? && after.value.hasResult && after.value.lease.Released?
    && !after.value.quotaResume && after.value.nextAt == 0 && Idle(next.jobs)
    && (next.quota.Some? <==> db.quota.Some? && before.value.lease.since < db.quota.value.observedAt)
  }

  lemma RunningIsPublished(w: World, id: JobId, active: int)
    requires Sane(w) && IsRunning(w.db.jobs, id) && HoldsLease(w.db.jobs, id)
    ensures Published(w.db, CompleteRun(w.db, id, Accepted(active), w.now), id)
  {
    RunningIsLeased(w, id);
    var before := Find(w.db.jobs, id).value;
    AcceptedRunIsPublished(w.db, id, before, active, w.now);
    AcceptedRunKeepsNewerQuota(w.db, id, before, active, w.now);
    CompleteCloses(w.db, id, Accepted(active), w.now);
  }

  lemma EndRunCompletes(w: World, id: JobId, outcome: Outcome)
    requires w.service == Up(Some(id))
    ensures Step(w, EndRun(outcome)) == w.(db := CompleteRun(w.db, id, outcome, w.now), service := Up(None))
  {
  }

  /** In any world a run reaches, a running agent whose result is accepted leaves its job published. */
  lemma AgentIsPublished(w: World, ops: seq<Op>, id: JobId, active: int)
    requires Installed(w) && Possible(w, ops)
    requires Run(w, ops).service == Up(Some(id)) && IsRunning(Run(w, ops).db.jobs, id)
    ensures Published(Run(w, ops).db, Step(Run(w, ops), EndRun(Accepted(active))).db, id)
    ensures Step(Run(w, ops), EndRun(Accepted(active))).service == Up(None)
  {
    InstallationIsSane(w);
    RunsAreSane(w, ops);
    var last := Run(w, ops);
    RunningIsLeased(last, id);
    RunningIsPublished(last, id, active);
    EndRunCompletes(last, id, Accepted(active));
  }

  // ---------------------------------------------------------------- a restart, and a cancellation

  /** After a restart a run that was under way is over and charged for its lease; its job, and any job caught between two
      writes, goes on to its stored result or back to the queue; every other job is as it was. */
  lemma RestartResumesEach(db: Db, now: int, k: JobId)
    requires Sound(db.jobs)
    ensures var found, after := Find(db.jobs, k), Find(Recover(db, now).jobs, k);
            if found.None? then after.None?
            else
              var job, onward := found.value, if found.value.hasResult then ResultReady else Queued;
              after == Some(if job.lease.Held? then Over(job, 0, now, onward)
                            else if job.status == Processing then job.(status := onward)
                            else job)
  {
    RecoverResumesEach(db, now, k);
  }

  /** A job cancelled in any reachable world is cancelled at once and in every later world. */
  lemma CancelledForGood(w: World, ops: seq<Op>, id: JobId)
    requires Sane(w) && Find(w.db.jobs, id).Some? && Possible(Step(w, Cancel(id)), ops)
    ensures var after := Find(Run(Step(w, Cancel(id)), ops).db.jobs, id);
            after.Some? && after.value.cancelled && after.value.status == Cancelled
  {
    StepKeepsSane(w, Cancel(id));
    FindIsRow(w.db.jobs, id);
    UpdateStores(w.db.jobs, id, D.Cancelling());
    Budgets.JobsLast(Step(w, Cancel(id)), ops, id);
  }
}
