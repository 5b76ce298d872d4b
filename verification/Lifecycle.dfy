/** The controller's steps around an agent run: choosing a job, and storing what its run produced. */
module Lifecycle {
  import opened Contracts
  import opened JobStore
  import opened Tables
  import opened Scheduling
  import ProviderQuota

  // ---------------------------------------------------------------- changes the controller makes through update_job

  /** Fields an `update_job` call sets; `None` leaves a field alone. */
  datatype Edit = Edit(
    status: Option<Status>,
    stage: Option<Stage>,
    issue: Option<nat>,
    rounds: Option<nat>,
    attempts: Option<nat>,
    nextAt: Option<int>,
    quotaResume: Option<bool>,
    hasResult: Option<bool>,
    hasContext: Option<bool>,
    awaitsLaunch: Option<bool>)

  function Or<T>(change: Option<T>, current: T): (result: T) { if change.Some? then change.value else current }

  /** Every call site: only a claim sets `running`; only repairs change stage, among themselves; only a diagnosis learns
      its issue. */
  predicate Allowed(job: Job, e: Edit)
  {
    && e.status != Some(Running)
    && (e.stage.Some? ==> Repair(job) && e.stage.value in {Deep, Revise})
    && (e.issue.Some? ==> job.stage.Initial?)
  }

  function Edited(job: Job, e: Edit): (next: Job)
  {
    if !Allowed(job, e) then job
    else
      job.(status := Or(e.status, job.status), stage := Or(e.stage, job.stage),
           issue := if e.issue.Some? then e.issue else job.issue,
           rounds := Or(e.rounds, job.rounds), attempts := Or(e.attempts, job.attempts),
           nextAt := Or(e.nextAt, job.nextAt), quotaResume := Or(e.quotaResume, job.quotaResume),
           hasResult := Or(e.hasResult, job.hasResult), hasContext := Or(e.hasContext, job.hasContext),
           awaitsLaunch := Or(e.awaitsLaunch, job.awaitsLaunch))
  }

  function Editing(e: Edit): (change: Job -> Job) { (job: Job) => Edited(job, e) }

  const UNCHANGED := Edit(None, None, None, None, None, None, None, None, None, None)

  // ---------------------------------------------------------------- prepare_run

  /** Repair cycles used by listed jobs that have started. */
  function CyclesOf(jobs: seq<Job>, db: Db): (n: nat)
  {
    if jobs == [] then 0
    else
      var last := jobs[|jobs| - 1];
      CyclesOf(jobs[..|jobs| - 1], db) + if Repair(last) && Started(db, last.id) then 1 + last.rounds else 0
  }

  function Cycles(db: Db, issue: nat): (n: nat) { CyclesOf(IssueJobs(db.jobs, Some(issue)), db) }

  predicate OverBudget(db: Db, job: Job)
  {
    var shared := !Short(job) && job.issue.Some?;
    var active := if shared then Spent(db.jobs, job.issue.value) else job.activeSeconds;
    var cycles := if shared then Cycles(db, job.issue.value) else job.rounds;
    active >= StageLimit(job) || cycles + (if Started(db, job.id) then 0 else 1) > MAX_ROUNDS
  }

  /** The controller's own gates before it builds a context and claims the job. */
  predicate Preparable(db: Db, job: Job, now: int)
  {
    && db.enabled && ProviderAvailable(db, now)
    && job.status.Queued?
    && !Blocked(db, job)
    && job.nextAt <= now
    && !OverBudget(db, job)
    && JobLaunchAfter(db, job, now) <= now
  }

  function WithContext(): (change: Job -> Job) { (job: Job) => job.(hasContext := true) }

  function DelayedUntil(at: int): (change: Job -> Job) { (job: Job) => job.(nextAt := at) }

  /** Claims a prepared job, or puts it off for a minute. */
  function Attempt(db: Db, id: JobId, now: int): (result: (Db, bool))
  {
    match Claim(db, id, now)
    case Ok(claimed) => (claimed, true)
    case Err(_) => (db.(jobs := Update(db.jobs, id, DelayedUntil(now + 60))), false)
  }

  /** One candidate of `prepare_run` whose source and context are available; true when its agent starts. */
  function PrepareRun(db: Db, id: JobId, now: int): (result: (Db, bool))
  {
    var found := Find(db.jobs, id);
    if found.None? || !Preparable(db, found.value, now) then (db, false)
    else Attempt(db.(jobs := Update(db.jobs, id, WithContext())), id, now)
  }

  // ---------------------------------------------------------------- the end of a run

  /** How a run ended: a valid result, one whose job's last write was lost with the process, a result refused before it is
      stored, a quota failure, or another failure. */
  datatype Outcome =
    | Accepted(active: int)
    | AcceptedInPart(active: int)
    | Refused
    | QuotaHit(active: int, delay: ProviderQuota.Delay)
    | Failed(active: int)

  function Publishable(): (change: Job -> Job)
  {
    (job: Job) => job.(status := ResultReady, attempts := 0, nextAt := 0, quotaResume := false)
  }

  function PausedUntil(until: int): (change: Job -> Job)
  {
    (job: Job) => job.(status := Queued, nextAt := until, quotaResume := true, awaitsLaunch := false)
  }

  /** The result is stored before the lease is released, so a restart publishes it without another run. */
  function StoreRows(rows: seq<Row>, job: Job, active: int, now: int): (next: seq<Row>)
    requires !job.lease.Released?
  {
    Save(Save(rows, job.(hasResult := true)), Finished(job.(hasResult := true), active, now))
  }

  function AcceptRows(rows: seq<Row>, job: Job, active: int, now: int): (next: seq<Row>)
    requires !job.lease.Released?
  {
    var finished := StoreRows(rows, job, active, now);
    if job.cancelled then finished else Update(finished, job.id, Publishable())
  }

  function PauseRows(rows: seq<Row>, job: Job, active: int, until: int, now: int): (next: seq<Row>)
    requires !job.lease.Released?
  {
    var finished := Save(rows, Finished(job, active, now));
    if job.cancelled then finished else Update(finished, job.id, PausedUntil(until))
  }

  function LeasedSince(job: Job): (n: Option<int>) { if job.lease.Held? then Some(job.lease.since) else None }

  function PausedQuota(db: Db, job: Job, delay: ProviderQuota.Delay, now: int): (result: ProviderQuota.Quota)
  {
    var since := if job.lease.Held? then job.lease.since else 0;
    ProviderQuota.Defer(db.quota, ProviderQuota.WorkerRun(job.id, since), delay, now)
  }

  function Paused(db: Db, job: Job, active: int, delay: ProviderQuota.Delay, now: int): (next: Db)
    requires !job.lease.Released?
  {
    var quota := PausedQuota(db, job, delay, now);
    db.(jobs := PauseRows(db.jobs, job, active, quota.until, now), quota := Some(quota))
  }

  /** The stored effect of `accept_result`, `defer_quota` or `finish_failed_run`, up to where retries take over. */
  function CompleteRun(db: Db, id: JobId, outcome: Outcome, now: int): (next: Db)
  {
    var found := Find(db.jobs, id);
    if found.None? || found.value.lease.Released? then db
    else
      var job := found.value;
      match outcome
      case Refused => Put(db, Finished(job, 0, now))
      case Failed(active) => Put(db, Finished(job, active, now))
      case Accepted(active) =>
        db.(jobs := AcceptRows(db.jobs, job, active, now), quota := ProviderQuota.Recovered(db.quota, LeasedSince(job)))
      case AcceptedInPart(active) =>
        db.(jobs := StoreRows(db.jobs, job, active, now), quota := ProviderQuota.Recovered(db.quota, LeasedSince(job)))
      case QuotaHit(active, delay) => Paused(db, job, active, delay, now)
  }

  /** The end of a run touches its job and, through a quota failure or a success, the provider's quota. */
  lemma CompleteFrame(db: Db, id: JobId, outcome: Outcome, now: int)
    ensures var next := CompleteRun(db, id, outcome, now); next == db.(jobs := next.jobs, quota := next.quota)
  {
    var found := Find(db.jobs, id);
    if found.Some? && !found.value.lease.Released? && outcome.QuotaHit? {
      var paused := Paused(db, found.value, outcome.active, outcome.delay, now);
      assert paused == db.(jobs := paused.jobs, quota := paused.quota);
    }
  }
}
