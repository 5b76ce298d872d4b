/** Claiming, finishing and recovering agent runs: what each `State` operation does to the tables. */
module Scheduling {
  import opened Contracts
  import opened JobStore
  import opened LaunchWindows
  import opened Tables
  import ProviderQuota

  datatype ClaimError = UnknownJob | Disabled | WaitingForQuota | CannotStart | LeaseOwned | BudgetExhausted | AllowanceUsed

  datatype FinishError = NoSuchJob | NoLease

  // ---------------------------------------------------------------- allowances

  predicate Started(db: Db, id: JobId) { exists s :: s in db.starts && s.job == id }

  function DeepTimes(starts: seq<Start>): (times: seq<int>)
  {
    if starts == [] then []
    else
      var init := DeepTimes(starts[..|starts| - 1]);
      var last := starts[|starts| - 1];
      if last.kind.DeepStart? then init + [last.at] else init
  }

  /** Launch times with an id in `(after, through]`. */
  function Segment(launches: seq<Launch>, after: nat, through: nat): (times: seq<int>)
  {
    if launches == [] then []
    else
      var init := Segment(launches[..|launches| - 1], after, through);
      var last := launches[|launches| - 1];
      if after < last.id <= through then init + [last.at] else init
  }

  function LastLaunch(launches: seq<Launch>): (n: nat)
  {
    if launches == [] then 0 else launches[|launches| - 1].id
  }

  function ResetThrough(db: Db): (n: nat) { if db.reset.Some? then db.reset.value.through else 0 }

  /** Launches that count against the short-run allowance. */
  function Counted(db: Db): (times: seq<int>) { Segment(db.launches, ResetThrough(db), LastLaunch(db.launches)) }

  function JobLaunchAfter(db: Db, job: Job, now: int): (n: int)
  {
    if Short(job) then
      if job.quotaResume then 0 else LaunchAfter(Counted(db), INITIAL_LIMIT, now)
    else if Started(db, job.id) then 0
    else LaunchAfter(DeepTimes(db.starts), DEEP_LIMIT, now)
  }

  // ---------------------------------------------------------------- claim

  /** Time a run may take: a repair job shares its issue's budget with the issue's other repair jobs. */
  function Budget(db: Db, job: Job): (n: int)
  {
    if Short(job) then INITIAL_SECONDS
    else if job.issue.Some? then DEEP_SECONDS - Spent(Without(db.jobs, job.id), job.issue.value)
    else DEEP_SECONDS
  }

  function ClaimRefusal(db: Db, id: JobId, now: int): (result: Option<ClaimError>)
  {
    var found := Find(db.jobs, id);
    if found.None? then Some(UnknownJob)
    else
      var job := found.value;
      if !db.enabled then Some(Disabled)
      else if !ProviderAvailable(db, now) then Some(WaitingForQuota)
      else if job.cancelled || job.status != Queued then Some(CannotStart)
      else if WithStatus(db.jobs, {Running}) != [] then Some(LeaseOwned)
      else if job.activeSeconds >= Budget(db, job) then Some(BudgetExhausted)
      else if JobLaunchAfter(db, job, now) > now then Some(AllowanceUsed)
      else None
  }

  /** A short run counts as a launch unless it resumes after a quota failure; a job's first run is its start. */
  function Recorded(db: Db, job: Job, now: int): (next: Db)
  {
    db.(launches := if Short(job) && !job.quotaResume
                    then db.launches + [Launch(LastLaunch(db.launches) + 1, job.id, now)]
                    else db.launches,
        starts := if Started(db, job.id) then db.starts
                  else db.starts + [Start(job.id, if Short(job) then ShortStart else DeepStart, now)])
  }

  function Claim(db: Db, id: JobId, now: int): (result: Result<Db, ClaimError>)
  {
    var refusal := ClaimRefusal(db, id, now);
    if refusal.Some? then Err(refusal.value)
    else
      var job := Find(db.jobs, id).value;
      Ok(Put(Recorded(db, job, now), job.(status := Running, lease := Held(now), remainingSeconds := Budget(db, job) - job.activeSeconds)))
  }

  // ---------------------------------------------------------------- finish and recover

  function Finished(job: Job, active: int, now: int): (next: Job)
    requires !job.lease.Released?
  {
    var leased := if job.lease.Held? then now - job.lease.since else 0;
    var elapsed := Max(0, Max(leased, active));
    job.(activeSeconds := Min(StageLimit(job), job.activeSeconds + elapsed),
         lease := Released,
         status := if job.cancelled then Cancelled else Processing)
  }

  /** `finish_run` needs a lease field that is absent or a time: after a finish it is null and the arithmetic fails. */
  function Finish(db: Db, id: JobId, active: int, now: int): (result: Result<Db, FinishError>)
  {
    var found := Find(db.jobs, id);
    if found.None? then Err(NoSuchJob)
    else if found.value.lease.Released? then Err(NoLease)
    else Ok(Put(db, Finished(found.value, active, now)))
  }

  /** Where a job whose run ended goes: on to its saved result, or back to the queue. */
  function Resumption(job: Job): (status: Status) { if job.hasResult then ResultReady else Queued }

  function Resuming(job: Job): (change: Job -> Job) { (current: Job) => current.(status := Resumption(job)) }

  /** Recovery's first loop ends every lease, one job read before the loop at a time. */
  function RecoverLease(rows: seq<Row>, job: Job, now: int): (next: seq<Row>)
  {
    var found := Find(rows, job.id);
    if found.None? || found.value.lease.Released? then rows
    else
      var finished := Save(rows, Finished(found.value, 0, now));
      if job.cancelled then finished else Update(finished, job.id, Resuming(job))
  }

  function RecoverLeases(rows: seq<Row>, held: seq<Job>, now: int): (next: seq<Row>)
    decreases |held|
  {
    if held == [] then rows else RecoverLeases(RecoverLease(rows, held[0], now), held[1..], now)
  }

  function ResumeAll(rows: seq<Row>, jobs: seq<Job>): (next: seq<Row>)
    decreases |jobs|
  {
    if jobs == [] then rows else ResumeAll(Update(rows, jobs[0].id, Resuming(jobs[0])), jobs[1..])
  }

  /** The first write of a lease's recovery. */
  function FinishLease(rows: seq<Row>, job: Job, now: int): (next: seq<Row>)
  {
    var found := Find(rows, job.id);
    if found.None? || found.value.lease.Released? then rows else Save(rows, Finished(found.value, 0, now))
  }

  /** The first `writes` writes of recovery's first loop, two for each lease. */
  function EndSome(rows: seq<Row>, held: seq<Job>, now: int, writes: nat): (next: seq<Row>)
    decreases |held|
  {
    if held == [] || writes == 0 then rows
    else if writes == 1 then FinishLease(rows, held[0], now)
    else EndSome(RecoverLease(rows, held[0], now), held[1..], now, writes - 2)
  }

  function HeldJobs(rows: seq<Row>): (jobs: seq<Job>) { Select(rows, (row: Row) => row.data.lease.Held?) }

  function Recover(db: Db, now: int): (next: Db)
  {
    var released := RecoverLeases(db.jobs, HeldJobs(db.jobs), now);
    db.(jobs := ResumeAll(released, WithStatus(released, {Processing})))
  }

  /** What a recovery that dies has stored: each of its writes is a transaction of its own. */
  function RecoverPart(db: Db, now: int, writes: nat): (next: Db)
  {
    var held := HeldJobs(db.jobs);
    if writes <= 2 * |held| then db.(jobs := EndSome(db.jobs, held, now, writes))
    else
      var released := RecoverLeases(db.jobs, held, now);
      var processing := WithStatus(released, {Processing});
      db.(jobs := ResumeAll(released, processing[..Min(writes - 2 * |held|, |processing|)]))
  }

  // ---------------------------------------------------------------- operator reset of the short allowance

  function Release(job: Job): (next: Job) { job.(nextAt := 0, awaitsLaunch := false) }

  predicate Releasable(job: Job) { Short(job) && job.awaitsLaunch }

  /** Releases waiting jobs in listing order. */
  function ReleaseAll(rows: seq<Row>, jobs: seq<Job>): (next: seq<Row>)
    decreases |jobs|
  {
    if jobs == [] then rows
    else ReleaseAll(if Releasable(jobs[0]) then Update(rows, jobs[0].id, Release) else rows, jobs[1..])
  }

  function CountReleasable(jobs: seq<Job>): (n: nat)
    decreases |jobs|
  {
    if jobs == [] then 0 else CountReleasable(jobs[1..]) + if Releasable(jobs[0]) then 1 else 0
  }

  function ResetInitialQuota(db: Db, request: string, now: int): (result: (Db, ResetReceipt))
  {
    if request in db.resets then (db, db.resets[request])
    else
      var queued := WithStatus(db.jobs, {Queued});
      var receipt := ResetReceipt(request, now, CountSince(Counted(db), now - DAY), LastLaunch(db.launches), CountReleasable(queued));
      (db.(jobs := ReleaseAll(db.jobs, queued), reset := Some(receipt), resets := db.resets[request := receipt]), receipt)
  }
}
