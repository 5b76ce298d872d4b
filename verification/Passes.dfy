/** Which job a pass of `prepare_run` starts: the first candidate, triage before the rest, that is ready when the pass begins. */
module Passes {
  import opened Contracts
  import opened JobStore
  import opened Tables
  import opened Scheduling
  import opened Lifecycle
  import opened Preparation
  import opened Turns
  import Launches
  import Leases
  import Recovery
  import ProviderQuota
  import Exclusion
  import opened Runs

  // ---------------------------------------------------------------- a failed turn

  /** Seconds before the next attempt: half a minute, doubled at each, up to a quarter of an hour. */
  ghost function Delay(attempts: nat): (n: int)
  {
    match attempts case 0 => 30 case 1 => 60 case 2 => 120 case 3 => 240 case 4 => 480 case _ => 900
  }

  lemma DelayExactly(attempts: nat)
    ensures RetryDelay(attempts + 1) == Delay(attempts)
  {
    assert ProviderQuota.Pow2(0) == 1 && ProviderQuota.Pow2(1) == 2 && ProviderQuota.Pow2(2) == 4;
    assert ProviderQuota.Pow2(3) == 8 && ProviderQuota.Pow2(4) == 16;
    if attempts >= 5 {
      assert ProviderQuota.Pow2(5) == 2 * ProviderQuota.Pow2(4);
      ProviderQuota.Pow2Grows(5, attempts);
    }
  }

  /** A job of the table that is not cancelled. */
  ghost predicate Stored(db: Db, job: Job) { Sound(db.jobs) && Find(db.jobs, job.id) == Some(job) && !job.cancelled }

  function Onward(job: Job): (status: Status) { if job.hasResult then ResultReady else Queued }

  lemma StoredEditBecomes(db: Db, job: Job, e: Edit)
    requires Stored(db, job) && Allowed(job, e)
    ensures Becomes(db, EditedRows(db, job.id, e), Edited(job, e).(status := if Edited(job, e).cancelled then Cancelled else Edited(job, e).status))
    ensures EditedRows(db, job.id, e) == db.(jobs := EditedRows(db, job.id, e).jobs)
  {
    Recovery.SaveReplaces(db.jobs, Edited(job, e));
  }

  /** The failed attempt loses its mark of a resumed run first. */
  lemma Unmarks(db: Db, job: Job)
    requires Stored(db, job)
    ensures var before := EditedRows(db, job.id, FULL_PRICE);
            && Stored(before, job.(quotaResume := false)) && Becomes(db, before, job.(quotaResume := false))
            && before == db.(jobs := before.jobs)
  {
    StoredEditBecomes(db, job, FULL_PRICE);
  }

  lemma BecomesTwice(db: Db, before: Db, next: Db, first: Job, second: Job)
    requires Becomes(db, before, first) && Becomes(before, next, second) && first.id == second.id
    ensures Becomes(db, next, second)
  {
  }

  /** An owner's comments hold the job's issue, and it is not their triage. */
  ghost predicate AwaitsOwner(db: Db, job: Job) { job.stage != Triage && job.issue.Some? && job.issue.value in db.holds }

  /** While its owner is awaited a job whose dependency failed goes back in line. */
  lemma FailedTurnAwaitsOwner(db: Db, job: Job, retries: nat, now: int)
    requires Stored(db, job) && AwaitsOwner(db, job)
    ensures Becomes(db, Retry(db, job.id, retries, now),
                    job.(quotaResume := false, status := Onward(job), awaitsLaunch := false))
  {
    Unmarks(db, job);
    var before, unmarked := EditedRows(db, job.id, FULL_PRICE), job.(quotaResume := false);
    BackInLineBecomes(before, unmarked);
    BecomesTwice(db, before, EditedRows(before, job.id, BackInLine(unmarked)), unmarked,
                 unmarked.(status := Onward(job), awaitsLaunch := false));
  }

  /** With retries left it counts the attempt and waits, longer each time. */
  lemma FailedTurnWaits(db: Db, job: Job, retries: nat, now: int)
    requires Stored(db, job) && !AwaitsOwner(db, job) && job.attempts + 1 < retries
    ensures Becomes(db, Retry(db, job.id, retries, now),
                    job.(quotaResume := false, status := Onward(job), awaitsLaunch := false,
                         attempts := job.attempts + 1, nextAt := now + Delay(job.attempts)))
  {
    Unmarks(db, job);
    var before, unmarked := EditedRows(db, job.id, FULL_PRICE), job.(quotaResume := false);
    LaterBecomes(before, unmarked, now);
    BecomesTwice(db, before, EditedRows(before, job.id, Later(unmarked, now)), unmarked,
                 unmarked.(status := Onward(job), awaitsLaunch := false,
                           attempts := job.attempts + 1, nextAt := now + Delay(job.attempts)));
  }

  /** With none left it goes to people with its incident. */
  lemma FailedTurnEscalates(db: Db, job: Job, retries: nat, now: int)
    requires Stored(db, job) && !AwaitsOwner(db, job) && job.attempts + 1 >= retries
    ensures Escalates(db, Retry(db, job.id, retries, now), job.(quotaResume := false))
  {
    Unmarks(db, job);
    var before, unmarked := EditedRows(db, job.id, FULL_PRICE), job.(quotaResume := false);
    StoredHandOverEscalates(before, unmarked);
    EscalatesAfter(db, before, HandOver(before, job.id), unmarked);
  }

  lemma EscalatesAfter(db: Db, before: Db, next: Db, job: Job)
    requires Becomes(db, before, job) && before == db.(jobs := before.jobs) && Escalates(before, next, job)
    ensures Escalates(db, next, job)
  {
  }

  lemma BackInLineBecomes(db: Db, job: Job)
    requires Stored(db, job)
    ensures Becomes(db, EditedRows(db, job.id, BackInLine(job)), job.(status := Onward(job), awaitsLaunch := false))
  {
    StoredEditBecomes(db, job, BackInLine(job));
  }

  lemma LaterBecomes(db: Db, job: Job, now: int)
    requires Stored(db, job)
    ensures Becomes(db, EditedRows(db, job.id, Later(job, now)),
                    job.(status := Onward(job), awaitsLaunch := false, attempts := job.attempts + 1, nextAt := now + Delay(job.attempts)))
  {
    DelayExactly(job.attempts);
    StoredEditBecomes(db, job, Later(job, now));
  }

  lemma StoredHandOverEscalates(db: Db, job: Job)
    requires Stored(db, job)
    ensures Escalates(db, HandOver(db, job.id), job)
  {
    StoredEditBecomes(db, job, FOR_HUMAN);
    var edited := EditedRows(db, job.id, FOR_HUMAN);
    assert HandOver(db, job.id) == Escalate(edited, job.signature);
  }

  lemma CancelledIsNotHandedOver(db: Db, id: JobId)
    requires Find(db.jobs, id).Some? ==> Find(db.jobs, id).value.cancelled
    ensures HandOver(db, id) == db
  {
  }

  // ---------------------------------------------------------------- a skipped turn changes nobody else's budget

  /** Only this job's row is replaced, by one that counts the same. */
  ghost predicate Alike(rows: seq<Row>, next: seq<Row>, job: Job)
  {
    && Mirrored(next) && Without(next, job.id) == Without(rows, job.id) && Find(next, job.id).Some?
    && var after := Find(next, job.id).value;
       && after.id == job.id && after.stage == job.stage && after.issue == job.issue && after.activeSeconds == job.activeSeconds
       && after.rounds == job.rounds && after.cancelled == job.cancelled
  }

  lemma EditIsAlike(db: Db, job: Job, e: Edit)
    requires Mirrored(db.jobs) && Find(db.jobs, job.id) == Some(job) && Allowed(job, e)
    requires e.stage.None? && e.issue.None? && e.rounds.None?
    ensures Alike(db.jobs, EditedRows(db, job.id, e).jobs, job)
  {
    EditStores(db.jobs, job.id, e);
    WithoutSaved(db.jobs, Edited(job, e));
  }

  lemma AlikeTwice(a: seq<Row>, b: seq<Row>, c: seq<Row>, job: Job)
    requires Alike(a, b, job) && Alike(b, c, Find(b, job.id).value)
    ensures Alike(a, c, job)
  {
  }

  lemma HandOverIsAlike(db: Db, job: Job)
    requires Mirrored(db.jobs) && Find(db.jobs, job.id) == Some(job) && !job.cancelled
    ensures Alike(db.jobs, HandOver(db, job.id).jobs, job)
  {
    EditIsAlike(db, job, FOR_HUMAN);
  }

  lemma RetryIsAlike(db: Db, job: Job, retries: nat, now: int)
    requires Mirrored(db.jobs) && Find(db.jobs, job.id) == Some(job) && !job.cancelled
    ensures Alike(db.jobs, Retry(db, job.id, retries, now).jobs, job)
  {
    EditIsAlike(db, job, FULL_PRICE);
    var before := EditedRows(db, job.id, FULL_PRICE);
    var unmarked := Find(before.jobs, job.id).value;
    if Blocked(before, unmarked) {
      EditIsAlike(before, unmarked, BackInLine(unmarked));
    } else if unmarked.attempts + 1 >= retries {
      HandOverIsAlike(before, unmarked);
    } else {
      EditIsAlike(before, unmarked, Later(unmarked, now));
    }
    AlikeTwice(db.jobs, before.jobs, Retry(db, job.id, retries, now).jobs, job);
  }

  lemma SkipIsAlike(db: Db, job: Job, ready: Readiness, retries: nat, now: int)
    requires Candidate(db, job) && !NotYet(db, job, now) && Consider(db, job, ready, retries, now).1 == Skipped
    ensures Alike(db.jobs, Consider(db, job, ready, retries, now).0.jobs, job)
  {
    if OverBudget(db, job) {
      HandOverIsAlike(db, job);
    } else if JobLaunchAfter(db, job, now) > now {
      EditIsAlike(db, job, AllowanceWait(JobLaunchAfter(db, job, now)));
    } else {
      match ready
      case Unavailable => RetryIsAlike(db, job, retries, now);
      case OutOfScope => HandOverIsAlike(db, job);
      case AlreadyDone => EditIsAlike(db, job, FINISHED_ELSEWHERE);
      case Prepared =>
    }
  }

  lemma AlikeSpends(rows: seq<Row>, next: seq<Row>, job: Job, issue: nat)
    requires Mirrored(rows) && Find(rows, job.id) == Some(job) && Alike(rows, next, job)
    ensures Spent(next, issue) == Spent(rows, issue)
  {
    SpentSplits(rows, job.id, issue);
    SpentSplits(next, job.id, issue);
  }

  lemma AlikeCycles(db: Db, next: Db, job: Job, issue: nat)
    requires Mirrored(db.jobs) && Find(db.jobs, job.id) == Some(job) && Alike(db.jobs, next.jobs, job) && next.starts == db.starts
    ensures Cycles(next, issue) == Cycles(db, issue)
  {
    CyclesSplit(db, db.jobs, job.id, issue);
    CyclesSplit(db, next.jobs, job.id, issue);
    SameStarts(IssueJobs(next.jobs, Some(issue)), db, next);
  }

  lemma {:induction false} SameStarts(jobs: seq<Job>, db: Db, next: Db)
    requires next.starts == db.starts
    ensures CyclesOf(jobs, db) == CyclesOf(jobs, next)
  {
    if jobs != [] { SameStarts(jobs[..|jobs| - 1], db, next); }
  }

  // ---------------------------------------------------------------- who is ready

  /** A candidate that a pass would start: it is its turn, its budget and the allowance have room, and its context is built. */
  ghost predicate Ready(db: Db, job: Job, ready: Readiness, now: int)
  {
    !NotYet(db, job, now) && !Exceeded(db, job) && JobLaunchAfter(db, job, now) <= now && ready == Prepared
  }

  /** The gates of a pass, and its candidates still as they were listed. */
  ghost predicate Steady(db: Db, jobs: seq<Job>, now: int)
  {
    && db.enabled && ProviderAvailable(db, now) && Leases.Idle(db.jobs) && DistinctIds(jobs)
    && forall i :: 0 <= i < |jobs| ==> Candidate(db, jobs[i])
  }

  lemma TimeIsLeft(db: Db, job: Job)
    requires Candidate(db, job) && !Exceeded(db, job)
    ensures job.activeSeconds < Launches.Left(db, job)
  {
    if job.issue.Some? { SpentSplits(db.jobs, job.id, job.issue.value); }
  }

  lemma ContextKeepsIdle(db: Db, job: Job)
    requires Candidate(db, job) && Leases.Idle(db.jobs)
    ensures WithStatus(WithItsContext(db, job).jobs, {Running}) == []
  {
    var prepared := WithItsContext(db, job);
    Recovery.SaveReplaces(db.jobs, job.(hasContext := true));
    forall k ensures !Leases.IsRunning(prepared.jobs, k) {
      assert !Leases.IsRunning(db.jobs, k);
    }
    Leases.IdleIsNoneListed(prepared.jobs);
  }

  lemma ReadyTurnLaunches(db: Db, job: Job, ready: Readiness, retries: nat, now: int)
    requires Steady(db, [job], now) && Ready(db, job, ready, now)
    ensures Consider(db, job, ready, retries, now).1 == Launched
  {
    assert Candidate(db, [job][0]);
    OverBudgetExactly(db, job);
    TimeIsLeft(db, job);
    ContextKeepsLeft(db, job);
    ContextKeepsIdle(db, job);
    Recovery.SaveReplaces(db.jobs, job.(hasContext := true));
    var prepared := WithItsContext(db, job);
    assert Find(prepared.jobs, job.id) == Some(job.(hasContext := true));
    assert ClaimRefusal(prepared, job.id, now).None?;
  }

  lemma UnreadyTurnSkips(db: Db, job: Job, ready: Readiness, retries: nat, now: int)
    requires !Ready(db, job, ready, now)
    ensures Consider(db, job, ready, retries, now).1 == Skipped
  {
    OverBudgetExactly(db, job);
  }

  lemma SameBudgetsSameReadiness(db: Db, next: Db, job: Job, mine: Readiness, now: int)
    requires next == db.(jobs := next.jobs, incidents := next.incidents)
    requires job.issue.Some? ==>
               Spent(next.jobs, job.issue.value) == Spent(db.jobs, job.issue.value)
               && Cycles(next, job.issue.value) == Cycles(db, job.issue.value)
    ensures Ready(next, job, mine, now) == Ready(db, job, mine, now)
  {
    assert Exceeded(next, job) == Exceeded(db, job);
    assert JobLaunchAfter(next, job, now) == JobLaunchAfter(db, job, now);
  }

  /** After another candidate's skipped turn a candidate is as ready as before. */
  lemma SkipKeepsReady(db: Db, skipped: Job, ready: Readiness, retries: nat, now: int, job: Job, mine: Readiness)
    requires Candidate(db, skipped) && Candidate(db, job) && job.id != skipped.id
    requires Consider(db, skipped, ready, retries, now).1 == Skipped
    ensures Ready(Consider(db, skipped, ready, retries, now).0, job, mine, now) == Ready(db, job, mine, now)
  {
    if !NotYet(db, skipped, now) {
      var next := Consider(db, skipped, ready, retries, now).0;
      ConsiderTouches(db, skipped, ready, retries, now);
      SkipIsAlike(db, skipped, ready, retries, now);
      if job.issue.Some? {
        AlikeSpends(db.jobs, next.jobs, skipped, job.issue.value);
        AlikeCycles(db, next, skipped, job.issue.value);
      }
      SameBudgetsSameReadiness(db, next, job, mine, now);
    }
  }

  /** After a skipped turn the rest of the pass stands as before. */
  lemma SkipKeepsSteady(db: Db, jobs: seq<Job>, ready: Readiness, retries: nat, now: int)
    requires jobs != [] && Steady(db, jobs, now) && Consider(db, jobs[0], ready, retries, now).1 == Skipped
    ensures Steady(Consider(db, jobs[0], ready, retries, now).0, jobs[1..], now)
  {
    assert Candidate(db, jobs[0]);
    var next := Consider(db, jobs[0], ready, retries, now).0;
    ConsiderTouches(db, jobs[0], ready, retries, now);
    SkippedIsSound(db, jobs[0], ready, retries, now);
    forall k ensures !Leases.IsRunning(next.jobs, k) { assert !Leases.IsRunning(db.jobs, k); }
    forall i | 0 <= i < |jobs[1..]| ensures Candidate(next, jobs[1..][i]) {
      assert jobs[1..][i] == jobs[i + 1] && Candidate(db, jobs[i + 1]);
    }
  }

  lemma FailedTurnIsSound(db: Db, job: Job, retries: nat, now: int)
    requires Stored(db, job)
    ensures Sound(Retry(db, job.id, retries, now).jobs) && !Leases.IsRunning(Retry(db, job.id, retries, now).jobs, job.id)
  {
    if AwaitsOwner(db, job) {
      FailedTurnAwaitsOwner(db, job, retries, now);
    } else if job.attempts + 1 < retries {
      FailedTurnWaits(db, job, retries, now);
    } else {
      FailedTurnEscalates(db, job, retries, now);
    }
  }

  lemma SkippedIsSound(db: Db, job: Job, ready: Readiness, retries: nat, now: int)
    requires Candidate(db, job) && Consider(db, job, ready, retries, now).1 == Skipped
    ensures var next := Consider(db, job, ready, retries, now).0; Sound(next.jobs) && !Leases.IsRunning(next.jobs, job.id)
  {
    if NotYet(db, job, now) {
      WaitingTurnChangesNothing(db, job, ready, retries, now);
    } else if Exceeded(db, job) || (JobLaunchAfter(db, job, now) <= now && ready == OutOfScope) {
      SpentTurnEscalates(db, job, ready, retries, now);
    } else if JobLaunchAfter(db, job, now) > now {
      LateTurnWaits(db, job, ready, retries, now);
    } else if ready == AlreadyDone {
      FinishedTurnEnds(db, job, retries, now);
    } else {
      OverBudgetExactly(db, job);
      FailedTurnIsSound(db, job, retries, now);
    }
  }

  /** The first ready candidate. */
  ghost predicate FirstReady(db: Db, jobs: seq<Job>, ready: JobId -> Readiness, now: int, i: nat)
  {
    && i < |jobs| && Ready(db, jobs[i], ready(jobs[i].id), now)
    && forall k :: 0 <= k < i ==> !Ready(db, jobs[k], ready(jobs[k].id), now)
  }

  lemma FirstReadyLater(db: Db, jobs: seq<Job>, ready: JobId -> Readiness, retries: nat, now: int, i: nat)
    requires Steady(db, jobs, now) && 0 < i < |jobs|
    requires Consider(db, jobs[0], ready(jobs[0].id), retries, now).1 == Skipped
    ensures Ready(Consider(db, jobs[0], ready(jobs[0].id), retries, now).0, jobs[i], ready(jobs[i].id), now)
            == Ready(db, jobs[i], ready(jobs[i].id), now)
  {
    assert Candidate(db, jobs[0]) && Candidate(db, jobs[i]);
    SkipKeepsReady(db, jobs[0], ready(jobs[0].id), retries, now, jobs[i], ready(jobs[i].id));
  }

  lemma {:induction false} FirstReadyStarts(db: Db, jobs: seq<Job>, ready: JobId -> Readiness, retries: nat, now: int, i: nat)
    requires Steady(db, jobs, now) && FirstReady(db, jobs, ready, now, i)
    ensures ConsiderAll(db, jobs, ready, retries, now).1 == Some(jobs[i].id)
    decreases i
  {
    assert Candidate(db, jobs[0]);
    if i == 0 {
      ReadyTurnLaunches(db, jobs[0], ready(jobs[0].id), retries, now);
    } else {
      UnreadyTurnSkips(db, jobs[0], ready(jobs[0].id), retries, now);
      SkipKeepsSteady(db, jobs, ready(jobs[0].id), retries, now);
      var next := Consider(db, jobs[0], ready(jobs[0].id), retries, now).0;
      forall k: nat | 0 < k <= i
        ensures Ready(next, jobs[1..][k - 1], ready(jobs[1..][k - 1].id), now) == Ready(db, jobs[k], ready(jobs[k].id), now)
      {
        FirstReadyLater(db, jobs, ready, retries, now, k);
      }
      assert FirstReady(next, jobs[1..], ready, now, i - 1);
      FirstReadyStarts(next, jobs[1..], ready, retries, now, i - 1);
    }
  }

  lemma {:induction false} NoneReadyStartsNone(db: Db, jobs: seq<Job>, ready: JobId -> Readiness, retries: nat, now: int)
    requires Steady(db, jobs, now) && forall k :: 0 <= k < |jobs| ==> !Ready(db, jobs[k], ready(jobs[k].id), now)
    ensures ConsiderAll(db, jobs, ready, retries, now).1 == None
    decreases |jobs|
  {
    if jobs != [] {
      UnreadyTurnSkips(db, jobs[0], ready(jobs[0].id), retries, now);
      SkipKeepsSteady(db, jobs, ready(jobs[0].id), retries, now);
      var next := Consider(db, jobs[0], ready(jobs[0].id), retries, now).0;
      forall k | 0 <= k < |jobs[1..]| ensures !Ready(next, jobs[1..][k], ready(jobs[1..][k].id), now) {
        FirstReadyLater(db, jobs, ready, retries, now, k + 1);
      }
      NoneReadyStartsNone(next, jobs[1..], ready, retries, now);
    }
  }

  /** A queued job of the table that is ready as the pass begins. */
  ghost predicate ReadyNow(db: Db, k: JobId, ready: JobId -> Readiness, now: int)
  {
    Find(db.jobs, k).Some? && Find(db.jobs, k).value.status == Queued && Ready(db, Find(db.jobs, k).value, ready(k), now)
  }

  lemma CandidatesAreSteady(db: Db, now: int)
    requires Sound(db.jobs) && db.enabled && ProviderAvailable(db, now) && Leases.Idle(db.jobs)
    ensures Steady(db, Candidates(db.jobs), now)
    ensures forall job :: job in Candidates(db.jobs) <==> Find(db.jobs, job.id) == Some(job) && job.status == Queued
  {
    CandidatesAreQueued(db.jobs);
    var jobs := Candidates(db.jobs);
    forall i | 0 <= i < |jobs| ensures Candidate(db, jobs[i]) { assert jobs[i] in jobs; }
  }

  lemma {:induction false} FindFirstReady(db: Db, jobs: seq<Job>, ready: JobId -> Readiness, now: int, j: nat) returns (i: nat)
    requires j < |jobs| && Ready(db, jobs[j], ready(jobs[j].id), now)
    ensures FirstReady(db, jobs, ready, now, i) && i <= j
    decreases j
  {
    i := j;
    if k: nat :| k < j && Ready(db, jobs[k], ready(jobs[k].id), now) {
      i := FindFirstReady(db, jobs, ready, now, k);
    }
  }

  /** A pass of an enabled service with the quota open and no agent running starts an agent if and only if some queued job is
      ready as the pass begins, however many others it delays or hands over on its way. */
  lemma PassStartsExactly(db: Db, ready: JobId -> Readiness, retries: nat, now: int)
    requires Sound(db.jobs) && db.enabled && ProviderAvailable(db, now) && Leases.Idle(db.jobs)
    ensures Prepare(db, ready, retries, now).1.Some? <==> exists k :: ReadyNow(db, k, ready, now)
    ensures Prepare(db, ready, retries, now).1.Some? ==> ReadyNow(db, Prepare(db, ready, retries, now).1.value, ready, now)
  {
    CandidatesAreSteady(db, now);
    var jobs := Candidates(db.jobs);
    if k :| ReadyNow(db, k, ready, now) {
      FindIsRow(db.jobs, k);
      assert Find(db.jobs, k).value in jobs;
      var j :| 0 <= j < |jobs| && jobs[j] == Find(db.jobs, k).value;
      var i := FindFirstReady(db, jobs, ready, now, j);
      FirstReadyStarts(db, jobs, ready, retries, now, i);
      assert jobs[i] in jobs && ReadyNow(db, jobs[i].id, ready, now);
    } else {
      forall i | 0 <= i < |jobs| ensures !Ready(db, jobs[i], ready(jobs[i].id), now) {
        assert jobs[i] in jobs && !ReadyNow(db, jobs[i].id, ready, now);
      }
      NoneReadyStartsNone(db, jobs, ready, retries, now);
    }
  }

  /** In any world a run reaches with the service up, enabled and without an agent, and the quota open: a pass starts an agent
      exactly when a queued job is ready. */
  lemma IdleServiceStartsReady(w: World, ops: seq<Op>, ready: JobId -> Readiness, retries: nat)
    requires Installed(w) && Possible(w, ops)
    requires var last := Run(w, ops); last.service == Up(None) && last.db.enabled && ProviderAvailable(last.db, last.now)
    ensures var last := Run(w, ops);
            Prepare(last.db, ready, retries, last.now).1.Some? <==> exists k :: ReadyNow(last.db, k, ready, last.now)
  {
    Exclusion.InstallationIsSane(w);
    Exclusion.RunsAreSane(w, ops);
    var last := Run(w, ops);
    forall k ensures !Leases.IsRunning(last.db.jobs, k) { assert !Leases.HoldsLease(last.db.jobs, k); }
    PassStartsExactly(last.db, ready, retries, last.now);
  }
}
