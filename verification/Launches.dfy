/** What a claim writes about an agent's start, and the daily limits over the starts themselves. */
module Launches {
  import opened Contracts
  import opened JobStore
  import opened LaunchWindows
  import opened Tables
  import opened Scheduling
  import opened Lifecycle
  import opened Runs
  import opened Pacing
  import ProviderQuota
  import History
  import Exclusion
  import Leases

  // ---------------------------------------------------------------- the starts and resets that happened

  /** Times of the counted starts since the last reset of the allowance. */
  function SinceReset(log: seq<Happening>): (times: seq<int>)
  {
    if log == [] then []
    else
      match log[|log| - 1]
      case AllowanceReset => []
      case Began(_, _, counted, at) => SinceReset(log[..|log| - 1]) + if counted then [at] else []
  }

  ghost predicate Occurs(log: seq<Happening>, id: JobId) { exists i :: 0 <= i < |log| && log[i].Began? && log[i].job == id }

  /** Times of the first start of each repair job. */
  ghost function FirstRepairs(log: seq<Happening>): (times: seq<int>)
  {
    if log == [] then []
    else
      var init := log[..|log| - 1];
      match log[|log| - 1]
      case AllowanceReset => FirstRepairs(init)
      case Began(id, short, _, at) => FirstRepairs(init) + if !short && !Occurs(init, id) then [at] else []
  }

  // ---------------------------------------------------------------- what a claim writes

  /** The launch log after a start: a counted start adds one row, above every earlier id, and no other start adds any. */
  ghost predicate LaunchLogged(before: seq<Launch>, after: seq<Launch>, h: Happening)
    requires h.Began?
  {
    if h.counted then
      exists n :: after == before + [Launch(n, h.job, h.at)] && forall l :: l in before ==> l.id < n
    else after == before
  }

  /** The starts after a start: a job's first one adds a row of its kind, and a later one adds none. */
  ghost predicate StartLogged(before: seq<Start>, after: seq<Start>, h: Happening)
    requires h.Began?
  {
    if exists s :: s in before && s.job == h.job then after == before
    else after == before + [Start(h.job, if h.short then ShortStart else DeepStart, h.at)]
  }

  lemma RowsBelowNext(launches: seq<Launch>, now: int)
    requires LaunchesInOrder(launches, now)
    ensures LastLaunch(launches) == |launches| && forall l :: l in launches ==> l.id < |launches| + 1
  {
    forall l | l in launches ensures l.id < |launches| + 1 {
      var i :| 0 <= i < |launches| && launches[i] == l;
    }
  }

  /** A claim that succeeds logs the launch it counts and the start that is its job's first, and nothing else. */
  lemma ClaimLogsItsStart(db: Db, id: JobId, now: int)
    requires Mirrored(db.jobs) && LaunchesInOrder(db.launches, now) && Claim(db, id, now).Ok?
    ensures Find(db.jobs, id).Some?
    ensures var next, h := Claim(db, id, now).value, Begun(Find(db.jobs, id).value, now);
            && h.job == id
            && LaunchLogged(db.launches, next.launches, h) && StartLogged(db.starts, next.starts, h)
            && next.reset == db.reset && next.resets == db.resets
  {
    FindIsRow(db.jobs, id);
    RowsBelowNext(db.launches, now);
    var next, h := Claim(db, id, now).value, Begun(Find(db.jobs, id).value, now);
    if h.counted { assert next.launches == db.launches + [Launch(|db.launches| + 1, id, now)]; }
  }

  /** Fewer launches than the limit fall in the day that ends now. */
  ghost predicate Room(times: seq<int>, limit: nat, now: int) { CountSince(times, now - DAY) < limit }

  lemma {:induction false} OldestIsSince(times: seq<int>, cut: int)
    ensures CountSince(times, cut) > 0 <==> OldestSince(times, cut).Some?
    ensures OldestSince(times, cut).Some? ==> OldestSince(times, cut).value > cut
  {
    if times != [] { OldestIsSince(times[..|times| - 1], cut); }
  }

  lemma AdmitsExactly(times: seq<int>, limit: nat, now: int)
    requires limit > 0 && now >= 0
    ensures Admits(times, limit, now) <==> Room(times, limit, now)
  {
    OldestIsSince(times, now - DAY);
  }

  /** Seconds an issue's other repair jobs leave to this one, or a short run's own limit. */
  ghost function Left(db: Db, job: Job): (seconds: int)
  {
    if Short(job) then 600
    else if job.issue.Some? then 14400 - Spent(Without(db.jobs, job.id), job.issue.value)
    else 14400
  }

  /** The daily allowance has room for the job, or does not count its start. */
  ghost predicate Allowed(db: Db, job: Job, now: int)
  {
    if Short(job) then job.quotaResume || Room(Counted(db), 30, now)
    else Started(db, job.id) || Room(DeepTimes(db.starts), 10, now)
  }

  /** A claim is refused for the first of these reasons: an unknown job, a disabled service, a review or a closed quota, a job
      that is cancelled or not queued, a running job, no time left, and a used-up allowance: 30 counted short launches since
      the last reset or 10 first starts of repairs. */
  lemma ClaimRefusesInOrder(db: Db, id: JobId, now: int)
    requires Mirrored(db.jobs) && now >= 0
    ensures ClaimRefusal(db, id, now)
            == if Find(db.jobs, id).None? then Some(UnknownJob)
               else
                 var job := Find(db.jobs, id).value;
                 if !db.enabled then Some(Disabled)
                 else if db.slot.Some? || (db.quota.Some? && db.quota.value.until > now) then Some(WaitingForQuota)
                 else if job.cancelled || job.status != Queued then Some(CannotStart)
                 else if !Leases.Idle(db.jobs) then Some(LeaseOwned)
                 else if job.activeSeconds >= Left(db, job) then Some(BudgetExhausted)
                 else if !Allowed(db, job, now) then Some(AllowanceUsed)
                 else None
  {
    FindIsRow(db.jobs, id);
    Leases.IdleIsNoneListed(db.jobs);
    AdmitsExactly(Counted(db), INITIAL_LIMIT, now);
    AdmitsExactly(DeepTimes(db.starts), DEEP_LIMIT, now);
  }

  /** So a claim succeeds exactly when none of them holds. */
  lemma ClaimSucceedsExactly(db: Db, id: JobId, now: int)
    requires Mirrored(db.jobs) && now >= 0
    ensures Claim(db, id, now).Ok? <==>
              && Find(db.jobs, id).Some? && db.enabled && db.slot.None? && (db.quota.Some? ==> db.quota.value.until <= now)
              && var job := Find(db.jobs, id).value;
                 && !job.cancelled && job.status == Queued && Leases.Idle(db.jobs)
                 && job.activeSeconds < Left(db, job) && Allowed(db, job, now)
  {
    ClaimRefusesInOrder(db, id, now);
  }

  lemma PreparationLogsItsStart(db: Db, id: JobId, now: int)
    requires Sound(db.jobs) && LaunchesInOrder(db.launches, now)
    ensures var (next, launched) := PrepareRun(db, id, now);
            && next.reset == db.reset && next.resets == db.resets
            && (launched ==>
                  && Find(db.jobs, id).Some?
                  && var h := Begun(Find(db.jobs, id).value, now);
                     h.job == id && LaunchLogged(db.launches, next.launches, h) && StartLogged(db.starts, next.starts, h))
            && (!launched ==> next.launches == db.launches && next.starts == db.starts)
  {
    History.PrepareFrame(db, id, now);
    var found := Find(db.jobs, id);
    if found.Some? && Preparable(db, found.value, now) {
      var ready := db.(jobs := Update(db.jobs, id, WithContext()));
      FindIsRow(db.jobs, id);
      UpdateStores(db.jobs, id, WithContext());
      if Claim(ready, id, now).Ok? { ClaimLogsItsStart(ready, id, now); }
    }
  }

  // ---------------------------------------------------------------- the tables agree with what happened

  /** The allowance is computed over the starts that happened, and no stretch of them breaks it. */
  ghost predicate Logged(w: World)
  {
    && PacedTables(w.db, w.now)
    && Counted(w.db) == SinceReset(w.log)
    && DeepTimes(w.db.starts) == FirstRepairs(w.log)
    && (forall id :: Started(w.db, id) <==> Occurs(w.log, id))
    && (forall p :: 0 <= p <= |w.log| ==> Sorted(SinceReset(w.log[..p])) && Paced(SinceReset(w.log[..p]), INITIAL_LIMIT))
  }

  lemma SegmentGrows(launches: seq<Launch>, l: Launch, after: nat, now: int)
    requires LaunchesInOrder(launches + [l], now) && after <= |launches|
    ensures Segment(launches + [l], after, LastLaunch(launches + [l])) == Segment(launches, after, LastLaunch(launches)) + [l.at]
  {
    var all := launches + [l];
    assert all[..|launches|] == launches && all[|launches|] == l;
    assert forall i :: 0 <= i < |launches| ==> all[i] == launches[i];
    RowsBelowNext(all, now);
    RowsBelowNext(launches, now);
    SegmentTimes(launches, after, l.id, now);
  }

  lemma CountedGrows(db: Db, next: Db, h: Happening, now: int)
    requires PacedTables(db, now) && h.Began? && LaunchLogged(db.launches, next.launches, h) && next.reset == db.reset
    requires PacedTables(next, now)
    ensures Counted(next) == Counted(db) + if h.counted then [h.at] else []
  {
    if h.counted {
      var n :| next.launches == db.launches + [Launch(n, h.job, h.at)];
      SegmentGrows(db.launches, Launch(n, h.job, h.at), ResetThrough(db), now);
    } else {
      assert Counted(db) + [] == Counted(db);
    }
  }

  lemma DeepTimesGrow(db: Db, next: Db, h: Happening)
    requires h.Began? && StartLogged(db.starts, next.starts, h)
    ensures DeepTimes(next.starts) == DeepTimes(db.starts) + if !h.short && !Started(db, h.job) then [h.at] else []
    ensures forall id :: Started(next, id) <==> Started(db, id) || id == h.job
  {
    if Started(db, h.job) {
      assert DeepTimes(db.starts) + [] == DeepTimes(db.starts);
    } else {
      assert next.starts[..|db.starts|] == db.starts;
      assert next.starts[|db.starts|] in next.starts;
    }
  }

  lemma LogGrows(log: seq<Happening>, h: Happening)
    requires h.Began?
    ensures SinceReset(log + [h]) == SinceReset(log) + if h.counted then [h.at] else []
    ensures FirstRepairs(log + [h]) == FirstRepairs(log) + if !h.short && !Occurs(log, h.job) then [h.at] else []
    ensures forall id :: Occurs(log + [h], id) <==> Occurs(log, id) || id == h.job
  {
    assert (log + [h])[..|log|] == log;
    forall id ensures Occurs(log + [h], id) <==> Occurs(log, id) || id == h.job {
      if Occurs(log, id) {
        var i :| 0 <= i < |log| && log[i].Began? && log[i].job == id;
        assert (log + [h])[i] == log[i];
      }
      if id == h.job { assert (log + [h])[|log|].job == id; }
    }
  }

  lemma CountedIsPaced(db: Db, now: int)
    requires PacedTables(db, now)
    ensures Sorted(Counted(db)) && Paced(Counted(db), INITIAL_LIMIT)
  {
    SegmentTimes(db.launches, ResetThrough(db), LastLaunch(db.launches), now);
    RowsBelowNext(db.launches, now);
    assert Unsplit(db, ResetThrough(db), LastLaunch(db.launches));
  }

  /** One more thing happened, and the tables followed. */
  lemma HappeningKeepsLogged(w: World, next: World, h: Happening)
    requires Logged(w) && next.log == w.log + [h] && PacedTables(next.db, next.now)
    requires Counted(next.db) == SinceReset(next.log) && DeepTimes(next.db.starts) == FirstRepairs(next.log)
    requires forall id :: Started(next.db, id) <==> Occurs(next.log, id)
    ensures Logged(next)
  {
    CountedIsPaced(next.db, next.now);
    forall p | 0 <= p <= |next.log|
      ensures Sorted(SinceReset(next.log[..p])) && Paced(SinceReset(next.log[..p]), INITIAL_LIMIT)
    {
      if p <= |w.log| { assert next.log[..p] == w.log[..p]; } else { assert next.log[..p] == next.log; }
    }
  }

  lemma StartKeepsLogged(w: World, id: JobId)
    requires Sound(w.db.jobs) && Logged(w)
    ensures Logged(Step(w, StartRun(id)))
  {
    var next := Step(w, StartRun(id));
    PreparationLogsItsStart(w.db, id, w.now);
    PrepareKeepsPaced(w.db, id, w.now);
    if PrepareRun(w.db, id, w.now).1 {
      var h := Begun(Find(w.db.jobs, id).value, w.now);
      CountedGrows(w.db, next.db, h, w.now);
      DeepTimesGrow(w.db, next.db, h);
      LogGrows(w.log, h);
      HappeningKeepsLogged(w, next, h);
    } else {
      assert next.log == w.log;
    }
  }

  lemma ResetIsLogged(log: seq<Happening>)
    ensures SinceReset(log + [AllowanceReset]) == [] && FirstRepairs(log + [AllowanceReset]) == FirstRepairs(log)
    ensures forall id :: Occurs(log + [AllowanceReset], id) <==> Occurs(log, id)
  {
    var next := log + [AllowanceReset];
    assert next[..|log|] == log;
    forall id | Occurs(log, id) ensures Occurs(next, id) {
      var i :| 0 <= i < |log| && log[i].Began? && log[i].job == id;
      assert next[i] == log[i];
    }
  }

  /** A new reset starts counting again and touches no table of starts. */
  lemma ResetCountsNone(db: Db, request: string, now: int)
    requires PacedTables(db, now) && request !in db.resets
    ensures var next := ResetInitialQuota(db, request, now).0; Counted(next) == [] && next.starts == db.starts
  {
    SegmentTimes(db.launches, LastLaunch(db.launches), LastLaunch(db.launches), now);
    RowsBelowNext(db.launches, now);
  }

  lemma ResetKeepsLogged(w: World, request: string)
    requires Logged(w)
    ensures Logged(Step(w, ResetShortQuota(request)))
  {
    var next := Step(w, ResetShortQuota(request));
    ResetKeepsPaced(w.db, request, w.now);
    if request in w.db.resets {
      assert next.log == w.log;
    } else {
      assert next.log == w.log + [AllowanceReset];
      ResetIsLogged(w.log);
      ResetCountsNone(w.db, request, w.now);
      HappeningKeepsLogged(w, next, AllowanceReset);
    }
  }

  lemma LogStays(w: World, op: Op)
    requires !op.StartRun? && !op.ResetShortQuota?
    ensures Step(w, op).log == w.log
  {
  }

  lemma StepKeepsLogged(w: World, op: Op)
    requires Sound(w.db.jobs) && Logged(w)
    ensures Logged(Step(w, op))
  {
    match op
    case StartRun(id) => StartKeepsLogged(w, id);
    case ResetShortQuota(request) => ResetKeepsLogged(w, request);
    case Tick(seconds) => LaterIsPaced(w.db, w.now, w.now + seconds);
    case _ => OtherStepsKeepLogged(w, op);
  }

  lemma OtherStepsKeepLogged(w: World, op: Op)
    requires Sound(w.db.jobs) && Logged(w) && !op.StartRun? && !op.ResetShortQuota? && !op.Tick?
    ensures Logged(Step(w, op))
  {
    var next := Step(w, op);
    LogStays(w, op);
    StepKeepsPaced(w, op);
    StepKeepsPaceTables(w, op);
    assert Counted(next.db) == Counted(w.db);
  }

  lemma {:induction false} RunsAreLogged(w: World, ops: seq<Op>)
    requires Exclusion.Sane(w) && Logged(w) && Possible(w, ops)
    ensures Logged(Run(w, ops))
    decreases |ops|
  {
    if ops != [] {
      Exclusion.StepKeepsSane(w, ops[0]);
      StepKeepsLogged(w, ops[0]);
      RunsAreLogged(Step(w, ops[0]), ops[1..]);
    }
  }

  lemma InstallationIsLogged(w: World)
    requires Installed(w)
    ensures Logged(w)
  {
    assert PacedTables(w.db, w.now);
  }

  /** From an empty installation, over the starts that happened: in any half-open window of one day at most 30 counted short
      runs begin without a reset of the allowance between them, and at most 10 repair jobs begin. */
  lemma StartsKeepDailyLimits(w: World, ops: seq<Op>, p: nat, t: int)
    requires Installed(w) && Possible(w, ops) && p <= |Run(w, ops).log|
    ensures var log := Run(w, ops).log;
            && CountWithin(SinceReset(log[..p]), t, t + DAY) <= 30
            && CountWithin(FirstRepairs(log), t, t + DAY) <= 10
  {
    Exclusion.InstallationIsSane(w);
    InstallationIsLogged(w);
    RunsAreLogged(w, ops);
    var last := Run(w, ops);
    PaceBoundsEveryWindow(SinceReset(last.log[..p]), INITIAL_LIMIT, t);
    DeepTimesOrdered(last.db.starts, last.now);
    PaceBoundsEveryWindow(FirstRepairs(last.log), DEEP_LIMIT, t);
  }
}
