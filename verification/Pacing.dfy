/** Rolling launch limits over every run, across operator resets, crashes and restarts. */
module Pacing {
  import opened Contracts
  import opened JobStore
  import opened LaunchWindows
  import opened Tables
  import opened Scheduling
  import opened Lifecycle
  import opened Leases
  import opened Runs
  import opened Exclusion
  import E = Events
  import R = ReviewResumption

  /** Launch ids at which the short-run allowance was reset; 0 starts the first segment. */
  ghost function Boundaries(db: Db): (some: set<nat>) { {0} + set request | request in db.resets :: db.resets[request].through }

  /** No reset falls strictly inside `(after, through)`. */
  ghost predicate Unsplit(db: Db, after: nat, through: nat)
  {
    after in Boundaries(db) && after <= through && forall b :: b in Boundaries(db) ==> b <= after || through <= b
  }

  ghost predicate LaunchesInOrder(launches: seq<Launch>, now: int)
  {
    && (forall i :: 0 <= i < |launches| ==> launches[i].id == i + 1 && launches[i].at <= now)
    && (forall i, j :: 0 <= i <= j < |launches| ==> launches[i].at <= launches[j].at)
  }

  ghost predicate StartsInOrder(starts: seq<Start>, now: int)
  {
    && (forall i :: 0 <= i < |starts| ==> starts[i].at <= now)
    && (forall i, j :: 0 <= i <= j < |starts| ==> starts[i].at <= starts[j].at)
  }

  ghost predicate SegmentsPaced(db: Db)
  {
    forall after, through :: Unsplit(db, after, through) ==> Paced(Segment(db.launches, after, through), INITIAL_LIMIT)
  }

  ghost predicate PacedTables(db: Db, now: int)
  {
    && LaunchesInOrder(db.launches, now)
    && StartsInOrder(db.starts, now)
    && (forall b :: b in Boundaries(db) ==> b <= |db.launches| && b <= ResetThrough(db))
    && ResetThrough(db) in Boundaries(db)
    && SegmentsPaced(db)
    && Paced(DeepTimes(db.starts), DEEP_LIMIT)
  }

  // ---------------------------------------------------------------- lists of times

  lemma {:induction false} SegmentTimes(launches: seq<Launch>, after: nat, through: nat, now: int)
    requires LaunchesInOrder(launches, now)
    ensures Sorted(Segment(launches, after, through))
    ensures forall i :: 0 <= i < |Segment(launches, after, through)| ==> Segment(launches, after, through)[i] <= now
    ensures launches != [] ==>
              forall i :: 0 <= i < |Segment(launches, after, through)| ==>
                Segment(launches, after, through)[i] <= launches[|launches| - 1].at
    ensures after >= |launches| ==> Segment(launches, after, through) == []
    ensures through >= |launches| ==> Segment(launches, after, through) == Segment(launches, after, |launches|)
  {
    if launches != [] {
      var init := launches[..|launches| - 1];
      SegmentTimes(init, after, through, now);
      SegmentTimes(init, after, |launches|, now);
    }
  }

  lemma {:induction false} DeepTimesOrdered(starts: seq<Start>, now: int)
    requires StartsInOrder(starts, now)
    ensures Sorted(DeepTimes(starts))
    ensures forall i :: 0 <= i < |DeepTimes(starts)| ==> DeepTimes(starts)[i] <= now
    ensures starts != [] ==> forall i :: 0 <= i < |DeepTimes(starts)| ==> DeepTimes(starts)[i] <= starts[|starts| - 1].at
  {
    if starts != [] {
      DeepTimesOrdered(starts[..|starts| - 1], now);
    }
  }

  // ---------------------------------------------------------------- a claim

  /** A counted launch keeps every segment paced: only the current one grows, and the claim was admitted to it. */
  lemma LaunchKeepsPace(db: Db, job: JobId, now: int, after: nat, through: nat)
    requires PacedTables(db, now) && Admits(Counted(db), INITIAL_LIMIT, now)
    requires Unsplit(db, after, through)
    ensures Paced(Segment(db.launches + [Launch(LastLaunch(db.launches) + 1, job, now)], after, through), INITIAL_LIMIT)
  {
    var n := |db.launches|;
    var launches := db.launches + [Launch(LastLaunch(db.launches) + 1, job, now)];
    assert launches[..n] == db.launches;
    assert LastLaunch(db.launches) == n;
    if through > n {
      assert after == ResetThrough(db);
      SegmentTimes(db.launches, after, through, now);
      SegmentTimes(db.launches, after, n, now);
      AdmissionKeepsPace(Counted(db), INITIAL_LIMIT, now);
    }
  }

  lemma ClaimRecords(db: Db, id: JobId, now: int)
    requires Claim(db, id, now).Ok?
    ensures Find(db.jobs, id).Some?
    ensures var job, next := Find(db.jobs, id).value, Claim(db, id, now).value;
            && next == Recorded(db, job, now).(jobs := next.jobs)
            && JobLaunchAfter(db, job, now) <= now
  {
  }

  lemma RecordKeepsLaunches(db: Db, job: Job, now: int)
    requires PacedTables(db, now) && JobLaunchAfter(db, job, now) <= now
    ensures var next := Recorded(db, job, now);
            && LaunchesInOrder(next.launches, now)
            && Boundaries(next) == Boundaries(db) && ResetThrough(next) == ResetThrough(db)
            && |db.launches| <= |next.launches|
  {
  }

  lemma RecordKeepsSegments(db: Db, job: Job, now: int)
    requires PacedTables(db, now) && JobLaunchAfter(db, job, now) <= now
    ensures SegmentsPaced(Recorded(db, job, now))
  {
    var next := Recorded(db, job, now);
    forall after, through | Unsplit(next, after, through)
      ensures Paced(Segment(next.launches, after, through), INITIAL_LIMIT)
    {
      assert Unsplit(db, after, through);
      if Short(job) && !job.quotaResume { LaunchKeepsPace(db, job.id, now, after, through); }
    }
  }

  lemma RecordKeepsStarts(db: Db, job: Job, now: int)
    requires PacedTables(db, now) && JobLaunchAfter(db, job, now) <= now
    ensures var next := Recorded(db, job, now);
            StartsInOrder(next.starts, now) && Paced(DeepTimes(next.starts), DEEP_LIMIT)
  {
    var next := Recorded(db, job, now);
    if !Started(db, job.id) {
      assert next.starts[..|db.starts|] == db.starts;
      if !Short(job) {
        DeepTimesOrdered(db.starts, now);
        AdmissionKeepsPace(DeepTimes(db.starts), DEEP_LIMIT, now);
      }
    }
  }

  lemma ClaimKeepsPaced(db: Db, id: JobId, now: int)
    requires PacedTables(db, now) && Claim(db, id, now).Ok?
    ensures PacedTables(Claim(db, id, now).value, now)
  {
    ClaimRecords(db, id, now);
    var job := Find(db.jobs, id).value;
    RecordKeepsLaunches(db, job, now);
    RecordKeepsSegments(db, job, now);
    RecordKeepsStarts(db, job, now);
    SamePacing(Recorded(db, job, now), Claim(db, id, now).value, now);
  }

  // ---------------------------------------------------------------- every other step

  ghost predicate SamePaceTables(db: Db, next: Db)
  {
    next.starts == db.starts && next.launches == db.launches && next.resets == db.resets && next.reset == db.reset
  }

  lemma SamePacing(db: Db, next: Db, now: int)
    requires SamePaceTables(db, next)
    requires LaunchesInOrder(db.launches, now) && StartsInOrder(db.starts, now)
    requires forall b :: b in Boundaries(db) ==> b <= |db.launches| && b <= ResetThrough(db)
    requires ResetThrough(db) in Boundaries(db)
    requires SegmentsPaced(db)
    requires Paced(DeepTimes(db.starts), DEEP_LIMIT)
    ensures PacedTables(next, now)
  {
    forall after, through | Unsplit(next, after, through)
      ensures Paced(Segment(next.launches, after, through), INITIAL_LIMIT)
    {
      assert Unsplit(db, after, through);
    }
  }

  lemma LaterIsPaced(db: Db, now: int, later: int)
    requires PacedTables(db, now) && now <= later
    ensures PacedTables(db, later)
  {
  }

  lemma ResetKeepsPaced(db: Db, request: string, now: int)
    requires PacedTables(db, now)
    ensures PacedTables(ResetInitialQuota(db, request, now).0, now)
  {
    if request !in db.resets {
      var next := ResetInitialQuota(db, request, now).0;
      var n := |db.launches|;
      assert LastLaunch(db.launches) == n;
      ResetAddsBoundary(db, request, now);
      forall after, through | Unsplit(next, after, through)
        ensures Paced(Segment(next.launches, after, through), INITIAL_LIMIT)
      {
        if after == n { SegmentTimes(db.launches, after, through, now); } else { assert Unsplit(db, after, through); }
      }
    }
  }

  lemma ResetAddsBoundary(db: Db, request: string, now: int)
    requires request !in db.resets
    ensures Boundaries(ResetInitialQuota(db, request, now).0) == Boundaries(db) + {LastLaunch(db.launches)}
  {
    var next := ResetInitialQuota(db, request, now).0;
    forall b ensures b in Boundaries(next) <==> b in Boundaries(db) || b == LastLaunch(db.launches) {
      if b in Boundaries(db) && b != 0 {
        var r :| r in db.resets && db.resets[r].through == b;
        assert r in next.resets && next.resets[r].through == b;
      }
      if b == LastLaunch(db.launches) { assert next.resets[request].through == b; }
    }
  }

  lemma PrepareKeepsPaced(db: Db, id: JobId, now: int)
    requires PacedTables(db, now)
    ensures PacedTables(PrepareRun(db, id, now).0, now)
  {
    var found := Find(db.jobs, id);
    if found.Some? && Preparable(db, found.value, now) {
      var ready := db.(jobs := Update(db.jobs, id, WithContext()));
      SamePacing(db, ready, now);
      if Claim(ready, id, now).Ok? {
        ClaimKeepsPaced(ready, id, now);
      } else {
        SamePacing(ready, Attempt(ready, id, now).0, now);
      }
    }
  }

  lemma StepKeepsPaced(w: World, op: Op)
    requires PacedTables(w.db, w.now)
    ensures PacedTables(Step(w, op).db, Step(w, op).now)
  {
    match op
    case Tick(seconds) => LaterIsPaced(w.db, w.now, w.now + seconds);
    case StartRun(id) => PrepareKeepsPaced(w.db, id, w.now);
    case ResetShortQuota(request) => ResetKeepsPaced(w.db, request, w.now);
    case _ =>
      StepKeepsPaceTables(w, op);
      SamePacing(w.db, Step(w, op).db, w.now);
  }

  lemma CompleteKeepsPaceTables(db: Db, id: JobId, outcome: Outcome, now: int)
    ensures SamePaceTables(db, CompleteRun(db, id, outcome, now))
  {
    CompleteFrame(db, id, outcome, now);
  }

  lemma JobOpKeepsPaceTables(w: World, op: Op)
    requires JobOp(op) && !op.ResetShortQuota?
    ensures SamePaceTables(w.db, Step(w, op).db) && Step(w, op).now == w.now
  {
    JobOpFrame(w, op);
  }

  lemma RecoveryKeepsPaceTables(db: Db, now: int, writes: nat)
    ensures SamePaceTables(db, Recover(db, now))
    ensures SamePaceTables(db, RecoverPart(db, now, writes))
  {
    PartFrame(db, now, writes);
  }

  lemma RestartKeepsPaceTables(w: World, op: Op)
    requires op.Restart?
    ensures SamePaceTables(w.db, Step(w, op).db) && Step(w, op).now == w.now
  {
    RecoveryKeepsPaceTables(w.db, w.now, 0);
    assert Step(w, op).db == Recover(w.db, w.now);
  }

  lemma FailedRestartKeepsPaceTables(w: World, op: Op)
    requires op.RestartDies?
    ensures SamePaceTables(w.db, Step(w, op).db) && Step(w, op).now == w.now
  {
    RecoveryKeepsPaceTables(w.db, w.now, op.writes);
    assert Step(w, op).db == RecoverPart(w.db, w.now, op.writes);
  }

  lemma StepKeepsPaceTables(w: World, op: Op)
    requires !op.StartRun? && !op.ResetShortQuota? && !op.Tick?
    ensures SamePaceTables(w.db, Step(w, op).db) && Step(w, op).now == w.now
  {
    if JobOp(op) {
      JobOpKeepsPaceTables(w, op);
    } else {
      match op
      case PollReviews(answers) => R.PollTouchesOwn(w.db, answers, w.now);
      case Ingest(batch, cursor, debounce) => E.IngestLeavesJobs(w.db, batch, cursor, debounce, w.now);
      case EndRun(outcome) =>
        if w.service.Up? && w.service.agent.Some? { CompleteKeepsPaceTables(w.db, w.service.agent.value, outcome, w.now); }
      case Restart => RestartKeepsPaceTables(w, op);
      case RestartDies(_) => FailedRestartKeepsPaceTables(w, op);
      case _ =>
    }
  }

  lemma {:induction false} RunsArePaced(w: World, ops: seq<Op>)
    requires PacedTables(w.db, w.now)
    ensures PacedTables(Run(w, ops).db, Run(w, ops).now)
    decreases |ops|
  {
    if ops != [] {
      StepKeepsPaced(w, ops[0]);
      RunsArePaced(Step(w, ops[0]), ops[1..]);
    }
  }

  /** From an empty installation: in any half-open window of one day, at most 30 short launches fall between two
      consecutive resets of the allowance, and at most 10 repair jobs start. */
  lemma DailyLimitsHold(w: World, ops: seq<Op>, after: nat, through: nat, t: int)
    requires Installed(w)
    requires Unsplit(Run(w, ops).db, after, through)
    ensures var db := Run(w, ops).db;
            && CountWithin(Segment(db.launches, after, through), t, t + DAY) <= INITIAL_LIMIT
            && CountWithin(DeepTimes(db.starts), t, t + DAY) <= DEEP_LIMIT
  {
    assert PacedTables(w.db, w.now);
    RunsArePaced(w, ops);
    var db := Run(w, ops).db;
    SegmentTimes(db.launches, after, through, Run(w, ops).now);
    PaceBoundsEveryWindow(Segment(db.launches, after, through), INITIAL_LIMIT, t);
    DeepTimesOrdered(db.starts, Run(w, ops).now);
    PaceBoundsEveryWindow(DeepTimes(db.starts), DEEP_LIMIT, t);
  }

  /** The launch time a job waits for is exact in every reachable world: while no launch, start or reset happens, the
      allowance admits the job at `later` iff `later` has reached it. */
  lemma WaitIsExact(w: World, job: Job, later: int)
    requires PacedTables(w.db, w.now) && 0 <= w.now <= later
    ensures JobLaunchAfter(w.db, job, later) <= later <==> JobLaunchAfter(w.db, job, w.now) <= later
  {
    if Short(job) {
      SegmentTimes(w.db.launches, ResetThrough(w.db), LastLaunch(w.db.launches), w.now);
      assert LastLaunch(w.db.launches) == |w.db.launches|;
      assert Unsplit(w.db, ResetThrough(w.db), LastLaunch(w.db.launches));
      LaunchAfterIsExact(Counted(w.db), INITIAL_LIMIT, w.now, later);
    } else {
      DeepTimesOrdered(w.db.starts, w.now);
      LaunchAfterIsExact(DeepTimes(w.db.starts), DEEP_LIMIT, w.now, later);
    }
  }
}
