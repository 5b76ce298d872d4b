/** Job histories over every run: time only accumulates, cancellation is final, and thrifty runs respect the budget. */
module Budgets {
  import opened Contracts
  import opened JobStore
  import opened Tables
  import opened Scheduling
  import opened Lifecycle
  import opened JobChanges
  import opened Leases
  import opened Runs
  import opened Exclusion
  import E = Events
  import R = ReviewResumption

  // ---------------------------------------------------------------- what one finished run books

  /** Seconds `finish_run` charges a job for. */
  function Charge(job: Job, active: int, now: int): (n: int)
    requires !job.lease.Released?
  {
    Finished(job, active, now).activeSeconds - job.activeSeconds
  }

  /** `next` is `rows` with `more` seconds booked on one job, whose lease is over; no other job moved. */
  ghost predicate Booked(rows: seq<Row>, next: seq<Row>, id: JobId, more: int)
  {
    && Mirrored(next)
    && Find(rows, id).Some? && Find(next, id).Some?
    && (var before, after := Find(rows, id).value, Find(next, id).value;
        && after.activeSeconds == before.activeSeconds + more
        && after.stage == before.stage && after.issue == before.issue && after.ownerComments == before.ownerComments
        && (before.cancelled ==> after.cancelled)
        && (forall n: nat :: Spent(next, n) == Spent(rows, n) + if Repair(before) && before.issue == Some(n) then more else 0))
    && (forall k :: k != id ==> Find(next, k) == Find(rows, k))
  }

  /** A save that keeps stage and issue books the difference in active seconds. */
  lemma SaveBooks(rows: seq<Row>, job: Job)
    requires Mirrored(rows) && Find(rows, job.id).Some?
    requires Find(rows, job.id).value.stage == job.stage && Find(rows, job.id).value.issue == job.issue
    requires Find(rows, job.id).value.ownerComments == job.ownerComments
    ensures Booked(rows, Save(rows, job), job.id, job.activeSeconds - Find(rows, job.id).value.activeSeconds)
  {
    SaveStores(rows, job);
    forall n: nat ensures Spent(Save(rows, job), n) == Spent(rows, n) - Cost(Find(rows, job.id).value, n) + Cost(job, n) {
      SpentSplits(rows, job.id, n);
      SpentAfterSave(rows, job, n);
    }
  }

  lemma BookedTwice(a: seq<Row>, b: seq<Row>, c: seq<Row>, id: JobId, more: int, most: int)
    requires Booked(a, b, id, more) && Booked(b, c, id, most)
    ensures Booked(a, c, id, more + most)
  {
  }

  /** An update of the finished job that keeps its stage, issue and time books nothing. */
  lemma MoveBooksNothing(rows: seq<Row>, next: seq<Row>, id: JobId, more: int, change: Job -> Job)
    requires Booked(rows, next, id, more)
    requires forall job: Job :: Minor(job, change(job)) && change(job).stage == job.stage && change(job).issue == job.issue
    ensures Booked(rows, Update(next, id, change), id, more)
  {
    FindIsRow(next, id);
    var job := Find(next, id).value;
    SaveBooks(next, change(job));
    BookedTwice(rows, next, Update(next, id, change), id, more, 0);
  }

  lemma FinishBooks(rows: seq<Row>, job: Job, active: int, now: int)
    requires Mirrored(rows) && Find(rows, job.id) == Some(job) && !job.lease.Released?
    ensures Booked(rows, Save(rows, Finished(job, active, now)), job.id, Charge(job, active, now))
  {
    SaveBooks(rows, Finished(job, active, now));
  }

  lemma MarkBooksNothing(rows: seq<Row>, job: Job)
    requires Sound(rows) && Find(rows, job.id) == Some(job)
    ensures var marked := Save(rows, job.(hasResult := true));
            Booked(rows, marked, job.id, 0) && Find(marked, job.id) == Some(job.(hasResult := true))
  {
    SaveBooks(rows, job.(hasResult := true));
    SaveStores(rows, job.(hasResult := true));
  }

  lemma StoreBooks(rows: seq<Row>, job: Job, active: int, now: int)
    requires Sound(rows) && Find(rows, job.id) == Some(job) && !job.lease.Released?
    ensures Booked(rows, StoreRows(rows, job, active, now), job.id, Charge(job, active, now))
  {
    var result := job.(hasResult := true);
    MarkBooksNothing(rows, job);
    FinishBooks(Save(rows, result), result, active, now);
    BookedTwice(rows, Save(rows, result), StoreRows(rows, job, active, now), job.id, 0, Charge(job, active, now));
  }

  lemma AcceptBooks(rows: seq<Row>, job: Job, active: int, now: int)
    requires Sound(rows) && Find(rows, job.id) == Some(job) && !job.lease.Released?
    ensures Booked(rows, AcceptRows(rows, job, active, now), job.id, Charge(job, active, now))
  {
    StoreBooks(rows, job, active, now);
    if !job.cancelled { MoveBooksNothing(rows, StoreRows(rows, job, active, now), job.id, Charge(job, active, now), Publishable()); }
  }

  lemma PauseBooks(rows: seq<Row>, job: Job, active: int, until: int, now: int)
    requires Mirrored(rows) && Find(rows, job.id) == Some(job) && !job.lease.Released?
    ensures Booked(rows, PauseRows(rows, job, active, until, now), job.id, Charge(job, active, now))
  {
    FinishBooks(rows, job, active, now);
    MoveBooksNothing(rows, Save(rows, Finished(job, active, now)), job.id, Charge(job, active, now), PausedUntil(until));
  }

  function OutcomeSeconds(outcome: Outcome): (n: int)
  {
    match outcome
    case Accepted(active) => active
    case AcceptedInPart(active) => active
    case Refused => 0
    case QuotaHit(active, _) => active
    case Failed(active) => active
  }

  /** However a run ends, its job is charged its elapsed time, once. */
  lemma CompleteBooks(db: Db, id: JobId, outcome: Outcome, now: int)
    requires Sound(db.jobs) && HoldsLease(db.jobs, id)
    ensures Booked(db.jobs, CompleteRun(db, id, outcome, now).jobs, id,
                   Charge(Find(db.jobs, id).value, OutcomeSeconds(outcome), now))
  {
    FindIsRow(db.jobs, id);
    var job := Find(db.jobs, id).value;
    match outcome
    case Accepted(active) => AcceptBooks(db.jobs, job, active, now);
    case AcceptedInPart(active) => StoreBooks(db.jobs, job, active, now);
    case Refused => FinishBooks(db.jobs, job, 0, now);
    case QuotaHit(active, delay) => PauseBooks(db.jobs, job, active, PausedQuota(db, job, delay, now).until, now);
    case Failed(active) => FinishBooks(db.jobs, job, active, now);
  }

  lemma RecoverLeaseBooks(rows: seq<Row>, job: Job, now: int)
    requires Mirrored(rows) && HoldsLease(rows, job.id)
    ensures Booked(rows, RecoverLease(rows, job, now), job.id, Charge(Find(rows, job.id).value, 0, now))
  {
    FindIsRow(rows, job.id);
    var held := Find(rows, job.id).value;
    FinishBooks(rows, held, 0, now);
    MoveBooksNothing(rows, Save(rows, Finished(held, 0, now)), job.id, Charge(held, 0, now), Resuming(job));
  }

  // ---------------------------------------------------------------- histories

  /** No job disappears, loses time, or comes back from cancellation. */
  ghost predicate Lasting(rows: seq<Row>, next: seq<Row>)
  {
    forall k :: Find(rows, k).Some? ==>
      && Find(next, k).Some?
      && Find(next, k).value.activeSeconds >= Find(rows, k).value.activeSeconds
      && (Find(rows, k).value.cancelled ==> Find(next, k).value.cancelled)
  }

  lemma BookedIsLasting(rows: seq<Row>, next: seq<Row>, id: JobId, more: int)
    requires Booked(rows, next, id, more) && more >= 0
    ensures Lasting(rows, next) && Silent(rows, next)
  {
  }

  lemma BenignIsLasting(rows: seq<Row>, next: seq<Row>)
    requires Benign(rows, next)
    ensures Lasting(rows, next)
  {
  }

  lemma LastingTwice(a: seq<Row>, b: seq<Row>, c: seq<Row>)
    requires Lasting(a, b) && Lasting(b, c)
    ensures Lasting(a, c)
  {
  }

  lemma {:induction false} RecoverLeasesIsLasting(rows: seq<Row>, held: seq<Job>, now: int)
    requires Accounted(rows, now) && ToRecover(rows, held)
    ensures Lasting(rows, RecoverLeases(rows, held, now)) && Silent(rows, RecoverLeases(rows, held, now))
    decreases |held|
  {
    if held != [] {
      var next := RecoverLease(rows, held[0], now);
      if HoldsLease(rows, held[0].id) {
        RecoverLeaseBooks(rows, held[0], now);
        BookedIsLasting(rows, next, held[0].id, Charge(Find(rows, held[0].id).value, 0, now));
      }
      RecoverLeasePends(rows, held, now);
      RecoverLeasesIsLasting(next, held[1..], now);
      LastingTwice(rows, next, RecoverLeases(next, held[1..], now));
      SilentTwice(rows, next, RecoverLeases(next, held[1..], now));
    }
  }

  lemma RecoverIsLasting(db: Db, now: int, jobs: seq<Job>)
    requires Accounted(db.jobs, now)
    ensures var next := ResumeAll(RecoverLeases(db.jobs, HeldJobs(db.jobs), now), jobs); Lasting(db.jobs, next) && Silent(db.jobs, next)
  {
    HeldJobsAreToRecover(db.jobs);
    RecoverLeasesIsLasting(db.jobs, HeldJobs(db.jobs), now);
    RecoverLeasesCloses(db.jobs, HeldJobs(db.jobs), now);
    var released := RecoverLeases(db.jobs, HeldJobs(db.jobs), now);
    var next := ResumeAll(released, jobs);
    ResumeAllIsBenign(released, jobs);
    BenignIsLasting(released, next);
    LastingTwice(db.jobs, released, next);
    SilentTwice(db.jobs, released, next);
  }

  lemma InterruptedRecoveryIsLasting(db: Db, now: int, writes: nat)
    requires Accounted(db.jobs, now)
    ensures var next := RecoverPart(db, now, writes).jobs; Lasting(db.jobs, next) && Silent(db.jobs, next)
  {
    PartsOfRecovery(db, now, writes);
    OneLeaseIsHeld(db.jobs, now);
    var held, next := HeldJobs(db.jobs), RecoverPart(db, now, writes).jobs;
    if writes > 0 {
      if held != [] && next == FinishLease(db.jobs, held[0], now) {
        FinishBooks(db.jobs, held[0], 0, now);
        BookedIsLasting(db.jobs, next, held[0].id, Charge(held[0], 0, now));
      } else {
        var processing := WithStatus(RecoverLeases(db.jobs, held, now), {Processing});
        var n: nat :| ResumedFirst(db, now, next, n);
        RecoverIsLasting(db, now, processing[..n]);
      }
    }
  }

  lemma UpdateIsLasting(rows: seq<Row>, id: JobId, change: Job -> Job)
    requires Sound(rows) && forall job: Job :: Minor(job, change(job))
    ensures Lasting(rows, Update(rows, id, change)) && Silent(rows, Update(rows, id, change)) && Sound(Update(rows, id, change))
  {
    MinorUpdate(rows, id, change);
    BenignIsLasting(rows, Update(rows, id, change));
  }

  lemma AttemptIsLasting(db: Db, id: JobId, now: int)
    requires Sound(db.jobs)
    ensures Lasting(db.jobs, Attempt(db, id, now).0.jobs) && Silent(db.jobs, Attempt(db, id, now).0.jobs)
  {
    if Claim(db, id, now).Ok? {
      ClaimGrants(db, id, now);
    } else {
      UpdateIsLasting(db.jobs, id, DelayedUntil(now + 60));
    }
  }

  lemma PrepareIsLasting(db: Db, id: JobId, now: int)
    requires Sound(db.jobs)
    ensures Lasting(db.jobs, PrepareRun(db, id, now).0.jobs) && Silent(db.jobs, PrepareRun(db, id, now).0.jobs)
  {
    var found := Find(db.jobs, id);
    if found.Some? && Preparable(db, found.value, now) {
      UpdateIsLasting(db.jobs, id, WithContext());
      var ready := Update(db.jobs, id, WithContext());
      AttemptIsLasting(db.(jobs := ready), id, now);
      LastingTwice(db.jobs, ready, PrepareRun(db, id, now).0.jobs);
      SilentTwice(db.jobs, ready, PrepareRun(db, id, now).0.jobs);
    }
  }

  lemma EndIsLasting(w: World, outcome: Outcome)
    requires Sane(w) && w.service.Up? && w.service.agent.Some?
    ensures var next := Step(w, EndRun(outcome)).db.jobs; Lasting(w.db.jobs, next) && Silent(w.db.jobs, next)
  {
    var id := w.service.agent.value;
    CompleteBooks(w.db, id, outcome, w.now);
    BookedIsLasting(w.db.jobs, CompleteRun(w.db, id, outcome, w.now).jobs, id,
                    Charge(Find(w.db.jobs, id).value, OutcomeSeconds(outcome), w.now));
  }

  /** Steps other than job commands; a comment poll is the only step that reserves comments. */
  lemma OtherStepIsLasting(w: World, op: Op)
    requires Sane(w) && Enabled(w, op) && !JobOp(op)
    ensures Lasting(w.db.jobs, Step(w, op).db.jobs) && Silent(w.db.jobs, Step(w, op).db.jobs)
  {
    match op
    case StartRun(id) => PrepareIsLasting(w.db, id, w.now);
    case EndRun(outcome) => EndIsLasting(w, outcome);
    case PollReviews(answers) => R.PollTouchesOwn(w.db, answers, w.now);
    case Restart => RecoverIsLasting(w.db, w.now, WithStatus(RecoverLeases(w.db.jobs, HeldJobs(w.db.jobs), w.now), {Processing}));
    case RestartDies(writes) => InterruptedRecoveryIsLasting(w.db, w.now, writes);
    case Ingest(batch, cursor, debounce) => E.IngestLeavesJobs(w.db, batch, cursor, debounce, w.now);
    case _ =>
  }

  lemma StepIsLasting(w: World, op: Op)
    requires Sane(w) && Enabled(w, op)
    ensures Lasting(w.db.jobs, Step(w, op).db.jobs)
  {
    if JobOp(op) {
      JobOpIsBenign(w, op);
      BenignIsLasting(w.db.jobs, Step(w, op).db.jobs);
    } else {
      OtherStepIsLasting(w, op);
    }
  }

  /** Over any run: jobs stay, their active time never decreases or passes its stage's limit, and a cancelled job stays
      cancelled in both fields. */
  lemma {:induction false} JobsLast(w: World, ops: seq<Op>, id: JobId)
    requires Sane(w) && Possible(w, ops)
    requires Find(w.db.jobs, id).Some?
    ensures var before, after := Find(w.db.jobs, id).value, Find(Run(w, ops).db.jobs, id);
            && after.Some?
            && before.activeSeconds <= after.value.activeSeconds <= StageLimit(after.value)
            && (before.cancelled ==> after.value.cancelled && after.value.status.Cancelled?)
    decreases |ops|
  {
    if ops != [] {
      StepKeepsSane(w, ops[0]);
      StepIsLasting(w, ops[0]);
      JobsLast(Step(w, ops[0]), ops[1..], id);
    }
  }

  // ---------------------------------------------------------------- runs that stay within what a claim granted

  /** No issue is over its budget, and a leased repair may use exactly what its issue has left. */
  ghost predicate Thrifty(rows: seq<Row>)
  {
    && (forall n: nat :: Spent(rows, n) <= DEEP_SECONDS)
    && (forall k, n: nat :: HoldsLease(rows, k) && Repair(Find(rows, k).value) && Find(rows, k).value.issue == Some(n) ==>
          Find(rows, k).value.remainingSeconds == DEEP_SECONDS - Spent(rows, n))
  }

  predicate WithinGrant(job: Job, active: int, now: int)
  {
    !job.lease.Released? && (Repair(job) ==> Charge(job, active, now) <= job.remainingSeconds)
  }

  /** A run ends, or is cut short by a crash, within the seconds its claim granted. */
  ghost predicate Disciplined(w: World, op: Op)
  {
    && (op.EndRun? && w.service.Up? && w.service.agent.Some? && Find(w.db.jobs, w.service.agent.value).Some? ==>
          WithinGrant(Find(w.db.jobs, w.service.agent.value).value, OutcomeSeconds(op.outcome), w.now))
    && (op.Restart? || op.RestartDies? ==> forall k :: HoldsLease(w.db.jobs, k) ==> WithinGrant(Find(w.db.jobs, k).value, 0, w.now))
  }

  ghost predicate AllDisciplined(w: World, ops: seq<Op>)
    decreases |ops|
  {
    ops == [] || (Disciplined(w, ops[0]) && AllDisciplined(Step(w, ops[0]), ops[1..]))
  }

  lemma BenignKeepsThrifty(rows: seq<Row>, next: seq<Row>)
    requires Sound(rows) && Thrifty(rows) && Benign(rows, next)
    ensures Thrifty(next)
  {
    forall k, n: nat | HoldsLease(next, k) && Repair(Find(next, k).value) && Find(next, k).value.issue == Some(n)
      ensures Find(next, k).value.remainingSeconds == DEEP_SECONDS - Spent(next, n)
    {
      assert HoldsLease(rows, k);
    }
  }

  lemma BookedKeepsThrifty(rows: seq<Row>, next: seq<Row>, id: JobId, more: int)
    requires Thrifty(rows) && Booked(rows, next, id, more) && HoldsLease(rows, id) && Holder(next, None)
    requires Repair(Find(rows, id).value) ==> more <= Find(rows, id).value.remainingSeconds
    ensures Thrifty(next)
  {
    var before := Find(rows, id).value;
    forall n: nat ensures Spent(next, n) <= DEEP_SECONDS {
      if Repair(before) && before.issue == Some(n) { assert before.remainingSeconds == DEEP_SECONDS - Spent(rows, n); }
    }
  }

  lemma ClaimKeepsThrifty(db: Db, id: JobId, now: int)
    requires Sound(db.jobs) && Thrifty(db.jobs) && Holder(db.jobs, None) && Claim(db, id, now).Ok?
    ensures Thrifty(Claim(db, id, now).value.jobs)
  {
    ClaimGrants(db, id, now);
    var next := Claim(db, id, now).value.jobs;
    forall k, n: nat | HoldsLease(next, k) && Repair(Find(next, k).value) && Find(next, k).value.issue == Some(n)
      ensures Find(next, k).value.remainingSeconds == DEEP_SECONDS - Spent(next, n)
    {
      assert k != id ==> HoldsLease(db.jobs, k);
      ClaimGivesTheRemainder(db, id, now, n);
    }
  }

  lemma UpdateKeepsThrifty(rows: seq<Row>, id: JobId, change: Job -> Job)
    requires Sound(rows) && Thrifty(rows) && forall job: Job :: Minor(job, change(job))
    ensures Thrifty(Update(rows, id, change))
  {
    MinorUpdate(rows, id, change);
    BenignKeepsThrifty(rows, Update(rows, id, change));
  }

  lemma PrepareKeepsThrifty(db: Db, id: JobId, now: int)
    requires Accounted(db.jobs, now) && Thrifty(db.jobs) && Holder(db.jobs, None)
    ensures Thrifty(PrepareRun(db, id, now).0.jobs)
  {
    var found := Find(db.jobs, id);
    if found.Some? && Preparable(db, found.value, now) {
      UpdateKeepsThrifty(db.jobs, id, WithContext());
      MinorUpdate(db.jobs, id, WithContext());
      var ready := Update(db.jobs, id, WithContext());
      BenignKeepsAccounts(db.jobs, ready, now);
      AttemptKeepsThrifty(db.(jobs := ready), id, now);
    }
  }

  lemma AttemptKeepsThrifty(db: Db, id: JobId, now: int)
    requires Sound(db.jobs) && Thrifty(db.jobs) && Holder(db.jobs, None)
    ensures Thrifty(Attempt(db, id, now).0.jobs)
  {
    if Claim(db, id, now).Ok? {
      ClaimKeepsThrifty(db, id, now);
    } else {
      UpdateKeepsThrifty(db.jobs, id, DelayedUntil(now + 60));
    }
  }

  ghost predicate HeldWithinGrant(rows: seq<Row>, now: int)
  {
    forall k :: HoldsLease(rows, k) ==> WithinGrant(Find(rows, k).value, 0, now)
  }

  lemma {:induction false} RecoverLeasesKeepsThrifty(rows: seq<Row>, held: seq<Job>, now: int)
    requires Accounted(rows, now) && ToRecover(rows, held) && Thrifty(rows) && HeldWithinGrant(rows, now)
    ensures Thrifty(RecoverLeases(rows, held, now))
    decreases |held|
  {
    if held != [] {
      var next := RecoverLease(rows, held[0], now);
      RecoverLeasePends(rows, held, now);
      if HoldsLease(rows, held[0].id) {
        RecoverLeaseCloses(rows, held[0], now);
        RecoverLeaseBooks(rows, held[0], now);
        BookedKeepsThrifty(rows, next, held[0].id, Charge(Find(rows, held[0].id).value, 0, now));
      }
      RecoverLeasesKeepsThrifty(next, held[1..], now);
    }
  }

  lemma RestartKeepsThrifty(db: Db, now: int, jobs: seq<Job>)
    requires Accounted(db.jobs, now) && Thrifty(db.jobs) && HeldWithinGrant(db.jobs, now)
    ensures Thrifty(ResumeAll(RecoverLeases(db.jobs, HeldJobs(db.jobs), now), jobs))
  {
    HeldJobsAreToRecover(db.jobs);
    RecoverLeasesKeepsThrifty(db.jobs, HeldJobs(db.jobs), now);
    RecoverLeasesCloses(db.jobs, HeldJobs(db.jobs), now);
    var released := RecoverLeases(db.jobs, HeldJobs(db.jobs), now);
    ResumeAllIsBenign(released, jobs);
    BenignKeepsThrifty(released, ResumeAll(released, jobs));
  }

  lemma InterruptedRestartKeepsThrifty(db: Db, now: int, writes: nat)
    requires Accounted(db.jobs, now) && Thrifty(db.jobs) && HeldWithinGrant(db.jobs, now)
    ensures Thrifty(RecoverPart(db, now, writes).jobs)
  {
    PartsOfRecovery(db, now, writes);
    OneLeaseIsHeld(db.jobs, now);
    var held, next := HeldJobs(db.jobs), RecoverPart(db, now, writes).jobs;
    if writes > 0 {
      if held != [] && next == FinishLease(db.jobs, held[0], now) {
        FinishBooks(db.jobs, held[0], 0, now);
        FinishCloses(db.jobs, held[0].id, 0, now);
        BookedKeepsThrifty(db.jobs, next, held[0].id, Charge(held[0], 0, now));
      } else {
        var processing := WithStatus(RecoverLeases(db.jobs, held, now), {Processing});
        var n: nat :| ResumedFirst(db, now, next, n);
        RestartKeepsThrifty(db, now, processing[..n]);
      }
    }
  }

  lemma EndKeepsThrifty(w: World, outcome: Outcome)
    requires Sane(w) && w.service.Up? && w.service.agent.Some? && Thrifty(w.db.jobs) && Disciplined(w, EndRun(outcome))
    ensures Thrifty(Step(w, EndRun(outcome)).db.jobs)
  {
    var id := w.service.agent.value;
    CompleteBooks(w.db, id, outcome, w.now);
    CompleteCloses(w.db, id, outcome, w.now);
    BookedKeepsThrifty(w.db.jobs, CompleteRun(w.db, id, outcome, w.now).jobs, id,
                       Charge(Find(w.db.jobs, id).value, OutcomeSeconds(outcome), w.now));
  }

  lemma StepKeepsThrifty(w: World, op: Op)
    requires Sane(w) && Enabled(w, op) && Thrifty(w.db.jobs) && Disciplined(w, op)
    ensures Thrifty(Step(w, op).db.jobs)
  {
    match op
    case StartRun(id) => PrepareKeepsThrifty(w.db, id, w.now);
    case EndRun(outcome) => EndKeepsThrifty(w, outcome);
    case PollReviews(answers) => R.PollKeepsSlotCovered(w.db, answers, w.now);
    case Restart => RestartKeepsThrifty(w.db, w.now, WithStatus(RecoverLeases(w.db.jobs, HeldJobs(w.db.jobs), w.now), {Processing}));
    case RestartDies(writes) => InterruptedRestartKeepsThrifty(w.db, w.now, writes);
    case Ingest(batch, cursor, debounce) => E.IngestLeavesJobs(w.db, batch, cursor, debounce, w.now);
    case _ =>
      if JobOp(op) {
        JobOpIsBenign(w, op);
        BenignKeepsThrifty(w.db.jobs, Step(w, op).db.jobs);
      }
  }

  /** If every run stays within its grant, no issue's repair jobs ever use more than the deep budget together. */
  lemma {:induction false} ThriftyRunsKeepBudget(w: World, ops: seq<Op>, issue: nat)
    requires Sane(w) && Thrifty(w.db.jobs) && Possible(w, ops) && AllDisciplined(w, ops)
    ensures Spent(Run(w, ops).db.jobs, issue) <= DEEP_SECONDS
    decreases |ops|
  {
    if ops != [] {
      StepKeepsSane(w, ops[0]);
      StepKeepsThrifty(w, ops[0]);
      ThriftyRunsKeepBudget(Step(w, ops[0]), ops[1..], issue);
    }
  }
}
