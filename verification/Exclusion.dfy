/** Safety over every run: one agent, never beside a review rerun, and no issue past twice its repair budget. */
module Exclusion {
  import opened Contracts
  import opened JobStore
  import opened Tables
  import opened Scheduling
  import opened Lifecycle
  import opened JobChanges
  import opened Leases
  import opened Runs
  import ProviderQuota
  import D = Dispatching
  import E = Events
  import R = ReviewResumption
  import O = OwnerComments

  /** What every visited world satisfies about agents, the review slot and repair time. */
  ghost predicate Sane(w: World)
  {
    && w.now >= 0
    && Accounted(w.db.jobs, w.now)
    && (w.service.Up? ==> Holder(w.db.jobs, w.service.agent))
    && (w.db.slot.Some? ==> Idle(w.db.jobs))
    && R.SlotCovered(w.db)
  }

  lemma InstallationIsSane(w: World)
    requires Installed(w)
    ensures Sane(w)
  {
    assert w.db.jobs == [];
    forall n: nat ensures Spent([], n) == 0 {}
  }

  /** Steps that change the job table benignly and leave the review queue alone. */
  lemma BenignStepKeepsSane(w: World, next: World)
    requires Sane(w) && Benign(w.db.jobs, next.db.jobs)
    requires next.service == w.service && next.now == w.now
    requires next.db.slot == w.db.slot && next.db.waits == w.db.waits
    ensures Sane(next)
  {
    BenignKeepsAccounts(w.db.jobs, next.db.jobs, w.now);
  }

  lemma SameJobsIsMild(rows: seq<Row>)
    requires Sound(rows)
    ensures Mild(rows, rows)
  {
  }

  lemma UpdateKeepsSane(w: World, id: JobId, change: Job -> Job)
    requires Sane(w) && forall job: Job :: Minor(job, change(job))
    ensures Sane(w.(db := w.db.(jobs := Update(w.db.jobs, id, change))))
  {
    MinorUpdate(w.db.jobs, id, change);
    BenignStepKeepsSane(w, w.(db := w.db.(jobs := Update(w.db.jobs, id, change))));
  }

  lemma ClaimKeepsSane(w: World, id: JobId)
    requires Sane(w) && w.service == Up(None) && Claim(w.db, id, w.now).Ok?
    ensures Sane(w.(db := Claim(w.db, id, w.now).value, service := Up(Some(id))))
  {
    ClaimAdmits(w.db, id, w.now);
    ClaimKeepsAccounts(w.db, id, w.now);
  }

  lemma AttemptKeepsSane(w: World, id: JobId)
    requires Sane(w) && w.service == Up(None)
    ensures var attempt := Attempt(w.db, id, w.now);
            Sane(w.(db := attempt.0, service := if attempt.1 then Up(Some(id)) else w.service))
  {
    if Claim(w.db, id, w.now).Ok? {
      ClaimKeepsSane(w, id);
    } else {
      UpdateKeepsSane(w, id, DelayedUntil(w.now + 60));
    }
  }

  lemma PrepareKeepsSane(w: World, id: JobId)
    requires Sane(w) && w.service == Up(None)
    ensures Sane(Step(w, StartRun(id)))
  {
    var found := Find(w.db.jobs, id);
    if found.Some? && Preparable(w.db, found.value, w.now) {
      UpdateKeepsSane(w, id, WithContext());
      AttemptKeepsSane(w.(db := w.db.(jobs := Update(w.db.jobs, id, WithContext()))), id);
    }
  }

  lemma CompleteKeepsSane(w: World, outcome: Outcome)
    requires Sane(w) && w.service.Up? && w.service.agent.Some?
    ensures Sane(Step(w, EndRun(outcome)))
  {
    CompleteCloses(w.db, w.service.agent.value, outcome, w.now);
  }

  lemma PollReviewsKeepsSane(w: World, answers: R.Answers)
    requires Sane(w)
    ensures Sane(Step(w, PollReviews(answers)))
  {
    R.PollKeepsSlotCovered(w.db, answers, w.now);
    IdleIsNoneListed(w.db.jobs);
  }

  lemma TickKeepsSane(w: World, seconds: nat)
    requires Sane(w)
    ensures Sane(Step(w, Tick(seconds)))
  {
  }

  /** No job command or scheduling step touches leases, booked time or reserved comments. */
  lemma JobOpIsMild(w: World, op: Op)
    requires Sound(w.db.jobs) && Enabled(w, op)
    requires JobOp(op) && !op.PollComments?
    ensures Mild(w.db.jobs, Step(w, op).db.jobs)
  {
    SameJobsIsMild(w.db.jobs);
    match op
    case Cancel(id) => CancelIsBenign(w.db.jobs, id);
    case ResetShortQuota(request) => ReleaseAllIsBenign(w.db.jobs, WithStatus(w.db.jobs, {Queued}));
    case Enqueue(issue, event, generation, newId) => EnqueueIsBenign(w.db, issue, event, generation, newId);
    case Schedule(signature, newId) => ScheduleIsBenign(w.db, signature, newId, w.now);
    case Decide(triage, action, repair, published, newId) => DecideIsBenign(w.db, triage, action, repair, published, newId);
    case EditJob(id, edit) => EditIsBenign(w.db.jobs, id, edit);
    case _ =>
  }

  lemma JobOpIsBenign(w: World, op: Op)
    requires Sound(w.db.jobs) && Enabled(w, op) && JobOp(op)
    ensures Benign(w.db.jobs, Step(w, op).db.jobs)
  {
    if op.PollComments? {
      PollCommentsIsBenign(w.db, op.issue, op.comments, op.newId);
    } else {
      JobOpIsMild(w, op);
    }
  }

  predicate JobOp(op: Op)
  {
    op.Cancel? || op.ResetShortQuota? || op.Enqueue? || op.Schedule? || op.PollComments? || op.Decide? || op.EditJob?
  }

  lemma JobOpFrame(w: World, op: Op)
    requires JobOp(op)
    ensures var next := Step(w, op);
            && next == w.(db := next.db, log := next.log)
            && (!op.ResetShortQuota? ==> next.log == w.log)
            && next.db == w.db.(jobs := next.db.jobs, holds := next.db.holds, dispatches := next.db.dispatches,
                                reservations := next.db.reservations, incidents := next.db.incidents,
                                reset := next.db.reset, resets := next.db.resets)
            && (!op.ResetShortQuota? ==> next.db.reset == w.db.reset && next.db.resets == w.db.resets)
  {
    match op
    case Enqueue(issue, event, generation, newId) => D.EnqueueFrame(w.db, issue, event, generation, newId);
    case Decide(triage, action, repair, published, newId) => O.DecideFrame(w.db, triage, action, repair, published, newId);
    case PollComments(issue, comments, newId) => O.PollFrame(w.db, issue, comments, newId);
    case Schedule(signature, newId) => E.ScheduleFrame(w.db, signature, newId, w.now);
    case _ =>
  }

  lemma JobOpKeepsSane(w: World, op: Op)
    requires Sane(w) && Enabled(w, op) && JobOp(op)
    ensures Sane(Step(w, op))
  {
    JobOpIsBenign(w, op);
    JobOpFrame(w, op);
    BenignStepKeepsSane(w, Step(w, op));
  }

  lemma QuietOpKeepsSane(w: World, op: Op)
    requires Sane(w) && (op.SetEnabled? || op.Ingest? || op.RecordOrigin? || op.SettleIncident? || op.Crash?)
    ensures Sane(Step(w, op))
  {
    if op.Ingest? { E.IngestLeavesJobs(w.db, op.batch, op.cursor, op.debounce, w.now); }
    var next := Step(w, op);
    assert next.db.jobs == w.db.jobs && next.db.slot == w.db.slot && next.db.waits == w.db.waits;
  }

  lemma RestartKeepsSane(w: World)
    requires Sane(w)
    ensures Sane(Step(w, Restart))
  {
    RecoverCloses(w.db, w.now);
  }

  lemma InterruptedRestartKeepsSane(w: World, writes: nat)
    requires Sane(w) && w.service.Down?
    ensures Sane(Step(w, RestartDies(writes)))
  {
    InterruptedRecoveryKeepsAccounts(w.db, w.now, writes);
    PartsOfRecovery(w.db, w.now, writes);
  }

  lemma StepKeepsSane(w: World, op: Op)
    requires Sane(w) && Enabled(w, op)
    ensures Sane(Step(w, op))
  {
    match op
    case Tick(seconds) => TickKeepsSane(w, seconds);
    case StartRun(id) => PrepareKeepsSane(w, id);
    case EndRun(outcome) => CompleteKeepsSane(w, outcome);
    case PollReviews(answers) => PollReviewsKeepsSane(w, answers);
    case Restart => RestartKeepsSane(w);
    case RestartDies(writes) => InterruptedRestartKeepsSane(w, writes);
    case _ => if JobOp(op) { JobOpKeepsSane(w, op); } else { QuietOpKeepsSane(w, op); }
  }

  /** Every world a run visits is sane. */
  lemma {:induction false} RunsAreSane(w: World, ops: seq<Op>)
    requires Sane(w) && Possible(w, ops)
    ensures Sane(Run(w, ops))
    decreases |ops|
  {
    if ops != [] {
      StepKeepsSane(w, ops[0]);
      RunsAreSane(Step(w, ops[0]), ops[1..]);
    }
  }

  /** From an empty installation, whatever happens: at most one job is marked running and at most one lease is live;
      nothing is marked running while the review slot is held, which always belongs to an in-flight record; and no
      issue's repair jobs use twice the deep budget. */
  lemma OneAgentOrOneReview(w: World, ops: seq<Op>, a: JobId, b: JobId, issue: nat)
    requires Installed(w) && Possible(w, ops)
    ensures var db := Run(w, ops).db;
            && (IsRunning(db.jobs, a) && IsRunning(db.jobs, b) ==> a == b)
            && (HoldsLease(db.jobs, a) && HoldsLease(db.jobs, b) ==> a == b)
            && (db.slot.Some? ==> !IsRunning(db.jobs, a))
            && R.SlotCovered(db)
            && Spent(db.jobs, issue) < 2 * DEEP_SECONDS
  {
    InstallationIsSane(w);
    RunsAreSane(w, ops);
    var db := Run(w, ops).db;
    assert IsRunning(db.jobs, a) ==> HoldsLease(db.jobs, a);
    assert IsRunning(db.jobs, b) ==> HoldsLease(db.jobs, b);
  }

  lemma MinorKeepsUnmarked(rows: seq<Row>, id: JobId, change: Job -> Job, k: JobId)
    requires Sound(rows) && forall job: Job :: Minor(job, change(job))
    requires !IsRunning(rows, k)
    ensures Sound(Update(rows, id, change)) && !IsRunning(Update(rows, id, change), k)
  {
    MinorUpdate(rows, id, change);
  }

  lemma AttemptMarksOnlyIts(db: Db, candidate: JobId, now: int, id: JobId)
    requires Sound(db.jobs) && !IsRunning(db.jobs, id) && IsRunning(Attempt(db, candidate, now).0.jobs, id)
    ensures candidate == id && Attempt(db, candidate, now).1 && WithStatus(db.jobs, {Running}) == []
    ensures Find(db.jobs, id).Some? && !Find(db.jobs, id).value.cancelled
  {
    if Claim(db, candidate, now).Ok? {
      ClaimAdmits(db, candidate, now);
      ClaimGrants(db, candidate, now);
    } else {
      MinorKeepsUnmarked(db.jobs, candidate, DelayedUntil(now + 60), id);
    }
  }

  lemma PrepareMarksOnlyIts(db: Db, candidate: JobId, now: int, id: JobId)
    requires Sound(db.jobs) && !IsRunning(db.jobs, id) && IsRunning(PrepareRun(db, candidate, now).0.jobs, id)
    ensures candidate == id && PrepareRun(db, candidate, now).1
    ensures Find(db.jobs, id).Some? && Preparable(db, Find(db.jobs, id).value, now)
    ensures !Find(db.jobs, id).value.cancelled
    ensures WithStatus(Update(db.jobs, id, WithContext()), {Running}) == []
  {
    var found := Find(db.jobs, candidate);
    if found.Some? && Preparable(db, found.value, now) {
      var ready := Update(db.jobs, candidate, WithContext());
      MinorKeepsUnmarked(db.jobs, candidate, WithContext(), id);
      AttemptMarksOnlyIts(db.(jobs := ready), candidate, now, id);
      FindIsRow(db.jobs, candidate);
      UpdateStores(db.jobs, candidate, WithContext());
    }
  }

  lemma ContextMarksNothing(rows: seq<Row>, id: JobId)
    requires Sound(rows) && WithStatus(Update(rows, id, WithContext()), {Running}) == []
    requires Find(rows, id).Some? && !Find(rows, id).value.cancelled
    ensures Idle(rows)
  {
    FindIsRow(rows, id);
    UpdateStores(rows, id, WithContext());
    IdleIsNoneListed(Update(rows, id, WithContext()));
    forall k ensures !IsRunning(rows, k) { assert !IsRunning(Update(rows, id, WithContext()), k); }
  }

  lemma OthersMarkNone(w: World, op: Op, id: JobId)
    requires Sane(w) && Enabled(w, op) && !op.StartRun? && !IsRunning(w.db.jobs, id)
    ensures !IsRunning(Step(w, op).db.jobs, id)
  {
    if JobOp(op) {
      JobOpIsBenign(w, op);
    } else {
      match op
      case EndRun(outcome) => CompleteCloses(w.db, w.service.agent.value, outcome, w.now);
      case PollReviews(answers) => R.PollTouchesOwn(w.db, answers, w.now);
      case Restart => RecoverCloses(w.db, w.now);
      case RestartDies(writes) =>
        InterruptedRecoveryKeepsAccounts(w.db, w.now, writes);
        PartsOfRecovery(w.db, w.now, writes);
      case Ingest(batch, cursor, debounce) => E.IngestLeavesJobs(w.db, batch, cursor, debounce, w.now);
      case _ =>
    }
  }

  /** The only step that marks a job running is a claim: the service is enabled, the quota open, the review slot free,
      nothing else marked running, and a job other than a triage has no owner hold on its issue. */
  lemma AgentsStartOnlyWhenClear(w: World, op: Op, id: JobId)
    requires Sane(w) && Enabled(w, op)
    requires !IsRunning(w.db.jobs, id) && IsRunning(Step(w, op).db.jobs, id)
    ensures op == StartRun(id)
    ensures w.db.enabled && ProviderQuota.Open(w.db.quota, w.now) && w.db.slot.None? && Idle(w.db.jobs)
    ensures Find(w.db.jobs, id).Some? && var job := Find(w.db.jobs, id).value;
              job.status.Queued? && !job.cancelled && job.nextAt <= w.now && (job.stage.Triage? || !OnHold(w.db, job.issue))
    ensures Step(w, op).service == Up(Some(id))
  {
    if !op.StartRun? { OthersMarkNone(w, op, id); }
    PrepareMarksOnlyIts(w.db, op.id, w.now, id);
    ContextMarksNothing(w.db.jobs, id);
  }
}
