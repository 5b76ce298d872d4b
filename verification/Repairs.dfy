/** One active repair per issue: which steps can break it, exactly when, and that a run which avoids them keeps it. */
module Repairs {
  import opened Contracts
  import opened JobStore
  import opened Tables
  import opened Scheduling
  import opened Lifecycle
  import opened Leases
  import opened Runs
  import opened Exclusion
  import opened Recovery
  import D = Dispatching
  import E = Events
  import R = ReviewResumption
  import O = OwnerComments
  import P = Preparation
  import JobChanges
  import History
  import Overlap

  // ---------------------------------------------------------------- steps that open a repair

  /** A repair of the issue that has come to rest: its status is terminal, but it was not cancelled. */
  ghost predicate Resting(rows: seq<Row>, k: JobId, issue: nat)
  {
    Find(rows, k).Some?
    && var job := Find(rows, k).value;
       Repair(job) && !job.cancelled && job.status in TERMINAL && job.issue == Some(issue)
  }

  /** An edit that makes an uncancelled job an active repair of the issue, which it was not. */
  ghost predicate EditOpens(rows: seq<Row>, k: JobId, e: Edit, issue: nat)
  {
    && Find(rows, k).Some? && !Find(rows, k).value.cancelled && !D.ActiveAt(rows, k, issue)
    && var next := Edited(Find(rows, k).value, e); D.ActiveRepair(next) && next.issue == Some(issue)
  }

  /** Read before the step: it makes job `k` an active repair of the issue. An owner's decision to continue does so to the
      repair it names, or makes one; an edit may; and a run that ends, or is recovered, does so to a job that was closed
      under its agent. `enqueue` makes a job only where none is active, so it is not among them. */
  ghost predicate Opens(w: World, op: Op, k: JobId, issue: nat)
  {
    match op
    case EditJob(id, e) => k == id && EditOpens(w.db.jobs, k, e, issue)
    case Decide(triage, action, repair, _, newId) =>
      && action.Continue? && Find(w.db.jobs, triage).Some? && Find(w.db.jobs, triage).value.issue.Some?
      && (if repair.Some? then k == repair.value && Resting(w.db.jobs, k, issue)
          else k == newId && Find(w.db.jobs, triage).value.issue == Some(issue))
    case EndRun(_) => w.service == Up(Some(k)) && Resting(w.db.jobs, k, issue)
    case Restart => HoldsLease(w.db.jobs, k) && Resting(w.db.jobs, k, issue)
    case RestartDies(writes) => writes > 0 && HoldsLease(w.db.jobs, k) && Resting(w.db.jobs, k, issue)
    case _ => false
  }

  /** The step opens a repair of the issue beside another one that is active. */
  ghost predicate Disputes(w: World, op: Op, issue: nat)
  {
    exists a, b :: Opens(w, op, a, issue) && D.ActiveAt(w.db.jobs, b, issue) && a != b
  }

  // ---------------------------------------------------------------- steps that open nothing

  lemma UpdateActivatesNone(rows: seq<Row>, id: JobId, change: Job -> Job)
    requires Sound(rows)
    requires forall job: Job :: change(job).id == job.id && change(job).issue == job.issue
                                && (D.ActiveRepair(change(job)) ==> D.ActiveRepair(job))
    ensures Mirrored(Update(rows, id, change)) && D.NoneActivated(rows, Update(rows, id, change))
  {
    FindIsRow(rows, id);
    UpdateStores(rows, id, change);
  }

  lemma {:induction false} ReleasingActivatesNone(rows: seq<Row>, jobs: seq<Job>)
    requires Mirrored(rows)
    ensures D.NoneActivated(rows, ReleaseAll(rows, jobs))
    decreases |jobs|
  {
    if jobs != [] {
      if Releasable(jobs[0]) {
        FindIsRow(rows, jobs[0].id);
        UpdateStores(rows, jobs[0].id, Release);
        var next := Update(rows, jobs[0].id, Release);
        assert D.NoneActivated(rows, next);
        ReleasingActivatesNone(next, jobs[1..]);
      } else {
        ReleasingActivatesNone(rows, jobs[1..]);
      }
    }
  }

  lemma {:induction false} ClosingActivatesNone(rows: seq<Row>, jobs: seq<Job>)
    requires Mirrored(rows)
    ensures Mirrored(O.CloseRepairs(rows, jobs)) && D.NoneActivated(rows, O.CloseRepairs(rows, jobs))
    decreases |jobs|
  {
    if jobs != [] {
      if Repair(jobs[0]) && !jobs[0].cancelled {
        FindIsRow(rows, jobs[0].id);
        UpdateStores(rows, jobs[0].id, O.Closing());
        var next := Update(rows, jobs[0].id, O.Closing());
        assert D.NoneActivated(rows, next);
        ClosingActivatesNone(next, jobs[1..]);
      } else {
        ClosingActivatesNone(rows, jobs[1..]);
      }
    }
  }

  lemma SavingShortActivatesNone(rows: seq<Row>, job: Job)
    requires Mirrored(rows) && !Repair(job)
    ensures Mirrored(Save(rows, job)) && D.NoneActivated(rows, Save(rows, job))
  {
    SaveStores(rows, job);
  }

  lemma PollingActivatesNone(db: Db, issue: nat, comments: seq<Comment>, newId: JobId)
    requires Sound(db.jobs)
    ensures D.NoneActivated(db.jobs, O.PollComments(db, issue, comments, newId).jobs)
  {
    var novel := O.Novel(db, issue, comments);
    if novel != [] && issue in db.origins {
      var waiting := O.FirstOpen(O.TriageJobs(db.jobs, issue));
      if waiting.Some? {
        UpdateActivatesNone(db.jobs, waiting.value.id, O.Extending(novel));
      } else {
        SavingShortActivatesNone(
          db.jobs, Fresh(newId, Triage, db.origins[issue].signature, db.origins[issue].incidentId, Some(issue), novel));
      }
    }
  }

  lemma AttemptActivatesNone(db: Db, id: JobId, now: int)
    requires Sound(db.jobs)
    ensures D.NoneActivated(db.jobs, Attempt(db, id, now).0.jobs)
  {
    if Claim(db, id, now).Ok? {
      ClaimAdmits(db, id, now);
      ClaimGrants(db, id, now);
    } else {
      UpdateActivatesNone(db.jobs, id, DelayedUntil(now + 60));
    }
  }

  lemma PreparingActivatesNone(db: Db, id: JobId, now: int)
    requires Sound(db.jobs)
    ensures D.NoneActivated(db.jobs, PrepareRun(db, id, now).0.jobs)
  {
    var found := Find(db.jobs, id);
    if found.Some? && Preparable(db, found.value, now) {
      UpdateActivatesNone(db.jobs, id, WithContext());
      JobChanges.MinorUpdate(db.jobs, id, WithContext());
      AttemptActivatesNone(db.(jobs := Update(db.jobs, id, WithContext())), id, now);
    }
  }

  /** Steps that only close, requeue or add short jobs. */
  lemma OthersOpenNothing(w: World, op: Op, issue: nat)
    requires Sane(w) && Enabled(w, op)
    requires !op.Enqueue? && !op.EditJob? && !op.Decide? && !op.EndRun? && !op.Restart? && !op.RestartDies?
    ensures D.NoneActivated(w.db.jobs, Step(w, op).db.jobs)
  {
    match op
    case Cancel(id) => UpdateActivatesNone(w.db.jobs, id, D.Cancelling());
    case ResetShortQuota(request) => ReleasingActivatesNone(w.db.jobs, WithStatus(w.db.jobs, {Queued}));
    case Schedule(signature, newId) =>
      if signature in w.db.incidents {
        SavingShortActivatesNone(w.db.jobs, Fresh(newId, Initial, signature, w.db.incidents[signature].incidentId, None, []));
      }
    case PollComments(number, comments, newId) => PollingActivatesNone(w.db, number, comments, newId);
    case StartRun(id) => PreparingActivatesNone(w.db, id, w.now);
    case PollReviews(answers) => R.PollTouchesOwn(w.db, answers, w.now);
    case Ingest(batch, cursor, debounce) => E.IngestLeavesJobs(w.db, batch, cursor, debounce, w.now);
    case _ =>
  }

  // ---------------------------------------------------------------- what an opening step does to each repair

  /** After the step exactly the repairs active before, and those it opens, are active. */
  ghost predicate OpensExactly(w: World, op: Op, issue: nat)
  {
    forall k :: D.ActiveAt(Step(w, op).db.jobs, k, issue) ==> D.ActiveAt(w.db.jobs, k, issue) || Opens(w, op, k, issue)
  }

  /** The repair opened, and every other active one, is active afterwards. */
  ghost predicate OpensTruly(w: World, op: Op, issue: nat)
  {
    forall a :: Opens(w, op, a, issue) ==>
      && D.ActiveAt(Step(w, op).db.jobs, a, issue)
      && forall b :: D.ActiveAt(w.db.jobs, b, issue) && a != b ==> D.ActiveAt(Step(w, op).db.jobs, b, issue)
  }

  lemma EditTracks(rows: seq<Row>, id: JobId, e: Edit, k: JobId, issue: nat)
    requires Sound(rows)
    ensures var next := Update(rows, id, Editing(e));
            && (k != id ==> (D.ActiveAt(next, k, issue) <==> D.ActiveAt(rows, k, issue)))
            && (EditOpens(rows, id, e, issue) ==> D.ActiveAt(next, id, issue))
            && (D.ActiveAt(next, id, issue) ==> D.ActiveAt(rows, id, issue) || EditOpens(rows, id, e, issue))
  {
    FindIsRow(rows, id);
    P.EditStores(rows, id, e);
  }

  lemma EditOpensExactly(w: World, id: JobId, e: Edit, issue: nat)
    requires Sane(w)
    ensures OpensExactly(w, EditJob(id, e), issue) && OpensTruly(w, EditJob(id, e), issue)
  {
    forall k ensures
      var rows, next := w.db.jobs, Step(w, EditJob(id, e)).db.jobs;
      && (k != id ==> (D.ActiveAt(next, k, issue) <==> D.ActiveAt(rows, k, issue)))
      && (EditOpens(rows, id, e, issue) ==> D.ActiveAt(next, id, issue))
      && (D.ActiveAt(next, id, issue) ==> D.ActiveAt(rows, id, issue) || EditOpens(rows, id, e, issue))
    {
      EditTracks(w.db.jobs, id, e, k, issue);
    }
  }

  /** The end of a run leaves its job as active as its cancellation allows, whatever was done to its status meanwhile. */
  ghost predicate Reawakens(rows: seq<Row>, next: seq<Row>, id: JobId)
    requires Find(rows, id).Some?
  {
    && (forall k :: k != id ==> Find(next, k) == Find(rows, k))
    && Find(next, id).Some?
    && var job, after := Find(rows, id).value, Find(next, id).value;
       && after.stage == job.stage && after.issue == job.issue
       && (if job.cancelled then after.status == Cancelled else after.status !in TERMINAL)
  }

  lemma FinishReawakens(rows: seq<Row>, job: Job, active: int, now: int)
    requires Sound(rows) && Find(rows, job.id) == Some(job) && !job.lease.Released?
    ensures Sound(Save(rows, Finished(job, active, now))) && Reawakens(rows, Save(rows, Finished(job, active, now)), job.id)
  {
    SaveReplaces(rows, Finished(job, active, now));
  }

  lemma MoveReawakens(rows: seq<Row>, next: seq<Row>, id: JobId, change: Job -> Job)
    requires Sound(rows) && Sound(next) && Find(rows, id).Some? && !Find(rows, id).value.cancelled && Reawakens(rows, next, id)
    requires Find(next, id).value.id == id
    requires forall job: Job :: var after := change(job);
               after.id == job.id && after.stage == job.stage && after.issue == job.issue && after.status !in TERMINAL
               && after.cancelled == job.cancelled
    ensures Reawakens(rows, Update(next, id, change), id)
  {
    UpdateStores(next, id, change);
  }

  lemma EndReawakens(db: Db, id: JobId, outcome: Outcome, now: int)
    requires Accounted(db.jobs, now) && HoldsLease(db.jobs, id)
    ensures Reawakens(db.jobs, CompleteRun(db, id, outcome, now).jobs, id)
  {
    FindIsRow(db.jobs, id);
    var job := Find(db.jobs, id).value;
    match outcome
    case Refused => FinishReawakens(db.jobs, job, 0, now);
    case Failed(active) => FinishReawakens(db.jobs, job, active, now);
    case Accepted(active) => AcceptReawakens(db.jobs, job, active, now);
    case AcceptedInPart(active) => StoreReawakens(db.jobs, job, active, now);
    case QuotaHit(active, delay) => PauseReawakens(db.jobs, job, active, PausedQuota(db, job, delay, now).until, now);
  }

  lemma PauseReawakens(rows: seq<Row>, job: Job, active: int, until: int, now: int)
    requires Sound(rows) && Find(rows, job.id) == Some(job) && !job.lease.Released?
    ensures Reawakens(rows, PauseRows(rows, job, active, until, now), job.id)
  {
    FinishReawakens(rows, job, active, now);
    var finished := Save(rows, Finished(job, active, now));
    if !job.cancelled {
      FindIsRow(finished, job.id);
      MoveReawakens(rows, finished, job.id, PausedUntil(until));
    }
  }

  lemma StoreReawakens(rows: seq<Row>, job: Job, active: int, now: int)
    requires Sound(rows) && Find(rows, job.id) == Some(job) && !job.lease.Released?
    ensures Sound(StoreRows(rows, job, active, now)) && Reawakens(rows, StoreRows(rows, job, active, now), job.id)
  {
    var stored := job.(hasResult := true);
    SaveReplaces(rows, stored);
    FinishReawakens(Save(rows, stored), stored, active, now);
  }

  lemma AcceptReawakens(rows: seq<Row>, job: Job, active: int, now: int)
    requires Sound(rows) && Find(rows, job.id) == Some(job) && !job.lease.Released?
    ensures Reawakens(rows, AcceptRows(rows, job, active, now), job.id)
  {
    StoreReawakens(rows, job, active, now);
    var finished := StoreRows(rows, job, active, now);
    if !job.cancelled {
      FindIsRow(finished, job.id);
      MoveReawakens(rows, finished, job.id, Publishable());
    }
  }

  lemma EndOpensExactly(w: World, outcome: Outcome, issue: nat)
    requires Sane(w) && Enabled(w, EndRun(outcome))
    ensures OpensExactly(w, EndRun(outcome), issue) && OpensTruly(w, EndRun(outcome), issue)
  {
    EndReawakens(w.db, w.service.agent.value, outcome, w.now);
  }

  lemma ResumedIsActive(job: Job, now: int)
    requires job.cancelled ==> job.status == Cancelled
    ensures Resumed(job, now).issue == job.issue
    ensures D.ActiveRepair(Resumed(job, now))
            <==> D.ActiveRepair(job) || (job.lease.Held? && Repair(job) && !job.cancelled && job.status in TERMINAL)
  {
  }

  lemma RecoverTracks(db: Db, now: int, k: JobId, issue: nat)
    requires Sound(db.jobs)
    ensures D.ActiveAt(Recover(db, now).jobs, k, issue)
            <==> D.ActiveAt(db.jobs, k, issue) || (HoldsLease(db.jobs, k) && Resting(db.jobs, k, issue))
  {
    RecoverResumesEach(db, now, k);
    var next := Recover(db, now).jobs;
    if Find(db.jobs, k).Some? {
      ResumedIsActive(Find(db.jobs, k).value, now);
      assert Find(next, k) == Some(Resumed(Find(db.jobs, k).value, now));
    }
  }

  lemma RestartOpensExactly(w: World, issue: nat)
    requires Sane(w)
    ensures OpensExactly(w, Restart, issue) && OpensTruly(w, Restart, issue)
  {
    forall k ensures D.ActiveAt(Recover(w.db, w.now).jobs, k, issue)
                     <==> D.ActiveAt(w.db.jobs, k, issue) || (HoldsLease(w.db.jobs, k) && Resting(w.db.jobs, k, issue))
    {
      RecoverTracks(w.db, w.now, k, issue);
    }
  }

  lemma InterruptedRestartOpensExactly(w: World, writes: nat, issue: nat)
    requires Sane(w)
    ensures OpensExactly(w, RestartDies(writes), issue) && OpensTruly(w, RestartDies(writes), issue)
  {
    forall k ensures D.ActiveAt(RecoverPart(w.db, w.now, writes).jobs, k, issue)
                     <==> D.ActiveAt(w.db.jobs, k, issue)
                          || (writes > 0 && HoldsLease(w.db.jobs, k) && Resting(w.db.jobs, k, issue))
    {
      PartTracks(w.db, w.now, writes, k, issue);
    }
  }

  lemma PartTracks(db: Db, now: int, writes: nat, k: JobId, issue: nat)
    requires Accounted(db.jobs, now)
    ensures D.ActiveAt(RecoverPart(db, now, writes).jobs, k, issue)
            <==> D.ActiveAt(db.jobs, k, issue) || (writes > 0 && HoldsLease(db.jobs, k) && Resting(db.jobs, k, issue))
  {
    PartStores(db, now, writes, k);
    FindIsRow(db.jobs, k);
    if Find(db.jobs, k).Some? {
      ResumedIsActive(Find(db.jobs, k).value, now);
      PartIsActive(Find(db.jobs, k).value, now);
    }
  }

  lemma PartIsActive(job: Job, now: int)
    requires job.cancelled ==> job.status == Cancelled
    ensures job.lease.Held? ==>
              && Finished(job, 0, now).issue == job.issue
              && (D.ActiveRepair(Finished(job, 0, now))
                  <==> D.ActiveRepair(job) || (Repair(job) && !job.cancelled && job.status in TERMINAL))
  {
  }

  // ---------------------------------------------------------------- decisions

  lemma ResumeOpens(db: Db, triage: Job, issue: nat, repair: Option<JobId>, published: bool, newId: JobId)
    requires Sound(db.jobs) && Find(db.jobs, newId).None?
    requires repair.Some? && Find(db.jobs, repair.value).Some? ==> Repair(Find(db.jobs, repair.value).value)
    ensures var next := O.Resume(db, triage, issue, repair, published, newId).jobs;
            var chosen := if repair.Some? then repair.value else newId;
            && Mirrored(next)
            && (forall k :: k != chosen ==> Find(next, k) == Find(db.jobs, k))
            && (forall n :: D.ActiveAt(next, chosen, n) <==>
                  if repair.Some? then D.ActiveAt(db.jobs, chosen, n) || Resting(db.jobs, chosen, n) else n == issue)
  {
    if repair.None? {
      SaveStores(db.jobs, Fresh(newId, Deep, triage.signature, triage.incidentId, Some(issue), []));
    } else {
      FindIsRow(db.jobs, repair.value);
      UpdateStores(db.jobs, repair.value, O.Reopening(Started(db, repair.value), published));
    }
  }

  lemma TriageClosesAlone(rows: seq<Row>, triage: JobId, k: JobId, issue: nat)
    requires Mirrored(rows) && Find(rows, triage).Some? && Find(rows, triage).value.stage.Triage?
    ensures D.ActiveAt(Update(rows, triage, O.Closing()), k, issue) <==> D.ActiveAt(rows, k, issue)
  {
    FindIsRow(rows, triage);
    UpdateStores(rows, triage, O.Closing());
  }

  /** What a decision to continue opens. */
  ghost predicate ContinueOpens(rows: seq<Row>, triage: Job, repair: Option<JobId>, newId: JobId, k: JobId, issue: nat)
  {
    if repair.Some? then k == repair.value && Resting(rows, k, issue) else k == newId && triage.issue == Some(issue)
  }

  lemma ContinueTracks(db: Db, triage: Job, repair: Option<JobId>, published: bool, newId: JobId, k: JobId, issue: nat)
    requires Sound(db.jobs) && Find(db.jobs, newId).None?
    requires Find(db.jobs, triage.id) == Some(triage) && triage.stage.Triage? && triage.issue.Some?
    requires repair.Some? && Find(db.jobs, repair.value).Some? ==> Repair(Find(db.jobs, repair.value).value)
    ensures D.ActiveAt(O.Decide(db, triage.id, O.Continue, repair, published, newId).jobs, k, issue)
            <==> D.ActiveAt(db.jobs, k, issue) || ContinueOpens(db.jobs, triage, repair, newId, k, issue)
  {
    var acted := O.Resume(db, triage, triage.issue.value, repair, published, newId);
    ResumeOpens(db, triage, triage.issue.value, repair, published, newId);
    assert O.Decide(db, triage.id, O.Continue, repair, published, newId).jobs == Update(acted.jobs, triage.id, O.Closing());
    TriageClosesAlone(acted.jobs, triage.id, k, issue);
  }

  lemma ContinueOpensExactly(w: World, triage: JobId, repair: Option<JobId>, published: bool, newId: JobId, issue: nat)
    requires Sane(w) && Enabled(w, Decide(triage, O.Continue, repair, published, newId))
    ensures OpensExactly(w, Decide(triage, O.Continue, repair, published, newId), issue)
    ensures OpensTruly(w, Decide(triage, O.Continue, repair, published, newId), issue)
  {
    var found := Find(w.db.jobs, triage);
    if found.Some? && found.value.issue.Some? {
      FindIsRow(w.db.jobs, triage);
      forall k ensures D.ActiveAt(Step(w, Decide(triage, O.Continue, repair, published, newId)).db.jobs, k, issue)
                       <==> D.ActiveAt(w.db.jobs, k, issue) || ContinueOpens(w.db.jobs, found.value, repair, newId, k, issue)
      {
        ContinueTracks(w.db, found.value, repair, published, newId, k, issue);
      }
    }
  }

  lemma DecisionClosesOnly(db: Db, triage: JobId, action: O.Action, repair: Option<JobId>, published: bool, newId: JobId)
    requires Sound(db.jobs) && !action.Continue?
    ensures D.NoneActivated(db.jobs, O.Decide(db, triage, action, repair, published, newId).jobs)
  {
    var found := Find(db.jobs, triage);
    if found.Some? && found.value.issue.Some? {
      var acted := O.Act(db, found.value, found.value.issue.value, action, repair, published, newId).jobs;
      ClosingActivatesNone(db.jobs, IssueJobs(db.jobs, found.value.issue));
      ClosingOneActivatesNone(acted, triage);
    }
  }

  lemma ClosingOneActivatesNone(rows: seq<Row>, id: JobId)
    requires Mirrored(rows)
    ensures D.NoneActivated(rows, Update(rows, id, O.Closing()))
  {
    FindIsRow(rows, id);
    UpdateStores(rows, id, O.Closing());
  }

  lemma OtherDecisionsOpenNothing(w: World, op: Op, issue: nat)
    requires Sane(w) && Enabled(w, op) && op.Decide? && !op.action.Continue?
    ensures OpensExactly(w, op, issue) && OpensTruly(w, op, issue)
  {
    DecisionClosesOnly(w.db, op.triage, op.action, op.repair, op.published, op.newId);
  }

  // ---------------------------------------------------------------- main results

  lemma StepOpensExactly(w: World, op: Op, issue: nat)
    requires Sane(w) && Enabled(w, op) && !op.Enqueue?
    ensures OpensExactly(w, op, issue) && OpensTruly(w, op, issue)
  {
    match op
    case EditJob(id, e) => EditOpensExactly(w, id, e, issue);
    case EndRun(outcome) => EndOpensExactly(w, outcome, issue);
    case Restart => RestartOpensExactly(w, issue);
    case RestartDies(writes) => InterruptedRestartOpensExactly(w, writes, issue);
    case Decide(triage, action, repair, published, newId) =>
      if action.Continue? {
        ContinueOpensExactly(w, triage, repair, published, newId, issue);
      } else {
        OtherDecisionsOpenNothing(w, op, issue);
      }
    case _ => OthersOpenNothing(w, op, issue);
  }

  lemma OnlyOneOpens(w: World, op: Op, a: JobId, b: JobId, issue: nat)
    requires Sane(w) && Opens(w, op, a, issue) && Opens(w, op, b, issue)
    ensures a == b
  {
  }

  /** A step of any kind keeps one active repair per issue if and only if it does not open a repair of the issue beside
      another one that is active. */
  lemma StepKeepsOneActiveExactly(w: World, op: Op, issue: nat)
    requires Sane(w) && Enabled(w, op) && D.OneActive(w.db.jobs, issue)
    ensures D.OneActive(Step(w, op).db.jobs, issue) <==> !Disputes(w, op, issue)
  {
    if op.Enqueue? {
      D.EnqueueKeepsOneActive(w.db, op.issue, op.event, op.generation, op.newId, issue);
    } else {
      StepOpensExactly(w, op, issue);
      var next := Step(w, op).db.jobs;
      if !Disputes(w, op, issue) {
        forall a, b | D.ActiveAt(next, a, issue) && D.ActiveAt(next, b, issue) ensures a == b {
          if Opens(w, op, a, issue) && Opens(w, op, b, issue) { OnlyOneOpens(w, op, a, b, issue); }
        }
      }
    }
  }

  /** A repair closed while its agent works comes back when the run ends, beside the repair made meanwhile. */
  lemma ClosedRepairComesBack(w: World, outcome: Outcome, agent: JobId, other: JobId, issue: nat)
    requires Sane(w) && w.service == Up(Some(agent)) && Resting(w.db.jobs, agent, issue)
    requires D.ActiveAt(w.db.jobs, other, issue) && D.OneActive(w.db.jobs, issue)
    ensures !D.OneActive(Step(w, EndRun(outcome)).db.jobs, issue)
  {
    assert Opens(w, EndRun(outcome), agent, issue);
    StepKeepsOneActiveExactly(w, EndRun(outcome), issue);
  }

  /** No step of the run opens a repair of the issue beside an active one. */
  ghost predicate Undisputed(w: World, ops: seq<Op>, issue: nat)
    decreases |ops|
  {
    ops == [] || (!Disputes(w, ops[0], issue) && Undisputed(Step(w, ops[0]), ops[1..], issue))
  }

  /** The issue has at most one active repair in every world of the run. */
  ghost predicate OneActiveThroughout(w: World, ops: seq<Op>, issue: nat)
    decreases |ops|
  {
    D.OneActive(w.db.jobs, issue) && (ops == [] || OneActiveThroughout(Step(w, ops[0]), ops[1..], issue))
  }

  lemma {:induction false} RunKeepsOneActiveExactly(w: World, ops: seq<Op>, issue: nat)
    requires Sane(w) && Possible(w, ops) && D.OneActive(w.db.jobs, issue)
    ensures OneActiveThroughout(w, ops, issue) <==> Undisputed(w, ops, issue)
    decreases |ops|
  {
    if ops != [] {
      StepKeepsSane(w, ops[0]);
      StepKeepsOneActiveExactly(w, ops[0], issue);
      if D.OneActive(Step(w, ops[0]).db.jobs, issue) {
        RunKeepsOneActiveExactly(Step(w, ops[0]), ops[1..], issue);
      } else {
        assert !OneActiveThroughout(Step(w, ops[0]), ops[1..], issue);
      }
    }
  }

  /** From an empty installation: an issue has at most one active repair in every world of a run if and only if no step of
      the run opens a repair of the issue beside an active one. */
  lemma OneRepairUnlessDisputed(w: World, ops: seq<Op>, issue: nat)
    requires Installed(w) && Possible(w, ops)
    ensures OneActiveThroughout(w, ops, issue) <==> Undisputed(w, ops, issue)
  {
    InstallationIsSane(w);
    RunKeepsOneActiveExactly(w, ops, issue);
  }

  // ---------------------------------------------------------------- a run in which two repairs are active

  const PUBLISHED := UNCHANGED.(status := Some(WaitingCi))

  const READY := UNCHANGED.(status := Some(Ready))

  /** New feedback returns a ready job to the queue. */
  const RETURNED := UNCHANGED.(status := Some(Queued), stage := Some(Revise), rounds := Some(1), hasResult := Some(false),
                               nextAt := Some(0), attempts := Some(0))

  const ORIGIN := Origin("s", 1)

  const MADE := Fresh(1, Deep, "s", 1, Some(1), [])

  /** A service whose one issue has one repair, uncancelled, and no other job. */
  ghost predicate Lone(w: World)
  {
    && Sane(w) && w.service.Up?
    && 1 in w.db.origins && "2" !in w.db.dispatches && w.db.holds == {}
    && (forall k :: k != 1 ==> Find(w.db.jobs, k).None?)
    && Find(w.db.jobs, 1).Some?
    && var job := Find(w.db.jobs, 1).value; Repair(job) && !job.cancelled && job.issue == Some(1)
  }

  /** And the pull request of its repair is ready. */
  ghost predicate OneReady(w: World)
  {
    Lone(w) && w.service == Up(None) && Find(w.db.jobs, 1).value.status.Ready?
  }

  /** The first event of an enabled installation has queued a repair. */
  function RepairQueued(): (w: World)
  {
    var db := EMPTY.(enabled := true, origins := map[1 := ORIGIN]);
    World(D.Reserve(Put(db, MADE), 1, "1", None, 1), Up(None), 0, [], [])
  }

  /** An enabled service that knows the issue's origin. */
  function OriginKnown(): (w: World) { World(EMPTY.(enabled := true, origins := map[1 := ORIGIN]), Up(None), 0, [], []) }

  lemma OriginIsKnown() returns (ops: seq<Op>)
    ensures Possible(Overlap.INSTALLED, ops) && Run(Overlap.INSTALLED, ops) == OriginKnown()
  {
    ops := [];
    Overlap.RunGoesOn(Overlap.INSTALLED, ops, Restart);
    ops := ops + [Restart];
    assert Run(Overlap.INSTALLED, ops) == World(EMPTY, Up(None), 0, [], []);
    Overlap.RunGoesOn(Overlap.INSTALLED, ops, SetEnabled(true));
    ops := ops + [SetEnabled(true)];
    Overlap.RunGoesOn(Overlap.INSTALLED, ops, RecordOrigin(1, ORIGIN));
    ops := ops + [RecordOrigin(1, ORIGIN)];
  }

  lemma FirstRepairIsQueued() returns (ops: seq<Op>)
    ensures Possible(Overlap.INSTALLED, ops) && Run(Overlap.INSTALLED, ops) == RepairQueued()
  {
    ops := OriginIsKnown();
    assert D.FirstActiveRepair(IssueJobs(OriginKnown().db.jobs, Some(1))).None?;
    Overlap.RunGoesOn(Overlap.INSTALLED, ops, Op.Enqueue(1, "1", None, 1));
    ops := ops + [Op.Enqueue(1, "1", None, 1)];
  }

  lemma QueuedRepairIsLone()
    requires Sane(RepairQueued())
    ensures Lone(RepairQueued()) && Find(RepairQueued().db.jobs, 1) == Some(MADE)
  {
    forall k ensures Find(RepairQueued().db.jobs, k) == if k == 1 then Some(MADE) else None { FindSaved([], MADE, k); }
  }

  lemma QueuedRepairIsPreparable()
    ensures Preparable(RepairQueued().db, MADE, 0)
  {
    QueuedRepairIsFresh();
  }

  lemma QueuedRepairIsFresh()
    ensures var db := RepairQueued().db;
            !OverBudget(db, MADE) && JobLaunchAfter(db, MADE, 0) == 0 && ProviderAvailable(db, 0) && !Blocked(db, MADE)
  {
    var db := RepairQueued().db;
    QueuedRepairIsAlone();
    var one := [MADE];
    assert one[..0] == [];
    assert CyclesOf(one, db) == 0;
  }

  lemma QueuedRepairIsAlone()
    ensures IssueJobs(RepairQueued().db.jobs, Some(1)) == [MADE] && Spent(RepairQueued().db.jobs, 1) == 0
  {
    assert RepairQueued().db.jobs == Save([], MADE);
    OneRow();
    OneRowIsListed(Row(1, Some(1), Queued, MADE), Some(1));
    SpentAfterSave([], MADE, 1);
  }

  lemma OneRow()
    ensures Save([], MADE) == [Row(1, Some(1), Queued, MADE)] && Without([], 1) == []
  {
  }

  lemma OneRowIsListed(row: Row, issue: Option<nat>)
    requires row.issueColumn == issue
    ensures IssueJobs([row], issue) == [row.data]
  {
    var keep := (r: Row) => r.issueColumn == issue;
    assert Select([row][..0], keep) == [];
    assert Select([row], keep) == [row.data];
  }

  lemma ClaimOfLoneRepair(db: Db, job: Job)
    requires Sound(db.jobs) && Find(db.jobs, 1) == Some(job) && forall k :: k != 1 ==> Find(db.jobs, k).None?
    requires job.stage.Deep? && job.status.Queued? && !job.cancelled && job.activeSeconds == 0 && job.issue == Some(1)
    requires db.enabled && ProviderAvailable(db, 0) && Spent(Without(db.jobs, 1), 1) == 0 && JobLaunchAfter(db, job, 0) <= 0
    ensures Claim(db, 1, 0).Ok?
  {
    FindIsRow(db.jobs, 1);
    IdleIsNoneListed(db.jobs);
  }

  lemma QueuedRepairStarts()
    ensures var (started, runs) := PrepareRun(RepairQueued().db, 1, 0);
            && runs
            && Find(started.jobs, 1).Some?
            && (var job := Find(started.jobs, 1).value; job.stage.Deep? && !job.cancelled && job.issue == Some(1))
            && forall k :: k != 1 ==> Find(started.jobs, k).None?
  {
    var db := RepairQueued().db;
    SaveStores([], MADE);
    QueuedRepairIsPreparable();
    var ready := db.(jobs := Update(db.jobs, 1, WithContext()));
    UpdateStores(db.jobs, 1, WithContext());
    JobChanges.MinorUpdate(db.jobs, 1, WithContext());
    assert Spent(Without(ready.jobs, 1), 1) == 0 by {
      assert Without(db.jobs, 1) == [];
      assert Without(ready.jobs, 1) == [];
    }
    ClaimOfLoneRepair(ready, MADE.(hasContext := true));
    ClaimGrants(ready, 1, 0);
  }

  lemma StartKeepsLone(w: World)
    requires w == RepairQueued() && Sane(w)
    ensures Lone(Step(w, StartRun(1))) && Step(w, StartRun(1)).service == Up(Some(1))
  {
    QueuedRepairIsLone();
    QueuedRepairStarts();
    StepKeepsSane(w, StartRun(1));
    History.PrepareFrame(w.db, 1, 0);
  }

  lemma EndKeepsLone(w: World)
    requires Lone(w) && w.service == Up(Some(1))
    ensures Lone(Step(w, EndRun(Accepted(0)))) && Step(w, EndRun(Accepted(0))).service == Up(None)
  {
    EndReawakens(w.db, 1, Accepted(0), w.now);
    StepKeepsSane(w, EndRun(Accepted(0)));
    CompleteFrame(w.db, 1, Accepted(0), w.now);
  }

  lemma EditKeepsLone(w: World, e: Edit)
    requires Lone(w) && e in {PUBLISHED, READY}
    ensures var next := Step(w, EditJob(1, e));
            Lone(next) && next.service == w.service && Some(Find(next.db.jobs, 1).value.status) == e.status
  {
    FindIsRow(w.db.jobs, 1);
    P.EditStores(w.db.jobs, 1, e);
    StepKeepsSane(w, EditJob(1, e));
  }

  lemma FirstRepairIsAccepted() returns (ops: seq<Op>)
    ensures Possible(Overlap.INSTALLED, ops)
    ensures Lone(Run(Overlap.INSTALLED, ops)) && Run(Overlap.INSTALLED, ops).service == Up(None)
  {
    ops := FirstRepairIsQueued();
    InstallationIsSane(Overlap.INSTALLED);
    RunsAreSane(Overlap.INSTALLED, ops);
    StartKeepsLone(Run(Overlap.INSTALLED, ops));
    Overlap.RunGoesOn(Overlap.INSTALLED, ops, StartRun(1));
    ops := ops + [StartRun(1)];
    EndKeepsLone(Run(Overlap.INSTALLED, ops));
    Overlap.RunGoesOn(Overlap.INSTALLED, ops, EndRun(Accepted(0)));
    ops := ops + [EndRun(Accepted(0))];
  }

  /** The repair runs, its result is accepted and published, and its pull request passes every check. */
  lemma FirstRepairIsReady() returns (ops: seq<Op>)
    ensures Possible(Overlap.INSTALLED, ops) && OneReady(Run(Overlap.INSTALLED, ops))
  {
    ops := FirstRepairIsAccepted();
    EditKeepsLone(Run(Overlap.INSTALLED, ops), PUBLISHED);
    Overlap.RunGoesOn(Overlap.INSTALLED, ops, EditJob(1, PUBLISHED));
    ops := ops + [EditJob(1, PUBLISHED)];
    EditKeepsLone(Run(Overlap.INSTALLED, ops), READY);
    Overlap.RunGoesOn(Overlap.INSTALLED, ops, EditJob(1, READY));
    ops := ops + [EditJob(1, READY)];
  }

  /** From an installation: an issue whose pull request is ready takes a new event as a second repair, and new feedback
      returns the first one beside it. */
  lemma ReadyRepairReturnsBesideAnother() returns (ops: seq<Op>)
    ensures Installed(Overlap.INSTALLED) && Possible(Overlap.INSTALLED, ops)
    ensures !D.OneActive(Run(Overlap.INSTALLED, ops).db.jobs, 1)
  {
    ops := FirstRepairIsReady();
    var w := Run(Overlap.INSTALLED, ops);
    D.ReadyJobReturns(w.db, 1, "2", 1, 2);
    var second := Op.Enqueue(1, "2", None, 2);
    StepKeepsSane(w, second);
    Overlap.RunGoesOn(Overlap.INSTALLED, ops, second);
    ops := ops + [second];
    SecondRepairDisputes(w);
    StepKeepsOneActiveExactly(Step(w, second), EditJob(1, RETURNED), 1);
    Overlap.RunGoesOn(Overlap.INSTALLED, ops, EditJob(1, RETURNED));
    ops := ops + [EditJob(1, RETURNED)];
  }

  lemma SecondRepairDisputes(w: World)
    requires OneReady(w)
    ensures var next := Step(w, Op.Enqueue(1, "2", None, 2));
            D.OneActive(next.db.jobs, 1) && Disputes(next, EditJob(1, RETURNED), 1)
  {
    D.ReadyJobReturns(w.db, 1, "2", 1, 2);
    SecondRepairIsStored(w);
    var next := Step(w, Op.Enqueue(1, "2", None, 2));
    assert Opens(next, EditJob(1, RETURNED), 1, 1);
  }

  lemma SecondRepairIsStored(w: World)
    requires OneReady(w)
    ensures var next := Step(w, Op.Enqueue(1, "2", None, 2)).db.jobs;
            D.ActiveAt(next, 2, 1) && Find(next, 1) == Find(w.db.jobs, 1)
  {
    NoActiveIsListed(w.db.jobs);
    var made := Fresh(2, Deep, w.db.origins[1].signature, w.db.origins[1].incidentId, Some(1), []);
    SaveStores(w.db.jobs, made);
    assert Step(w, Op.Enqueue(1, "2", None, 2)).db.jobs == Save(w.db.jobs, made);
  }

  lemma NoActiveIsListed(rows: seq<Row>)
    requires Mirrored(rows) && forall k :: !D.ActiveAt(rows, k, 1)
    ensures D.FirstActiveRepair(IssueJobs(rows, Some(1))).None?
  {
    var listed := IssueJobs(rows, Some(1));
    D.FirstActiveRepairFinds(listed);
    QueriesFind(rows, {}, Some(1));
    var active := D.FirstActiveRepair(listed);
    assert active.Some? ==> D.ActiveAt(rows, active.value.id, 1);
  }
}
