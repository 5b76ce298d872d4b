/** Changes to the job table that leave leases, budgets and cancellations alone, and the operations made of them. */
module JobChanges {
  import opened Contracts
  import opened JobStore
  import opened Tables
  import opened Scheduling
  import opened Lifecycle
  import D = Dispatching
  import E = Events
  import O = OwnerComments

  /** A change no accounting notices and no comment is lost by; saving it settles cancellation. */
  predicate Minor(job: Job, next: Job) { Kin(job, next) && next.ownerComments == job.ownerComments }

  predicate Kin(job: Job, next: Job)
  {
    && next.id == job.id
    && Short(next) == Short(job) && next.stage.Triage? == job.stage.Triage?
    && (!job.stage.Initial? ==> next.issue == job.issue)
    && next.activeSeconds == job.activeSeconds && next.remainingSeconds == job.remainingSeconds && next.lease == job.lease
    && (next.status.Running? ==> job.status.Running?)
  }

  ghost predicate Gentle(job: Job, next: Job)
  {
    && Kin(job, next)
    && (job.cancelled ==> next.cancelled)
  }

  ghost predicate Newborn(job: Job)
  {
    job.activeSeconds == 0 && job.lease.Never? && !job.status.Running?
  }

  /** Old jobs change gently, new ones have not run, and no issue's repair time moves. */
  ghost predicate Benign(rows: seq<Row>, next: seq<Row>)
  {
    && Sound(next)
    && (forall n :: Spent(next, n) == Spent(rows, n))
    && (forall k :: Find(rows, k).Some? ==> Find(next, k).Some? && Gentle(Find(rows, k).value, Find(next, k).value))
    && (forall k :: Find(rows, k).None? && Find(next, k).Some? ==> Newborn(Find(next, k).value))
  }

  /** Every triage job was one before, of the same issue and with the same comments. */
  ghost predicate Silent(rows: seq<Row>, next: seq<Row>)
  {
    forall k :: Find(next, k).Some? && Find(next, k).value.stage.Triage? ==>
      && Find(rows, k).Some?
      && var before, after := Find(rows, k).value, Find(next, k).value;
         before.stage.Triage? && before.issue == after.issue && before.ownerComments == after.ownerComments
  }

  lemma SilentTwice(a: seq<Row>, b: seq<Row>, c: seq<Row>)
    requires Silent(a, b) && Silent(b, c)
    ensures Silent(a, c)
  {
  }

  lemma BenignTwice(a: seq<Row>, b: seq<Row>, c: seq<Row>)
    requires Benign(a, b) && Benign(b, c)
    ensures Benign(a, c)
  {
  }

  ghost predicate Mild(rows: seq<Row>, next: seq<Row>) { Benign(rows, next) && Silent(rows, next) }

  lemma MildTwice(a: seq<Row>, b: seq<Row>, c: seq<Row>)
    requires Mild(a, b) && Mild(b, c)
    ensures Mild(a, c)
  {
    BenignTwice(a, b, c);
    SilentTwice(a, b, c);
  }

  lemma SaveKeepsSpent(rows: seq<Row>, job: Job, n: nat)
    requires Mirrored(rows)
    requires match Find(rows, job.id) case Some(before) => Cost(Settled(rows, job), n) == Cost(before, n)
                                      case None => Cost(job, n) == 0
    ensures Spent(Save(rows, job), n) == Spent(rows, n)
  {
    SpentSplits(rows, job.id, n);
    SpentAfterSave(rows, job, n);
  }

  lemma SavedIsGentle(rows: seq<Row>, job: Job)
    requires Sound(rows)
    requires match Find(rows, job.id) case Some(before) => Kin(before, job) case None => Newborn(job)
    ensures match Find(rows, job.id) case Some(before) => Gentle(before, Settled(rows, job)) case None => Newborn(Settled(rows, job))
    ensures Settled(rows, job).cancelled ==> Settled(rows, job).status == Cancelled
    ensures Settled(rows, job).id == job.id
    ensures forall n :: Cost(Settled(rows, job), n) == Cost(job, n)
  {
  }

  lemma StoredIsBenign(rows: seq<Row>, next: seq<Row>, stored: Job)
    requires Sound(rows) && Mirrored(next)
    requires forall k :: Find(next, k) == if k == stored.id then Some(stored) else Find(rows, k)
    requires stored.cancelled ==> stored.status == Cancelled
    requires match Find(rows, stored.id) case Some(before) => Gentle(before, stored) case None => Newborn(stored)
    requires forall n :: Spent(next, n) == Spent(rows, n)
    ensures Benign(rows, next)
  {
  }

  lemma KinKeepsSpent(rows: seq<Row>, job: Job)
    requires Sound(rows)
    requires match Find(rows, job.id) case Some(before) => Kin(before, job) case None => Newborn(job)
    ensures forall n :: Spent(Save(rows, job), n) == Spent(rows, n)
  {
    SavedIsGentle(rows, job);
    forall n: nat ensures Spent(Save(rows, job), n) == Spent(rows, n) {
      SameCost(rows, job, n);
      SaveKeepsSpent(rows, job, n);
    }
  }

  lemma SameCost(rows: seq<Row>, job: Job, n: nat)
    requires match Find(rows, job.id) case Some(before) => Kin(before, job) case None => Newborn(job)
    ensures match Find(rows, job.id) case Some(before) => Cost(job, n) == Cost(before, n) case None => Cost(job, n) == 0
  {
  }

  lemma KinIsBenign(rows: seq<Row>, job: Job)
    requires Sound(rows)
    requires match Find(rows, job.id) case Some(before) => Kin(before, job) case None => Newborn(job)
    ensures Benign(rows, Save(rows, job))
  {
    SaveStores(rows, job);
    SavedIsGentle(rows, job);
    KinKeepsSpent(rows, job);
    StoredIsBenign(rows, Save(rows, job), Settled(rows, job));
  }

  lemma SaveIsBenign(rows: seq<Row>, job: Job)
    requires Sound(rows)
    requires match Find(rows, job.id) case Some(before) => Minor(before, job) case None => Newborn(job) && !job.stage.Triage?
    ensures Mild(rows, Save(rows, job))
  {
    KinIsBenign(rows, job);
    SaveStores(rows, job);
  }

  lemma UpdateIsBenign(rows: seq<Row>, id: JobId, change: Job -> Job)
    requires Sound(rows)
    requires Find(rows, id).Some? ==> Find(rows, id).value.id == id && Minor(Find(rows, id).value, change(Find(rows, id).value))
    ensures Mild(rows, Update(rows, id, change))
  {
    if Find(rows, id).Some? { SaveIsBenign(rows, change(Find(rows, id).value)); }
  }

  lemma MinorUpdate(rows: seq<Row>, id: JobId, change: Job -> Job)
    requires Sound(rows)
    requires forall job: Job :: Minor(job, change(job))
    ensures Mild(rows, Update(rows, id, change))
    ensures forall k :: Find(rows, k).None? ==> Find(Update(rows, id, change), k).None?
  {
    FindIsRow(rows, id);
    if Find(rows, id).Some? { UpdateStores(rows, id, change); }
    UpdateIsBenign(rows, id, change);
  }

  // ---------------------------------------------------------------- operations made of minor changes

  lemma {:induction false} CancelTriageIsBenign(rows: seq<Row>, jobs: seq<Job>)
    requires Sound(rows)
    ensures Mild(rows, D.CancelTriage(rows, jobs))
    ensures forall k :: Find(rows, k).None? ==> Find(D.CancelTriage(rows, jobs), k).None?
    decreases |jobs|
  {
    if jobs != [] {
      var change := D.Cancelling();
      if D.ActiveTriage(jobs[0]) {
        MinorUpdate(rows, jobs[0].id, change);
        CancelTriageIsBenign(Update(rows, jobs[0].id, change), jobs[1..]);
      } else {
        CancelTriageIsBenign(rows, jobs[1..]);
      }
    }
  }

  lemma {:induction false} CloseRepairsIsBenign(rows: seq<Row>, jobs: seq<Job>)
    requires Sound(rows)
    ensures Mild(rows, O.CloseRepairs(rows, jobs))
    decreases |jobs|
  {
    if jobs != [] {
      var change := O.Closing();
      if Repair(jobs[0]) && !jobs[0].cancelled {
        MinorUpdate(rows, jobs[0].id, change);
        CloseRepairsIsBenign(Update(rows, jobs[0].id, change), jobs[1..]);
      } else {
        CloseRepairsIsBenign(rows, jobs[1..]);
      }
    }
  }

  lemma {:induction false} ReleaseAllIsBenign(rows: seq<Row>, jobs: seq<Job>)
    requires Sound(rows)
    ensures Mild(rows, ReleaseAll(rows, jobs))
    decreases |jobs|
  {
    if jobs != [] {
      if Releasable(jobs[0]) {
        MinorUpdate(rows, jobs[0].id, Release);
        ReleaseAllIsBenign(Update(rows, jobs[0].id, Release), jobs[1..]);
      } else {
        ReleaseAllIsBenign(rows, jobs[1..]);
      }
    }
  }

  lemma {:induction false} ResumeAllIsBenign(rows: seq<Row>, jobs: seq<Job>)
    requires Sound(rows)
    ensures Mild(rows, ResumeAll(rows, jobs))
    decreases |jobs|
  {
    if jobs != [] {
      var change := Resuming(jobs[0]);
      MinorUpdate(rows, jobs[0].id, change);
      ResumeAllIsBenign(Update(rows, jobs[0].id, change), jobs[1..]);
    }
  }

  lemma AssignIsBenign(db: Db, issue: nat, resume: bool, newId: JobId)
    requires Sound(db.jobs) && issue in db.origins && Find(db.jobs, newId).None?
    ensures Mild(db.jobs, D.Assign(db, issue, resume, newId).0.jobs)
  {
    var active := D.FirstActiveRepair(IssueJobs(db.jobs, Some(issue)));
    if active.None? {
      SaveIsBenign(db.jobs, Fresh(newId, Deep, db.origins[issue].signature, db.origins[issue].incidentId, Some(issue), []));
    } else if resume && !active.value.status.Running? {
      var started := Started(db, active.value.id);
      MinorUpdate(db.jobs, active.value.id, D.Requeueing(started));
    }
  }

  lemma AcceptIsBenign(db: Db, issue: nat, event: string, newId: JobId)
    requires Sound(db.jobs) && issue in db.origins && Find(db.jobs, newId).None?
    ensures Mild(db.jobs, D.Accept(db, issue, event, newId).0.jobs)
  {
    if D.Resumes(db, issue, event) {
      CancelTriageIsBenign(db.jobs, IssueJobs(db.jobs, Some(issue)));
      var lifted := D.LiftHold(db, issue);
      AssignIsBenign(lifted, issue, true, newId);
      MildTwice(db.jobs, lifted.jobs, D.Assign(lifted, issue, true, newId).0.jobs);
    } else {
      AssignIsBenign(db, issue, false, newId);
    }
  }

  lemma EnqueueIsBenign(db: Db, issue: nat, event: string, generation: Option<string>, newId: JobId)
    requires Sound(db.jobs) && Find(db.jobs, newId).None?
    ensures var r := D.Enqueue(db, issue, event, generation, newId); r.Ok? ==> Mild(db.jobs, r.value.0.jobs)
  {
    if event !in db.dispatches && issue in db.origins
       && !(generation.Some? && (issue, generation.value) in db.reservations) {
      AcceptIsBenign(db, issue, event, newId);
    }
  }

  lemma ScheduleIsBenign(db: Db, signature: string, newId: JobId, now: int)
    requires Sound(db.jobs) && Find(db.jobs, newId).None?
    ensures Mild(db.jobs, E.Schedule(db, signature, newId, now).jobs)
  {
    if signature in db.incidents {
      SaveIsBenign(db.jobs, Fresh(newId, Initial, signature, db.incidents[signature].incidentId, None, []));
    }
  }

  lemma PollCommentsIsBenign(db: Db, issue: nat, comments: seq<Comment>, newId: JobId)
    requires Sound(db.jobs) && Find(db.jobs, newId).None?
    ensures Benign(db.jobs, O.PollComments(db, issue, comments, newId).jobs)
  {
    var novel := O.Novel(db, issue, comments);
    if novel != [] && issue in db.origins {
      TakeIsBenign(db, issue, novel, O.FirstOpen(O.TriageJobs(db.jobs, issue)), newId);
    }
  }

  lemma TakeIsBenign(db: Db, issue: nat, novel: seq<Comment>, waiting: Option<Job>, newId: JobId)
    requires Sound(db.jobs) && issue in db.origins && Find(db.jobs, newId).None?
    ensures Benign(db.jobs, O.Take(db, issue, novel, waiting, newId).jobs)
  {
    if waiting.Some? {
      var found := Find(db.jobs, waiting.value.id);
      FindIsRow(db.jobs, waiting.value.id);
      if found.Some? { KinIsBenign(db.jobs, O.Extended(found.value, novel)); }
    } else {
      KinIsBenign(db.jobs, Fresh(newId, Triage, db.origins[issue].signature, db.origins[issue].incidentId, Some(issue), novel));
    }
  }

  lemma ContinueIsBenign(db: Db, triage: Job, issue: nat, repair: Option<JobId>, published: bool, newId: JobId)
    requires Sound(db.jobs) && Find(db.jobs, newId).None?
    requires repair.Some? && Find(db.jobs, repair.value).Some? ==> Repair(Find(db.jobs, repair.value).value)
    ensures Mild(db.jobs, O.Resume(db, triage, issue, repair, published, newId).jobs)
  {
    if repair.None? {
      var made := Fresh(newId, Deep, triage.signature, triage.incidentId, Some(issue), []);
      SaveIsBenign(db.jobs, made);
    } else {
      RequeueIsBenign(db.jobs, repair.value, Started(db, repair.value), published);
    }
  }

  lemma ActIsBenign(db: Db, triage: Job, issue: nat, action: O.Action, repair: Option<JobId>, published: bool, newId: JobId)
    requires Sound(db.jobs) && Find(db.jobs, newId).None?
    requires repair.Some? && Find(db.jobs, repair.value).Some? ==> Repair(Find(db.jobs, repair.value).value)
    ensures Mild(db.jobs, O.Act(db, triage, issue, action, repair, published, newId).jobs)
  {
    match action
    case Reply =>
    case ClosePr => CloseRepairsIsBenign(db.jobs, IssueJobs(db.jobs, Some(issue)));
    case Continue => ContinueIsBenign(db, triage, issue, repair, published, newId);
  }

  lemma RequeueIsBenign(rows: seq<Row>, id: JobId, started: bool, published: bool)
    requires Sound(rows)
    requires Find(rows, id).Some? ==> Repair(Find(rows, id).value)
    ensures Mild(rows, O.Continued(rows, id, started, published))
  {
    FindIsRow(rows, id);
    UpdateIsBenign(rows, id, (j: Job) => O.Reopened(j, started, published));
  }

  lemma DecideIsBenign(db: Db, triage: JobId, action: O.Action, repair: Option<JobId>, published: bool, newId: JobId)
    requires Sound(db.jobs) && Find(db.jobs, newId).None?
    requires repair.Some? && Find(db.jobs, repair.value).Some? ==> Repair(Find(db.jobs, repair.value).value)
    ensures Mild(db.jobs, O.Decide(db, triage, action, repair, published, newId).jobs)
  {
    var found := Find(db.jobs, triage);
    if found.Some? && found.value.issue.Some? {
      ActIsBenign(db, found.value, found.value.issue.value, action, repair, published, newId);
      var acted := O.Act(db, found.value, found.value.issue.value, action, repair, published, newId).jobs;
      MinorUpdate(acted, triage, O.Closing());
      assert O.Decide(db, triage, action, repair, published, newId).jobs == Update(acted, triage, O.Closing());
      MildTwice(db.jobs, acted, Update(acted, triage, O.Closing()));
    }
  }

  lemma EditIsBenign(rows: seq<Row>, id: JobId, edit: Edit)
    requires Sound(rows)
    ensures Mild(rows, Update(rows, id, Editing(edit)))
  {
    MinorUpdate(rows, id, Editing(edit));
  }

  lemma CancelIsBenign(rows: seq<Row>, id: JobId)
    requires Sound(rows)
    ensures Mild(rows, Update(rows, id, D.Cancelling()))
  {
    MinorUpdate(rows, id, D.Cancelling());
  }
}
