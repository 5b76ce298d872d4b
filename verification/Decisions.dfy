/** What an owner's decision, a manual rerun and a cancellation leave of every job of the table. */
module Decisions {
  import opened Contracts
  import opened JobStore
  import opened Tables
  import opened Scheduling
  import opened Recovery
  import D = Dispatching
  import O = OwnerComments

  /** A repair job that starts over with what it has learned: queued at once, its result dropped, one more round if it ran. */
  ghost function StartedOver(job: Job, ran: bool): (next: Job)
  {
    job.(status := if job.cancelled then Cancelled else Queued, hasResult := false, nextAt := 0, attempts := 0,
         rounds := if ran then job.rounds + 1 else job.rounds)
  }

  /** A repair job nobody has worked on. */
  ghost predicate NewRepair(job: Job, id: JobId, issue: nat, signature: string, incidentId: int)
  {
    && job.id == id && job.stage == Deep && job.issue == Some(issue) && job.signature == signature && job.incidentId == incidentId
    && job.status == Queued && !job.cancelled && job.activeSeconds == 0 && job.rounds == 0 && job.attempts == 0 && job.nextAt == 0
    && job.lease == Never && !job.quotaResume && !job.hasResult && !job.hasContext && !job.awaitsLaunch && job.ownerComments == []
  }

  /** Every job but `id` and `other` is as it was. */
  ghost predicate OnlyThese(rows: seq<Row>, next: seq<Row>, id: JobId, other: JobId)
  {
    Sound(next) && forall k :: k != id && k != other ==> Find(next, k) == Find(rows, k)
  }

  lemma IssueJobsAreListed(rows: seq<Row>, issue: nat, k: JobId)
    requires Mirrored(rows)
    ensures Lists(rows, IssueJobs(rows, Some(issue)))
    ensures forall job :: job in IssueJobs(rows, Some(issue)) ==> job.issue == Some(issue)
    ensures Listed(IssueJobs(rows, Some(issue)), k) <==> Find(rows, k).Some? && Find(rows, k).value.issue == Some(issue)
  {
    var wanted := Some(issue);
    var ofIssue := (job: Job) => job.issue == wanted;
    QueryLists(rows, (row: Row) => row.issueColumn == wanted, ofIssue, k);
  }

  // ---------------------------------------------------------------- an owner's decision

  /** The triage job is over; a cancelled one stays cancelled. */
  ghost function Closed(job: Job): (next: Job) { job.(status := if job.cancelled then Cancelled else Done) }

  /** A triage job of the issue. */
  ghost predicate Deciding(db: Db, triage: JobId, t: Job, issue: nat)
  {
    Sound(db.jobs) && Find(db.jobs, triage) == Some(t) && t.stage == Triage && t.issue == Some(issue)
  }

  lemma ClosingStores(rows: seq<Row>, triage: JobId, t: Job)
    requires Sound(rows) && Find(rows, triage) == Some(t)
    ensures Replaces(rows, Update(rows, triage, O.Closing()), Closed(t))
  {
    FindIsRow(rows, triage);
    SaveReplaces(rows, t.(status := Done));
  }

  /** A reply closes the triage job and leaves everything else, the hold included. */
  lemma ReplyOnlyCloses(db: Db, triage: JobId, t: Job, issue: nat, repair: Option<JobId>, published: bool, newId: JobId)
    requires Deciding(db, triage, t, issue)
    ensures var next := O.Decide(db, triage, O.Reply, repair, published, newId);
            && next == db.(jobs := next.jobs)
            && OnlyThese(db.jobs, next.jobs, triage, triage)
            && Find(next.jobs, triage) == Some(Closed(t))
  {
    FindIsRow(db.jobs, triage);
    ClosingStores(db.jobs, triage, t);
  }

  lemma {:induction false} RepairsClose(rows: seq<Row>, jobs: seq<Job>, k: JobId)
    requires Sound(rows) && Lists(rows, jobs)
    ensures Sound(O.CloseRepairs(rows, jobs))
    ensures Find(O.CloseRepairs(rows, jobs), k)
            == if Listed(jobs, k) && Repair(Find(rows, k).value) && !Find(rows, k).value.cancelled
               then Some(Find(rows, k).value.(status := Done)) else Find(rows, k)
    decreases |jobs|
  {
    if jobs != [] {
      var job := jobs[0];
      RestListed(jobs, k);
      if job.id == k { NotListedAgain(jobs, k); }
      if Repair(job) && !job.cancelled {
        ClosingStores(rows, job.id, job);
        ReplacingKeepsList(rows, Update(rows, job.id, O.Closing()), jobs, Closed(job));
        RepairsClose(Update(rows, job.id, O.Closing()), jobs[1..], k);
      } else {
        RestIsList(rows, jobs);
        RepairsClose(rows, jobs[1..], k);
      }
    }
  }

  lemma RestIsList(rows: seq<Row>, jobs: seq<Job>)
    requires jobs != [] && Lists(rows, jobs)
    ensures Lists(rows, jobs[1..])
  {
    assert forall i :: 0 <= i < |jobs[1..]| ==> jobs[1..][i] == jobs[i + 1];
  }

  /** Closing the pull request closes every repair of the issue that is not cancelled and the triage job, and keeps the hold. */
  lemma ClosingClosesRepairs(db: Db, triage: JobId, t: Job, issue: nat, repair: Option<JobId>, published: bool, newId: JobId, k: JobId)
    requires Deciding(db, triage, t, issue)
    ensures var next := O.Decide(db, triage, O.ClosePr, repair, published, newId);
            && next == db.(jobs := next.jobs)
            && Find(next.jobs, k)
               == if k == triage then Some(Closed(t))
                  else if Find(db.jobs, k).Some? && Find(db.jobs, k).value.issue == Some(issue)
                          && Find(db.jobs, k).value.stage in {Deep, Revise} && !Find(db.jobs, k).value.cancelled
                  then Some(Find(db.jobs, k).value.(status := Done))
                  else Find(db.jobs, k)
  {
    FindIsRow(db.jobs, triage);
    var jobs := IssueJobs(db.jobs, Some(issue));
    IssueJobsAreListed(db.jobs, issue, k);
    IssueJobsAreListed(db.jobs, issue, triage);
    RepairsClose(db.jobs, jobs, k);
    RepairsClose(db.jobs, jobs, triage);
    var closed := O.CloseRepairs(db.jobs, jobs);
    assert Find(closed, triage) == Some(t);
    ClosingStores(closed, triage, t);
    assert O.Decide(db, triage, O.ClosePr, repair, published, newId) == db.(jobs := Update(closed, triage, O.Closing()));
  }

  /** To continue lifts this issue's hold and no other, closes the triage job, and starts the named repair over, as a revision
      of its pull request if it has one. */
  lemma ContinuingRestartsRepair(db: Db, triage: JobId, t: Job, issue: nat, repair: JobId, r: Job, published: bool, newId: JobId)
    requires Deciding(db, triage, t, issue) && Find(db.jobs, repair) == Some(r) && repair != triage
    ensures var next := O.Decide(db, triage, O.Continue, Some(repair), published, newId);
            && next == db.(jobs := next.jobs, holds := db.holds - {issue})
            && OnlyThese(db.jobs, next.jobs, triage, repair)
            && Find(next.jobs, triage) == Some(Closed(t))
            && Find(next.jobs, repair)
               == Some(StartedOver(r, exists s :: s in db.starts && s.job == repair).(stage := if published then Revise else Deep))
  {
    FindIsRow(db.jobs, triage);
    FindIsRow(db.jobs, repair);
    var started := Started(db, repair);
    var reopened := O.Reopened(r, started, published);
    SaveReplaces(db.jobs, reopened);
    ClosingStores(O.Continued(db.jobs, repair, started, published), triage, t);
  }

  /** Without a repair to continue, a new one is queued for the triage job's incident. */
  lemma ContinuingMakesRepair(db: Db, triage: JobId, t: Job, issue: nat, published: bool, newId: JobId)
    requires Deciding(db, triage, t, issue) && Find(db.jobs, newId).None?
    ensures var next := O.Decide(db, triage, O.Continue, None, published, newId);
            && next == db.(jobs := next.jobs, holds := db.holds - {issue})
            && OnlyThese(db.jobs, next.jobs, triage, newId)
            && Find(next.jobs, triage) == Some(Closed(t))
            && Find(next.jobs, newId).Some? && NewRepair(Find(next.jobs, newId).value, newId, issue, t.signature, t.incidentId)
  {
    FindIsRow(db.jobs, triage);
    var made := Fresh(newId, Deep, t.signature, t.incidentId, Some(issue), []);
    SaveReplaces(db.jobs, made);
    ClosingStores(Save(db.jobs, made), triage, t);
  }

  // ---------------------------------------------------------------- a cancellation

  /** A cancelled job is cancelled for good, and nothing else moves. */
  lemma CancellingStores(rows: seq<Row>, id: JobId, job: Job)
    requires Sound(rows) && Find(rows, id) == Some(job)
    ensures Replaces(rows, Update(rows, id, D.Cancelling()), job.(cancelled := true, status := Cancelled))
  {
    FindIsRow(rows, id);
    SaveReplaces(rows, job.(cancelled := true, status := Cancelled));
  }

  // ---------------------------------------------------------------- a manual rerun

  /** Unfinished work of a stage. */
  ghost predicate Unfinished(job: Job) { job.status !in {Done, Observing, NeedsHuman, Cancelled, Ready, WaitDeploy} }

  /** An owner's rerun: a run number given as an event, for an issue on hold. */
  ghost predicate Manual(db: Db, issue: nat, event: string)
  {
    issue in db.holds && event != "" && forall i :: 0 <= i < |event| ==> '0' <= event[i] <= '9'
  }

  lemma {:induction false} TriageIsDropped(rows: seq<Row>, jobs: seq<Job>, k: JobId)
    requires Sound(rows) && Lists(rows, jobs)
    ensures Sound(D.CancelTriage(rows, jobs))
    ensures Find(D.CancelTriage(rows, jobs), k)
            == if Listed(jobs, k) && D.ActiveTriage(Find(rows, k).value)
               then Some(Find(rows, k).value.(cancelled := true, status := Cancelled)) else Find(rows, k)
    decreases |jobs|
  {
    if jobs != [] {
      var job := jobs[0];
      RestListed(jobs, k);
      if job.id == k { NotListedAgain(jobs, k); }
      if D.ActiveTriage(job) {
        CancellingStores(rows, job.id, job);
        ReplacingKeepsList(rows, Update(rows, job.id, D.Cancelling()), jobs, job.(cancelled := true, status := Cancelled));
        TriageIsDropped(Update(rows, job.id, D.Cancelling()), jobs[1..], k);
      } else {
        RestIsList(rows, jobs);
        TriageIsDropped(rows, jobs[1..], k);
      }
    }
  }

  /** A manual rerun lifts this issue's hold and cancels its unfinished triage, and nothing else. */
  lemma LiftingDropsTriage(db: Db, issue: nat, k: JobId)
    requires Sound(db.jobs)
    ensures var next := D.LiftHold(db, issue);
            && next == db.(jobs := next.jobs, holds := db.holds - {issue}) && Sound(next.jobs)
            && Find(next.jobs, k)
               == var found := Find(db.jobs, k);
                  if found.Some? && found.value.issue == Some(issue) && found.value.stage == Triage && Unfinished(found.value)
                  then Some(found.value.(cancelled := true, status := Cancelled)) else found
  {
    IssueJobsAreListed(db.jobs, issue, k);
    TriageIsDropped(db.jobs, IssueJobs(db.jobs, Some(issue)), k);
  }

  /** What an accepted event does to the job that takes it: a new job for an issue without an unfinished repair; a rerun
      starts an unfinished one over unless its agent is running; any other event leaves it alone. */
  ghost predicate Assigned(db: Db, next: Db, issue: nat, resume: bool, id: JobId)
    requires issue in db.origins
  {
    var found, after := Find(db.jobs, id), Find(next.jobs, id);
    && next == db.(jobs := next.jobs) && OnlyThese(db.jobs, next.jobs, id, id) && after.Some?
    && if found.None? then
         && (forall k :: !D.ActiveAt(db.jobs, k, issue))
         && NewRepair(after.value, id, issue, db.origins[issue].signature, db.origins[issue].incidentId)
       else
         && D.ActiveAt(db.jobs, id, issue)
         && after.value == if resume && found.value.status != Running then StartedOver(found.value, Started(db, id)) else found.value
  }

  lemma AssigningMakes(db: Db, issue: nat, made: Job)
    requires Sound(db.jobs) && issue in db.origins && Find(db.jobs, made.id).None?
    requires forall k :: !D.ActiveAt(db.jobs, k, issue)
    requires made == Fresh(made.id, Deep, db.origins[issue].signature, db.origins[issue].incidentId, Some(issue), [])
    ensures Assigned(db, Put(db, made), issue, false, made.id) && Assigned(db, Put(db, made), issue, true, made.id)
  {
    SaveReplaces(db.jobs, made);
  }

  lemma AssigningRestarts(db: Db, issue: nat, active: Job)
    requires Sound(db.jobs) && issue in db.origins && Find(db.jobs, active.id) == Some(active)
    requires D.ActiveAt(db.jobs, active.id, issue) && !active.status.Running?
    ensures Assigned(db, db.(jobs := Update(db.jobs, active.id, D.Requeueing(Started(db, active.id)))), issue, true, active.id)
  {
    SaveReplaces(db.jobs, D.Requeued(active, Started(db, active.id)));
  }

  lemma AssigningStores(db: Db, issue: nat, resume: bool, newId: JobId)
    requires Sound(db.jobs) && issue in db.origins && Find(db.jobs, newId).None?
    ensures var (next, id) := D.Assign(db, issue, resume, newId);
            Assigned(db, next, issue, resume, id) && (Find(db.jobs, id).None? ==> id == newId)
  {
    var active := D.FirstActiveRepair(IssueJobs(db.jobs, Some(issue)));
    if active.None? {
      D.NoActiveRepairListed(db.jobs, issue);
      AssigningMakes(db, issue, Fresh(newId, Deep, db.origins[issue].signature, db.origins[issue].incidentId, Some(issue), []));
    } else {
      ActiveRepairIsActive(db.jobs, issue);
      if resume && !active.value.status.Running? { AssigningRestarts(db, issue, active.value); }
    }
  }

  lemma ActiveRepairIsActive(rows: seq<Row>, issue: nat)
    requires Mirrored(rows) && D.FirstActiveRepair(IssueJobs(rows, Some(issue))).Some?
    ensures var active := D.FirstActiveRepair(IssueJobs(rows, Some(issue))).value;
            Find(rows, active.id) == Some(active) && D.ActiveAt(rows, active.id, issue)
  {
    D.ActiveRepairIsStored(rows, issue);
    D.FirstActiveRepairFinds(IssueJobs(rows, Some(issue)));
    var active := D.FirstActiveRepair(IssueJobs(rows, Some(issue))).value;
    IssueJobsAreListed(rows, issue, active.id);
  }

  /** What becomes of the job `k` when an event is taken by the job `id`. */
  ghost predicate JobAfterEvent(db: Db, next: Db, issue: nat, manual: bool, id: JobId, k: JobId)
    requires issue in db.origins
  {
    var found, after := Find(db.jobs, k), Find(next.jobs, k);
    if k != id then
      after == if manual && found.Some? && found.value.issue == Some(issue) && found.value.stage == Triage && Unfinished(found.value)
               then Some(found.value.(cancelled := true, status := Cancelled)) else found
    else if found.Some? then
      && D.ActiveAt(db.jobs, id, issue)
      && after == Some(if manual && found.value.status != Running then StartedOver(found.value, Started(db, k)) else found.value)
    else
      after.Some? && NewRepair(after.value, id, issue, db.origins[issue].signature, db.origins[issue].incidentId)
  }

  lemma OrdinaryEventIsTaken(db: Db, issue: nat, newId: JobId, k: JobId)
    requires Sound(db.jobs) && issue in db.origins && Find(db.jobs, newId).None?
    ensures var (next, id) := D.Assign(db, issue, false, newId);
            next.holds == db.holds && JobAfterEvent(db, next, issue, false, id, k)
  {
    AssigningStores(db, issue, false, newId);
  }

  lemma ManualEventIsTaken(db: Db, issue: nat, newId: JobId, k: JobId)
    requires Sound(db.jobs) && issue in db.origins && Find(db.jobs, newId).None?
    ensures var (next, id) := D.Assign(D.LiftHold(db, issue), issue, true, newId);
            next.holds == db.holds - {issue} && JobAfterEvent(db, next, issue, true, id, k)
  {
    var lifted := D.LiftHold(db, issue);
    LiftingDropsTriage(db, issue, k);
    LiftingDropsTriage(db, issue, newId);
    AssigningStores(lifted, issue, true, newId);
    var (next, id) := D.Assign(lifted, issue, true, newId);
    LiftingDropsTriage(db, issue, id);
    LiftingKeepsActive(db, issue, id);
  }

  /** A new event of an issue with an origin: a manual rerun lifts the hold, cancels the triage in flight and starts the
      issue's unfinished repair over unless its agent is running; another event leaves holds, triage and that repair alone.
      Without an unfinished repair either makes one. */
  lemma NewEventIsTaken(db: Db, issue: nat, event: string, generation: Option<string>, newId: JobId, k: JobId)
    requires Sound(db.jobs) && issue in db.origins && Find(db.jobs, newId).None? && event !in db.dispatches
    requires generation.Some? ==> (issue, generation.value) !in db.reservations
    ensures D.Enqueue(db, issue, event, generation, newId).Ok?
    ensures var (next, id) := D.Enqueue(db, issue, event, generation, newId).value;
            var manual := Manual(db, issue, event);
            && next.holds == (if manual then db.holds - {issue} else db.holds)
            && JobAfterEvent(db, next, issue, manual, id, k)
  {
    assert Manual(db, issue, event) == D.Resumes(db, issue, event);
    if D.Resumes(db, issue, event) {
      ManualEventIsTaken(db, issue, newId, k);
    } else {
      OrdinaryEventIsTaken(db, issue, newId, k);
    }
  }

  lemma LiftingKeepsActive(db: Db, issue: nat, k: JobId)
    requires Sound(db.jobs)
    ensures D.ActiveAt(D.LiftHold(db, issue).jobs, k, issue) ==>
              D.ActiveAt(db.jobs, k, issue) && Find(D.LiftHold(db, issue).jobs, k) == Find(db.jobs, k)
  {
    LiftingDropsTriage(db, issue, k);
  }

  /** An event that is known, or whose generation is, is answered with the job it has; an event reused for another issue, or
      one of an issue without an origin, is refused. Nothing else changes. */
  lemma KnownEventIsAnswered(db: Db, issue: nat, event: string, generation: Option<string>, newId: JobId)
    ensures var r, known := D.Enqueue(db, issue, event, generation, newId), event in db.dispatches;
            && (known && db.dispatches[event].issue == issue ==> r == Ok((db, db.dispatches[event].job)))
            && (known && db.dispatches[event].issue != issue ==> r == Err(D.ReusedForAnotherIssue))
            && (!known && issue !in db.origins ==> r == Err(D.NoOrigin))
            && (!known && issue in db.origins && generation.Some? && (issue, generation.value) in db.reservations ==>
                  var job := db.reservations[(issue, generation.value)];
                  r == Ok((db.(dispatches := db.dispatches[event := Dispatch(issue, job)]), job)))
  {
  }

  // ---------------------------------------------------------------- new comments

  /** A triage job nobody has worked on. */
  ghost predicate NewTriage(job: Job, id: JobId, issue: nat, signature: string, incidentId: int)
  {
    && job.id == id && job.stage == Triage && job.issue == Some(issue) && job.signature == signature && job.incidentId == incidentId
    && job.status == Queued && !job.cancelled && job.activeSeconds == 0 && job.rounds == 0 && job.attempts == 0 && job.nextAt == 0
    && job.lease == Never && !job.quotaResume && !job.hasResult && !job.hasContext && !job.awaitsLaunch
  }

  /** New comments hold the issue and go to one job: a triage job of the issue that waits without a context, of which nothing
      but the comments changes, or else a new triage job for the issue's origin. */
  lemma NewCommentsAreTriaged(db: Db, issue: nat, comments: seq<Comment>, newId: JobId) returns (id: JobId)
    requires Sound(db.jobs) && issue in db.origins && Find(db.jobs, newId).None?
    requires exists c :: c in comments && !O.Reserved(db.jobs, issue, c)
    ensures var next := O.PollComments(db, issue, comments, newId);
            && next == db.(jobs := next.jobs, holds := db.holds + {issue})
            && (forall k :: k != id ==> Find(next.jobs, k) == Find(db.jobs, k))
            && Find(next.jobs, id).Some?
            && var after := Find(next.jobs, id).value;
               match Find(db.jobs, id)
               case None => id == newId && NewTriage(after, id, issue, db.origins[issue].signature, db.origins[issue].incidentId)
               case Some(job) =>
                 && job.stage == Triage && job.issue == Some(issue) && job.status == Queued && !job.hasContext
                 && after == job.(ownerComments := after.ownerComments)
  {
    O.NovelMembers(db, issue, comments);
    O.PollTouchesRecipient(db, issue, comments, newId);
    O.RecipientFound(db, issue, newId);
    id := O.Recipient(db, issue, newId);
  }
}
