/** `State.enqueue`: turning an accepted dispatch event into exactly one repair job. */
module Dispatching {
  import opened Contracts
  import opened JobStore
  import opened Tables
  import opened Scheduling

  datatype EnqueueError = ReusedForAnotherIssue | NoOrigin

  /** `str.isdigit` on the identifiers the controller passes: a workflow run number, not an evidence key. */
  predicate Numeric(event: string)
  {
    event != "" && forall i :: 0 <= i < |event| ==> '0' <= event[i] <= '9'
  }

  predicate ActiveRepair(job: Job) { Repair(job) && job.status !in TERMINAL }

  predicate ActiveTriage(job: Job) { job.stage.Triage? && job.status !in TERMINAL }

  function Cancelling(): (change: Job -> Job) { (job: Job) => job.(cancelled := true, status := Cancelled) }

  function CancelTriage(rows: seq<Row>, jobs: seq<Job>): (next: seq<Row>)
    decreases |jobs|
  {
    if jobs == [] then rows
    else CancelTriage(
           if ActiveTriage(jobs[0])
           then Update(rows, jobs[0].id, Cancelling())
           else rows,
           jobs[1..])
  }

  function FirstActiveRepair(jobs: seq<Job>): (found: Option<Job>)
    decreases |jobs|
  {
    if jobs == [] then None
    else if ActiveRepair(jobs[0]) then Some(jobs[0])
    else FirstActiveRepair(jobs[1..])
  }

  function Requeued(job: Job, started: bool): (next: Job)
  {
    job.(status := Queued, hasResult := false, nextAt := 0, attempts := 0, rounds := job.rounds + if started then 1 else 0)
  }

  function Requeueing(started: bool): (change: Job -> Job) { (job: Job) => Requeued(job, started) }

  predicate Resumes(db: Db, issue: nat, event: string) { Numeric(event) && issue in db.holds }

  /** An owner's explicit rerun lifts the hold and drops the triage still in flight. */
  function LiftHold(db: Db, issue: nat): (next: Db)
  {
    db.(jobs := CancelTriage(db.jobs, IssueJobs(db.jobs, Some(issue))), holds := db.holds - {issue})
  }

  function Reserve(db: Db, issue: nat, event: string, generation: Option<string>, job: JobId): (next: Db)
  {
    db.(dispatches := db.dispatches[event := Dispatch(issue, job)],
        reservations := if generation.Some? then db.reservations[(issue, generation.value) := job] else db.reservations)
  }

  /** The job an accepted event runs: the issue's active repair, or a new one under `newId`. */
  function Assign(db: Db, issue: nat, resume: bool, newId: JobId): (result: (Db, JobId))
    requires issue in db.origins
  {
    var active := FirstActiveRepair(IssueJobs(db.jobs, Some(issue)));
    if active.None? then
      var origin := db.origins[issue];
      (Put(db, Fresh(newId, Deep, origin.signature, origin.incidentId, Some(issue), [])), newId)
    else if resume && !active.value.status.Running? then
      var started := Started(db, active.value.id);
      (db.(jobs := Update(db.jobs, active.value.id, Requeueing(started))), active.value.id)
    else (db, active.value.id)
  }

  function Accept(db: Db, issue: nat, event: string, newId: JobId): (result: (Db, JobId))
    requires issue in db.origins
  {
    if Resumes(db, issue, event) then Assign(LiftHold(db, issue), issue, true, newId) else Assign(db, issue, false, newId)
  }

  function Enqueue(db: Db, issue: nat, event: string, generation: Option<string>, newId: JobId): (result: Result<(Db, JobId), EnqueueError>)
  {
    if event in db.dispatches then
      if db.dispatches[event].issue != issue then Err(ReusedForAnotherIssue) else Ok((db, db.dispatches[event].job))
    else if issue !in db.origins then Err(NoOrigin)
    else if generation.Some? && (issue, generation.value) in db.reservations then
      var job := db.reservations[(issue, generation.value)];
      Ok((db.(dispatches := db.dispatches[event := Dispatch(issue, job)]), job))
    else
      var (placed, job) := Accept(db, issue, event, newId);
      Ok((Reserve(placed, issue, event, generation, job), job))
  }

  /** Enqueueing touches jobs, holds and its own two tables only. */
  lemma EnqueueFrame(db: Db, issue: nat, event: string, generation: Option<string>, newId: JobId)
    ensures var r := Enqueue(db, issue, event, generation, newId);
            r.Ok? ==>
              var next := r.value.0;
              next == db.(jobs := next.jobs, holds := next.holds, dispatches := next.dispatches, reservations := next.reservations)
  {
    if issue in db.origins { AcceptFrame(db, issue, event, newId); }
  }

  lemma AcceptFrame(db: Db, issue: nat, event: string, newId: JobId)
    requires issue in db.origins
    ensures var next := Accept(db, issue, event, newId).0; next == db.(jobs := next.jobs, holds := next.holds)
  {
    AssignFrame(db, issue, false, newId);
    AssignFrame(LiftHold(db, issue), issue, true, newId);
  }

  lemma AssignFrame(db: Db, issue: nat, resume: bool, newId: JobId)
    requires issue in db.origins
    ensures var next := Assign(db, issue, resume, newId).0; next == db.(jobs := next.jobs)
  {
  }

  // ---------------------------------------------------------------- one job per event, per generation, per issue

  /** Entries are only ever added. */
  ghost predicate Grows(db: Db, next: Db)
  {
    && (forall e :: e in db.dispatches ==> e in next.dispatches && next.dispatches[e] == db.dispatches[e])
    && (forall g :: g in db.reservations ==> g in next.reservations && next.reservations[g] == db.reservations[g])
    && (forall n :: n in db.origins ==> n in next.origins)
  }

  lemma GrowsTwice(a: Db, b: Db, c: Db)
    requires Grows(a, b) && Grows(b, c)
    ensures Grows(a, c)
  {
  }

  /** An accepted call dispatches its event, reserves its generation, and disturbs no earlier entry. */
  lemma EnqueueDispatches(db: Db, issue: nat, event: string, generation: Option<string>, newId: JobId)
    ensures var r := Enqueue(db, issue, event, generation, newId);
            r.Ok? ==>
              var next, job := r.value.0, r.value.1;
              && Grows(db, next)
              && event in next.dispatches && next.dispatches[event] == Dispatch(issue, job)
              && (event !in db.dispatches && generation.Some? ==>
                    (issue, generation.value) in next.reservations && next.reservations[(issue, generation.value)] == job
                    && issue in next.origins)
  {
    EnqueueFrame(db, issue, event, generation, newId);
    if issue in db.origins { AcceptFrame(db, issue, event, newId); }
  }

  lemma {:induction false} FirstActiveRepairFinds(jobs: seq<Job>)
    ensures FirstActiveRepair(jobs).Some? ==> FirstActiveRepair(jobs).value in jobs && ActiveRepair(FirstActiveRepair(jobs).value)
    ensures FirstActiveRepair(jobs).None? ==> forall job :: job in jobs ==> !ActiveRepair(job)
    decreases |jobs|
  {
    if jobs != [] { FirstActiveRepairFinds(jobs[1..]); }
  }

  /** Dropping triage in flight leaves every other job as it was. */
  lemma {:induction false} CancelTriageSpares(rows: seq<Row>, jobs: seq<Job>, k: JobId)
    requires Mirrored(rows)
    requires forall job :: job in jobs && job.id == k ==> !job.stage.Triage?
    ensures Mirrored(CancelTriage(rows, jobs))
    ensures Find(CancelTriage(rows, jobs), k) == Find(rows, k)
    decreases |jobs|
  {
    if jobs != [] {
      var change := Cancelling();
      if ActiveTriage(jobs[0]) {
        FindIsRow(rows, jobs[0].id);
        UpdateStores(rows, jobs[0].id, change);
        CancelTriageSpares(Update(rows, jobs[0].id, change), jobs[1..], k);
      } else {
        CancelTriageSpares(rows, jobs[1..], k);
      }
    }
  }

  lemma LiftingSparesRepairs(db: Db, issue: nat, k: JobId)
    requires Mirrored(db.jobs) && Find(db.jobs, k).Some? && !Find(db.jobs, k).value.stage.Triage?
    ensures Find(LiftHold(db, issue).jobs, k) == Find(db.jobs, k)
    ensures Mirrored(LiftHold(db, issue).jobs)
  {
    QueriesFind(db.jobs, {}, Some(issue));
    CancelTriageSpares(db.jobs, IssueJobs(db.jobs, Some(issue)), k);
  }

  /** A job is made only for an issue with no unfinished repair job; an unfinished one takes the event otherwise. */
  lemma AssignReusesActive(db: Db, issue: nat, resume: bool, newId: JobId, k: JobId)
    requires Mirrored(db.jobs) && issue in db.origins
    requires Find(db.jobs, k).Some? && Find(db.jobs, k).value.issue == Some(issue) && ActiveRepair(Find(db.jobs, k).value)
    requires Find(db.jobs, newId).None?
    ensures var job := Assign(db, issue, resume, newId).1;
            job != newId && ActiveAt(db.jobs, job, issue)
    ensures Find(Assign(db, issue, resume, newId).0.jobs, newId).None?
  {
    FindIsRow(db.jobs, k);
    QueriesFind(db.jobs, {}, Some(issue));
    FirstActiveRepairFinds(IssueJobs(db.jobs, Some(issue)));
    assert Find(db.jobs, k).value in IssueJobs(db.jobs, Some(issue));
    var active := FirstActiveRepair(IssueJobs(db.jobs, Some(issue))).value;
    FindSaved(db.jobs, Requeued(active, Started(db, active.id)), newId);
  }

  /** While an issue has an unfinished repair job, a new event with a new generation goes to such a job, and no job is made. */
  lemma ActiveRepairTakesEvent(db: Db, issue: nat, event: string, generation: Option<string>, newId: JobId, k: JobId)
    requires Mirrored(db.jobs) && Find(db.jobs, newId).None?
    requires event !in db.dispatches && issue in db.origins
    requires generation.Some? ==> (issue, generation.value) !in db.reservations
    requires Find(db.jobs, k).Some? && Find(db.jobs, k).value.issue == Some(issue) && ActiveRepair(Find(db.jobs, k).value)
    ensures var r := Enqueue(db, issue, event, generation, newId);
            r.Ok? && ActiveAt(db.jobs, r.value.1, issue) && Find(r.value.0.jobs, newId).None?
  {
    if Resumes(db, issue, event) {
      LiftingSparesRepairs(db, issue, k);
      QueriesFind(db.jobs, {}, Some(issue));
      var lifted := LiftHold(db, issue);
      NothingNewInCancelTriage(db.jobs, IssueJobs(db.jobs, Some(issue)), newId);
      AssignReusesActive(lifted, issue, true, newId, k);
      CancelTriageActivatesNone(db.jobs, IssueJobs(db.jobs, Some(issue)));
    } else {
      AssignReusesActive(db, issue, false, newId, k);
    }
  }

  lemma {:induction false} NothingNewInCancelTriage(rows: seq<Row>, jobs: seq<Job>, k: JobId)
    requires Mirrored(rows) && Find(rows, k).None?
    ensures Find(CancelTriage(rows, jobs), k).None?
    decreases |jobs|
  {
    if jobs != [] {
      var change := Cancelling();
      if ActiveTriage(jobs[0]) {
        FindIsRow(rows, jobs[0].id);
        UpdateStores(rows, jobs[0].id, change);
        NothingNewInCancelTriage(Update(rows, jobs[0].id, change), jobs[1..], k);
      } else {
        NothingNewInCancelTriage(rows, jobs[1..], k);
      }
    }
  }

  /** Every dispatched or reserved job is stored. */
  ghost predicate Resolved(db: Db)
  {
    && (forall e :: e in db.dispatches ==> Find(db.jobs, db.dispatches[e].job).Some?)
    && (forall g :: g in db.reservations ==> Find(db.jobs, db.reservations[g]).Some?)
  }

  lemma ActiveRepairIsStored(rows: seq<Row>, issue: nat)
    requires Mirrored(rows)
    ensures var active := FirstActiveRepair(IssueJobs(rows, Some(issue))); active.Some? ==> Find(rows, active.value.id) == active
  {
    QueriesFind(rows, {}, Some(issue));
    FirstActiveRepairFinds(IssueJobs(rows, Some(issue)));
  }

  lemma AssignedIsStored(db: Db, issue: nat, resume: bool, newId: JobId)
    requires Mirrored(db.jobs) && issue in db.origins
    ensures var r := Assign(db, issue, resume, newId); Find(r.0.jobs, r.1).Some?
  {
    var active := FirstActiveRepair(IssueJobs(db.jobs, Some(issue)));
    if active.None? {
      FindSaved(db.jobs, Fresh(newId, Deep, db.origins[issue].signature, db.origins[issue].incidentId, Some(issue), []), newId);
    } else {
      ActiveRepairIsStored(db.jobs, issue);
      FindSaved(db.jobs, Requeued(active.value, Started(db, active.value.id)), active.value.id);
    }
  }

  lemma {:induction false} CancelTriageMirrors(rows: seq<Row>, jobs: seq<Job>)
    requires Mirrored(rows)
    ensures Mirrored(CancelTriage(rows, jobs))
    decreases |jobs|
  {
    if jobs != [] {
      var change := Cancelling();
      if ActiveTriage(jobs[0]) {
        FindIsRow(rows, jobs[0].id);
        UpdateStores(rows, jobs[0].id, change);
        CancelTriageMirrors(Update(rows, jobs[0].id, change), jobs[1..]);
      } else {
        CancelTriageMirrors(rows, jobs[1..]);
      }
    }
  }

  lemma AcceptedIsStored(db: Db, issue: nat, event: string, newId: JobId)
    requires Mirrored(db.jobs) && issue in db.origins
    ensures var r := Accept(db, issue, event, newId); Find(r.0.jobs, r.1).Some?
  {
    if Resumes(db, issue, event) {
      CancelTriageMirrors(db.jobs, IssueJobs(db.jobs, Some(issue)));
      AssignedIsStored(LiftHold(db, issue), issue, true, newId);
    } else {
      AssignedIsStored(db, issue, false, newId);
    }
  }

  lemma ResolvedStays(db: Db, next: Db, job: JobId)
    requires Resolved(db) && Find(next.jobs, job).Some?
    requires forall k :: Find(db.jobs, k).Some? ==> Find(next.jobs, k).Some?
    requires forall e :: e in next.dispatches ==> next.dispatches[e].job == job || (e in db.dispatches && db.dispatches[e] == next.dispatches[e])
    requires forall g :: g in next.reservations ==> next.reservations[g] == job || (g in db.reservations && db.reservations[g] == next.reservations[g])
    ensures Resolved(next)
  {
  }

  lemma EnqueueResolves(db: Db, issue: nat, event: string, generation: Option<string>, newId: JobId)
    requires Mirrored(db.jobs) && Resolved(db)
    requires var r := Enqueue(db, issue, event, generation, newId);
             r.Ok? ==> forall k :: Find(db.jobs, k).Some? ==> Find(r.value.0.jobs, k).Some?
    ensures var r := Enqueue(db, issue, event, generation, newId);
            r.Ok? ==> Resolved(r.value.0) && Find(r.value.0.jobs, r.value.1).Some?
  {
    EnqueueFrame(db, issue, event, generation, newId);
    if issue in db.origins {
      AcceptFrame(db, issue, event, newId);
      AcceptedIsStored(db, issue, event, newId);
    }
    var r := Enqueue(db, issue, event, generation, newId);
    if r.Ok? { ResolvedStays(db, r.value.0, r.value.1); }
  }

  // ---------------------------------------------------------------- one active repair per issue, and how it is lost

  ghost predicate ActiveAt(rows: seq<Row>, k: JobId, issue: nat)
  {
    Find(rows, k).Some? && ActiveRepair(Find(rows, k).value) && Find(rows, k).value.issue == Some(issue)
  }

  ghost predicate OneActive(rows: seq<Row>, issue: nat)
  {
    forall a, b :: ActiveAt(rows, a, issue) && ActiveAt(rows, b, issue) ==> a == b
  }

  /** No job becomes an active repair that was not one. */
  ghost predicate NoneActivated(rows: seq<Row>, next: seq<Row>)
  {
    forall k, issue :: ActiveAt(next, k, issue) ==> ActiveAt(rows, k, issue)
  }

  lemma {:induction false} CancelTriageActivatesNone(rows: seq<Row>, jobs: seq<Job>)
    requires Mirrored(rows)
    ensures Mirrored(CancelTriage(rows, jobs)) && NoneActivated(rows, CancelTriage(rows, jobs))
    decreases |jobs|
  {
    if jobs != [] {
      if ActiveTriage(jobs[0]) {
        FindIsRow(rows, jobs[0].id);
        UpdateStores(rows, jobs[0].id, Cancelling());
        assert NoneActivated(rows, Update(rows, jobs[0].id, Cancelling()));
        CancelTriageActivatesNone(Update(rows, jobs[0].id, Cancelling()), jobs[1..]);
      } else {
        CancelTriageActivatesNone(rows, jobs[1..]);
      }
    }
  }

  lemma NoActiveRepairListed(rows: seq<Row>, issue: nat)
    requires Mirrored(rows) && FirstActiveRepair(IssueJobs(rows, Some(issue))).None?
    ensures forall k :: !ActiveAt(rows, k, issue)
  {
    FirstActiveRepairFinds(IssueJobs(rows, Some(issue)));
    QueriesFind(rows, {}, Some(issue));
    forall k ensures !ActiveAt(rows, k, issue) {
      FindIsRow(rows, k);
      if Find(rows, k).Some? && Find(rows, k).value.issue == Some(issue) {
        assert Find(rows, k).value in IssueJobs(rows, Some(issue));
      }
    }
  }

  lemma NewRepairIsOnlyActive(rows: seq<Row>, made: Job, n: nat)
    requires Mirrored(rows) && OneActive(rows, n)
    requires made.issue.Some? && forall k :: !ActiveAt(rows, k, made.issue.value)
    ensures OneActive(Save(rows, made), n)
  {
    SaveStores(rows, made);
    forall k | k != made.id ensures ActiveAt(Save(rows, made), k, n) == ActiveAt(rows, k, n) {}
  }

  lemma RequeueActivatesNone(rows: seq<Row>, active: Job, started: bool)
    requires Mirrored(rows) && Find(rows, active.id) == Some(active) && ActiveRepair(active)
    ensures NoneActivated(rows, Update(rows, active.id, Requeueing(started)))
  {
    UpdateStores(rows, active.id, Requeueing(started));
  }

  lemma AssignKeepsOneActive(db: Db, issue: nat, resume: bool, newId: JobId, n: nat)
    requires Mirrored(db.jobs) && issue in db.origins && OneActive(db.jobs, n)
    ensures OneActive(Assign(db, issue, resume, newId).0.jobs, n)
  {
    var active := FirstActiveRepair(IssueJobs(db.jobs, Some(issue)));
    if active.None? {
      NoActiveRepairListed(db.jobs, issue);
      NewRepairIsOnlyActive(db.jobs, Fresh(newId, Deep, db.origins[issue].signature, db.origins[issue].incidentId, Some(issue), []), n);
    } else {
      ActiveRepairIsStored(db.jobs, issue);
      FirstActiveRepairFinds(IssueJobs(db.jobs, Some(issue)));
      RequeueActivatesNone(db.jobs, active.value, Started(db, active.value.id));
    }
  }

  /** No call of `enqueue` gives an issue a second active repair job. */
  lemma EnqueueKeepsOneActive(db: Db, issue: nat, event: string, generation: Option<string>, newId: JobId, n: nat)
    requires Mirrored(db.jobs) && OneActive(db.jobs, n)
    ensures var r := Enqueue(db, issue, event, generation, newId); r.Ok? ==> OneActive(r.value.0.jobs, n)
  {
    if issue in db.origins {
      CancelTriageActivatesNone(db.jobs, IssueJobs(db.jobs, Some(issue)));
      AssignKeepsOneActive(db, issue, false, newId, n);
      AssignKeepsOneActive(LiftHold(db, issue), issue, true, newId, n);
    }
  }

  /** `poll_reviews` returns a job to the queue with new feedback. */
  function Returning(): (change: Job -> Job)
  {
    (job: Job) => job.(status := Queued, stage := Revise, rounds := job.rounds + 1, hasResult := false, nextAt := 0, attempts := 0)
  }

  /** Returning an uncancelled repair job to the queue keeps one active repair on its issue if and only if no other job
      of the issue is active. A `ready` job is terminal, so `enqueue` may have made such a job beside it. */
  lemma ReturningKeepsOneActiveExactly(rows: seq<Row>, id: JobId, issue: nat)
    requires Mirrored(rows) && OneActive(rows, issue)
    requires Find(rows, id).Some? && !Find(rows, id).value.cancelled && Find(rows, id).value.issue == Some(issue)
    ensures OneActive(Update(rows, id, Returning()), issue)
            <==> forall k :: k != id ==> !ActiveAt(rows, k, issue)
  {
    FindIsRow(rows, id);
    UpdateStores(rows, id, Returning());
    var next := Update(rows, id, Returning());
    assert ActiveAt(next, id, issue);
    forall k | k != id ensures ActiveAt(next, k, issue) == ActiveAt(rows, k, issue) {}
  }

  /** An issue whose pull request is ready takes a new event as a second job; new feedback then makes both active. */
  lemma ReadyJobReturns(db: Db, issue: nat, event: string, ready: JobId, newId: JobId)
    requires Mirrored(db.jobs) && issue in db.origins && event !in db.dispatches && !Resumes(db, issue, event)
    requires Find(db.jobs, ready).Some? && Find(db.jobs, newId).None?
    requires var job := Find(db.jobs, ready).value; job.status.Ready? && !job.cancelled && job.issue == Some(issue)
    requires forall k :: !ActiveAt(db.jobs, k, issue)
    ensures var r := Enqueue(db, issue, event, None, newId);
            && r.Ok? && r.value.1 == newId
            && OneActive(r.value.0.jobs, issue)
            && !OneActive(Update(r.value.0.jobs, ready, Returning()), issue)
  {
    var listed := IssueJobs(db.jobs, Some(issue));
    FirstActiveRepairFinds(listed);
    QueriesFind(db.jobs, {}, Some(issue));
    if FirstActiveRepair(listed).Some? { assert ActiveAt(db.jobs, FirstActiveRepair(listed).value.id, issue); }
    var made := Fresh(newId, Deep, db.origins[issue].signature, db.origins[issue].incidentId, Some(issue), []);
    SaveStores(db.jobs, made);
    var next := Enqueue(db, issue, event, None, newId).value.0;
    assert ActiveAt(next.jobs, newId, issue);
    EnqueueKeepsOneActive(db, issue, event, None, newId, issue);
    ReturningKeepsOneActiveExactly(next.jobs, ready, issue);
  }
}
