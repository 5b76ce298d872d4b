/** What one turn of `prepare_run` does to its candidate, case by case. */
module Turns {
  import opened Contracts
  import opened JobStore
  import opened LaunchWindows
  import opened Tables
  import opened Scheduling
  import opened Lifecycle
  import opened Preparation
  import Launches
  import Leases
  import Recovery

  // ---------------------------------------------------------------- the budgets

  /** Repair cycles a job has used: its first run and every further round. */
  ghost function Used(db: Db, job: Job, issue: nat): (n: nat)
  {
    if job.stage in {Deep, Revise} && job.issue == Some(issue) && (exists s :: s in db.starts && s.job == job.id)
    then 1 + job.rounds else 0
  }

  ghost function RowCycles(db: Db, row: Row, issue: nat): (n: nat)
  {
    if row.issueColumn == Some(issue) && Repair(row.data) && Started(db, row.data.id) then 1 + row.data.rounds else 0
  }

  lemma CyclesOfAppended(rows: seq<Row>, row: Row, db: Db, issue: nat)
    ensures CyclesOf(IssueJobs(rows + [row], Some(issue)), db) == CyclesOf(IssueJobs(rows, Some(issue)), db) + RowCycles(db, row, issue)
  {
    assert (rows + [row])[..|rows|] == rows;
    var listed := IssueJobs(rows, Some(issue));
    assert (listed + [row.data])[..|listed|] == listed;
  }

  /** An issue's cycles split into one job's and the others', down to none for an empty table. */
  lemma {:induction false} CyclesSplit(db: Db, rows: seq<Row>, id: JobId, issue: nat)
    requires Mirrored(rows)
    ensures CyclesOf(IssueJobs(rows, Some(issue)), db)
            == CyclesOf(IssueJobs(Without(rows, id), Some(issue)), db)
               + match Find(rows, id) case None => 0 case Some(job) => Used(db, job, issue)
    ensures rows == [] ==> CyclesOf(IssueJobs(rows, Some(issue)), db) == 0
  {
    if rows != [] {
      var init, last := rows[..|rows| - 1], rows[|rows| - 1];
      assert Mirrored(init) && rows == init + [last];
      CyclesSplit(db, init, id, issue);
      CyclesOfAppended(init, last, db, issue);
      assert RowCycles(db, last, issue) == Used(db, last.data, issue);
      if last.id != id {
        CyclesOfAppended(Without(init, id), last, db, issue);
      } else {
        FindIsRow(init, id);
      }
    }
  }

  /** The candidate has run out of time or of repair cycles: its own for a short run, its issue's for a repair. */
  ghost predicate Exceeded(db: Db, job: Job)
  {
    var first := if exists s :: s in db.starts && s.job == job.id then 0 else 1;
    match job.stage
    case Initial => job.activeSeconds >= 600 || job.rounds + first > 5
    case Triage => job.activeSeconds >= 600 || job.rounds + first > 5
    case _ =>
      if job.issue.Some? then Spent(db.jobs, job.issue.value) >= 14400 || Cycles(db, job.issue.value) + first > 5
      else job.activeSeconds >= 14400 || job.rounds + first > 5
  }

  lemma OverBudgetExactly(db: Db, job: Job)
    ensures OverBudget(db, job) <==> Exceeded(db, job)
  {
  }

  // ---------------------------------------------------------------- one turn

  /** A queued job of the table, as it was listed. */
  ghost predicate Candidate(db: Db, job: Job) { Sound(db.jobs) && Find(db.jobs, job.id) == Some(job) && job.status == Queued }

  /** Not its turn: its issue is on hold, and it is no triage, or its time has not come. */
  ghost predicate NotYet(db: Db, job: Job, now: int)
  {
    (job.stage != Triage && job.issue.Some? && job.issue.value in db.holds) || job.nextAt > now
  }

  /** This job's document is replaced, and no other. */
  ghost predicate Becomes(db: Db, next: Db, job: Job)
  {
    Sound(next.jobs) && Find(next.jobs, job.id) == Some(job) && forall k :: k != job.id ==> Find(next.jobs, k) == Find(db.jobs, k)
  }

  /** The job goes to people, and its incident with it. */
  ghost predicate Escalates(db: Db, next: Db, job: Job)
  {
    && Becomes(db, next, job.(status := NeedsHuman, awaitsLaunch := false))
    && next.incidents.Keys == db.incidents.Keys
    && (forall s :: s in db.incidents ==>
          next.incidents[s] == if s == job.signature then db.incidents[s].(status := Escalated) else db.incidents[s])
    && next == db.(jobs := next.jobs, incidents := next.incidents)
  }

  lemma EditBecomes(db: Db, job: Job, e: Edit)
    requires Candidate(db, job) && Allowed(job, e)
    ensures Becomes(db, EditedRows(db, job.id, e), Edited(job, e))
  {
    Recovery.SaveReplaces(db.jobs, Edited(job, e));
  }

  lemma HandingOverEscalates(db: Db, job: Job)
    requires Candidate(db, job)
    ensures Escalates(db, HandOver(db, job.id), job)
  {
    EditBecomes(db, job, FOR_HUMAN);
    var edited := EditedRows(db, job.id, FOR_HUMAN);
    assert HandOver(db, job.id) == Escalate(edited, job.signature);
    assert edited == db.(jobs := edited.jobs);
  }

  lemma WaitingTurnChangesNothing(db: Db, job: Job, ready: Readiness, retries: nat, now: int)
    requires NotYet(db, job, now)
    ensures Consider(db, job, ready, retries, now) == (db, Skipped)
  {
  }

  /** A candidate that has used up its budget, or whose context fails validation, goes to people. */
  lemma SpentTurnEscalates(db: Db, job: Job, ready: Readiness, retries: nat, now: int)
    requires Candidate(db, job) && !NotYet(db, job, now)
    requires Exceeded(db, job) || (JobLaunchAfter(db, job, now) <= now && ready == OutOfScope)
    ensures Consider(db, job, ready, retries, now).1 == Skipped
    ensures Escalates(db, Consider(db, job, ready, retries, now).0, job)
  {
    OverBudgetExactly(db, job);
    HandingOverEscalates(db, job);
  }

  /** A candidate whose allowance is used up waits until the allowance lets it start, and is marked as waiting for it. */
  lemma LateTurnWaits(db: Db, job: Job, ready: Readiness, retries: nat, now: int)
    requires Candidate(db, job) && !NotYet(db, job, now) && !Exceeded(db, job) && JobLaunchAfter(db, job, now) > now
    ensures var (next, turn) := Consider(db, job, ready, retries, now);
            && turn == Skipped && next == db.(jobs := next.jobs)
            && Becomes(db, next, job.(nextAt := JobLaunchAfter(db, job, now), awaitsLaunch := true))
  {
    OverBudgetExactly(db, job);
    EditBecomes(db, job, AllowanceWait(JobLaunchAfter(db, job, now)));
  }

  /** A candidate whose work is already done elsewhere is done. */
  lemma FinishedTurnEnds(db: Db, job: Job, retries: nat, now: int)
    requires Candidate(db, job) && !NotYet(db, job, now) && !Exceeded(db, job) && JobLaunchAfter(db, job, now) <= now
    ensures var (next, turn) := Consider(db, job, AlreadyDone, retries, now);
            && turn == Skipped && next == db.(jobs := next.jobs)
            && Becomes(db, next, job.(status := Done, awaitsLaunch := false))
  {
    OverBudgetExactly(db, job);
    EditBecomes(db, job, FINISHED_ELSEWHERE);
  }

  /** The claim of a prepared job: its agent runs from now, for what the budget leaves; or it waits a minute. */
  lemma AttemptStartsOrWaits(db: Db, job: Job, now: int)
    requires Candidate(db, job)
    ensures var (next, started) := Attempt(db, job.id, now);
            if started then
              Becomes(db, next, job.(status := Running, lease := Held(now), remainingSeconds := Budget(db, job) - job.activeSeconds))
            else
              next == db.(jobs := next.jobs) && Becomes(db, next, job.(nextAt := now + 60))
  {
    if Claim(db, job.id, now).Ok? {
      Leases.ClaimGrants(db, job.id, now);
    } else {
      Recovery.SaveReplaces(db.jobs, job.(nextAt := now + 60));
    }
  }

  function WithItsContext(db: Db, job: Job): (next: Db) { db.(jobs := Update(db.jobs, job.id, WithContext())) }

  /** A prepared candidate gets its context and then the lease, from now and for what its budget leaves; when the claim is
      refused it waits a minute and the pass ends. */
  lemma PreparedTurnStarts(db: Db, job: Job, retries: nat, now: int)
    requires Candidate(db, job) && !NotYet(db, job, now) && !Exceeded(db, job) && JobLaunchAfter(db, job, now) <= now
    ensures var (next, turn) := Consider(db, job, Prepared, retries, now);
            && (turn == Launched || turn == GaveUp)
            && (turn == GaveUp ==> next == db.(jobs := next.jobs) && Becomes(db, next, job.(hasContext := true, nextAt := now + 60)))
            && (turn == Launched ==>
                  Becomes(db, next, job.(hasContext := true, status := Running, lease := Held(now),
                                         remainingSeconds := Launches.Left(db, job) - job.activeSeconds)))
  {
    OverBudgetExactly(db, job);
    var prepared := WithItsContext(db, job);
    Recovery.SaveReplaces(db.jobs, job.(hasContext := true));
    ContextKeepsLeft(db, job);
    AttemptStartsOrWaits(prepared, job.(hasContext := true), now);
    assert Consider(db, job, Prepared, retries, now).0 == Attempt(prepared, job.id, now).0;
  }

  lemma ContextKeepsLeft(db: Db, job: Job)
    requires Candidate(db, job)
    ensures var prepared := db.(jobs := Update(db.jobs, job.id, WithContext()));
            Budget(prepared, job.(hasContext := true)) == Launches.Left(db, job)
  {
    if job.issue.Some? { WithoutSaved(db.jobs, job.(hasContext := true)); }
  }

  lemma {:induction false} WithoutTwice(rows: seq<Row>, id: JobId)
    ensures Without(Without(rows, id), id) == Without(rows, id)
  {
    if rows != [] {
      var w := Without(rows[..|rows| - 1], id);
      WithoutTwice(rows[..|rows| - 1], id);
      if rows[|rows| - 1].id != id { assert (w + [rows[|rows| - 1]])[..|w|] == w; }
    }
  }

  lemma WithoutSaved(rows: seq<Row>, job: Job)
    ensures Without(Save(rows, job), job.id) == Without(rows, job.id)
  {
    var w := Without(rows, job.id);
    assert Save(rows, job)[..|w|] == w;
    WithoutTwice(rows, job.id);
  }
}
