/** The `jobs` table: rows in save order, each mirroring two fields of its JSON document in columns. */
module JobStore {
  import opened Contracts

  type JobId = nat

  datatype Stage = Initial | Triage | Deep | Revise

  datatype Status =
    | Queued | Running | Processing | ResultReady | WaitingCi
    | Ready | Done | Observing | NeedsHuman | Cancelled | WaitDeploy

  /** `lease_started`: the key is absent until the first claim, a time while running, null afterwards. */
  datatype Lease = Never | Released | Held(since: int)

  /** One version of an owner's comment. Its fingerprint covers every field, so equal comments are equal versions. */
  datatype Comment = Comment(number: nat, id: nat, updatedAt: int, body: string)

  datatype Job = Job(
    id: JobId,
    stage: Stage,
    signature: string,
    incidentId: int,
    status: Status,
    issue: Option<nat>,
    cancelled: bool,
    activeSeconds: int,
    remainingSeconds: int,
    rounds: nat,
    attempts: nat,
    nextAt: int,
    lease: Lease,
    quotaResume: bool,
    hasResult: bool,
    hasContext: bool,
    awaitsLaunch: bool,
    ownerComments: seq<Comment>)

  datatype Row = Row(id: JobId, issueColumn: Option<nat>, statusColumn: Status, data: Job)

  const TERMINAL := {Done, Observing, NeedsHuman, Cancelled, Ready, WaitDeploy}

  predicate Short(job: Job) { job.stage in {Initial, Triage} }

  predicate Repair(job: Job) { job.stage in {Deep, Revise} }

  function StageLimit(job: Job): (n: int) { if Short(job) then INITIAL_SECONDS else DEEP_SECONDS }

  /** A job as `new_job` makes it. */
  function Fresh(id: JobId, stage: Stage, signature: string, incidentId: int, issue: Option<nat>,
                 comments: seq<Comment>): (next: Job)
  {
    Job(id, stage, signature, incidentId, Queued, issue, false, 0, 0, 0, 0, 0, Never, false, false, false, false, comments)
  }

  // ---------------------------------------------------------------- the table

  /** The document stored for a job id. */
  function Find(rows: seq<Row>, id: JobId): (found: Option<Job>)
  {
    if rows == [] then None
    else
      var last := rows[|rows| - 1];
      if last.id == id then Some(last.data) else Find(rows[..|rows| - 1], id)
  }

  function Without(rows: seq<Row>, id: JobId): (next: seq<Row>)
  {
    if rows == [] then []
    else
      var init := Without(rows[..|rows| - 1], id);
      if rows[|rows| - 1].id == id then init else init + [rows[|rows| - 1]]
  }

  /** What `save_job` really stores: a cancelled row stays cancelled whatever snapshot is written over it. */
  function Settled(rows: seq<Row>, job: Job): (next: Job)
  {
    var existing := Find(rows, job.id);
    if job.cancelled || (existing.Some? && existing.value.cancelled)
    then job.(cancelled := true, status := Cancelled)
    else job
  }

  /** `INSERT OR REPLACE`: the old row goes, the new one takes a fresh rowid at the end. */
  function Save(rows: seq<Row>, job: Job): (next: seq<Row>)
  {
    var stored := Settled(rows, job);
    Without(rows, job.id) + [Row(stored.id, stored.issue, stored.status, stored)]
  }

  /** `update_job`: changes fields of the stored document; an unknown id is refused and changes nothing. */
  function Update(rows: seq<Row>, id: JobId, change: Job -> Job): (next: seq<Row>)
  {
    var found := Find(rows, id);
    if found.Some? then Save(rows, change(found.value)) else rows
  }

  function SaveAll(rows: seq<Row>, jobs: seq<Job>): (next: seq<Row>)
    decreases |jobs|
  {
    if jobs == [] then rows else SaveAll(Save(rows, jobs[0]), jobs[1..])
  }

  /** Every row's key and columns agree with its document, and keys are unique. */
  ghost predicate Mirrored(rows: seq<Row>)
  {
    && (forall i :: 0 <= i < |rows| ==>
          rows[i].id == rows[i].data.id && rows[i].issueColumn == rows[i].data.issue && rows[i].statusColumn == rows[i].data.status)
    && (forall i, j :: 0 <= i < j < |rows| ==> rows[i].id != rows[j].id)
  }

  /** Cancelled documents carry the cancelled status. */
  ghost predicate Sound(rows: seq<Row>)
  {
    && Mirrored(rows)
    && forall k :: Find(rows, k).Some? && Find(rows, k).value.cancelled ==> Find(rows, k).value.status == Cancelled
  }

  // ---------------------------------------------------------------- queries over the columns

  function Select(rows: seq<Row>, keep: Row -> bool): (jobs: seq<Job>)
  {
    if rows == [] then []
    else
      var init := Select(rows[..|rows| - 1], keep);
      if keep(rows[|rows| - 1]) then init + [rows[|rows| - 1].data] else init
  }

  function Jobs(rows: seq<Row>): (jobs: seq<Job>) { Select(rows, (row: Row) => true) }

  function WithStatus(rows: seq<Row>, statuses: set<Status>): (jobs: seq<Job>)
  {
    Select(rows, (row: Row) => row.statusColumn in statuses)
  }

  function IssueJobs(rows: seq<Row>, issue: Option<nat>): (jobs: seq<Job>)
  {
    Select(rows, (row: Row) => row.issueColumn == issue)
  }

  function Unfinished(rows: seq<Row>): (jobs: seq<Job>)
  {
    Select(rows, (row: Row) => row.statusColumn !in TERMINAL)
  }

  function Kept(jobs: seq<Job>, keep: Job -> bool): (result: seq<Job>)
  {
    if jobs == [] then []
    else
      var init := Kept(jobs[..|jobs| - 1], keep);
      if keep(jobs[|jobs| - 1]) then init + [jobs[|jobs| - 1]] else init
  }

  lemma {:induction false} SelectScansDocuments(rows: seq<Row>, keepRow: Row -> bool, keepJob: Job -> bool)
    requires forall i :: 0 <= i < |rows| ==> keepRow(rows[i]) == keepJob(rows[i].data)
    ensures Select(rows, keepRow) == Kept(Jobs(rows), keepJob)
  {
    if rows != [] {
      var init := rows[..|rows| - 1];
      SelectScansDocuments(init, keepRow, keepJob);
      assert Jobs(rows) == Jobs(init) + [rows[|rows| - 1].data];
      assert Jobs(rows)[..|Jobs(rows)| - 1] == Jobs(init);
    }
  }

  /** Each indexed query returns what filtering the decoded documents would, in the same order. */
  lemma QueriesRefineFullScan(rows: seq<Row>, statuses: set<Status>, issue: Option<nat>)
    requires Mirrored(rows)
    ensures WithStatus(rows, statuses) == Kept(Jobs(rows), (job: Job) => job.status in statuses)
    ensures IssueJobs(rows, issue) == Kept(Jobs(rows), (job: Job) => job.issue == issue)
    ensures Unfinished(rows) == Kept(Jobs(rows), (job: Job) => job.status !in TERMINAL)
  {
    SelectScansDocuments(rows, (row: Row) => row.statusColumn in statuses, (job: Job) => job.status in statuses);
    SelectScansDocuments(rows, (row: Row) => row.issueColumn == issue, (job: Job) => job.issue == issue);
    SelectScansDocuments(rows, (row: Row) => row.statusColumn !in TERMINAL, (job: Job) => job.status !in TERMINAL);
  }

  // ---------------------------------------------------------------- what saving does

  lemma {:induction false} WithoutRows(rows: seq<Row>, id: JobId)
    ensures forall row :: row in Without(rows, id) <==> row in rows && row.id != id
    ensures Mirrored(rows) ==> Mirrored(Without(rows, id))
    ensures |Without(rows, id)| <= |rows|
  {
    if rows != [] {
      var init := rows[..|rows| - 1];
      WithoutRows(init, id);
      assert rows == init + [rows[|rows| - 1]];
      if Mirrored(rows) {
        assert Mirrored(init);
        var w := Without(init, id);
        forall i | 0 <= i < |w| ensures w[i].id != rows[|rows| - 1].id {
          assert w[i] in init;
        }
      }
    }
  }

  lemma {:induction false} FindIsRow(rows: seq<Row>, id: JobId)
    ensures Find(rows, id).Some? ==> exists i :: 0 <= i < |rows| && rows[i].id == id && rows[i].data == Find(rows, id).value
    ensures Find(rows, id).None? ==> forall i :: 0 <= i < |rows| ==> rows[i].id != id
    ensures Mirrored(rows) && Find(rows, id).Some? ==> Find(rows, id).value.id == id
  {
    if rows != [] {
      var init := rows[..|rows| - 1];
      FindIsRow(init, id);
      assert Mirrored(rows) ==> Mirrored(init);
    }
  }

  lemma {:induction false} RowIsFound(rows: seq<Row>, i: nat)
    requires Mirrored(rows) && i < |rows|
    ensures Find(rows, rows[i].id) == Some(rows[i].data)
  {
    if i < |rows| - 1 {
      RowIsFound(rows[..|rows| - 1], i);
    }
  }

  lemma {:induction false} FindWithout(rows: seq<Row>, id: JobId, k: JobId)
    ensures Find(Without(rows, id), k) == if k == id then None else Find(rows, k)
  {
    if rows != [] {
      var init := rows[..|rows| - 1];
      FindWithout(init, id, k);
      var w := Without(init, id);
      if rows[|rows| - 1].id != id {
        assert (w + [rows[|rows| - 1]])[..|w|] == w;
      }
    }
  }

  lemma SaveMirrors(rows: seq<Row>, job: Job)
    requires Mirrored(rows)
    ensures Mirrored(Save(rows, job))
  {
    WithoutRows(rows, job.id);
    var w := Without(rows, job.id);
    forall i | 0 <= i < |w| ensures w[i].id != job.id { assert w[i] in w; }
  }

  lemma FindSaved(rows: seq<Row>, job: Job, k: JobId)
    ensures Find(Save(rows, job), k) == if k == job.id then Some(Settled(rows, job)) else Find(rows, k)
  {
    var w := Without(rows, job.id);
    assert Save(rows, job)[..|w|] == w;
    FindWithout(rows, job.id, k);
  }

  /** Saving keeps the mirror, stores the settled document, and leaves every other job as it was. */
  lemma SaveStores(rows: seq<Row>, job: Job)
    requires Mirrored(rows)
    ensures Mirrored(Save(rows, job))
    ensures forall k :: Find(Save(rows, job), k) == if k == job.id then Some(Settled(rows, job)) else Find(rows, k)
  {
    SaveMirrors(rows, job);
    forall k ensures Find(Save(rows, job), k) == if k == job.id then Some(Settled(rows, job)) else Find(rows, k) {
      FindSaved(rows, job, k);
    }
  }

  /** A stored document is last, stays cancelled if it was, and disturbs no other. */
  ghost predicate Absorbs(rows: seq<Row>, next: seq<Row>, job: Job)
  {
    && Sound(next)
    && next != [] && next[|next| - 1].id == job.id
    && (forall k :: k != job.id ==> Find(next, k) == Find(rows, k))
    && (Find(rows, job.id).Some? && Find(rows, job.id).value.cancelled ==> next[|next| - 1].data.cancelled)
  }

  lemma SaveAbsorbs(rows: seq<Row>, job: Job)
    ensures Sound(rows) ==> Absorbs(rows, Save(rows, job), job)
  {
    if Sound(rows) { SaveStores(rows, job); }
  }

  /** Updating an existing job settles its changed document; nothing else moves. */
  lemma UpdateStores(rows: seq<Row>, id: JobId, change: Job -> Job)
    requires Mirrored(rows)
    requires Find(rows, id).Some? ==> change(Find(rows, id).value).id == id
    ensures var next := Update(rows, id, change);
            && Mirrored(next)
            && (forall k :: k != id ==> Find(next, k) == Find(rows, k))
            && Find(next, id) == if Find(rows, id).Some? then Some(Settled(rows, change(Find(rows, id).value))) else None
  {
    if Find(rows, id).Some? { SaveStores(rows, change(Find(rows, id).value)); }
  }

  /** Filtering keeps the order: what is kept stands at increasing places, and nothing kept is missed. */
  lemma {:induction false} KeptKeepsOrder(jobs: seq<Job>, keep: Job -> bool) returns (places: seq<nat>)
    ensures |places| == |Kept(jobs, keep)|
    ensures forall n :: 0 <= n < |places| ==> places[n] < |jobs| && Kept(jobs, keep)[n] == jobs[places[n]]
    ensures forall m, n :: 0 <= m < n < |places| ==> places[m] < places[n]
    ensures forall i :: 0 <= i < |jobs| && keep(jobs[i]) ==> i in places
  {
    places := [];
    if jobs != [] {
      var init := jobs[..|jobs| - 1];
      places := KeptKeepsOrder(init, keep);
      if keep(jobs[|jobs| - 1]) { places := places + [|init|]; }
    }
  }

  function Except(id: JobId): (keep: Job -> bool) { (job: Job) => job.id != id }

  lemma {:induction false} SelectWithout(rows: seq<Row>, id: JobId, keep: Row -> bool)
    requires Mirrored(rows)
    ensures Select(Without(rows, id), keep) == Kept(Select(rows, keep), Except(id))
  {
    if rows != [] {
      var init, last := rows[..|rows| - 1], rows[|rows| - 1];
      assert Mirrored(init);
      SelectWithout(init, id, keep);
      var w, listed := Without(init, id), Select(init, keep);
      assert (w + [last])[..|w|] == w;
      assert (listed + [last.data])[..|listed|] == listed;
    }
  }

  /** A saved job moves to the end of every listing it belongs to; the others are the old listing without it, in the same
      order. */
  lemma SaveMovesLast(rows: seq<Row>, job: Job, keep: Row -> bool)
    requires Mirrored(rows)
    ensures var stored := Settled(rows, job);
            Select(Save(rows, job), keep)
            == Kept(Select(rows, keep), Except(job.id))
               + if keep(Row(stored.id, stored.issue, stored.status, stored)) then [stored] else []
  {
    var w := Without(rows, job.id);
    assert Save(rows, job)[..|w|] == w;
    SelectWithout(rows, job.id, keep);
  }

  /** No sequence of later saves, however stale, clears a cancellation or its status. */
  lemma {:induction false} CancellationAbsorbs(rows: seq<Row>, jobs: seq<Job>, id: JobId)
    requires Mirrored(rows)
    requires Find(rows, id).Some? && Find(rows, id).value.cancelled && Find(rows, id).value.status == Cancelled
    ensures var after := Find(SaveAll(rows, jobs), id);
            after.Some? && after.value.cancelled && after.value.status == Cancelled
    decreases |jobs|
  {
    if jobs != [] {
      SaveStores(rows, jobs[0]);
      CancellationAbsorbs(Save(rows, jobs[0]), jobs[1..], id);
    }
  }

  // ---------------------------------------------------------------- membership of query results

  lemma {:induction false} KeptMembers(jobs: seq<Job>, keep: Job -> bool)
    ensures forall job :: job in Kept(jobs, keep) <==> job in jobs && keep(job)
  {
    if jobs != [] {
      assert jobs == jobs[..|jobs| - 1] + [jobs[|jobs| - 1]];
      KeptMembers(jobs[..|jobs| - 1], keep);
    }
  }

  ghost predicate Listed(jobs: seq<Job>, k: JobId) { exists i :: 0 <= i < |jobs| && jobs[i].id == k }

  lemma {:induction false} SelectMembers(rows: seq<Row>, keep: Row -> bool)
    ensures forall job :: job in Select(rows, keep) <==> exists i :: 0 <= i < |rows| && keep(rows[i]) && rows[i].data == job
  {
    if rows != [] {
      var init := rows[..|rows| - 1];
      SelectMembers(init, keep);
      forall job ensures job in Select(rows, keep) <==> exists i :: 0 <= i < |rows| && keep(rows[i]) && rows[i].data == job {
        if job in Select(init, keep) {
          var i :| 0 <= i < |init| && keep(init[i]) && init[i].data == job;
          assert rows[i] == init[i];
        } else if exists i :: 0 <= i < |rows| && keep(rows[i]) && rows[i].data == job {
          var i :| 0 <= i < |rows| && keep(rows[i]) && rows[i].data == job;
          assert i < |init| ==> init[i] == rows[i];
        }
      }
    }
  }

  /** A query lists a job exactly when the job's current document satisfies the query. */
  lemma SelectFinds(rows: seq<Row>, keepRow: Row -> bool, keepJob: Job -> bool)
    requires Mirrored(rows)
    requires forall i :: 0 <= i < |rows| ==> keepRow(rows[i]) == keepJob(rows[i].data)
    ensures forall job :: job in Select(rows, keepRow) <==> Find(rows, job.id) == Some(job) && keepJob(job)
  {
    SelectMembers(rows, keepRow);
    forall job ensures job in Select(rows, keepRow) <==> Find(rows, job.id) == Some(job) && keepJob(job) {
      if job in Select(rows, keepRow) {
        var i :| 0 <= i < |rows| && keepRow(rows[i]) && rows[i].data == job;
        RowIsFound(rows, i);
      }
      if Find(rows, job.id) == Some(job) && keepJob(job) {
        FindIsRow(rows, job.id);
        var i :| 0 <= i < |rows| && rows[i].id == job.id && rows[i].data == job;
        assert keepRow(rows[i]);
      }
    }
  }

  ghost predicate DistinctIds(jobs: seq<Job>) { forall i, j :: 0 <= i < j < |jobs| ==> jobs[i].id != jobs[j].id }

  lemma {:induction false} SelectDistinct(rows: seq<Row>, keep: Row -> bool)
    requires Mirrored(rows)
    ensures DistinctIds(Select(rows, keep))
  {
    if rows != [] {
      var n := |rows| - 1;
      assert Mirrored(rows[..n]);
      SelectDistinct(rows[..n], keep);
      SelectMembers(rows[..n], keep);
      var rest := Select(rows[..n], keep);
      forall i | 0 <= i < |rest| ensures rest[i].id != rows[n].data.id {
        assert rest[i] in rest;
        var k :| 0 <= k < n && rows[..n][k].data == rest[i];
      }
    }
  }

  lemma QueriesFind(rows: seq<Row>, statuses: set<Status>, issue: Option<nat>)
    requires Mirrored(rows)
    ensures forall job :: job in WithStatus(rows, statuses) <==> Find(rows, job.id) == Some(job) && job.status in statuses
    ensures forall job :: job in IssueJobs(rows, issue) <==> Find(rows, job.id) == Some(job) && job.issue == issue
    ensures forall job :: job in Unfinished(rows) <==> Find(rows, job.id) == Some(job) && job.status !in TERMINAL
    ensures forall job :: job in Jobs(rows) <==> Find(rows, job.id) == Some(job)
  {
    SelectFinds(rows, (row: Row) => row.statusColumn in statuses, (job: Job) => job.status in statuses);
    SelectFinds(rows, (row: Row) => row.issueColumn == issue, (job: Job) => job.issue == issue);
    SelectFinds(rows, (row: Row) => row.statusColumn !in TERMINAL, (job: Job) => job.status !in TERMINAL);
    SelectFinds(rows, (row: Row) => true, (job: Job) => true);
  }

  // ---------------------------------------------------------------- repair time per issue

  function Cost(job: Job, issue: nat): (n: int)
  {
    if Repair(job) && job.issue == Some(issue) then job.activeSeconds else 0
  }

  /** Active seconds of all repair jobs of an issue. */
  function Spent(rows: seq<Row>, issue: nat): (n: int)
  {
    if rows == [] then 0 else Spent(rows[..|rows| - 1], issue) + Cost(rows[|rows| - 1].data, issue)
  }

  lemma {:induction false} SpentSplits(rows: seq<Row>, id: JobId, issue: nat)
    requires Mirrored(rows)
    ensures Spent(rows, issue)
            == Spent(Without(rows, id), issue) + match Find(rows, id) case None => 0 case Some(job) => Cost(job, issue)
  {
    if rows != [] {
      var init := rows[..|rows| - 1];
      SpentSplits(init, id, issue);
      var w := Without(init, id);
      if rows[|rows| - 1].id != id {
        assert (w + [rows[|rows| - 1]])[..|w|] == w;
      } else {
        FindIsRow(init, id);
      }
    }
  }

  lemma SpentAfterSave(rows: seq<Row>, job: Job, issue: nat)
    requires Mirrored(rows)
    ensures Spent(Save(rows, job), issue) == Spent(Without(rows, job.id), issue) + Cost(job, issue)
  {
    var w := Without(rows, job.id);
    assert Save(rows, job)[..|w|] == w;
  }

  /** `sum(active_seconds ...)` over a listing, leaving one job out. */
  function RepairSeconds(jobs: seq<Job>, except: JobId): (n: int)
  {
    if jobs == [] then 0
    else
      var last := jobs[|jobs| - 1];
      RepairSeconds(jobs[..|jobs| - 1], except) + if last.id != except && Repair(last) then last.activeSeconds else 0
  }

  /** Summing an issue's listing of columns is summing its documents. */
  lemma {:induction false} ListingSumsSpent(rows: seq<Row>, issue: nat, except: JobId)
    requires Mirrored(rows)
    ensures RepairSeconds(IssueJobs(rows, Some(issue)), except) == Spent(Without(rows, except), issue)
  {
    if rows != [] {
      var init := rows[..|rows| - 1];
      var last := rows[|rows| - 1];
      ListingSumsSpent(init, issue, except);
      var w := Without(init, except);
      if last.id != except { assert (w + [last])[..|w|] == w; }
      var listed := IssueJobs(init, Some(issue));
      if last.issueColumn == Some(issue) { assert (listed + [last.data])[..|listed|] == listed; }
    }
  }
}
