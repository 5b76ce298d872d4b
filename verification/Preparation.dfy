/** `prepare_run`: one pass over the queued jobs, and the steps of the world it amounts to. */
module Preparation {
  import opened Contracts
  import opened JobStore
  import opened Tables
  import opened Scheduling
  import opened Lifecycle
  import opened Runs
  import opened Exclusion
  import ProviderQuota

  /** What GitHub, the source checkout and the context builder say about a candidate. */
  datatype Readiness = Prepared | Unavailable | OutOfScope | AlreadyDone

  datatype Turn = Skipped | Launched | GaveUp

  // ---------------------------------------------------------------- giving a job up, or trying it later

  const FOR_HUMAN := UNCHANGED.(status := Some(NeedsHuman), awaitsLaunch := Some(false))

  function EditedRows(db: Db, id: JobId, e: Edit): (next: Db) { db.(jobs := Update(db.jobs, id, Editing(e))) }

  function Escalate(db: Db, signature: string): (next: Db)
  {
    if signature !in db.incidents then db
    else db.(incidents := db.incidents[signature := db.incidents[signature].(status := Escalated)])
  }

  /** `needs_human`; a cancelled or unknown job is left alone. */
  function HandOver(db: Db, id: JobId): (next: Db)
  {
    var found := Find(db.jobs, id);
    if found.None? || found.value.cancelled then db
    else Escalate(EditedRows(db, id, FOR_HUMAN), found.value.signature)
  }

  function RetryDelay(attempts: nat): (n: int)
    requires attempts >= 1
  {
    Min(900, 30 * ProviderQuota.Pow2(attempts - 1))
  }

  function BackInLine(job: Job): (e: Edit) { UNCHANGED.(status := Some(Resumption(job)), awaitsLaunch := Some(false)) }

  function Later(job: Job, now: int): (e: Edit)
  {
    BackInLine(job).(attempts := Some(job.attempts + 1), nextAt := Some(now + RetryDelay(job.attempts + 1)))
  }

  const FULL_PRICE := UNCHANGED.(quotaResume := Some(false))

  /** `retry`: while the issue is on hold the job just waits; otherwise it backs off until its retries are used up. */
  function Retry(db: Db, id: JobId, retries: nat, now: int): (next: Db)
  {
    var before := EditedRows(db, id, FULL_PRICE);
    var found := Find(before.jobs, id);
    if found.None? then before
    else if Blocked(before, found.value) then EditedRows(before, id, BackInLine(found.value))
    else if found.value.attempts + 1 >= retries then HandOver(before, id)
    else EditedRows(before, id, Later(found.value, now))
  }

  // ---------------------------------------------------------------- the pass

  function AllowanceWait(at: int): (e: Edit) { UNCHANGED.(nextAt := Some(at), awaitsLaunch := Some(true)) }

  const FINISHED_ELSEWHERE := UNCHANGED.(status := Some(Done), awaitsLaunch := Some(false))

  /** One candidate, as it was listed. */
  function Consider(db: Db, job: Job, ready: Readiness, retries: nat, now: int): (result: (Db, Turn))
  {
    if Blocked(db, job) || job.nextAt > now then (db, Skipped)
    else if OverBudget(db, job) then (HandOver(db, job.id), Skipped)
    else if JobLaunchAfter(db, job, now) > now then
      (EditedRows(db, job.id, AllowanceWait(JobLaunchAfter(db, job, now))), Skipped)
    else
      match ready
      case Unavailable => (Retry(db, job.id, retries, now), Skipped)
      case OutOfScope => (HandOver(db, job.id), Skipped)
      case AlreadyDone => (EditedRows(db, job.id, FINISHED_ELSEWHERE), Skipped)
      case Prepared =>
        var attempt := Attempt(db.(jobs := Update(db.jobs, job.id, WithContext())), job.id, now);
        (attempt.0, if attempt.1 then Launched else GaveUp)
  }

  /** A stable sort by one question: triage jobs first. */
  function Candidates(rows: seq<Row>): (jobs: seq<Job>)
  {
    Kept(WithStatus(rows, {Queued}), (job: Job) => job.stage.Triage?) + Kept(WithStatus(rows, {Queued}), (job: Job) => !job.stage.Triage?)
  }

  function ConsiderAll(db: Db, jobs: seq<Job>, ready: JobId -> Readiness, retries: nat, now: int): (result: (Db, Option<JobId>))
    decreases |jobs|
  {
    if jobs == [] then (db, None)
    else
      var (next, turn) := Consider(db, jobs[0], ready(jobs[0].id), retries, now);
      match turn
      case Skipped => ConsiderAll(next, jobs[1..], ready, retries, now)
      case Launched => (next, Some(jobs[0].id))
      case GaveUp => (next, None)
  }

  function Prepare(db: Db, ready: JobId -> Readiness, retries: nat, now: int): (result: (Db, Option<JobId>))
  {
    if !db.enabled || !ProviderAvailable(db, now) then (db, None)
    else ConsiderAll(db, Candidates(db.jobs), ready, retries, now)
  }

  // ---------------------------------------------------------------- retries run out

  lemma EditStores(rows: seq<Row>, id: JobId, e: Edit)
    requires Mirrored(rows)
    ensures var next := Update(rows, id, Editing(e));
            && Mirrored(next)
            && (forall k :: k != id ==> Find(next, k) == Find(rows, k))
            && Find(next, id) == if Find(rows, id).Some? then Some(Settled(rows, Edited(Find(rows, id).value, e))) else None
  {
    FindIsRow(rows, id);
    UpdateStores(rows, id, Editing(e));
  }

  lemma RetryDelayIsBounded(attempts: nat)
    requires attempts >= 1
    ensures 30 <= RetryDelay(attempts) <= 900
  {
    ProviderQuota.Pow2Grows(0, attempts - 1);
  }

  ghost predicate Live(db: Db, id: JobId, job: Job)
  {
    Mirrored(db.jobs) && Find(db.jobs, id) == Some(job) && !job.cancelled
  }

  lemma EditOfLive(db: Db, id: JobId, job: Job, e: Edit)
    requires Live(db, id, job)
    ensures Live(EditedRows(db, id, e), id, Edited(job, e))
  {
    FindIsRow(db.jobs, id);
    EditStores(db.jobs, id, e);
  }

  lemma HandOverOfLive(db: Db, id: JobId, job: Job)
    requires Live(db, id, job)
    ensures Find(HandOver(db, id).jobs, id).Some? && Find(HandOver(db, id).jobs, id).value.status.NeedsHuman?
  {
    EditOfLive(db, id, job, FOR_HUMAN);
  }

  /** A failed attempt of a live job either waits for its owner, goes to a human, or uses up one more retry and waits. */
  lemma RetriesRunOut(db: Db, id: JobId, job: Job, retries: nat, now: int)
    requires Live(db, id, job)
    ensures var after := Find(Retry(db, id, retries, now).jobs, id);
            && after.Some?
            && (Blocked(db, job) ==> after.value.status == Resumption(job) && after.value.attempts == job.attempts)
            && (!Blocked(db, job) && job.attempts + 1 >= retries ==> after.value.status.NeedsHuman?)
            && (!Blocked(db, job) && job.attempts + 1 < retries ==>
                  && after.value.attempts == job.attempts + 1 && after.value.status == Resumption(job)
                  && now + 30 <= after.value.nextAt <= now + 900)
  {
    var before, current := EditedRows(db, id, FULL_PRICE), Edited(job, FULL_PRICE);
    EditOfLive(db, id, job, FULL_PRICE);
    assert Blocked(before, current) == Blocked(db, job) && current.attempts == job.attempts && Resumption(current) == Resumption(job);
    if Blocked(db, job) {
      EditOfLive(before, id, current, BackInLine(current));
    } else if job.attempts + 1 >= retries {
      HandOverOfLive(before, id, current);
    } else {
      EditOfLive(before, id, current, Later(current, now));
      RetryDelayIsBounded(job.attempts + 1);
    }
  }

  // ---------------------------------------------------------------- a pass is a run of steps

  /** Where a job's row may differ after its turn: nowhere else, and none of the pass's gates move. */
  ghost predicate OnlyTouches(db: Db, next: Db, id: JobId)
  {
    && Mirrored(next.jobs)
    && (forall k :: k != id ==> Find(next.jobs, k) == Find(db.jobs, k))
    && next == db.(jobs := next.jobs, incidents := next.incidents)
  }

  lemma EditTouches(db: Db, id: JobId, e: Edit)
    requires Mirrored(db.jobs)
    ensures OnlyTouches(db, EditedRows(db, id, e), id)
  {
    EditStores(db.jobs, id, e);
  }

  lemma HandOverTouches(db: Db, id: JobId)
    requires Mirrored(db.jobs)
    ensures OnlyTouches(db, HandOver(db, id), id)
  {
    EditTouches(db, id, FOR_HUMAN);
  }

  lemma TouchesTwice(a: Db, b: Db, c: Db, id: JobId)
    requires OnlyTouches(a, b, id) && OnlyTouches(b, c, id)
    ensures OnlyTouches(a, c, id)
  {
  }

  lemma RetryTouches(db: Db, id: JobId, retries: nat, now: int)
    requires Mirrored(db.jobs)
    ensures OnlyTouches(db, Retry(db, id, retries, now), id)
  {
    EditTouches(db, id, FULL_PRICE);
    var before := EditedRows(db, id, FULL_PRICE);
    var found := Find(before.jobs, id);
    if found.Some? {
      EditTouches(before, id, BackInLine(found.value));
      EditTouches(before, id, Later(found.value, now));
      HandOverTouches(before, id);
      TouchesTwice(db, before, Retry(db, id, retries, now), id);
    }
  }

  lemma ConsiderTouches(db: Db, job: Job, ready: Readiness, retries: nat, now: int)
    requires Mirrored(db.jobs) && Consider(db, job, ready, retries, now).1.Skipped?
    ensures OnlyTouches(db, Consider(db, job, ready, retries, now).0, job.id)
  {
    if !Blocked(db, job) && job.nextAt <= now {
      if OverBudget(db, job) || ready.OutOfScope? { HandOverTouches(db, job.id); }
      if ready.Unavailable? { RetryTouches(db, job.id, retries, now); }
      EditTouches(db, job.id, AllowanceWait(JobLaunchAfter(db, job, now)));
      EditTouches(db, job.id, FINISHED_ELSEWHERE);
    }
  }

  lemma {:induction false} RunsJoin(w: World, a: seq<Op>, b: seq<Op>)
    requires Possible(w, a) && Possible(Run(w, a), b)
    ensures Possible(w, a + b) && Run(w, a + b) == Run(Run(w, a), b)
    decreases |a|
  {
    if a == [] {
      assert a + b == b;
    } else {
      assert (a + b)[1..] == a[1..] + b;
      RunsJoin(Step(w, a[0]), a[1..], b);
    }
  }

  lemma OneStep(w: World, op: Op)
    requires Enabled(w, op)
    ensures Possible(w, [op]) && Run(w, [op]) == Step(w, op)
  {
    assert [op][1..] == [];
  }

  lemma EditIsStep(w: World, id: JobId, e: Edit)
    requires w.service.Up?
    ensures Possible(w, [EditJob(id, e)]) && Run(w, [EditJob(id, e)]) == w.(db := EditedRows(w.db, id, e))
  {
    OneStep(w, EditJob(id, e));
  }

  lemma HandOverIsSteps(w: World, id: JobId) returns (ops: seq<Op>)
    requires w.service.Up?
    ensures Possible(w, ops) && Run(w, ops) == w.(db := HandOver(w.db, id))
  {
    ops := [];
    var found := Find(w.db.jobs, id);
    if found.Some? && !found.value.cancelled {
      EditIsStep(w, id, FOR_HUMAN);
      var edited := w.(db := EditedRows(w.db, id, FOR_HUMAN));
      OneStep(edited, SettleIncident(found.value.signature, Escalated));
      RunsJoin(w, [EditJob(id, FOR_HUMAN)], [SettleIncident(found.value.signature, Escalated)]);
      ops := [EditJob(id, FOR_HUMAN)] + [SettleIncident(found.value.signature, Escalated)];
    }
  }

  lemma RetryIsSteps(w: World, id: JobId, retries: nat) returns (ops: seq<Op>)
    requires w.service.Up?
    ensures Possible(w, ops) && Run(w, ops) == w.(db := Retry(w.db, id, retries, w.now))
  {
    EditIsStep(w, id, FULL_PRICE);
    ops := [EditJob(id, FULL_PRICE)];
    var before := w.(db := EditedRows(w.db, id, FULL_PRICE));
    var found := Find(before.db.jobs, id);
    if found.Some? {
      var more := [];
      if !Blocked(before.db, found.value) && found.value.attempts + 1 >= retries {
        more := HandOverIsSteps(before, id);
      } else {
        var e := if Blocked(before.db, found.value) then BackInLine(found.value) else Later(found.value, w.now);
        EditIsStep(before, id, e);
        more := [EditJob(id, e)];
      }
      RunsJoin(w, ops, more);
      ops := ops + more;
    }
  }

  /** The gates a pass has gone through: it goes on only with an enabled service, an open quota and no agent. */
  ghost predicate Going(w: World, jobs: seq<Job>)
  {
    && w.service == Up(None) && Mirrored(w.db.jobs) && w.db.enabled && ProviderAvailable(w.db, w.now)
    && (forall i :: 0 <= i < |jobs| ==> Find(w.db.jobs, jobs[i].id) == Some(jobs[i]) && jobs[i].status.Queued?)
    && (forall i, j :: 0 <= i < j < |jobs| ==> jobs[i].id != jobs[j].id)
  }

  function Served(w: World, result: (Db, Option<JobId>)): (next: World)
  {
    w.(db := result.0, service := if result.1.Some? then Up(result.1) else w.service,
       log := w.log + if result.1.Some? then BegunIn(w.db, result.1.value, w.now) else [])
  }

  lemma SkippedIsSteps(w: World, job: Job, ready: Readiness, retries: nat) returns (ops: seq<Op>)
    requires w.service.Up? && Consider(w.db, job, ready, retries, w.now).1.Skipped?
    ensures Possible(w, ops) && Run(w, ops) == w.(db := Consider(w.db, job, ready, retries, w.now).0)
  {
    ops := [];
    if !Blocked(w.db, job) && job.nextAt <= w.now {
      if OverBudget(w.db, job) {
        ops := HandOverIsSteps(w, job.id);
      } else if JobLaunchAfter(w.db, job, w.now) > w.now {
        EditIsStep(w, job.id, AllowanceWait(JobLaunchAfter(w.db, job, w.now)));
        ops := [EditJob(job.id, AllowanceWait(JobLaunchAfter(w.db, job, w.now)))];
      } else if ready.Unavailable? {
        ops := RetryIsSteps(w, job.id, retries);
      } else if ready.OutOfScope? {
        ops := HandOverIsSteps(w, job.id);
      } else {
        EditIsStep(w, job.id, FINISHED_ELSEWHERE);
        ops := [EditJob(job.id, FINISHED_ELSEWHERE)];
      }
    }
  }

  lemma StartIsStep(w: World, job: Job, ready: Readiness, retries: nat)
    requires Going(w, [job]) && !Consider(w.db, job, ready, retries, w.now).1.Skipped?
    ensures var (next, turn) := Consider(w.db, job, ready, retries, w.now);
            && Enabled(w, StartRun(job.id))
            && Step(w, StartRun(job.id)) == Served(w, (next, if turn.Launched? then Some(job.id) else None))
  {
    assert [job][0] == job;
    assert Preparable(w.db, job, w.now);
  }

  /** The turn of one candidate leaves those after it as they were, so a later start is logged from the same document. */
  lemma LaterStartIsSame(w: World, jobs: seq<Job>, ready: JobId -> Readiness, retries: nat)
    requires Going(w, jobs) && jobs != []
    requires Consider(w.db, jobs[0], ready(jobs[0].id), retries, w.now).1.Skipped?
    ensures var next := Consider(w.db, jobs[0], ready(jobs[0].id), retries, w.now).0;
            Served(w.(db := next), ConsiderAll(next, jobs[1..], ready, retries, w.now))
            == Served(w, ConsiderAll(next, jobs[1..], ready, retries, w.now))
  {
    var next := Consider(w.db, jobs[0], ready(jobs[0].id), retries, w.now).0;
    ConsiderTouches(w.db, jobs[0], ready(jobs[0].id), retries, w.now);
    if ConsiderAll(next, jobs[1..], ready, retries, w.now).1.Some? {
      var i := LaunchedIsListed(next, jobs[1..], ready, retries, w.now);
      assert jobs[1..][i] == jobs[i + 1];
    }
  }

  /** Whatever the outside answers, a pass is a sequence of enabled steps: every run that uses passes is a run. */
  lemma {:induction false} ConsideringIsSteps(w: World, jobs: seq<Job>, ready: JobId -> Readiness, retries: nat) returns (ops: seq<Op>)
    requires Going(w, jobs)
    ensures Possible(w, ops) && Run(w, ops) == Served(w, ConsiderAll(w.db, jobs, ready, retries, w.now))
    decreases |jobs|
  {
    ops := [];
    if jobs != [] {
      var job := jobs[0];
      var (next, turn) := Consider(w.db, job, ready(job.id), retries, w.now);
      if turn.Skipped? {
        ops := SkippedIsSteps(w, job, ready(job.id), retries);
        ConsiderTouches(w.db, job, ready(job.id), retries, w.now);
        var rest := ConsideringIsSteps(w.(db := next), jobs[1..], ready, retries);
        LaterStartIsSame(w, jobs, ready, retries);
        RunsJoin(w, ops, rest);
        ops := ops + rest;
      } else {
        StartIsStep(w, job, ready(job.id), retries);
        OneStep(w, StartRun(job.id));
        ops := [StartRun(job.id)];
      }
    }
  }

  lemma {:induction false} KeptDistinct(jobs: seq<Job>, keep: Job -> bool)
    requires DistinctIds(jobs)
    ensures DistinctIds(Kept(jobs, keep))
  {
    if jobs != [] {
      var n := |jobs| - 1;
      KeptDistinct(jobs[..n], keep);
      KeptMembers(jobs[..n], keep);
      var rest := Kept(jobs[..n], keep);
      forall i | 0 <= i < |rest| ensures rest[i].id != jobs[n].id { assert rest[i] in jobs[..n]; }
    }
  }

  lemma CandidatesAreQueued(rows: seq<Row>)
    requires Mirrored(rows)
    ensures DistinctIds(Candidates(rows))
    ensures forall job :: job in Candidates(rows) <==> Find(rows, job.id) == Some(job) && job.status.Queued?
  {
    var queued := WithStatus(rows, {Queued});
    QueriesFind(rows, {Queued}, None);
    var statuses := {Queued};
    SelectDistinct(rows, (row: Row) => row.statusColumn in statuses);
    var triage, other := (job: Job) => job.stage.Triage?, (job: Job) => !job.stage.Triage?;
    KeptMembers(queued, triage);
    KeptMembers(queued, other);
    KeptDistinct(queued, triage);
    KeptDistinct(queued, other);
    FirstsAreApart(Kept(queued, triage), Kept(queued, other), queued);
  }

  lemma FirstsAreApart(triage: seq<Job>, other: seq<Job>, queued: seq<Job>)
    requires DistinctIds(queued) && DistinctIds(triage) && DistinctIds(other)
    requires forall job :: job in triage ==> job in queued && job.stage.Triage?
    requires forall job :: job in other ==> job in queued && !job.stage.Triage?
    ensures DistinctIds(triage + other)
  {
    forall i, j | 0 <= i < |triage| && 0 <= j < |other| ensures triage[i].id != other[j].id {
      assert triage[i] in triage && other[j] in other;
      var a :| 0 <= a < |queued| && queued[a] == triage[i];
      var b :| 0 <= b < |queued| && queued[b] == other[j];
    }
  }

  lemma PreparingIsSteps(w: World, ready: JobId -> Readiness, retries: nat) returns (ops: seq<Op>)
    requires w.service == Up(None) && Mirrored(w.db.jobs)
    ensures Possible(w, ops) && Run(w, ops) == Served(w, Prepare(w.db, ready, retries, w.now))
  {
    ops := [];
    if w.db.enabled && ProviderAvailable(w.db, w.now) {
      CandidatesAreQueued(w.db.jobs);
      var jobs := Candidates(w.db.jobs);
      forall i | 0 <= i < |jobs| ensures Find(w.db.jobs, jobs[i].id) == Some(jobs[i]) && jobs[i].status.Queued? {
        assert jobs[i] in jobs;
      }
      ops := ConsideringIsSteps(w, jobs, ready, retries);
    }
  }

  /** So a pass keeps what every step keeps, whatever it hands over, delays or launches on its way. */
  lemma PassKeepsSane(w: World, ready: JobId -> Readiness, retries: nat)
    requires Sane(w) && w.service == Up(None)
    ensures Sane(Served(w, Prepare(w.db, ready, retries, w.now)))
  {
    var ops := PreparingIsSteps(w, ready, retries);
    RunsAreSane(w, ops);
  }

  // ---------------------------------------------------------------- owners come first

  /** A job that was listed as runnable when its turn came. */
  predicate Runnable(db: Db, job: Job, ready: Readiness, now: int)
  {
    && !Blocked(db, job) && job.nextAt <= now && !OverBudget(db, job) && JobLaunchAfter(db, job, now) <= now && ready.Prepared?
  }

  lemma {:induction false} SkipsOnlyUnrunnable(db: Db, jobs: seq<Job>, ready: JobId -> Readiness, retries: nat, now: int, i: nat)
    requires Mirrored(db.jobs) && DistinctIds(jobs) && i < |jobs|
    requires ConsiderAll(db, jobs, ready, retries, now).1 == Some(jobs[i].id)
    ensures forall k :: 0 <= k < i ==> !(Short(jobs[k]) && Runnable(db, jobs[k], ready(jobs[k].id), now))
    decreases |jobs|
  {
    if i > 0 {
      var (next, turn) := Consider(db, jobs[0], ready(jobs[0].id), retries, now);
      ConsiderTouches(db, jobs[0], ready(jobs[0].id), retries, now);
      SkipsOnlyUnrunnable(next, jobs[1..], ready, retries, now, i - 1);
      forall k | 0 < k < i ensures Short(jobs[k]) && Runnable(db, jobs[k], ready(jobs[k].id), now)
                                   ==> Short(jobs[1..][k - 1]) && Runnable(next, jobs[1..][k - 1], ready(jobs[k].id), now) {
        if Short(jobs[k]) { ShortRunnable(db, next, jobs[k], ready(jobs[k].id), now); }
      }
    }
  }

  /** Whether a short job may run depends on its own document, its issue's hold and the launch log, not on other jobs. */
  lemma ShortRunnable(db: Db, next: Db, job: Job, ready: Readiness, now: int)
    requires Short(job) && next == db.(jobs := next.jobs, incidents := next.incidents)
    ensures Runnable(db, job, ready, now) == Runnable(next, job, ready, now)
  {
  }

  lemma {:induction false} LaunchedIsListed(db: Db, jobs: seq<Job>, ready: JobId -> Readiness, retries: nat, now: int) returns (i: nat)
    requires ConsiderAll(db, jobs, ready, retries, now).1.Some?
    ensures i < |jobs| && ConsiderAll(db, jobs, ready, retries, now).1 == Some(jobs[i].id)
    decreases |jobs|
  {
    var (next, turn) := Consider(db, jobs[0], ready(jobs[0].id), retries, now);
    if turn.Skipped? {
      var k := LaunchedIsListed(next, jobs[1..], ready, retries, now);
      i := k + 1;
    } else {
      i := 0;
    }
  }

  /** A repair or a diagnosis starts only when no queued triage of an owner's comments could. */
  lemma TriageGoesFirst(db: Db, ready: JobId -> Readiness, retries: nat, now: int, triage: JobId)
    requires Mirrored(db.jobs)
    requires var launched := Prepare(db, ready, retries, now).1;
             launched.Some? && Find(db.jobs, launched.value).Some? && !Find(db.jobs, launched.value).value.stage.Triage?
    requires Find(db.jobs, triage).Some?
             && Find(db.jobs, triage).value.stage.Triage? && Find(db.jobs, triage).value.status.Queued?
    ensures !Runnable(db, Find(db.jobs, triage).value, ready(triage), now)
  {
    var jobs := Candidates(db.jobs);
    CandidatesAreQueued(db.jobs);
    FindIsRow(db.jobs, triage);
    var job := Find(db.jobs, triage).value;
    var queued := WithStatus(db.jobs, {Queued});
    KeptMembers(queued, (j: Job) => j.stage.Triage?);
    var first := Kept(queued, (j: Job) => j.stage.Triage?);
    QueriesFind(db.jobs, {Queued}, None);
    assert job in first;
    var k :| 0 <= k < |first| && first[k] == job;
    forall m | 0 <= m < |first| ensures jobs[m].stage.Triage? { assert first[m] in first; }
    var i := LaunchedIsListed(db, jobs, ready, retries, now);
    assert jobs[i] in jobs;
    assert jobs[k] == job;
    SkipsOnlyUnrunnable(db, jobs, ready, retries, now, i);
  }
}
