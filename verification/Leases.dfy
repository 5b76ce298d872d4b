/** One lease, one budget: what every run of the controller keeps about agents, reviews and repair time. */
module Leases {
  import opened Contracts
  import opened JobStore
  import opened Tables
  import opened Scheduling
  import opened Lifecycle
  import opened JobChanges
  import ProviderQuota
  import D = Dispatching
  import E = Events
  import R = ReviewResumption
  import O = OwnerComments

  ghost predicate HoldsLease(rows: seq<Row>, id: JobId) { Find(rows, id).Some? && Find(rows, id).value.lease.Held? }

  ghost predicate IsRunning(rows: seq<Row>, id: JobId) { Find(rows, id).Some? && Find(rows, id).value.status.Running? }

  ghost predicate JobInOrder(job: Job, now: int)
  {
    && 0 <= job.activeSeconds <= StageLimit(job)
    && (job.status.Running? ==> job.lease.Held?)
    && (job.lease.Held? ==> job.lease.since <= now)
  }

  /** At most one live lease; a leased repair started under its issue's budget; no issue ever doubles it. */
  ghost predicate Accounted(rows: seq<Row>, now: int)
  {
    && Sound(rows)
    && (forall k :: Find(rows, k).Some? ==> JobInOrder(Find(rows, k).value, now))
    && (forall a, b :: HoldsLease(rows, a) && HoldsLease(rows, b) ==> a == b)
    && (forall n: nat :: Spent(rows, n) < 2 * DEEP_SECONDS)
    && (forall k, n: nat :: HoldsLease(rows, k) && Repair(Find(rows, k).value) && Find(rows, k).value.issue == Some(n) ==>
          Spent(rows, n) < DEEP_SECONDS)
  }

  ghost predicate Holder(rows: seq<Row>, agent: Option<JobId>) 
  {
    forall k: JobId :: HoldsLease(rows, k) <==> agent.Some? && agent.value == k
  }

  ghost predicate Idle(rows: seq<Row>) { forall k :: !IsRunning(rows, k) }

  lemma IdleIsNoneListed(rows: seq<Row>)
    requires Mirrored(rows)
    ensures Idle(rows) <==> WithStatus(rows, {Running}) == []
  {
    QueriesFind(rows, {Running}, None);
    forall k | IsRunning(rows, k) ensures Find(rows, k).value in WithStatus(rows, {Running}) { FindIsRow(rows, k); }
    if WithStatus(rows, {Running}) != [] {
      var job := WithStatus(rows, {Running})[0];
      assert job in WithStatus(rows, {Running});
      assert IsRunning(rows, job.id);
    }
  }

  // ---------------------------------------------------------------- benign changes

  lemma BenignKeepsAccounts(rows: seq<Row>, next: seq<Row>, now: int)
    requires Accounted(rows, now) && Benign(rows, next)
    ensures Accounted(next, now)
    ensures forall k :: HoldsLease(next, k) <==> HoldsLease(rows, k)
    ensures forall k :: IsRunning(next, k) ==> IsRunning(rows, k)
  {
    forall k ensures HoldsLease(next, k) <==> HoldsLease(rows, k) {}
    forall k, n: nat | HoldsLease(next, k) && Repair(Find(next, k).value) && Find(next, k).value.issue == Some(n)
      ensures Spent(next, n) < DEEP_SECONDS
    {
      assert HoldsLease(rows, k);
    }
  }

  // ---------------------------------------------------------------- a run begins

  function Claimed(db: Db, job: Job, now: int): (next: Job)
  {
    job.(status := Running, lease := Held(now), remainingSeconds := Budget(db, job) - job.activeSeconds)
  }

  lemma ClaimedStores(rows: seq<Row>, job: Job, claimed: Job)
    requires Sound(rows) && Find(rows, job.id) == Some(job) && !job.cancelled
    requires claimed.id == job.id && !claimed.cancelled && forall n :: Cost(claimed, n) == Cost(job, n)
    ensures var next := Save(rows, claimed);
            && Sound(next)
            && Find(next, job.id) == Some(claimed)
            && (forall k :: k != job.id ==> Find(next, k) == Find(rows, k))
            && (forall n :: Spent(next, n) == Spent(rows, n))
  {
    SaveStores(rows, claimed);
    forall n: nat ensures Spent(Save(rows, claimed), n) == Spent(rows, n) { SaveKeepsSpent(rows, claimed, n); }
  }

  lemma ClaimAdmits(db: Db, id: JobId, now: int)
    requires Mirrored(db.jobs) && Claim(db, id, now).Ok?
    ensures var before := Find(db.jobs, id);
            && before.Some? && before.value.status.Queued? && !before.value.cancelled && before.value.id == id
            && db.enabled && ProviderAvailable(db, now) && WithStatus(db.jobs, {Running}) == []
            && before.value.activeSeconds < Budget(db, before.value)
            && JobLaunchAfter(db, before.value, now) <= now
            && var next := Claim(db, id, now).value;
               && next.jobs == Save(db.jobs, Claimed(db, before.value, now))
               && next == db.(jobs := next.jobs, starts := next.starts, launches := next.launches)
  {
    FindIsRow(db.jobs, id);
  }

  /** A claim that succeeds gives the lease, and the rest of the issue's budget, to a queued job while nothing runs. */
  lemma ClaimGrants(db: Db, id: JobId, now: int)
    requires Sound(db.jobs) && Claim(db, id, now).Ok?
    ensures var next := Claim(db, id, now).value;
            && Find(db.jobs, id).Some?
            && var job := Find(db.jobs, id).value;
            && Find(next.jobs, id) == Some(Claimed(db, job, now))
            && Claimed(db, job, now).remainingSeconds > 0
            && Sound(next.jobs)
            && (forall k :: k != id ==> Find(next.jobs, k) == Find(db.jobs, k))
            && (forall n :: Spent(next.jobs, n) == Spent(db.jobs, n))
  {
    ClaimAdmits(db, id, now);
    var job := Find(db.jobs, id).value;
    ClaimedStores(db.jobs, job, Claimed(db, job, now));
  }

  /** A repair job of an issue gets exactly what the issue has left of the deep budget. */
  lemma ClaimGivesTheRemainder(db: Db, id: JobId, now: int, issue: nat)
    requires Sound(db.jobs) && Claim(db, id, now).Ok?
    requires var job := Find(db.jobs, id); job.Some? && Repair(job.value) && job.value.issue == Some(issue)
    ensures var next := Claim(db, id, now).value;
            && Spent(db.jobs, issue) < DEEP_SECONDS
            && Find(next.jobs, id).Some?
            && Find(next.jobs, id).value.remainingSeconds == DEEP_SECONDS - Spent(db.jobs, issue) > 0
  {
    ClaimGrants(db, id, now);
    SpentSplits(db.jobs, id, issue);
  }

  lemma ClaimKeepsAccounts(db: Db, id: JobId, now: int)
    requires Accounted(db.jobs, now) && Holder(db.jobs, None) && Claim(db, id, now).Ok?
    ensures var next := Claim(db, id, now).value; Accounted(next.jobs, now) && Holder(next.jobs, Some(id))
  {
    ClaimGrants(db, id, now);
    var next := Claim(db, id, now).value.jobs;
    forall k ensures HoldsLease(next, k) <==> k == id {
      assert k != id ==> HoldsLease(next, k) == HoldsLease(db.jobs, k);
    }
    forall n: nat | Repair(Find(next, id).value) && Find(next, id).value.issue == Some(n)
      ensures Spent(next, n) < DEEP_SECONDS
    {
      ClaimGivesTheRemainder(db, id, now, n);
    }
  }

  // ---------------------------------------------------------------- a run ends

  /** One job's lease is over and its time booked; every other job is as it was. */
  ghost predicate Ends(rows: seq<Row>, next: seq<Row>, id: JobId)
  {
    && Sound(next)
    && Find(rows, id).Some? && Find(next, id).Some?
    && (var before, after := Find(rows, id).value, Find(next, id).value;
        && after.id == id && after.stage == before.stage && after.issue == before.issue
        && before.activeSeconds <= after.activeSeconds <= StageLimit(after)
        && after.lease.Released? && !after.status.Running? && (before.cancelled ==> after.cancelled)
        && after.remainingSeconds == before.remainingSeconds
        && (forall n :: Spent(next, n) == Spent(rows, n) - Cost(before, n) + Cost(after, n)))
    && (forall k :: k != id ==> Find(next, k) == Find(rows, k))
  }

  lemma FinishEnds(rows: seq<Row>, job: Job, active: int, now: int)
    requires Sound(rows) && Find(rows, job.id).Some? && !job.lease.Released?
    requires var before := Find(rows, job.id).value;
             before.stage == job.stage && before.issue == job.issue && before.activeSeconds == job.activeSeconds
             && before.cancelled == job.cancelled && before.remainingSeconds == job.remainingSeconds
    requires 0 <= job.activeSeconds <= StageLimit(job)
    ensures Ends(rows, Save(rows, Finished(job, active, now)), job.id)
    ensures Find(Save(rows, Finished(job, active, now)), job.id) == Some(Finished(job, active, now))
  {
    var done := Finished(job, active, now);
    SaveStores(rows, done);
    FindIsRow(rows, job.id);
    forall n: nat ensures Spent(Save(rows, done), n) == Spent(rows, n) - Cost(Find(rows, job.id).value, n) + Cost(done, n) {
      SpentSplits(rows, job.id, n);
      SpentAfterSave(rows, done, n);
    }
  }

  lemma EndKeepsAccounts(rows: seq<Row>, next: seq<Row>, id: JobId, now: int)
    requires Accounted(rows, now) && Ends(rows, next, id) && HoldsLease(rows, id)
    ensures Accounted(next, now) && Holder(next, None) && Idle(next)
  {
    forall k ensures !HoldsLease(next, k) {
      assert k != id ==> HoldsLease(next, k) == HoldsLease(rows, k);
    }
    forall n: nat ensures Spent(next, n) < 2 * DEEP_SECONDS {
      var before := Find(rows, id).value;
      if Repair(before) && before.issue == Some(n) { assert Spent(rows, n) < DEEP_SECONDS; }
    }
    forall k ensures !IsRunning(next, k) {
      assert IsRunning(next, k) ==> HoldsLease(next, k);
    }
  }

  /** A finished run may then be moved on by benign updates. */
  ghost predicate Closed(rows: seq<Row>, now: int) { Accounted(rows, now) && Holder(rows, None) && Idle(rows) }

  lemma BenignKeepsClosed(rows: seq<Row>, next: seq<Row>, now: int)
    requires Closed(rows, now) && Benign(rows, next)
    ensures Closed(next, now)
  {
    BenignKeepsAccounts(rows, next, now);
  }

  lemma FinishCloses(rows: seq<Row>, id: JobId, active: int, now: int)
    requires Accounted(rows, now) && HoldsLease(rows, id)
    ensures Closed(Save(rows, Finished(Find(rows, id).value, active, now)), now)
  {
    FindIsRow(rows, id);
    FinishEnds(rows, Find(rows, id).value, active, now);
    EndKeepsAccounts(rows, Save(rows, Finished(Find(rows, id).value, active, now)), id, now);
  }

  lemma MarkKeepsAccounts(rows: seq<Row>, job: Job, now: int)
    requires Accounted(rows, now) && Find(rows, job.id) == Some(job)
    ensures var marked := Save(rows, job.(hasResult := true));
            && Accounted(marked, now) && Find(marked, job.id) == Some(job.(hasResult := true))
            && (HoldsLease(rows, job.id) ==> HoldsLease(marked, job.id))
  {
    SaveIsBenign(rows, job.(hasResult := true));
    SaveStores(rows, job.(hasResult := true));
    BenignKeepsAccounts(rows, Save(rows, job.(hasResult := true)), now);
  }

  lemma StoreCloses(rows: seq<Row>, job: Job, active: int, now: int)
    requires Accounted(rows, now) && HoldsLease(rows, job.id) && Find(rows, job.id) == Some(job)
    ensures Closed(StoreRows(rows, job, active, now), now)
  {
    MarkKeepsAccounts(rows, job, now);
    FinishCloses(Save(rows, job.(hasResult := true)), job.id, active, now);
  }

  lemma AcceptCloses(rows: seq<Row>, job: Job, active: int, now: int)
    requires Accounted(rows, now) && HoldsLease(rows, job.id) && Find(rows, job.id) == Some(job)
    ensures Closed(AcceptRows(rows, job, active, now), now)
  {
    StoreCloses(rows, job, active, now);
    var finished := StoreRows(rows, job, active, now);
    MinorUpdate(finished, job.id, Publishable());
    BenignKeepsClosed(finished, Update(finished, job.id, Publishable()), now);
  }

  lemma PauseCloses(rows: seq<Row>, job: Job, active: int, until: int, now: int)
    requires Accounted(rows, now) && HoldsLease(rows, job.id) && Find(rows, job.id) == Some(job)
    ensures Closed(PauseRows(rows, job, active, until, now), now)
  {
    FinishCloses(rows, job.id, active, now);
    var finished := Save(rows, Finished(job, active, now));
    MinorUpdate(finished, job.id, PausedUntil(until));
    BenignKeepsClosed(finished, Update(finished, job.id, PausedUntil(until)), now);
  }

  lemma CompleteCloses(db: Db, id: JobId, outcome: Outcome, now: int)
    requires Accounted(db.jobs, now) && HoldsLease(db.jobs, id)
    ensures Closed(CompleteRun(db, id, outcome, now).jobs, now)
  {
    FindIsRow(db.jobs, id);
    var job := Find(db.jobs, id).value;
    match outcome
    case Accepted(active) => AcceptCloses(db.jobs, job, active, now);
    case AcceptedInPart(active) => StoreCloses(db.jobs, job, active, now);
    case Refused => FinishCloses(db.jobs, id, 0, now);
    case QuotaHit(active, delay) => PauseCloses(db.jobs, job, active, PausedQuota(db, job, delay, now).until, now);
    case Failed(active) => FinishCloses(db.jobs, id, active, now);
  }

  // ---------------------------------------------------------------- recovery after a crash

  /** The jobs still to be recovered include every live lease. */
  ghost predicate ToRecover(rows: seq<Row>, held: seq<Job>)
  {
    && (forall job :: job in held ==> Find(rows, job.id).Some? && !Find(rows, job.id).value.lease.Never?)
    && (forall k :: HoldsLease(rows, k) ==> exists job :: job in held && job.id == k)
  }

  lemma RecoverLeaseCloses(rows: seq<Row>, job: Job, now: int)
    requires Accounted(rows, now) && HoldsLease(rows, job.id)
    ensures Closed(RecoverLease(rows, job, now), now)
  {
    FindIsRow(rows, job.id);
    FinishCloses(rows, job.id, 0, now);
    var finished := Save(rows, Finished(Find(rows, job.id).value, 0, now));
    MinorUpdate(finished, job.id, Resuming(job));
    BenignKeepsClosed(finished, Update(finished, job.id, Resuming(job)), now);
  }

  /** No recovery step makes a job look as if it had never run. */
  lemma RecoverLeaseKeepsRun(rows: seq<Row>, job: Job, now: int, k: JobId)
    requires Mirrored(rows) && Find(rows, k).Some? && !Find(rows, k).value.lease.Never?
    ensures var next := RecoverLease(rows, job, now); Find(next, k).Some? && !Find(next, k).value.lease.Never?
  {
    var found := Find(rows, job.id);
    FindIsRow(rows, job.id);
    if found.Some? && !found.value.lease.Released? {
      var finished := Save(rows, Finished(found.value, 0, now));
      SaveStores(rows, Finished(found.value, 0, now));
      UpdateStores(finished, job.id, Resuming(job));
    }
  }

  lemma {:induction false} RecoverLeasesCloses(rows: seq<Row>, held: seq<Job>, now: int)
    requires Accounted(rows, now) && ToRecover(rows, held)
    ensures Closed(RecoverLeases(rows, held, now), now)
    decreases |held|
  {
    if held == [] {
      forall k ensures !IsRunning(rows, k) { assert IsRunning(rows, k) ==> HoldsLease(rows, k); }
    } else {
      RecoverLeasePends(rows, held, now);
      RecoverLeasesCloses(RecoverLease(rows, held[0], now), held[1..], now);
    }
  }

  lemma RecoverLeasePends(rows: seq<Row>, held: seq<Job>, now: int)
    requires Accounted(rows, now) && held != [] && ToRecover(rows, held)
    ensures var next := RecoverLease(rows, held[0], now); Accounted(next, now) && ToRecover(next, held[1..])
  {
    var job := held[0];
    var next := RecoverLease(rows, job, now);
    if HoldsLease(rows, job.id) { RecoverLeaseCloses(rows, job, now); }
    forall j | j in held[1..] ensures Find(next, j.id).Some? && !Find(next, j.id).value.lease.Never? {
      RecoverLeaseKeepsRun(rows, job, now, j.id);
    }
    forall k | HoldsLease(next, k) ensures exists j :: j in held[1..] && j.id == k {
      var j :| j in held && j.id == k;
    }
  }

  lemma HeldJobsAreToRecover(rows: seq<Row>)
    requires Mirrored(rows)
    ensures ToRecover(rows, HeldJobs(rows))
  {
    SelectFinds(rows, (row: Row) => row.data.lease.Held?, (job: Job) => job.lease.Held?);
    forall k | HoldsLease(rows, k) ensures exists job :: job in HeldJobs(rows) && job.id == k {
      FindIsRow(rows, k);
      assert Find(rows, k).value in HeldJobs(rows);
    }
  }

  /** A restart ends every lease a crash left behind. */
  lemma RecoverCloses(db: Db, now: int)
    requires Accounted(db.jobs, now)
    ensures Closed(Recover(db, now).jobs, now)
  {
    HeldJobsAreToRecover(db.jobs);
    RecoverLeasesCloses(db.jobs, HeldJobs(db.jobs), now);
    var released := RecoverLeases(db.jobs, HeldJobs(db.jobs), now);
    var processing := WithStatus(released, {Processing});
    ResumeAllIsBenign(released, processing);
    BenignKeepsClosed(released, ResumeAll(released, processing), now);
  }

  // ---------------------------------------------------------------- a recovery that dies

  lemma OneLeaseIsHeld(rows: seq<Row>, now: int)
    requires Accounted(rows, now)
    ensures |HeldJobs(rows)| <= 1
    ensures HeldJobs(rows) != [] ==> HoldsLease(rows, HeldJobs(rows)[0].id) && Find(rows, HeldJobs(rows)[0].id) == Some(HeldJobs(rows)[0])
  {
    var held := HeldJobs(rows);
    SelectFinds(rows, (row: Row) => row.data.lease.Held?, (job: Job) => job.lease.Held?);
    SelectDistinct(rows, (row: Row) => row.data.lease.Held?);
    forall i | 0 <= i < |held| ensures HoldsLease(rows, held[i].id) && Find(rows, held[i].id) == Some(held[i]) {
      assert held[i] in held;
    }
    if held != [] { assert held[|held| - 1].id == held[0].id; }
  }

  /** Every lease's recovery is over, and the first `n` jobs between two writes are resumed. */
  ghost predicate ResumedFirst(db: Db, now: int, next: seq<Row>, n: nat)
  {
    var released := RecoverLeases(db.jobs, HeldJobs(db.jobs), now);
    var processing := WithStatus(released, {Processing});
    n <= |processing| && next == ResumeAll(released, processing[..n])
  }

  lemma TwoWritesEnd(rows: seq<Row>, held: seq<Job>, now: int)
    requires |held| == 1
    ensures EndSome(rows, held, now, 2) == RecoverLeases(rows, held, now)
  {
    assert held[1..] == [];
    var ended := RecoverLease(rows, held[0], now);
    assert EndSome(ended, [], now, 0) == ended && RecoverLeases(ended, [], now) == ended;
  }

  lemma PartFrame(db: Db, now: int, writes: nat)
    ensures RecoverPart(db, now, writes) == db.(jobs := RecoverPart(db, now, writes).jobs)
  {
    var held := HeldJobs(db.jobs);
    if writes <= 2 * |held| {
      assert RecoverPart(db, now, writes) == db.(jobs := EndSome(db.jobs, held, now, writes));
    } else {
      var released := RecoverLeases(db.jobs, held, now);
      var processing := WithStatus(released, {Processing});
      var some := processing[..Min(writes - 2 * |held|, |processing|)];
      assert RecoverPart(db, now, writes) == db.(jobs := ResumeAll(released, some));
    }
  }

  lemma NoWrites(db: Db, now: int)
    ensures RecoverPart(db, now, 0) == db
  {
    assert EndSome(db.jobs, HeldJobs(db.jobs), now, 0) == db.jobs;
  }

  lemma FirstWrites(db: Db, now: int, writes: nat)
    requires Accounted(db.jobs, now) && 0 < writes <= 2 * |HeldJobs(db.jobs)|
    ensures var held, next := HeldJobs(db.jobs), RecoverPart(db, now, writes).jobs;
            held != [] && (next == FinishLease(db.jobs, held[0], now) || next == RecoverLeases(db.jobs, held, now))
  {
    var held := HeldJobs(db.jobs);
    OneLeaseIsHeld(db.jobs, now);
    if writes == 1 {
      assert EndSome(db.jobs, held, now, 1) == FinishLease(db.jobs, held[0], now);
    } else {
      TwoWritesEnd(db.jobs, held, now);
    }
  }

  lemma NoneResumed(db: Db, now: int)
    ensures ResumedFirst(db, now, RecoverLeases(db.jobs, HeldJobs(db.jobs), now), 0)
  {
  }

  lemma LaterWrites(db: Db, now: int, writes: nat)
    requires writes > 2 * |HeldJobs(db.jobs)|
    ensures exists n: nat :: ResumedFirst(db, now, RecoverPart(db, now, writes).jobs, n)
  {
    var processing := WithStatus(RecoverLeases(db.jobs, HeldJobs(db.jobs), now), {Processing});
    assert ResumedFirst(db, now, RecoverPart(db, now, writes).jobs, Min(writes - 2 * |HeldJobs(db.jobs)|, |processing|));
  }

  /** With the one lease there can be, an interrupted recovery has done nothing, closed that lease's run, or recovered it
      and resumed some jobs. */
  lemma PartsOfRecovery(db: Db, now: int, writes: nat)
    requires Accounted(db.jobs, now)
    ensures var held, next := HeldJobs(db.jobs), RecoverPart(db, now, writes);
            && next == db.(jobs := next.jobs)
            && (writes == 0 ==> next == db)
            && (writes > 0 ==>
                  || (held != [] && next.jobs == FinishLease(db.jobs, held[0], now))
                  || exists n: nat :: ResumedFirst(db, now, next.jobs, n))
  {
    PartFrame(db, now, writes);
    NoWrites(db, now);
    NoneResumed(db, now);
    if 0 < writes <= 2 * |HeldJobs(db.jobs)| {
      FirstWrites(db, now, writes);
    } else if writes > 0 {
      LaterWrites(db, now, writes);
    }
  }

  /** Wherever a recovery dies, the accounts hold, and nothing is marked running that was not. */
  lemma InterruptedRecoveryKeepsAccounts(db: Db, now: int, writes: nat)
    requires Accounted(db.jobs, now)
    ensures Accounted(RecoverPart(db, now, writes).jobs, now)
    ensures writes == 0 || Idle(RecoverPart(db, now, writes).jobs)
  {
    PartsOfRecovery(db, now, writes);
    var held, next := HeldJobs(db.jobs), RecoverPart(db, now, writes);
    OneLeaseIsHeld(db.jobs, now);
    if writes > 0 {
      if held != [] && next.jobs == FinishLease(db.jobs, held[0], now) {
        FinishCloses(db.jobs, held[0].id, 0, now);
      } else {
        var released := RecoverLeases(db.jobs, held, now);
        var processing := WithStatus(released, {Processing});
        var n: nat :| ResumedFirst(db, now, next.jobs, n);
        ReleasedKeepsAccounts(db, now, processing[..n]);
      }
    }
  }

  lemma ReleasedKeepsAccounts(db: Db, now: int, jobs: seq<Job>)
    requires Accounted(db.jobs, now)
    ensures Closed(ResumeAll(RecoverLeases(db.jobs, HeldJobs(db.jobs), now), jobs), now)
  {
    HeldJobsAreToRecover(db.jobs);
    RecoverLeasesCloses(db.jobs, HeldJobs(db.jobs), now);
    var released := RecoverLeases(db.jobs, HeldJobs(db.jobs), now);
    ResumeAllIsBenign(released, jobs);
    BenignKeepsClosed(released, ResumeAll(released, jobs), now);
  }
}
