/** A quota failure outlives every success of work that began before it, over whole polls and whole runs. */
module QuotaHolds {
  import opened Contracts
  import opened JobStore
  import opened Tables
  import opened Scheduling
  import opened Lifecycle
  import opened Runs
  import opened Exclusion
  import ProviderQuota
  import R = ReviewResumption
  import RR = ReviewRecords
  import RunEnds
  import History
  import Launches

  /** A quota failure observed at `at` or later, to be waited out until `until` or later. */
  ghost predicate Waits(quota: Option<ProviderQuota.Quota>, at: int, until: int)
  {
    quota.Some? && quota.value.observedAt >= at && quota.value.until >= until
  }

  // ---------------------------------------------------------------- one poll

  /** Every completed review started before `at`. */
  ghost predicate ReviewsBefore(answers: R.Answers, at: int)
  {
    forall pr :: RR.CompletedReview(answers, pr) ==> answers.executions[pr].value.receipt.startedAt < at
  }

  lemma FailureOnlyAdds(quota: Option<ProviderQuota.Quota>, next: ProviderQuota.Quota, source: ProviderQuota.Source,
                        delay: ProviderQuota.Delay, now: int, at: int, until: int)
    requires Waits(quota, at, until) && RunEnds.Deferred(quota, next, source, delay, now)
    ensures Waits(Some(next), at, until)
  {
  }

  lemma AbsorbKeepsWaiting(p: R.Progress, pr: nat, e: R.Execution, at: int, until: int)
    requires Waits(p.db.quota, at, until)
    requires e.state.ExecutionComplete? ==> e.receipt.startedAt < at
    ensures Waits(R.Absorb(p, pr, e).db.quota, at, until)
  {
    var i := R.IndexOf(p.waiting, pr);
    if i < |p.waiting| { R.ReleaseKeepsQuota(p.db, p.waiting[i]); }
    match e.state
    case ExecutionComplete =>
    case ExecutionFailed =>
    case ExecutionQuotaWait =>
      var source := ProviderQuota.ReviewCheck(e.receipt.checkId);
      var next := ProviderQuota.Defer(p.db.quota, source, e.receipt.retryAfter, e.receipt.completedAt);
      RunEnds.FailureIsDeferred(p.db.quota, source, e.receipt.retryAfter, e.receipt.completedAt);
      FailureOnlyAdds(p.db.quota, next, source, e.receipt.retryAfter, e.receipt.completedAt, at, until);
  }

  lemma {:induction false} AbsorptionKeepsWaiting(p: R.Progress, pulls: seq<R.Pull>, answers: R.Answers, at: int, until: int)
    requires !p.failed && Waits(p.db.quota, at, until) && ReviewsBefore(answers, at)
    ensures Waits(R.AbsorbAll(p, pulls, answers).db.quota, at, until)
  {
    if pulls != [] {
      var n := |pulls| - 1;
      AbsorptionKeepsWaiting(p, pulls[..n], answers, at, until);
      var before, pr := R.AbsorbAll(p, pulls[..n], answers), pulls[n].number;
      if !before.failed && pr in answers.executions && answers.executions[pr].Some? {
        assert answers.executions[pr].value.state == R.ExecutionComplete ==> RR.CompletedReview(answers, pr);
        AbsorbKeepsWaiting(before, pr, answers.executions[pr].value, at, until);
      }
    }
  }

  /** However a poll ends: a quota failure observed after the start of every completed review it finds is still waited out. */
  lemma PollKeepsWaiting(db: Db, answers: R.Answers, now: int, at: int, until: int)
    requires Waits(db.quota, at, until) && ReviewsBefore(answers, at)
    ensures Waits(R.Poll(db, answers, now).db.quota, at, until)
  {
    if answers.listed {
      R.InspectionCovers(db, db.waits, answers, now);
      var inspected := R.InspectAll(db, db.waits, answers, now);
      if !inspected.failed {
        AbsorptionKeepsWaiting(inspected, answers.pulls, answers, at, until);
        var absorbed := R.AbsorbAll(inspected, answers.pulls, answers);
        if !absorbed.failed {
          var stored := absorbed.db.(waits := absorbed.waiting);
          R.RequestKeepsQuota(stored, stored.waits, 0, answers, now);
        }
      }
    }
  }

  // ---------------------------------------------------------------- every run

  /** The job's run began before `at`. */
  ghost predicate BeganBefore(db: Db, id: JobId, at: int)
  {
    var found := Find(db.jobs, id);
    found.Some? ==> !found.value.lease.Never? && (found.value.lease.Held? ==> found.value.lease.since < at)
  }

  /** A step whose successes are all of work that began before `at`. */
  ghost predicate OnlyOlderSucceeds(w: World, op: Op, at: int)
  {
    match op
    case PollReviews(answers) => ReviewsBefore(answers, at)
    case EndRun(outcome) =>
      w.service.Up? && w.service.agent.Some? && (outcome.Accepted? || outcome.AcceptedInPart?) ==>
        BeganBefore(w.db, w.service.agent.value, at)
    case _ => true
  }

  ghost predicate OnlyOlderSucceed(w: World, ops: seq<Op>, at: int)
    decreases |ops|
  {
    ops == [] || (OnlyOlderSucceeds(w, ops[0], at) && OnlyOlderSucceed(Step(w, ops[0]), ops[1..], at))
  }

  lemma CompleteKeepsWaiting(db: Db, id: JobId, outcome: Outcome, now: int, at: int, until: int)
    requires Waits(db.quota, at, until)
    requires outcome.Accepted? || outcome.AcceptedInPart? ==> BeganBefore(db, id, at)
    ensures Waits(CompleteRun(db, id, outcome, now).quota, at, until)
  {
    var found := Find(db.jobs, id);
    if found.Some? && !found.value.lease.Released? && outcome.QuotaHit? {
      var since := if found.value.lease.Held? then found.value.lease.since else 0;
      var source := ProviderQuota.WorkerRun(found.value.id, since);
      RunEnds.FailureIsDeferred(db.quota, source, outcome.delay, now);
      FailureOnlyAdds(db.quota, ProviderQuota.Defer(db.quota, source, outcome.delay, now), source, outcome.delay, now, at, until);
    }
  }

  lemma StepKeepsWaiting(w: World, op: Op, at: int, until: int)
    requires Sane(w) && Waits(w.db.quota, at, until) && OnlyOlderSucceeds(w, op, at)
    ensures Waits(Step(w, op).db.quota, at, until)
  {
    match op
    case PollReviews(answers) => PollKeepsWaiting(w.db, answers, w.now, at, until);
    case EndRun(outcome) =>
      if w.service.Up? && w.service.agent.Some? {
        CompleteKeepsWaiting(w.db, w.service.agent.value, outcome, w.now, at, until);
      }
    case StartRun(id) => History.PrepareFrame(w.db, id, w.now);
    case Ingest(batch, cursor, debounce) => E.IngestLeavesJobs(w.db, batch, cursor, debounce, w.now);
    case Restart => History.RecoveryFrame(w, op);
    case RestartDies(_) => History.RecoveryFrame(w, op);
    case _ => if JobOp(op) { JobOpFrame(w, op); }
  }

  /** While the quota is waited out no agent and no review starts. */
  lemma NothingStartsWhileWaiting(w: World, op: Op, at: int, until: int)
    requires Sane(w) && Waits(w.db.quota, at, until) && OnlyOlderSucceeds(w, op, at) && w.now < until
    ensures var next := Step(w, op);
            && next.reruns == w.reruns
            && (next.log == w.log || next.log == w.log + [AllowanceReset])
  {
    match op
    case PollReviews(answers) =>
      PollKeepsWaiting(w.db, answers, w.now, at, until);
      R.PollKeepsSlotCovered(w.db, answers, w.now);
    case StartRun(id) => assert !PrepareRun(w.db, id, w.now).1;
    case _ =>
  }

  lemma {:induction false} TimeIsMonotone(w: World, ops: seq<Op>)
    ensures w.now <= Run(w, ops).now
    decreases |ops|
  {
    if ops != [] { TimeIsMonotone(Step(w, ops[0]), ops[1..]); }
  }

  /** Nothing but resets of the allowance was added to the log of starts. */
  ghost predicate NoneBegan(log: seq<Happening>, next: seq<Happening>)
  {
    |log| <= |next| && next[..|log|] == log && forall i :: |log| <= i < |next| ==> next[i] == AllowanceReset
  }

  lemma NoneBeganTwice(a: seq<Happening>, b: seq<Happening>, c: seq<Happening>)
    requires (b == a || b == a + [AllowanceReset]) && NoneBegan(b, c)
    ensures NoneBegan(a, c)
  {
    assert c[..|a|] == c[..|b|][..|a|];
    forall i | |a| <= i < |c| ensures c[i] == AllowanceReset { if i < |b| { assert c[i] == c[..|b|][i]; } }
  }

  /** From any reachable state, whatever happens: a quota failure is waited out until its time as long as nothing that began
      after it was observed succeeds; and until then no agent starts and no review is rerun. */
  lemma {:induction false} FailureOutlivesOlderWork(w: World, ops: seq<Op>, at: int, until: int)
    requires Sane(w) && Possible(w, ops) && Waits(w.db.quota, at, until) && OnlyOlderSucceed(w, ops, at)
    ensures Waits(Run(w, ops).db.quota, at, until)
    ensures Run(w, ops).now < until ==> Run(w, ops).reruns == w.reruns && NoneBegan(w.log, Run(w, ops).log)
    decreases |ops|
  {
    if ops != [] {
      var next := Step(w, ops[0]);
      StepKeepsSane(w, ops[0]);
      StepKeepsWaiting(w, ops[0], at, until);
      FailureOutlivesOlderWork(next, ops[1..], at, until);
      TimeIsMonotone(w, ops);
      if Run(w, ops).now < until {
        NothingStartsWhileWaiting(w, ops[0], at, until);
        NoneBeganTwice(w.log, next.log, Run(w, ops).log);
      }
    }
  }

  // ---------------------------------------------------------------- and no longer

  lemma WaitsStay(w: World, op: Op)
    requires Sane(w) && !op.PollReviews?
    ensures Step(w, op).db.waits == w.db.waits
  {
    match op
    case StartRun(id) => History.PrepareFrame(w.db, id, w.now);
    case Ingest(batch, cursor, debounce) => E.IngestLeavesJobs(w.db, batch, cursor, debounce, w.now);
    case Restart => History.RecoveryFrame(w, op);
    case RestartDies(_) => History.RecoveryFrame(w, op);
    case EndRun(outcome) =>
      if w.service.Up? && w.service.agent.Some? { CompleteFrame(w.db, w.service.agent.value, outcome, w.now); }
    case _ => if JobOp(op) { JobOpFrame(w, op); }
  }

  lemma {:induction false} RunsKeepOneEach(w: World, ops: seq<Op>)
    requires Sane(w) && Possible(w, ops) && RR.OneEach(w.db.waits)
    ensures RR.OneEach(Run(w, ops).db.waits)
    decreases |ops|
  {
    if ops != [] {
      StepKeepsSane(w, ops[0]);
      if ops[0].PollReviews? {
        RR.PollKeepsOneEach(w.db, ops[0].answers, w.now);
      } else {
        WaitsStay(w, ops[0]);
      }
      RunsKeepOneEach(Step(w, ops[0]), ops[1..]);
    }
  }

  /** In any world a run reaches, an answered poll without a new quota failure clears the quota if and only if it finds a
      review newly completed that started no earlier than the quota was observed. */
  lemma ReviewReopensQuotaExactly(w: World, ops: seq<Op>, answers: R.Answers)
    requires Installed(w) && Possible(w, ops)
    requires var last := Run(w, ops); RR.NoneDeferred(answers) && R.Stores(last.db, answers, last.now)
    ensures var last := Run(w, ops);
            Step(last, PollReviews(answers)).db.quota
            == if last.db.quota.Some? && exists i :: RR.Recovers(last.db, i, answers, last.db.quota.value.observedAt)
               then None else last.db.quota
  {
    InstallationIsSane(w);
    RunsKeepOneEach(w, ops);
    var last := Run(w, ops);
    RR.PollClearsExactly(last.db, answers, last.now);
  }
}
