/** Where a review rerun can still meet a live agent: exclusion looks at job statuses, and a status can change under
    an agent. */
module Overlap {
  import opened Contracts
  import opened JobStore
  import opened Tables
  import opened Lifecycle
  import opened Leases
  import opened Runs
  import opened Exclusion
  import ProviderQuota
  import E = Events
  import R = ReviewResumption
  import Scheduling
  import Dispatching

  /** An agent is at work while a review holds the quota slot. */
  ghost predicate Overlaps(w: World) { w.service.Up? && w.service.agent.Some? && w.db.slot.Some? }

  /** The gate of a rerun sees a live agent exactly as long as its job is still marked running. */
  lemma RerunGateSeesMarkedAgents(w: World, agent: JobId)
    requires Sane(w) && w.service == Up(Some(agent))
    ensures R.MayRerun(w.db, w.now)
            <==> w.db.enabled && w.db.slot.None? && ProviderQuota.Open(w.db.quota, w.now) && !IsRunning(w.db.jobs, agent)
  {
    IdleIsNoneListed(w.db.jobs);
    forall k | IsRunning(w.db.jobs, k) ensures k == agent { assert HoldsLease(w.db.jobs, k); }
  }

  lemma ClaimedAgentKeepsSlotFree(w: World, id: JobId)
    requires Sane(w) && Enabled(w, StartRun(id)) && !Overlaps(w)
    ensures !Overlaps(Step(w, StartRun(id)))
  {
    var found := Find(w.db.jobs, id);
    if found.Some? && Preparable(w.db, found.value, w.now) {
      var ready := w.db.(jobs := Update(w.db.jobs, id, WithContext()));
      UpdateKeepsSane(w, id, WithContext());
      if Scheduling.Claim(ready, id, w.now).Ok? { ClaimAdmits(ready, id, w.now); }
    }
  }

  /** An overlap begins only when a poll requests a rerun beside an agent whose job is no longer marked running. */
  lemma OverlapNeedsUnmarkedAgent(w: World, op: Op)
    requires Sane(w) && Enabled(w, op) && !Overlaps(w) && Overlaps(Step(w, op))
    ensures op.PollReviews? && w.service.Up? && w.service.agent.Some? && !IsRunning(w.db.jobs, w.service.agent.value)
  {
    match op
    case StartRun(id) => ClaimedAgentKeepsSlotFree(w, id);
    case PollReviews(answers) =>
      R.PollKeepsSlotCovered(w.db, answers, w.now);
      IdleIsNoneListed(w.db.jobs);
    case Ingest(batch, cursor, debounce) => E.IngestLeavesJobs(w.db, batch, cursor, debounce, w.now);
    case _ => if JobOp(op) { JobOpFrame(w, op); }
  }

  /** Along the run, no step takes the running mark from the agent's job while its agent works. */
  ghost predicate KeepsMark(w: World, ops: seq<Op>)
    decreases |ops|
  {
    Marked(w) && (ops == [] || KeepsMark(Step(w, ops[0]), ops[1..]))
  }

  ghost predicate Marked(w: World) { w.service.Up? && w.service.agent.Some? ==> IsRunning(w.db.jobs, w.service.agent.value) }

  /** Without such a step, agents and review reruns never overlap. */
  lemma {:induction false} MarkedRunsNeverOverlap(w: World, ops: seq<Op>)
    requires Sane(w) && !Overlaps(w) && Possible(w, ops) && KeepsMark(w, ops)
    ensures !Overlaps(Run(w, ops))
    decreases |ops|
  {
    if ops != [] {
      StepKeepsSane(w, ops[0]);
      if Overlaps(Step(w, ops[0])) { OverlapNeedsUnmarkedAgent(w, ops[0]); }
      MarkedRunsNeverOverlap(Step(w, ops[0]), ops[1..]);
    }
  }

  // ---------------------------------------------------------------- and with one, they can

  function Above(waits: seq<Wait>): (n: nat)
    ensures forall i :: 0 <= i < |waits| ==> waits[i].pr < n
  {
    if waits == [] then 0
    else
      var below := Above(waits[..|waits| - 1]);
      if waits[|waits| - 1].pr < below then below else waits[|waits| - 1].pr + 1
  }

  /** GitHub lists one pull request, not seen before, whose review ran out of quota a while ago. */
  function NewDeferral(waits: seq<Wait>, now: int): (result: R.Answers)
  {
    var pr := Above(waits);
    var receipt := Receipt(0, pr, "head", 0, 0, now, now - 604800, ProviderQuota.Missing);
    R.Answers(true, [R.Pull(pr, "head")], map[], map[pr := Some(R.Execution(R.ExecutionQuotaWait, receipt))], map[receipt := R.Valid])
  }

  lemma {:induction false} UnlistedAreObsolete(db: Db, waits: seq<Wait>, answers: R.Answers, now: int)
    requires forall i, p :: 0 <= i < |waits| && p in answers.pulls ==> p.number != waits[i].pr
    ensures var p := R.InspectAll(db, waits, answers, now);
            && !p.failed && |p.waiting| == |waits|
            && (db.slot.None? ==> p.db == db)
            && forall i :: 0 <= i < |waits| ==> p.waiting[i].phase.Obsolete? && p.waiting[i].pr == waits[i].pr
  {
    if waits != [] {
      UnlistedAreObsolete(db, waits[..|waits| - 1], answers, now);
    }
  }

  lemma {:induction false} RequestReachesLast(db: Db, waiting: seq<Wait>, i: nat, answers: R.Answers, now: int)
    requires i < |waiting| && forall k :: 0 <= k < |waiting| - 1 ==> waiting[k].phase.Obsolete?
    requires R.Due(waiting[|waiting| - 1], now)
    requires waiting[|waiting| - 1].receipt in answers.verdicts && answers.verdicts[waiting[|waiting| - 1].receipt].Valid?
    ensures R.Request(db, waiting, i, answers, now).db.slot.Some?
    decreases |waiting| - i
  {
    if i < |waiting| - 1 { RequestReachesLast(db, waiting, i + 1, answers, now); }
  }

  lemma DeferralInThePastKeepsOpen(quota: Option<ProviderQuota.Quota>, source: ProviderQuota.Source, now: int)
    requires ProviderQuota.Open(quota, now) && now >= 0
    ensures ProviderQuota.Defer(quota, source, ProviderQuota.Missing, now - 604800).until <= now
    ensures ProviderQuota.Open(Some(ProviderQuota.Defer(quota, source, ProviderQuota.Missing, now - 604800)), now)
  {
    var before := if quota.Some? then quota.value.failures else 0;
    if Min(16, before + 1) >= 1 { ProviderQuota.BackoffIsBounded(Min(16, before + 1)); }
  }

  lemma OneExecutionIsAbsorbed(p: R.Progress, answers: R.Answers)
    requires !p.failed && |answers.pulls| == 1
    requires answers.pulls[0].number in answers.executions && answers.executions[answers.pulls[0].number].Some?
    ensures R.AbsorbAll(p, answers.pulls, answers)
            == R.Absorb(p, answers.pulls[0].number, answers.executions[answers.pulls[0].number].value)
  {
    assert answers.pulls[..0] == [];
    assert R.AbsorbAll(p, answers.pulls[..0], answers) == p;
  }

  /** A rerun of a new pull request's review goes ahead whenever the gate is open. */
  lemma NewDeferralIsRerun(db: Db, now: int)
    requires R.MayRerun(db, now) && now >= 0
    ensures R.Poll(db, NewDeferral(db.waits, now), now).db.slot.Some?
    ensures R.NeverOlder(db.waits, NewDeferral(db.waits, now))
  {
    var answers := NewDeferral(db.waits, now);
    var inspected := R.InspectAll(db, db.waits, answers, now);
    UnlistedAreObsolete(db, db.waits, answers, now);
    var absorbed := R.AbsorbAll(inspected, answers.pulls, answers);
    OneExecutionIsAbsorbed(inspected, answers);
    assert R.IndexOf(inspected.waiting, Above(db.waits)) == |inspected.waiting|;
    DeferralInThePastKeepsOpen(db.quota, ProviderQuota.ReviewCheck(0), now);
    RequestReachesLast(absorbed.db.(waits := absorbed.waiting), absorbed.waiting, 0, answers, now);
  }

  /** With the slot free and the quota open, a poll can start a review beside an agent if and only if the service is
      enabled and the agent's job is not marked running. */
  lemma OverlapConditionIsExact(w: World, agent: JobId)
    requires Sane(w) && w.service == Up(Some(agent)) && w.db.slot.None? && ProviderQuota.Open(w.db.quota, w.now)
    ensures (exists answers :: Enabled(w, PollReviews(answers)) && Overlaps(Step(w, PollReviews(answers))))
            <==> w.db.enabled && !IsRunning(w.db.jobs, agent)
  {
    RerunGateSeesMarkedAgents(w, agent);
    if w.db.enabled && !IsRunning(w.db.jobs, agent) {
      NewDeferralIsRerun(w.db, w.now);
      var answers := NewDeferral(w.db.waits, w.now);
      assert Enabled(w, PollReviews(answers)) && Overlaps(Step(w, PollReviews(answers)));
    }
    forall answers | Enabled(w, PollReviews(answers)) && Overlaps(Step(w, PollReviews(answers)))
      ensures w.db.enabled && !IsRunning(w.db.jobs, agent)
    {
      OverlapNeedsUnmarkedAgent(w, PollReviews(answers));
      R.PollKeepsSlotCovered(w.db, answers, w.now);
    }
  }

  // ---------------------------------------------------------------- a run that gets there

  const INSTALLED := World(EMPTY, Down, 0, [], [])

  const EVENT := E.Event(Some(1), Some("s"), 0, 0, "")

  const INCIDENT := Incident(0, 0, 1, "", 1, Pending, 0)

  /** A diagnosis is queued for the installation's first incident. */
  function DiagnosisQueued(): (next: World)
  {
    var started := EMPTY.(enabled := true, cursor := 1, events := map[1 := "s"]);
    var db := Put(started.(incidents := map["s" := INCIDENT]), Fresh(1, Initial, "s", 1, None, []));
    World(db.(incidents := map["s" := INCIDENT.(status := Diagnosing)]), Up(None), 0, [], [])
  }

  lemma {:induction false} RunGoesOn(w: World, ops: seq<Op>, op: Op)
    requires Possible(w, ops) && Enabled(Run(w, ops), op)
    ensures Possible(w, ops + [op]) && Run(w, ops + [op]) == Step(Run(w, ops), op)
    decreases |ops|
  {
    if ops == [] {
      assert ops + [op] == [op];
      assert [op][1..] == [];
    } else {
      assert (ops + [op])[1..] == ops[1..] + [op];
      RunGoesOn(Step(w, ops[0]), ops[1..], op);
    }
  }

  /** An enabled service with one incident pending. */
  function IncidentRecorded(): (next: World)
  {
    World(EMPTY.(enabled := true, cursor := 1, events := map[1 := "s"], incidents := map["s" := INCIDENT]), Up(None), 0, [], [])
  }

  lemma FirstIncidentIsRecorded() returns (ops: seq<Op>)
    ensures Possible(INSTALLED, ops) && Run(INSTALLED, ops) == IncidentRecorded()
  {
    ops := [];
    RunGoesOn(INSTALLED, ops, Restart);
    ops := ops + [Restart];
    assert Run(INSTALLED, ops) == World(EMPTY, Up(None), 0, [], []);
    RunGoesOn(INSTALLED, ops, SetEnabled(true));
    ops := ops + [SetEnabled(true)];
    FirstEventIsRecorded();
    RunGoesOn(INSTALLED, ops, Op.Ingest([EVENT], Some(1), 0));
    ops := ops + [Op.Ingest([EVENT], Some(1), 0)];
  }

  lemma FirstIncidentIsDiagnosed() returns (ops: seq<Op>)
    ensures Possible(INSTALLED, ops) && Run(INSTALLED, ops) == DiagnosisQueued()
  {
    ops := FirstIncidentIsRecorded();
    assert !E.Working(IncidentRecorded().db.jobs, "s");
    RunGoesOn(INSTALLED, ops, Schedule("s", 1));
    ops := ops + [Schedule("s", 1)];
  }

  lemma FirstEventIsRecorded()
    ensures E.Ingest(EMPTY.(enabled := true), [EVENT], Some(1), 0, 0)
            == Ok(EMPTY.(enabled := true, cursor := 1, events := map[1 := "s"], incidents := map["s" := INCIDENT]))
  {
    assert [EVENT][..0] == [];
    assert E.RecordAll(EMPTY.(enabled := true), [EVENT], 0, 0) == E.Record(EMPTY.(enabled := true), EVENT, 0, 0);
  }

  lemma QueuedDiagnosisStarts()
    ensures var db := DiagnosisQueued().db; var (started, runs) := PrepareRun(db, 1, 0);
            runs && started.enabled && started.quota.None? && started.slot.None?
  {
    var db := DiagnosisQueued().db;
    FindSaved([], Fresh(1, Initial, "s", 1, None, []), 1);
    var job := Find(db.jobs, 1).value;
    assert Preparable(db, job, 0);
    var ready := db.(jobs := Update(db.jobs, 1, WithContext()));
    FindSaved(db.jobs, job.(hasContext := true), 1);
    SaveStores([], Fresh(1, Initial, "s", 1, None, []));
    SaveStores(db.jobs, job.(hasContext := true));
    IdleIsNoneListed(ready.jobs);
    assert Scheduling.ClaimRefusal(ready, 1, 0).None?;
  }

  /** A sane world with an agent whose job was just cancelled, the quota open and the slot free. */
  ghost predicate Abandoned(w: World, agent: JobId)
  {
    && Sane(w) && w.service == Up(Some(agent)) && !IsRunning(w.db.jobs, agent)
    && w.db.enabled && w.db.slot.None? && w.db.quota.None?
  }

  lemma DiagnosisIsAbandoned() returns (ops: seq<Op>)
    ensures Possible(INSTALLED, ops) && Abandoned(Run(INSTALLED, ops), 1)
  {
    ops := FirstIncidentIsDiagnosed();
    QueuedDiagnosisStarts();
    RunGoesOn(INSTALLED, ops, StartRun(1));
    ops := ops + [StartRun(1)];
    InstallationIsSane(INSTALLED);
    RunsAreSane(INSTALLED, ops);
    var started := Run(INSTALLED, ops);
    CancelledIsUnmarked(started.db.jobs, 1);
    StepKeepsSane(started, Cancel(1));
    RunGoesOn(INSTALLED, ops, Cancel(1));
    ops := ops + [Cancel(1)];
  }

  /** From an installation: cancelling a diagnosis leaves its agent at work and its lease live, and lets a review rerun
      start beside it. */
  lemma CancelledAgentMeetsReview() returns (ops: seq<Op>)
    ensures Installed(INSTALLED) && Possible(INSTALLED, ops)
    ensures var w := Run(INSTALLED, ops); Overlaps(w) && w.service.agent == Some(1) && HoldsLease(w.db.jobs, 1)
  {
    ops := DiagnosisIsAbandoned();
    var w := Run(INSTALLED, ops);
    OverlapConditionIsExact(w, 1);
    var answers :| Enabled(w, PollReviews(answers)) && Overlaps(Step(w, PollReviews(answers)));
    RunGoesOn(INSTALLED, ops, PollReviews(answers));
    StepKeepsSane(w, PollReviews(answers));
    ops := ops + [PollReviews(answers)];
  }

  lemma CancelledIsUnmarked(rows: seq<Row>, id: JobId)
    requires Mirrored(rows)
    ensures !IsRunning(Update(rows, id, Dispatching.Cancelling()), id)
  {
    if Find(rows, id).Some? {
      FindIsRow(rows, id);
      UpdateStores(rows, id, Dispatching.Cancelling());
    }
  }
}
