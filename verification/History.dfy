/** What the durable records promise over every run: events counted once, one job per dispatch, one triage per comment
    version, one rerun per check. */
module History {
  import opened Contracts
  import opened JobStore
  import opened Tables
  import opened Scheduling
  import opened Lifecycle
  import opened JobChanges
  import opened Leases
  import opened Runs
  import opened Exclusion
  import opened Budgets
  import D = Dispatching
  import E = Events
  import R = ReviewResumption
  import O = OwnerComments
  import ProviderQuota

  // ---------------------------------------------------------------- which step touches which records

  lemma AttemptFrame(db: Db, id: JobId, now: int)
    requires Mirrored(db.jobs)
    ensures var next := Attempt(db, id, now).0; next == db.(jobs := next.jobs, starts := next.starts, launches := next.launches)
  {
    if Claim(db, id, now).Ok? { ClaimAdmits(db, id, now); }
  }

  lemma PrepareFrame(db: Db, id: JobId, now: int)
    requires Sound(db.jobs)
    ensures var next := PrepareRun(db, id, now).0;
            next == db.(jobs := next.jobs, starts := next.starts, launches := next.launches)
  {
    var found := Find(db.jobs, id);
    if found.Some? && Preparable(db, found.value, now) {
      MinorUpdate(db.jobs, id, WithContext());
      AttemptFrame(db.(jobs := Update(db.jobs, id, WithContext())), id, now);
    }
  }

  /** The durable records that only their own steps write. */
  ghost predicate SameRecords(w: World, next: World)
  {
    && next.reruns == w.reruns && next.db.waits == w.db.waits
    && next.db.events == w.db.events && next.db.cursor == w.db.cursor && next.db.incidents == w.db.incidents
    && next.db.dispatches == w.db.dispatches && next.db.reservations == w.db.reservations && next.db.origins == w.db.origins
  }

  predicate WritesRecords(op: Op)
  {
    op.Enqueue? || op.Ingest? || op.Schedule? || op.RecordOrigin? || op.SettleIncident? || op.PollReviews?
  }

  lemma JobOpKeepsRecords(w: World, op: Op)
    requires JobOp(op) && !WritesRecords(op)
    ensures SameRecords(w, Step(w, op))
  {
    match op
    case Decide(triage, action, repair, published, newId) => O.DecideFrame(w.db, triage, action, repair, published, newId);
    case PollComments(issue, comments, newId) => O.PollFrame(w.db, issue, comments, newId);
    case _ =>
  }

  lemma RecoveryFrame(w: World, op: Op)
    requires op.Restart? || op.RestartDies?
    ensures var next := Step(w, op); next == w.(db := w.db.(jobs := next.db.jobs), service := next.service)
  {
  }

  lemma OthersKeepRecords(w: World, op: Op)
    requires Sound(w.db.jobs) && !WritesRecords(op)
    ensures SameRecords(w, Step(w, op))
  {
    if JobOp(op) {
      JobOpKeepsRecords(w, op);
    } else if op.StartRun? {
      PrepareFrame(w.db, op.id, w.now);
    } else if op.Restart? || op.RestartDies? {
      RecoveryFrame(w, op);
    } else if op.EndRun? && w.service.Up? && w.service.agent.Some? {
      CompleteFrame(w.db, w.service.agent.value, op.outcome, w.now);
    }
  }

  // ---------------------------------------------------------------- the invariant

  ghost predicate Recorded(w: World)
  {
    && E.Counted(w.db)
    && O.OneOwner(w.db.jobs)
    && D.Resolved(w.db)
    && ProviderQuota.Valid(w.db.quota)
  }

  lemma SilentKeepsComments(rows: seq<Row>, next: seq<Row>)
    requires O.OneOwner(rows) && Silent(rows, next)
    ensures O.OneOwner(next)
    ensures O.ListedOnce(rows) ==> O.ListedOnce(next)
  {
    forall issue, c, a, b | O.ReservedBy(next, issue, c, a) && O.ReservedBy(next, issue, c, b) ensures a == b {
      assert O.ReservedBy(rows, issue, c, a) && O.ReservedBy(rows, issue, c, b);
    }
  }

  lemma CommentsKept(w: World, op: Op)
    requires Sane(w) && Enabled(w, op) && O.OneOwner(w.db.jobs)
    ensures O.OneOwner(Step(w, op).db.jobs)
    ensures O.ListedOnce(w.db.jobs) && ListsOnce(op) ==> O.ListedOnce(Step(w, op).db.jobs)
  {
    if op.PollComments? {
      if op.issue in w.db.origins {
        O.PollKeepsOneOwner(w.db, op.issue, op.comments, op.newId);
        if O.ListedOnce(w.db.jobs) && ListsOnce(op) { O.PollKeepsListedOnce(w.db, op.issue, op.comments, op.newId); }
      }
    } else {
      if JobOp(op) { JobOpIsMild(w, op); } else { OtherStepIsLasting(w, op); }
      SilentKeepsComments(w.db.jobs, Step(w, op).db.jobs);
    }
  }

  lemma EventsKept(w: World, op: Op)
    requires Sane(w) && Enabled(w, op) && E.Counted(w.db)
    ensures E.Counted(Step(w, op).db) && Step(w, op).db.cursor >= w.db.cursor
    ensures forall id :: id in w.db.events ==> id in Step(w, op).db.events && Step(w, op).db.events[id] == w.db.events[id]
  {
    match op
    case Ingest(batch, cursor, debounce) => E.IngestCounts(w.db, batch, cursor, debounce, w.now);
    case Schedule(signature, newId) => E.ScheduleFrame(w.db, signature, newId, w.now);
    case Enqueue(issue, event, generation, newId) => D.EnqueueFrame(w.db, issue, event, generation, newId);
    case PollReviews(answers) => R.PollTouchesOwn(w.db, answers, w.now);
    case RecordOrigin(_, _) => assert E.Counted(Step(w, op).db);
    case SettleIncident(_, _) => assert E.Counted(Step(w, op).db);
    case _ => if !WritesRecords(op) { OthersKeepRecords(w, op); }
  }

  lemma RerunsKept(w: World, op: Op)
    requires Sane(w) && Enabled(w, op) && R.RerunOnce(w.db.waits, w.reruns) && ShowsNewest(w, op)
    ensures R.RerunOnce(Step(w, op).db.waits, Step(w, op).reruns)
  {
    match op
    case PollReviews(answers) => R.PollRerunsOnce(w.db, answers, w.now, w.reruns);
    case Enqueue(issue, event, generation, newId) => D.EnqueueFrame(w.db, issue, event, generation, newId);
    case Ingest(batch, cursor, debounce) => E.IngestLeavesJobs(w.db, batch, cursor, debounce, w.now);
    case Schedule(signature, newId) => E.ScheduleFrame(w.db, signature, newId, w.now);
    case _ => if !WritesRecords(op) { OthersKeepRecords(w, op); }
  }

  lemma DispatchesGrow(w: World, op: Op)
    requires Sane(w) && Enabled(w, op)
    ensures D.Grows(w.db, Step(w, op).db)
  {
    match op
    case Enqueue(issue, event, generation, newId) => D.EnqueueDispatches(w.db, issue, event, generation, newId);
    case PollReviews(answers) => R.PollTouchesOwn(w.db, answers, w.now);
    case Ingest(batch, cursor, debounce) => E.IngestLeavesJobs(w.db, batch, cursor, debounce, w.now);
    case Schedule(signature, newId) => E.ScheduleFrame(w.db, signature, newId, w.now);
    case _ => if !WritesRecords(op) { OthersKeepRecords(w, op); }
  }

  lemma DispatchesResolve(w: World, op: Op)
    requires Sane(w) && Enabled(w, op) && D.Resolved(w.db)
    ensures D.Resolved(Step(w, op).db)
  {
    StepIsLasting(w, op);
    match op
    case Enqueue(issue, event, generation, newId) => D.EnqueueResolves(w.db, issue, event, generation, newId);
    case PollReviews(answers) => R.PollTouchesOwn(w.db, answers, w.now);
    case Ingest(batch, cursor, debounce) => E.IngestLeavesJobs(w.db, batch, cursor, debounce, w.now);
    case Schedule(signature, newId) => E.ScheduleFrame(w.db, signature, newId, w.now);
    case _ => if !WritesRecords(op) { OthersKeepRecords(w, op); }
  }

  lemma QuotaKept(w: World, op: Op)
    requires Sane(w) && ProviderQuota.Valid(w.db.quota)
    ensures ProviderQuota.Valid(Step(w, op).db.quota)
  {
    match op
    case PollReviews(answers) => R.PollKeepsQuotaValid(w.db, answers, w.now);
    case EndRun(outcome) =>
      if w.service.Up? && w.service.agent.Some? { CompleteKeepsQuota(w.db, w.service.agent.value, outcome, w.now); }
    case StartRun(id) => PrepareFrame(w.db, id, w.now);
    case Ingest(batch, cursor, debounce) => E.IngestLeavesJobs(w.db, batch, cursor, debounce, w.now);
    case Restart => RecoveryFrame(w, op);
    case RestartDies(_) => RecoveryFrame(w, op);
    case _ => if JobOp(op) { JobOpFrame(w, op); }
  }

  lemma CompleteKeepsQuota(db: Db, id: JobId, outcome: Outcome, now: int)
    requires ProviderQuota.Valid(db.quota)
    ensures ProviderQuota.Valid(CompleteRun(db, id, outcome, now).quota)
  {
    var found := Find(db.jobs, id);
    if found.Some? && outcome.QuotaHit? {
      var since := if found.value.lease.Held? then found.value.lease.since else 0;
      ProviderQuota.DeferTightens(db.quota, ProviderQuota.Deferral(ProviderQuota.WorkerRun(found.value.id, since), outcome.delay, now));
    }
  }

  lemma StepKeepsRecorded(w: World, op: Op)
    requires Sane(w) && Recorded(w) && Enabled(w, op)
    ensures Recorded(Step(w, op))
  {
    EventsKept(w, op);
    CommentsKept(w, op);
    DispatchesResolve(w, op);
    QuotaKept(w, op);
  }

  lemma {:induction false} RunsAreRecorded(w: World, ops: seq<Op>)
    requires Sane(w) && Recorded(w) && Possible(w, ops)
    ensures Sane(Run(w, ops)) && Recorded(Run(w, ops)) && D.Grows(w.db, Run(w, ops).db) && Run(w, ops).db.cursor >= w.db.cursor
    decreases |ops|
  {
    if ops != [] {
      var next := Step(w, ops[0]);
      StepKeepsSane(w, ops[0]);
      StepKeepsRecorded(w, ops[0]);
      EventsKept(w, ops[0]);
      DispatchesGrow(w, ops[0]);
      RunsAreRecorded(next, ops[1..]);
      D.GrowsTwice(w.db, next.db, Run(w, ops).db);
    }
  }

  lemma InstallationIsRecorded(w: World)
    requires Installed(w)
    ensures Sane(w) && Recorded(w) && R.RerunOnce(w.db.waits, w.reruns) && O.ListedOnce(w.db.jobs)
  {
    InstallationIsSane(w);
  }

  // ---------------------------------------------------------------- what the outside has to promise

  /** One listing of comments shows each comment once. */
  ghost predicate ListsOnce(op: Op) { op.PollComments? ==> O.Listing(op.comments) }

  /** A pull request's newest check is not older than the one on record. */
  ghost predicate ShowsNewest(w: World, op: Op) { op.PollReviews? ==> R.NeverOlder(w.db.waits, op.answers) }

  ghost predicate AllShowNewest(w: World, ops: seq<Op>)
    decreases |ops|
  {
    ops == [] || (ShowsNewest(w, ops[0]) && AllShowNewest(Step(w, ops[0]), ops[1..]))
  }

  lemma {:induction false} RunsRerunOnce(w: World, ops: seq<Op>)
    requires Sane(w) && R.RerunOnce(w.db.waits, w.reruns) && Possible(w, ops) && AllShowNewest(w, ops)
    ensures R.RerunOnce(Run(w, ops).db.waits, Run(w, ops).reruns)
    decreases |ops|
  {
    if ops != [] {
      StepKeepsSane(w, ops[0]);
      RerunsKept(w, ops[0]);
      RunsRerunOnce(Step(w, ops[0]), ops[1..]);
    }
  }

  lemma {:induction false} RunsListOnce(w: World, ops: seq<Op>)
    requires Sane(w) && O.OneOwner(w.db.jobs) && O.ListedOnce(w.db.jobs) && Possible(w, ops)
    requires forall i :: 0 <= i < |ops| ==> ListsOnce(ops[i])
    ensures Sane(Run(w, ops)) && O.ListedOnce(Run(w, ops).db.jobs)
    decreases |ops|
  {
    if ops != [] {
      StepKeepsSane(w, ops[0]);
      CommentsKept(w, ops[0]);
      RunsListOnce(Step(w, ops[0]), ops[1..]);
    }
  }

  lemma {:induction false} DispatchesLast(w: World, ops: seq<Op>)
    requires Sane(w) && D.Resolved(w.db) && Possible(w, ops)
    ensures D.Resolved(Run(w, ops).db) && D.Grows(w.db, Run(w, ops).db)
    decreases |ops|
  {
    if ops != [] {
      var next := Step(w, ops[0]);
      StepKeepsSane(w, ops[0]);
      DispatchesResolve(w, ops[0]);
      DispatchesGrow(w, ops[0]);
      DispatchesLast(next, ops[1..]);
      D.GrowsTwice(w.db, next.db, Run(w, ops).db);
    }
  }

  // ---------------------------------------------------------------- theorems

  /** From an empty installation: every incident counts its distinct stored events, the cursor covers them all, no owner
      comment version belongs to two triage jobs, every dispatched job is stored, and the provider's quota keeps its
      bounds. */
  lemma RecordsHold(w: World, ops: seq<Op>, signature: string, id: int, event: string)
    requires Installed(w) && Possible(w, ops)
    ensures var last := Run(w, ops);
            && (signature in last.db.incidents ==>
                  last.db.incidents[signature].count == |E.EventIds(last.db.events, signature)|)
            && (id in last.db.events ==> 0 < id <= last.db.cursor)
            && O.OneOwner(last.db.jobs)
            && (event in last.db.dispatches ==> Find(last.db.jobs, last.db.dispatches[event].job).Some?)
            && ProviderQuota.Valid(last.db.quota)
  {
    InstallationIsRecorded(w);
    RunsAreRecorded(w, ops);
  }

  /** From an empty installation, while no pull request's newest check goes back: no two review reruns ask for the same
      check. */
  lemma RerunsNeverRepeat(w: World, ops: seq<Op>, i: nat, j: nat)
    requires Installed(w) && Possible(w, ops) && AllShowNewest(w, ops)
    requires i < j < |Run(w, ops).reruns|
    ensures var reruns := Run(w, ops).reruns; reruns[i].pr != reruns[j].pr || reruns[i].checkId != reruns[j].checkId
  {
    InstallationIsRecorded(w);
    RunsRerunOnce(w, ops);
  }

  /** An event resolves to the same job for ever: repeating the dispatch at any later time changes nothing. */
  lemma EventKeepsItsJob(w: World, issue: nat, event: string, generation: Option<string>, newId: JobId,
                         ops: seq<Op>, again: Option<string>, otherId: JobId)
    requires Sane(w) && D.Resolved(w.db) && Enabled(w, Enqueue(issue, event, generation, newId))
    requires D.Enqueue(w.db, issue, event, generation, newId).Ok?
    requires Possible(Step(w, Enqueue(issue, event, generation, newId)), ops)
    ensures var later := Run(Step(w, Enqueue(issue, event, generation, newId)), ops);
            var job := D.Enqueue(w.db, issue, event, generation, newId).value.1;
            && D.Enqueue(later.db, issue, event, again, otherId) == Ok((later.db, job))
            && Find(later.db.jobs, job).Some?
  {
    var op := Enqueue(issue, event, generation, newId);
    StepKeepsSane(w, op);
    DispatchesResolve(w, op);
    D.EnqueueDispatches(w.db, issue, event, generation, newId);
    DispatchesLast(Step(w, op), ops);
  }

  /** Two events of one queue generation run one job, however far apart they arrive. */
  lemma GenerationKeepsItsJob(w: World, issue: nat, event: string, generation: string, newId: JobId,
                              ops: seq<Op>, other: string, otherId: JobId)
    requires Sane(w) && D.Resolved(w.db) && Enabled(w, Enqueue(issue, event, Some(generation), newId))
    requires event !in w.db.dispatches && D.Enqueue(w.db, issue, event, Some(generation), newId).Ok?
    requires Possible(Step(w, Enqueue(issue, event, Some(generation), newId)), ops)
    requires other !in Run(Step(w, Enqueue(issue, event, Some(generation), newId)), ops).db.dispatches
    ensures var later := Run(Step(w, Enqueue(issue, event, Some(generation), newId)), ops);
            var job := D.Enqueue(w.db, issue, event, Some(generation), newId).value.1;
            var r := D.Enqueue(later.db, issue, other, Some(generation), otherId);
            r.Ok? && r.value.1 == job && r.value.0.jobs == later.db.jobs
  {
    var op := Enqueue(issue, event, Some(generation), newId);
    StepKeepsSane(w, op);
    DispatchesResolve(w, op);
    D.EnqueueDispatches(w.db, issue, event, Some(generation), newId);
    DispatchesLast(Step(w, op), ops);
  }

  /** In every world reached with listings that show each comment once, a comment poll of a known issue reserves every
      visible version, and repeating it with the same listing changes nothing. */
  lemma CommentPollsAreDurable(w: World, ops: seq<Op>, issue: nat, comments: seq<Comment>, newId: JobId, otherId: JobId, c: Comment)
    requires Installed(w) && Possible(w, ops) && forall i :: 0 <= i < |ops| ==> ListsOnce(ops[i])
    requires Enabled(Run(w, ops), PollComments(issue, comments, newId)) && O.Listing(comments)
    requires issue in Run(w, ops).db.origins && c in comments
    ensures var polled := Step(Run(w, ops), PollComments(issue, comments, newId));
            && O.Reserved(polled.db.jobs, issue, c)
            && Step(polled, PollComments(issue, comments, otherId)) == polled
  {
    InstallationIsRecorded(w);
    RunsListOnce(w, ops);
    var last := Run(w, ops);
    O.PollReservesEveryVersion(last.db, issue, comments, newId, c);
    O.RepeatedPollChangesNothing(last.db, issue, comments, newId, otherId);
  }
}
