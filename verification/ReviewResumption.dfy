/** `ReviewQueue`: resuming pull-request reviews that ran out of quota, one rerun request per check. */
module ReviewResumption {
  import opened Contracts
  import opened JobStore
  import opened Tables
  import ProviderQuota

  datatype Pull = Pull(number: nat, head: string)

  datatype RunInfo = RunInfo(attempt: nat, completed: bool)

  datatype ExecutionState = ExecutionComplete | ExecutionQuotaWait | ExecutionFailed

  datatype Execution = Execution(state: ExecutionState, receipt: Receipt)

  datatype Verdict = Valid | Invalid

  /** What GitHub answers during one poll. A key missing from a map stands for a call that raises. */
  datatype Answers = Answers(
    listed: bool,
    pulls: seq<Pull>,
    runs: map<nat, RunInfo>,
    executions: map<nat, Option<Execution>>,
    verdicts: map<Receipt, Verdict>)

  /** The tables and the waiting records held in memory; `failed` when an answer raised and the poll was abandoned. */
  datatype Progress = Progress(db: Db, waiting: seq<Wait>, failed: bool)

  datatype Polled = Polled(db: Db, rerun: Option<Receipt>)

  predicate InFlight(phase: Phase) { phase in {Uncertain, RunningReview} }

  predicate Eligible(pulls: seq<Pull>, w: Wait)
  {
    exists p :: p in pulls && p.number == w.pr && p.head == w.receipt.headSha
  }

  function ReleaseSlot(db: Db, w: Wait): (next: Db)
  {
    if db.slot == Some(w.receipt.checkId) then db.(slot := None) else db
  }

  // ---------------------------------------------------------------- first loop: records against pull requests and runs

  function AfterRun(w: Wait, run: RunInfo, now: int): (seen: Wait)
  {
    var seen := if run.attempt <= w.receipt.runAttempt then w
                else if run.completed then w.(phase := AwaitingReceipt, finishedAt := now)
                else w.(phase := RunningReview);
    var timeout := if seen.phase.Uncertain? then 180 else 1800;
    if InFlight(seen.phase) && now - seen.requestedAt > timeout then seen.(phase := HumanNeeded) else seen
  }

  function Expired(w: Wait, now: int): (seen: Wait)
  {
    if w.phase.AwaitingReceipt? && now - w.finishedAt > 180 then w.(phase := HumanNeeded) else w
  }

  function Inspect(p: Progress, w: Wait, answers: Answers, now: int): (next: Progress)
    requires !p.failed
  {
    if !Eligible(answers.pulls, w) then
      Progress(ReleaseSlot(p.db, w), p.waiting + [w.(phase := Obsolete)], false)
    else if !InFlight(w.phase) then
      Progress(p.db, p.waiting + [Expired(w, now)], false)
    else if w.receipt.runId !in answers.runs then
      p.(failed := true)
    else
      var seen := AfterRun(w, answers.runs[w.receipt.runId], now);
      Progress(if InFlight(seen.phase) then p.db else ReleaseSlot(p.db, w), p.waiting + [Expired(seen, now)], false)
  }

  function InspectAll(db: Db, waits: seq<Wait>, answers: Answers, now: int): (next: Progress)
  {
    if waits == [] then Progress(db, [], false)
    else
      var before := InspectAll(db, waits[..|waits| - 1], answers, now);
      if before.failed then before else Inspect(before, waits[|waits| - 1], answers, now)
  }

  // ---------------------------------------------------------------- second loop: newest executions against records

  /** Position of a pull request's record, or the length when it has none. */
  function IndexOf(waiting: seq<Wait>, pr: nat): (i: nat)
    ensures i <= |waiting|
    ensures i < |waiting| ==> waiting[i].pr == pr
    ensures i == |waiting| ==> forall k :: 0 <= k < |waiting| ==> waiting[k].pr != pr
    decreases |waiting|
  {
    if waiting == [] then 0
    else if waiting[0].pr == pr then 0
    else 1 + IndexOf(waiting[1..], pr)
  }

  function Absorb(p: Progress, pr: nat, e: Execution): (next: Progress)
  {
    var i := IndexOf(p.waiting, pr);
    var known := i < |p.waiting|;
    match e.state
    case ExecutionComplete =>
      if known && !p.waiting[i].phase.Complete? then
        var released := ReleaseSlot(p.db, p.waiting[i]);
        p.(db := released.(quota := ProviderQuota.Recovered(released.quota, Some(e.receipt.startedAt))),
           waiting := p.waiting[i := p.waiting[i].(phase := Complete)])
      else p
    case ExecutionFailed =>
      if known && p.waiting[i].receipt.checkId != e.receipt.checkId then
        p.(db := ReleaseSlot(p.db, p.waiting[i]),
           waiting := p.waiting[i := p.waiting[i].(phase := HumanNeeded, receipt := e.receipt)])
      else p
    case ExecutionQuotaWait =>
      if known && p.waiting[i].receipt.checkId == e.receipt.checkId then p
      else
        var released := if known then ReleaseSlot(p.db, p.waiting[i]) else p.db;
        var quota := ProviderQuota.Defer(released.quota, ProviderQuota.ReviewCheck(e.receipt.checkId),
                                         e.receipt.retryAfter, e.receipt.completedAt);
        var record := Wait(pr, e.receipt, Waiting, quota.until, 0, 0);
        p.(db := released.(quota := Some(quota)),
           waiting := if known then p.waiting[i := record] else p.waiting + [record])
  }

  function AbsorbAll(p: Progress, pulls: seq<Pull>, answers: Answers): (next: Progress)
    requires !p.failed
  {
    if pulls == [] then p
    else
      var before := AbsorbAll(p, pulls[..|pulls| - 1], answers);
      var pr := pulls[|pulls| - 1].number;
      if before.failed then before
      else if pr !in answers.executions then before.(failed := true)
      else if answers.executions[pr].None? then before
      else Absorb(before, pr, answers.executions[pr].value)
  }

  // ---------------------------------------------------------------- third loop: one rerun at most

  predicate MayRerun(db: Db, now: int)
  {
    db.enabled && ProviderAvailable(db, now) && WithStatus(db.jobs, {Running}) == []
  }

  predicate Due(w: Wait, now: int) { w.phase.Waiting? && w.nextAt <= now }

  /** Walks the records from position `i`; `db.waits` is what is stored so far. */
  function Request(db: Db, waiting: seq<Wait>, i: nat, answers: Answers, now: int): (polled: Polled)
    requires i <= |waiting|
    decreases |waiting| - i
  {
    if i == |waiting| then Polled(db, None)
    else if !Due(waiting[i], now) then Request(db, waiting, i + 1, answers, now)
    else if waiting[i].receipt !in answers.verdicts then Polled(db, None)
    else if answers.verdicts[waiting[i].receipt].Invalid? then
      var marked := waiting[i := waiting[i].(phase := HumanNeeded)];
      Request(db.(waits := marked), marked, i + 1, answers, now)
    else
      Polled(db.(waits := waiting[i := waiting[i].(phase := Uncertain, requestedAt := now)],
                 slot := Some(waiting[i].receipt.checkId)),
             Some(waiting[i].receipt))
  }

  function Poll(db: Db, answers: Answers, now: int): (polled: Polled)
  {
    if !answers.listed then Polled(db, None)
    else
      var inspected := InspectAll(db, db.waits, answers, now);
      if inspected.failed then Polled(inspected.db, None)
      else
        var absorbed := AbsorbAll(inspected, answers.pulls, answers);
        if absorbed.failed then Polled(absorbed.db, None)
        else
          var stored := absorbed.db.(waits := absorbed.waiting);
          if !MayRerun(stored, now) then Polled(stored, None)
          else Request(stored, stored.waits, 0, answers, now)
  }

  /** An answer that raises abandons the rest of a loop. */
  lemma {:induction false} InspectionStops(db: Db, waits: seq<Wait>, i: nat, answers: Answers, now: int)
    requires i <= |waits| && InspectAll(db, waits[..i], answers, now).failed
    ensures InspectAll(db, waits, answers, now) == InspectAll(db, waits[..i], answers, now)
  {
    if i < |waits| {
      assert waits[..|waits| - 1][..i] == waits[..i];
      InspectionStops(db, waits[..|waits| - 1], i, answers, now);
    } else {
      assert waits[..i] == waits;
    }
  }

  lemma {:induction false} AbsorptionStops(p: Progress, pulls: seq<Pull>, i: nat, answers: Answers)
    requires !p.failed && i <= |pulls| && AbsorbAll(p, pulls[..i], answers).failed
    ensures AbsorbAll(p, pulls, answers) == AbsorbAll(p, pulls[..i], answers)
  {
    if i < |pulls| {
      assert pulls[..|pulls| - 1][..i] == pulls[..i];
      AbsorptionStops(p, pulls[..|pulls| - 1], i, answers);
    } else {
      assert pulls[..i] == pulls;
    }
  }

  // ---------------------------------------------------------------- a held slot always has its record

  ghost predicate Covers(waiting: seq<Wait>, slot: Option<nat>)
  {
    slot.Some? ==> exists i :: 0 <= i < |waiting| && waiting[i].receipt.checkId == slot.value && InFlight(waiting[i].phase)
  }

  ghost predicate SlotCovered(db: Db) { Covers(db.waits, db.slot) }

  /** Only the slot, the records and the quota belong to the review queue. */
  ghost predicate SameElsewhere(db: Db, next: Db)
  {
    next == db.(slot := next.slot, waits := next.waits, quota := next.quota)
  }

  lemma InspectTouchesSlot(before: Progress, w: Wait, answers: Answers, now: int)
    requires !before.failed
    ensures var p := Inspect(before, w, answers, now);
            && SameElsewhere(before.db, p.db) && p.db.waits == before.db.waits && p.db.quota == before.db.quota
            && (p.db.slot == before.db.slot || p.db.slot.None?)
            && (!p.failed ==> |p.waiting| == |before.waiting| + 1 && p.waiting[..|before.waiting|] == before.waiting)
  {
  }

  lemma InspectCovers(before: Progress, w: Wait, waits: seq<Wait>, answers: Answers, now: int)
    requires !before.failed && Covers(waits, before.db.slot) ==> Covers(before.waiting, before.db.slot)
    requires !before.failed
    ensures var p := Inspect(before, w, answers, now);
            && SameElsewhere(before.db, p.db) && p.db.waits == before.db.waits && p.db.quota == before.db.quota
            && (p.db.slot == before.db.slot || p.db.slot.None?)
            && (!p.failed && Covers(waits + [w], p.db.slot) ==> Covers(p.waiting, p.db.slot))
  {
    InspectTouchesSlot(before, w, answers, now);
    var p := Inspect(before, w, answers, now);
    if !p.failed && p.db.slot.Some? && Covers(waits + [w], p.db.slot) {
      var all := waits + [w];
      var i :| 0 <= i < |all| && all[i].receipt.checkId == p.db.slot.value && InFlight(all[i].phase);
      if i < |waits| {
        assert all[i] == waits[i];
        var k :| 0 <= k < |before.waiting| && before.waiting[k].receipt.checkId == p.db.slot.value && InFlight(before.waiting[k].phase);
        assert p.waiting[k] == p.waiting[..|before.waiting|][k];
      } else {
        assert InFlight(p.waiting[|p.waiting| - 1].phase);
      }
    }
  }

  /** What the in-memory records still have to cover: the slot, as far as it was held at the start. */
  lemma {:induction false} InspectionCovers(db: Db, waits: seq<Wait>, answers: Answers, now: int)
    ensures var p := InspectAll(db, waits, answers, now);
            && SameElsewhere(db, p.db) && p.db.waits == db.waits && p.db.quota == db.quota
            && (p.db.slot == db.slot || p.db.slot.None?)
            && (!p.failed && Covers(waits, p.db.slot) ==> Covers(p.waiting, p.db.slot))
  {
    if waits != [] {
      var init := waits[..|waits| - 1];
      var last := waits[|waits| - 1];
      InspectionCovers(db, init, answers, now);
      assert waits == init + [last];
      if !InspectAll(db, init, answers, now).failed {
        InspectCovers(InspectAll(db, init, answers, now), last, init, answers, now);
      }
    }
  }

  /** Replacing one record after releasing its slot, or adding one, uncovers nothing. */
  lemma ReplacementCovers(waiting: seq<Wait>, slot: Option<nat>, i: nat, w: Wait)
    requires Covers(waiting, slot) && i <= |waiting|
    ensures i == |waiting| ==> Covers(waiting + [w], slot)
    ensures i < |waiting| && slot != Some(waiting[i].receipt.checkId) ==> Covers(waiting[i := w], slot)
  {
    if slot.Some? {
      var k :| 0 <= k < |waiting| && waiting[k].receipt.checkId == slot.value && InFlight(waiting[k].phase);
      if i == |waiting| {
        assert (waiting + [w])[k] == waiting[k];
      } else if k != i {
        assert waiting[i := w][k] == waiting[k];
      }
    }
  }

  lemma AbsorbTouchesOwn(p: Progress, pr: nat, e: Execution)
    ensures var q := Absorb(p, pr, e);
            && SameElsewhere(p.db, q.db) && q.db.waits == p.db.waits && q.failed == p.failed
            && (q.db.slot == p.db.slot || q.db.slot.None?)
  {
  }

  lemma AbsorbCovers(p: Progress, pr: nat, e: Execution)
    ensures var q := Absorb(p, pr, e);
            && SameElsewhere(p.db, q.db) && q.db.waits == p.db.waits && q.failed == p.failed
            && (q.db.slot == p.db.slot || q.db.slot.None?)
            && (Covers(p.waiting, p.db.slot) ==> Covers(q.waiting, q.db.slot))
  {
    AbsorbTouchesOwn(p, pr, e);
    var i := IndexOf(p.waiting, pr);
    var q := Absorb(p, pr, e);
    if Covers(p.waiting, p.db.slot) && q != p {
      ReplacementCovers(p.waiting, p.db.slot, i, q.waiting[i]);
    }
  }

  lemma {:induction false} AbsorptionCovers(p: Progress, pulls: seq<Pull>, answers: Answers)
    requires !p.failed
    ensures var q := AbsorbAll(p, pulls, answers);
            && SameElsewhere(p.db, q.db) && q.db.waits == p.db.waits
            && (q.db.slot == p.db.slot || q.db.slot.None?)
            && (Covers(p.waiting, p.db.slot) ==> Covers(q.waiting, q.db.slot))
  {
    if pulls != [] {
      AbsorptionCovers(p, pulls[..|pulls| - 1], answers);
      var before := AbsorbAll(p, pulls[..|pulls| - 1], answers);
      var pr := pulls[|pulls| - 1].number;
      if !before.failed && pr in answers.executions && answers.executions[pr].Some? {
        AbsorbCovers(before, pr, answers.executions[pr].value);
      }
    }
  }

  lemma {:induction false} RequestCovers(db: Db, waiting: seq<Wait>, i: nat, answers: Answers, now: int)
    requires i <= |waiting| && db.slot.None? && db.waits == waiting
    ensures var r := Request(db, waiting, i, answers, now);
            && SameElsewhere(db, r.db) && r.db.quota == db.quota
            && SlotCovered(r.db)
            && (r.rerun.Some? <==> r.db.slot.Some?)
            && (r.rerun.Some? ==> r.db.slot.value == r.rerun.value.checkId)
    decreases |waiting| - i
  {
    if i < |waiting| {
      if !Due(waiting[i], now) {
        RequestCovers(db, waiting, i + 1, answers, now);
      } else if waiting[i].receipt in answers.verdicts {
        if answers.verdicts[waiting[i].receipt].Invalid? {
          var marked := waiting[i := waiting[i].(phase := HumanNeeded)];
          RequestCovers(db.(waits := marked), marked, i + 1, answers, now);
        } else {
          var r := Request(db, waiting, i, answers, now);
          assert r.db.waits[i].receipt.checkId == r.db.slot.value;
        }
      }
    }
  }

  lemma {:induction false} RequestTouchesOwn(db: Db, waiting: seq<Wait>, i: nat, answers: Answers, now: int)
    requires i <= |waiting|
    ensures SameElsewhere(db, Request(db, waiting, i, answers, now).db)
    decreases |waiting| - i
  {
    if i < |waiting| {
      if !Due(waiting[i], now) {
        RequestTouchesOwn(db, waiting, i + 1, answers, now);
      } else if waiting[i].receipt in answers.verdicts && answers.verdicts[waiting[i].receipt].Invalid? {
        var marked := waiting[i := waiting[i].(phase := HumanNeeded)];
        RequestTouchesOwn(db.(waits := marked), marked, i + 1, answers, now);
      }
    }
  }

  lemma PollTouchesOwn(db: Db, answers: Answers, now: int)
    ensures SameElsewhere(db, Poll(db, answers, now).db)
  {
    if answers.listed {
      InspectionCovers(db, db.waits, answers, now);
      var inspected := InspectAll(db, db.waits, answers, now);
      if !inspected.failed {
        AbsorptionCovers(inspected, answers.pulls, answers);
        var absorbed := AbsorbAll(inspected, answers.pulls, answers);
        if !absorbed.failed {
          var stored := absorbed.db.(waits := absorbed.waiting);
          RequestTouchesOwn(stored, stored.waits, 0, answers, now);
        }
      }
    }
  }

  /** Whatever GitHub answers, and wherever the poll is abandoned: a held slot has an in-flight record, a rerun is
      requested only while reviews and agents are idle and the quota is open, and no other table is touched. */
  lemma PollKeepsSlotCovered(db: Db, answers: Answers, now: int)
    requires SlotCovered(db)
    ensures var polled := Poll(db, answers, now);
            && SlotCovered(polled.db)
            && SameElsewhere(db, polled.db)
            && (polled.db.slot.Some? ==> polled.db.slot == db.slot || polled.rerun.Some?)
            && (polled.rerun.Some? ==>
                  && polled.db.slot == Some(polled.rerun.value.checkId)
                  && db.enabled && ProviderQuota.Open(polled.db.quota, now)
                  && WithStatus(db.jobs, {Running}) == [])
  {
    if answers.listed {
      InspectionCovers(db, db.waits, answers, now);
      var inspected := InspectAll(db, db.waits, answers, now);
      if !inspected.failed {
        AbsorptionCovers(inspected, answers.pulls, answers);
        var absorbed := AbsorbAll(inspected, answers.pulls, answers);
        if !absorbed.failed {
          var stored := absorbed.db.(waits := absorbed.waiting);
          if MayRerun(stored, now) {
            RequestCovers(stored, stored.waits, 0, answers, now);
          }
        }
      }
    }
  }

  // ---------------------------------------------------------------- the quota's bounds

  /** A quota that grew out of another: the same, cleared, or deferred once more. */
  ghost predicate Follows(quota: Option<ProviderQuota.Quota>, next: Option<ProviderQuota.Quota>)
  {
    next == quota || next.None? || exists d: ProviderQuota.Deferral :: next == Some(ProviderQuota.Defer(quota, d.source, d.delay, d.at))
  }

  lemma DeferralFollows(quota: Option<ProviderQuota.Quota>, receipt: Receipt)
    ensures Follows(quota, Some(ProviderQuota.Defer(quota, ProviderQuota.ReviewCheck(receipt.checkId), receipt.retryAfter, receipt.completedAt)))
  {
    var d := ProviderQuota.Deferral(ProviderQuota.ReviewCheck(receipt.checkId), receipt.retryAfter, receipt.completedAt);
    assert ProviderQuota.Defer(quota, d.source, d.delay, d.at)
           == ProviderQuota.Defer(quota, ProviderQuota.ReviewCheck(receipt.checkId), receipt.retryAfter, receipt.completedAt);
  }

  lemma ReleaseKeepsQuota(db: Db, w: Wait)
    ensures ReleaseSlot(db, w).quota == db.quota
  {
  }

  lemma AbsorbFollows(p: Progress, pr: nat, e: Execution)
    ensures Follows(p.db.quota, Absorb(p, pr, e).db.quota)
  {
    var i := IndexOf(p.waiting, pr);
    if i < |p.waiting| { ReleaseKeepsQuota(p.db, p.waiting[i]); }
    match e.state
    case ExecutionComplete =>
    case ExecutionFailed =>
    case ExecutionQuotaWait =>
      if !(i < |p.waiting| && p.waiting[i].receipt.checkId == e.receipt.checkId) {
        var quota := ProviderQuota.Defer(p.db.quota, ProviderQuota.ReviewCheck(e.receipt.checkId),
                                         e.receipt.retryAfter, e.receipt.completedAt);
        assert Absorb(p, pr, e).db.quota == Some(quota);
        DeferralFollows(p.db.quota, e.receipt);
      }
  }

  lemma FollowingIsValid(quota: Option<ProviderQuota.Quota>, next: Option<ProviderQuota.Quota>)
    requires ProviderQuota.Valid(quota) && Follows(quota, next)
    ensures ProviderQuota.Valid(next)
  {
    if next != quota && next.Some? {
      var d: ProviderQuota.Deferral :| next == Some(ProviderQuota.Defer(quota, d.source, d.delay, d.at));
      ProviderQuota.DeferTightens(quota, d);
    }
  }

  lemma AbsorbKeepsQuotaValid(p: Progress, pr: nat, e: Execution)
    requires ProviderQuota.Valid(p.db.quota)
    ensures ProviderQuota.Valid(Absorb(p, pr, e).db.quota)
  {
    AbsorbFollows(p, pr, e);
    FollowingIsValid(p.db.quota, Absorb(p, pr, e).db.quota);
  }

  lemma {:induction false} AbsorptionKeepsQuotaValid(p: Progress, pulls: seq<Pull>, answers: Answers)
    requires !p.failed && ProviderQuota.Valid(p.db.quota)
    ensures ProviderQuota.Valid(AbsorbAll(p, pulls, answers).db.quota)
  {
    if pulls != [] {
      AbsorptionKeepsQuotaValid(p, pulls[..|pulls| - 1], answers);
      var before := AbsorbAll(p, pulls[..|pulls| - 1], answers);
      var pr := pulls[|pulls| - 1].number;
      if !before.failed && pr in answers.executions && answers.executions[pr].Some? {
        AbsorbKeepsQuotaValid(before, pr, answers.executions[pr].value);
      }
    }
  }

  lemma {:induction false} RequestKeepsQuota(db: Db, waiting: seq<Wait>, i: nat, answers: Answers, now: int)
    requires i <= |waiting|
    ensures Request(db, waiting, i, answers, now).db.quota == db.quota
    decreases |waiting| - i
  {
    if i < |waiting| {
      if !Due(waiting[i], now) {
        RequestKeepsQuota(db, waiting, i + 1, answers, now);
      } else if waiting[i].receipt in answers.verdicts && answers.verdicts[waiting[i].receipt].Invalid? {
        var marked := waiting[i := waiting[i].(phase := HumanNeeded)];
        RequestKeepsQuota(db.(waits := marked), marked, i + 1, answers, now);
      }
    }
  }

  lemma PollKeepsQuotaValid(db: Db, answers: Answers, now: int)
    requires ProviderQuota.Valid(db.quota)
    ensures ProviderQuota.Valid(Poll(db, answers, now).db.quota)
  {
    if answers.listed {
      InspectionCovers(db, db.waits, answers, now);
      var inspected := InspectAll(db, db.waits, answers, now);
      if !inspected.failed {
        AbsorptionKeepsQuotaValid(inspected, answers.pulls, answers);
        var absorbed := AbsorbAll(inspected, answers.pulls, answers);
        if !absorbed.failed {
          var stored := absorbed.db.(waits := absorbed.waiting);
          RequestKeepsQuota(stored, stored.waits, 0, answers, now);
        }
      }
    }
  }

  // ---------------------------------------------------------------- one rerun per check

  /** A record moves to a newer check, or keeps its check and never returns to `Waiting`. */
  ghost predicate Advances(w: Wait, next: Wait)
  {
    && next.pr == w.pr
    && (next.receipt.checkId > w.receipt.checkId
        || (next.receipt.checkId == w.receipt.checkId && (next.phase.Waiting? ==> w.phase.Waiting?)))
  }

  ghost predicate OnePerPull(waiting: seq<Wait>)
  {
    && (forall i, j :: 0 <= i < j < |waiting| ==> waiting[i].pr != waiting[j].pr)
    && (forall i :: 0 <= i < |waiting| ==> waiting[i].receipt.pr == waiting[i].pr)
  }

  ghost predicate AllAdvance(waiting: seq<Wait>, next: seq<Wait>)
  {
    && |waiting| <= |next|
    && (forall i :: 0 <= i < |waiting| ==> Advances(waiting[i], next[i]))
    && OnePerPull(next)
  }

  /** A pull request's newest execution is its own and never older than the one on record. */
  ghost predicate NeverOlder(waiting: seq<Wait>, answers: Answers)
  {
    forall pr :: pr in answers.executions && answers.executions[pr].Some? ==>
      && answers.executions[pr].value.receipt.pr == pr
      && forall i :: 0 <= i < |waiting| && waiting[i].pr == pr ==>
           answers.executions[pr].value.receipt.checkId >= waiting[i].receipt.checkId
  }

  /** Every rerun requested so far is behind its pull request's record, and no two ask for the same check. */
  ghost predicate RerunOnce(waiting: seq<Wait>, reruns: seq<Receipt>)
  {
    && OnePerPull(waiting)
    && (forall r :: r in reruns ==> Recorded(r, waiting))
    && (forall k, m :: 0 <= k < m < |reruns| ==> reruns[k].pr != reruns[m].pr || reruns[k].checkId != reruns[m].checkId)
  }

  ghost predicate Behind(r: Receipt, w: Wait)
  {
    && w.pr == r.pr
    && r.checkId <= w.receipt.checkId
    && (w.phase.Waiting? ==> r.checkId < w.receipt.checkId)
  }

  ghost predicate Recorded(r: Receipt, waiting: seq<Wait>)
  {
    exists i :: 0 <= i < |waiting| && Behind(r, waiting[i])
  }

  lemma AdvancingKeepsOnce(waiting: seq<Wait>, next: seq<Wait>, reruns: seq<Receipt>)
    requires RerunOnce(waiting, reruns) && AllAdvance(waiting, next)
    ensures RerunOnce(next, reruns)
  {
    forall r | r in reruns ensures Recorded(r, next) {
      var i :| 0 <= i < |waiting| && Behind(r, waiting[i]);
      assert Advances(waiting[i], next[i]);
      assert Behind(r, next[i]);
    }
  }

  lemma {:induction false} InspectionAdvances(db: Db, waits: seq<Wait>, answers: Answers, now: int)
    requires OnePerPull(waits)
    ensures var p := InspectAll(db, waits, answers, now);
            && |p.waiting| <= |waits|
            && (!p.failed ==> |p.waiting| == |waits|)
            && (forall i :: 0 <= i < |p.waiting| ==> Advances(waits[i], p.waiting[i]) && p.waiting[i].receipt == waits[i].receipt)
  {
    if waits != [] {
      InspectionAdvances(db, waits[..|waits| - 1], answers, now);
    }
  }

  lemma AbsorbAdvances(p: Progress, pr: nat, e: Execution)
    requires OnePerPull(p.waiting) && e.receipt.pr == pr
    requires forall i :: 0 <= i < |p.waiting| && p.waiting[i].pr == pr ==> e.receipt.checkId >= p.waiting[i].receipt.checkId
    ensures AllAdvance(p.waiting, Absorb(p, pr, e).waiting)
    ensures forall i :: |p.waiting| <= i < |Absorb(p, pr, e).waiting| ==> Absorb(p, pr, e).waiting[i].receipt == e.receipt
    ensures forall i :: 0 <= i < |p.waiting| ==>
              Absorb(p, pr, e).waiting[i].receipt in {p.waiting[i].receipt, e.receipt}
    ensures forall i :: 0 <= i < |Absorb(p, pr, e).waiting| && Absorb(p, pr, e).waiting[i].pr != pr ==>
              i < |p.waiting| && Absorb(p, pr, e).waiting[i] == p.waiting[i]
  {
    var i := IndexOf(p.waiting, pr);
    var next := Absorb(p, pr, e).waiting;
    assert |p.waiting| <= |next| <= |p.waiting| + 1;
    assert forall k :: 0 <= k < |p.waiting| && k != i ==> next[k] == p.waiting[k];
  }

  lemma {:induction false} AbsorptionAdvances(p: Progress, pulls: seq<Pull>, answers: Answers)
    requires !p.failed && OnePerPull(p.waiting) && NeverOlder(p.waiting, answers)
    ensures var q := AbsorbAll(p, pulls, answers);
            AllAdvance(p.waiting, q.waiting) && NeverOlder(q.waiting, answers)
  {
    if pulls != [] {
      AbsorptionAdvances(p, pulls[..|pulls| - 1], answers);
      var before := AbsorbAll(p, pulls[..|pulls| - 1], answers);
      var pr := pulls[|pulls| - 1].number;
      if !before.failed && pr in answers.executions && answers.executions[pr].Some? {
        var e := answers.executions[pr].value;
        AbsorbAdvances(before, pr, e);
        var after := Absorb(before, pr, e).waiting;
        forall i | 0 <= i < |p.waiting| ensures Advances(p.waiting[i], after[i]) {
          assert Advances(p.waiting[i], before.waiting[i]) && Advances(before.waiting[i], after[i]);
        }
      }
    }
  }

  lemma MarkingKeepsOnce(waiting: seq<Wait>, i: nat, w: Wait, reruns: seq<Receipt>)
    requires RerunOnce(waiting, reruns) && i < |waiting| && Advances(waiting[i], w) && w.receipt == waiting[i].receipt
    ensures RerunOnce(waiting[i := w], reruns)
  {
    AdvancingKeepsOnce(waiting, waiting[i := w], reruns);
  }

  /** A waiting record's check has never been rerun, so asking for it repeats nothing. */
  lemma NewRequestOnce(waiting: seq<Wait>, i: nat, now: int, reruns: seq<Receipt>)
    requires RerunOnce(waiting, reruns) && i < |waiting| && waiting[i].phase.Waiting?
    ensures RerunOnce(waiting[i := waiting[i].(phase := Uncertain, requestedAt := now)], reruns + [waiting[i].receipt])
  {
    var w := waiting[i].(phase := Uncertain, requestedAt := now);
    var receipt := waiting[i].receipt;
    MarkingKeepsOnce(waiting, i, w, reruns);
    forall r | r in reruns && r.pr == receipt.pr ensures r.checkId != receipt.checkId {
      var m :| 0 <= m < |waiting| && Behind(r, waiting[m]);
    }
    assert Behind(receipt, waiting[i := w][i]);
    assert Recorded(receipt, waiting[i := w]);
  }

  lemma {:induction false} RequestOnce(db: Db, waiting: seq<Wait>, i: nat, answers: Answers, now: int, reruns: seq<Receipt>)
    requires i <= |waiting| && db.waits == waiting && RerunOnce(waiting, reruns)
    ensures var r := Request(db, waiting, i, answers, now);
            RerunOnce(r.db.waits, reruns + if r.rerun.Some? then [r.rerun.value] else [])
    decreases |waiting| - i
  {
    if i < |waiting| {
      if !Due(waiting[i], now) {
        RequestOnce(db, waiting, i + 1, answers, now, reruns);
      } else if waiting[i].receipt !in answers.verdicts {
        assert reruns + [] == reruns;
      } else if answers.verdicts[waiting[i].receipt].Invalid? {
        var marked := waiting[i := waiting[i].(phase := HumanNeeded)];
        MarkingKeepsOnce(waiting, i, marked[i], reruns);
        RequestOnce(db.(waits := marked), marked, i + 1, answers, now, reruns);
      } else {
        NewRequestOnce(waiting, i, now, reruns);
      }
    } else {
      assert reruns + [] == reruns;
    }
  }

  /** Across polls, crashes between them and calls that raise inside them, no check is rerun twice. */
  lemma PollRerunsOnce(db: Db, answers: Answers, now: int, reruns: seq<Receipt>)
    requires RerunOnce(db.waits, reruns) && NeverOlder(db.waits, answers)
    ensures var polled := Poll(db, answers, now);
            RerunOnce(polled.db.waits, reruns + if polled.rerun.Some? then [polled.rerun.value] else [])
  {
    assert reruns + [] == reruns;
    if answers.listed {
      InspectionCovers(db, db.waits, answers, now);
      InspectionAdvances(db, db.waits, answers, now);
      var inspected := InspectAll(db, db.waits, answers, now);
      if !inspected.failed {
        AbsorptionCovers(inspected, answers.pulls, answers);
        AbsorptionAdvances(inspected, answers.pulls, answers);
        var absorbed := AbsorbAll(inspected, answers.pulls, answers);
        if !absorbed.failed {
          AdvancingKeepsOnce(db.waits, inspected.waiting, reruns);
          AdvancingKeepsOnce(inspected.waiting, absorbed.waiting, reruns);
          var stored := absorbed.db.(waits := absorbed.waiting);
          if MayRerun(stored, now) {
            RequestOnce(stored, stored.waits, 0, answers, now, reruns);
          }
        }
      }
    }
  }

  // ---------------------------------------------------------------- a held slot is given up in bounded time

  predicate InTime(w: Wait, now: int)
  {
    match w.phase
    case Uncertain => now - w.requestedAt <= 180
    case RunningReview => now - w.requestedAt <= 1800
    case AwaitingReceipt => now - w.finishedAt <= 180
    case _ => true
  }

  /** The poll got every answer it asked for before storing its records. */
  predicate Stores(db: Db, answers: Answers, now: int)
  {
    answers.listed
    && var inspected := InspectAll(db, db.waits, answers, now);
       !inspected.failed && !AbsorbAll(inspected, answers.pulls, answers).failed
  }

  lemma {:induction false} InspectionIsInTime(db: Db, waits: seq<Wait>, answers: Answers, now: int)
    ensures var p := InspectAll(db, waits, answers, now); forall w :: w in p.waiting ==> InTime(w, now)
  {
    if waits != [] {
      InspectionIsInTime(db, waits[..|waits| - 1], answers, now);
    }
  }

  lemma {:induction false} AbsorptionIsInTime(p: Progress, pulls: seq<Pull>, answers: Answers, now: int)
    requires !p.failed && forall w :: w in p.waiting ==> InTime(w, now)
    ensures forall w :: w in AbsorbAll(p, pulls, answers).waiting ==> InTime(w, now)
  {
    if pulls != [] {
      AbsorptionIsInTime(p, pulls[..|pulls| - 1], answers, now);
    }
  }

  lemma {:induction false} RequestIsInTime(db: Db, waiting: seq<Wait>, i: nat, answers: Answers, now: int)
    requires i <= |waiting| && db.waits == waiting && forall w :: w in waiting ==> InTime(w, now)
    ensures forall w :: w in Request(db, waiting, i, answers, now).db.waits ==> InTime(w, now)
    decreases |waiting| - i
  {
    if i < |waiting| {
      if !Due(waiting[i], now) {
        RequestIsInTime(db, waiting, i + 1, answers, now);
      } else if waiting[i].receipt in answers.verdicts && answers.verdicts[waiting[i].receipt].Invalid? {
        var marked := waiting[i := waiting[i].(phase := HumanNeeded)];
        RequestIsInTime(db.(waits := marked), marked, i + 1, answers, now);
      }
    }
  }

  /** After a poll that stores its records, a held slot belongs to a request at most half an hour old. */
  lemma HeldSlotIsRecent(db: Db, answers: Answers, now: int)
    requires SlotCovered(db) && Stores(db, answers, now)
    ensures var polled := Poll(db, answers, now);
            && (forall w :: w in polled.db.waits ==> InTime(w, now))
            && (polled.db.slot.Some? ==>
                  exists w :: w in polled.db.waits && w.receipt.checkId == polled.db.slot.value
                              && InFlight(w.phase) && now - w.requestedAt <= 1800)
  {
    var inspected := InspectAll(db, db.waits, answers, now);
    var absorbed := AbsorbAll(inspected, answers.pulls, answers);
    var stored := absorbed.db.(waits := absorbed.waiting);
    InspectionIsInTime(db, db.waits, answers, now);
    AbsorptionIsInTime(inspected, answers.pulls, answers, now);
    if MayRerun(stored, now) { RequestIsInTime(stored, stored.waits, 0, answers, now); }
    PollKeepsSlotCovered(db, answers, now);
    var polled := Poll(db, answers, now);
    if polled.db.slot.Some? {
      var k :| 0 <= k < |polled.db.waits| && polled.db.waits[k].receipt.checkId == polled.db.slot.value
               && InFlight(polled.db.waits[k].phase);
      assert polled.db.waits[k] in polled.db.waits;
    }
  }
}
