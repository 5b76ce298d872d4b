/** What a poll makes of each review record, which review it reruns, and when it clears the provider's quota. */
module ReviewRecords {
  import opened Contracts
  import opened JobStore
  import opened Tables
  import opened ReviewResumption
  import ProviderQuota
  import RunEnds

  /** A pull request has one record. */
  ghost predicate OneEach(waiting: seq<Wait>) { forall i, j :: 0 <= i < j < |waiting| ==> waiting[i].pr != waiting[j].pr }

  /** The record `i` is the pull request's. */
  ghost predicate RecordOf(waiting: seq<Wait>, i: nat, pr: nat) { i < |waiting| && waiting[i].pr == pr }

  ghost predicate NoRecord(waiting: seq<Wait>, pr: nat) { forall i :: 0 <= i < |waiting| ==> waiting[i].pr != pr }

  function Freed(slot: Option<nat>, check: nat): (next: Option<nat>) { if slot == Some(check) then None else slot }

  // ---------------------------------------------------------------- one execution

  /** A completed review ends its record, gives up its slot, and clears the quota unless the quota was observed after the
      review started; without an unfinished record it changes nothing. */
  lemma CompletedReviewEndsRecord(p: Progress, i: nat, pr: nat, e: Execution)
    requires OneEach(p.waiting) && e.state.ExecutionComplete?
    ensures NoRecord(p.waiting, pr) ==> Absorb(p, pr, e) == p
    ensures RecordOf(p.waiting, i, pr) && p.waiting[i].phase == Complete ==> Absorb(p, pr, e) == p
    ensures RecordOf(p.waiting, i, pr) && p.waiting[i].phase != Complete ==>
              var quota := p.db.quota;
              Absorb(p, pr, e)
              == p.(db := p.db.(slot := Freed(p.db.slot, p.waiting[i].receipt.checkId),
                                quota := if quota.Some? && e.receipt.startedAt < quota.value.observedAt then quota else None),
                    waiting := p.waiting[i := p.waiting[i].(phase := Complete)])
  {
  }

  /** A failed check other than the recorded one hands the record to people with the new receipt and gives up the slot. */
  lemma FailedCheckNeedsPeople(p: Progress, i: nat, pr: nat, e: Execution)
    requires OneEach(p.waiting) && e.state.ExecutionFailed?
    ensures NoRecord(p.waiting, pr) ==> Absorb(p, pr, e) == p
    ensures RecordOf(p.waiting, i, pr) && p.waiting[i].receipt.checkId == e.receipt.checkId ==> Absorb(p, pr, e) == p
    ensures RecordOf(p.waiting, i, pr) && p.waiting[i].receipt.checkId != e.receipt.checkId ==>
              Absorb(p, pr, e)
              == p.(db := p.db.(slot := Freed(p.db.slot, p.waiting[i].receipt.checkId)),
                    waiting := p.waiting[i := p.waiting[i].(phase := HumanNeeded, receipt := e.receipt)])
  {
  }

  /** A review that ran out of quota under a new check waits for the quota that its failure leaves; a known check changes
      nothing. */
  lemma DeferredReviewWaits(p: Progress, i: nat, pr: nat, e: Execution)
    requires OneEach(p.waiting) && e.state.ExecutionQuotaWait?
    requires RecordOf(p.waiting, i, pr) || (i == |p.waiting| && NoRecord(p.waiting, pr))
    ensures i < |p.waiting| && p.waiting[i].receipt.checkId == e.receipt.checkId ==> Absorb(p, pr, e) == p
    ensures i == |p.waiting| || p.waiting[i].receipt.checkId != e.receipt.checkId ==>
              var q := Absorb(p, pr, e);
              && q.db.quota.Some?
              && RunEnds.Deferred(p.db.quota, q.db.quota.value, ProviderQuota.ReviewCheck(e.receipt.checkId),
                                  e.receipt.retryAfter, e.receipt.completedAt)
              && (var record := Wait(pr, e.receipt, Waiting, q.db.quota.value.until, 0, 0);
                  q.waiting == if i == |p.waiting| then p.waiting + [record] else p.waiting[i := record])
              && q.db.slot == (if i == |p.waiting| then p.db.slot else Freed(p.db.slot, p.waiting[i].receipt.checkId))
  {
    assert IndexOf(p.waiting, pr) == i;
    RunEnds.FailureIsDeferred(p.db.quota, ProviderQuota.ReviewCheck(e.receipt.checkId), e.receipt.retryAfter, e.receipt.completedAt);
    if i < |p.waiting| { ReleaseKeepsQuota(p.db, p.waiting[i]); }
  }

  // ---------------------------------------------------------------- the first loop

  /** A record after one look: obsolete without an open pull request at its head; a rerun in flight follows its workflow run
      and is handed to people three minutes after an unanswered request or half an hour into a review, and a finished one
      three minutes after its run. */
  ghost predicate SeenAs(w: Wait, seen: Wait, answers: Answers, now: int)
  {
    if !Eligible(answers.pulls, w) then seen == w.(phase := Obsolete)
    else if w.phase == Uncertain || w.phase == RunningReview then
      && w.receipt.runId in answers.runs
      && var run := answers.runs[w.receipt.runId];
         if run.attempt > w.receipt.runAttempt && run.completed then seen == w.(phase := AwaitingReceipt, finishedAt := now)
         else if run.attempt > w.receipt.runAttempt || w.phase == RunningReview then
           seen == w.(phase := if now - w.requestedAt > 1800 then HumanNeeded else RunningReview)
         else seen == w.(phase := if now - w.requestedAt > 180 then HumanNeeded else Uncertain)
    else if w.phase == AwaitingReceipt then seen == w.(phase := if now - w.finishedAt > 180 then HumanNeeded else AwaitingReceipt)
    else seen == w
  }

  /** A look that gives up the slot of its record's check. */
  ghost predicate GivesUp(w: Wait, seen: Wait, answers: Answers)
  {
    !Eligible(answers.pulls, w) || (InFlight(w.phase) && !InFlight(seen.phase))
  }

  lemma InspectSees(before: Progress, w: Wait, answers: Answers, now: int)
    requires !before.failed && !Inspect(before, w, answers, now).failed
    ensures var p, n := Inspect(before, w, answers, now), |before.waiting|;
            && |p.waiting| == n + 1 && p.waiting[..n] == before.waiting
            && SeenAs(w, p.waiting[n], answers, now)
            && p.db.slot == if GivesUp(w, p.waiting[n], answers) then Freed(before.db.slot, w.receipt.checkId) else before.db.slot
  {
  }

  /** A record of the slot's check gives it up. */
  ghost predicate SlotGivenUp(waits: seq<Wait>, seen: seq<Wait>, slot: nat, answers: Answers)
    requires |seen| == |waits|
  {
    exists i :: 0 <= i < |waits| && waits[i].receipt.checkId == slot && GivesUp(waits[i], seen[i], answers)
  }

  lemma GivenUpByLast(waits: seq<Wait>, seen: seq<Wait>, slot: nat, answers: Answers)
    requires |seen| == |waits| > 0
    ensures var n := |waits| - 1;
            SlotGivenUp(waits, seen, slot, answers)
            <==> SlotGivenUp(waits[..n], seen[..n], slot, answers)
                 || (waits[n].receipt.checkId == slot && GivesUp(waits[n], seen[n], answers))
  {
    var n := |waits| - 1;
    if SlotGivenUp(waits[..n], seen[..n], slot, answers) {
      var i :| 0 <= i < n && waits[..n][i].receipt.checkId == slot && GivesUp(waits[..n][i], seen[..n][i], answers);
      assert waits[i].receipt.checkId == slot && GivesUp(waits[i], seen[i], answers);
    }
    if SlotGivenUp(waits, seen, slot, answers) {
      var i :| 0 <= i < |waits| && waits[i].receipt.checkId == slot && GivesUp(waits[i], seen[i], answers);
      if i < n { assert waits[..n][i].receipt.checkId == slot && GivesUp(waits[..n][i], seen[..n][i], answers); }
    }
  }

  /** The first loop looks at every record once, and frees the slot exactly when a record of its check gives it up. */
  lemma {:induction false} InspectionSeesEach(db: Db, waits: seq<Wait>, answers: Answers, now: int)
    requires !InspectAll(db, waits, answers, now).failed
    ensures var p := InspectAll(db, waits, answers, now);
            && |p.waiting| == |waits|
            && (forall i :: 0 <= i < |waits| ==> SeenAs(waits[i], p.waiting[i], answers, now))
            && p.db.slot == if db.slot.Some? && SlotGivenUp(waits, p.waiting, db.slot.value, answers) then None else db.slot
  {
    if waits != [] {
      var n := |waits| - 1;
      InspectionSeesEach(db, waits[..n], answers, now);
      var before, p := InspectAll(db, waits[..n], answers, now), InspectAll(db, waits, answers, now);
      InspectSees(before, waits[n], answers, now);
      forall i | 0 <= i < |waits| ensures SeenAs(waits[i], p.waiting[i], answers, now) {
        if i < n { assert p.waiting[i] == p.waiting[..n][i] && waits[..n][i] == waits[i]; }
      }
      if db.slot.Some? { GivenUpByLast(waits, p.waiting, db.slot.value, answers); }
    }
  }

  // ---------------------------------------------------------------- the third loop

  /** A waiting record whose time has come. */
  ghost predicate Ripe(w: Wait, now: int) { w.phase == Waiting && w.nextAt <= now }

  ghost predicate Rejected(w: Wait, answers: Answers)
  {
    w.receipt in answers.verdicts && answers.verdicts[w.receipt] == Invalid
  }

  /** The first ripe record, from position `from`, that is not rejected. */
  ghost predicate FirstAsked(waiting: seq<Wait>, from: nat, i: nat, answers: Answers, now: int)
  {
    && from <= i < |waiting| && Ripe(waiting[i], now) && !Rejected(waiting[i], answers)
    && forall k :: from <= k < i && Ripe(waiting[k], now) ==> Rejected(waiting[k], answers)
  }

  /** Ripe records before `end` were handed to people. */
  ghost predicate RejectedUpTo(waiting: seq<Wait>, next: seq<Wait>, from: nat, end: nat, now: int)
  {
    && |next| == |waiting|
    && forall k :: from <= k < end && k < |waiting| ==>
         next[k] == if Ripe(waiting[k], now) then waiting[k].(phase := HumanNeeded) else waiting[k]
  }

  ghost predicate Untouched(waiting: seq<Wait>, next: seq<Wait>, from: nat, i: nat)
  {
    |next| == |waiting| && forall k :: 0 <= k < |waiting| && (k < from || k > i) ==> next[k] == waiting[k]
  }

  /** What the third loop stores and sends when the record `i` is the first it can ask for. */
  ghost predicate AskedFor(db: Db, waiting: seq<Wait>, from: nat, i: nat, polled: Polled, answers: Answers, now: int)
    requires i < |waiting|
  {
    var sent := waiting[i].receipt in answers.verdicts;
    && RejectedUpTo(waiting, polled.db.waits, from, i, now) && Untouched(waiting, polled.db.waits, from, i)
    && polled.rerun == (if sent then Some(waiting[i].receipt) else None)
    && polled.db.waits[i] == (if sent then waiting[i].(phase := Uncertain, requestedAt := now) else waiting[i])
    && polled.db.slot == (if sent then Some(waiting[i].receipt.checkId) else db.slot)
  }

  /** The record `from`, once looked at. */
  function Looked(waiting: seq<Wait>, from: nat, now: int): (next: seq<Wait>)
    requires from < |waiting|
  {
    waiting[from := if Due(waiting[from], now) then waiting[from].(phase := HumanNeeded) else waiting[from]]
  }

  lemma AskedOneLater(db: Db, waiting: seq<Wait>, from: nat, i: nat, polled: Polled, answers: Answers, now: int)
    requires from < i < |waiting|
    requires AskedFor(db.(waits := Looked(waiting, from, now)), Looked(waiting, from, now), from + 1, i, polled, answers, now)
    ensures AskedFor(db, waiting, from, i, polled, answers, now)
  {
    var looked := Looked(waiting, from, now);
    forall k | from <= k < i
      ensures polled.db.waits[k] == if Ripe(waiting[k], now) then waiting[k].(phase := HumanNeeded) else waiting[k]
    {
      if k == from { assert polled.db.waits[k] == looked[k]; } else { assert looked[k] == waiting[k]; }
    }
    forall k | 0 <= k < |waiting| && (k < from || k > i) ensures polled.db.waits[k] == waiting[k] {
      assert polled.db.waits[k] == looked[k];
    }
  }

  lemma FirstAskedLater(waiting: seq<Wait>, from: nat, i: nat, answers: Answers, now: int)
    requires from < i && FirstAsked(waiting, from, i, answers, now)
    ensures FirstAsked(Looked(waiting, from, now), from + 1, i, answers, now)
    ensures Due(waiting[from], now) ==> Rejected(waiting[from], answers)
  {
    assert Due(waiting[from], now) == Ripe(waiting[from], now);
  }

  lemma RequestLooks(db: Db, waiting: seq<Wait>, from: nat, answers: Answers, now: int)
    requires from < |waiting| && db.waits == waiting && (Due(waiting[from], now) ==> Rejected(waiting[from], answers))
    ensures Request(db, waiting, from, answers, now)
            == Request(db.(waits := Looked(waiting, from, now)), Looked(waiting, from, now), from + 1, answers, now)
  {
    if !Due(waiting[from], now) { assert Looked(waiting, from, now) == waiting; }
  }

  lemma AskedNow(db: Db, waiting: seq<Wait>, i: nat, answers: Answers, now: int)
    requires db.waits == waiting && FirstAsked(waiting, i, i, answers, now)
    ensures AskedFor(db, waiting, i, i, Request(db, waiting, i, answers, now), answers, now)
  {
  }

  /** The first ripe record that is not rejected is asked for, if its verdict came; the rejected ones before it are handed to
      people, and the rest stay. */
  lemma {:induction false} RequestAsksFirst(db: Db, waiting: seq<Wait>, from: nat, i: nat, answers: Answers, now: int)
    requires from <= |waiting| && db.waits == waiting && FirstAsked(waiting, from, i, answers, now)
    ensures AskedFor(db, waiting, from, i, Request(db, waiting, from, answers, now), answers, now)
    decreases |waiting| - from
  {
    if from < i {
      var looked := Looked(waiting, from, now);
      FirstAskedLater(waiting, from, i, answers, now);
      RequestLooks(db, waiting, from, answers, now);
      RequestAsksFirst(db.(waits := looked), looked, from + 1, i, answers, now);
      AskedOneLater(db, waiting, from, i, Request(db, waiting, from, answers, now), answers, now);
    } else {
      AskedNow(db, waiting, i, answers, now);
    }
  }

  /** With every ripe record rejected nothing is sent, and all of them are handed to people. */
  lemma {:induction false} RequestAsksNone(db: Db, waiting: seq<Wait>, from: nat, answers: Answers, now: int)
    requires from <= |waiting| && db.waits == waiting
    requires forall k :: from <= k < |waiting| && Ripe(waiting[k], now) ==> Rejected(waiting[k], answers)
    ensures var polled := Request(db, waiting, from, answers, now);
            && polled.rerun.None? && polled.db.slot == db.slot
            && RejectedUpTo(waiting, polled.db.waits, from, |waiting|, now)
            && Untouched(waiting, polled.db.waits, from, |waiting|)
    decreases |waiting| - from
  {
    if from < |waiting| {
      var looked := Looked(waiting, from, now);
      assert Due(waiting[from], now) == Ripe(waiting[from], now);
      assert forall k :: from < k < |waiting| ==> looked[k] == waiting[k];
      RequestLooks(db, waiting, from, answers, now);
      RequestAsksNone(db.(waits := looked), looked, from + 1, answers, now);
      NoneAskedLater(waiting, Request(db, waiting, from, answers, now).db.waits, from, now);
    }
  }

  lemma NoneAskedLater(waiting: seq<Wait>, next: seq<Wait>, from: nat, now: int)
    requires from < |waiting|
    requires RejectedUpTo(Looked(waiting, from, now), next, from + 1, |waiting|, now)
    requires Untouched(Looked(waiting, from, now), next, from + 1, |waiting|)
    ensures RejectedUpTo(waiting, next, from, |waiting|, now) && Untouched(waiting, next, from, |waiting|)
  {
    var looked := Looked(waiting, from, now);
    forall k | from <= k < |waiting| ensures next[k] == if Ripe(waiting[k], now) then waiting[k].(phase := HumanNeeded) else waiting[k] {
      if k == from { assert next[k] == looked[k]; } else { assert looked[k] == waiting[k]; }
    }
    forall k | 0 <= k < from ensures next[k] == waiting[k] { assert next[k] == looked[k]; }
  }

  // ---------------------------------------------------------------- which poll clears the quota

  /** The newest execution of the pull request is a completed review. */
  ghost predicate CompletedReview(answers: Answers, pr: nat)
  {
    pr in answers.executions && answers.executions[pr].Some? && answers.executions[pr].value.state == ExecutionComplete
  }

  ghost predicate Polled?(pulls: seq<Pull>, pr: nat) { exists k :: 0 <= k < |pulls| && pulls[k].number == pr }

  /** An unfinished record's review turns out completed, and it started no earlier than the quota was observed. */
  ghost predicate Proves(waits: seq<Wait>, i: nat, pulls: seq<Pull>, answers: Answers, observedAt: int)
  {
    && i < |waits| && waits[i].phase != Complete && Polled?(pulls, waits[i].pr)
    && CompletedReview(answers, waits[i].pr) && answers.executions[waits[i].pr].value.receipt.startedAt >= observedAt
  }

  ghost predicate Cleared(waits: seq<Wait>, pulls: seq<Pull>, answers: Answers, observedAt: int)
  {
    exists i :: Proves(waits, i, pulls, answers, observedAt)
  }

  ghost predicate NoneDeferred(answers: Answers)
  {
    forall pr :: pr in answers.executions && answers.executions[pr].Some? ==>
      answers.executions[pr].value.state != ExecutionQuotaWait
  }

  /** Between the loops: the records and quota once the executions of `pulls` are absorbed. */
  ghost predicate Absorbed(waits: seq<Wait>, quota: Option<ProviderQuota.Quota>, pulls: seq<Pull>, answers: Answers, q: Progress)
  {
    && |q.waiting| == |waits| && OneEach(q.waiting)
    && (forall i :: 0 <= i < |waits| ==> q.waiting[i].pr == waits[i].pr)
    && (forall i :: 0 <= i < |waits| && CompletedReview(answers, waits[i].pr) ==>
          (q.waiting[i].phase == Complete <==> waits[i].phase == Complete || Polled?(pulls, waits[i].pr)))
    && q.db.quota == if quota.Some? && Cleared(waits, pulls, answers, quota.value.observedAt) then None else quota
  }

  lemma PolledByLast(pulls: seq<Pull>, pr: nat)
    requires pulls != []
    ensures var n := |pulls| - 1; Polled?(pulls, pr) <==> Polled?(pulls[..n], pr) || pulls[n].number == pr
  {
    var n := |pulls| - 1;
    if Polled?(pulls[..n], pr) {
      var k :| 0 <= k < n && pulls[..n][k].number == pr;
      assert pulls[k].number == pr;
    }
    if k :| 0 <= k < n && pulls[k].number == pr { assert pulls[..n][k].number == pr; }
  }

  /** What the newest execution of the last pull request adds. */
  ghost predicate ProvesLast(waits: seq<Wait>, i: nat, pull: Pull, answers: Answers, observedAt: int)
  {
    && i < |waits| && waits[i].pr == pull.number && waits[i].phase != Complete
    && CompletedReview(answers, pull.number) && answers.executions[pull.number].value.receipt.startedAt >= observedAt
  }

  lemma ClearedByLast(waits: seq<Wait>, pulls: seq<Pull>, answers: Answers, observedAt: int)
    requires pulls != []
    ensures var n := |pulls| - 1;
            Cleared(waits, pulls, answers, observedAt)
            <==> Cleared(waits, pulls[..n], answers, observedAt)
                 || exists i :: ProvesLast(waits, i, pulls[n], answers, observedAt)
  {
    var n := |pulls| - 1;
    forall i: nat | i < |waits|
      ensures Proves(waits, i, pulls, answers, observedAt)
              <==> Proves(waits, i, pulls[..n], answers, observedAt) || ProvesLast(waits, i, pulls[n], answers, observedAt)
    {
      PolledByLast(pulls, waits[i].pr);
    }
    if Cleared(waits, pulls[..n], answers, observedAt) {
      var i :| Proves(waits, i, pulls[..n], answers, observedAt);
      assert Proves(waits, i, pulls, answers, observedAt);
    }
    if i :| ProvesLast(waits, i, pulls[n], answers, observedAt) {
      assert Proves(waits, i, pulls, answers, observedAt);
    }
  }

  lemma PhasesFollow(waits: seq<Wait>, before: seq<Wait>, next: seq<Wait>, pulls: seq<Pull>, answers: Answers)
    requires pulls != [] && |before| == |next| == |waits|
    requires forall i :: 0 <= i < |waits| ==> before[i].pr == next[i].pr == waits[i].pr
    requires forall i :: 0 <= i < |waits| && CompletedReview(answers, waits[i].pr) ==>
               (before[i].phase == Complete <==> waits[i].phase == Complete || Polled?(pulls[..|pulls| - 1], waits[i].pr))
    requires forall i :: 0 <= i < |waits| && CompletedReview(answers, waits[i].pr) ==>
               (next[i].phase == Complete <==> before[i].phase == Complete || waits[i].pr == pulls[|pulls| - 1].number)
    ensures forall i :: 0 <= i < |waits| && CompletedReview(answers, waits[i].pr) ==>
              (next[i].phase == Complete <==> waits[i].phase == Complete || Polled?(pulls, waits[i].pr))
  {
    forall i | 0 <= i < |waits| && CompletedReview(answers, waits[i].pr)
      ensures next[i].phase == Complete <==> waits[i].phase == Complete || Polled?(pulls, waits[i].pr)
    {
      PolledByLast(pulls, waits[i].pr);
    }
  }

  /** The quota once one more pull request is absorbed. */
  ghost predicate QuotaFollows(quota: Option<ProviderQuota.Quota>, next: Option<ProviderQuota.Quota>,
                               waits: seq<Wait>, pull: Pull, answers: Answers)
  {
    next == if quota.Some? && exists i :: ProvesLast(waits, i, pull, answers, quota.value.observedAt) then None else quota
  }

  /** One more pull request, whose newest execution did not run out of quota. */
  ghost predicate AbsorbedOne(before: Progress, next: Progress, pull: Pull, answers: Answers)
  {
    && |next.waiting| == |before.waiting| && OneEach(next.waiting)
    && (forall i :: 0 <= i < |before.waiting| ==> next.waiting[i].pr == before.waiting[i].pr)
    && (forall i :: 0 <= i < |before.waiting| && CompletedReview(answers, before.waiting[i].pr) ==>
          (next.waiting[i].phase == Complete <==> before.waiting[i].phase == Complete || before.waiting[i].pr == pull.number))
    && QuotaFollows(before.db.quota, next.db.quota, before.waiting, pull, answers)
  }

  lemma OtherReviewIsAbsorbed(before: Progress, pull: Pull, answers: Answers)
    requires OneEach(before.waiting) && pull.number in answers.executions && answers.executions[pull.number].Some?
    requires answers.executions[pull.number].value.state == ExecutionFailed
    ensures AbsorbedOne(before, Absorb(before, pull.number, answers.executions[pull.number].value), pull, answers)
  {
    var i := IndexOf(before.waiting, pull.number);
    FailedCheckNeedsPeople(before, i, pull.number, answers.executions[pull.number].value);
  }

  lemma CompletedReviewIsAbsorbed(before: Progress, pull: Pull, answers: Answers)
    requires OneEach(before.waiting) && CompletedReview(answers, pull.number)
    ensures AbsorbedOne(before, Absorb(before, pull.number, answers.executions[pull.number].value), pull, answers)
  {
    var e := answers.executions[pull.number].value;
    var i := IndexOf(before.waiting, pull.number);
    CompletedReviewEndsRecord(before, i, pull.number, e);
    if i < |before.waiting| && before.waiting[i].phase != Complete && before.db.quota.Some? {
      var observedAt := before.db.quota.value.observedAt;
      assert ProvesLast(before.waiting, i, pull, answers, observedAt) <==> e.receipt.startedAt >= observedAt;
    }
  }

  lemma UnansweredReviewIsAbsorbed(before: Progress, pull: Pull, answers: Answers)
    requires OneEach(before.waiting) && !CompletedReview(answers, pull.number)
    ensures AbsorbedOne(before, before, pull, answers)
  {
  }

  lemma AbsorbedNext(waits: seq<Wait>, quota: Option<ProviderQuota.Quota>, pulls: seq<Pull>, answers: Answers,
                     before: Progress, next: Progress)
    requires pulls != [] && Absorbed(waits, quota, pulls[..|pulls| - 1], answers, before)
    requires AbsorbedOne(before, next, pulls[|pulls| - 1], answers)
    ensures Absorbed(waits, quota, pulls, answers, next)
  {
    var last := pulls[|pulls| - 1];
    PhasesFollow(waits, before.waiting, next.waiting, pulls, answers);
    if quota.Some? {
      var observedAt := quota.value.observedAt;
      ClearedByLast(waits, pulls, answers, observedAt);
      if before.db.quota == quota && !Cleared(waits, pulls[..|pulls| - 1], answers, observedAt) {
        ProofIsCurrent(waits, before.waiting, pulls, answers, observedAt);
      }
    }
  }

  /** Until its pull request is polled a record proves recovery now exactly when it did at first. */
  lemma ProofIsCurrent(waits: seq<Wait>, before: seq<Wait>, pulls: seq<Pull>, answers: Answers, observedAt: int)
    requires pulls != [] && |before| == |waits| && !Cleared(waits, pulls[..|pulls| - 1], answers, observedAt)
    requires forall i :: 0 <= i < |waits| ==> before[i].pr == waits[i].pr
    requires forall i :: 0 <= i < |waits| && CompletedReview(answers, waits[i].pr) ==>
               (before[i].phase == Complete <==> waits[i].phase == Complete || Polled?(pulls[..|pulls| - 1], waits[i].pr))
    ensures var last := pulls[|pulls| - 1];
            (exists i :: ProvesLast(waits, i, last, answers, observedAt))
            <==> exists i :: ProvesLast(before, i, last, answers, observedAt)
  {
    var n := |pulls| - 1;
    forall i: nat ensures ProvesLast(waits, i, pulls[n], answers, observedAt) <==> ProvesLast(before, i, pulls[n], answers, observedAt) {
      if ProvesLast(waits, i, pulls[n], answers, observedAt) {
        assert !Proves(waits, i, pulls[..n], answers, observedAt);
      }
    }
    if i :| ProvesLast(waits, i, pulls[n], answers, observedAt) { assert ProvesLast(before, i, pulls[n], answers, observedAt); }
    if i :| ProvesLast(before, i, pulls[n], answers, observedAt) { assert ProvesLast(waits, i, pulls[n], answers, observedAt); }
  }

  lemma {:induction false} ExecutionsAreAbsorbed(p: Progress, pulls: seq<Pull>, answers: Answers)
    requires !p.failed && OneEach(p.waiting) && NoneDeferred(answers) && !AbsorbAll(p, pulls, answers).failed
    ensures Absorbed(p.waiting, p.db.quota, pulls, answers, AbsorbAll(p, pulls, answers))
  {
    if pulls != [] {
      var n := |pulls| - 1;
      ExecutionsAreAbsorbed(p, pulls[..n], answers);
      var before, next := AbsorbAll(p, pulls[..n], answers), AbsorbAll(p, pulls, answers);
      if answers.executions[pulls[n].number].None? {
        UnansweredReviewIsAbsorbed(before, pulls[n], answers);
      } else if answers.executions[pulls[n].number].value.state == ExecutionComplete {
        CompletedReviewIsAbsorbed(before, pulls[n], answers);
      } else {
        OtherReviewIsAbsorbed(before, pulls[n], answers);
      }
      AbsorbedNext(p.waiting, p.db.quota, pulls, answers, before, next);
    }
  }

  /** The first loop completes no record and keeps whose each is. */
  lemma InspectionCompletesNone(db: Db, answers: Answers, now: int)
    requires OneEach(db.waits) && !InspectAll(db, db.waits, answers, now).failed
    ensures var seen := InspectAll(db, db.waits, answers, now).waiting;
            && |seen| == |db.waits| && OneEach(seen)
            && (forall i :: 0 <= i < |seen| ==> seen[i].pr == db.waits[i].pr)
            && (forall i :: 0 <= i < |seen| && Eligible(answers.pulls, db.waits[i]) ==>
                  (seen[i].phase == Complete <==> db.waits[i].phase == Complete))
            && (forall i :: 0 <= i < |seen| && !Eligible(answers.pulls, db.waits[i]) ==> seen[i].phase == Obsolete)
  {
    InspectionSeesEach(db, db.waits, answers, now);
    var seen := InspectAll(db, db.waits, answers, now).waiting;
    forall i | 0 <= i < |seen|
      ensures seen[i].pr == db.waits[i].pr
      ensures Eligible(answers.pulls, db.waits[i]) ==> (seen[i].phase == Complete <==> db.waits[i].phase == Complete)
      ensures !Eligible(answers.pulls, db.waits[i]) ==> seen[i].phase == Obsolete
    {
      assert SeenAs(db.waits[i], seen[i], answers, now);
    }
  }

  /** A review that proves recovery: unfinished on record, or finished at another head, and completed now. */
  ghost predicate Recovers(db: Db, i: nat, answers: Answers, observedAt: int)
  {
    && i < |db.waits| && (db.waits[i].phase != Complete || !Eligible(answers.pulls, db.waits[i]))
    && Polled?(answers.pulls, db.waits[i].pr) && CompletedReview(answers, db.waits[i].pr)
    && answers.executions[db.waits[i].pr].value.receipt.startedAt >= observedAt
  }

  /** A poll that is answered and finds no new quota failure clears the quota if and only if a review on record that was not
      complete is found completed and started no earlier than the quota was observed. */
  lemma PollClearsExactly(db: Db, answers: Answers, now: int)
    requires OneEach(db.waits) && NoneDeferred(answers) && Stores(db, answers, now)
    ensures Poll(db, answers, now).db.quota
            == if db.quota.Some? && exists i :: Recovers(db, i, answers, db.quota.value.observedAt) then None else db.quota
  {
    InspectionCovers(db, db.waits, answers, now);
    InspectionCompletesNone(db, answers, now);
    var inspected := InspectAll(db, db.waits, answers, now);
    ExecutionsAreAbsorbed(inspected, answers.pulls, answers);
    var absorbed := AbsorbAll(inspected, answers.pulls, answers);
    var stored := absorbed.db.(waits := absorbed.waiting);
    RequestKeepsQuota(stored, stored.waits, 0, answers, now);
    if db.quota.Some? { RecoversIsCleared(db, inspected.waiting, answers, db.quota.value.observedAt); }
  }

  lemma RecoversIsCleared(db: Db, seen: seq<Wait>, answers: Answers, observedAt: int)
    requires |seen| == |db.waits| && forall i :: 0 <= i < |seen| ==> seen[i].pr == db.waits[i].pr
    requires forall i :: 0 <= i < |seen| && Eligible(answers.pulls, db.waits[i]) ==>
               (seen[i].phase == Complete <==> db.waits[i].phase == Complete)
    requires forall i :: 0 <= i < |seen| && !Eligible(answers.pulls, db.waits[i]) ==> seen[i].phase == Obsolete
    ensures Cleared(seen, answers.pulls, answers, observedAt) <==> exists i :: Recovers(db, i, answers, observedAt)
  {
    forall i: nat ensures Proves(seen, i, answers.pulls, answers, observedAt) <==> Recovers(db, i, answers, observedAt) {}
    if i :| Recovers(db, i, answers, observedAt) { assert Proves(seen, i, answers.pulls, answers, observedAt); }
    if i :| Proves(seen, i, answers.pulls, answers, observedAt) { assert Recovers(db, i, answers, observedAt); }
  }

  // ---------------------------------------------------------------- a pull request has one record, whatever is answered

  lemma AbsorbKeepsOneEach(p: Progress, pr: nat, e: Execution)
    requires OneEach(p.waiting)
    ensures OneEach(Absorb(p, pr, e).waiting)
  {
    var i := IndexOf(p.waiting, pr);
    var next := Absorb(p, pr, e).waiting;
    if i < |p.waiting| {
      assert |next| == |p.waiting| && forall k :: 0 <= k < |next| ==> next[k].pr == p.waiting[k].pr;
    }
  }

  lemma {:induction false} AbsorptionKeepsOneEach(p: Progress, pulls: seq<Pull>, answers: Answers)
    requires !p.failed && OneEach(p.waiting)
    ensures OneEach(AbsorbAll(p, pulls, answers).waiting)
  {
    if pulls != [] {
      var n := |pulls| - 1;
      AbsorptionKeepsOneEach(p, pulls[..n], answers);
      var before, pr := AbsorbAll(p, pulls[..n], answers), pulls[n].number;
      if !before.failed && pr in answers.executions && answers.executions[pr].Some? {
        AbsorbKeepsOneEach(before, pr, answers.executions[pr].value);
      }
    }
  }

  lemma LookingKeepsOneEach(waiting: seq<Wait>, from: nat, now: int)
    requires from < |waiting| && OneEach(waiting)
    ensures OneEach(Looked(waiting, from, now))
  {
    assert forall k :: 0 <= k < |waiting| ==> Looked(waiting, from, now)[k].pr == waiting[k].pr;
  }

  lemma AskingKeepsOneEach(db: Db, waiting: seq<Wait>, from: nat, answers: Answers, now: int)
    requires from < |waiting| && db.waits == waiting && OneEach(waiting)
    requires Due(waiting[from], now) && !Rejected(waiting[from], answers)
    ensures OneEach(Request(db, waiting, from, answers, now).db.waits)
  {
    var next := Request(db, waiting, from, answers, now).db.waits;
    assert |next| == |waiting| && forall k :: 0 <= k < |waiting| ==> next[k].pr == waiting[k].pr;
  }

  lemma {:induction false} RequestKeepsOneEach(db: Db, waiting: seq<Wait>, from: nat, answers: Answers, now: int)
    requires from <= |waiting| && db.waits == waiting && OneEach(waiting)
    ensures OneEach(Request(db, waiting, from, answers, now).db.waits)
    decreases |waiting| - from
  {
    if from < |waiting| {
      if Due(waiting[from], now) ==> Rejected(waiting[from], answers) {
        RequestLooks(db, waiting, from, answers, now);
        LookingKeepsOneEach(waiting, from, now);
        RequestKeepsOneEach(db.(waits := Looked(waiting, from, now)), Looked(waiting, from, now), from + 1, answers, now);
      } else {
        AskingKeepsOneEach(db, waiting, from, answers, now);
      }
    }
  }

  lemma PollKeepsOneEach(db: Db, answers: Answers, now: int)
    requires OneEach(db.waits)
    ensures OneEach(Poll(db, answers, now).db.waits)
  {
    if answers.listed {
      InspectionCovers(db, db.waits, answers, now);
      var inspected := InspectAll(db, db.waits, answers, now);
      if !inspected.failed {
        InspectionCompletesNone(db, answers, now);
        AbsorptionCovers(inspected, answers.pulls, answers);
        AbsorptionKeepsOneEach(inspected, answers.pulls, answers);
        var absorbed := AbsorbAll(inspected, answers.pulls, answers);
        if !absorbed.failed {
          var stored := absorbed.db.(waits := absorbed.waiting);
          RequestKeepsOneEach(stored, stored.waits, 0, answers, now);
        }
      }
    }
  }
}
