/** The review queue as the service runs it: three loops over records in memory and the tables. */
module ReviewQueue {
  import opened Contracts
  import opened JobStore
  import opened Tables
  import opened State
  import ProviderQuota
  import R = ReviewResumption

  class ReviewQueue {
    const state: State

    constructor (state: State)
      ensures this.state == state
    {
      this.state := state;
    }

    /** Afterwards no slot is held for this record's check, and a slot held for another is still held. The write is
        durable at once, unlike the record's new phase. */
    method Release(record: Wait)
      modifies state
      ensures state.db.slot != Some(record.receipt.checkId)
      ensures old(state.db.slot) != Some(record.receipt.checkId) ==> state.db == old(state.db)
      ensures state.db == old(state.db).(slot := state.db.slot)
      ensures state.db == R.ReleaseSlot(old(state.db), record)
    {
      if state.db.slot.Some? && state.db.slot.value == record.receipt.checkId {
        state.db := state.db.(slot := None);
      }
    }

    /** One record against the open pull requests and, while its rerun is in flight, against its workflow run; `done`
        are the records already seen. */
    method InspectRecord(record: Wait, answers: R.Answers, now: int, ghost done: seq<Wait>) returns (seen: Wait, failed: bool)
      modifies state
      ensures R.Inspect(R.Progress(old(state.db), done, false), record, answers, now)
              == R.Progress(state.db, if failed then done else done + [seen], failed)
    {
      seen, failed := record, false;
      if !R.Eligible(answers.pulls, record) {
        seen := seen.(phase := Obsolete);
        Release(record);
        return;
      }
      if R.InFlight(seen.phase) {
        if record.receipt.runId !in answers.runs { return seen, true; }
        var run := answers.runs[record.receipt.runId];
        if run.attempt > record.receipt.runAttempt {
          seen := seen.(phase := RunningReview);
          if run.completed {
            seen := seen.(phase := AwaitingReceipt, finishedAt := now);
            Release(record);
          }
        }
        var timeout := if seen.phase == Uncertain then 180 else 1800;
        if R.InFlight(seen.phase) && now - seen.requestedAt > timeout {
          seen := seen.(phase := HumanNeeded);
          Release(record);
        }
      }
      if seen.phase == AwaitingReceipt && now - seen.finishedAt > 180 {
        seen := seen.(phase := HumanNeeded);
      }
    }

    method InspectRecords(answers: R.Answers, now: int) returns (waiting: seq<Wait>, failed: bool)
      modifies state
      ensures R.InspectAll(old(state.db), old(state.db.waits), answers, now) == R.Progress(state.db, waiting, failed)
    {
      var records := state.db.waits;
      waiting, failed := [], false;
      var i := 0;
      while i < |records|
        invariant 0 <= i <= |records|
        invariant R.InspectAll(old(state.db), records[..i], answers, now) == R.Progress(state.db, waiting, false)
        invariant !failed
      {
        var seen;
        seen, failed := InspectRecord(records[i], answers, now, waiting);
        assert records[..i + 1][..i] == records[..i];
        if failed {
          R.InspectionStops(old(state.db), records, i + 1, answers, now);
          return;
        }
        waiting := waiting + [seen];
        i := i + 1;
      }
      assert records[..i] == records;
    }

    /** A pull request's newest execution against its record. */
    method AbsorbExecution(records: seq<Wait>, pr: nat, execution: R.Execution) returns (waiting: seq<Wait>)
      modifies state
      ensures R.Absorb(R.Progress(old(state.db), records, false), pr, execution) == R.Progress(state.db, waiting, false)
    {
      waiting := records;
      var i := R.IndexOf(waiting, pr);
      var known := i < |waiting|;
      if execution.state == R.ExecutionComplete {
        if known && waiting[i].phase != Complete {
          Release(waiting[i]);
          waiting := waiting[i := waiting[i].(phase := Complete)];
          state.ProviderRecovered(Some(execution.receipt.startedAt));
        }
      } else if execution.state != R.ExecutionQuotaWait {
        if known && waiting[i].receipt.checkId != execution.receipt.checkId {
          Release(waiting[i]);
          waiting := waiting[i := waiting[i].(phase := HumanNeeded, receipt := execution.receipt)];
        }
      } else if !known || waiting[i].receipt.checkId != execution.receipt.checkId {
        if known { Release(waiting[i]); }
        var quota := state.DeferProvider(ProviderQuota.ReviewCheck(execution.receipt.checkId),
                                         execution.receipt.retryAfter, execution.receipt.completedAt);
        var record := Wait(pr, execution.receipt, Waiting, quota.until, 0, 0);
        waiting := if known then waiting[i := record] else waiting + [record];
      }
    }

    method AbsorbExecutions(records: seq<Wait>, answers: R.Answers) returns (waiting: seq<Wait>, failed: bool)
      modifies state
      ensures R.AbsorbAll(R.Progress(old(state.db), records, false), answers.pulls, answers) == R.Progress(state.db, waiting, failed)
    {
      ghost var start := R.Progress(state.db, records, false);
      var pulls := answers.pulls;
      waiting, failed := records, false;
      var i := 0;
      while i < |pulls|
        invariant 0 <= i <= |pulls|
        invariant R.AbsorbAll(start, pulls[..i], answers) == R.Progress(state.db, waiting, false)
        invariant !failed
      {
        var pr := pulls[i].number;
        assert pulls[..i + 1][..i] == pulls[..i];
        if pr !in answers.executions {
          failed := true;
          R.AbsorptionStops(start, pulls, i + 1, answers);
          return;
        }
        if answers.executions[pr].Some? {
          waiting := AbsorbExecution(waiting, pr, answers.executions[pr].value);
        }
        i := i + 1;
      }
      assert pulls[..i] == pulls;
    }

    /** Stores the first due record's request before sending it, and returns what to send. */
    method RequestRerun(records: seq<Wait>, answers: R.Answers, now: int) returns (rerun: Option<Receipt>)
      modifies state
      ensures R.Polled(state.db, rerun) == R.Request(old(state.db), records, 0, answers, now)
    {
      ghost var before := state.db;
      var waiting := records;
      var i := 0;
      while i < |waiting|
        invariant 0 <= i <= |waiting|
        invariant R.Request(state.db, waiting, i, answers, now) == R.Request(before, records, 0, answers, now)
      {
        var record := waiting[i];
        if R.Due(record, now) {
          if record.receipt !in answers.verdicts { return None; }
          if answers.verdicts[record.receipt] == R.Valid {
            waiting := waiting[i := record.(phase := Uncertain, requestedAt := now)];
            state.db := state.db.(waits := waiting, slot := Some(record.receipt.checkId));
            return Some(record.receipt);
          }
          waiting := waiting[i := record.(phase := HumanNeeded)];
          state.db := state.db.(waits := waiting);
        }
        i := i + 1;
      }
      rerun := None;
    }

    method Poll(answers: R.Answers, now: int) returns (rerun: Option<Receipt>)
      modifies state
      ensures R.Polled(state.db, rerun) == R.Poll(old(state.db), answers, now)
    {
      if !answers.listed { return None; }
      var waiting, failed := InspectRecords(answers, now);
      if failed { return None; }
      waiting, failed := AbsorbExecutions(waiting, answers);
      if failed { return None; }
      state.db := state.db.(waits := waiting);
      if !R.MayRerun(state.db, now) { return None; }
      rerun := RequestRerun(waiting, answers, now);
    }
  }
}
