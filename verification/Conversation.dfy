/** Owner conversations as the service runs them, over the transactional store. */
module Conversation {
  import opened Contracts
  import opened JobStore
  import opened Tables
  import opened State
  import S = Scheduling
  import O = OwnerComments

  class Conversation {
    const state: State

    constructor (state: State)
      ensures this.state == state
    {
      this.state := state;
    }

    /** The transaction that reserves an issue's new comments; true when there were any. */
    method Poll(issue: nat, comments: seq<Comment>, newId: JobId) returns (took: bool)
      requires issue in state.db.origins
      modifies state
      ensures state.db == O.PollComments(old(state.db), issue, comments, newId)
      ensures took <==> O.Novel(old(state.db), issue, comments) != []
    {
      var previous := O.TriageJobs(state.db.jobs, issue);
      var novel := O.Arranged(O.Unseen(comments, O.Seen(previous)));
      if novel == [] { return false; }
      var waiting := O.FirstOpen(previous);
      if waiting.Some? {
        var known := state.UpdateJob(waiting.value.id, O.Extending(novel));
      } else {
        var origin := state.db.origins[issue];
        state.SaveJob(Fresh(newId, Triage, origin.signature, origin.incidentId, Some(issue), novel));
      }
      state.db := state.db.(holds := state.db.holds + {issue});
      took := true;
    }

    method CloseRepairs(issue: nat)
      modifies state
      ensures state.db == old(state.db).(jobs := O.CloseRepairs(old(state.db.jobs), IssueJobs(old(state.db.jobs), Some(issue))))
    {
      var jobs := IssueJobs(state.db.jobs, Some(issue));
      var i := 0;
      while i < |jobs|
        invariant 0 <= i <= |jobs|
        invariant O.CloseRepairs(state.db.jobs, jobs[i..]) == O.CloseRepairs(old(state.db.jobs), jobs)
        invariant state.db == old(state.db).(jobs := state.db.jobs)
      {
        assert jobs[i..][1..] == jobs[i + 1..];
        if Repair(jobs[i]) && !jobs[i].cancelled {
          var known := state.UpdateJob(jobs[i].id, O.Closing());
        }
        i := i + 1;
      }
      assert jobs[i..] == [];
    }

    /** Continues an issue's repair, or makes its first one, and lifts the hold. */
    method Resume(triage: Job, issue: nat, repair: Option<JobId>, published: bool, newId: JobId)
      modifies state
      ensures state.db == O.Resume(old(state.db), triage, issue, repair, published, newId)
    {
      if repair.Some? {
        var known := state.UpdateJob(repair.value, O.Reopening(S.Started(state.db, repair.value), published));
      } else {
        state.SaveJob(Fresh(newId, Deep, triage.signature, triage.incidentId, Some(issue), []));
      }
      state.db := state.db.(holds := state.db.holds - {issue});
    }

    /** The transaction at the end of `process`, once the decision's effects are confirmed. */
    method Decide(triage: JobId, action: O.Action, repair: Option<JobId>, published: bool, newId: JobId)
      modifies state
      ensures state.db == O.Decide(old(state.db), triage, action, repair, published, newId)
    {
      var found := Find(state.db.jobs, triage);
      if found.None? || found.value.issue.None? { return; }
      var issue := found.value.issue.value;
      if action == O.Continue {
        Resume(found.value, issue, repair, published, newId);
      } else if action == O.ClosePr {
        CloseRepairs(issue);
      }
      var known := state.UpdateJob(triage, O.Closing());
    }
  }
}
