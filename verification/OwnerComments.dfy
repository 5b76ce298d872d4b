/** `Conversation`: reserving every version of an owner's comment for exactly one triage job. */
module OwnerComments {
  import opened Contracts
  import opened JobStore
  import opened Tables
  import opened Scheduling
  import opened Dispatching

  // ---------------------------------------------------------------- ordering and merging comment lists

  predicate NotAfter(a: Comment, b: Comment)
  {
    a.updatedAt < b.updatedAt || (a.updatedAt == b.updatedAt && a.id <= b.id)
  }

  predicate SameComment(a: Comment, b: Comment) { a.number == b.number && a.id == b.id }

  function Insert(sorted: seq<Comment>, c: Comment): (comments: seq<Comment>)
  {
    if sorted == [] then [c]
    else
      var n := |sorted| - 1;
      if NotAfter(sorted[n], c) then sorted + [c] else Insert(sorted[..n], c) + [sorted[n]]
  }

  /** A stable sort by update time, then id. */
  function Arranged(comments: seq<Comment>): (result: seq<Comment>)
  {
    if comments == [] then []
    else Insert(Arranged(comments[..|comments| - 1]), comments[|comments| - 1])
  }

  /** A dictionary entry keyed by `(number, id)`: the later value wins, the earlier position stays. */
  function Place(list: seq<Comment>, c: Comment): (comments: seq<Comment>)
    decreases |list|
  {
    if list == [] then [c]
    else if SameComment(list[0], c) then [c] + list[1..]
    else [list[0]] + Place(list[1..], c)
  }

  function Combined(comments: seq<Comment>): (result: seq<Comment>)
  {
    if comments == [] then []
    else Place(Combined(comments[..|comments| - 1]), comments[|comments| - 1])
  }

  function Unseen(comments: seq<Comment>, seen: set<Comment>): (result: seq<Comment>)
  {
    if comments == [] then []
    else
      var init := Unseen(comments[..|comments| - 1], seen);
      if comments[|comments| - 1] in seen then init else init + [comments[|comments| - 1]]
  }

  // ---------------------------------------------------------------- one poll of an issue

  function TriageJobs(rows: seq<Row>, issue: nat): (jobs: seq<Job>)
  {
    Kept(IssueJobs(rows, Some(issue)), (job: Job) => job.stage.Triage?)
  }

  function Seen(jobs: seq<Job>): (result: set<Comment>) { set job, c | job in jobs && c in job.ownerComments :: c }

  predicate Open(job: Job) { job.status.Queued? && !job.hasContext }

  function FirstOpen(jobs: seq<Job>): (found: Option<Job>)
    decreases |jobs|
  {
    if jobs == [] then None else if Open(jobs[0]) then Some(jobs[0]) else FirstOpen(jobs[1..])
  }

  function Extended(job: Job, more: seq<Comment>): (next: Job)
  {
    job.(ownerComments := Arranged(Combined(job.ownerComments + more)))
  }

  function Extending(more: seq<Comment>): (change: Job -> Job) { (job: Job) => Extended(job, more) }

  /** Comments a poll finds that no triage job of the issue has reserved, in time order. */
  function Novel(db: Db, issue: nat, comments: seq<Comment>): (result: seq<Comment>)
  {
    Arranged(Unseen(comments, Seen(TriageJobs(db.jobs, issue))))
  }

  /** Reserves new comments: they join a triage job that has not started, or make a new one; the issue is held. */
  function Take(db: Db, issue: nat, novel: seq<Comment>, waiting: Option<Job>, newId: JobId): (next: Db)
    requires issue in db.origins
  {
    var origin := db.origins[issue];
    var rows := if waiting.Some? then Update(db.jobs, waiting.value.id, Extending(novel))
                else Save(db.jobs, Fresh(newId, Triage, origin.signature, origin.incidentId, Some(issue), novel));
    db.(jobs := rows, holds := db.holds + {issue})
  }

  /** The transaction of `poll` for one issue that has a controller origin. */
  function PollComments(db: Db, issue: nat, comments: seq<Comment>, newId: JobId): (next: Db)
  {
    var novel := Novel(db, issue, comments);
    if novel == [] || issue !in db.origins then db
    else Take(db, issue, novel, FirstOpen(TriageJobs(db.jobs, issue)), newId)
  }

  // ---------------------------------------------------------------- the decision at the end of `process`

  datatype Action = Continue | Reply | ClosePr

  function Closing(): (change: Job -> Job) { (job: Job) => job.(status := Done) }

  function CloseRepairs(rows: seq<Row>, jobs: seq<Job>): (next: seq<Row>)
    decreases |jobs|
  {
    if jobs == [] then rows
    else CloseRepairs(
           if Repair(jobs[0]) && !jobs[0].cancelled then Update(rows, jobs[0].id, Closing()) else rows,
           jobs[1..])
  }

  function Reopened(job: Job, started: bool, published: bool): (next: Job)
  {
    Requeued(job, started).(stage := if published then Revise else Deep)
  }

  function Reopening(started: bool, published: bool): (change: Job -> Job) { (job: Job) => Reopened(job, started, published) }

  function Continued(rows: seq<Row>, id: JobId, started: bool, published: bool): (next: seq<Row>)
  {
    Update(rows, id, Reopening(started, published))
  }

  /** `repair` is the job to continue, `published` whether it already has a pull request. */
  function Resume(db: Db, triage: Job, issue: nat, repair: Option<JobId>, published: bool, newId: JobId): (next: Db)
  {
    var rows :=
      if repair.None? then Save(db.jobs, Fresh(newId, Deep, triage.signature, triage.incidentId, Some(issue), []))
      else Continued(db.jobs, repair.value, Started(db, repair.value), published);
    db.(jobs := rows, holds := db.holds - {issue})
  }

  function Act(db: Db, triage: Job, issue: nat, action: Action, repair: Option<JobId>, published: bool, newId: JobId): (next: Db)
  {
    match action
    case Reply => db
    case ClosePr => db.(jobs := CloseRepairs(db.jobs, IssueJobs(db.jobs, Some(issue))))
    case Continue => Resume(db, triage, issue, repair, published, newId)
  }

  function Decide(db: Db, triage: JobId, action: Action, repair: Option<JobId>, published: bool, newId: JobId): (next: Db)
  {
    var found := Find(db.jobs, triage);
    if found.None? || found.value.issue.None? then db
    else
      var acted := Act(db, found.value, found.value.issue.value, action, repair, published, newId);
      db.(jobs := Update(acted.jobs, triage, Closing()), holds := acted.holds)
  }

  lemma PollFrame(db: Db, issue: nat, comments: seq<Comment>, newId: JobId)
    ensures var next := PollComments(db, issue, comments, newId); next == db.(jobs := next.jobs, holds := next.holds)
  {
  }

  lemma DecideFrame(db: Db, triage: JobId, action: Action, repair: Option<JobId>, published: bool, newId: JobId)
    ensures var next := Decide(db, triage, action, repair, published, newId);
            next == db.(jobs := next.jobs, holds := next.holds)
  {
  }

  // ---------------------------------------------------------------- sorting and merging lose nothing

  lemma {:induction false} InsertMembers(sorted: seq<Comment>, c: Comment)
    ensures forall d :: d in Insert(sorted, c) <==> d in sorted || d == c
  {
    if sorted != [] {
      var n := |sorted| - 1;
      assert sorted == sorted[..n] + [sorted[n]];
      if !NotAfter(sorted[n], c) { InsertMembers(sorted[..n], c); }
    }
  }

  ghost predicate InOrder(comments: seq<Comment>)
  {
    forall i, j :: 0 <= i < j < |comments| ==> NotAfter(comments[i], comments[j])
  }

  lemma {:induction false} InsertKeepsOrder(sorted: seq<Comment>, c: Comment)
    requires InOrder(sorted)
    ensures InOrder(Insert(sorted, c))
  {
    if sorted != [] {
      var n := |sorted| - 1;
      if !NotAfter(sorted[n], c) {
        InsertKeepsOrder(sorted[..n], c);
        InsertMembers(sorted[..n], c);
        var inner := Insert(sorted[..n], c);
        forall i | 0 <= i < |inner| ensures NotAfter(inner[i], sorted[n]) { assert inner[i] in inner; }
      }
    }
  }

  /** Arranging keeps exactly the same comments and puts them in time order. */
  lemma {:induction false} ArrangedSorts(comments: seq<Comment>)
    ensures InOrder(Arranged(comments))
    ensures forall d :: d in Arranged(comments) <==> d in comments
    ensures Arranged(comments) == [] <==> comments == []
  {
    if comments != [] {
      var n := |comments| - 1;
      assert comments == comments[..n] + [comments[n]];
      ArrangedSorts(comments[..n]);
      InsertKeepsOrder(Arranged(comments[..n]), comments[n]);
      InsertMembers(Arranged(comments[..n]), comments[n]);
      assert comments[n] in Arranged(comments);
    }
  }

  lemma {:induction false} PlaceMembers(list: seq<Comment>, c: Comment)
    ensures c in Place(list, c)
    ensures forall d :: d in Place(list, c) ==> d in list || d == c
    ensures forall d :: d in list && !SameComment(d, c) ==> d in Place(list, c)
    decreases |list|
  {
    if list != [] {
      assert list == [list[0]] + list[1..];
      PlaceMembers(list[1..], c);
    }
  }

  lemma {:induction false} UnseenMembers(comments: seq<Comment>, seen: set<Comment>)
    ensures forall d :: d in Unseen(comments, seen) <==> d in comments && d !in seen
    ensures Unseen(comments, seen) == [] <==> forall d :: d in comments ==> d in seen
  {
    if comments != [] {
      assert comments == comments[..|comments| - 1] + [comments[|comments| - 1]];
      UnseenMembers(comments[..|comments| - 1], seen);
    }
  }

  lemma {:induction false} CombinedMembers(list: seq<Comment>)
    ensures forall d :: d in Combined(list) ==> d in list
  {
    if list != [] {
      var init := list[..|list| - 1];
      CombinedMembers(init);
      assert list == init + [list[|list| - 1]];
      PlaceMembers(Combined(init), list[|list| - 1]);
    }
  }

  /** Every merged comment leaves some version under its key. */
  lemma {:induction false} CombinedCovers(list: seq<Comment>, c: Comment) returns (d: Comment)
    requires c in list
    ensures d in Combined(list) && SameComment(d, c)
  {
    var n := |list| - 1;
    assert list == list[..n] + [list[n]];
    PlaceMembers(Combined(list[..n]), list[n]);
    if SameComment(list[n], c) {
      d := list[n];
    } else {
      d := CombinedCovers(list[..n], c);
    }
  }

  /** A new version wins over every older version under its key. */
  lemma {:induction false} NewestWins(prior: seq<Comment>, more: seq<Comment>, c: Comment) returns (d: Comment)
    requires c in more
    ensures d in Combined(prior + more) && SameComment(d, c) && d in more
  {
    var n := |more| - 1;
    var all := prior + more;
    assert more == more[..n] + [more[n]];
    assert all[..|all| - 1] == prior + more[..n];
    PlaceMembers(Combined(prior + more[..n]), more[n]);
    if SameComment(more[n], c) {
      d := more[n];
    } else {
      d := NewestWins(prior, more[..n], c);
    }
  }

  // ---------------------------------------------------------------- one owner per version

  /** The version is reserved by a triage job of the issue. */
  ghost predicate ReservedBy(rows: seq<Row>, issue: nat, c: Comment, id: JobId)
  {
    var found := Find(rows, id);
    found.Some? && found.value.stage.Triage? && found.value.issue == Some(issue) && c in found.value.ownerComments
  }

  ghost predicate Reserved(rows: seq<Row>, issue: nat, c: Comment) { exists id :: ReservedBy(rows, issue, c, id) }

  /** No comment version belongs to two triage jobs of an issue. */
  ghost predicate OneOwner(rows: seq<Row>)
  {
    forall issue, c, a, b :: ReservedBy(rows, issue, c, a) && ReservedBy(rows, issue, c, b) ==> a == b
  }

  lemma TriageJobsFind(rows: seq<Row>, issue: nat)
    requires Mirrored(rows)
    ensures forall job :: job in TriageJobs(rows, issue) <==>
              Find(rows, job.id) == Some(job) && job.stage.Triage? && job.issue == Some(issue)
  {
    QueriesFind(rows, {}, Some(issue));
    KeptMembers(IssueJobs(rows, Some(issue)), (job: Job) => job.stage.Triage?);
  }

  lemma SeenIsReserved(rows: seq<Row>, issue: nat, c: Comment)
    requires Mirrored(rows)
    ensures c in Seen(TriageJobs(rows, issue)) <==> Reserved(rows, issue, c)
  {
    TriageJobsFind(rows, issue);
    if Reserved(rows, issue, c) {
      var id :| ReservedBy(rows, issue, c, id);
      FindIsRow(rows, id);
      assert Find(rows, id).value in TriageJobs(rows, issue);
    }
    if c in Seen(TriageJobs(rows, issue)) {
      var job :| job in TriageJobs(rows, issue) && c in job.ownerComments;
      assert ReservedBy(rows, issue, c, job.id);
    }
  }

  lemma {:induction false} FirstOpenFinds(jobs: seq<Job>)
    ensures FirstOpen(jobs).Some? ==> FirstOpen(jobs).value in jobs && Open(FirstOpen(jobs).value)
    ensures FirstOpen(jobs).None? ==> forall job :: job in jobs ==> !Open(job)
    decreases |jobs|
  {
    if jobs != [] { FirstOpenFinds(jobs[1..]); }
  }

  /** The job that takes the new comments, as stored after the poll. */
  function Recipient(db: Db, issue: nat, newId: JobId): (result: JobId)
  {
    var waiting := FirstOpen(TriageJobs(db.jobs, issue));
    if waiting.Some? then waiting.value.id else newId
  }

  lemma NovelMembers(db: Db, issue: nat, comments: seq<Comment>)
    requires Mirrored(db.jobs)
    ensures forall c :: c in Novel(db, issue, comments) <==> c in comments && !Reserved(db.jobs, issue, c)
    ensures Novel(db, issue, comments) == [] <==> forall c :: c in comments ==> Reserved(db.jobs, issue, c)
  {
    var unseen := Unseen(comments, Seen(TriageJobs(db.jobs, issue)));
    UnseenMembers(comments, Seen(TriageJobs(db.jobs, issue)));
    ArrangedSorts(unseen);
    forall c ensures c in Seen(TriageJobs(db.jobs, issue)) <==> Reserved(db.jobs, issue, c) {
      SeenIsReserved(db.jobs, issue, c);
    }
  }

  /** What the recipient holds after the poll, given what it held before. */
  function Holding(db: Db, issue: nat, comments: seq<Comment>, newId: JobId): (result: seq<Comment>)
  {
    var novel := Novel(db, issue, comments);
    var waiting := FirstOpen(TriageJobs(db.jobs, issue));
    if waiting.Some? then Arranged(Combined(waiting.value.ownerComments + novel)) else novel
  }

  lemma RecipientFound(db: Db, issue: nat, newId: JobId)
    requires Mirrored(db.jobs) && Find(db.jobs, newId).None?
    ensures var waiting := FirstOpen(TriageJobs(db.jobs, issue));
            var before := Find(db.jobs, Recipient(db, issue, newId));
            && before == waiting
            && (before.Some? ==>
                  && before.value.stage.Triage? && before.value.issue == Some(issue)
                  && before.value.status.Queued? && !before.value.hasContext)
  {
    TriageJobsFind(db.jobs, issue);
    FirstOpenFinds(TriageJobs(db.jobs, issue));
  }

  /** The job that takes new comments, as it is stored afterwards. */
  function Taken(db: Db, issue: nat, novel: seq<Comment>, waiting: Option<Job>, newId: JobId): (next: Job)
    requires issue in db.origins
  {
    if waiting.Some? then Extended(waiting.value, novel)
    else Fresh(newId, Triage, db.origins[issue].signature, db.origins[issue].incidentId, Some(issue), novel)
  }

  lemma TakeStores(db: Db, issue: nat, novel: seq<Comment>, waiting: Option<Job>, newId: JobId)
    requires Mirrored(db.jobs) && issue in db.origins && Find(db.jobs, newId).None?
    requires waiting.Some? ==> Find(db.jobs, waiting.value.id) == waiting && !waiting.value.cancelled
    ensures var next := Take(db, issue, novel, waiting, newId);
            var taken := Taken(db, issue, novel, waiting, newId);
            && Mirrored(next.jobs)
            && next == db.(jobs := next.jobs, holds := db.holds + {issue})
            && (forall k :: k != taken.id ==> Find(next.jobs, k) == Find(db.jobs, k))
            && Find(next.jobs, taken.id) == Some(taken)
  {
    SaveStores(db.jobs, Taken(db, issue, novel, waiting, newId));
  }

  /** A poll that finds something new changes one triage job of the issue, and holds the issue. */
  lemma PollTouchesRecipient(db: Db, issue: nat, comments: seq<Comment>, newId: JobId)
    requires Sound(db.jobs) && issue in db.origins && Find(db.jobs, newId).None?
    requires Novel(db, issue, comments) != []
    ensures var next := PollComments(db, issue, comments, newId);
            var taken := Taken(db, issue, Novel(db, issue, comments), FirstOpen(TriageJobs(db.jobs, issue)), newId);
            && taken.id == Recipient(db, issue, newId) && taken.stage.Triage? && taken.issue == Some(issue)
            && taken.ownerComments == Holding(db, issue, comments, newId)
            && Mirrored(next.jobs)
            && next == db.(jobs := next.jobs, holds := db.holds + {issue})
            && (forall k :: k != taken.id ==> Find(next.jobs, k) == Find(db.jobs, k))
            && Find(next.jobs, taken.id) == Some(taken)
  {
    RecipientFound(db, issue, newId);
    TakeStores(db, issue, Novel(db, issue, comments), FirstOpen(TriageJobs(db.jobs, issue)), newId);
  }

  /** The recipient keeps only its own comments and the new ones; under every key it had or gained, a version remains,
      and under every new comment's key a new version. */
  lemma HoldingMembers(db: Db, issue: nat, comments: seq<Comment>, newId: JobId)
    requires Mirrored(db.jobs) && Find(db.jobs, newId).None?
    ensures forall c :: c in Holding(db, issue, comments, newId) ==>
              ReservedBy(db.jobs, issue, c, Recipient(db, issue, newId)) || c in Novel(db, issue, comments)
  {
    RecipientFound(db, issue, newId);
    var waiting := FirstOpen(TriageJobs(db.jobs, issue));
    if waiting.Some? {
      var list := waiting.value.ownerComments + Novel(db, issue, comments);
      ArrangedSorts(Combined(list));
      CombinedMembers(list);
    }
  }

  lemma NovelIsHeld(db: Db, issue: nat, comments: seq<Comment>, newId: JobId, c: Comment) returns (d: Comment)
    requires c in Novel(db, issue, comments)
    ensures d in Holding(db, issue, comments, newId) && SameComment(d, c) && d in Novel(db, issue, comments)
  {
    var waiting := FirstOpen(TriageJobs(db.jobs, issue));
    if waiting.Some? {
      var novel := Novel(db, issue, comments);
      ArrangedSorts(Combined(waiting.value.ownerComments + novel));
      d := NewestWins(waiting.value.ownerComments, novel, c);
    } else {
      d := c;
    }
  }

  lemma HeldKeyRemains(db: Db, issue: nat, comments: seq<Comment>, newId: JobId, c: Comment) returns (d: Comment)
    requires Mirrored(db.jobs) && Find(db.jobs, newId).None?
    requires ReservedBy(db.jobs, issue, c, Recipient(db, issue, newId))
    ensures d in Holding(db, issue, comments, newId) && SameComment(d, c)
  {
    RecipientFound(db, issue, newId);
    var waiting := FirstOpen(TriageJobs(db.jobs, issue)).value;
    var list := waiting.ownerComments + Novel(db, issue, comments);
    ArrangedSorts(Combined(list));
    d := CombinedCovers(list, c);
  }

  /** Polling never gives a comment version a second triage job. */
  lemma PollKeepsOneOwner(db: Db, issue: nat, comments: seq<Comment>, newId: JobId)
    requires Sound(db.jobs) && issue in db.origins && Find(db.jobs, newId).None? && OneOwner(db.jobs)
    ensures OneOwner(PollComments(db, issue, comments, newId).jobs)
  {
    if Novel(db, issue, comments) != [] {
      var next := PollComments(db, issue, comments, newId);
      var to := Recipient(db, issue, newId);
      PollTouchesRecipient(db, issue, comments, newId);
      RecipientFound(db, issue, newId);
      HoldingMembers(db, issue, comments, newId);
      NovelMembers(db, issue, comments);
      forall n, c, a, b | ReservedBy(next.jobs, n, c, a) && ReservedBy(next.jobs, n, c, b) ensures a == b {
        if a != to { assert ReservedBy(db.jobs, n, c, a); }
        if b != to { assert ReservedBy(db.jobs, n, c, b); }
      }
    }
  }

  // ---------------------------------------------------------------- what a poll leaves behind

  /** One listing shows each comment once. */
  ghost predicate Listing(comments: seq<Comment>)
  {
    forall c, d :: c in comments && d in comments && SameComment(c, d) ==> c == d
  }

  /** After a poll some version under every visible comment's key is reserved: the visible one itself, unless a newer
      listing of the same comment was merged in with it. */
  lemma PollReserves(db: Db, issue: nat, comments: seq<Comment>, newId: JobId, c: Comment) returns (d: Comment)
    requires Sound(db.jobs) && issue in db.origins && Find(db.jobs, newId).None?
    requires c in comments
    ensures Reserved(PollComments(db, issue, comments, newId).jobs, issue, d) && SameComment(d, c)
    ensures !Reserved(db.jobs, issue, c) ==> d in comments
  {
    var next := PollComments(db, issue, comments, newId);
    var to := Recipient(db, issue, newId);
    NovelMembers(db, issue, comments);
    if Novel(db, issue, comments) == [] {
      d := c;
    } else {
      PollTouchesRecipient(db, issue, comments, newId);
      RecipientFound(db, issue, newId);
      if c in Novel(db, issue, comments) {
        d := NovelIsHeld(db, issue, comments, newId, c);
        assert ReservedBy(next.jobs, issue, d, to);
      } else {
        var id :| ReservedBy(db.jobs, issue, c, id);
        if id == to {
          d := HeldKeyRemains(db, issue, comments, newId, c);
        } else {
          d := c;
        }
        assert ReservedBy(next.jobs, issue, d, id);
      }
    }
  }

  ghost predicate DistinctKeys(list: seq<Comment>)
  {
    forall i, j :: 0 <= i < j < |list| ==> !SameComment(list[i], list[j])
  }

  lemma {:induction false} PlaceKeepsDistinct(list: seq<Comment>, c: Comment)
    requires DistinctKeys(list)
    ensures DistinctKeys(Place(list, c))
    ensures forall d :: d in Place(list, c) ==> SameComment(d, c) || d in list
    decreases |list|
  {
    if list != [] {
      if SameComment(list[0], c) {
        assert Place(list, c) == [c] + list[1..];
      } else {
        PlaceKeepsDistinct(list[1..], c);
        var tail := Place(list[1..], c);
        forall j | 0 <= j < |tail| ensures !SameComment(list[0], tail[j]) {
          assert tail[j] in tail;
        }
      }
    }
  }

  lemma {:induction false} CombinedIsDistinct(list: seq<Comment>)
    ensures DistinctKeys(Combined(list))
  {
    if list != [] {
      CombinedIsDistinct(list[..|list| - 1]);
      PlaceKeepsDistinct(Combined(list[..|list| - 1]), list[|list| - 1]);
    }
  }

  /** Every triage job of an issue lists each comment once. */
  ghost predicate ListedOnce(rows: seq<Row>)
  {
    forall k :: Find(rows, k).Some? && Find(rows, k).value.stage.Triage? ==> Listing(Find(rows, k).value.ownerComments)
  }

  lemma HoldingIsListing(db: Db, issue: nat, comments: seq<Comment>, newId: JobId)
    requires Mirrored(db.jobs) && Listing(comments)
    ensures Listing(Holding(db, issue, comments, newId))
  {
    NovelMembers(db, issue, comments);
    var waiting := FirstOpen(TriageJobs(db.jobs, issue));
    if waiting.Some? {
      var list := waiting.value.ownerComments + Novel(db, issue, comments);
      CombinedIsDistinct(list);
      ArrangedSorts(Combined(list));
    }
  }

  lemma PollKeepsListedOnce(db: Db, issue: nat, comments: seq<Comment>, newId: JobId)
    requires Sound(db.jobs) && issue in db.origins && Find(db.jobs, newId).None? && ListedOnce(db.jobs) && Listing(comments)
    ensures ListedOnce(PollComments(db, issue, comments, newId).jobs)
  {
    if Novel(db, issue, comments) != [] {
      PollTouchesRecipient(db, issue, comments, newId);
      HoldingIsListing(db, issue, comments, newId);
    }
  }

  /** Every comment version visible to a poll is reserved when it ends. */
  lemma PollReservesEveryVersion(db: Db, issue: nat, comments: seq<Comment>, newId: JobId, c: Comment)
    requires Sound(db.jobs) && issue in db.origins && Find(db.jobs, newId).None? && ListedOnce(db.jobs) && Listing(comments)
    requires c in comments
    ensures Reserved(PollComments(db, issue, comments, newId).jobs, issue, c)
  {
    var next := PollComments(db, issue, comments, newId);
    NovelMembers(db, issue, comments);
    if Novel(db, issue, comments) != [] {
      PollTouchesRecipient(db, issue, comments, newId);
      RecipientFound(db, issue, newId);
      var to := Recipient(db, issue, newId);
      if c in Novel(db, issue, comments) {
        var d := NovelIsHeld(db, issue, comments, newId, c);
        assert ReservedBy(next.jobs, issue, d, to);
      } else {
        var id :| ReservedBy(db.jobs, issue, c, id);
        if id == to {
          HoldingMembers(db, issue, comments, newId);
          var d := HeldKeyRemains(db, issue, comments, newId, c);
          assert c in Find(db.jobs, to).value.ownerComments;
        }
        assert ReservedBy(next.jobs, issue, c, id);
      }
    }
  }

  /** Polling the same listing again changes nothing: a retry or a crash reuses the reservation. */
  lemma RepeatedPollChangesNothing(db: Db, issue: nat, comments: seq<Comment>, newId: JobId, otherId: JobId)
    requires Sound(db.jobs) && issue in db.origins && Find(db.jobs, newId).None? && ListedOnce(db.jobs) && Listing(comments)
    ensures var next := PollComments(db, issue, comments, newId);
            PollComments(next, issue, comments, otherId) == next
  {
    var next := PollComments(db, issue, comments, newId);
    if Novel(db, issue, comments) != [] { PollTouchesRecipient(db, issue, comments, newId); }
    NovelMembers(next, issue, comments);
    forall c | c in comments ensures Reserved(next.jobs, issue, c) {
      PollReservesEveryVersion(db, issue, comments, newId, c);
    }
  }

  /** The hold is set exactly when the poll finds a version nobody had reserved. */
  lemma NewCommentHoldsIssue(db: Db, issue: nat, comments: seq<Comment>, newId: JobId)
    requires Sound(db.jobs) && issue in db.origins && Find(db.jobs, newId).None?
    ensures var next := PollComments(db, issue, comments, newId);
            next.holds == if exists c :: c in comments && !Reserved(db.jobs, issue, c) then db.holds + {issue} else db.holds
  {
    NovelMembers(db, issue, comments);
  }
}
