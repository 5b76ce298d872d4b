/** Every run of the controller: service steps, operator commands, outside events, crashes and restarts. */
module Runs {
  import opened Contracts
  import opened JobStore
  import opened Tables
  import opened Scheduling
  import opened Lifecycle
  import D = Dispatching
  import E = Events
  import R = ReviewResumption
  import O = OwnerComments

  /** What dies with the process: whether it is up, and the job whose agent it is running. */
  datatype Service = Down | Up(agent: Option<JobId>)

  /** An agent's start as the world saw it, whatever the tables say of it, or a reset of the short-run allowance. */
  datatype Happening = Began(job: JobId, short: bool, counted: bool, at: int) | AllowanceReset

  /** `reruns` is the history of review reruns requested from GitHub, `log` that of starts and resets. */
  datatype World = World(db: Db, service: Service, now: int, reruns: seq<Receipt>, log: seq<Happening>)

  /** The start of a job read just before it; a short run that resumes after a quota failure was counted the first time. */
  function Begun(job: Job, at: int): (h: Happening) { Began(job.id, Short(job), Short(job) && !job.quotaResume, at) }

  function BegunIn(db: Db, id: JobId, at: int): (more: seq<Happening>)
  {
    if Find(db.jobs, id).Some? then [Begun(Find(db.jobs, id).value, at)] else []
  }

  datatype Op =
    | Tick(seconds: nat)
    // operator commands, at any time
    | SetEnabled(enabled: bool)
    | Cancel(id: JobId)
    | ResetShortQuota(request: string)
    | Enqueue(issue: nat, event: string, generation: Option<string>, newId: JobId)
    // the service
    | Ingest(batch: seq<E.Event>, cursor: Option<int>, debounce: int)
    | Schedule(signature: string, newId: JobId)
    | RecordOrigin(issue: nat, origin: Origin)
    | SettleIncident(signature: string, status: IncidentStatus)
    | PollComments(issue: nat, comments: seq<Comment>, newId: JobId)
    | Decide(triage: JobId, action: O.Action, repair: Option<JobId>, published: bool, newId: JobId)
    | PollReviews(answers: R.Answers)
    | EditJob(id: JobId, edit: Edit)
    | StartRun(id: JobId)
    | EndRun(outcome: Outcome)
    // the process
    | Crash
    | Restart
    | RestartDies(writes: nat)

  /** `uuid4` never repeats an id. */
  predicate Unused(db: Db, id: JobId) { Find(db.jobs, id).None? }

  /** Steps the world can take: fresh ids are new, only triage decides, only repairs are continued, and only a live
      service with no agent starts one. */
  ghost predicate Enabled(w: World, op: Op)
  {
    match op
    case Tick(_) => true
    case SetEnabled(_) => true
    case Cancel(_) => true
    case ResetShortQuota(_) => true
    case Enqueue(_, _, _, newId) => Unused(w.db, newId)
    case Ingest(_, _, _) => w.service.Up?
    case Schedule(_, newId) => w.service.Up? && Unused(w.db, newId)
    case RecordOrigin(issue, _) => issue !in w.db.origins
    case SettleIncident(_, status) => w.service.Up? && status in E.SETTLED
    case PollComments(_, _, newId) => w.service.Up? && Unused(w.db, newId)
    case Decide(triage, _, repair, _, newId) =>
      && w.service.Up? && Unused(w.db, newId)
      && (Find(w.db.jobs, triage).Some? ==> Find(w.db.jobs, triage).value.stage.Triage?)
      && (repair.Some? && Find(w.db.jobs, repair.value).Some? ==> Repair(Find(w.db.jobs, repair.value).value))
    case PollReviews(_) => w.service.Up?
    case EditJob(_, _) => w.service.Up?
    case StartRun(_) => w.service == Up(None)
    case EndRun(_) => w.service.Up? && w.service.agent.Some?
    case Crash => w.service.Up?
    case Restart => w.service.Down?
    case RestartDies(_) => w.service.Down?
  }

  function Cancelled(rows: seq<Row>, id: JobId): (next: seq<Row>)
  {
    Update(rows, id, D.Cancelling())
  }

  function Step(w: World, op: Op): (next: World)
  {
    match op
    case Tick(seconds) => w.(now := w.now + seconds)
    case SetEnabled(enabled) => w.(db := w.db.(enabled := enabled))
    case Cancel(id) => w.(db := w.db.(jobs := Cancelled(w.db.jobs, id)))
    case ResetShortQuota(request) =>
      w.(db := ResetInitialQuota(w.db, request, w.now).0,
         log := w.log + if request in w.db.resets then [] else [AllowanceReset])
    case Enqueue(issue, event, generation, newId) =>
      (match D.Enqueue(w.db, issue, event, generation, newId) case Ok(r) => w.(db := r.0) case Err(_) => w)
    case Ingest(batch, cursor, debounce) =>
      (match E.Ingest(w.db, batch, cursor, debounce, w.now) case Ok(db) => w.(db := db) case Err(_) => w)
    case Schedule(signature, newId) => w.(db := E.Schedule(w.db, signature, newId, w.now))
    case RecordOrigin(issue, origin) => w.(db := w.db.(origins := w.db.origins[issue := origin]))
    case SettleIncident(signature, status) =>
      if signature !in w.db.incidents then w
      else w.(db := w.db.(incidents := w.db.incidents[signature := w.db.incidents[signature].(status := status)]))
    case PollComments(issue, comments, newId) => w.(db := O.PollComments(w.db, issue, comments, newId))
    case Decide(triage, action, repair, published, newId) =>
      w.(db := O.Decide(w.db, triage, action, repair, published, newId))
    case PollReviews(answers) =>
      var polled := R.Poll(w.db, answers, w.now);
      w.(db := polled.db, reruns := w.reruns + if polled.rerun.Some? then [polled.rerun.value] else [])
    case EditJob(id, edit) => w.(db := w.db.(jobs := Update(w.db.jobs, id, Editing(edit))))
    case StartRun(id) =>
      var prepared := PrepareRun(w.db, id, w.now);
      w.(db := prepared.0, service := if prepared.1 then Up(Some(id)) else w.service,
         log := w.log + if prepared.1 then BegunIn(w.db, id, w.now) else [])
    case EndRun(outcome) =>
      if w.service.Up? && w.service.agent.Some?
      then w.(db := CompleteRun(w.db, w.service.agent.value, outcome, w.now), service := Up(None))
      else w
    case Crash => w.(service := Down)
    case Restart => w.(db := Recover(w.db, w.now), service := Up(None))
    case RestartDies(writes) => w.(db := RecoverPart(w.db, w.now, writes))
  }

  /** Worlds visited from `w` by taking each step in turn. */
  function Run(w: World, ops: seq<Op>): (next: World)
    decreases |ops|
  {
    if ops == [] then w else Run(Step(w, ops[0]), ops[1..])
  }

  ghost predicate Possible(w: World, ops: seq<Op>)
    decreases |ops|
  {
    ops == [] || (Enabled(w, ops[0]) && Possible(Step(w, ops[0]), ops[1..]))
  }

  /** An empty installation before its first start. */
  predicate Installed(w: World) { w.db == EMPTY && w.service.Down? && w.now >= 0 && w.reruns == [] && w.log == [] }
}
