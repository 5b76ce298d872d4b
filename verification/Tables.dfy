/** The controller's durable tables and settings, as one value that a transaction replaces at once. */
module Tables {
  import opened Contracts
  import opened JobStore
  import ProviderQuota

  datatype StartKind = ShortStart | DeepStart

  datatype Start = Start(job: JobId, kind: StartKind, at: int)

  datatype Launch = Launch(id: nat, job: JobId, at: int)

  datatype ResetReceipt = ResetReceipt(request: string, at: int, previousCount: nat, through: nat, released: nat)

  datatype IncidentStatus = Pending | Diagnosing | Watching | Resolved | AwaitingDeploy | Escalated

  datatype Incident = Incident(
    firstSeen: int, lastSeen: int, incidentId: int, snapshot: string, count: nat, status: IncidentStatus, due: int)

  datatype Origin = Origin(signature: string, incidentId: int)

  datatype Dispatch = Dispatch(issue: nat, job: JobId)

  /** A workflow execution that may need a rerun; `checkId` is the execution check's own number. */
  datatype Receipt = Receipt(checkId: nat, pr: nat, headSha: string, runId: nat, runAttempt: nat,
                             startedAt: int, completedAt: int, retryAfter: ProviderQuota.Delay)

  datatype Phase = Waiting | Uncertain | RunningReview | AwaitingReceipt | Complete | Obsolete | HumanNeeded

  datatype Wait = Wait(pr: nat, receipt: Receipt, phase: Phase, nextAt: int, requestedAt: int, finishedAt: int)

  datatype Db = Db(
    enabled: bool,
    cursor: int,
    events: map<int, string>,
    incidents: map<string, Incident>,
    jobs: seq<Row>,
    starts: seq<Start>,
    launches: seq<Launch>,
    resets: map<string, ResetReceipt>,
    reset: Option<ResetReceipt>,
    holds: set<nat>,
    quota: Option<ProviderQuota.Quota>,
    slot: Option<nat>,
    waits: seq<Wait>,
    origins: map<nat, Origin>,
    dispatches: map<string, Dispatch>,
    reservations: map<(nat, string), JobId>)

  const EMPTY := Db(false, 0, map[], map[], [], [], [], map[], None, {}, None, None, [], map[], map[], map[])

  /** The only field of a job record through which a hold is looked up is its issue. */
  predicate OnHold(db: Db, issue: Option<nat>) { issue.Some? && issue.value in db.holds }

  /** `blocked`: owner feedback stops every job of the issue except its triage. */
  predicate Blocked(db: Db, job: Job) { !job.stage.Triage? && OnHold(db, job.issue) }

  predicate ProviderAvailable(db: Db, now: int) { db.slot.None? && ProviderQuota.Open(db.quota, now) }

  function Put(db: Db, job: Job): (next: Db) { db.(jobs := Save(db.jobs, job)) }
}
