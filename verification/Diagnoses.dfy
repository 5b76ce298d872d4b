/** What a fresh event and a due incident start: revisions, waiting times and diagnosis jobs. */
module Diagnoses {
  import opened Contracts
  import opened JobStore
  import opened Tables
  import opened Events
  import Recovery

  /** A stored job works on the signature in one of these states. */
  ghost predicate WorksOn(rows: seq<Row>, k: JobId, signature: string, statuses: set<Status>)
  {
    Find(rows, k).Some? && Find(rows, k).value.signature == signature && Find(rows, k).value.status in statuses
  }

  lemma ListedWorks(rows: seq<Row>, keepRow: Row -> bool, signature: string, statuses: set<Status>)
    requires Mirrored(rows)
    requires forall i :: 0 <= i < |rows| ==> (keepRow(rows[i]) <==> rows[i].data.status in statuses)
    ensures (exists job :: job in Select(rows, keepRow) && job.signature == signature)
            <==> exists k :: WorksOn(rows, k, signature, statuses)
  {
    SelectFinds(rows, keepRow, (job: Job) => job.status in statuses);
    if job :| job in Select(rows, keepRow) && job.signature == signature {
      assert WorksOn(rows, job.id, signature, statuses);
    }
    if k :| WorksOn(rows, k, signature, statuses) {
      FindIsRow(rows, k);
      assert Find(rows, k).value in Select(rows, keepRow);
    }
  }

  const UNFINISHED: set<Status> := {Queued, Running, Processing, ResultReady, WaitingCi}

  /** Both questions ask for a job of the signature in one of the same five states. */
  lemma WorkingExactly(rows: seq<Row>, signature: string)
    requires Mirrored(rows)
    ensures Working(rows, signature) <==> exists k :: WorksOn(rows, k, signature, UNFINISHED)
    ensures Diagnosed(rows, signature) <==> exists k :: WorksOn(rows, k, signature, UNFINISHED)
  {
    ListedWorks(rows, (row: Row) => row.statusColumn in WORKING, signature, UNFINISHED);
    ListedWorks(rows, (row: Row) => row.statusColumn !in TERMINAL, signature, UNFINISHED);
  }

  // ---------------------------------------------------------------- a fresh event

  /** The event is on record: the incident's latest sighting, counted once more. */
  ghost predicate Sighted(e: Event, incident: Incident, count: nat, firstSeen: int)
    requires WellFormed(e)
  {
    && incident.incidentId == e.id.value && incident.lastSeen == e.lastSeen && incident.snapshot == e.snapshot
    && incident.count == count && incident.firstSeen == firstSeen
  }

  /** An incident that someone is still expected to look at. */
  ghost predicate Attended(rows: seq<Row>, incident: Incident, signature: string)
  {
    incident.status == Pending || (incident.status == Diagnosing && exists k :: WorksOn(rows, k, signature, UNFINISHED))
  }

  /** A fresh event updates its signature's incident and no other. A new incident, and one that nobody attends to, is due
      after the debounce; one that waits or is being diagnosed keeps its state and its time. */
  lemma FreshEventRevises(db: Db, e: Event, now: int, debounce: int)
    requires Mirrored(db.jobs) && WellFormed(e) && e.id.value !in db.events
    ensures Record(db, e, now, debounce).Ok?
    ensures var next, signature := Record(db, e, now, debounce).value, e.signature.value;
            && next == db.(events := next.events, incidents := next.incidents)
            && next.events == db.events[e.id.value := signature]
            && next.incidents.Keys == db.incidents.Keys + {signature}
            && (forall s :: s in db.incidents && s != signature ==> next.incidents[s] == db.incidents[s])
            && var incident := next.incidents[signature];
               if signature !in db.incidents then
                 Sighted(e, incident, 1, e.firstSeen) && incident.status == Pending && incident.due == now + debounce
               else
                 var previous := db.incidents[signature];
                 && Sighted(e, incident, previous.count + 1, previous.firstSeen)
                 && (if Attended(db.jobs, previous, signature)
                     then incident.status == previous.status && incident.due == previous.due
                     else incident.status == Pending && incident.due == now + debounce)
  {
    WorkingExactly(db.jobs, e.signature.value);
  }

  /** A replayed event changes nothing; an id that comes back under another signature, or a malformed event, is refused. */
  lemma OtherEventsAreRefused(db: Db, e: Event, now: int, debounce: int)
    ensures e.id.None? || e.id.value <= 0 || e.signature.None? ==> Record(db, e, now, debounce) == Err(InvalidEvent)
    ensures e.id.Some? && e.id.value > 0 && e.signature.Some? && e.id.value in db.events ==>
              Record(db, e, now, debounce) == if db.events[e.id.value] == e.signature.value then Ok(db) else Err(ChangedEvent)
  {
  }

  // ---------------------------------------------------------------- a due incident

  /** A diagnosis nobody has worked on. */
  ghost predicate NewDiagnosis(job: Job, id: JobId, signature: string, incidentId: int)
  {
    && job.id == id && job.stage == Initial && job.signature == signature && job.incidentId == incidentId && job.issue == None
    && job.status == Queued && !job.cancelled && job.activeSeconds == 0 && job.rounds == 0 && job.attempts == 0 && job.nextAt == 0
    && job.lease == Never && !job.quotaResume && !job.hasResult && !job.hasContext && !job.awaitsLaunch && job.ownerComments == []
  }

  /** A pending incident whose time has come. */
  ghost predicate IsDue(db: Db, signature: string, now: int)
  {
    signature in db.incidents && db.incidents[signature].status == Pending && db.incidents[signature].due <= now
  }

  /** A due incident is being diagnosed from now on: by the job at work on its signature, or by a new one. An incident that is
      not due is left alone. */
  lemma DueIncidentIsDiagnosed(db: Db, signature: string, newId: JobId, now: int)
    requires Sound(db.jobs) && Find(db.jobs, newId).None?
    ensures !IsDue(db, signature, now) ==> Schedule(db, signature, newId, now) == db
    ensures IsDue(db, signature, now) ==>
              var next, busy := Schedule(db, signature, newId, now), exists k :: WorksOn(db.jobs, k, signature, UNFINISHED);
              && next == db.(jobs := next.jobs, incidents := db.incidents[signature := db.incidents[signature].(status := Diagnosing)])
              && (busy ==> next.jobs == db.jobs)
              && (!busy ==>
                    && Find(next.jobs, newId).Some?
                    && NewDiagnosis(Find(next.jobs, newId).value, newId, signature, db.incidents[signature].incidentId)
                    && Sound(next.jobs) && forall k :: k != newId ==> Find(next.jobs, k) == Find(db.jobs, k))
  {
    WorkingExactly(db.jobs, signature);
    if IsDue(db, signature, now) {
      Recovery.SaveReplaces(db.jobs, Fresh(newId, Initial, signature, db.incidents[signature].incidentId, None, []));
    }
  }

  /** An incident, diagnosed from now on if it is due. */
  ghost function Begun(incident: Incident, now: int): (next: Incident)
  {
    if incident.status == Pending && incident.due <= now then incident.(status := Diagnosing) else incident
  }

  lemma SchedulingBegins(db: Db, scheduled: string, newId: JobId, now: int, signature: string)
    requires signature in db.incidents
    ensures var next := Schedule(db, scheduled, newId, now);
            && signature in next.incidents
            && next.incidents[signature]
               == if signature == scheduled then Begun(db.incidents[signature], now) else db.incidents[signature]
  {
    ScheduleFrame(db, scheduled, newId, now);
  }

  /** Every incident of a pass that is due is being diagnosed afterwards, and no other incident changes. */
  lemma {:induction false} DueIncidentsAreDiagnosed(db: Db, due: seq<string>, newIds: seq<JobId>, now: int, signature: string)
    requires |newIds| == |due| && signature in db.incidents
    ensures var next := ScheduleAll(db, due, newIds, now);
            && signature in next.incidents
            && next.incidents[signature] == if signature in due then Begun(db.incidents[signature], now) else db.incidents[signature]
    decreases |due|
  {
    if due != [] {
      SchedulingBegins(db, due[0], newIds[0], now, signature);
      DueIncidentsAreDiagnosed(Schedule(db, due[0], newIds[0], now), due[1..], newIds[1..], now, signature);
      assert signature in due <==> signature == due[0] || signature in due[1..];
    }
  }

  // ---------------------------------------------------------------- which batches are accepted

  /** An event of the batch that can be recorded after the ones before it: well formed, and under one signature for ever. */
  ghost predicate Recordable(events: map<int, string>, batch: seq<Event>, k: nat)
    requires k < |batch|
  {
    var e := batch[k];
    && e.id.Some? && e.id.value > 0 && e.signature.Some?
    && (e.id.value in events ==> events[e.id.value] == e.signature.value)
    && forall j :: 0 <= j < k && batch[j].id == e.id ==> batch[j].signature == e.signature
  }

  ghost predicate AllRecordable(events: map<int, string>, batch: seq<Event>)
  {
    forall k :: 0 <= k < |batch| ==> Recordable(events, batch, k)
  }

  lemma RecordableNext(events: map<int, string>, batch: seq<Event>)
    requires batch != []
    ensures var n := |batch| - 1;
            AllRecordable(events, batch) <==> AllRecordable(events, batch[..n]) && Recordable(events, batch, n)
  {
    var n := |batch| - 1;
    forall k: nat | k < n ensures Recordable(events, batch[..n], k) <==> Recordable(events, batch, k) {
      assert forall j :: 0 <= j <= k ==> batch[..n][j] == batch[j];
    }
  }

  /** The last event is accepted after the others exactly when it is recordable after them. */
  lemma LastIsRecordable(db: Db, before: Db, batch: seq<Event>, now: int, debounce: int)
    requires batch != [] && RecordAll(db, batch[..|batch| - 1], now, debounce) == Ok(before)
    ensures Record(before, batch[|batch| - 1], now, debounce).Ok? <==> Recordable(db.events, batch, |batch| - 1)
  {
    var n := |batch| - 1;
    var init, e := batch[..n], batch[n];
    RecordAllStores(db, init, now, debounce);
    assert forall j :: 0 <= j < n ==> batch[j] in init && Stored(before.events, batch[j]);
    if WellFormed(e) && e.id.value in before.events && e.id.value !in db.events {
      var twin :| twin in init && twin.id == e.id;
      var j :| 0 <= j < |init| && init[j] == twin;
      assert batch[j] == twin;
    }
  }

  lemma {:induction false} BatchIsRecordedExactly(db: Db, batch: seq<Event>, now: int, debounce: int)
    ensures RecordAll(db, batch, now, debounce).Ok? <==> AllRecordable(db.events, batch)
  {
    if batch != [] {
      var n := |batch| - 1;
      BatchIsRecordedExactly(db, batch[..n], now, debounce);
      RecordableNext(db.events, batch);
      var before := RecordAll(db, batch[..n], now, debounce);
      if before.Ok? { LastIsRecordable(db, before.value, batch, now, debounce); }
    }
  }

  /** A batch is accepted exactly when each of its events can be recorded after the ones before it, and the cursor is an
      integer that goes back behind neither the old one nor an event of the batch; the new cursor is then stored. */
  lemma IngestAcceptsExactly(db: Db, batch: seq<Event>, cursor: Option<int>, debounce: int, now: int)
    ensures Ingest(db, batch, cursor, debounce, now).Ok? <==>
              && AllRecordable(db.events, batch)
              && cursor.Some? && cursor.value >= db.cursor
              && forall e :: e in batch && e.id.Some? ==> e.id.value <= cursor.value
    ensures Ingest(db, batch, cursor, debounce, now).Ok? ==> Ingest(db, batch, cursor, debounce, now).value.cursor == cursor.value
  {
    BatchIsRecordedExactly(db, batch, now, debounce);
  }
}
