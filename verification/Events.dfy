/** The outbox of incident events: `State.ingest`, and scheduling a diagnosis for a due incident. */
module Events {
  import opened Contracts
  import opened JobStore
  import opened Tables

  /** An outbox record as received; an id or signature of the wrong type is `None`. */
  datatype Event = Event(id: Option<int>, signature: Option<string>, firstSeen: int, lastSeen: int, snapshot: string)

  datatype IngestError = InvalidEvent | ChangedEvent | InvalidCursor

  const SETTLED := {Watching, Resolved, AwaitingDeploy, Escalated}

  predicate WellFormed(e: Event) { e.id.Some? && e.id.value > 0 && e.signature.Some? }

  predicate Diagnosed(rows: seq<Row>, signature: string)
  {
    exists job :: job in Unfinished(rows) && job.signature == signature
  }

  /** A new event revises its incident; a settled or abandoned one is due again. */
  function Revised(db: Db, e: Event, now: int, debounce: int): (incident: Incident)
    requires WellFormed(e)
  {
    var signature := e.signature.value;
    if signature in db.incidents then
      var previous := db.incidents[signature];
      var seen := previous.(incidentId := e.id.value, lastSeen := e.lastSeen, snapshot := e.snapshot, count := previous.count + 1);
      if previous.status in SETTLED || (previous.status.Diagnosing? && !Diagnosed(db.jobs, signature))
      then seen.(status := Pending, due := now + debounce)
      else seen
    else Incident(e.firstSeen, e.lastSeen, e.id.value, e.snapshot, 1, Pending, now + debounce)
  }

  function Record(db: Db, e: Event, now: int, debounce: int): (result: Result<Db, IngestError>)
  {
    if !WellFormed(e) then Err(InvalidEvent)
    else if e.id.value in db.events then
      if db.events[e.id.value] != e.signature.value then Err(ChangedEvent) else Ok(db)
    else
      Ok(db.(events := db.events[e.id.value := e.signature.value],
             incidents := db.incidents[e.signature.value := Revised(db, e, now, debounce)]))
  }

  function RecordAll(db: Db, batch: seq<Event>, now: int, debounce: int): (result: Result<Db, IngestError>)
  {
    if batch == [] then Ok(db)
    else
      var before := RecordAll(db, batch[..|batch| - 1], now, debounce);
      if before.Err? then before else Record(before.value, batch[|batch| - 1], now, debounce)
  }

  predicate CursorCovers(cursor: int, batch: seq<Event>)
  {
    forall e :: e in batch && e.id.Some? ==> e.id.value <= cursor
  }

  /** The whole batch and the cursor commit together, or nothing does. */
  function Ingest(db: Db, batch: seq<Event>, cursor: Option<int>, debounce: int, now: int): (result: Result<Db, IngestError>)
  {
    var recorded := RecordAll(db, batch, now, debounce);
    if recorded.Err? then recorded
    else if cursor.None? || cursor.value < db.cursor || !CursorCovers(cursor.value, batch) then Err(InvalidCursor)
    else Ok(recorded.value.(cursor := cursor.value))
  }

  const WORKING := {Queued, Running, ResultReady, Processing, WaitingCi}

  predicate Working(rows: seq<Row>, signature: string)
  {
    exists job :: job in WithStatus(rows, WORKING) && job.signature == signature
  }

  /** One transaction of `schedule_incidents`. */
  function Schedule(db: Db, signature: string, newId: JobId, now: int): (next: Db)
  {
    if signature !in db.incidents then db
    else
      var incident := db.incidents[signature];
      if !incident.status.Pending? || incident.due > now then db
      else
        var started := if Working(db.jobs, signature) then db
                       else Put(db, Fresh(newId, Initial, signature, incident.incidentId, None, []));
        started.(incidents := started.incidents[signature := incident.(status := Diagnosing)])
  }

  function ScheduleAll(db: Db, due: seq<string>, newIds: seq<JobId>, now: int): (next: Db)
    requires |newIds| == |due|
    decreases |due|
  {
    if due == [] then db else ScheduleAll(Schedule(db, due[0], newIds[0], now), due[1..], newIds[1..], now)
  }

  lemma ScheduleFrame(db: Db, signature: string, newId: JobId, now: int)
    ensures var next := Schedule(db, signature, newId, now); next == db.(jobs := next.jobs, incidents := next.incidents)
  {
  }

  // ---------------------------------------------------------------- properties

  /** Ids of stored events that carry a signature. */
  function EventIds(events: map<int, string>, signature: string): (result: set<int>)
  {
    set id | id in events && events[id] == signature
  }

  ghost predicate Counted(db: Db)
  {
    && (forall id :: id in db.events ==> 0 < id <= db.cursor)
    && (forall id :: id in db.events ==> db.events[id] in db.incidents)
    && (forall s :: s in db.incidents ==> db.incidents[s].count == |EventIds(db.events, s)|)
  }

  ghost predicate CountsMatch(db: Db)
  {
    && (forall id :: id in db.events ==> id > 0 && db.events[id] in db.incidents)
    && (forall s :: s in db.incidents ==> db.incidents[s].count == |EventIds(db.events, s)|)
  }

  lemma NewEventId(events: map<int, string>, id: int, signature: string, other: string)
    requires id !in events
    ensures |EventIds(events[id := signature], other)| == |EventIds(events, other)| + if other == signature then 1 else 0
  {
    var added := EventIds(events[id := signature], other);
    if other == signature {
      assert added == EventIds(events, other) + {id};
    } else {
      assert added == EventIds(events, other);
    }
  }

  lemma UnknownSignature(db: Db, signature: string)
    requires CountsMatch(db) && signature !in db.incidents
    ensures |EventIds(db.events, signature)| == 0
  {
    assert forall id :: id in db.events ==> db.events[id] != signature;
    assert EventIds(db.events, signature) == {};
  }

  lemma RecordCounts(db: Db, e: Event, now: int, debounce: int)
    requires CountsMatch(db)
    ensures var next := Record(db, e, now, debounce); next.Ok? ==> CountsMatch(next.value)
  {
    var next := Record(db, e, now, debounce);
    if next.Ok? && e.id.value !in db.events {
      var s := e.signature.value;
      var revised := Revised(db, e, now, debounce);
      assert revised.count == 1 + if s in db.incidents then db.incidents[s].count else 0;
      if s !in db.incidents { UnknownSignature(db, s); }
      forall t | t in next.value.incidents
        ensures next.value.incidents[t].count == |EventIds(next.value.events, t)|
      {
        NewEventId(db.events, e.id.value, s, t);
      }
    }
  }

  lemma {:induction false} RecordAllCounts(db: Db, batch: seq<Event>, now: int, debounce: int)
    requires CountsMatch(db)
    ensures var next := RecordAll(db, batch, now, debounce); next.Ok? ==> CountsMatch(next.value)
  {
    if batch != [] {
      var init := batch[..|batch| - 1];
      RecordAllCounts(db, init, now, debounce);
      var before := RecordAll(db, init, now, debounce);
      if before.Ok? { RecordCounts(before.value, batch[|batch| - 1], now, debounce); }
    }
  }

  ghost predicate Extends(db: Db, next: Db)
  {
    && (forall id :: id in db.events ==> id in next.events && next.events[id] == db.events[id])
    && next == db.(events := next.events, incidents := next.incidents)
  }

  ghost predicate Stored(events: map<int, string>, e: Event)
  {
    WellFormed(e) && e.id.value in events && events[e.id.value] == e.signature.value
  }

  lemma {:induction false} RecordAllStores(db: Db, batch: seq<Event>, now: int, debounce: int)
    ensures var next := RecordAll(db, batch, now, debounce);
            next.Ok? ==>
              && Extends(db, next.value)
              && (forall e :: e in batch ==> Stored(next.value.events, e))
              && (forall id :: id in next.value.events ==> id in db.events || exists e :: e in batch && e.id == Some(id))
  {
    if batch != [] {
      var init := batch[..|batch| - 1];
      var last := batch[|batch| - 1];
      assert batch == init + [last];
      RecordAllStores(db, init, now, debounce);
      var next := RecordAll(db, batch, now, debounce);
      if next.Ok? {
        var before := RecordAll(db, init, now, debounce).value;
        assert next == Record(before, last, now, debounce);
        assert Extends(before, next.value);
        forall id | id in next.value.events && id !in db.events
          ensures exists e :: e in batch && e.id == Some(id)
        {
          if id !in before.events { assert last in batch; }
        }
      }
    }
  }

  lemma IngestLeavesJobs(db: Db, batch: seq<Event>, cursor: Option<int>, debounce: int, now: int)
    ensures var next := Ingest(db, batch, cursor, debounce, now);
            next.Ok? ==> next.value == db.(events := next.value.events, incidents := next.value.incidents, cursor := next.value.cursor)
  {
    RecordAllStores(db, batch, now, debounce);
  }

  /** Recording stops at the first refused event. */
  lemma {:induction false} RecordAllStops(db: Db, batch: seq<Event>, i: nat, now: int, debounce: int)
    requires i <= |batch| && RecordAll(db, batch[..i], now, debounce).Err?
    ensures RecordAll(db, batch, now, debounce) == RecordAll(db, batch[..i], now, debounce)
    decreases |batch|
  {
    if i < |batch| {
      var init := batch[..|batch| - 1];
      assert init[..i] == batch[..i];
      RecordAllStops(db, init, i, now, debounce);
    } else {
      assert batch[..i] == batch;
    }
  }

  /** Every incident counts its distinct event ids, and the cursor is monotone and covers every stored id. */
  lemma IngestCounts(db: Db, batch: seq<Event>, cursor: Option<int>, debounce: int, now: int)
    requires Counted(db)
    ensures var next := Ingest(db, batch, cursor, debounce, now);
            next.Ok? ==>
              && Counted(next.value)
              && next.value.cursor == cursor.value >= db.cursor
              && (forall e :: e in batch ==> Stored(next.value.events, e))
              && (forall id :: id in db.events ==> id in next.value.events && next.value.events[id] == db.events[id])
  {
    RecordAllCounts(db, batch, now, debounce);
    RecordAllStores(db, batch, now, debounce);
    var next := Ingest(db, batch, cursor, debounce, now);
    if next.Ok? {
      forall id | id in next.value.events && id !in db.events ensures id <= next.value.cursor {
        var e :| e in batch && e.id == Some(id);
      }
    }
  }

  lemma {:induction false} ReplayRecordsNothing(db: Db, batch: seq<Event>, now: int, debounce: int)
    requires forall e :: e in batch ==> Stored(db.events, e)
    ensures RecordAll(db, batch, now, debounce) == Ok(db)
  {
    if batch != [] {
      ReplayRecordsNothing(db, batch[..|batch| - 1], now, debounce);
      assert batch[|batch| - 1] in batch;
    }
  }

  /** Any batch drawn from an ingested one replays without effect: at most the cursor moves on, and never back. */
  lemma IngestIsIdempotent(db: Db, batch: seq<Event>, cursor: Option<int>, debounce: int, now: int,
                           again: seq<Event>, nextCursor: Option<int>, later: int)
    requires Counted(db)
    requires Ingest(db, batch, cursor, debounce, now).Ok?
    requires forall e :: e in again ==> e in batch
    ensures var done := Ingest(db, batch, cursor, debounce, now).value;
            Ingest(done, again, nextCursor, debounce, later)
            == if nextCursor.Some? && nextCursor.value >= cursor.value
               then Ok(done.(cursor := nextCursor.value))
               else Err(InvalidCursor)
  {
    IngestCounts(db, batch, cursor, debounce, now);
    var done := Ingest(db, batch, cursor, debounce, now).value;
    ReplayRecordsNothing(done, again, later, debounce);
  }

  /** An incident that is due a diagnosis, or has one under way. */
  ghost predicate Attended(db: Db, signature: string)
  {
    signature in db.incidents
    && var status := db.incidents[signature].status;
       status.Pending? || (status.Diagnosing? && Diagnosed(db.jobs, signature))
  }

  /** One record attends to its own signature when its event is new, and neglects no other. */
  lemma RecordAttends(db: Db, e: Event, now: int, debounce: int, signature: string)
    requires Record(db, e, now, debounce).Ok?
    requires Attended(db, signature) || (e.signature == Some(signature) && e.id.value !in db.events)
    ensures Attended(Record(db, e, now, debounce).value, signature)
  {
    var next := Record(db, e, now, debounce).value;
    assert next.jobs == db.jobs;
  }

  lemma {:induction false} RecordingAttends(db: Db, batch: seq<Event>, now: int, debounce: int, e: Event)
    requires RecordAll(db, batch, now, debounce).Ok?
    requires e in batch && e.id.Some? && e.id.value !in db.events
    ensures e.signature.Some? && Attended(RecordAll(db, batch, now, debounce).value, e.signature.value)
  {
    var init, last := batch[..|batch| - 1], batch[|batch| - 1];
    assert batch == init + [last];
    var before := RecordAll(db, init, now, debounce).value;
    RecordAllStores(db, init, now, debounce);
    if e in init {
      RecordingAttends(db, init, now, debounce, e);
      RecordAttends(before, last, now, debounce, e.signature.value);
    } else if e.id.value in before.events {
      var twin :| twin in init && twin.id == e.id;
      RecordingAttends(db, init, now, debounce, twin);
      assert Stored(before.events, twin);
      RecordAttends(before, last, now, debounce, twin.signature.value);
    } else {
      RecordAttends(before, last, now, debounce, e.signature.value);
    }
  }

  /** After a batch is ingested, every event of it that was fresh has its incident pending, or diagnosing with an unfinished
      job of its signature, whatever later events of the batch did. */
  lemma FreshEventsAreAttended(db: Db, batch: seq<Event>, cursor: Option<int>, debounce: int, now: int, e: Event)
    requires Ingest(db, batch, cursor, debounce, now).Ok?
    requires e in batch && e.id.Some? && e.id.value !in db.events
    ensures e.signature.Some? && Attended(Ingest(db, batch, cursor, debounce, now).value, e.signature.value)
  {
    RecordingAttends(db, batch, now, debounce, e);
    var recorded := RecordAll(db, batch, now, debounce).value;
    assert Ingest(db, batch, cursor, debounce, now).value == recorded.(cursor := cursor.value);
  }
}
