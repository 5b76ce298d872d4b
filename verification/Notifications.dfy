/** Coalescing owner notifications: one message per identity, even when acknowledgements are lost. */
module Notifications {
  import opened Contracts

  /** A transport key and an identity are both fingerprints; new notifications use their identity as key. */
  type Key = string

  datatype State = Pending | Queued | Sending | Sent | Ambiguous | Failed | Superseded

  /** Old records carry no identity until the first coalescing computes it. */
  datatype Note = Note(identity: Option<Key>, state: State, posted: bool)

  type Table = map<Key, Note>

  const FINAL := {Sent, Ambiguous}

  // ---------------------------------------------------------------- coalesce_pending

  function Identified(note: Note, key: Key, legacy: map<Key, Key>): (next: Note)
  {
    if note.identity.Some? then note
    else note.(identity := Some(if key in legacy then legacy[key] else key))
  }

  function IdentifyAll(table: Table, legacy: map<Key, Key>): (next: Table)
  {
    map k | k in table :: Identified(table[k], k, legacy)
  }

  /** Preference within a group: final before open, posted before unposted, live before superseded. */
  function Rank(note: Note): (n: nat)
  {
    (if note.state in FINAL then 0 else 4) + (if note.posted then 0 else 2) + (if note.state.Superseded? then 1 else 0)
  }

  /** The first record of least rank with an identity, in listing order. */
  function Primary(order: seq<Key>, table: Table, identity: Key): (key: Option<Key>)
    requires forall k :: k in order ==> k in table
  {
    if order == [] then None
    else
      var last := order[|order| - 1];
      var before := Primary(order[..|order| - 1], table, identity);
      if table[last].identity != Some(identity) then before
      else if before.Some? && before.value in table && Rank(table[before.value]) <= Rank(table[last]) then before
      else Some(last)
  }

  predicate Retired(order: seq<Key>, table: Table, k: Key)
    requires forall i :: i in order ==> i in table
    requires k in table && table[k].identity.Some?
  {
    Primary(order, table, table[k].identity.value) != Some(k) && !table[k].posted
  }

  ghost predicate Lists(order: seq<Key>, table: Table)
  {
    (forall k :: k in order <==> k in table) && (forall i, j :: 0 <= i < j < |order| ==> order[i] != order[j])
  }

  /** Every record of a group but its primary is superseded, unless it may already be queued. */
  function Coalesced(order: seq<Key>, table: Table, legacy: map<Key, Key>): (next: Table)
    requires Lists(order, table)
  {
    var identified := IdentifyAll(table, legacy);
    map k | k in identified ::
      if Retired(order, identified, k) then identified[k].(state := Superseded) else identified[k]
  }

  // ---------------------------------------------------------------- notify and poll_notifications

  predicate Known(table: Table, identity: Key)
  {
    exists k :: k in table && table[k].identity == Some(identity)
  }

  function Notify(order: seq<Key>, table: Table, legacy: map<Key, Key>, identity: Key): (next: Table)
    requires Lists(order, table)
  {
    var current := Coalesced(order, table, legacy);
    if Known(current, identity) then current else current[identity := Note(Some(identity), Pending, false)]
  }

  /** A receipt as the transport validated it. */
  datatype Receipt = Receipt(state: State, sameKey: bool)

  /** The transport's answers for one record: to a lookup, and to a POST when the lookup finds nothing. */
  datatype Exchange = Exchange(lookup: Option<Receipt>, post: Option<Receipt>)

  predicate Open(note: Note) { note.state !in {Sent, Ambiguous, Superseded} }

  predicate Posts(note: Note, exchange: Exchange) { !note.posted && exchange.lookup.None? }

  function Answer(note: Note, exchange: Exchange): (result: Option<Receipt>)
  {
    if Posts(note, exchange) then exchange.post else exchange.lookup
  }

  function Polled(note: Note, exchange: Exchange): (next: Note)
  {
    var answer := Answer(note, exchange);
    if answer.None? || !answer.value.sameKey then note
    else note.(state := answer.value.state, posted := true)
  }

  /** What the outside has seen: the table, and every transport key ever POSTed. */
  datatype Outbox = Outbox(table: Table, sent: set<Key>)

  function PollOne(box: Outbox, key: Key, exchange: Exchange): (next: Outbox)
  {
    if key !in box.table || !Open(box.table[key]) then box
    else
      Outbox(box.table[key := Polled(box.table[key], exchange)],
             if Posts(box.table[key], exchange) then box.sent + {key} else box.sent)
  }

  /** Records in listing order; an exception may end the walk early, so any prefix can be visited. */
  function PollEach(box: Outbox, order: seq<Key>, exchanges: map<Key, Exchange>): (next: Outbox)
  {
    if order == [] then box
    else
      var key := order[|order| - 1];
      var before := PollEach(box, order[..|order| - 1], exchanges);
      PollOne(before, key, if key in exchanges then exchanges[key] else Exchange(None, None))
  }

  datatype Step =
    | Notifying(order: seq<Key>, legacy: map<Key, Key>, identity: Key)
    | Polling(order: seq<Key>, legacy: map<Key, Key>, visited: nat, exchanges: map<Key, Exchange>)

  /** Listings are complete; transport receipts carry transport states; two fingerprints never collide. */
  ghost predicate Enabled(box: Outbox, step: Step)
  {
    match step
    case Notifying(order, legacy, identity) =>
      Lists(order, box.table) && (identity in box.table ==> Identified(box.table[identity], identity, legacy).identity == Some(identity))
    case Polling(order, legacy, visited, exchanges) =>
      && Lists(order, box.table) && visited <= |order|
      && forall k :: k in exchanges ==>
           && (exchanges[k].lookup.Some? ==> !exchanges[k].lookup.value.state.Superseded?)
           && (exchanges[k].post.Some? ==> !exchanges[k].post.value.state.Superseded?)
  }

  function Next(box: Outbox, step: Step): (next: Outbox)
    requires Lists(step.order, box.table)
  {
    match step
    case Notifying(order, legacy, identity) => box.(table := Notify(order, box.table, legacy, identity))
    case Polling(order, legacy, visited, exchanges) =>
      PollEach(box.(table := Coalesced(order, box.table, legacy)), if visited <= |order| then order[..visited] else order, exchanges)
  }

  // ---------------------------------------------------------------- coalescing

  /** Records the controller itself can have produced. */
  ghost predicate Ordinary(table: Table)
  {
    forall k :: k in table ==>
      && (table[k].state.Superseded? ==> !table[k].posted)
      && (table[k].state in FINAL ==> table[k].posted)
  }

  predicate Live(note: Note) { !note.state.Superseded? }

  lemma {:induction false} PrimaryIsBest(order: seq<Key>, table: Table, identity: Key)
    requires forall k :: k in order ==> k in table
    ensures var p := Primary(order, table, identity);
            && (p.Some? ==> p.value in order && table[p.value].identity == Some(identity))
            && (forall k :: k in order && table[k].identity == Some(identity) ==> p.Some? && Rank(table[p.value]) <= Rank(table[k]))
  {
    if order != [] {
      assert order == order[..|order| - 1] + [order[|order| - 1]];
      PrimaryIsBest(order[..|order| - 1], table, identity);
    }
  }

  ghost predicate InGroup(table: Table, k: Key, identity: Key) { k in table && table[k].identity == Some(identity) }

  /** A live record of the group whose message is not known to be queued. */
  ghost predicate WaitsIn(table: Table, k: Key, identity: Key) { InGroup(table, k, identity) && Live(table[k]) && !table[k].posted }

  lemma CoalescingKeepsLive(order: seq<Key>, table: Table, legacy: map<Key, Key>, identity: Key)
    requires Lists(order, table) && Ordinary(table)
    ensures (exists k :: InGroup(IdentifyAll(table, legacy), k, identity) && Live(table[k])) ==>
              exists k :: InGroup(Coalesced(order, table, legacy), k, identity) && Live(Coalesced(order, table, legacy)[k])
  {
    var identified := IdentifyAll(table, legacy);
    var next := Coalesced(order, table, legacy);
    PrimaryIsBest(order, identified, identity);
    var p := Primary(order, identified, identity);
    if k :| InGroup(identified, k, identity) && Live(table[k]) {
      assert k in order && Rank(identified[p.value]) <= Rank(identified[k]);
      assert InGroup(next, p.value, identity) && Live(next[p.value]);
    }
  }

  lemma OthersAreSettled(order: seq<Key>, table: Table, legacy: map<Key, Key>, identity: Key, k: Key)
    requires Lists(order, table) && Ordinary(table)
    requires var next := Coalesced(order, table, legacy); InGroup(next, k, identity) && Live(next[k]) && !next[k].posted
    ensures Primary(order, IdentifyAll(table, legacy), identity) == Some(k)
    ensures forall a :: InGroup(Coalesced(order, table, legacy), a, identity) ==> !Coalesced(order, table, legacy)[a].posted
  {
    PrimaryIsBest(order, IdentifyAll(table, legacy), identity);
  }

  /** After coalescing, a group with any live record keeps one; it has at most one live unposted record; and none once any
      of its records was posted. */
  lemma CoalescingLeavesOne(order: seq<Key>, table: Table, legacy: map<Key, Key>, identity: Key)
    requires Lists(order, table) && Ordinary(table)
    ensures var next := Coalesced(order, table, legacy);
            && Ordinary(next)
            && ((exists k :: InGroup(IdentifyAll(table, legacy), k, identity) && Live(table[k])) ==>
                  exists k :: InGroup(next, k, identity) && Live(next[k]))
            && (forall a, b :: WaitsIn(next, a, identity) && WaitsIn(next, b, identity) ==> a == b)
            && (forall a, b :: InGroup(next, a, identity) && InGroup(next, b, identity) && next[a].posted && Live(next[b]) ==>
                  next[b].posted)
  {
    var identified := IdentifyAll(table, legacy);
    var next := Coalesced(order, table, legacy);
    CoalescingKeepsLive(order, table, legacy, identity);
    forall k | WaitsIn(next, k, identity)
      ensures Primary(order, identified, identity) == Some(k) && forall a :: InGroup(next, a, identity) ==> !next[a].posted
    {
      OthersAreSettled(order, table, legacy, identity, k);
    }
  }

  /** In a coalesced table the primary of a waiting record's group is that record. */
  lemma WaitingIsPrimary(order: seq<Key>, table: Table, k: Key, identity: Key)
    requires Lists(order, table) && WaitsIn(table, k, identity)
    requires forall a, b :: WaitsIn(table, a, identity) && WaitsIn(table, b, identity) ==> a == b
    requires forall a, b :: InGroup(table, a, identity) && InGroup(table, b, identity) && table[a].posted && Live(table[b]) ==>
               table[b].posted
    ensures Primary(order, table, identity) == Some(k)
  {
    PrimaryIsBest(order, table, identity);
    var p := Primary(order, table, identity).value;
    assert InGroup(table, p, identity) && InGroup(table, k, identity);
    assert Rank(table[p]) <= Rank(table[k]);
    assert !table[p].posted;
    assert WaitsIn(table, p, identity);
  }

  lemma CoalescedIsIdentified(order: seq<Key>, table: Table, legacy: map<Key, Key>, later: map<Key, Key>)
    requires Lists(order, table)
    ensures var next := Coalesced(order, table, legacy);
            && next.Keys == table.Keys
            && (forall k :: k in next ==> next[k].identity.Some? && next[k].posted == table[k].posted)
            && IdentifyAll(next, later) == next
  {
    var next := Coalesced(order, table, legacy);
    forall k | k in next ensures Identified(next[k], k, later) == next[k] {}
    assert IdentifyAll(next, later) == next;
  }

  lemma CoalescedStays(order: seq<Key>, table: Table, legacy: map<Key, Key>, again: seq<Key>, k: Key)
    requires Lists(order, table) && Ordinary(table) && Lists(again, Coalesced(order, table, legacy))
    requires k in table && Coalesced(order, table, legacy)[k].identity.Some?
    ensures Retired(again, Coalesced(order, table, legacy), k) ==> !Live(Coalesced(order, table, legacy)[k])
  {
    var next := Coalesced(order, table, legacy);
    if Live(next[k]) && !next[k].posted {
      CoalescingLeavesOne(order, table, legacy, next[k].identity.value);
      WaitingIsPrimary(again, next, k, next[k].identity.value);
    }
  }

  /** Coalescing a coalesced table changes nothing, in whatever order the records are listed. */
  lemma CoalescingIsIdempotent(order: seq<Key>, table: Table, legacy: map<Key, Key>, again: seq<Key>, later: map<Key, Key>)
    requires Lists(order, table) && Ordinary(table)
    requires Lists(again, Coalesced(order, table, legacy))
    ensures Coalesced(again, Coalesced(order, table, legacy), later) == Coalesced(order, table, legacy)
  {
    var next := Coalesced(order, table, legacy);
    CoalescedIsIdentified(order, table, legacy, later);
    forall k | k in next ensures Retired(again, next, k) ==> !Live(next[k]) { CoalescedStays(order, table, legacy, again, k); }
    assert Coalesced(again, next, later) == next;
  }

  // ---------------------------------------------------------------- one POST key per identity

  /** Every record has its identity, and each identity at most one live record. */
  ghost predicate OneLive(table: Table)
  {
    && (forall k :: k in table ==> table[k].identity.Some?)
    && (forall a, b :: a in table && b in table && table[a].identity == table[b].identity && Live(table[a]) && Live(table[b]) ==>
          a == b)
  }

  ghost predicate Untouched(box: Outbox)
  {
    box.sent == {} && forall k :: k in box.table ==> !box.table[k].posted
  }

  ghost predicate Orderly(box: Outbox)
  {
    && Ordinary(box.table)
    && (Untouched(box) || OneLive(box.table))
    && (forall k :: k in box.sent ==> k in box.table && Live(box.table[k]))
  }

  /** Coalescing reaches one live record per identity from an untouched outbox, and keeps the live ones after that. */
  lemma CoalescingKeepsOneLive(box: Outbox, order: seq<Key>, legacy: map<Key, Key>)
    requires Orderly(box) && Lists(order, box.table)
    ensures var next := Coalesced(order, box.table, legacy);
            && Ordinary(next) && OneLive(next) && next.Keys == box.table.Keys
            && (OneLive(box.table) ==> next == box.table)
  {
    var next := Coalesced(order, box.table, legacy);
    CoalescedIsIdentified(order, box.table, legacy, legacy);
    forall a, b | a in next && b in next && next[a].identity == next[b].identity && Live(next[a]) && Live(next[b])
      ensures a == b || OneLive(box.table)
    {
      CoalescingLeavesOne(order, box.table, legacy, next[a].identity.value);
      if Untouched(box) { assert WaitsIn(next, a, next[a].identity.value) && WaitsIn(next, b, next[a].identity.value); }
    }
    if OneLive(box.table) { OneLiveIsCoalesced(box, order, legacy); }
  }

  lemma OneLiveIsCoalesced(box: Outbox, order: seq<Key>, legacy: map<Key, Key>)
    requires Orderly(box) && Lists(order, box.table) && OneLive(box.table)
    ensures Coalesced(order, box.table, legacy) == box.table
  {
    assert IdentifyAll(box.table, legacy) == box.table;
    forall k | k in box.table && Live(box.table[k]) ensures !Retired(order, box.table, k) {
      LiveIsPrimary(order, box.table, k);
    }
  }

  lemma LiveIsPrimary(order: seq<Key>, table: Table, k: Key)
    requires Lists(order, table) && Ordinary(table) && OneLive(table) && k in table && Live(table[k])
    ensures Primary(order, table, table[k].identity.value) == Some(k)
  {
    PrimaryIsBest(order, table, table[k].identity.value);
    var p := Primary(order, table, table[k].identity.value).value;
    assert Rank(table[p]) <= Rank(table[k]);
  }

  lemma {:induction false} PollingKeepsOrder(box: Outbox, order: seq<Key>, exchanges: map<Key, Exchange>)
    requires Orderly(box) && OneLive(box.table)
    requires forall k :: k in exchanges ==>
               && (exchanges[k].lookup.Some? ==> !exchanges[k].lookup.value.state.Superseded?)
               && (exchanges[k].post.Some? ==> !exchanges[k].post.value.state.Superseded?)
    ensures var next := PollEach(box, order, exchanges);
            Orderly(next) && OneLive(next.table) && box.sent <= next.sent && next.table.Keys == box.table.Keys
  {
    if order != [] {
      var init := order[..|order| - 1];
      var key := order[|order| - 1];
      PollingKeepsOrder(box, init, exchanges);
      var before := PollEach(box, init, exchanges);
      var next := PollEach(box, order, exchanges);
      if key in before.table && Open(before.table[key]) {
        assert next.table[key].identity == before.table[key].identity && Live(next.table[key]);
      }
    }
  }

  lemma CoalescingKeepsOrder(box: Outbox, order: seq<Key>, legacy: map<Key, Key>)
    requires Orderly(box) && Lists(order, box.table)
    ensures var next := box.(table := Coalesced(order, box.table, legacy)); Orderly(next) && OneLive(next.table)
  {
    CoalescingKeepsOneLive(box, order, legacy);
  }

  lemma NewNoteKeepsOrder(box: Outbox, current: Table, identity: Key)
    requires Orderly(box.(table := current)) && OneLive(current)
    requires !Known(current, identity) && identity !in current
    ensures var next := box.(table := current[identity := Note(Some(identity), Pending, false)]);
            Orderly(next) && OneLive(next.table)
  {
    var next := current[identity := Note(Some(identity), Pending, false)];
    forall k | k in current ensures next[k] == current[k] && next[k].identity != Some(identity) {}
  }

  /** A notification is added only for an identity with no record. */
  lemma NotifyKeepsOrder(box: Outbox, order: seq<Key>, legacy: map<Key, Key>, identity: Key)
    requires Orderly(box) && Enabled(box, Notifying(order, legacy, identity))
    ensures var next := box.(table := Notify(order, box.table, legacy, identity)); Orderly(next) && OneLive(next.table)
  {
    CoalescingKeepsOrder(box, order, legacy);
    var current := Coalesced(order, box.table, legacy);
    if !Known(current, identity) {
      CoalescedKeepsIdentity(order, box.table, legacy, identity);
      NewNoteKeepsOrder(box, current, identity);
    }
  }

  lemma CoalescedKeepsIdentity(order: seq<Key>, table: Table, legacy: map<Key, Key>, identity: Key)
    requires Lists(order, table)
    requires identity in table ==> Identified(table[identity], identity, legacy).identity == Some(identity)
    ensures identity in Coalesced(order, table, legacy) ==> Known(Coalesced(order, table, legacy), identity)
  {
    var next := Coalesced(order, table, legacy);
    if identity in next { assert next[identity].identity == Some(identity); }
  }

  lemma NextKeepsOrder(box: Outbox, step: Step)
    requires Orderly(box) && Enabled(box, step)
    ensures Orderly(Next(box, step)) && OneLive(Next(box, step).table) && box.sent <= Next(box, step).sent
  {
    match step
    case Notifying(order, legacy, identity) => NotifyKeepsOrder(box, order, legacy, identity);
    case Polling(order, legacy, visited, exchanges) =>
      CoalescingKeepsOrder(box, order, legacy);
      PollingKeepsOrder(box.(table := Coalesced(order, box.table, legacy)), order[..visited], exchanges);
  }

  function Run(box: Outbox, steps: seq<Step>): (next: Outbox)
    requires Possible(box, steps)
    decreases |steps|
  {
    if steps == [] then box else Run(Next(box, steps[0]), steps[1..])
  }

  ghost predicate Possible(box: Outbox, steps: seq<Step>)
    decreases |steps|
  {
    steps == [] || (Enabled(box, steps[0]) && Possible(Next(box, steps[0]), steps[1..]))
  }

  lemma {:induction false} RunKeepsOrder(box: Outbox, steps: seq<Step>)
    requires Orderly(box) && Possible(box, steps)
    ensures Orderly(Run(box, steps)) && (steps != [] || OneLive(box.table) ==> OneLive(Run(box, steps).table))
    decreases |steps|
  {
    if steps != [] {
      NextKeepsOrder(box, steps[0]);
      RunKeepsOrder(Next(box, steps[0]), steps[1..]);
    }
  }

  // ---------------------------------------------------------------- and one live record of every identity

  ghost predicate HasLive(table: Table, identity: Key) { exists k :: InGroup(table, k, identity) && Live(table[k]) }

  /** A superseded record has its identity, and a live record bears it. */
  ghost predicate Represented(table: Table)
  {
    forall k :: k in table && !Live(table[k]) ==> table[k].identity.Some? && HasLive(table, table[k].identity.value)
  }

  lemma CoalescingRepresents(order: seq<Key>, table: Table, legacy: map<Key, Key>)
    requires Lists(order, table) && Ordinary(table) && Represented(table)
    ensures Represented(Coalesced(order, table, legacy))
  {
    var identified, next := IdentifyAll(table, legacy), Coalesced(order, table, legacy);
    forall k | k in next && !Live(next[k]) ensures next[k].identity.Some? && HasLive(next, next[k].identity.value) {
      var identity := identified[k].identity.value;
      if Live(table[k]) {
        assert InGroup(identified, k, identity);
      } else {
        var p :| InGroup(table, p, identity) && Live(table[p]);
        assert InGroup(identified, p, identity);
      }
      CoalescingKeepsLive(order, table, legacy, identity);
    }
  }

  lemma NotifyRepresents(order: seq<Key>, table: Table, legacy: map<Key, Key>, identity: Key)
    requires Lists(order, table) && Ordinary(table) && Represented(table)
    requires identity in table ==> Identified(table[identity], identity, legacy).identity == Some(identity)
    ensures Represented(Notify(order, table, legacy, identity))
  {
    CoalescingRepresents(order, table, legacy);
    var current, next := Coalesced(order, table, legacy), Notify(order, table, legacy, identity);
    if !Known(current, identity) {
      CoalescedIsIdentified(order, table, legacy, legacy);
      forall k | k in next && !Live(next[k]) ensures next[k].identity.Some? && HasLive(next, next[k].identity.value) {
        assert k in current && next[k] == current[k];
        var p :| InGroup(current, p, current[k].identity.value) && Live(current[p]);
        assert InGroup(next, p, current[k].identity.value) && Live(next[p]);
      }
    }
  }

  lemma PollingOneRepresents(box: Outbox, key: Key, exchange: Exchange)
    requires Represented(box.table)
    requires exchange.lookup.Some? ==> !exchange.lookup.value.state.Superseded?
    requires exchange.post.Some? ==> !exchange.post.value.state.Superseded?
    ensures Represented(PollOne(box, key, exchange).table)
  {
    var next := PollOne(box, key, exchange).table;
    forall k | k in next && !Live(next[k]) ensures next[k].identity.Some? && HasLive(next, next[k].identity.value) {
      assert next[k] == box.table[k];
      var p :| InGroup(box.table, p, next[k].identity.value) && Live(box.table[p]);
      assert InGroup(next, p, next[k].identity.value) && Live(next[p]);
    }
  }

  lemma {:induction false} PollingRepresents(box: Outbox, order: seq<Key>, exchanges: map<Key, Exchange>)
    requires Represented(box.table)
    requires forall k :: k in exchanges ==>
               && (exchanges[k].lookup.Some? ==> !exchanges[k].lookup.value.state.Superseded?)
               && (exchanges[k].post.Some? ==> !exchanges[k].post.value.state.Superseded?)
    ensures Represented(PollEach(box, order, exchanges).table)
  {
    if order != [] {
      var key := order[|order| - 1];
      PollingRepresents(box, order[..|order| - 1], exchanges);
      PollingOneRepresents(PollEach(box, order[..|order| - 1], exchanges), key,
                           if key in exchanges then exchanges[key] else Exchange(None, None));
    }
  }

  lemma NextRepresents(box: Outbox, step: Step)
    requires Ordinary(box.table) && Represented(box.table) && Enabled(box, step)
    ensures Represented(Next(box, step).table)
  {
    match step
    case Notifying(order, legacy, identity) => NotifyRepresents(order, box.table, legacy, identity);
    case Polling(order, legacy, visited, exchanges) =>
      CoalescingRepresents(order, box.table, legacy);
      PollingRepresents(box.(table := Coalesced(order, box.table, legacy)), order[..visited], exchanges);
  }

  lemma {:induction false} RunRepresents(box: Outbox, steps: seq<Step>)
    requires Orderly(box) && Represented(box.table) && Possible(box, steps)
    ensures Represented(Run(box, steps).table)
    decreases |steps|
  {
    if steps != [] {
      NextKeepsOrder(box, steps[0]);
      NextRepresents(box, steps[0]);
      RunRepresents(Next(box, steps[0]), steps[1..]);
    }
  }

  /** After any polls and notifications, however receipts and acknowledgements are lost, exactly one live record bears the
      identity of each record. */
  lemma RunKeepsExactlyOneLive(box: Outbox, steps: seq<Step>, key: Key) returns (live: Key)
    requires Orderly(box) && Represented(box.table) && Possible(box, steps) && steps != []
    requires key in Run(box, steps).table
    ensures var table := Run(box, steps).table;
            && table[key].identity.Some?
            && InGroup(table, live, table[key].identity.value) && Live(table[live])
            && forall other :: InGroup(table, other, table[key].identity.value) && Live(table[other]) ==> other == live
  {
    RunKeepsOrder(box, steps);
    RunRepresents(box, steps);
    var table := Run(box, steps).table;
    if Live(table[key]) { return key; }
    live :| InGroup(table, live, table[key].identity.value) && Live(table[live]);
  }

  /** Starting with nothing posted, however receipts and acknowledgements are lost: the transport never gets two keys of
      one identity. */
  lemma OneKeyPerIdentity(box: Outbox, steps: seq<Step>, a: Key, b: Key)
    requires Ordinary(box.table) && Untouched(box) && Possible(box, steps)
    requires a in Run(box, steps).sent && b in Run(box, steps).sent
    ensures var table := Run(box, steps).table;
            a in table && b in table && (table[a].identity == table[b].identity ==> a == b)
  {
    RunKeepsOrder(box, steps);
  }

  // ---------------------------------------------------------------- coalesce_pending in place

  /** The records of one identity, in listing order. */
  function Members(order: seq<Key>, table: Table, identity: Key): (keys: seq<Key>)
    requires forall k :: k in order ==> k in table
  {
    if order == [] then []
    else
      var init := Members(order[..|order| - 1], table, identity);
      if table[order[|order| - 1]].identity == Some(identity) then init + [order[|order| - 1]] else init
  }

  /** `min` by rank: the first of the least. */
  function Best(group: seq<Key>, table: Table): (key: Option<Key>)
    requires forall k :: k in group ==> k in table
  {
    if group == [] then None
    else
      var last := group[|group| - 1];
      var before := Best(group[..|group| - 1], table);
      if before.Some? && before.value in table && Rank(table[before.value]) <= Rank(table[last]) then before else Some(last)
  }

  lemma {:induction false} MembersAre(order: seq<Key>, table: Table, identity: Key)
    requires forall k :: k in order ==> k in table
    ensures forall k :: k in Members(order, table, identity) <==> k in order && table[k].identity == Some(identity)
    ensures Best(Members(order, table, identity), table) == Primary(order, table, identity)
  {
    if order != [] {
      var init := order[..|order| - 1];
      assert order == init + [order[|order| - 1]];
      MembersAre(init, table, identity);
      var group := Members(order, table, identity);
      if table[order[|order| - 1]].identity == Some(identity) {
        assert group[..|group| - 1] == Members(init, table, identity);
      }
    }
  }

  lemma {:induction false} BestAgrees(group: seq<Key>, table: Table, other: Table)
    requires forall k :: k in group ==> k in table && k in other && table[k] == other[k]
    ensures Best(group, table) == Best(group, other)
  {
    if group != [] {
      assert group == group[..|group| - 1] + [group[|group| - 1]];
      BestAgrees(group[..|group| - 1], table, other);
      BestIsMember(group[..|group| - 1], table);
    }
  }

  lemma {:induction false} BestIsMember(group: seq<Key>, table: Table)
    requires forall k :: k in group ==> k in table
    ensures Best(group, table).Some? ==> Best(group, table).value in group
  {
    if group != [] {
      assert group == group[..|group| - 1] + [group[|group| - 1]];
      BestIsMember(group[..|group| - 1], table);
    }
  }

  function IdentityOf(table: Table, key: Key, legacy: map<Key, Key>): (identity: Key)
  {
    if key in table then Identified(table[key], key, legacy).identity.value else key
  }

  /** Listed records get their identity one by one. */
  function Labelled(order: seq<Key>, table: Table, legacy: map<Key, Key>): (next: Table)
  {
    if order == [] then table
    else
      var before := Labelled(order[..|order| - 1], table, legacy);
      var key := order[|order| - 1];
      if key in before then before[key := Identified(before[key], key, legacy)] else before
  }

  function Joined(groups: map<Key, seq<Key>>, identity: Key, key: Key): (result: map<Key, seq<Key>>)
  {
    groups[identity := (if identity in groups then groups[identity] else []) + [key]]
  }

  function Grouped(order: seq<Key>, table: Table, legacy: map<Key, Key>): (groups: map<Key, seq<Key>>)
  {
    if order == [] then map[]
    else Joined(Grouped(order[..|order| - 1], table, legacy), IdentityOf(table, order[|order| - 1], legacy), order[|order| - 1])
  }

  /** Identities in order of first appearance: the order a dictionary of groups keeps. */
  function FirstSeen(order: seq<Key>, table: Table, legacy: map<Key, Key>): (keys: seq<Key>)
  {
    if order == [] then []
    else
      var before := FirstSeen(order[..|order| - 1], table, legacy);
      var identity := IdentityOf(table, order[|order| - 1], legacy);
      if identity in Grouped(order[..|order| - 1], table, legacy) then before else before + [identity]
  }

  lemma {:induction false} LabelledKeeps(order: seq<Key>, table: Table, legacy: map<Key, Key>, key: Key)
    ensures Labelled(order, table, legacy).Keys == table.Keys
    ensures key in table ==>
              Labelled(order, table, legacy)[key] == if key in order then Identified(table[key], key, legacy) else table[key]
    ensures IdentityOf(Labelled(order, table, legacy), key, legacy) == IdentityOf(table, key, legacy)
  {
    if order != [] {
      assert order == order[..|order| - 1] + [order[|order| - 1]];
      LabelledKeeps(order[..|order| - 1], table, legacy, key);
    }
  }

  lemma LabellingIdentifiesAll(order: seq<Key>, table: Table, legacy: map<Key, Key>)
    requires Lists(order, table)
    ensures Labelled(order, table, legacy) == IdentifyAll(table, legacy)
  {
    forall k | k in table ensures k in Labelled(order, table, legacy) && Labelled(order, table, legacy)[k] == IdentifyAll(table, legacy)[k] {
      LabelledKeeps(order, table, legacy, k);
    }
    if order != [] { LabelledKeeps(order, table, legacy, order[0]); }
  }

  lemma {:induction false} GroupsAreMembers(order: seq<Key>, table: Table, legacy: map<Key, Key>)
    requires forall k :: k in order ==> k in table
    ensures var groups, identified := Grouped(order, table, legacy), IdentifyAll(table, legacy);
            && (forall i :: i in groups ==> groups[i] == Members(order, identified, i))
            && (forall i :: i !in groups ==> Members(order, identified, i) == [])
            && (forall k :: k in order ==> identified[k].identity.value in groups)
  {
    if order != [] {
      var init := order[..|order| - 1];
      assert order == init + [order[|order| - 1]];
      GroupsAreMembers(init, table, legacy);
    }
  }

  lemma GroupedOneMore(order: seq<Key>, table: Table, legacy: map<Key, Key>)
    requires order != []
    ensures var init, identity := order[..|order| - 1], IdentityOf(table, order[|order| - 1], legacy);
            && Grouped(order, table, legacy).Keys == Grouped(init, table, legacy).Keys + {identity}
            && FirstSeen(order, table, legacy)
               == FirstSeen(init, table, legacy) + if identity in Grouped(init, table, legacy) then [] else [identity]
  {
    var init, identity := order[..|order| - 1], IdentityOf(table, order[|order| - 1], legacy);
    assert Grouped(order, table, legacy) == Joined(Grouped(init, table, legacy), identity, order[|order| - 1]);
    assert FirstSeen(init, table, legacy) + [] == FirstSeen(init, table, legacy);
  }

  lemma {:induction false} FirstSeenAreGroups(order: seq<Key>, table: Table, legacy: map<Key, Key>, i: Key)
    ensures i in FirstSeen(order, table, legacy) <==> i in Grouped(order, table, legacy)
  {
    if order != [] {
      var init, identity := order[..|order| - 1], IdentityOf(table, order[|order| - 1], legacy);
      GroupedOneMore(order, table, legacy);
      FirstSeenAreGroups(init, table, legacy, i);
      FirstSeenAreGroups(init, table, legacy, identity);
      if identity in Grouped(init, table, legacy) {
        assert FirstSeen(order, table, legacy) == FirstSeen(init, table, legacy);
      } else {
        assert i in FirstSeen(order, table, legacy) <==> i in FirstSeen(init, table, legacy) || i == identity;
      }
    }
  }

  lemma {:induction false} FirstSeenAreDistinct(order: seq<Key>, table: Table, legacy: map<Key, Key>)
    ensures Distinct(FirstSeen(order, table, legacy))
  {
    if order != [] {
      var init, identity := order[..|order| - 1], IdentityOf(table, order[|order| - 1], legacy);
      GroupedOneMore(order, table, legacy);
      FirstSeenAreDistinct(init, table, legacy);
      if identity !in Grouped(init, table, legacy) {
        FirstSeenAreGroups(init, table, legacy, identity);
        var before := FirstSeen(init, table, legacy);
        assert FirstSeen(order, table, legacy) == before + [identity];
        assert forall i :: 0 <= i < |before| ==> before[i] in before;
      } else {
        assert FirstSeen(order, table, legacy) == FirstSeen(init, table, legacy);
      }
    }
  }

  /** A table in which the listed records have been given their final form. */
  ghost predicate Settles(records: Table, identified: Table, coalesced: Table, done: set<Key>)
  {
    && records.Keys == identified.Keys == coalesced.Keys
    && forall k :: k in records ==> records[k] == if k in done then coalesced[k] else identified[k]
  }

  /** A group holds exactly the records of its identity, and coalescing retires those its best record displaces. */
  ghost predicate GroupRetires(group: seq<Key>, identity: Key, identified: Table, coalesced: Table)
  {
    && (forall k :: k in group <==> k in identified && identified[k].identity == Some(identity))
    && identified.Keys == coalesced.Keys
    && forall k :: k in group ==>
         coalesced[k] == if Some(k) != Best(group, identified) && !identified[k].posted
                         then identified[k].(state := Superseded) else identified[k]
  }

  ghost predicate Bears(identified: Table, k: Key, identities: seq<Key>)
    requires k in identified
  {
    identified[k].identity.Some? && identified[k].identity.value in identities
  }

  lemma GroupIsRetired(order: seq<Key>, table: Table, legacy: map<Key, Key>, identity: Key)
    requires Lists(order, table)
    requires identity in Grouped(order, table, legacy)
    ensures GroupRetires(Grouped(order, table, legacy)[identity], identity, IdentifyAll(table, legacy), Coalesced(order, table, legacy))
  {
    GroupsAreMembers(order, table, legacy);
    MembersAre(order, IdentifyAll(table, legacy), identity);
  }

  lemma SeenGroupIsRetired(order: seq<Key>, table: Table, legacy: map<Key, Key>, identity: Key)
    requires Lists(order, table) && identity in FirstSeen(order, table, legacy)
    ensures identity in Grouped(order, table, legacy)
    ensures GroupRetires(Grouped(order, table, legacy)[identity], identity, IdentifyAll(table, legacy), Coalesced(order, table, legacy))
  {
    FirstSeenAreGroups(order, table, legacy, identity);
    GroupIsRetired(order, table, legacy, identity);
  }

  lemma RecordIsSeen(order: seq<Key>, table: Table, legacy: map<Key, Key>, k: Key)
    requires Lists(order, table) && k in table
    ensures Bears(IdentifyAll(table, legacy), k, FirstSeen(order, table, legacy))
  {
    GroupsAreMembers(order, table, legacy);
    FirstSeenAreGroups(order, table, legacy, IdentifyAll(table, legacy)[k].identity.value);
  }

  /** The groups, walked by identity, cover every record and say which of them coalescing retires. */
  ghost predicate Walks(identities: seq<Key>, groups: map<Key, seq<Key>>, identified: Table, coalesced: Table)
  {
    && Distinct(identities)
    && (forall i :: i in identities ==> i in groups && GroupRetires(groups[i], i, identified, coalesced))
    && (forall k :: k in identified ==> Bears(identified, k, identities))
  }

  lemma GroupingIsComplete(order: seq<Key>, table: Table, legacy: map<Key, Key>)
    requires Lists(order, table)
    ensures Walks(FirstSeen(order, table, legacy), Grouped(order, table, legacy),
                  IdentifyAll(table, legacy), Coalesced(order, table, legacy))
  {
    FirstSeenAreDistinct(order, table, legacy);
    forall i | i in FirstSeen(order, table, legacy)
      ensures i in Grouped(order, table, legacy)
      ensures GroupRetires(Grouped(order, table, legacy)[i], i, IdentifyAll(table, legacy), Coalesced(order, table, legacy))
    {
      SeenGroupIsRetired(order, table, legacy, i);
    }
    forall k | k in IdentifyAll(table, legacy) ensures Bears(IdentifyAll(table, legacy), k, FirstSeen(order, table, legacy)) {
      RecordIsSeen(order, table, legacy, k);
    }
  }

  /** Exactly the records of the first `j` groups are done. */
  ghost predicate DoneUpTo(identified: Table, identities: seq<Key>, j: nat, done: set<Key>)
    requires j <= |identities|
  {
    forall k :: k in identified ==> (k in done <==> Bears(identified, k, identities[..j]))
  }

  lemma GroupIsPending(identities: seq<Key>, groups: map<Key, seq<Key>>, identified: Table, coalesced: Table, j: nat,
                       done: set<Key>, k: Key)
    requires Walks(identities, groups, identified, coalesced) && j < |identities| && DoneUpTo(identified, identities, j, done)
    requires identities[j] in groups && k in groups[identities[j]]
    ensures k in identified && k !in done
  {
    assert identities[j] in identities;
    assert GroupRetires(groups[identities[j]], identities[j], identified, coalesced);
    assert identities[j] !in identities[..j];
  }

  lemma GroupIsDone(identities: seq<Key>, groups: map<Key, seq<Key>>, identified: Table, coalesced: Table, j: nat, done: set<Key>)
    requires Walks(identities, groups, identified, coalesced) && j < |identities| && DoneUpTo(identified, identities, j, done)
    requires identities[j] in groups
    ensures DoneUpTo(identified, identities, j + 1, done + set k | k in groups[identities[j]])
  {
    assert identities[j] in identities;
    assert GroupRetires(groups[identities[j]], identities[j], identified, coalesced);
    assert identities[..j + 1] == identities[..j] + [identities[j]];
  }

  lemma SettledEverywhere(records: Table, identified: Table, coalesced: Table, done: set<Key>)
    requires Settles(records, identified, coalesced, done) && forall k :: k in identified ==> k in done
    ensures records == coalesced
  {
  }

  class NotificationTable {
    var records: Table

    constructor (records: Table)
      ensures this.records == records
    {
      this.records := records;
    }

    /** Groups the listed records by identity, giving old records theirs on the way. */
    method Group(order: seq<Key>, legacy: map<Key, Key>) returns (groups: map<Key, seq<Key>>, identities: seq<Key>)
      modifies this
      ensures records == Labelled(order, old(records), legacy)
      ensures groups == Grouped(order, old(records), legacy) && identities == FirstSeen(order, old(records), legacy)
    {
      groups, identities := map[], [];
      var n := 0;
      while n < |order|
        invariant 0 <= n <= |order|
        invariant records == Labelled(order[..n], old(records), legacy)
        invariant groups == Grouped(order[..n], old(records), legacy)
        invariant identities == FirstSeen(order[..n], old(records), legacy)
      {
        var key := order[n];
        assert order[..n + 1][..n] == order[..n];
        LabelledKeeps(order[..n], old(records), legacy, key);
        var identity := IdentityOf(records, key, legacy);
        if key in records { records := records[key := Identified(records[key], key, legacy)]; }
        if identity !in groups { identities := identities + [identity]; }
        groups := Joined(groups, identity, key);
        n := n + 1;
      }
      assert order[..n] == order;
    }

    /** Supersedes every record of a group but the primary, unless it was posted. */
    method Retire(group: seq<Key>, primary: Option<Key>, ghost identified: Table, ghost coalesced: Table, ghost done: set<Key>)
      requires Settles(records, identified, coalesced, done)
      requires forall k :: k in group ==> k in records
      requires forall k :: k in group ==>
                 coalesced[k] == if Some(k) != primary && !identified[k].posted then identified[k].(state := Superseded) else identified[k]
      modifies this
      ensures Settles(records, identified, coalesced, done + set k | k in group)
    {
      var m := 0;
      while m < |group|
        invariant 0 <= m <= |group|
        invariant Settles(records, identified, coalesced, done + set k | k in group[..m])
      {
        var key := group[m];
        assert group[..m + 1] == group[..m] + [key];
        if Some(key) != primary && !records[key].posted && records[key].state != Superseded {
          records := records[key := records[key].(state := Superseded)];
        }
        m := m + 1;
      }
      assert group[..m] == group;
    }

    method RetireAll(identities: seq<Key>, groups: map<Key, seq<Key>>, ghost identified: Table, ghost coalesced: Table)
      returns (ghost done: set<Key>)
      requires Settles(records, identified, coalesced, {})
      requires Walks(identities, groups, identified, coalesced)
      modifies this
      ensures Settles(records, identified, coalesced, done)
      ensures forall k :: k in identified ==> k in done
    {
      done := {};
      var j := 0;
      while j < |identities|
        invariant 0 <= j <= |identities|
        invariant Settles(records, identified, coalesced, done)
        invariant DoneUpTo(identified, identities, j, done)
      {
        assert identities[j] in identities;
        var group := groups[identities[j]];
        assert GroupRetires(group, identities[j], identified, coalesced);
        forall k | k in group ensures k in records && k in identified && records[k] == identified[k] {
          GroupIsPending(identities, groups, identified, coalesced, j, done, k);
        }
        BestAgrees(group, records, identified);
        GroupIsDone(identities, groups, identified, coalesced, j, done);
        Retire(group, Best(group, records), identified, coalesced, done);
        done := done + set k | k in group;
        j := j + 1;
      }
      assert identities[..j] == identities;
    }

    method CoalescePending(order: seq<Key>, legacy: map<Key, Key>)
      requires Lists(order, records)
      modifies this
      ensures records == Coalesced(order, old(records), legacy)
    {
      ghost var table := records;
      ghost var coalesced := Coalesced(order, table, legacy);
      LabellingIdentifiesAll(order, table, legacy);
      GroupingIsComplete(order, table, legacy);
      var groups, identities := Group(order, legacy);
      ghost var identified := records;
      ghost var done := RetireAll(identities, groups, identified, coalesced);
      SettledEverywhere(records, identified, coalesced, done);
    }
  }
}
