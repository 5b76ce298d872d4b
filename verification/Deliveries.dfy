/** What one notification or one poll of the transport does to each record of the outbox. */
module Deliveries {
  import opened Contracts
  import opened Notifications

  /** The record bears the identity, its own or, for an old record, the one computed for it. */
  ghost predicate Bears(table: Table, legacy: map<Key, Key>, k: Key, identity: Key)
  {
    && k in table
    && match table[k].identity
       case Some(own) => own == identity
       case None => (if k in legacy then legacy[k] else k) == identity
  }

  lemma CoalescingKeepsIdentities(order: seq<Key>, table: Table, legacy: map<Key, Key>, k: Key, identity: Key)
    requires Lists(order, table)
    ensures var next := Coalesced(order, table, legacy);
            next.Keys == table.Keys && (k in next && next[k].identity == Some(identity) <==> Bears(table, legacy, k, identity))
  {
  }

  /** A notification adds one pending record under its identity, unless a record already bears it; nothing else changes
      beyond coalescing. */
  lemma NotifyAddsExactly(order: seq<Key>, table: Table, legacy: map<Key, Key>, identity: Key)
    requires Lists(order, table)
    requires identity in table ==> Bears(table, legacy, identity, identity)
    ensures var next := Notify(order, table, legacy, identity);
            next == if exists k :: Bears(table, legacy, k, identity) then Coalesced(order, table, legacy)
                    else Coalesced(order, table, legacy)[identity := Note(Some(identity), Pending, false)]
    ensures (exists k :: Bears(table, legacy, k, identity)) || identity !in table
  {
    var current := Coalesced(order, table, legacy);
    forall k ensures k in current && current[k].identity == Some(identity) <==> Bears(table, legacy, k, identity) {
      CoalescingKeepsIdentities(order, table, legacy, k, identity);
    }
    if k :| Bears(table, legacy, k, identity) { assert current[k].identity == Some(identity); }
    if Known(current, identity) {
      var k :| k in current && current[k].identity == Some(identity);
      assert Bears(table, legacy, k, identity);
    }
  }

  // ---------------------------------------------------------------- a poll

  /** A record whose fate the transport still decides. */
  ghost predicate Undecided(note: Note) { note.state != Sent && note.state != Ambiguous && note.state != Superseded }

  /** The transport's answer: to the lookup, or to the POST of a record never posted that the lookup did not find. */
  ghost predicate Answered(note: Note, exchange: Exchange, r: Receipt)
  {
    exchange.lookup == Some(r) || (exchange.lookup == None && !note.posted && exchange.post == Some(r))
  }

  /** A record after the transport was asked about it: an answer under its own key is stored and marks it posted. */
  ghost predicate Settles(note: Note, next: Note, exchange: Exchange)
  {
    && (forall r :: Undecided(note) && Answered(note, exchange, r) && r.sameKey ==> next == note.(state := r.state, posted := true))
    && ((!Undecided(note) || !exists r :: Answered(note, exchange, r) && r.sameKey) ==> next == note)
  }

  /** A POST goes out exactly for an undecided record, never posted, that the transport does not know. */
  ghost predicate MustPost(table: Table, k: Key, exchange: Exchange)
  {
    k in table && Undecided(table[k]) && !table[k].posted && exchange.lookup == None
  }

  lemma PollOneSettles(box: Outbox, key: Key, exchange: Exchange)
    ensures var next := PollOne(box, key, exchange);
            && next.table.Keys == box.table.Keys
            && (forall k :: k in box.table && k != key ==> next.table[k] == box.table[k])
            && (key in box.table ==> Settles(box.table[key], next.table[key], exchange))
            && next.sent == box.sent + if MustPost(box.table, key, exchange) then {key} else {}
  {
    if key in box.table && Open(box.table[key]) {
      var note, answer := box.table[key], Answer(box.table[key], exchange);
      if answer.Some? { assert Answered(note, exchange, answer.value); }
    }
  }

  function AnswersTo(exchanges: map<Key, Exchange>, k: Key): (exchange: Exchange)
  {
    if k in exchanges then exchanges[k] else Exchange(None, None)
  }

  /** A poll over a listing settles each listed record once and posts exactly those that must be. */
  lemma {:induction false} PollSettlesEach(box: Outbox, order: seq<Key>, exchanges: map<Key, Exchange>)
    requires Distinct(order)
    ensures var next := PollEach(box, order, exchanges);
            && next.table.Keys == box.table.Keys
            && (forall k :: k in box.table && k !in order ==> next.table[k] == box.table[k])
            && (forall k :: k in box.table && k in order ==> Settles(box.table[k], next.table[k], AnswersTo(exchanges, k)))
            && (forall k :: k in next.sent <==> k in box.sent || (k in order && MustPost(box.table, k, AnswersTo(exchanges, k))))
  {
    if order != [] {
      var init, key := order[..|order| - 1], order[|order| - 1];
      assert order == init + [key];
      PollSettlesEach(box, init, exchanges);
      PollOneSettles(PollEach(box, init, exchanges), key, AnswersTo(exchanges, key));
      forall k ensures k in order <==> k in init || k == key {}
    }
  }

  /** A step of the outbox that polls: the records are coalesced, and then those visited are settled and posted. */
  lemma PollingStepSettles(box: Outbox, order: seq<Key>, legacy: map<Key, Key>, visited: nat, exchanges: map<Key, Exchange>, k: Key)
    requires Lists(order, box.table) && visited <= |order| && k in box.table
    ensures var next, current := Next(box, Polling(order, legacy, visited, exchanges)), Coalesced(order, box.table, legacy);
            && k in next.table
            && (if k in order[..visited] then Settles(current[k], next.table[k], AnswersTo(exchanges, k))
                else next.table[k] == current[k])
            && (k in next.sent <==> k in box.sent || (k in order[..visited] && MustPost(current, k, AnswersTo(exchanges, k))))
  {
    var current := box.(table := Coalesced(order, box.table, legacy));
    PollSettlesEach(current, order[..visited], exchanges);
  }
}
