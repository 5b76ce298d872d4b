/** Short numbers in a memory-extraction prompt, and mapping an answer that uses them back to storage ids. */
module MemoryAliases {
  import opened Contracts

  /** A chat message; text fields are already trimmed, and a missing id is 0. */
  datatype Message = Message(userId: int, senderName: string, senderUsername: string, bot: bool, messageId: int, entryId: string)

  datatype Person = Person(userId: int, name: string, username: string, bot: bool)

  /** A JSON value in an answer. */
  datatype Value = Whole(n: int) | Text(s: string) | Flag(b: bool) | Null | Other(empty: bool)

  predicate Truthy(v: Value)
  {
    match v
    case Whole(n) => n != 0
    case Text(s) => s != ""
    case Flag(b) => b
    case Null => false
    case Other(empty) => !empty
  }

  // ---------------------------------------------------------------- people

  function WithoutAt(username: string): (name: string)
  {
    if username != "" && username[0] == '@' then WithoutAt(username[1..]) else username
  }

  function NameOf(m: Message): (name: string)
  {
    if m.senderName == "" && WithoutAt(m.senderUsername) != "" then "@" + WithoutAt(m.senderUsername) else m.senderName
  }

  function Introduced(m: Message): (result: Person) { Person(m.userId, NameOf(m), WithoutAt(m.senderUsername), m.bot) }

  predicate IsSender(p: Person, m: Message)
  {
    if m.userId != 0 then p.userId == m.userId else p.userId == 0 && p.name == NameOf(m)
  }

  ghost predicate AtSigns(s: string) { forall i :: 0 <= i < |s| ==> s[i] == '@' }

  lemma {:induction false} AtSignsGo(username: string) returns (k: nat)
    ensures k <= |username| && AtSigns(username[..k]) && WithoutAt(username) == username[k..]
    ensures k < |username| ==> username[k] != '@'
    decreases |username|
  {
    k := 0;
    if username != "" && username[0] == '@' {
      var more := AtSignsGo(username[1..]);
      k := more + 1;
      assert username[..k] == [username[0]] + username[1..][..more];
    }
  }

  /** A sender is introduced by name; one without a name by its username after exactly one at sign; the username itself is
      listed without any. */
  lemma SendersAreIntroduced(m: Message) returns (k: nat)
    ensures k <= |m.senderUsername| && AtSigns(m.senderUsername[..k]) && (k < |m.senderUsername| ==> m.senderUsername[k] != '@')
    ensures var bare := m.senderUsername[k..];
            Introduced(m) == Person(m.userId,
                                    if m.senderName != "" then m.senderName else if bare != "" then "@" + bare else "",
                                    bare, m.bot)
  {
    k := AtSignsGo(m.senderUsername);
  }

  /** Position of the first person who sent the message, or the length. */
  function FindSender(people: seq<Person>, m: Message): (i: nat)
    ensures i <= |people|
    ensures i < |people| ==> IsSender(people[i], m)
    ensures forall k :: 0 <= k < i ==> !IsSender(people[k], m)
    decreases |people|
  {
    if people == [] then 0
    else if IsSender(people[0], m) then 0
    else
      var rest := FindSender(people[1..], m);
      assert forall k :: 1 <= k < 1 + rest ==> people[k] == people[1..][k - 1];
      1 + rest
  }

  datatype Roster = Roster(people: seq<Person>, numbers: seq<nat>)

  function Join(r: Roster, m: Message): (result: Roster)
  {
    var i := FindSender(r.people, m);
    Roster(if i < |r.people| then r.people else r.people + [Introduced(m)], r.numbers + [i + 1])
  }

  /** `memory_people`: people in the order they first speak, and each message's person number, from 1. */
  function RosterOf(messages: seq<Message>): (result: Roster)
  {
    if messages == [] then Roster([], []) else Join(RosterOf(messages[..|messages| - 1]), messages[|messages| - 1])
  }

  /** Who a person is: a user, or a name without a user. */
  datatype Identity = User(id: int) | Named(name: string)

  function Who(p: Person): (who: Identity) { if p.userId != 0 then User(p.userId) else Named(p.name) }

  function Whos(people: seq<Person>): (whos: seq<Identity>) { seq(|people|, i requires 0 <= i < |people| => Who(people[i])) }

  function Senders(messages: seq<Message>): (whos: seq<Identity>)
  {
    seq(|messages|, i requires 0 <= i < |messages| => Who(Introduced(messages[i])))
  }

  /** The distinct elements, in the order they first occur. */
  function Firsts<T(==)>(s: seq<T>): seq<T>
  {
    if s == [] then []
    else
      var before := Firsts(s[..|s| - 1]);
      if s[|s| - 1] in before then before else before + [s[|s| - 1]]
  }

  lemma {:induction false} FirstsAreDistinct<T>(s: seq<T>)
    ensures Distinct(Firsts(s)) && forall x :: x in Firsts(s) <==> x in s
  {
    if s != [] {
      FirstsAreDistinct(s[..|s| - 1]);
      assert s == s[..|s| - 1] + [s[|s| - 1]];
    }
  }

  lemma SendersGrow(messages: seq<Message>)
    requires messages != []
    ensures var n := |messages| - 1; Senders(messages) == Senders(messages[..n]) + [Who(Introduced(messages[n]))]
  {
  }

  /** The people are the distinct senders, each once, in the order they first speak. */
  lemma {:induction false} PeopleAreFirstSenders(messages: seq<Message>)
    ensures Whos(RosterOf(messages).people) == Firsts(Senders(messages))
    ensures Distinct(Whos(RosterOf(messages).people))
  {
    FirstsAreDistinct(Senders(messages));
    if messages != [] {
      var n := |messages| - 1;
      PeopleAreFirstSenders(messages[..n]);
      SendersGrow(messages);
      var before := RosterOf(messages[..n]).people;
      var m := messages[n];
      assert Senders(messages)[..n] == Senders(messages[..n]);
      forall i | 0 <= i < |before| ensures IsSender(before[i], m) <==> Whos(before)[i] == Who(Introduced(m)) {}
      assert Who(Introduced(m)) in Whos(before) <==> FindSender(before, m) < |before|;
      assert Whos(before + [Introduced(m)]) == Whos(before) + [Who(Introduced(m))];
    }
  }

  /** Every message's number names its own sender. */
  lemma {:induction false} NumbersNameSenders(messages: seq<Message>, k: nat)
    requires k < |messages|
    ensures var r := RosterOf(messages);
            && |r.numbers| == |messages|
            && 1 <= r.numbers[k] <= |r.people|
            && IsSender(r.people[r.numbers[k] - 1], messages[k])
  {
    var n := |messages| - 1;
    var before := RosterOf(messages[..n]);
    NumbersCount(messages[..n]);
    if k < n { NumbersNameSenders(messages[..n], k); }
    JoinNumbers(before, messages[n], k);
  }

  lemma JoinNumbers(r: Roster, m: Message, k: nat)
    requires k <= |r.numbers|
    requires k < |r.numbers| ==> 1 <= r.numbers[k] <= |r.people|
    ensures var next := Join(r, m);
            && |next.numbers| == |r.numbers| + 1
            && 1 <= next.numbers[k] <= |next.people|
            && (if k < |r.numbers| then next.people[next.numbers[k] - 1] == r.people[r.numbers[k] - 1]
                else IsSender(next.people[next.numbers[k] - 1], m))
  {
  }

  lemma {:induction false} NumbersCount(messages: seq<Message>)
    ensures |RosterOf(messages).numbers| == |messages|
  {
    if messages != [] { NumbersCount(messages[..|messages| - 1]); }
  }

  // ---------------------------------------------------------------- picking an item by number or storage id

  /** Position of the first item with a storage id, or the length. */
  function FindId(ids: seq<int>, id: int): (i: nat)
    ensures i <= |ids|
    ensures i < |ids| ==> ids[i] == id
    ensures i == |ids| ==> id !in ids
    decreases |ids|
  {
    if ids == [] then 0 else if ids[0] == id then 0 else 1 + FindId(ids[1..], id)
  }

  /** The position an answer's value picks among items with these storage ids. A number wins over a storage id. */
  function Pick(ids: seq<int>, v: Value): (i: Option<nat>)
    ensures i.Some? ==> i.value < |ids|
  {
    match v
    case Whole(n) =>
      if 1 <= n <= |ids| then Some(n - 1)
      else if n != 0 && FindId(ids, n) < |ids| then Some(FindId(ids, n))
      else None
    case _ => None
  }

  function PickedId(ids: seq<int>, v: Value): (n: int) { if Pick(ids, v).Some? then ids[Pick(ids, v).value] else 0 }

  /** A storage id of the window that comes back in place of a number is kept if and only if it is no number of the
      window, or is the number of an item with that very id. */
  lemma StorageIdIsKeptExactly(ids: seq<int>, id: int)
    requires id in ids && id != 0
    ensures PickedId(ids, Whole(id)) == id <==> !(1 <= id <= |ids|) || ids[id - 1] == id
  {
  }

  /** The id an answer's value stands for: that of the item it numbers, or itself when it is an item's id; anything else, a
      boolean included, stands for none, which is 0. */
  ghost function Pointed(ids: seq<int>, v: Value): (id: int)
  {
    match v
    case Whole(n) => if 1 <= n <= |ids| then ids[n - 1] else if n in ids then n else 0
    case _ => 0
  }

  lemma PickedIsPointed(ids: seq<int>, v: Value)
    ensures PickedId(ids, v) == Pointed(ids, v)
  {
  }

  // ---------------------------------------------------------------- a candidate card

  datatype Candidate = Candidate(messageIds: seq<Value>, entryIds: Option<seq<Value>>, userId: Option<Value>)

  datatype Cited = Cited(messageIds: seq<int>, entryIds: seq<string>)

  datatype Resolved = Resolved(messageIds: seq<int>, entryIds: Option<seq<string>>, userId: Option<int>)

  function MessageIds(messages: seq<Message>): (times: seq<int>)
  {
    seq(|messages|, i requires 0 <= i < |messages| => messages[i].messageId)
  }

  function UserIds(people: seq<Person>): (times: seq<int>) { seq(|people|, i requires 0 <= i < |people| => people[i].userId) }

  function WindowEntries(messages: seq<Message>): (result: set<string>) { (set m | m in messages :: m.entryId) - {""} }

  function Added<T(==)>(s: seq<T>, x: T, blank: T): seq<T> { if x == blank || x in s then s else s + [x] }

  /** Entry ids of the window named by the answer, each once. */
  function NamedEntries(values: seq<Value>, window: set<string>): (result: seq<string>)
  {
    if values == [] then []
    else
      var before := NamedEntries(values[..|values| - 1], window);
      match values[|values| - 1]
      case Text(s) => if s in window && s !in before then before + [s] else before
      case _ => before
  }

  function Cite(c: Cited, m: Message): (cited: Cited)
  {
    Cited(Added(c.messageIds, m.messageId, 0), Added(c.entryIds, m.entryId, ""))
  }

  function CiteAll(start: seq<string>, values: seq<Value>, messages: seq<Message>): (cited: Cited)
  {
    if values == [] then Cited([], start)
    else
      var before := CiteAll(start, values[..|values| - 1], messages);
      var picked := Pick(MessageIds(messages), values[|values| - 1]);
      if picked.Some? then Cite(before, messages[picked.value]) else before
  }

  function Resolution(c: Candidate, messages: seq<Message>): (resolved: Resolved)
  {
    var named := if c.entryIds.Some? then NamedEntries(c.entryIds.value, WindowEntries(messages)) else [];
    var cited := CiteAll(named, c.messageIds, messages);
    Resolved(cited.messageIds,
             if c.entryIds.Some? then Some(cited.entryIds) else None,
             if c.userId.Some? then Some(PickedId(UserIds(RosterOf(messages).people), c.userId.value)) else None)
  }

  ghost predicate OfWindow(c: Cited, messages: seq<Message>)
  {
    && Distinct(c.messageIds) && Distinct(c.entryIds)
    && (forall id :: id in c.messageIds ==> id != 0 && id in MessageIds(messages))
    && (forall e :: e in c.entryIds ==> e in WindowEntries(messages))
  }

  lemma {:induction false} NamedEntriesBelong(values: seq<Value>, window: set<string>)
    ensures Distinct(NamedEntries(values, window)) && forall e :: e in NamedEntries(values, window) ==> e in window
  {
    if values != [] { NamedEntriesBelong(values[..|values| - 1], window); }
  }

  lemma CiteKeepsWindow(c: Cited, messages: seq<Message>, i: nat)
    requires OfWindow(c, messages) && i < |messages|
    ensures OfWindow(Cite(c, messages[i]), messages)
  {
    assert MessageIds(messages)[i] == messages[i].messageId;
    assert messages[i] in messages;
  }

  lemma {:induction false} CitationsBelong(start: seq<string>, values: seq<Value>, messages: seq<Message>)
    requires Distinct(start) && forall e :: e in start ==> e in WindowEntries(messages)
    ensures OfWindow(CiteAll(start, values, messages), messages)
  {
    if values != [] {
      CitationsBelong(start, values[..|values| - 1], messages);
      var picked := Pick(MessageIds(messages), values[|values| - 1]);
      if picked.Some? { CiteKeepsWindow(CiteAll(start, values[..|values| - 1], messages), messages, picked.value); }
    }
  }

  /** Whatever an answer says, a resolved card cites only messages and entries of its window, none twice, and its subject
      is a person of the window or nobody. */
  lemma ResolutionBelongs(c: Candidate, messages: seq<Message>)
    ensures var r := Resolution(c, messages);
            && Distinct(r.messageIds) && (forall id :: id in r.messageIds ==> id != 0 && id in MessageIds(messages))
            && (r.entryIds.Some? ==> Distinct(r.entryIds.value)
                                     && forall e :: e in r.entryIds.value ==> e in WindowEntries(messages))
            && (r.userId.Some? ==> r.userId.value == 0 || exists m :: m in messages && m.userId == r.userId.value)
  {
    var window := WindowEntries(messages);
    if c.entryIds.Some? { NamedEntriesBelong(c.entryIds.value, window); }
    CitationsBelong(if c.entryIds.Some? then NamedEntries(c.entryIds.value, window) else [], c.messageIds, messages);
    var r := Resolution(c, messages);
    if r.userId.Some? && r.userId.value != 0 {
      var people := RosterOf(messages).people;
      var i :| 0 <= i < |people| && UserIds(people)[i] == r.userId.value;
      PeopleAreSenders(messages, i);
    }
  }

  lemma {:induction false} PeopleAreSenders(messages: seq<Message>, i: nat)
    requires i < |RosterOf(messages).people|
    ensures exists m :: m in messages && Introduced(m) == RosterOf(messages).people[i]
  {
    var n := |messages| - 1;
    if i < |RosterOf(messages[..n]).people| {
      PeopleAreSenders(messages[..n], i);
      var m :| m in messages[..n] && Introduced(m) == RosterOf(messages).people[i];
      assert m in messages;
    } else {
      assert messages[n] in messages;
    }
  }

  /** The person number shown on a message resolves to that message's own user, or to nobody when it has none. */
  lemma PersonNumberRoundTrips(messages: seq<Message>, k: nat)
    requires k < |messages|
    ensures k < |RosterOf(messages).numbers|
    ensures PickedId(UserIds(RosterOf(messages).people), Whole(RosterOf(messages).numbers[k])) == messages[k].userId
  {
    NumbersNameSenders(messages, k);
  }

  function Numbered(numbers: seq<nat>): (result: seq<Value>) { seq(|numbers|, i requires 0 <= i < |numbers| => Whole(numbers[i])) }

  function CitedMessages(numbers: seq<nat>, messages: seq<Message>): (result: seq<Message>)
    requires forall i :: 0 <= i < |numbers| ==> 1 <= numbers[i] <= |messages|
  {
    seq(|numbers|, i requires 0 <= i < |numbers| => messages[numbers[i] - 1])
  }

  /** Ids of the messages, each once, in order; a blank id is left out. */
  function IdsOnce(messages: seq<Message>): (times: seq<int>)
  {
    if messages == [] then [] else Added(IdsOnce(messages[..|messages| - 1]), messages[|messages| - 1].messageId, 0)
  }

  function EntriesOnce(messages: seq<Message>): (result: seq<string>)
  {
    if messages == [] then [] else Added(EntriesOnce(messages[..|messages| - 1]), messages[|messages| - 1].entryId, "")
  }

  /** Message numbers round-trip: a card citing numbers of the prompt resolves to exactly those messages' ids and entries. */
  lemma {:induction false} MessageNumbersRoundTrip(numbers: seq<nat>, messages: seq<Message>)
    requires forall i :: 0 <= i < |numbers| ==> 1 <= numbers[i] <= |messages|
    ensures CiteAll([], Numbered(numbers), messages)
            == Cited(IdsOnce(CitedMessages(numbers, messages)), EntriesOnce(CitedMessages(numbers, messages)))
  {
    if numbers != [] {
      var n := |numbers| - 1;
      MessageNumbersRoundTrip(numbers[..n], messages);
      assert Numbered(numbers)[..n] == Numbered(numbers[..n]);
      assert CitedMessages(numbers, messages)[..n] == CitedMessages(numbers[..n], messages);
    }
  }

  // ---------------------------------------------------------------- resolving twice

  function Answered(ids: seq<int>): (result: seq<Value>) { seq(|ids|, i requires 0 <= i < |ids| => Whole(ids[i])) }

  function Spelled(entries: seq<string>): (result: seq<Value>) { seq(|entries|, i requires 0 <= i < |entries| => Text(entries[i])) }

  /** No two messages share a storage id. */
  ghost predicate OneMessagePerId(messages: seq<Message>)
  {
    forall i, j :: 0 <= i < j < |messages| && messages[i].messageId == messages[j].messageId ==> messages[i].messageId == 0
  }

  predicate ComesBack(ids: seq<int>, id: int) { !(1 <= id <= |ids|) || ids[id - 1] == id }

  lemma {:induction false} SpelledEntriesReturn(entries: seq<string>, window: set<string>)
    requires Distinct(entries) && forall e :: e in entries ==> e in window
    ensures NamedEntries(Spelled(entries), window) == entries
  {
    if entries != [] {
      var n := |entries| - 1;
      assert entries == entries[..n] + [entries[n]];
      assert Spelled(entries)[..n] == Spelled(entries[..n]);
      SpelledEntriesReturn(entries[..n], window);
    }
  }

  /** Each listed id is a message's, and that message's entry, when it has one, is listed too. */
  ghost predicate Covered(ids: seq<int>, entries: seq<string>, messages: seq<Message>)
  {
    forall id :: id in ids ==> Listed(id, entries, messages)
  }

  ghost predicate Listed(id: int, entries: seq<string>, messages: seq<Message>)
  {
    exists i :: 0 <= i < |messages| && messages[i].messageId == id && (messages[i].entryId == "" || messages[i].entryId in entries)
  }

  lemma {:induction false} CitationsAreCovered(start: seq<string>, values: seq<Value>, messages: seq<Message>)
    ensures var c := CiteAll(start, values, messages);
            && Covered(c.messageIds, c.entryIds, messages)
            && forall e :: e in start ==> e in c.entryIds
  {
    if values != [] {
      CitationsAreCovered(start, values[..|values| - 1], messages);
      var before := CiteAll(start, values[..|values| - 1], messages);
      var picked := Pick(MessageIds(messages), values[|values| - 1]);
      if picked.Some? { CiteStaysCovered(before, messages, picked.value); }
    }
  }

  lemma CiteStaysCovered(c: Cited, messages: seq<Message>, i: nat)
    requires Covered(c.messageIds, c.entryIds, messages) && i < |messages|
    ensures var next := Cite(c, messages[i]); Covered(next.messageIds, next.entryIds, messages)
  {
    var next := Cite(c, messages[i]);
    forall id | id in next.messageIds ensures Listed(id, next.entryIds, messages) {
      if id in c.messageIds {
        var k :| 0 <= k < |messages| && messages[k].messageId == id && (messages[k].entryId == "" || messages[k].entryId in c.entryIds);
      }
    }
  }

  lemma {:induction false} CitingAgainReturns(ids: seq<int>, entries: seq<string>, messages: seq<Message>)
    requires OneMessagePerId(messages) && Distinct(ids) && Covered(ids, entries, messages) && 0 !in ids
    requires forall i :: 0 <= i < |ids| ==> ComesBack(MessageIds(messages), ids[i])
    ensures CiteAll(entries, Answered(ids), messages) == Cited(ids, entries)
  {
    if ids != [] {
      var n := |ids| - 1;
      assert ids == ids[..n] + [ids[n]];
      assert Answered(ids)[..n] == Answered(ids[..n]);
      CitingAgainReturns(ids[..n], entries, messages);
      assert Listed(ids[n], entries, messages);
      var i :| 0 <= i < |messages| && messages[i].messageId == ids[n] && (messages[i].entryId == "" || messages[i].entryId in entries);
      IdPicksItsMessage(messages, i);
    }
  }

  lemma IdPicksItsMessage(messages: seq<Message>, i: nat)
    requires OneMessagePerId(messages) && i < |messages| && messages[i].messageId != 0
    requires ComesBack(MessageIds(messages), messages[i].messageId)
    ensures Pick(MessageIds(messages), Whole(messages[i].messageId)) == Some(i)
  {
    var ids := MessageIds(messages);
    assert ids[i] == messages[i].messageId;
    assert ids[i] in ids;
    var k := Pick(ids, Whole(ids[i])).value;
    assert ids[k] == messages[k].messageId;
  }

  // ---------------------------------------------------------------- storage ids in place of numbers

  lemma {:induction false} CitationsAreFew(start: seq<string>, values: seq<Value>, messages: seq<Message>)
    ensures |CiteAll(start, values, messages).messageIds| <= |values|
  {
    if values != [] { CitationsAreFew(start, values[..|values| - 1], messages); }
  }

  /** A card that cites storage ids of the window instead of numbers keeps its list if and only if none of the ids is also
      the number of another message. */
  lemma {:induction false} StorageIdsReturnExactly(start: seq<string>, ids: seq<int>, messages: seq<Message>)
    requires Distinct(ids) && forall i :: 0 <= i < |ids| ==> ids[i] != 0 && ids[i] in MessageIds(messages)
    ensures CiteAll(start, Answered(ids), messages).messageIds == ids
            <==> forall i :: 0 <= i < |ids| ==> ComesBack(MessageIds(messages), ids[i])
  {
    if ids != [] {
      var n := |ids| - 1;
      var init, last := ids[..n], ids[n];
      assert ids == init + [last];
      assert Answered(ids)[..n] == Answered(init);
      StorageIdsReturnExactly(start, init, messages);
      CitationsAreFew(start, Answered(init), messages);
      StorageIdIsKeptExactly(MessageIds(messages), last);
      var before := CiteAll(start, Answered(init), messages).messageIds;
      var picked := PickedId(MessageIds(messages), Whole(last));
      assert CiteAll(start, Answered(ids), messages).messageIds == Added(before, picked, 0);
      if before + [picked] == ids { assert before == init && picked == last; }
    }
  }

  /** A resolved card as an answer that gives the ids back. */
  function Returned(r: Resolved): (c: Candidate)
  {
    Candidate(Answered(r.messageIds),
              if r.entryIds.Some? then Some(Spelled(r.entryIds.value)) else None,
              if r.userId.Some? then Some(Whole(r.userId.value)) else None)
  }

  /** Every id of a resolved card is kept when it comes back. */
  ghost predicate AllComeBack(r: Resolved, messages: seq<Message>)
  {
    && (forall i :: 0 <= i < |r.messageIds| ==> ComesBack(MessageIds(messages), r.messageIds[i]))
    && (r.userId.Some? && r.userId.value != 0 ==> ComesBack(UserIds(RosterOf(messages).people), r.userId.value))
  }

  lemma ResolvedUserReturns(ids: seq<int>, u: int)
    requires u == 0 || u in ids
    ensures PickedId(ids, Whole(u)) == u <==> u == 0 || ComesBack(ids, u)
  {
    if u != 0 { StorageIdIsKeptExactly(ids, u); }
  }

  /** Resolving a resolved card again changes nothing, messages, entries and person alike, if and only if none of its ids is
      also the number of another message or person. */
  lemma ResolvingTwiceExactly(c: Candidate, messages: seq<Message>)
    requires OneMessagePerId(messages)
    ensures var r := Resolution(c, messages); Resolution(Returned(r), messages) == r <==> AllComeBack(r, messages)
  {
    var window := WindowEntries(messages);
    var start := if c.entryIds.Some? then NamedEntries(c.entryIds.value, window) else [];
    if c.entryIds.Some? { NamedEntriesBelong(c.entryIds.value, window); }
    CitationsBelong(start, c.messageIds, messages);
    CitationsAreCovered(start, c.messageIds, messages);
    var cited := CiteAll(start, c.messageIds, messages);
    var r := Resolution(c, messages);
    var again := if c.entryIds.Some? then NamedEntries(Spelled(cited.entryIds), window) else [];
    if c.entryIds.Some? { SpelledEntriesReturn(cited.entryIds, window); }
    forall i | 0 <= i < |cited.messageIds| ensures cited.messageIds[i] != 0 && cited.messageIds[i] in MessageIds(messages) {
      assert cited.messageIds[i] in cited.messageIds;
    }
    StorageIdsReturnExactly(again, cited.messageIds, messages);
    if AllComeBack(r, messages) && c.entryIds.Some? { CitingAgainReturns(cited.messageIds, cited.entryIds, messages); }
    if c.userId.Some? { ResolvedUserReturns(UserIds(RosterOf(messages).people), r.userId.value); }
  }

  /** The ids that the values stand for, in order, without the zeros. */
  ghost function PointedAll(ids: seq<int>, values: seq<Value>): (result: seq<int>)
  {
    if values == [] then []
    else
      var id := Pointed(ids, values[|values| - 1]);
      PointedAll(ids, values[..|values| - 1]) + if id == 0 then [] else [id]
  }

  lemma FirstsOfAppended<T>(s: seq<T>, x: T)
    ensures Firsts(s + [x]) == if x in Firsts(s) then Firsts(s) else Firsts(s) + [x]
  {
    assert (s + [x])[..|s|] == s;
  }

  lemma PickedMessage(messages: seq<Message>, v: Value)
    ensures match Pick(MessageIds(messages), v)
            case Some(i) => i < |messages| && messages[i].messageId == Pointed(MessageIds(messages), v)
            case None => Pointed(MessageIds(messages), v) == 0
  {
    PickedIsPointed(MessageIds(messages), v);
    var ids := MessageIds(messages);
    var picked := Pick(ids, v);
    if picked.Some? { assert messages[picked.value].messageId == ids[picked.value]; }
  }

  /** A resolved card cites the ids its values stand for, each once, in the order they first occur; its subject is the one its
      value stands for. */
  lemma {:induction false} CitedExactly(start: seq<string>, values: seq<Value>, messages: seq<Message>)
    ensures CiteAll(start, values, messages).messageIds == Firsts(PointedAll(MessageIds(messages), values))
  {
    if values != [] {
      var init, last := values[..|values| - 1], values[|values| - 1];
      CitedExactly(start, init, messages);
      PickedMessage(messages, last);
      var all, id := PointedAll(MessageIds(messages), init), Pointed(MessageIds(messages), last);
      if id == 0 { assert all + [] == all; } else { FirstsOfAppended(all, id); }
    }
  }

  lemma ResolutionExactly(c: Candidate, messages: seq<Message>)
    ensures var r := Resolution(c, messages);
            && r.messageIds == Firsts(PointedAll(MessageIds(messages), c.messageIds))
            && r.userId == (match c.userId case None => None
                            case Some(v) => Some(Pointed(UserIds(RosterOf(messages).people), v)))
            && (r.entryIds.Some? <==> c.entryIds.Some?)
  {
    CitedExactly(if c.entryIds.Some? then NamedEntries(c.entryIds.value, WindowEntries(messages)) else [], c.messageIds, messages);
    if c.userId.Some? { PickedIsPointed(UserIds(RosterOf(messages).people), c.userId.value); }
  }

  // ---------------------------------------------------------------- resolutions of existing cards

  /** What an answer says of an existing card: the card, and the one it merges into. A missing key is `None`. */
  datatype Verdict = Verdict(card: Option<Value>, into: Option<Value>)

  predicate CardOrNothing(cardIds: seq<int>, v: Value) { v.Whole? && (v.n == 0 || v.n in cardIds) }

  /** Says nothing: zero, an empty text, `false`, null, or an empty list or object. */
  ghost predicate Silent(v: Value) { v == Whole(0) || v == Text("") || v == Flag(false) || v == Null || v == Other(true) }

  ghost predicate ResolvedAs(cardIds: seq<int>, verdict: Verdict, resolved: Verdict)
  {
    && resolved.card == (match verdict.card case None => None case Some(v) => Some(Whole(Pointed(cardIds, v))))
    && resolved.into == (match verdict.into
                         case None => None
                         case Some(v) => if Silent(v) then Some(v) else Some(Whole(Pointed(cardIds, v))))
  }

  // ---------------------------------------------------------------- the loops

  method MemoryPeople(messages: seq<Message>) returns (people: seq<Person>, numbers: seq<nat>)
    ensures Roster(people, numbers) == RosterOf(messages)
  {
    people, numbers := [], [];
    var k := 0;
    while k < |messages|
      invariant 0 <= k <= |messages| && Roster(people, numbers) == RosterOf(messages[..k])
    {
      assert messages[..k + 1][..k] == messages[..k];
      var found := FindSender(people, messages[k]);
      if found == |people| { people := people + [Introduced(messages[k])]; }
      numbers := numbers + [found + 1];
      k := k + 1;
    }
    assert messages[..k] == messages;
  }

  method ResolveCard(c: Candidate, messages: seq<Message>) returns (r: Resolved)
    ensures r == Resolution(c, messages)
  {
    var people, _ := MemoryPeople(messages);
    var messageIds, entryIds := [], [];
    if c.entryIds.Some? { entryIds := NamedEntries(c.entryIds.value, WindowEntries(messages)); }
    ghost var named := entryIds;
    var k := 0;
    while k < |c.messageIds|
      invariant 0 <= k <= |c.messageIds|
      invariant Cited(messageIds, entryIds) == CiteAll(named, c.messageIds[..k], messages)
    {
      assert c.messageIds[..k + 1][..k] == c.messageIds[..k];
      var picked := Pick(MessageIds(messages), c.messageIds[k]);
      if picked.Some? {
        var message := messages[picked.value];
        if message.messageId != 0 && message.messageId !in messageIds { messageIds := messageIds + [message.messageId]; }
        if message.entryId != "" && message.entryId !in entryIds { entryIds := entryIds + [message.entryId]; }
      }
      k := k + 1;
    }
    assert c.messageIds[..k] == c.messageIds;
    r := Resolved(messageIds,
                  if c.entryIds.Some? then Some(entryIds) else None,
                  if c.userId.Some? then Some(PickedId(UserIds(people), c.userId.value)) else None);
  }

  /** Maps the cards of each resolution back: each becomes the id that its value stands for, or 0; a target that says nothing
      stays as it was. */
  method ResolveVerdicts(cardIds: seq<int>, verdicts: seq<Verdict>) returns (resolved: seq<Verdict>)
    ensures |resolved| == |verdicts|
    ensures forall i :: 0 <= i < |verdicts| ==> ResolvedAs(cardIds, verdicts[i], resolved[i])
    ensures forall i :: 0 <= i < |verdicts| ==>
              && (resolved[i].card.Some? ==> CardOrNothing(cardIds, resolved[i].card.value))
              && (resolved[i].into != verdicts[i].into ==>
                    resolved[i].into.Some? && CardOrNothing(cardIds, resolved[i].into.value))
  {
    resolved := [];
    var k := 0;
    while k < |verdicts|
      invariant 0 <= k <= |verdicts| && |resolved| == k
      invariant forall i :: 0 <= i < k ==> ResolvedAs(cardIds, verdicts[i], resolved[i])
    {
      var verdict := verdicts[k];
      if verdict.card.Some? {
        PickedIsPointed(cardIds, verdict.card.value);
        verdict := verdict.(card := Some(Whole(PickedId(cardIds, verdict.card.value))));
      }
      if verdict.into.Some? && Truthy(verdict.into.value) {
        PickedIsPointed(cardIds, verdict.into.value);
        verdict := verdict.(into := Some(Whole(PickedId(cardIds, verdict.into.value))));
      }
      resolved := resolved + [verdict];
      k := k + 1;
    }
  }
}
