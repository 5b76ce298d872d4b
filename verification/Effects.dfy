/** The effect journal: writes to GitHub that crashes and lost acknowledgements never repeat. */
module Effects {
  import opened Contracts

  type Key = string

  datatype RecordState = Intent | Uncertain | Done

  /** What an effect will write; an issue also names its origin marker. */
  datatype Payload =
    | IssuePayload(marker: string, signature: string, incidentId: int, text: string)
    | OtherPayload(text: string)

  datatype Receipt = Receipt(number: nat, text: string)

  datatype Record = Record(payload: Payload, state: RecordState, attempts: nat, result: Option<Receipt>)

  type Journal = map<Key, Record>

  // ---------------------------------------------------------------- one call and what the outside world does to it

  /** A check or an instant of the call: it goes on, or it raises or the process dies. */
  datatype Gate = Pass | Stop

  /** A reconciliation: it raises, or it looks for the effect's mark. */
  datatype Search = Failing | Missing | Found(receipt: Receipt)

  /** A mutation: acknowledged, or its acknowledgement is lost, whether or not it was applied. */
  datatype Reply = Acknowledged(receipt: Receipt) | Lost(applied: bool)

  datatype Call = Call(
    key: Key,
    payload: Payload,
    admitted: Gate,     // cancellation and owner holds, before anything is recorded
    current: Gate,      // between the intent and the reconciliation
    search: Search,
    armed: Gate,        // between the uncertain mark and the mutation
    reply: Reply)

  datatype Outcome = Stopped | PayloadChanged | Returned(receipt: Receipt) | Awaiting | NeedsOperator

  /** The journal after a call, what the caller sees, and whether the mutation was sent. */
  datatype Performed = Performed(journal: Journal, outcome: Outcome, sent: bool)

  function Opened(journal: Journal, call: Call): (record: Record)
  {
    if call.key in journal then journal[call.key] else Record(call.payload, Intent, 0, None)
  }

  /** From the reconciliation on, with the record already in the journal. */
  function Attempt(journal: Journal, retries: nat, call: Call, record: Record): (result: Performed)
  {
    match call.search
    case Failing => Performed(journal, Stopped, false)
    case Found(receipt) =>
      Performed(journal[call.key := record.(state := Done, result := Some(receipt))], Returned(receipt), false)
    case Missing =>
      if record.state.Uncertain? then
        var tried := record.(attempts := record.attempts + 1);
        Performed(journal[call.key := tried], if tried.attempts >= retries then NeedsOperator else Awaiting, false)
      else
        var marked := record.(state := Uncertain);
        var armed := journal[call.key := marked];
        if call.armed.Stop? then Performed(armed, Stopped, false)
        else if call.reply.Lost? then Performed(armed, Stopped, true)
        else Performed(armed[call.key := marked.(state := Done, result := Some(call.reply.receipt))],
                       Returned(call.reply.receipt), true)
  }

  function Perform(journal: Journal, retries: nat, call: Call): (result: Performed)
  {
    if call.admitted.Stop? then Performed(journal, Stopped, false)
    else
      var record := Opened(journal, call);
      if record.payload != call.payload then Performed(journal, PayloadChanged, false)
      else if record.state.Done? && record.result.Some? then Performed(journal, Returned(record.result.value), false)
      else
        var noted := journal[call.key := record];
        if call.current.Stop? then Performed(noted, Stopped, false) else Attempt(noted, retries, call, record)
  }

  // ---------------------------------------------------------------- what one call does, seen from its caller

  /** The key is new to the journal, or its record waits for its first mutation. */
  predicate Unsent(journal: Journal, call: Call)
  {
    call.key !in journal || (journal[call.key].payload == call.payload && journal[call.key].state == Intent)
  }

  /** A call sends its mutation exactly when every gate lets it, the search finds nothing, and none was sent before. */
  lemma SendsExactly(journal: Journal, retries: nat, call: Call)
    requires forall k :: k in journal && journal[k].state.Done? ==> journal[k].result.Some?
    ensures Perform(journal, retries, call).sent
            <==> call.admitted == Pass && call.current == Pass && call.search == Missing && call.armed == Pass && Unsent(journal, call)
  {
  }

  /** Nothing of the journal but the call's own record moves. */
  ghost predicate OthersStay(journal: Journal, next: Journal, key: Key)
  {
    && (forall k :: k in journal ==> k in next)
    && (forall k :: k in next && k != key ==> k in journal && next[k] == journal[k])
  }

  /** A sent mutation: an acknowledgement finishes the record and is returned; a lost one leaves it uncertain and stops. */
  lemma SentIsRecorded(journal: Journal, retries: nat, call: Call)
    requires Perform(journal, retries, call).sent
    ensures var p := Perform(journal, retries, call);
            && OthersStay(journal, p.journal, call.key) && call.key in p.journal && p.journal[call.key].payload == call.payload
            && (call.reply.Acknowledged? ==>
                  && p.outcome == Returned(call.reply.receipt)
                  && p.journal[call.key].state == Done && p.journal[call.key].result == Some(call.reply.receipt))
            && (call.reply.Lost? ==> p.outcome == Stopped && p.journal[call.key].state == Uncertain)
  {
  }

  /** An effect that is found was made before: its receipt is stored and returned, and nothing is sent. */
  lemma FoundIsStored(journal: Journal, retries: nat, call: Call)
    requires call.admitted == Pass && call.current == Pass && call.search.Found?
    requires call.key in journal ==> journal[call.key].payload == call.payload && journal[call.key].state != Done
    ensures var p := Perform(journal, retries, call);
            && !p.sent && p.outcome == Returned(call.search.receipt) && OthersStay(journal, p.journal, call.key)
            && call.key in p.journal && p.journal[call.key].payload == call.payload
            && p.journal[call.key].state == Done && p.journal[call.key].result == Some(call.search.receipt)
  {
  }

  /** A finished effect returns its own result; another payload under its key is refused; either way nothing moves. */
  lemma RecordAnswers(journal: Journal, retries: nat, call: Call)
    requires call.key in journal && call.admitted == Pass
    ensures var p, record := Perform(journal, retries, call), journal[call.key];
            && (record.payload != call.payload ==> p == Performed(journal, PayloadChanged, false))
            && (record.payload == call.payload && record.state == Done && record.result.Some? ==>
                  p == Performed(journal, Returned(record.result.value), false))
  {
  }

  /** An unconfirmed effect that is not found is tried no more: the caller waits while retries are left, and then an operator
      has to look. */
  lemma UncertainWaits(journal: Journal, retries: nat, call: Call)
    requires call.admitted == Pass && call.current == Pass && call.search == Missing
    requires call.key in journal && journal[call.key].payload == call.payload && journal[call.key].state == Uncertain
    ensures var p, tried := Perform(journal, retries, call), journal[call.key].attempts + 1;
            && !p.sent && OthersStay(journal, p.journal, call.key)
            && p.journal[call.key] == journal[call.key].(attempts := tried)
            && p.outcome == (if tried < retries then Awaiting else NeedsOperator)
  {
  }

  /** A call that is stopped sends nothing. Before its checks it leaves no trace, before its search it leaves an intent, and
      at the last gate the mark that no later call may send. */
  lemma StoppedLeavesMark(journal: Journal, retries: nat, call: Call)
    requires call.key !in journal
    ensures var p := Perform(journal, retries, call);
            && (call.admitted == Stop ==> p == Performed(journal, Stopped, false))
            && (call.admitted == Pass && (call.current == Stop || call.search == Failing) ==>
                  p == Performed(journal[call.key := Record(call.payload, Intent, 0, None)], Stopped, false))
            && (call.admitted == Pass && call.current == Pass && call.search == Missing && call.armed == Stop ==>
                  p == Performed(journal[call.key := Record(call.payload, Uncertain, 0, None)], Stopped, false))
  {
    assert journal[call.key := Record(call.payload, Intent, 0, None)][call.key := Record(call.payload, Uncertain, 0, None)]
           == journal[call.key := Record(call.payload, Uncertain, 0, None)];
  }

  // ---------------------------------------------------------------- reconcile_origins

  datatype OriginRow = OriginRow(issue: Option<nat>, signature: string, incidentId: int)

  type Origins = map<string, OriginRow>

  /** `issue_number` is UNIQUE: another marker may not claim the same issue. */
  predicate Free(origins: Origins, marker: string, issue: nat)
  {
    forall m :: m in origins && m != marker ==> origins[m].issue != Some(issue)
  }

  function RecordOrigin(origins: Origins, payload: Payload, issue: nat): (result: Origins)
    requires payload.IssuePayload?
  {
    if payload.marker in origins then origins[payload.marker := origins[payload.marker].(issue := Some(issue))]
    else origins[payload.marker := OriginRow(Some(issue), payload.signature, payload.incidentId)]
  }

  datatype Reconciled = Reconciled(journal: Journal, origins: Origins, stopped: bool)

  /** What is known of a published issue: its stored result, or what a search finds. */
  function Known(record: Record, search: Search): (result: Search)
  {
    if record.state.Done? && record.result.Some? then Found(record.result.value) else search
  }

  function Reconcile(r: Reconciled, key: Key, searches: map<Key, Search>): (result: Reconciled)
  {
    if r.stopped || key !in r.journal || !r.journal[key].payload.IssuePayload? then r
    else
      var record := r.journal[key];
      match Known(record, if key in searches then searches[key] else Failing)
      case Failing => r.(stopped := true)
      case Missing => r
      case Found(receipt) =>
        if !Free(r.origins, record.payload.marker, receipt.number) then r.(stopped := true)
        else Reconciled(r.journal[key := record.(state := Done, result := Some(receipt))],
                        RecordOrigin(r.origins, record.payload, receipt.number), false)
  }

  /** Records in listing order, up to the first search or insertion that raises. */
  function ReconcileAll(journal: Journal, origins: Origins, order: seq<Key>, searches: map<Key, Search>): (result: Reconciled)
  {
    if order == [] then Reconciled(journal, origins, false)
    else Reconcile(ReconcileAll(journal, origins, order[..|order| - 1], searches), order[|order| - 1], searches)
  }

  // ---------------------------------------------------------------- runs

  /** The journal, and what happened outside it: mutations sent and applied, and calls told to wait. */
  datatype World = World(journal: Journal, origins: Origins, sends: multiset<Key>, applied: set<Key>, waits: multiset<Key>)

  datatype Step =
    | Effect(call: Call)
    | Origin(order: seq<Key>, searches: map<Key, Search>)

  function Next(w: World, retries: nat, step: Step): (next: World)
  {
    match step
    case Effect(call) =>
      var p := Perform(w.journal, retries, call);
      w.(journal := p.journal,
         sends := if p.sent then w.sends + multiset{call.key} else w.sends,
         applied := if p.sent && (call.reply.Acknowledged? || call.reply.applied) then w.applied + {call.key} else w.applied,
         waits := if p.outcome.Awaiting? then w.waits + multiset{call.key} else w.waits)
    case Origin(order, searches) =>
      var r := ReconcileAll(w.journal, w.origins, order, searches);
      w.(journal := r.journal, origins := r.origins)
  }

  /** Searches find only effects that were applied. They may still miss one. */
  predicate Truthful(w: World, step: Step)
  {
    match step
    case Effect(call) => call.search.Found? ==> call.key in w.applied
    case Origin(_, searches) => forall k :: k in searches && searches[k].Found? ==> k in w.applied
  }

  function Run(w: World, retries: nat, steps: seq<Step>): (next: World)
    decreases |steps|
  {
    if steps == [] then w else Run(Next(w, retries, steps[0]), retries, steps[1..])
  }

  ghost predicate AllTruthful(w: World, retries: nat, steps: seq<Step>)
    decreases |steps|
  {
    steps == [] || (Truthful(w, steps[0]) && AllTruthful(Next(w, retries, steps[0]), retries, steps[1..]))
  }

  const FRESH := World(map[], map[], multiset{}, {}, multiset{})

  /** A step of the world counts one send exactly when the mutation may go out, and applies it when it was acknowledged or lost
      on its way back. */
  lemma EffectStepCounts(w: World, retries: nat, call: Call)
    requires forall k :: k in w.journal && w.journal[k].state.Done? ==> w.journal[k].result.Some?
    ensures var next := Next(w, retries, Effect(call));
            var sent := call.admitted == Pass && call.current == Pass && call.search == Missing && call.armed == Pass
                        && Unsent(w.journal, call);
            && next.sends == w.sends + (if sent then multiset{call.key} else multiset{})
            && next.applied == w.applied + (if sent && call.reply != Lost(false) then {call.key} else {})
            && next.journal == Perform(w.journal, retries, call).journal && next.origins == w.origins
  {
    SendsExactly(w.journal, retries, call);
  }

  // ---------------------------------------------------------------- what every run keeps

  function Rank(state: RecordState): (n: nat) { match state case Intent => 0 case Uncertain => 1 case Done => 2 }

  /** A record only moves forward, with the same payload; a finished one keeps its result. */
  predicate Forward(record: Record, next: Record)
  {
    && Rank(record.state) <= Rank(next.state)
    && next.payload == record.payload
    && record.attempts <= next.attempts
    && (record.state.Done? && record.result.Some? ==> next == record)
  }

  ghost predicate AllForward(journal: Journal, next: Journal)
  {
    forall k :: k in journal ==> k in next && Forward(journal[k], next[k])
  }

  ghost predicate Sound(journal: Journal) { forall k :: k in journal && journal[k].state.Done? ==> journal[k].result.Some? }

  ghost predicate Kept(w: World, retries: nat)
  {
    && Sound(w.journal)
    && (forall k :: w.sends[k] <= 1)
    && (forall k :: w.sends[k] == 1 ==> k in w.journal && !w.journal[k].state.Intent?)
    && (forall k :: w.waits[k] > 0 ==> k in w.journal && w.waits[k] <= w.journal[k].attempts && w.waits[k] < retries)
  }

  lemma PerformIsForward(journal: Journal, retries: nat, call: Call)
    requires Sound(journal)
    ensures var p := Perform(journal, retries, call);
            && Sound(p.journal) && AllForward(journal, p.journal)
            && (forall k :: k in p.journal && k != call.key ==> k in journal && p.journal[k] == journal[k])
            && (p.sent ==> (call.key in journal ==> journal[call.key].state.Intent?)
                           && call.key in p.journal && !p.journal[call.key].state.Intent?)
            && (p.outcome.Awaiting? ==>
                  call.key in journal && journal[call.key].state.Uncertain?
                  && p.journal[call.key].attempts == journal[call.key].attempts + 1 < retries)
  {
  }

  ghost predicate Scanned(journal: Journal, next: Journal, searches: map<Key, Search>)
  {
    && Sound(next) && AllForward(journal, next) && next.Keys == journal.Keys
    && (forall k :: k in journal && next[k] != journal[k] ==>
          next[k].state.Done? && k in searches && searches[k].Found? && next[k].attempts == journal[k].attempts)
  }

  lemma ReconcileScans(r: Reconciled, key: Key, searches: map<Key, Search>)
    requires Sound(r.journal)
    ensures Scanned(r.journal, Reconcile(r, key, searches).journal, searches)
  {
  }

  lemma {:induction false} ReconcileAllIsForward(journal: Journal, origins: Origins, order: seq<Key>, searches: map<Key, Search>)
    requires Sound(journal)
    ensures var r := ReconcileAll(journal, origins, order, searches);
            Scanned(journal, r.journal, searches)
  {
    if order != [] {
      ReconcileAllIsForward(journal, origins, order[..|order| - 1], searches);
      ReconcileScans(ReconcileAll(journal, origins, order[..|order| - 1], searches), order[|order| - 1], searches);
    }
  }

  lemma NextKeeps(w: World, retries: nat, step: Step)
    requires Kept(w, retries)
    ensures var next := Next(w, retries, step);
            && Kept(next, retries) && AllForward(w.journal, next.journal)
            && w.sends <= next.sends && w.applied <= next.applied && w.waits <= next.waits
  {
    match step
    case Effect(call) =>
      PerformIsForward(w.journal, retries, call);
      var p := Perform(w.journal, retries, call);
      var next := Next(w, retries, step);
      assert forall k :: k != call.key ==> next.sends[k] == w.sends[k] && next.waits[k] == w.waits[k];
      if p.sent { assert w.sends[call.key] == 0; }
    case Origin(order, searches) => ReconcileAllIsForward(w.journal, w.origins, order, searches);
  }

  /** Over any interleaving of effects, origin scans, failures and crashes: a mutation is sent at most once per key, a
      caller is told to wait fewer times than the retry limit, and records only move forward. */
  lemma {:induction false} RunKeeps(w: World, retries: nat, steps: seq<Step>)
    requires Kept(w, retries)
    ensures var last := Run(w, retries, steps);
            && Kept(last, retries) && AllForward(w.journal, last.journal)
    decreases |steps|
  {
    if steps != [] {
      NextKeeps(w, retries, steps[0]);
      RunKeeps(Next(w, retries, steps[0]), retries, steps[1..]);
      ForwardTwice(w.journal, Next(w, retries, steps[0]).journal, Run(w, retries, steps).journal);
    }
  }

  lemma ForwardTwice(a: Journal, b: Journal, c: Journal)
    requires AllForward(a, b) && AllForward(b, c)
    ensures AllForward(a, c)
  {
  }

  lemma EffectsAreSentOnce(retries: nat, steps: seq<Step>, key: Key)
    ensures var last := Run(FRESH, retries, steps);
            && last.sends[key] <= 1
            && last.waits[key] <= if retries == 0 then 0 else retries - 1
  {
    RunKeeps(FRESH, retries, steps);
  }

  // ---------------------------------------------------------------- done means applied

  ghost predicate Honest(w: World)
  {
    forall k :: k in w.journal && w.journal[k].state.Done? ==> k in w.applied
  }

  /** A call finishes no record but its own, and that one only on a find or an acknowledgement. */
  lemma PerformFinishes(journal: Journal, retries: nat, call: Call, k: Key)
    requires Sound(journal)
    requires k in Perform(journal, retries, call).journal && Perform(journal, retries, call).journal[k].state.Done?
    requires k in journal ==> !journal[k].state.Done?
    ensures k == call.key
    ensures call.search.Found? || (Perform(journal, retries, call).sent && call.reply.Acknowledged?)
  {
  }

  lemma NextIsHonest(w: World, retries: nat, step: Step)
    requires Kept(w, retries) && Honest(w) && Truthful(w, step)
    ensures Honest(Next(w, retries, step))
  {
    match step
    case Effect(call) =>
      var next := Next(w, retries, step);
      forall k | k in next.journal && next.journal[k].state.Done? ensures k in next.applied {
        if k !in w.journal || !w.journal[k].state.Done? { PerformFinishes(w.journal, retries, call, k); }
      }
    case Origin(order, searches) => ReconcileAllIsForward(w.journal, w.origins, order, searches);
  }

  /** While searches are truthful, a finished record's effect was applied, and a result is only ever returned for an
      applied effect. */
  lemma {:induction false} DoneMeansApplied(w: World, retries: nat, steps: seq<Step>, call: Call)
    requires Kept(w, retries) && Honest(w) && AllTruthful(w, retries, steps)
    requires Truthful(Run(w, retries, steps), Effect(call))
    ensures var last := Run(w, retries, steps);
            && Honest(last)
            && (Perform(last.journal, retries, call).outcome.Returned? ==> call.key in Next(last, retries, Effect(call)).applied)
    decreases |steps|
  {
    if steps != [] {
      NextKeeps(w, retries, steps[0]);
      NextIsHonest(w, retries, steps[0]);
      DoneMeansApplied(Next(w, retries, steps[0]), retries, steps[1..], call);
    }
  }

  // ---------------------------------------------------------------- origins

  ghost predicate DistinctMarkers(journal: Journal)
  {
    forall a, b :: a in journal && b in journal && a != b && journal[a].payload.IssuePayload? && journal[b].payload.IssuePayload? ==>
      journal[a].payload.marker != journal[b].payload.marker
  }

  ghost predicate UniqueIssues(origins: Origins)
  {
    forall a, b :: a in origins && b in origins && a != b && origins[a].issue.Some? ==> origins[a].issue != origins[b].issue
  }

  /** The origin table knows the issue an effect published. */
  ghost predicate Traced(journal: Journal, origins: Origins, key: Key)
  {
    key in journal && journal[key].payload.IssuePayload? && journal[key].state.Done? && journal[key].result.Some? ==>
      journal[key].payload.marker in origins
      && origins[journal[key].payload.marker].issue == Some(journal[key].result.value.number)
  }

  ghost predicate AllTraced(journal: Journal, origins: Origins, keys: seq<Key>)
  {
    forall k :: k in keys ==> k in journal && Traced(journal, origins, k)
  }

  lemma SameMarkers(journal: Journal, next: Journal)
    requires DistinctMarkers(journal) && AllForward(journal, next) && next.Keys == journal.Keys
    ensures DistinctMarkers(next)
  {
    forall a, b | a in next && b in next && a != b && next[a].payload.IssuePayload? && next[b].payload.IssuePayload?
      ensures next[a].payload.marker != next[b].payload.marker
    {
      assert a in journal && b in journal;
    }
  }

  lemma ScanStepTraces(r: Reconciled, before: seq<Key>, key: Key, searches: map<Key, Search>)
    requires Sound(r.journal) && DistinctMarkers(r.journal) && UniqueIssues(r.origins)
    requires key in r.journal && key !in before
    requires !r.stopped ==> AllTraced(r.journal, r.origins, before)
    ensures var next := Reconcile(r, key, searches);
            UniqueIssues(next.origins) && (!next.stopped ==> AllTraced(next.journal, next.origins, before + [key]))
  {
    var next := Reconcile(r, key, searches);
    if !next.stopped {
      forall k | k in before + [key] ensures k in next.journal && Traced(next.journal, next.origins, k) {
        if k != key { assert k in before; assert Traced(r.journal, r.origins, k); }
      }
    }
  }

  /** After a complete scan every finished issue effect is traced to its issue, and no issue has two markers. */
  lemma {:induction false} ScanTracesIssues(journal: Journal, origins: Origins, order: seq<Key>, searches: map<Key, Search>)
    requires Sound(journal) && DistinctMarkers(journal) && UniqueIssues(origins)
    requires forall i, j :: 0 <= i < j < |order| ==> order[i] != order[j]
    requires forall k :: k in order ==> k in journal
    ensures var r := ReconcileAll(journal, origins, order, searches);
            UniqueIssues(r.origins) && (!r.stopped ==> AllTraced(r.journal, r.origins, order))
  {
    if order != [] {
      var init := order[..|order| - 1];
      var key := order[|order| - 1];
      assert order == init + [key];
      ScanTracesIssues(journal, origins, init, searches);
      ReconcileAllIsForward(journal, origins, init, searches);
      var r := ReconcileAll(journal, origins, init, searches);
      SameMarkers(journal, r.journal);
      ScanStepTraces(r, init, key, searches);
    }
  }

  /** What a search says of a record that is not finished yet. */
  ghost predicate SearchedAs(journal: Journal, key: Key, searches: map<Key, Search>, search: Search)
  {
    key in journal && journal[key].payload.IssuePayload? && journal[key].state != Done
    && (if key in searches then searches[key] else Failing) == search
  }

  lemma {:induction false} ScanLeavesOthers(journal: Journal, origins: Origins, order: seq<Key>, searches: map<Key, Search>, key: Key)
    requires key !in order
    ensures var r := ReconcileAll(journal, origins, order, searches);
            r.journal.Keys == journal.Keys && (key in journal ==> r.journal[key] == journal[key])
  {
    if order != [] { ScanLeavesOthers(journal, origins, order[..|order| - 1], searches, key); }
  }

  /** A complete scan finishes every unfinished issue effect its search finds, with the receipt found; leaves every one not
      found as it was; and met no failing search. */
  lemma {:induction false} ScanSettles(journal: Journal, origins: Origins, order: seq<Key>, searches: map<Key, Search>, key: Key)
    requires Distinct(order) && key in order && !ReconcileAll(journal, origins, order, searches).stopped
    ensures var r := ReconcileAll(journal, origins, order, searches);
            && !SearchedAs(journal, key, searches, Failing)
            && (SearchedAs(journal, key, searches, Missing) ==> key in r.journal && r.journal[key] == journal[key])
            && (forall receipt :: SearchedAs(journal, key, searches, Found(receipt)) ==>
                  key in r.journal && r.journal[key] == journal[key].(state := Done, result := Some(receipt)))
  {
    var init, last := order[..|order| - 1], order[|order| - 1];
    assert order == init + [last];
    var before := ReconcileAll(journal, origins, init, searches);
    if key == last {
      ScanLeavesOthers(journal, origins, init, searches, key);
    } else {
      ScanSettles(journal, origins, init, searches, key);
    }
  }

  // ---------------------------------------------------------------- the controller's journal

  /** The `effects` and `origins` tables of one controller. A call that stops midway leaves what it had already stored. */
  class EffectJournal {
    var effects: Journal
    var origins: Origins
    const retries: nat

    constructor (retries: nat)
      ensures effects == map[] && origins == map[] && this.retries == retries
    {
      effects, origins := map[], map[];
      this.retries := retries;
    }

    method Effect(call: Call) returns (outcome: Outcome, sent: bool)
      requires Sound(effects)
      modifies this`effects
      ensures Performed(effects, outcome, sent) == Perform(old(effects), retries, call)
      ensures Sound(effects) && AllForward(old(effects), effects)
    {
      PerformIsForward(effects, retries, call);
      sent := false;
      if call.admitted.Stop? { return Stopped, false; }
      if call.key in effects && effects[call.key].payload != call.payload { return PayloadChanged, false; }
      if call.key in effects && effects[call.key].state.Done? { return Returned(effects[call.key].result.value), false; }
      if call.key !in effects {
        effects := effects[call.key := Record(call.payload, Intent, 0, None)];
      }
      var record := effects[call.key];
      assert effects == old(effects)[call.key := record];
      if call.current.Stop? { return Stopped, false; }
      match call.search {
        case Failing => return Stopped, false;
        case Found(receipt) =>
          effects := effects[call.key := record.(state := Done, result := Some(receipt))];
          return Returned(receipt), false;
        case Missing =>
      }
      if record.state.Uncertain? {
        record := record.(attempts := record.attempts + 1);
        effects := effects[call.key := record];
        outcome := if record.attempts >= retries then NeedsOperator else Awaiting;
        return outcome, false;
      }
      record := record.(state := Uncertain);
      effects := effects[call.key := record];
      if call.armed.Stop? { return Stopped, false; }
      sent := true;
      if call.reply.Lost? { return Stopped, sent; }
      effects := effects[call.key := record.(state := Done, result := Some(call.reply.receipt))];
      outcome := Returned(call.reply.receipt);
    }

    method ReconcileOrigins(order: seq<Key>, searches: map<Key, Search>) returns (stopped: bool)
      modifies this
      ensures Reconciled(effects, origins, stopped) == ReconcileAll(old(effects), old(origins), order, searches)
    {
      stopped := false;
      ghost var journal, table := effects, origins;
      var i := 0;
      while i < |order|
        invariant 0 <= i <= |order|
        invariant Reconciled(effects, origins, stopped) == ReconcileAll(journal, table, order[..i], searches)
        invariant journal == old(effects) && table == old(origins)
      {
        var key := order[i];
        assert order[..i + 1][..i] == order[..i];
        if !stopped && key in effects && effects[key].payload.IssuePayload? {
          var record := effects[key];
          match Known(record, if key in searches then searches[key] else Failing) {
            case Failing => stopped := true;
            case Missing =>
            case Found(receipt) =>
              if Free(origins, record.payload.marker, receipt.number) {
                origins := RecordOrigin(origins, record.payload, receipt.number);
                effects := effects[key := record.(state := Done, result := Some(receipt))];
              } else {
                stopped := true;
              }
          }
        }
        i := i + 1;
      }
      assert order[..i] == order;
    }
  }
}
