/** Validating a subject merge plan: every card decided once, folds that go straight to a kept card, a text for each. */
module MergePlans {
  import opened Contracts

  /** A JSON value where an index belongs: an integer, a boolean, a decimal equal to an integer, a list or object, or
      anything else. */
  datatype Value = Whole(n: int) | Flag(b: bool) | Decimal(n: int) | Container | Opaque

  datatype Action = Keep | ClusterWith | Demote | UnknownAction

  datatype Decision = NoDecision | Decision(index: Value, action: Action, survivor: Value)

  datatype Survivor = NoSurvivor | Survivor(index: Value, blank: bool)

  datatype Plan = NoPlan | Plan(decisions: seq<Decision>, survivors: seq<Survivor>)

  datatype Problem =
    | NoObject | UnknownIndex | RepeatedIndex | UnknownActionNamed | MissingIndexes | BadFold | LackingText
    | Unhashable // a survivor index that cannot be a set member raises instead of being reported

  /** What passes for an integer: booleans do. */
  function AsInteger(v: Value): (n: Option<int>)
  {
    match v
    case Whole(n) => Some(n)
    case Flag(b) => Some(if b then 1 else 0)
    case _ => None
  }

  /** The integer a set member is equal to: booleans and whole decimals too. */
  function EqualInteger(v: Value): (n: Option<int>) { if v.Decimal? then Some(v.n) else AsInteger(v) }

  datatype Choice = Choice(action: Action, survivor: Value)

  // ---------------------------------------------------------------- the validator

  function Card(d: Decision): (n: Option<int>) { if d.Decision? then AsInteger(d.index) else None }

  function Refusal(count: nat, actions: map<int, Choice>, d: Decision): (result: Option<Problem>)
  {
    if Card(d).None? || !(0 <= Card(d).value < count) then Some(UnknownIndex)
    else if Card(d).value in actions then Some(RepeatedIndex)
    else if d.action.UnknownAction? then Some(UnknownActionNamed)
    else None
  }

  datatype Gathering = Gathering(actions: map<int, Choice>, problem: Option<Problem>)

  function Gather(count: nat, decisions: seq<Decision>): (result: Gathering)
  {
    if decisions == [] then Gathering(map[], None)
    else
      var before := Gather(count, decisions[..|decisions| - 1]);
      var d := decisions[|decisions| - 1];
      if before.problem.Some? then before
      else if Refusal(count, before.actions, d).Some? then before.(problem := Refusal(count, before.actions, d))
      else before.(actions := before.actions[Card(d).value := Choice(d.action, d.survivor)])
  }

  predicate GoodFold(actions: map<int, Choice>, index: int, survivor: Value)
  {
    var s := AsInteger(survivor);
    s.Some? && s.value != index && s.value in actions && actions[s.value].action.Keep?
  }

  predicate GoodFolds(actions: map<int, Choice>)
  {
    forall i :: i in actions && actions[i].action.ClusterWith? ==> GoodFold(actions, i, actions[i].survivor)
  }

  predicate Readable(s: Survivor) { s.Survivor? && !s.blank }

  predicate HasText(survivors: seq<Survivor>, head: int)
  {
    exists s :: s in survivors && Readable(s) && EqualInteger(s.index) == Some(head)
  }

  predicate Lacking(actions: map<int, Choice>, survivors: seq<Survivor>)
  {
    exists i :: i in actions && actions[i].action.ClusterWith? && AsInteger(actions[i].survivor).Some?
                && !HasText(survivors, AsInteger(actions[i].survivor).value)
  }

  function ProblemOf(count: nat, plan: Plan): (result: Option<Problem>)
  {
    if plan.NoPlan? then Some(NoObject)
    else
      var gathered := Gather(count, plan.decisions);
      if gathered.problem.Some? then gathered.problem
      else if exists i :: 0 <= i < count && i !in gathered.actions then Some(MissingIndexes)
      else if !GoodFolds(gathered.actions) then Some(BadFold)
      else if exists s :: s in plan.survivors && Readable(s) && s.index.Container? then Some(Unhashable)
      else if Lacking(gathered.actions, plan.survivors) then Some(LackingText)
      else None
  }

  // ---------------------------------------------------------------- what an accepted plan is

  /** What Python takes for an integer: `true` is 1 and `false` is 0. */
  ghost predicate Integral(v: Value, n: int) { v == Whole(n) || (v == Flag(true) && n == 1) || (v == Flag(false) && n == 0) }

  /** A survivor entry that is an object with a text, filed under the card, also as a whole decimal. */
  ghost predicate TextFor(s: Survivor, head: int)
  {
    s.Survivor? && !s.blank && (Integral(s.index, head) || s.index == Decimal(head))
  }

  ghost predicate Shown(survivors: seq<Survivor>, head: int) { exists s :: s in survivors && TextFor(s, head) }

  lemma ShownExactly(survivors: seq<Survivor>, head: int)
    ensures HasText(survivors, head) <==> Shown(survivors, head)
  {
    forall s: Survivor ensures Readable(s) && EqualInteger(s.index) == Some(head) <==> TextFor(s, head) {}
  }

  /** A decision is about the card its index is equal to, as an integer or a boolean. */
  lemma CardExactly(d: Decision, n: int)
    ensures Card(d) == Some(n) <==> d.Decision? && Integral(d.index, n)
    ensures Head(d) == Some(n) <==> d.Decision? && ((d.action == Keep && Integral(d.index, n))
                                                    || (d.action == ClusterWith && Integral(d.survivor, n)))
  {
  }

  /** The card a decision puts another under: itself when kept, none when demoted. */
  function Head(d: Decision): (n: Option<int>)
  {
    if !d.Decision? then None
    else match d.action
      case Keep => Card(d)
      case ClusterWith => AsInteger(d.survivor)
      case _ => None
  }

  /** Every card has exactly one decision, with an action. */
  ghost predicate Permutes(count: nat, decisions: seq<Decision>)
  {
    && (forall k :: 0 <= k < |decisions| ==>
          Card(decisions[k]).Some? && 0 <= Card(decisions[k]).value < count && !decisions[k].action.UnknownAction?)
    && (forall j, k :: 0 <= j < k < |decisions| ==> Card(decisions[j]) != Card(decisions[k]))
    && (forall i :: 0 <= i < count ==> Decides(decisions, i))
  }

  ghost predicate Decides(decisions: seq<Decision>, card: int)
  {
    exists k :: 0 <= k < |decisions| && Card(decisions[k]) == Some(card)
  }

  /** Heads are settled: a folded card goes to another card, and a card that is a head is its own head. */
  ghost predicate HeadsSettle(decisions: seq<Decision>)
  {
    forall k :: 0 <= k < |decisions| && decisions[k].Decision? && decisions[k].action.ClusterWith? ==>
      && Head(decisions[k]).Some? && Head(decisions[k]) != Card(decisions[k])
      && exists j :: 0 <= j < |decisions| && Card(decisions[j]) == Head(decisions[k]) && Head(decisions[j]) == Head(decisions[k])
  }

  ghost predicate HeadsHaveText(plan: Plan)
    requires plan.Plan?
  {
    forall k :: 0 <= k < |plan.decisions| && plan.decisions[k].Decision? && plan.decisions[k].action.ClusterWith?
                && Head(plan.decisions[k]).Some? ==>
      Shown(plan.survivors, Head(plan.decisions[k]).value)
  }

  ghost predicate WellFormed(count: nat, plan: Plan)
  {
    && plan.Plan? && Permutes(count, plan.decisions) && HeadsSettle(plan.decisions) && HeadsHaveText(plan)
    && HashableTexts(plan)
  }

  /** No text is filed under a list or an object. */
  ghost predicate HashableTexts(plan: Plan)
    requires plan.Plan?
  {
    forall s :: s in plan.survivors && s.Survivor? && !s.blank ==> s.index != Container
  }

  /** The gathered table is the decisions, by card. */
  ghost predicate Tabulates(actions: map<int, Choice>, decisions: seq<Decision>)
  {
    && (forall k :: 0 <= k < |decisions| ==>
          Card(decisions[k]).Some? && Card(decisions[k]).value in actions
          && actions[Card(decisions[k]).value] == Choice(decisions[k].action, decisions[k].survivor))
    && (forall i :: i in actions ==> exists k :: 0 <= k < |decisions| && Card(decisions[k]) == Some(i))
  }

  ghost predicate DecidedOnce(count: nat, decisions: seq<Decision>)
  {
    && (forall k :: 0 <= k < |decisions| ==>
          Card(decisions[k]).Some? && 0 <= Card(decisions[k]).value < count && !decisions[k].action.UnknownAction?)
    && (forall j, k :: 0 <= j < k < |decisions| ==> Card(decisions[j]) != Card(decisions[k]))
  }

  lemma {:induction false} GatherTabulates(count: nat, decisions: seq<Decision>)
    ensures Gather(count, decisions).problem.None? <==> DecidedOnce(count, decisions)
    ensures Gather(count, decisions).problem.None? ==> Tabulates(Gather(count, decisions).actions, decisions)
  {
    if decisions != [] {
      var n := |decisions| - 1;
      var init := decisions[..n];
      GatherTabulates(count, init);
      var before := Gather(count, init);
      if before.problem.None? {
        OneMoreDecided(count, init, before.actions, decisions[n]);
        assert decisions == init + [decisions[n]];
      } else if DecidedOnce(count, decisions) {
        assert DecidedOnce(count, init);
      }
    }
  }

  lemma OneMoreDecided(count: nat, decisions: seq<Decision>, actions: map<int, Choice>, d: Decision)
    requires DecidedOnce(count, decisions) && Tabulates(actions, decisions)
    ensures Refusal(count, actions, d).None? <==> DecidedOnce(count, decisions + [d])
    ensures Refusal(count, actions, d).None? ==>
              Tabulates(actions[Card(d).value := Choice(d.action, d.survivor)], decisions + [d])
  {
    var all := decisions + [d];
    if Refusal(count, actions, d).None? {
      var next := actions[Card(d).value := Choice(d.action, d.survivor)];
      forall i | i in next ensures exists k :: 0 <= k < |all| && Card(all[k]) == Some(i) {
        if i == Card(d).value {
          assert Card(all[|decisions|]) == Some(i);
        } else {
          var k :| 0 <= k < |decisions| && Card(decisions[k]) == Some(i);
          assert Card(all[k]) == Some(i);
        }
      }
    }
    assert all[|decisions|] == d;
    if Card(d).Some? && Card(d).value in actions {
      var k :| 0 <= k < |decisions| && Card(decisions[k]) == Some(Card(d).value);
      assert all[k] == decisions[k];
    }
  }

  lemma FoldsSettle(actions: map<int, Choice>, decisions: seq<Decision>)
    requires Tabulates(actions, decisions)
    ensures GoodFolds(actions) <==> HeadsSettle(decisions)
  {
    if GoodFolds(actions) {
      forall k | 0 <= k < |decisions| && decisions[k].Decision? && decisions[k].action.ClusterWith?
        ensures Head(decisions[k]).Some? && Head(decisions[k]) != Card(decisions[k])
        ensures exists j :: 0 <= j < |decisions| && Card(decisions[j]) == Head(decisions[k]) && Head(decisions[j]) == Head(decisions[k])
      {
        assert GoodFold(actions, Card(decisions[k]).value, decisions[k].survivor);
        var s := Head(decisions[k]).value;
        var j :| 0 <= j < |decisions| && Card(decisions[j]) == Some(s);
        assert decisions[j].action.Keep?;
      }
    }
    if HeadsSettle(decisions) {
      forall i | i in actions && actions[i].action.ClusterWith? ensures GoodFold(actions, i, actions[i].survivor) {
        var k :| 0 <= k < |decisions| && Card(decisions[k]) == Some(i);
        assert decisions[k].action.ClusterWith?;
        var j :| 0 <= j < |decisions| && Card(decisions[j]) == Head(decisions[k]) && Head(decisions[j]) == Head(decisions[k]);
        assert Head(decisions[j]) == Card(decisions[j]);
      }
    }
  }

  lemma TextsMatch(actions: map<int, Choice>, plan: Plan)
    requires plan.Plan? && Tabulates(actions, plan.decisions)
    ensures !Lacking(actions, plan.survivors) <==> HeadsHaveText(plan)
  {
    var decisions := plan.decisions;
    forall head: int ensures HasText(plan.survivors, head) <==> Shown(plan.survivors, head) { ShownExactly(plan.survivors, head); }
    if HeadsHaveText(plan) {
      forall i | i in actions && actions[i].action.ClusterWith? && AsInteger(actions[i].survivor).Some?
        ensures HasText(plan.survivors, AsInteger(actions[i].survivor).value)
      {
        var k :| 0 <= k < |decisions| && Card(decisions[k]) == Some(i);
        assert decisions[k].action.ClusterWith?;
      }
    }
    if !Lacking(actions, plan.survivors) {
      forall k | 0 <= k < |decisions| && decisions[k].Decision? && decisions[k].action.ClusterWith? && Head(decisions[k]).Some?
        ensures Shown(plan.survivors, Head(decisions[k]).value)
      {
        assert Card(decisions[k]).value in actions;
      }
    }
  }

  /** A plan is accepted exactly when its decisions are a permutation of the cards, its heads are settled, every head that
      others fold into has a text, and no index breaks the set of texts. */
  lemma AcceptedExactly(count: nat, plan: Plan)
    ensures ProblemOf(count, plan).None? <==> WellFormed(count, plan)
  {
    if plan.Plan? {
      GatherTabulates(count, plan.decisions);
      var gathered := Gather(count, plan.decisions);
      if gathered.problem.None? {
        FoldsSettle(gathered.actions, plan.decisions);
        TextsMatch(gathered.actions, plan);
        CompleteExactly(count, gathered.actions, plan.decisions);
      }
    }
  }

  ghost predicate Covers(count: nat, actions: map<int, Choice>) { forall i: int :: 0 <= i < count ==> i in actions }

  lemma CompleteExactly(count: nat, actions: map<int, Choice>, decisions: seq<Decision>)
    requires DecidedOnce(count, decisions) && Tabulates(actions, decisions)
    ensures Covers(count, actions) <==> Permutes(count, decisions)
  {
    if Covers(count, actions) {
      forall i: int | 0 <= i < count ensures Decides(decisions, i) { assert i in actions; }
    }
    if Permutes(count, decisions) {
      forall i: int | 0 <= i < count ensures i in actions {
        assert Decides(decisions, i);
        var k :| 0 <= k < |decisions| && Card(decisions[k]) == Some(i);
      }
    }
  }

  // ---------------------------------------------------------------- which problem is reported

  /** A decision the plan may not contain after the earlier ones: about no card, about a decided card, or without an action. */
  ghost predicate Refused(count: nat, earlier: seq<Decision>, d: Decision, problem: Problem)
  {
    match problem
    case UnknownIndex => !exists n :: 0 <= n < count && Card(d) == Some(n)
    case RepeatedIndex => exists n :: 0 <= n < count && Card(d) == Some(n) && Decides(earlier, n)
    case UnknownActionNamed =>
      (exists n :: 0 <= n < count && Card(d) == Some(n) && !Decides(earlier, n)) && d.action == UnknownAction
    case _ => false
  }

  lemma RefusalIsReported(count: nat, actions: map<int, Choice>, earlier: seq<Decision>, d: Decision, problem: Problem)
    requires Tabulates(actions, earlier) && Refused(count, earlier, d, problem)
    ensures Refusal(count, actions, d) == Some(problem)
  {
    if Card(d).Some? {
      var n := Card(d).value;
      if n in actions {
        var k :| 0 <= k < |earlier| && Card(earlier[k]) == Some(n);
        assert Decides(earlier, n);
      }
      assert Decides(earlier, n) ==> n in actions;
    }
  }

  /** The first decision that breaks a rule names the problem. */
  lemma FirstRefusalIsReported(count: nat, plan: Plan, k: nat, problem: Problem)
    requires plan.Plan? && k < |plan.decisions| && DecidedOnce(count, plan.decisions[..k])
    requires Refused(count, plan.decisions[..k], plan.decisions[k], problem)
    ensures ProblemOf(count, plan) == Some(problem)
  {
    var decisions := plan.decisions;
    GatherTabulates(count, decisions[..k]);
    RefusalIsReported(count, Gather(count, decisions[..k]).actions, decisions[..k], decisions[k], problem);
    assert decisions[..k + 1][..k] == decisions[..k];
    GatherStops(count, decisions, k + 1);
  }

  /** With every decision in order the next problem is a card left out, then a bad fold, then a text filed under a list or
      object, then a head without a text. */
  lemma LaterProblemIsReported(count: nat, plan: Plan)
    requires plan.Plan? && DecidedOnce(count, plan.decisions)
    ensures ProblemOf(count, plan)
            == if !Permutes(count, plan.decisions) then Some(MissingIndexes)
               else if !HeadsSettle(plan.decisions) then Some(BadFold)
               else if !HashableTexts(plan) then Some(Unhashable)
               else if !HeadsHaveText(plan) then Some(LackingText)
               else None
  {
    GatherTabulates(count, plan.decisions);
    var gathered := Gather(count, plan.decisions);
    FoldsSettle(gathered.actions, plan.decisions);
    TextsMatch(gathered.actions, plan);
    CompleteExactly(count, gathered.actions, plan.decisions);
  }

  // ---------------------------------------------------------------- merging by an accepted plan

  /** Where a card ends up: its head, or itself when it has none. */
  function Lands(decisions: seq<Decision>, card: int): (n: int)
  {
    if decisions == [] then card
    else
      var d := decisions[|decisions| - 1];
      if Card(d) == Some(card) then if Head(d).Some? then Head(d).value else card
      else Lands(decisions[..|decisions| - 1], card)
  }

  lemma {:induction false} LandsOnHead(count: nat, decisions: seq<Decision>, k: nat)
    requires DecidedOnce(count, decisions) && k < |decisions|
    ensures Lands(decisions, Card(decisions[k]).value)
            == if Head(decisions[k]).Some? then Head(decisions[k]).value else Card(decisions[k]).value
  {
    var n := |decisions| - 1;
    if k < n { LandsOnHead(count, decisions[..n], k); }
  }

  /** Folding by an accepted plan is finished in one step: no card lands on one that moves on, so there is no chain and
      no cycle, and a card that moved lands on another card of the window with a text. */
  lemma MergingOnceIsEnough(count: nat, plan: Plan, card: int)
    requires WellFormed(count, plan) && 0 <= card < count
    ensures var head := Lands(plan.decisions, card);
            && 0 <= head < count
            && Lands(plan.decisions, head) == head
            && (head != card ==> Shown(plan.survivors, head))
  {
    var decisions := plan.decisions;
    assert Decides(decisions, card);
    var k :| 0 <= k < |decisions| && Card(decisions[k]) == Some(card);
    LandsOnHead(count, decisions, k);
    if decisions[k].action.ClusterWith? {
      var j :| 0 <= j < |decisions| && Card(decisions[j]) == Head(decisions[k]) && Head(decisions[j]) == Head(decisions[k]);
      LandsOnHead(count, decisions, j);
    }
  }

  lemma {:induction false} AllCards(count: nat) returns (all: set<Option<int>>)
    ensures |all| == count && forall c :: c in all <==> c.Some? && 0 <= c.value < count
  {
    if count == 0 { return {}; }
    var fewer := AllCards(count - 1);
    all := fewer + {Some(count - 1)};
  }

  lemma {:induction false} DistinctCards(count: nat, decisions: seq<Decision>)
    requires DecidedOnce(count, decisions)
    ensures |set d | d in decisions :: Card(d)| == |decisions|
  {
    if decisions != [] {
      var n := |decisions| - 1;
      DistinctCards(count, decisions[..n]);
      assert decisions == decisions[..n] + [decisions[n]];
      assert (set d | d in decisions :: Card(d)) == (set d | d in decisions[..n] :: Card(d)) + {Card(decisions[n])};
    }
  }

  /** An accepted plan has as many decisions as there are cards. */
  lemma OneDecisionPerCard(count: nat, plan: Plan)
    requires WellFormed(count, plan)
    ensures |plan.decisions| == count
  {
    DistinctCards(count, plan.decisions);
    var all := AllCards(count);
    var cards := set d | d in plan.decisions :: Card(d);
    forall c | c in all ensures c in cards {
      assert Decides(plan.decisions, c.value);
      var k :| 0 <= k < |plan.decisions| && Card(plan.decisions[k]) == c;
      assert plan.decisions[k] in plan.decisions;
    }
    assert cards == all;
  }

  // ---------------------------------------------------------------- the loops

  method GatherActions(count: nat, decisions: seq<Decision>) returns (actions: map<int, Choice>, problem: Option<Problem>)
    ensures Gather(count, decisions) == Gathering(actions, problem)
  {
    actions, problem := map[], None;
    var k := 0;
    while k < |decisions|
      invariant 0 <= k <= |decisions| && Gather(count, decisions[..k]) == Gathering(actions, None)
      invariant problem.None?
    {
      assert decisions[..k + 1][..k] == decisions[..k];
      problem := Refusal(count, actions, decisions[k]);
      if problem.Some? {
        GatherStops(count, decisions, k + 1);
        return;
      }
      actions := actions[Card(decisions[k]).value := Choice(decisions[k].action, decisions[k].survivor)];
      k := k + 1;
    }
    assert decisions[..k] == decisions;
  }

  /** The cards others fold into, unless a fold is refused. */
  method CollectHeads(actions: map<int, Choice>, decisions: seq<Decision>) returns (heads: set<int>, good: bool)
    requires Tabulates(actions, decisions)
    ensures good <==> GoodFolds(actions)
    ensures good ==> heads == HeadsOf(decisions)
  {
    heads := {};
    var k := 0;
    while k < |decisions|
      invariant 0 <= k <= |decisions|
      invariant forall j :: 0 <= j < k && decisions[j].action.ClusterWith? ==>
                  GoodFold(actions, Card(decisions[j]).value, decisions[j].survivor)
      invariant heads == HeadsOf(decisions[..k])
    {
      var index, choice := Card(decisions[k]).value, Choice(decisions[k].action, decisions[k].survivor);
      assert actions[index] == choice;
      assert decisions[..k + 1][..k] == decisions[..k];
      if choice.action.ClusterWith? {
        if !GoodFold(actions, index, choice.survivor) { return heads, false; }
        heads := heads + {AsInteger(choice.survivor).value};
      }
      k := k + 1;
    }
    assert decisions[..k] == decisions;
    good := true;
  }

  method MergePlanErrors(count: nat, plan: Plan) returns (problem: Option<Problem>)
    ensures problem == ProblemOf(count, plan)
    ensures problem.None? <==> WellFormed(count, plan)
  {
    AcceptedExactly(count, plan);
    if plan.NoPlan? { return Some(NoObject); }
    var actions, refused := GatherActions(count, plan.decisions);
    if refused.Some? { return refused; }
    if exists i :: 0 <= i < count && i !in actions { return Some(MissingIndexes); }
    GatherTabulates(count, plan.decisions);
    var heads, good := CollectHeads(actions, plan.decisions);
    if !good { return Some(BadFold); }
    if exists s :: s in plan.survivors && Readable(s) && s.index.Container? { return Some(Unhashable); }
    LackingHeads(actions, plan);
    if exists head :: head in heads && !HasText(plan.survivors, head) { return Some(LackingText); }
    problem := None;
  }

  lemma LackingHeads(actions: map<int, Choice>, plan: Plan)
    requires plan.Plan? && Tabulates(actions, plan.decisions)
    ensures Lacking(actions, plan.survivors) <==> exists h :: h in HeadsOf(plan.decisions) && !HasText(plan.survivors, h)
  {
    HeadsAreFoldTargets(actions, plan.decisions);
    if Lacking(actions, plan.survivors) {
      var i :| i in actions && actions[i].action.ClusterWith? && AsInteger(actions[i].survivor).Some?
               && !HasText(plan.survivors, AsInteger(actions[i].survivor).value);
      assert AsInteger(actions[i].survivor).value in HeadsOf(plan.decisions);
    }
  }

  /** Cards that others fold into. */
  function HeadsOf(decisions: seq<Decision>): (result: set<int>)
  {
    if decisions == [] then {}
    else
      var d := decisions[|decisions| - 1];
      HeadsOf(decisions[..|decisions| - 1])
      + if d.Decision? && d.action.ClusterWith? && AsInteger(d.survivor).Some? then {AsInteger(d.survivor).value} else {}
  }

  lemma {:induction false} HeadsOfMembers(decisions: seq<Decision>)
    ensures forall h :: h in HeadsOf(decisions) <==>
              exists k :: 0 <= k < |decisions| && decisions[k].Decision? && decisions[k].action.ClusterWith?
                          && AsInteger(decisions[k].survivor) == Some(h)
  {
    if decisions != [] {
      var n := |decisions| - 1;
      HeadsOfMembers(decisions[..n]);
      assert forall k :: 0 <= k < n ==> decisions[k] == decisions[..n][k];
    }
  }

  lemma HeadsAreFoldTargets(actions: map<int, Choice>, decisions: seq<Decision>)
    requires Tabulates(actions, decisions)
    ensures forall h :: h in HeadsOf(decisions) <==>
              exists i :: i in actions && actions[i].action.ClusterWith? && AsInteger(actions[i].survivor) == Some(h)
  {
    HeadsOfMembers(decisions);
    forall h | h in HeadsOf(decisions)
      ensures exists i :: i in actions && actions[i].action.ClusterWith? && AsInteger(actions[i].survivor) == Some(h)
    {
      var k :| 0 <= k < |decisions| && decisions[k].Decision? && decisions[k].action.ClusterWith?
               && AsInteger(decisions[k].survivor) == Some(h);
      assert Card(decisions[k]).value in actions;
    }
    forall h | exists i :: i in actions && actions[i].action.ClusterWith? && AsInteger(actions[i].survivor) == Some(h)
      ensures h in HeadsOf(decisions)
    {
      var i :| i in actions && actions[i].action.ClusterWith? && AsInteger(actions[i].survivor) == Some(h);
      var k :| 0 <= k < |decisions| && Card(decisions[k]) == Some(i);
    }
  }

  lemma {:induction false} GatherStops(count: nat, decisions: seq<Decision>, k: nat)
    requires k <= |decisions| && Gather(count, decisions[..k]).problem.Some?
    ensures Gather(count, decisions) == Gather(count, decisions[..k])
  {
    if k < |decisions| {
      assert decisions[..|decisions| - 1][..k] == decisions[..k];
      GatherStops(count, decisions[..|decisions| - 1], k);
    } else {
      assert decisions[..k] == decisions;
    }
  }
}
