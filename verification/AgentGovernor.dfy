/** The agent loop's governor: which kind of step comes next, and whether a tool call is admitted. */
module AgentGovernor {

  const MAX_TOOL_CALLS: nat := 32

  /** Durations are in nanoseconds. */
  const FINAL_RESERVE: nat := 20_000_000_000

  datatype NextStep = Tools | Final | Exhausted

  datatype Counters = Counters(iteration: int, toolAttempts: nat)

  /** What a host asks: the next step, or one tool call, with the time it has left. */
  datatype Call = Step(remaining: nat) | Tool(remaining: nat)

  function Limit(maxSteps: int): (n: nat) { if maxSteps >= 1 then maxSteps else 1 }

  /** The answer to step number `iteration`. */
  function Answer(iteration: int, toolAttempts: nat, remaining: nat, maxSteps: int): (step: NextStep)
  {
    if remaining == 0 || iteration > Limit(maxSteps) then Exhausted
    else if iteration == Limit(maxSteps) || toolAttempts >= MAX_TOOL_CALLS || remaining <= FINAL_RESERVE then Final
    else Tools
  }

  predicate Admits(c: Counters, remaining: nat) { c.toolAttempts < MAX_TOOL_CALLS && remaining > FINAL_RESERVE }

  function After(c: Counters, call: Call): (next: Counters)
  {
    match call
    case Step(_) => c.(iteration := c.iteration + 1)
    case Tool(remaining) => if Admits(c, remaining) then c.(toolAttempts := c.toolAttempts + 1) else c
  }

  function AfterAll(c: Counters, calls: seq<Call>): (next: Counters)
    decreases |calls|
  {
    if calls == [] then c else AfterAll(After(c, calls[0]), calls[1..])
  }

  /** The next step as the governor would answer it now. */
  function Ahead(c: Counters, remaining: nat, maxSteps: int): (step: NextStep)
  {
    Answer(c.iteration + 1, c.toolAttempts, remaining, maxSteps)
  }

  /** The answers to the step requests among the calls, in order. */
  function Answers(c: Counters, calls: seq<Call>, maxSteps: int): (steps: seq<NextStep>)
    decreases |calls|
  {
    if calls == [] then []
    else
      (if calls[0].Step? then [Ahead(c, calls[0].remaining, maxSteps)] else [])
      + Answers(After(c, calls[0]), calls[1..], maxSteps)
  }

  function Admitted(c: Counters, calls: seq<Call>): (n: nat)
    decreases |calls|
  {
    if calls == [] then 0
    else (if calls[0].Tool? && Admits(c, calls[0].remaining) then 1 else 0) + Admitted(After(c, calls[0]), calls[1..])
  }

  /** Time only runs out. */
  ghost predicate Elapsing(calls: seq<Call>, from: nat)
  {
    && (forall i :: 0 <= i < |calls| ==> calls[i].remaining <= from)
    && (forall i, j :: 0 <= i < j < |calls| ==> calls[j].remaining <= calls[i].remaining)
  }

  function Rank(s: NextStep): (n: nat) { match s case Tools => 0 case Final => 1 case Exhausted => 2 }

  /** Tools first, then final steps, then exhaustion. */
  ghost predicate InPhases(answers: seq<NextStep>)
  {
    forall i, j :: 0 <= i < j < |answers| ==> Rank(answers[i]) <= Rank(answers[j])
  }

  function Count(answers: seq<NextStep>, s: NextStep): (n: nat)
    decreases |answers|
  {
    if answers == [] then 0 else (if answers[0] == s then 1 else 0) + Count(answers[1..], s)
  }

  lemma {:induction false} PhasesAdvance(c: Counters, calls: seq<Call>, from: nat, maxSteps: int)
    requires Elapsing(calls, from)
    ensures var answers := Answers(c, calls, maxSteps);
            && InPhases(answers)
            && forall i :: 0 <= i < |answers| ==> Rank(Ahead(c, from, maxSteps)) <= Rank(answers[i])
    decreases |calls|
  {
    if calls != [] {
      PhasesAdvance(After(c, calls[0]), calls[1..], calls[0].remaining, maxSteps);
    }
  }

  /** Steps are used up in order: few enough have tools, none is left after the limit. */
  lemma {:induction false} StepsAreCounted(c: Counters, calls: seq<Call>, maxSteps: int)
    requires c.iteration >= 0
    ensures var answers := Answers(c, calls, maxSteps);
            var left := if c.iteration < Limit(maxSteps) then Limit(maxSteps) - c.iteration else 0;
            && Count(answers, Tools) <= (if left == 0 then 0 else left - 1)
            && Count(answers, Tools) + Count(answers, Final) <= left
            && AfterAll(c, calls).iteration == c.iteration + |answers|
    decreases |calls|
  {
    if calls != [] {
      var answers := Answers(c, calls, maxSteps);
      StepsAreCounted(After(c, calls[0]), calls[1..], maxSteps);
      var rest := Answers(After(c, calls[0]), calls[1..], maxSteps);
      assert if calls[0].Step? then answers[1..] == rest else answers == rest;
    }
  }

  lemma {:induction false} AttemptsAreCounted(c: Counters, calls: seq<Call>)
    requires c.toolAttempts <= MAX_TOOL_CALLS
    ensures AfterAll(c, calls).toolAttempts == c.toolAttempts + Admitted(c, calls) <= MAX_TOOL_CALLS
    decreases |calls|
  {
    if calls != [] { AttemptsAreCounted(After(c, calls[0]), calls[1..]); }
  }

  /** A new turn, however its steps and tool calls interleave: answers come in phases, tools are offered at most one step
      short of the limit, at most 32 calls are admitted, and every answer past the limit is `Exhausted`. */
  lemma TurnsAreGoverned(calls: seq<Call>, from: nat, maxSteps: int)
    requires Elapsing(calls, from)
    ensures var answers := Answers(Counters(0, 0), calls, maxSteps);
            && InPhases(answers)
            && Count(answers, Tools) <= Limit(maxSteps) - 1
            && Count(answers, Tools) + Count(answers, Final) <= Limit(maxSteps)
            && Admitted(Counters(0, 0), calls) <= MAX_TOOL_CALLS
            && (|answers| > Limit(maxSteps) ==> answers[|answers| - 1] == Exhausted)
  {
    PhasesAdvance(Counters(0, 0), calls, from, maxSteps);
    StepsAreCounted(Counters(0, 0), calls, maxSteps);
    AttemptsAreCounted(Counters(0, 0), calls);
    var answers := Answers(Counters(0, 0), calls, maxSteps);
    if |answers| > Limit(maxSteps) && answers[|answers| - 1] != Exhausted {
      AllBusy(answers);
    }
  }

  /** A sequence of phases that does not end in exhaustion has none. */
  lemma {:induction false} AllBusy(answers: seq<NextStep>)
    requires InPhases(answers) && (answers != [] ==> answers[|answers| - 1] != Exhausted)
    ensures Count(answers, Tools) + Count(answers, Final) == |answers|
    decreases |answers|
  {
    if answers != [] {
      assert Rank(answers[0]) <= Rank(answers[|answers| - 1]);
      AllBusy(answers[1..]);
    }
  }

  /** While time is left, a turn always reaches a final step: the step at the limit, if none came before. */
  lemma {:induction false} FinalStepComes(c: Counters, calls: seq<Call>, maxSteps: int)
    requires 0 <= c.iteration < Limit(maxSteps)
    requires forall i :: 0 <= i < |calls| ==> calls[i].remaining > 0
    requires |Answers(c, calls, maxSteps)| >= Limit(maxSteps) - c.iteration
    ensures Final in Answers(c, calls, maxSteps)
    decreases |calls|
  {
    if calls[0].Step? && c.iteration + 1 == Limit(maxSteps) {
      assert Answers(c, calls, maxSteps)[0] == Final;
    } else {
      FinalStepComes(After(c, calls[0]), calls[1..], maxSteps);
    }
  }

  /** A step refused tools before the limit means that no later tool call is admitted. */
  lemma {:induction false} EarlyFinalEndsTools(c: Counters, calls: seq<Call>, remaining: nat, maxSteps: int)
    requires c.iteration + 1 < Limit(maxSteps) && Ahead(c, remaining, maxSteps) != Tools
    requires Elapsing(calls, remaining)
    ensures Admitted(c.(iteration := c.iteration + 1), calls) == 0
    decreases |calls|
  {
    NoMoreTools(c.(iteration := c.iteration + 1), calls, remaining);
  }

  lemma {:induction false} NoMoreTools(c: Counters, calls: seq<Call>, remaining: nat)
    requires Elapsing(calls, remaining) && !Admits(c, remaining)
    ensures Admitted(c, calls) == 0
    decreases |calls|
  {
    if calls != [] { NoMoreTools(After(c, calls[0]), calls[1..], remaining); }
  }

  // ---------------------------------------------------------------- what is admitted and answered, exactly

  /** Tool calls made with more than twenty seconds left. */
  ghost function Timely(calls: seq<Call>): (n: nat)
  {
    if calls == [] then 0
    else Timely(calls[..|calls| - 1])
         + if calls[|calls| - 1].Tool? && calls[|calls| - 1].remaining > 20_000_000_000 then 1 else 0
  }

  ghost function Asked(calls: seq<Call>): (n: nat)
  {
    if calls == [] then 0 else Asked(calls[..|calls| - 1]) + if calls[|calls| - 1].Step? then 1 else 0
  }

  lemma {:induction false} CountsFromFront(call: Call, calls: seq<Call>)
    ensures Timely([call] + calls) == Timely([call]) + Timely(calls)
    ensures Asked([call] + calls) == Asked([call]) + Asked(calls)
  {
    if calls == [] {
      assert [call] + calls == [call];
    } else {
      var n := |calls| - 1;
      assert ([call] + calls)[..|calls|] == [call] + calls[..n];
      CountsFromFront(call, calls[..n]);
    }
  }

  lemma OneCall(call: Call)
    ensures Timely([call]) == if call.Tool? && call.remaining > 20_000_000_000 then 1 else 0
    ensures Asked([call]) == if call.Step? then 1 else 0
  {
    assert [call][..0] == [];
  }

  ghost function Capped(attempts: nat): (n: nat) { if attempts <= 32 then attempts else 32 }

  /** A turn admits exactly its first 32 timely tool calls. */
  lemma {:induction false} AdmittedExactly(c: Counters, calls: seq<Call>)
    requires c.toolAttempts <= 32
    ensures c.toolAttempts + Admitted(c, calls) == Capped(c.toolAttempts + Timely(calls))
    decreases |calls|
  {
    if calls != [] {
      assert calls == [calls[0]] + calls[1..];
      CountsFromFront(calls[0], calls[1..]);
      OneCall(calls[0]);
      AdmittedExactly(After(c, calls[0]), calls[1..]);
    }
  }

  /** The answer to the n-th request of a turn after some timely tool calls: exhausted without time or past the limit, which is
      at least one step; tools with more than twenty seconds, an attempt and a later step left; a final step otherwise. */
  ghost function Said(n: int, attempts: nat, remaining: nat, maxSteps: int): (step: NextStep)
  {
    var limit := if maxSteps > 1 then maxSteps else 1;
    if remaining == 0 || n > limit then Exhausted
    else if n < limit && attempts < 32 && remaining > 20_000_000_000 then Tools
    else Final
  }

  lemma {:induction false} AnsweredExactly(c: Counters, calls: seq<Call>, j: nat, maxSteps: int)
    requires c.toolAttempts <= 32 && j < |calls| && calls[j].Step?
    ensures var answers, n := Answers(c, calls, maxSteps), Asked(calls[..j]);
            && n < |answers|
            && answers[n] == Said(c.iteration + n + 1, Capped(c.toolAttempts + Timely(calls[..j])), calls[j].remaining, maxSteps)
    decreases |calls|
  {
    if j == 0 {
      assert calls[..0] == [];
    } else {
      var rest := calls[1..];
      assert calls[..j] == [calls[0]] + rest[..j - 1];
      CountsFromFront(calls[0], rest[..j - 1]);
      OneCall(calls[0]);
      AnsweredExactly(After(c, calls[0]), rest, j - 1, maxSteps);
    }
  }

  // ---------------------------------------------------------------- the loop object and its driver

  class AgentLoop {
    var iteration: int
    var toolAttempts: nat

    function State(): (next: Counters) reads this { Counters(iteration, toolAttempts) }

    constructor ()
      ensures State() == Counters(0, 0)
    {
      iteration, toolAttempts := 0, 0;
    }

    /** Tools are offered only before the last step and only when a call would be admitted; an answer short of exhaustion
        has time and a step left; and no later answer, with no more time, goes back a phase. */
    method NextStep(remaining: nat, maxSteps: int) returns (next: NextStep)
      modifies this
      ensures next == Tools ==> iteration < Limit(maxSteps) && Admits(State(), remaining)
      ensures next != Exhausted ==> iteration <= Limit(maxSteps) && remaining > 0
      ensures forall later: nat :: later <= remaining ==> Rank(next) <= Rank(Ahead(State(), later, maxSteps))
      ensures State() == After(old(State()), Step(remaining))
      ensures next == Ahead(old(State()), remaining, maxSteps)
    {
      iteration := iteration + 1;
      var limit := Limit(maxSteps);
      if remaining == 0 || iteration > limit {
        next := Exhausted;
      } else if iteration == limit || toolAttempts >= MAX_TOOL_CALLS || remaining <= FINAL_RESERVE {
        next := Final;
      } else {
        next := Tools;
      }
    }

    /** Counts attempts, including invalid, cached and failed calls. Attempts stay within the limit, a refused call costs
        nothing, and once one is refused every later one is, whatever steps come between, since time only runs out. */
    method AdmitTool(remaining: nat) returns (admitted: bool)
      modifies this
      ensures old(toolAttempts) <= MAX_TOOL_CALLS ==> toolAttempts <= MAX_TOOL_CALLS
      ensures admitted ==> toolAttempts == old(toolAttempts) + 1 && remaining > FINAL_RESERVE
      ensures !admitted ==> State() == old(State())
      ensures !admitted ==> forall calls :: Elapsing(calls, remaining) ==> Admitted(State(), calls) == 0
      ensures admitted == Admits(old(State()), remaining)
      ensures State() == After(old(State()), Tool(remaining))
    {
      if toolAttempts >= MAX_TOOL_CALLS || remaining <= FINAL_RESERVE {
        forall calls | Elapsing(calls, remaining) ensures Admitted(State(), calls) == 0 {
          NoMoreTools(State(), calls, remaining);
        }
        return false;
      }
      toolAttempts := toolAttempts + 1;
      admitted := true;
    }
  }

  /** A host that stops when told its steps are exhausted: at step `k` it has `left(k)` time, and tries `tries(k)` calls. */
  method Drive(left: nat -> nat, tries: nat -> nat, maxSteps: int) returns (steps: nat, tools: nat)
    ensures 1 <= steps <= Limit(maxSteps) + 1
    ensures tools <= MAX_TOOL_CALLS
    ensures left(steps - 1) > 0 ==> steps == Limit(maxSteps) + 1
  {
    var agent := new AgentLoop();
    steps, tools := 0, 0;
    while true
      invariant fresh(agent)
      invariant agent.iteration == steps <= Limit(maxSteps)
      invariant agent.toolAttempts == tools <= MAX_TOOL_CALLS
      decreases Limit(maxSteps) + 1 - steps
    {
      var next := agent.NextStep(left(steps), maxSteps);
      steps := steps + 1;
      if next == Exhausted { return; }
      if next == Tools {
        var k := 0;
        while k < tries(steps - 1)
          invariant fresh(agent)
          invariant agent.iteration == steps <= Limit(maxSteps)
          invariant agent.toolAttempts == tools <= MAX_TOOL_CALLS
        {
          var admitted := agent.AdmitTool(left(steps - 1));
          if admitted { tools := tools + 1; }
          k := k + 1;
        }
      }
    }
  }
}
