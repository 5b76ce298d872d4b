/** The worker supervisor: reconciling a fleet with its desired size, and draining it at a stop. */
module WorkerSupervision {
  import opened Contracts

  /** Workers by spawn index. `signals` is every retire signal sent so far, in order, and `reaped` the workers dropped
      because they were seen finished. */
  datatype Fleet = Workers(next: nat, active: seq<nat>, retired: seq<nat>, signals: seq<nat>, reaped: set<nat>)

  const NEW := Workers(0, [], [], [], {})

  /** One pass: the desired size, and the workers seen finished at each of its two reaps. */
  datatype Pass = Pass(desired: nat, doneActive: set<nat>, doneRetired: set<nat>)

  // ---------------------------------------------------------------- one pass

  function Living(workers: seq<nat>, done: set<nat>): (some: seq<nat>)
  {
    if workers == [] then []
    else
      var init := Living(workers[..|workers| - 1], done);
      if workers[|workers| - 1] in done then init else init + [workers[|workers| - 1]]
  }

  function Dropped(workers: seq<nat>, done: set<nat>): (some: set<nat>) { set w | w in workers && w in done }

  function Reaped(f: Fleet, pass: Pass): (next: Fleet)
  {
    f.(active := Living(f.active, pass.doneActive), retired := Living(f.retired, pass.doneRetired),
       reaped := f.reaped + Dropped(f.active, pass.doneActive) + Dropped(f.retired, pass.doneRetired))
  }

  function Grown(f: Fleet, desired: nat): (next: Fleet)
    decreases desired - |f.active|
  {
    if |f.active| >= desired then f else Grown(f.(next := f.next + 1, active := f.active + [f.next]), desired)
  }

  function Popped(f: Fleet): (next: Fleet)
    requires f.active != []
  {
    var newest := f.active[|f.active| - 1];
    f.(active := f.active[..|f.active| - 1], retired := f.retired + [newest], signals := f.signals + [newest])
  }

  function Shrunk(f: Fleet, desired: nat): (next: Fleet)
    decreases |f.active|
  {
    if |f.active| <= desired then f else Shrunk(Popped(f), desired)
  }

  function Reconciled(f: Fleet, pass: Pass): (next: Fleet)
  {
    Shrunk(Grown(Reaped(f, pass), pass.desired), pass.desired)
  }

  function RunPasses(f: Fleet, passes: seq<Pass>): (next: Fleet)
    decreases |passes|
  {
    if passes == [] then f else RunPasses(Reconciled(f, passes[0]), passes[1..])
  }

  // ---------------------------------------------------------------- what a pass does, in closed form

  function Indexes(first: nat, count: nat): (some: seq<nat>)
  {
    if count == 0 then [] else Indexes(first, count - 1) + [first + count - 1]
  }

  function Reversed(s: seq<nat>): (some: seq<nat>)
  {
    if s == [] then [] else [s[|s| - 1]] + Reversed(s[..|s| - 1])
  }

  lemma {:induction false} GrownAppends(f: Fleet, desired: nat)
    ensures var missing := if desired > |f.active| then desired - |f.active| else 0;
            Grown(f, desired) == f.(next := f.next + missing, active := f.active + Indexes(f.next, missing))
    decreases desired - |f.active|
  {
    if |f.active| < desired {
      var one := f.(next := f.next + 1, active := f.active + [f.next]);
      GrownAppends(one, desired);
      IndexesFromFirst(f.next, desired - |f.active|);
    } else {
      assert f.active + [] == f.active;
    }
  }

  lemma {:induction false} IndexesFromFirst(first: nat, count: nat)
    requires count > 0
    ensures Indexes(first, count) == [first] + Indexes(first + 1, count - 1)
  {
    if count > 1 { IndexesFromFirst(first, count - 1); }
  }

  function Leaving(active: seq<nat>, desired: nat): (some: seq<nat>)
  {
    if desired < |active| then Reversed(active[desired..]) else []
  }

  lemma NewestLeavesFirst(active: seq<nat>, desired: nat)
    requires desired < |active|
    ensures var n := |active| - 1; Leaving(active, desired) == [active[n]] + Leaving(active[..n], desired)
  {
    var n := |active| - 1;
    assert active[desired..][..n - desired] == active[..n][desired..];
  }

  /** `g` is `f` with its newest workers beyond `desired` retired and signalled, newest first. */
  ghost predicate Moved(f: Fleet, g: Fleet, desired: nat)
  {
    && g.next == f.next && g.reaped == f.reaped
    && g.active == (if desired < |f.active| then f.active[..desired] else f.active)
    && g.retired == f.retired + Leaving(f.active, desired)
    && g.signals == f.signals + Leaving(f.active, desired)
  }

  lemma Regrouped(base: seq<nat>, newest: nat, rest: seq<nat>)
    ensures base + ([newest] + rest) == (base + [newest]) + rest
  {
  }

  lemma Remaining(active: seq<nat>, desired: nat)
    requires desired < |active|
    ensures var rest := active[..|active| - 1]; active[..desired] == if desired < |rest| then rest[..desired] else rest
  {
  }

  lemma MovedOneMore(f: Fleet, g: Fleet, desired: nat)
    requires desired < |f.active| && Moved(Popped(f), g, desired)
    ensures Moved(f, g, desired)
  {
    var n := |f.active| - 1;
    var rest := Leaving(f.active[..n], desired);
    NewestLeavesFirst(f.active, desired);
    Regrouped(f.retired, f.active[n], rest);
    Regrouped(f.signals, f.active[n], rest);
    Remaining(f.active, desired);
  }

  lemma {:induction false} ShrunkMoves(f: Fleet, desired: nat)
    ensures Moved(f, Shrunk(f, desired), desired)
    decreases |f.active|
  {
    if |f.active| > desired {
      ShrunkMoves(Popped(f), desired);
      MovedOneMore(f, Shrunk(f, desired), desired);
    }
  }

  lemma {:induction false} IndexesCount(first: nat, count: nat)
    ensures |Indexes(first, count)| == count
    ensures forall i :: 0 <= i < count ==> Indexes(first, count)[i] == first + i
  {
    if count > 0 { IndexesCount(first, count - 1); }
  }

  /** A pass reaps the finished, then spawns exactly the missing workers under new indexes, or retires and signals the
      newest ones, newest first; either way the fleet ends at its desired size. */
  lemma PassReachesDesired(f: Fleet, pass: Pass)
    ensures var living := Living(f.active, pass.doneActive);
            var draining := Living(f.retired, pass.doneRetired);
            var reaped := f.reaped + Dropped(f.active, pass.doneActive) + Dropped(f.retired, pass.doneRetired);
            var next := Reconciled(f, pass);
            && |next.active| == pass.desired
            && (|living| <= pass.desired ==>
                  next == Workers(f.next + pass.desired - |living|, living + Indexes(f.next, pass.desired - |living|), draining, f.signals,
                                  reaped))
            && (|living| > pass.desired ==>
                  next == Workers(f.next, living[..pass.desired], draining + Leaving(living, pass.desired),
                                  f.signals + Leaving(living, pass.desired), reaped))
  {
    var reaped := Reaped(f, pass);
    GrownAppends(reaped, pass.desired);
    var grown := Grown(reaped, pass.desired);
    ShrunkMoves(grown, pass.desired);
    var living := reaped.active;
    if |living| <= pass.desired {
      IndexesCount(f.next, pass.desired - |living|);
      assert grown.retired + [] == grown.retired && grown.signals + [] == grown.signals;
    } else {
      assert living + [] == living;
    }
  }

  // ---------------------------------------------------------------- no worker is lost, signalled twice or renamed

  ghost predicate Increasing(s: seq<nat>) { forall i, j :: 0 <= i < j < |s| ==> s[i] < s[j] }

  /** The spawned workers are exactly the active, the retired and the reaped, disjointly; only workers seen finished are
      reaped; and only workers that left the active ones by retirement were signalled. */
  ghost predicate Kept(f: Fleet, finished: set<nat>)
  {
    && Increasing(f.active) && Distinct(f.retired) && Distinct(f.signals) && f.reaped <= finished
    && (forall w: nat :: w < f.next <==> w in f.active || w in f.retired || w in f.reaped)
    && (forall w :: w in f.active ==> w !in f.retired && w !in f.reaped && w !in f.signals)
    && (forall w :: w in f.retired ==> w !in f.reaped && w in f.signals)
    && (forall w :: w in f.signals ==> w in f.retired || w in f.reaped)
  }

  lemma {:induction false} LivingMembers(workers: seq<nat>, done: set<nat>)
    ensures forall w :: w in Living(workers, done) <==> w in workers && w !in done
    ensures Increasing(workers) ==> Increasing(Living(workers, done))
    ensures Distinct(workers) ==> Distinct(Living(workers, done))
  {
    if workers != [] {
      var init := workers[..|workers| - 1];
      var last := workers[|workers| - 1];
      LivingMembers(init, done);
      assert workers == init + [last];
      var rest := Living(init, done);
      forall i | 0 <= i < |rest| ensures Increasing(workers) ==> rest[i] < last { assert rest[i] in init; }
      forall i | 0 <= i < |rest| ensures Distinct(workers) ==> rest[i] != last { assert rest[i] in init; }
    }
  }

  lemma ReapKeeps(f: Fleet, pass: Pass, finished: set<nat>)
    requires Kept(f, finished) && pass.doneActive <= finished && pass.doneRetired <= finished
    ensures Kept(Reaped(f, pass), finished)
  {
    LivingMembers(f.active, pass.doneActive);
    LivingMembers(f.retired, pass.doneRetired);
  }

  lemma {:induction false} GrowKeeps(f: Fleet, desired: nat, finished: set<nat>)
    requires Kept(f, finished)
    ensures Kept(Grown(f, desired), finished)
    decreases desired - |f.active|
  {
    if |f.active| < desired {
      var one := f.(next := f.next + 1, active := f.active + [f.next]);
      forall i | 0 <= i < |f.active| ensures f.active[i] < f.next { assert f.active[i] in f.active; }
      assert Kept(one, finished);
      GrowKeeps(one, desired, finished);
    }
  }

  lemma {:induction false} ShrinkKeeps(f: Fleet, desired: nat, finished: set<nat>)
    requires Kept(f, finished)
    ensures Kept(Shrunk(f, desired), finished)
    decreases |f.active|
  {
    if |f.active| > desired {
      var newest := f.active[|f.active| - 1];
      assert f.active == Popped(f).active + [newest];
      assert newest in f.active;
      assert Kept(Popped(f), finished);
      ShrinkKeeps(Popped(f), desired, finished);
    }
  }

  /** A finished task stays finished: `finished` holds everything any reap has seen. */
  ghost predicate SeenFinished(passes: seq<Pass>, finished: set<nat>)
  {
    forall i :: 0 <= i < |passes| ==> passes[i].doneActive <= finished && passes[i].doneRetired <= finished
  }

  /** Over any passes: the fleet stays in spawn order, every spawned worker is active, retired or reaped and only one of
      them, no unfinished worker is reaped, and none is signalled twice. */
  lemma {:induction false} PassesKeep(f: Fleet, passes: seq<Pass>, finished: set<nat>)
    requires Kept(f, finished) && SeenFinished(passes, finished)
    ensures Kept(RunPasses(f, passes), finished)
    decreases |passes|
  {
    if passes != [] {
      var pass := passes[0];
      ReapKeeps(f, pass, finished);
      GrowKeeps(Reaped(f, pass), pass.desired, finished);
      ShrinkKeeps(Grown(Reaped(f, pass), pass.desired), pass.desired, finished);
      PassesKeep(Reconciled(f, pass), passes[1..], finished);
    }
  }

  /** An index, once spawned, is never given out again: later passes only raise `next`, and only ever spawn above it. */
  lemma {:induction false} IndexesAreNeverReused(f: Fleet, passes: seq<Pass>, w: nat)
    requires w < f.next && w !in f.active
    ensures RunPasses(f, passes).next >= f.next && w !in RunPasses(f, passes).active
    decreases |passes|
  {
    if passes != [] {
      var pass := passes[0];
      PassReachesDesired(f, pass);
      LivingMembers(f.active, pass.doneActive);
      var living := Living(f.active, pass.doneActive);
      if |living| <= pass.desired { IndexesCount(f.next, pass.desired - |living|); }
      IndexesAreNeverReused(Reconciled(f, pass), passes[1..], w);
    }
  }

  // ---------------------------------------------------------------- the stop

  /** At a stop every owned worker is joined. Then each that was ever spawned was either joined, once, or seen finished
      before. */
  lemma DrainFinishesAll(passes: seq<Pass>, finished: set<nat>, w: nat)
    requires SeenFinished(passes, finished)
    ensures var f := RunPasses(NEW, passes);
            var joined := f.active + f.retired;
            && Distinct(joined) && f.reaped <= finished
            && (w < f.next <==> w in joined || w in f.reaped)
            && !(w in joined && w in f.reaped)
  {
    PassesKeep(NEW, passes, finished);
    var f := RunPasses(NEW, passes);
    forall i, j | 0 <= i < |f.active| && 0 <= j < |f.retired| ensures f.active[i] != f.retired[j] {
      assert f.active[i] in f.active;
      assert f.retired[j] in f.retired;
    }
  }

  // ---------------------------------------------------------------- the loop itself

  class Supervisor {
    var nextIndex: nat
    var active: seq<nat>
    var retired: seq<nat>
    var signals: seq<nat>
    var joined: seq<nat>
    ghost var reaped: set<nat>
    var desiredGauge: nat
    var runningGauge: nat

    ghost function Fleet(): (next: Fleet) reads this { Workers(nextIndex, active, retired, signals, reaped) }

    constructor ()
      ensures Fleet() == NEW && joined == []
    {
      nextIndex, active, retired, signals, joined, desiredGauge, runningGauge := 0, [], [], [], [], 0, 0;
      reaped := {};
    }

    method Reap(workers: seq<nat>, done: set<nat>) returns (living: seq<nat>)
      ensures living == Living(workers, done)
    {
      living := [];
      var i := 0;
      while i < |workers|
        invariant 0 <= i <= |workers| && living == Living(workers[..i], done)
      {
        assert workers[..i + 1][..i] == workers[..i];
        if workers[i] !in done { living := living + [workers[i]]; }
        i := i + 1;
      }
      assert workers[..i] == workers;
    }

    method ReapFinished(pass: Pass)
      modifies this`active, this`retired, this`reaped
      ensures Fleet() == Reaped(old(Fleet()), pass)
    {
      reaped := reaped + Dropped(active, pass.doneActive) + Dropped(retired, pass.doneRetired);
      active := Reap(active, pass.doneActive);
      retired := Reap(retired, pass.doneRetired);
    }

    method SpawnMissing(desired: nat)
      modifies this`active, this`nextIndex
      ensures Fleet() == Grown(old(Fleet()), desired)
    {
      while |active| < desired
        invariant Grown(Fleet(), desired) == Grown(old(Fleet()), desired)
      {
        active := active + [nextIndex];
        nextIndex := nextIndex + 1;
      }
    }

    method RetireNewest(desired: nat)
      modifies this`active, this`retired, this`signals
      ensures Fleet() == Shrunk(old(Fleet()), desired)
    {
      while |active| > desired
        invariant Shrunk(Fleet(), desired) == Shrunk(old(Fleet()), desired)
      {
        var newest := active[|active| - 1];
        active := active[..|active| - 1];
        signals := signals + [newest];
        retired := retired + [newest];
      }
    }

    method Reconcile(pass: Pass)
      modifies this
      ensures Fleet() == Reconciled(old(Fleet()), pass)
      ensures desiredGauge == runningGauge == |active| == pass.desired
      ensures joined == old(joined)
    {
      desiredGauge := pass.desired;
      ReapFinished(pass);
      SpawnMissing(pass.desired);
      RetireNewest(pass.desired);
      runningGauge := |active|;
      PassReachesDesired(old(Fleet()), pass);
    }

    /** Passes until the stop, then a join of every worker still owned. */
    method Supervise(passes: seq<Pass>)
      requires Fleet() == NEW && joined == []
      modifies this
      ensures Fleet() == RunPasses(NEW, passes)
      ensures joined == active + retired
      ensures runningGauge == 0
    {
      var k := 0;
      while k < |passes|
        invariant 0 <= k <= |passes| && joined == []
        invariant RunPasses(Fleet(), passes[k..]) == RunPasses(NEW, passes)
      {
        assert passes[k..][1..] == passes[k + 1..];
        Reconcile(passes[k]);
        k := k + 1;
      }
      assert passes[k..] == [];
      var i := 0;
      while i < |active|
        invariant 0 <= i <= |active| && joined == active[..i]
        invariant Fleet() == RunPasses(NEW, passes)
      {
        joined := joined + [active[i]];
        i := i + 1;
      }
      i := 0;
      while i < |retired|
        invariant 0 <= i <= |retired| && joined == active + retired[..i]
        invariant Fleet() == RunPasses(NEW, passes)
      {
        joined := joined + [retired[i]];
        i := i + 1;
      }
      runningGauge := 0;
    }
  }
}
