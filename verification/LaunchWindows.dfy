/** Rolling daily launch allowances over a list of launch times. */
module LaunchWindows {
  import opened Contracts

  ghost predicate Sorted(times: seq<int>)
  {
    forall i, j :: 0 <= i <= j < |times| ==> times[i] <= times[j]
  }

  /** Any `limit + 1` consecutive launches span at least a day. */
  ghost predicate Paced(times: seq<int>, limit: nat)
  {
    forall i, j :: 0 <= i && j == i + limit && j < |times| ==> times[i] + DAY <= times[j]
  }

  /** `count(*) ... WHERE at>cut` */
  function CountSince(times: seq<int>, cut: int): (n: nat)
  {
    if times == [] then 0
    else CountSince(times[..|times| - 1], cut) + if times[|times| - 1] > cut then 1 else 0
  }

  /** `min(at) ... WHERE at>cut`, NULL when nothing matches. */
  function OldestSince(times: seq<int>, cut: int): (n: Option<int>)
  {
    if times == [] then None
    else
      var before := OldestSince(times[..|times| - 1], cut);
      var last := times[|times| - 1];
      if last <= cut then before
      else if before.Some? then Some(Min(before.value, last)) else Some(last)
  }

  /** The time before which no launch is admitted; 0 when one is admitted now. */
  function LaunchAfter(times: seq<int>, limit: nat, now: int): (n: int)
  {
    if CountSince(times, now - DAY) >= limit && OldestSince(times, now - DAY).Some?
    then OldestSince(times, now - DAY).value + DAY
    else 0
  }

  predicate Admits(times: seq<int>, limit: nat, now: int)
  {
    LaunchAfter(times, limit, now) <= now
  }

  /** Launches inside the half-open window `(after, until]`. */
  function CountWithin(times: seq<int>, after: int, until: int): (n: nat)
  {
    if times == [] then 0
    else
      var last := times[|times| - 1];
      CountWithin(times[..|times| - 1], after, until) + if after < last <= until then 1 else 0
  }

  /** In time order the recent launches are a suffix, and the oldest of them heads it. */
  lemma {:induction false} RecentIsSuffix(times: seq<int>, cut: int) returns (k: nat)
    requires Sorted(times)
    ensures k <= |times|
    ensures forall i :: 0 <= i < k ==> times[i] <= cut
    ensures forall i :: k <= i < |times| ==> times[i] > cut
    ensures CountSince(times, cut) == |times| - k
    ensures OldestSince(times, cut) == if k < |times| then Some(times[k]) else None
  {
    if times == [] {
      k := 0;
    } else {
      var init := times[..|times| - 1];
      k := RecentIsSuffix(init, cut);
      if times[|times| - 1] <= cut {
        k := |times|;
      }
    }
  }

  /** Recording an admitted launch keeps the list paced. */
  lemma AdmissionKeepsPace(times: seq<int>, limit: nat, now: int)
    requires limit > 0 && Sorted(times) && Paced(times, limit)
    requires forall i :: 0 <= i < |times| ==> times[i] <= now
    requires Admits(times, limit, now)
    ensures Sorted(times + [now]) && Paced(times + [now], limit)
  {
    var k := RecentIsSuffix(times, now - DAY);
  }

  /** In a paced list no half-open window of one day holds more than `limit` launches. */
  lemma PaceBoundsEveryWindow(times: seq<int>, limit: nat, after: int)
    requires Sorted(times) && Paced(times, limit)
    ensures CountWithin(times, after, after + DAY) <= limit
    ensures CountWithin(times, after - 1, after + DAY - 1) <= limit
  {
    WindowIsRange(times, limit, after);
    WindowIsRange(times, limit, after - 1);
  }

  lemma {:induction false} WindowIsRange(times: seq<int>, limit: nat, after: int)
    requires Sorted(times) && Paced(times, limit)
    ensures CountWithin(times, after, after + DAY) <= limit
  {
    if times != [] {
      var init := times[..|times| - 1];
      var last := times[|times| - 1];
      if last > after + DAY {
        WindowIsRange(init, limit, after);
      } else {
        CountWithinIsSince(times, after, after + DAY);
        assert limit < |times| ==> times[|times| - 1 - limit] + DAY <= last;
        var k := RecentIsSuffix(times, after);
      }
    }
  }

  lemma {:induction false} CountWithinIsSince(times: seq<int>, after: int, until: int)
    requires forall i :: 0 <= i < |times| ==> times[i] <= until
    ensures CountWithin(times, after, until) == CountSince(times, after)
  {
    if times != [] {
      CountWithinIsSince(times[..|times| - 1], after, until);
    }
  }

  lemma PacedCountIsBounded(times: seq<int>, limit: nat, now: int)
    requires limit > 0 && Sorted(times) && Paced(times, limit)
    requires forall i :: 0 <= i < |times| ==> times[i] <= now
    ensures CountSince(times, now - DAY) <= limit
  {
    CountWithinIsSince(times, now - DAY, now);
    PaceBoundsEveryWindow(times, limit, now - DAY);
  }

  /** The announced time is exact: while nothing else launches, a launch is admitted at `later` iff `later` has reached it. */
  lemma LaunchAfterIsExact(times: seq<int>, limit: nat, now: int, later: int)
    requires limit > 0 && Sorted(times) && Paced(times, limit)
    requires forall i :: 0 <= i < |times| ==> times[i] <= now
    requires 0 <= now <= later
    ensures Admits(times, limit, later) <==> LaunchAfter(times, limit, now) <= later
  {
    PacedCountIsBounded(times, limit, now);
    var k := RecentIsSuffix(times, now - DAY);
    var m := RecentIsSuffix(times, later - DAY);
  }
}
