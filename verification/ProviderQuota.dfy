/** The shared Coding Plan quota: provider delays, exponential backoff and recovery. */
module ProviderQuota {
  import opened Contracts

  /** A Retry-After value: absent, unparseable, infinite or NaN, or seconds (a date is already converted). */
  datatype Delay = Missing | Unreadable | NotFinite | Seconds(seconds: real)

  /** What exhausted the quota: a worker's run, named by its job and lease, or a review's check. */
  datatype Source = WorkerRun(job: nat, since: int) | ReviewCheck(check: nat)

  /** The `provider_quota` setting; an empty document is `None`. */
  datatype Quota = Quota(source: Source, failures: nat, since: int, observedAt: int, until: int, delay: int)

  function Ceiling(x: real): (n: int) { -((-x).Floor) }

  function RetryAfter(delay: Delay): (bounded: Option<int>)
    ensures bounded.Some? <==> delay.Seconds?
    ensures bounded.Some? ==> 60 <= bounded.value <= 604800
    ensures delay.Seconds? && 60.0 <= delay.seconds <= 604800.0 ==>
              delay.seconds <= bounded.value as real < delay.seconds + 1.0
    ensures delay.Seconds? && delay.seconds < 60.0 ==> bounded.value == 60
    ensures delay.Seconds? && delay.seconds > 604800.0 ==> bounded.value == 604800
  {
    match delay
    case Seconds(s) => Some(Max(60, Min(604800, Ceiling(s))))
    case _ => None
  }

  function Pow2(n: nat): (p: int)
    ensures p > 0
  {
    if n == 0 then 1 else 2 * Pow2(n - 1)
  }

  function Backoff(failures: int): (n: int)
    requires failures >= 1
  {
    Min(3600, 600 * Pow2(failures - 1))
  }

  /** `defer_provider`: a repeated source changes nothing. */
  function Defer(quota: Option<Quota>, source: Source, delay: Delay, at: int): (result: Quota)
  {
    if quota.Some? && quota.value.source == source then quota.value
    else
      var failures := Min(16, (if quota.Some? then quota.value.failures else 0) + 1);
      var bounded := RetryAfter(delay);
      var wait := if bounded.Some? then bounded.value else Backoff(failures);
      Quota(source, failures,
            if quota.Some? then quota.value.since else at,
            if quota.Some? then Max(quota.value.observedAt, at) else at,
            Max(if quota.Some? then quota.value.until else 0, at + wait),
            wait)
  }

  /** `provider_recovered`: only work started after the newest failure was observed proves recovery. */
  function Recovered(quota: Option<Quota>, startedAt: Option<int>): (result: Option<Quota>)
  {
    if startedAt.None? || startedAt.value >= (if quota.Some? then quota.value.observedAt else 0) then None else quota
  }

  predicate Open(quota: Option<Quota>, now: int)
  {
    (if quota.Some? then quota.value.until else 0) <= now
  }

  ghost predicate Valid(quota: Option<Quota>)
  {
    quota.Some? ==>
      && 1 <= quota.value.failures <= 16
      && 60 <= quota.value.delay <= 604800
      && quota.value.since <= quota.value.observedAt
      && quota.value.observedAt + 60 <= quota.value.until
  }

  lemma {:induction false} BackoffIsBounded(failures: int)
    requires failures >= 1
    ensures 600 <= Backoff(failures) <= 3600
    ensures failures >= 4 ==> Backoff(failures) == 3600
  {
    if failures >= 4 {
      assert Pow2(3) == 8;
      Pow2Grows(3, failures - 1);
    }
  }

  lemma {:induction false} Pow2Grows(a: nat, b: nat)
    requires a <= b
    ensures Pow2(a) <= Pow2(b)
  {
    if a < b { Pow2Grows(a, b - 1); }
  }

  datatype Deferral = Deferral(source: Source, delay: Delay, at: int)

  function DeferAll(quota: Option<Quota>, deferrals: seq<Deferral>): (result: Option<Quota>)
    decreases |deferrals|
  {
    if deferrals == [] then quota
    else
      var d := deferrals[0];
      DeferAll(Some(Defer(quota, d.source, d.delay, d.at)), deferrals[1..])
  }

  lemma DeferTightens(quota: Option<Quota>, d: Deferral)
    requires Valid(quota)
    ensures var next := Defer(quota, d.source, d.delay, d.at);
            && Valid(Some(next))
            && (quota.Some? ==> next.until >= quota.value.until && next.observedAt >= quota.value.observedAt
                                && next.since == quota.value.since && next.failures >= quota.value.failures)
            && (quota.None? || quota.value.source != d.source ==> next.observedAt >= d.at && next.until >= d.at + 60)
  {
    BackoffIsBounded(Min(16, (if quota.Some? then quota.value.failures else 0) + 1));
  }

  /** Between recoveries the wait only tightens and every bound holds, over any run of failures. */
  lemma {:induction false} FailuresOnlyTighten(quota: Option<Quota>, deferrals: seq<Deferral>)
    requires Valid(quota)
    ensures var last := DeferAll(quota, deferrals);
            && Valid(last)
            && (quota.Some? ==> last.Some? && last.value.until >= quota.value.until
                                && last.value.observedAt >= quota.value.observedAt && last.value.since == quota.value.since)
    decreases |deferrals|
  {
    if deferrals != [] {
      var d := deferrals[0];
      DeferTightens(quota, d);
      FailuresOnlyTighten(Some(Defer(quota, d.source, d.delay, d.at)), deferrals[1..]);
    }
  }

  /** Once a failure observed at `at` is recorded, no work started before `at` clears the quota, whatever failures follow. */
  lemma EarlierSuccessNeverClears(quota: Option<Quota>, d: Deferral, later: seq<Deferral>, startedAt: int)
    requires Valid(quota) && (quota.None? || quota.value.source != d.source)
    requires startedAt < d.at
    ensures var last := DeferAll(quota, [d] + later); last.Some? && Recovered(last, Some(startedAt)) == last
  {
    DeferTightens(quota, d);
    assert ([d] + later)[1..] == later;
    FailuresOnlyTighten(Some(Defer(quota, d.source, d.delay, d.at)), later);
  }

  /** Failures from distinct sources in a row, none with a provider delay, back off exponentially up to an hour. */
  lemma {:induction false} SilentFailuresBackOff(quota: Option<Quota>, deferrals: seq<Deferral>)
    requires Valid(quota) && deferrals != []
    requires forall i :: 0 <= i < |deferrals| ==> deferrals[i].delay == Missing
    requires forall i :: 0 < i < |deferrals| ==> deferrals[i - 1].source != deferrals[i].source
    requires quota.Some? ==> quota.value.source != deferrals[0].source
    ensures var before := if quota.Some? then quota.value.failures else 0;
            var last := DeferAll(quota, deferrals);
            last.Some? && last.value.failures == Min(16, before + |deferrals|)
            && last.value.delay == Backoff(before + |deferrals|)
    decreases |deferrals|
  {
    var d := deferrals[0];
    var before := if quota.Some? then quota.value.failures else 0;
    var next := Defer(quota, d.source, d.delay, d.at);
    DeferTightens(quota, d);
    if |deferrals| == 1 {
      assert deferrals[1..] == [];
      if before + 1 > 16 {
        BackoffIsBounded(16);
        BackoffIsBounded(before + 1);
      }
    } else {
      assert deferrals[1..][0] == deferrals[1];
      SilentFailuresBackOff(Some(next), deferrals[1..]);
      if before == 16 {
        BackoffIsBounded(16 + |deferrals| - 1);
        BackoffIsBounded(16 + |deferrals|);
      }
    }
  }

  lemma OneDeferral(quota: Quota, d: Deferral)
    ensures DeferAll(Some(quota), [d]) == Some(Defer(Some(quota), d.source, d.delay, d.at))
  {
    assert [d][1..] == [];
  }

  /** A report is taken for a repetition if and only if it comes from the latest source. */
  lemma OnlyLatestSourceRepeats(quota: Quota, d: Deferral)
    ensures DeferAll(Some(quota), [d]) == Some(quota) <==> d.source == quota.source
  {
    OneDeferral(quota, d);
  }

  /** So a source reported again after another one counts as two more failures. */
  lemma AlternatingSourcesCountAgain(quota: Quota, b: Deferral, a: Deferral)
    requires quota.source == a.source && a.source != b.source && quota.failures <= 14
    ensures var last := DeferAll(Some(quota), [b, a]); last.Some? && last.value.failures == quota.failures + 2
  {
    var next := Defer(Some(quota), b.source, b.delay, b.at);
    assert [b, a][1..] == [a];
    OneDeferral(next, a);
  }
}
