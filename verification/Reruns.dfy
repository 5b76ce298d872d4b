/** Why a review can be rerun twice for one check: a pull request's newest check may go back. */
module Reruns {
  import opened Contracts
  import opened JobStore
  import opened Tables
  import opened Runs
  import Overlap
  import ProviderQuota
  import R = ReviewResumption

  /** GitHub lists one pull request, whose review ran out of quota, and lets it be rerun. */
  function Deferred(receipt: Receipt): (answers: R.Answers)
  {
    R.Answers(true, [R.Pull(receipt.pr, receipt.headSha)], map[],
              map[receipt.pr := Some(R.Execution(R.ExecutionQuotaWait, receipt))], map[receipt := R.Valid])
  }

  function QuotaAfter(db: Db, receipt: Receipt): (quota: ProviderQuota.Quota)
  {
    ProviderQuota.Defer(db.quota, ProviderQuota.ReviewCheck(receipt.checkId), receipt.retryAfter, receipt.completedAt)
  }

  /** No record yet, or one of the same pull request at another head and check, which alone may hold the slot. */
  ghost predicate Superseded(db: Db, receipt: Receipt)
  {
    (db.waits == [] && db.slot.None?)
    || (|db.waits| == 1
        && var w := db.waits[0];
           && w.pr == receipt.pr && w.receipt.headSha != receipt.headSha && w.receipt.checkId != receipt.checkId
           && (db.slot.None? || db.slot == Some(w.receipt.checkId)))
  }

  function Waiting(db: Db, receipt: Receipt): (w: Wait) { Wait(receipt.pr, receipt, Phase.Waiting, QuotaAfter(db, receipt).until, 0, 0) }

  lemma OldRecordIsObsolete(db: Db, receipt: Receipt, now: int)
    requires Superseded(db, receipt)
    ensures var p := R.InspectAll(db, db.waits, Deferred(receipt), now);
            && !p.failed && p.db == db.(slot := None) && |p.waiting| == |db.waits|
            && (db.waits != [] ==> p.waiting[0].pr == receipt.pr && p.waiting[0].receipt == db.waits[0].receipt)
  {
    if db.waits != [] {
      assert db.waits[..0] == [];
      assert R.InspectAll(db, db.waits[..0], Deferred(receipt), now) == R.Progress(db, [], false);
      assert !R.Eligible(Deferred(receipt).pulls, db.waits[0]);
    }
  }

  lemma NewRecordWaits(db: Db, receipt: Receipt, now: int)
    requires Superseded(db, receipt)
    ensures var inspected := R.InspectAll(db, db.waits, Deferred(receipt), now);
            !inspected.failed
            && R.AbsorbAll(inspected, Deferred(receipt).pulls, Deferred(receipt))
               == R.Progress(db.(slot := None, quota := Some(QuotaAfter(db, receipt))), [Waiting(db, receipt)], false)
  {
    OldRecordIsObsolete(db, receipt, now);
    var inspected := R.InspectAll(db, db.waits, Deferred(receipt), now);
    Overlap.OneExecutionIsAbsorbed(inspected, Deferred(receipt));
    if db.waits != [] { assert inspected.waiting == [inspected.waiting[0]]; }
  }

  /** A deferred review with a new check is rerun at once when the quota is open again and nothing else uses it. */
  lemma NewCheckIsRerun(db: Db, receipt: Receipt, now: int)
    requires Superseded(db, receipt) && db.enabled && WithStatus(db.jobs, {Running}) == [] && QuotaAfter(db, receipt).until <= now
    ensures R.Poll(db, Deferred(receipt), now)
            == R.Polled(db.(waits := [Waiting(db, receipt).(phase := Uncertain, requestedAt := now)],
                            slot := Some(receipt.checkId), quota := Some(QuotaAfter(db, receipt))),
                        Some(receipt))
  {
    OldRecordIsObsolete(db, receipt, now);
    NewRecordWaits(db, receipt, now);
    var waiting := [Waiting(db, receipt)];
    var stored := db.(slot := None, quota := Some(QuotaAfter(db, receipt)), waits := waiting);
    assert R.MayRerun(stored, now) && R.Due(waiting[0], now);
    assert waiting[0 := waiting[0].(phase := Uncertain, requestedAt := now)]
           == [Waiting(db, receipt).(phase := Uncertain, requestedAt := now)];
  }

  const FIRST := Receipt(5, 7, "first", 1, 1, 0, 0, ProviderQuota.Missing)

  const SECOND := Receipt(6, 7, "second", 2, 1, 0, 0, ProviderQuota.Missing)

  const LATER := 100000

  /** Short enough failures that every wait is over by now. */
  ghost predicate SoonOver(quota: Option<ProviderQuota.Quota>)
  {
    ProviderQuota.Valid(quota) && (quota.Some? ==> quota.value.until <= 3600)
  }

  lemma SoonOverAgain(db: Db, receipt: Receipt)
    requires SoonOver(db.quota) && receipt.completedAt == 0 && receipt.retryAfter == ProviderQuota.Missing
    ensures QuotaAfter(db, receipt).until <= 3600 && SoonOver(Some(QuotaAfter(db, receipt)))
  {
    ProviderQuota.DeferTightens(
      db.quota, ProviderQuota.Deferral(ProviderQuota.ReviewCheck(receipt.checkId), receipt.retryAfter, receipt.completedAt));
    ProviderQuota.BackoffIsBounded(Min(16, (if db.quota.Some? then db.quota.value.failures else 0) + 1));
  }

  /** A service with nothing to do but reviews, which has requested these reruns. */
  ghost predicate Reviewing(w: World, reruns: seq<Receipt>)
  {
    w.service.Up? && w.now == LATER && w.db.enabled && WithStatus(w.db.jobs, {Running}) == [] && SoonOver(w.db.quota) && w.reruns == reruns
  }

  lemma ReviewIsRerun(w: World, reruns: seq<Receipt>, receipt: Receipt)
    requires Reviewing(w, reruns) && Superseded(w.db, receipt)
    requires receipt.completedAt == 0 && receipt.retryAfter == ProviderQuota.Missing
    ensures var next := Step(w, PollReviews(Deferred(receipt)));
            && Enabled(w, PollReviews(Deferred(receipt))) && Reviewing(next, reruns + [receipt])
            && |next.db.waits| == 1 && next.db.waits[0].receipt == receipt && next.db.waits[0].pr == receipt.pr
            && next.db.slot == Some(receipt.checkId)
  {
    SoonOverAgain(w.db, receipt);
    NewCheckIsRerun(w.db, receipt, LATER);
  }

  lemma ServiceReviews() returns (ops: seq<Op>)
    ensures Possible(Overlap.INSTALLED, ops)
    ensures Run(Overlap.INSTALLED, ops) == World(EMPTY.(enabled := true), Up(None), LATER, [], [])
  {
    ops := [];
    Overlap.RunGoesOn(Overlap.INSTALLED, ops, Restart);
    ops := ops + [Restart];
    assert Run(Overlap.INSTALLED, ops) == World(EMPTY, Up(None), 0, [], []);
    Overlap.RunGoesOn(Overlap.INSTALLED, ops, SetEnabled(true));
    ops := ops + [SetEnabled(true)];
    Overlap.RunGoesOn(Overlap.INSTALLED, ops, Tick(LATER));
    ops := ops + [Tick(LATER)];
  }

  /** One poll more. */
  lemma RunReruns(ops: seq<Op>, reruns: seq<Receipt>, receipt: Receipt) returns (more: seq<Op>)
    requires Possible(Overlap.INSTALLED, ops) && Reviewing(Run(Overlap.INSTALLED, ops), reruns)
    requires Superseded(Run(Overlap.INSTALLED, ops).db, receipt)
    requires receipt.completedAt == 0 && receipt.retryAfter == ProviderQuota.Missing
    ensures Possible(Overlap.INSTALLED, more)
    ensures var w := Run(Overlap.INSTALLED, more);
            && Reviewing(w, reruns + [receipt])
            && |w.db.waits| == 1 && w.db.waits[0].receipt == receipt && w.db.waits[0].pr == receipt.pr
            && w.db.slot == Some(receipt.checkId)
  {
    ReviewIsRerun(Run(Overlap.INSTALLED, ops), reruns, receipt);
    Overlap.RunGoesOn(Overlap.INSTALLED, ops, PollReviews(Deferred(receipt)));
    more := ops + [PollReviews(Deferred(receipt))];
  }

  /** From an installation: a pull request whose head goes back to an older commit shows an older check as its newest, and
      that check is rerun a second time. */
  lemma OlderCheckIsRerunAgain() returns (ops: seq<Op>)
    ensures Installed(Overlap.INSTALLED) && Possible(Overlap.INSTALLED, ops)
    ensures Run(Overlap.INSTALLED, ops).reruns == [FIRST, SECOND, FIRST]
  {
    ops := ServiceReviews();
    ops := RunReruns(ops, [], FIRST);
    ops := RunReruns(ops, [] + [FIRST], SECOND);
    ops := RunReruns(ops, [] + [FIRST] + [SECOND], FIRST);
  }
}
