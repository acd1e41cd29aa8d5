/** The alert decision engine: from the pair's stored record, the current
    profit and the current time, decide whether to send an alert and why. */
module Decision {
  import opened Wrappers

  /** The four policy knobs: minimum profit, profit step required to re-alert,
      cooldown in seconds, and the growth that bypasses the cooldown. */
  datatype Policy = Policy(minProfitPct: real, profitStepPct: real, cooldownSec: real, bigJumpBypass: real)

  /** The values used when no environment override is given. */
  const DEFAULT_POLICY: Policy := Policy(1.0, 0.25, 600.0, 1.0)

  /** The profit assumed for a pair that was never alerted on. */
  const NEVER_SENT_PROFIT: real := -999.0

  /** The stored record of a pair; every field may be missing. */
  datatype PairRecord = PairRecord(
    lastSentAt: Option<int>,
    lastSentProfit: Option<real>,
    lastSushi: Option<real>,
    lastOdos: Option<real>)

  const EMPTY_RECORD: PairRecord := PairRecord(None, None, None, None)

  datatype Reason = BelowMin | BigJump | Cooldown | NoGrowth | Growth {
    /** The reasons that come with a send. */
    predicate Sends() {
      BigJump? || Growth?
    }

    function Label(): string {
      match this
      case BelowMin => "below_min"
      case BigJump => "big_jump"
      case Cooldown => "cooldown"
      case NoGrowth => "no_growth"
      case Growth => "growth"
    }
  }

  datatype Verdict = Verdict(ok: bool, reason: Reason)

  /** When the pair was last alerted on; a missing time counts as the epoch. */
  function LastSentAt(rec: PairRecord): (t: int)
    ensures rec.lastSentAt.None? ==> t == 0
    ensures rec.lastSentAt.Some? ==> t == rec.lastSentAt.value
  {
    rec.lastSentAt.GetOr(0)
  }

  /** The profit of the last alert; only a missing value becomes the sentinel,
      a stored 0 stays 0. */
  function LastSentProfit(rec: PairRecord): (p: real)
    ensures rec.lastSentProfit.None? ==> p == NEVER_SENT_PROFIT
    ensures rec.lastSentProfit.Some? ==> p == rec.lastSentProfit.value
  {
    rec.lastSentProfit.GetOr(NEVER_SENT_PROFIT)
  }

  function Since(rec: PairRecord, now: int): int {
    now - LastSentAt(rec)
  }

  function GrowthOf(rec: PairRecord, profitPct: real): real {
    profitPct - LastSentProfit(rec)
  }

  /** The checks in their fixed order: minimum, big jump, cooldown, step. */
  function ShouldSend(rec: PairRecord, profitPct: real, now: int, policy: Policy): (v: Verdict)
    ensures v.ok <==> v.reason.Sends()
    ensures v.reason == BelowMin <==> profitPct < policy.minProfitPct
  {
    if profitPct < policy.minProfitPct then Verdict(false, BelowMin)
    else
      var since := Since(rec, now);
      var growth := GrowthOf(rec, profitPct);
      if growth >= policy.bigJumpBypass then Verdict(true, BigJump)
      else if (since as real) < policy.cooldownSec then Verdict(false, Cooldown)
      else if growth < policy.profitStepPct then Verdict(false, NoGrowth)
      else Verdict(true, Growth)
  }

  /** When an alert is due, stated without the order of the checks: the profit
      reaches the minimum, and it either jumped by the bypass or the cooldown
      is over and it grew by the step. */
  predicate AlertDue(rec: PairRecord, profitPct: real, now: int, policy: Policy) {
    && profitPct >= policy.minProfitPct
    && (|| GrowthOf(rec, profitPct) >= policy.bigJumpBypass
        || ((Since(rec, now) as real) >= policy.cooldownSec && GrowthOf(rec, profitPct) >= policy.profitStepPct))
  }

  lemma ShouldSendIffAlertDue(rec: PairRecord, profitPct: real, now: int, policy: Policy)
    ensures ShouldSend(rec, profitPct, now, policy).ok <==> AlertDue(rec, profitPct, now, policy)
  {
  }

  /** Below the minimum nothing is sent, whatever the record and the time. */
  lemma BelowMinimumNeverSends(rec: PairRecord, profitPct: real, now: int, policy: Policy)
    requires profitPct < policy.minProfitPct
    ensures ShouldSend(rec, profitPct, now, policy) == Verdict(false, BelowMin)
  {
  }

  /** At or above the minimum, a jump by the bypass is sent even within the cooldown. */
  lemma BigJumpBypassesCooldown(rec: PairRecord, profitPct: real, now: int, policy: Policy)
    requires profitPct >= policy.minProfitPct
    requires GrowthOf(rec, profitPct) >= policy.bigJumpBypass
    ensures ShouldSend(rec, profitPct, now, policy) == Verdict(true, BigJump)
  {
  }

  /** Without a big jump, the cooldown suppresses; after it, the step decides. */
  lemma CooldownThenStep(rec: PairRecord, profitPct: real, now: int, policy: Policy)
    requires profitPct >= policy.minProfitPct
    requires GrowthOf(rec, profitPct) < policy.bigJumpBypass
    ensures (Since(rec, now) as real) < policy.cooldownSec ==>
              ShouldSend(rec, profitPct, now, policy) == Verdict(false, Cooldown)
    ensures (Since(rec, now) as real) >= policy.cooldownSec && GrowthOf(rec, profitPct) < policy.profitStepPct ==>
              ShouldSend(rec, profitPct, now, policy) == Verdict(false, NoGrowth)
    ensures (Since(rec, now) as real) >= policy.cooldownSec && GrowthOf(rec, profitPct) >= policy.profitStepPct ==>
              ShouldSend(rec, profitPct, now, policy) == Verdict(true, Growth)
  {
  }

  /** A pair never alerted on is alerted as a big jump as soon as the profit
      reaches the minimum, provided the minimum lies at least the bypass above
      the sentinel -999 (so with the default policy). */
  lemma FirstSignalIsBigJump(profitPct: real, now: int, policy: Policy)
    requires profitPct >= policy.minProfitPct
    requires policy.minProfitPct - NEVER_SENT_PROFIT >= policy.bigJumpBypass
    ensures ShouldSend(EMPTY_RECORD, profitPct, now, policy) == Verdict(true, BigJump)
  {
  }

  /** Otherwise the first signal still goes out once `now` (seconds since the
      epoch) is past the cooldown, if its distance to the sentinel is the step. */
  lemma FirstSignalAfterCooldown(profitPct: real, now: int, policy: Policy)
    requires profitPct >= policy.minProfitPct
    requires (now as real) >= policy.cooldownSec
    requires profitPct - NEVER_SENT_PROFIT >= policy.profitStepPct
    ensures ShouldSend(EMPTY_RECORD, profitPct, now, policy).ok
  {
  }

  /** Exactly when a pair never alerted on is alerted: the profit reaches the
      minimum and lies the bypass above the sentinel (a big jump, at any time),
      or `now` is past the cooldown and the profit lies the step above it. */
  lemma FirstSignalSendsIff(profitPct: real, now: int, policy: Policy)
    ensures ShouldSend(EMPTY_RECORD, profitPct, now, policy).ok <==>
      && profitPct >= policy.minProfitPct
      && (|| profitPct - NEVER_SENT_PROFIT >= policy.bigJumpBypass
          || ((now as real) >= policy.cooldownSec && profitPct - NEVER_SENT_PROFIT >= policy.profitStepPct))
    ensures profitPct >= policy.minProfitPct && profitPct - NEVER_SENT_PROFIT >= policy.bigJumpBypass ==>
      ShouldSend(EMPTY_RECORD, profitPct, now, policy) == Verdict(true, BigJump)
  {
    ShouldSendIffAlertDue(EMPTY_RECORD, profitPct, now, policy);
  }

  lemma DefaultPolicySendsFirstSignal(profitPct: real, now: int)
    requires profitPct >= DEFAULT_POLICY.minProfitPct
    ensures ShouldSend(EMPTY_RECORD, profitPct, now, DEFAULT_POLICY) == Verdict(true, BigJump)
  {
  }

  /** A higher profit never turns a send into a suppression. */
  lemma SendingIsMonotoneInProfit(rec: PairRecord, p1: real, p2: real, now: int, policy: Policy)
    requires p1 <= p2
    requires ShouldSend(rec, p1, now, policy).ok
    ensures ShouldSend(rec, p2, now, policy).ok
  {
  }

  /** Waiting longer never turns a send into a suppression. */
  lemma SendingIsMonotoneInTime(rec: PairRecord, profitPct: real, now1: int, now2: int, policy: Policy)
    requires now1 <= now2
    requires ShouldSend(rec, profitPct, now1, policy).ok
    ensures ShouldSend(rec, profitPct, now2, policy).ok
  {
  }

  /** When the bypass is configured below the step, a finished cooldown lets
      any growth of at least the bypass through, so the step is never the
      binding gate. */
  lemma BypassBelowStepAfterCooldown(rec: PairRecord, profitPct: real, now: int, policy: Policy)
    requires policy.bigJumpBypass <= policy.profitStepPct
    requires profitPct >= policy.minProfitPct
    requires (Since(rec, now) as real) >= policy.cooldownSec
    ensures ShouldSend(rec, profitPct, now, policy).ok <==> GrowthOf(rec, profitPct) >= policy.bigJumpBypass
  {
  }

  /** A loss is never alerted on when the minimum is positive. */
  lemma LossNeverSends(rec: PairRecord, profitPct: real, now: int, policy: Policy)
    requires policy.minProfitPct > 0.0 && profitPct <= 0.0
    ensures ShouldSend(rec, profitPct, now, policy) == Verdict(false, BelowMin)
  {
  }

  /** The labels are the five distinct strings the bot logs. */
  lemma LabelsDistinct(a: Reason, b: Reason)
    ensures a.Label() == b.Label() <==> a == b
  {
  }
}
