/** Refund arithmetic: the tier table, the rounding that favours the guest, the
    90/10 split of what is retained, and what a chain of partial decisions adds
    up to. */
module Refund {

  datatype CancellationTier = Flexible | Moderate | Strict

  datatype RefundBreakdown = RefundBreakdown(refund: int, retainedHost: int, retainedPlatform: int)

  const HOST_RETAINED_PCT := 90

  function GuestRefundPct(tier: CancellationTier, days: int): (pct: int)
    ensures 0 <= pct <= 100
  {
    if days >= 14 then 100
    else
      match tier
      case Flexible => if days >= 3 then 100 else 50
      case Moderate => if days >= 7 then 100 else if days >= 3 then 50 else 0
      case Strict => if days >= 7 then 50 else 0
  }

  /** Cancelling earlier never refunds less, and a stricter tier never refunds more. */
  lemma TierTableIsMonotone(tier: CancellationTier, later: int, earlier: int)
    requires later <= earlier
    ensures GuestRefundPct(tier, later) <= GuestRefundPct(tier, earlier)
    ensures GuestRefundPct(Strict, later) <= GuestRefundPct(Moderate, later) <= GuestRefundPct(Flexible, later)
  {
  }

  /** `ceil(a / 100)`, rounding a fractional satang up. */
  function CeilPct(a: int): int {
    -((-a) / 100)
  }

  lemma PctWithin(total: int, pct: int)
    requires 0 <= total && 0 <= pct <= 100
    ensures 0 <= total * pct <= total * 100
  {
  }

  /** The least whole amount that covers `pct` percent of the total. */
  function RefundForPct(total: int, pct: int): (refund: int)
    ensures 0 <= total && 0 <= pct <= 100 ==>
            && 0 <= refund <= total
            && total * pct <= 100 * refund < total * pct + 100
  {
    if pct >= 100 then total
    else if pct <= 0 then 0
    else
      var share := total * pct;
      assert 0 <= total ==> 0 <= share <= 100 * total by {
        if 0 <= total {
          PctWithin(total, pct);
        }
      }
      CeilPct(share)
  }

  /** Percentages outside the scale count as its ends. */
  lemma RefundOffTheScale(total: int, pct: int)
    ensures pct >= 100 ==> RefundForPct(total, pct) == total
    ensures pct <= 0 ==> RefundForPct(total, pct) == 0
  {
  }

  lemma RefundInRange(total: int, pct: int)
    requires 0 <= total
    ensures 0 <= RefundForPct(total, pct) <= total
  {
  }

  /** Nothing is lost in the split, and the host's part of what is kept rounds down. */
  function Breakdown(total: int, refund: int): (b: RefundBreakdown)
    ensures b.refund + b.retainedHost + b.retainedPlatform == total
    ensures b.refund <= total ==> 0 <= b.retainedHost && 0 <= b.retainedPlatform
    ensures b.refund == refund && 90 * (total - refund) - 100 < 100 * b.retainedHost <= 90 * (total - refund)
  {
    var retained := total - refund;
    var host := (retained * HOST_RETAINED_PCT) / 100;
    RefundBreakdown(refund, host, retained - host)
  }

  function ComputeRefund(total: int, tier: CancellationTier, days: int): RefundBreakdown {
    Breakdown(total, RefundForPct(total, GuestRefundPct(tier, days)))
  }

  // ---- A chain of partial decisions ----

  /** What is left of the pot after a list of decisions, each refunding a
      percentage of what the previous ones left. */
  function PotAfter(total: int, pcts: seq<int>): int {
    if pcts == [] then total
    else
      var pot := PotAfter(total, pcts[..|pcts| - 1]);
      pot - RefundForPct(pot, pcts[|pcts| - 1])
  }

  /** What one decision leaves when nothing is rounded. */
  ghost function ExactKept(pot: real, pct: int): real {
    pot * ((100 - pct) as real / 100.0)
  }

  /** The whole chain without any rounding. */
  ghost function ExactPot(total: int, pcts: seq<int>): real {
    if pcts == [] then total as real
    else ExactKept(ExactPot(total, pcts[..|pcts| - 1]), pcts[|pcts| - 1])
  }

  predicate Percentages(pcts: seq<int>) {
    forall i :: 0 <= i < |pcts| ==> 0 <= pcts[i] <= 100
  }

  lemma OneDecision(pot: int, pct: int)
    requires 0 <= pot && 0 <= pct <= 100
    ensures var left := (pot - RefundForPct(pot, pct)) as real;
            var exact := pot as real * ((100 - pct) as real / 100.0);
            left <= exact < left + 1.0
  {
  }

  lemma NonNegProduct(a: real, b: real)
    requires 0.0 <= a && 0.0 <= b
    ensures 0.0 <= a * b
  {
  }

  /** One more decision scales the error made so far and adds less than one satang. */
  lemma NextError(exact: real, pot: int, pct: int, k: nat)
    requires 0 <= pot && 0 <= pct <= 100
    requires 0.0 <= exact - pot as real <= k as real
    ensures var left := (pot - RefundForPct(pot, pct)) as real;
            0.0 <= ExactKept(exact, pct) - left < k as real + 1.0
  {
    var keep := (100 - pct) as real / 100.0;
    var gap := exact - pot as real;
    OneDecision(pot, pct);
    NonNegProduct(gap, keep);
    NonNegProduct(gap, 1.0 - keep);
    assert exact * keep == pot as real * keep + gap * keep;
    assert gap * (1.0 - keep) == gap - gap * keep;
  }

  lemma {:induction false} PotShrinks(total: int, pcts: seq<int>)
    requires 0 <= total
    ensures 0 <= PotAfter(total, pcts) <= total
    ensures pcts != [] ==> PotAfter(total, pcts) <= PotAfter(total, pcts[..|pcts| - 1])
  {
    if pcts != [] {
      var front := pcts[..|pcts| - 1];
      PotShrinks(total, front);
      RefundInRange(PotAfter(total, front), pcts[|pcts| - 1]);
    }
  }

  /** The guest is ahead of the exact share by a bounded amount. */
  lemma {:induction false} LeadBound(total: int, pcts: seq<int>)
    requires 0 <= total && Percentages(pcts)
    ensures var lead := ExactPot(total, pcts) - PotAfter(total, pcts) as real;
            0.0 <= lead <= |pcts| as real && (pcts != [] ==> lead < |pcts| as real)
  {
    if pcts != [] {
      var front, pct := pcts[..|pcts| - 1], pcts[|pcts| - 1];
      LeadBound(total, front);
      PotShrinks(total, front);
      NextError(ExactPot(total, front), PotAfter(total, front), pct, |front|);
    }
  }

  /** Rounding over a chain of k decisions: the guest's cumulative refund never
      decreases and never exceeds the total; it is never below the exact share, and
      exceeds it by less than k satang. */
  lemma ChainRounding(total: int, pcts: seq<int>)
    requires 0 <= total && Percentages(pcts) && pcts != []
    ensures var refunded := total - PotAfter(total, pcts);
            var before := total - PotAfter(total, pcts[..|pcts| - 1]);
            var exactShare := total as real - ExactPot(total, pcts);
            && 0 <= before <= refunded <= total
            && exactShare <= refunded as real < exactShare + |pcts| as real
  {
    PotShrinks(total, pcts);
    PotShrinks(total, pcts[..|pcts| - 1]);
    LeadBound(total, pcts);
  }
}
