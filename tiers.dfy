/** Lists of `(threshold, value)` pairs, as the tiered airdrop policies
    (airdrop_policy.py) and the tiered pre-TGE reward policies
    (preTGE_rewards.py) configure them. */
module Tiers {
  import opened Common

  /** One tier: its threshold and the value attached to it (a reward amount
      or a per-unit factor, depending on the policy). */
  datatype Tier = Tier(threshold: Threshold, value: real)

  /** The index of the first tier whose threshold strictly exceeds `x`,
      or `|tiers|` when there is none. */
  function FirstExceeding(tiers: seq<Tier>, x: real): (k: nat)
    ensures k <= |tiers|
    ensures forall j :: 0 <= j < k ==> !Below(x, tiers[j].threshold)
    ensures k < |tiers| ==> Below(x, tiers[k].threshold)
  {
    if tiers == [] then 0
    else if Below(x, tiers[0].threshold) then 0
    else 1 + FirstExceeding(tiers[1..], x)
  }

  /** The value of the first tier with `x < threshold`; when no threshold
      exceeds `x`, the last tier's value (`tiers[-1][1]`). */
  function TierLookup(tiers: seq<Tier>, x: real): (r: real)
    requires |tiers| > 0
    ensures exists k :: 0 <= k < |tiers| && r == tiers[k].value
  {
    var k := FirstExceeding(tiers, x);
    if k < |tiers| then tiers[k].value else tiers[|tiers| - 1].value
  }

  /** The loop with an early return that both the tiered-constant airdrop
      policy and the dYdX reward policy run. */
  method LookupTier(tiers: seq<Tier>, x: real) returns (r: real)
    requires |tiers| > 0
    ensures r == TierLookup(tiers, x)
  {
    for i := 0 to |tiers|
      invariant forall j :: 0 <= j < i ==> !Below(x, tiers[j].threshold)
    {
      if Below(x, tiers[i].threshold) {
        return tiers[i].value;
      }
    }
    return tiers[|tiers| - 1].value;
  }

  /** A value exactly on a threshold belongs to the next tier: the lookup
      picks tier `k` precisely when `x` is below its threshold and at or
      above every earlier one. */
  lemma TierLookupPicks(tiers: seq<Tier>, x: real, k: nat)
    requires k < |tiers|
    requires Below(x, tiers[k].threshold)
    requires forall j :: 0 <= j < k ==> !Below(x, tiers[j].threshold)
    ensures TierLookup(tiers, x) == tiers[k].value
  {
    FirstExceedingIs(tiers, x, k);
  }

  lemma {:induction false} FirstExceedingIs(tiers: seq<Tier>, x: real, k: nat)
    requires k < |tiers|
    requires Below(x, tiers[k].threshold)
    requires forall j :: 0 <= j < k ==> !Below(x, tiers[j].threshold)
    ensures FirstExceeding(tiers, x) == k
  {
    if k > 0 {
      assert !Below(x, tiers[0].threshold);
      FirstExceedingIs(tiers[1..], x, k - 1);
    }
  }

  lemma {:induction false} FirstExceedingMonotone(tiers: seq<Tier>, x: real, y: real)
    requires x <= y
    ensures FirstExceeding(tiers, x) <= FirstExceeding(tiers, y)
  {
    if tiers != [] && !Below(y, tiers[0].threshold) {
      FirstExceedingMonotone(tiers[1..], x, y);
    }
  }

  /** With nothing exceeding `x`, the lookup falls back to the last tier. */
  lemma TierLookupFallback(tiers: seq<Tier>, x: real)
    requires |tiers| > 0
    requires forall j :: 0 <= j < |tiers| ==> !Below(x, tiers[j].threshold)
    ensures TierLookup(tiers, x) == tiers[|tiers| - 1].value
  {
  }

  predicate ValuesNonDecreasing(tiers: seq<Tier>) {
    forall i, j :: 0 <= i <= j < |tiers| ==> tiers[i].value <= tiers[j].value
  }

  /** With non-decreasing tier values, the lookup is monotone in `x`. */
  lemma TierLookupMonotone(tiers: seq<Tier>, x: real, y: real)
    requires |tiers| > 0 && ValuesNonDecreasing(tiers) && x <= y
    ensures TierLookup(tiers, x) <= TierLookup(tiers, y)
  {
    FirstExceedingMonotone(tiers, x, y);
  }
}
