/** Pre-TGE reward policies (preTGE_rewards.py): each maps a dictionary of
    activity metrics to the airdrop points a user earns. Missing metrics are
    read with a default, as `activity_stats.get(key, default)` does. */
module PreTgeRewards {
  import opened Common
  import opened Tiers

  /** An activity-statistics dictionary. */
  type Stats = map<string, real>

  datatype RewardPolicy =
    | Dydx(tiers: seq<Tier>)
    | Vertex(makerWeight: real, takerWeight: real, referralRate: real)
    | Jupiter(tiers: seq<Tier>)
    | Aevo
    | Generic(weights: seq<(string, real)>)

  /** The policies with the constructor defaults of the source. */
  const DefaultDydx: RewardPolicy :=
    Dydx([Tier(Finite(1000.0), 310.0), Tier(Finite(10000.0), 1163.0), Tier(Finite(100000.0), 2500.0),
          Tier(Finite(1000000.0), 6414.0), Tier(Infinite, 9530.0)])
  const DefaultVertex: RewardPolicy := Vertex(0.6, 0.3, 0.1)
  const DefaultJupiter: RewardPolicy :=
    Jupiter([Tier(Finite(1000.0), 50.0), Tier(Finite(29000.0), 250.0), Tier(Finite(500000.0), 3000.0),
             Tier(Finite(3000000.0), 10000.0), Tier(Finite(14000000.0), 20000.0)])
  const DefaultGeneric: RewardPolicy :=
    Generic([("volume", 0.5), ("engagement", 0.3), ("referrals", 0.1), ("deposits", 0.1)])

  /** A weight dictionary has each key once. */
  predicate DistinctKeys(weights: seq<(string, real)>) {
    forall i, j :: 0 <= i < j < |weights| ==> weights[i].0 != weights[j].0
  }

  /** The configurations on which `calculate_points` does not raise: the
      dYdX policy has a last tier to fall back to, and the generic weights
      form a dictionary. */
  predicate ValidRewardPolicy(p: RewardPolicy) {
    match p
    case Dydx(tiers) => |tiers| > 0
    case Generic(weights) => DistinctKeys(weights)
    case _ => true
  }

  /** The Jupiter reward: the points of the last tier of the prefix whose
      thresholds the volume reaches, or 0 when it reaches none. */
  function JupiterPoints(tiers: seq<Tier>, volume: real): real {
    var k := FirstExceeding(tiers, volume);
    if k == 0 then 0.0 else tiers[k - 1].value
  }

  /** `JupiterVolumeTierRewardPolicy.calculate_points`: the loop that keeps
      the last reached tier and breaks at the first unreached one. */
  method JupiterLoop(tiers: seq<Tier>, volume: real) returns (reward: real)
    ensures reward == JupiterPoints(tiers, volume)
  {
    reward := 0.0;
    var i := 0;
    while i < |tiers|
      invariant 0 <= i <= |tiers|
      invariant forall j :: 0 <= j < i ==> !Below(volume, tiers[j].threshold)
      invariant reward == if i == 0 then 0.0 else tiers[i - 1].value
    {
      if !Below(volume, tiers[i].threshold) {
        reward := tiers[i].value;
      } else {
        break;
      }
      i := i + 1;
    }
    FirstExceedingAt(tiers, volume, i);
  }

  lemma {:induction false} FirstExceedingAt(tiers: seq<Tier>, x: real, k: nat)
    requires k <= |tiers|
    requires forall j :: 0 <= j < k ==> !Below(x, tiers[j].threshold)
    requires k < |tiers| ==> Below(x, tiers[k].threshold)
    ensures FirstExceeding(tiers, x) == k
  {
    if k > 0 {
      FirstExceedingAt(tiers[1..], x, k - 1);
    }
  }

  /** `score += weight * activity_stats.get(key, 0)` over the weight
      dictionary, in its order. */
  function WeightedSum(weights: seq<(string, real)>, stats: Stats): real {
    if weights == [] then 0.0
    else
      var last := weights[|weights| - 1];
      WeightedSum(weights[..|weights| - 1], stats) + last.1 * Get(stats, last.0, 0.0)
  }

  /** `GenericPreTGERewardPolicy.calculate_points`. */
  method GenericLoop(weights: seq<(string, real)>, stats: Stats) returns (score: real)
    ensures score == WeightedSum(weights, stats)
  {
    score := 0.0;
    for i := 0 to |weights|
      invariant score == WeightedSum(weights[..i], stats)
    {
      assert weights[..i + 1][..i] == weights[..i];
      var (key, weight) := weights[i];
      score := score + weight * Get(stats, key, 0.0);
    }
    assert weights[..|weights|] == weights;
  }

  /** `calculate_points` of every policy. The tiered policies pay one of
      their tier amounts (Jupiter also nothing, below its first tier), and
      the weighted policies give nothing for an empty dictionary. */
  function Points(p: RewardPolicy, stats: Stats): (r: real)
    requires ValidRewardPolicy(p)
    ensures p.Dydx? ==> exists k :: 0 <= k < |p.tiers| && r == p.tiers[k].value
    ensures p.Jupiter? ==> r == 0.0 || exists k :: 0 <= k < |p.tiers| && r == p.tiers[k].value
    ensures (p.Vertex? || p.Aevo? || p.Generic?) && stats == map[] ==> r == 0.0
  {
    match p
    case Dydx(tiers) => TierLookup(tiers, Get(stats, "trading_volume", 0.0))
    case Vertex(makerWeight, takerWeight, referralRate) =>
      Get(stats, "maker_volume", 0.0) * makerWeight
      + Get(stats, "taker_volume", 0.0) * takerWeight
      + Get(stats, "referral_points", 0.0) * referralRate
    case Jupiter(tiers) => JupiterPoints(tiers, Get(stats, "swap_volume", 0.0))
    case Aevo =>
      Get(stats, "pre_volume", 0.0) + Get(stats, "boost_mult", 1.0) * Get(stats, "farm_volume", 0.0)
      + Get(stats, "deposit_bonus", 0.0) + Get(stats, "early_bonus", 0.0)
    case Generic(weights) =>
      NoStatsNoScore(weights);
      WeightedSum(weights, stats)
  }

  /** Without statistics every weighted key counts as 0. */
  lemma {:induction false} NoStatsNoScore(weights: seq<(string, real)>)
    ensures WeightedSum(weights, map[]) == 0.0
  {
    if weights != [] {
      NoStatsNoScore(weights[..|weights| - 1]);
    }
  }

  /** `calculate_points`, running the loops of the source. */
  method CalculatePoints(p: RewardPolicy, stats: Stats) returns (points: real)
    requires ValidRewardPolicy(p)
    ensures points == Points(p, stats)
  {
    match p
    case Dydx(tiers) =>
      points := LookupTier(tiers, Get(stats, "trading_volume", 0.0));
    case Vertex(makerWeight, takerWeight, referralRate) =>
      points := Get(stats, "maker_volume", 0.0) * makerWeight
                + Get(stats, "taker_volume", 0.0) * takerWeight
                + Get(stats, "referral_points", 0.0) * referralRate;
    case Jupiter(tiers) =>
      points := JupiterLoop(tiers, Get(stats, "swap_volume", 0.0));
    case Aevo =>
      points := Get(stats, "pre_volume", 0.0) + Get(stats, "boost_mult", 1.0) * Get(stats, "farm_volume", 0.0)
                + Get(stats, "deposit_bonus", 0.0) + Get(stats, "early_bonus", 0.0);
    case Generic(weights) =>
      points := GenericLoop(weights, stats);
  }

  // ---------------------------------------------------------------------
  // Properties.

  /** dYdX defaults: a volume equal to a threshold lands in the next tier,
      a missing volume counts as 0, and volumes past the last finite
      threshold keep the tier's points. */
  lemma DydxDefaults()
    ensures Points(DefaultDydx, map["trading_volume" := 500.0]) == 310.0
    ensures Points(DefaultDydx, map["trading_volume" := 1000.0]) == 1163.0
    ensures Points(DefaultDydx, map["trading_volume" := 5000.0]) == 1163.0
    ensures Points(DefaultDydx, map["trading_volume" := 15000.0]) == 2500.0
    ensures Points(DefaultDydx, map["trading_volume" := 50000.0]) == 2500.0
    ensures Points(DefaultDydx, map[]) == 310.0
  {
    var tiers := DefaultDydx.tiers;
    TierLookupPicks(tiers, 500.0, 0);
    TierLookupPicks(tiers, 1000.0, 1);
    TierLookupPicks(tiers, 5000.0, 1);
    TierLookupPicks(tiers, 15000.0, 2);
    TierLookupPicks(tiers, 50000.0, 2);
    TierLookupPicks(tiers, 0.0, 0);
  }

  /** dYdX with non-decreasing tier points: more volume never earns fewer points. */
  lemma DydxMonotone(tiers: seq<Tier>, stats: Stats, stats': Stats)
    requires |tiers| > 0 && ValuesNonDecreasing(tiers)
    requires Get(stats, "trading_volume", 0.0) <= Get(stats', "trading_volume", 0.0)
    ensures Points(Dydx(tiers), stats) <= Points(Dydx(tiers), stats')
  {
    TierLookupMonotone(tiers, Get(stats, "trading_volume", 0.0), Get(stats', "trading_volume", 0.0));
  }

  /** Vertex on the example statistics: 0.6*5000 + 0.3*3000 + 0.1*20. */
  lemma VertexExample()
    ensures Points(DefaultVertex, map["maker_volume" := 5000.0, "taker_volume" := 3000.0, "referral_points" := 20.0]) == 3902.0
  {
  }

  /** Thresholds listed in ascending order. */
  predicate ThresholdsAscending(tiers: seq<Tier>) {
    forall i, j :: 0 <= i <= j < |tiers| ==> ThresholdLe(tiers[i].threshold, tiers[j].threshold)
  }

  /** With ascending thresholds, the prefix the Jupiter loop walks is
      exactly the set of tiers whose threshold the volume reaches, so the
      reward is the points of the last reached tier. */
  lemma JupiterReachedTiers(tiers: seq<Tier>, volume: real)
    requires ThresholdsAscending(tiers)
    ensures var k := FirstExceeding(tiers, volume);
      forall j :: 0 <= j < |tiers| ==> (!Below(volume, tiers[j].threshold) <==> j < k)
  {
    var k := FirstExceeding(tiers, volume);
    forall j | 0 <= j < |tiers| && k <= j
      ensures Below(volume, tiers[j].threshold)
    {
      assert ThresholdLe(tiers[k].threshold, tiers[j].threshold);
    }
  }

  /** Jupiter defaults: below the first threshold nothing, 600000 reaches
      the 500000 tier. */
  lemma JupiterDefaults(volume: real)
    requires volume < 1000.0
    ensures Points(DefaultJupiter, map["swap_volume" := volume]) == 0.0
    ensures Points(DefaultJupiter, map["swap_volume" := 600000.0]) == 3000.0
    ensures Points(DefaultJupiter, map[]) == 0.0
  {
    var tiers := DefaultJupiter.tiers;
    FirstExceedingAt(tiers, volume, 0);
    FirstExceedingAt(tiers, 600000.0, 3);
    FirstExceedingAt(tiers, 0.0, 0);
  }

  /** Aevo on the example statistics, with the boost read from the
      dictionary; a missing boost counts as 1. */
  lemma AevoExample(pre: real, farm: real)
    ensures Points(Aevo, map["pre_volume" := 20000.0, "farm_volume" := 5000.0, "boost_mult" := 2.0,
                            "deposit_bonus" := 100.0]) == 30100.0
    ensures Points(Aevo, map["pre_volume" := pre, "farm_volume" := farm]) == pre + farm
  {
  }

  /** Generic on the example statistics. */
  lemma GenericExample()
    ensures Points(DefaultGeneric, map["volume" := 12000.0, "engagement" := 5.0, "referrals" := 2.0,
                                       "deposits" := 3000.0]) == 6301.7
  {
    var w := DefaultGeneric.weights;
    var stats := map["volume" := 12000.0, "engagement" := 5.0, "referrals" := 2.0, "deposits" := 3000.0];
    assert w[..3][..2][..1][..0] == [];
    assert WeightedSum(w[..1], stats) == 6000.0;
    assert WeightedSum(w[..2], stats) == 6001.5 by { assert w[..2][..1] == w[..1]; }
    assert WeightedSum(w[..3], stats) == 6001.7 by { assert w[..3][..2] == w[..2]; }
    assert w[..4][..3] == w[..3];
    assert w[..4] == w;
  }

  /** Generic reads only its weight keys: two statistics dictionaries that
      agree on those keys (a missing metric reading as 0) score the same, so
      extra metrics are ignored and a missing metric counts as 0. */
  lemma {:induction false} GenericOnlyWeightKeys(weights: seq<(string, real)>, stats: Stats, stats': Stats)
    requires forall i :: 0 <= i < |weights| ==> Get(stats, weights[i].0, 0.0) == Get(stats', weights[i].0, 0.0)
    ensures WeightedSum(weights, stats) == WeightedSum(weights, stats')
  {
    if weights != [] {
      GenericOnlyWeightKeys(weights[..|weights| - 1], stats, stats');
    }
  }

  lemma {:induction false} WeightedSumNonNegative(weights: seq<(string, real)>, stats: Stats)
    requires forall i :: 0 <= i < |weights| ==> 0.0 <= weights[i].1
    requires forall key :: key in stats ==> 0.0 <= stats[key]
    ensures 0.0 <= WeightedSum(weights, stats)
  {
    if weights != [] {
      var last := weights[|weights| - 1];
      WeightedSumNonNegative(weights[..|weights| - 1], stats);
      MulLeft(last.1, 0.0, Get(stats, last.0, 0.0));
    }
  }

  /** Non-negative metrics and weights give a non-negative score for the
      Vertex, Aevo and generic policies. */
  lemma ScoresNonNegative(p: RewardPolicy, stats: Stats)
    requires p.Vertex? || p.Aevo? || (p.Generic? && DistinctKeys(p.weights))
    requires forall key :: key in stats ==> 0.0 <= stats[key]
    requires p.Vertex? ==> 0.0 <= p.makerWeight && 0.0 <= p.takerWeight && 0.0 <= p.referralRate
    requires p.Generic? ==> forall i :: 0 <= i < |p.weights| ==> 0.0 <= p.weights[i].1
    ensures 0.0 <= Points(p, stats)
  {
    match p
    case Vertex(mw, tw, rr) =>
      MulLeft(mw, 0.0, Get(stats, "maker_volume", 0.0));
      MulLeft(tw, 0.0, Get(stats, "taker_volume", 0.0));
      MulLeft(rr, 0.0, Get(stats, "referral_points", 0.0));
    case Aevo =>
      MulLeft(Get(stats, "boost_mult", 1.0), 0.0, Get(stats, "farm_volume", 0.0));
    case Generic(weights) =>
      WeightedSumNonNegative(weights, stats);
  }
}
