/** Points-to-token conversion policies (airdrop_policy.py). A policy maps a
    user's (normalised) airdrop points to a token amount at TGE. */
module AirdropPolicy {
  import opened Common
  import opened Tiers

  /** A tiered-exponential tier: a threshold and a parameter dictionary that
      may hold 'factor' and 'scaling'. */
  datatype ExpTier = ExpTier(threshold: Threshold, params: map<string, real>)
  {
    function Factor(): real {
      Get(params, "factor", 1.0)
    }

    function Scaling(): real {
      Get(params, "scaling", 0.2)
    }
  }

  /** The policy classes: the base `AirdropPolicy` returns the points as they are. */
  datatype Policy =
    | Identity
    | Linear(factor: real)
    | Exponential(factor: real, scaling: real)
    | TieredConstant(tiers: seq<Tier>)
    | TieredLinear(tiers: seq<Tier>)
    | TieredExponential(expTiers: seq<ExpTier>)

  /** The policies with the constructor defaults of the source. */
  const DefaultLinear: Policy := Linear(1.0)
  const DefaultExponential: Policy := Exponential(1.0, 1.0)
  const DefaultTieredConstant: Policy :=
    TieredConstant([Tier(Finite(0.2), 0.1), Tier(Finite(0.6), 0.4), Tier(Infinite, 1.0)])
  const DefaultTieredLinear: Policy :=
    TieredLinear([Tier(Finite(0.2), 1.0), Tier(Finite(0.6), 1.5), Tier(Infinite, 2.0)])
  const DefaultTieredExponential: Policy :=
    TieredExponential([ExpTier(Finite(0.2), map["factor" := 1.0, "scaling" := 0.2]),
                       ExpTier(Finite(0.6), map["factor" := 1.5, "scaling" := 0.4]),
                       ExpTier(Infinite, map["factor" := 2.0, "scaling" := 0.4])])

  /** The configurations on which `calculate_tokens` raises for no points
      at all: an exponential scaling is never zero, a tiered-constant policy
      has a last tier to fall back to and no tiered-exponential scaling is
      zero. */
  predicate ValidPolicy(p: Policy) {
    match p
    case Exponential(_, scaling) => scaling != 0.0
    case TieredConstant(tiers) => |tiers| > 0
    case TieredExponential(expTiers) => forall k :: 0 <= k < |expTiers| ==> expTiers[k].Scaling() != 0.0
    case _ => true
  }

  /** `calculate_tokens(points)` does not raise: as `ValidPolicy`, except
      that a tiered-exponential policy only divides by the scalings of the
      tiers the points reach. */
  predicate ValidAt(p: Policy, points: real) {
    match p
    case Exponential(_, scaling) => scaling != 0.0
    case TieredConstant(tiers) => |tiers| > 0
    case TieredExponential(expTiers) => ReachedScalingsNonzero(expTiers, points)
    case _ => true
  }

  /** Thresholds of a cumulative policy, read from `prev` on: each is at
      least the one before it (nothing is required after an infinite one). */
  predicate Ascending(thresholds: seq<Threshold>, prev: real) {
    thresholds == [] ||
    (AtMost(prev, thresholds[0]) &&
     (thresholds[0].Finite? ==> Ascending(thresholds[1..], thresholds[0].value)))
  }

  function Thresholds(tiers: seq<Tier>): (r: seq<Threshold>)
    ensures |r| == |tiers| && forall k :: 0 <= k < |tiers| ==> r[k] == tiers[k].threshold
  {
    seq(|tiers|, k requires 0 <= k < |tiers| => tiers[k].threshold)
  }

  function ExpThresholds(tiers: seq<ExpTier>): (r: seq<Threshold>)
    ensures |r| == |tiers| && forall k :: 0 <= k < |tiers| ==> r[k] == tiers[k].threshold
  {
    seq(|tiers|, k requires 0 <= k < |tiers| => tiers[k].threshold)
  }

  // ---------------------------------------------------------------------
  // Tiered-linear: reward mass accumulated interval by interval.

  /** The tokens the tiered-linear loop accumulates from the tier list
      `tiers`, starting at the lower bound `prev`. */
  function TieredLinearFrom(tiers: seq<Tier>, x: real, prev: real): real {
    if tiers == [] then 0.0
    else if AtMost(x, tiers[0].threshold) then (x - prev) * tiers[0].value
    else
      var t := tiers[0].threshold.value;
      (t - prev) * tiers[0].value + TieredLinearFrom(tiers[1..], x, t)
  }

  /** `TieredLinearAirdropPolicy.calculate_tokens`. */
  method TieredLinearTokens(tiers: seq<Tier>, points: real) returns (tokens: real)
    ensures tokens == TieredLinearFrom(tiers, points, 0.0)
  {
    tokens := 0.0;
    var prev := 0.0;
    for i := 0 to |tiers|
      invariant tokens + TieredLinearFrom(tiers[i..], points, prev) == TieredLinearFrom(tiers, points, 0.0)
    {
      assert tiers[i..][1..] == tiers[i + 1..];
      var tier := tiers[i];
      if AtMost(points, tier.threshold) {
        tokens := tokens + (points - prev) * tier.value;
        return;
      }
      tokens := tokens + (tier.threshold.value - prev) * tier.value;
      prev := tier.threshold.value;
    }
  }

  /** At a threshold, the next tier's formula adds nothing: the value just at
      the boundary is where the next piece starts. */
  lemma TieredLinearZeroWidth(tiers: seq<Tier>, t: real)
    requires Ascending(Thresholds(tiers), t)
    ensures TieredLinearFrom(tiers, t, t) == 0.0
  {
    if tiers != [] {
      assert Thresholds(tiers)[0] == tiers[0].threshold;
    }
  }

  /** Two point counts inside one tier of rate `v` in [0, bound]. */
  lemma SameTierGap(v: real, bound: real, prev: real, x: real, y: real)
    requires 0.0 <= v <= bound && x <= y
    ensures 0.0 <= (y - prev) * v - (x - prev) * v <= bound * (y - x)
  {
    assert (y - prev) * v - (x - prev) * v == (y - x) * v;
    MulLeft(y - x, 0.0, v);
    MulLeft(y - x, v, bound);
  }

  /** `x` inside a tier of rate `v` ending at `t`, `y` beyond it, where the
      later tiers add `g` in [0, bound * (y - t)] from `t` to `y`. */
  lemma CrossTierGap(v: real, bound: real, prev: real, x: real, t: real, y: real, g: real)
    requires 0.0 <= v <= bound && x <= t <= y && 0.0 <= g <= bound * (y - t)
    ensures 0.0 <= (t - prev) * v + g - (x - prev) * v <= bound * (y - x)
  {
    SameTierGap(v, bound, prev, x, t);
    assert bound * (t - x) + bound * (y - t) == bound * (y - x);
  }

  /** Tiered-linear with ascending thresholds and factors in [0, bound] is
      non-decreasing and changes by at most `bound` per unit of points; in
      particular it is continuous at every threshold. */
  lemma {:induction false} TieredLinearLipschitz(tiers: seq<Tier>, x: real, y: real, prev: real, bound: real)
    requires Ascending(Thresholds(tiers), prev)
    requires 0.0 <= bound && forall k :: 0 <= k < |tiers| ==> 0.0 <= tiers[k].value <= bound
    requires x <= y
    ensures 0.0 <= TieredLinearFrom(tiers, y, prev) - TieredLinearFrom(tiers, x, prev) <= bound * (y - x)
  {
    if tiers == [] {
      MulLeft(bound, 0.0, y - x);
    } else {
      var tier := tiers[0];
      assert Thresholds(tiers)[0] == tier.threshold;
      assert 0.0 <= tier.value <= bound;
      if AtMost(y, tier.threshold) {
        assert AtMost(x, tier.threshold);
        SameTierGap(tier.value, bound, prev, x, y);
      } else {
        var t := tier.threshold.value;
        var rest := tiers[1..];
        assert Thresholds(rest) == Thresholds(tiers)[1..];
        if AtMost(x, tier.threshold) {
          TieredLinearLipschitz(rest, t, y, t, bound);
          TieredLinearZeroWidth(rest, t);
          CrossTierGap(tier.value, bound, prev, x, t, y, TieredLinearFrom(rest, y, t));
        } else {
          TieredLinearLipschitz(rest, x, y, t, bound);
        }
      }
    }
  }

  // ---------------------------------------------------------------------
  // Tiered-exponential: the same accumulation with exponential pieces.

  /** The contribution of one tier over an interval of the given width. */
  function ExpPiece(tier: ExpTier, width: real, exp: real -> real): real
    requires tier.Scaling() != 0.0
  {
    tier.Factor() * (exp(width / tier.Scaling()) - 1.0)
  }

  /** `x` lies above every threshold of `tiers`, so the loop passes them all. */
  predicate PassesAll(tiers: seq<ExpTier>, x: real) {
    forall j :: 0 <= j < |tiers| ==> !AtMost(x, tiers[j].threshold)
  }

  /** Every tier the loop reaches at `x` (every tier whose predecessors `x`
      all exceeds) has a nonzero scaling; the loop divides by no other. */
  predicate ReachedScalingsNonzero(tiers: seq<ExpTier>, x: real) {
    forall k :: 0 <= k < |tiers| && PassesAll(tiers[..k], x) ==> tiers[k].Scaling() != 0.0
  }

  /** Passing the first tier, the loop reaches the rest as a loop over them. */
  lemma ReachedTail(tiers: seq<ExpTier>, x: real)
    requires tiers != [] && !AtMost(x, tiers[0].threshold) && ReachedScalingsNonzero(tiers, x)
    ensures tiers[0].Scaling() != 0.0 && ReachedScalingsNonzero(tiers[1..], x)
  {
    assert PassesAll(tiers[..0], x);
    forall k | 0 <= k < |tiers| - 1 && PassesAll(tiers[1..][..k], x)
      ensures tiers[1..][k].Scaling() != 0.0
    {
      var before := tiers[..k + 1];
      forall j | 0 <= j < |before|
        ensures !AtMost(x, before[j].threshold)
      {
        if j > 0 {
          assert before[j] == tiers[1..][..k][j - 1];
        }
      }
      assert PassesAll(before, x);
    }
  }

  /** The tokens the tiered-exponential loop accumulates from `prev` on. */
  function TieredExpFrom(tiers: seq<ExpTier>, x: real, prev: real, exp: real -> real): real
    requires ReachedScalingsNonzero(tiers, x)
  {
    if tiers == [] then 0.0
    else if AtMost(x, tiers[0].threshold) then
      assert PassesAll(tiers[..0], x);
      ExpPiece(tiers[0], x - prev, exp)
    else
      var t := tiers[0].threshold.value;
      ReachedTail(tiers, x);
      ExpPiece(tiers[0], t - prev, exp) + TieredExpFrom(tiers[1..], x, t, exp)
  }

  /** One step of `TieredExpFrom`: the piece of the first tier, and the rest
      of the tiers when `x` lies above its threshold. */
  lemma TieredExpFromStep(tiers: seq<ExpTier>, x: real, prev: real, exp: real -> real)
    requires tiers != [] && ReachedScalingsNonzero(tiers, x)
    ensures tiers[0].Scaling() != 0.0
    ensures AtMost(x, tiers[0].threshold) ==> TieredExpFrom(tiers, x, prev, exp) == ExpPiece(tiers[0], x - prev, exp)
    ensures !AtMost(x, tiers[0].threshold) ==> ReachedScalingsNonzero(tiers[1..], x)
    ensures !AtMost(x, tiers[0].threshold) ==>
      TieredExpFrom(tiers, x, prev, exp)
      == ExpPiece(tiers[0], tiers[0].threshold.value - prev, exp) + TieredExpFrom(tiers[1..], x, tiers[0].threshold.value, exp)
  {
    assert PassesAll(tiers[..0], x);
    if !AtMost(x, tiers[0].threshold) {
      ReachedTail(tiers, x);
    }
  }

  /** `TieredExponentialAirdropPolicy.calculate_tokens`: it divides only by
      the scalings of the tiers it reaches. */
  method TieredExpTokens(tiers: seq<ExpTier>, points: real, exp: real -> real) returns (tokens: real)
    requires ReachedScalingsNonzero(tiers, points)
    ensures tokens == TieredExpFrom(tiers, points, 0.0, exp)
  {
    tokens := 0.0;
    var prev := 0.0;
    for i := 0 to |tiers|
      invariant ReachedScalingsNonzero(tiers[i..], points)
      invariant tokens + TieredExpFrom(tiers[i..], points, prev, exp) == TieredExpFrom(tiers, points, 0.0, exp)
    {
      assert tiers[i..][1..] == tiers[i + 1..];
      TieredExpFromStep(tiers[i..], points, prev, exp);
      var tier := tiers[i];
      assert tier == tiers[i..][0];
      if AtMost(points, tier.threshold) {
        tokens := tokens + ExpPiece(tier, points - prev, exp);
        return;
      }
      tokens := tokens + ExpPiece(tier, tier.threshold.value - prev, exp);
      prev := tier.threshold.value;
    }
  }

  /** A tier without 'factor' or 'scaling' uses 1.0 and 0.2. */
  lemma ExpTierDefaults(threshold: Threshold)
    ensures ExpTier(threshold, map[]).Factor() == 1.0 && ExpTier(threshold, map[]).Scaling() == 0.2
  {
  }

  predicate ExpTiersMonotone(tiers: seq<ExpTier>) {
    forall k :: 0 <= k < |tiers| ==> 0.0 <= tiers[k].Factor() && 0.0 < tiers[k].Scaling()
  }

  lemma ExpPieceMonotone(tier: ExpTier, v: real, w: real, exp: real -> real)
    requires ExpLaws(exp) && 0.0 <= tier.Factor() && 0.0 < tier.Scaling() && v <= w
    ensures ExpPiece(tier, v, exp) <= ExpPiece(tier, w, exp)
    ensures ExpPiece(tier, 0.0, exp) == 0.0
  {
    DivMonotone(v, w, tier.Scaling());
    assert exp(v / tier.Scaling()) <= exp(w / tier.Scaling());
    MulLeft(tier.Factor(), exp(v / tier.Scaling()) - 1.0, exp(w / tier.Scaling()) - 1.0);
  }

  /** Tiered-exponential with ascending thresholds, non-negative factors and
      positive scalings is non-decreasing in the points. */
  lemma {:induction false} TieredExpMonotone(tiers: seq<ExpTier>, x: real, y: real, prev: real, exp: real -> real)
    requires ExpLaws(exp) && ExpTiersMonotone(tiers) && Ascending(ExpThresholds(tiers), prev)
    requires x <= y
    ensures TieredExpFrom(tiers, x, prev, exp) <= TieredExpFrom(tiers, y, prev, exp)
  {
    if tiers != [] {
      var tier := tiers[0];
      assert ExpThresholds(tiers)[0] == tier.threshold;
      TieredExpFromStep(tiers, x, prev, exp);
      TieredExpFromStep(tiers, y, prev, exp);
      if AtMost(y, tier.threshold) {
        ExpPieceMonotone(tier, x - prev, y - prev, exp);
      } else {
        var t := tier.threshold.value;
        ExpAscendingTail(tiers, prev);
        if AtMost(x, tier.threshold) {
          ExpPieceMonotone(tier, x - prev, t - prev, exp);
          TieredExpMonotone(tiers[1..], t, y, t, exp);
          TieredExpZeroWidth(tiers[1..], t, exp);
        } else {
          TieredExpMonotone(tiers[1..], x, y, t, exp);
        }
      }
    }
  }

  /** Past a finite first threshold, the remaining thresholds ascend from it. */
  lemma ExpAscendingTail(tiers: seq<ExpTier>, prev: real)
    requires tiers != [] && Ascending(ExpThresholds(tiers), prev) && tiers[0].threshold.Finite?
    ensures Ascending(ExpThresholds(tiers[1..]), tiers[0].threshold.value)
  {
    assert ExpThresholds(tiers)[0] == tiers[0].threshold;
    assert ExpThresholds(tiers[1..]) == ExpThresholds(tiers)[1..];
  }

  /** At a threshold, the next tier's exponential piece adds nothing, so the
      accumulated reward is continuous there. */
  lemma TieredExpZeroWidth(tiers: seq<ExpTier>, t: real, exp: real -> real)
    requires ExpLaws(exp) && ExpTiersMonotone(tiers) && Ascending(ExpThresholds(tiers), t)
    ensures TieredExpFrom(tiers, t, t, exp) == 0.0
  {
    if tiers != [] {
      assert ExpThresholds(tiers)[0] == tiers[0].threshold;
      ExpPieceMonotone(tiers[0], 0.0, 0.0, exp);
    }
  }

  // ---------------------------------------------------------------------
  // The policy interface.

  /** `calculate_tokens` of every policy, as a function of the points. The
      exponential policy saturates at one point, and a tiered-constant policy
      pays one of its tier amounts. */
  function Tokens(p: Policy, points: real, exp: real -> real): (t: real)
    requires ValidAt(p, points)
    ensures p.Exponential? && 1.0 <= points ==> t == p.factor * (exp(1.0 / p.scaling) - 1.0)
    ensures p.TieredConstant? ==> exists k :: 0 <= k < |p.tiers| && t == p.tiers[k].value
  {
    match p
    case Identity => points
    case Linear(factor) => factor * points
    case Exponential(factor, scaling) =>
      var capped := if points < 1.0 then points else 1.0;
      factor * (exp(capped / scaling) - 1.0)
    case TieredConstant(tiers) => TierLookup(tiers, points)
    case TieredLinear(tiers) => TieredLinearFrom(tiers, points, 0.0)
    case TieredExponential(expTiers) => TieredExpFrom(expTiers, points, 0.0, exp)
  }

  /** `calculate_tokens`, running the loops of the tiered policies. */
  method CalculateTokens(p: Policy, points: real, exp: real -> real) returns (tokens: real)
    requires ValidAt(p, points)
    ensures tokens == Tokens(p, points, exp)
  {
    match p
    case Identity =>
      tokens := points;
    case Linear(factor) =>
      tokens := factor * points;
    case Exponential(factor, scaling) =>
      var capped := if points < 1.0 then points else 1.0;
      tokens := factor * (exp(capped / scaling) - 1.0);
    case TieredConstant(tiers) =>
      tokens := LookupTier(tiers, points);
    case TieredLinear(tiers) =>
      tokens := TieredLinearTokens(tiers, points);
    case TieredExponential(expTiers) =>
      tokens := TieredExpTokens(expTiers, points, exp);
  }

  /** The configurations under which a policy rewards more points with at
      least as many tokens. */
  ghost predicate MonotoneConfig(p: Policy) {
    match p
    case Identity => true
    case Linear(factor) => 0.0 <= factor
    case Exponential(factor, scaling) => 0.0 <= factor && 0.0 < scaling
    case TieredConstant(tiers) => |tiers| > 0 && ValuesNonDecreasing(tiers)
    case TieredLinear(tiers) =>
      Ascending(Thresholds(tiers), 0.0) && forall k :: 0 <= k < |tiers| ==> 0.0 <= tiers[k].value
    case TieredExponential(expTiers) => Ascending(ExpThresholds(expTiers), 0.0) && ExpTiersMonotone(expTiers)
  }

  /** Every policy is non-decreasing in the points under its monotone
      configuration: more points never give fewer tokens. */
  lemma TokensMonotone(p: Policy, x: real, y: real, exp: real -> real)
    requires MonotoneConfig(p) && ExpLaws(exp) && x <= y
    ensures ValidPolicy(p)
    ensures Tokens(p, x, exp) <= Tokens(p, y, exp)
  {
    match p
    case Identity =>
    case Linear(factor) =>
      MulLeft(factor, x, y);
    case Exponential(factor, scaling) =>
      ExponentialMonotone(factor, scaling, x, y, exp);
    case TieredConstant(tiers) =>
      TierLookupMonotone(tiers, x, y);
    case TieredLinear(tiers) =>
      var bound := MaxValue(tiers);
      TieredLinearLipschitz(tiers, x, y, 0.0, bound);
    case TieredExponential(expTiers) =>
      TieredExpMonotone(expTiers, x, y, 0.0, exp);
  }

  lemma ExponentialMonotone(factor: real, scaling: real, x: real, y: real, exp: real -> real)
    requires 0.0 <= factor && 0.0 < scaling && ExpLaws(exp) && x <= y
    ensures Tokens(Exponential(factor, scaling), x, exp) <= Tokens(Exponential(factor, scaling), y, exp)
  {
    var cx := if x < 1.0 then x else 1.0;
    var cy := if y < 1.0 then y else 1.0;
    DivMonotone(cx, cy, scaling);
    var ex, ey := exp(cx / scaling), exp(cy / scaling);
    assert ex <= ey;
    MulLeft(factor, ex - 1.0, ey - 1.0);
  }

  function MaxValue(tiers: seq<Tier>): (m: real)
    ensures 0.0 <= m
    ensures forall k :: 0 <= k < |tiers| ==> tiers[k].value <= m
  {
    if tiers == [] then 0.0
    else
      var rest := MaxValue(tiers[1..]);
      assert forall k :: 1 <= k < |tiers| ==> tiers[k] == tiers[1..][k - 1];
      if tiers[0].value < rest then rest else tiers[0].value
  }

  /** The default policies are all monotone configurations. */
  lemma DefaultsMonotone()
    ensures MonotoneConfig(Identity) && MonotoneConfig(DefaultLinear) && MonotoneConfig(DefaultExponential)
    ensures MonotoneConfig(DefaultTieredConstant) && MonotoneConfig(DefaultTieredLinear)
    ensures MonotoneConfig(DefaultTieredExponential)
  {
    var lin := [Tier(Finite(0.2), 1.0), Tier(Finite(0.6), 1.5), Tier(Infinite, 2.0)];
    assert Thresholds(lin) == [Finite(0.2), Finite(0.6), Infinite];
    assert Ascending([Finite(0.2), Finite(0.6), Infinite], 0.0) by {
      assert [Finite(0.2), Finite(0.6), Infinite][1..] == [Finite(0.6), Infinite];
      assert [Finite(0.6), Infinite][1..] == [Infinite];
    }
    var expTiers := DefaultTieredExponential.expTiers;
    assert ExpThresholds(expTiers) == [Finite(0.2), Finite(0.6), Infinite];
  }

  /** The default linear policy and the base policy both return the points. */
  lemma LinearDefaultIsIdentity(points: real, exp: real -> real)
    ensures Tokens(DefaultLinear, points, exp) == points == Tokens(Identity, points, exp)
  {
  }

  /** The exponential policy caps the points at 1 and gives nothing for no
      points. */
  lemma ExponentialCapAndZero(factor: real, scaling: real, points: real, exp: real -> real)
    requires scaling != 0.0 && ExpLaws(exp)
    ensures 1.0 <= points ==> Tokens(Exponential(factor, scaling), points, exp) == Tokens(Exponential(factor, scaling), 1.0, exp)
    ensures Tokens(Exponential(factor, scaling), 0.0, exp) == 0.0
  {
  }

  /** Default tiered-constant: below 0.2 gives 0.1, [0.2, 0.6) gives 0.4 and
      0.6 or more gives 1.0; a boundary belongs to the upper tier. */
  lemma TieredConstantDefaults(points: real, exp: real -> real)
    ensures points < 0.2 ==> Tokens(DefaultTieredConstant, points, exp) == 0.1
    ensures 0.2 <= points < 0.6 ==> Tokens(DefaultTieredConstant, points, exp) == 0.4
    ensures 0.6 <= points ==> Tokens(DefaultTieredConstant, points, exp) == 1.0
  {
    var tiers := DefaultTieredConstant.tiers;
    if points < 0.2 {
      TierLookupPicks(tiers, points, 0);
    } else if points < 0.6 {
      TierLookupPicks(tiers, points, 1);
    } else {
      TierLookupPicks(tiers, points, 2);
    }
  }

  /** Default tiered-linear: 0.2 gives 0.2, 0.6 gives 0.8 and 1.0 gives 1.6. */
  lemma TieredLinearDefaults(exp: real -> real)
    ensures Tokens(DefaultTieredLinear, 0.2, exp) == 0.2
    ensures Tokens(DefaultTieredLinear, 0.6, exp) == 0.8
    ensures Tokens(DefaultTieredLinear, 1.0, exp) == 1.6
  {
    var tiers := DefaultTieredLinear.tiers;
    assert tiers[1..] == [Tier(Finite(0.6), 1.5), Tier(Infinite, 2.0)];
    assert tiers[1..][1..] == [Tier(Infinite, 2.0)];
  }

  /** Tiered-exponential gives nothing for no points when the first threshold
      is non-negative. */
  lemma TieredExpZeroAtZero(tiers: seq<ExpTier>, exp: real -> real)
    requires ExpLaws(exp) && ExpTiersMonotone(tiers) && Ascending(ExpThresholds(tiers), 0.0)
    ensures Tokens(TieredExponential(tiers), 0.0, exp) == 0.0
  {
    TieredExpZeroWidth(tiers, 0.0, exp);
  }

  /** A zero scaling in a tier the points never reach does not stop the
      conversion: with tiers `[(0.5, {}), (inf, {'scaling': 0})]`, 0.3 points
      give `exp(1.5) - 1`, although the policy is not valid at every point. */
  lemma UnreachedZeroScaling(exp: real -> real)
    ensures var p := TieredExponential([ExpTier(Finite(0.5), map[]), ExpTier(Infinite, map["scaling" := 0.0])]);
      !ValidPolicy(p) && ValidAt(p, 0.3) && Tokens(p, 0.3, exp) == exp(1.5) - 1.0
  {
    var p := TieredExponential([ExpTier(Finite(0.5), map[]), ExpTier(Infinite, map["scaling" := 0.0])]);
    assert p.expTiers[1].Scaling() == 0.0;
    assert PassesAll(p.expTiers[..0], 0.3);
  }
}
