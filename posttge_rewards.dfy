/** Post-TGE token price (postTGE_rewards.py): a supply/demand baseline
    price per month, multiplied by a jump-diffusion path. The baseline is
    also the one `compute_token_price` of simulation.py computes. The
    normal and uniform draws of the path are passed in as sequences, and
    `np.exp` as a function. */
module PostTgeRewards {
  import opened Common

  /** The supply/demand parameters. */
  datatype Market = Market(basePrice: real, elasticity: nat, buybackRate: real, alpha: real)

  const DefaultMarket := Market(10.0, 1, 0.2, 0.5)

  /** `avg_sell_weight` from a distribution of token percentages per user
      group (missing groups count as 0). */
  function DistributionSellWeight(d: map<string, real>): real {
    (Get(d, "small", 0.0) * 1.0 + Get(d, "medium", 0.0) * 0.8
     + Get(d, "large", 0.0) * 0.3 + Get(d, "sybil", 0.0) * 1.0) / 100.0
  }

  /** `PostTGERewardsSimulator`'s sell weight: from the distribution when
      there is one, 1.0 otherwise. */
  function SellWeight(d: Option<map<string, real>>): (w: real)
    ensures d.None? ==> w == 1.0
  {
    match d
    case None => 1.0
    case Some(m) => DistributionSellWeight(m)
  }

  /** Non-negative percentages summing to 100 give a sell weight between
      0.3 (everything held by large users) and 1.0. */
  lemma SellWeightBounds(d: map<string, real>)
    requires forall g :: g in d ==> 0.0 <= d[g]
    requires Get(d, "small", 0.0) + Get(d, "medium", 0.0) + Get(d, "large", 0.0) + Get(d, "sybil", 0.0) == 100.0
    ensures 0.3 <= DistributionSellWeight(d) <= 1.0
  {
  }

  /** `np.maximum(effective_supply, 1)`. */
  function FloorAtOne(x: real): (r: real)
    ensures 1.0 <= r && x <= r && (r == 1.0 || r == x) && (1.0 <= x ==> r == x)
  {
    if x < 1.0 then 1.0 else x
  }

  /** The combined supply `alpha * circulating + (1 - alpha) * effective`
      at a month whose cumulative unlock is `unlocked`, `unlocked0` being
      the unlock at month 0. Before anything is added to a TGE total of at
      least 1, both supplies, and so their mix, are the TGE total. */
  function CombinedSupply(m: Market, tgeTotal: real, unlocked0: real, unlocked: real, w: real): (c: real)
    ensures unlocked == unlocked0 && 1.0 <= tgeTotal ==> c == tgeTotal
  {
    SupplyAfter(m, tgeTotal, unlocked - unlocked0, w)
  }

  /** The combined supply once `added` tokens have been unlocked since month
      0: the circulating supply blended with the effective supply. */
  function SupplyAfter(m: Market, tgeTotal: real, added: real, w: real): real {
    Blend(m.alpha, Circulating(tgeTotal, added, w), Effective(m, tgeTotal, added, w))
  }

  /** `circulating_supply`: the TGE total plus the sold share of what has
      been unlocked since month 0. */
  function Circulating(tgeTotal: real, added: real, w: real): real {
    tgeTotal + added * w
  }

  /** `effective_supply`: as the circulating supply but keeping only the
      part not bought back, floored at 1. */
  function Effective(m: Market, tgeTotal: real, added: real, w: real): real {
    FloorAtOne(tgeTotal + added * (w * (1.0 - m.buybackRate)))
  }

  /** `alpha * x + (1 - alpha) * y`. */
  function Blend(alpha: real, x: real, y: real): real {
    alpha * x + (1.0 - alpha) * y
  }

  /** For `0 <= alpha <= 1` the blend is monotone in both parts. */
  lemma BlendMonotone(alpha: real, x: real, x': real, y: real, y': real)
    requires 0.0 <= alpha <= 1.0 && x <= x' && y <= y'
    ensures Blend(alpha, x, y) <= Blend(alpha, x', y')
  {
    ScaledOrder(alpha, x, x', alpha * x, alpha * x');
    ScaledOrder(1.0 - alpha, y, y', (1.0 - alpha) * y, (1.0 - alpha) * y');
  }

  /** `base_price * (TGE_total / combined_supply) ** elasticity`: the base
      price as long as nothing has been added to a TGE total of at least 1. */
  function BaselinePrice(m: Market, tgeTotal: real, unlocked0: real, unlocked: real, w: real): (p: real)
    requires CombinedSupply(m, tgeTotal, unlocked0, unlocked, w) != 0.0
    ensures unlocked == unlocked0 && 1.0 <= tgeTotal ==> p == m.basePrice
  {
    var c := CombinedSupply(m, tgeTotal, unlocked0, unlocked, w);
    assert unlocked == unlocked0 && 1.0 <= tgeTotal ==> PriceAt(m, tgeTotal, c) == m.basePrice by {
      if unlocked == unlocked0 && 1.0 <= tgeTotal {
        PriceAtTgeTotal(m, tgeTotal);
      }
    }
    PriceAt(m, tgeTotal, c)
  }

  lemma BaselinePriceOf(m: Market, tgeTotal: real, unlocked0: real, unlocked: real, w: real)
    requires CombinedSupply(m, tgeTotal, unlocked0, unlocked, w) != 0.0
    ensures BaselinePrice(m, tgeTotal, unlocked0, unlocked, w)
      == PriceAt(m, tgeTotal, CombinedSupply(m, tgeTotal, unlocked0, unlocked, w))
  {
  }

  /** The baseline price at a given combined supply. */
  function PriceAt(m: Market, tgeTotal: real, supply: real): real
    requires supply != 0.0
  {
    m.basePrice * Pow(tgeTotal / supply, m.elasticity)
  }

  /** At a supply equal to the TGE total the price is the base price. */
  lemma PriceAtTgeTotal(m: Market, tgeTotal: real)
    requires tgeTotal != 0.0
    ensures PriceAt(m, tgeTotal, tgeTotal) == m.basePrice
  {
    assert tgeTotal / tgeTotal == 1.0;
    PowOne(m.elasticity);
  }

  /** The baseline is defined at every month of the history. */
  ghost predicate Priced(m: Market, tgeTotal: real, history: seq<real>, w: real) {
    |history| > 0 && forall t :: 0 <= t < |history| ==> CombinedSupply(m, tgeTotal, history[0], history[t], w) != 0.0
  }

  /** The vector of baseline prices, one per month of the history, each
      month priced against the unlock at month 0; with a TGE total of at
      least 1, month 0 is priced at the base price. */
  function BaselinePrices(m: Market, tgeTotal: real, history: seq<real>, w: real): (prices: seq<real>)
    requires Priced(m, tgeTotal, history, w)
    ensures |prices| == |history|
    ensures forall t :: 0 <= t < |history| ==> prices[t] == BaselinePrice(m, tgeTotal, history[0], history[t], w)
    ensures 1.0 <= tgeTotal ==> prices[0] == m.basePrice
  {
    seq(|history|, t requires 0 <= t < |history| => BaselinePrice(m, tgeTotal, history[0], history[t], w))
  }

  /** With `0 <= alpha <= 1`, a non-negative sell weight and a buyback
      rate of at most 1, unlocking more tokens never lowers the combined
      supply. */
  lemma CombinedSupplyGrows(m: Market, tgeTotal: real, unlocked0: real, a: real, b: real, w: real)
    requires 0.0 <= m.alpha <= 1.0 && 0.0 <= w && m.buybackRate <= 1.0 && a <= b
    ensures CombinedSupply(m, tgeTotal, unlocked0, a, w) <= CombinedSupply(m, tgeTotal, unlocked0, b, w)
  {
    SupplyAfterMonotone(m, tgeTotal, a - unlocked0, b - unlocked0, w);
  }

  lemma SupplyAfterMonotone(m: Market, tgeTotal: real, x: real, y: real, w: real)
    requires 0.0 <= m.alpha <= 1.0 && 0.0 <= w && m.buybackRate <= 1.0 && x <= y
    ensures SupplyAfter(m, tgeTotal, x, w) <= SupplyAfter(m, tgeTotal, y, w)
  {
    CirculatingMonotone(tgeTotal, x, y, w);
    EffectiveMonotone(m, tgeTotal, x, y, w);
    BlendMonotone(m.alpha, Circulating(tgeTotal, x, w), Circulating(tgeTotal, y, w),
                  Effective(m, tgeTotal, x, w), Effective(m, tgeTotal, y, w));
  }

  lemma CirculatingMonotone(tgeTotal: real, x: real, y: real, w: real)
    requires 0.0 <= w && x <= y
    ensures Circulating(tgeTotal, x, w) <= Circulating(tgeTotal, y, w)
  {
    ShiftedOrder(tgeTotal, w, x, y);
  }

  lemma EffectiveMonotone(m: Market, tgeTotal: real, x: real, y: real, w: real)
    requires 0.0 <= w && m.buybackRate <= 1.0 && x <= y
    ensures Effective(m, tgeTotal, x, w) <= Effective(m, tgeTotal, y, w)
  {
    assert 0.0 <= w * (1.0 - m.buybackRate) by { MulLeft(w, 0.0, 1.0 - m.buybackRate); }
    ShiftedOrder(tgeTotal, w * (1.0 - m.buybackRate), x, y);
    FloorMonotone(tgeTotal + x * (w * (1.0 - m.buybackRate)), tgeTotal + y * (w * (1.0 - m.buybackRate)));
  }

  lemma FloorMonotone(u: real, v: real)
    requires u <= v
    ensures FloorAtOne(u) <= FloorAtOne(v)
  {
  }

  lemma ShiftedOrder(t: real, c: real, x: real, y: real)
    requires 0.0 <= c && x <= y
    ensures t + x * c <= t + y * c
  {
    ScaledOrder(c, x, y, x * c, y * c);
  }

  /** Under the same conditions and with non-negative TGE total and base
      price, unlocking more tokens never raises the baseline price. */
  lemma BaselineFallsAsSupplyUnlocks(m: Market, tgeTotal: real, unlocked0: real, a: real, b: real, w: real)
    requires 0.0 <= m.alpha <= 1.0 && 0.0 <= w && m.buybackRate <= 1.0
    requires 0.0 <= tgeTotal && 0.0 <= m.basePrice && a <= b
    requires 0.0 < CombinedSupply(m, tgeTotal, unlocked0, a, w)
    ensures 0.0 < CombinedSupply(m, tgeTotal, unlocked0, b, w)
    ensures BaselinePrice(m, tgeTotal, unlocked0, b, w) <= BaselinePrice(m, tgeTotal, unlocked0, a, w)
  {
    CombinedSupplyGrows(m, tgeTotal, unlocked0, a, b, w);
    BaselinePriceOf(m, tgeTotal, unlocked0, a, w);
    BaselinePriceOf(m, tgeTotal, unlocked0, b, w);
    PriceFalls(m, tgeTotal, CombinedSupply(m, tgeTotal, unlocked0, a, w), CombinedSupply(m, tgeTotal, unlocked0, b, w));
  }

  /** A larger supply never gives a higher price. */
  lemma PriceFalls(m: Market, tgeTotal: real, ca: real, cb: real)
    requires 0.0 <= tgeTotal && 0.0 <= m.basePrice && 0.0 < ca <= cb
    ensures PriceAt(m, tgeTotal, cb) <= PriceAt(m, tgeTotal, ca)
  {
    QuotientFalls(tgeTotal, ca, cb);
    DivMonotone(0.0, tgeTotal, cb);
    ScaledPowOrder(m.basePrice, tgeTotal / cb, tgeTotal / ca, m.elasticity);
  }

  lemma ScaledPowOrder(c: real, x: real, y: real, n: nat)
    requires 0.0 <= c && 0.0 <= x <= y
    ensures c * Pow(x, n) <= c * Pow(y, n)
  {
    PowMonotone(x, y, n);
    MulLeft(c, Pow(x, n), Pow(y, n));
  }

  lemma QuotientFalls(x: real, c: real, d: real)
    requires 0.0 <= x && 0.0 < c <= d
    ensures x / d <= x / c
  {
    assert x / d == (x / c) * (c / d);
    assert c / d <= 1.0;
    DivMonotone(0.0, x, c);
    MulLeft(x / c, c / d, 1.0);
  }

  // ---------------------------------------------------------------------
  // The jump-diffusion multiplier.

  /** The jump-diffusion parameters. */
  datatype JumpDiffusion = JumpDiffusion(mu: real, sigma: real, jumpIntensity: real, jumpMean: real, jumpStd: real)

  const DefaultJumpDiffusion := JumpDiffusion(0.0, 0.05, 0.1, -0.05, 0.1)

  /** The geometric-Brownian factor of one step, `z` being the standard
      normal draw and `sqrtDt` the square root of `dt`. Without drift and
      volatility it is 1 whatever the draw. */
  function DiffusionFactor(jd: JumpDiffusion, exp: real -> real, dt: real, sqrtDt: real, z: real): (f: real)
    ensures ExpLaws(exp) && jd.mu == 0.0 && jd.sigma == 0.0 ==> f == 1.0
  {
    var drift := (jd.mu - 0.5 * jd.sigma * jd.sigma) * dt + jd.sigma * sqrtDt * z;
    assert jd.mu == 0.0 && jd.sigma == 0.0 ==> drift == 0.0;
    exp(drift)
  }

  /** The jump factor of one step: `1 + N(jump_mean, jump_std)` (written
      with the standard normal draw `z`) when the uniform draw `u` falls
      below `jump_intensity * dt`, and exactly 1 otherwise. A unit draw
      never jumps when the intensity is zero, and a jump larger than -1
      keeps the factor positive. */
  function JumpFactor(jd: JumpDiffusion, dt: real, u: real, z: real): (f: real)
    ensures 0.0 <= u && jd.jumpIntensity * dt <= 0.0 ==> f == 1.0
    ensures -1.0 < jd.jumpMean + jd.jumpStd * z ==> 0.0 < f
  {
    if u < jd.jumpIntensity * dt then 1.0 + (jd.jumpMean + jd.jumpStd * z) else 1.0
  }

  /** The multiplier path: `P[0] = 1` and `P[t] = P[t-1] * d[t-1] * j[t-1]`,
      with the diffusion and jump factors of step `t` at index `t - 1`. */
  function MultiplierPath(d: seq<real>, j: seq<real>): (p: seq<real>)
    requires |d| == |j|
    ensures |p| == |d| + 1 && p[0] == 1.0
  {
    if d == [] then [1.0]
    else
      var n := |d|;
      var p := MultiplierPath(d[..n - 1], j[..n - 1]);
      p + [Compound(p[n - 1], d[n - 1], j[n - 1])]
  }

  /** One step of the multiplier: the previous value times both factors. */
  function Compound(previous: real, diffusion: real, jump: real): real {
    previous * diffusion * jump
  }

  /** The recurrence the path follows: `P[t] = P[t-1] * d[t-1] * j[t-1]`. */
  lemma {:induction false} PathStep(d: seq<real>, j: seq<real>, t: nat)
    requires |d| == |j| && 1 <= t <= |d|
    ensures MultiplierPath(d, j)[t] == Compound(MultiplierPath(d, j)[t - 1], d[t - 1], j[t - 1])
  {
    var n := |d|;
    var p := MultiplierPath(d[..n - 1], j[..n - 1]);
    assert MultiplierPath(d, j) == p + [Compound(p[n - 1], d[n - 1], j[n - 1])];
    if t < n {
      PathStep(d[..n - 1], j[..n - 1], t);
    }
  }

  /** With every factor 1 the multiplier stays 1. */
  lemma {:induction false} PathOfOnes(d: seq<real>, j: seq<real>)
    requires |d| == |j|
    requires forall t :: 0 <= t < |d| ==> d[t] == 1.0 && j[t] == 1.0
    ensures forall t :: 0 <= t <= |d| ==> MultiplierPath(d, j)[t] == 1.0
  {
    var p := MultiplierPath(d, j);
    var t := 0;
    while t < |d|
      invariant 0 <= t <= |d|
      invariant forall k :: 0 <= k <= t ==> p[k] == 1.0
    {
      PathStep(d, j, t + 1);
      t := t + 1;
    }
  }

  /** With positive factors the multiplier stays positive. */
  lemma {:induction false} PathPositive(d: seq<real>, j: seq<real>)
    requires |d| == |j|
    requires forall t :: 0 <= t < |d| ==> 0.0 < d[t] && 0.0 < j[t]
    ensures forall t :: 0 <= t <= |d| ==> 0.0 < MultiplierPath(d, j)[t]
  {
    var p := MultiplierPath(d, j);
    var t := 0;
    while t < |d|
      invariant 0 <= t <= |d|
      invariant forall k :: 0 <= k <= t ==> 0.0 < p[k]
    {
      PathStep(d, j, t + 1);
      assert 0.0 < p[t] * d[t];
      t := t + 1;
    }
  }

  /** The diffusion factors of steps 1..n-1. */
  function Diffusions(jd: JumpDiffusion, exp: real -> real, dt: real, sqrtDt: real, normals: seq<real>): (d: seq<real>)
    ensures |d| == |normals|
  {
    seq(|normals|, i requires 0 <= i < |normals| => DiffusionFactor(jd, exp, dt, sqrtDt, normals[i]))
  }

  /** The jump factors of steps 1..n-1. */
  function Jumps(jd: JumpDiffusion, dt: real, uniforms: seq<real>, jumpNormals: seq<real>): (j: seq<real>)
    requires |uniforms| == |jumpNormals|
    ensures |j| == |uniforms|
  {
    seq(|uniforms|, i requires 0 <= i < |uniforms| => JumpFactor(jd, dt, uniforms[i], jumpNormals[i]))
  }

  /** The loop filling `P_jump`: step `t` uses the draws at index `t - 1`. */
  method JumpDiffusionPath(jd: JumpDiffusion, exp: real -> real, dt: real, sqrtDt: real,
                           normals: seq<real>, uniforms: seq<real>, jumpNormals: seq<real>) returns (pJump: array<real>)
    requires |normals| == |uniforms| == |jumpNormals|
    ensures fresh(pJump)
    ensures pJump[..] == MultiplierPath(Diffusions(jd, exp, dt, sqrtDt, normals), Jumps(jd, dt, uniforms, jumpNormals))
  {
    ghost var d := Diffusions(jd, exp, dt, sqrtDt, normals);
    ghost var j := Jumps(jd, dt, uniforms, jumpNormals);
    ghost var path := MultiplierPath(d, j);
    var n := |normals| + 1;
    pJump := new real[n](_ => 0.0);
    pJump[0] := 1.0;
    for t := 1 to n
      invariant forall k :: 0 <= k < t ==> pJump[k] == path[k]
    {
      var diffusion := DiffusionFactor(jd, exp, dt, sqrtDt, normals[t - 1]);
      var jump := JumpFactor(jd, dt, uniforms[t - 1], jumpNormals[t - 1]);
      PathStep(d, j, t);
      pJump[t] := Compound(pJump[t - 1], diffusion, jump);
    }
  }

  /** `baseline_prices * P_jump`. */
  function Times(a: seq<real>, b: seq<real>): (r: seq<real>)
    requires |a| == |b|
    ensures |r| == |a|
  {
    seq(|a|, i requires 0 <= i < |a| => a[i] * b[i])
  }

  /** A path whose first multiplier is one leaves the first price as it is. */
  lemma TimesUnitHead(a: seq<real>, b: seq<real>)
    requires |a| == |b| > 0 && b[0] == 1.0
    ensures Times(a, b)[0] == a[0]
  {
  }

  // ---------------------------------------------------------------------
  // The simulator.

  /** `PostTGERewardsSimulator` with its parameters. */
  datatype Simulator = Simulator(tgeTotal: real, history: seq<real>, market: Market,
                                 jd: JumpDiffusion, distribution: Option<map<string, real>>)
  {
    /** `compute_token_price`. */
    function ComputeTokenPrice(): (prices: seq<real>)
      requires Priced(market, tgeTotal, history, SellWeight(distribution))
      ensures |prices| == |history|
      ensures 1.0 <= tgeTotal ==> prices[0] == market.basePrice
    {
      BaselinePrices(market, tgeTotal, history, SellWeight(distribution))
    }
  }

  /** `simulate_price_evolution(dt)`: the draws of step `t` (1 <= t < n) sit
      at index `t - 1` of `normals`, `uniforms` and `jumpNormals`. */
  method SimulatePriceEvolution(sim: Simulator, exp: real -> real, dt: real, sqrtDt: real,
                                normals: seq<real>, uniforms: seq<real>, jumpNormals: seq<real>)
    returns (prices: seq<real>)
    requires Priced(sim.market, sim.tgeTotal, sim.history, SellWeight(sim.distribution))
    requires 0.0 <= sqrtDt && sqrtDt * sqrtDt == dt
    requires |normals| == |uniforms| == |jumpNormals| == |sim.history| - 1
    requires forall i :: 0 <= i < |uniforms| ==> IsUnit(uniforms[i])
    ensures |prices| == |sim.history|
    ensures prices == Times(sim.ComputeTokenPrice(),
                            MultiplierPath(Diffusions(sim.jd, exp, dt, sqrtDt, normals), Jumps(sim.jd, dt, uniforms, jumpNormals)))
  {
    var baseline := sim.ComputeTokenPrice();
    var pJump := JumpDiffusionPath(sim.jd, exp, dt, sqrtDt, normals, uniforms, jumpNormals);
    prices := Times(baseline, pJump[..]);
  }

  /** When no diffusion and no jump moves the price, the simulated prices
      are the baseline prices. */
  lemma FlatPathKeepsBaseline(baseline: seq<real>, d: seq<real>, j: seq<real>)
    requires |d| == |j| && |baseline| == |d| + 1
    requires forall t :: 0 <= t < |d| ==> d[t] == 1.0 && j[t] == 1.0
    ensures Times(baseline, MultiplierPath(d, j)) == baseline
  {
    PathOfOnes(d, j);
  }

  /** In a quiet market (no drift, no volatility, no jumps) every step's
      factors are 1, so the simulated prices are the baseline prices. */
  lemma QuietMarketKeepsBaseline(baseline: seq<real>, jd: JumpDiffusion, exp: real -> real, dt: real, sqrtDt: real,
                                 normals: seq<real>, uniforms: seq<real>, jumpNormals: seq<real>)
    requires ExpLaws(exp) && jd.mu == 0.0 && jd.sigma == 0.0 && jd.jumpIntensity == 0.0
    requires |normals| == |uniforms| == |jumpNormals| && |baseline| == |normals| + 1
    requires forall i :: 0 <= i < |uniforms| ==> IsUnit(uniforms[i])
    ensures Times(baseline, MultiplierPath(Diffusions(jd, exp, dt, sqrtDt, normals), Jumps(jd, dt, uniforms, jumpNormals)))
      == baseline
  {
    FlatPathKeepsBaseline(baseline, Diffusions(jd, exp, dt, sqrtDt, normals), Jumps(jd, dt, uniforms, jumpNormals));
  }

  /** Positive baseline prices and positive factors give positive prices. */
  lemma PricesPositive(baseline: seq<real>, d: seq<real>, j: seq<real>)
    requires |d| == |j| && |baseline| == |d| + 1
    requires forall t :: 0 <= t < |d| ==> 0.0 < d[t] && 0.0 < j[t]
    requires forall t :: 0 <= t < |baseline| ==> 0.0 < baseline[t]
    ensures forall t :: 0 <= t < |baseline| ==> 0.0 < Times(baseline, MultiplierPath(d, j))[t]
  {
    PathPositive(d, j);
  }
}
