/** Month-by-month equilibrium prices (price_evolution.py): each month the
    price solves `supply[t] = usd_demand[t] * p ** -elasticity` inside the
    bracket [1e-12, 1e9], with fixed answers when the bracket holds no sign
    change. The root finder is a bisection with a fixed number of halvings. */
module PriceEvolution {
  import opened Common

  datatype Result<T> = Ok(value: T) | Failure(message: string)

  /** A supply at or below this is treated as no supply. */
  const NoSupply: real := 0.000000000001
  /** The bracket the root finder searches: [1e-12, 1e9]. */
  const Low: real := 0.000000000001
  const High: real := 1000000000.0
  /** The number of bisection halvings. */
  const Halvings: nat := 100

  /** `PriceEvolution(monthly_supply, monthly_usd_demand, elasticity)`; the
      exponent is a natural number (the default is 1). */
  datatype PriceEvolution = PriceEvolution(supply: seq<real>, usdDemand: seq<real>, elasticity: nat)
  {
    predicate WellFormed() {
      |supply| == |usdDemand|
    }
  }

  /** The constructor: arrays of different lengths raise `ValueError`. */
  function NewPriceEvolution(supply: seq<real>, usdDemand: seq<real>, elasticity: nat): (r: Result<PriceEvolution>)
    ensures r.Ok? <==> |supply| == |usdDemand|
    ensures r.Ok? ==> r.value == PriceEvolution(supply, usdDemand, elasticity) && r.value.WellFormed()
  {
    if |supply| != |usdDemand| then Failure("monthly_supply and monthly_usd_demand must be same length.")
    else Ok(PriceEvolution(supply, usdDemand, elasticity))
  }

  /** `demand_function(month_idx, price)`: nothing at a non-positive price,
      otherwise the quantity whose value at `price ** elasticity` is the
      month's USD demand. */
  function Demand(pe: PriceEvolution, t: nat, price: real): (q: real)
    requires t < |pe.usdDemand|
    ensures price <= 0.0 ==> q == 0.0
  {
    if price <= 0.0 then 0.0
    else
      PowPositive(price, pe.elasticity);
      pe.usdDemand[t] / Pow(price, pe.elasticity)
  }

  /** At a positive price, the demand is the quantity whose value at
      `price ** elasticity` is the month's USD demand. */
  lemma DemandValue(pe: PriceEvolution, t: nat, price: real)
    requires t < |pe.usdDemand| && 0.0 < price
    ensures Demand(pe, t, price) * Pow(price, pe.elasticity) == pe.usdDemand[t]
  {
    PowPositive(price, pe.elasticity);
  }

  /** `f(p)`: demand minus the month's supply. At a non-positive price only
      the supply is left; at a positive one, the supply plus the excess is
      what the month's USD demand buys at `price ** elasticity`. */
  function Excess(pe: PriceEvolution, t: nat, price: real): (e: real)
    requires pe.WellFormed() && t < |pe.supply|
    ensures price <= 0.0 ==> e == -pe.supply[t]
    ensures 0.0 < price ==> (e + pe.supply[t]) * Pow(price, pe.elasticity) == pe.usdDemand[t]
  {
    assert 0.0 < price ==> Demand(pe, t, price) * Pow(price, pe.elasticity) == pe.usdDemand[t] by {
      if 0.0 < price {
        DemandValue(pe, t, price);
      }
    }
    Demand(pe, t, price) - pe.supply[t]
  }

  /** The two values have opposite signs, or one of them is zero. */
  predicate SignChange(x: real, y: real) {
    (x <= 0.0 && 0.0 <= y) || (y <= 0.0 && 0.0 <= x)
  }

  /** `w` halved `n` times. */
  function Halve(w: real, n: nat): real
    decreases n
  {
    if n == 0 then w else Halve(w / 2.0, n - 1)
  }

  /** Halving `n` times divides by `2 ** n`. */
  lemma {:induction false} HalveTimesPow(w: real, n: nat)
    ensures Halve(w, n) * Pow(2.0, n) == w
    decreases n
  {
    if n > 0 {
      HalveTimesPow(w / 2.0, n - 1);
      var h, p := Halve(w / 2.0, n - 1), Pow(2.0, n - 1);
      assert h * p == w / 2.0;
      assert Pow(2.0, n) == 2.0 * p;
      assert h * (2.0 * p) == 2.0 * (h * p);
    }
  }

  /** `n` halvings of the bracket [a, b]: the final bracket lies inside
      [a, b], is `2 ** n` times narrower, and still has a sign change. */
  function Bisect(pe: PriceEvolution, t: nat, a: real, b: real, n: nat): (r: (real, real))
    requires pe.WellFormed() && t < |pe.supply|
    requires a <= b && SignChange(Excess(pe, t, a), Excess(pe, t, b))
    ensures a <= r.0 <= r.1 <= b
    ensures SignChange(Excess(pe, t, r.0), Excess(pe, t, r.1))
    ensures r.1 - r.0 == Halve(b - a, n)
    decreases n
  {
    if n == 0 then (a, b)
    else
      var m := (a + b) / 2.0;
      if SignChange(Excess(pe, t, a), Excess(pe, t, m)) then Bisect(pe, t, a, m, n - 1)
      else Bisect(pe, t, m, b, n - 1)
  }

  /** `find_equilibrium_price(month_idx)`. */
  function Equilibrium(pe: PriceEvolution, t: nat): (p: real)
    requires pe.WellFormed() && t < |pe.supply|
    ensures pe.supply[t] <= NoSupply ==> p == 0.0
    ensures NoSupply < pe.supply[t] && Excess(pe, t, Low) < 0.0 && Excess(pe, t, High) < 0.0 ==> p == 0.0
    ensures NoSupply < pe.supply[t] && 0.0 < Excess(pe, t, Low) && 0.0 < Excess(pe, t, High) ==> p == High
    ensures 0.0 <= p <= High
  {
    if pe.supply[t] <= NoSupply then 0.0
    else
      var fLow := Excess(pe, t, Low);
      var fHigh := Excess(pe, t, High);
      if fLow < 0.0 && fHigh < 0.0 then 0.0
      else if 0.0 < fLow && 0.0 < fHigh then High
      else
        var r := Bisect(pe, t, Low, High, Halvings);
        (r.0 + r.1) / 2.0
  }

  /** When the bracket holds a sign change, the price is the midpoint of a
      final bracket inside [1e-12, 1e9] that still holds a sign change and is
      `2 ** 100` times narrower than the initial one. */
  lemma EquilibriumInBracket(pe: PriceEvolution, t: nat)
    requires pe.WellFormed() && t < |pe.supply|
    requires NoSupply < pe.supply[t]
    requires !(Excess(pe, t, Low) < 0.0 && Excess(pe, t, High) < 0.0)
    requires !(0.0 < Excess(pe, t, Low) && 0.0 < Excess(pe, t, High))
    ensures var r := Bisect(pe, t, Low, High, Halvings);
      Equilibrium(pe, t) == (r.0 + r.1) / 2.0
      && Low <= r.0 <= Equilibrium(pe, t) <= r.1 <= High
      && SignChange(Excess(pe, t, r.0), Excess(pe, t, r.1))
      && r.1 - r.0 == Halve(High - Low, Halvings)
  {
  }

  /** With elasticity 1 the excess demand is positive exactly below the
      price `usd_demand / supply`, and negative exactly above it. */
  lemma ExcessSignAtElasticityOne(pe: PriceEvolution, t: nat, p: real)
    requires pe.WellFormed() && t < |pe.supply| && pe.elasticity == 1
    requires 0.0 < pe.supply[t] && 0.0 < p
    ensures var root := pe.usdDemand[t] / pe.supply[t];
      (0.0 <= Excess(pe, t, p) <==> p <= root)
      && (Excess(pe, t, p) <= 0.0 <==> root <= p)
  {
    var usd, s := pe.usdDemand[t], pe.supply[t];
    var q := Demand(pe, t, p);
    assert Pow(p, 1) == p;
    DemandValue(pe, t, p);
    assert p * q == usd;
    RatioOrder(usd, s, p, q);
  }

  /** For `q * p == usd` with positive `p` and `s`: `s <= q` exactly when
      `p <= usd / s`. */
  lemma RatioOrder(usd: real, s: real, p: real, q: real)
    requires 0.0 < s && 0.0 < p && p * q == usd
    ensures s <= q <==> p <= usd / s
    ensures q <= s <==> usd / s <= p
  {
    var root := usd / s;
    assert s * root == usd;
    if s <= q && root < p {
      MulStrict(s, root, p);
      MulLeft(p, s, q);
      assert false;
    }
    if p <= root && q < s {
      MulStrict(p, q, s);
      MulLeft(s, p, root);
      assert false;
    }
    if q <= s && p < root {
      MulStrict(s, p, root);
      MulLeft(p, q, s);
      assert false;
    }
    if root <= p && s < q {
      MulStrict(p, s, q);
      MulLeft(s, root, p);
      assert false;
    }
  }

  lemma MulStrict(c: real, x: real, y: real)
    requires 0.0 < c && x < y
    ensures c * x < c * y
  {
  }

  /** With elasticity 1 and a supply above the floor, the equilibrium is
      the price `usd_demand / supply`: 0 when that lies below the bracket,
      1e9 when it lies above it, and otherwise within half the final
      bracket width of it. */
  lemma EquilibriumAtElasticityOne(pe: PriceEvolution, t: nat)
    requires pe.WellFormed() && t < |pe.supply| && pe.elasticity == 1
    requires NoSupply < pe.supply[t]
    ensures var root := pe.usdDemand[t] / pe.supply[t]; var p := Equilibrium(pe, t);
      (root < Low ==> p == 0.0)
      && (High < root ==> p == High)
      && (Low <= root <= High ==>
            Low <= p <= High
            && 2.0 * (if root <= p then p - root else root - p) <= Halve(High - Low, Halvings))
  {
    var root := pe.usdDemand[t] / pe.supply[t];
    ExcessSignAtElasticityOne(pe, t, Low);
    ExcessSignAtElasticityOne(pe, t, High);
    if Low <= root <= High {
      var r := Bisect(pe, t, Low, High, Halvings);
      ExcessSignAtElasticityOne(pe, t, r.0);
      ExcessSignAtElasticityOne(pe, t, r.1);
      assert r.0 <= root <= r.1;
      var p := Equilibrium(pe, t);
      assert p == (r.0 + r.1) / 2.0;
    }
  }

  /** `simulate()`: the equilibrium price of every month, in order. */
  method Simulate(pe: PriceEvolution) returns (prices: array<real>)
    requires pe.WellFormed()
    ensures fresh(prices) && prices.Length == |pe.supply|
    ensures forall t :: 0 <= t < prices.Length ==> prices[t] == Equilibrium(pe, t)
    ensures forall t :: 0 <= t < prices.Length ==> 0.0 <= prices[t] <= High
  {
    var n := |pe.supply|;
    prices := new real[n](_ => 0.0);
    for t := 0 to n
      invariant forall k :: 0 <= k < t ==> prices[k] == Equilibrium(pe, k)
    {
      prices[t] := Equilibrium(pe, t);
    }
  }
}
