/** The arithmetic of the Monte Carlo simulation (simulation.py) as
    functions over the users' kinds and balances: the per-user activity
    statistics of the pre-TGE phase, the normalisation of points by their
    maximum, the rescaling of TGE tokens to the airdrop allocation, the
    per-group distribution, the monthly unlock histories and the average
    sell weight of `compute_token_price`. */
module SimulationMath {
  import opened Common
  import opened Users
  import opened Vesting
  import opened ActivityStats
  import opened PostTgeRewards

  // ---------------------------------------------------------------------
  // Activity statistics of the pre-TGE phase.

  /** The uniform draws made for one user's statistics, in the order the
      source makes them; a user whose statistics hold only a trading volume
      uses only the first. */
  datatype StatsDraws = StatsDraws(trading: real, maker: real, qscore: real, referral: real)

  predicate UnitDraws(d: StatsDraws) {
    IsUnit(d.trading) && IsUnit(d.maker) && IsUnit(d.qscore) && IsUnit(d.referral)
  }

  /** A regular user of one of the three named sizes. */
  predicate Sized(kind: Kind) {
    kind.Regular? && kind.size in {"small", "medium", "large"}
  }

  /** The range of the trading-volume draw: 100-1000, 1000-10000 and
      10000-100000 for small, medium and large users, 1000-5000 for a
      regular user of another size and 50-500 for a sybil. */
  function TradingRange(kind: Kind): (r: (real, real))
    ensures 0.0 < r.0 < r.1
  {
    match kind
    case Sybil => (50.0, 500.0)
    case Regular(size) =>
      if size == "small" then (100.0, 1000.0)
      else if size == "medium" then (1000.0, 10000.0)
      else if size == "large" then (10000.0, 100000.0)
      else (1000.0, 5000.0)
  }

  /** The statistics `simulate_preTGE` generates for a user. The quality
      score and referral ranges of the three sizes are those of
      `ProfileOf`. */
  function PreTgeStats(kind: Kind, d: StatsDraws): (stats: map<string, real>)
    requires UnitDraws(d)
    ensures Sized(kind) ==> stats.Keys == {"trading_volume", "maker_volume", "taker_volume", "qscore", "referral_points"}
    ensures !Sized(kind) ==> stats.Keys == {"trading_volume"}
    ensures TradingRange(kind).0 <= stats["trading_volume"] < TradingRange(kind).1
    ensures Sized(kind) ==> stats["maker_volume"] + stats["taker_volume"] == stats["trading_volume"]
  {
    var range := TradingRange(kind);
    var trading := Uniform(range.0, range.1, d.trading);
    if Sized(kind) then
      var p := ProfileOf(kind.size);
      var maker := Uniform(0.3, 0.7, d.maker) * trading;
      map["trading_volume" := trading,
          "maker_volume" := maker,
          "taker_volume" := trading - maker,
          "qscore" := Uniform(p.qscoreLo, p.qscoreHi, d.qscore),
          "referral_points" := Uniform(p.referralLo, p.referralHi, d.referral)]
    else
      map["trading_volume" := trading]
  }

  /** The maker volume is 30% to 70% of the (positive) trading volume and
      the taker volume the rest, so both are positive. */
  lemma PreTgeMakerShare(kind: Kind, d: StatsDraws)
    requires UnitDraws(d) && Sized(kind)
    ensures var stats := PreTgeStats(kind, d); var t := stats["trading_volume"];
      0.3 * t <= stats["maker_volume"] <= 0.7 * t
      && 0.3 * t <= stats["taker_volume"] <= 0.7 * t
  {
    var stats := PreTgeStats(kind, d);
    var t, f := SizedStats(kind, d);
    ShareBounds(t, f, stats["maker_volume"], stats["taker_volume"]);
  }

  /** The trading volume and the maker share of a sized user's statistics. */
  lemma SizedStats(kind: Kind, d: StatsDraws) returns (t: real, f: real)
    requires UnitDraws(d) && Sized(kind)
    ensures var stats := PreTgeStats(kind, d);
      0.0 <= t && 0.3 <= f <= 0.7
      && stats["trading_volume"] == t && stats["maker_volume"] == f * t && stats["taker_volume"] == t - f * t
  {
    var range := TradingRange(kind);
    t := Uniform(range.0, range.1, d.trading);
    f := Uniform(0.3, 0.7, d.maker);
  }

  lemma ShareBounds(t: real, f: real, maker: real, taker: real)
    requires 0.0 <= t && 0.3 <= f <= 0.7 && maker == f * t && taker == t - f * t
    ensures 0.3 * t <= maker <= 0.7 * t && 0.3 * t <= taker <= 0.7 * t
  {
    MulLeft(t, 0.3, f);
    MulLeft(t, f, 0.7);
  }

  // ---------------------------------------------------------------------
  // Normalisation by the maximum.

  /** `max(...)` of a non-empty sequence. */
  function Max(s: seq<real>): (m: real)
    requires |s| > 0
    ensures forall i :: 0 <= i < |s| ==> s[i] <= m
    ensures m in s
  {
    if |s| == 1 then s[0]
    else
      var r := Max(s[..|s| - 1]);
      if r < s[|s| - 1] then s[|s| - 1] else r
  }

  /** Extending a prefix by one element takes the larger of the old
      maximum and that element. */
  lemma MaxExtend(s: seq<real>, i: nat)
    requires 0 < i < |s|
    ensures Max(s[..i + 1]) == if Max(s[..i]) < s[i] then s[i] else Max(s[..i])
  {
    assert s[..i + 1][..i] == s[..i];
  }

  /** The points after the normalisation step: divided by their maximum
      when that is positive, unchanged otherwise. */
  function Normalized(s: seq<real>): (r: seq<real>)
    requires |s| > 0
    ensures |r| == |s|
    ensures Max(s) <= 0.0 ==> r == s
  {
    var m := Max(s);
    if 0.0 < m then seq(|s|, i requires 0 <= i < |s| => s[i] / m) else s
  }

  /** With a positive maximum the normalised maximum is exactly 1, and
      non-negative points land in [0, 1]. */
  lemma NormalizedMaxIsOne(s: seq<real>)
    requires |s| > 0 && 0.0 < Max(s)
    ensures Max(Normalized(s)) == 1.0
    ensures forall i :: 0 <= i < |s| && 0.0 <= s[i] ==> 0.0 <= Normalized(s)[i] <= 1.0
  {
    var r := Normalized(s);
    NormalizedBounded(s);
    var k :| 0 <= k < |s| && s[k] == Max(s);
    NormalizedReachesOne(s, k);
    var top := Max(r);
    var j :| 0 <= j < |r| && r[j] == top;
    assert r[k] <= top;
  }

  lemma NormalizedBounded(s: seq<real>)
    requires |s| > 0 && 0.0 < Max(s)
    ensures forall i :: 0 <= i < |s| ==> Normalized(s)[i] <= 1.0 && (0.0 <= s[i] ==> 0.0 <= Normalized(s)[i])
  {
    var m := Max(s);
    var r := Normalized(s);
    assert r == seq(|s|, i requires 0 <= i < |s| => s[i] / m);
    forall i | 0 <= i < |s|
      ensures r[i] <= 1.0 && (0.0 <= s[i] ==> 0.0 <= r[i])
    {
      QuotientAtMostOne(s[i], m);
    }
  }

  lemma NormalizedReachesOne(s: seq<real>, k: nat)
    requires |s| > 0 && 0.0 < Max(s) && k < |s| && s[k] == Max(s)
    ensures Normalized(s)[k] == 1.0
  {
    var m := Max(s);
    var q := m / m;
    assert Normalized(s)[k] == q;
    SelfQuotient(m);
  }

  lemma SelfQuotient(m: real)
    requires m != 0.0
    ensures m / m == 1.0
  {
  }

  lemma QuotientAtMostOne(y: real, m: real)
    requires y <= m && 0.0 < m
    ensures y / m <= 1.0
    ensures 0.0 <= y ==> 0.0 <= y / m
  {
    DivMonotone(y, m, m);
    if 0.0 <= y {
      DivMonotone(0.0, y, m);
    }
  }

  /** Normalising keeps the ranking of the users. */
  lemma NormalizedKeepsOrder(s: seq<real>, i: nat, j: nat)
    requires |s| > 0 && i < |s| && j < |s| && s[i] <= s[j]
    ensures Normalized(s)[i] <= Normalized(s)[j]
  {
    var m := Max(s);
    if 0.0 < m {
      DivMonotone(s[i], s[j], m);
    }
  }

  // ---------------------------------------------------------------------
  // Rescaling to the airdrop allocation.

  /** One balance scaled by `factor`. */
  function Scaled(balance: real, factor: real): real {
    balance * factor
  }

  /** The balances after `run` rescales them so that they total `target`:
      scaled by `target / raw` when the raw total is positive, all zero
      otherwise. */
  function Rescaled(tokens: seq<real>, target: real): (r: seq<real>)
    ensures |r| == |tokens|
    ensures Sum(tokens) <= 0.0 ==> forall i :: 0 <= i < |r| ==> r[i] == 0.0
  {
    var raw := Sum(tokens);
    if 0.0 < raw then seq(|tokens|, i requires 0 <= i < |tokens| => Scaled(tokens[i], target / raw))
    else seq(|tokens|, _ => 0.0)
  }

  /** A positive raw total is rescaled to exactly `target`, every balance by
      the same factor; otherwise the total becomes 0. */
  lemma RescaledTotal(tokens: seq<real>, target: real)
    ensures 0.0 < Sum(tokens) ==> Sum(Rescaled(tokens, target)) == target
    ensures 0.0 < Sum(tokens) ==> forall i :: 0 <= i < |tokens| ==>
      Rescaled(tokens, target)[i] == Scaled(tokens[i], target / Sum(tokens))
    ensures Sum(tokens) <= 0.0 ==> Sum(Rescaled(tokens, target)) == 0.0
  {
    if 0.0 < Sum(tokens) {
      RescaledPositive(tokens, target);
    } else {
      SumOfZeros(Rescaled(tokens, target));
    }
  }

  lemma RescaledPositive(tokens: seq<real>, target: real)
    requires 0.0 < Sum(tokens)
    ensures Sum(Rescaled(tokens, target)) == target
  {
    var raw := Sum(tokens);
    var c := target / raw;
    var r := Rescaled(tokens, target);
    assert forall i :: 0 <= i < |tokens| ==> r[i] == Scaled(tokens[i], c);
    ScaledSum(tokens, c, r);
    Cancel(raw, target, c, Sum(r));
  }

  /** Scaling every balance scales the total. */
  lemma ScaledSum(s: seq<real>, c: real, r: seq<real>)
    requires |r| == |s| && forall i :: 0 <= i < |s| ==> r[i] == Scaled(s[i], c)
    ensures Sum(r) == Sum(s) * c
  {
    SumScale(s, c, r);
  }

  lemma Cancel(d: real, x: real, c: real, dc: real)
    requires d != 0.0 && c == x / d && dc == d * c
    ensures dc == x
  {
  }

  lemma {:induction false} SumOfZeros(s: seq<real>)
    requires forall i :: 0 <= i < |s| ==> s[i] == 0.0
    ensures Sum(s) == 0.0
  {
    if s != [] {
      SumOfZeros(s[..|s| - 1]);
    }
  }

  // ---------------------------------------------------------------------
  // Distribution by user group.

  /** The distribution group of a user: its size for a small, medium or
      large regular user, "sybil" for a sybil, and none for a regular user
      of another size. */
  function GroupOf(kind: Kind): (g: Option<string>)
    ensures g.None? <==> !Sized(kind) && kind.Regular?
  {
    match kind
    case Sybil => Some("sybil")
    case Regular(size) => if Sized(kind) then Some(size) else None
  }

  /** The tokens of the users in group `g`, accumulated in pool order; a
      name that is no group gets nothing. */
  function GroupTotal(kinds: seq<Kind>, tokens: seq<real>, g: string): (r: real)
    requires |kinds| == |tokens|
    ensures g !in {"small", "medium", "large", "sybil"} ==> r == 0.0
  {
    if tokens == [] then 0.0
    else
      var n := |tokens| - 1;
      GroupTotal(kinds[..n], tokens[..n], g) + (if GroupOf(kinds[n]) == Some(g) then tokens[n] else 0.0)
  }

  /** With non-negative balances a group holds between nothing and the
      whole total. */
  lemma {:induction false} GroupTotalBounds(kinds: seq<Kind>, tokens: seq<real>, g: string)
    requires |kinds| == |tokens| && forall i :: 0 <= i < |tokens| ==> 0.0 <= tokens[i]
    ensures 0.0 <= GroupTotal(kinds, tokens, g) <= Sum(tokens)
  {
    if tokens != [] {
      var n := |tokens| - 1;
      GroupTotalBounds(kinds[..n], tokens[..n], g);
    }
  }

  /** The distribution `run` reports: per group, the percentage of the
      scaled total when that is positive, the raw group total otherwise. */
  function Distribution(kinds: seq<Kind>, tokens: seq<real>): (d: map<string, real>)
    requires |kinds| == |tokens|
    ensures d.Keys == {"small", "medium", "large", "sybil"}
  {
    var total := Sum(tokens);
    map g | g in {"small", "medium", "large", "sybil"} ::
      if 0.0 < total then (GroupTotal(kinds, tokens, g) / total) * 100.0 else GroupTotal(kinds, tokens, g)
  }

  /** When every user belongs to a group, the four group totals add up to
      the total. */
  lemma {:induction false} GroupTotalsCover(kinds: seq<Kind>, tokens: seq<real>)
    requires |kinds| == |tokens| && forall i :: 0 <= i < |kinds| ==> GroupOf(kinds[i]).Some?
    ensures GroupTotal(kinds, tokens, "small") + GroupTotal(kinds, tokens, "medium")
          + GroupTotal(kinds, tokens, "large") + GroupTotal(kinds, tokens, "sybil") == Sum(tokens)
  {
    if tokens != [] {
      var n := |tokens| - 1;
      GroupTotalsCover(kinds[..n], tokens[..n]);
      var g := GroupOf(kinds[n]).value;
      assert g in {"small", "medium", "large", "sybil"};
    }
  }

  /** With a positive total and every user in a group, the percentages add
      up to 100. */
  lemma DistributionSumsTo100(kinds: seq<Kind>, tokens: seq<real>)
    requires |kinds| == |tokens| && forall i :: 0 <= i < |kinds| ==> GroupOf(kinds[i]).Some?
    requires 0.0 < Sum(tokens)
    ensures var d := Distribution(kinds, tokens);
      d["small"] + d["medium"] + d["large"] + d["sybil"] == 100.0
  {
    GroupTotalsCover(kinds, tokens);
    var total := Sum(tokens);
    var a, b := GroupTotal(kinds, tokens, "small"), GroupTotal(kinds, tokens, "medium");
    var c, e := GroupTotal(kinds, tokens, "large"), GroupTotal(kinds, tokens, "sybil");
    PercentagesAdd(a, b, c, e, total);
  }

  lemma PercentagesAdd(a: real, b: real, c: real, e: real, total: real)
    requires 0.0 < total && a + b + c + e == total
    ensures (a / total) * 100.0 + (b / total) * 100.0 + (c / total) * 100.0 + (e / total) * 100.0 == 100.0
  {
    assert a / total + b / total + c / total + e / total == (a + b + c + e) / total;
  }

  /** With every balance zero, every group reports 0. */
  lemma {:induction false} DistributionOfZeros(kinds: seq<Kind>, tokens: seq<real>, g: string)
    requires |kinds| == |tokens| && forall i :: 0 <= i < |tokens| ==> tokens[i] == 0.0
    ensures GroupTotal(kinds, tokens, g) == 0.0
    ensures g in {"small", "medium", "large", "sybil"} ==> Distribution(kinds, tokens)[g] == 0.0
  {
    if tokens != [] {
      var n := |tokens| - 1;
      DistributionOfZeros(kinds[..n], tokens[..n], g);
    }
    SumOfZeros(tokens);
  }

  // ---------------------------------------------------------------------
  // The unlock histories of the post-TGE phase.

  /** The total unlocked at months 0..months-1. */
  function TotalHistory(m: RewardsManager, months: nat): (h: seq<real>)
    ensures |h| == months
  {
    seq(months, t requires 0 <= t < months => m.TotalUnlocked(t as real))
  }

  /** Group `i`'s unlocked tokens at months 0..months-1. */
  function GroupHistory(m: RewardsManager, months: nat, i: nat): (h: seq<real>)
    requires i < |m.schedules|
    ensures |h| == months
  {
    seq(months, t requires 0 <= t < months => m.schedules[i].UnlockedTokens(t as real))
  }

  /** One more month appends that month's total. */
  lemma TotalHistoryStep(m: RewardsManager, months: nat)
    ensures TotalHistory(m, months + 1) == TotalHistory(m, months) + [m.TotalUnlocked(months as real)]
  {
    assert TotalHistory(m, months + 1)[..months] == TotalHistory(m, months);
  }

  /** One more month appends that month's unlocked tokens of group `i`. */
  lemma GroupHistoryStep(m: RewardsManager, months: nat, i: nat)
    requires i < |m.schedules|
    ensures GroupHistory(m, months + 1, i) == GroupHistory(m, months, i) + [m.schedules[i].UnlockedTokens(months as real)]
  {
    assert GroupHistory(m, months + 1, i)[..months] == GroupHistory(m, months, i);
  }

  /** Every month's total is the sum of the groups' entries of that month,
      in group order. */
  lemma TotalIsSumOfGroups(m: RewardsManager, months: nat, t: nat)
    requires t < months
    ensures TotalHistory(m, months)[t]
         == Sum(seq(|m.schedules|, i requires 0 <= i < |m.schedules| => GroupHistory(m, months, i)[t]))
  {
    var column := seq(|m.schedules|, i requires 0 <= i < |m.schedules| => GroupHistory(m, months, i)[t]);
    assert column == m.AllocationList(t as real);
  }

  /** For the standard schedules and a non-negative supply the total never
      decreases, and from month 48 on it is 90% of the supply. */
  lemma StandardHistory(totalSupply: real, months: nat)
    requires 0.0 <= totalSupply
    ensures var h := TotalHistory(NewRewardsManager(totalSupply), months);
      (forall a, b :: 0 <= a <= b < months ==> h[a] <= h[b])
      && (forall t :: 48 <= t < months ==> h[t] == totalSupply * 0.90)
  {
    var m := NewRewardsManager(totalSupply);
    var h := TotalHistory(m, months);
    StandardSchedulesWellFormed(totalSupply);
    forall a, b | 0 <= a <= b < months
      ensures h[a] <= h[b]
    {
      TotalUnlockedMonotone(m, a as real, b as real);
    }
    forall t | 48 <= t < months
      ensures h[t] == totalSupply * 0.90
    {
      FullyUnlockedTotal(totalSupply, t as real);
    }
  }

  // ---------------------------------------------------------------------
  // The average sell weight of `compute_token_price`.

  /** A user's propensity to sell: 0.8 for medium, 0.3 for large and 1.0
      for everyone else. */
  function UserSellWeight(kind: Kind): (w: real)
    ensures 0.3 <= w <= 1.0
  {
    match kind
    case Sybil => 1.0
    case Regular(size) =>
      if size == "small" then 1.0
      else if size == "medium" then 0.8
      else if size == "large" then 0.3
      else 1.0
  }

  /** `np.mean` of the users' sell weights, which lies between the
      smallest and the largest weight. */
  function MeanSellWeight(kinds: seq<Kind>): (mean: real)
    requires |kinds| > 0
    ensures 0.3 <= mean <= 1.0
  {
    var w := seq(|kinds|, i requires 0 <= i < |kinds| => UserSellWeight(kinds[i]));
    var n := |kinds| as real;
    SumBetween(w, 0.3, 1.0);
    MeanBetween(Sum(w), n, 0.3, 1.0);
    Sum(w) / n
  }

  lemma {:induction false} SumBetween(s: seq<real>, lo: real, hi: real)
    requires forall i :: 0 <= i < |s| ==> lo <= s[i] <= hi
    ensures lo * (|s| as real) <= Sum(s) <= hi * (|s| as real)
  {
    if s != [] {
      var n := |s| - 1;
      SumBetween(s[..n], lo, hi);
      assert lo * (|s| as real) == lo * (n as real) + lo;
      assert hi * (|s| as real) == hi * (n as real) + hi;
    }
  }

  lemma MeanBetween(total: real, n: real, lo: real, hi: real)
    requires 0.0 < n && lo * n <= total <= hi * n
    ensures lo <= total / n <= hi
  {
    assert (lo * n) / n == lo;
    assert (hi * n) / n == hi;
    DivMonotone(lo * n, total, n);
    DivMonotone(total, hi * n, n);
  }

  /** The sell weight `compute_token_price` uses: from the distribution
      when one is given, the users' mean otherwise. Either way it lies in
      [0.3, 1] when the distribution is one of non-negative percentages. */
  function AvgSellWeight(distribution: Option<map<string, real>>, kinds: seq<Kind>): (w: real)
    requires distribution.Some? || |kinds| > 0
    ensures distribution.None? ==> 0.3 <= w <= 1.0
    ensures distribution.Some? && (forall g :: g in distribution.value ==> 0.0 <= distribution.value[g])
      && Get(distribution.value, "small", 0.0) + Get(distribution.value, "medium", 0.0)
         + Get(distribution.value, "large", 0.0) + Get(distribution.value, "sybil", 0.0) == 100.0
      ==> 0.3 <= w <= 1.0
  {
    match distribution
    case Some(d) => DistributionSellWeight(d)
    case None => MeanSellWeight(kinds)
  }

  /** `compute_token_price` of simulation.py: the same baseline as the
      post-TGE simulator, with the sell weight above. */
  function TokenPrices(tgeTotal: real, history: seq<real>, kinds: seq<Kind>, market: Market,
                       distribution: Option<map<string, real>>): (prices: seq<real>)
    requires distribution.Some? || |kinds| > 0
    requires Priced(market, tgeTotal, history, AvgSellWeight(distribution, kinds))
    ensures |prices| == |history|
    ensures 1.0 <= tgeTotal ==> prices[0] == market.basePrice
  {
    BaselinePrices(market, tgeTotal, history, AvgSellWeight(distribution, kinds))
  }
}
