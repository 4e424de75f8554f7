/** `MonteCarloSimulation` (simulation.py): a user pool and the standard
    vesting schedules, driven through the pre-TGE, TGE and post-TGE phases.
    The random draws of every phase are passed in; the progress messages
    are not modelled. */
module Simulation {
  import opened Common
  import opened AirdropPolicy
  import opened PreTgeRewards
  import opened Users
  import opened UserPool
  import opened Vesting
  import opened PostTgeRewards
  import opened SimulationMath

  /** The constructor defaults. */
  const DefaultNumUsers: nat := 1500000
  const DefaultTotalSupply: real := 100000000.0
  const DefaultPreTgeSteps: nat := 100
  const DefaultHorizon: nat := 60
  const DefaultAllocationFraction: real := 0.15

  /** The users' points, tokens, states and kinds, in pool order. */
  function PointsOf(users: seq<User>): (p: seq<real>)
    reads users
    ensures |p| == |users| && forall k :: 0 <= k < |users| ==> p[k] == users[k].airdropPoints
  {
    seq(|users|, k reads users requires 0 <= k < |users| => users[k].airdropPoints)
  }

  function TokensOf(users: seq<User>): (t: seq<real>)
    reads users
    ensures |t| == |users| && forall k :: 0 <= k < |users| ==> t[k] == users[k].tokens
  {
    seq(|users|, k reads users requires 0 <= k < |users| => users[k].tokens)
  }

  function KindsOf(users: seq<User>): (kinds: seq<Kind>)
    ensures |kinds| == |users| && forall k :: 0 <= k < |users| ==> kinds[k] == users[k].kind
  {
    seq(|users|, k requires 0 <= k < |users| => users[k].kind)
  }

  function StatesOf(users: seq<User>): (s: seq<UserState>)
    reads users
    ensures |s| == |users| && forall k :: 0 <= k < |users| ==> s[k] == users[k].State()
  {
    seq(|users|, k reads users requires 0 <= k < |users| => users[k].State())
  }

  /** The TGE conversion of every user's points. */
  function ConvertedTokens(policy: Policy, points: seq<real>, exp: real -> real): (t: seq<real>)
    requires forall k :: 0 <= k < |points| ==> ValidAt(policy, points[k])
    ensures |t| == |points| && forall k :: 0 <= k < |points| ==> t[k] == Tokens(policy, points[k], exp)
  {
    seq(|points|, k requires 0 <= k < |points| => Tokens(policy, points[k], exp))
  }

  /** `max(u.airdrop_points for u in users)`, as a running maximum. */
  method MaxPoints(users: seq<User>) returns (m: real)
    requires |users| > 0
    ensures m == Max(PointsOf(users))
  {
    ghost var points := PointsOf(users);
    m := users[0].airdropPoints;
    for i := 1 to |users|
      invariant m == Max(points[..i])
    {
      MaxExtend(points, i);
      if m < users[i].airdropPoints {
        m := users[i].airdropPoints;
      }
    }
    assert points[..|users|] == points;
  }

  /** `sum(user.tokens for user in users)`. */
  method SumTokens(users: seq<User>) returns (total: real)
    ensures total == Sum(TokensOf(users))
  {
    ghost var tokens := TokensOf(users);
    total := 0.0;
    for i := 0 to |users|
      invariant total == Sum(tokens[..i])
    {
      assert tokens[..i + 1][..i] == tokens[..i];
      total := total + users[i].tokens;
    }
    assert tokens[..|users|] == tokens;
  }

  /** One month of the post-TGE loop: every group's history gets the
      group's unlocked tokens of that month appended. */
  method AppendAllocations(groups: map<string, seq<real>>, allocations: map<string, real>)
    returns (r: map<string, seq<real>>)
    requires groups.Keys == set g | g in GroupNames
    requires forall i :: 0 <= i < |GroupNames| ==> GroupNames[i] in allocations
    ensures r.Keys == groups.Keys
    ensures forall i :: 0 <= i < |GroupNames| ==> r[GroupNames[i]] == groups[GroupNames[i]] + [allocations[GroupNames[i]]]
  {
    GroupNamesDistinct();
    r := groups;
    for j := 0 to |GroupNames|
      invariant r.Keys == groups.Keys
      invariant forall i :: 0 <= i < j ==> r[GroupNames[i]] == groups[GroupNames[i]] + [allocations[GroupNames[i]]]
      invariant forall i :: j <= i < |GroupNames| ==> r[GroupNames[i]] == groups[GroupNames[i]]
    {
      var g := GroupNames[j];
      r := r[g := r[g] + [allocations[g]]];
    }
  }

  /** Distinct positions of `users` hold distinct objects. */
  ghost predicate Distinct(users: seq<User>) {
    forall i, j :: 0 <= i < j < |users| ==> users[i] != users[j]
  }

  /** Every user's points divided by `divisor`, in place. */
  method DividePoints(users: seq<User>, divisor: real)
    requires Distinct(users) && divisor != 0.0
    modifies set k | 0 <= k < |users| :: users[k]
    ensures forall k :: 0 <= k < |users| ==>
      users[k].airdropPoints == old(users[k].airdropPoints) / divisor
      && users[k].tokens == old(users[k].tokens) && users[k].active == old(users[k].active)
  {
    for i := 0 to |users|
      invariant forall k :: 0 <= k < i ==> users[k].airdropPoints == old(users[k].airdropPoints) / divisor
      invariant forall k :: i <= k < |users| ==> users[k].airdropPoints == old(users[k].airdropPoints)
      invariant forall k :: 0 <= k < |users| ==>
        users[k].tokens == old(users[k].tokens) && users[k].active == old(users[k].active)
    {
      users[i].airdropPoints := users[i].airdropPoints / divisor;
    }
  }

  /** Every user's generated statistics scored by `p` and the points added
      to what the user holds, in place. */
  method ScoreUsers(users: seq<User>, p: RewardPolicy, statsDraws: seq<StatsDraws>)
    requires Distinct(users) && ValidRewardPolicy(p)
    requires |statsDraws| == |users| && forall k :: 0 <= k < |statsDraws| ==> UnitDraws(statsDraws[k])
    modifies set k | 0 <= k < |users| :: users[k]
    ensures forall k :: 0 <= k < |users| ==>
      users[k].airdropPoints == old(users[k].airdropPoints) + Points(p, PreTgeStats(users[k].kind, statsDraws[k]))
      && users[k].tokens == old(users[k].tokens) && users[k].active == old(users[k].active)
  {
    var scores: seq<real> := [];
    for i := 0 to |users|
      modifies {}
      invariant |scores| == i
      invariant forall k :: 0 <= k < i ==> scores[k] == Points(p, PreTgeStats(users[k].kind, statsDraws[k]))
    {
      var points := CalculatePoints(p, PreTgeStats(users[i].kind, statsDraws[i]));
      scores := scores + [points];
    }
    AddPoints(users, scores);
  }

  /** `scores[k]` added to the points of user `k`, in place. */
  method AddPoints(users: seq<User>, scores: seq<real>)
    requires Distinct(users) && |scores| == |users|
    modifies set k | 0 <= k < |users| :: users[k]
    ensures forall k :: 0 <= k < |users| ==>
      users[k].airdropPoints == old(users[k].airdropPoints) + scores[k]
      && users[k].tokens == old(users[k].tokens) && users[k].active == old(users[k].active)
  {
    for i := 0 to |users|
      invariant forall k :: 0 <= k < i ==> users[k].airdropPoints == old(users[k].airdropPoints) + scores[k]
      invariant forall k :: i <= k < |users| ==> users[k].airdropPoints == old(users[k].airdropPoints)
      invariant forall k :: 0 <= k < |users| ==>
        users[k].tokens == old(users[k].tokens) && users[k].active == old(users[k].active)
    {
      users[i].airdropPoints := users[i].airdropPoints + scores[i];
    }
  }

  /** Every user's balance multiplied by `factor`, in place. */
  method ScaleTokens(users: seq<User>, factor: real)
    requires Distinct(users)
    modifies set k | 0 <= k < |users| :: users[k]
    ensures forall k :: 0 <= k < |users| ==>
      users[k].tokens == Scaled(old(users[k].tokens), factor)
      && users[k].airdropPoints == old(users[k].airdropPoints) && users[k].active == old(users[k].active)
  {
    for i := 0 to |users|
      invariant forall k :: 0 <= k < i ==> users[k].tokens == Scaled(old(users[k].tokens), factor)
      invariant forall k :: i <= k < |users| ==> users[k].tokens == old(users[k].tokens)
      invariant forall k :: 0 <= k < |users| ==>
        users[k].airdropPoints == old(users[k].airdropPoints) && users[k].active == old(users[k].active)
    {
      users[i].tokens := Scaled(users[i].tokens, factor);
    }
  }

  /** The accumulation loop of `run`: each user's tokens are added to its
      group's entry; users of an unknown size belong to no group. */
  method GroupTotals(users: seq<User>) returns (totals: map<string, real>)
    ensures totals.Keys == {"small", "medium", "large", "sybil"}
    ensures forall g :: g in totals ==> totals[g] == GroupTotal(KindsOf(users), TokensOf(users), g)
  {
    ghost var kinds, tokens := KindsOf(users), TokensOf(users);
    totals := map["small" := 0.0, "medium" := 0.0, "large" := 0.0, "sybil" := 0.0];
    for i := 0 to |users|
      invariant totals.Keys == {"small", "medium", "large", "sybil"}
      invariant forall g :: g in totals ==> totals[g] == GroupTotal(kinds[..i], tokens[..i], g)
    {
      assert kinds[..i + 1][..i] == kinds[..i] && tokens[..i + 1][..i] == tokens[..i];
      var group := GroupOf(users[i].kind);
      if group.Some? {
        totals := totals[group.value := totals[group.value] + users[i].tokens];
      }
    }
    assert kinds[..|users|] == kinds && tokens[..|users|] == tokens;
  }

  /** `total` and `groups` hold the manager's unlocked tokens at months
      0..n-1: in total, and for each group under that group's name. */
  predicate Recorded(manager: RewardsManager, n: nat, total: seq<real>, groups: map<string, seq<real>>)
    requires manager.Valid()
  {
    total == TotalHistory(manager, n)
    && groups.Keys == (set g | g in GroupNames)
    && forall i :: 0 <= i < |GroupNames| ==> groups[GroupNames[i]] == GroupHistory(manager, n, i)
  }

  /** The loop of `simulate_postTGE` over months 0..horizon, for the
      simulation's rewards manager. */
  method UnlockHistories(manager: RewardsManager, horizon: nat)
    returns (months: seq<nat>, total: seq<real>, groups: map<string, seq<real>>)
    requires manager.Valid()
    ensures |months| == horizon + 1 && forall t :: 0 <= t <= horizon ==> months[t] == t
    ensures Recorded(manager, horizon + 1, total, groups)
  {
    months := seq(horizon + 1, t requires 0 <= t <= horizon => t);
    total := [];
    groups := map g | g in GroupNames :: [];
    for month := 0 to horizon + 1
      invariant total == TotalHistory(manager, month)
      invariant groups.Keys == set g | g in GroupNames
      invariant forall i :: 0 <= i < |GroupNames| ==> groups[GroupNames[i]] == GroupHistory(manager, month, i)
    {
      total, groups := RecordMonth(manager, month, total, groups);
    }
  }

  /** The body of the month loop: the month's total and the month's
      allocation of every group are appended. */
  method RecordMonth(manager: RewardsManager, month: nat, total: seq<real>, groups: map<string, seq<real>>)
    returns (total': seq<real>, groups': map<string, seq<real>>)
    requires manager.Valid() && total == TotalHistory(manager, month)
    requires groups.Keys == set g | g in GroupNames
    requires forall i :: 0 <= i < |GroupNames| ==> groups[GroupNames[i]] == GroupHistory(manager, month, i)
    ensures total' == TotalHistory(manager, month + 1)
    ensures groups'.Keys == set g | g in GroupNames
    ensures forall i :: 0 <= i < |GroupNames| ==> groups'[GroupNames[i]] == GroupHistory(manager, month + 1, i)
  {
    var allocations := manager.UnlockedAllocations(month as real);
    TotalHistoryStep(manager, month);
    total' := total + [manager.TotalUnlocked(month as real)];
    groups' := AppendAllocations(groups, allocations);
    forall i | 0 <= i < |GroupNames|
      ensures groups'[GroupNames[i]] == GroupHistory(manager, month + 1, i)
    {
      GroupHistoryStep(manager, month, i);
    }
  }

  /** The draws user `k` receives over the pre-TGE steps, one per step. */
  function Column(draws: seq<seq<real>>, k: nat): (c: seq<real>)
    requires forall s :: 0 <= s < |draws| ==> k < |draws[s]|
    ensures |c| == |draws| && forall s :: 0 <= s < |draws| ==> c[s] == draws[s][k]
  {
    seq(|draws|, s requires 0 <= s < |draws| => draws[s][k])
  }

  /** `steps` rows of `n` unit draws. */
  predicate DrawGrid(draws: seq<seq<real>>, steps: nat, n: nat) {
    |draws| == steps
    && (forall s :: 0 <= s < steps ==> |draws[s]| == n)
    && (forall s, k :: 0 <= s < steps && 0 <= k < |draws[s]| ==> IsUnit(draws[s][k]))
  }

  /** One more PreTGE step extends every user's column by that step's
      draw, and the farmed state by one step on it. */
  lemma FarmColumnStep(kind: Kind, rate: nat, policy: Policy, exp: real -> real,
                       draws: seq<seq<real>>, n: nat, step: nat, k: nat, s: UserState)
    requires DrawGrid(draws, |draws|, n) && step < |draws| && k < n
    ensures FarmSteps(kind, rate, policy, exp, Column(draws[..step + 1], k), s)
      == NextState(kind, rate, policy, exp, PreTge, draws[step][k], FarmSteps(kind, rate, policy, exp, Column(draws[..step], k), s))
  {
    var c := Column(draws[..step + 1], k);
    assert c[..step] == Column(draws[..step], k);
    assert c[step] == draws[step][k];
  }

  /** The states `FarmSteps` reaches from `start`, user by user, on the
      columns of `draws`. */
  function FarmedStates(kinds: seq<Kind>, rates: seq<nat>, policy: Policy, exp: real -> real,
                        draws: seq<seq<real>>, start: seq<UserState>): (r: seq<UserState>)
    requires |rates| == |kinds| && |start| == |kinds| && DrawGrid(draws, |draws|, |kinds|)
    ensures |r| == |kinds|
    ensures forall k :: 0 <= k < |kinds| ==> r[k] == FarmSteps(kinds[k], rates[k], policy, exp, Column(draws, k), start[k])
  {
    seq(|kinds|, k requires 0 <= k < |kinds| => FarmSteps(kinds[k], rates[k], policy, exp, Column(draws, k), start[k]))
  }

  /** One PreTGE step on every farmed state farms one more row. */
  lemma FarmedStatesStep(kinds: seq<Kind>, rates: seq<nat>, policy: Policy, exp: real -> real,
                         draws: seq<seq<real>>, step: nat, start: seq<UserState>, before: seq<UserState>, after: seq<UserState>)
    requires |rates| == |kinds| && |start| == |kinds| && DrawGrid(draws, |draws|, |kinds|)
    requires step < |draws| && before == FarmedStates(kinds, rates, policy, exp, draws[..step], start)
    requires |after| == |kinds|
    requires forall k :: 0 <= k < |kinds| ==>
      after[k] == NextState(kinds[k], rates[k], policy, exp, PreTge, draws[step][k], before[k])
    ensures after == FarmedStates(kinds, rates, policy, exp, draws[..step + 1], start)
  {
    var next := FarmedStates(kinds, rates, policy, exp, draws[..step + 1], start);
    forall k | 0 <= k < |kinds|
      ensures after[k] == next[k]
    {
      FarmColumnStep(kinds[k], rates[k], policy, exp, draws, |kinds|, step, k, start[k]);
    }
  }

  function RatesOf(users: seq<User>): (rates: seq<nat>)
    ensures |rates| == |users| && forall k :: 0 <= k < |users| ==> rates[k] == users[k].interactionRate
  {
    seq(|users|, k requires 0 <= k < |users| => users[k].interactionRate)
  }

  /** One `step_all('PreTGE')` per row of `farmDraws`: every user ends in
      the state its column of draws farms from where it started. */
  method FarmUsers(pool: UserPool, farmDraws: seq<seq<real>>, exp: real -> real)
    requires pool.Valid() && DrawGrid(farmDraws, |farmDraws|, |pool.users|)
    modifies pool.users
    ensures pool.Valid() && pool.users == old(pool.users)
    ensures forall k :: 0 <= k < |pool.users| ==>
      pool.users[k].State() == FarmSteps(pool.users[k].kind, pool.users[k].interactionRate, pool.policy, exp,
                                         Column(farmDraws, k), old(pool.users[k].State()))
  {
    ghost var users := pool.users;
    ghost var kinds, rates, start := KindsOf(users), RatesOf(users), StatesOf(users);
    assert StatesOf(users) == FarmedStates(kinds, rates, pool.policy, exp, farmDraws[..0], start);
    for step := 0 to |farmDraws|
      invariant pool.Valid() && pool.users == users
      invariant StatesOf(users) == FarmedStates(kinds, rates, pool.policy, exp, farmDraws[..step], start)
    {
      ghost var before := StatesOf(users);
      pool.StepAll(PreTge, farmDraws[step], exp);
      FarmedStatesStep(kinds, rates, pool.policy, exp, farmDraws, step, start, before, StatesOf(users));
    }
    assert farmDraws[..|farmDraws|] == farmDraws;
  }

  /** The points a user holds after the PreTGE steps and before the
      normalisation: the farmed points plus, when there is a reward policy,
      the policy's points for the user's generated statistics. */
  function RawPreTgePoints(users: seq<User>, policy: Policy, rewards: Option<RewardPolicy>, exp: real -> real,
                           farmDraws: seq<seq<real>>, statsDraws: seq<StatsDraws>, states: seq<UserState>): (raw: seq<real>)
    requires rewards.Some? ==> ValidRewardPolicy(rewards.value)
    requires DrawGrid(farmDraws, |farmDraws|, |users|)
    requires |statsDraws| == |users| && forall k :: 0 <= k < |users| ==> UnitDraws(statsDraws[k])
    requires |states| == |users|
    ensures |raw| == |users|
  {
    seq(|users|, k requires 0 <= k < |users| =>
      RawPoints(users[k].kind, users[k].interactionRate, policy, rewards, exp, Column(farmDraws, k), statsDraws[k], states[k]))
  }

  /** One user's points after the PreTGE steps on its column of draws,
      before the normalisation. */
  function RawPoints(kind: Kind, rate: nat, policy: Policy, rewards: Option<RewardPolicy>, exp: real -> real,
                     column: seq<real>, d: StatsDraws, state: UserState): real
    requires rewards.Some? ==> ValidRewardPolicy(rewards.value)
    requires (forall s :: 0 <= s < |column| ==> IsUnit(column[s])) && UnitDraws(d)
  {
    var farmed := FarmSteps(kind, rate, policy, exp, column, state).airdropPoints;
    if rewards.Some? then farmed + Points(rewards.value, PreTgeStats(kind, d)) else farmed
  }

  class MonteCarloSimulation {
    const numUsers: nat
    const totalSupply: real
    const preTgeSteps: nat
    const horizon: nat
    const airdropPolicy: Policy
    const rewardsPolicy: Option<RewardPolicy>
    const pool: UserPool
    const manager: RewardsManager
    const allocationFraction: real

    /** The pool holds `numUsers` users carrying the airdrop policy, and the
        manager holds one schedule per group. */
    ghost predicate Valid()
      reads this, pool
    {
      pool.Valid() && pool.policy == airdropPolicy && pool.numUsers == numUsers && manager.Valid()
    }

    /** `MonteCarloSimulation(...)`: a missing airdrop policy defaults to the
        linear policy with factor 1. `wealth`, `rates` and `swaps` are the
        user pool's draws. */
    constructor(numUsers: nat, totalSupply: real, preTgeSteps: nat, horizon: nat,
                airdropPolicy: Option<Policy>, rewardsPolicy: Option<RewardPolicy>, allocationFraction: real,
                wealth: seq<real>, rates: seq<nat>, swaps: seq<nat>)
      requires |wealth| == numUsers && |rates| == numUsers && |swaps| == numUsers
      requires forall i :: 0 <= i < numUsers ==> swaps[i] <= i
      ensures Valid() && fresh(pool) && manager == NewRewardsManager(totalSupply)
      ensures this.numUsers == numUsers && this.totalSupply == totalSupply && this.preTgeSteps == preTgeSteps
      ensures this.horizon == horizon && this.rewardsPolicy == rewardsPolicy
      ensures this.allocationFraction == allocationFraction
      ensures this.airdropPolicy == if airdropPolicy.Some? then airdropPolicy.value else DefaultLinear
      ensures |pool.users| == numUsers
      ensures forall k :: 0 <= k < numUsers ==>
        var id := pool.users[k].userId;
        fresh(pool.users[k]) && pool.users[k].kind == KindAt(CountsFor(numUsers), id)
        && pool.users[k].wealth == wealth[id] && pool.users[k].interactionRate == rates[id]
        && pool.users[k].State() == InitialState
    {
      var chosen := if airdropPolicy.Some? then airdropPolicy.value else DefaultLinear;
      this.numUsers := numUsers;
      this.totalSupply := totalSupply;
      this.preTgeSteps := preTgeSteps;
      this.horizon := horizon;
      this.airdropPolicy := chosen;
      this.rewardsPolicy := rewardsPolicy;
      this.allocationFraction := allocationFraction;
      pool := new UserPool(numUsers, Some(chosen), wealth, rates, swaps);
      manager := NewRewardsManager(totalSupply);
    }

    /** The `preTGE_steps` calls of `step_all('PreTGE')`; row `s` of
        `farmDraws` holds the draws of step `s`, one per user. */
    method FarmPhase(farmDraws: seq<seq<real>>, exp: real -> real)
      requires Valid() && DrawGrid(farmDraws, preTgeSteps, |pool.users|)
      modifies pool.users
      ensures Valid() && pool.users == old(pool.users)
      ensures forall k :: 0 <= k < |pool.users| ==>
        pool.users[k].State() == FarmSteps(pool.users[k].kind, pool.users[k].interactionRate, airdropPolicy, exp,
                                           Column(farmDraws, k), old(pool.users[k].State()))
    {
      FarmUsers(pool, farmDraws, exp);
    }

    /** The reward-policy half of `simulate_preTGE`: every user's generated
        statistics are scored and the points added to what it holds. */
    method AddRewardPoints(statsDraws: seq<StatsDraws>)
      requires Valid() && rewardsPolicy.Some? && ValidRewardPolicy(rewardsPolicy.value)
      requires |statsDraws| == |pool.users| && forall k :: 0 <= k < |statsDraws| ==> UnitDraws(statsDraws[k])
      modifies pool.users
      ensures Valid() && pool.users == old(pool.users)
      ensures forall k :: 0 <= k < |pool.users| ==>
        pool.users[k].airdropPoints
          == old(pool.users[k].airdropPoints) + Points(rewardsPolicy.value, PreTgeStats(pool.users[k].kind, statsDraws[k]))
        && pool.users[k].tokens == old(pool.users[k].tokens) && pool.users[k].active == old(pool.users[k].active)
    {
      assert Distinct(pool.users);
      ScoreUsers(pool.users, rewardsPolicy.value, statsDraws);
    }

    /** The normalisation of `simulate_preTGE`: every user's points are
        divided by the maximum when that is positive. */
    method NormalizePoints()
      requires Valid() && |pool.users| > 0
      modifies pool.users
      ensures Valid() && pool.users == old(pool.users)
      ensures PointsOf(pool.users) == Normalized(old(PointsOf(pool.users)))
      ensures forall k :: 0 <= k < |pool.users| ==>
        pool.users[k].tokens == old(pool.users[k].tokens) && pool.users[k].active == old(pool.users[k].active)
    {
      var users := pool.users;
      ghost var points := PointsOf(users);
      var maxPoints := MaxPoints(users);
      if 0.0 < maxPoints {
        DividePoints(users, maxPoints);
        forall k | 0 <= k < |users|
          ensures PointsOf(users)[k] == Normalized(points)[k]
        {
        }
        assert PointsOf(users) == Normalized(points);
      } else {
        assert PointsOf(users) == points;
      }
    }

    /** The PreTGE steps followed by the reward points, when there is a
        reward policy: every user holds its raw PreTGE points. */
    method FarmAndScore(farmDraws: seq<seq<real>>, statsDraws: seq<StatsDraws>, exp: real -> real)
      requires Valid() && DrawGrid(farmDraws, preTgeSteps, |pool.users|)
      requires rewardsPolicy.Some? ==> ValidRewardPolicy(rewardsPolicy.value)
      requires |statsDraws| == |pool.users| && forall k :: 0 <= k < |statsDraws| ==> UnitDraws(statsDraws[k])
      modifies pool.users
      ensures Valid() && pool.users == old(pool.users)
      ensures PointsOf(pool.users)
        == RawPreTgePoints(pool.users, airdropPolicy, rewardsPolicy, exp, farmDraws, statsDraws, old(StatesOf(pool.users)))
      ensures forall k :: 0 <= k < |pool.users| ==>
        pool.users[k].tokens == old(pool.users[k].tokens) && pool.users[k].active == old(pool.users[k].active)
    {
      var users := pool.users;
      ghost var start := StatesOf(users);
      FarmPhase(farmDraws, exp);
      forall k | 0 <= k < |users|
        ensures users[k].tokens == start[k].tokens && users[k].active == start[k].active
      {
        FarmStepsAccrue(users[k].kind, users[k].interactionRate, airdropPolicy, exp, Column(farmDraws, k), start[k]);
      }
      if rewardsPolicy.Some? {
        AddRewardPoints(statsDraws);
      }
      ghost var raw := RawPreTgePoints(users, airdropPolicy, rewardsPolicy, exp, farmDraws, statsDraws, start);
      forall k | 0 <= k < |users|
        ensures PointsOf(users)[k] == raw[k]
      {
      }
      assert PointsOf(users) == raw;
    }

    /** `simulate_preTGE(...)`: the PreTGE steps, the reward points when
        there is a reward policy, and the normalisation. The pool must not
        be empty, since the source takes its maximum. */
    method SimulatePreTge(farmDraws: seq<seq<real>>, statsDraws: seq<StatsDraws>, exp: real -> real)
      requires Valid() && |pool.users| > 0 && DrawGrid(farmDraws, preTgeSteps, |pool.users|)
      requires rewardsPolicy.Some? ==> ValidRewardPolicy(rewardsPolicy.value)
      requires |statsDraws| == |pool.users| && forall k :: 0 <= k < |statsDraws| ==> UnitDraws(statsDraws[k])
      modifies pool.users
      ensures Valid() && pool.users == old(pool.users)
      ensures PointsOf(pool.users)
        == Normalized(RawPreTgePoints(pool.users, airdropPolicy, rewardsPolicy, exp, farmDraws, statsDraws, old(StatesOf(pool.users))))
      ensures forall k :: 0 <= k < |pool.users| ==>
        pool.users[k].tokens == old(pool.users[k].tokens) && pool.users[k].active == old(pool.users[k].active)
    {
      FarmAndScore(farmDraws, statsDraws, exp);
      NormalizePoints();
    }

    /** `simulate_TGE()`: `step_all('TGE')`, converting every user's points
        with the airdrop policy. The TGE step makes no draw. */
    method SimulateTge(exp: real -> real)
      requires Valid() && forall k :: 0 <= k < |pool.users| ==> ValidAt(airdropPolicy, pool.users[k].airdropPoints)
      modifies pool.users
      ensures Valid() && pool.users == old(pool.users)
      ensures TokensOf(pool.users) == ConvertedTokens(airdropPolicy, old(PointsOf(pool.users)), exp)
      ensures PointsOf(pool.users) == old(PointsOf(pool.users))
      ensures forall k :: 0 <= k < |pool.users| ==> pool.users[k].active == old(pool.users[k].active)
    {
      pool.StepAll(Tge, seq(|pool.users|, _ => 0.0), exp);
    }

    /** The rescaling of `run`: the balances are scaled so that they total
        `airdrop_allocation_fraction * total_supply`, or zeroed when their
        raw total is not positive. */
    method Rescale() returns (scaledTgeTotal: real)
      requires Valid()
      modifies pool.users
      ensures Valid() && pool.users == old(pool.users)
      ensures scaledTgeTotal == allocationFraction * totalSupply
      ensures TokensOf(pool.users) == Rescaled(old(TokensOf(pool.users)), scaledTgeTotal)
      ensures PointsOf(pool.users) == old(PointsOf(pool.users))
      ensures forall k :: 0 <= k < |pool.users| ==> pool.users[k].active == old(pool.users[k].active)
    {
      var users := pool.users;
      ghost var tokens := TokensOf(users);
      var rawTgeTotal := SumTokens(users);
      scaledTgeTotal := allocationFraction * totalSupply;
      if 0.0 < rawTgeTotal {
        var factor := scaledTgeTotal / rawTgeTotal;
        ScaleTokens(users, factor);
        forall k | 0 <= k < |users|
          ensures TokensOf(users)[k] == Rescaled(tokens, scaledTgeTotal)[k]
        {
          assert Rescaled(tokens, scaledTgeTotal)[k] == Scaled(tokens[k], factor);
        }
      } else {
        // Multiplying every balance by 0 is setting it to 0.
        ScaleTokens(users, 0.0);
        forall k | 0 <= k < |users|
          ensures TokensOf(users)[k] == Rescaled(tokens, scaledTgeTotal)[k]
        {
          assert Scaled(tokens[k], 0.0) == 0.0;
        }
      }
      assert TokensOf(users) == Rescaled(tokens, scaledTgeTotal);
      assert PointsOf(users) == old(PointsOf(users));
    }

    /** The distribution of `run`: the tokens of each group, as a
        percentage of the scaled total when that is positive. */
    method ComputeDistribution() returns (distribution: map<string, real>)
      requires Valid()
      ensures distribution == Distribution(KindsOf(pool.users), TokensOf(pool.users))
    {
      var users := pool.users;
      ghost var expected := Distribution(KindsOf(users), TokensOf(users));
      var scaledTotal := SumTokens(users);
      distribution := GroupTotals(users);
      if 0.0 < scaledTotal {
        distribution := map g | g in distribution :: (distribution[g] / scaledTotal) * 100.0;
      }
      assert forall g :: g in distribution ==> distribution[g] == expected[g];
    }

    /** `simulate_postTGE()`: months 0..horizon, the total unlocked each
        month, and each group's unlocked tokens each month. */
    method SimulatePostTge() returns (months: seq<nat>, total: seq<real>, groups: map<string, seq<real>>)
      requires Valid()
      ensures |months| == horizon + 1 && forall t :: 0 <= t <= horizon ==> months[t] == t
      ensures Recorded(manager, horizon + 1, total, groups)
    {
      months, total, groups := UnlockHistories(manager, horizon);
    }

    /** The PreTGE and the TGE phase of `run`: the users hold their
        normalised PreTGE points and the tokens these convert to. */
    method PreTgeAndTge(farmDraws: seq<seq<real>>, statsDraws: seq<StatsDraws>, exp: real -> real)
      requires Valid() && |pool.users| > 0 && DrawGrid(farmDraws, preTgeSteps, |pool.users|)
      requires rewardsPolicy.Some? ==> ValidRewardPolicy(rewardsPolicy.value)
      requires |statsDraws| == |pool.users| && forall k :: 0 <= k < |statsDraws| ==> UnitDraws(statsDraws[k])
      requires forall k :: 0 <= k < |pool.users| ==>
        ValidAt(airdropPolicy, Normalized(RawPreTgePoints(pool.users, airdropPolicy, rewardsPolicy, exp, farmDraws, statsDraws,
                                                          StatesOf(pool.users)))[k])
      modifies pool.users
      ensures Valid() && pool.users == old(pool.users)
      ensures PointsOf(pool.users)
        == Normalized(RawPreTgePoints(pool.users, airdropPolicy, rewardsPolicy, exp, farmDraws, statsDraws, old(StatesOf(pool.users))))
      ensures TokensOf(pool.users) == ConvertedTokens(airdropPolicy, PointsOf(pool.users), exp)
      ensures forall k :: 0 <= k < |pool.users| ==> pool.users[k].active == old(pool.users[k].active)
    {
      SimulatePreTge(farmDraws, statsDraws, exp);
      SimulateTge(exp);
    }

    /** The PreTGE and TGE phases of `run` followed by the rescaling: the
        users hold their normalised PreTGE points and the converted tokens
        scaled to the airdrop allocation. */
    method AllocateTokens(farmDraws: seq<seq<real>>, statsDraws: seq<StatsDraws>, exp: real -> real)
      returns (scaledTgeTotal: real)
      requires Valid() && |pool.users| > 0 && DrawGrid(farmDraws, preTgeSteps, |pool.users|)
      requires rewardsPolicy.Some? ==> ValidRewardPolicy(rewardsPolicy.value)
      requires |statsDraws| == |pool.users| && forall k :: 0 <= k < |statsDraws| ==> UnitDraws(statsDraws[k])
      requires forall k :: 0 <= k < |pool.users| ==>
        ValidAt(airdropPolicy, Normalized(RawPreTgePoints(pool.users, airdropPolicy, rewardsPolicy, exp, farmDraws, statsDraws,
                                                          StatesOf(pool.users)))[k])
      modifies pool.users
      ensures Valid() && pool.users == old(pool.users)
      ensures PointsOf(pool.users)
        == Normalized(RawPreTgePoints(pool.users, airdropPolicy, rewardsPolicy, exp, farmDraws, statsDraws, old(StatesOf(pool.users))))
      ensures forall k :: 0 <= k < |pool.users| ==> pool.users[k].active == old(pool.users[k].active)
      ensures scaledTgeTotal == allocationFraction * totalSupply
      ensures TokensOf(pool.users) == Rescaled(ConvertedTokens(airdropPolicy, PointsOf(pool.users), exp), scaledTgeTotal)
    {
      PreTgeAndTge(farmDraws, statsDraws, exp);
      scaledTgeTotal := Rescale();
    }

    /** `run()`: the three phases with the rescaling and the distribution
        between the TGE and the post-TGE phase. */
    method Run(farmDraws: seq<seq<real>>, statsDraws: seq<StatsDraws>, exp: real -> real)
      returns (scaledTgeTotal: real, months: seq<nat>, total: seq<real>, groups: map<string, seq<real>>,
               distribution: map<string, real>)
      requires Valid() && |pool.users| > 0 && DrawGrid(farmDraws, preTgeSteps, |pool.users|)
      requires rewardsPolicy.Some? ==> ValidRewardPolicy(rewardsPolicy.value)
      requires |statsDraws| == |pool.users| && forall k :: 0 <= k < |statsDraws| ==> UnitDraws(statsDraws[k])
      requires forall k :: 0 <= k < |pool.users| ==>
        ValidAt(airdropPolicy, Normalized(RawPreTgePoints(pool.users, airdropPolicy, rewardsPolicy, exp, farmDraws, statsDraws,
                                                          StatesOf(pool.users)))[k])
      modifies pool.users
      ensures Valid() && pool.users == old(pool.users)
      ensures PointsOf(pool.users)
        == Normalized(RawPreTgePoints(pool.users, airdropPolicy, rewardsPolicy, exp, farmDraws, statsDraws, old(StatesOf(pool.users))))
      ensures forall k :: 0 <= k < |pool.users| ==> pool.users[k].active == old(pool.users[k].active)
      ensures scaledTgeTotal == allocationFraction * totalSupply
      ensures TokensOf(pool.users) == Rescaled(ConvertedTokens(airdropPolicy, PointsOf(pool.users), exp), scaledTgeTotal)
      ensures distribution == Distribution(KindsOf(pool.users), TokensOf(pool.users))
      ensures |months| == horizon + 1 && forall t :: 0 <= t <= horizon ==> months[t] == t
      ensures Recorded(manager, horizon + 1, total, groups)
    {
      scaledTgeTotal := AllocateTokens(farmDraws, statsDraws, exp);
      distribution := ComputeDistribution();
      ghost var tokens := TokensOf(pool.users);
      months, total, groups := SimulatePostTge();
      assert TokensOf(pool.users) == tokens;
    }
  }

  /** `simulate_price_evolution_dynamic(...)`: the baseline prices of
      `compute_token_price` times a jump-diffusion multiplier path with
      `dt = 1`. The draws of step `t` (1 <= t < n) sit at index `t - 1` of
      `normals`, `uniforms` and `jumpNormals`. */
  method SimulatePriceEvolutionDynamic(tgeTotal: real, history: seq<real>, users: seq<User>, market: Market,
                                       jd: JumpDiffusion, distribution: Option<map<string, real>>, exp: real -> real,
                                       normals: seq<real>, uniforms: seq<real>, jumpNormals: seq<real>)
    returns (prices: seq<real>)
    requires distribution.Some? || |users| > 0
    requires Priced(market, tgeTotal, history, AvgSellWeight(distribution, KindsOf(users)))
    requires |normals| == |uniforms| == |jumpNormals| == |history| - 1
    requires forall i :: 0 <= i < |uniforms| ==> IsUnit(uniforms[i])
    ensures prices == Times(TokenPrices(tgeTotal, history, KindsOf(users), market, distribution),
                            MultiplierPath(Diffusions(jd, exp, 1.0, 1.0, normals), Jumps(jd, 1.0, uniforms, jumpNormals)))
    ensures 1.0 <= tgeTotal ==> prices[0] == market.basePrice
  {
    var supplyPrice := TokenPrices(tgeTotal, history, KindsOf(users), market, distribution);
    var pJump := JumpDiffusionPath(jd, exp, 1.0, 1.0, normals, uniforms, jumpNormals);
    prices := Times(supplyPrice, pJump[..]);
    TimesUnitHead(supplyPrice, pJump[..]);
  }
}
