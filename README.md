# Token airdrop simulator — a Dafny model

This project models the core of a Monte Carlo simulator for token airdrops.
A pool of regular users (small, medium, large) and sybil farmers earns
airdrop points before the token generation event (TGE). Points come from
farming steps and from a pre-TGE rewards policy such as dYdX tiers, Vertex
maker/taker, Jupiter volume tiers, Aevo farm boost or generic weights.
The points are normalised to [0, 1]. At TGE an airdrop policy converts them
to tokens: linear, exponential, tiered constant, tiered linear or tiered
exponential. The airdrop is then rescaled to a fixed fraction of the total
supply and broken down by user group. After TGE, the vesting schedules of
eight allocation groups release the rest of the supply month by month. The
token price follows from the unlocked supply, the holders' sell pressure
and a jump-diffusion path.

Modules, one per source file:

- `Common`: thresholds with an infinite value, uniform draws, sums and
  natural-number powers.
- `Tiers`: the first-matching-threshold lookup that several policies share.
- `Vesting` (vesting.py): schedules and the rewards manager.
- `AirdropPolicy` (airdrop_policy.py): points to tokens.
- `PreTgeRewards` (preTGE_rewards.py): activity statistics to points.
- `ActivityStats` (activity_stats.py): the standalone statistics generator.
- `Users` (users.py): the `User` class and its phase step.
- `UserPool` (user_pool.py): the `UserPool` class, user creation and the shuffle.
- `PostTgeRewardsPolicy` (postTGE_rewards_policy.py): the engagement multiplier.
- `PostTgeRewards` (postTGE_rewards.py): baseline prices and the jump-diffusion path.
- `PriceEvolution` (price_evolution.py): monthly equilibrium prices.
- `SimulationMath` and `Simulation` (simulation.py):
  - `SimulationMath` holds the value-level specifications: statistics,
    normalisation, rescaling, the distribution, the unlock histories and
    the price helpers.
  - `Simulation` holds the `MonteCarloSimulation` class. Its methods update
    the users in place and are proved against those specifications.

Conventions:

- Floating-point numbers are `real`.
- `np.exp` is a parameter `exp` that obeys `ExpLaws`: `exp(0) = 1` and `exp`
  is increasing.
- Every random draw is an explicit argument. A uniform draw is a unit value
  `u` in [0, 1), mapped to `lo + (hi - lo) * u`. The shuffle takes its swap
  indices.
- `np.sqrt(dt)` is a parameter `sqrtDt` with `sqrtDt * sqrtDt == dt`.
- Python's `int()` truncation of non-negative values is integer division.

## Model

| member | source | states |
|---|---|---|
| Tiers.FirstExceeding | preTGE_rewards.py:57-61 | The index found is the first tier whose threshold the value lies below. All earlier tiers are reached, and the index is the tier count when none is exceeded. |
| Tiers.TierLookup | airdrop_policy.py:54-58 | The looked-up value is always one of the tiers' values. |
| Tiers.LookupTier | airdrop_policy.py:54-58 | The loop returns the value of the first tier whose threshold exceeds the input, as the lookup specification gives it. |
| Tiers.TierLookupPicks | airdrop_policy.py:55-57 | If tier k is the first tier whose threshold exceeds the input, the lookup returns tier k's value. |
| Tiers.FirstExceedingIs | preTGE_rewards.py:58-60 | The first tier whose threshold exceeds the input is unique: it is the one the search returns. |
| Tiers.FirstExceedingMonotone | preTGE_rewards.py:58-60 | A larger input never stops at an earlier tier. |
| Tiers.TierLookupFallback | airdrop_policy.py:58 | When no threshold exceeds the input, the last tier's value is returned. |
| Tiers.TierLookupMonotone | preTGE_rewards.py:56-61 | With non-decreasing tier values, the looked-up value never falls as the input grows. |
| Vesting.LinearPhaseBounds | vesting.py:40-47 | During linear unlocking the duration is positive, and the fraction lies between the TGE-plus-cliff release and 1. |
| Vesting.VestingSchedule.UnlockedFraction | vesting.py:28-47 | Nothing is unlocked before TGE. From TGE on, a well-formed schedule has released between its TGE fraction and everything. |
| Vesting.VestingSchedule.UnlockedTokens | vesting.py:49-51 | A well-formed schedule with a non-negative allocation releases between nothing and its whole allocation. |
| Vesting.LinearFraction | vesting.py:35-37 | Inside the unlock window the fraction is the TGE plus cliff release plus the rest in proportion to the time since the gate. |
| Vesting.FractionMonotone | vesting.py:28-47 | For a well-formed schedule, the unlocked fraction never decreases over time. |
| Vesting.UnlockedTokensMonotone | vesting.py:49-51 | A well-formed schedule with a non-negative allocation never takes tokens back. |
| Vesting.FractionEdges | vesting.py:28-47 | The fraction is 0 before TGE and the TGE unlock before the gate. At the gate it is the TGE plus cliff unlock, and 1 once the unlock period ends. |
| Vesting.ImmediateScheduleFullyUnlocked | vesting.py:40-47 | A schedule with no lockup, no delay and no unlock duration is fully unlocked from TGE on. |
| Vesting.RewardsManager.UnlockedAllocations | vesting.py:132-136 | The dictionary has exactly the eight group names as keys. Each group maps to its own schedule's unlocked tokens. |
| Vesting.RewardsManager.TotalUnlocked | simulation.py:110-111 | With funded schedules, the month's total unlock lies between nothing and the sum of the allocations. |
| Vesting.NewRewardsManager | vesting.py:69-130 | The standard manager has one schedule per group and keeps the total supply. |
| Vesting.GroupNamesDistinct | vesting.py:70-130 | The eight group names are distinct. |
| Vesting.StandardSchedulesWellFormed | vesting.py:70-130 | Every standard schedule is well formed, has a non-negative unlock duration and ends its unlocking by month 48. For a non-negative supply every allocation is non-negative. |
| Vesting.TeamScheduleExample | vesting.py:72-78 | The team's 20% unlocks 20% at TGE and holds it through month 11. It reaches 40% at month 12 and everything from month 48. |
| Vesting.FullyUnlockedTotal | vesting.py:69-130 | From month 48 on, the groups together have unlocked 90% of the supply. |
| Vesting.TotalUnlockedMonotone | vesting.py:132-136 | With well-formed schedules and non-negative allocations, the total unlocked never decreases over time. |
| AirdropPolicy.TieredLinearTokens | airdrop_policy.py:76-86 | The loop computes the cumulative tiered-linear tokens: each tier's rate times the part of the points inside that tier. |
| AirdropPolicy.TieredLinearZeroWidth | airdrop_policy.py:79-85 | Zero points above the starting threshold give zero tokens. |
| AirdropPolicy.TieredLinearLipschitz | airdrop_policy.py:79-85 | With rates in [0, bound], tokens never fall as points grow. They grow by at most bound times the increase. |
| AirdropPolicy.TieredExpTokens | airdrop_policy.py:108-120 | The loop computes the cumulative tiered-exponential tokens from the per-tier pieces. It needs nonzero scalings only in the tiers the points reach, as the early return does. |
| AirdropPolicy.UnreachedZeroScaling | airdrop_policy.py:108-120 | A zero scaling in a tier the points never reach does not stop the conversion: 0.3 points under tiers up to 0.5 and then infinity with scaling 0 give exp(1.5) - 1. |
| AirdropPolicy.ExpTierDefaults | airdrop_policy.py:112-113 | A tier without parameters uses factor 1 and scaling 0.2. |
| AirdropPolicy.ExpPieceMonotone | airdrop_policy.py:114-118 | One tier's piece grows with the width covered and is 0 at width 0. |
| AirdropPolicy.TieredExpMonotone | airdrop_policy.py:108-120 | With non-negative factors and positive scalings, tiered-exponential tokens never fall as points grow. |
| AirdropPolicy.TieredExpZeroWidth | airdrop_policy.py:108-120 | Zero points above the starting threshold give zero tokens. |
| AirdropPolicy.ExponentialMonotone | airdrop_policy.py:34-37 | With a non-negative factor and a positive scaling, exponential tokens never fall as points grow. |
| AirdropPolicy.CalculateTokens | airdrop_policy.py:7-120 | Each policy's `calculate_tokens` returns the policy's token function. |
| AirdropPolicy.Tokens | airdrop_policy.py:7-120 | The exponential policy saturates: from 1 point on it pays factor times (exp(1/scaling) - 1). A tiered-constant policy always pays one of its tier values. |
| AirdropPolicy.TokensMonotone | airdrop_policy.py:16-120 | For every policy kind under its monotonicity conditions, more points never give fewer tokens. |
| AirdropPolicy.DefaultsMonotone | airdrop_policy.py:16-104 | Every default configuration meets the monotonicity conditions. |
| AirdropPolicy.LinearDefaultIsIdentity | airdrop_policy.py:16-20 | The default linear policy gives exactly as many tokens as points. |
| AirdropPolicy.ExponentialCapAndZero | airdrop_policy.py:34-37 | Points are capped at 1: every point count of at least 1 gives the same tokens. Zero points give zero tokens. |
| AirdropPolicy.TieredConstantDefaults | airdrop_policy.py:48-58 | The default tiers give 0.1 below 0.2 points, 0.4 below 0.6 and 1.0 above. |
| AirdropPolicy.TieredLinearDefaults | airdrop_policy.py:70-86 | The default tiers give 0.2 tokens at 0.2 points, 0.8 at 0.6 and 1.6 at 1.0. |
| AirdropPolicy.TieredExpZeroAtZero | airdrop_policy.py:108-120 | Zero points give zero tokens under any ascending tiered-exponential policy. |
| PreTgeRewards.JupiterLoop | preTGE_rewards.py:139-147 | The loop with its `break` returns the points of the last tier reached before the first one missed, or 0. |
| PreTgeRewards.GenericLoop | preTGE_rewards.py:223-227 | The loop returns the weighted sum of the statistics named by the weights, with missing ones counted as 0. |
| PreTgeRewards.CalculatePoints | preTGE_rewards.py:10-227 | Each policy's `calculate_points` returns the policy's points function. |
| PreTgeRewards.Points | preTGE_rewards.py:10-227 | dYdX pays one of its tier values, and Jupiter one of them or nothing. Vertex, Aevo and generic weights give 0 for empty statistics. |
| PreTgeRewards.DydxDefaults | preTGE_rewards.py:42-61 | The default dYdX tiers give 310, 1163, 1163, 2500 and 2500 points at the listed volumes. A missing volume counts as 0. |
| PreTgeRewards.DydxMonotone | preTGE_rewards.py:56-61 | With non-decreasing tier points, more trading volume never earns fewer points. |
| PreTgeRewards.VertexExample | preTGE_rewards.py:98-105 | Maker 5000, taker 3000 and referral 20 give 3902 points with the default weights. |
| PreTgeRewards.JupiterReachedTiers | preTGE_rewards.py:139-147 | With ascending thresholds, the volume reaches exactly the tiers before the first one it falls below. So the reward is the points of the last tier reached, or 0. |
| PreTgeRewards.JupiterDefaults | preTGE_rewards.py:127-147 | Below 1000 of volume, or with no volume, the default tiers pay 0. A volume of 600000 pays 3000. |
| PreTgeRewards.AevoExample | preTGE_rewards.py:176-184 | The worked example with boost 2 and deposit bonus 100 scores 30100. Without a boost or bonus the score is pre-volume plus farm volume. |
| PreTgeRewards.GenericExample | preTGE_rewards.py:210-227 | The default weights score the worked example at 6301.7. |
| PreTgeRewards.GenericOnlyWeightKeys | preTGE_rewards.py:223-227 | The generic score depends only on the statistics named by the weights. |
| PreTgeRewards.NoStatsNoScore | preTGE_rewards.py:223-227 | Without statistics every weighted key counts as 0, so the weighted sum is 0. |
| PreTgeRewards.WeightedSumNonNegative | preTGE_rewards.py:223-227 | Non-negative weights and statistics give a non-negative score. |
| PreTgeRewards.ScoresNonNegative | preTGE_rewards.py:98-227 | Vertex, Aevo and generic scores are non-negative on non-negative statistics. |
| ActivityStats.ProfileOf | activity_stats.py:20-35 | Every size profile has ordered score ranges and a positive volume multiplier. |
| ActivityStats.GenerateStats | activity_stats.py:19-49 | A sized user gets the five statistics, with maker plus taker equal to trading volume. A user without a size gets trading volume only. |
| ActivityStats.TradingVolumeBySize | activity_stats.py:37 | Trading volume is the endowment times 50, 150 or 300 for small, medium or large, and 100 otherwise. |
| ActivityStats.MakerTakerSplit | activity_stats.py:38-39 | Maker and taker volume are each between 30% and 70% of a non-negative trading volume. |
| ActivityStats.ScoreRanges | activity_stats.py:44-45 | The quality score and referral points fall in the size's ranges, and the small profile is as listed. |
| Users.InitialInteractionRate | users.py:33-41 | Known sizes and sybils keep their Poisson draw as rate, and any other regular size gets 1. `UserPool.CreatedRateIsDraw` uses this to show that every user the pool creates keeps its draw. |
| Users.NextState | users.py:43-79 | A PreTGE step changes only the points, a TGE step only the tokens, a post-TGE step only the activity, and an unrecognised phase nothing. Only the TGE step needs the policy to be defined at the points. |
| Users.StayProbability | users.py:51-61 | Every size's post-TGE stay probability is strictly between 0 and 1. |
| Users.User.constructor | users.py:9-41 | A new user has the given identity, wealth and kind. It carries the given policy or the identity policy, starts with no points and no tokens, and is active. |
| Users.User.Step | users.py:43-79 | One step moves the user's points, tokens and activity to the next state of its kind in the given phase. Only the TGE step needs the policy to be defined at the points. |
| Users.PreTgeAccrues | users.py:44-47 | A pre-TGE step adds at least half the interaction rate to the points, and never lowers them. Tokens and activity do not change. |
| Users.TgeConverts | users.py:48-50 | At TGE, tokens become the policy's value of the points, and points and activity do not change. Under the identity policy the tokens equal the points. |
| Users.PostTgeRetention | users.py:51-79 | After TGE a sybil always leaves. A regular user stays exactly when the draw is below its size's stay probability. |
| Users.StayProbabilities | users.py:53-60 | The stay probabilities are 0.4, 0.8 and 0.9 for small, medium and large, and 0.5 otherwise. |
| Users.UnrecognisedPhaseIsNoOp | users.py:43-61 | A phase name the step does not recognise leaves the state unchanged. |
| Users.FarmStepsAccrue | test_user_simulation.py:8-13 | Any number of pre-TGE steps never lowers the points and leaves tokens and activity unchanged. |
| Users.ZeroRateFarmsNothing | test_user_simulation.py:8-13 | A small user whose Poisson draw is 0 has rate 0, and a PreTGE step leaves its points unchanged. |
| Users.PositiveRateAccrues | users.py:44-47 | With a positive rate, every PreTGE step strictly raises the points. |
| UserPool.CountsFor | user_pool.py:16-27 | The four group counts add up to the pool size. |
| UserPool.CountsAreTruncations | user_pool.py:16-27 | The sybil, small and medium counts are the truncated 30%, 60% and 30% shares, and large takes the rest. |
| UserPool.CountsExamples | user_pool.py:16-27 | An empty pool has no users of any kind, and 1000 users split into 420, 210, 70 and 300. |
| UserPool.KindAt | user_pool.py:36-50 | Every user the pool creates is small, medium, large or a sybil. |
| UserPool.CreatedRateIsDraw | user_pool.py:36-50 | Every user the pool creates takes its Poisson draw as its interaction rate, never the fallback 1. |
| UserPool.AppendUsers | user_pool.py:36-50 | Appending keeps the existing users. Each new user has the next identifier, its wealth and rate draws, the policy and a fresh state. |
| UserPool.CreateUsers | user_pool.py:15-50 | Small, medium and large users and then sybils are created with identifiers 0 to n-1. Each carries its own draws and a fresh state. |
| UserPool.Shuffle | user_pool.py:53 | The Fisher–Yates shuffle returns a permutation of its input: same multiset, and each position holds the input at a permuted index. |
| UserPool.UserPool.constructor | user_pool.py:9-53 | Any airdrop policy is accepted, and a missing one becomes the identity policy. The pool holds the identifiers 0 to n-1 in shuffled order. Each user's kind follows from its identifier's group, and it carries its identifier's wealth and rate draws and a fresh state. |
| UserPool.UserPool.StepAll | user_pool.py:55-57 | Every user takes one step of the phase with its own draw, and the pool keeps its users in order. Only the TGE step needs the policy to be defined at each user's points. |
| UserPool.UserPool.ActiveUsers | user_pool.py:59-60 | The active users are exactly the pool's users whose flag is set. |
| UserPool.ActiveOf | user_pool.py:59-60 | The filter keeps every active user, keeps no inactive one, and is no longer than its input. |
| UserPool.ActiveOfAppend | user_pool.py:59-60 | Filtering a concatenation filters each part. |
| UserPool.ActiveOfAll | user_pool.py:59-60 | A pool of active users is its own active list. |
| UserPool.ActiveOfNone | user_pool.py:59-60 | A pool with no active users has an empty active list. |
| PostTgeRewardsPolicy.Multiplier | postTGE_rewards_policy.py:26-29 | The multiplier is undefined exactly when the horizon is 0. |
| PostTgeRewardsPolicy.MultiplierEnds | postTGE_rewards_policy.py:26-29 | No activity gives 1, and activity over the whole horizon gives 1 + gamma. |
| PostTgeRewardsPolicy.MultiplierAtLeastOneAndMonotone | postTGE_rewards_policy.py:26-29 | With gamma ≥ 0 and a positive horizon, the multiplier is at least 1 and grows with activity. |
| PostTgeRewardsPolicy.DefaultMultipliers | postTGE_rewards_policy.py:21-29 | The defaults give 1.25 for 30 active months and 1.5 for 60. |
| PostTgeRewardsPolicy.NewGenericPostTgePolicy | postTGE_rewards_policy.py:38-39 | A given engagement policy is kept. Without one, the default multiplies rewards by 1.25 after 30 active months and by 1.5 after 60. |
| PostTgeRewardsPolicy.ApplyRewards | postTGE_rewards_policy.py:41-46 | The user's tokens are multiplied by the multiplier, and nothing else changes. On a zero horizon the call fails and the user is untouched. |
| PostTgeRewardsPolicy.RewardsNeverShrink | postTGE_rewards_policy.py:41-46 | Under the monotonicity conditions, rewards never shrink a non-negative balance. |
| PostTgeRewards.SellWeight | postTGE_rewards.py:74-82 | Without a distribution the sell weight is 1. |
| PostTgeRewards.SellWeightBounds | postTGE_rewards.py:74-82 | A percentage distribution summing to 100 gives a sell weight in [0.3, 1]. |
| PostTgeRewards.FloorAtOne | postTGE_rewards.py:86 | The floor is at least 1 and at least its input. It is exactly 1 below 1 and exactly the input from 1 on. |
| PostTgeRewards.CombinedSupply | postTGE_rewards.py:84-87 | Before anything is added to a TGE total of at least 1, the combined supply is the TGE total. |
| PostTgeRewards.BaselinePrice | postTGE_rewards.py:84-89 | The price is the base price as long as nothing has been added to a TGE total of at least 1. |
| PostTgeRewards.PriceAtTgeTotal | postTGE_rewards.py:89 | At a combined supply equal to the TGE total, the price is the base price. |
| PostTgeRewards.BaselinePrices | postTGE_rewards.py:63-90 | There is one price per month, each priced against the month-0 unlock. A TGE total of at least 1 prices month 0 at the base price. |
| PostTgeRewards.CombinedSupplyGrows | postTGE_rewards.py:84-87 | The combined supply never falls as unlocked tokens grow. |
| PostTgeRewards.CirculatingMonotone | postTGE_rewards.py:84 | With a non-negative sell weight, the circulating supply never falls as unlocked tokens grow. |
| PostTgeRewards.EffectiveMonotone | postTGE_rewards.py:85 | With a non-negative sell weight and a buyback rate of at most 1, the effective supply never falls as unlocked tokens grow. |
| PostTgeRewards.SupplyAfterMonotone | postTGE_rewards.py:84-87 | With alpha in [0, 1], the combined supply never falls as unlocked tokens grow. |
| PostTgeRewards.BaselineFallsAsSupplyUnlocks | postTGE_rewards.py:84-89 | The baseline price never rises as unlocked tokens grow. |
| PostTgeRewards.PriceFalls | postTGE_rewards.py:89 | A larger positive combined supply never gives a higher price. |
| PostTgeRewards.DiffusionFactor | postTGE_rewards.py:102 | Without drift and volatility the diffusion factor is 1, whatever the normal draw. |
| PostTgeRewards.JumpFactor | postTGE_rewards.py:103-106 | A unit draw never jumps when the intensity times dt is not positive, so the factor is then exactly 1. A jump size above -1 keeps the factor positive. |
| PostTgeRewards.MultiplierPath | postTGE_rewards.py:92-108 | The path is one longer than the steps and starts at 1. |
| PostTgeRewards.PathStep | postTGE_rewards.py:107 | Each path entry is the previous one times that step's diffusion and jump factors. |
| PostTgeRewards.PathOfOnes | postTGE_rewards.py:92-108 | Steps whose factors are all 1 give a path of ones. |
| PostTgeRewards.PathPositive | postTGE_rewards.py:92-108 | Positive factors give a positive path. |
| PostTgeRewards.JumpDiffusionPath | postTGE_rewards.py:97-107 | The array filled month by month holds the multiplier path of the drawn diffusion and jump factors. |
| PostTgeRewards.Simulator.ComputeTokenPrice | postTGE_rewards.py:63-90 | There is one price per month, and a TGE total of at least 1 prices month 0 at the base price. |
| PostTgeRewards.SimulatePriceEvolution | postTGE_rewards.py:92-108 | The prices are the baseline prices times the simulated multiplier path, month by month. |
| PostTgeRewards.FlatPathKeepsBaseline | postTGE_rewards.py:92-108 | Factors of 1 leave the baseline prices unchanged. |
| PostTgeRewards.QuietMarketKeepsBaseline | postTGE_rewards.py:92-108 | With no drift, no volatility and no jumps, the simulated prices are the baseline prices whatever the draws. |
| PostTgeRewards.PricesPositive | postTGE_rewards.py:92-108 | Positive baseline prices and positive factors give positive prices. |
| PriceEvolution.NewPriceEvolution | price_evolution.py:10-25 | Construction fails exactly when supply and demand differ in length. |
| PriceEvolution.Demand | price_evolution.py:35-38 | A non-positive price has no demand. |
| PriceEvolution.DemandValue | price_evolution.py:35-38 | At a positive price, demand times price to the elasticity is the month's USD demand. |
| PriceEvolution.Excess | price_evolution.py:51-52 | At a non-positive price excess demand is minus the supply. At a positive price, supply plus excess at price to the elasticity buys exactly the month's USD demand. |
| PriceEvolution.Bisect | price_evolution.py:70-75 | The final bracket lies inside the initial one and still holds a sign change of excess demand. It is 2^n times narrower. |
| PriceEvolution.Equilibrium | price_evolution.py:40-75 | No supply gives price 0. Excess negative at both ends gives 0, and positive at both ends gives 1e9. The price always lies in [0, 1e9]. |
| PriceEvolution.EquilibriumInBracket | price_evolution.py:68-75 | With a sign change, the price is the midpoint of a final bracket that holds a sign change and is 2^100 times narrower than [1e-12, 1e9]. |
| PriceEvolution.ExcessSignAtElasticityOne | price_evolution.py:46-56 | With elasticity 1, excess demand is non-negative exactly at or below usd_demand / supply, and non-positive exactly at or above it. |
| PriceEvolution.EquilibriumAtElasticityOne | price_evolution.py:40-75 | With elasticity 1 the price is usd_demand / supply, up to half the final bracket width. It is 0 below the bracket and 1e9 above it. |
| PriceEvolution.Simulate | price_evolution.py:77-85 | Month t's price is that month's equilibrium and lies in [0, 1e9]. |
| SimulationMath.TradingRange | simulation.py:43-84 | Each kind's trading-volume range is positive and non-empty. |
| SimulationMath.PreTgeStats | simulation.py:43-84 | Sized users get five statistics, with maker plus taker equal to trading volume, and others get trading volume only. Trading volume lies in the kind's range. |
| SimulationMath.PreTgeMakerShare | simulation.py:43-84 | Maker and taker volume each lie between 30% and 70% of the trading volume. |
| SimulationMath.Max | simulation.py:89 | The maximum bounds every element and is one of them. |
| SimulationMath.Normalized | simulation.py:88-92 | Normalising keeps the length. It leaves the points unchanged when the maximum is not positive. |
| SimulationMath.NormalizedMaxIsOne | simulation.py:88-92 | After normalising a positive maximum, the new maximum is 1 and non-negative points lie in [0, 1]. |
| SimulationMath.NormalizedBounded | simulation.py:88-92 | With a positive maximum, every normalised point is at most 1, and non-negative points stay non-negative. |
| SimulationMath.NormalizedReachesOne | simulation.py:88-92 | A user holding the positive maximum ends with exactly 1. |
| SimulationMath.NormalizedKeepsOrder | simulation.py:88-92 | Normalising never reorders two users. |
| SimulationMath.Rescaled | simulation.py:127-135 | A non-positive raw total sets every balance to 0. |
| SimulationMath.RescaledPositive | simulation.py:127-135 | A positive raw total rescales the balances to a total of exactly the target. |
| SimulationMath.RescaledTotal | simulation.py:127-135 | A positive raw total rescales each balance by target / total, and the new total is exactly the target. Otherwise the total is 0. |
| SimulationMath.GroupOf | simulation.py:141-152 | Exactly the regular users of an unknown size belong to no group. |
| SimulationMath.GroupTotal | simulation.py:141-152 | A name that is not one of the four groups gets nothing. |
| SimulationMath.GroupTotalBounds | simulation.py:141-152 | With non-negative balances, a group holds between nothing and the whole total. |
| SimulationMath.Distribution | simulation.py:141-156 | The distribution has exactly the four groups as keys. |
| SimulationMath.GroupTotalsCover | simulation.py:141-152 | When every user has a group, the group totals add up to the total balance. |
| SimulationMath.DistributionSumsTo100 | simulation.py:141-156 | When every user has a group and the total is positive, the percentages sum to 100. |
| SimulationMath.DistributionOfZeros | simulation.py:141-156 | All-zero balances give zero totals and zero entries. |
| SimulationMath.TotalHistoryStep | simulation.py:106-114 | One more month appends that month's total unlocked to the history. |
| SimulationMath.GroupHistoryStep | simulation.py:106-114 | One more month appends that month's group unlock to the group's history. |
| SimulationMath.TotalIsSumOfGroups | simulation.py:110-114 | Each month's total is the sum of that month's group entries. |
| SimulationMath.StandardHistory | simulation.py:98-115 | Under the standard schedules the total history never decreases. From month 48 on it is 90% of the supply. |
| SimulationMath.UserSellWeight | simulation.py:195-210 | Every user's sell weight is in [0.3, 1]. |
| SimulationMath.MeanSellWeight | simulation.py:195-210 | The mean sell weight of a non-empty pool lies in [0.3, 1]. |
| SimulationMath.AvgSellWeight | simulation.py:186-210 | Without a distribution the weight is the pool's mean, in [0.3, 1]. With non-negative percentages of the four groups summing to 100, it also lies in [0.3, 1]. |
| SimulationMath.TokenPrices | simulation.py:166-221 | There is one price per month, and a TGE total of at least 1 prices month 0 at the base price. |
| Simulation.MaxPoints | simulation.py:89 | The loop returns the maximum of the users' points. |
| Simulation.SumTokens | simulation.py:127 | The loop returns the sum of the users' tokens. |
| Simulation.ConvertedTokens | simulation.py:94-96 | Each user's tokens are the airdrop policy's value of its points, one entry per user. |
| Simulation.FarmUsers | simulation.py:40-41 | After one PreTGE step per row of draws, every user holds the state its own column of draws farms from its starting state. |
| Simulation.RawPreTgePoints | simulation.py:40-86 | There is one raw PreTGE point total per user, as farmed and then scored. |
| Simulation.ScoreUsers | simulation.py:44-86 | Each user's points grow by the reward policy's score of its generated statistics. Tokens and activity are unchanged. |
| Simulation.AddPoints | simulation.py:86 | Each user's points grow by its own score in place. Tokens and activity are unchanged. |
| Simulation.AppendAllocations | simulation.py:113-114 | Each group's history gets that group's allocation appended, and the keys stay the same. |
| Simulation.DividePoints | simulation.py:90-92 | Every user's points are divided by the divisor in place. Tokens and activity are unchanged. |
| Simulation.ScaleTokens | simulation.py:129-134 | Every user's tokens are multiplied by the factor in place. Points and activity are unchanged. |
| Simulation.GroupTotals | simulation.py:141-152 | The totals have the four group keys, and each is that group's token total. |
| Simulation.UnlockHistories | simulation.py:106-114 | The months are 0 to the horizon. The total history and every group history hold the unlocks of those months, and the group keys are exactly the group names. |
| Simulation.RecordMonth | simulation.py:109-114 | Recording one month extends the total history and every group history by that month. |
| Simulation.MonteCarloSimulation.constructor | simulation.py:10-31 | Any airdrop and rewards policy is accepted, and a missing airdrop policy becomes the linear one. The simulation keeps its parameters and the standard vesting manager. Its fresh pool has the given size, and each user carries its identifier's group kind, wealth and rate draws and a fresh state. |
| Simulation.MonteCarloSimulation.FarmPhase | simulation.py:40-41 | Each user's state is the result of its farming steps over its column of draws. |
| Simulation.MonteCarloSimulation.FarmAndScore | simulation.py:40-86 | Every user holds its raw PreTGE points: farmed over its column of draws, plus its rewards score when there is a rewards policy. |
| Simulation.MonteCarloSimulation.AddRewardPoints | simulation.py:43-86 | Each user's points grow by the rewards policy's score of its statistics. Tokens and activity are unchanged. |
| Simulation.MonteCarloSimulation.NormalizePoints | simulation.py:88-92 | The pool's points become the normalised points, and tokens and activity are unchanged. |
| Simulation.MonteCarloSimulation.SimulatePreTge | simulation.py:33-92 | The pool's points become the normalised farming-plus-rewards points. Tokens and activity are unchanged. |
| Simulation.MonteCarloSimulation.SimulateTge | simulation.py:94-96 | Every user's tokens become the airdrop policy's value of its points. Points and activity are unchanged. |
| Simulation.MonteCarloSimulation.PreTgeAndTge | simulation.py:33-96 | The users hold their normalised PreTGE points and the tokens these convert to. Activity is unchanged. |
| Simulation.MonteCarloSimulation.Rescale | simulation.py:127-135 | The target is the allocation fraction of the supply, and the balances become the rescaled balances. |
| Simulation.MonteCarloSimulation.AllocateTokens | simulation.py:119-135 | The users hold their normalised points. Their tokens are the conversion rescaled to the allocation fraction of the supply, which is returned. |
| Simulation.MonteCarloSimulation.ComputeDistribution | simulation.py:141-156 | The result is the group distribution of the current balances. |
| Simulation.MonteCarloSimulation.SimulatePostTge | simulation.py:98-115 | Months 0 to the horizon, with each month's total unlock and every group's unlock under the standard schedules. |
| Simulation.MonteCarloSimulation.Run | simulation.py:117-164 | The run returns the target total, months 0 to the horizon, the unlock histories of every group and their total, and the distribution of the final balances. Points are normalised, tokens are their rescaled conversion, and activity is unchanged. |
| Simulation.SimulatePriceEvolutionDynamic | simulation.py:223-271 | The prices are the baseline prices times the multiplier path, and a TGE total of at least 1 starts at the base price. |

## Left out

- AirdropPolicy.CalculateTokens: requires the policy to be defined at the points. A zero exponential scaling, an empty tiered-constant list and a zero scaling in a tier the points reach raise in the source, and the model does not cover those raises.
- AirdropPolicy.Tokens: requires the policy to be defined at the points, for the same reason.
- PreTgeRewards.CalculatePoints: requires a non-empty dYdX tier list and distinct generic weight keys. The source raises on the first and builds the second from a dictionary.
- Users.NextState: the TGE step requires the policy to be defined at the points, for the same reason as `CalculateTokens`. The other phases accept any policy.
- Users.User.Step: the TGE step requires the policy to be defined at the points, for the same reason.
- UserPool.UserPool.StepAll: the TGE step requires the policy to be defined at every user's points, for the same reason.
- PostTgeRewardsPolicy.Multiplier: `delta` is a natural number, because real powers are not modelled. The default is 1.
- PriceEvolution.Demand: `elasticity` is a natural number, for the same reason.
- PostTgeRewards.Simulator.ComputeTokenPrice: the elasticity is also a natural number there.
- PriceEvolution.Equilibrium: `brentq` becomes 100 halvings of a bisection. The price is proved to lie in a final bracket of known width, not to be an exact root.
- PriceEvolution.Equilibrium: the `except` fallback is not modelled, because a bracket with a sign change never raises in the model.
- PostTgeRewards.Simulator.ComputeTokenPrice: requires a non-empty history and a nonzero combined supply every month. The source would divide by zero or produce `inf`.
- PostTgeRewards.BaselinePrices: requires a non-empty history and a nonzero combined supply every month, for the same reason.
- PostTgeRewards.SimulatePriceEvolution: requires a non-empty history and a nonzero combined supply every month, for the same reason.
- SimulationMath.TokenPrices: requires a non-empty history and a nonzero combined supply every month, for the same reason. Without a distribution it also requires a non-empty user list, because the source's mean of no weights is `nan`.
- Simulation.SimulatePriceEvolutionDynamic: the same requirements as `TokenPrices`, for the same reasons.
- SimulationMath.MeanSellWeight: requires a non-empty list, because the mean of nothing is `nan`.
- SimulationMath.AvgSellWeight: without a distribution it requires a non-empty list, for the same reason.
- Simulation.MonteCarloSimulation.NormalizePoints: requires a non-empty pool, because `max` of an empty pool raises.
- Simulation.MonteCarloSimulation.SimulatePreTge: requires a non-empty pool, for the same reason.
- Simulation.MonteCarloSimulation.SimulateTge: requires the airdrop policy to be defined at every user's points, for the same reason as `CalculateTokens`.
- Simulation.MonteCarloSimulation.PreTgeAndTge: requires a non-empty pool and the airdrop policy to be defined at every normalised point, for the reasons above.
- Simulation.MonteCarloSimulation.AllocateTokens: the same requirements as `PreTgeAndTge`.
- Simulation.MonteCarloSimulation.Run: the same requirements as `PreTgeAndTge`.
- SimulationMath.DistributionSumsTo100: holds only when every regular user has a known size. Such users are never created (`UserPool.KindAt`), but the source does not rule them out.
- IEEE floating point (rounding, `inf`, `nan`): all numbers are exact reals.
- `np.exp`: a parameter that obeys `ExpLaws`.
- Random draws (lognormal wealth, Poisson rates, uniform, normal, the shuffle): explicit arguments.
- The TGE step's draw is ignored, as in the source.
- The console output of `run` and of the progress messages.
- The `__main__` demonstrations at the end of preTGE_rewards.py.
- main.py and plot_helper.py, which only drive and plot runs.
- The import of `PostTGERewardsManager` in simulation.py: it names the wrong module. The manager is modelled from vesting.py.
- `generate_stats` in activity_stats.py reads the user's `endowment`, which users do not have. The endowment is a parameter.

## Findings

| source | as written | input that shows it | evidently intended | confidence | as-written member | corrected member |
|---|---|---|---|---|---|---|
| test_user_simulation.py:8-13 | The test expects a small user's points to rise strictly after one PreTGE step. | A small user whose Poisson(1) rate draw is 0, which happens with probability about 0.37. The rate is then 0, and a PreTGE step adds nothing. | Points rise strictly when the interaction rate is positive. | not executed | Users.ZeroRateFarmsNothing | Users.PositiveRateAccrues |
