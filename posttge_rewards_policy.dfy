/** Post-TGE engagement rewards (postTGE_rewards_policy.py): a multiplier
    `1 + gamma * (active_days / horizon) ** delta` applied to a user's
    tokens. */
module PostTgeRewardsPolicy {
  import opened Common
  import opened Users

  /** `EngagementMultiplierPolicy(gamma, delta, simulation_horizon)`; the
      exponent is a natural number. */
  datatype EngagementPolicy = EngagementPolicy(gamma: real, delta: nat, horizon: real)

  const DefaultEngagement := EngagementPolicy(0.5, 1, 60.0)

  /** `calculate_multiplier(active_days)`; `None` is the division by zero
      a horizon of 0 raises. */
  function Multiplier(p: EngagementPolicy, activeDays: real): (m: Option<real>)
    ensures m.None? <==> p.horizon == 0.0
  {
    if p.horizon == 0.0 then None
    else Some(1.0 + p.gamma * Pow(activeDays / p.horizon, p.delta))
  }

  /** With a positive exponent, no activity gives multiplier 1 and activity
      over the whole horizon gives `1 + gamma`. */
  lemma MultiplierEnds(p: EngagementPolicy)
    requires p.horizon != 0.0 && 0 < p.delta
    ensures Multiplier(p, 0.0) == Some(1.0)
    ensures Multiplier(p, p.horizon) == Some(1.0 + p.gamma)
  {
    var none := 0.0 / p.horizon;
    assert none == 0.0;
    PowZero(p.delta);
    assert Pow(none, p.delta) == 0.0;
    assert p.gamma * Pow(none, p.delta) == 0.0;
    var all := p.horizon / p.horizon;
    assert all == 1.0;
    PowOne(p.delta);
    assert Pow(all, p.delta) == 1.0;
    assert p.gamma * Pow(all, p.delta) == p.gamma;
  }

  /** With `gamma >= 0` and a positive horizon, the multiplier is at least
      1 for any non-negative activity and grows with activity. */
  lemma MultiplierAtLeastOneAndMonotone(p: EngagementPolicy, a: real, b: real)
    requires 0.0 <= p.gamma && 0.0 < p.horizon && 0.0 <= a <= b
    ensures 1.0 <= Multiplier(p, a).value <= Multiplier(p, b).value
  {
    DivMonotone(0.0, a, p.horizon);
    DivMonotone(a, b, p.horizon);
    PowNonNegative(a / p.horizon, p.delta);
    PowMonotone(a / p.horizon, b / p.horizon, p.delta);
    MulLeft(p.gamma, 0.0, Pow(a / p.horizon, p.delta));
    MulLeft(p.gamma, Pow(a / p.horizon, p.delta), Pow(b / p.horizon, p.delta));
  }

  /** The defaults: 30 active months of 60 give 1.25, all 60 give 1.5. */
  lemma DefaultMultipliers()
    ensures Multiplier(DefaultEngagement, 30.0) == Some(1.25)
    ensures Multiplier(DefaultEngagement, 60.0) == Some(1.5)
  {
  }

  /** `GenericPostTGERewardPolicy`; a missing engagement policy defaults to
      `DefaultEngagement`. */
  datatype GenericPostTgePolicy = GenericPostTgePolicy(engagement: EngagementPolicy)

  /** A given engagement policy is used as it is; without one, the rewards
      multiply by 1.25 for 30 active months and by 1.5 for 60. */
  function NewGenericPostTgePolicy(engagement: Option<EngagementPolicy>): (g: GenericPostTgePolicy)
    ensures engagement.Some? ==> g.engagement == engagement.value
    ensures engagement.None? ==>
      Multiplier(g.engagement, 30.0) == Some(1.25) && Multiplier(g.engagement, 60.0) == Some(1.5)
  {
    GenericPostTgePolicy(if engagement.Some? then engagement.value else DefaultEngagement)
  }

  /** `apply_rewards(user, active_days)`: multiplies the user's tokens in
      place. `ok` is false exactly when the multiplier raises, and then the
      user is untouched. */
  method ApplyRewards(g: GenericPostTgePolicy, user: User, activeDays: real) returns (ok: bool)
    modifies user
    ensures ok <==> g.engagement.horizon != 0.0
    ensures ok ==> user.tokens == old(user.tokens) * Multiplier(g.engagement, activeDays).value
    ensures !ok ==> user.tokens == old(user.tokens)
    ensures user.airdropPoints == old(user.airdropPoints) && user.active == old(user.active)
  {
    var m := Multiplier(g.engagement, activeDays);
    if m.None? {
      return false;
    }
    user.tokens := user.tokens * m.value;
    return true;
  }

  /** Under the monotonicity conditions, applying rewards never shrinks a
      non-negative balance. */
  lemma RewardsNeverShrink(p: EngagementPolicy, tokens: real, activeDays: real)
    requires 0.0 <= p.gamma && 0.0 < p.horizon && 0.0 <= activeDays && 0.0 <= tokens
    ensures tokens <= tokens * Multiplier(p, activeDays).value
  {
    MultiplierAtLeastOneAndMonotone(p, activeDays, activeDays);
    MulLeft(tokens, 1.0, Multiplier(p, activeDays).value);
  }
}
