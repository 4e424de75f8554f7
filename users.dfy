/** Simulated users (users.py): a phase-driven state machine whose
    `step` accrues points before the TGE, converts them to tokens at the
    TGE and decides after it whether the user stays active. */
module Users {
  import opened Common
  import opened AirdropPolicy

  /** The phase names `step` understands; any other name is `Unrecognised`. */
  datatype Phase = PreTge | Tge | PostTge | Unrecognised(name: string)

  /** A regular user of a given size (`RegularUser`), or a `SybilUser`. */
  datatype Kind = Regular(size: string) | Sybil

  /** The mutable part of a user. */
  datatype UserState = UserState(airdropPoints: real, tokens: real, active: bool)

  const InitialState := UserState(0.0, 0.0, true)

  /** The interaction rate a user is constructed with: regular users of a
      known size and sybils take their Poisson draw, a regular user of any
      other size gets 1. */
  function InitialInteractionRate(kind: Kind, poissonDraw: nat): (rate: nat)
    ensures kind.Regular? && kind.size !in {"small", "medium", "large"} ==> rate == 1
    ensures (kind.Sybil? || kind.size in {"small", "medium", "large"}) ==> rate == poissonDraw
  {
    match kind
    case Regular(size) => if size == "small" || size == "medium" || size == "large" then poissonDraw else 1
    case Sybil => poissonDraw
  }

  /** The probability that a regular user of the given size stays active. */
  function StayProbability(size: string): (p: real)
    ensures 0.0 < p < 1.0
  {
    if size == "small" then 0.4
    else if size == "medium" then 0.8
    else if size == "large" then 0.9
    else 0.5
  }

  /** The upper end of the PreTGE uniform draw: 1.5 for regular users, 1.0 for sybils. */
  function FarmHigh(kind: Kind): real {
    if kind.Regular? then 1.5 else 1.0
  }

  /** One `step(phase)` on the state `s`; `u` is the unit draw the step
      makes (the uniform draw before the TGE, `np.random.rand()` after
      it; unused otherwise). */
  function NextState(kind: Kind, rate: nat, policy: Policy, exp: real -> real,
                     phase: Phase, u: real, s: UserState): (t: UserState)
    requires (phase.Tge? ==> ValidAt(policy, s.airdropPoints)) && IsUnit(u)
    ensures phase.PreTge? ==> t.tokens == s.tokens && t.active == s.active
    ensures phase.Tge? ==> t.airdropPoints == s.airdropPoints && t.active == s.active
    ensures phase.PostTge? ==> t.airdropPoints == s.airdropPoints && t.tokens == s.tokens
    ensures phase.Unrecognised? ==> t == s
  {
    match phase
    case PreTge => s.(airdropPoints := s.airdropPoints + rate as real * Uniform(0.5, FarmHigh(kind), u))
    case Tge => s.(tokens := Tokens(policy, s.airdropPoints, exp))
    case PostTge =>
      (match kind
       case Regular(size) => s.(active := u < StayProbability(size))
       case Sybil => s.(active := false))
    case Unrecognised(_) => s
  }

  class User {
    const userId: nat
    const wealth: real
    const kind: Kind
    const policy: Policy
    const interactionRate: nat
    var airdropPoints: real
    var tokens: real
    var active: bool

    function State(): UserState
      reads this
    {
      UserState(airdropPoints, tokens, active)
    }

    /** The constructor of `RegularUser` / `SybilUser`; a missing policy
        defaults to the base (identity) policy. */
    constructor(userId: nat, wealth: real, kind: Kind, policy: Option<Policy>, poissonDraw: nat)
      ensures this.userId == userId && this.wealth == wealth && this.kind == kind
      ensures this.policy == (if policy.Some? then policy.value else Identity)
      ensures interactionRate == InitialInteractionRate(kind, poissonDraw)
      ensures State() == InitialState
    {
      this.userId := userId;
      this.wealth := wealth;
      this.kind := kind;
      this.policy := if policy.Some? then policy.value else Identity;
      interactionRate := InitialInteractionRate(kind, poissonDraw);
      airdropPoints := 0.0;
      tokens := 0.0;
      active := true;
    }

    /** `step(phase)`, updating the fields in place. */
    method Step(phase: Phase, u: real, exp: real -> real)
      requires (phase.Tge? ==> ValidAt(policy, airdropPoints)) && IsUnit(u)
      modifies this
      ensures State() == NextState(kind, interactionRate, policy, exp, phase, u, old(State()))
    {
      match phase
      case PreTge =>
        var delta := interactionRate as real * Uniform(0.5, FarmHigh(kind), u);
        airdropPoints := airdropPoints + delta;
      case Tge =>
        tokens := CalculateTokens(policy, airdropPoints, exp);
      case PostTge =>
        match kind {
          case Regular(size) =>
            active := u < StayProbability(size);
          case Sybil =>
            active := false;
        }
      case Unrecognised(_) =>
    }
  }

  // ---------------------------------------------------------------------
  // Properties of one step.

  /** Before the TGE, a step adds between `0.5 * rate` and the draw's upper
      end times the rate, so points never decrease; nothing else changes. */
  lemma PreTgeAccrues(kind: Kind, rate: nat, policy: Policy, exp: real -> real, u: real, s: UserState)
    requires IsUnit(u)
    ensures var t := NextState(kind, rate, policy, exp, PreTge, u, s);
      s.airdropPoints + 0.5 * (rate as real) <= t.airdropPoints <= s.airdropPoints + FarmHigh(kind) * (rate as real)
      && s.airdropPoints <= t.airdropPoints
      && t.tokens == s.tokens && t.active == s.active
  {
    var h, r := FarmHigh(kind), rate as real;
    var d := Uniform(0.5, h, u);
    var t := NextState(kind, rate, policy, exp, PreTge, u, s);
    assert t.airdropPoints == s.airdropPoints + r * d;
    ScaledDrawBounds(s.airdropPoints, r, d, h, t.airdropPoints);
  }

  /** A small user whose Poisson draw was 0 has rate 0 and farms nothing:
      its points stay as they are after a PreTGE step. */
  lemma ZeroRateFarmsNothing(policy: Policy, exp: real -> real, u: real, s: UserState)
    requires IsUnit(u)
    ensures InitialInteractionRate(Regular("small"), 0) == 0
    ensures NextState(Regular("small"), 0, policy, exp, PreTge, u, s).airdropPoints == s.airdropPoints
  {
  }

  /** A positive interaction rate makes every PreTGE step strictly raise
      the points. */
  lemma PositiveRateAccrues(kind: Kind, rate: nat, policy: Policy, exp: real -> real, u: real, s: UserState)
    requires IsUnit(u) && 0 < rate
    ensures s.airdropPoints < NextState(kind, rate, policy, exp, PreTge, u, s).airdropPoints
  {
    PreTgeAccrues(kind, rate, policy, exp, u, s);
  }

  lemma ScaledDrawBounds(p: real, r: real, d: real, h: real, q: real)
    requires 0.0 <= r && 0.5 <= d <= h && q == p + r * d
    ensures p + 0.5 * r <= q <= p + h * r && p <= q
  {
    MulLeft(r, 0.5, d);
    MulLeft(r, d, h);
  }

  /** At the TGE, tokens become the policy's conversion of the points; the
      points and the active flag stay. With the base policy tokens equal
      points. */
  lemma TgeConverts(kind: Kind, rate: nat, policy: Policy, exp: real -> real, u: real, s: UserState)
    requires ValidAt(policy, s.airdropPoints) && IsUnit(u)
    ensures var t := NextState(kind, rate, policy, exp, Tge, u, s);
      t.tokens == Tokens(policy, s.airdropPoints, exp)
      && t.airdropPoints == s.airdropPoints && t.active == s.active
      && (policy == Identity ==> t.tokens == s.airdropPoints)
  {
  }

  /** After the TGE a regular user stays active exactly when the draw is
      below its size's stay probability; a sybil always leaves. Points and
      tokens stay. */
  lemma PostTgeRetention(kind: Kind, rate: nat, policy: Policy, exp: real -> real, u: real, s: UserState)
    requires IsUnit(u)
    ensures var t := NextState(kind, rate, policy, exp, PostTge, u, s);
      t.airdropPoints == s.airdropPoints && t.tokens == s.tokens
      && (kind.Sybil? ==> !t.active)
      && (kind.Regular? ==> (t.active <==> u < StayProbability(kind.size)))
  {
  }

  /** The stay probabilities per size. */
  lemma StayProbabilities(size: string)
    ensures size == "small" ==> StayProbability(size) == 0.4
    ensures size == "medium" ==> StayProbability(size) == 0.8
    ensures size == "large" ==> StayProbability(size) == 0.9
    ensures size !in {"small", "medium", "large"} ==> StayProbability(size) == 0.5
  {
  }

  /** An unrecognised phase name leaves the user as it is. */
  lemma UnrecognisedPhaseIsNoOp(kind: Kind, rate: nat, policy: Policy, exp: real -> real,
                                name: string, u: real, s: UserState)
    requires IsUnit(u)
    ensures NextState(kind, rate, policy, exp, Unrecognised(name), u, s) == s
  {
  }

  /** The state after one PreTGE step per draw, in the order of `draws`. */
  function FarmSteps(kind: Kind, rate: nat, policy: Policy, exp: real -> real,
                     draws: seq<real>, s: UserState): UserState
    requires forall i :: 0 <= i < |draws| ==> IsUnit(draws[i])
  {
    if draws == [] then s
    else NextState(kind, rate, policy, exp, PreTge, draws[|draws| - 1],
                   FarmSteps(kind, rate, policy, exp, draws[..|draws| - 1], s))
  }

  /** Repeated PreTGE steps add at least half the rate per step, so points
      never fall below their starting value; tokens and the active flag
      stay. */
  lemma {:induction false} FarmStepsAccrue(kind: Kind, rate: nat, policy: Policy, exp: real -> real,
                                           draws: seq<real>, s: UserState)
    requires forall i :: 0 <= i < |draws| ==> IsUnit(draws[i])
    ensures var t := FarmSteps(kind, rate, policy, exp, draws, s);
      s.airdropPoints + 0.5 * (rate * |draws|) as real <= t.airdropPoints
      && t.tokens == s.tokens && t.active == s.active
  {
    if draws != [] {
      var init := draws[..|draws| - 1];
      var mid := FarmSteps(kind, rate, policy, exp, init, s);
      FarmStepsAccrue(kind, rate, policy, exp, init, s);
      PreTgeAccrues(kind, rate, policy, exp, draws[|draws| - 1], mid);
      assert rate * |draws| == rate * |init| + rate;
    }
  }
}
