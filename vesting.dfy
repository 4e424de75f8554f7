/** Vesting schedules (vesting.py): each allocation group unlocks a fraction
    of its allocation as a piecewise-linear, boundary-gated function of the
    months elapsed since TGE. Schedules are values; nothing mutates them. */
module Vesting {
  import opened Common

  datatype VestingSchedule = VestingSchedule(
    allocation: real,
    unlockAtTge: real,
    lockupDuration: real,
    initialCliffUnlock: real,
    unlockDuration: real,
    initialCliffDelay: real)
  {
    /** The fractions released at TGE and at the cliff are non-negative and
        together at most the whole allocation. */
    predicate WellFormed() {
      0.0 <= unlockAtTge && 0.0 <= initialCliffUnlock && unlockAtTge + initialCliffUnlock <= 1.0
    }

    /** The month at which linear unlocking starts: the end of the lockup,
        or the cliff delay for a schedule without a lockup. */
    function Gate(): real {
      if lockupDuration > 0.0 then lockupDuration else initialCliffDelay
    }

    /** `get_unlocked_fraction`: both branches of the source share one shape,
        gated by `Gate()`. Nothing is unlocked before TGE; from TGE on a
        well-formed schedule has released at least its TGE fraction and at
        most everything. */
    function UnlockedFraction(elapsed: real): (f: real)
      ensures elapsed < 0.0 ==> f == 0.0
      ensures WellFormed() && 0.0 <= elapsed ==> unlockAtTge <= f <= 1.0
    {
      if elapsed < 0.0 then 0.0
      else if elapsed < Gate() then unlockAtTge
      else if elapsed < Gate() + unlockDuration then
        var progress := (elapsed - Gate()) / unlockDuration;
        var rest := 1.0 - unlockAtTge - initialCliffUnlock;
        assert WellFormed() ==> 0.0 <= rest * progress <= rest by {
          if WellFormed() {
            assert 0.0 <= progress < 1.0;
            MulBounds(rest, progress);
          }
        }
        unlockAtTge + initialCliffUnlock + rest * progress
      else 1.0
    }

    /** `get_unlocked_tokens`: a well-formed schedule never releases less
        than nothing or more than its allocation. */
    function UnlockedTokens(elapsed: real): (tokens: real)
      ensures WellFormed() && 0.0 <= allocation ==> 0.0 <= tokens <= allocation
    {
      var f := UnlockedFraction(elapsed);
      assert WellFormed() && 0.0 <= allocation ==> 0.0 <= allocation * f <= allocation by {
        if WellFormed() && 0.0 <= allocation {
          MulLeft(allocation, 0.0, f);
          MulLeft(allocation, f, 1.0);
        }
      }
      allocation * f
    }
  }

  /** During the linear phase the fraction lies between what TGE and the
      cliff release and the whole allocation. */
  lemma LinearPhaseBounds(s: VestingSchedule, elapsed: real)
    requires s.WellFormed()
    requires 0.0 <= elapsed && s.Gate() <= elapsed < s.Gate() + s.unlockDuration
    ensures 0.0 < s.unlockDuration
    ensures s.unlockAtTge + s.initialCliffUnlock <= s.UnlockedFraction(elapsed) <= 1.0
  {
    var progress := (elapsed - s.Gate()) / s.unlockDuration;
    var rest := 1.0 - s.unlockAtTge - s.initialCliffUnlock;
    assert 0.0 <= progress < 1.0;
    MulBounds(rest, progress);
  }

  /** The unlocked fraction of a well-formed schedule never decreases. */
  lemma FractionMonotone(s: VestingSchedule, a: real, b: real)
    requires s.WellFormed() && a <= b
    ensures s.UnlockedFraction(a) <= s.UnlockedFraction(b)
  {
    var g, d := s.Gate(), s.unlockDuration;
    var linearA := 0.0 <= a && g <= a < g + d;
    var linearB := 0.0 <= b && g <= b < g + d;
    if linearB {
      LinearPhaseBounds(s, b);
    }
    if linearA && linearB {
      var base, rest := s.unlockAtTge + s.initialCliffUnlock, 1.0 - s.unlockAtTge - s.initialCliffUnlock;
      var pa, pb := (a - g) / d, (b - g) / d;
      DivMonotone(a - g, b - g, d);
      LinearFraction(s, a);
      LinearFraction(s, b);
      ScaledOrder(rest, pa, pb, s.UnlockedFraction(a) - base, s.UnlockedFraction(b) - base);
    }
  }

  /** The fraction inside the linear window. */
  lemma LinearFraction(s: VestingSchedule, elapsed: real)
    requires 0.0 <= elapsed && s.Gate() <= elapsed < s.Gate() + s.unlockDuration
    ensures s.UnlockedFraction(elapsed) == s.unlockAtTge + s.initialCliffUnlock
      + (1.0 - s.unlockAtTge - s.initialCliffUnlock) * ((elapsed - s.Gate()) / s.unlockDuration)
  {
  }

  /** Exact values at the edges of the schedule: before TGE nothing, during
      the lockup (or cliff delay) the TGE fraction, at the gate the TGE plus
      cliff fractions, and everything once the linear window has passed. */
  lemma FractionEdges(s: VestingSchedule, elapsed: real)
    ensures elapsed < 0.0 ==> s.UnlockedFraction(elapsed) == 0.0
    ensures 0.0 <= elapsed < s.Gate() ==> s.UnlockedFraction(elapsed) == s.unlockAtTge
    ensures 0.0 <= elapsed == s.Gate() && 0.0 < s.unlockDuration ==>
      s.UnlockedFraction(elapsed) == s.unlockAtTge + s.initialCliffUnlock
    ensures 0.0 <= elapsed && 0.0 <= s.unlockDuration && s.Gate() + s.unlockDuration <= elapsed ==>
      s.UnlockedFraction(elapsed) == 1.0
  {
  }

  /** A group with no lockup, no cliff delay and no linear window (the
      "TGE Airdrop" and "Rewards" groups) is fully unlocked from TGE on. */
  lemma ImmediateScheduleFullyUnlocked(s: VestingSchedule, elapsed: real)
    requires s.lockupDuration == 0.0 && s.initialCliffDelay == 0.0 && s.unlockDuration == 0.0
    requires 0.0 <= elapsed
    ensures s.UnlockedFraction(elapsed) == 1.0
  {
  }

  /** The eight allocation groups, in the order the manager declares them. */
  const GroupNames: seq<string> := ["Team", "TGE Airdrop", "Future Investors", "Strategic Reserve/Treasury",
                                    "Investors", "Rewards", "Promotion", "Advisors"]

  /** `PostTGERewardsManager`: a total supply and one schedule per group. */
  datatype RewardsManager = RewardsManager(totalSupply: real, schedules: seq<VestingSchedule>)
  {
    predicate Valid() {
      |schedules| == |GroupNames|
    }

    /** The unlocked tokens of every group, in group order. */
    function AllocationList(elapsed: real): (r: seq<real>)
      ensures |r| == |schedules|
      ensures forall i :: 0 <= i < |schedules| ==> r[i] == schedules[i].UnlockedTokens(elapsed)
    {
      seq(|schedules|, i requires 0 <= i < |schedules| => schedules[i].UnlockedTokens(elapsed))
    }

    /** `get_unlocked_allocations`: a fresh dictionary from group name to
        that group's unlocked tokens. */
    function UnlockedAllocations(elapsed: real): (r: map<string, real>)
      requires Valid()
      ensures r.Keys == set g | g in GroupNames
      ensures forall i :: 0 <= i < |GroupNames| ==> r[GroupNames[i]] == schedules[i].UnlockedTokens(elapsed)
    {
      var tokens := AllocationList(elapsed);
      var r := map["Team" := tokens[0], "TGE Airdrop" := tokens[1], "Future Investors" := tokens[2],
                   "Strategic Reserve/Treasury" := tokens[3], "Investors" := tokens[4], "Rewards" := tokens[5],
                   "Promotion" := tokens[6], "Advisors" := tokens[7]];
      assert forall i :: 0 <= i < |GroupNames| ==> r[GroupNames[i]] == tokens[i] by {
        assert r["Team"] == tokens[0] && r["TGE Airdrop"] == tokens[1];
        assert r["Future Investors"] == tokens[2] && r["Strategic Reserve/Treasury"] == tokens[3];
        assert r["Investors"] == tokens[4] && r["Rewards"] == tokens[5];
        assert r["Promotion"] == tokens[6] && r["Advisors"] == tokens[7];
      }
      r
    }

    /** The allocation of every group, in group order. */
    function Allocations(): (r: seq<real>)
      ensures |r| == |schedules| && forall i :: 0 <= i < |schedules| ==> r[i] == schedules[i].allocation
    {
      seq(|schedules|, i requires 0 <= i < |schedules| => schedules[i].allocation)
    }

    /** Every schedule is well formed with a non-negative allocation. */
    predicate Funded() {
      forall i :: 0 <= i < |schedules| ==> schedules[i].WellFormed() && 0.0 <= schedules[i].allocation
    }

    /** `sum(allocations.values())`: for funded schedules, between nothing
        and the sum of the allocations. */
    function TotalUnlocked(elapsed: real): (total: real)
      ensures Funded() ==> 0.0 <= total <= Sum(Allocations())
    {
      var tokens := AllocationList(elapsed);
      assert Funded() ==> 0.0 <= Sum(tokens) <= Sum(Allocations()) by {
        if Funded() {
          SumNonNegative(tokens);
          SumPointwise(tokens, Allocations());
        }
      }
      Sum(tokens)
    }
  }

  /** The standard schedules built by `PostTGERewardsManager(total_supply)`. */
  function NewRewardsManager(totalSupply: real): (m: RewardsManager)
    ensures m.Valid() && m.totalSupply == totalSupply
  {
    RewardsManager(totalSupply, [
      VestingSchedule(totalSupply * 0.20, 0.20, 12.0, 0.20, 36.0, 0.0),   // Team
      VestingSchedule(totalSupply * 0.15, 1.0, 0.0, 0.0, 0.0, 0.0),       // TGE Airdrop
      VestingSchedule(totalSupply * 0.17, 0.0, 0.0, 0.0, 48.0, 0.0),      // Future Investors
      VestingSchedule(totalSupply * 0.20, 0.0, 0.0, 0.0, 48.0, 0.0),      // Strategic Reserve/Treasury
      VestingSchedule(totalSupply * 0.08, 0.20, 0.0, 0.20, 36.0, 1.0),    // Investors
      VestingSchedule(totalSupply * 0.05, 1.0, 0.0, 0.0, 0.0, 0.0),       // Rewards
      VestingSchedule(totalSupply * 0.03, 0.20, 0.0, 0.20, 24.0, 1.0),    // Promotion
      VestingSchedule(totalSupply * 0.02, 0.20, 12.0, 0.20, 36.0, 0.0)    // Advisors
    ])
  }

  /** The group names are distinct, so the allocation dictionary has exactly
      eight entries. */
  lemma GroupNamesDistinct()
    ensures forall i, j :: 0 <= i < j < |GroupNames| ==> GroupNames[i] != GroupNames[j]
  {
  }

  /** Every standard schedule is well formed, and each ends by month 48. */
  lemma StandardSchedulesWellFormed(totalSupply: real)
    ensures forall i :: 0 <= i < |GroupNames| ==> NewRewardsManager(totalSupply).schedules[i].WellFormed()
    ensures forall i :: 0 <= i < |GroupNames| ==>
      NewRewardsManager(totalSupply).schedules[i].Gate() + NewRewardsManager(totalSupply).schedules[i].unlockDuration <= 48.0
    ensures forall i :: 0 <= i < |GroupNames| ==> 0.0 <= NewRewardsManager(totalSupply).schedules[i].unlockDuration
    ensures 0.0 <= totalSupply ==>
      forall i :: 0 <= i < |GroupNames| ==> 0.0 <= NewRewardsManager(totalSupply).schedules[i].allocation
  {
  }

  /** The Team schedule: 20% of its allocation at months 0 and 11, 40% at
      month 12, and all of it from month 48 on. */
  lemma TeamScheduleExample(totalSupply: real, later: real)
    requires 48.0 <= later
    ensures var team := NewRewardsManager(totalSupply).schedules[0];
      && team.UnlockedTokens(0.0) == totalSupply * 0.20 * 0.20
      && team.UnlockedTokens(11.0) == totalSupply * 0.20 * 0.20
      && team.UnlockedTokens(12.0) == totalSupply * 0.20 * 0.40
      && team.UnlockedTokens(later) == totalSupply * 0.20
  {
  }

  /** From month 48 on every group is fully unlocked, so the total is the
      90% of the supply that the eight groups allocate. */
  lemma FullyUnlockedTotal(totalSupply: real, elapsed: real)
    requires 48.0 <= elapsed
    ensures NewRewardsManager(totalSupply).TotalUnlocked(elapsed) == totalSupply * 0.90
  {
    var m := NewRewardsManager(totalSupply);
    var r := m.AllocationList(elapsed);
    StandardSchedulesWellFormed(totalSupply);
    forall i | 0 <= i < 8 ensures r[i] == m.schedules[i].allocation {
      FractionEdges(m.schedules[i], elapsed);
    }
    assert Sum(r[..1]) == r[0];
    assert Sum(r[..2]) == Sum(r[..1]) + r[1] by { assert r[..2][..1] == r[..1]; }
    assert Sum(r[..3]) == Sum(r[..2]) + r[2] by { assert r[..3][..2] == r[..2]; }
    assert Sum(r[..4]) == Sum(r[..3]) + r[3] by { assert r[..4][..3] == r[..3]; }
    assert Sum(r[..5]) == Sum(r[..4]) + r[4] by { assert r[..5][..4] == r[..4]; }
    assert Sum(r[..6]) == Sum(r[..5]) + r[5] by { assert r[..6][..5] == r[..5]; }
    assert Sum(r[..7]) == Sum(r[..6]) + r[6] by { assert r[..7][..6] == r[..6]; }
    assert Sum(r) == Sum(r[..7]) + r[7];
  }

  /** When every schedule is well formed with a non-negative allocation,
      the total unlocked never decreases. */
  lemma TotalUnlockedMonotone(m: RewardsManager, a: real, b: real)
    requires forall i :: 0 <= i < |m.schedules| ==> m.schedules[i].WellFormed() && 0.0 <= m.schedules[i].allocation
    requires a <= b
    ensures m.TotalUnlocked(a) <= m.TotalUnlocked(b)
  {
    forall i | 0 <= i < |m.schedules|
      ensures m.schedules[i].UnlockedTokens(a) <= m.schedules[i].UnlockedTokens(b)
    {
      UnlockedTokensMonotone(m.schedules[i], a, b);
    }
    SumPointwise(m.AllocationList(a), m.AllocationList(b));
  }

  /** A well-formed schedule with a non-negative allocation never takes
      tokens back. */
  lemma UnlockedTokensMonotone(s: VestingSchedule, a: real, b: real)
    requires s.WellFormed() && 0.0 <= s.allocation && a <= b
    ensures s.UnlockedTokens(a) <= s.UnlockedTokens(b)
  {
    FractionMonotone(s, a, b);
    UnlockedTokensOf(s, a);
    UnlockedTokensOf(s, b);
    ScaledOrder(s.allocation, s.UnlockedFraction(a), s.UnlockedFraction(b), s.UnlockedTokens(a), s.UnlockedTokens(b));
  }

  lemma UnlockedTokensOf(s: VestingSchedule, elapsed: real)
    ensures s.UnlockedTokens(elapsed) == s.allocation * s.UnlockedFraction(elapsed)
  {
  }

  lemma {:induction false} SumPointwise(s: seq<real>, t: seq<real>)
    requires |s| == |t| && forall i :: 0 <= i < |s| ==> s[i] <= t[i]
    ensures Sum(s) <= Sum(t)
  {
    if s != [] {
      SumPointwise(s[..|s| - 1], t[..|t| - 1]);
    }
  }
}
