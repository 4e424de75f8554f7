/** The user population (user_pool.py): tier counts by truncation, users
    appended with sequential ids, an in-place shuffle, stepping every user
    and filtering the active ones. The lognormal wealth draws, the Poisson
    interaction-rate draws and the shuffle's swap positions are passed in. */
module UserPool {
  import opened Common
  import opened AirdropPolicy
  import opened Users

  /** How many users of each kind `generate_users` creates. */
  datatype TierCounts = TierCounts(small: nat, medium: nat, large: nat, sybil: nat)

  /** `int(n * 0.3)` sybils; of the rest `int(r * 0.6)` small, `int(r * 0.3)`
      medium and the remainder large. */
  function CountsFor(n: nat): (c: TierCounts)
    ensures c.small + c.medium + c.large + c.sybil == n
  {
    var sybil := n * 3 / 10;
    var regular := n - sybil;
    var small := regular * 6 / 10;
    var medium := regular * 3 / 10;
    TierCounts(small, medium, regular - small - medium, sybil)
  }

  /** The kind of the user created `k`-th: small users first, then medium,
      large and finally sybils. */
  function KindAt(c: TierCounts, k: nat): (kind: Kind)
    ensures kind.Sybil? || kind.size in {"small", "medium", "large"}
  {
    if k < c.small then Regular("small")
    else if k < c.small + c.medium then Regular("medium")
    else if k < c.small + c.medium + c.large then Regular("large")
    else Sybil
  }

  /** Every kind the pool creates is a known size or a sybil, so every
      created user takes its Poisson draw as interaction rate, never the
      fallback 1. */
  lemma CreatedRateIsDraw(c: TierCounts, k: nat, draw: nat)
    ensures InitialInteractionRate(KindAt(c, k), draw) == draw
  {
  }

  /** The counts are the truncations of 30%, 60% and 30%. */
  lemma CountsAreTruncations(n: nat)
    ensures var c := CountsFor(n); var regular := n - c.sybil;
      10 * c.sybil <= 3 * n < 10 * c.sybil + 10
      && 10 * c.small <= 6 * regular < 10 * c.small + 10
      && 10 * c.medium <= 3 * regular < 10 * c.medium + 10
      && regular == c.small + c.medium + c.large
  {
  }

  /** No users gives no users of any kind; 1000 users split into 420
      small, 210 medium, 70 large and 300 sybils. */
  lemma CountsExamples(n: nat)
    ensures n == 0 ==> CountsFor(n) == TierCounts(0, 0, 0, 0)
    ensures n == 1000 ==> CountsFor(n) == TierCounts(420, 210, 70, 300)
  {
    CountsAreTruncations(n);
  }

  /** The users numbered `|users|` to `|users| + count - 1`, appended in
      order: one `for w in wealth_...` loop of `generate_users`. */
  method AppendUsers(users: seq<User>, kind: Kind, count: nat, policy: Policy,
                     wealth: seq<real>, rates: seq<nat>) returns (users': seq<User>)
    requires |users| + count <= |wealth| && |users| + count <= |rates|
    ensures |users'| == |users| + count && users'[..|users|] == users
    ensures forall k :: |users| <= k < |users'| ==>
      fresh(users'[k]) && users'[k].userId == k && users'[k].kind == kind
      && users'[k].wealth == wealth[k] && users'[k].policy == policy
      && users'[k].interactionRate == InitialInteractionRate(kind, rates[k])
      && users'[k].State() == InitialState
  {
    users' := users;
    var userId := |users|;
    while userId < |users| + count
      invariant |users| <= userId <= |users| + count && |users'| == userId
      invariant users'[..|users|] == users
      invariant forall k :: |users| <= k < userId ==>
        fresh(users'[k]) && users'[k].userId == k && users'[k].kind == kind
        && users'[k].wealth == wealth[k] && users'[k].policy == policy
        && users'[k].interactionRate == InitialInteractionRate(kind, rates[k])
        && users'[k].State() == InitialState
    {
      var u := new User(userId, wealth[userId], kind, Some(policy), rates[userId]);
      users' := users' + [u];
      userId := userId + 1;
    }
  }

  /** The users of `generate_users` before the shuffle, in creation order. */
  method CreateUsers(n: nat, policy: Policy, wealth: seq<real>, rates: seq<nat>) returns (created: seq<User>)
    requires |wealth| == n && |rates| == n
    ensures |created| == n
    ensures forall k :: 0 <= k < n ==>
      fresh(created[k]) && created[k].userId == k && created[k].kind == KindAt(CountsFor(n), k)
      && created[k].wealth == wealth[k] && created[k].policy == policy
      && created[k].interactionRate == InitialInteractionRate(created[k].kind, rates[k])
      && created[k].State() == InitialState
  {
    var c := CountsFor(n);
    var small := AppendUsers([], Regular("small"), c.small, policy, wealth, rates);
    var medium := AppendUsers(small, Regular("medium"), c.medium, policy, wealth, rates);
    assert forall k :: 0 <= k < |small| ==> medium[k] == medium[..|small|][k];
    var large := AppendUsers(medium, Regular("large"), c.large, policy, wealth, rates);
    assert forall k :: 0 <= k < |medium| ==> large[k] == large[..|medium|][k];
    created := AppendUsers(large, Sybil, c.sybil, policy, wealth, rates);
    assert forall k :: 0 <= k < |large| ==> created[k] == created[..|large|][k];
  }

  /** `perm` is a permutation of 0..n-1 and `inv` its inverse. */
  ghost predicate IsPermutation(perm: seq<nat>, inv: seq<nat>, n: nat) {
    |perm| == n && |inv| == n
    && (forall k :: 0 <= k < n ==> perm[k] < n && inv[perm[k]] == k)
    && (forall m :: 0 <= m < n ==> inv[m] < n && perm[inv[m]] == m)
  }

  /** `np.random.shuffle`: the Fisher-Yates shuffle, which for `i` from
      `n - 1` down to 1 swaps position `i` with a position `swaps[i] <= i`
      (drawn uniformly by numpy, given here). */
  method Shuffle<T>(s: seq<T>, swaps: seq<nat>) returns (t: seq<T>, ghost perm: seq<nat>, ghost inv: seq<nat>)
    requires |swaps| == |s| && forall i :: 0 <= i < |s| ==> swaps[i] <= i
    ensures |t| == |s| && multiset(t) == multiset(s)
    ensures IsPermutation(perm, inv, |s|)
    ensures forall k :: 0 <= k < |s| ==> t[k] == s[perm[k]]
  {
    var n := |s|;
    t := s;
    perm := seq(n, k => k);
    inv := seq(n, k => k);
    var i := n;
    while i > 1
      invariant 0 <= i <= n && |t| == n
      invariant IsPermutation(perm, inv, n)
      invariant forall k :: 0 <= k < n ==> t[k] == s[perm[k]]
      invariant multiset(t) == multiset(s)
    {
      i := i - 1;
      var j := swaps[i];
      var a, b := perm[i], perm[j];
      t := t[i := t[j]][j := t[i]];
      perm := perm[i := b][j := a];
      inv := inv[a := j][b := i];
    }
  }

  /** The ids of `users` are exactly 0..n-1, each carried by one user. */
  ghost predicate IdsExactly(users: seq<User>, n: nat) {
    |users| == n
    && (forall k :: 0 <= k < n ==> users[k].userId < n)
    && (forall i, j :: 0 <= i < j < n ==> users[i].userId != users[j].userId)
    && (forall id :: 0 <= id < n ==> id in IdSet(users))
  }

  /** The ids carried by `users`. */
  function IdSet(users: seq<User>): set<nat> {
    set k | 0 <= k < |users| :: users[k].userId
  }

  class UserPool {
    const numUsers: nat
    const policy: Policy
    var users: seq<User>

    /** Every user carries the pool's policy, and the ids are 0..n-1. */
    ghost predicate Valid()
      reads this
    {
      IdsExactly(users, numUsers)
      && forall k :: 0 <= k < |users| ==> users[k].policy == policy
    }

    /** `UserPool(num_users, airdrop_policy)`: `generate_users` followed by
        the shuffle. A missing policy defaults to the base policy. The
        `k`-th wealth and rate draws belong to the user with id `k`. */
    constructor(numUsers: nat, policy: Option<Policy>, wealth: seq<real>, rates: seq<nat>, swaps: seq<nat>)
      requires |wealth| == numUsers && |rates| == numUsers && |swaps| == numUsers
      requires forall i :: 0 <= i < numUsers ==> swaps[i] <= i
      ensures this.numUsers == numUsers && this.policy == (if policy.Some? then policy.value else Identity)
      ensures Valid()
      ensures forall k :: 0 <= k < numUsers ==>
        var id := users[k].userId;
        fresh(users[k]) && users[k].kind == KindAt(CountsFor(numUsers), id)
        && users[k].wealth == wealth[id]
        && users[k].interactionRate == rates[id]
        && users[k].State() == InitialState
    {
      var chosen := if policy.Some? then policy.value else Identity;
      var created := CreateUsers(numUsers, chosen, wealth, rates);
      var shuffled, perm, inv := Shuffle(created, swaps);
      this.numUsers := numUsers;
      this.policy := chosen;
      users := shuffled;
      new;
      forall id | 0 <= id < numUsers
        ensures id in IdSet(users)
      {
        assert users[inv[id]].userId == id;
      }
    }

    /** `step_all(phase)`: every user takes one step, `draws[k]` being the
        draw of the user at position `k`. */
    method StepAll(phase: Phase, draws: seq<real>, exp: real -> real)
      requires Valid() && (phase.Tge? ==> forall k :: 0 <= k < |users| ==> ValidAt(policy, users[k].airdropPoints))
      requires |draws| == |users| && forall k :: 0 <= k < |draws| ==> IsUnit(draws[k])
      modifies users
      ensures Valid() && users == old(users)
      ensures forall k :: 0 <= k < |users| ==>
        users[k].State() == NextState(users[k].kind, users[k].interactionRate, policy, exp, phase, draws[k],
                                      old(users[k].State()))
    {
      for i := 0 to |users|
        invariant forall k :: 0 <= k < i ==>
          users[k].State() == NextState(users[k].kind, users[k].interactionRate, policy, exp, phase, draws[k],
                                        old(users[k].State()))
        invariant forall k :: i <= k < |users| ==> users[k].State() == old(users[k].State())
      {
        users[i].Step(phase, draws[i], exp);
      }
    }

    /** `get_active_users`. */
    function ActiveUsers(): (r: seq<User>)
      reads this, users
      ensures forall k :: 0 <= k < |r| ==> r[k] in users && r[k].active
      ensures forall k :: 0 <= k < |users| && users[k].active ==> users[k] in r
    {
      ActiveOf(users)
    }
  }

  /** The active users of `us`, in order. */
  function ActiveOf(us: seq<User>): (r: seq<User>)
    reads us
    ensures |r| <= |us|
    ensures forall k :: 0 <= k < |r| ==> r[k] in us && r[k].active
    ensures forall k :: 0 <= k < |us| && us[k].active ==> us[k] in r
  {
    if us == [] then []
    else (if us[0].active then [us[0]] else []) + ActiveOf(us[1..])
  }

  /** Filtering distributes over concatenation, so the active users keep
      their pool order. */
  lemma {:induction false} ActiveOfAppend(us: seq<User>, vs: seq<User>)
    ensures ActiveOf(us + vs) == ActiveOf(us) + ActiveOf(vs)
  {
    if us != [] {
      assert (us + vs)[0] == us[0] && (us + vs)[1..] == us[1..] + vs;
      ActiveOfAppend(us[1..], vs);
    } else {
      assert us + vs == vs;
    }
  }

  /** With every user active, all of them are returned. */
  lemma {:induction false} ActiveOfAll(us: seq<User>)
    requires forall k :: 0 <= k < |us| ==> us[k].active
    ensures ActiveOf(us) == us
  {
    if us != [] {
      var rest := us[1..];
      assert forall k :: 0 <= k < |rest| ==> rest[k] == us[k + 1];
      ActiveOfAll(rest);
      assert us[0].active;
      assert ActiveOf(us) == [us[0]] + ActiveOf(rest);
      assert us == [us[0]] + rest;
    }
  }

  /** With no user active, none is returned. */
  lemma {:induction false} ActiveOfNone(us: seq<User>)
    requires forall k :: 0 <= k < |us| ==> !us[k].active
    ensures ActiveOf(us) == []
  {
    if us != [] {
      var rest := us[1..];
      assert forall k :: 0 <= k < |rest| ==> rest[k] == us[k + 1];
      ActiveOfNone(rest);
    }
  }
}
