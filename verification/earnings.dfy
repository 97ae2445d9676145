/** What a stake has earned, as a sum over the rewards table. */
module Earnings {
  import opened Rows
  import opened Protocol
  import opened Sums

  /** The r-th reward counts for stake `k` if it is that stake's. */
  function EarnedBy(rewards: seq<RewardRow>, k: nat): nat -> int {
    (r: nat) => if r < |rewards| && rewards[r].stake == k then rewards[r].amount else 0
  }

  lemma {:induction false} TotalOfFirst(rewards: seq<RewardRow>, k: nat, n: nat)
    requires n <= |rewards|
    ensures TotalRewards(rewards[..n], k) == Sum(EarnedBy(rewards, k), n)
  {
    if n > 0 {
      TotalOfFirst(rewards, k, n - 1);
      assert rewards[..n][..n - 1] == rewards[..n - 1];
    }
  }

  /** The stake's total is the sum of its own rewards, wherever they stand in the table. */
  lemma TotalIsSum(rewards: seq<RewardRow>, k: nat)
    ensures TotalRewards(rewards, k) == Sum((r: nat) => if r < |rewards| && rewards[r].stake == k then rewards[r].amount else 0, |rewards|)
    ensures TotalRewards(rewards, k) == Sum(EarnedBy(rewards, k), |rewards|)
  {
    var own: nat -> int := (r: nat) => if r < |rewards| && rewards[r].stake == k then rewards[r].amount else 0;
    TotalOfFirst(rewards, k, |rewards|);
    assert rewards[..|rewards|] == rewards;
    SumSame(own, EarnedBy(rewards, k), |rewards|);
  }

  /** The sum of what precedes the n-th reward does not depend on what follows it. */
  lemma SumOfFirst(rewards: seq<RewardRow>, k: nat, n: nat)
    requires n <= |rewards|
    ensures Sum(EarnedBy(rewards, k), n) == Sum(EarnedBy(rewards[..n], k), n)
  {
    SumSame(EarnedBy(rewards, k), EarnedBy(rewards[..n], k), n);
  }
}
