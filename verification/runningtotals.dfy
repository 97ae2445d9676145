/** The running totals that rewards carry when a single poller records them. */
module RunningTotals {
  import opened Rows
  import opened Protocol
  import opened Rewards
  import opened Earnings
  import opened Sums

  predicate Crediting(op: Op) {
    op.Credit? && !op.dpc.CreditDone?
  }

  /** A single poller: an entry is begun only when no other is being processed, and the
      total query fails only while the stake has no rewards. */
  predicate SoloStep(s: State, e: Event) {
    match e
    case Begin(CallCredit(_, _, _, _)) => forall i :: 0 <= i < |s.ops| ==> !Crediting(s.ops[i])
    case Advance(i, answer) =>
      i < |s.ops| && s.ops[i].Credit? && s.ops[i].dpc.ReadTotal? && answer != Fine ==>
        forall r :: 0 <= r < |s.db.rewards| ==> s.db.rewards[r].stake != s.ops[i].stake
    case _ => true
  }

  predicate SoloFrom(s: State, events: seq<Event>) {
    events == [] ||
    (var before := events[..|events| - 1];
     SoloFrom(s, before) && SoloStep(RunFrom(s, before), events[|events| - 1]))
  }

  /** The r-th reward carries the sum of its stake's rewards up to and including itself. */
  ghost predicate Cumulative(rewards: seq<RewardRow>) {
    forall r :: 0 <= r < |rewards| ==> rewards[r].cumulative == Sum(EarnedBy(rewards, rewards[r].stake), r + 1)
  }

  ghost predicate SoloInv(s: State) {
    && Cumulative(s.db.rewards)
    && (forall i, j :: 0 <= i < |s.ops| && 0 <= j < |s.ops| && Crediting(s.ops[i]) && Crediting(s.ops[j]) ==> i == j)
    && (forall i :: 0 <= i < |s.ops| && s.ops[i].Credit? && s.ops[i].dpc.InsertReward? ==>
          s.ops[i].dpc.cumulative == TotalRewards(s.db.rewards, s.ops[i].stake) + s.ops[i].amount)
  }

  lemma {:induction false} NoRewardsNoTotal(rewards: seq<RewardRow>, k: nat)
    requires forall r :: 0 <= r < |rewards| ==> rewards[r].stake != k
    ensures TotalRewards(rewards, k) == 0
  {
    if rewards != [] { NoRewardsNoTotal(rewards[..|rewards| - 1], k); }
  }

  lemma CumulativeAppend(rewards: seq<RewardRow>, row: RewardRow)
    requires Cumulative(rewards) && row.cumulative == TotalRewards(rewards, row.stake) + row.amount
    ensures Cumulative(rewards + [row])
  {
    var more, n := rewards + [row], |rewards|;
    TotalIsSum(rewards, row.stake);
    forall r | 0 <= r < |more| ensures more[r].cumulative == Sum(EarnedBy(more, more[r].stake), r + 1) {
      SumSame(EarnedBy(rewards, more[r].stake), EarnedBy(more, more[r].stake), if r < n then r + 1 else n);
    }
  }

  lemma OthersRecordNothing(db: Tables, i: nat, op: Op, answer: Answer)
    requires !op.Credit?
    ensures !Decide(db, i, op, answer).effect.AddReward? && !Decide(db, i, op, answer).op.Credit?
  {
    match op
    case Create(req, pc) => CreateLeaves(db, i, req, pc, answer);
    case Reconcile(st, pc) => ReconcileLeaves(db, st, pc, answer);
    case _ =>
  }

  lemma SoloCredit(s: State, i: nat, answer: Answer)
    requires SoloInv(s) && i < |s.ops| && s.ops[i].Credit? && SoloStep(s, Advance(i, answer))
    ensures SoloInv(Commit(s, i, TurnOf(s, i, answer)))
  {
    var op, turn := s.ops[i], TurnOf(s, i, answer);
    if op.dpc.ReadTotal? && answer != Fine { NoRewardsNoTotal(s.db.rewards, op.stake); }
    if turn.effect.AddReward? { CumulativeAppend(s.db.rewards, turn.effect.reward); }
  }

  lemma SoloOther(s: State, i: nat, turn: Turn)
    requires SoloInv(s) && i < |s.ops| && !s.ops[i].Credit? && !turn.op.Credit? && !turn.effect.AddReward?
    ensures SoloInv(Commit(s, i, turn))
  {
    assert Commit(s, i, turn).db.rewards == s.db.rewards;
  }

  lemma SoloBegin(s: State, call: Call)
    requires SoloInv(s) && SoloStep(s, Begin(call))
    ensures SoloInv(Step(s, Begin(call)))
  {
  }

  lemma SoloKeeps(s: State, e: Event)
    requires SoloInv(s) && SoloStep(s, e)
    ensures SoloInv(Step(s, e))
  {
    match e
    case Begin(call) => SoloBegin(s, call);
    case Advance(i, answer) =>
      if i < |s.ops| {
        if s.ops[i].Credit? {
          SoloCredit(s, i, answer);
        } else {
          OthersRecordNothing(s.db, i, s.ops[i], answer);
          SoloOther(s, i, Decide(s.db, i, s.ops[i], answer));
        }
      }
  }

  lemma {:induction false} SoloHolds(events: seq<Event>)
    requires SoloFrom(Empty(), events)
    ensures SoloInv(Run(events))
  {
    if events != [] {
      var before := events[..|events| - 1];
      SoloHolds(before);
      SoloKeeps(Run(before), events[|events| - 1]);
    }
  }

  lemma CumulativeIncreases(rewards: seq<RewardRow>, p: nat, q: nat)
    requires Cumulative(rewards) && p < q < |rewards| && rewards[p].stake == rewards[q].stake
    requires forall r :: 0 <= r < |rewards| ==> rewards[r].amount > 0
    ensures rewards[p].cumulative < rewards[q].cumulative
  {
    SumGrows(EarnedBy(rewards, rewards[q].stake), p + 1, q);
  }

  /** With a single poller the i-th reward inserted for a stake carries the sum of the stake's
      first i amounts, so the cumulative amounts of a stake strictly increase. */
  lemma CumulativeAmounts(events: seq<Event>)
    requires SoloFrom(Empty(), events)
    ensures var rewards := Run(events).db.rewards;
            && (forall r :: 0 <= r < |rewards| ==> rewards[r].cumulative == Sum(EarnedBy(rewards, rewards[r].stake), r + 1))
            && forall p, q :: 0 <= p < q < |rewards| && rewards[p].stake == rewards[q].stake ==>
                 rewards[p].cumulative < rewards[q].cumulative
  {
    SoloHolds(events);
    RewardsHold(events);
    var rewards := Run(events).db.rewards;
    forall r | 0 <= r < |rewards| ensures rewards[r].amount > 0 { AmountPositive(Run(events), r); }
    forall p, q | 0 <= p < q < |rewards| && rewards[p].stake == rewards[q].stake
      ensures rewards[p].cumulative < rewards[q].cumulative
    {
      CumulativeIncreases(rewards, p, q);
    }
  }

  lemma AmountPositive(s: State, r: nat)
    requires RecordedOk(s) && r < |s.db.rewards|
    ensures s.db.rewards[r].amount > 0
  {
  }
}
