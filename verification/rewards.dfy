/** The rewards table and the credits it causes. */
module Rewards {
  import opened Rows
  import opened Protocol
  import opened Lifecycle
  import opened Phases
  import opened Locking
  import opened Agreement
  import opened Sums

  predicate HasReward(rewards: seq<RewardRow>, i: nat) {
    exists r :: 0 <= r < |rewards| && rewards[r].id == i
  }

  /** A recorded reward and the operation that recorded it: the credit is owed, made, or
      given up. */
  predicate RewardOk(op: Op, row: RewardRow, credited: nat, skipped: bool) {
    && op.Credit? && op.stake == row.stake && op.account == row.account && op.amount == row.amount && op.date == row.date
    && row.amount > 0
    && match op.dpc
       case ReadForCredit => credited == 0 && !skipped
       case WriteCredit(_) => credited == 0 && !skipped
       case CreditDone => credited <= 1 && (skipped <==> credited == 0)
       case _ => false
  }

  predicate Unrecorded(op: Op, credited: nat, skipped: bool) {
    op.Credit? ==>
      && (op.dpc.ReadTotal? || op.dpc.InsertReward? || op.dpc.CreditDone?) && credited == 0 && !skipped
      && (op.dpc.InsertReward? ==> op.amount > 0)
  }

  ghost predicate RecordedOk(s: State) {
    forall r :: 0 <= r < |s.db.rewards| ==>
      var i := s.db.rewards[r].id;
      i < |s.ops| && RewardOk(s.ops[i], s.db.rewards[r], Count(s.journal, i).credited, i in s.skipped)
  }

  ghost predicate UnrecordedOk(s: State) {
    forall i :: 0 <= i < |s.ops| && !HasReward(s.db.rewards, i) ==>
      Unrecorded(s.ops[i], Count(s.journal, i).credited, i in s.skipped)
  }

  /** UNIQUE(id) and UNIQUE(stake_id, reward_date). */
  predicate DistinctRewards(rewards: seq<RewardRow>) {
    forall p, q :: 0 <= p < q < |rewards| ==>
      rewards[p].id != rewards[q].id && !(rewards[p].stake == rewards[q].stake && rewards[p].date == rewards[q].date)
  }

  ghost predicate RewardInv(s: State) {
    DriftInv(s) && RecordedOk(s) && UnrecordedOk(s) && DistinctRewards(s.db.rewards)
  }

  // ---- One turn ------------------------------------------------------------------

  /** Only reward operations credit, record, or give up a credit. */
  predicate LeavesRewards(s: State, turn: Turn) {
    && !turn.effect.AddReward?
    && (turn.effect.WriteBalance? ==> !turn.effect.change.Credited?)
    && (turn.skip.Some? ==> turn.skip.value < |s.ops| && !s.ops[turn.skip.value].Credit?)
  }

  lemma CreateLeaves(db: Tables, i: nat, req: Request, pc: CreatePc, answer: Answer)
    ensures var (next, effect, skip) := NextCreate(db, i, req, pc, answer);
            !effect.AddReward? && (effect.WriteBalance? ==> !effect.change.Credited?)
  {
  }

  lemma ReconcileLeaves(db: Tables, st: StakeRow, pc: ReconcilePc, answer: Answer)
    ensures var (next, effect, skip) := NextReconcile(db, st, pc, answer);
            !effect.AddReward? && (effect.WriteBalance? ==> !effect.change.Credited?)
  {
  }

  lemma OthersLeave(s: State, i: nat, answer: Answer)
    requires PhaseInv(s) && i < |s.ops| && !s.ops[i].Credit?
    ensures LeavesRewards(s, Decide(s.db, i, s.ops[i], answer))
  {
    match s.ops[i]
    case Create(req, pc) =>
      CreateFacts(s, i, req, pc, answer);
      CreateLeaves(s.db, i, req, pc, answer);
    case Reconcile(st, pc) =>
      ReconcileFacts(s, i, st, pc);
      ReconcileShape(s.db, st, pc, answer);
      ReconcileLeaves(s.db, st, pc, answer);
    case _ =>
  }

  lemma RewardStays(s: State, i: nat, turn: Turn, k: nat)
    requires i < |s.ops| && !s.ops[i].Credit? && SameCall(s.ops[i], turn.op) && LeavesRewards(s, turn)
    requires k < |s.ops| && s.ops[k].Credit?
    ensures var t := Commit(s, i, turn);
            t.ops[k] == s.ops[k] && Count(t.journal, k).credited == Count(s.journal, k).credited && (k in t.skipped <==> k in s.skipped)
  {
    CountCommit(s, i, turn, k);
  }

  lemma RewardsStay(s: State, i: nat, turn: Turn)
    requires RecordedOk(s) && UnrecordedOk(s) && DistinctRewards(s.db.rewards)
    requires i < |s.ops| && !s.ops[i].Credit? && SameCall(s.ops[i], turn.op) && LeavesRewards(s, turn)
    ensures var t := Commit(s, i, turn); RecordedOk(t) && UnrecordedOk(t) && DistinctRewards(t.db.rewards)
  {
    var t := Commit(s, i, turn);
    forall r | 0 <= r < |t.db.rewards|
      ensures var k := t.db.rewards[r].id;
              k < |t.ops| && RewardOk(t.ops[k], t.db.rewards[r], Count(t.journal, k).credited, k in t.skipped)
    {
      RewardStays(s, i, turn, s.db.rewards[r].id);
    }
    forall k | 0 <= k < |t.ops| && !HasReward(t.db.rewards, k)
      ensures Unrecorded(t.ops[k], Count(t.journal, k).credited, k in t.skipped)
    {
      if s.ops[k].Credit? { RewardStays(s, i, turn, k); }
      assert Unrecorded(s.ops[k], Count(s.journal, k).credited, k in s.skipped);
    }
  }

  function RewardsAfter(rewards: seq<RewardRow>, effect: Effect): seq<RewardRow> {
    if effect.AddReward? then rewards + [effect.reward] else rewards
  }

  /** One turn of a reward operation, seen from its own reward. */
  lemma CreditTurn(db: Tables, i: nat, op: Op, answer: Answer, t: Tally, skipped: bool)
    requires op.Credit? && CreditTally(op.dpc, t)
    ensures var (next, effect, skip) := NextCredit(db, i, op, answer);
            var later := op.(dpc := next);
            && (effect.AddReward? ==> effect.reward.id == i && !Rewarded(db.rewards, op.stake, op.date)
                                      && effect.reward.stake == op.stake && effect.reward.date == op.date)
            && (effect.WriteBalance? ==> effect.change == Credited(i, op.amount) && effect.account == op.account && op.dpc.WriteCredit?)
            && (skip.Some? ==> skip.value == i)
            && (forall row :: RewardOk(op, row, t.credited, skipped) ==>
                  !effect.AddReward? && RewardOk(later, row, After(t, effect, i).credited, skipped || skip.Some?))
            && (Unrecorded(op, t.credited, skipped) ==>
                  if effect.AddReward? then RewardOk(later, effect.reward, t.credited, skipped)
                  else Unrecorded(later, After(t, effect, i).credited, skipped || skip.Some?))
  {
  }

  /** The turn of a reward operation. */
  function TurnOf(s: State, i: nat, answer: Answer): Turn
    requires i < |s.ops| && s.ops[i].Credit?
  {
    var (next, effect, skip) := NextCredit(s.db, i, s.ops[i], answer);
    Turn(s.ops[i].(dpc := next), effect, skip)
  }

  lemma HasAppend(rewards: seq<RewardRow>, row: RewardRow, k: nat)
    ensures HasReward(rewards + [row], k) <==> HasReward(rewards, k) || row.id == k
  {
    var more := rewards + [row];
    if HasReward(rewards, k) {
      var r :| 0 <= r < |rewards| && rewards[r].id == k;
      assert more[r].id == k;
    }
    assert more[|rewards|] == row;
  }

  lemma RecordsAfter(s: State, i: nat, answer: Answer, r: nat)
    requires RewardInv(s) && i < |s.ops| && s.ops[i].Credit?
    requires r < |s.db.rewards|
    ensures var t := Commit(s, i, TurnOf(s, i, answer));
            var k := s.db.rewards[r].id;
            k < |t.ops| && RewardOk(t.ops[k], s.db.rewards[r], Count(t.journal, k).credited, k in t.skipped)
  {
    var turn, k := TurnOf(s, i, answer), s.db.rewards[r].id;
    assert TallyOk(s.db.stakes, s.ops, i, Count(s.journal, i));
    CreditTurn(s.db, i, s.ops[i], answer, Count(s.journal, i), i in s.skipped);
    CountCommit(s, i, turn, k);
  }

  lemma UnrecordedAfter(s: State, i: nat, answer: Answer, k: nat)
    requires RewardInv(s) && i < |s.ops| && s.ops[i].Credit?
    requires k < |s.ops| && !HasReward(s.db.rewards, k)
    ensures var turn := TurnOf(s, i, answer);
            var t := Commit(s, i, turn);
            if k == i && turn.effect.AddReward? then RewardOk(t.ops[k], turn.effect.reward, Count(t.journal, k).credited, k in t.skipped)
            else Unrecorded(t.ops[k], Count(t.journal, k).credited, k in t.skipped)
  {
    var turn := TurnOf(s, i, answer);
    assert TallyOk(s.db.stakes, s.ops, i, Count(s.journal, i));
    assert Unrecorded(s.ops[k], Count(s.journal, k).credited, k in s.skipped);
    CreditTurn(s.db, i, s.ops[i], answer, Count(s.journal, i), i in s.skipped);
    CountCommit(s, i, turn, k);
  }

  lemma InsertFacts(s: State, i: nat, answer: Answer)
    requires RewardInv(s) && i < |s.ops| && s.ops[i].Credit?
    ensures var effect := TurnOf(s, i, answer).effect;
            effect.AddReward? ==>
              && effect.reward.id == i && !HasReward(s.db.rewards, i)
              && !Rewarded(s.db.rewards, effect.reward.stake, effect.reward.date)
  {
    assert TallyOk(s.db.stakes, s.ops, i, Count(s.journal, i));
    CreditTurn(s.db, i, s.ops[i], answer, Count(s.journal, i), i in s.skipped);
    if HasReward(s.db.rewards, i) {
      var r :| 0 <= r < |s.db.rewards| && s.db.rewards[r].id == i;
      assert RewardOk(s.ops[i], s.db.rewards[r], Count(s.journal, i).credited, i in s.skipped);
    }
  }

  lemma RecordedCommit(s: State, i: nat, answer: Answer)
    requires RewardInv(s) && i < |s.ops| && s.ops[i].Credit?
    ensures RecordedOk(Commit(s, i, TurnOf(s, i, answer)))
  {
    var turn := TurnOf(s, i, answer);
    var t, n := Commit(s, i, turn), |s.db.rewards|;
    InsertFacts(s, i, answer);
    assert t.db.rewards == RewardsAfter(s.db.rewards, turn.effect);
    forall r | 0 <= r < |t.db.rewards|
      ensures var k := t.db.rewards[r].id;
              k < |t.ops| && RewardOk(t.ops[k], t.db.rewards[r], Count(t.journal, k).credited, k in t.skipped)
    {
      if r < n { RecordsAfter(s, i, answer, r); } else { UnrecordedAfter(s, i, answer, i); }
    }
  }

  lemma UnrecordedCommit(s: State, i: nat, answer: Answer)
    requires RewardInv(s) && i < |s.ops| && s.ops[i].Credit?
    ensures UnrecordedOk(Commit(s, i, TurnOf(s, i, answer)))
  {
    var turn := TurnOf(s, i, answer);
    var t := Commit(s, i, turn);
    InsertFacts(s, i, answer);
    assert t.db.rewards == RewardsAfter(s.db.rewards, turn.effect);
    forall k | 0 <= k < |t.ops| && !HasReward(t.db.rewards, k)
      ensures Unrecorded(t.ops[k], Count(t.journal, k).credited, k in t.skipped)
    {
      if turn.effect.AddReward? { HasAppend(s.db.rewards, turn.effect.reward, k); }
      UnrecordedAfter(s, i, answer, k);
    }
  }

  lemma CreditCommit(s: State, i: nat, answer: Answer)
    requires RewardInv(s) && i < |s.ops| && s.ops[i].Credit?
    ensures var t := Commit(s, i, TurnOf(s, i, answer));
            RecordedOk(t) && UnrecordedOk(t) && DistinctRewards(t.db.rewards)
  {
    var turn := TurnOf(s, i, answer);
    RecordedCommit(s, i, answer);
    UnrecordedCommit(s, i, answer);
    InsertFacts(s, i, answer);
    DistinctAfter(s.db.rewards, i, turn.effect);
    assert Commit(s, i, turn).db.rewards == RewardsAfter(s.db.rewards, turn.effect);
  }

  lemma DistinctAfter(rewards: seq<RewardRow>, i: nat, effect: Effect)
    requires DistinctRewards(rewards)
    requires effect.AddReward? ==>
      effect.reward.id == i && !HasReward(rewards, i) && !Rewarded(rewards, effect.reward.stake, effect.reward.date)
    ensures DistinctRewards(RewardsAfter(rewards, effect))
  {
  }

  lemma RewardStep(s: State, e: Event)
    requires RewardInv(s)
    ensures RewardInv(Step(s, e))
  {
    match e
    case Begin(call) =>
      DriftBegin(s, call);
      RewardBegin(s, call);
    case Advance(i, answer) =>
      if i < |s.ops| {
        DriftAdvance(s, i, answer);
        if s.ops[i].Credit? {
          CreditCommit(s, i, answer);
        } else {
          OthersLeave(s, i, answer);
          EveryTurn(s, i, answer);
          RewardsStay(s, i, Decide(s.db, i, s.ops[i], answer));
        }
      }
  }

  lemma RewardBegin(s: State, call: Call)
    requires RewardInv(s)
    ensures var t := Step(s, Begin(call)); RecordedOk(t) && UnrecordedOk(t) && DistinctRewards(t.db.rewards)
  {
    var t, n := Step(s, Begin(call)), |s.ops|;
    assert TallyOk(s.db.stakes, s.ops, n, Count(s.journal, n));
    forall k | 0 <= k < |t.ops| && !HasReward(t.db.rewards, k)
      ensures Unrecorded(t.ops[k], Count(t.journal, k).credited, k in t.skipped)
    {
      if k < n { assert Unrecorded(s.ops[k], Count(s.journal, k).credited, k in s.skipped); }
    }
  }

  lemma {:induction false} RewardsHold(events: seq<Event>)
    ensures RewardInv(Run(events))
  {
    if events == [] {
      DriftsHold([]);
    } else {
      var before := events[..|events| - 1];
      RewardsHold(before);
      RewardStep(Run(before), events[|events| - 1]);
    }
  }

  // ---- Credited against recorded -------------------------------------------------

  /** Rewards credited to a row, by its committed writes. */
  function CreditsOf(journal: seq<Entry>, a: Account): int {
    if journal == [] then 0
    else
      var e := journal[|journal| - 1];
      CreditsOf(journal[..|journal| - 1], a) + (if e.account == a && e.change.Credited? then e.change.amount else 0)
  }

  function RecordedAmount(s: State, a: Account, r: nat): int {
    if r < |s.db.rewards| && s.db.rewards[r].account == a then s.db.rewards[r].amount else 0
  }

  function CreditedAmount(s: State, a: Account, r: nat): int {
    if r < |s.db.rewards| && Count(s.journal, s.db.rewards[r].id).credited == 1 then RecordedAmount(s, a, r) else 0
  }

  function RecordedPart(s: State, a: Account): nat -> int {
    (r: nat) => RecordedAmount(s, a, r)
  }

  function CreditedPart(s: State, a: Account): nat -> int {
    (r: nat) => CreditedAmount(s, a, r)
  }

  ghost predicate CreditsAccounted(s: State) {
    forall a :: CreditsOf(s.journal, a) == Sum(CreditedPart(s, a), |s.db.rewards|)
  }

  lemma CreditsAfter(journal: seq<Entry>, e: Entry, a: Account)
    ensures CreditsOf(journal + [e], a) == CreditsOf(journal, a) + (if e.account == a && e.change.Credited? then e.change.amount else 0)
  {
    assert (journal + [e])[..|journal|] == journal;
  }

  lemma CreditsCommit(s: State, i: nat, turn: Turn, a: Account)
    requires i < |s.ops|
    ensures var e := turn.effect;
            var more := if e.WriteBalance? && e.account == a && e.change.Credited? then e.change.amount else 0;
            CreditsOf(Commit(s, i, turn).journal, a) == CreditsOf(s.journal, a) + more
  {
    if turn.effect.WriteBalance? { CreditsAfter(s.journal, Entry(turn.effect.account, turn.effect.change), a); }
  }

  /** A step that does not credit leaves the credited parts alone. */
  lemma SumStays(s: State, i: nat, turn: Turn, a: Account)
    requires i < |s.ops| && CreditsOf(s.journal, a) == Sum(CreditedPart(s, a), |s.db.rewards|)
    requires turn.effect.WriteBalance? ==> !turn.effect.change.Credited?
    requires turn.effect.AddReward? ==> Count(s.journal, turn.effect.reward.id).credited == 0
    ensures var t := Commit(s, i, turn); CreditsOf(t.journal, a) == Sum(CreditedPart(t, a), |t.db.rewards|)
  {
    var t, n := Commit(s, i, turn), |s.db.rewards|;
    CreditsCommit(s, i, turn, a);
    forall r: nat | 0 <= r < n ensures CreditedPart(s, a)(r) == CreditedPart(t, a)(r) {
      CountCommit(s, i, turn, s.db.rewards[r].id);
    }
    SumSame(CreditedPart(s, a), CreditedPart(t, a), n);
    if turn.effect.AddReward? { CountCommit(s, i, turn, turn.effect.reward.id); }
  }

  lemma SumCredits(s: State, i: nat, turn: Turn, r: nat, a: Account)
    requires i < |s.ops| && CreditsOf(s.journal, a) == Sum(CreditedPart(s, a), |s.db.rewards|)
    requires r < |s.db.rewards| && s.db.rewards[r].id == i && DistinctRewards(s.db.rewards)
    requires turn.effect.WriteBalance? && turn.effect.change == Credited(i, s.db.rewards[r].amount)
    requires turn.effect.account == s.db.rewards[r].account && Count(s.journal, i).credited == 0
    ensures var t := Commit(s, i, turn); CreditsOf(t.journal, a) == Sum(CreditedPart(t, a), |t.db.rewards|)
  {
    var t, n := Commit(s, i, turn), |s.db.rewards|;
    CreditsCommit(s, i, turn, a);
    forall q: nat | 0 <= q < n && q != r ensures CreditedPart(s, a)(q) == CreditedPart(t, a)(q) {
      CountCommit(s, i, turn, s.db.rewards[q].id);
    }
    CountCommit(s, i, turn, i);
    SumChange(CreditedPart(s, a), CreditedPart(t, a), n, r);
  }

  lemma CreditsStep(s: State, i: nat, answer: Answer)
    requires RewardInv(s) && CreditsAccounted(s) && i < |s.ops| && s.ops[i].Credit?
    ensures CreditsAccounted(Commit(s, i, TurnOf(s, i, answer)))
  {
    var turn, op := TurnOf(s, i, answer), s.ops[i];
    InsertFacts(s, i, answer);
    assert TallyOk(s.db.stakes, s.ops, i, Count(s.journal, i));
    CreditTurn(s.db, i, op, answer, Count(s.journal, i), i in s.skipped);
    forall a ensures var t := Commit(s, i, turn); CreditsOf(t.journal, a) == Sum(CreditedPart(t, a), |t.db.rewards|) {
      if turn.effect.WriteBalance? {
        assert HasReward(s.db.rewards, i);
        var r :| 0 <= r < |s.db.rewards| && s.db.rewards[r].id == i;
        SumCredits(s, i, turn, r, a);
      } else {
        SumStays(s, i, turn, a);
      }
    }
  }

  lemma AccountedBegin(s: State, call: Call, a: Account)
    requires CreditsOf(s.journal, a) == Sum(CreditedPart(s, a), |s.db.rewards|)
    ensures var t := Step(s, Begin(call)); CreditsOf(t.journal, a) == Sum(CreditedPart(t, a), |t.db.rewards|)
  {
    SumSame(CreditedPart(s, a), CreditedPart(Step(s, Begin(call)), a), |s.db.rewards|);
  }

  lemma AccountedOther(s: State, i: nat, turn: Turn)
    requires CreditsAccounted(s) && i < |s.ops| && LeavesRewards(s, turn)
    ensures CreditsAccounted(Commit(s, i, turn))
  {
    forall a ensures var t := Commit(s, i, turn); CreditsOf(t.journal, a) == Sum(CreditedPart(t, a), |t.db.rewards|) {
      SumStays(s, i, turn, a);
    }
  }

  lemma AccountedStep(s: State, e: Event)
    requires RewardInv(s) && CreditsAccounted(s)
    ensures CreditsAccounted(Step(s, e))
  {
    match e
    case Begin(call) =>
      forall a ensures var t := Step(s, e); CreditsOf(t.journal, a) == Sum(CreditedPart(t, a), |t.db.rewards|) {
        AccountedBegin(s, call, a);
      }
    case Advance(i, answer) =>
      if i < |s.ops| {
        if s.ops[i].Credit? { CreditsStep(s, i, answer); }
        else {
          OthersLeave(s, i, answer);
          AccountedOther(s, i, Decide(s.db, i, s.ops[i], answer));
        }
      }
  }

  lemma {:induction false} CreditsHold(events: seq<Event>)
    ensures CreditsAccounted(Run(events))
  {
    if events == [] {
      forall a ensures CreditsOf(Run([]).journal, a) == Sum(CreditedPart(Run([]), a), |Run([]).db.rewards|) {}
    } else {
      var before := events[..|events| - 1];
      RewardsHold(before);
      CreditsHold(before);
      AccountedStep(Run(before), events[|events| - 1]);
    }
  }

  /** What is credited to a row never exceeds the rewards recorded for it. */
  lemma CreditedWithinRecorded(events: seq<Event>, a: Account)
    ensures var s := Run(events); CreditsOf(s.journal, a) <= Sum(RecordedPart(s, a), |s.db.rewards|)
  {
    RewardsHold(events);
    CreditsHold(events);
    var s := Run(events);
    SumAtMost(CreditedPart(s, a), RecordedPart(s, a), |s.db.rewards|);
  }

  predicate NoneLost(s: State, a: Account) {
    forall r :: 0 <= r < |s.db.rewards| && s.db.rewards[r].account == a ==> s.db.rewards[r].id !in s.skipped
  }

  lemma SettledReward(s: State, r: nat)
    requires RecordedOk(s) && Quiescent(s) && r < |s.db.rewards|
    ensures s.db.rewards[r].amount > 0
    ensures s.db.rewards[r].id in s.skipped <==> Count(s.journal, s.db.rewards[r].id).credited != 1
  {
    assert Finished(s.ops[s.db.rewards[r].id]);
  }

  lemma AllCreditedAtRest(s: State, a: Account)
    requires RecordedOk(s) && CreditsAccounted(s) && Quiescent(s)
    ensures CreditsOf(s.journal, a) == Sum(RecordedPart(s, a), |s.db.rewards|) <==> NoneLost(s, a)
  {
    var n := |s.db.rewards|;
    forall r: nat | 0 <= r < n
      ensures CreditedPart(s, a)(r) == if s.db.rewards[r].id in s.skipped then 0 else RecordedPart(s, a)(r)
      ensures RecordedPart(s, a)(r) >= 0 && (s.db.rewards[r].account == a ==> RecordedPart(s, a)(r) > 0)
    {
      SettledReward(s, r);
    }
    if NoneLost(s, a) {
      SumSame(CreditedPart(s, a), RecordedPart(s, a), n);
    } else {
      var r :| 0 <= r < n && s.db.rewards[r].account == a && s.db.rewards[r].id in s.skipped;
      SumLess(CreditedPart(s, a), RecordedPart(s, a), n, r);
    }
  }

  /** At rest all recorded rewards are credited if and only if no credit was given up. */
  lemma AllCreditedIff(events: seq<Event>, a: Account)
    requires Quiescent(Run(events))
    ensures var s := Run(events);
            CreditsOf(s.journal, a) == Sum(RecordedPart(s, a), |s.db.rewards|) <==> NoneLost(s, a)
  {
    RewardsHold(events);
    CreditsHold(events);
    AllCreditedAtRest(Run(events), a);
  }

  /** The same reward date of a stake is recorded once and credited at most once. */
  lemma CreditedOncePerDate(events: seq<Event>, p: nat, q: nat)
    requires var rewards := Run(events).db.rewards;
             p < |rewards| && q < |rewards| && rewards[p].stake == rewards[q].stake && rewards[p].date == rewards[q].date
    ensures p == q && Count(Run(events).journal, Run(events).db.rewards[p].id).credited <= 1
  {
    RewardsHold(events);
    var s := Run(events);
    assert RewardOk(s.ops[s.db.rewards[p].id], s.db.rewards[p], Count(s.journal, s.db.rewards[p].id).credited, s.db.rewards[p].id in s.skipped);
  }
}
