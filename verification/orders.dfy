/** What the provider is asked for, and what is tried after each answer or write that obliges. */
module Orders {
  import opened Rows
  import opened Protocol
  import opened Calls
  import opened Lifecycle

  // ---- Orders to the provider ----------------------------------------------------

  /** An order to stake names a stored stake, its asset and its amount; an order to unstake
      names the reference of a stake that is active or has been. */
  ghost predicate OrderFits(stakes: map<nat, StakeRow>, call: ProviderCall) {
    match call
    case AskedToStake(k, asset, amount) => k in stakes && stakes[k].account.asset == asset && stakes[k].amount == amount
    case AskedToUnstake(ref) => exists k :: k in stakes && stakes[k].providerRef == ref && Confirmed(stakes[k].state)
  }

  predicate Confirmed(state: StakeState) {
    state == Active || state == Unstaking || state == Withdrawn
  }

  ghost predicate AllFit(stakes: map<nat, StakeRow>, asked: seq<ProviderCall>) {
    forall p :: 0 <= p < |asked| ==> OrderFits(stakes, asked[p])
  }

  lemma ConfirmedStays(x: StakeRow, y: StakeRow)
    requires Lockstep(x) && Lockstep(y) && Confirmed(x.state) && (y == x || Edge(x, y))
    ensures Confirmed(y.state) && y.providerRef == x.providerRef
  {
  }

  lemma FitStays(s: State, t: State, call: ProviderCall)
    requires StakeInv(s) && StakeInv(t) && Evolves(s.db.stakes, t.db.stakes) && OrderFits(s.db.stakes, call)
    ensures OrderFits(t.db.stakes, call)
  {
    if call.AskedToUnstake? {
      var k :| k in s.db.stakes && s.db.stakes[k].providerRef == call.ref && Confirmed(s.db.stakes[k].state);
      assert RowOk(s.ops, k, s.db.stakes[k]) && RowOk(t.ops, k, t.db.stakes[k]);
      ConfirmedStays(s.db.stakes[k], t.db.stakes[k]);
    }
  }

  lemma NewOrderFits(s: State, i: nat, answer: Answer)
    requires StakeInv(s) && i < |s.ops|
    ensures var effect := Decide(s.db, i, s.ops[i], answer).effect;
            effect.Ask? ==> OrderFits(s.db.stakes, effect.call)
  {
    assert OpOk(s.db.stakes, s.winners, i, s.ops[i]);
    match s.ops[i]
    case Unstake(k, CallUnstake(st)) =>
      assert RowOk(s.ops, k, s.db.stakes[k]);
      assert Confirmed(s.db.stakes[k].state) && s.db.stakes[k].providerRef == st.providerRef;
    case Reconcile(st, pc) => OnlyServicesOrder(s.db, i, s.ops[i], answer);
    case SetBalance(_, _, _) => OnlyServicesOrder(s.db, i, s.ops[i], answer);
    case Credit(_, _, _, _, _) => OnlyServicesOrder(s.db, i, s.ops[i], answer);
    case _ =>
  }

  lemma OnlyServicesOrder(db: Tables, i: nat, op: Op, answer: Answer)
    requires op.Reconcile? || op.SetBalance? || op.Credit?
    ensures !Decide(db, i, op, answer).effect.Ask?
  {
  }

  lemma {:induction false} OrdersFit(events: seq<Event>)
    ensures AllFit(Run(events).db.stakes, Run(events).asked)
  {
    if events != [] {
      var before, e := events[..|events| - 1], events[|events| - 1];
      OrdersFit(before);
      StakesOk(before);
      OrderStep(Run(before), e);
    }
  }

  lemma OrderStep(s: State, e: Event)
    requires StakeInv(s) && AllFit(s.db.stakes, s.asked)
    ensures AllFit(Step(s, e).db.stakes, Step(s, e).asked)
  {
    StakeStep(s, e);
    var t := Step(s, e);
    if e.Advance? && e.op < |s.ops| { NewOrderFits(s, e.op, e.answer); }
    forall p | 0 <= p < |t.asked| ensures OrderFits(t.db.stakes, t.asked[p]) { FitStays(s, t, t.asked[p]); }
  }

  /** Every order fits a stored stake: its amount and asset, or its reference. */
  lemma OrdersAreExact(events: seq<Event>, p: nat)
    requires p < |Run(events).asked|
    ensures var s := Run(events);
            match s.asked[p]
            case AskedToStake(k, asset, amount) =>
              k in s.db.stakes && s.db.stakes[k].account.asset == asset && s.db.stakes[k].amount == amount
            case AskedToUnstake(ref) =>
              exists k :: k in s.db.stakes && s.db.stakes[k].providerRef == ref
                          && (s.db.stakes[k].state == Active || s.db.stakes[k].state == Unstaking || s.db.stakes[k].state == Withdrawn)
  {
    OrdersFit(events);
    var s := Run(events);
    assert OrderFits(s.db.stakes, s.asked[p]);
    if s.asked[p].AskedToUnstake? {
      var k :| k in s.db.stakes && s.db.stakes[k].providerRef == s.asked[p].ref && Confirmed(s.db.stakes[k].state);
      assert s.db.stakes[k].state == Active || s.db.stakes[k].state == Unstaking || s.db.stakes[k].state == Withdrawn;
    }
  }

  // ---- What is tried -------------------------------------------------------------

  /** The next call of the operation is the one its last answer or write obliges it to make:
      a release after a refusal, the balance after a won stake write or a recorded reward. */
  predicate Due(op: Op) {
    match op
    case Create(_, pc) => pc.WriteRollback?
    case Reconcile(_, pc) => pc.ReadForMove?
    case Credit(_, _, _, _, pc) => pc.ReadForCredit?
    case _ => false
  }

  /** The calls that are due, with their arguments. */
  lemma DueCalls(i: nat, op: Op)
    requires Due(op)
    ensures op.Create? ==>
              var seen, x := op.cpc.seen, Amount(op.req);
              NextCall(i, op) == UpdateBalance(op.req.account, BalanceRow(seen.available + x, seen.pending - x, seen.staked, seen.version + 1))
    ensures op.Reconcile? ==> NextCall(i, op) == GetBalance(op.st.account)
    ensures op.Credit? ==> NextCall(i, op) == GetBalance(op.account)
  {
  }

  ghost predicate Tried(events: seq<Event>, i: nat) {
    exists n :: 0 <= n < |events| && events[n].Advance? && events[n].op == i
                && i < |Run(events[..n]).ops| && Due(Run(events[..n]).ops[i])
  }

  lemma TriedStays(events: seq<Event>, e: Event, i: nat)
    requires Tried(events, i)
    ensures Tried(events + [e], i)
  {
    var n :| 0 <= n < |events| && events[n].Advance? && events[n].op == i
             && i < |Run(events[..n]).ops| && Due(Run(events[..n]).ops[i]);
    assert (events + [e])[..n] == events[..n];
  }

  lemma TriedNow(events: seq<Event>, i: nat, answer: Answer)
    requires i < |Run(events).ops| && Due(Run(events).ops[i])
    ensures Tried(events + [Advance(i, answer)], i)
  {
    var n := |events|;
    assert (events + [Advance(i, answer)])[..n] == events && (events + [Advance(i, answer)])[n] == Advance(i, answer);
  }

  /** The operation has been refused by the provider after storing its stake, has moved a
      stake, or has recorded a reward, and is past the call this obliges it to make. */
  predicate Obliged(i: nat, op: Op, winners: map<(nat, StakeState), nat>, rewards: seq<RewardRow>) {
    match op
    case Create(_, pc) => pc == CreateDone(Failure(ProviderError))
    case Reconcile(st, pc) =>
      && (pc.WriteMove? || pc.ReconcileDone?)
      && exists key :: key in winners && winners[key] == i
    case Credit(_, _, _, _, pc) =>
      && (pc.WriteCredit? || pc.CreditDone?)
      && exists r :: 0 <= r < |rewards| && rewards[r].id == i
    case _ => false
  }

  /** Nothing obliged is left untried. */
  ghost predicate DutiesTried(events: seq<Event>, s: State) {
    forall i :: 0 <= i < |s.ops| && Obliged(i, s.ops[i], s.winners, s.db.rewards) ==> Tried(events, i)
  }

  predicate Listening(op: Op) {
    || (op.Reconcile? && (op.rpc.AskStatus? || op.rpc.WriteStake?))
    || (op.Credit? && (op.dpc.ReadTotal? || op.dpc.InsertReward?))
  }

  /** Winners and rewards name operations that exist; one that has only heard a status, or not
      yet inserted, has neither moved a stake nor recorded a reward. */
  ghost predicate Idle(s: State) {
    && (forall key :: key in s.winners ==> s.winners[key] < |s.ops|)
    && (forall r :: 0 <= r < |s.db.rewards| ==> s.db.rewards[r].id < |s.ops|)
    && (forall key :: key in s.winners ==> !Listening(s.ops[s.winners[key]]))
    && (forall r :: 0 <= r < |s.db.rewards| ==> !Listening(s.ops[s.db.rewards[r].id]))
  }

  /** How a turn's effect and its next counter belong together. */
  predicate Ordered(i: nat, op: Op, turn: Turn) {
    && SameCall(op, turn.op)
    && (turn.effect.AddReward? ==> turn.effect.reward.id == i && turn.op.Credit? && turn.op.dpc.ReadForCredit?)
    && (turn.effect.MoveStake? ==> !Listening(turn.op) && (op.Reconcile? ==> turn.op.rpc.ReadForMove?))
    && (Listening(turn.op) ==> Listening(op))
    && (turn.op.Create? && turn.op.cpc == CreateDone(Failure(ProviderError)) ==>
          op.cpc.WriteRollback? || op.cpc == CreateDone(Failure(ProviderError)))
  }

  lemma EveryOrdered(db: Tables, i: nat, op: Op, answer: Answer)
    ensures Ordered(i, op, Decide(db, i, op, answer))
  {
    match op
    case Create(req, pc) => var _ := NextCreate(db, i, req, pc, answer);
    case Unstake(k, pc) => var _ := NextUnstake(db, k, pc, answer);
    case SetBalance(a, x, pc) => var _ := NextSet(db, a, x, pc, answer);
    case Reconcile(st, pc) => var _ := NextReconcile(db, st, pc, answer);
    case Credit(_, _, _, _, _) => var _ := NextCredit(db, i, op, answer);
  }

  lemma IdleCommit(s: State, i: nat, turn: Turn)
    requires Idle(s) && i < |s.ops| && Ordered(i, s.ops[i], turn)
    ensures Idle(Commit(s, i, turn))
  {
  }

  lemma DutyCommit(events: seq<Event>, s: State, i: nat, answer: Answer, turn: Turn)
    requires s == Run(events) && Idle(s) && DutiesTried(events, s) && i < |s.ops| && Ordered(i, s.ops[i], turn)
    ensures DutiesTried(events + [Advance(i, answer)], Commit(s, i, turn))
  {
    var e, t := Advance(i, answer), Commit(s, i, turn);
    forall j | 0 <= j < |t.ops| && Obliged(j, t.ops[j], t.winners, t.db.rewards) ensures Tried(events + [e], j) {
      if j == i && Due(s.ops[i]) {
        TriedNow(events, i, answer);
      } else {
        StillObliged(s, i, turn, j);
        TriedStays(events, e, j);
      }
    }
  }

  lemma StillObliged(s: State, i: nat, turn: Turn, j: nat)
    requires Idle(s) && i < |s.ops| && Ordered(i, s.ops[i], turn) && j < |s.ops|
    requires Obliged(j, Commit(s, i, turn).ops[j], Commit(s, i, turn).winners, Commit(s, i, turn).db.rewards)
    requires j == i ==> !Due(s.ops[i])
    ensures Obliged(j, s.ops[j], s.winners, s.db.rewards)
  {
  }

  /** In every run: a request that ends with the provider's error has tried the release, and a
      poller that won its stake write or recorded a reward has turned to the balance. */
  lemma {:induction false} NothingLeftUntried(events: seq<Event>)
    ensures Idle(Run(events)) && DutiesTried(events, Run(events))
  {
    if events != [] {
      var before, e := events[..|events| - 1], events[|events| - 1];
      NothingLeftUntried(before);
      var s := Run(before);
      assert events == before + [e];
      if e.Advance? && e.op < |s.ops| {
        EveryOrdered(s.db, e.op, s.ops[e.op], e.answer);
        IdleCommit(s, e.op, Decide(s.db, e.op, s.ops[e.op], e.answer));
        DutyCommit(before, s, e.op, e.answer, Decide(s.db, e.op, s.ops[e.op], e.answer));
      } else {
        DutyBegin(before, e, s);
      }
    }
  }

  lemma DutyBegin(events: seq<Event>, e: Event, s: State)
    requires s == Run(events) && Idle(s) && DutiesTried(events, s) && !(e.Advance? && e.op < |s.ops|)
    ensures Idle(Step(s, e)) && DutiesTried(events + [e], Step(s, e))
  {
    var t := Step(s, e);
    forall j | 0 <= j < |t.ops| && Obliged(j, t.ops[j], t.winners, t.db.rewards) ensures Tried(events + [e], j) {
      assert j < |s.ops|;
      TriedStays(events, e, j);
    }
  }
}
