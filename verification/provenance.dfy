/** What the provider must have said.  In every run each move of a stake past PENDING goes
    back to the answer of the operation that made it, and the row carries that answer's words. */
module Provenance {
  import opened Rows
  import opened Protocol
  import opened Lifecycle

  /** The operation's next call is to the provider. */
  predicate AtProvider(op: Op) {
    || (op.Create? && op.cpc.CallStake?)
    || (op.Unstake? && op.upc.CallUnstake?)
    || (op.Reconcile? && op.rpc.AskStatus?)
  }

  /** The provider has given operation `i` this answer. */
  ghost predicate Answered(events: seq<Event>, i: nat, answer: Answer) {
    exists n :: 0 <= n < |events| && events[n] == Advance(i, answer)
                && i < |Run(events[..n]).ops| && AtProvider(Run(events[..n]).ops[i])
  }

  /** The provider has not accepted the stake of operation `k`, for this reason. */
  ghost predicate RefusedFor(events: seq<Event>, k: nat, reason: string) {
    exists answer :: Answered(events, k, answer) && !answer.Accepted? && reason == if answer.Refused? then answer.reason else ""
  }

  /** A poller that had stake `k` listed in state `from` has heard this status of it. */
  ghost predicate StatusHeard(events: seq<Event>, ops: seq<Op>, k: nat, from: StakeState, status: ProviderStatus) {
    exists i: nat :: i < |ops| && ops[i].Reconcile? && ops[i].st.id == k && ops[i].st.state == from && Answered(events, i, Reported(status))
  }

  /** The provider has agreed to unstake stake `k`. */
  ghost predicate UnstakeHeard(events: seq<Event>, ops: seq<Op>, k: nat) {
    exists i: nat :: i < |ops| && ops[i].Unstake? && ops[i].stake == k && Answered(events, i, Fine)
  }

  /** What a stored stake says about the past. */
  ghost predicate RowHeard(events: seq<Event>, ops: seq<Op>, k: nat, row: StakeRow) {
    && (row.state == Delegating || row.state == Active || row.state == Unstaking || row.state == Withdrawn
        || (row.state == Failed && row.version == 3) ==>
          Answered(events, k, Accepted(row.validator, row.providerRef)))
    && (row.state == Failed && row.version == 2 ==>
          RefusedFor(events, k, row.failureReason) && row.providerRef == "" && row.validator == "")
    && (row.state == Failed && row.version == 3 ==>
          StatusHeard(events, ops, k, Delegating, StatusFailed) && row.failureReason == "provider reported failure")
    && (row.state == Active || row.state == Unstaking || row.state == Withdrawn ==>
          StatusHeard(events, ops, k, Delegating, StatusActive))
    && (row.state == Unstaking || row.state == Withdrawn ==> UnstakeHeard(events, ops, k))
    && (row.state == Withdrawn ==> StatusHeard(events, ops, k, Unstaking, StatusWithdrawn))
  }

  /** What an operation about to write a stake has heard. */
  ghost predicate OpHeard(events: seq<Event>, i: nat, op: Op) {
    match op
    case Create(_, WriteDelegating(validator, ref)) => Answered(events, i, Accepted(validator, ref))
    case Create(_, MarkFailed(_, reason)) => RefusedFor(events, i, reason)
    case Unstake(_, WriteUnstaking(_)) => Answered(events, i, Fine)
    case Reconcile(st, WriteStake(to)) =>
      || (to == Active && st.state == Delegating && Answered(events, i, Reported(StatusActive)))
      || (to == Failed && st.state == Delegating && Answered(events, i, Reported(StatusFailed)))
      || (to == Withdrawn && st.state == Unstaking && Answered(events, i, Reported(StatusWithdrawn)))
    case _ => true
  }

  ghost predicate HeardOk(events: seq<Event>, s: State) {
    && (forall i :: 0 <= i < |s.ops| ==> OpHeard(events, i, s.ops[i]))
    && (forall k :: k in s.db.stakes ==> RowHeard(events, s.ops, k, s.db.stakes[k]))
  }

  // ---- What was said stays said --------------------------------------------------

  lemma AnswerStays(events: seq<Event>, e: Event, i: nat, answer: Answer)
    requires Answered(events, i, answer)
    ensures Answered(events + [e], i, answer)
  {
    var n :| 0 <= n < |events| && events[n] == Advance(i, answer)
             && i < |Run(events[..n]).ops| && AtProvider(Run(events[..n]).ops[i]);
    assert (events + [e])[..n] == events[..n];
  }

  lemma AnswerNow(events: seq<Event>, i: nat, answer: Answer)
    requires i < |Run(events).ops| && AtProvider(Run(events).ops[i])
    ensures Answered(events + [Advance(i, answer)], i, answer)
  {
    var n := |events|;
    assert (events + [Advance(i, answer)])[..n] == events && (events + [Advance(i, answer)])[n] == Advance(i, answer);
  }

  predicate SameCalls(x: seq<Op>, y: seq<Op>) {
    |x| <= |y| && forall i :: 0 <= i < |x| ==> SameCall(x[i], y[i])
  }

  lemma StatusStays(events: seq<Event>, e: Event, x: seq<Op>, y: seq<Op>, k: nat, from: StakeState, status: ProviderStatus)
    requires StatusHeard(events, x, k, from, status) && SameCalls(x, y)
    ensures StatusHeard(events + [e], y, k, from, status)
  {
    var i: nat :| i < |x| && x[i].Reconcile? && x[i].st.id == k && x[i].st.state == from && Answered(events, i, Reported(status));
    AnswerStays(events, e, i, Reported(status));
    assert SameCall(x[i], y[i]);
  }

  lemma UnstakeStays(events: seq<Event>, e: Event, x: seq<Op>, y: seq<Op>, k: nat)
    requires UnstakeHeard(events, x, k) && SameCalls(x, y)
    ensures UnstakeHeard(events + [e], y, k)
  {
    var i: nat :| i < |x| && x[i].Unstake? && x[i].stake == k && Answered(events, i, Fine);
    AnswerStays(events, e, i, Fine);
    assert SameCall(x[i], y[i]);
  }

  lemma RefusalStays(events: seq<Event>, e: Event, k: nat, reason: string)
    requires RefusedFor(events, k, reason)
    ensures RefusedFor(events + [e], k, reason)
  {
    var answer :| Answered(events, k, answer) && !answer.Accepted? && reason == if answer.Refused? then answer.reason else "";
    AnswerStays(events, e, k, answer);
  }

  lemma RowStays(events: seq<Event>, e: Event, x: seq<Op>, y: seq<Op>, k: nat, row: StakeRow)
    requires RowHeard(events, x, k, row) && SameCalls(x, y)
    ensures RowHeard(events + [e], y, k, row)
  {
    if Answered(events, k, Accepted(row.validator, row.providerRef)) { AnswerStays(events, e, k, Accepted(row.validator, row.providerRef)); }
    if RefusedFor(events, k, row.failureReason) { RefusalStays(events, e, k, row.failureReason); }
    if StatusHeard(events, x, k, Delegating, StatusFailed) { StatusStays(events, e, x, y, k, Delegating, StatusFailed); }
    if StatusHeard(events, x, k, Delegating, StatusActive) { StatusStays(events, e, x, y, k, Delegating, StatusActive); }
    if UnstakeHeard(events, x, k) { UnstakeStays(events, e, x, y, k); }
    if StatusHeard(events, x, k, Unstaking, StatusWithdrawn) { StatusStays(events, e, x, y, k, Unstaking, StatusWithdrawn); }
  }

  lemma OpStays(events: seq<Event>, e: Event, i: nat, op: Op)
    requires OpHeard(events, i, op)
    ensures OpHeard(events + [e], i, op)
  {
    match op
    case Create(_, WriteDelegating(validator, ref)) => AnswerStays(events, e, i, Accepted(validator, ref));
    case Create(_, MarkFailed(_, reason)) => RefusalStays(events, e, i, reason);
    case Unstake(_, WriteUnstaking(_)) => AnswerStays(events, e, i, Fine);
    case Reconcile(st, WriteStake(to)) =>
      if to == Active { AnswerStays(events, e, i, Reported(StatusActive)); }
      if to == Failed { AnswerStays(events, e, i, Reported(StatusFailed)); }
      if to == Withdrawn { AnswerStays(events, e, i, Reported(StatusWithdrawn)); }
    case _ =>
  }

  // ---- One turn ------------------------------------------------------------------

  lemma HeardCreate(events: seq<Event>, s: State, i: nat, req: Request, pc: CreatePc, answer: Answer)
    requires s == Run(events) && i < |s.ops| && s.ops[i] == Create(req, pc) && OpHeard(events, i, s.ops[i])
    ensures OpHeard(events + [Advance(i, answer)], i, Create(req, NextCreate(s.db, i, req, pc, answer).0))
  {
    if pc.CallStake? {
      AnswerNow(events, i, answer);
      if !answer.Accepted? {
        assert RefusedFor(events + [Advance(i, answer)], i, if answer.Refused? then answer.reason else "");
      }
    }
  }

  lemma HeardUnstake(events: seq<Event>, s: State, i: nat, k: nat, pc: UnstakePc, answer: Answer)
    requires s == Run(events) && i < |s.ops| && s.ops[i] == Unstake(k, pc)
    ensures OpHeard(events + [Advance(i, answer)], i, Unstake(k, NextUnstake(s.db, k, pc, answer).0))
  {
    if pc.CallUnstake? { AnswerNow(events, i, answer); }
  }

  lemma HeardReconcile(events: seq<Event>, s: State, i: nat, st: StakeRow, pc: ReconcilePc, answer: Answer)
    requires s == Run(events) && i < |s.ops| && s.ops[i] == Reconcile(st, pc)
    ensures OpHeard(events + [Advance(i, answer)], i, Reconcile(st, NextReconcile(s.db, st, pc, answer).0))
  {
    if pc.AskStatus? { AnswerNow(events, i, answer); }
  }

  lemma TurnHeard(events: seq<Event>, s: State, i: nat, answer: Answer)
    requires s == Run(events) && i < |s.ops| && OpHeard(events, i, s.ops[i])
    ensures OpHeard(events + [Advance(i, answer)], i, Decide(s.db, i, s.ops[i], answer).op)
  {
    match s.ops[i]
    case Create(req, pc) => HeardCreate(events, s, i, req, pc, answer);
    case Unstake(k, pc) => HeardUnstake(events, s, i, k, pc, answer);
    case Reconcile(st, pc) => HeardReconcile(events, s, i, st, pc, answer);
    case _ =>
  }

  /** The row that a `Create` writes. */
  lemma CreateMove(events: seq<Event>, ops: seq<Op>, db: Tables, i: nat, req: Request, pc: CreatePc, answer: Answer)
    requires OpHeard(events, i, Create(req, pc))
    ensures var effect := NextCreate(db, i, req, pc, answer).1;
            (effect.MoveStake? || effect.AddStake?) ==> effect.row.id == i && RowHeard(events, ops, i, effect.row)
  {
  }

  lemma UnstakeMove(events: seq<Event>, ops: seq<Op>, s: State, i: nat, k: nat, pc: UnstakePc, answer: Answer)
    requires StakeInv(s) && i < |s.ops| && s.ops[i] == Unstake(k, pc) && OpHeard(events, i, s.ops[i]) && SameCalls(s.ops, ops)
    requires k in s.db.stakes ==> RowHeard(events, ops, k, s.db.stakes[k])
    ensures var effect := NextUnstake(s.db, k, pc, answer).1;
            effect.MoveStake? ==> effect.row.id == k && RowHeard(events, ops, k, effect.row)
  {
    assert OpOk(s.db.stakes, s.winners, i, s.ops[i]);
    assert SameCall(s.ops[i], ops[i]);
    if pc.WriteUnstaking? { assert UnstakeHeard(events, ops, k); }
  }

  lemma ReconcileMove(events: seq<Event>, ops: seq<Op>, s: State, i: nat, st: StakeRow, pc: ReconcilePc, answer: Answer)
    requires StakeInv(s) && i < |s.ops| && s.ops[i] == Reconcile(st, pc) && OpHeard(events, i, s.ops[i]) && SameCalls(s.ops, ops)
    requires st.id in s.db.stakes ==> RowHeard(events, ops, st.id, s.db.stakes[st.id])
    ensures var effect := NextReconcile(s.db, st, pc, answer).1;
            effect.MoveStake? ==> effect.row.id == st.id && RowHeard(events, ops, st.id, effect.row)
  {
    assert OpOk(s.db.stakes, s.winners, i, s.ops[i]);
    assert SameCall(s.ops[i], ops[i]);
    if pc.WriteStake? {
      if pc.to == Active { assert StatusHeard(events, ops, st.id, Delegating, StatusActive); }
      if pc.to == Failed { assert StatusHeard(events, ops, st.id, Delegating, StatusFailed); }
      if pc.to == Withdrawn { assert StatusHeard(events, ops, st.id, Unstaking, StatusWithdrawn); }
      assert RowOk(s.ops, st.id, s.db.stakes[st.id]);
    }
  }

  lemma NoMove(db: Tables, i: nat, op: Op, answer: Answer)
    requires op.SetBalance? || op.Credit?
    ensures var effect := Decide(db, i, op, answer).effect; !effect.MoveStake? && !effect.AddStake?
  {
  }

  lemma SameAsItself(ops: seq<Op>)
    ensures SameCalls(ops, ops)
  {
  }

  /** The row a turn writes, told by the run before it. */
  lemma MoveHeard(events: seq<Event>, s: State, i: nat, op: Op, answer: Answer)
    requires StakeInv(s) && i < |s.ops| && op == s.ops[i] && OpHeard(events, i, op)
    requires op.Unstake? && op.stake in s.db.stakes ==> RowHeard(events, s.ops, op.stake, s.db.stakes[op.stake])
    requires op.Reconcile? && op.st.id in s.db.stakes ==> RowHeard(events, s.ops, op.st.id, s.db.stakes[op.st.id])
    ensures var effect := Decide(s.db, i, op, answer).effect;
            effect.MoveStake? || effect.AddStake? ==> RowHeard(events, s.ops, effect.row.id, effect.row)
  {
    SameAsItself(s.ops);
    match op
    case Create(req, pc) => CreateMove(events, s.ops, s.db, i, req, pc, answer);
    case Unstake(k, pc) => UnstakeMove(events, s.ops, s, i, k, pc, answer);
    case Reconcile(st, pc) => ReconcileMove(events, s.ops, s, i, st, pc, answer);
    case SetBalance(_, _, _) => NoMove(s.db, i, op, answer);
    case Credit(_, _, _, _, _) => NoMove(s.db, i, op, answer);
  }

  lemma OpsHeard(events: seq<Event>, s: State, i: nat, answer: Answer, j: nat)
    requires s == Run(events) && HeardOk(events, s) && i < |s.ops| && j < |s.ops|
    ensures OpHeard(events + [Advance(i, answer)], j, if j == i then Decide(s.db, i, s.ops[i], answer).op else s.ops[j])
  {
    if j == i { TurnHeard(events, s, i, answer); } else { OpStays(events, Advance(i, answer), j, s.ops[j]); }
  }

  lemma RowsHeard(events: seq<Event>, s: State, ops: seq<Op>, effect: Effect, e: Event, k: nat)
    requires HeardOk(events, s) && SameCalls(s.ops, ops) && k in StakesAfter(s.db.stakes, effect)
    requires effect.MoveStake? || effect.AddStake? ==> RowHeard(events, s.ops, effect.row.id, effect.row)
    ensures RowHeard(events + [e], ops, k, StakesAfter(s.db.stakes, effect)[k])
  {
    RowStays(events, e, s.ops, ops, k, StakesAfter(s.db.stakes, effect)[k]);
  }

  lemma HeardAdvance(events: seq<Event>, i: nat, answer: Answer)
    requires StakeInv(Run(events)) && HeardOk(events, Run(events)) && i < |Run(events).ops|
    ensures HeardOk(events + [Advance(i, answer)], Commit(Run(events), i, Decide(Run(events).db, i, Run(events).ops[i], answer)))
  {
    var s, e := Run(events), Advance(i, answer);
    var turn := Decide(s.db, i, s.ops[i], answer);
    EveryTurn(s, i, answer);
    MoveHeard(events, s, i, s.ops[i], answer);
    HeardCommit(events, s, i, answer, turn);
  }

  lemma HeardCommit(events: seq<Event>, s: State, i: nat, answer: Answer, turn: Turn)
    requires s == Run(events) && HeardOk(events, s) && i < |s.ops| && turn == Decide(s.db, i, s.ops[i], answer)
    requires LegalEffect(s.db.stakes, i, turn.op, turn.effect) && SameCall(s.ops[i], turn.op)
    requires turn.effect.MoveStake? || turn.effect.AddStake? ==> RowHeard(events, s.ops, turn.effect.row.id, turn.effect.row)
    ensures HeardOk(events + [Advance(i, answer)], Commit(s, i, turn))
  {
    var e, t := Advance(i, answer), Commit(s, i, turn);
    CommitMoves(s, i, turn);
    forall j | 0 <= j < |t.ops| ensures OpHeard(events + [e], j, t.ops[j]) { OpsHeard(events, s, i, answer, j); }
    forall k | k in t.db.stakes ensures RowHeard(events + [e], t.ops, k, t.db.stakes[k]) {
      RowsHeard(events, s, t.ops, turn.effect, e, k);
    }
  }

  lemma HeardOther(events: seq<Event>, e: Event, t: State)
    requires HeardOk(events, Run(events)) && t.db.stakes == Run(events).db.stakes && SameCalls(Run(events).ops, t.ops)
    requires forall j :: 0 <= j < |t.ops| ==> OpHeard(events, j, t.ops[j])
    ensures HeardOk(events + [e], t)
  {
    var s := Run(events);
    forall j | 0 <= j < |t.ops| ensures OpHeard(events + [e], j, t.ops[j]) { OpStays(events, e, j, t.ops[j]); }
    forall k | k in t.db.stakes ensures RowHeard(events + [e], t.ops, k, t.db.stakes[k]) {
      RowStays(events, e, s.ops, t.ops, k, t.db.stakes[k]);
    }
  }

  lemma HeardStep(events: seq<Event>, e: Event)
    requires StakeInv(Run(events)) && HeardOk(events, Run(events))
    ensures HeardOk(events + [e], Step(Run(events), e))
  {
    var s := Run(events);
    if e.Advance? && e.op < |s.ops| {
      HeardAdvance(events, e.op, e.answer);
    } else {
      forall j | 0 <= j < |s.ops| ensures SameCall(s.ops[j], s.ops[j]) {}
      HeardOther(events, e, Step(s, e));
    }
  }

  lemma RunNext(events: seq<Event>, e: Event)
    ensures Run(events + [e]) == Step(Run(events), e)
  {
    assert (events + [e])[..|events|] == events;
  }

  /** In every run: a delegated stake carries the validator and the reference of the answer
      that accepted it; a stake is ACTIVE, FAILED from DELEGATING, or WITHDRAWN only after
      the provider reported just that of it, and UNSTAKING only after it agreed to unstake;
      a stake that failed at once carries the provider's reason. */
  lemma {:induction false} EveryMoveWasAnswered(events: seq<Event>)
    ensures HeardOk(events, Run(events))
  {
    if events != [] {
      var before, e := events[..|events| - 1], events[|events| - 1];
      assert events == before + [e];
      EveryMoveWasAnswered(before);
      StakesOk(before);
      HeardStep(before, e);
      RunNext(before, e);
    }
  }
}
