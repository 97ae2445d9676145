/** What every step keeps about the stakes table and the operations that hold copies of
    its rows.  Nothing here depends on the balances, so it holds in every run. */
module Lifecycle {
  import opened Rows
  import opened Protocol

  /** The only (state, version) pairs a stored stake can have. */
  predicate Lockstep(row: StakeRow) {
    match row.state
    case Pending => row.version == 1
    case Delegating => row.version == 2
    case Active => row.version == 3
    case Unstaking => row.version == 4
    case Withdrawn => row.version == 5
    case Failed => row.version == 2 || row.version == 3
  }

  predicate RowOk(ops: seq<Op>, k: nat, row: StakeRow) {
    && k < |ops|
    && ops[k].Create?
    && row.amount > 0
    && SameIdentity(row, PendingStake(k, ops[k].req))
    && Lockstep(row)
    && (row.state == Pending ==> row == PendingStake(k, ops[k].req))
  }

  /** A stale copy: the stored row is at least as new, equal when as old, and has the
      provider's reference once the copy has it. */
  predicate Tracks(stakes: map<nat, StakeRow>, st: StakeRow) {
    && st.id in stakes
    && SameIdentity(stakes[st.id], st)
    && stakes[st.id].version >= st.version
    && (stakes[st.id].version == st.version ==> stakes[st.id] == st)
    && Lockstep(st)
    && (st.state != Pending ==> stakes[st.id].state != Pending && stakes[st.id].providerRef == st.providerRef)
  }

  /** The row has passed through state `to`, entered from the state the poller requires. */
  predicate Arrived(row: StakeRow, to: StakeState) {
    match to
    case Active => row.state == Active || row.state == Unstaking || row.state == Withdrawn
    case Failed => row.state == Failed && row.version == 3
    case Withdrawn => row.state == Withdrawn
    case _ => false
  }

  predicate Owns(stakes: map<nat, StakeRow>, winners: map<(nat, StakeState), nat>, i: nat, st: StakeRow, to: StakeState) {
    && st.id in stakes
    && SameIdentity(stakes[st.id], st)
    && Arrived(stakes[st.id], to)
    && (st.id, to) in winners
    && winners[(st.id, to)] == i
  }

  predicate PositiveAmount(req: Request) {
    req.amount.Some? && req.amount.value > 0
  }

  predicate CreateOk(stakes: map<nat, StakeRow>, i: nat, req: Request, pc: CreatePc) {
    match pc
    case CheckKey => i !in stakes && req.key != ""
    case ReadForHold => i !in stakes && PositiveAmount(req)
    case WriteHold(_) => i !in stakes && PositiveAmount(req)
    case InsertStake(_) => i !in stakes && PositiveAmount(req)
    case CallStake(_) => i in stakes && stakes[i] == PendingStake(i, req)
    case MarkFailed(_, _) => i in stakes && stakes[i] == PendingStake(i, req)
    case WriteDelegating(_, _) => i in stakes && stakes[i] == PendingStake(i, req)
    case WriteRollback(_, marked) =>
      && i in stakes
      && stakes[i].version == (if marked then 2 else 1)
      && stakes[i].state == (if marked then Failed else Pending)
    case CreateDone(_) => true
  }

  predicate ReconcileOk(stakes: map<nat, StakeRow>, winners: map<(nat, StakeState), nat>, i: nat, st: StakeRow, pc: ReconcilePc) {
    match pc
    case AskStatus => Tracks(stakes, st) && (st.state == Delegating || st.state == Unstaking)
    case WriteStake(to) =>
      && Tracks(stakes, st)
      && ((st.state == Delegating && (to == Active || to == Failed)) || (st.state == Unstaking && to == Withdrawn))
    case ReadForMove(to) => Owns(stakes, winners, i, st, to)
    case WriteMove(to, _) => Owns(stakes, winners, i, st, to)
    case ReconcileDone => true
  }

  predicate OpOk(stakes: map<nat, StakeRow>, winners: map<(nat, StakeState), nat>, i: nat, op: Op) {
    match op
    case Create(req, pc) => CreateOk(stakes, i, req, pc)
    case Unstake(k, pc) =>
      (match pc
       case CallUnstake(st) => Tracks(stakes, st) && st.state == Active && st.id == k
       case WriteUnstaking(st) => Tracks(stakes, st) && st.state == Active && st.id == k
       case _ => true)
    case SetBalance(_, _, _) => true
    case Reconcile(st, pc) => ReconcileOk(stakes, winners, i, st, pc)
    case Credit(k, a, _, _, _) => k in stakes && stakes[k].account == a
  }

  ghost predicate RowsOk(s: State) {
    forall k :: k in s.db.stakes ==> RowOk(s.ops, k, s.db.stakes[k])
  }

  ghost predicate OpsOk(s: State) {
    forall i :: 0 <= i < |s.ops| ==> OpOk(s.db.stakes, s.winners, i, s.ops[i])
  }

  ghost predicate StakeInv(s: State) {
    RowsOk(s) && OpsOk(s)
  }

  // ---- One step ------------------------------------------------------------------

  /** What one committed write may do to a stored stake. */
  predicate Edge(x: StakeRow, y: StakeRow) {
    && SameIdentity(x, y)
    && Legal(x.state, y.state)
    && y.version == x.version + 1
    && (x.state != Pending ==> y.providerRef == x.providerRef && y.validator == x.validator)
  }

  /** Rows stay, and each is left alone or moved along one legal edge. */
  ghost predicate Evolves(before: map<nat, StakeRow>, after: map<nat, StakeRow>) {
    forall k :: k in before ==> k in after && (after[k] == before[k] || Edge(before[k], after[k]))
  }

  predicate SameCall(x: Op, y: Op) {
    match x
    case Create(req, _) => y.Create? && y.req == req
    case Unstake(k, _) => y.Unstake? && y.stake == k
    case SetBalance(a, x, _) => y.SetBalance? && y.account == a && y.available == x
    case Reconcile(st, _) => y.Reconcile? && y.st == st
    case Credit(k, a, amount, date, _) =>
      y.Credit? && y.stake == k && y.account == a && y.amount == amount && y.date == date
  }

  /** The write is one the lifecycle allows; a PENDING row is moved only by the operation
      that created it. */
  predicate LegalEffect(stakes: map<nat, StakeRow>, i: nat, op: Op, effect: Effect) {
    match effect
    case AddStake(row) => op.Create? && PositiveAmount(op.req) && row == PendingStake(i, op.req) && i !in stakes
    case MoveStake(row) =>
      && row.id in stakes
      && Edge(stakes[row.id], row)
      && Lockstep(row)
      && (stakes[row.id].state == Pending ==> row.id == i)
      && Updated(stakes[row.id], row) == row
    case _ => true
  }

  /** Stakes and winners after the effect of operation `i`. */
  function StakesAfter(stakes: map<nat, StakeRow>, effect: Effect): map<nat, StakeRow> {
    if effect.AddStake? || effect.MoveStake? then stakes[effect.row.id := effect.row] else stakes
  }

  function WinnersAfter(winners: map<(nat, StakeState), nat>, i: nat, effect: Effect): map<(nat, StakeState), nat> {
    if effect.MoveStake? then winners[(effect.row.id, effect.row.state) := i] else winners
  }

  lemma OtherRows(s: State, i: nat, op: Op, effect: Effect, k: nat)
    requires RowsOk(s) && i < |s.ops| && SameCall(s.ops[i], op) && LegalEffect(s.db.stakes, i, op, effect)
    requires k in StakesAfter(s.db.stakes, effect)
    ensures RowOk(s.ops[i := op], k, StakesAfter(s.db.stakes, effect)[k])
  {
    if k in s.db.stakes { assert RowOk(s.ops, k, s.db.stakes[k]); }
  }

  lemma OtherOps(s: State, i: nat, op: Op, effect: Effect, j: nat)
    requires RowsOk(s) && LegalEffect(s.db.stakes, i, op, effect) && j != i && j < |s.ops|
    requires OpOk(s.db.stakes, s.winners, j, s.ops[j])
    ensures OpOk(StakesAfter(s.db.stakes, effect), WinnersAfter(s.winners, i, effect), j, s.ops[j])
  {
    if effect.MoveStake? { assert RowOk(s.ops, effect.row.id, s.db.stakes[effect.row.id]); }
  }

  /** The local obligation: what one turn needs to keep the invariant. */
  predicate TurnOk(stakes: map<nat, StakeRow>, winners: map<(nat, StakeState), nat>, i: nat, op: Op, turn: Turn) {
    && SameCall(op, turn.op)
    && LegalEffect(stakes, i, turn.op, turn.effect)
    && OpOk(StakesAfter(stakes, turn.effect), WinnersAfter(winners, i, turn.effect), i, turn.op)
  }

  lemma CommitMoves(s: State, i: nat, turn: Turn)
    requires i < |s.ops| && LegalEffect(s.db.stakes, i, turn.op, turn.effect)
    ensures Commit(s, i, turn).db.stakes == StakesAfter(s.db.stakes, turn.effect)
    ensures Commit(s, i, turn).winners == WinnersAfter(s.winners, i, turn.effect)
    ensures Evolves(s.db.stakes, Commit(s, i, turn).db.stakes)
  {
  }

  lemma CommitKeeps(s: State, i: nat, turn: Turn)
    requires StakeInv(s) && i < |s.ops| && TurnOk(s.db.stakes, s.winners, i, s.ops[i], turn)
    ensures StakeInv(Commit(s, i, turn))
    ensures Commit(s, i, turn).db.stakes == StakesAfter(s.db.stakes, turn.effect)
    ensures Evolves(s.db.stakes, Commit(s, i, turn).db.stakes)
  {
    CommitMoves(s, i, turn);
    var t := Commit(s, i, turn);
    forall k | k in t.db.stakes ensures RowOk(t.ops, k, t.db.stakes[k]) {
      OtherRows(s, i, turn.op, turn.effect, k);
    }
    forall j | 0 <= j < |t.ops| ensures OpOk(t.db.stakes, t.winners, j, t.ops[j]) {
      if j != i { OtherOps(s, i, turn.op, turn.effect, j); }
    }
  }

  lemma CreateTurn(db: Tables, winners: map<(nat, StakeState), nat>, i: nat, req: Request, pc: CreatePc, answer: Answer)
    requires CreateOk(db.stakes, i, req, pc)
    ensures var (next, effect, skip) := NextCreate(db, i, req, pc, answer);
            TurnOk(db.stakes, winners, i, Create(req, pc), Turn(Create(req, next), effect, skip))
  {
  }

  lemma UnstakeTurn(db: Tables, winners: map<(nat, StakeState), nat>, i: nat, k: nat, pc: UnstakePc, answer: Answer)
    requires OpOk(db.stakes, winners, i, Unstake(k, pc))
    requires pc.WriteUnstaking? ==> Lockstep(db.stakes[pc.st.id])
    requires k in db.stakes ==> db.stakes[k].id == k && Lockstep(db.stakes[k])
    ensures var (next, effect) := NextUnstake(db, k, pc, answer);
            TurnOk(db.stakes, winners, i, Unstake(k, pc), Turn(Unstake(k, next), effect, None))
  {
  }

  lemma ReconcileTurn(db: Tables, winners: map<(nat, StakeState), nat>, i: nat, st: StakeRow, pc: ReconcilePc, answer: Answer)
    requires ReconcileOk(db.stakes, winners, i, st, pc)
    requires st.id in db.stakes ==> Lockstep(db.stakes[st.id])
    ensures var (next, effect, skip) := NextReconcile(db, st, pc, answer);
            TurnOk(db.stakes, winners, i, Reconcile(st, pc), Turn(Reconcile(st, next), effect, skip))
  {
  }

  lemma EveryTurn(s: State, i: nat, answer: Answer)
    requires StakeInv(s) && i < |s.ops|
    ensures TurnOk(s.db.stakes, s.winners, i, s.ops[i], Decide(s.db, i, s.ops[i], answer))
  {
    var stakes := s.db.stakes;
    forall k | k in stakes ensures stakes[k].id == k && Lockstep(stakes[k]) { assert RowOk(s.ops, k, stakes[k]); }
    assert OpOk(stakes, s.winners, i, s.ops[i]);
    match s.ops[i]
    case Create(req, pc) => CreateTurn(s.db, s.winners, i, req, pc, answer);
    case Unstake(k, pc) => UnstakeTurn(s.db, s.winners, i, k, pc, answer);
    case Reconcile(st, pc) => ReconcileTurn(s.db, s.winners, i, st, pc, answer);
    case SetBalance(_, _, _) =>
    case Credit(_, _, _, _, _) =>
  }

  /** The next id is not in use. */
  lemma IdsDrawn(s: State)
    requires RowsOk(s)
    ensures forall k :: k in s.db.stakes ==> k < |s.ops|
  {
    forall k | k in s.db.stakes ensures k < |s.ops| { assert RowOk(s.ops, k, s.db.stakes[k]); }
  }

  lemma BeginKeeps(s: State, call: Call)
    requires StakeInv(s)
    ensures StakeInv(Step(s, Begin(call)))
  {
    IdsDrawn(s);
    var t := Step(s, Begin(call));
    forall k | k in t.db.stakes ensures RowOk(t.ops, k, t.db.stakes[k]) {
      assert RowOk(s.ops, k, s.db.stakes[k]);
    }
    forall j | 0 <= j < |t.ops| ensures OpOk(t.db.stakes, t.winners, j, t.ops[j]) {
      if j < |s.ops| {
        assert OpOk(s.db.stakes, s.winners, j, s.ops[j]);
      }
    }
  }

  lemma StakeStep(s: State, e: Event)
    requires StakeInv(s)
    ensures StakeInv(Step(s, e)) && Evolves(s.db.stakes, Step(s, e).db.stakes)
  {
    match e
    case Begin(call) => BeginKeeps(s, call);
    case Advance(i, answer) =>
      if i < |s.ops| {
        EveryTurn(s, i, answer);
        CommitKeeps(s, i, Decide(s.db, i, s.ops[i], answer));
      }
  }

  lemma {:induction false} StakesOk(events: seq<Event>)
    ensures StakeInv(Run(events))
  {
    if events != [] {
      var before := events[..|events| - 1];
      StakesOk(before);
      StakeStep(Run(before), events[|events| - 1]);
    }
  }
}
