/** When do the buckets agree with the stakes?  `skipped` records the stakes for which a
    call that had to follow was given up; the invariant says these are exactly the stakes
    whose contribution has drifted from their state, apart from debts still in flight. */
module Agreement {
  import opened Rows
  import opened Protocol
  import opened Lifecycle
  import opened Phases
  import opened Locking
  import opened Accounts
  import opened Sums

  /** The winner of the write of stake `k` into `to` still owes the bucket move. */
  predicate Owing(winners: map<(nat, StakeState), nat>, ops: seq<Op>, k: nat, to: StakeState) {
    && (k, to) in winners
    && winners[(k, to)] < |ops|
    && Owes(ops[winners[(k, to)]], k, to)
  }

  predicate Owes(op: Op, k: nat, to: StakeState) {
    OnDuty(op) && op.st.id == k && op.rpc.to == to
  }

  /** Who still owes a move for one stake. */
  datatype Debts = Debts(confirm: bool, release: bool, complete: bool)

  function DebtsOf(winners: map<(nat, StakeState), nat>, ops: seq<Op>, k: nat): Debts {
    Debts(Owing(winners, ops, k, Active), Owing(winners, ops, k, Failed), Owing(winners, ops, k, Withdrawn))
  }

  /** The move is neither made nor owed. */
  predicate Lost(count: nat, owed: bool) {
    count == 0 && !owed
  }

  /** Exactly the given-up stakes have drifted. */
  predicate DriftOk(stakes: map<nat, StakeRow>, k: nat, pc: CreatePc, t: Tally, debts: Debts, skipped: bool) {
    if k !in stakes then skipped <==> (t.held == 1 && !pc.InsertStake?)
    else match stakes[k].state
      case Pending => skipped <==> t.released == 1
      case Delegating => !skipped
      case Active => skipped <==> Lost(t.confirmed, debts.confirm)
      case Unstaking => skipped <==> Lost(t.confirmed, debts.confirm)
      case Withdrawn => skipped <==> Lost(t.confirmed, debts.confirm) || Lost(t.completed, debts.complete)
      case Failed => skipped <==> Lost(t.released, if stakes[k].version == 2 then pc.WriteRollback? else debts.release)
  }

  ghost predicate DriftsOk(s: State) {
    forall k :: 0 <= k < |s.ops| && s.ops[k].Create? ==>
      DriftOk(s.db.stakes, k, s.ops[k].cpc, Count(s.journal, k), DebtsOf(s.winners, s.ops, k), k in s.skipped)
  }

  ghost predicate SkipsOk(s: State) {
    forall k :: k in s.skipped ==> k < |s.ops| && (s.ops[k].Create? || s.ops[k].Credit?)
  }

  ghost predicate DriftInv(s: State) {
    PhaseInv(s) && DriftsOk(s) && SkipsOk(s)
  }

  function After(t: Tally, effect: Effect, k: nat): Tally {
    if effect.WriteBalance? then Bump(t, effect.change, k) else t
  }

  // ---- One turn ------------------------------------------------------------------

  lemma CreateDrift(db: Tables, i: nat, req: Request, pc: CreatePc, answer: Answer, t: Tally, debts: Debts, later: Debts, skipped: bool)
    requires CreateOk(db.stakes, i, req, pc) && CreateTally(db.stakes, i, req, pc, t)
    requires DriftOk(db.stakes, i, pc, t, debts, skipped)
    requires NextCreate(db, i, req, pc, answer).1.MoveStake? || later == debts
    ensures var (next, effect, skip) := NextCreate(db, i, req, pc, answer);
            && (skip.Some? ==> skip.value == i)
            && DriftOk(StakesAfter(db.stakes, effect), i, next, After(t, effect, i), later, skipped || skip.Some?)
  {
  }

  predicate Duty(pc: ReconcilePc, to: StakeState) {
    (pc.ReadForMove? || pc.WriteMove?) && pc.to == to
  }

  /** The debts of stake `k` after its poller operation has moved from `pc` to `next`. */
  predicate DebtsMove(debts: Debts, later: Debts, pc: ReconcilePc, next: ReconcilePc) {
    && (later.confirm <==> if Duty(pc, Active) || Duty(next, Active) then Duty(next, Active) else debts.confirm)
    && (later.release <==> if Duty(pc, Failed) || Duty(next, Failed) then Duty(next, Failed) else debts.release)
    && (later.complete <==> if Duty(pc, Withdrawn) || Duty(next, Withdrawn) then Duty(next, Withdrawn) else debts.complete)
  }

  /** The winner of a stake write takes on the debt of the bucket move. */
  lemma DriftWhenWon(st: StakeRow, stakes: map<nat, StakeRow>, kpc: CreatePc, t: Tally, debts: Debts, later: Debts, to: StakeState, skipped: bool)
    requires st.id in stakes && stakes[st.id] == st && Lockstep(st)
    requires (st.state == Delegating && (to == Active || to == Failed)) || (st.state == Unstaking && to == Withdrawn)
    requires StateAllows(st.state, t) && DriftOk(stakes, st.id, kpc, t, debts, skipped)
    requires DebtsMove(debts, later, WriteStake(to), ReadForMove(to))
    ensures DriftOk(stakes[st.id := Reconciled(st, to)], st.id, kpc, t, later, skipped)
  {
  }

  /** Reading for the move keeps the debt or gives the move up. */
  lemma DriftWhenRead(db: Tables, winners: map<(nat, StakeState), nat>, i: nat, st: StakeRow, to: StakeState, answer: Answer,
                      kpc: CreatePc, t: Tally, debts: Debts, later: Debts, skipped: bool)
    requires Owns(db.stakes, winners, i, st, to) && NotYet(t, to)
    requires DriftOk(db.stakes, st.id, kpc, t, debts, skipped) && DebtOf(debts, to)
    requires DebtsMove(debts, later, ReadForMove(to), NextReconcile(db, st, ReadForMove(to), answer).0)
    ensures DriftOk(db.stakes, st.id, kpc, t, later, skipped || NextReconcile(db, st, ReadForMove(to), answer).2.Some?)
  {
  }

  /** The write discharges the debt or gives the move up. */
  lemma DriftWhenPaid(db: Tables, winners: map<(nat, StakeState), nat>, i: nat, st: StakeRow, to: StakeState, seen: BalanceRow, answer: Answer,
                      kpc: CreatePc, t: Tally, debts: Debts, later: Debts, skipped: bool)
    requires Owns(db.stakes, winners, i, st, to) && NotYet(t, to)
    requires DriftOk(db.stakes, st.id, kpc, t, debts, skipped) && DebtOf(debts, to)
    requires DebtsMove(debts, later, WriteMove(to, seen), ReconcileDone)
    ensures var (next, effect, skip) := NextReconcile(db, st, WriteMove(to, seen), answer);
            DriftOk(db.stakes, st.id, kpc, After(t, effect, st.id), later, skipped || skip.Some?)
  {
  }

  predicate DebtOf(debts: Debts, to: StakeState) {
    (to == Active ==> debts.confirm) && (to == Failed ==> debts.release) && (to == Withdrawn ==> debts.complete)
  }

  lemma ReconcileDrift(db: Tables, winners: map<(nat, StakeState), nat>, i: nat, st: StakeRow, pc: ReconcilePc, answer: Answer,
                       kpc: CreatePc, t: Tally, debts: Debts, later: Debts, skipped: bool)
    requires ReconcileOk(db.stakes, winners, i, st, pc) && !pc.ReconcileDone?
    requires StateAllows(db.stakes[st.id].state, t) && Lockstep(db.stakes[st.id])
    requires pc.ReadForMove? || pc.WriteMove? ==> NotYet(t, pc.to) && DebtOf(debts, pc.to)
    requires DriftOk(db.stakes, st.id, kpc, t, debts, skipped)
    requires DebtsMove(debts, later, pc, NextReconcile(db, st, pc, answer).0)
    ensures var (next, effect, skip) := NextReconcile(db, st, pc, answer);
            DriftOk(StakesAfter(db.stakes, effect), st.id, kpc, After(t, effect, st.id), later, skipped || skip.Some?)
  {
    match pc
    case AskStatus =>
    case WriteStake(to) =>
      if answer == Fine && CanUpdate(db.stakes, Reconciled(st, to)) {
        DriftWhenWon(st, db.stakes, kpc, t, debts, later, to, skipped);
      } else {
        assert later == debts;
      }
    case ReadForMove(to) => DriftWhenRead(db, winners, i, st, to, answer, kpc, t, debts, later, skipped);
    case WriteMove(to, seen) => DriftWhenPaid(db, winners, i, st, to, seen, answer, kpc, t, debts, later, skipped);
  }

  // ---- Debts across a step -------------------------------------------------------

  function DebtsAfter(s: State, i: nat, turn: Turn, k: nat): Debts
    requires i < |s.ops|
  {
    DebtsOf(WinnersAfter(s.winners, i, turn.effect), s.ops[i := turn.op], k)
  }

  lemma DebtsElsewhere(s: State, i: nat, turn: Turn, k: nat)
    requires i < |s.ops| && SameCall(s.ops[i], turn.op)
    requires s.ops[i].Reconcile? ==> s.ops[i].st.id != k
    requires turn.effect.MoveStake? ==> turn.effect.row.id != k || turn.effect.row.state == Unstaking
    ensures DebtsAfter(s, i, turn, k) == DebtsOf(s.winners, s.ops, k)
  {
  }

  lemma DebtsHere(s: State, i: nat, st: StakeRow, pc: ReconcilePc, turn: Turn)
    requires i < |s.ops| && s.ops[i] == Reconcile(st, pc) && turn.op.Reconcile? && turn.op.st == st
    requires ReconcileOk(s.db.stakes, s.winners, i, st, pc)
    requires turn.effect.MoveStake? ==>
      pc.WriteStake? && turn.effect.row.id == st.id && turn.effect.row.state == pc.to && turn.op.rpc == ReadForMove(pc.to)
    requires !turn.effect.MoveStake? ==> pc.ReadForMove? || pc.WriteMove? || !OnDuty(turn.op)
    requires OnDuty(s.ops[i]) && OnDuty(turn.op) ==> turn.op.rpc.to == pc.to
    ensures DebtsMove(DebtsOf(s.winners, s.ops, st.id), DebtsAfter(s, i, turn, st.id), pc, turn.op.rpc)
  {
  }

  lemma DutyIsDebt(s: State, i: nat)
    requires StakeInv(s) && i < |s.ops| && OnDuty(s.ops[i])
    ensures Owing(s.winners, s.ops, s.ops[i].st.id, s.ops[i].rpc.to)
  {
    assert OpOk(s.db.stakes, s.winners, i, s.ops[i]);
  }

  // ---- One step ------------------------------------------------------------------

  ghost predicate DriftAt(s: State, k: nat) {
    k < |s.ops| && s.ops[k].Create? ==>
      DriftOk(s.db.stakes, k, s.ops[k].cpc, Count(s.journal, k), DebtsOf(s.winners, s.ops, k), k in s.skipped)
  }

  /** The obligation of a turn at stake `k`, in terms of what the turn changes. */
  ghost predicate DriftTurn(s: State, i: nat, turn: Turn, k: nat)
    requires i < |s.ops|
  {
    var op := if k == i then turn.op else if k < |s.ops| then s.ops[k] else turn.op;
    k < |s.ops| && op.Create? ==>
      DriftOk(StakesAfter(s.db.stakes, turn.effect), k, op.cpc, CountAfter(s.journal, turn.effect, k),
              DebtsAfter(s, i, turn, k), k in s.skipped || turn.skip == Some(k))
  }

  lemma DriftCommit(s: State, i: nat, turn: Turn, k: nat)
    requires i < |s.ops| && DriftTurn(s, i, turn, k)
    requires Commit(s, i, turn).db.stakes == StakesAfter(s.db.stakes, turn.effect)
    ensures DriftAt(Commit(s, i, turn), k)
  {
    CountCommit(s, i, turn, k);
  }

  /** Nothing about stake `k` changed. */
  lemma DriftElsewhere(s: State, i: nat, turn: Turn, k: nat)
    requires i < |s.ops| && SameCall(s.ops[i], turn.op) && DriftAt(s, k) && k != i
    requires s.ops[i].Reconcile? ==> s.ops[i].st.id != k
    requires !Touches(turn.effect, k) && turn.skip != Some(k)
    ensures DriftTurn(s, i, turn, k)
  {
    DebtsElsewhere(s, i, turn, k);
  }

  lemma CreateFacts(s: State, i: nat, req: Request, pc: CreatePc, answer: Answer)
    requires PhaseInv(s) && i < |s.ops| && s.ops[i] == Create(req, pc)
    ensures CreateOk(s.db.stakes, i, req, pc) && CreateTally(s.db.stakes, i, req, pc, Count(s.journal, i))
    ensures var (next, effect, skip) := NextCreate(s.db, i, req, pc, answer);
            && (forall k :: Touches(effect, k) ==> k == i)
            && (skip.Some? ==> skip.value == i)
            && (effect.MoveStake? ==> effect.row.id == i)
  {
    assert OpOk(s.db.stakes, s.winners, i, s.ops[i]);
    assert TallyOk(s.db.stakes, s.ops, i, Count(s.journal, i));
    CreateTallyTurn(s.db, i, req, pc, answer, Count(s.journal, i));
  }

  lemma CreateDrifts(s: State, i: nat, req: Request, pc: CreatePc, answer: Answer, k: nat)
    requires PhaseInv(s) && i < |s.ops| && s.ops[i] == Create(req, pc) && DriftAt(s, k)
    ensures var (next, effect, skip) := NextCreate(s.db, i, req, pc, answer);
            DriftTurn(s, i, Turn(Create(req, next), effect, skip), k)
  {
    var (next, effect, skip) := NextCreate(s.db, i, req, pc, answer);
    var turn := Turn(Create(req, next), effect, skip);
    CreateFacts(s, i, req, pc, answer);
    if k == i {
      if !effect.MoveStake? { DebtsElsewhere(s, i, turn, i); }
      CreateDrift(s.db, i, req, pc, answer, Count(s.journal, i), DebtsOf(s.winners, s.ops, i), DebtsAfter(s, i, turn, i), i in s.skipped);
    } else {
      DriftElsewhere(s, i, turn, k);
    }
  }

  lemma UnstakeDrifts(s: State, i: nat, q: nat, pc: UnstakePc, answer: Answer, k: nat)
    requires PhaseInv(s) && i < |s.ops| && s.ops[i] == Unstake(q, pc) && DriftAt(s, k)
    ensures var (next, effect) := NextUnstake(s.db, q, pc, answer);
            DriftTurn(s, i, Turn(Unstake(q, next), effect, None), k)
  {
    var (next, effect) := NextUnstake(s.db, q, pc, answer);
    assert OpOk(s.db.stakes, s.winners, i, s.ops[i]);
    DebtsElsewhere(s, i, Turn(Unstake(q, next), effect, None), k);
  }

  /** What the invariants say about a poller operation and its stake. */
  lemma ReconcileFacts(s: State, i: nat, st: StakeRow, pc: ReconcilePc)
    requires PhaseInv(s) && i < |s.ops| && s.ops[i] == Reconcile(st, pc)
    ensures ReconcileOk(s.db.stakes, s.winners, i, st, pc)
    ensures !pc.ReconcileDone? ==>
              && st.id in s.db.stakes && Lockstep(s.db.stakes[st.id]) && st.id < |s.ops| && s.ops[st.id].Create? && st.id != i
              && CreateOk(s.db.stakes, st.id, s.ops[st.id].req, s.ops[st.id].cpc)
              && CreateTally(s.db.stakes, st.id, s.ops[st.id].req, s.ops[st.id].cpc, Count(s.journal, st.id))
    ensures pc.ReadForMove? || pc.WriteMove? ==> NotYet(Count(s.journal, st.id), pc.to)
  {
    assert OpOk(s.db.stakes, s.winners, i, s.ops[i]);
    if !pc.ReconcileDone? {
      assert RowOk(s.ops, st.id, s.db.stakes[st.id]);
      assert OpOk(s.db.stakes, s.winners, st.id, s.ops[st.id]);
      assert TallyOk(s.db.stakes, s.ops, st.id, Count(s.journal, st.id));
    }
  }

  lemma ReconcileShape(db: Tables, st: StakeRow, pc: ReconcilePc, answer: Answer)
    ensures var (next, effect, skip) := NextReconcile(db, st, pc, answer);
            && (skip.Some? ==> skip.value == st.id && !pc.ReconcileDone?)
            && (forall k :: Touches(effect, k) ==> k == st.id)
            && (effect.MoveStake? ==> pc.WriteStake? && effect.row.id == st.id && effect.row.state == pc.to && next == ReadForMove(pc.to))
            && (!effect.MoveStake? ==> pc.ReadForMove? || pc.WriteMove? || !(next.ReadForMove? || next.WriteMove?))
            && (pc.ReadForMove? || pc.WriteMove? ==> next.ReconcileDone? || (next.WriteMove? && next.to == pc.to))
            && (pc.ReconcileDone? ==> next == pc && effect == NoEffect)
  {
  }

  lemma ReconcileDrifts(s: State, i: nat, st: StakeRow, pc: ReconcilePc, answer: Answer, k: nat)
    requires PhaseInv(s) && i < |s.ops| && s.ops[i] == Reconcile(st, pc) && DriftAt(s, k)
    ensures var (next, effect, skip) := NextReconcile(s.db, st, pc, answer);
            DriftTurn(s, i, Turn(Reconcile(st, next), effect, skip), k)
  {
    var (next, effect, skip) := NextReconcile(s.db, st, pc, answer);
    var turn := Turn(Reconcile(st, next), effect, skip);
    ReconcileShape(s.db, st, pc, answer);
    if pc.ReconcileDone? {
      assert s.ops[i := turn.op] == s.ops;
    } else if k == i {
    } else if k != st.id {
      DriftElsewhere(s, i, turn, k);
    } else {
      ReconcileDriftsHere(s, i, st, pc, answer);
    }
  }

  lemma ReconcileDriftsHere(s: State, i: nat, st: StakeRow, pc: ReconcilePc, answer: Answer)
    requires PhaseInv(s) && i < |s.ops| && s.ops[i] == Reconcile(st, pc) && DriftAt(s, st.id) && !pc.ReconcileDone?
    ensures var (next, effect, skip) := NextReconcile(s.db, st, pc, answer);
            DriftTurn(s, i, Turn(Reconcile(st, next), effect, skip), st.id)
  {
    var k, turn := st.id, Decide(s.db, i, s.ops[i], answer);
    ReconcileFacts(s, i, st, pc);
    ReconcileShape(s.db, st, pc, answer);
    DebtsHere(s, i, st, pc, turn);
    if OnDuty(s.ops[i]) { DutyIsDebt(s, i); }
    ReconcileDrift(s.db, s.winners, i, st, pc, answer, s.ops[k].cpc, Count(s.journal, k),
                   DebtsOf(s.winners, s.ops, k), DebtsAfter(s, i, turn, k), k in s.skipped);
  }

  lemma OtherDrifts(s: State, i: nat, answer: Answer, k: nat)
    requires i < |s.ops| && (s.ops[i].SetBalance? || s.ops[i].Credit?) && DriftAt(s, k)
    requires k < |s.ops| && s.ops[k].Create?
    ensures DriftTurn(s, i, Decide(s.db, i, s.ops[i], answer), k)
  {
    DriftElsewhere(s, i, Decide(s.db, i, s.ops[i], answer), k);
  }

  lemma EveryDrift(s: State, i: nat, answer: Answer, k: nat)
    requires PhaseInv(s) && i < |s.ops| && DriftAt(s, k) && k < |s.ops| && s.ops[k].Create?
    ensures DriftTurn(s, i, Decide(s.db, i, s.ops[i], answer), k)
  {
    match s.ops[i]
    case Create(req, pc) => CreateDrifts(s, i, req, pc, answer, k);
    case Unstake(q, pc) => UnstakeDrifts(s, i, q, pc, answer, k);
    case Reconcile(st, pc) => ReconcileDrifts(s, i, st, pc, answer, k);
    case _ => OtherDrifts(s, i, answer, k);
  }

  predicate SkipOk(s: State, i: nat, turn: Turn) {
    turn.skip.Some? ==> turn.skip.value < |s.ops| && (s.ops[turn.skip.value].Create? || s.ops[turn.skip.value].Credit?)
  }

  lemma CreditShape(db: Tables, i: nat, op: Op, answer: Answer)
    requires op.Credit?
    ensures var (next, effect, skip) := NextCredit(db, i, op, answer); skip.Some? ==> skip.value == i
  {
  }

  lemma EverySkip(s: State, i: nat, answer: Answer)
    requires PhaseInv(s) && i < |s.ops|
    ensures SkipOk(s, i, Decide(s.db, i, s.ops[i], answer))
  {
    match s.ops[i]
    case Create(req, pc) => CreateFacts(s, i, req, pc, answer);
    case Reconcile(st, pc) =>
      ReconcileFacts(s, i, st, pc);
      ReconcileShape(s.db, st, pc, answer);
    case Credit(_, _, _, _, _) => CreditShape(s.db, i, s.ops[i], answer);
    case _ =>
  }

  lemma DriftsAfter(s: State, i: nat, turn: Turn)
    requires SkipsOk(s) && i < |s.ops| && SameCall(s.ops[i], turn.op) && SkipOk(s, i, turn)
    requires Commit(s, i, turn).db.stakes == StakesAfter(s.db.stakes, turn.effect)
    requires forall k :: 0 <= k < |s.ops| && s.ops[k].Create? ==> DriftTurn(s, i, turn, k)
    ensures DriftsOk(Commit(s, i, turn)) && SkipsOk(Commit(s, i, turn))
  {
    var t := Commit(s, i, turn);
    forall k | 0 <= k < |t.ops| && t.ops[k].Create? ensures DriftAt(t, k) {
      DriftCommit(s, i, turn, k);
    }
  }

  lemma DriftAdvance(s: State, i: nat, answer: Answer)
    requires DriftInv(s) && i < |s.ops|
    ensures DriftInv(Step(s, Advance(i, answer)))
  {
    PhaseStep(s, Advance(i, answer));
    var turn := Decide(s.db, i, s.ops[i], answer);
    EveryTurn(s, i, answer);
    CommitKeeps(s, i, turn);
    EverySkip(s, i, answer);
    forall k | 0 <= k < |s.ops| && s.ops[k].Create? ensures DriftTurn(s, i, turn, k) {
      assert DriftAt(s, k);
      EveryDrift(s, i, answer, k);
    }
    DriftsAfter(s, i, turn);
  }

  lemma DriftBegin(s: State, call: Call)
    requires DriftInv(s)
    ensures DriftInv(Step(s, Begin(call)))
  {
    PhaseStep(s, Begin(call));
    var t := Step(s, Begin(call));
    forall k | 0 <= k < |t.ops| && t.ops[k].Create? ensures DriftAt(t, k) {
      BeginDebts(s, call, k);
      if k < |s.ops| { assert DriftAt(s, k); } else { NewHasNoDrift(s, call); }
    }
  }

  /** An operation not yet begun has won nothing. */
  lemma BeginDebts(s: State, call: Call, k: nat)
    ensures var t := Step(s, Begin(call)); DebtsOf(t.winners, t.ops, k) == DebtsOf(s.winners, s.ops, k)
  {
  }

  lemma NewHasNoDrift(s: State, call: Call)
    requires DriftInv(s)
    ensures DriftAt(Step(s, Begin(call)), |s.ops|)
  {
    var n := |s.ops|;
    assert TallyOk(s.db.stakes, s.ops, n, Count(s.journal, n));
    assert n in s.db.stakes ==> RowOk(s.ops, n, s.db.stakes[n]);
  }

  lemma {:induction false} DriftsHold(events: seq<Event>)
    ensures DriftInv(Run(events))
  {
    if events != [] {
      var before, e := events[..|events| - 1], events[|events| - 1];
      DriftsHold(before);
      match e
      case Begin(call) => DriftBegin(Run(before), call);
      case Advance(i, answer) => if i < |Run(before).ops| { DriftAdvance(Run(before), i, answer); }
    }
  }
}
