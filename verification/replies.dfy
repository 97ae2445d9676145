/** What a reply tells its caller, in every run and for as long as the run goes on. */
module Replies {
  import opened Rows
  import opened Protocol
  import opened Lifecycle
  import opened Phases
  import opened Accounts
  import opened History

  /** The stored stake has gone on from the row returned. */
  predicate Traces(stakes: map<nat, StakeRow>, row: StakeRow) {
    Lockstep(row) && row.id in stakes && Descends(row, stakes[row.id])
  }

  /** Errors that mean the request was turned away before any write. */
  predicate TurnedAway(e: Error) {
    e == MalformedAmount || e == InvalidAmount || e == InsufficientBalance || e == BalanceNotFound
  }

  /** A position returned by `CreateStake` is the one it placed, or one already stored under
      its key; a request turned away has left neither a stake nor a hold. */
  predicate CreateReplyOk(stakes: map<nat, StakeRow>, i: nat, req: Request, pc: CreatePc, held: nat) {
    match pc
    case CreateDone(Position(row)) =>
      && Traces(stakes, row)
      && (if row.id == i then row.state == Delegating && SameIdentity(row, PendingStake(i, req)) else row.key == req.key != "")
    case CreateDone(Failure(e)) => TurnedAway(e) ==> i !in stakes && held == 0
    case _ => true
  }

  /** A position returned by `Unstake` is the stake asked for, and it is being unstaked. */
  predicate UnstakeReplyOk(stakes: map<nat, StakeRow>, k: nat, pc: UnstakePc) {
    match pc
    case UnstakeDone(Position(row)) => Traces(stakes, row) && row.id == k && Unstaked(row.state)
    case _ => true
  }

  predicate ReplyOk(stakes: map<nat, StakeRow>, i: nat, op: Op, held: nat) {
    match op
    case Create(req, pc) => CreateReplyOk(stakes, i, req, pc, held)
    case Unstake(k, pc) => UnstakeReplyOk(stakes, k, pc)
    case _ => true
  }

  ghost predicate RepliesOk(s: State) {
    forall i :: 0 <= i < |s.ops| ==> ReplyOk(s.db.stakes, i, s.ops[i], Count(s.journal, i).held)
  }

  // ---- One turn ------------------------------------------------------------------

  lemma CreateReply(db: Tables, i: nat, req: Request, pc: CreatePc, answer: Answer, t: Tally)
    requires CreateOk(db.stakes, i, req, pc) && CreateTally(db.stakes, i, req, pc, t)
    requires CreateReplyOk(db.stakes, i, req, pc, t.held)
    requires forall k :: k in db.stakes ==> db.stakes[k].id == k && Lockstep(db.stakes[k])
    ensures var (next, effect, skip) := NextCreate(db, i, req, pc, answer);
            next.CreateDone? ==> CreateReplyOk(StakesAfter(db.stakes, effect), i, req, next,
                                   if effect.WriteBalance? then Bump(t, effect.change, i).held else t.held)
  {
  }

  lemma UnstakeReply(db: Tables, winners: map<(nat, StakeState), nat>, i: nat, k: nat, pc: UnstakePc, answer: Answer)
    requires OpOk(db.stakes, winners, i, Unstake(k, pc)) && UnstakeReplyOk(db.stakes, k, pc)
    requires forall j :: j in db.stakes ==> db.stakes[j].id == j && Lockstep(db.stakes[j])
    ensures var (next, effect) := NextUnstake(db, k, pc, answer); UnstakeReplyOk(StakesAfter(db.stakes, effect), k, next)
  {
  }

  /** The reply of the operation that acts. */
  lemma OwnReply(s: State, i: nat, answer: Answer)
    requires PhaseInv(s) && RepliesOk(s) && i < |s.ops|
    ensures var turn := Decide(s.db, i, s.ops[i], answer);
            ReplyOk(StakesAfter(s.db.stakes, turn.effect), i, turn.op, CountAfter(s.journal, turn.effect, i).held)
  {
    forall k | k in s.db.stakes ensures s.db.stakes[k].id == k && Lockstep(s.db.stakes[k]) {
      assert RowOk(s.ops, k, s.db.stakes[k]);
    }
    assert OpOk(s.db.stakes, s.winners, i, s.ops[i]);
    assert TallyOk(s.db.stakes, s.ops, i, Count(s.journal, i));
    assert ReplyOk(s.db.stakes, i, s.ops[i], Count(s.journal, i).held);
    match s.ops[i]
    case Create(req, pc) => CreateReply(s.db, i, req, pc, answer, Count(s.journal, i));
    case Unstake(k, pc) => UnstakeReply(s.db, s.winners, i, k, pc, answer);
    case _ =>
  }

  /** Only the operation that owns an id adds its stake or takes its hold. */
  predicate OwnIdOnly(i: nat, effect: Effect) {
    && (effect.AddStake? ==> effect.row.id == i)
    && (effect.WriteBalance? && effect.change.Held? ==> effect.change.id == i)
  }

  lemma OthersOwnNothing(db: Tables, i: nat, op: Op, answer: Answer)
    requires !op.Create?
    ensures var effect := Decide(db, i, op, answer).effect; !effect.AddStake? && (effect.WriteBalance? ==> !effect.change.Held?)
  {
    match op
    case Reconcile(st, pc) => ReconcileHold(db, st, pc, answer);
    case _ =>
  }

  lemma EveryOwnId(db: Tables, i: nat, op: Op, answer: Answer)
    ensures OwnIdOnly(i, Decide(db, i, op, answer).effect)
  {
    match op
    case Create(req, pc) => CreateHold(db, i, req, pc, answer);
    case _ => OthersOwnNothing(db, i, op, answer);
  }

  lemma TracesOn(s: State, stakes: map<nat, StakeRow>, row: StakeRow)
    requires StakeInv(s) && Traces(s.db.stakes, row) && Evolves(s.db.stakes, stakes)
    ensures Traces(stakes, row)
  {
    assert RowOk(s.ops, row.id, s.db.stakes[row.id]);
    DescendsOn(row, s.db.stakes[row.id], stakes[row.id]);
  }

  /** The reply of an operation that does not act. */
  lemma OtherReply(s: State, i: nat, effect: Effect, j: nat)
    requires StakeInv(s) && RepliesOk(s) && i != j && j < |s.ops| && OwnIdOnly(i, effect)
    requires Evolves(s.db.stakes, StakesAfter(s.db.stakes, effect)) && (effect.MoveStake? ==> effect.row.id in s.db.stakes)
    ensures ReplyOk(StakesAfter(s.db.stakes, effect), j, s.ops[j], CountAfter(s.journal, effect, j).held)
  {
    assert ReplyOk(s.db.stakes, j, s.ops[j], Count(s.journal, j).held);
    match s.ops[j]
    case Create(_, CreateDone(Position(row))) => TracesOn(s, StakesAfter(s.db.stakes, effect), row);
    case Unstake(_, UnstakeDone(Position(row))) => TracesOn(s, StakesAfter(s.db.stakes, effect), row);
    case _ =>
  }

  lemma ReplyStep(s: State, e: Event)
    requires PhaseInv(s) && RepliesOk(s)
    ensures RepliesOk(Step(s, e))
  {
    match e
    case Begin(call) => ReplyBegin(s, call);
    case Advance(i, answer) =>
      if i < |s.ops| {
        var turn := Decide(s.db, i, s.ops[i], answer);
        EveryTurn(s, i, answer);
        CommitKeeps(s, i, turn);
        OwnReply(s, i, answer);
        EveryOwnId(s.db, i, s.ops[i], answer);
        ReplyCommit(s, i, turn);
      }
  }

  lemma ReplyCommit(s: State, i: nat, turn: Turn)
    requires StakeInv(s) && RepliesOk(s) && i < |s.ops| && StakeInv(Commit(s, i, turn))
    requires Evolves(s.db.stakes, Commit(s, i, turn).db.stakes) && OwnIdOnly(i, turn.effect)
    requires Commit(s, i, turn).db.stakes == StakesAfter(s.db.stakes, turn.effect)
    requires turn.effect.MoveStake? ==> turn.effect.row.id in s.db.stakes
    requires ReplyOk(StakesAfter(s.db.stakes, turn.effect), i, turn.op, CountAfter(s.journal, turn.effect, i).held)
    ensures RepliesOk(Commit(s, i, turn))
  {
    var t := Commit(s, i, turn);
    forall j | 0 <= j < |t.ops| ensures ReplyOk(t.db.stakes, j, t.ops[j], Count(t.journal, j).held) {
      CountCommit(s, i, turn, j);
      if j != i { OtherReply(s, i, turn.effect, j); }
    }
  }

  lemma ReplyBegin(s: State, call: Call)
    requires PhaseInv(s) && RepliesOk(s)
    ensures RepliesOk(Step(s, Begin(call)))
  {
    IdsDrawn(s);
    var t, n := Step(s, Begin(call)), |s.ops|;
    assert TallyOk(s.db.stakes, s.ops, n, Count(s.journal, n));
    forall j | 0 <= j < |t.ops| ensures ReplyOk(t.db.stakes, j, t.ops[j], Count(t.journal, j).held) {
      if j < n { assert ReplyOk(s.db.stakes, j, s.ops[j], Count(s.journal, j).held); }
    }
  }

  /** In every reachable state every reply given so far is honoured. */
  lemma {:induction false} RepliesHonoured(events: seq<Event>)
    ensures RepliesOk(Run(events))
  {
    if events != [] {
      var before := events[..|events| - 1];
      RepliesHonoured(before);
      PhasesOk(before);
      ReplyStep(Run(before), events[|events| - 1]);
    }
  }
}
