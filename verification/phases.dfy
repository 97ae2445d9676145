/** How often each bucket move happens for one stake or one reward.  The counts are taken
    over the journal of committed balance writes, in every run, overwriting upserts
    included: they rest on the versioned stake writes alone. */
module Phases {
  import opened Rows
  import opened Protocol
  import opened Lifecycle

  datatype Tally = Tally(held: nat, confirmed: nat, released: nat, completed: nat, credited: nat)

  const ZERO := Tally(0, 0, 0, 0, 0)

  /** Committed writes that concern id `k`, by kind. */
  function Count(journal: seq<Entry>, k: nat): Tally {
    if journal == [] then ZERO
    else Bump(Count(journal[..|journal| - 1], k), journal[|journal| - 1].change, k)
  }

  predicate Concerns(c: Change, k: nat) {
    (c.Held? || c.Confirmed? || c.Released? || c.Completed? || c.Credited?) && c.id == k
  }

  function Bump(t: Tally, c: Change, k: nat): Tally {
    if !Concerns(c, k) then t
    else match c
      case Held(_, _) => t.(held := t.held + 1)
      case Confirmed(_, _) => t.(confirmed := t.confirmed + 1)
      case Released(_, _) => t.(released := t.released + 1)
      case Completed(_, _) => t.(completed := t.completed + 1)
      case _ => t.(credited := t.credited + 1)
  }

  lemma CountAppend(journal: seq<Entry>, e: Entry, k: nat)
    ensures Count(journal + [e], k) == Bump(Count(journal, k), e.change, k)
  {
    assert (journal + [e])[..|journal|] == journal;
  }

  // ---- What a stake's state says about its counts --------------------------------

  predicate StateAllows(state: StakeState, t: Tally) {
    match state
    case Pending => t.confirmed == 0 && t.released <= 1 && t.completed == 0
    case Delegating => t.confirmed == 0 && t.released == 0 && t.completed == 0
    case Active => t.confirmed <= 1 && t.released == 0 && t.completed == 0
    case Unstaking => t.confirmed <= 1 && t.released == 0 && t.completed == 0
    case Withdrawn => t.confirmed <= 1 && t.released == 0 && t.completed <= 1
    case Failed => t.confirmed == 0 && t.released <= 1 && t.completed == 0
  }

  predicate HoldAllows(pc: CreatePc, t: Tally) {
    match pc
    case CheckKey => t.held == 0
    case ReadForHold => t.held == 0
    case WriteHold(_) => t.held == 0
    case CreateDone(_) => t.held <= 1
    case _ => t.held == 1 && t.released == 0
  }

  predicate CreateTally(stakes: map<nat, StakeRow>, k: nat, req: Request, pc: CreatePc, t: Tally) {
    && t.credited == 0
    && (t.held > 0 ==> PositiveAmount(req))
    && HoldAllows(pc, t)
    && (if k in stakes then t.held == 1 && StateAllows(stakes[k].state, t)
        else t.confirmed == 0 && t.released == 0 && t.completed == 0)
  }

  predicate CreditTally(pc: CreditPc, t: Tally) {
    t == (if pc.CreditDone? && t.credited == 1 then ZERO.(credited := 1) else ZERO)
  }

  predicate OpTally(stakes: map<nat, StakeRow>, k: nat, op: Op, t: Tally) {
    match op
    case Create(req, pc) => CreateTally(stakes, k, req, pc, t)
    case Credit(_, _, _, _, pc) => CreditTally(pc, t)
    case _ => t == ZERO
  }

  predicate TallyOk(stakes: map<nat, StakeRow>, ops: seq<Op>, k: nat, t: Tally) {
    if k < |ops| then OpTally(stakes, k, ops[k], t) else t == ZERO
  }

  /** The move a poller owes after winning the stake write has not been made yet. */
  predicate NotYet(t: Tally, to: StakeState) {
    && (to == Active ==> t.confirmed == 0)
    && (to == Failed ==> t.released == 0)
    && (to == Withdrawn ==> t.completed == 0)
  }

  predicate OnDuty(op: Op) {
    op.Reconcile? && (op.rpc.ReadForMove? || op.rpc.WriteMove?)
  }

  ghost predicate TalliesOk(s: State) {
    forall k: nat :: TallyOk(s.db.stakes, s.ops, k, Count(s.journal, k))
  }

  ghost predicate DutiesOk(s: State) {
    forall j :: 0 <= j < |s.ops| && OnDuty(s.ops[j]) ==> NotYet(Count(s.journal, s.ops[j].st.id), s.ops[j].rpc.to)
  }

  ghost predicate PhaseInv(s: State) {
    StakeInv(s) && TalliesOk(s) && DutiesOk(s)
  }

  // ---- One step ------------------------------------------------------------------

  predicate Touches(effect: Effect, k: nat) {
    match effect
    case WriteBalance(_, change, _) => Concerns(change, k)
    case AddStake(row) => row.id == k
    case MoveStake(row) => row.id == k
    case _ => false
  }

  function CountAfter(journal: seq<Entry>, effect: Effect, k: nat): Tally {
    if effect.WriteBalance? then Bump(Count(journal, k), effect.change, k) else Count(journal, k)
  }

  lemma CountCommit(s: State, i: nat, turn: Turn, k: nat)
    requires i < |s.ops|
    ensures Count(Commit(s, i, turn).journal, k) == CountAfter(s.journal, turn.effect, k)
  {
    if turn.effect.WriteBalance? { CountAppend(s.journal, Entry(turn.effect.account, turn.effect.change), k); }
  }

  /** What the acting operation must show: its own tally, the tally it touches, its duty,
      and that nobody else owes the move it makes. */
  ghost predicate PhaseTurn(s: State, i: nat, turn: Turn)
    requires i < |s.ops|
  {
    && OpTally(StakesAfter(s.db.stakes, turn.effect), i, turn.op, CountAfter(s.journal, turn.effect, i))
    && (forall k :: 0 <= k < |s.ops| && k != i && Touches(turn.effect, k) ==>
          OpTally(StakesAfter(s.db.stakes, turn.effect), k, s.ops[k], CountAfter(s.journal, turn.effect, k)))
    && (forall k: nat :: Touches(turn.effect, k) ==> k < |s.ops|)
    && (OnDuty(turn.op) ==> NotYet(CountAfter(s.journal, turn.effect, turn.op.st.id), turn.op.rpc.to))
    && (turn.effect.WriteBalance? ==> forall j :: 0 <= j < |s.ops| && j != i && OnDuty(s.ops[j]) ==>
          NotYet(CountAfter(s.journal, turn.effect, s.ops[j].st.id), s.ops[j].rpc.to))
  }

  lemma TallyAfter(s: State, i: nat, turn: Turn, k: nat)
    requires TalliesOk(s) && i < |s.ops| && PhaseTurn(s, i, turn)
    ensures TallyOk(StakesAfter(s.db.stakes, turn.effect), s.ops[i := turn.op], k, CountAfter(s.journal, turn.effect, k))
  {
    assert TallyOk(s.db.stakes, s.ops, k, Count(s.journal, k));
    assert Touches(turn.effect, k) ==> k < |s.ops|;
  }

  lemma PhaseCommit(s: State, i: nat, turn: Turn)
    requires PhaseInv(s) && i < |s.ops|
    requires TurnOk(s.db.stakes, s.winners, i, s.ops[i], turn) && PhaseTurn(s, i, turn)
    ensures PhaseInv(Commit(s, i, turn))
  {
    var t := Commit(s, i, turn);
    CommitKeeps(s, i, turn);
    forall k: nat ensures TallyOk(t.db.stakes, t.ops, k, Count(t.journal, k)) {
      CountCommit(s, i, turn, k);
      TallyAfter(s, i, turn, k);
    }
    forall j | 0 <= j < |t.ops| && OnDuty(t.ops[j]) ensures NotYet(Count(t.journal, t.ops[j].st.id), t.ops[j].rpc.to) {
      CountCommit(s, i, turn, t.ops[j].st.id);
    }
  }

  lemma CreateTallyTurn(db: Tables, i: nat, req: Request, pc: CreatePc, answer: Answer, t: Tally)
    requires CreateOk(db.stakes, i, req, pc) && CreateTally(db.stakes, i, req, pc, t)
    ensures var (next, effect, _) := NextCreate(db, i, req, pc, answer);
            && CreateTally(StakesAfter(db.stakes, effect), i, req, next, if effect.WriteBalance? then Bump(t, effect.change, i) else t)
            && (forall k :: Touches(effect, k) ==> k == i)
            && (effect.WriteBalance? ==>
                  effect.change.Held? || (effect.change.Released? && effect.change.id == i && pc.WriteRollback?))
  {
  }

  /** A rollback and a poller's release of the same stake exclude each other: the row
      the poller failed has version 3. */
  lemma CreateDuty(s: State, i: nat, change: Change, j: nat)
    requires PhaseInv(s) && i < |s.ops| && s.ops[i].Create?
    requires change.Held? || (change.Released? && change.id == i && s.ops[i].cpc.WriteRollback?)
    requires j < |s.ops| && OnDuty(s.ops[j])
    ensures NotYet(Bump(Count(s.journal, s.ops[j].st.id), change, s.ops[j].st.id), s.ops[j].rpc.to)
  {
    assert OpOk(s.db.stakes, s.winners, i, s.ops[i]);
    assert OpOk(s.db.stakes, s.winners, j, s.ops[j]);
  }

  lemma CreatePhase(s: State, i: nat, req: Request, pc: CreatePc, answer: Answer)
    requires PhaseInv(s) && i < |s.ops| && s.ops[i] == Create(req, pc)
    ensures var (next, effect, skip) := NextCreate(s.db, i, req, pc, answer);
            PhaseTurn(s, i, Turn(Create(req, next), effect, skip))
  {
    assert TallyOk(s.db.stakes, s.ops, i, Count(s.journal, i));
    assert OpOk(s.db.stakes, s.winners, i, s.ops[i]);
    CreateTallyTurn(s.db, i, req, pc, answer, Count(s.journal, i));
    var effect := NextCreate(s.db, i, req, pc, answer).1;
    if effect.WriteBalance? {
      forall j | 0 <= j < |s.ops| && j != i && OnDuty(s.ops[j])
        ensures NotYet(CountAfter(s.journal, effect, s.ops[j].st.id), s.ops[j].rpc.to)
      {
        CreateDuty(s, i, effect.change, j);
      }
    }
  }

  /** A won Unstake write moves an ACTIVE stake on; its counts allow UNSTAKING too. */
  lemma UnstakePhase(s: State, i: nat, k: nat, pc: UnstakePc, answer: Answer)
    requires PhaseInv(s) && i < |s.ops| && s.ops[i] == Unstake(k, pc)
    ensures var (next, effect) := NextUnstake(s.db, k, pc, answer);
            PhaseTurn(s, i, Turn(Unstake(k, next), effect, None))
  {
    assert TallyOk(s.db.stakes, s.ops, i, Count(s.journal, i));
    assert OpOk(s.db.stakes, s.winners, i, s.ops[i]);
    if pc.WriteUnstaking? {
      assert RowOk(s.ops, pc.st.id, s.db.stakes[pc.st.id]);
      assert TallyOk(s.db.stakes, s.ops, pc.st.id, Count(s.journal, pc.st.id));
    }
  }

  /** Only the winner of the versioned stake write owes the bucket move, so making it
      leaves every other operation's debt alone. */
  lemma ReconcileTallyTurn(db: Tables, winners: map<(nat, StakeState), nat>, i: nat, st: StakeRow, pc: ReconcilePc, answer: Answer,
                           kreq: Request, kpc: CreatePc, t: Tally)
    requires ReconcileOk(db.stakes, winners, i, st, pc) && !pc.ReconcileDone?
    requires CreateTally(db.stakes, st.id, kreq, kpc, t) && Lockstep(db.stakes[st.id])
    requires CreateOk(db.stakes, st.id, kreq, kpc)
    requires pc.ReadForMove? || pc.WriteMove? ==> NotYet(t, pc.to)
    ensures var (next, effect, _) := NextReconcile(db, st, pc, answer);
            && CreateTally(StakesAfter(db.stakes, effect), st.id, kreq, kpc, if effect.WriteBalance? then Bump(t, effect.change, st.id) else t)
            && (forall k :: Touches(effect, k) ==> k == st.id)
            && (next.ReadForMove? || next.WriteMove? ==> NotYet(if effect.WriteBalance? then Bump(t, effect.change, st.id) else t, next.to))
  {
  }

  lemma RivalDuty(s: State, i: nat, seen: BalanceRow, j: nat)
    requires PhaseInv(s) && i < |s.ops| && s.ops[i].Reconcile? && s.ops[i].rpc.WriteMove?
    requires j < |s.ops| && j != i && OnDuty(s.ops[j])
    ensures var k := s.ops[j].st.id;
            NotYet(Bump(Count(s.journal, k), Written(s.ops[i].st, s.ops[i].rpc.to, seen), k), s.ops[j].rpc.to)
  {
    assert OpOk(s.db.stakes, s.winners, i, s.ops[i]);
    assert OpOk(s.db.stakes, s.winners, j, s.ops[j]);
  }

  lemma ReconcilePhase(s: State, i: nat, st: StakeRow, pc: ReconcilePc, answer: Answer)
    requires PhaseInv(s) && i < |s.ops| && s.ops[i] == Reconcile(st, pc)
    ensures var (next, effect, skip) := NextReconcile(s.db, st, pc, answer);
            PhaseTurn(s, i, Turn(Reconcile(st, next), effect, skip))
  {
    assert OpOk(s.db.stakes, s.winners, i, s.ops[i]);
    assert TallyOk(s.db.stakes, s.ops, i, Count(s.journal, i));
    if !pc.ReconcileDone? {
      assert RowOk(s.ops, st.id, s.db.stakes[st.id]);
      assert OpOk(s.db.stakes, s.winners, st.id, s.ops[st.id]);
      assert TallyOk(s.db.stakes, s.ops, st.id, Count(s.journal, st.id));
      ReconcileTallyTurn(s.db, s.winners, i, st, pc, answer, s.ops[st.id].req, s.ops[st.id].cpc, Count(s.journal, st.id));
      if pc.WriteMove? {
        forall j | 0 <= j < |s.ops| && j != i && OnDuty(s.ops[j])
          ensures NotYet(Bump(Count(s.journal, s.ops[j].st.id), Written(st, pc.to, pc.seen), s.ops[j].st.id), s.ops[j].rpc.to)
        {
          RivalDuty(s, i, pc.seen, j);
        }
      }
    }
  }

  lemma SetPhase(s: State, i: nat, a: Account, x: int, pc: SetPc, answer: Answer)
    requires PhaseInv(s) && i < |s.ops| && s.ops[i] == SetBalance(a, x, pc)
    ensures var (next, effect) := NextSet(s.db, a, x, pc, answer);
            PhaseTurn(s, i, Turn(SetBalance(a, x, next), effect, None))
  {
    assert TallyOk(s.db.stakes, s.ops, i, Count(s.journal, i));
  }

  lemma CreditPhase(s: State, i: nat, op: Op, answer: Answer)
    requires PhaseInv(s) && i < |s.ops| && s.ops[i] == op && op.Credit?
    ensures var (next, effect, skip) := NextCredit(s.db, i, op, answer);
            PhaseTurn(s, i, Turn(op.(dpc := next), effect, skip))
  {
    assert TallyOk(s.db.stakes, s.ops, i, Count(s.journal, i));
  }

  lemma PhaseBegin(s: State, call: Call)
    requires PhaseInv(s)
    ensures PhaseInv(Step(s, Begin(call)))
  {
    BeginKeeps(s, call);
    IdsDrawn(s);
    var t := Step(s, Begin(call));
    forall k: nat ensures TallyOk(t.db.stakes, t.ops, k, Count(t.journal, k)) {
      assert TallyOk(s.db.stakes, s.ops, k, Count(s.journal, k));
    }
  }

  lemma PhaseStep(s: State, e: Event)
    requires PhaseInv(s)
    ensures PhaseInv(Step(s, e))
  {
    match e
    case Begin(call) => PhaseBegin(s, call);
    case Advance(i, answer) =>
      if i < |s.ops| {
        EveryTurn(s, i, answer);
        match s.ops[i] {
          case Create(req, pc) => CreatePhase(s, i, req, pc, answer);
          case Unstake(k, pc) => UnstakePhase(s, i, k, pc, answer);
          case SetBalance(a, x, pc) => SetPhase(s, i, a, x, pc, answer);
          case Reconcile(st, pc) => ReconcilePhase(s, i, st, pc, answer);
          case Credit(_, _, _, _, _) => CreditPhase(s, i, s.ops[i], answer);
        }
        PhaseCommit(s, i, Decide(s.db, i, s.ops[i], answer));
      }
  }

  lemma {:induction false} PhasesOk(events: seq<Event>)
    ensures PhaseInv(Run(events))
  {
    if events != [] {
      var before := events[..|events| - 1];
      PhasesOk(before);
      PhaseStep(Run(before), events[|events| - 1]);
    }
  }
}
