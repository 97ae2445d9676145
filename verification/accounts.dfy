/** The buckets of a row as sums over holds: exact accounting, solvency, and the moves
    that can never be refused. */
module Accounts {
  import opened Rows
  import opened Protocol
  import opened Lifecycle
  import opened Phases
  import opened Locking
  import opened Sums

  /** The request whose hold carries id `k`, if it concerns account `a`. */
  predicate HoldOn(ops: seq<Op>, a: Account, k: nat) {
    k < |ops| && ops[k].Create? && ops[k].req.account == a
  }

  /** What hold `k` contributes to the pending bucket of account `a`. */
  function PendingPart(s: State, a: Account): nat -> int {
    (k: nat) => if HoldOn(s.ops, a, k) then PendingShare(Amount(s.ops[k].req), Count(s.journal, k)) else 0
  }

  function StakedPart(s: State, a: Account): nat -> int {
    (k: nat) => if HoldOn(s.ops, a, k) then StakedShare(Amount(s.ops[k].req), Count(s.journal, k)) else 0
  }

  function PendingShare(amount: int, t: Tally): int {
    amount * (t.held - t.confirmed - t.released)
  }

  function StakedShare(amount: int, t: Tally): int {
    amount * (t.confirmed - t.completed)
  }

  function PendingOf(balances: map<Account, BalanceRow>, a: Account): int {
    if a in balances then balances[a].pending else 0
  }

  function StakedOf(balances: map<Account, BalanceRow>, a: Account): int {
    if a in balances then balances[a].staked else 0
  }

  ghost predicate Accounted(s: State) {
    forall a :: PendingOf(s.db.balances, a) == Sum(PendingPart(s, a), |s.ops|)
             && StakedOf(s.db.balances, a) == Sum(StakedPart(s, a), |s.ops|)
  }

  ghost predicate LedgerInv(s: State) {
    PhaseInv(s) && LockInv(s) && Accounted(s)
  }

  // ---- One step ------------------------------------------------------------------

  predicate MovesHold(c: Change) {
    c.Held? || c.Confirmed? || c.Released? || c.Completed?
  }

  /** A bucket move names a hold on the account it writes, with that hold's amount. */
  predicate RightHold(ops: seq<Op>, effect: Effect) {
    effect.WriteBalance? && MovesHold(effect.change) ==>
      && HoldOn(ops, effect.account, effect.change.id)
      && Amount(ops[effect.change.id].req) == effect.change.amount
  }

  lemma CreateHold(db: Tables, i: nat, req: Request, pc: CreatePc, answer: Answer)
    ensures var effect := NextCreate(db, i, req, pc, answer).1;
            effect.WriteBalance? ==> effect.account == req.account && effect.change.id == i && effect.change.amount == Amount(req)
  {
  }

  lemma ReconcileHold(db: Tables, st: StakeRow, pc: ReconcilePc, answer: Answer)
    ensures var effect := NextReconcile(db, st, pc, answer).1;
            effect.WriteBalance? ==>
              pc.WriteMove? && effect.account == st.account
              && (effect.change == Untouched || (effect.change.id == st.id && effect.change.amount == st.amount))
  {
  }

  lemma EveryHold(s: State, i: nat, answer: Answer)
    requires StakeInv(s) && i < |s.ops|
    ensures RightHold(s.ops, Decide(s.db, i, s.ops[i], answer).effect)
  {
    match s.ops[i]
    case Create(req, pc) => CreateHold(s.db, i, req, pc, answer);
    case Reconcile(st, pc) =>
      ReconcileHold(s.db, st, pc, answer);
      if pc.WriteMove? {
        assert OpOk(s.db.stakes, s.winners, i, s.ops[i]);
        assert RowOk(s.ops, st.id, s.db.stakes[st.id]);
      }
    case _ =>
  }

  function PendingDelta(c: Change): int {
    match c
    case Held(_, amount) => amount
    case Confirmed(_, amount) => -amount
    case Released(_, amount) => -amount
    case _ => 0
  }

  function StakedDelta(c: Change): int {
    match c
    case Confirmed(_, amount) => amount
    case Completed(_, amount) => -amount
    case _ => 0
  }

  lemma ShareBump(amount: int, t: Tally, c: Change, k: nat)
    requires MovesHold(c) && c.id == k ==> c.amount == amount
    ensures PendingShare(amount, Bump(t, c, k)) == PendingShare(amount, t) + (if MovesHold(c) && c.id == k then PendingDelta(c) else 0)
    ensures StakedShare(amount, Bump(t, c, k)) == StakedShare(amount, t) + (if MovesHold(c) && c.id == k then StakedDelta(c) else 0)
  {
  }

  lemma SharesAfter(s: State, i: nat, turn: Turn, a: Account, k: nat)
    requires i < |s.ops| && SameCall(s.ops[i], turn.op) && RightHold(s.ops, turn.effect)
    ensures var t, e := Commit(s, i, turn), turn.effect;
            var here := e.WriteBalance? && MovesHold(e.change) && e.change.id == k && e.account == a;
            && PendingPart(t, a)(k) == PendingPart(s, a)(k) + (if here then PendingDelta(e.change) else 0)
            && StakedPart(t, a)(k) == StakedPart(s, a)(k) + (if here then StakedDelta(e.change) else 0)
  {
    CountCommit(s, i, turn, k);
    var e := turn.effect;
    if e.WriteBalance? && HoldOn(s.ops, a, k) {
      ShareBump(Amount(s.ops[k].req), Count(s.journal, k), e.change, k);
    }
  }

  lemma AccountCommit(s: State, i: nat, turn: Turn)
    requires Accounted(s) && i < |s.ops| && SameCall(s.ops[i], turn.op)
    requires RightHold(s.ops, turn.effect) && AtomicEffect(s.db.balances, turn.effect)
    ensures Accounted(Commit(s, i, turn))
  {
    var t, e, n := Commit(s, i, turn), turn.effect, |s.ops|;
    forall a
      ensures PendingOf(t.db.balances, a) == Sum(PendingPart(t, a), n) && StakedOf(t.db.balances, a) == Sum(StakedPart(t, a), n)
    {
      forall k | 0 <= k < n
        ensures var here := e.WriteBalance? && MovesHold(e.change) && e.change.id == k && e.account == a;
                && PendingPart(t, a)(k) == PendingPart(s, a)(k) + (if here then PendingDelta(e.change) else 0)
                && StakedPart(t, a)(k) == StakedPart(s, a)(k) + (if here then StakedDelta(e.change) else 0)
      {
        SharesAfter(s, i, turn, a, k);
      }
      if e.WriteBalance? && MovesHold(e.change) && e.account == a {
        SumChange(PendingPart(s, a), PendingPart(t, a), n, e.change.id);
        SumChange(StakedPart(s, a), StakedPart(t, a), n, e.change.id);
      } else {
        SumSame(PendingPart(s, a), PendingPart(t, a), n);
        SumSame(StakedPart(s, a), StakedPart(t, a), n);
      }
    }
  }

  lemma AccountBegin(s: State, call: Call)
    requires PhaseInv(s) && Accounted(s)
    ensures Accounted(Step(s, Begin(call)))
  {
    var t, n := Step(s, Begin(call)), |s.ops|;
    forall a
      ensures PendingOf(t.db.balances, a) == Sum(PendingPart(t, a), |t.ops|) && StakedOf(t.db.balances, a) == Sum(StakedPart(t, a), |t.ops|)
    {
      assert TallyOk(s.db.stakes, s.ops, n, Count(s.journal, n));
      SumSame(PendingPart(s, a), PendingPart(t, a), n);
      SumSame(StakedPart(s, a), StakedPart(t, a), n);
    }
  }

  lemma LedgerStep(s: State, e: Event)
    requires LedgerInv(s) && !Overwrites(s, e)
    ensures LedgerInv(Step(s, e))
  {
    PhaseStep(s, e);
    LockStep(s, e);
    match e
    case Begin(call) => AccountBegin(s, call);
    case Advance(i, answer) =>
      if i < |s.ops| {
        EveryTurn(s, i, answer);
        EveryHold(s, i, answer);
        EveryLock(s, i, answer);
        AccountCommit(s, i, Decide(s.db, i, s.ops[i], answer));
      }
  }

  lemma {:induction false} LedgerFrom(s: State, events: seq<Event>)
    requires LedgerInv(s) && NoOverwriteFrom(s, events)
    ensures LedgerInv(RunFrom(s, events))
  {
    if events != [] {
      var before := events[..|events| - 1];
      LedgerFrom(s, before);
      LedgerStep(RunFrom(s, before), events[|events| - 1]);
    }
  }

  lemma LedgerOk(events: seq<Event>)
    requires NoOverwrite(events)
    ensures LedgerInv(Run(events))
  {
    var s := Empty();
    forall a
      ensures PendingOf(s.db.balances, a) == Sum(PendingPart(s, a), |s.ops|) && StakedOf(s.db.balances, a) == Sum(StakedPart(s, a), |s.ops|)
    {
    }
    LedgerFrom(s, events);
  }
}
