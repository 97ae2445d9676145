/** Optimistic locking: reading a row, computing in memory and writing it back under the
    version test has the effect of one atomic bucket operation, whatever steps in
    between.  True of every run in which no upsert overwrites a row. */
module Locking {
  import opened Rows
  import opened Protocol
  import opened Lifecycle

  /** The row obtained by applying the committed operations one after another. */
  function Replay(journal: seq<Entry>, a: Account): Option<BalanceRow> {
    if journal == [] then None
    else
      var row := Replay(journal[..|journal| - 1], a);
      var e := journal[|journal| - 1];
      if e.account != a then row
      else if e.change.Seeded? then Some(Apply(e.change, BLANK))
      else if row.Some? then Some(Apply(e.change, row.value))
      else None
  }

  /** Each operation met the row it needs and passed the domain method's guard there. */
  predicate Lawful(journal: seq<Entry>) {
    journal == [] ||
    (var before := journal[..|journal| - 1];
     var e := journal[|journal| - 1];
     var row := Replay(before, e.account);
     && Lawful(before)
     && (if e.change.Seeded? then row.None? && e.change.available >= 0
         else row.Some? && Refusal(e.change, row.value).None? && NonNegative(Apply(e.change, row.value))))
  }

  function Writes(journal: seq<Entry>, a: Account): nat {
    if journal == [] then 0
    else Writes(journal[..|journal| - 1], a) + (if journal[|journal| - 1].account == a then 1 else 0)
  }

  function Lookup(balances: map<Account, BalanceRow>, a: Account): Option<BalanceRow> {
    if a in balances then Some(balances[a]) else None
  }

  // ---- Copies held in memory -----------------------------------------------------

  /** A copy is never newer than the stored row, and equals it when as new. */
  predicate UpToDate(balances: map<Account, BalanceRow>, a: Account, seen: BalanceRow) {
    && a in balances
    && balances[a].version >= seen.version
    && (balances[a].version == seen.version ==> balances[a] == seen)
  }

  /** Copies carry what their guards established. */
  predicate CopyOk(balances: map<Account, BalanceRow>, i: nat, op: Op) {
    match op
    case Create(req, pc) =>
      (match pc
       case WriteHold(seen) =>
         UpToDate(balances, req.account, seen) && NonNegative(seen) && Refusal(Held(i, Amount(req)), seen).None?
       case InsertStake(seen) => HeldCopy(balances, i, req, seen)
       case CallStake(seen) => HeldCopy(balances, i, req, seen)
       case MarkFailed(seen, _) => HeldCopy(balances, i, req, seen)
       case WriteRollback(seen, _) => HeldCopy(balances, i, req, seen)
       case _ => true)
    case Unstake(_, _) => true
    case SetBalance(a, _, pc) => pc.WriteSet? ==> UpToDate(balances, a, pc.seen) && NonNegative(pc.seen)
    case Reconcile(st, pc) =>
      pc.WriteMove? ==>
        && UpToDate(balances, st.account, pc.seen) && NonNegative(pc.seen)
        && (pc.to != Failed ==> Refusal(Settlement(st, pc.to), pc.seen).None?)
    case Credit(_, a, amount, _, pc) =>
      && (pc.InsertReward? || pc.ReadForCredit? || pc.WriteCredit? ==> amount > 0)
      && (pc.WriteCredit? ==> UpToDate(balances, a, pc.seen) && NonNegative(pc.seen))
  }

  predicate HeldCopy(balances: map<Account, BalanceRow>, i: nat, req: Request, seen: BalanceRow) {
    UpToDate(balances, req.account, seen) && NonNegative(seen) && Refusal(Released(i, Amount(req)), seen).None?
  }

  ghost predicate CopiesOk(s: State) {
    forall i :: 0 <= i < |s.ops| ==> CopyOk(s.db.balances, i, s.ops[i])
  }

  ghost predicate Replayed(s: State) {
    && Lawful(s.journal)
    && forall a :: Replay(s.journal, a) == Lookup(s.db.balances, a)
  }

  ghost predicate RowsNonNegative(s: State) {
    forall a :: a in s.db.balances ==> NonNegative(s.db.balances[a])
  }

  ghost predicate LockInv(s: State) {
    CopiesOk(s) && Replayed(s) && RowsNonNegative(s)
  }

  // ---- One step ------------------------------------------------------------------

  function BalancesAfter(balances: map<Account, BalanceRow>, effect: Effect): map<Account, BalanceRow> {
    if effect.WriteBalance? then balances[effect.account := Apply(effect.change, effect.seen)] else balances
  }

  /** The write seeds an absent row, or applies an unrefused operation to the very row
      that was read. */
  predicate AtomicEffect(balances: map<Account, BalanceRow>, effect: Effect) {
    effect.WriteBalance? ==>
      var a, c := effect.account, effect.change;
      && NonNegative(Apply(c, effect.seen))
      && if c.Seeded? then a !in balances && effect.seen == BLANK
         else a in balances && balances[a] == effect.seen && Refusal(c, effect.seen).None?
  }

  predicate LockTurn(balances: map<Account, BalanceRow>, i: nat, turn: Turn) {
    AtomicEffect(balances, turn.effect) && CopyOk(BalancesAfter(balances, turn.effect), i, turn.op)
  }

  lemma CreateLock(db: Tables, i: nat, req: Request, pc: CreatePc, answer: Answer)
    requires CopyOk(db.balances, i, Create(req, pc))
    requires forall a :: a in db.balances ==> NonNegative(db.balances[a])
    ensures var (next, effect, skip) := NextCreate(db, i, req, pc, answer);
            LockTurn(db.balances, i, Turn(Create(req, next), effect, skip))
  {
  }

  lemma SetLock(db: Tables, i: nat, a: Account, x: int, pc: SetPc, answer: Answer)
    requires CopyOk(db.balances, i, SetBalance(a, x, pc))
    requires forall b :: b in db.balances ==> NonNegative(db.balances[b])
    requires pc == InsertBalance && answer == Fine && x >= 0 ==> a !in db.balances
    ensures var (next, effect) := NextSet(db, a, x, pc, answer);
            LockTurn(db.balances, i, Turn(SetBalance(a, x, next), effect, None))
  {
  }

  lemma ReconcileLock(db: Tables, i: nat, st: StakeRow, pc: ReconcilePc, answer: Answer)
    requires CopyOk(db.balances, i, Reconcile(st, pc))
    requires forall a :: a in db.balances ==> NonNegative(db.balances[a])
    ensures var (next, effect, skip) := NextReconcile(db, st, pc, answer);
            LockTurn(db.balances, i, Turn(Reconcile(st, next), effect, skip))
  {
  }

  lemma CreditLock(db: Tables, i: nat, op: Op, answer: Answer)
    requires op.Credit? && CopyOk(db.balances, i, op)
    requires forall a :: a in db.balances ==> NonNegative(db.balances[a])
    ensures var (next, effect, skip) := NextCredit(db, i, op, answer);
            LockTurn(db.balances, i, Turn(op.(dpc := next), effect, skip))
  {
  }

  lemma EveryLock(s: State, i: nat, answer: Answer)
    requires LockInv(s) && i < |s.ops| && !Overwrites(s, Advance(i, answer))
    ensures LockTurn(s.db.balances, i, Decide(s.db, i, s.ops[i], answer))
  {
    assert CopyOk(s.db.balances, i, s.ops[i]);
    match s.ops[i]
    case Create(req, pc) => CreateLock(s.db, i, req, pc, answer);
    case Unstake(_, _) =>
    case SetBalance(a, x, pc) => SetLock(s.db, i, a, x, pc, answer);
    case Reconcile(st, pc) => ReconcileLock(s.db, i, st, pc, answer);
    case Credit(_, _, _, _, _) => CreditLock(s.db, i, s.ops[i], answer);
  }

  lemma CopyStays(balances: map<Account, BalanceRow>, effect: Effect, j: nat, op: Op)
    requires AtomicEffect(balances, effect) && CopyOk(balances, j, op)
    ensures CopyOk(BalancesAfter(balances, effect), j, op)
  {
  }

  function JournalAfter(journal: seq<Entry>, effect: Effect): seq<Entry> {
    if effect.WriteBalance? then journal + [Entry(effect.account, effect.change)] else journal
  }

  /** The refinement step: a versioned write is one operation appended to the fold. */
  lemma ReplayWrite(journal: seq<Entry>, balances: map<Account, BalanceRow>, effect: Effect)
    requires Lawful(journal) && AtomicEffect(balances, effect)
    requires forall a :: Replay(journal, a) == Lookup(balances, a)
    ensures Lawful(JournalAfter(journal, effect))
    ensures forall a :: Replay(JournalAfter(journal, effect), a) == Lookup(BalancesAfter(balances, effect), a)
  {
    if effect.WriteBalance? {
      var after := JournalAfter(journal, effect);
      assert after[..|journal|] == journal;
      assert Replay(journal, effect.account) == Lookup(balances, effect.account);
      forall a ensures Replay(after, a) == Lookup(BalancesAfter(balances, effect), a) {
        assert Replay(journal, a) == Lookup(balances, a);
      }
    }
  }

  lemma CopiesAfter(s: State, i: nat, turn: Turn)
    requires CopiesOk(s) && i < |s.ops| && LockTurn(s.db.balances, i, turn)
    ensures CopiesOk(Commit(s, i, turn))
  {
    var t := Commit(s, i, turn);
    forall j | 0 <= j < |t.ops| ensures CopyOk(t.db.balances, j, t.ops[j]) {
      if j != i {
        assert CopyOk(s.db.balances, j, s.ops[j]);
        CopyStays(s.db.balances, turn.effect, j, s.ops[j]);
      }
    }
  }

  lemma LockCommit(s: State, i: nat, turn: Turn)
    requires LockInv(s) && i < |s.ops| && LockTurn(s.db.balances, i, turn)
    ensures LockInv(Commit(s, i, turn))
  {
    CopiesAfter(s, i, turn);
    ReplayWrite(s.journal, s.db.balances, turn.effect);
  }

  lemma LockStep(s: State, e: Event)
    requires LockInv(s) && !Overwrites(s, e)
    ensures LockInv(Step(s, e))
  {
    match e
    case Begin(call) =>
      var t := Step(s, e);
      forall j | 0 <= j < |t.ops| ensures CopyOk(t.db.balances, j, t.ops[j]) {
        if j < |s.ops| { assert CopyOk(s.db.balances, j, s.ops[j]); }
      }
    case Advance(i, answer) =>
      if i < |s.ops| {
        EveryLock(s, i, answer);
        LockCommit(s, i, Decide(s.db, i, s.ops[i], answer));
      }
  }

  lemma {:induction false} LocksOk(events: seq<Event>)
    requires NoOverwrite(events)
    ensures LockInv(Run(events))
  {
    if events != [] {
      var before := events[..|events| - 1];
      LocksOk(before);
      LockStep(Run(before), events[|events| - 1]);
    }
  }

  // ---- Consequences for one row --------------------------------------------------

  /** A row's version counts the writes committed to it: none is lost. */
  lemma {:induction false} VersionCountsWrites(journal: seq<Entry>, a: Account)
    requires Lawful(journal)
    ensures Replay(journal, a).Some? <==> Writes(journal, a) > 0
    ensures Replay(journal, a).Some? ==> Replay(journal, a).value.version == Writes(journal, a)
  {
    if journal != [] { VersionCountsWrites(journal[..|journal| - 1], a); }
  }

  /** Money entering a row: its seed, what each reset of `available` added or took, and
      the credited rewards. */
  function Inflow(journal: seq<Entry>, a: Account): int {
    if journal == [] then 0
    else
      var before := journal[..|journal| - 1];
      var e := journal[|journal| - 1];
      Inflow(before, a) +
      if e.account != a then 0
      else match e.change
        case Seeded(x) => x
        case Reset(x) =>
          var row := Replay(before, a);
          if row.Some? then x - row.value.available else 0
        case Credited(_, amount) => amount
        case _ => 0
  }

  lemma {:induction false} TotalIsInflow(journal: seq<Entry>, a: Account)
    requires Lawful(journal)
    ensures Replay(journal, a).None? ==> Inflow(journal, a) == 0
    ensures Replay(journal, a).Some? ==> Total(Replay(journal, a).value) == Inflow(journal, a)
  {
    if journal != [] { TotalIsInflow(journal[..|journal| - 1], a); }
  }
}
