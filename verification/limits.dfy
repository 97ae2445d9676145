/** Where the promises end: steps and runs that break them, and exactly when. */
module Limits {
  import opened Rows
  import opened Protocol
  import opened Lifecycle
  import opened Phases
  import opened Locking
  import opened Accounts
  import opened CleanRuns
  import opened Sums

  // ---- The overwriting upsert ----------------------------------------------------

  lemma WritesAppend(journal: seq<Entry>, e: Entry, a: Account)
    ensures Writes(journal + [e], a) == Writes(journal, a) + (if e.account == a then 1 else 0)
  {
    assert (journal + [e])[..|journal|] == journal;
  }

  ghost predicate VersionsCount(s: State) {
    forall a :: a in s.db.balances ==> s.db.balances[a].version == Writes(s.journal, a)
  }

  /** A step keeps versions equal to the number of committed writes if and only if it is
      not an upsert that finds a row. */
  lemma VersionsCountIff(s: State, e: Event)
    requires LockInv(s)
    ensures VersionsCount(Step(s, e)) <==> !Overwrites(s, e)
  {
    var t := Step(s, e);
    if Overwrites(s, e) {
      var effect := Decide(s.db, e.op, s.ops[e.op], e.answer).effect;
      var a := effect.account;
      OverwriteEffect(s.db, e.op, s.ops[e.op], e.answer);
      VersionCountsWrites(s.journal, a);
      assert Replay(s.journal, a) == Lookup(s.db.balances, a);
      WritesAppend(s.journal, Entry(a, effect.change), a);
      assert t.db.balances[a].version == 1 && Writes(t.journal, a) >= 2;
    } else {
      LockStep(s, e);
      forall a | a in t.db.balances ensures t.db.balances[a].version == Writes(t.journal, a) {
        VersionCountsWrites(t.journal, a);
        assert Replay(t.journal, a) == Lookup(t.db.balances, a);
      }
    }
  }

  lemma OverwriteEffect(db: Tables, i: nat, op: Op, answer: Answer)
    requires var effect := Decide(db, i, op, answer).effect; effect.WriteBalance? && effect.change.Seeded?
    ensures op.SetBalance? && op.spc == InsertBalance && answer == Fine && op.available >= 0
    ensures Decide(db, i, op, answer) == Turn(op.(spc := SetDone(Nothing)), WriteBalance(op.account, Seeded(op.available), BLANK), None)
  {
  }

  /** An overwriting upsert keeps the accounting if and only if it finds nothing pending
      and nothing staked. */
  lemma OverwriteAccountsIff(s: State, e: Event)
    requires LedgerInv(s) && Overwrites(s, e)
    ensures var t, a := Step(s, e), s.ops[e.op].account;
            (PendingOf(t.db.balances, a) == Sum(PendingPart(t, a), |t.ops|) && StakedOf(t.db.balances, a) == Sum(StakedPart(t, a), |t.ops|))
            <==> (s.db.balances[a].pending == 0 && s.db.balances[a].staked == 0)
  {
    var i, n := e.op, |s.ops|;
    OverwriteEffect(s.db, i, s.ops[i], e.answer);
    var t, a, turn := Step(s, e), s.ops[i].account, Decide(s.db, i, s.ops[i], e.answer);
    forall k: nat | 0 <= k < n
      ensures PendingPart(s, a)(k) == PendingPart(t, a)(k) && StakedPart(s, a)(k) == StakedPart(t, a)(k)
    {
      SharesAfter(s, i, turn, a, k);
    }
    SumSame(PendingPart(s, a), PendingPart(t, a), n);
    SumSame(StakedPart(s, a), StakedPart(t, a), n);
    assert PendingOf(s.db.balances, a) == Sum(PendingPart(s, a), n);
  }

  // ---- Concrete runs -------------------------------------------------------------

  predicate AtWrite(op: Op) {
    match op
    case Create(_, pc) => pc.WriteHold? || pc.InsertStake? || pc.MarkFailed? || pc.WriteRollback? || pc.WriteDelegating?
    case Unstake(_, pc) => pc.WriteUnstaking?
    case SetBalance(_, _, pc) => pc.InsertBalance? || pc.WriteSet?
    case Reconcile(_, pc) => pc.WriteStake? || pc.WriteMove?
    case Credit(_, _, _, _, pc) => pc.InsertReward? || pc.WriteCredit?
  }

  /** A call returns an error: injected, or a write that is refused. */
  predicate CallFailed(s: State, e: Event) {
    && e.Advance? && e.op < |s.ops|
    && (e.answer == Fault || (AtWrite(s.ops[e.op]) && Decide(s.db, e.op, s.ops[e.op], e.answer).effect == NoEffect))
  }

  predicate FailureFree(events: seq<Event>) {
    events == [] ||
    (var before := events[..|events| - 1];
     FailureFree(before) && !CallFailed(Run(before), events[|events| - 1]))
  }

  /** `events` is a run into `s` in which no call fails; `safe` excludes overwrites. */
  ghost predicate Leads(events: seq<Event>, s: State, safe: bool) {
    Run(events) == s && FailureFree(events) && (safe ==> NoOverwrite(events))
  }

  lemma Extend(events: seq<Event>, s: State, safe: bool, e: Event) returns (longer: seq<Event>, t: State)
    requires Leads(events, s, safe) && !CallFailed(s, e) && (safe ==> !Overwrites(s, e))
    ensures t == Step(s, e) && Leads(longer, t, safe)
  {
    longer, t := events + [e], Step(s, e);
    assert longer[..|events|] == events;
  }

  const ACCOUNT := Account("customer", "ETH")
  const REQUEST := Request(ACCOUNT, Some(10), "", 0)

  function StakeAt(state: StakeState, version: int): StakeRow {
    StakeRow(1, ACCOUNT, 10, state, "ref", "validator", "", "", version, 0)
  }

  const SET := SetBalance(ACCOUNT, 10, SetDone(Nothing))
  const CREATED := Create(REQUEST, CreateDone(Position(StakeAt(Delegating, 2))))
  const UNSTAKED := Unstake(1, UnstakeDone(Position(StakeAt(Unstaking, 4))))
  const HELD := BalanceRow(0, 10, 0, 2)
  const JOURNAL := [Entry(ACCOUNT, Seeded(10)), Entry(ACCOUNT, Held(1, 10))]

  /** The customer's 10 are held and the one stake is in the given state. */
  function Scene(stake: StakeRow, ops: seq<Op>, winners: map<(nat, StakeState), nat>, asked: seq<ProviderCall>, skipped: set<nat>): State {
    State(Tables(map[ACCOUNT := HELD], map[1 := stake], []), ops, JOURNAL, winners, asked, skipped)
  }

  function Delegating10(): State {
    Scene(StakeAt(Delegating, 2), [SET, CREATED], map[(1, Delegating) := 1], [AskedToStake(1, "ETH", 10)], {})
  }

  lemma Seed() returns (events: seq<Event>, s: State)
    ensures Leads(events, s, true)
    ensures s == State(Tables(map[ACCOUNT := BalanceRow(10, 0, 0, 1)], map[], []), [SET], [Entry(ACCOUNT, Seeded(10))], map[], [], {})
  {
    events, s := [], Empty();
    events, s := Extend(events, s, true, Begin(CallSetBalance(ACCOUNT, 10)));
    events, s := Extend(events, s, true, Advance(0, Fine));
    events, s := Extend(events, s, true, Advance(0, Fine));
    assert s.db.balances == map[ACCOUNT := BalanceRow(10, 0, 0, 1)];
  }

  lemma SeedAndHold() returns (events: seq<Event>, s: State)
    ensures Leads(events, s, true)
    ensures s == State(Tables(map[ACCOUNT := BalanceRow(0, 10, 0, 2)], map[], []),
                       [SetBalance(ACCOUNT, 10, SetDone(Nothing)), Create(REQUEST, InsertStake(BalanceRow(0, 10, 0, 2)))],
                       [Entry(ACCOUNT, Seeded(10)), Entry(ACCOUNT, Held(1, 10))], map[], [], {})
  {
    events, s := Seed();
    events, s := Extend(events, s, true, Begin(CallCreate(REQUEST)));
    events, s := Extend(events, s, true, Advance(1, Fine));
    assert s.ops[1] == Create(REQUEST, WriteHold(BalanceRow(10, 0, 0, 1)));
    events, s := Extend(events, s, true, Advance(1, Fine));
    assert s.db.balances == map[ACCOUNT := BalanceRow(0, 10, 0, 2)];
  }

  lemma ReachStored() returns (events: seq<Event>, s: State)
    ensures Leads(events, s, true)
    ensures s == Scene(PendingStake(1, REQUEST), [SET, Create(REQUEST, CallStake(HELD))], map[], [], {})
  {
    events, s := SeedAndHold();
    events, s := Extend(events, s, true, Advance(1, Fine));
    assert s.ops == [SET, Create(REQUEST, CallStake(HELD))];
  }

  lemma ReachDelegating() returns (events: seq<Event>)
    ensures Leads(events, Delegating10(), true)
  {
    var s;
    events, s := ReachStored();
    events, s := Extend(events, s, true, Advance(1, Accepted("validator", "ref")));
    assert s.ops == [SET, Create(REQUEST, WriteDelegating("validator", "ref"))];
    events, s := Extend(events, s, true, Advance(1, Fine));
    assert s.ops == Delegating10().ops;
  }

  /** One poller has won DELEGATING -> ACTIVE and not yet read the balance. */
  const CONFIRMING := Reconcile(StakeAt(Delegating, 2), ReadForMove(Active))

  function Confirming(ops: seq<Op>): State {
    Scene(StakeAt(Active, 3), [SET, CREATED, CONFIRMING] + ops, map[(1, Delegating) := 1, (1, Active) := 2], [AskedToStake(1, "ETH", 10)], {})
  }

  lemma ReachReported() returns (events: seq<Event>, s: State)
    ensures Leads(events, s, true)
    ensures s == Delegating10().(ops := Delegating10().ops + [Reconcile(StakeAt(Delegating, 2), WriteStake(Active))])
  {
    events := ReachDelegating();
    s := Delegating10();
    events, s := Extend(events, s, true, Begin(CallReconcile(1)));
    events, s := Extend(events, s, true, Advance(2, Reported(StatusActive)));
    assert s.ops == Delegating10().ops + [Reconcile(StakeAt(Delegating, 2), WriteStake(Active))];
  }

  lemma ReachConfirming() returns (events: seq<Event>)
    ensures Leads(events, Confirming([]), true)
  {
    var s;
    events, s := ReachReported();
    events, s := Extend(events, s, true, Advance(2, Fine));
    assert s.ops == Confirming([]).ops;
  }

  /** Meanwhile the customer has asked to unstake. */
  const WINNERS := map[(1, Delegating) := 1, (1, Active) := 2, (1, Unstaking) := 3]
  const ASKED := [AskedToStake(1, "ETH", 10), AskedToUnstake("ref")]

  function Overtaken(ops: seq<Op>): State {
    Scene(StakeAt(Unstaking, 4), [SET, CREATED, CONFIRMING, UNSTAKED] + ops, WINNERS, ASKED, {})
  }

  lemma ReachUnstake() returns (events: seq<Event>)
    ensures Leads(events, Confirming([Unstake(1, CallUnstake(StakeAt(Active, 3)))]), true)
  {
    events := ReachConfirming();
    var s := Confirming([]);
    events, s := Extend(events, s, true, Begin(CallUnstaking(1)));
    events, s := Extend(events, s, true, Advance(3, Fine));
    assert s.ops == Confirming([Unstake(1, CallUnstake(StakeAt(Active, 3)))]).ops;
  }

  lemma ReachAsked() returns (events: seq<Event>, s: State)
    ensures Leads(events, s, true)
    ensures s == Confirming([Unstake(1, WriteUnstaking(StakeAt(Active, 3)))]).(asked := ASKED)
  {
    events := ReachUnstake();
    s := Confirming([Unstake(1, CallUnstake(StakeAt(Active, 3)))]);
    events, s := Extend(events, s, true, Advance(3, Fine));
    assert s.ops == Confirming([Unstake(1, WriteUnstaking(StakeAt(Active, 3)))]).ops;
  }

  lemma ReachOvertaken() returns (events: seq<Event>)
    ensures Leads(events, Overtaken([]), true)
  {
    var s;
    events, s := ReachAsked();
    events, s := Extend(events, s, true, Advance(3, Fine));
    assert s.ops == Overtaken([]).ops;
  }

  lemma ReachWithdrawal() returns (events: seq<Event>)
    ensures Leads(events, Overtaken([Reconcile(StakeAt(Unstaking, 4), WriteStake(Withdrawn))]), true)
  {
    events := ReachOvertaken();
    var s := Overtaken([]);
    events, s := Extend(events, s, true, Begin(CallReconcile(1)));
    events, s := Extend(events, s, true, Advance(4, Reported(StatusWithdrawn)));
    assert s.ops == Overtaken([Reconcile(StakeAt(Unstaking, 4), WriteStake(Withdrawn))]).ops;
  }

  /** A second poller has moved the stake to WITHDRAWN; its `CompleteUnstake` finds nothing
      staked and is skipped. */
  function Refused(confirming: Op, staked: ReconcilePc, skipped: set<nat>): State {
    Scene(StakeAt(Withdrawn, 5), [SET, CREATED, confirming, UNSTAKED, Reconcile(StakeAt(Unstaking, 4), staked)],
          WINNERS[(1, Withdrawn) := 4], ASKED, skipped)
  }

  lemma WithdrawalTurn()
    ensures var s := Overtaken([Reconcile(StakeAt(Unstaking, 4), WriteStake(Withdrawn))]);
            Decide(s.db, 4, s.ops[4], Fine)
            == Turn(Reconcile(StakeAt(Unstaking, 4), ReadForMove(Withdrawn)), MoveStake(StakeAt(Withdrawn, 5)), None)
  {
  }

  lemma ReachWithdrawn() returns (events: seq<Event>)
    ensures Leads(events, Refused(CONFIRMING, ReadForMove(Withdrawn), {}), true)
  {
    WithdrawalTurn();
    events := ReachWithdrawal();
    var s := Overtaken([Reconcile(StakeAt(Unstaking, 4), WriteStake(Withdrawn))]);
    events, s := Extend(events, s, true, Advance(4, Fine));
    assert s.ops == Refused(CONFIRMING, ReadForMove(Withdrawn), {}).ops;
  }

  lemma ReachRefused() returns (events: seq<Event>)
    ensures Leads(events, Refused(CONFIRMING, ReconcileDone, {1}), true)
  {
    events := ReachWithdrawn();
    var s := Refused(CONFIRMING, ReadForMove(Withdrawn), {});
    events, s := Extend(events, s, true, Advance(4, Fine));
    assert s.ops == Refused(CONFIRMING, ReconcileDone, {1}).ops;
  }

  lemma ReachLateRead() returns (events: seq<Event>)
    ensures Leads(events, Late(), true)
  {
    events := ReachRefused();
    var s := Refused(CONFIRMING, ReconcileDone, {1});
    events, s := Extend(events, s, true, Advance(2, Fine));
    assert s.ops == Late().ops;
  }

  function Misplaced(): State {
    Refused(Reconcile(StakeAt(Delegating, 2), ReconcileDone), ReconcileDone, {1}).(
    db := Tables(map[ACCOUNT := BalanceRow(0, 0, 10, 3)], map[1 := StakeAt(Withdrawn, 5)], []),
    journal := JOURNAL + [Entry(ACCOUNT, Confirmed(1, 10))])
  }

  function Late(): State {
    Refused(Reconcile(StakeAt(Delegating, 2), WriteMove(Active, HELD)), ReconcileDone, {1})
  }

  function LateTurn(): Turn {
    Turn(Reconcile(StakeAt(Delegating, 2), ReconcileDone), WriteBalance(ACCOUNT, Confirmed(1, 10), HELD), None)
  }

  lemma LateConfirmation()
    ensures Decide(Late().db, 2, Late().ops[2], Fine) == LateTurn()
  {
  }

  lemma LateCommit()
    ensures Commit(Late(), 2, LateTurn()) == Misplaced()
  {
    var t := Commit(Late(), 2, LateTurn());
    assert t.ops == Misplaced().ops && t.db.balances == Misplaced().db.balances;
  }

  lemma ReachMisplaced() returns (events: seq<Event>)
    ensures Leads(events, Misplaced(), true)
  {
    events := ReachLateRead();
    LateConfirmation();
    LateCommit();
    var t;
    events, t := Extend(events, Late(), true, Advance(2, Fine));
  }

  /** The withdrawal overtakes the confirmation: `CompleteUnstake` is refused and skipped
      for good, then the late confirmation stakes the amount of a WITHDRAWN stake.  No call
      failed, yet at rest staked is 10 and no stake is at work. */
  lemma RefusedCompletion() returns (events: seq<Event>)
    ensures NoOverwrite(events) && FailureFree(events) && Quiescent(Run(events))
    ensures StakedOf(Run(events).db.balances, ACCOUNT) == 10
    ensures Sum(WorkingPart(Run(events), ACCOUNT), |Run(events).ops|) == 0
  {
    events := ReachMisplaced();
    SumZero(WorkingPart(Misplaced(), ACCOUNT), 5);
  }

  /** Two seeding calls have both found no row; one has inserted it. */
  function Seeded10(ops: seq<Op>): State {
    State(Tables(map[ACCOUNT := BalanceRow(10, 0, 0, 1)], map[], []),
          [SET, SetBalance(ACCOUNT, 5, InsertBalance)] + ops, [Entry(ACCOUNT, Seeded(10))], map[], [], {})
  }

  lemma ReachSeeded() returns (events: seq<Event>)
    ensures Leads(events, Seeded10([]), true)
  {
    events := [];
    var s := Empty();
    events, s := Extend(events, s, true, Begin(CallSetBalance(ACCOUNT, 10)));
    events, s := Extend(events, s, true, Begin(CallSetBalance(ACCOUNT, 5)));
    events, s := Extend(events, s, true, Advance(0, Fine));
    events, s := Extend(events, s, true, Advance(1, Fine));
    assert s.ops == [SetBalance(ACCOUNT, 10, InsertBalance), SetBalance(ACCOUNT, 5, InsertBalance)];
    events, s := Extend(events, s, true, Advance(0, Fine));
    assert s.ops == Seeded10([]).ops;
  }

  function Held10(): State {
    State(Tables(map[ACCOUNT := HELD], map[], []),
          [SET, SetBalance(ACCOUNT, 5, InsertBalance), Create(REQUEST, InsertStake(HELD))],
          [Entry(ACCOUNT, Seeded(10)), Entry(ACCOUNT, Held(2, 10))], map[], [], {})
  }

  lemma ReachHeld() returns (events: seq<Event>)
    ensures Leads(events, Held10(), true)
  {
    events := ReachSeeded();
    var s := Seeded10([]);
    events, s := Extend(events, s, true, Begin(CallCreate(REQUEST)));
    assert s.ops == Seeded10([Create(REQUEST, ReadForHold)]).ops;
    events, s := Extend(events, s, true, Advance(2, Fine));
    assert s.ops == Seeded10([Create(REQUEST, WriteHold(BalanceRow(10, 0, 0, 1)))]).ops;
    events, s := Extend(events, s, true, Advance(2, Fine));
    assert s.ops == Held10().ops;
  }

  lemma HoldOverwritten()
    ensures Overwrites(Held10(), Advance(1, Fine)) && Held10().ops[1].account == ACCOUNT
    ensures Held10().db.balances[ACCOUNT].pending == 10
  {
  }

  /** Two concurrent first deposits lose a hold taken between their upserts. */
  lemma LostHold() returns (events: seq<Event>)
    ensures NoOverwrite(events) && FailureFree(events) && Overwrites(Run(events), Advance(1, Fine))
    ensures var t := Step(Run(events), Advance(1, Fine));
            PendingOf(t.db.balances, ACCOUNT) != Sum(PendingPart(t, ACCOUNT), |t.ops|)
            || StakedOf(t.db.balances, ACCOUNT) != Sum(StakedPart(t, ACCOUNT), |t.ops|)
  {
    events := ReachHeld();
    LedgerOk(events);
    HoldOverwritten();
    OverwriteAccountsIff(Held10(), Advance(1, Fine));
  }
}
